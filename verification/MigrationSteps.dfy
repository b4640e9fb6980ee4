/** Each step of a migration keeps documents and publishers in step with its journal. */
module MigrationSteps {
  import opened Wrappers
  import opened SubscriptionPublisher
  import opened MigrationJournal

  lemma {:induction false} InputsNeverRefused(publishers: set<Alias>, j: Journal, w: World, base: World)
    requires Shape(publishers, j) && Tracks(j, w, base) && !j.phase.Preparing? && !j.phase.RolledBack?
    ensures InputsOk(j, w.source, w.target)
  {
  }

  /** Undoing the source half restores it exactly. */
  lemma {:induction false} RestoredSource(publishers: set<Alias>, j: Journal)
    requires Shape(publishers, j) && j.after.Some?
    ensures Updated(j.sourceBefore, j.after.value.registryBefore, None) == j.sourceBefore
    ensures Updated(j.after.value.source, j.after.value.registryBefore, None) == j.sourceBefore
  {
    var i := j.after.value;
    assert (j.sourceBefore.registry + i.registryBefore) == j.sourceBefore.registry;
    assert (j.sourceBefore.registry + i.sourceDelivery) + i.registryBefore == j.sourceBefore.registry;
  }

  /** Repeating the target half changes nothing. */
  lemma {:induction false} RepeatedTarget(publishers: set<Alias>, j: Journal)
    requires Shape(publishers, j) && j.after.Some?
    ensures var i := j.after.value;
            && Updated(j.candidate, i.targetDelivery, i.targetIdentity) == i.target
            && Updated(i.target, i.targetDelivery, i.targetIdentity) == i.target
            && Updated(i.source, i.sourceDelivery, i.sourceIdentity) == i.source
            && Updated(j.sourceBefore, i.sourceDelivery, i.sourceIdentity) == i.source
  {
    var i := j.after.value;
    assert (j.candidate.registry + i.targetDelivery) + i.targetDelivery == j.candidate.registry + i.targetDelivery;
    assert (j.sourceBefore.registry + i.sourceDelivery) + i.sourceDelivery == j.sourceBefore.registry + i.sourceDelivery;
  }

  /** Moving one known row toward either end keeps a publisher in step. */
  lemma {:induction false} RowStep(j: Journal, a: Alias, pub: Publisher, was: Publisher, t: Token, rollback: bool)
    requires PublisherTracks(j, a, pub, was) && t in j.grants && a in j.grants[t].before
    requires if rollback then j.phase.RollingBack? else j.phase.Publishing? || j.phase.Published?
    requires GrantShape(j.grants[t]) && DenyListFits(pub.revoked)
    requires !rollback || pub.Row(t).Some? || j.grants[t].before[a].Some? ==>
               t !in pub.revoked && !pub.Expired(j.grants[t].prior)
    ensures var row := pub.Row(t); row == Wanted(j, a, t, rollback) || row == Allowed(j, a, t, rollback)
    ensures var r := CompareAndSwap(pub, t, Allowed(j, a, t, rollback), Wanted(j, a, t, rollback)); r.Some?
  {
    assert RowTracks(j, t, pub.Row(t), was.Row(t));
  }

  lemma {:induction false} RowStepTracks(j: Journal, a: Alias, pub: Publisher, pub': Publisher, was: Publisher, t: Token, rollback: bool)
    requires PublisherTracks(j, a, pub, was) && t in j.grants && a in j.grants[t].before
    requires if rollback then j.phase.RollingBack? else j.phase.Publishing? || j.phase.Published?
    requires CompareAndSwap(pub, t, Allowed(j, a, t, rollback), Wanted(j, a, t, rollback)) == Some(pub')
    ensures PublisherTracks(j, a, pub', was)
  {
    forall u
      ensures RowTracks(j, u, pub'.Row(u), was.Row(u))
    {
      assert RowTracks(j, u, pub.Row(u), was.Row(u));
    }
  }

  lemma {:induction false} LaterRefl(j: Journal)
    ensures Later(j, j)
  {
  }

  lemma {:induction false} LaterTransitive(a: Journal, b: Journal, c: Journal)
    requires Later(a, b) && Later(b, c)
    ensures Later(a, c)
  {
  }

  /** An accepted move of a live row was possible in that direction. */
  lemma {:induction false} MovedWasReady(j: Journal, a: Alias, pub: Publisher, was: Publisher, t: Token, rollback: bool)
    requires PublisherTracks(j, a, pub, was) && t in j.grants && a in j.grants[t].before && GrantShape(j.grants[t])
    requires if rollback then j.phase.RollingBack? else j.phase.Publishing? || j.phase.Published?
    requires pub.Row(t).Some? ==> t !in pub.revoked && !pub.Expired(pub.rows[t])
    requires CompareAndSwap(pub, t, Allowed(j, a, t, rollback), Wanted(j, a, t, rollback)).Some?
    ensures !rollback || pub.Row(t).Some? || j.grants[t].before[a].Some? ==>
              t !in pub.revoked && !pub.Expired(j.grants[t].prior)
  {
    assert RowTracks(j, t, pub.Row(t), was.Row(t));
  }

  lemma {:induction false} SettleStep(j: Journal, w: World, base: World, a: Alias, t: Token, rollback: bool)
    requires Tracks(j, w, base) && a in w.pubs && t in j.grants && a in j.grants[t].before && GrantShape(j.grants[t])
    requires if rollback then j.phase.RollingBack? else j.phase.Publishing? || j.phase.Published?
    ensures PairReady(j, w, a, t, rollback) && DenyListFits(w.pubs[a].revoked) ==>
              && (w.pubs[a].Row(t) == Wanted(j, a, t, rollback) || w.pubs[a].Row(t) == Allowed(j, a, t, rollback))
              && CompareAndSwap(w.pubs[a], t, Allowed(j, a, t, rollback), Wanted(j, a, t, rollback)).Some?
    ensures var r := CompareAndSwap(w.pubs[a], t, Allowed(j, a, t, rollback), Wanted(j, a, t, rollback));
            r.Some? ==>
              && Tracks(j, WithPublisher(w, a, r.value), base)
              && ((w.pubs[a].Row(t).Some? ==> t !in w.pubs[a].revoked && !w.pubs[a].Expired(w.pubs[a].rows[t])) ==>
                    PairReady(j, w, a, t, rollback))
    ensures w.pubs[a].Row(t).Some? && PairReady(j, w, a, t, rollback) ==> !w.pubs[a].Expired(w.pubs[a].rows[t])
  {
    hide DocumentsTrack, CompareAndSwap;
    assert PublisherTracks(j, a, w.pubs[a], base.pubs[a]);
    assert RowTracks(j, t, w.pubs[a].Row(t), base.pubs[a].Row(t));
    if PairReady(j, w, a, t, rollback) && DenyListFits(w.pubs[a].revoked) {
      RowStep(j, a, w.pubs[a], base.pubs[a], t, rollback);
    }
    var r := CompareAndSwap(w.pubs[a], t, Allowed(j, a, t, rollback), Wanted(j, a, t, rollback));
    if r.Some? {
      RowStepTracks(j, a, w.pubs[a], r.value, base.pubs[a], t, rollback);
      if w.pubs[a].Row(t).Some? ==> t !in w.pubs[a].revoked && !w.pubs[a].Expired(w.pubs[a].rows[t]) {
        MovedWasReady(j, a, w.pubs[a], base.pubs[a], t, rollback);
      }
    }
  }

  lemma {:induction false} OthersStill(todo: set<(Alias, Token)>, w: World, w': World, seen: World, a: Alias, t: Token)
    requires OnlyRow(w, w', a, t) && AllStill(todo, w, seen) && (a, t) in todo
    ensures AllStill(todo - {(a, t)}, w', seen)
  {
  }

  lemma {:induction false} OthersSettled(done: set<(Alias, Token)>, j: Journal, w: World, w': World, a: Alias, t: Token, rollback: bool)
    requires OnlyRow(w, w', a, t) && AllSettled(done, j, w, rollback) && PairSettled(j, w', a, t, rollback)
    ensures AllSettled(done + {(a, t)}, j, w', rollback)
  {
  }

  /** A settled row is at the end of its grant. */
  lemma {:induction false} OnlyGrantsStep(j: Journal, w0: World, w: World, w': World, a: Alias, t: Token, rollback: bool)
    requires OnlyGrants(j, w0, w, rollback) && OnlyRow(w, w', a, t)
    requires w' == w || PairSettled(j, w', a, t, rollback)
    ensures OnlyGrants(j, w0, w', rollback)
  {
    forall b | b in w0.pubs
      ensures RowsMoved(j, b, w'.pubs[b], w0.pubs[b], rollback)
    {
      assert RowsMoved(j, b, w.pubs[b], w0.pubs[b], rollback);
      forall u
        ensures RowMoved(j, b, u, w'.pubs[b].Row(u), w0.pubs[b].Row(u), rollback)
      {
        assert RowMoved(j, b, u, w.pubs[b].Row(u), w0.pubs[b].Row(u), rollback);
      }
    }
  }

  /** Moving journaled rows changes neither deny lists nor clocks. */
  lemma {:induction false} ReadyKept(j: Journal, w: World, w': World, a: Alias, t: Token, rollback: bool)
    requires OnlyGrants(j, w, w', rollback)
    requires a in w.pubs ==> w'.pubs[a].Row(t) == w.pubs[a].Row(t)
    ensures PairReady(j, w', a, t, rollback) <==> PairReady(j, w, a, t, rollback)
  {
    if a in w.pubs {
      assert RowsMoved(j, a, w'.pubs[a], w.pubs[a], rollback);
    }
  }

  lemma {:induction false} PairsSettled(j: Journal, w: World, publishers: set<Alias>, rollback: bool)
    ensures AllSettled(Pairs(j, publishers), j, w, rollback) <==> Settled(j, w, publishers, rollback)
  {
    if AllSettled(Pairs(j, publishers), j, w, rollback) {
      forall a, t | a in publishers && t in j.grants
        ensures PairSettled(j, w, a, t, rollback)
      {
        assert (a, t) in Pairs(j, publishers);
      }
    }
  }

  lemma {:induction false} PairsReady(first: Alias, publishers: set<Alias>, j: Journal, w: World, rollback: bool)
    requires SnapshotsOk(first, publishers, j, w) && forall t | t in j.grants :: Unexpired(j.grants[t], w.due)
    ensures AllReady(Pairs(j, publishers), j, w, rollback) <==> Ready(first, publishers, j, w, rollback)
  {
    hide SnapshotsOk, PairReady;
    if AllReady(Pairs(j, publishers), j, w, rollback) {
      forall a, t | a in publishers && t in j.grants
        ensures PairReady(j, w, a, t, rollback)
      {
        assert (a, t) in Pairs(j, publishers);
      }
    }
  }

  lemma {:induction false} NothingMoved(j: Journal, w: World, rollback: bool)
    ensures OnlyGrants(j, w, w, rollback)
  {
  }

  lemma {:induction false} NothingDone(j: Journal, w: World, publishers: set<Alias>, rollback: bool)
    requires publishers <= w.pubs.Keys
    ensures AllSettled({}, j, w, rollback) && AllReady({}, j, w, rollback) && OnlyGrants(j, w, w, rollback)
    ensures AllStill(Pairs(j, publishers), w, w)
  {
  }

  lemma {:induction false} PairUnchanged(j: Journal, w0: World, w: World, a: Alias, t: Token, rollback: bool,
                      todo: set<(Alias, Token)>, seen: World)
    requires OnlyGrants(j, w0, w, rollback) && AllStill(todo, w, seen) && (a, t) in todo && seen.pubs == w0.pubs
    ensures StillAs(w, a, t, seen)
    ensures PairReady(j, w, a, t, rollback) <==> PairReady(j, w0, a, t, rollback)
  {
    assert StillAs(w, a, t, seen);
    ReadyKept(j, w0, w, a, t, rollback);
  }

  /** What one reconciled row adds to a reconciliation in progress. */
  lemma {:induction false} ReconcileStep(j: Journal, w0: World, w: World, w': World, seen: World, a: Alias, t: Token, rollback: bool,
                      todo: set<(Alias, Token)>, done: set<(Alias, Token)>)
    requires OnlyGrants(j, w0, w, rollback) && OnlyRow(w, w', a, t)
    requires w' == w || PairSettled(j, w', a, t, rollback)
    requires AllStill(todo, w, seen) && (a, t) in todo
    ensures OnlyGrants(j, w0, w', rollback)
    ensures AllStill(todo - {(a, t)}, w', seen)
    ensures AllSettled(done, j, w, rollback) && PairSettled(j, w', a, t, rollback) ==>
              AllSettled(done + {(a, t)}, j, w', rollback)
    ensures AllReady(done, j, w0, rollback) && PairReady(j, w0, a, t, rollback) ==>
              AllReady(done + {(a, t)}, j, w0, rollback)
  {
    hide RowsMoved, PairReady;
    OnlyGrantsStep(j, w0, w, w', a, t, rollback);
    OthersStill(todo, w, w', seen, a, t);
    if AllSettled(done, j, w, rollback) && PairSettled(j, w', a, t, rollback) {
      OthersSettled(done, j, w, w', a, t, rollback);
    }
  }

  lemma {:induction false} PairShape(publishers: set<Alias>, j: Journal, a: Alias, t: Token)
    requires Shape(publishers, j) && j.after.Some? && (a, t) in Pairs(j, publishers)
    ensures a in publishers && t in j.grants && a in j.grants[t].before && GrantShape(j.grants[t])
  {
  }

  lemma {:induction false} ProbeTracks(j: Journal, w: World, base: World, a: Alias, token: Token, probe: Envelope)
    requires Tracks(j, w, base) && a in w.pubs && token !in j.grants && token !in w.pubs[a].rows
    requires IsRouteProbe(probe)
    ensures Tracks(j, WithPublisher(w, a, w.pubs[a].With(token, Some(probe))), base)
  {
    var pub, pub', was := w.pubs[a], w.pubs[a].With(token, Some(probe)), base.pubs[a];
    assert PublisherTracks(j, a, pub, was);
    forall t
      ensures RowTracks(j, t, pub'.Row(t), was.Row(t))
    {
      assert RowTracks(j, t, pub.Row(t), was.Row(t));
    }
    assert PublisherTracks(j, a, pub', was);
  }

  lemma {:induction false} IntentShaped(j: Journal, sourceDelivery: map<Name, string>, targetDelivery: map<Name, string>, identity: string)
    requires j.devices <= j.sourceBefore.registry.Keys && j.devices <= j.candidate.registry.Keys
    requires j.devices != {} ==> j.sourceBefore.identity.Some?
    requires j.devices <= sourceDelivery.Keys && j.devices <= targetDelivery.Keys
    ensures IntentShape(j, IntentOf(j, j.sourceBefore, j.candidate, sourceDelivery, targetDelivery, identity))
  {
  }

  /** A fresh probe is accepted, stays in step while it is there, and leaves no trace once deleted. */
  lemma {:induction false} ProbeStep(j: Journal, w: World, base: World, a: Alias, token: Token, stamp: string, nonce: string)
    requires Tracks(j, w, base) && Fresh(j, w, a, token, stamp, nonce)
    ensures OnlyProbes(w, w, map[a := token], stamp)
    ensures var probe := Probe(stamp, nonce);
            var created := CompareAndSwap(w.pubs[a], token, None, Some(probe));
            && (created.Some? <==> DenyListFits(w.pubs[a].revoked))
            && (created.Some? ==>
                  && created.value == w.pubs[a].With(token, Some(probe))
                  && Tracks(j, WithPublisher(w, a, created.value), base)
                  && OnlyProbes(w, WithPublisher(w, a, created.value), map[a := token], stamp)
                  && CompareAndSwap(created.value, token, Some(probe), None) == Some(w.pubs[a]))
    ensures WithPublisher(WithPublisher(w, a, w.pubs[a].With(token, Some(Probe(stamp, nonce)))), a, w.pubs[a]) == w
  {
    hide Tracks;
    var probe := Probe(stamp, nonce);
    ProbeTracks(j, w, base, a, token, probe);
    var there := WithPublisher(w, a, w.pubs[a].With(token, Some(probe)));
    assert w.pubs[a].rows[token := probe] - {token} == w.pubs[a].rows;
    assert WithPublisher(there, a, w.pubs[a]).pubs == w.pubs;
  }

  lemma {:induction false} RecordedShape(g: MigrationGrant, t: Token, publishers: set<Alias>, pubs: map<Alias, Publisher>)
    requires GrantShape(g) && g.before.Keys <= publishers && publishers <= pubs.Keys
    requires GrantRecordable(g, t, publishers, pubs)
    ensures GrantShape(Recorded(g, t, publishers, pubs)) && Recorded(g, t, publishers, pubs).before.Keys == publishers
  {
  }

  /** The journal publication starts from keeps every earlier promise. */
  lemma {:induction false} StartShape(publishers: set<Alias>, j: Journal, pubs: map<Alias, Publisher>, i: Intent)
    requires Shape(publishers, j) && j.phase.Prepared? && AllRecordable(j, publishers, pubs) && IntentShape(j, i)
    ensures var j' := j.(phase := Publishing, grants := AllRecorded(j, publishers, pubs), after := Some(i));
            Shape(publishers, j') && Later(j, j')
  {
    hide IntentShape, GrantShape, GrantRecordable;
    var j' := j.(phase := Publishing, grants := AllRecorded(j, publishers, pubs), after := Some(i));
    forall t | t in j.grants
      ensures GrantShape(j'.grants[t]) && j'.grants[t].before.Keys == publishers
    {
      RecordedShape(j.grants[t], t, publishers, pubs);
    }
    SameIntent(j, j', i);
  }

  lemma {:induction false} SameIntent(j: Journal, j': Journal, i: Intent)
    requires IntentShape(j, i) && j'.sourceBefore == j.sourceBefore && j'.candidate == j.candidate && j'.devices == j.devices
    ensures IntentShape(j', i)
  {
  }

  lemma {:induction false} StartTracks(publishers: set<Alias>, j: Journal, w: World, base: World, i: Intent)
    requires Tracks(j, w, base) && j.phase.Prepared? && publishers == w.pubs.Keys && AllRecordable(j, publishers, w.pubs)
    ensures Tracks(j.(phase := Publishing, grants := AllRecorded(j, publishers, w.pubs), after := Some(i)), w, base)
  {
    var j' := j.(phase := Publishing, grants := AllRecorded(j, publishers, w.pubs), after := Some(i));
    forall a | a in w.pubs
      ensures PublisherTracks(j', a, w.pubs[a], base.pubs[a])
    {
      forall t
        ensures RowTracks(j', t, w.pubs[a].Row(t), base.pubs[a].Row(t))
      {
        assert RowTracks(j, t, w.pubs[a].Row(t), base.pubs[a].Row(t));
      }
    }
  }

  /** With every row at its new end, writing the source half is the last step of a publication. */
  lemma {:induction false} CommitTracks(j: Journal, w: World, base: World, publishers: set<Alias>)
    requires Tracks(j, w, base) && Settled(j, w, publishers, false) && publishers == w.pubs.Keys
    requires (j.phase.Publishing? || j.phase.Published?) && j.after.Some? && w.target == j.after.value.target
    ensures Tracks(j.(phase := Published), w.(source := j.after.value.source), base)
  {
    var j' := j.(phase := Published);
    forall a | a in w.pubs
      ensures PublisherTracks(j', a, w.pubs[a], base.pubs[a])
    {
      forall t
        ensures RowTracks(j', t, w.pubs[a].Row(t), base.pubs[a].Row(t))
      {
        assert RowTracks(j, t, w.pubs[a].Row(t), base.pubs[a].Row(t));
        if t in j.grants {
          assert PairSettled(j, w, a, t, false);
        }
      }
    }
  }

  /** With every row back at its predecessor, restoring the source registry ends a rollback. */
  lemma {:induction false} RollbackTracks(j: Journal, w: World, base: World, publishers: set<Alias>, restored: Document)
    requires Shape(publishers, j) && Tracks(j, w, base) && Settled(j, w, publishers, true) && publishers == w.pubs.Keys
    requires j.phase.RollingBack? && w.target == j.undo.value.target && restored == j.sourceBefore
    ensures Tracks(j.(phase := RolledBack), w.(source := restored), base)
  {
    var j' := j.(phase := RolledBack);
    forall a | a in w.pubs
      ensures PublisherTracks(j', a, w.pubs[a], base.pubs[a])
    {
      forall t
        ensures RowTracks(j', t, w.pubs[a].Row(t), base.pubs[a].Row(t))
      {
        assert RowTracks(j, t, w.pubs[a].Row(t), base.pubs[a].Row(t));
        if t in j.grants {
          assert PairSettled(j, w, a, t, true);
        }
      }
    }
  }

  lemma {:induction false} ShapePublished(publishers: set<Alias>, j: Journal)
    requires Shape(publishers, j) && (j.phase.Publishing? || j.phase.Published?)
    ensures Shape(publishers, j.(phase := Published)) && Later(j, j.(phase := Published))
  {
    hide GrantShape, IntentShape;
    var j' := j.(phase := Published);
    assert IntentShape(j', j.after.value) by { SameIntent(j, j', j.after.value); }
  }

  lemma {:induction false} ShapeRolledBack(publishers: set<Alias>, j: Journal)
    requires Shape(publishers, j) && !j.phase.RolledBack?
    ensures Shape(publishers, j.(phase := RolledBack)) && Later(j, j.(phase := RolledBack))
  {
    hide GrantShape, IntentShape;
    var j' := j.(phase := RolledBack);
    if j.after.Some? {
      assert IntentShape(j', j.after.value) by { SameIntent(j, j', j.after.value); }
    }
  }

  lemma {:induction false} ShapeRollingBack(publishers: set<Alias>, j: Journal, u: Undo)
    requires Shape(publishers, j) && j.after.Some? && Rank(j.phase) <= 4
    ensures var j' := j.(phase := RollingBack, undo := Some(u)); Shape(publishers, j') && Later(j, j')
  {
    hide GrantShape, IntentShape;
    var j' := j.(phase := RollingBack, undo := Some(u));
    assert IntentShape(j', j.after.value) by { SameIntent(j, j', j.after.value); }
  }

  /** Entering (or re-entering) a rollback changes no document and no row. */
  lemma {:induction false} RollingBackTracks(publishers: set<Alias>, j: Journal, w: World, base: World)
    requires Shape(publishers, j) && Tracks(j, w, base)
    requires j.phase.Publishing? || j.phase.Published? || j.phase.RollingBack?
    ensures Tracks(j.(phase := RollingBack, undo := Some(UndoOf(j, w.source, w.target))), w, base)
    ensures UndoOf(j, w.source, w.target).source == j.sourceBefore
  {
    var j' := j.(phase := RollingBack, undo := Some(UndoOf(j, w.source, w.target)));
    RestoredSource(publishers, j);
    forall a | a in w.pubs
      ensures PublisherTracks(j', a, w.pubs[a], base.pubs[a])
    {
      forall t
        ensures RowTracks(j', t, w.pubs[a].Row(t), base.pubs[a].Row(t))
      {
        assert RowTracks(j, t, w.pubs[a].Row(t), base.pubs[a].Row(t));
      }
    }
  }

  lemma {:induction false} PublishedIsMigrated(j: Journal, w: World, base: World, publishers: set<Alias>)
    requires Tracks(j, w, base) && j.phase.Published? && publishers == w.pubs.Keys
    ensures Migrated(j, w, publishers)
  {
    forall a, t | a in publishers && t in j.grants
      ensures w.pubs[a].Row(t) == Some(j.grants[t].next)
    {
      assert RowTracks(j, t, w.pubs[a].Row(t), base.pubs[a].Row(t));
    }
  }

  lemma {:induction false} RolledBackIsUndone(j: Journal, w: World, base: World, publishers: set<Alias>)
    requires Tracks(j, w, base) && j.phase.RolledBack? && publishers == w.pubs.Keys
    ensures Undone(j, w, base, publishers)
  {
    forall a, t | a in publishers && t in j.grants
      ensures w.pubs[a].Row(t) == base.pubs[a].Row(t)
    {
      assert RowTracks(j, t, w.pubs[a].Row(t), base.pubs[a].Row(t));
    }
  }

  lemma {:induction false} NoProbes(w: World, tokens: map<Alias, Token>, stamp: string)
    ensures OnlyProbes(w, w, tokens, stamp)
  {
  }

  lemma {:induction false} SettledElsewhere(j: Journal, w: World, w': World, publishers: set<Alias>, rollback: bool)
    requires Settled(j, w, publishers, rollback) && w'.pubs == w.pubs
    ensures Settled(j, w', publishers, rollback)
  {
    forall a, t | a in publishers && t in j.grants
      ensures PairSettled(j, w', a, t, rollback)
    {
      assert PairSettled(j, w, a, t, rollback);
    }
  }

  lemma {:induction false} PreparedInputs(publishers: set<Alias>, j: Journal, source: Document, target: Document)
    requires Shape(publishers, j) && j.phase.Prepared? && InputsOk(j, source, target)
    ensures source == j.sourceBefore && target == j.candidate
    ensures j.devices <= source.registry.Keys && j.devices <= target.registry.Keys
  {
  }

  lemma {:induction false} AfterSome(publishers: set<Alias>, j: Journal)
    requires Shape(publishers, j) && (j.phase.Publishing? || j.phase.Published? || j.phase.RollingBack?)
    ensures j.after.Some?
  {
  }

  /** Readiness looks at nothing in the journal that a migration step changes. */
  lemma {:induction false} SameReady(first: Alias, publishers: set<Alias>, j: Journal, j': Journal, w: World, rollback: bool)
    requires Later(j, j') && (rollback ==> j.after.Some?)
    ensures Ready(first, publishers, j, w, rollback) <==> Ready(first, publishers, j', w, rollback)
  {
    hide Snapshotable;
    SameClean(first, publishers, j, j', w);
    hide SnapshotsClean;
    forall a, t
      ensures PairReady(j, w, a, t, rollback) <==> PairReady(j', w, a, t, rollback)
    {
    }
  }

  lemma {:induction false} SameClean(first: Alias, publishers: set<Alias>, j: Journal, j': Journal, w: World)
    requires Later(j, j')
    ensures SnapshotsClean(first, publishers, j, w) <==> SnapshotsClean(first, publishers, j', w)
  {
    forall a | a in publishers && a in w.pubs
      ensures NothingStray(j, |publishers| > 1 && a == first, w.pubs[a]) <==> NothingStray(j', |publishers| > 1 && a == first, w.pubs[a])
    {
    }
  }

  lemma {:induction false} SameEnd(j: Journal, j': Journal, a: Alias, rows: map<Token, Envelope>, t: Token, rollback: bool)
    requires Later(j, j') && (rollback ==> j.after.Some?)
    ensures EndRow(j', a, rows, t, rollback) == EndRow(j, a, rows, t, rollback)
  {
  }

  lemma {:induction false} SameEnds(j: Journal, j': Journal, w: World, publishers: set<Alias>, rollback: bool)
    requires Later(j, j') && (rollback ==> j.after.Some?)
    ensures EndFits(j', w, publishers, rollback) <==> EndFits(j, w, publishers, rollback)
  {
    hide EndRow, RowsFit;
    assert j'.grants.Keys == j.grants.Keys;
    forall a | a in publishers && a in w.pubs
      ensures EndRows(j', a, w.pubs[a].rows, rollback) == EndRows(j, a, w.pubs[a].rows, rollback)
    {
      forall t
        ensures EndRow(j', a, w.pubs[a].rows, t, rollback) == EndRow(j, a, w.pubs[a].rows, t, rollback)
      {
        SameEnd(j, j', a, w.pubs[a].rows, t, rollback);
      }
    }
  }

  /** Once every row is at its end, a fleet that was ready is ready for the confirmation if it still fits. */
  lemma {:induction false} ReadyAfter(first: Alias, publishers: set<Alias>, j: Journal, w: World, w': World, rollback: bool)
    requires OnlyGrants(j, w, w', rollback) && Ready(first, publishers, j, w, rollback)
    requires Settled(j, w', publishers, rollback) && SnapshotsFit(publishers, w')
    ensures Ready(first, publishers, j, w', rollback)
  {
    hide Snapshotable, RowMoved;
    CleanAfter(first, publishers, j, w, w', rollback);
    forall a, t | a in publishers && t in j.grants
      ensures PairReady(j, w', a, t, rollback)
    {
      assert PairReady(j, w, a, t, rollback) && PairSettled(j, w', a, t, rollback);
      assert RowsMoved(j, a, w'.pubs[a], w.pubs[a], rollback);
    }
  }

  /** Moved grants leave no strays behind. */
  lemma {:induction false} CleanAfter(first: Alias, publishers: set<Alias>, j: Journal, w: World, w': World, rollback: bool)
    requires OnlyGrantRows(j, w, w', rollback) && SnapshotsClean(first, publishers, j, w)
    ensures SnapshotsClean(first, publishers, j, w')
  {
    hide NothingStray;
    forall a | a in publishers
      ensures a in w'.pubs && NothingStray(j, |publishers| > 1 && a == first, w'.pubs[a])
    {
      assert RowsMoved(j, a, w'.pubs[a], w.pubs[a], rollback);
      forall t | t !in j.grants
        ensures w'.pubs[a].Row(t) == w.pubs[a].Row(t)
      {
        assert RowMoved(j, a, t, w'.pubs[a].Row(t), w.pubs[a].Row(t), rollback);
      }
      StraySame(j, |publishers| > 1 && a == first, w.pubs[a], w'.pubs[a]);
    }
  }

  lemma {:induction false} StraySame(j: Journal, emptied: bool, pub: Publisher, pub': Publisher)
    requires SamePublisher(pub', pub) && forall t | t !in j.grants :: pub'.Row(t) == pub.Row(t)
    requires NothingStray(j, emptied, pub)
    ensures NothingStray(j, emptied, pub')
  {
    forall t | t in pub'.rows
      ensures !Stray(j, emptied, pub', t)
    {
      if t !in j.grants {
        assert pub'.Row(t) == pub.Row(t);
        assert t in pub.rows && !Stray(j, emptied, pub, t);
      }
    }
  }

  lemma {:induction false} ProbesKeepStrays(j: Journal, w: World, w': World, tokens: map<Alias, Token>, stamp: string)
    requires OnlyProbes(w, w', tokens, stamp)
    requires forall a | a in tokens :: tokens[a] !in j.grants
    ensures StraysKept(j, w, w', tokens, stamp)
  {
  }

  lemma {:induction false} GrantsKeepStrays(j: Journal, j': Journal, w: World, w': World, tokens: map<Alias, Token>, stamp: string)
    requires Later(j, j') && OnlyGrantRows(j', w, w', false)
    ensures StraysKept(j, w, w', tokens, stamp)
  {
    forall a | a in w.pubs
      ensures PublisherKept(j, a, w'.pubs[a], w.pubs[a], tokens, stamp)
    {
      assert RowsMoved(j', a, w'.pubs[a], w.pubs[a], false);
      forall t
        ensures RowMoved(j, a, t, w'.pubs[a].Row(t), w.pubs[a].Row(t), false)
      {
        assert RowMoved(j', a, t, w'.pubs[a].Row(t), w.pubs[a].Row(t), false);
      }
    }
  }

  /** Abandoning a prepared migration touches nothing. */
  lemma {:induction false} AbandonTracks(publishers: set<Alias>, j: Journal, w: World, base: World)
    requires Shape(publishers, j) && Tracks(j, w, base) && j.phase.Prepared?
    ensures Tracks(j.(phase := RolledBack), w, base)
  {
    var j' := j.(phase := RolledBack);
    forall a | a in w.pubs
      ensures PublisherTracks(j', a, w.pubs[a], base.pubs[a])
    {
      forall t
        ensures RowTracks(j', t, w.pubs[a].Row(t), base.pubs[a].Row(t))
      {
        assert RowTracks(j, t, w.pubs[a].Row(t), base.pubs[a].Row(t));
      }
    }
  }

  lemma {:induction false} SameGrantRows(j: Journal, j': Journal, w: World, w': World)
    requires Later(j, j') && j.after.Some? && OnlyGrantRows(j', w, w', true)
    ensures OnlyGrantRows(j, w, w', true)
  {
    forall a | a in w.pubs
      ensures RowsMoved(j, a, w'.pubs[a], w.pubs[a], true)
    {
      assert RowsMoved(j', a, w'.pubs[a], w.pubs[a], true);
      forall t
        ensures RowMoved(j, a, t, w'.pubs[a].Row(t), w.pubs[a].Row(t), true)
      {
        assert RowMoved(j', a, t, w'.pubs[a].Row(t), w.pubs[a].Row(t), true);
      }
    }
  }

  lemma {:induction false} SameUndo(j: Journal, j': Journal, source: Document, target: Document)
    requires Later(j, j') && j.after.Some?
    ensures j'.after.Some? && UndoOf(j', source, target) == UndoOf(j, source, target)
  {
  }

  /** Once the probes a crash left behind have expired, a fleet that still fits is live again. */
  lemma {:induction false} LiveOnceElapsed(first: Alias, publishers: set<Alias>, j: Journal, w: World, w': World,
                        tokens: map<Alias, Token>, stamp: string)
    requires Ready(first, publishers, j, w, false) && StraysKept(j, w, w', tokens, stamp) && Foreign(j, stamp)
    requires SnapshotsFit(publishers, w')
    ensures Ready(first, publishers, j, Elapsed(w', stamp), false)
  {
    hide RowsFit, RowMoved;
    var later := Elapsed(w', stamp);
    forall a | a in publishers
      ensures NothingStray(j, |publishers| > 1 && a == first, later.pubs[a])
    {
      assert PublisherKept(j, a, w'.pubs[a], w.pubs[a], tokens, stamp);
      StrayElapsed(j, |publishers| > 1 && a == first, a, w.pubs[a], w'.pubs[a], tokens, stamp);
    }
    forall a, t | a in publishers && t in j.grants
      ensures PairReady(j, later, a, t, false)
    {
      assert PairReady(j, w, a, t, false) && PublisherKept(j, a, w'.pubs[a], w.pubs[a], tokens, stamp);
    }
  }

  lemma {:induction false} StrayElapsed(j: Journal, emptied: bool, a: Alias, pub: Publisher, pub': Publisher,
                                        tokens: map<Alias, Token>, stamp: string)
    requires NothingStray(j, emptied, pub) && PublisherKept(j, a, pub', pub, tokens, stamp) && stamp != ""
    ensures NothingStray(j, emptied, pub'.(due := pub'.due + {stamp}))
  {
    var late := pub'.(due := pub'.due + {stamp});
    forall t | t in late.rows
      ensures !Stray(j, emptied, late, t)
    {
      if t !in j.grants {
        assert late.Row(t) == pub'.Row(t);
        if RowMoved(j, a, t, pub'.Row(t), pub.Row(t), false) {
          assert t in pub.rows && !Stray(j, emptied, pub, t);
        }
      }
    }
  }

  lemma {:induction false} ElapsedTracks(j: Journal, w: World, base: World, stamp: string)
    requires Tracks(j, w, base)
    ensures Tracks(j, Elapsed(w, stamp), base)
  {
    var late := Elapsed(w, stamp);
    forall a | a in w.pubs
      ensures PublisherTracks(j, a, late.pubs[a], base.pubs[a])
    {
      forall t
        ensures RowTracks(j, t, late.pubs[a].Row(t), base.pubs[a].Row(t))
      {
        assert RowTracks(j, t, w.pubs[a].Row(t), base.pubs[a].Row(t));
        assert late.pubs[a].Row(t) == w.pubs[a].Row(t);
      }
    }
  }

  lemma {:induction false} FreshOnceElapsed(j: Journal, w: World, w': World, a: Alias, token: Token, stamp: string, nonce: string,
                         used: map<Alias, Token>, passed: string)
    requires Fresh(j, w, a, token, stamp, nonce) && StraysKept(j, w, w', used, passed)
    requires stamp != passed && (a in used ==> used[a] != token)
    ensures Fresh(j, Elapsed(w', passed), a, token, stamp, nonce)
  {
    assert PublisherKept(j, a, w'.pubs[a], w.pubs[a], used, passed);
    assert RowMoved(j, a, token, w'.pubs[a].Row(token), w.pubs[a].Row(token), false);
  }

  /** A prepared fleet whose rows did not move can still be started later, with the same journal. */
  lemma {:induction false} RecordableOnceElapsed(j: Journal, publishers: set<Alias>, w: World, w': World, base: World, stamp: string)
    requires Tracks(j, w, base) && Tracks(j, w', base) && j.phase.Prepared? && Foreign(j, stamp)
    requires AllRecordable(j, publishers, w.pubs) && w'.pubs.Keys == w.pubs.Keys
    requires forall a | a in w.pubs :: SamePublisher(w'.pubs[a], w.pubs[a])
    ensures AllRecordable(j, publishers, Elapsed(w', stamp).pubs)
    ensures AllRecorded(j, publishers, Elapsed(w', stamp).pubs) == AllRecorded(j, publishers, w.pubs)
  {
    hide Tracks, AllRecorded;
    var late := Elapsed(w', stamp);
    forall t, a | t in j.grants && a in publishers
      ensures late.pubs[a].Row(t) == w.pubs[a].Row(t)
    {
      PreparedRow(j, w, w', base, a, t, stamp);
    }
    SameRecorded(j, publishers, w.pubs, late.pubs);
    forall t, a | t in j.grants && a in publishers && a !in j.grants[t].before
      ensures RowAcceptable(late.pubs[a], t, j.grants[t].prior)
    {
      assert GrantRecordable(j.grants[t], t, publishers, w.pubs);
      assert RowAcceptable(w.pubs[a], t, j.grants[t].prior);
    }
  }

  lemma {:induction false} SameRecorded(j: Journal, publishers: set<Alias>, pubs: map<Alias, Publisher>, pubs': map<Alias, Publisher>)
    requires publishers <= pubs.Keys && publishers <= pubs'.Keys
    requires forall t, a | t in j.grants && a in publishers :: pubs'[a].Row(t) == pubs[a].Row(t)
    ensures AllRecorded(j, publishers, pubs') == AllRecorded(j, publishers, pubs)
  {
    forall t | t in j.grants
      ensures Recorded(j.grants[t], t, publishers, pubs') == Recorded(j.grants[t], t, publishers, pubs)
    {
    }
  }

  lemma {:induction false} PreparedRow(j: Journal, w: World, w': World, base: World, a: Alias, t: Token, stamp: string)
    requires Tracks(j, w, base) && Tracks(j, w', base) && j.phase.Prepared? && t in j.grants && a in w.pubs
    ensures a in w'.pubs && Elapsed(w', stamp).pubs[a].Row(t) == w.pubs[a].Row(t)
  {
    hide DocumentsTrack;
    assert PublisherTracks(j, a, w.pubs[a], base.pubs[a]) && PublisherTracks(j, a, w'.pubs[a], base.pubs[a]);
    assert RowTracks(j, t, w.pubs[a].Row(t), base.pubs[a].Row(t));
    assert RowTracks(j, t, w'.pubs[a].Row(t), base.pubs[a].Row(t));
  }

  lemma {:induction false} FirstShape(first: Alias, publishers: set<Alias>, j: Journal, w: World)
    requires FirstJournal(first, publishers, j, w) && first in publishers
    requires j.devices <= w.source.registry.Keys && j.devices <= j.candidate.registry.Keys
    requires j.devices != {} ==> w.source.identity.Some?
    ensures Shape(publishers, j)
    ensures Tracks(j, w, w)
  {
  }

  /** Preparing the target is the only step of preparation outside the journal. */
  lemma {:induction false} PreparedTracks(publishers: set<Alias>, j: Journal, w: World, base: World)
    requires Shape(publishers, j) && Tracks(j, w, base) && j.phase.Preparing? && w.target == j.candidate
    ensures Shape(publishers, j.(phase := Prepared)) && Later(j, j.(phase := Prepared))
    ensures Tracks(j.(phase := Prepared), w, base)
  {
    var j' := j.(phase := Prepared);
    forall a | a in w.pubs
      ensures PublisherTracks(j', a, w.pubs[a], base.pubs[a])
    {
      forall t
        ensures RowTracks(j', t, w.pubs[a].Row(t), base.pubs[a].Row(t))
      {
        assert RowTracks(j, t, w.pubs[a].Row(t), base.pubs[a].Row(t));
      }
    }
  }

  lemma {:induction false} ShapePrepared(publishers: set<Alias>, j: Journal)
    requires Shape(publishers, j) && j.phase.Preparing?
    ensures Shape(publishers, j.(phase := Prepared)) && Later(j, j.(phase := Prepared))
  {
  }

  /** However far an interrupted rollback came, it can be taken up again. */
  lemma {:induction false} ReadyAfterRows(first: Alias, publishers: set<Alias>, j: Journal, w: World, w': World)
    requires OnlyGrantRows(j, w, w', true) && Ready(first, publishers, j, w, true) && SnapshotsFit(publishers, w')
    ensures Ready(first, publishers, j, w', true)
  {
    hide Snapshotable;
    CleanAfter(first, publishers, j, w, w', true);
    forall a, t | a in publishers && t in j.grants
      ensures PairReady(j, w', a, t, true)
    {
      assert PairReady(j, w, a, t, true);
      assert RowsMoved(j, a, w'.pubs[a], w.pubs[a], true);
      assert RowMoved(j, a, t, w'.pubs[a].Row(t), w.pubs[a].Row(t), true);
    }
  }

  // ---------------------------------------------------------------- leftover probes

  /** A row that is new, not journaled, and that the clock or the deny list has not put out of use. */
  ghost predicate LeftoverLive(j: Journal, pub: Publisher, was: Publisher, t: Token) {
    t in pub.rows && t !in was.rows && t !in j.grants && t !in pub.revoked && !pub.Expired(pub.rows[t])
  }

  /** The namespaces in which a live leftover probe is in the way: the one to be emptied, or all for a device of that name. */
  predicate Guarded(first: Alias, publishers: set<Alias>, j: Journal, a: Alias) {
    (|publishers| > 1 && a == first) || ROUTE_CHECK in j.devices
  }

  /** Publishers only ever take grants that are live there. */
  ghost predicate MovedLive(j: Journal, publishers: set<Alias>, w: World, w': World) {
    forall a, t | a in publishers && a in w.pubs && a in w'.pubs && t in j.grants ::
      w'.pubs[a].Row(t) == w.pubs[a].Row(t) || PairLive(j, w, a, t)
  }

  /**
   Exactly when an interrupted publication stands in the way of the next publication, or of a
   rollback: a namespace no longer fits, or a probe stays live where it counts as a stray.
   */
  lemma {:induction false} LeftoverProbeStops(first: Alias, publishers: set<Alias>, j: Journal, w: World, w': World,
                              tokens: map<Alias, Token>, stamp: string, rollback: bool)
    requires Ready(first, publishers, j, w, rollback) && StraysKept(j, w, w', tokens, stamp)
    requires first in publishers && (rollback ==> MovedLive(j, publishers, w, w'))
    ensures Ready(first, publishers, j, w', rollback) <==>
              && SnapshotsFit(publishers, w')
              && forall a | a in publishers && Guarded(first, publishers, j, a) :: forall t :: !LeftoverLive(j, w'.pubs[a], w.pubs[a], t)
  {
    hide RowsFit, Snapshotable, RowMoved, PublisherKept, NothingStray, LeftoverLive, PairReady;
    forall a | a in publishers
      ensures NothingStray(j, |publishers| > 1 && a == first, w'.pubs[a]) <==>
                (Guarded(first, publishers, j, a) ==> forall t :: !LeftoverLive(j, w'.pubs[a], w.pubs[a], t))
    {
      assert PublisherKept(j, a, w'.pubs[a], w.pubs[a], tokens, stamp);
      LeftoverStrays(j, |publishers| > 1 && a == first, a, w.pubs[a], w'.pubs[a], tokens, stamp);
    }
    forall a, t | a in publishers && t in j.grants
      ensures PairReady(j, w', a, t, rollback)
    {
      assert PairReady(j, w, a, t, rollback) && PublisherKept(j, a, w'.pubs[a], w.pubs[a], tokens, stamp);
      PairKept(j, w, w', a, t, tokens, stamp, rollback);
    }
    SameBootstrap(j, w'.pubs[first], w.pubs[first], first, tokens, stamp);
  }

  lemma {:induction false} SameBootstrap(j: Journal, pub: Publisher, was: Publisher, a: Alias, tokens: map<Alias, Token>, stamp: string)
    requires PublisherKept(j, a, pub, was, tokens, stamp)
    ensures pub.bootstrap == was.bootstrap
  {
  }

  lemma {:induction false} PairKept(j: Journal, w: World, w': World, a: Alias, t: Token,
                                    tokens: map<Alias, Token>, stamp: string, rollback: bool)
    requires t in j.grants && a in w.pubs && a in w'.pubs && PairReady(j, w, a, t, rollback)
    requires PublisherKept(j, a, w'.pubs[a], w.pubs[a], tokens, stamp)
    requires rollback ==> w'.pubs[a].Row(t) == w.pubs[a].Row(t) || PairLive(j, w, a, t)
    ensures PairReady(j, w', a, t, rollback)
  {
    hide RowMoved;
  }

  lemma {:induction false} LeftoverStrays(j: Journal, emptied: bool, a: Alias, pub: Publisher, pub': Publisher,
                                          tokens: map<Alias, Token>, stamp: string)
    requires NothingStray(j, emptied, pub) && PublisherKept(j, a, pub', pub, tokens, stamp)
    ensures NothingStray(j, emptied, pub') <==>
              (emptied || ROUTE_CHECK in j.devices ==> forall t :: !LeftoverLive(j, pub', pub, t))
  {
    forall t | t in pub'.rows
      ensures Stray(j, emptied, pub', t) <==> (emptied || ROUTE_CHECK in j.devices) && LeftoverLive(j, pub', pub, t)
    {
      if t in pub.rows {
        assert !Stray(j, emptied, pub, t);
        assert pub.Row(t).Some?;
      }
    }
  }

  /** A route check killed between creating its first probe and deleting it does stop a move. */
  lemma {:induction false} KilledCheckStops(first: Alias, publishers: set<Alias>, j: Journal, w: World, token: Token, stamp: string, nonce: string)
    requires Ready(first, publishers, j, w, false) && Fresh(j, w, first, token, stamp, nonce)
    requires first in publishers && |publishers| > 1
    ensures !Ready(first, publishers, j, WithPublisher(w, first, w.pubs[first].With(token, Some(Probe(stamp, nonce)))), false)
  {
    var pub := w.pubs[first].With(token, Some(Probe(stamp, nonce)));
    assert Stray(j, true, pub, token);
    assert !NothingStray(j, true, pub);
    assert |publishers| > 1 && first == first;
  }
}
