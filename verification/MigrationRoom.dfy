/** Room in the namespaces: when every snapshot a migration needs can be taken. */
module MigrationRoom {
  import opened Wrappers
  import opened SubscriptionPublisher
  import opened MigrationJournal
  import opened MigrationSteps

  /** Once every grant is at its end, each namespace holds what could be told before. */
  lemma {:induction false} SettledRows(j: Journal, w: World, w': World, publishers: set<Alias>, rollback: bool, a: Alias)
    requires OnlyGrantRows(j, w, w', rollback) && Settled(j, w', publishers, rollback) && a in publishers && a in w.pubs
    ensures w'.pubs[a].rows == EndRows(j, a, w.pubs[a].rows, rollback)
  {
    assert RowsMoved(j, a, w'.pubs[a], w.pubs[a], rollback);
    forall t
      ensures w'.pubs[a].Row(t) == EndRow(j, a, w.pubs[a].rows, t, rollback)
    {
      assert RowMoved(j, a, t, w'.pubs[a].Row(t), w.pubs[a].Row(t), rollback);
      if t in j.grants {
        assert PairSettled(j, w', a, t, rollback);
      }
    }
    forall t | t in w'.pubs[a].rows
      ensures t in w.pubs[a].rows.Keys + j.grants.Keys && EndRow(j, a, w.pubs[a].rows, t, rollback) == Some(w'.pubs[a].rows[t])
    {
      assert w'.pubs[a].Row(t) == Some(w'.pubs[a].rows[t]);
    }
    forall t | t in EndRows(j, a, w.pubs[a].rows, rollback)
      ensures t in w'.pubs[a].rows
    {
      assert w'.pubs[a].Row(t).Some?;
    }
  }

  /** So whether the confirming snapshots can be taken is decided before anything moves. */
  lemma {:induction false} ConfirmationFits(j: Journal, w: World, w': World, publishers: set<Alias>, rollback: bool)
    requires OnlyGrantRows(j, w, w', rollback) && Settled(j, w', publishers, rollback) && SnapshotsFit(publishers, w)
    ensures SnapshotsFit(publishers, w') <==> EndFits(j, w, publishers, rollback)
  {
    hide RowsFit, Settled, RowMoved;
    forall a | a in publishers
      ensures a in w.pubs && a in w'.pubs
      ensures Snapshotable(w'.pubs[a]) <==> RowsFit(EndRows(j, a, w.pubs[a].rows, rollback))
    {
      SettledRows(j, w, w', publishers, rollback, a);
      assert RowsMoved(j, a, w'.pubs[a], w.pubs[a], rollback) && Snapshotable(w.pubs[a]);
    }
  }

  // ---------------------------------------------------------------- room at any moment

  lemma {:induction false} PeakCovers(j: Journal, a: Alias, rows: map<Token, Envelope>, rollback: bool, probes: nat)
    requires PeakRoom(j, a, rows, rollback, probes)
    ensures RowsFit(rows) && RowsFit(EndRows(j, a, rows, rollback))
  {
    hide PeakRows, EndRows, RowsFit;
    forall t
      ensures t in rows || t in EndRows(j, a, rows, rollback) ==> t in PeakRows(j, a, rows, rollback)
      ensures t in rows ==> Size(rows[t]) <= Size(PeakRows(j, a, rows, rollback)[t])
      ensures t in EndRows(j, a, rows, rollback) ==>
                Size(EndRows(j, a, rows, rollback)[t]) <= Size(PeakRows(j, a, rows, rollback)[t])
    {
      PeakAtLeast(j, a, rows, rollback, t);
    }
    PeakFitsItself(PeakRows(j, a, rows, rollback), probes);
    FitsBelow(rows, PeakRows(j, a, rows, rollback));
    FitsBelow(EndRows(j, a, rows, rollback), PeakRows(j, a, rows, rollback));
  }

  lemma {:induction false} PeakFitsItself(peak: map<Token, Envelope>, probes: nat)
    requires |peak| + probes <= MAX_DOCUMENTS && Bytes(peak) + probes * PROBE_SIZE <= MAX_BYTES
    ensures RowsFit(peak)
  {
  }

  lemma {:induction false} PeakAtLeast(j: Journal, a: Alias, rows: map<Token, Envelope>, rollback: bool, t: Token)
    ensures t in rows || t in EndRows(j, a, rows, rollback) ==> t in PeakRows(j, a, rows, rollback)
    ensures t in rows ==> Size(rows[t]) <= Size(PeakRows(j, a, rows, rollback)[t])
    ensures t in EndRows(j, a, rows, rollback) ==>
              Size(EndRows(j, a, rows, rollback)[t]) <= Size(PeakRows(j, a, rows, rollback)[t])
  {
  }

  lemma {:induction false} PeakEnough(j: Journal, w: World, publishers: set<Alias>, rollback: bool, probes: nat)
    requires PeakFits(j, w, publishers, rollback, probes)
    ensures forall a | a in publishers :: a in w.pubs && RowsFit(w.pubs[a].rows)
    ensures EndFits(j, w, publishers, rollback)
  {
    hide PeakRoom, RowsFit, EndRows;
    forall a | a in publishers
      ensures RowsFit(w.pubs[a].rows) && RowsFit(EndRows(j, a, w.pubs[a].rows, rollback))
    {
      PeakCovers(j, a, w.pubs[a].rows, rollback, probes);
    }
  }

  /** A moved row never needs more room than was set aside for it. */
  lemma {:induction false} PeakMoved(j: Journal, a: Alias, pub: Publisher, was: Publisher, rollback: bool, t: Token)
    requires RowMoved(j, a, t, pub.Row(t), was.Row(t), rollback)
    ensures t in PeakRows(j, a, pub.rows, rollback) ==>
              t in PeakRows(j, a, was.rows, rollback)
              && Size(PeakRows(j, a, pub.rows, rollback)[t]) <= Size(PeakRows(j, a, was.rows, rollback)[t])
  {
  }

  lemma {:induction false} PeakAfterRows(j: Journal, w: World, w': World, publishers: set<Alias>)
    requires OnlyGrantRows(j, w, w', true) && PeakFits(j, w, publishers, true, 0)
    ensures PeakFits(j, w', publishers, true, 0)
  {
    hide PeakRow, PeakRows, RowMoved, PeakRoom;
    forall a | a in publishers
      ensures a in w'.pubs && PeakRoom(j, a, w'.pubs[a].rows, true, 0)
    {
      var pub, was := w'.pubs[a], w.pubs[a];
      assert RowsMoved(j, a, pub, was, true) && PeakRoom(j, a, was.rows, true, 0);
      forall t
        ensures t in PeakRows(j, a, pub.rows, true) ==>
                  t in PeakRows(j, a, was.rows, true)
                  && Size(PeakRows(j, a, pub.rows, true)[t]) <= Size(PeakRows(j, a, was.rows, true)[t])
      {
        assert RowMoved(j, a, t, pub.Row(t), was.Row(t), true);
        PeakMoved(j, a, pub, was, true, t);
      }
      SmallerPeak(j, a, pub.rows, was.rows, true, 0);
    }
  }

  lemma {:induction false} SmallerPeak(j: Journal, a: Alias, rows: map<Token, Envelope>, was: map<Token, Envelope>, rollback: bool, probes: nat)
    requires PeakRoom(j, a, was, rollback, probes)
    requires forall t | t in PeakRows(j, a, rows, rollback) ::
               t in PeakRows(j, a, was, rollback)
               && Size(PeakRows(j, a, rows, rollback)[t]) <= Size(PeakRows(j, a, was, rollback)[t])
    ensures PeakRoom(j, a, rows, rollback, probes)
  {
    hide PeakRows;
    FitsBelow(PeakRows(j, a, rows, rollback), PeakRows(j, a, was, rollback));
  }

  /** An attempt at publication leaves at most one probe, and its room is all it takes. */
  lemma {:induction false} PeakAfterAttempt(j: Journal, w: World, w': World, publishers: set<Alias>,
                                            tokens: map<Alias, Token>, stamp: string, n: nat)
    requires StraysKept(j, w, w', tokens, stamp) && PeakFits(j, w, publishers, false, n + 1)
    ensures PeakFits(j, w', publishers, false, n)
  {
    hide PublisherKept, PeakRoom;
    forall a | a in publishers
      ensures a in w'.pubs && PeakRoom(j, a, w'.pubs[a].rows, false, n)
    {
      assert PublisherKept(j, a, w'.pubs[a], w.pubs[a], tokens, stamp) && PeakRoom(j, a, w.pubs[a].rows, false, n + 1);
      PeakOfAttempt(j, a, w'.pubs[a], w.pubs[a], tokens, stamp, n);
    }
  }

  lemma {:induction false} PeakOfAttempt(j: Journal, a: Alias, pub: Publisher, was: Publisher,
                                         tokens: map<Alias, Token>, stamp: string, n: nat)
    requires PublisherKept(j, a, pub, was, tokens, stamp) && PeakRoom(j, a, was.rows, false, n + 1)
    ensures PeakRoom(j, a, pub.rows, false, n)
  {
    hide PeakRow, PeakRows, RowMoved;
    var left := a in tokens && !RowMoved(j, a, tokens[a], pub.Row(tokens[a]), was.Row(tokens[a]), false);
    forall t | !left || t != tokens[a]
      ensures t in PeakRows(j, a, pub.rows, false) ==>
                t in PeakRows(j, a, was.rows, false)
                && Size(PeakRows(j, a, pub.rows, false)[t]) <= Size(PeakRows(j, a, was.rows, false)[t])
    {
      assert RowMoved(j, a, t, pub.Row(t), was.Row(t), false);
      PeakMoved(j, a, pub, was, false, t);
    }
    if left {
      PeakOfProbe(j, a, pub, was, tokens[a]);
      OneMore(PeakRows(j, a, was.rows, false), tokens[a], pub.rows[tokens[a]]);
      FitsBelow(PeakRows(j, a, pub.rows, false), PeakRows(j, a, was.rows, false)[tokens[a] := pub.rows[tokens[a]]]);
    } else {
      FitsBelow(PeakRows(j, a, pub.rows, false), PeakRows(j, a, was.rows, false));
    }
  }

  lemma {:induction false} PeakOfProbe(j: Journal, a: Alias, pub: Publisher, was: Publisher, t: Token)
    requires t !in j.grants && was.Row(t).None? && pub.Row(t).Some?
    ensures t !in PeakRows(j, a, was.rows, false)
    ensures t in PeakRows(j, a, pub.rows, false) && PeakRows(j, a, pub.rows, false)[t] == pub.rows[t]
  {
  }

  /** Recording predecessors does not change where publication ends. */
  lemma {:induction false} SamePeak(j: Journal, j': Journal, w: World, publishers: set<Alias>, rollback: bool, n: nat)
    requires Later(j, j') && (rollback ==> j.after.Some?) && PeakFits(j, w, publishers, rollback, n)
    ensures PeakFits(j', w, publishers, rollback, n)
  {
    hide PeakRoom;
    forall a | a in publishers
      ensures PeakRoom(j', a, w.pubs[a].rows, rollback, n)
    {
      assert PeakRoom(j, a, w.pubs[a].rows, rollback, n);
      SamePeakRows(j, j', a, w.pubs[a].rows, rollback, n);
    }
  }

  lemma {:induction false} SamePeakRow(j: Journal, j': Journal, a: Alias, rows: map<Token, Envelope>, t: Token, rollback: bool)
    requires Later(j, j') && (rollback ==> j.after.Some?)
    ensures PeakRow(j', a, rows, t, rollback) == PeakRow(j, a, rows, t, rollback)
  {
    hide EndRow;
    SameEnd(j, j', a, rows, t, rollback);
  }

  lemma {:induction false} SamePeakRows(j: Journal, j': Journal, a: Alias, rows: map<Token, Envelope>, rollback: bool, n: nat)
    requires Later(j, j') && (rollback ==> j.after.Some?)
    ensures PeakRoom(j', a, rows, rollback, n) == PeakRoom(j, a, rows, rollback, n)
  {
    hide Bytes, PeakRow;
    forall t
      ensures PeakRow(j', a, rows, t, rollback) == PeakRow(j, a, rows, t, rollback)
    {
      SamePeakRow(j, j', a, rows, t, rollback);
    }
    assert j'.grants.Keys == j.grants.Keys;
    assert PeakRows(j', a, rows, rollback) == PeakRows(j, a, rows, rollback);
  }

  // ---------------------------------------------------------------- readiness, row by row

  predicate Past(document: Envelope, due: set<string>) {
    document.expires != "" && document.expires in due
  }

  /** A row the migration does not know is dead there, or of a device it leaves alone in a namespace it does not empty. */
  ghost predicate Bystander(j: Journal, emptied: bool, pub: Publisher, t: Token) {
    t in pub.rows && t !in j.grants ==>
      t in pub.revoked || Past(pub.rows[t], pub.due) || (!emptied && pub.rows[t].client !in j.devices)
  }

  /** A grant can be published there; for a rollback only one that is or was there has to be live. */
  ghost predicate GrantMoves(j: Journal, a: Alias, pub: Publisher, t: Token, rollback: bool) {
    t in j.grants ==>
      && (rollback ==> a in j.grants[t].before)
      && (!rollback || t in pub.rows || j.grants[t].before[a].Some? ==>
            t !in pub.revoked && !Past(j.grants[t].prior, pub.due))
  }

  /** What one namespace has to be for a reconciliation in one direction. */
  ghost predicate NamespaceReady(j: Journal, a: Alias, emptied: bool, pub: Publisher, rollback: bool) {
    && |pub.rows| <= 256 && Bytes(pub.rows) <= 2097152 && 128 + 65 * |pub.revoked| <= 2097152
    && (emptied ==> pub.bootstrap == 0)
    && forall t :: Bystander(j, emptied, pub, t) && GrantMoves(j, a, pub, t, rollback)
  }

  /** A reconciliation is possible exactly when no grant's time has come and every namespace is ready for it. */
  lemma {:induction false} ReadyMeans(first: Alias, publishers: set<Alias>, j: Journal, w: World, rollback: bool)
    requires first in publishers
    ensures Ready(first, publishers, j, w, rollback) <==>
            && (forall t | t in j.grants :: !Past(j.grants[t].prior, w.due))
            && forall a | a in publishers :: a in w.pubs && NamespaceReady(j, a, |publishers| > 1 && a == first, w.pubs[a], rollback)
  {
    hide Bytes, NamespaceReady;
    if publishers <= w.pubs.Keys {
      forall a | a in publishers
        ensures NamespaceReady(j, a, |publishers| > 1 && a == first, w.pubs[a], rollback) <==>
                && Snapshotable(w.pubs[a]) && NothingStray(j, |publishers| > 1 && a == first, w.pubs[a])
                && (|publishers| > 1 && a == first ==> w.pubs[a].bootstrap == 0)
                && forall t | t in j.grants :: PairReady(j, w, a, t, rollback)
      {
        NamespaceMeans(j, w, a, |publishers| > 1 && a == first, rollback);
      }
    }
  }

  lemma {:induction false} NamespaceMeans(j: Journal, w: World, a: Alias, emptied: bool, rollback: bool)
    requires a in w.pubs
    ensures NamespaceReady(j, a, emptied, w.pubs[a], rollback) <==>
            && Snapshotable(w.pubs[a]) && NothingStray(j, emptied, w.pubs[a]) && (emptied ==> w.pubs[a].bootstrap == 0)
            && forall t | t in j.grants :: PairReady(j, w, a, t, rollback)
  {
    hide Bytes;
    forall t
      ensures Bystander(j, emptied, w.pubs[a], t) <==> (t in w.pubs[a].rows ==> !Stray(j, emptied, w.pubs[a], t))
      ensures GrantMoves(j, a, w.pubs[a], t, rollback) <==> (t in j.grants ==> PairReady(j, w, a, t, rollback))
    {
    }
    hide Bystander, GrantMoves, Stray, PairReady;
  }
}
