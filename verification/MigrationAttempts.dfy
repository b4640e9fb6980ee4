/** The inputs of migration attempts, and the conditions under which an attempt can finish. */
module MigrationAttempts {
  import opened Wrappers
  import opened SubscriptionPublisher
  import opened MigrationJournal
  import opened MigrationSteps
  import opened MigrationRoom

  /** Rendered deliveries and a fresh identity, made once when publication starts. */
  datatype DeliveryDraft = DeliveryDraft(source: map<Name, string>, target: map<Name, string>, identity: string)

  /** For each publisher a random token and nonce, and the five-minute stamp of the route probes. */
  datatype Probes = Probes(tokens: map<Alias, Token>, nonces: map<Alias, string>, stamp: string)

  /** Every probe token is random and its stamp lies ahead. */
  ghost predicate FreshProbes(publishers: set<Alias>, j: Journal, w: World, probes: Probes) {
    && probes.tokens.Keys == publishers && probes.nonces.Keys == publishers
    && forall a | a in publishers :: Fresh(j, w, a, probes.tokens[a], probes.stamp, probes.nonces[a])
  }

  // ---------------------------------------------------------------- conditions readable beforehand

  /** The journal publication saves before it publishes anything. */
  function Started(publishers: set<Alias>, j: Journal, source: Document, target: Document,
                   pubs: map<Alias, Publisher>, d: DeliveryDraft): Journal
    requires publishers <= pubs.Keys
    requires j.devices <= source.registry.Keys && j.devices <= target.registry.Keys
    requires j.devices <= d.source.Keys && j.devices <= d.target.Keys
  {
    j.(phase := Publishing, grants := AllRecorded(j, publishers, pubs),
       after := Some(IntentOf(j, source, target, d.source, d.target, d.identity)))
  }

  /** A publication that was only prepared can be started on this fleet with these deliveries. */
  ghost predicate Startable(publishers: set<Alias>, size: Measure, j: Journal, w: World, d: DeliveryDraft) {
    && j.devices <= d.source.Keys && j.devices <= d.target.Keys
    && j.devices <= w.source.registry.Keys && j.devices <= w.target.registry.Keys
    && AllRecordable(j, publishers, w.pubs)
    && Storable(size, w.source, Started(publishers, j, w.source, w.target, w.pubs, d))
  }

  /** The fleet, the deliveries and the room that one publication attempt needs. */
  ghost predicate Publishable(first: Alias, publishers: set<Alias>, size: Measure, j: Journal, w: World, d: DeliveryDraft) {
    && (j.phase.Prepared? || j.phase.Publishing? || j.phase.Published?)
    && Ready(first, publishers, j, w, false)
    && EndFits(j, w, publishers, false)
    && (j.phase.Prepared? ==> Startable(publishers, size, j, w, d))
  }

  /** A migration that has begun to move rows. */
  predicate Moving(j: Journal) {
    j.after.Some? && (j.phase.Publishing? || j.phase.Published? || j.phase.RollingBack?)
  }

  /** The journal a rollback saves before it puts anything back. */
  function Rolling(j: Journal, source: Document, target: Document): Journal
    requires j.after.Some?
  {
    j.(phase := RollingBack, undo := Some(UndoOf(j, source, target)))
  }

  /** The fleet and the room that one rollback attempt needs. */
  ghost predicate Rollbackable(first: Alias, publishers: set<Alias>, size: Measure, j: Journal, w: World) {
    match j.phase
    case Preparing => false
    case Prepared => Storable(size, w.source, j.(phase := RolledBack))
    case RolledBack => true
    case Publishing | Published | RollingBack =>
      && j.after.Some? && Storable(size, w.source, Rolling(j, w.source, w.target))
      && Ready(first, publishers, j, w, true)
      && EndFits(j, w, publishers, true)
  }

  /** Room at any moment of an interrupted rollback. */
  ghost predicate RollbackRoom(j: Journal, w: World, publishers: set<Alias>) {
    j.phase.Publishing? || j.phase.Published? || j.phase.RollingBack? ==> PeakFits(j, w, publishers, true, 0)
  }

  /** A namespace that outgrew its snapshot stops both directions. */
  lemma {:induction false} OverfullStops(first: Alias, publishers: set<Alias>, size: Measure, j: Journal, w: World, d: DeliveryDraft, a: Alias)
    requires j.phase.Publishing? || j.phase.Published? || j.phase.RollingBack?
    requires a in publishers && a in w.pubs && !Snapshotable(w.pubs[a])
    ensures !Publishable(first, publishers, size, j, w, d) && !Rollbackable(first, publishers, size, j, w)
  {
    hide Snapshotable, SnapshotsClean, PairReady, EndFits;
  }

  /** A rollback puts back the recorded entries of its devices and leaves the rest of the documents as they are by then. */
  lemma {:induction false} UndoMeans(publishers: set<Alias>, j: Journal, source: Document, target: Document, n: Name)
    requires Shape(publishers, j) && j.after.Some?
    ensures var undo := UndoOf(j, source, target);
            && undo.source.rest == source.rest && undo.source.identity == source.identity
            && (n in undo.source.registry <==> n in source.registry || n in j.devices)
            && (n in j.devices ==> n in j.sourceBefore.registry && undo.source.registry[n] == j.sourceBefore.registry[n])
            && (n in source.registry && n !in j.devices ==> undo.source.registry[n] == source.registry[n])
            && undo.target.rest == j.candidate.rest && undo.target.registry == j.candidate.registry
            && undo.target.identity == (if target.identity.Some? then target.identity else j.candidate.identity)
  {
    hide GrantShape;
  }

  /** Predecessors can be recorded exactly where a namespace not recorded yet has no such row, or the live document of the grant. */
  lemma {:induction false} RecordableMeans(j: Journal, publishers: set<Alias>, pubs: map<Alias, Publisher>)
    requires publishers <= pubs.Keys
    ensures AllRecordable(j, publishers, pubs) <==>
            forall t, a | t in j.grants && a in publishers && a !in j.grants[t].before && t in pubs[a].rows ::
              && pubs[a].rows[t] == j.grants[t].prior && t !in pubs[a].revoked
              && (pubs[a].rows[t].expires == "" || pubs[a].rows[t].expires !in pubs[a].due)
  {
    forall t, a | t in j.grants && a in publishers && a !in j.grants[t].before
      ensures RowAcceptable(pubs[a], t, j.grants[t].prior) <==>
              (t in pubs[a].rows ==>
                 && pubs[a].rows[t] == j.grants[t].prior && t !in pubs[a].revoked
                 && (pubs[a].rows[t].expires == "" || pubs[a].rows[t].expires !in pubs[a].due))
    {
    }
    hide RowAcceptable;
    if forall t, a | t in j.grants && a in publishers && a !in j.grants[t].before && t in pubs[a].rows ::
         && pubs[a].rows[t] == j.grants[t].prior && t !in pubs[a].revoked
         && (pubs[a].rows[t].expires == "" || pubs[a].rows[t].expires !in pubs[a].due)
    {
      forall t | t in j.grants
        ensures GrantRecordable(j.grants[t], t, publishers, pubs)
      {
      }
    }
  }

  lemma {:induction false} PreparedIntent(publishers: set<Alias>, j: Journal, d: DeliveryDraft)
    requires Shape(publishers, j) && j.devices <= d.source.Keys && j.devices <= d.target.Keys
    ensures j.devices <= j.sourceBefore.registry.Keys && j.devices <= j.candidate.registry.Keys
    ensures IntentShape(j, IntentOf(j, j.sourceBefore, j.candidate, d.source, d.target, d.identity))
  {
    IntentShaped(j, d.source, d.target, d.identity);
  }

  // ---------------------------------------------------------------- what is delivered

  /**
   One document after its delivery: the migrated devices carry what was rendered under this
   document's own authority, a document without a delivery identity gained the new one, and
   nothing else changed.
   */
  ghost predicate DeliveredTo(before: Document, after: Document, devices: set<Name>, deliveries: map<Name, string>, identity: string) {
    && after.rest == before.rest && after.registry.Keys == before.registry.Keys
    && (forall n | n in before.registry :: DeliveredEntry(before, after, devices, deliveries, n))
    && after.identity == (if before.identity.Some? || devices == {} then before.identity else Some(identity))
  }

  ghost predicate DeliveredEntry(before: Document, after: Document, devices: set<Name>, deliveries: map<Name, string>, n: Name) {
    && n in before.registry && n in after.registry
    && after.registry[n].authority == before.registry[n].authority
    && if n in devices then n in deliveries && after.registry[n].delivery == deliveries[n]
       else after.registry[n].delivery == before.registry[n].delivery
  }

  /** The journal's two halves are the prepared documents with this draft's deliveries, each with its own. */
  ghost predicate Drafted(j: Journal, d: DeliveryDraft) {
    && j.after.Some?
    && DeliveredTo(j.sourceBefore, j.after.value.source, j.devices, d.source, d.identity)
    && DeliveredTo(j.candidate, j.after.value.target, j.devices, d.target, d.identity)
  }

  lemma {:induction false} IntentDrafted(publishers: set<Alias>, j: Journal, j': Journal, d: DeliveryDraft)
    requires Shape(publishers, j) && j.devices <= d.source.Keys && j.devices <= d.target.Keys
    requires j.devices <= j.sourceBefore.registry.Keys && j.devices <= j.candidate.registry.Keys
    requires j'.sourceBefore == j.sourceBefore && j'.candidate == j.candidate && j'.devices == j.devices
    requires j'.after == Some(IntentOf(j, j.sourceBefore, j.candidate, d.source, d.target, d.identity))
    ensures Drafted(j', d)
  {
    hide GrantShape, IntentShape;
  }

  lemma {:induction false} PreparedAlone(publishers: set<Alias>, j: Journal)
    requires Shape(publishers, j)
    ensures j.phase.Preparing? || j.phase.Prepared? ==> j.after.None?
    ensures j.phase.Publishing? || j.phase.Published? ==> j.after.Some?
  {
  }

  /** What the attempt that starts a publication drafts is what it delivers. */
  lemma {:induction false} StartedDrafted(j: Journal, started: Journal, j': Journal, d: DeliveryDraft)
    requires Later(j, started) && Later(started, j') && (j.after.None? ==> Drafted(started, d))
    ensures j.after.None? ==> Drafted(j', d)
    ensures j.after.None? ==>
              && j'.after.Some? && DeliveredTo(j.sourceBefore, j'.after.value.source, j.devices, d.source, d.identity)
              && DeliveredTo(j.candidate, j'.after.value.target, j.devices, d.target, d.identity)
  {
    hide DeliveredTo;
    if j.after.None? {
      DraftedLater(started, j', d);
    }
  }

  lemma {:induction false} DraftedLater(j: Journal, j': Journal, d: DeliveryDraft)
    requires Drafted(j, d) && Later(j, j')
    ensures Drafted(j', d)
  {
    hide DeliveredTo;
  }

  /** One of several attempts rendered what was delivered. */
  ghost predicate DraftedBy(j: Journal, attempts: seq<Attempt>, n: nat) {
    exists i :: 0 <= i < n && i < |attempts| && Drafted(j, attempts[i].draft)
  }

  /** The draft of the attempt that started the publication stays the one, whatever came before and comes after. */
  lemma {:induction false} DraftedNext(j: Journal, j': Journal, attempts: seq<Attempt>, i: nat)
    requires Later(j, j') && i < |attempts|
    requires j.after.Some? ==> DraftedBy(j, attempts, i)
    requires j'.after.Some? && j.after.None? ==> Drafted(j', attempts[i].draft)
    ensures j'.after.Some? ==> DraftedBy(j', attempts, i + 1)
  {
    hide Drafted;
    if j.after.Some? {
      var k :| 0 <= k < i && k < |attempts| && Drafted(j, attempts[k].draft);
      DraftedLater(j, j', attempts[k].draft);
    }
  }

  // ---------------------------------------------------------------- preparation

  /** Selected devices, the prepared target and each rendered payload, from the pure credential steps. */
  datatype MigrationDraft = MigrationDraft(devices: set<Name>, candidate: Document, rendered: map<Token, string>)

  /** One attempt at preparation: when it is cut short, and what it prepares. */
  datatype Preparation = Preparation(crash: nat, draft: MigrationDraft)

  /** The journal preparation starts with. */
  function FirstOf(first: Alias, publishers: set<Alias>, d: MigrationDraft, source: Document, target: Document, pub: Publisher): Journal {
    Journal(Preparing, source, target, d.candidate, d.devices,
            FirstGrants(first, d.devices, |publishers| > 1, pub, d.rendered), None, None)
  }

  /** Every selected grant of a migrated device was rendered. */
  predicate Complete(d: MigrationDraft, moving: bool, pub: Publisher) {
    forall t | t in pub.rows && Selected(d.devices, moving, pub, t) && pub.rows[t].client in d.devices :: t in d.rendered
  }

  /** What preparation demands of the documents and of the source namespace's snapshot. */
  predicate Preparable(first: Alias, publishers: set<Alias>, size: Measure, d: MigrationDraft, source: Document, target: Document, pub: Publisher) {
    && (|publishers| > 1 ==> pub.bootstrap == 0)
    && d.devices <= source.registry.Keys && d.devices <= d.candidate.registry.Keys
    && (d.devices != {} ==> source.identity.Some?)
    && Complete(d, |publishers| > 1, pub)
    && Storable(size, source, FirstOf(first, publishers, d, source, target, pub))
  }

  /** The fleet and the room that a preparation from nothing needs. */
  ghost predicate PreparationFits(first: Alias, publishers: set<Alias>, size: Measure, d: MigrationDraft, w: World) {
    first in w.pubs && Snapshotable(w.pubs[first]) && Preparable(first, publishers, size, d, w.source, w.target, w.pubs[first])
  }

  /** What the first journal takes over: every live grant of a migrated device or of a namespace to be emptied, nothing else. */
  lemma {:induction false} FirstTakesOver(first: Alias, publishers: set<Alias>, d: MigrationDraft, w: World, t: Token)
    requires first in w.pubs && Complete(d, |publishers| > 1, w.pubs[first])
    ensures var pub := w.pubs[first];
            var j := FirstOf(first, publishers, d, w.source, w.target, pub);
            && j.sourceBefore == w.source && j.targetBefore == w.target && j.candidate == d.candidate && j.devices == d.devices
            && (t in j.grants <==>
                  && t in pub.rows && t !in pub.revoked && !(pub.rows[t].expires != "" && pub.rows[t].expires in pub.due)
                  && (pub.rows[t].client in d.devices || |publishers| > 1))
            && (t in j.grants ==> GrantTaken(first, d, pub.rows[t], j.grants[t], t))
            && NothingStray(j, |publishers| > 1, pub)
  {
  }

  /** The document there is kept as the predecessor; a migrated device gets its rendered payload. */
  ghost predicate GrantTaken(first: Alias, d: MigrationDraft, row: Envelope, g: MigrationGrant, t: Token) {
    && g.prior == row && g.before == map[first := Some(row)]
    && g.next.client == row.client && g.next.expires == row.expires
    && if row.client in d.devices then t in d.rendered && g.next.payload == d.rendered[t] else g.next.payload == row.payload
  }

  /** Its first journal is in step with the untouched fleet. */
  lemma {:induction false} FirstInStep(first: Alias, publishers: set<Alias>, d: MigrationDraft, w: World)
    requires first in w.pubs && first in publishers
    requires d.devices <= w.source.registry.Keys && d.devices <= d.candidate.registry.Keys
    requires d.devices != {} ==> w.source.identity.Some?
    ensures var j := FirstOf(first, publishers, d, w.source, w.target, w.pubs[first]);
            FirstJournal(first, publishers, j, w) && Shape(publishers, j) && Tracks(j, w, w)
  {
    var j := FirstOf(first, publishers, d, w.source, w.target, w.pubs[first]);
    FirstShape(first, publishers, j, w);
  }

  // ---------------------------------------------------------------- runs of attempts

  /** One attempt at publication: when it is cut short, and its random inputs. */
  datatype Attempt = Attempt(crash: nat, draft: DeliveryDraft, probes: Probes)

  /** Every attempt brings probes no publisher has seen, expiring at a stamp of their own. */
  ghost predicate AllFresh(publishers: set<Alias>, j: Journal, w: World, attempts: seq<Attempt>) {
    && (forall i | 0 <= i < |attempts| ::
          Foreign(j, attempts[i].probes.stamp) && FreshProbes(publishers, j, w, attempts[i].probes))
    && (forall i, k | 0 <= i < k < |attempts| :: Apart(attempts[i].probes, attempts[k].probes))
  }

  ghost predicate Apart(p: Probes, q: Probes) {
    p.stamp != q.stamp && forall a | a in p.tokens && a in q.tokens :: p.tokens[a] != q.tokens[a]
  }

  lemma {:induction false} NextAttempts(publishers: set<Alias>, j: Journal, j': Journal, w: World, w': World, attempts: seq<Attempt>)
    requires attempts != [] && AllFresh(publishers, j, w, attempts) && Later(j, j')
    requires StraysKept(j, w, w', attempts[0].probes.tokens, attempts[0].probes.stamp)
    ensures AllFresh(publishers, j', Elapsed(w', attempts[0].probes.stamp), attempts[1..])
  {
    hide StraysKept;
    var passed := attempts[0].probes;
    forall i | 1 <= i < |attempts|
      ensures Foreign(j', attempts[i].probes.stamp)
      ensures FreshProbes(publishers, j', Elapsed(w', passed.stamp), attempts[i].probes)
    {
      var probes := attempts[i].probes;
      assert Apart(passed, probes) && FreshProbes(publishers, j, w, probes);
      forall a | a in publishers
        ensures Fresh(j', Elapsed(w', passed.stamp), a, probes.tokens[a], probes.stamp, probes.nonces[a])
      {
        FreshOnceElapsed(j, w, w', a, probes.tokens[a], probes.stamp, probes.nonces[a], passed.tokens, passed.stamp);
      }
    }
  }

  /** The fleets a run of publication attempts can be finished on: ready, and with room for every leftover probe. */
  ghost predicate Resumable(first: Alias, publishers: set<Alias>, size: Measure, j: Journal, w: World, attempts: seq<Attempt>) {
    && AllFresh(publishers, j, w, attempts)
    && (forall i | 0 <= i < |attempts| :: Publishable(first, publishers, size, j, w, attempts[i].draft))
    && (attempts != [] ==> PeakFits(j, w, publishers, false, |attempts| - 1))
  }

  lemma {:induction false} StillPublishable(first: Alias, publishers: set<Alias>, size: Measure, j: Journal, j': Journal,
                         w: World, w': World, base: World, probes: Probes, d: DeliveryDraft, n: nat)
    requires Publishable(first, publishers, size, j, w, d) && Later(j, j') && Foreign(j, probes.stamp)
    requires StraysKept(j, w, w', probes.tokens, probes.stamp)
    requires Tracks(j, w, base) && Tracks(j', w', base) && PeakFits(j, w', publishers, false, n)
    requires j' == j || j'.phase.Publishing? || j'.phase.Published?
    ensures Publishable(first, publishers, size, j', Elapsed(w', probes.stamp), d)
  {
    hide Tracks, SnapshotsClean, PairReady, AllRecordable, Startable, PublisherKept, RowsFit, EndRows, PeakRoom;
    PeakEnough(j, w', publishers, false, n);
    StillSnapshotable(publishers, j, w, w', probes);
    LiveOnceElapsed(first, publishers, j, w, w', probes.tokens, probes.stamp);
    SameReady(first, publishers, j, j', Elapsed(w', probes.stamp), false);
    SameEnds(j, j', w', publishers, false);
    SameEndsElapsed(j', w', publishers, probes.stamp);
    if j'.phase.Prepared? {
      KeptSame(j, w, w', probes.tokens, probes.stamp);
      StillStartable(publishers, size, j, w, w', base, probes.stamp, d);
    }
  }

  lemma {:induction false} KeptSame(j: Journal, w: World, w': World, tokens: map<Alias, Token>, stamp: string)
    requires StraysKept(j, w, w', tokens, stamp)
    ensures w'.pubs.Keys == w.pubs.Keys && forall a | a in w.pubs :: SamePublisher(w'.pubs[a], w.pubs[a])
  {
    hide RowMoved;
    forall a | a in w.pubs
      ensures SamePublisher(w'.pubs[a], w.pubs[a])
    {
      assert PublisherKept(j, a, w'.pubs[a], w.pubs[a], tokens, stamp);
    }
  }

  lemma {:induction false} SameEndsElapsed(j: Journal, w: World, publishers: set<Alias>, stamp: string)
    requires EndFits(j, w, publishers, false)
    ensures EndFits(j, Elapsed(w, stamp), publishers, false)
  {
    hide RowsFit, EndRows;
  }

  lemma {:induction false} StillSnapshotable(publishers: set<Alias>, j: Journal, w: World, w': World, probes: Probes)
    requires SnapshotsFit(publishers, w) && StraysKept(j, w, w', probes.tokens, probes.stamp)
    requires forall a | a in publishers :: a in w'.pubs && RowsFit(w'.pubs[a].rows)
    ensures SnapshotsFit(publishers, w')
  {
    hide RowsFit, RowMoved;
    forall a | a in publishers
      ensures Snapshotable(w'.pubs[a])
    {
      assert PublisherKept(j, a, w'.pubs[a], w.pubs[a], probes.tokens, probes.stamp) && Snapshotable(w.pubs[a]);
    }
  }

  /** A prepared fleet stays startable: neither documents nor journaled rows have moved. */
  lemma {:induction false} StillStartable(publishers: set<Alias>, size: Measure, j: Journal, w: World, w': World, base: World,
                                          stamp: string, d: DeliveryDraft)
    requires Startable(publishers, size, j, w, d) && j.phase.Prepared? && Foreign(j, stamp)
    requires Tracks(j, w, base) && Tracks(j, w', base) && w'.pubs.Keys == w.pubs.Keys
    requires forall a | a in w.pubs :: SamePublisher(w'.pubs[a], w.pubs[a])
    ensures Startable(publishers, size, j, Elapsed(w', stamp), d)
  {
    hide PublisherTracks, AllRecordable, AllRecorded, IntentOf;
    RecordableOnceElapsed(j, publishers, w, w', base, stamp);
  }

  // ---------------------------------------------------------------- taking an attempt up again

  lemma {:induction false} MovedFrom(j: Journal, w: World, w': World, w'': World, rollback: bool)
    requires OnlyGrants(j, w, w', rollback) && w''.pubs == w'.pubs && w''.due == w'.due
    ensures OnlyGrantRows(j, w, w'', rollback)
  {
    hide RowsMoved;
  }

  /** After every row has moved, the confirmation can be taken exactly when it was to be expected. */
  lemma {:induction false} Confirmable(first: Alias, publishers: set<Alias>, j: Journal, w: World, w': World, rollback: bool)
    requires OnlyGrants(j, w, w', rollback) && Settled(j, w', publishers, rollback) && Ready(first, publishers, j, w, rollback)
    ensures SnapshotsFit(publishers, w') <==> EndFits(j, w, publishers, rollback)
    ensures EndFits(j, w, publishers, rollback) ==> Ready(first, publishers, j, w', rollback)
  {
    hide Settled, RowsMoved, Snapshotable, SnapshotsClean, PairReady, EndRows;
    ConfirmationFits(j, w, w', publishers, rollback);
    if EndFits(j, w, publishers, rollback) {
      ReadyAfter(first, publishers, j, w, w', rollback);
    }
  }

  lemma {:induction false} FirstFresh(first: Alias, publishers: set<Alias>, size: Measure, j: Journal, w: World, attempts: seq<Attempt>)
    requires attempts != [] && Resumable(first, publishers, size, j, w, attempts)
    ensures FreshProbes(publishers, j, w, attempts[0].probes) && Foreign(j, attempts[0].probes.stamp)
    ensures Publishable(first, publishers, size, j, w, attempts[0].draft)
  {
    hide Publishable, FreshProbes;
  }

  lemma {:induction false} StillResumable(first: Alias, publishers: set<Alias>, size: Measure, j: Journal, j': Journal,
                         w: World, w': World, base: World, attempts: seq<Attempt>)
    requires |attempts| > 1 && Resumable(first, publishers, size, j, w, attempts) && Later(j, j')
    requires StraysKept(j, w, w', attempts[0].probes.tokens, attempts[0].probes.stamp)
    requires Tracks(j, w, base) && Tracks(j', w', base)
    requires j' == j || j'.phase.Publishing? || j'.phase.Published?
    ensures Resumable(first, publishers, size, j', Elapsed(w', attempts[0].probes.stamp), attempts[1..])
  {
    hide Tracks, Later, Publishable, PeakFits, AllFresh, StraysKept, Foreign;
    var probes := attempts[0].probes;
    FirstFresh(first, publishers, size, j, w, attempts);
    NextAttempts(publishers, j, j', w, w', attempts);
    var n := |attempts| - 2;
    PeakAfterAttempt(j, w, w', publishers, probes.tokens, probes.stamp, n);
    forall i | 1 <= i < |attempts|
      ensures Publishable(first, publishers, size, j', Elapsed(w', probes.stamp), attempts[i].draft)
    {
      StillPublishable(first, publishers, size, j, j', w, w', base, probes, attempts[i].draft, n);
    }
    SamePeak(j, j', w', publishers, false, n);
    PeakElapsed(j', w', publishers, probes.stamp, n);
  }

  lemma {:induction false} PeakElapsed(j: Journal, w: World, publishers: set<Alias>, stamp: string, n: nat)
    requires PeakFits(j, w, publishers, false, n)
    ensures PeakFits(j, Elapsed(w, stamp), publishers, false, n)
  {
    hide PeakRoom;
  }

  lemma {:induction false} StillRollbackable(first: Alias, publishers: set<Alias>, size: Measure, j: Journal, j': Journal, w: World, w': World)
    requires Rollbackable(first, publishers, size, j, w) && RollbackRoom(j, w, publishers) && Later(j, j')
    requires OnlyGrantRows(j, w, w', true) && w'.target.identity == w.target.identity
    requires !j'.phase.RolledBack? ==> w'.source == w.source
    requires j'.phase.RolledBack? || j' == j || (Moving(j) && j' == Rolling(j, w.source, w.target))
    ensures Rollbackable(first, publishers, size, j', w') && RollbackRoom(j', w', publishers)
  {
    hide Later, Ready, EndFits, PeakFits, Storable, OnlyGrantRows;
    if j'.phase.RollingBack? || j'.phase.Publishing? || j'.phase.Published? {
      assert Rolling(j', w'.source, w'.target) == Rolling(j, w.source, w.target);
      PeakAfterRows(j, w, w', publishers);
      StillReturnable(first, publishers, j, w, w');
      SameReady(first, publishers, j, j', w', true);
      SameEnds(j, j', w', publishers, true);
      SamePeak(j, j', w', publishers, true, 0);
    }
  }

  lemma {:induction false} StillReturnable(first: Alias, publishers: set<Alias>, j: Journal, w: World, w': World)
    requires Ready(first, publishers, j, w, true) && OnlyGrantRows(j, w, w', true) && PeakFits(j, w', publishers, true, 0)
    ensures Ready(first, publishers, j, w', true) && EndFits(j, w', publishers, true)
  {
    hide SnapshotsClean, PairReady, RowsFit, EndRows, PeakRoom, RowMoved;
    PeakEnough(j, w', publishers, true, 0);
    forall a | a in publishers
      ensures a in w'.pubs && Snapshotable(w'.pubs[a])
    {
      assert RowsMoved(j, a, w'.pubs[a], w.pubs[a], true) && Snapshotable(w.pubs[a]);
    }
    ReadyAfterRows(first, publishers, j, w, w');
  }

  // ---------------------------------------------------------------- whole migrations

  /** A draft that can be prepared, and whose publication these attempts can finish. */
  ghost predicate Migratable(first: Alias, publishers: set<Alias>, size: Measure, d: MigrationDraft, w: World, attempts: seq<Attempt>) {
    && PreparationFits(first, publishers, size, d, w)
    && Resumable(first, publishers, size,
                 FirstOf(first, publishers, d, w.source, w.target, w.pubs[first]).(phase := Prepared),
                 w.(target := d.candidate), attempts)
  }

  /** A preparation in progress: nothing yet, its first journal, or the prepared target. */
  ghost predicate Underway(first: Alias, publishers: set<Alias>, d: MigrationDraft, record: Option<Journal>, was: World, w: World) {
    match record
    case None => w == was
    case Some(r) =>
      && first in was.pubs
      && var j := FirstOf(first, publishers, d, was.source, was.target, was.pubs[first]);
         || (r == j && (w == was || w == was.(target := d.candidate)))
         || (r == j.(phase := Prepared) && w == was.(target := d.candidate))
  }

  lemma {:induction false} PreparedNext(first: Alias, publishers: set<Alias>, size: Measure, d: MigrationDraft, w: World, attempts: seq<Attempt>)
    requires Migratable(first, publishers, size, d, w, attempts)
    ensures first in w.pubs && PreparationFits(first, publishers, size, d, w)
    ensures Resumable(first, publishers, size,
                      FirstOf(first, publishers, d, w.source, w.target, w.pubs[first]).(phase := Prepared),
                      w.(target := d.candidate), attempts)
  {
    hide Resumable, Preparable, Snapshotable;
  }

  lemma {:induction false} FirstAnswers(first: Alias, publishers: set<Alias>, size: Measure, d: MigrationDraft, w: World, quiet: bool)
    requires quiet ==> PreparationFits(first, publishers, size, d, w)
    ensures quiet ==> first in w.pubs
  {
  }

  /** Preparation only ever goes from nothing to its first journal and on to the prepared target. */
  lemma {:induction false} UnderwayStep(first: Alias, publishers: set<Alias>, d: MigrationDraft, e: MigrationDraft,
                         r: Option<Journal>, r': Option<Journal>, was: World, w: World, w': World)
    requires Underway(first, publishers, d, r, was, w) && (r.Some? ==> e == d)
    requires r.None? && r'.Some? ==>
               && first in w.pubs
               && var j := FirstOf(first, publishers, e, w.source, w.target, w.pubs[first]);
                  r' == Some(j) || r' == Some(j.(phase := Prepared))
    requires r.Some? ==> r' == r || (r.value.phase.Preparing? && r' == Some(r.value.(phase := Prepared)))
    requires w' == w || (r'.Some? && w' == w.(target := r'.value.candidate))
    requires r' != r && r'.Some? && r'.value.phase.Prepared? ==> w'.target == r'.value.candidate
    ensures Underway(first, publishers, e, r', was, w')
  {
    hide FirstGrants;
  }

  lemma {:induction false} FirstLater(first: Alias, publishers: set<Alias>, d: MigrationDraft, w: World, w': World, j: Journal)
    requires Underway(first, publishers, d, Some(j), w, w') && !j.phase.Preparing?
    ensures first in w.pubs && Later(FirstOf(first, publishers, d, w.source, w.target, w.pubs[first]), j)
    ensures j == FirstOf(first, publishers, d, w.source, w.target, w.pubs[first]).(phase := Prepared)
    ensures w' == w.(target := d.candidate) && j.after.None?
  {
    hide FirstGrants;
  }

  /** Both documents of a whole migration: what was there and what was prepared, with one draft's deliveries. */
  ghost predicate Delivers(was: World, w: World, d: MigrationDraft, draft: DeliveryDraft) {
    && DeliveredTo(was.source, w.source, d.devices, draft.source, draft.identity)
    && DeliveredTo(d.candidate, w.target, d.devices, draft.target, draft.identity)
  }

  lemma {:induction false} MigrationDelivers(first: Alias, publishers: set<Alias>, d: MigrationDraft, was: World, w: World, j: Journal, attempts: seq<Attempt>)
    requires first in was.pubs && Later(FirstOf(first, publishers, d, was.source, was.target, was.pubs[first]), j)
    requires Migrated(j, w, publishers) && DraftedBy(j, attempts, |attempts|)
    ensures exists i :: 0 <= i < |attempts| && Delivers(was, w, d, attempts[i].draft)
  {
    hide FirstGrants, DeliveredTo;
    var i :| 0 <= i < |attempts| && Drafted(j, attempts[i].draft);
    assert Delivers(was, w, d, attempts[i].draft);
  }

  // ---------------------------------------------------------------- a full target namespace

  const PHONE := map["phone" := Entry("authority", "delivery")]
  const GRANTED := Envelope("phone", "", "x")
  const MOVED := Envelope("phone", "", "y")
  const SOURCE := Document(PHONE, Some("key"), "source")
  const TARGET := Document(map[], None, "target")
  const CANDIDATE := Document(PHONE, None, "target")
  const ONE_DEVICE := MigrationDraft({"phone"}, CANDIDATE, map["grant" := "y"])
  const DELIVERIES := DeliveryDraft(map["phone" := "s"], map["phone" := "t"], "identity")
  const PAIR: set<Alias> := {"old", "new"}
  const SMALL: Measure := (source, j) => 0

  function OneRow(): Publisher {
    Publisher(map["grant" := GRANTED], {}, {}, 0)
  }

  function FullTarget(target: Document): World {
    World(SOURCE, target, map["old" := OneRow(), "new" := FullPublisher()], {})
  }

  function PreparedMove(): Journal {
    Journal(Prepared, SOURCE, TARGET, CANDIDATE, {"phone"},
            map["grant" := MigrationGrant(GRANTED, MOVED, map["old" := Some(GRANTED)])], None, None)
  }

  lemma {:induction false} OneRowFits()
    ensures Snapshotable(OneRow())
  {
    NoBytes();
    OneMore(map[], "grant", GRANTED);
  }

  lemma {:induction false} FullTargetPrepares()
    ensures PreparationFits("old", PAIR, SMALL, ONE_DEVICE, FullTarget(TARGET))
  {
    hide Crowd, Snapshotable, FullPublisher, FirstOf;
    OneRowFits();
  }

  lemma {:induction false} FullTargetJournal()
    ensures FirstOf("old", PAIR, ONE_DEVICE, SOURCE, TARGET, OneRow()).(phase := Prepared) == PreparedMove()
  {
    hide Crowd;
    assert FirstGrants("old", {"phone"}, true, OneRow(), ONE_DEVICE.rendered) == PreparedMove().grants;
  }

  lemma {:induction false} FullTargetReady()
    ensures Ready("old", PAIR, PreparedMove(), FullTarget(CANDIDATE), false)
  {
    hide Crowd, Snapshotable, SnapshotsClean;
    OneRowFits();
    FullPublisherFits();
    FullTargetClean();
  }

  lemma {:induction false} FullTargetClean()
    ensures SnapshotsClean("old", PAIR, PreparedMove(), FullTarget(CANDIDATE))
  {
    hide NothingStray, FullPublisher;
    var j, w := PreparedMove(), FullTarget(CANDIDATE);
    Bystanders();
    OnlyTheGrant();
    forall a | a in PAIR
      ensures a in w.pubs && NothingStray(j, |PAIR| > 1 && a == "old", w.pubs[a])
    {
      assert a == "old" || a == "new";
    }
  }

  lemma {:induction false} OnlyTheGrant()
    ensures NothingStray(PreparedMove(), |PAIR| > 1, OneRow())
  {
  }

  /** None of the crowd is the moved device's. */
  lemma {:induction false} Bystanders()
    ensures NothingStray(PreparedMove(), false, FullPublisher())
  {
    hide Crowd, Bytes;
    var full := FullPublisher();
    CrowdRows(MAX_DOCUMENTS);
    forall t | t in full.rows
      ensures !Stray(PreparedMove(), false, full, t)
    {
      assert full.rows[t] == Envelope("other", "", "x");
    }
  }

  lemma {:induction false} FullTargetStarts()
    ensures Startable(PAIR, SMALL, PreparedMove(), FullTarget(CANDIDATE), DELIVERIES)
  {
    hide Started, Storable, AllRecordable;
    FullTargetRecordable();
    AlwaysStorable(SOURCE, Started(PAIR, PreparedMove(), SOURCE, CANDIDATE, FullTarget(CANDIDATE).pubs, DELIVERIES));
  }

  lemma {:induction false} FullTargetRecordable()
    ensures AllRecordable(PreparedMove(), PAIR, FullTarget(CANDIDATE).pubs)
  {
    hide Crowd;
    OutsideCrowd(MAX_DOCUMENTS, "grant", 0);
    hide FullPublisher;
    var pubs := FullTarget(CANDIDATE).pubs;
    assert pubs["new"].Row("grant").None?;
  }

  lemma {:induction false} AlwaysStorable(source: Document, j: Journal)
    ensures Storable(SMALL, source, j)
  {
  }

  lemma {:induction false} FullTargetOverflows()
    ensures !EndFits(PreparedMove(), FullTarget(CANDIDATE), PAIR, false)
  {
    hide Crowd, Bytes, EndRows;
    var rows := FullPublisher().rows;
    OutsideCrowd(MAX_DOCUMENTS, "grant", 0);
    FullPublisherFits();
    OneMore(rows, "grant", MOVED);
    OneGrantEnds(PreparedMove(), "new", rows, "grant");
    assert "new" in PAIR && FullTarget(CANDIDATE).pubs["new"].rows == rows;
  }

  lemma {:induction false} OneGrantEnds(j: Journal, a: Alias, rows: map<Token, Envelope>, t: Token)
    requires j.grants.Keys == {t}
    ensures EndRows(j, a, rows, false) == rows[t := j.grants[t].next]
  {
  }

  /**
   The limit is real for migrations too: with exactly 256 documents at the target, preparation is
   accepted and publication starts; it moves the grant, and from then on neither publication nor
   rollback can be finished.
   */
  lemma {:induction false} FullTargetSticks() returns (j: Journal, w: World)
    ensures PreparationFits("old", PAIR, SMALL, ONE_DEVICE, FullTarget(TARGET))
    ensures var prepared, before := PreparedMove(), FullTarget(CANDIDATE);
            && FirstOf("old", PAIR, ONE_DEVICE, SOURCE, TARGET, OneRow()).(phase := Prepared) == prepared
            && Ready("old", PAIR, prepared, before, false)
            && Startable(PAIR, SMALL, prepared, before, DELIVERIES)
            && !EndFits(prepared, before, PAIR, false)
            && j == Started(PAIR, prepared, SOURCE, CANDIDATE, before.pubs, DELIVERIES)
            && var moved := CompareAndSwap(before.pubs["new"], "grant", None, Some(j.grants["grant"].next));
               moved.Some? && w == WithPublisher(before, "new", moved.value)
    ensures forall d :: !Publishable("old", PAIR, SMALL, j, w, d)
    ensures !Rollbackable("old", PAIR, SMALL, j, w)
  {
    hide Crowd, Snapshotable, CompareAndSwap, FullPublisher, PreparationFits, Ready, Startable, FirstOf, EndFits;
    FullTargetPrepares();
    FullTargetJournal();
    FullTargetReady();
    FullTargetStarts();
    FullTargetOverflows();
    OneTooMany("grant", 0, MOVED);
    var before := FullTarget(CANDIDATE);
    j := Started(PAIR, PreparedMove(), SOURCE, CANDIDATE, before.pubs, DELIVERIES);
    w := WithPublisher(before, "new", CompareAndSwap(before.pubs["new"], "grant", None, Some(MOVED)).value);
    OverfullStops("old", PAIR, SMALL, j, w, DELIVERIES, "new");
    forall d
      ensures !Publishable("old", PAIR, SMALL, j, w, d)
    {
      OverfullStops("old", PAIR, SMALL, j, w, d, "new");
    }
  }
}
