/**
 When an accepted operation has room to finish: in terms of the fleet and the draft, before it
 starts, and after attempts that left route probes behind.
 */
module LifecycleRoom {
  import opened Wrappers
  import opened Sums
  import opened SubscriptionPublisher
  import opened LifecycleJournal
  import opened LifecycleFleet
  import opened LifecycleSteps
  import opened LifecycleProbes
  import opened LifecycleSizes
  import opened LifecyclePreparation

  lemma {:induction false} FirstExact(m: Manifest, plan: Plan)
    requires ValidPlan(m, plan)
    ensures JournalBytes(FirstJournal(m, plan)) == FirstBytes(m)
  {
    var canaries := FirstJournal(m, plan).canaries;
    assert canaries.Keys == plan.canaries.Keys;
    SameCount(canaries, plan.canaries);
    assert |plan.canaries| == |plan.canaries.Keys|;
    SumConstant(canaries.Keys, 15);
    SumBelow(canaries.Keys, canaries.Keys, h => StateAt(canaries, h), h => 15);
    SumBelow(canaries.Keys, canaries.Keys, h => 15, h => StateAt(canaries, h));
  }

  /**
   The limit of journals is real: every plan has intents whose first journal can be saved, while
   every run outgrows it, whatever was recorded before.
   */
  lemma {:induction false} JournalOutgrows(m: Manifest, plan: Plan) returns (intent: nat)
    requires ValidPlan(m, plan) && m.publishers <= m.nodes && FirstBytes(m) <= JOURNAL_LIMIT
    ensures intent + JournalBytes(FirstJournal(m, plan)) <= JOURNAL_LIMIT
    ensures !JournalRoom(m, plan, intent) && forall begun :: !RunRoom(m, plan, begun, intent)
  {
    hide Affected, GrantIds, GrantsListed;
    intent := JOURNAL_LIMIT - FirstBytes(m);
    FirstExact(m, plan);
    SumBelow(m.nodes, m.nodes, h => 3, HostItem);
    SumConstant(m.nodes, 3);
    KeysBelow(m.publishers, m.nodes);
    assert |plan.canaries| == |plan.canaries.Keys|;
    assert plan.canaries.Keys == if m.action.Revoke? then m.publishers else {};
  }

  // ---------------------------------------------------------------- after an attempt

  lemma {:induction false} RoomLess(m: Manifest, plan: Plan, base: World, n: nat)
    requires Room(m, plan, base, n)
    ensures Room(m, plan, base, 0)
    decreases n
  {
    hide PublisherRoom;
    if n > 0 {
      forall p | p in m.publishers && p in base.pubs ensures PublisherRoom(m, plan, p, base.pubs[p], n - 1) {
        LessRoom(m, plan, p, base.pubs[p], n - 1);
      }
      RoomLess(m, plan, base, n - 1);
    }
  }

  lemma {:induction false} RoomOneLess(m: Manifest, plan: Plan, base: World, n: nat)
    requires Room(m, plan, base, n + 1)
    ensures Room(m, plan, base, n)
  {
    hide PublisherRoom;
    forall p | p in m.publishers && p in base.pubs ensures PublisherRoom(m, plan, p, base.pubs[p], n) {
      LessRoom(m, plan, p, base.pubs[p], n);
    }
  }

  /** An attempt that was cut short takes at most one probe's room and nothing else. */
  lemma {:induction false} AfterAttempt(m: Manifest, plan: Plan, was: World, base: World, n: nat)
    requires WellPlanned(m, plan, was) && Deliverable(m, plan, was) && Room(m, plan, was, n + 1)
    requires m.device != ROUTE_CHECK && (base == was || OneProbe(plan, was, base))
    ensures WellPlanned(m, plan, base) && Deliverable(m, plan, base) && Room(m, plan, base, n)
  {
    hide PublisherPlanned, PublisherRoom, PublisherDeliverable;
    if base == was {
      hide WellPlanned, Deliverable;
      RoomOneLess(m, plan, was, n);
    } else {
      var p, t, probe :| LeftBy(plan, was, base, p, t, probe);
      assert p in m.publishers;
      WellPlannedProbed(m, plan, was, p, t, probe);
      ProbedRoom(m, plan, was, p, t, probe, n);
      hide WellPlanned, Room;
      ProbedDeliverable(m, plan, was, p, t, probe);
    }
  }

  lemma {:induction false} StillUnexpired(plan: Plan, was: World, base: World, probe: Envelope)
    requires base == was || OneProbe(plan, was, base)
    requires forall p | p in was.pubs :: !was.pubs[p].Expired(probe)
    ensures forall p | p in base.pubs :: !base.pubs[p].Expired(probe)
  {
    if base != was {
      var p, t, left :| LeftBy(plan, was, base, p, t, left);
    }
  }

  // ---------------------------------------------------------------- before it starts

  /** So many more rows and bytes fit this namespace. */
  ghost predicate HasRoomFor(pub: Publisher, rows: nat, bytes: nat) {
    |pub.rows| + rows <= MAX_DOCUMENTS && Bytes(pub.rows) + bytes <= MAX_BYTES && DenyListFits(pub.revoked)
  }

  /** The rows of one publisher once these grants are renewed. */
  function RenewedRows(m: Manifest, p: Host, pub: Publisher, renewed: map<(Host, Token), string>, tokens: seq<Token>): map<Token, Envelope>
    requires forall t | t in ActiveTokens(m, pub) :: (p, t) in renewed
  {
    pub.rows + map t | t in ActiveTokens(m, pub) && t in tokens :: RefreshedGrants(m, p, pub, renewed)[t].after
  }

  /** The grants of a refresh, in the order the snapshot lists them. */
  function RefreshOrder(m: Manifest, p: Host, pub: Publisher, d: Draft): seq<Token> {
    if p in d.order then Filtered(d.order[p], ActiveTokens(m, pub)) else []
  }

  /** Renewed one after the other, they never need more than there is. */
  ghost predicate RenewalsFit(m: Manifest, p: Host, pub: Publisher, d: Draft, probes: nat) {
    && (forall t | t in ActiveTokens(m, pub) :: (p, t) in d.renewed)
    && forall k: nat :: RowsRoom(RenewedRows(m, p, pub, d.renewed, First(RefreshOrder(m, p, pub, d), k)), probes)
  }

  predicate Touched(w: World, d: Draft, p: Host) {
    p in d.profiles || (p in w.docs && p in d.candidate && w.docs[p] != d.candidate[p])
  }

  /**
   What the operator can read off the fleet and the draft: a revocation adds a canary at every
   publisher, an issue one document at its issuer, a refresh replaces documents one by one; deny
   lists still fit.
   */
  ghost predicate PublisherHasRoom(m: Manifest, w: World, d: Draft, p: Host, pub: Publisher, probes: nat) {
    p in d.candidate &&
    if m.action.Revoke? then
      && p in d.canaries && HasRoomFor(pub, 1 + probes, Size(d.canaries[p].document) + probes * PROBE_SIZE)
      && DenyListFits(Elems(d.candidate[p].revoked) + DeviceTokens(m, pub) + {d.canaries[p].token})
    else
      && (Touched(w, d, p) ==> DenyListFits(Elems(d.candidate[p].revoked)))
      && if m.native then HasRoomFor(pub, probes, probes * PROBE_SIZE)
         else if m.action.Issue? then
           if p == d.issuer then HasRoomFor(pub, 1 + probes, Size(d.issued) + probes * PROBE_SIZE)
           else HasRoomFor(pub, probes, probes * PROBE_SIZE)
         else RenewalsFit(m, p, pub, d, probes) && DenyListFits(pub.revoked)
  }

  lemma {:induction false} RevocationPrefix(m: Manifest, plan: Plan, p: Host, pub: Publisher, k: nat)
    requires p in plan.grants && plan.grants[p] == RevokedGrants(m, pub) && p in plan.canaries
    ensures PrefixRows(plan, p, pub, k) == pub.rows[plan.canaries[p].token := plan.canaries[p].document]
  {
  }

  lemma {:induction false} QuietPrefix(plan: Plan, p: Host, pub: Publisher, k: nat)
    requires p !in plan.grants && p !in plan.canaries
    ensures PrefixRows(plan, p, pub, k) == pub.rows
  {
  }

  lemma {:induction false} IssuePrefix(plan: Plan, p: Host, pub: Publisher, t: Token, document: Envelope, k: nat)
    requires p in plan.grants && plan.grants[p] == map[t := Grant(None, document)] && p !in plan.canaries
    requires p in plan.order && plan.order[p] == [t]
    ensures PrefixRows(plan, p, pub, k) == if k == 0 then pub.rows else pub.rows[t := document]
  {
    assert k == 0 ==> First(plan.order[p], k) == [];
    assert k > 0 ==> First(plan.order[p], k) == [t];
  }

  lemma {:induction false} RefreshPrefix(m: Manifest, plan: Plan, p: Host, pub: Publisher, d: Draft, k: nat)
    requires forall t | t in ActiveTokens(m, pub) :: (p, t) in d.renewed
    requires p in plan.grants && plan.grants[p] == RefreshedGrants(m, p, pub, d.renewed) && p !in plan.canaries
    requires OrderOf(plan, p) == RefreshOrder(m, p, pub, d)
    ensures PrefixRows(plan, p, pub, k) == RenewedRows(m, p, pub, d.renewed, First(RefreshOrder(m, p, pub, d), k))
  {
    hide RefreshedGrants, RefreshOrder;
    assert plan.grants[p].Keys == ActiveTokens(m, pub) by { RefreshedKeys(m, p, pub, d.renewed); }
  }

  lemma {:induction false} RefreshedKeys(m: Manifest, p: Host, pub: Publisher, renewed: map<(Host, Token), string>)
    requires forall t | t in ActiveTokens(m, pub) :: (p, t) in renewed
    ensures RefreshedGrants(m, p, pub, renewed).Keys == ActiveTokens(m, pub)
  {
  }

  /** The room of every prefix, in each of the four cases. */
  lemma {:induction false} RevocationReadable(m: Manifest, plan: Plan, p: Host, pub: Publisher, n: nat)
    requires p in plan.grants && plan.grants[p] == RevokedGrants(m, pub) && p in plan.canaries
    requires plan.canaries[p].token !in pub.rows && DenyListFits(pub.revoked)
    ensures (forall k: nat :: PrefixRoom(plan, p, pub, k, n)) <==>
              HasRoomFor(pub, 1 + n, Size(plan.canaries[p].document) + n * PROBE_SIZE)
  {
    hide PrefixRows, RevokedGrants;
    OneMore(pub.rows, plan.canaries[p].token, plan.canaries[p].document);
    forall k: nat
      ensures PrefixRoom(plan, p, pub, k, n) <==> HasRoomFor(pub, 1 + n, Size(plan.canaries[p].document) + n * PROBE_SIZE)
    {
      RevocationPrefix(m, plan, p, pub, k);
    }
    assert PrefixRoom(plan, p, pub, 0, n) <==> HasRoomFor(pub, 1 + n, Size(plan.canaries[p].document) + n * PROBE_SIZE);
  }

  lemma {:induction false} QuietReadable(plan: Plan, p: Host, pub: Publisher, n: nat)
    requires p !in plan.grants && p !in plan.canaries && DenyListFits(pub.revoked)
    ensures (forall k: nat :: PrefixRoom(plan, p, pub, k, n)) <==> HasRoomFor(pub, n, n * PROBE_SIZE)
  {
    hide PrefixRows;
    forall k: nat
      ensures PrefixRoom(plan, p, pub, k, n) <==> HasRoomFor(pub, n, n * PROBE_SIZE)
    {
      QuietPrefix(plan, p, pub, k);
    }
    assert PrefixRoom(plan, p, pub, 0, n) <==> HasRoomFor(pub, n, n * PROBE_SIZE);
  }

  lemma {:induction false} IssueReadable(plan: Plan, p: Host, pub: Publisher, t: Token, document: Envelope, n: nat)
    requires p in plan.grants && plan.grants[p] == map[t := Grant(None, document)] && p !in plan.canaries
    requires p in plan.order && plan.order[p] == [t] && t !in pub.rows && DenyListFits(pub.revoked)
    ensures (forall k: nat :: PrefixRoom(plan, p, pub, k, n)) <==> HasRoomFor(pub, 1 + n, Size(document) + n * PROBE_SIZE)
  {
    hide PrefixRows;
    OneMore(pub.rows, t, document);
    forall k: nat
      ensures k > 0 ==> (PrefixRoom(plan, p, pub, k, n) <==> HasRoomFor(pub, 1 + n, Size(document) + n * PROBE_SIZE))
      ensures HasRoomFor(pub, 1 + n, Size(document) + n * PROBE_SIZE) ==> PrefixRoom(plan, p, pub, k, n)
    {
      IssuePrefix(plan, p, pub, t, document, k);
    }
    assert PrefixRoom(plan, p, pub, 1, n) <==> HasRoomFor(pub, 1 + n, Size(document) + n * PROBE_SIZE);
  }

  lemma {:induction false} RefreshReadable(m: Manifest, plan: Plan, p: Host, pub: Publisher, d: Draft, n: nat)
    requires forall t | t in ActiveTokens(m, pub) :: (p, t) in d.renewed
    requires p in plan.grants && plan.grants[p] == RefreshedGrants(m, p, pub, d.renewed) && p !in plan.canaries
    requires OrderOf(plan, p) == RefreshOrder(m, p, pub, d)
    ensures (forall k: nat :: PrefixRoom(plan, p, pub, k, n)) <==> RenewalsFit(m, p, pub, d, n)
  {
    hide PrefixRows, RenewedRows, RefreshedGrants, RefreshOrder, RowsRoom, OrderOf, ActiveTokens, First;
    forall k: nat
      ensures PrefixRoom(plan, p, pub, k, n) <==>
                RowsRoom(RenewedRows(m, p, pub, d.renewed, First(RefreshOrder(m, p, pub, d), k)), n)
    {
      RefreshPrefix(m, plan, p, pub, d, k);
    }
  }

  /** The room of the plan is exactly the room that can be read off the fleet and the draft. */
  lemma {:induction false} RoomReadable(m: Manifest, w: World, d: Draft, plan: Plan, p: Host, n: nat)
    requires Admitted(m, w, d) && Planned(m, w, d, plan) && ValidPlan(m, plan) && p in m.publishers
    requires DenyListFits(w.pubs[p].revoked)
    ensures PublisherRoom(m, plan, p, w.pubs[p], n) <==> PublisherHasRoom(m, w, d, p, w.pubs[p], n)
  {
    hide PrefixRoom, RevokedGrants, RefreshedGrants, Denies, DenyListFits, ActiveTokens, GrantsListed, RenewalsFit, HasRoomFor, Filtered, Lists;
    var pub := w.pubs[p];
    if m.action.Revoke? {
      RevocationReadable(m, plan, p, pub, n);
      DeniedElems(m, pub, d.canaries[p].token, d.candidate[p], plan.after[p]);
    } else if p !in plan.grants {
      QuietReadable(plan, p, pub, n);
    } else if m.action.Issue? {
      IssueReadable(plan, p, pub, d.token, d.issued, n);
    } else {
      PlannedRefresh(m, w, d, plan, p);
      RefreshReadable(m, plan, p, pub, d, n);
    }
  }

  lemma {:induction false} PlannedRefresh(m: Manifest, w: World, d: Draft, plan: Plan, p: Host)
    requires Admitted(m, w, d) && Planned(m, w, d, plan) && ValidPlan(m, plan) && p in m.publishers
    requires m.action.Refresh? && p in plan.grants
    ensures (forall t | t in ActiveTokens(m, w.pubs[p]) :: (p, t) in d.renewed)
    ensures OrderOf(plan, p) == RefreshOrder(m, p, w.pubs[p], d)
  {
    hide Denies, RefreshedGrants, GrantsListed, ActiveTokens, Lists;
    RefreshedKeys(m, p, w.pubs[p], d.renewed);
  }

  lemma {:induction false} DeniedElems(m: Manifest, pub: Publisher, canary: Token, candidate: Content, after: Content)
    requires Denies(m, pub, canary, candidate, after)
    ensures Elems(after.revoked) == Elems(candidate.revoked) + DeviceTokens(m, pub) + {canary}
  {
  }

  /** Every publisher has the room its part of the operation needs, with so many leftover probes. */
  ghost predicate RoomBefore(m: Manifest, w: World, d: Draft, probes: nat) {
    forall p | p in m.publishers && p in w.pubs :: PublisherHasRoom(m, w, d, p, w.pubs[p], probes)
  }

  lemma {:induction false} RoomIsReadable(m: Manifest, w: World, d: Draft, plan: Plan, n: nat)
    requires Admitted(m, w, d) && Planned(m, w, d, plan) && ValidPlan(m, plan)
    requires forall p | p in m.publishers && p in w.pubs :: DenyListFits(w.pubs[p].revoked)
    ensures Room(m, plan, w, n) <==> RoomBefore(m, w, d, n)
  {
    hide PublisherRoom, PublisherHasRoom, Planned, Admitted;
    forall p | p in m.publishers && p in w.pubs
      ensures PublisherRoom(m, plan, p, w.pubs[p], n) <==> PublisherHasRoom(m, w, d, p, w.pubs[p], n)
    {
      RoomReadable(m, w, d, plan, p, n);
    }
  }

  lemma {:induction false} ReviewedFit(m: Manifest, w: World, d: Draft)
    requires w.pubs.Keys == m.publishers
    ensures Reviewed(m, w, d) ==> forall p | p in m.publishers :: DenyListFits(w.pubs[p].revoked)
  {
    hide RowsFit, ReviewedFacts;
  }

  // ---------------------------------------------------------------- the room is needed

  /** Every namespace fits one snapshot, however many of its grants are delivered. */
  ghost predicate PrefixesFit(m: Manifest, plan: Plan, base: World) {
    forall p | p in m.publishers && p in base.pubs :: AllPrefixesFit(plan, p, base.pubs[p])
  }

  ghost predicate AllPrefixesFit(plan: Plan, p: Host, was: Publisher) {
    forall k: nat :: RowsFit(PrefixRows(plan, p, was, k))
  }

  ghost predicate SeenFits(m: Manifest, w: World) {
    forall p | p in m.publishers && p in w.pubs :: RowsFit(w.pubs[p].rows)
  }

  /** Some fleet in step with the operation shows every namespace at this prefix. */
  lemma {:induction false} PrefixReached(m: Manifest, plan: Plan, base: World, k: nat) returns (j: Journal, w: World)
    requires WellPlanned(m, plan, base)
    ensures SafeJournal(m, j) && j.plan == plan && InStep(m, j, w, base)
    ensures forall p | p in m.publishers :: p in w.pubs && p in base.pubs && w.pubs[p].rows == PrefixRows(plan, p, base.pubs[p], k)
  {
    hide FullBytes, JournalBytes, PublisherPlanned, PublisherTracks, PrefixRows, Evidence, ValidJournal;
    j := Fullest(m, plan);
    UnpublishedSafe(m, j);
    j := j.(published := []);
    assert ValidPlan(m, plan) && j.canaries.Keys == plan.canaries.Keys by { JournalShape(m, j); }
    w := PrefixWorld(m, plan, base, k);
    forall p | p in m.publishers
      ensures PublisherTracks(m, j, p, w.pubs[p], base.pubs[p])
    {
      PrefixTracks(m, j, p, base.pubs[p], k);
    }
    PrefixNodes(m, j, base, k);
  }

  ghost function PrefixPublisher(m: Manifest, plan: Plan, p: Host, was: Publisher, k: nat): Publisher
    requires ValidPlan(m, plan) && p in plan.after
  {
    was.(rows := PrefixRows(plan, p, was, k), revoked := if p in Affected(m, plan) then Elems(plan.after[p].revoked) else was.revoked)
  }

  ghost function PrefixWorld(m: Manifest, plan: Plan, base: World, k: nat): World
    requires WellPlanned(m, plan, base)
  {
    World(plan.source, plan.after,
          map p | p in m.publishers :: PrefixPublisher(m, plan, p, base.pubs[p], k),
          map h | h in m.nodes :: if h in Affected(m, plan) then plan.after[h] else base.running[h],
          base.output)
  }

  lemma {:induction false} PrefixNodes(m: Manifest, j: Journal, base: World, k: nat)
    requires WellPlanned(m, j.plan, base) && Elems(j.adopted) == Affected(m, j.plan)
    ensures NodesTrack(m, j, PrefixWorld(m, j.plan, base, k), base)
  {
    hide PublisherPlanned, PrefixRows, GrantsListed;
  }

  lemma {:induction false} UnpublishedSafe(m: Manifest, j: Journal)
    requires SafeJournal(m, j) && j.phase.AuthorityWritten?
    requires forall h | h in j.canaries :: j.canaries[h] == CanaryState(true, false, false)
    ensures SafeJournal(m, j.(published := []))
  {
  }

  lemma {:induction false} PrefixTracks(m: Manifest, j: Journal, p: Host, was: Publisher, k: nat)
    requires SafeJournal(m, j) && p in m.nodes && PublisherPlanned(m, j.plan, p, was)
    requires Elems(j.written) == m.nodes && Elems(j.adopted) == Affected(m, j.plan) && j.published == []
    requires forall h | h in j.canaries :: j.canaries[h] == CanaryState(true, false, false)
    ensures PublisherTracks(m, j, p, PrefixPublisher(m, j.plan, p, was, k), was)
  {
    var pub := PrefixPublisher(m, j.plan, p, was, k);
    PrefixInOrder(m, j.plan, p, pub, was, k);
    hide InOrder, GrantsListed, Evidence, Distinct;
    forall t
      ensures RowTracks(m, j, p, t, pub.Row(t), was.Row(t))
    {
      PrefixRowTracks(m, j, p, was, k, t);
    }
    hide RowTracks, PrefixRows;
    assert p in Elems(j.adopted) <==> p in Affected(m, j.plan);
  }

  lemma {:induction false} PrefixRowTracks(m: Manifest, j: Journal, p: Host, was: Publisher, k: nat, t: Token)
    requires ValidPlan(m, j.plan) && p in m.nodes && PublisherPlanned(m, j.plan, p, was) && j.canaries.Keys == j.plan.canaries.Keys
    requires Elems(j.adopted) == Affected(m, j.plan) && j.published == []
    requires forall h | h in j.canaries :: j.canaries[h] == CanaryState(true, false, false)
    ensures RowTracks(m, j, p, t, PrefixPublisher(m, j.plan, p, was, k).Row(t), was.Row(t))
  {
    hide GrantsListed;
    if Known(j.plan, p, t) {
      assert GrantPlanned(m, j.plan.grants[p][t], was, t);
    }
  }

  lemma {:induction false} PrefixInOrder(m: Manifest, plan: Plan, p: Host, pub: Publisher, was: Publisher, k: nat)
    requires ValidPlan(m, plan) && p in m.nodes && PublisherPlanned(m, plan, p, was) && pub.rows == PrefixRows(plan, p, was, k)
    ensures InOrder(plan, p, pub, was)
  {
    var order := OrderOf(plan, p);
    forall i | 0 <= i < |order|
      ensures i < k ==> Serves(plan, p, pub, order[i])
      ensures i >= k ==> pub.Row(order[i]) == was.Row(order[i])
    {
      assert order[i] in Elems(order);
      assert order[i] in First(order, k) <==> i < k;
    }
  }

  /** No fleet in step with a safe journal is ever refused a snapshot for its rows iff every prefix fits. */
  lemma {:induction false} RoomExact(m: Manifest, plan: Plan, base: World)
    requires WellPlanned(m, plan, base)
    ensures PrefixesFit(m, plan, base) <==>
            forall j, w | SafeJournal(m, j) && j.plan == plan && InStep(m, j, w, base) :: SeenFits(m, w)
  {
    hide SafeJournal, RowsFit, PrefixRows, PublisherPlanned, InOrder, RowTracks;
    if PrefixesFit(m, plan, base) {
      forall j, w | SafeJournal(m, j) && j.plan == plan && InStep(m, j, w, base)
        ensures SeenFits(m, w)
      {
        forall p | p in m.publishers && p in w.pubs ensures RowsFit(w.pubs[p].rows) {
          var k := BelowPrefix(m, j, p, w.pubs[p], base.pubs[p]);
          FitsBelow(w.pubs[p].rows, PrefixRows(plan, p, base.pubs[p], k));
          assert AllPrefixesFit(plan, p, base.pubs[p]);
        }
      }
    } else {
      var p :| p in m.publishers && p in base.pubs && !AllPrefixesFit(plan, p, base.pubs[p]);
      var k: nat :| !RowsFit(PrefixRows(plan, p, base.pubs[p], k));
      var j, w := PrefixReached(m, plan, base, k);
      assert !SeenFits(m, w);
    }
  }

  lemma {:induction false} FenceSawFit(m: Manifest, j: Journal, w: World)
    requires SafeJournal(m, j) && FenceAccepts(m, j, w)
    ensures SeenFits(m, w)
  {
    hide RowsFit, SnapshotChecked;
    forall p | p in m.publishers && p in w.pubs
      ensures RowsFit(w.pubs[p].rows)
    {
      assert Snapshotable(w.pubs[p]);
    }
  }

  ghost predicate NoCleanup(j: Journal) {
    forall h | h in j.canaries :: !j.canaries[h].cleanupStarted
  }

  /** With every canary published and none deleted, an accepted fence has seen every prefix. */
  lemma {:induction false} CanariesSeen(m: Manifest, j: Journal, w: World, base: World)
    requires Consistent(m, j, w, base) && m.action.Revoke? && AllPositive(j) && NoCleanup(j) && FenceAccepts(m, j, w)
    ensures PrefixesFit(m, j.plan, base)
  {
    hide PrefixRows, PublisherPlanned, PublisherTracks, RowsFit, NodesTrack, GrantsListed;
    forall p | p in m.publishers && p in base.pubs
      ensures AllPrefixesFit(j.plan, p, base.pubs[p])
    {
      assert PublisherTracks(m, j, p, w.pubs[p], base.pubs[p]) && PublisherPlanned(m, j.plan, p, base.pubs[p]);
      assert Snapshotable(w.pubs[p]);
      forall k: nat
        ensures RowsFit(PrefixRows(j.plan, p, base.pubs[p], k))
      {
        CanariesAtPrefix(m, j, p, w.pubs[p], base.pubs[p], k);
        FitsBelow(PrefixRows(j.plan, p, base.pubs[p], k), w.pubs[p].rows);
      }
    }
  }

  lemma {:induction false} CanariesAtPrefix(m: Manifest, j: Journal, p: Host, pub: Publisher, was: Publisher, k: nat)
    requires SafeJournal(m, j) && p in m.publishers && p in m.nodes && m.action.Revoke? && AllPositive(j) && NoCleanup(j)
    requires PublisherPlanned(m, j.plan, p, was) && PublisherTracks(m, j, p, pub, was)
    ensures var rows := PrefixRows(j.plan, p, was, k);
            forall t | t in rows :: t in pub.rows && Size(rows[t]) <= Size(pub.rows[t])
  {
    hide GrantsListed, InOrder, Distinct, Evidence;
    var rows := PrefixRows(j.plan, p, was, k);
    forall t | t in rows
      ensures t in pub.rows && Size(rows[t]) <= Size(pub.rows[t])
    {
      assert RowTracks(m, j, p, t, pub.Row(t), was.Row(t));
      if Known(j.plan, p, t) {
        assert GrantPlanned(m, j.plan.grants[p][t], was, t);
      }
    }
  }

  /** Every grant of every publisher had a fence before it, and its namespace fitted then. */
  ghost predicate PrefixesSeen(plan: Plan, base: World) {
    forall p | p in plan.grants && p in base.pubs :: PrefixesSeenAt(plan, p, base.pubs[p], |OrderOf(plan, p)|)
  }

  ghost predicate PrefixesSeenAt(plan: Plan, p: Host, was: Publisher, n: nat) {
    forall k: nat | k < n :: RowsFit(PrefixRows(plan, p, was, k))
  }

  /** The publisher serves exactly its first `k` grants, and every prefix before was seen to fit. */
  ghost predicate AtPrefix(plan: Plan, p: Host, w: World, base: World, k: nat) {
    && p in w.pubs && p in base.pubs && w.pubs[p].rows == PrefixRows(plan, p, base.pubs[p], k)
    && PrefixesSeenAt(plan, p, base.pubs[p], k)
  }

  lemma {:induction false} AtFirst(plan: Plan, p: Host, w: World, base: World)
    requires p !in plan.canaries && p in w.pubs && p in base.pubs && w.pubs[p].rows == base.pubs[p].rows
    ensures AtPrefix(plan, p, w, base, 0)
  {
    NoPrefix(plan, p, base.pubs[p]);
  }

  lemma {:induction false} AtNext(m: Manifest, plan: Plan, p: Host, w: World, w': World, base: World, k: nat)
    requires GrantsListed(plan) && p in plan.grants && p !in plan.canaries && k < |OrderOf(plan, p)|
    requires AtPrefix(plan, p, w, base, k) && SeenFits(m, w) && p in m.publishers
    requires p in w'.pubs && Known(plan, p, OrderOf(plan, p)[k])
    requires w'.pubs[p].rows == w.pubs[p].rows[OrderOf(plan, p)[k] := plan.grants[p][OrderOf(plan, p)[k]].after]
    ensures AtPrefix(plan, p, w', base, k + 1)
  {
    hide PrefixRows, RowsFit, GrantsListed;
    NextPrefix(plan, p, base.pubs[p], k);
  }

  lemma {:induction false} SeenBefore(plan: Plan, p: Host, w: World, base: World, k: nat)
    requires AtPrefix(plan, p, w, base, k)
    ensures p in base.pubs && PrefixesSeenAt(plan, p, base.pubs[p], k)
  {
  }

  /** Delivering the next grant leads to the next prefix. */
  lemma {:induction false} NextPrefix(plan: Plan, p: Host, was: Publisher, k: nat)
    requires GrantsListed(plan) && p in plan.grants && p !in plan.canaries && k < |OrderOf(plan, p)|
    ensures Known(plan, p, OrderOf(plan, p)[k])
    ensures PrefixRows(plan, p, was, k)[OrderOf(plan, p)[k] := plan.grants[p][OrderOf(plan, p)[k]].after] == PrefixRows(plan, p, was, k + 1)
  {
    var t := OrderOf(plan, p)[k];
    NextDelivered(plan, p, k);
    hide Delivered, GrantsListed, First;
    SumUpdated(was.rows, Delivered(plan, p, k), t, plan.grants[p][t].after);
  }

  lemma {:induction false} SumUpdated<K, V>(a: map<K, V>, b: map<K, V>, key: K, value: V)
    ensures a + b[key := value] + map[] == (a + b + map[])[key := value]
  {
  }

  lemma {:induction false} NextDelivered(plan: Plan, p: Host, k: nat)
    requires GrantsListed(plan) && p in plan.grants && k < |OrderOf(plan, p)|
    ensures Known(plan, p, OrderOf(plan, p)[k])
    ensures Delivered(plan, p, k + 1) == Delivered(plan, p, k)[OrderOf(plan, p)[k] := plan.grants[p][OrderOf(plan, p)[k]].after]
  {
    var order := OrderOf(plan, p);
    assert order[k] in Elems(order);
    assert order[..k + 1] == order[..k] + [order[k]];
  }

  lemma {:induction false} NoPrefix(plan: Plan, p: Host, was: Publisher)
    requires p !in plan.canaries
    ensures PrefixRows(plan, p, was, 0) == was.rows
  {
    assert First(OrderOf(plan, p), 0) == [];
  }

  /** A final fleet whose snapshots can be taken shows the last prefix; the fences before saw the others. */
  lemma {:induction false} FinalSeen(m: Manifest, j: Journal, base: World)
    requires WellPlanned(m, j.plan, base) && !m.action.Revoke? && PrefixesSeen(j.plan, base)
    requires FenceAccepts(m, j, FinalWorld(m, j.plan, base))
    ensures PrefixesFit(m, j.plan, base)
  {
    hide PrefixRows, PublisherPlanned, RowsFit, FinalPublisher, SnapshotChecked, GrantsListed;
    forall p | p in m.publishers && p in base.pubs
      ensures AllPrefixesFit(j.plan, p, base.pubs[p])
    {
      var final := FinalPublisher(m, j.plan, p, base.pubs[p]);
      assert FinalWorld(m, j.plan, base).pubs[p] == final && Snapshotable(final);
      forall k: nat
        ensures RowsFit(PrefixRows(j.plan, p, base.pubs[p], k))
      {
        if k >= |OrderOf(j.plan, p)| {
          FinalPrefix(m, j.plan, p, base.pubs[p], k);
        } else {
          assert p in j.plan.grants by { OrderedKnown(j.plan, p); }
          assert PrefixesSeenAt(j.plan, p, base.pubs[p], |OrderOf(j.plan, p)|);
        }
      }
    }
  }

  lemma {:induction false} OrderedKnown(plan: Plan, p: Host)
    requires GrantsListed(plan) && OrderOf(plan, p) != []
    ensures p in plan.grants
  {
  }

  lemma {:induction false} FinalPrefix(m: Manifest, plan: Plan, p: Host, was: Publisher, k: nat)
    requires ValidPlan(m, plan) && p in plan.after && !m.action.Revoke? && k >= |OrderOf(plan, p)|
    ensures PrefixRows(plan, p, was, k) == FinalPublisher(m, plan, p, was).rows
  {
    DeliveredAll(plan, p, k);
    hide Delivered, GrantsListed;
    assert CanaryRow(plan, p) == map[];
  }

  lemma {:induction false} DeliveredAll(plan: Plan, p: Host, k: nat)
    requires GrantsListed(plan) && k >= |OrderOf(plan, p)|
    ensures Delivered(plan, p, k) == if p in plan.grants then map t | t in plan.grants[p] :: plan.grants[p][t].after else map[]
  {
    if p in plan.grants {
      assert First(OrderOf(plan, p), k) == plan.order[p];
      forall t | t in plan.grants[p] ensures t in plan.order[p] {
        assert t in Elems(plan.order[p]);
      }
    }
  }

  /** What a run that finished proves about the room there was. */
  lemma {:induction false} RoomProved(m: Manifest, j: Journal, base: World)
    requires WellPlanned(m, j.plan, base) && PrefixesFit(m, j.plan, base)
    requires FenceAccepts(m, j, FinalWorld(m, j.plan, base))
    ensures Room(m, j.plan, base, 0)
  {
    hide PrefixRows, Bytes, SnapshotChecked, GrantsListed;
    forall p | p in m.publishers && p in base.pubs
      ensures PublisherRoom(m, j.plan, p, base.pubs[p], 0)
    {
      assert Snapshotable(FinalWorld(m, j.plan, base).pubs[p]);
      assert AllPrefixesFit(j.plan, p, base.pubs[p]) && PublisherPlanned(m, j.plan, p, base.pubs[p]);
      forall k: nat
        ensures PrefixRoom(j.plan, p, base.pubs[p], k, 0)
      {
        assert RowsFit(PrefixRows(j.plan, p, base.pubs[p], k));
      }
    }
  }

  lemma {:induction false} CanariesWritten(m: Manifest, j: Journal, w: World, base: World)
    requires Consistent(m, j, w, base) && m.action.Revoke? && AllPositive(j) && NoCleanup(j)
    requires m.nodes == {} || FenceAccepts(m, j, w)
    ensures PrefixesFit(m, j.plan, base)
  {
    hide Tracks, SafeJournal, FenceAccepts, RowsFit, PublisherPlanned, GrantsListed;
    if m.nodes != {} {
      CanariesSeen(m, j, w, base);
    }
  }

  /** A finished run from before cleanup shows that there was room. */
  lemma {:induction false} RoomWasThere(m: Manifest, j: Journal, base: World)
    requires WellPlanned(m, j.plan, base) && FenceAccepts(m, j, FinalWorld(m, j.plan, base))
    requires m.action.Revoke? ==> PrefixesFit(m, j.plan, base)
    requires !m.action.Revoke? ==> PrefixesSeen(j.plan, base)
    ensures Room(m, j.plan, base, 0)
  {
    hide WellPlanned, FenceAccepts, PrefixesFit, PrefixesSeen, FinalWorld, Room;
    if !m.action.Revoke? {
      FinalSeen(m, j, base);
    }
    RoomProved(m, j, base);
  }

  // ---------------------------------------------------------------- a full namespace

  const NONCE := Envelope("device-revocation-check", "", "nonce")

  /**
   The limit is real: preparation accepts a revocation on a publisher of exactly 256 documents,
   the canary is published, and from then on no snapshot of that publisher can be taken.
   */
  lemma {:induction false} FullPublisherSticks() returns (m: Manifest, w: World, d: Draft)
    ensures m.action.Revoke? && m.publishers == {"node"} && Admitted(m, w, d) && Reviewed(m, w, d)
    ensures |w.pubs["node"].rows| == MAX_DOCUMENTS && !RoomBefore(m, w, d, 0)
    ensures var c := d.canaries["node"];
            var served := CompareAndSwap(w.pubs["node"], c.token, None, Some(c.document));
            served.Some? && !Snapshotable(served.value)
  {
    hide Crowd, Snapshotable, CompareAndSwap, DeviceTokens;
    FullPublisherFits();
    CrowdRows(MAX_DOCUMENTS);
    OneTooMany("canary", 0, NONCE);
    var pub := FullPublisher();
    var was := Content("node", []);
    var order := Listed(pub.rows.Keys);
    m := Manifest(Revoke, "phone", {"node"}, {"node"}, "node", false);
    w := World("rev", map["node" := was], map["node" := pub], map["node" := was], None);
    d := Draft(map["node" := was], {}, {"node"}, "", "", Envelope("", "", ""), map[],
               map["node" := CanaryIntent("canary", NONCE)], "", map["node" := order], false, {}, true);
    assert !PublisherHasRoom(m, w, d, "node", pub, 0);
    assert ReviewedFacts(m, w, d);
  }
}
