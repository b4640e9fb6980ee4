/**
 What the fleet may look like while one prepared device operation is in progress,
 and why none of the protocol's own fences can then refuse it.
 */
module LifecycleFleet {
  import opened Wrappers
  import opened Sums
  import opened SubscriptionPublisher
  import opened LifecycleJournal

  /** A published row counts as the device's own unless it is exactly the owned canary. */
  predicate OwnRow(m: Manifest, plan: Plan, host: Host, token: Token, document: Envelope) {
    && document.client == m.device
    && !(IsCanary(plan, host, token) && document == plan.canaries[host].document)
  }

  /** One row of a publisher snapshot, as the fence judges it. */
  predicate RowAccepted(m: Manifest, plan: Plan, host: Host, pub: Publisher, token: Token)
    requires token in pub.rows
  {
    var document := pub.rows[token];
    var inactive := token in pub.revoked || pub.Expired(document);
    OwnRow(m, plan, host, token, document) ==>
      if !Known(plan, host, token) then m.action.Refresh? && inactive
      else
        && (Some(document) == plan.grants[host][token].before || document == plan.grants[host][token].after)
        && (!m.action.Revoke? ==> !inactive)
  }

  /** The rows of one snapshot, once it could be taken. */
  predicate SnapshotChecked(m: Manifest, plan: Plan, host: Host, pub: Publisher) {
    && pub.bootstrap == 0
    && (forall t | t in pub.rows :: RowAccepted(m, plan, host, pub, t))
    && (host in plan.grants ==> forall t | t in plan.grants[host] ::
          t !in pub.rows || !OwnRow(m, plan, host, t, pub.rows[t]) ==> plan.grants[host][t].before.None?)
  }

  /** `_fence`: refuse anything this operation did not write itself. */
  predicate FenceChecks(m: Manifest, j: Journal, w: World)
    requires ValidPlan(m, j.plan)
  {
    && w.source == j.plan.source
    && (forall h | h in m.nodes ::
          h in w.docs && (w.docs[h] == j.plan.after[h] || (h !in j.written && w.docs[h] == j.plan.before[h])))
    && (forall p | p in m.publishers :: p in w.pubs && SnapshotChecked(m, j.plan, p, w.pubs[p]))
  }

  /** The fence as a whole: every snapshot could be taken, and nothing foreign was in it. */
  ghost predicate FenceAccepts(m: Manifest, j: Journal, w: World)
    requires ValidPlan(m, j.plan)
  {
    FenceChecks(m, j, w) && forall p | p in m.publishers && p in w.pubs :: Snapshotable(w.pubs[p])
  }

  /** What the fence asks of one row: a grant is there as recorded and served, another row of the device is an inactive one to refresh. */
  ghost predicate RowExpected(m: Manifest, plan: Plan, p: Host, pub: Publisher, t: Token) {
    var canary := t in pub.rows && p in plan.canaries && plan.canaries[p] == CanaryIntent(t, pub.rows[t]);
    var theirs := t in pub.rows && pub.rows[t].client == m.device && !canary;
    var inactive := t in pub.rows && (t in pub.revoked || (pub.rows[t].expires != "" && pub.rows[t].expires in pub.due));
    if p in plan.grants && t in plan.grants[p] then
      if theirs then
        && (plan.grants[p][t].before == Some(pub.rows[t]) || plan.grants[p][t].after == pub.rows[t])
        && (inactive ==> m.action.Revoke?)
      else plan.grants[p][t].before.None?
    else theirs ==> inactive && m.action.Refresh?
  }

  /** Exactly which fleets the fence accepts, document by document and row by row. */
  lemma {:induction false} FenceMeans(m: Manifest, j: Journal, w: World)
    requires ValidPlan(m, j.plan)
    ensures FenceAccepts(m, j, w) <==>
            && w.source == j.plan.source
            && (forall h | h in m.nodes :: h in w.docs &&
                  (if h in j.written then w.docs[h] == j.plan.after[h] else w.docs[h] in {j.plan.before[h], j.plan.after[h]}))
            && forall p | p in m.publishers ::
                 && p in w.pubs && w.pubs[p].bootstrap == 0
                 && |w.pubs[p].rows| <= 256 && Bytes(w.pubs[p].rows) <= 2097152 && 128 + 65 * |w.pubs[p].revoked| <= 2097152
                 && forall t :: RowExpected(m, j.plan, p, w.pubs[p], t)
  {
    hide Bytes, ValidPlan;
    forall p | p in m.publishers && p in w.pubs
      ensures SnapshotChecked(m, j.plan, p, w.pubs[p]) <==>
              w.pubs[p].bootstrap == 0 && forall t :: RowExpected(m, j.plan, p, w.pubs[p], t)
    {
      SnapshotMeans(m, j.plan, p, w.pubs[p]);
    }
    hide SnapshotChecked, RowExpected;
  }

  lemma {:induction false} SnapshotMeans(m: Manifest, plan: Plan, p: Host, pub: Publisher)
    ensures SnapshotChecked(m, plan, p, pub) <==> pub.bootstrap == 0 && forall t :: RowExpected(m, plan, p, pub, t)
  {
    forall t
      ensures RowExpected(m, plan, p, pub, t) <==>
              && (t in pub.rows ==> RowAccepted(m, plan, p, pub, t))
              && (p in plan.grants && t in plan.grants[p] && (t !in pub.rows || !OwnRow(m, plan, p, t, pub.rows[t])) ==>
                    plan.grants[p][t].before.None?)
    {
    }
    hide RowExpected, RowAccepted, OwnRow;
  }

  /** What holds between the admitted fleet `base` and the plan once `prepare` has saved it. */
  ghost predicate WellPlanned(m: Manifest, plan: Plan, base: World) {
    && ValidPlan(m, plan)
    && m.publishers <= m.nodes && m.journalHost in m.nodes
    && base.source == plan.source
    && base.docs == plan.before && base.running.Keys == m.nodes && base.pubs.Keys == m.publishers
    && (plan.artifact.Some? ==> base.output.None?)
    && (forall p | p in m.publishers :: PublisherPlanned(m, plan, p, base.pubs[p]))
  }

  ghost predicate PublisherPlanned(m: Manifest, plan: Plan, p: Host, was: Publisher)
    requires ValidPlan(m, plan) && p in m.nodes
  {
    && was.bootstrap == 0 && DenyListFits(was.revoked)
    && GrantsCover(m, plan, p, was)
    && (p in plan.grants ==> forall t | t in plan.grants[p] ::
          GrantPlanned(m, plan.grants[p][t], was, t) && !IsCanary(plan, p, t)
          && (m.action.Revoke? ==> t in plan.after[p].revoked))
    && (p in plan.canaries ==> CanaryPlanned(plan.canaries[p], was, plan.after[p]))
  }

  /** The publisher holds the document the grant replaces, or already the one it delivers. */
  ghost predicate GrantPlanned(m: Manifest, g: Grant, pub: Publisher, token: Token) {
    && (pub.Row(token) == g.before || pub.Row(token) == Some(g.after))
    && g.after.client == m.device
    && (g.before.Some? ==> g.before.value.client == m.device && g.before.value.expires == g.after.expires)
    && (m.action.Revoke? ==> g.before == Some(g.after))
    && (!m.action.Revoke? ==> token !in pub.revoked && !pub.Expired(g.after))
  }

  /** Every row of the device is either in the plan or an inactive row that refresh leaves alone. */
  ghost predicate GrantsCover(m: Manifest, plan: Plan, p: Host, pub: Publisher) {
    forall t | t in pub.rows && pub.rows[t].client == m.device ::
      Known(plan, p, t) || (m.action.Refresh? && (t in pub.revoked || pub.Expired(pub.rows[t])))
  }

  ghost predicate CanaryPlanned(c: CanaryIntent, pub: Publisher, after: Content) {
    c.token !in pub.rows && c.token !in pub.revoked && c.document.expires == "" && c.token in after.revoked
  }

  /**
   The deny list a publisher will adopt agrees with the one it runs, as far as this
   device's rows go: no grant to deliver is named, no inactive grant is forgotten.
   */
  ghost predicate PublisherDeliverable(m: Manifest, plan: Plan, p: Host, was: Publisher)
    requires ValidPlan(m, plan) && p in m.nodes
  {
    !m.action.Revoke? && p in Affected(m, plan) ==>
      && (p in plan.grants ==> forall t | t in plan.grants[p] :: t !in plan.after[p].revoked)
      && (forall t | t in was.rows && was.rows[t].client == m.device && !Known(plan, p, t) ::
            t in plan.after[p].revoked || was.Expired(was.rows[t]))
  }

  ghost predicate Deliverable(m: Manifest, plan: Plan, base: World)
    requires WellPlanned(m, plan, base)
  {
    forall p | p in m.publishers :: PublisherDeliverable(m, plan, p, base.pubs[p])
  }

  // ---------------------------------------------------------------- room

  function OrderOf(plan: Plan, p: Host): seq<Token> {
    if p in plan.order then plan.order[p] else []
  }

  /** The first `k` items, or all of them when there are fewer. */
  function First<T>(items: seq<T>, k: nat): seq<T> {
    if k <= |items| then items[..k] else items
  }

  /** What the first `k` grants of a publisher deliver. */
  function Delivered(plan: Plan, p: Host, k: nat): map<Token, Envelope> {
    if p in plan.grants then
      map t | t in plan.grants[p] && t in First(OrderOf(plan, p), k) :: plan.grants[p][t].after
    else map[]
  }

  function CanaryRow(plan: Plan, p: Host): map<Token, Envelope> {
    if p in plan.canaries then map[plan.canaries[p].token := plan.canaries[p].document] else map[]
  }

  /** A namespace with its first `k` grants delivered, and its canary served. */
  function PrefixRows(plan: Plan, p: Host, was: Publisher, k: nat): map<Token, Envelope> {
    was.rows + Delivered(plan, p, k) + CanaryRow(plan, p)
  }

  /** Those rows and so many leftover route probes more still fit a snapshot. */
  ghost predicate RowsRoom(rows: map<Token, Envelope>, probes: nat) {
    |rows| + probes <= MAX_DOCUMENTS && Bytes(rows) + probes * PROBE_SIZE <= MAX_BYTES
  }

  ghost predicate PrefixRoom(plan: Plan, p: Host, was: Publisher, k: nat, probes: nat) {
    RowsRoom(PrefixRows(plan, p, was, k), probes)
  }

  /** However many of its grants are delivered, every snapshot the operation needs can be taken. */
  ghost predicate PublisherRoom(m: Manifest, plan: Plan, p: Host, was: Publisher, probes: nat) {
    && ValidPlan(m, plan) && p in m.nodes
    && (forall k: nat :: PrefixRoom(plan, p, was, k, probes))
    && DenyListFits(was.revoked)
    && (p in Affected(m, plan) ==> DenyListFits(Elems(plan.after[p].revoked)))
  }

  ghost predicate Room(m: Manifest, plan: Plan, base: World, probes: nat) {
    forall p | p in m.publishers && p in base.pubs :: PublisherRoom(m, plan, p, base.pubs[p], probes)
  }

  // ---------------------------------------------------------------- tracking

  ghost predicate RowTracks(m: Manifest, j: Journal, p: Host, t: Token, row: Option<Envelope>, was: Option<Envelope>)
    requires ValidPlan(m, j.plan) && j.canaries.Keys == j.plan.canaries.Keys
  {
    if Known(j.plan, p, t) then
      var g := j.plan.grants[p][t];
      && (row == was || row == Some(g.after))
      && ((p, t) in j.published ==> row == Some(g.after))
      && (Elems(j.adopted) != Affected(m, j.plan) ==> row == was)
    else if IsCanary(j.plan, p, t) then
      && (row.None? || row == Some(j.plan.canaries[p].document))
      && (j.canaries[p].positive && !j.canaries[p].cleanupStarted ==> row.Some?)
      && (j.canaries[p].cleaned ==> row.None?)
    else row == was
  }

  predicate Serves(plan: Plan, p: Host, pub: Publisher, t: Token) {
    Known(plan, p, t) && pub.Row(t) == Some(plan.grants[p][t].after)
  }

  /** Grants are delivered in order: before one that has moved, all are served. */
  ghost predicate InOrder(plan: Plan, p: Host, pub: Publisher, was: Publisher) {
    var order := OrderOf(plan, p);
    forall i, k | 0 <= i < k < |order| :: pub.Row(order[k]) == was.Row(order[k]) || Serves(plan, p, pub, order[i])
  }

  ghost predicate PublisherTracks(m: Manifest, j: Journal, p: Host, pub: Publisher, was: Publisher)
    requires ValidPlan(m, j.plan) && j.canaries.Keys == j.plan.canaries.Keys && p in j.plan.after
  {
    && pub.due == was.due && pub.bootstrap == was.bootstrap
    && (pub.revoked == was.revoked || pub.revoked == Elems(j.plan.after[p].revoked))
    && (p in j.adopted ==> pub.revoked == Elems(j.plan.after[p].revoked))
    && (p !in Affected(m, j.plan) || Elems(j.written) != m.nodes ==> pub.revoked == was.revoked)
    && (forall t :: RowTracks(m, j, p, t, pub.Row(t), was.Row(t)))
    && InOrder(j.plan, p, pub, was)
  }

  /** Documents, runtimes and the recipient file are as far as the journal says. */
  ghost predicate NodesTrack(m: Manifest, j: Journal, w: World, base: World)
    requires ValidPlan(m, j.plan) && base.running.Keys == m.nodes
  {
    && w.source == j.plan.source
    && w.docs.Keys == m.nodes && w.running.Keys == m.nodes
    && (forall h | h in m.nodes :: w.docs[h] == j.plan.after[h] || (h !in j.written && w.docs[h] == j.plan.before[h]))
    && (forall h | h in m.nodes ::
          && (w.running[h] == j.plan.after[h] || (h !in j.adopted && w.running[h] == base.running[h]))
          && (h !in Affected(m, j.plan) ==> w.running[h] == base.running[h]))
    && (w.output == base.output || (j.plan.artifact.Some? && w.output == j.plan.artifact))
  }

  ghost predicate PublishersTrack(m: Manifest, j: Journal, pubs: map<Host, Publisher>, were: map<Host, Publisher>)
    requires ValidPlan(m, j.plan) && j.canaries.Keys == j.plan.canaries.Keys
    requires m.publishers <= m.nodes && were.Keys == m.publishers
  {
    && pubs.Keys == m.publishers
    && forall p | p in m.publishers :: PublisherTracks(m, j, p, pubs[p], were[p])
  }

  /** The fleet is exactly as far as the journal says, give or take the effect in flight. */
  ghost predicate Tracks(m: Manifest, j: Journal, w: World, base: World)
    requires ValidPlan(m, j.plan) && j.canaries.Keys == j.plan.canaries.Keys
    requires m.publishers <= m.nodes && base.running.Keys == m.nodes && base.pubs.Keys == m.publishers
  {
    NodesTrack(m, j, w, base) && PublishersTrack(m, j, w.pubs, base.pubs)
  }

  /** The fleet an uninterrupted run leaves: a function of the admitted fleet and the plan alone. */
  ghost function FinalPublisher(m: Manifest, plan: Plan, p: Host, was: Publisher): Publisher
    requires ValidPlan(m, plan) && p in plan.after
  {
    var grants := if p in plan.grants then plan.grants[p] else map[];
    was.(rows := was.rows + (map t | t in grants :: grants[t].after),
         revoked := if p in Affected(m, plan) then Elems(plan.after[p].revoked) else was.revoked)
  }

  ghost function FinalWorld(m: Manifest, plan: Plan, base: World): World
    requires WellPlanned(m, plan, base)
  {
    World(plan.source, plan.after,
          map p | p in m.publishers :: FinalPublisher(m, plan, p, base.pubs[p]),
          map h | h in m.nodes :: if h in Affected(m, plan) then plan.after[h] else base.running[h],
          if plan.artifact.Some? then plan.artifact else base.output)
  }

  /** Whether the runtime of a node has to adopt its new document. */
  predicate Adopts(m: Manifest, plan: Plan, h: Host)
    requires h in plan.before && h in plan.after
  {
    m.action.Revoke? || plan.before[h] != plan.after[h] || h in plan.profiles
  }

  /** The final fleet, node by node and row by row. */
  lemma {:induction false} FinalMeans(m: Manifest, plan: Plan, base: World, h: Host, t: Token)
    requires WellPlanned(m, plan, base) && h in m.nodes
    ensures var final := FinalWorld(m, plan, base);
            && final.docs == plan.after && final.source == base.source
            && final.output == (if plan.artifact.Some? then plan.artifact else base.output)
            && final.running.Keys == m.nodes && final.pubs.Keys == base.pubs.Keys
            && final.running[h] == (if Adopts(m, plan, h) then plan.after[h] else base.running[h])
            && (h in m.publishers ==> PublisherMeans(m, plan, h, final.pubs[h], base.pubs[h], t))
  {
    hide PublisherPlanned, GrantsListed, FinalPublisher, PublisherMeans;
    if h in m.publishers {
      FinalPublisherMeans(m, plan, h, base.pubs[h], t);
    }
  }

  /** What becomes of one row, and of the deny list. */
  ghost predicate PublisherMeans(m: Manifest, plan: Plan, p: Host, pub: Publisher, was: Publisher, t: Token)
    requires p in plan.before && p in plan.after
  {
    && pub.Row(t) == (if Known(plan, p, t) then Some(plan.grants[p][t].after) else was.Row(t))
    && (t in pub.revoked <==> if Adopts(m, plan, p) then t in plan.after[p].revoked else t in was.revoked)
    && pub.due == was.due && pub.bootstrap == was.bootstrap
  }

  lemma {:induction false} FinalPublisherMeans(m: Manifest, plan: Plan, p: Host, was: Publisher, t: Token)
    requires ValidPlan(m, plan) && p in m.nodes
    ensures PublisherMeans(m, plan, p, FinalPublisher(m, plan, p, was), was, t)
  {
    hide GrantsListed;
  }

  lemma {:induction false} RowNeverRefused(m: Manifest, j: Journal, p: Host, pub: Publisher, was: Publisher, t: Token)
    requires SafeJournal(m, j) && p in m.nodes && t in pub.rows
    requires PublisherPlanned(m, j.plan, p, was) && PublisherDeliverable(m, j.plan, p, was)
    requires PublisherTracks(m, j, p, pub, was)
    ensures RowAccepted(m, j.plan, p, pub, t)
  {
    assert RowTracks(m, j, p, t, pub.Row(t), was.Row(t));
    if Known(j.plan, p, t) {
      assert GrantPlanned(m, j.plan.grants[p][t], was, t);
    }
  }

  /** How many grants were delivered: all of the first `k`, none behind them. */
  lemma {:induction false} Progress(m: Manifest, j: Journal, p: Host, pub: Publisher, was: Publisher) returns (k: nat)
    requires ValidPlan(m, j.plan) && j.canaries.Keys == j.plan.canaries.Keys && p in m.nodes && PublisherTracks(m, j, p, pub, was)
    ensures k <= |OrderOf(j.plan, p)|
    ensures forall i | 0 <= i < k :: Serves(j.plan, p, pub, OrderOf(j.plan, p)[i])
    ensures forall i | k <= i < |OrderOf(j.plan, p)| :: pub.Row(OrderOf(j.plan, p)[i]) == was.Row(OrderOf(j.plan, p)[i])
  {
    var order := OrderOf(j.plan, p);
    k := |order|;
    while k > 0 && pub.Row(order[k - 1]) == was.Row(order[k - 1])
      invariant k <= |order|
      invariant forall i | k <= i < |order| :: pub.Row(order[i]) == was.Row(order[i])
    {
      k := k - 1;
    }
    if k > 0 {
      var t := order[k - 1];
      assert t in Elems(order);
      assert RowTracks(m, j, p, t, pub.Row(t), was.Row(t));
    }
  }

  /** Whatever the operation has done so far, a namespace holds no more than one of its prefixes. */
  lemma {:induction false} BelowPrefix(m: Manifest, j: Journal, p: Host, pub: Publisher, was: Publisher) returns (k: nat)
    requires SafeJournal(m, j) && p in m.nodes && PublisherPlanned(m, j.plan, p, was) && PublisherTracks(m, j, p, pub, was)
    ensures forall t | t in pub.rows :: t in PrefixRows(j.plan, p, was, k) && pub.rows[t] == PrefixRows(j.plan, p, was, k)[t]
  {
    k := Progress(m, j, p, pub, was);
    forall t | t in pub.rows
      ensures t in PrefixRows(j.plan, p, was, k) && pub.rows[t] == PrefixRows(j.plan, p, was, k)[t]
    {
      assert pub.Row(t) == Some(pub.rows[t]);
      RowOfPrefix(m, j, p, pub, was, k, t);
    }
  }

  lemma {:induction false} RowOfPrefix(m: Manifest, j: Journal, p: Host, pub: Publisher, was: Publisher, k: nat, t: Token)
    requires SafeJournal(m, j) && p in m.nodes && PublisherPlanned(m, j.plan, p, was)
    requires PublisherTracks(m, j, p, pub, was) && t in pub.rows
    requires k <= |OrderOf(j.plan, p)|
    requires forall i | 0 <= i < k :: Serves(j.plan, p, pub, OrderOf(j.plan, p)[i])
    requires forall i | k <= i < |OrderOf(j.plan, p)| :: pub.Row(OrderOf(j.plan, p)[i]) == was.Row(OrderOf(j.plan, p)[i])
    ensures t in PrefixRows(j.plan, p, was, k) && pub.rows[t] == PrefixRows(j.plan, p, was, k)[t]
  {
    var order := OrderOf(j.plan, p);
    assert RowTracks(m, j, p, t, pub.Row(t), was.Row(t));
    if Known(j.plan, p, t) {
      assert t in Elems(order);
      var i :| 0 <= i < |order| && order[i] == t;
      assert t in order[..k] <==> i < k;
    }
  }

  lemma {:induction false} SnapshotTaken(m: Manifest, j: Journal, p: Host, pub: Publisher, was: Publisher)
    requires SafeJournal(m, j) && p in m.nodes && PublisherPlanned(m, j.plan, p, was) && PublisherTracks(m, j, p, pub, was)
    requires PublisherRoom(m, j.plan, p, was, 0)
    ensures Snapshotable(pub)
  {
    hide PrefixRows, RowTracks, InOrder, Bytes;
    var k := BelowPrefix(m, j, p, pub, was);
    DenyListOf(m, j, p, pub, was);
    hide PublisherTracks;
    FitsBelow(pub.rows, PrefixRows(j.plan, p, was, k));
    assert PrefixRoom(j.plan, p, was, k, 0);
  }

  lemma {:induction false} DenyListOf(m: Manifest, j: Journal, p: Host, pub: Publisher, was: Publisher)
    requires SafeJournal(m, j) && p in m.nodes && PublisherTracks(m, j, p, pub, was)
    requires PublisherRoom(m, j.plan, p, was, 0)
    ensures DenyListFits(pub.revoked)
  {
    hide PrefixRoom, RowTracks, InOrder;
  }

  lemma {:induction false} SnapshotNeverRefused(m: Manifest, j: Journal, p: Host, pub: Publisher, was: Publisher)
    requires SafeJournal(m, j) && p in m.nodes
    requires PublisherPlanned(m, j.plan, p, was) && PublisherDeliverable(m, j.plan, p, was)
    requires PublisherTracks(m, j, p, pub, was) && PublisherRoom(m, j.plan, p, was, 0)
    ensures Snapshotable(pub) && SnapshotChecked(m, j.plan, p, pub)
  {
    hide Snapshotable, PublisherRoom;
    SnapshotTaken(m, j, p, pub, was);
    forall t | t in pub.rows
      ensures RowAccepted(m, j.plan, p, pub, t)
    {
      RowNeverRefused(m, j, p, pub, was, t);
    }
    if p in j.plan.grants {
      forall t | t in j.plan.grants[p]
        ensures t !in pub.rows || !OwnRow(m, j.plan, p, t, pub.rows[t]) ==> j.plan.grants[p][t].before.None?
      {
        assert RowTracks(m, j, p, t, pub.Row(t), was.Row(t));
        assert GrantPlanned(m, j.plan.grants[p][t], was, t);
      }
    }
  }

  /** No intermediate state of a deliverable operation makes the fence refuse. */
  lemma {:induction false} FenceNeverRefuses(m: Manifest, j: Journal, w: World, base: World)
    requires SafeJournal(m, j) && WellPlanned(m, j.plan, base) && Deliverable(m, j.plan, base)
    requires Tracks(m, j, w, base) && Room(m, j.plan, base, 0)
    ensures FenceAccepts(m, j, w)
  {
    hide PublisherRoom, Snapshotable, SnapshotChecked;
    forall p | p in m.publishers
      ensures Snapshotable(w.pubs[p]) && SnapshotChecked(m, j.plan, p, w.pubs[p])
    {
      SnapshotNeverRefused(m, j, p, w.pubs[p], base.pubs[p]);
    }
  }

  /** Once every piece of evidence is in, only one fleet is left. */
  lemma {:induction false} CompleteIsFinal(m: Manifest, j: Journal, w: World, base: World)
    requires SafeJournal(m, j) && WellPlanned(m, j.plan, base) && Tracks(m, j, w, base)
    requires Elems(j.written) == m.nodes && Elems(j.adopted) == Affected(m, j.plan)
    requires Elems(j.published) == GrantIds(j.plan) && AllCleaned(j)
    requires j.plan.artifact.Some? ==> w.output == j.plan.artifact
    ensures w == FinalWorld(m, j.plan, base)
  {
    NodesAreFinal(m, j, w, base);
    PublishersAreFinal(m, j, w, base);
  }

  lemma {:induction false} PublishersAreFinal(m: Manifest, j: Journal, w: World, base: World)
    requires SafeJournal(m, j) && WellPlanned(m, j.plan, base) && Tracks(m, j, w, base)
    requires Elems(j.written) == m.nodes && Elems(j.adopted) == Affected(m, j.plan)
    requires Elems(j.published) == GrantIds(j.plan) && AllCleaned(j)
    ensures w.pubs == FinalWorld(m, j.plan, base).pubs
  {
    forall p | p in m.publishers
      ensures w.pubs[p] == FinalPublisher(m, j.plan, p, base.pubs[p])
    {
      PublisherIsFinal(m, j, p, w.pubs[p], base.pubs[p]);
    }
  }

  lemma {:induction false} NodesAreFinal(m: Manifest, j: Journal, w: World, base: World)
    requires WellPlanned(m, j.plan, base) && NodesTrack(m, j, w, base)
    requires Elems(j.written) == m.nodes && Elems(j.adopted) == Affected(m, j.plan)
    ensures w.docs == j.plan.after
    ensures w.running == FinalWorld(m, j.plan, base).running
  {
    forall h | h in m.nodes
      ensures w.docs[h] == j.plan.after[h]
      ensures w.running[h] == if h in Affected(m, j.plan) then j.plan.after[h] else base.running[h]
    {
      assert h in Elems(j.written);
      assert h in Affected(m, j.plan) <==> h in Elems(j.adopted);
    }
  }

  lemma {:induction false} PublisherIsFinal(m: Manifest, j: Journal, p: Host, pub: Publisher, was: Publisher)
    requires SafeJournal(m, j) && p in m.nodes && PublisherPlanned(m, j.plan, p, was)
    requires PublisherTracks(m, j, p, pub, was)
    requires Elems(j.written) == m.nodes && Elems(j.adopted) == Affected(m, j.plan)
    requires Elems(j.published) == GrantIds(j.plan) && AllCleaned(j)
    ensures pub == FinalPublisher(m, j.plan, p, was)
  {
    var final := FinalPublisher(m, j.plan, p, was);
    forall t
      ensures pub.Row(t) == final.Row(t)
    {
      assert RowTracks(m, j, p, t, pub.Row(t), was.Row(t));
      if Known(j.plan, p, t) {
        assert (p, t) in GrantIds(j.plan);
      }
    }
    SameRows(pub, final);
  }

  lemma {:induction false} SameRows(a: Publisher, b: Publisher)
    requires forall t :: a.Row(t) == b.Row(t)
    ensures a.rows == b.rows
  {
    forall t
      ensures (t in a.rows <==> t in b.rows) && (t in a.rows ==> a.rows[t] == b.rows[t])
    {
      assert a.Row(t) == b.Row(t);
    }
  }

  lemma {:induction false} FinalPublisherNeedsDeliverable(m: Manifest, plan: Plan, p: Host, was: Publisher)
    requires ValidPlan(m, plan) && p in m.nodes && PublisherPlanned(m, plan, p, was)
    requires SnapshotChecked(m, plan, p, FinalPublisher(m, plan, p, was))
    ensures PublisherDeliverable(m, plan, p, was)
  {
    hide Snapshotable, GrantsListed, DenyListFits, CanaryPlanned;
    var pub := FinalPublisher(m, plan, p, was);
    if p in plan.grants {
      forall t | t in plan.grants[p]
        ensures t in pub.rows && pub.rows[t] == plan.grants[p][t].after && RowAccepted(m, plan, p, pub, t)
      {
        assert GrantPlanned(m, plan.grants[p][t], was, t);
      }
    }
    forall t | t in was.rows && was.rows[t].client == m.device && !Known(plan, p, t)
      ensures t in pub.rows && pub.rows[t] == was.rows[t] && RowAccepted(m, plan, p, pub, t)
    {
      assert !IsCanary(plan, p, t);
    }
  }

  /** A fleet in which the operation finished can only come from a deliverable plan. */
  lemma {:induction false} FinalNeedsDeliverable(m: Manifest, j: Journal, base: World)
    requires WellPlanned(m, j.plan, base)
    requires FenceAccepts(m, j, FinalWorld(m, j.plan, base))
    ensures Deliverable(m, j.plan, base)
  {
    forall p | p in m.publishers
      ensures PublisherDeliverable(m, j.plan, p, base.pubs[p])
    {
      FinalPublisherNeedsDeliverable(m, j.plan, p, base.pubs[p]);
    }
  }
}
