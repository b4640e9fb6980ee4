/** Each effect of a device operation keeps the fleet in step with the journal, saved or not. */
module LifecycleSteps {
  import opened Wrappers
  import opened SubscriptionPublisher
  import opened LifecycleJournal
  import opened LifecycleFleet

  function Positive(j: Journal, h: Host): Journal
    requires h in j.canaries
  {
    j.(canaries := j.canaries[h := j.canaries[h].(positive := true)])
  }

  function CleanupStarted(j: Journal, h: Host): Journal
    requires h in j.canaries
  {
    j.(canaries := j.canaries[h := j.canaries[h].(cleanupStarted := true)])
  }

  function Cleaned(j: Journal, h: Host): Journal
    requires h in j.canaries
  {
    j.(canaries := j.canaries[h := j.canaries[h].(cleaned := true)])
  }

  ghost predicate Consistent(m: Manifest, j: Journal, w: World, base: World) {
    SafeJournal(m, j) && WellPlanned(m, j.plan, base) && Tracks(m, j, w, base)
  }

  /** The journal's own document is still one this operation knows. */
  lemma {:induction false} SaveAdmitted(m: Manifest, j: Journal, w: World, base: World)
    requires Consistent(m, j, w, base)
    ensures m.publishers <= m.nodes && m.journalHost in m.nodes && w.source == j.plan.source && m.journalHost in w.docs
    ensures m.journalHost in j.plan.before && m.journalHost in j.plan.after
    ensures w.docs[m.journalHost] == j.plan.before[m.journalHost] || w.docs[m.journalHost] == j.plan.after[m.journalHost]
  {
  }

  /** Which documents and publishers there are. */
  lemma {:induction false} SeenAll(m: Manifest, j: Journal, w: World, base: World)
    requires Consistent(m, j, w, base)
    ensures w.docs.Keys == m.nodes && w.pubs.Keys == m.publishers && base.pubs.Keys == m.publishers
  {
  }

  /** Replacing one row of one publisher. */
  function WithPublisher(w: World, p: Host, pub: Publisher): World {
    w.(pubs := w.pubs[p := pub])
  }

  lemma {:induction false} ServeAccepted(m: Manifest, j: Journal, h: Host, pub: Publisher, was: Publisher)
    requires SafeJournal(m, j) && h in m.nodes && h in j.canaries && !j.canaries[h].positive
    requires PublisherPlanned(m, j.plan, h, was) && PublisherTracks(m, j, h, pub, was)
    ensures CompareAndSwap(pub, j.plan.canaries[h].token, None, Some(j.plan.canaries[h].document)).Some? <==>
              DenyListFits(pub.revoked)
    ensures j.plan.canaries[h].token !in pub.revoked
  {
    assert j.written == [];
    assert h !in Elems(j.written);
    var t := j.plan.canaries[h].token;
    assert RowTracks(m, j, h, t, pub.Row(t), was.Row(t));
  }

  lemma {:induction false} ServeTracks(m: Manifest, j: Journal, h: Host, pub: Publisher, pub': Publisher, was: Publisher)
    requires SafeJournal(m, j) && h in m.nodes && h in j.canaries && !j.canaries[h].positive
    requires PublisherPlanned(m, j.plan, h, was) && PublisherTracks(m, j, h, pub, was)
    requires CompareAndSwap(pub, j.plan.canaries[h].token, None, Some(j.plan.canaries[h].document)) == Some(pub')
    ensures PublisherTracks(m, j, h, pub', was) && PublisherTracks(m, Positive(j, h), h, pub', was)
  {
    var t := j.plan.canaries[h].token;
    forall u
      ensures RowTracks(m, j, h, u, pub'.Row(u), was.Row(u))
      ensures RowTracks(m, Positive(j, h), h, u, pub'.Row(u), was.Row(u))
    {
      assert RowTracks(m, j, h, u, pub.Row(u), was.Row(u));
    }
  }

  /** Changing one publisher leaves the others in step. */
  lemma {:induction false} OtherPublishers(m: Manifest, j: Journal, j': Journal, pubs: map<Host, Publisher>, were: map<Host, Publisher>,
                        h: Host, pub': Publisher)
    requires ValidPlan(m, j.plan) && j.canaries.Keys == j.plan.canaries.Keys
    requires m.publishers <= m.nodes && were.Keys == m.publishers && h in m.publishers
    requires PublishersTrack(m, j, pubs, were)
    requires SameElsewhere(j, j', h)
    requires PublisherTracks(m, j', h, pub', were[h])
    ensures PublishersTrack(m, j', pubs[h := pub'], were)
  {
    forall p | p in m.publishers && p != h
      ensures PublisherTracks(m, j', p, pubs[p], were[p])
    {
      OtherPublisher(m, j, j', p, pubs[p], were[p], h);
    }
  }

  /** Two journals differ at most in what they say about publisher `h`. */
  ghost predicate SameElsewhere(j: Journal, j': Journal, h: Host) {
    && j'.plan == j.plan && j'.canaries.Keys == j.canaries.Keys
    && j'.written == j.written && j'.adopted == j.adopted
    && (forall g: (Host, Token) | g in j'.published && g.0 != h :: g in j.published)
    && (forall c | c in j.canaries && c != h :: j'.canaries[c] == j.canaries[c])
  }

  lemma {:induction false} OtherPublisher(m: Manifest, j: Journal, j': Journal, p: Host, pub: Publisher, was: Publisher, h: Host)
    requires ValidPlan(m, j.plan) && j.canaries.Keys == j.plan.canaries.Keys && p in m.nodes && p != h
    requires SameElsewhere(j, j', h) && PublisherTracks(m, j, p, pub, was)
    ensures PublisherTracks(m, j', p, pub, was)
  {
    forall t
      ensures RowTracks(m, j', p, t, pub.Row(t), was.Row(t))
    {
      assert RowTracks(m, j, p, t, pub.Row(t), was.Row(t));
    }
  }

  lemma {:induction false} NodesUntouched(m: Manifest, j: Journal, j': Journal, w: World, base: World, h: Host, pub': Publisher)
    requires ValidPlan(m, j.plan) && base.running.Keys == m.nodes
    requires NodesTrack(m, j, w, base) && SameElsewhere(j, j', h)
    ensures NodesTrack(m, j', WithPublisher(w, h, pub'), base)
  {
  }

  lemma {:induction false} PublisherStep(m: Manifest, j: Journal, j': Journal, w: World, base: World, h: Host, pub': Publisher)
    requires ValidPlan(m, j.plan) && j.canaries.Keys == j.plan.canaries.Keys
    requires WellPlanned(m, j.plan, base) && h in m.publishers
    requires Tracks(m, j, w, base) && SameElsewhere(j, j', h)
    requires PublisherTracks(m, j', h, pub', base.pubs[h])
    ensures Tracks(m, j', WithPublisher(w, h, pub'), base)
  {
    hide RowTracks, PublisherTracks, NodesTrack, PublisherPlanned;
    NodesUntouched(m, j, j', w, base, h, pub');
    OtherPublishers(m, j, j', w.pubs, base.pubs, h, pub');
  }

  lemma {:induction false} WriteTracks(m: Manifest, j: Journal, w: World, base: World, h: Host)
    requires Consistent(m, j, w, base) && h in m.nodes
    ensures h in w.docs && (w.docs[h] == j.plan.before[h] || w.docs[h] == j.plan.after[h])
    ensures Tracks(m, j, w.(docs := w.docs[h := j.plan.after[h]]), base)
    ensures Tracks(m, j.(written := j.written + [h]), w.(docs := w.docs[h := j.plan.after[h]]), base)
  {
    WriteKeepsPublishers(m, j, w.pubs, base.pubs, h);
  }

  lemma {:induction false} WriteKeepsPublishers(m: Manifest, j: Journal, pubs: map<Host, Publisher>, were: map<Host, Publisher>, h: Host)
    requires ValidPlan(m, j.plan) && j.canaries.Keys == j.plan.canaries.Keys
    requires m.publishers <= m.nodes && were.Keys == m.publishers && h in m.nodes && Elems(j.written) <= m.nodes
    requires PublishersTrack(m, j, pubs, were)
    ensures PublishersTrack(m, j.(written := j.written + [h]), pubs, were)
  {
    forall p | p in m.publishers
      ensures PublisherTracks(m, j.(written := j.written + [h]), p, pubs[p], were[p])
    {
      WriteKeepsPublisher(m, j, p, pubs[p], were[p], h);
    }
  }

  lemma {:induction false} WriteKeepsPublisher(m: Manifest, j: Journal, p: Host, pub: Publisher, was: Publisher, h: Host)
    requires ValidPlan(m, j.plan) && j.canaries.Keys == j.plan.canaries.Keys && Elems(j.written) <= m.nodes
    requires p in m.nodes && h in m.nodes && PublisherTracks(m, j, p, pub, was)
    ensures PublisherTracks(m, j.(written := j.written + [h]), p, pub, was)
  {
    var j' := j.(written := j.written + [h]);
    assert Elems(j'.written) == Elems(j.written) + {h};
    forall t
      ensures RowTracks(m, j', p, t, pub.Row(t), was.Row(t))
    {
      assert RowTracks(m, j, p, t, pub.Row(t), was.Row(t));
    }
  }

  /** The two halves of adopting a runtime: its publisher's deny list, then its running configuration. */
  function WithDenyList(w: World, p: Host, after: Content): World
  {
    if p in w.pubs then WithPublisher(w, p, w.pubs[p].(revoked := Elems(after.revoked))) else w
  }

  lemma {:induction false} DenyListTracks(m: Manifest, j: Journal, w: World, base: World, h: Host)
    requires Consistent(m, j, w, base) && h in Affected(m, j.plan) && Elems(j.written) == m.nodes
    ensures Tracks(m, j, WithDenyList(w, h, j.plan.after[h]), base)
  {
    if h in m.publishers {
      var pub := w.pubs[h].(revoked := Elems(j.plan.after[h].revoked));
      DenyListPublisher(m, j, h, w.pubs[h], base.pubs[h]);
      PublisherStep(m, j, j, w, base, h, pub);
    }
  }

  lemma {:induction false} DenyListPublisher(m: Manifest, j: Journal, p: Host, pub: Publisher, was: Publisher)
    requires ValidPlan(m, j.plan) && j.canaries.Keys == j.plan.canaries.Keys
    requires p in Affected(m, j.plan) && Elems(j.written) == m.nodes && PublisherTracks(m, j, p, pub, was)
    ensures PublisherTracks(m, j, p, pub.(revoked := Elems(j.plan.after[p].revoked)), was)
  {
    var pub' := pub.(revoked := Elems(j.plan.after[p].revoked));
    forall t
      ensures RowTracks(m, j, p, t, pub'.Row(t), was.Row(t))
    {
      assert pub'.Row(t) == pub.Row(t);
    }
  }

  lemma {:induction false} RunningTracks(m: Manifest, j: Journal, w: World, base: World, h: Host)
    requires Consistent(m, j, w, base) && h in Affected(m, j.plan)
    ensures Tracks(m, j, w.(running := w.running[h := j.plan.after[h]]), base)
  {
  }

  /** Recording an adoption that the fleet already shows. */
  lemma {:induction false} AdoptedTracks(m: Manifest, j: Journal, w: World, base: World, h: Host)
    requires Consistent(m, j, w, base) && h in Affected(m, j.plan) && h !in j.adopted
    requires w.running[h] == j.plan.after[h]
    requires h in m.publishers ==> w.pubs[h].revoked == Elems(j.plan.after[h].revoked)
    ensures Tracks(m, j.(adopted := j.adopted + [h]), w, base)
  {
    hide PublisherTracks, PublisherPlanned, Evidence, AllPositive, AllCleaned, GrantIds, Distinct, Elems;
    var j' := j.(adopted := j.adopted + [h]);
    forall p | p in m.publishers
      ensures PublisherTracks(m, j', p, w.pubs[p], base.pubs[p])
    {
      AdoptedKeepsPublisher(m, j, p, w.pubs[p], base.pubs[p], h);
    }
  }

  lemma {:induction false} AdoptedKeepsPublisher(m: Manifest, j: Journal, p: Host, pub: Publisher, was: Publisher, h: Host)
    requires SafeJournal(m, j) && p in m.nodes && PublisherTracks(m, j, p, pub, was)
    requires h in Affected(m, j.plan) && h !in j.adopted
    requires p == h ==> pub.revoked == Elems(j.plan.after[h].revoked)
    ensures PublisherTracks(m, j.(adopted := j.adopted + [h]), p, pub, was)
  {
    var j' := j.(adopted := j.adopted + [h]);
    assert h !in Elems(j.adopted);
    forall t
      ensures RowTracks(m, j', p, t, pub.Row(t), was.Row(t))
    {
      assert RowTracks(m, j, p, t, pub.Row(t), was.Row(t));
    }
  }

  lemma {:induction false} GrantAccepted(m: Manifest, j: Journal, h: Host, t: Token, pub: Publisher, was: Publisher)
    requires SafeJournal(m, j) && h in m.nodes && Known(j.plan, h, t) && !m.action.Revoke?
    requires PublisherPlanned(m, j.plan, h, was) && PublisherDeliverable(m, j.plan, h, was)
    requires PublisherTracks(m, j, h, pub, was)
    requires DenyListFits(pub.revoked)
    ensures var g := j.plan.grants[h][t]; CompareAndSwap(pub, t, g.before, Some(g.after)).Some?
  {
    assert RowTracks(m, j, h, t, pub.Row(t), was.Row(t));
    assert GrantPlanned(m, j.plan.grants[h][t], was, t);
  }

  /** Every grant listed before this one is published and recorded. */
  ghost predicate InTurn(j: Journal, h: Host, t: Token) {
    exists i :: TurnAt(j, h, t, i)
  }

  ghost predicate TurnAt(j: Journal, h: Host, t: Token, i: nat) {
    i < |OrderOf(j.plan, h)| && OrderOf(j.plan, h)[i] == t
    && forall k | 0 <= k < i :: (h, OrderOf(j.plan, h)[k]) in j.published
  }

  lemma {:induction false} TurnOf(j: Journal, h: Host, i: nat)
    requires i < |OrderOf(j.plan, h)| && forall k | 0 <= k < i :: (h, OrderOf(j.plan, h)[k]) in j.published
    ensures InTurn(j, h, OrderOf(j.plan, h)[i])
  {
    assert TurnAt(j, h, OrderOf(j.plan, h)[i], i);
  }

  /** The order of a publisher's grants lists exactly them. */
  lemma {:induction false} GrantsOf(m: Manifest, j: Journal, h: Host)
    requires SafeJournal(m, j) && h in j.plan.grants
    ensures h in m.publishers && GrantsListed(j.plan) && (!m.action.Revoke? ==> h !in j.plan.canaries)
    ensures forall i | 0 <= i < |OrderOf(j.plan, h)| :: Known(j.plan, h, OrderOf(j.plan, h)[i])
    ensures forall t | t in j.plan.grants[h] :: t in OrderOf(j.plan, h)
  {
    var order := OrderOf(j.plan, h);
    forall i | 0 <= i < |order|
      ensures Known(j.plan, h, order[i])
    {
      assert order[i] in Elems(order);
    }
    forall t | t in j.plan.grants[h]
      ensures t in order
    {
      assert t in Elems(order);
    }
  }

  /** An accepted replacement stores exactly the new document. */
  lemma {:induction false} Stored(pub: Publisher, t: Token, before: Option<Envelope>, after: Envelope)
    requires CompareAndSwap(pub, t, before, Some(after)).Some?
    ensures CompareAndSwap(pub, t, before, Some(after)).value.rows == pub.rows[t := after]
  {
  }

  lemma {:induction false} AlreadyStored(w: World, h: Host, t: Token, after: Envelope)
    requires h in w.pubs
    ensures w.pubs[h].Row(t) == Some(after) ==> w.pubs[h].rows[t := after] == w.pubs[h].rows
  {
  }

  /** What a complete record stands for. */
  lemma {:induction false} CompleteEvidence(m: Manifest, j: Journal)
    requires SafeJournal(m, j) && j.phase.Complete?
    ensures Elems(j.written) == m.nodes && Elems(j.adopted) == Affected(m, j.plan)
    ensures Elems(j.published) == GrantIds(j.plan) && AllCleaned(j)
  {
  }

  lemma {:induction false} AllPublished(m: Manifest, j: Journal)
    requires SafeJournal(m, j) && forall h, t | Known(j.plan, h, t) :: (h, t) in j.published
    ensures Elems(j.published) == GrantIds(j.plan)
  {
    forall g | g in GrantIds(j.plan) ensures g in Elems(j.published) {
      assert Known(j.plan, g.0, g.1);
    }
  }

  /** Only a revocation has canaries. */
  lemma {:induction false} NoCanaries(m: Manifest, j: Journal)
    requires SafeJournal(m, j)
    ensures !m.action.Revoke? ==> j.canaries == map[]
  {
  }

  lemma {:induction false} GrantInOrder(m: Manifest, j: Journal, h: Host, t: Token, pub: Publisher, pub': Publisher, was: Publisher)
    requires ValidPlan(m, j.plan) && j.canaries.Keys == j.plan.canaries.Keys && h in m.nodes
    requires Known(j.plan, h, t) && InTurn(j, h, t) && PublisherTracks(m, j, h, pub, was)
    requires pub'.Row(t) == Some(j.plan.grants[h][t].after) && forall u | u != t :: pub'.Row(u) == pub.Row(u)
    ensures InOrder(j.plan, h, pub', was)
  {
    var order := OrderOf(j.plan, h);
    var turn :| TurnAt(j, h, t, turn);
    forall i, k | 0 <= i < k < |order|
      ensures pub'.Row(order[k]) == was.Row(order[k]) || Serves(j.plan, h, pub', order[i])
    {
      assert order[i] in Elems(order) && order[i] != order[k];
      assert RowTracks(m, j, h, order[i], pub.Row(order[i]), was.Row(order[i]));
    }
  }

  lemma {:induction false} GrantTracks(m: Manifest, j: Journal, h: Host, t: Token, pub: Publisher, pub': Publisher, was: Publisher)
    requires SafeJournal(m, j) && h in m.nodes && Known(j.plan, h, t)
    requires Elems(j.adopted) == Affected(m, j.plan) && InTurn(j, h, t)
    requires PublisherTracks(m, j, h, pub, was)
    requires var g := j.plan.grants[h][t]; CompareAndSwap(pub, t, g.before, Some(g.after)) == Some(pub')
    ensures PublisherTracks(m, j, h, pub', was)
  {
    GrantInOrder(m, j, h, t, pub, pub', was);
    hide InOrder, InTurn, GrantsListed;
    forall u
      ensures RowTracks(m, j, h, u, pub'.Row(u), was.Row(u))
    {
      assert RowTracks(m, j, h, u, pub.Row(u), was.Row(u));
    }
  }

  /** Recording a grant that the publisher already serves. */
  lemma {:induction false} PublishedTracks(m: Manifest, j: Journal, h: Host, t: Token, pub: Publisher, was: Publisher)
    requires SafeJournal(m, j) && h in m.nodes && Known(j.plan, h, t)
    requires PublisherTracks(m, j, h, pub, was) && pub.Row(t) == Some(j.plan.grants[h][t].after)
    ensures PublisherTracks(m, j.(published := j.published + [(h, t)]), h, pub, was)
  {
    var j' := j.(published := j.published + [(h, t)]);
    forall u
      ensures RowTracks(m, j', h, u, pub.Row(u), was.Row(u))
    {
      assert RowTracks(m, j, h, u, pub.Row(u), was.Row(u));
    }
  }

  lemma {:induction false} RevokedRowStays(m: Manifest, j: Journal, h: Host, t: Token, pub: Publisher, was: Publisher)
    requires SafeJournal(m, j) && h in m.nodes && Known(j.plan, h, t) && m.action.Revoke?
    requires PublisherPlanned(m, j.plan, h, was) && PublisherTracks(m, j, h, pub, was)
    requires Elems(j.adopted) == Affected(m, j.plan)
    ensures pub.Row(t) == Some(j.plan.grants[h][t].after) && t in pub.revoked
  {
    assert RowTracks(m, j, h, t, pub.Row(t), was.Row(t));
    assert GrantPlanned(m, j.plan.grants[h][t], was, t);
    assert h in Elems(j.adopted);
  }

  /** After adoption the canary is denied, and its row is only missing once cleanup was recorded. */
  lemma {:induction false} CanaryDenied(m: Manifest, j: Journal, h: Host, pub: Publisher, was: Publisher)
    requires SafeJournal(m, j) && h in m.nodes && h in j.canaries && j.canaries[h].positive
    requires PublisherPlanned(m, j.plan, h, was) && PublisherTracks(m, j, h, pub, was)
    requires Elems(j.adopted) == Affected(m, j.plan) && m.action.Revoke?
    ensures var c := j.plan.canaries[h];
            && c.token in pub.revoked
            && (pub.Row(c.token).None? ==> j.canaries[h].cleanupStarted)
            && (pub.Row(c.token).Some? ==> pub.Row(c.token) == Some(c.document) && !pub.Expired(c.document))
            && (CompareAndSwap(pub, c.token, Some(c.document), None).Some? <==> DenyListFits(pub.revoked))
  {
    var t := j.plan.canaries[h].token;
    assert h in Elems(j.adopted);
    assert RowTracks(m, j, h, t, pub.Row(t), was.Row(t));
  }

  lemma {:induction false} CleanupStartedTracks(m: Manifest, j: Journal, h: Host, pub: Publisher, was: Publisher)
    requires SafeJournal(m, j) && h in m.nodes && h in j.canaries && PublisherTracks(m, j, h, pub, was)
    ensures PublisherTracks(m, CleanupStarted(j, h), h, pub, was)
  {
    forall u
      ensures RowTracks(m, CleanupStarted(j, h), h, u, pub.Row(u), was.Row(u))
    {
      assert RowTracks(m, j, h, u, pub.Row(u), was.Row(u));
    }
  }

  lemma {:induction false} DeleteTracks(m: Manifest, j: Journal, h: Host, pub: Publisher, pub': Publisher, was: Publisher)
    requires SafeJournal(m, j) && h in m.nodes && h in j.canaries && j.canaries[h].cleanupStarted
    requires PublisherPlanned(m, j.plan, h, was) && PublisherTracks(m, j, h, pub, was)
    requires CompareAndSwap(pub, j.plan.canaries[h].token, Some(j.plan.canaries[h].document), None) == Some(pub')
    ensures PublisherTracks(m, j, h, pub', was) && PublisherTracks(m, Cleaned(j, h), h, pub', was)
  {
    forall u
      ensures RowTracks(m, j, h, u, pub'.Row(u), was.Row(u))
      ensures RowTracks(m, Cleaned(j, h), h, u, pub'.Row(u), was.Row(u))
    {
      assert RowTracks(m, j, h, u, pub.Row(u), was.Row(u));
    }
  }

  /** The fleet keeps step with the journal, as a condition on any values. */
  ghost predicate InStep(m: Manifest, j: Journal, w: World, base: World) {
    && ValidPlan(m, j.plan) && j.canaries.Keys == j.plan.canaries.Keys
    && m.publishers <= m.nodes && base.running.Keys == m.nodes && base.pubs.Keys == m.publishers
    && Tracks(m, j, w, base)
  }

  ghost predicate PublisherInStep(m: Manifest, j: Journal, p: Host, pub: Publisher, base: World) {
    && ValidPlan(m, j.plan) && j.canaries.Keys == j.plan.canaries.Keys && p in j.plan.after && p in base.pubs
    && PublisherTracks(m, j, p, pub, base.pubs[p])
  }

  /** What the publisher answers to serving a canary. */
  function ServeResponse(j: Journal, w: World, h: Host): (r: Option<Publisher>)
    ensures r.Some? ==> h in w.pubs
  {
    if h !in w.pubs || h !in j.plan.canaries then None
    else CompareAndSwap(w.pubs[h], j.plan.canaries[h].token, None, Some(j.plan.canaries[h].document))
  }

  /** What it answers to deleting the canary by its exact bytes. */
  function DeleteResponse(j: Journal, w: World, h: Host): (r: Option<Publisher>)
    ensures r.Some? ==> h in w.pubs
  {
    if h !in w.pubs || h !in j.plan.canaries then None
    else CompareAndSwap(w.pubs[h], j.plan.canaries[h].token, Some(j.plan.canaries[h].document), None)
  }

  function GrantResponse(j: Journal, w: World, h: Host, t: Token): (r: Option<Publisher>)
    ensures r.Some? ==> h in w.pubs
  {
    if h !in w.pubs || !Known(j.plan, h, t) then None
    else CompareAndSwap(w.pubs[h], t, j.plan.grants[h][t].before, Some(j.plan.grants[h][t].after))
  }

  lemma {:induction false} ServeApplies(m: Manifest, j: Journal, w: World, base: World, h: Host)
    requires Consistent(m, j, w, base) && h in j.canaries && !j.canaries[h].positive
    ensures h in w.pubs && h in m.publishers && j.plan.canaries[h].token !in w.pubs[h].revoked
    ensures Room(m, j.plan, base, 0) ==> ServeResponse(j, w, h).Some?
    ensures ServeResponse(j, w, h).Some? ==>
              && PublisherInStep(m, j, h, ServeResponse(j, w, h).value, base)
              && PublisherInStep(m, Positive(j, h), h, ServeResponse(j, w, h).value, base)
  {
    hide RowTracks, NodesTrack, Distinct, PublisherTracks, PublisherPlanned, Evidence, AllPositive, GrantIds, CompareAndSwap, PublisherRoom;
    assert PublisherPlanned(m, j.plan, h, base.pubs[h]) && PublisherTracks(m, j, h, w.pubs[h], base.pubs[h]);
    ServeAccepted(m, j, h, w.pubs[h], base.pubs[h]);
    if Room(m, j.plan, base, 0) {
      DenyListOf(m, j, h, w.pubs[h], base.pubs[h]);
    }
    var r := ServeResponse(j, w, h);
    if r.Some? {
      ServeTracks(m, j, h, w.pubs[h], r.value, base.pubs[h]);
    }
  }

  /** The same steps, seen on the whole fleet. */
  lemma {:induction false} ServeStep(m: Manifest, j: Journal, w: World, base: World, h: Host)
    requires Consistent(m, j, w, base) && h in j.canaries && !j.canaries[h].positive
    ensures h in w.pubs && h in j.plan.canaries && j.plan.canaries[h].token !in w.pubs[h].revoked
    ensures Room(m, j.plan, base, 0) ==> ServeResponse(j, w, h).Some?
    ensures ServeResponse(j, w, h).Some? ==>
              && InStep(m, j, WithPublisher(w, h, ServeResponse(j, w, h).value), base)
              && InStep(m, Positive(j, h), WithPublisher(w, h, ServeResponse(j, w, h).value), base)
  {
    hide RowTracks, NodesTrack, Distinct, PublisherTracks, PublisherPlanned, Evidence, AllPositive, GrantIds, Affected, Elems, AllCleaned;
    hide ServeResponse, PublisherRoom;
    ServeApplies(m, j, w, base, h);
    var r := ServeResponse(j, w, h);
    if r.Some? {
      PublisherStep(m, j, j, w, base, h, r.value);
      PublisherStep(m, j, Positive(j, h), w, base, h, r.value);
    }
  }

  lemma {:induction false} GrantStep(m: Manifest, j: Journal, w: World, base: World, h: Host, t: Token)
    requires Consistent(m, j, w, base) && Known(j.plan, h, t) && InTurn(j, h, t)
    requires Elems(j.adopted) == Affected(m, j.plan)
    ensures h in w.pubs
    ensures !m.action.Revoke? && Deliverable(m, j.plan, base) && Room(m, j.plan, base, 0) ==> GrantResponse(j, w, h, t).Some?
    ensures GrantResponse(j, w, h, t).Some? ==> InStep(m, j, WithPublisher(w, h, GrantResponse(j, w, h, t).value), base)
    ensures m.action.Revoke? ==> w.pubs[h].Row(t) == Some(j.plan.grants[h][t].after) && t in w.pubs[h].revoked
  {
    hide RowTracks, NodesTrack, Distinct, PublisherTracks, PublisherPlanned, Evidence, AllPositive, AllCleaned, GrantIds, CompareAndSwap, PublisherRoom, InTurn;
    assert PublisherPlanned(m, j.plan, h, base.pubs[h]) && PublisherTracks(m, j, h, w.pubs[h], base.pubs[h]);
    var r := GrantResponse(j, w, h, t);
    if !m.action.Revoke? && Deliverable(m, j.plan, base) && Room(m, j.plan, base, 0) {
      DenyListOf(m, j, h, w.pubs[h], base.pubs[h]);
      GrantAccepted(m, j, h, t, w.pubs[h], base.pubs[h]);
    }
    if m.action.Revoke? {
      RevokedRowStays(m, j, h, t, w.pubs[h], base.pubs[h]);
    }
    if r.Some? {
      GrantTracks(m, j, h, t, w.pubs[h], r.value, base.pubs[h]);
      PublisherStep(m, j, j, w, base, h, r.value);
    }
  }

  lemma {:induction false} PublishedStep(m: Manifest, j: Journal, w: World, base: World, h: Host, t: Token)
    requires Consistent(m, j, w, base) && Known(j.plan, h, t) && (h, t) !in j.published
    requires h in w.pubs && w.pubs[h].Row(t) == Some(j.plan.grants[h][t].after)
    ensures Tracks(m, j.(published := j.published + [(h, t)]), w, base)
  {
    hide RowTracks, NodesTrack, Distinct, PublisherTracks, PublisherPlanned, Evidence, AllPositive, GrantIds;
    PublishedTracks(m, j, h, t, w.pubs[h], base.pubs[h]);
    PublisherStep(m, j, j.(published := j.published + [(h, t)]), w, base, h, w.pubs[h]);
    assert WithPublisher(w, h, w.pubs[h]) == w by { assert w.pubs[h := w.pubs[h]] == w.pubs; }
  }

  lemma {:induction false} CleanupStep(m: Manifest, j: Journal, w: World, base: World, h: Host)
    requires Consistent(m, j, w, base) && h in j.canaries
    ensures Tracks(m, CleanupStarted(j, h), w, base)
  {
    hide RowTracks, NodesTrack, Distinct, PublisherTracks, PublisherPlanned, Evidence, AllPositive, AllCleaned, GrantIds, Affected, Elems, GrantsListed;
    CleanupStartedTracks(m, j, h, w.pubs[h], base.pubs[h]);
    PublisherStep(m, j, CleanupStarted(j, h), w, base, h, w.pubs[h]);
    assert WithPublisher(w, h, w.pubs[h]) == w by { assert w.pubs[h := w.pubs[h]] == w.pubs; }
  }

  lemma {:induction false} DeniedStep(m: Manifest, j: Journal, w: World, base: World, h: Host)
    requires Consistent(m, j, w, base) && h in j.canaries && j.canaries[h].positive
    requires Elems(j.adopted) == Affected(m, j.plan)
    ensures var c := j.plan.canaries[h];
            && h in w.pubs && c.token in w.pubs[h].revoked
            && (w.pubs[h].Row(c.token).None? ==> j.canaries[h].cleanupStarted)
            && (w.pubs[h].Row(c.token).Some? ==> w.pubs[h].Row(c.token) == Some(c.document) && !w.pubs[h].Expired(c.document))
  {
    hide RowTracks, NodesTrack, Distinct, PublisherTracks, PublisherPlanned, Evidence, AllPositive, GrantIds;
    assert PublisherPlanned(m, j.plan, h, base.pubs[h]) && PublisherTracks(m, j, h, w.pubs[h], base.pubs[h]);
    CanaryDenied(m, j, h, w.pubs[h], base.pubs[h]);
  }

  lemma {:induction false} CleanupEvidence(m: Manifest, j: Journal, h: Host)
    requires SafeJournal(m, j) && h in j.canaries && j.canaries[h].cleanupStarted
    ensures j.canaries[h].positive && Elems(j.adopted) == Affected(m, j.plan) && m.action.Revoke?
  {
  }

  lemma {:induction false} DeleteApplies(m: Manifest, j: Journal, w: World, base: World, h: Host)
    requires Consistent(m, j, w, base) && h in j.canaries && j.canaries[h].cleanupStarted
    ensures h in w.pubs && h in m.publishers
    ensures Room(m, j.plan, base, 0) ==> DeleteResponse(j, w, h).Some?
    ensures DeleteResponse(j, w, h).Some? ==>
              && PublisherInStep(m, j, h, DeleteResponse(j, w, h).value, base)
              && PublisherInStep(m, Cleaned(j, h), h, DeleteResponse(j, w, h).value, base)
  {
    hide RowTracks, NodesTrack, Distinct, PublisherTracks, PublisherPlanned, Evidence, AllPositive, GrantIds, CompareAndSwap, PublisherRoom;
    assert PublisherPlanned(m, j.plan, h, base.pubs[h]) && PublisherTracks(m, j, h, w.pubs[h], base.pubs[h]);
    CleanupEvidence(m, j, h);
    CanaryDenied(m, j, h, w.pubs[h], base.pubs[h]);
    if Room(m, j.plan, base, 0) {
      DenyListOf(m, j, h, w.pubs[h], base.pubs[h]);
    }
    var r := DeleteResponse(j, w, h);
    if r.Some? {
      DeleteTracks(m, j, h, w.pubs[h], r.value, base.pubs[h]);
    }
  }

  lemma {:induction false} DeleteStep(m: Manifest, j: Journal, w: World, base: World, h: Host)
    requires Consistent(m, j, w, base) && h in j.canaries && j.canaries[h].cleanupStarted
    ensures h in w.pubs && h in j.plan.canaries
    ensures Room(m, j.plan, base, 0) ==> DeleteResponse(j, w, h).Some?
    ensures DeleteResponse(j, w, h).Some? ==>
              && InStep(m, j, WithPublisher(w, h, DeleteResponse(j, w, h).value), base)
              && InStep(m, Cleaned(j, h), WithPublisher(w, h, DeleteResponse(j, w, h).value), base)
  {
    hide RowTracks, NodesTrack, Distinct, PublisherTracks, PublisherPlanned, Evidence, AllPositive, GrantIds, Affected, Elems, AllCleaned;
    hide DeleteResponse, PublisherRoom;
    DeleteApplies(m, j, w, base, h);
    var r := DeleteResponse(j, w, h);
    if r.Some? {
      PublisherStep(m, j, j, w, base, h, r.value);
      PublisherStep(m, j, Cleaned(j, h), w, base, h, r.value);
    }
  }

  /** Recording an observed effect keeps the journal valid and its evidence justified. */
  ghost predicate Recorded(m: Manifest, j: Journal, j': Journal, trace: seq<Event>) {
    SafeJournal(m, j') && Advances(j, j') && Justified(j', trace)
  }

  /** Canary flags may only turn true, and only on the evidence each one stands for. */
  lemma {:induction false} CanaryUpdate(m: Manifest, j: Journal, h: Host, c: CanaryState)
    requires SafeJournal(m, j) && h in j.canaries
    requires var was := j.canaries[h];
             (was.positive ==> c.positive) && (was.cleanupStarted ==> c.cleanupStarted) && (was.cleaned ==> c.cleaned)
    requires c.cleaned ==> c.cleanupStarted
    requires c.cleanupStarted ==>
               c.positive && Elems(j.written) == m.nodes
               && Elems(j.adopted) == Affected(m, j.plan) && Elems(j.published) == GrantIds(j.plan)
    ensures SafeJournal(m, j.(canaries := j.canaries[h := c])) && Advances(j, j.(canaries := j.canaries[h := c]))
  {
    hide Distinct, Elems, GrantIds, Affected, ValidPlan;
  }

  lemma {:induction false} ServedRecorded(m: Manifest, j: Journal, trace: seq<Event>, h: Host)
    requires SafeJournal(m, j) && Justified(j, trace) && Ordered(m, j.plan, trace)
    requires h in j.canaries && !j.canaries[h].positive
    ensures Ordered(m, j.plan, trace + [ServedCanary(h)])
    ensures Justified(j, trace + [ServedCanary(h)])
    ensures Recorded(m, j, Positive(j, h), trace + [ServedCanary(h)])
  {
    OrderedAppend(m, j.plan, trace, ServedCanary(h));
    hide Evidence, Ordered, Allowed, Advances, Distinct;
    CanaryUpdate(m, j, h, j.canaries[h].(positive := true));
  }

  lemma {:induction false} WrittenSafe(m: Manifest, j: Journal, h: Host)
    requires SafeJournal(m, j) && h in m.nodes && h !in j.written && AllPositive(j)
    ensures SafeJournal(m, j.(written := j.written + [h]))
  {
    assert Elems(j.written + [h]) == Elems(j.written) + {h};
    assert h !in Elems(j.written);
  }

  lemma {:induction false} WroteRecorded(m: Manifest, j: Journal, trace: seq<Event>, h: Host)
    requires SafeJournal(m, j) && Justified(j, trace) && Ordered(m, j.plan, trace)
    requires h in m.nodes && h !in j.written && AllPositive(j)
    ensures Ordered(m, j.plan, trace + [WroteNode(h)])
    ensures Justified(j, trace + [WroteNode(h)])
    ensures Recorded(m, j, j.(written := j.written + [h]), trace + [WroteNode(h)])
  {
    OrderedAppend(m, j.plan, trace, WroteNode(h));
    WrittenSafe(m, j, h);
  }

  lemma {:induction false} AdoptedEvent(m: Manifest, j: Journal, trace: seq<Event>, h: Host)
    requires SafeJournal(m, j) && Justified(j, trace) && Ordered(m, j.plan, trace)
    requires h in Affected(m, j.plan) && Elems(j.written) == m.nodes
    ensures Ordered(m, j.plan, trace + [AdoptedRuntime(h)])
    ensures Justified(j, trace + [AdoptedRuntime(h)])
  {
    forall n | n in m.nodes
      ensures WroteNode(n) in trace
    {
      assert n in Elems(j.written);
    }
    OrderedAppend(m, j.plan, trace, AdoptedRuntime(h));
  }

  lemma {:induction false} ProbedEvent(m: Manifest, j: Journal, trace: seq<Event>, h: Host)
    requires SafeJournal(m, j) && Justified(j, trace) && Ordered(m, j.plan, trace)
    requires AdoptedRuntime(h) in trace
    ensures Ordered(m, j.plan, trace + [ProbedDevice(h)])
    ensures Justified(j, trace + [ProbedDevice(h)])
  {
    OrderedAppend(m, j.plan, trace, ProbedDevice(h));
  }

  lemma {:induction false} AdoptionRecorded(m: Manifest, j: Journal, trace: seq<Event>, h: Host)
    requires SafeJournal(m, j) && Justified(j, trace)
    requires h in Affected(m, j.plan) && h !in j.adopted && Elems(j.written) == m.nodes
    requires !j.phase.RuntimeAdopted? && !j.phase.Complete?
    requires AdoptedRuntime(h) in trace && (h in j.plan.profiles ==> ProbedDevice(h) in trace)
    ensures Recorded(m, j, j.(adopted := j.adopted + [h]), trace)
  {
    var j' := j.(adopted := j.adopted + [h]);
    assert Elems(j'.adopted) == Elems(j.adopted) + {h};
    assert h !in Elems(j.adopted);
    assert h in Elems(j.written);
  }

  lemma {:induction false} ConfirmedEvent(m: Manifest, j: Journal, trace: seq<Event>, h: Host, t: Token)
    requires SafeJournal(m, j) && Justified(j, trace) && Ordered(m, j.plan, trace)
    requires Known(j.plan, h, t) && Elems(j.adopted) == Affected(m, j.plan)
    ensures Ordered(m, j.plan, trace + [ConfirmedGrant(h, t)])
    ensures Justified(j, trace + [ConfirmedGrant(h, t)])
  {
    forall n | n in Affected(m, j.plan)
      ensures AdoptedRuntime(n) in trace && (n in j.plan.profiles ==> ProbedDevice(n) in trace)
    {
      assert n in Elems(j.adopted);
    }
    OrderedAppend(m, j.plan, trace, ConfirmedGrant(h, t));
  }

  lemma {:induction false} ConfirmationRecorded(m: Manifest, j: Journal, trace: seq<Event>, h: Host, t: Token)
    requires SafeJournal(m, j) && Justified(j, trace) && ConfirmedGrant(h, t) in trace
    requires Known(j.plan, h, t) && (h, t) !in j.published && Elems(j.adopted) == Affected(m, j.plan)
    ensures Recorded(m, j, j.(published := j.published + [(h, t)]), trace)
  {
    hide Affected, GrantsListed;
    var j' := j.(published := j.published + [(h, t)]);
    assert Elems(j'.published) == Elems(j.published) + {(h, t)};
    assert (h, t) in GrantIds(j.plan) && (h, t) !in Elems(j.published);
  }

  lemma {:induction false} DeniedEvent(m: Manifest, j: Journal, trace: seq<Event>, h: Host)
    requires SafeJournal(m, j) && Justified(j, trace) && Ordered(m, j.plan, trace)
    requires h in j.canaries && Elems(j.adopted) == Affected(m, j.plan) && Elems(j.published) == GrantIds(j.plan)
    ensures Ordered(m, j.plan, trace + [DeniedCanary(h)])
    ensures Justified(j, trace + [DeniedCanary(h)])
  {
    forall n | n in Affected(m, j.plan)
      ensures AdoptedRuntime(n) in trace
    {
      assert n in Elems(j.adopted);
    }
    forall g | g in GrantIds(j.plan)
      ensures ConfirmedGrant(g.0, g.1) in trace
    {
      assert g in Elems(j.published);
    }
    OrderedAppend(m, j.plan, trace, DeniedCanary(h));
  }

  lemma {:induction false} CleanupRecorded(m: Manifest, j: Journal, trace: seq<Event>, h: Host)
    requires SafeJournal(m, j) && Justified(j, trace) && DeniedCanary(h) in trace
    requires h in j.canaries && j.canaries[h].positive
    requires Elems(j.written) == m.nodes && Elems(j.adopted) == Affected(m, j.plan)
    requires Elems(j.published) == GrantIds(j.plan)
    ensures Recorded(m, j, CleanupStarted(j, h), trace)
  {
    hide Advances, Distinct;
    CanaryUpdate(m, j, h, j.canaries[h].(cleanupStarted := true));
  }

  lemma {:induction false} CleanupEvent(m: Manifest, j: Journal, trace: seq<Event>, h: Host)
    requires SafeJournal(m, j) && Justified(j, trace) && Ordered(m, j.plan, trace) && DeniedCanary(h) in trace
    ensures Ordered(m, j.plan, trace + [RecordedCleanup(h)])
    ensures Justified(j, trace + [RecordedCleanup(h)])
  {
    OrderedAppend(m, j.plan, trace, RecordedCleanup(h));
  }

  lemma {:induction false} DeletedRecorded(m: Manifest, j: Journal, trace: seq<Event>, h: Host)
    requires SafeJournal(m, j) && Justified(j, trace) && Ordered(m, j.plan, trace)
    requires h in j.canaries && j.canaries[h].cleanupStarted
    requires DeniedCanary(h) in trace && RecordedCleanup(h) in trace
    ensures Ordered(m, j.plan, trace + [DeletedCanary(h)])
    ensures Justified(j, trace + [DeletedCanary(h)])
    ensures Recorded(m, j, Cleaned(j, h), trace + [DeletedCanary(h)])
  {
    CleanupEvidence(m, j, h);
    OrderedAppend(m, j.plan, trace, DeletedCanary(h));
    hide Ordered, Allowed, Advances, Distinct, ValidJournal, Evidence, AllCleaned, AllPositive;
    DeletedJustified(j, trace, h);
    assert SafeJournal(m, Cleaned(j, h)) && Advances(j, Cleaned(j, h)) by {
      DeletedSafe(m, j, h);
    }
  }

  lemma {:induction false} DeletedJustified(j: Journal, trace: seq<Event>, h: Host)
    requires Justified(j, trace) && h in j.canaries
    ensures Justified(j, trace + [DeletedCanary(h)]) && Justified(Cleaned(j, h), trace + [DeletedCanary(h)])
  {
  }

  lemma {:induction false} DeletedSafe(m: Manifest, j: Journal, h: Host)
    requires SafeJournal(m, j) && h in j.canaries && j.canaries[h].cleanupStarted
    ensures SafeJournal(m, Cleaned(j, h)) && Advances(j, Cleaned(j, h))
  {
    hide Distinct, Elems, GrantIds, Affected, ValidPlan, Advances;
    CanaryUpdate(m, j, h, j.canaries[h].(cleaned := true));
  }

  /** Phases carry no evidence of their own: they may be entered again on every resume. */
  lemma {:induction false} PhaseStep(m: Manifest, j: Journal, phase: Phase, trace: seq<Event>)
    requires SafeJournal(m, j) && Justified(j, trace)
    requires !phase.Prepared? ==> Elems(j.written) == m.nodes
    requires phase.RuntimeAdopted? || phase.Complete? ==> Elems(j.adopted) == Affected(m, j.plan)
    requires phase.Complete? ==> Elems(j.published) == GrantIds(j.plan) && AllCleaned(j)
    ensures Recorded(m, j, j.(phase := phase), trace)
  {
    hide Distinct, Elems, GrantIds, Affected;
  }

  lemma {:induction false} PhaseTracks(m: Manifest, j: Journal, phase: Phase, w: World, base: World)
    requires Consistent(m, j, w, base)
    ensures Tracks(m, j.(phase := phase), w, base)
  {
    hide Distinct, Evidence, PublisherPlanned;
    forall p | p in m.publishers
      ensures PublisherTracks(m, j.(phase := phase), p, w.pubs[p], base.pubs[p])
    {
      OtherPhase(m, j, phase, p, w.pubs[p], base.pubs[p]);
    }
  }

  lemma {:induction false} OtherPhase(m: Manifest, j: Journal, phase: Phase, p: Host, pub: Publisher, was: Publisher)
    requires ValidPlan(m, j.plan) && j.canaries.Keys == j.plan.canaries.Keys && p in j.plan.after
    requires PublisherTracks(m, j, p, pub, was)
    ensures PublisherTracks(m, j.(phase := phase), p, pub, was)
  {
    forall t
      ensures RowTracks(m, j.(phase := phase), p, t, pub.Row(t), was.Row(t))
    {
      assert RowTracks(m, j, p, t, pub.Row(t), was.Row(t));
    }
  }

  lemma {:induction false} OutputTracks(m: Manifest, j: Journal, w: World, base: World)
    requires Consistent(m, j, w, base) && j.plan.artifact.Some?
    ensures w.output.None? || w.output == j.plan.artifact
    ensures Tracks(m, j, w.(output := j.plan.artifact), base)
  {
    hide Distinct, Evidence, PublisherTracks, PublisherPlanned;
  }

  /** Once adopted and published, every planned grant reads as it should. */
  lemma {:induction false} GrantsFinal(m: Manifest, j: Journal, w: World, base: World, h: Host, t: Token)
    requires Consistent(m, j, w, base) && Known(j.plan, h, t) && Deliverable(m, j.plan, base)
    requires Elems(j.adopted) == Affected(m, j.plan) && Elems(j.published) == GrantIds(j.plan)
    ensures h in w.pubs && w.pubs[h].Row(t) == Some(j.plan.grants[h][t].after)
    ensures t in w.pubs[h].revoked <==> m.action.Revoke?
  {
    hide Distinct, Evidence, NodesTrack;
    assert PublisherPlanned(m, j.plan, h, base.pubs[h]) && PublisherDeliverable(m, j.plan, h, base.pubs[h]);
    PublisherGrantFinal(m, j, h, t, w.pubs[h], base.pubs[h]);
  }

  lemma {:induction false} PublisherGrantFinal(m: Manifest, j: Journal, h: Host, t: Token, pub: Publisher, was: Publisher)
    requires SafeJournal(m, j) && h in m.nodes && Known(j.plan, h, t)
    requires PublisherPlanned(m, j.plan, h, was) && PublisherDeliverable(m, j.plan, h, was)
    requires PublisherTracks(m, j, h, pub, was)
    requires Elems(j.adopted) == Affected(m, j.plan) && Elems(j.published) == GrantIds(j.plan)
    ensures pub.Row(t) == Some(j.plan.grants[h][t].after)
    ensures t in pub.revoked <==> m.action.Revoke?
  {
    assert (h, t) in GrantIds(j.plan);
    assert RowTracks(m, j, h, t, pub.Row(t), was.Row(t));
    assert GrantPlanned(m, j.plan.grants[h][t], was, t);
    if m.action.Revoke? {
      RevokedRowStays(m, j, h, t, pub, was);
    }
  }

  lemma {:induction false} CanariesGone(m: Manifest, j: Journal, w: World, base: World, h: Host)
    requires Consistent(m, j, w, base) && h in j.canaries && j.canaries[h].cleaned
    ensures h in w.pubs && w.pubs[h].Row(j.plan.canaries[h].token).None?
  {
    hide Distinct, Evidence, NodesTrack;
    var t := j.plan.canaries[h].token;
    assert PublisherPlanned(m, j.plan, h, base.pubs[h]) && PublisherTracks(m, j, h, w.pubs[h], base.pubs[h]);
    assert RowTracks(m, j, h, t, w.pubs[h].Row(t), base.pubs[h].Row(t));
  }
}
