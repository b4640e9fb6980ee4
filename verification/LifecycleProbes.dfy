/**
 Route probes: the row a route check publishes and deletes again, and what an interruption in
 between leaves behind.
 */
module LifecycleProbes {
  import opened Wrappers
  import opened SubscriptionPublisher
  import opened LifecycleJournal
  import opened LifecycleFleet
  import opened LifecycleSteps

  function WithRow(w: World, p: Host, t: Token, document: Envelope): World
    requires p in w.pubs
  {
    WithPublisher(w, p, w.pubs[p].(rows := w.pubs[p].rows[t := document]))
  }

  /** A token that nothing at this publisher or in this plan uses. */
  predicate Unused(plan: Plan, p: Host, pub: Publisher, t: Token) {
    t !in pub.rows && t !in pub.revoked && !Known(plan, p, t) && !IsCanary(plan, p, t)
  }

  /** There is always a token nobody uses: one longer than all of them. */
  lemma {:induction false} LongerToken(used: set<Token>) returns (t: Token)
    ensures t !in used && forall u | u in used :: |u| < |t|
    decreases |used|
  {
    t := "x";
    if u :| u in used {
      var rest := LongerToken(used - {u});
      t := rest + u + "x";
      forall v | v in used ensures |v| < |t| {
        assert v == u || v in used - {u};
      }
    }
  }

  lemma {:induction false} SomeUnused(plan: Plan, p: Host, pub: Publisher)
    ensures exists t :: Unused(plan, p, pub, t)
  {
    var granted := if p in plan.grants then plan.grants[p].Keys else {};
    var served := if p in plan.canaries then {plan.canaries[p].token} else {};
    var t := LongerToken(pub.rows.Keys + pub.revoked + granted + served);
    assert Unused(plan, p, pub, t);
  }

  /** Creating a probe under an unused token adds its row and nothing else. */
  lemma {:induction false} ProbeStored(pub: Publisher, t: Token, probe: Envelope)
    requires t !in pub.rows && t !in pub.revoked
    ensures var r := CompareAndSwap(pub, t, None, Some(probe));
            && (r.Some? <==> DenyListFits(pub.revoked) && !pub.Expired(probe))
            && (r.Some? ==> r.value == pub.(rows := pub.rows[t := probe]))
  {
  }

  /** Deleting it gives back the namespace as it was. */
  lemma {:induction false} ProbeDeleted(pub: Publisher, t: Token, probe: Envelope)
    requires t !in pub.rows && DenyListFits(pub.revoked) && !pub.Expired(probe)
    ensures CompareAndSwap(pub.(rows := pub.rows[t := probe]), t, Some(probe), None) == Some(pub)
  {
    assert pub.rows[t := probe] - {t} == pub.rows;
  }

  lemma {:induction false} ProbeAccepted(m: Manifest, j: Journal, w: World, base: World, p: Host, t: Token, probe: Envelope)
    requires Consistent(m, j, w, base) && Room(m, j.plan, base, 0) && p in m.publishers
    requires p in base.pubs && !base.pubs[p].Expired(probe)
    ensures p in w.pubs && DenyListFits(w.pubs[p].revoked) && !w.pubs[p].Expired(probe)
  {
    hide NodesTrack, RowTracks, PublisherPlanned, PublisherRoom;
    assert PublisherTracks(m, j, p, w.pubs[p], base.pubs[p]);
    DenyListOf(m, j, p, w.pubs[p], base.pubs[p]);
  }

  lemma {:induction false} UnusedSoFar(m: Manifest, j: Journal, p: Host, pub: Publisher, was: Publisher, t: Token)
    requires SafeJournal(m, j) && p in m.nodes && PublisherTracks(m, j, p, pub, was) && Unused(j.plan, p, pub, t)
    ensures t !in was.rows
  {
    assert RowTracks(m, j, p, t, pub.Row(t), was.Row(t));
  }

  lemma {:induction false} ProbedTracks(m: Manifest, j: Journal, p: Host, pub: Publisher, was: Publisher, t: Token, probe: Envelope)
    requires SafeJournal(m, j) && p in m.nodes && PublisherTracks(m, j, p, pub, was) && Unused(j.plan, p, pub, t)
    ensures PublisherTracks(m, j, p, pub.(rows := pub.rows[t := probe]), was.(rows := was.rows[t := probe]))
  {
    hide GrantsListed, Evidence, Distinct;
    var pub', was' := pub.(rows := pub.rows[t := probe]), was.(rows := was.rows[t := probe]);
    ProbedInOrder(j.plan, p, pub, was, t, probe);
    hide InOrder;
    forall u
      ensures RowTracks(m, j, p, u, pub'.Row(u), was'.Row(u))
    {
      assert RowTracks(m, j, p, u, pub.Row(u), was.Row(u));
    }
  }

  lemma {:induction false} ProbedInOrder(plan: Plan, p: Host, pub: Publisher, was: Publisher, t: Token, probe: Envelope)
    requires GrantsListed(plan) && InOrder(plan, p, pub, was) && !Known(plan, p, t)
    ensures InOrder(plan, p, pub.(rows := pub.rows[t := probe]), was.(rows := was.rows[t := probe]))
  {
    var pub', was' := pub.(rows := pub.rows[t := probe]), was.(rows := was.rows[t := probe]);
    var order := OrderOf(plan, p);
    forall i | 0 <= i < |order|
      ensures pub'.Row(order[i]) == pub.Row(order[i]) && was'.Row(order[i]) == was.Row(order[i])
    {
      assert order[i] in Elems(order);
    }
  }

  lemma {:induction false} ProbedPlanned(m: Manifest, plan: Plan, p: Host, was: Publisher, t: Token, probe: Envelope)
    requires ValidPlan(m, plan) && p in m.nodes && PublisherPlanned(m, plan, p, was)
    requires t !in was.rows && !Known(plan, p, t) && !IsCanary(plan, p, t) && probe.client != m.device
    ensures PublisherPlanned(m, plan, p, was.(rows := was.rows[t := probe]))
  {
    var was' := was.(rows := was.rows[t := probe]);
    if p in plan.grants {
      forall u | u in plan.grants[p]
        ensures GrantPlanned(m, plan.grants[p][u], was', u) && !IsCanary(plan, p, u)
                && (m.action.Revoke? ==> u in plan.after[p].revoked)
      {
        assert GrantPlanned(m, plan.grants[p][u], was, u);
      }
    }
  }

  /** A probe changes the fleet and the fleet the operation started from alike. */
  lemma {:induction false} ProbeKeepsStep(m: Manifest, j: Journal, w: World, base: World, p: Host, t: Token, probe: Envelope)
    requires Consistent(m, j, w, base) && p in m.publishers && p in w.pubs && Unused(j.plan, p, w.pubs[p], t)
    requires probe.client != m.device
    ensures p in base.pubs && t !in base.pubs[p].rows
    ensures Consistent(m, j, WithRow(w, p, t, probe), WithRow(base, p, t, probe))
  {
    hide NodesTrack, PublisherTracks, PublisherPlanned, ValidJournal, Evidence;
    assert ValidPlan(m, j.plan) && j.canaries.Keys == j.plan.canaries.Keys by { JournalShape(m, j); }
    assert PublisherTracks(m, j, p, w.pubs[p], base.pubs[p]) && PublisherPlanned(m, j.plan, p, base.pubs[p]);
    UnusedSoFar(m, j, p, w.pubs[p], base.pubs[p], t);
    ProbedTracks(m, j, p, w.pubs[p], base.pubs[p], t, probe);
    ProbedPlanned(m, j.plan, p, base.pubs[p], t, probe);
    NodesAside(m, j, w, base, WithRow(w, p, t, probe), WithRow(base, p, t, probe));
  }

  lemma {:induction false} JournalShape(m: Manifest, j: Journal)
    requires SafeJournal(m, j)
    ensures ValidPlan(m, j.plan) && j.canaries.Keys == j.plan.canaries.Keys
  {
  }

  lemma {:induction false} NodesAside(m: Manifest, j: Journal, w: World, base: World, w': World, base': World)
    requires ValidPlan(m, j.plan) && base.running.Keys == m.nodes && NodesTrack(m, j, w, base)
    requires w' == w.(pubs := w'.pubs) && base' == base.(pubs := base'.pubs)
    ensures NodesTrack(m, j, w', base')
  {
  }

  lemma {:induction false} ProbedDeliverable(m: Manifest, plan: Plan, base: World, p: Host, t: Token, probe: Envelope)
    requires WellPlanned(m, plan, base) && Deliverable(m, plan, base) && p in m.publishers
    requires WellPlanned(m, plan, WithRow(base, p, t, probe)) && t !in base.pubs[p].rows && probe.client != m.device
    ensures Deliverable(m, plan, WithRow(base, p, t, probe))
  {
    hide PublisherPlanned;
    var base' := WithRow(base, p, t, probe);
    forall q | q in m.publishers
      ensures PublisherDeliverable(m, plan, q, base'.pubs[q])
    {
      assert PublisherDeliverable(m, plan, q, base.pubs[q]);
    }
  }

  /** Every leftover probe takes one row and its bytes of the room there was. */
  lemma {:induction false} ProbedRoom(m: Manifest, plan: Plan, base: World, p: Host, t: Token, probe: Envelope, n: nat)
    requires Room(m, plan, base, n + 1) && p in base.pubs && t !in base.pubs[p].rows && IsRouteProbe(probe)
    requires !Known(plan, p, t) && !IsCanary(plan, p, t)
    ensures Room(m, plan, WithRow(base, p, t, probe), n)
  {
    hide PublisherRoom;
    var base' := WithRow(base, p, t, probe);
    forall q | q in m.publishers && q in base'.pubs
      ensures PublisherRoom(m, plan, q, base'.pubs[q], n)
    {
      assert PublisherRoom(m, plan, q, base.pubs[q], n + 1);
      if q == p {
        ProbedPublisherRoom(m, plan, p, base.pubs[p], t, probe, n);
      } else {
        LessRoom(m, plan, q, base.pubs[q], n);
      }
    }
  }

  lemma {:induction false} LessRoom(m: Manifest, plan: Plan, p: Host, was: Publisher, n: nat)
    requires PublisherRoom(m, plan, p, was, n + 1)
    ensures PublisherRoom(m, plan, p, was, n)
  {
    hide PrefixRows;
    forall k: nat
      ensures PrefixRoom(plan, p, was, k, n)
    {
      assert PrefixRoom(plan, p, was, k, n + 1);
    }
  }

  lemma {:induction false} ProbedPublisherRoom(m: Manifest, plan: Plan, p: Host, was: Publisher, t: Token, probe: Envelope, n: nat)
    requires PublisherRoom(m, plan, p, was, n + 1) && t !in was.rows && IsRouteProbe(probe)
    requires !Known(plan, p, t) && !IsCanary(plan, p, t)
    ensures PublisherRoom(m, plan, p, was.(rows := was.rows[t := probe]), n)
  {
    hide PrefixRows;
    var probed := was.(rows := was.rows[t := probe]);
    forall k: nat
      ensures PrefixRoom(plan, p, probed, k, n)
    {
      assert PrefixRoom(plan, p, was, k, n + 1);
      PrefixProbed(plan, p, was, k, t, probe);
      OneMore(PrefixRows(plan, p, was, k), t, probe);
    }
  }

  lemma {:induction false} PrefixProbed(plan: Plan, p: Host, was: Publisher, k: nat, t: Token, probe: Envelope)
    requires t !in was.rows && !Known(plan, p, t) && !IsCanary(plan, p, t)
    ensures t !in PrefixRows(plan, p, was, k)
    ensures PrefixRows(plan, p, was.(rows := was.rows[t := probe]), k) == PrefixRows(plan, p, was, k)[t := probe]
  {
  }

  /** The final fleet differs by exactly the leftover. */
  lemma {:induction false} FinalWithProbe(m: Manifest, plan: Plan, base: World, p: Host, t: Token, probe: Envelope)
    requires WellPlanned(m, plan, base) && p in m.publishers && t !in base.pubs[p].rows && !Known(plan, p, t)
    requires WellPlanned(m, plan, WithRow(base, p, t, probe))
    ensures p in FinalWorld(m, plan, base).pubs
    ensures FinalWorld(m, plan, WithRow(base, p, t, probe)) == WithRow(FinalWorld(m, plan, base), p, t, probe)
  {
    hide PublisherPlanned, FinalPublisher, Affected;
    FinalPublisherWithProbe(m, plan, p, base.pubs[p], t, probe);
    assert FinalWorld(m, plan, WithRow(base, p, t, probe)).pubs == WithRow(FinalWorld(m, plan, base), p, t, probe).pubs;
  }

  lemma {:induction false} FinalPublisherWithProbe(m: Manifest, plan: Plan, p: Host, was: Publisher, t: Token, probe: Envelope)
    requires ValidPlan(m, plan) && p in plan.after && t !in was.rows && !Known(plan, p, t)
    ensures FinalPublisher(m, plan, p, was.(rows := was.rows[t := probe]))
            == FinalPublisher(m, plan, p, was).(rows := FinalPublisher(m, plan, p, was).rows[t := probe])
  {
    hide GrantsListed;
    var probed := was.(rows := was.rows[t := probe]);
    assert FinalPublisher(m, plan, p, probed).rows == FinalPublisher(m, plan, p, was).rows[t := probe];
  }

  /** The rows of a snapshot pass the fence with a leftover probe exactly when the probe is not taken for the device's own. */
  lemma {:induction false} ProbeRowAccepted(m: Manifest, plan: Plan, p: Host, pub: Publisher, t: Token, probe: Envelope)
    requires SnapshotChecked(m, plan, p, pub) && Unused(plan, p, pub, t) && IsRouteProbe(probe)
    ensures SnapshotChecked(m, plan, p, pub.(rows := pub.rows[t := probe])) <==>
              m.device != ROUTE_CHECK || (m.action.Refresh? && pub.Expired(probe))
  {
    var after := pub.(rows := pub.rows[t := probe]);
    forall u | u in pub.rows
      ensures RowAccepted(m, plan, p, after, u)
    {
      assert RowAccepted(m, plan, p, pub, u);
    }
    assert t in after.rows;
  }

  /**
   The fence still accepts a publisher with a leftover probe exactly when the snapshot has room for
   it and the device is not named like it, except that a refresh passes over inactive rows.
   */
  lemma {:induction false} LeftoverProbeAccepted(m: Manifest, plan: Plan, p: Host, pub: Publisher, t: Token, probe: Envelope)
    requires Snapshotable(pub) && SnapshotChecked(m, plan, p, pub) && Unused(plan, p, pub, t) && IsRouteProbe(probe)
    ensures var after := pub.(rows := pub.rows[t := probe]);
            Snapshotable(after) && SnapshotChecked(m, plan, p, after) <==>
              && |pub.rows| < MAX_DOCUMENTS && Bytes(pub.rows) + PROBE_SIZE <= MAX_BYTES
              && (m.device != ROUTE_CHECK || (m.action.Refresh? && pub.Expired(probe)))
  {
    hide SnapshotChecked;
    ProbeRowAccepted(m, plan, p, pub, t, probe);
    OneMore(pub.rows, t, probe);
  }

  // ---------------------------------------------------------------- litter

  /** One leftover probe and nothing else. */
  ghost predicate OneProbe(plan: Plan, before: World, after: World) {
    exists p, t, probe :: LeftBy(plan, before, after, p, t, probe)
  }

  ghost predicate LeftBy(plan: Plan, before: World, after: World, p: Host, t: Token, probe: Envelope) {
    && p in before.pubs && t !in before.pubs[p].rows && !Known(plan, p, t) && !IsCanary(plan, p, t)
    && IsRouteProbe(probe) && after == WithRow(before, p, t, probe)
  }

  /** At most so many leftover probes and nothing else. */
  ghost predicate Litter(plan: Plan, before: World, after: World, n: nat)
    decreases n
  {
    after == before || (n > 0 && exists between :: Litter(plan, before, between, n - 1) && OneProbe(plan, between, after))
  }

  lemma {:induction false} LitterMore(plan: Plan, before: World, between: World, after: World, n: nat)
    requires Litter(plan, before, between, n) && (after == between || OneProbe(plan, between, after))
    ensures Litter(plan, before, after, n + 1)
  {
    hide OneProbe;
    if after == between {
      LitterLess(plan, before, between, n);
    } else {
      assert Litter(plan, before, between, n) && OneProbe(plan, between, after);
    }
  }

  lemma {:induction false} LitterLess(plan: Plan, before: World, after: World, n: nat)
    requires Litter(plan, before, after, n)
    ensures Litter(plan, before, after, n + 1)
    decreases n
  {
    hide OneProbe;
    if after != before {
      var between :| Litter(plan, before, between, n - 1) && OneProbe(plan, between, after);
      LitterLess(plan, before, between, n - 1);
    }
  }

  /** A probe left behind right now: still in step, littered by exactly it. */
  lemma {:induction false} ProbePlaced(m: Manifest, j: Journal, w: World, base: World, p: Host, t: Token, probe: Envelope)
    requires Consistent(m, j, w, base) && p in m.publishers && p in w.pubs && Unused(j.plan, p, w.pubs[p], t)
    requires IsRouteProbe(probe) && m.device != ROUTE_CHECK
    ensures p in base.pubs && OneProbe(j.plan, base, WithRow(base, p, t, probe))
    ensures Consistent(m, j, WithRow(w, p, t, probe), WithRow(base, p, t, probe))
  {
    ProbeKeepsStep(m, j, w, base, p, t, probe);
    hide Consistent;
    assert LeftBy(j.plan, base, WithRow(base, p, t, probe), p, t, probe);
  }

  /** Of a littered fleet, documents and runtimes are untouched and every row that was there still is. */
  lemma {:induction false} LitterKeeps(plan: Plan, before: World, after: World, n: nat, p: Host, t: Token)
    requires Litter(plan, before, after, n)
    ensures after == before.(pubs := after.pubs) && after.pubs.Keys == before.pubs.Keys
    ensures p in before.pubs ==>
              && after.pubs[p] == before.pubs[p].(rows := after.pubs[p].rows)
              && (t in before.pubs[p].rows ==> t in after.pubs[p].rows && after.pubs[p].rows[t] == before.pubs[p].rows[t])
              && (t in after.pubs[p].rows && t !in before.pubs[p].rows ==> IsRouteProbe(after.pubs[p].rows[t]))
    decreases n
  {
    if after != before {
      var between :| Litter(plan, before, between, n - 1) && OneProbe(plan, between, after);
      hide Litter;
      LitterKeeps(plan, before, between, n - 1, p, t);
      hide OneProbe, Known, IsCanary;
      OneProbeKeeps(plan, between, after, p, t);
    }
  }

  lemma {:induction false} OneProbeKeeps(plan: Plan, before: World, after: World, p: Host, t: Token)
    requires OneProbe(plan, before, after)
    ensures after == before.(pubs := after.pubs) && after.pubs.Keys == before.pubs.Keys
    ensures p in before.pubs ==>
              && after.pubs[p] == before.pubs[p].(rows := after.pubs[p].rows)
              && (t in before.pubs[p].rows ==> t in after.pubs[p].rows && after.pubs[p].rows[t] == before.pubs[p].rows[t])
              && (t in after.pubs[p].rows && t !in before.pubs[p].rows ==> IsRouteProbe(after.pubs[p].rows[t]))
  {
    var q, u, probe :| LeftBy(plan, before, after, q, u, probe);
  }

  /** Starting from a littered fleet the operation ends in the final fleet, littered by the same probes. */
  lemma {:induction false} FinalLitter(m: Manifest, plan: Plan, base: World, base': World, n: nat)
    requires WellPlanned(m, plan, base) && Litter(plan, base, base', n) && m.device != ROUTE_CHECK
    ensures WellPlanned(m, plan, base')
    ensures Litter(plan, FinalWorld(m, plan, base), FinalWorld(m, plan, base'), n)
    decreases n
  {
    hide WellPlanned, FinalWorld;
    if base' != base {
      var between :| Litter(plan, base, between, n - 1) && OneProbe(plan, between, base');
      FinalLitter(m, plan, base, between, n - 1);
      FinalOneProbe(m, plan, between, base');
      hide OneProbe;
    }
  }

  lemma {:induction false} FinalOneProbe(m: Manifest, plan: Plan, base: World, base': World)
    requires WellPlanned(m, plan, base) && OneProbe(plan, base, base') && m.device != ROUTE_CHECK
    ensures WellPlanned(m, plan, base') && OneProbe(plan, FinalWorld(m, plan, base), FinalWorld(m, plan, base'))
  {
    var p, t, probe :| LeftBy(plan, base, base', p, t, probe);
    assert p in m.publishers;
    WellPlannedProbed(m, plan, base, p, t, probe);
    FinalWithProbe(m, plan, base, p, t, probe);
    NotFinal(m, plan, p, base.pubs[p], t);
    hide WellPlanned, FinalPublisher, PublisherPlanned;
    assert FinalWorld(m, plan, base).pubs[p] == FinalPublisher(m, plan, p, base.pubs[p]);
    hide FinalWorld;
    assert LeftBy(plan, FinalWorld(m, plan, base), FinalWorld(m, plan, base'), p, t, probe);
  }

  lemma {:induction false} NotFinal(m: Manifest, plan: Plan, p: Host, was: Publisher, t: Token)
    requires ValidPlan(m, plan) && p in plan.after && t !in was.rows && !Known(plan, p, t)
    ensures t !in FinalPublisher(m, plan, p, was).rows
  {
  }

  lemma {:induction false} WellPlannedProbed(m: Manifest, plan: Plan, base: World, p: Host, t: Token, probe: Envelope)
    requires WellPlanned(m, plan, base) && p in m.publishers && t !in base.pubs[p].rows
    requires !Known(plan, p, t) && !IsCanary(plan, p, t) && probe.client != m.device
    ensures WellPlanned(m, plan, WithRow(base, p, t, probe))
  {
    hide PublisherPlanned;
    ProbedPlanned(m, plan, p, base.pubs[p], t, probe);
  }
}
