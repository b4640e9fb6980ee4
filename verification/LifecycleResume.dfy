/**
 Taking an operation up again: the fleet it started from, with every grant as far as it has been
 delivered, serves as well as that fleet itself, and tells exactly what is still ahead.
 */
module LifecycleResume {
  import opened Wrappers
  import opened SubscriptionPublisher
  import opened LifecycleJournal
  import opened LifecycleFleet
  import opened LifecycleSteps
  import opened LifecycleProbes

  ghost function RebasedRow(plan: Plan, p: Host, was: Publisher, pub: Publisher, t: Token): Option<Envelope> {
    if Known(plan, p, t) then pub.Row(t) else was.Row(t)
  }

  /** The publisher as it was, but for the grants it serves by now. */
  ghost function RebasedPublisher(plan: Plan, p: Host, was: Publisher, pub: Publisher): (r: Publisher)
    ensures r == was.(rows := r.rows)
    ensures forall t :: r.Row(t) == RebasedRow(plan, p, was, pub, t)
  {
    was.(rows := map t | t in was.rows.Keys + pub.rows.Keys && RebasedRow(plan, p, was, pub, t).Some? ::
           RebasedRow(plan, p, was, pub, t).value)
  }

  ghost function Rebased(plan: Plan, base: World, w: World): World {
    base.(pubs := map p | p in base.pubs :: if p in w.pubs then RebasedPublisher(plan, p, base.pubs[p], w.pubs[p]) else base.pubs[p])
  }

  // ---------------------------------------------------------------- one publisher

  lemma {:induction false} RebasedPlanned(m: Manifest, j: Journal, p: Host, pub: Publisher, was: Publisher)
    requires SafeJournal(m, j) && p in m.nodes && PublisherPlanned(m, j.plan, p, was) && PublisherTracks(m, j, p, pub, was)
    ensures PublisherPlanned(m, j.plan, p, RebasedPublisher(j.plan, p, was, pub))
  {
    hide RebasedPublisher, GrantsListed, InOrder, Evidence, Distinct;
    var r := RebasedPublisher(j.plan, p, was, pub);
    if p in j.plan.grants {
      forall t | t in j.plan.grants[p]
        ensures GrantPlanned(m, j.plan.grants[p][t], r, t)
      {
        assert RowTracks(m, j, p, t, pub.Row(t), was.Row(t));
        assert GrantPlanned(m, j.plan.grants[p][t], was, t);
        assert r.Row(t) == pub.Row(t);
      }
    }
    forall t | !Known(j.plan, p, t)
      ensures t in r.rows <==> t in was.rows
      ensures t in r.rows ==> r.rows[t] == was.rows[t]
    {
      assert r.Row(t) == was.Row(t);
    }
  }

  lemma {:induction false} RebasedTracks(m: Manifest, j: Journal, p: Host, pub: Publisher, was: Publisher)
    requires SafeJournal(m, j) && p in m.nodes && PublisherTracks(m, j, p, pub, was)
    ensures PublisherTracks(m, j, p, pub, RebasedPublisher(j.plan, p, was, pub))
  {
    hide RebasedPublisher, Evidence, Distinct;
    var r := RebasedPublisher(j.plan, p, was, pub);
    forall t
      ensures RowTracks(m, j, p, t, pub.Row(t), r.Row(t))
    {
      assert RowTracks(m, j, p, t, pub.Row(t), was.Row(t));
    }
    RebasedInOrder(j.plan, p, pub, was);
  }

  lemma {:induction false} RebasedInOrder(plan: Plan, p: Host, pub: Publisher, was: Publisher)
    requires GrantsListed(plan)
    ensures InOrder(plan, p, pub, RebasedPublisher(plan, p, was, pub))
  {
    var order := OrderOf(plan, p);
    forall k | 0 <= k < |order|
      ensures pub.Row(order[k]) == RebasedPublisher(plan, p, was, pub).Row(order[k])
    {
      assert order[k] in Elems(order);
    }
  }

  /** And back: what keeps step with the rebased fleet keeps step with the one it came from. */
  lemma {:induction false} RestoredTracks(m: Manifest, j: Journal, j': Journal, p: Host, start: Publisher, was: Publisher,
                                          pub: Publisher, x: Publisher)
    requires SafeJournal(m, j) && SafeJournal(m, j') && Advances(j, j') && p in m.nodes
    requires PublisherTracks(m, j, p, start, was) && x == was.(rows := x.rows)
    requires forall t | Known(j.plan, p, t) :: x.Row(t) == was.Row(t)
    requires PublisherTracks(m, j', p, pub, RebasedPublisher(j.plan, p, x, start))
    ensures PublisherTracks(m, j', p, pub, x)
  {
    hide RebasedPublisher, GrantsListed, Distinct, Evidence;
    var r := RebasedPublisher(j.plan, p, x, start);
    AdoptedBefore(m, j, j');
    forall t
      ensures RowTracks(m, j', p, t, pub.Row(t), x.Row(t))
    {
      assert RowTracks(m, j, p, t, start.Row(t), was.Row(t));
      assert RowTracks(m, j', p, t, pub.Row(t), r.Row(t));
    }
    RestoredInOrder(m, j, p, start, was, pub, x, j');
  }

  lemma {:induction false} AdoptedBefore(m: Manifest, j: Journal, j': Journal)
    requires SafeJournal(m, j) && SafeJournal(m, j') && Advances(j, j')
    ensures Elems(j'.adopted) != Affected(m, j.plan) ==> Elems(j.adopted) != Affected(m, j.plan)
  {
    assert forall h | h in j.adopted :: h in j'.adopted;
  }

  lemma {:induction false} RestoredInOrder(m: Manifest, j: Journal, p: Host, start: Publisher, was: Publisher,
                                           pub: Publisher, x: Publisher, j': Journal)
    requires SafeJournal(m, j) && ValidPlan(m, j'.plan) && j'.plan == j.plan && j'.canaries.Keys == j.plan.canaries.Keys && p in m.nodes
    requires PublisherTracks(m, j, p, start, was)
    requires forall t | Known(j.plan, p, t) :: x.Row(t) == was.Row(t)
    requires PublisherTracks(m, j', p, pub, RebasedPublisher(j.plan, p, x, start))
    ensures InOrder(j.plan, p, pub, x)
  {
    hide RebasedPublisher, Evidence;
    var order := OrderOf(j.plan, p);
    var r := RebasedPublisher(j.plan, p, x, start);
    forall i, k | 0 <= i < k < |order|
      ensures pub.Row(order[k]) == x.Row(order[k]) || Serves(j.plan, p, pub, order[i])
    {
      assert order[i] in Elems(order) && order[k] in Elems(order);
      assert r.Row(order[k]) == start.Row(order[k]) && r.Row(order[i]) == start.Row(order[i]);
      assert RowTracks(m, j', p, order[i], pub.Row(order[i]), r.Row(order[i]));
      if pub.Row(order[k]) == r.Row(order[k]) && start.Row(order[k]) != was.Row(order[k]) {
        assert Serves(j.plan, p, start, order[i]);
      }
    }
  }

  /** What is ahead is never more than what was ahead at first. */
  lemma {:induction false} RebasedPrefix(m: Manifest, j: Journal, p: Host, pub: Publisher, was: Publisher, k: nat) returns (k': nat)
    requires SafeJournal(m, j) && p in m.nodes && PublisherTracks(m, j, p, pub, was)
    ensures forall t | t in PrefixRows(j.plan, p, RebasedPublisher(j.plan, p, was, pub), k) ::
              && t in PrefixRows(j.plan, p, was, k')
              && PrefixRows(j.plan, p, RebasedPublisher(j.plan, p, was, pub), k)[t] == PrefixRows(j.plan, p, was, k')[t]
  {
    hide RebasedPublisher, Evidence;
    var n := Progress(m, j, p, pub, was);
    k' := if k < n then n else k;
    var r := RebasedPublisher(j.plan, p, was, pub);
    forall t | t in PrefixRows(j.plan, p, r, k)
      ensures t in PrefixRows(j.plan, p, was, k') && PrefixRows(j.plan, p, r, k)[t] == PrefixRows(j.plan, p, was, k')[t]
    {
      RebasedPrefixRow(j.plan, p, pub, was, n, k, t);
    }
  }

  lemma {:induction false} RebasedPrefixRow(plan: Plan, p: Host, pub: Publisher, was: Publisher, n: nat, k: nat, t: Token)
    requires GrantsListed(plan) && n <= |OrderOf(plan, p)|
    requires forall i | 0 <= i < n :: Serves(plan, p, pub, OrderOf(plan, p)[i])
    requires forall i | n <= i < |OrderOf(plan, p)| :: pub.Row(OrderOf(plan, p)[i]) == was.Row(OrderOf(plan, p)[i])
    requires t in PrefixRows(plan, p, RebasedPublisher(plan, p, was, pub), k)
    ensures var k' := if k < n then n else k;
            && t in PrefixRows(plan, p, was, k')
            && PrefixRows(plan, p, RebasedPublisher(plan, p, was, pub), k)[t] == PrefixRows(plan, p, was, k')[t]
  {
    hide RebasedPublisher;
    var order := OrderOf(plan, p);
    var r := RebasedPublisher(plan, p, was, pub);
    var k' := if k < n then n else k;
    assert r.Row(t) == RebasedRow(plan, p, was, pub, t);
    if Known(plan, p, t) {
      var i := Place(plan, p, t, k, k');
      hide First, GrantsListed;
    } else {
      hide First, GrantsListed;
    }
  }

  /** Where a grant stands in the order, and whether it is among the first ones. */
  lemma {:induction false} Place(plan: Plan, p: Host, t: Token, k: nat, k': nat) returns (i: nat)
    requires GrantsListed(plan) && Known(plan, p, t)
    ensures i < |OrderOf(plan, p)| && OrderOf(plan, p)[i] == t
    ensures t in First(OrderOf(plan, p), k) <==> i < k
    ensures t in First(OrderOf(plan, p), k') <==> i < k'
  {
    var order := OrderOf(plan, p);
    assert t in Elems(order);
    i :| 0 <= i < |order| && order[i] == t;
  }

  // ---------------------------------------------------------------- the fleet

  lemma {:induction false} NodesAlike(m: Manifest, j: Journal, w: World, base: World, base': World)
    requires ValidPlan(m, j.plan) && base.running.Keys == m.nodes && base' == base.(pubs := base'.pubs)
    ensures NodesTrack(m, j, w, base') <==> NodesTrack(m, j, w, base)
  {
  }

  lemma {:induction false} RebasedConsistent(m: Manifest, j: Journal, w: World, base: World)
    requires Consistent(m, j, w, base)
    ensures Consistent(m, j, w, Rebased(j.plan, base, w))
    ensures !m.action.Revoke? ==> forall p | p in w.pubs :: p in base.pubs && w.pubs[p].rows == Rebased(j.plan, base, w).pubs[p].rows
    ensures Rebased(j.plan, base, w).pubs.Keys == base.pubs.Keys
    ensures forall p | p in base.pubs :: Rebased(j.plan, base, w).pubs[p].due == base.pubs[p].due
  {
    hide RebasedPublisher, PublisherPlanned, PublisherTracks, SafeJournal, GrantsListed, NodesTrack;
    var r := Rebased(j.plan, base, w);
    assert SafeJournal(m, j) && ValidPlan(m, j.plan) && j.canaries.Keys == j.plan.canaries.Keys by { JournalShape(m, j); }
    forall p | p in m.publishers
      ensures PublisherPlanned(m, j.plan, p, r.pubs[p]) && PublisherTracks(m, j, p, w.pubs[p], r.pubs[p])
      ensures !m.action.Revoke? ==> w.pubs[p].rows == r.pubs[p].rows
    {
      assert PublisherPlanned(m, j.plan, p, base.pubs[p]) && PublisherTracks(m, j, p, w.pubs[p], base.pubs[p]);
      RebasedPlanned(m, j, p, w.pubs[p], base.pubs[p]);
      RebasedTracks(m, j, p, w.pubs[p], base.pubs[p]);
      if !m.action.Revoke? {
        RebasedRows(m, j, p, w.pubs[p], base.pubs[p]);
      }
    }
    NodesAlike(m, j, w, base, r);
  }

  /** Without canaries, the rebased publisher holds exactly what is there. */
  lemma {:induction false} RebasedRows(m: Manifest, j: Journal, p: Host, pub: Publisher, was: Publisher)
    requires SafeJournal(m, j) && p in m.nodes && !m.action.Revoke? && PublisherTracks(m, j, p, pub, was)
    ensures pub.rows == RebasedPublisher(j.plan, p, was, pub).rows
  {
    hide RebasedPublisher, GrantsListed, InOrder, Evidence, Distinct;
    forall t
      ensures pub.Row(t) == RebasedPublisher(j.plan, p, was, pub).Row(t)
    {
      assert RowTracks(m, j, p, t, pub.Row(t), was.Row(t));
    }
    SameRows(pub, RebasedPublisher(j.plan, p, was, pub));
  }

  lemma {:induction false} RebasedDeliverable(m: Manifest, plan: Plan, base: World, w: World)
    requires WellPlanned(m, plan, base) && WellPlanned(m, plan, Rebased(plan, base, w))
    ensures Deliverable(m, plan, Rebased(plan, base, w)) <==> Deliverable(m, plan, base)
  {
    hide RebasedPublisher, PublisherPlanned, GrantsListed;
    forall p | p in m.publishers
      ensures PublisherDeliverable(m, plan, p, Rebased(plan, base, w).pubs[p]) <==> PublisherDeliverable(m, plan, p, base.pubs[p])
    {
      if p in w.pubs {
        DeliverableAlike(m, plan, p, base.pubs[p], RebasedPublisher(plan, p, base.pubs[p], w.pubs[p]));
      }
    }
  }

  lemma {:induction false} DeliverableAlike(m: Manifest, plan: Plan, p: Host, a: Publisher, b: Publisher)
    requires ValidPlan(m, plan) && p in m.nodes && b == a.(rows := b.rows)
    requires forall t | !Known(plan, p, t) :: b.Row(t) == a.Row(t)
    ensures PublisherDeliverable(m, plan, p, b) <==> PublisherDeliverable(m, plan, p, a)
  {
    hide GrantsListed;
    forall t | !Known(plan, p, t)
      ensures (t in b.rows <==> t in a.rows) && (t in a.rows ==> b.rows[t] == a.rows[t])
    {
      assert b.Row(t) == a.Row(t);
    }
  }

  lemma {:induction false} RebasedFinal(m: Manifest, plan: Plan, base: World, w: World)
    requires WellPlanned(m, plan, base) && WellPlanned(m, plan, Rebased(plan, base, w))
    ensures FinalWorld(m, plan, Rebased(plan, base, w)) == FinalWorld(m, plan, base)
  {
    hide RebasedPublisher, PublisherPlanned, GrantsListed, FinalPublisher;
    forall p | p in m.publishers
      ensures FinalPublisher(m, plan, p, Rebased(plan, base, w).pubs[p]) == FinalPublisher(m, plan, p, base.pubs[p])
    {
      if p in w.pubs {
        FinalAlike(m, plan, p, base.pubs[p], RebasedPublisher(plan, p, base.pubs[p], w.pubs[p]));
      }
    }
  }

  lemma {:induction false} FinalAlike(m: Manifest, plan: Plan, p: Host, a: Publisher, b: Publisher)
    requires ValidPlan(m, plan) && p in m.nodes && b == a.(rows := b.rows)
    requires forall t | !Known(plan, p, t) :: b.Row(t) == a.Row(t)
    ensures FinalPublisher(m, plan, p, b) == FinalPublisher(m, plan, p, a)
  {
    hide GrantsListed;
    forall t
      ensures FinalPublisher(m, plan, p, b).Row(t) == FinalPublisher(m, plan, p, a).Row(t)
    {
      if !Known(plan, p, t) {
        assert b.Row(t) == a.Row(t);
      }
    }
    SameRows(FinalPublisher(m, plan, p, b), FinalPublisher(m, plan, p, a));
  }

  lemma {:induction false} RebasedRoom(m: Manifest, j: Journal, w: World, base: World, n: nat)
    requires Consistent(m, j, w, base) && Room(m, j.plan, base, n)
    ensures Room(m, j.plan, Rebased(j.plan, base, w), n)
  {
    hide RebasedPublisher, PublisherPlanned, PublisherTracks, PublisherRoom, GrantsListed, NodesTrack, SafeJournal;
    assert ValidPlan(m, j.plan) && j.canaries.Keys == j.plan.canaries.Keys by { JournalShape(m, j); }
    forall p | p in m.publishers && p in base.pubs
      ensures PublisherRoom(m, j.plan, p, Rebased(j.plan, base, w).pubs[p], n)
    {
      assert PublisherTracks(m, j, p, w.pubs[p], base.pubs[p]);
      RebasedPublisherRoom(m, j, p, w.pubs[p], base.pubs[p], n);
    }
  }

  lemma {:induction false} RebasedPublisherRoom(m: Manifest, j: Journal, p: Host, pub: Publisher, was: Publisher, n: nat)
    requires SafeJournal(m, j) && p in m.nodes && PublisherTracks(m, j, p, pub, was) && PublisherRoom(m, j.plan, p, was, n)
    ensures PublisherRoom(m, j.plan, p, RebasedPublisher(j.plan, p, was, pub), n)
  {
    hide RebasedPublisher, PublisherTracks, PrefixRows, GrantsListed, SafeJournal;
    var r := RebasedPublisher(j.plan, p, was, pub);
    forall k: nat
      ensures PrefixRoom(j.plan, p, r, k, n)
    {
      var k' := RebasedPrefix(m, j, p, pub, was, k);
      assert PrefixRoom(j.plan, p, was, k', n);
      FitsBelow(PrefixRows(j.plan, p, r, k), PrefixRows(j.plan, p, was, k'));
    }
  }

  /** At first, everything is ahead. */
  lemma {:induction false} NothingAhead(m: Manifest, plan: Plan, base: World)
    requires base.pubs.Keys == m.publishers
    ensures Rebased(plan, base, base) == base
  {
    hide RebasedPublisher;
    forall p | p in base.pubs
      ensures RebasedPublisher(plan, p, base.pubs[p], base.pubs[p]) == base.pubs[p]
    {
      var r := RebasedPublisher(plan, p, base.pubs[p], base.pubs[p]);
      forall t
        ensures r.Row(t) == base.pubs[p].Row(t)
      {
        assert r.Row(t) == RebasedRow(plan, p, base.pubs[p], base.pubs[p], t);
      }
      SameRows(r, base.pubs[p]);
    }
    assert Rebased(plan, base, base).pubs == base.pubs;
  }

  // ---------------------------------------------------------------- after the attempt

  /** The fleet the operation started from, with the probe the attempt may have left. */
  lemma {:induction false} Restored(m: Manifest, j: Journal, base: World, w: World, j': Journal, w': World, base': World) returns (x: World)
    requires Consistent(m, j, w, base) && Consistent(m, j', w', base') && Advances(j, j')
    requires base' == Rebased(j.plan, base, w) || (OneProbe(j.plan, Rebased(j.plan, base, w), base') && m.device != ROUTE_CHECK)
    ensures x == base || OneProbe(j.plan, base, x)
    ensures base' == Rebased(j.plan, base, w) ==> x == base
    ensures Consistent(m, j', w', x) && base' == Rebased(j.plan, x, w)
  {
    hide RebasedPublisher, PublisherPlanned, PublisherTracks, SafeJournal, NodesTrack, GrantsListed;
    assert ValidPlan(m, j.plan) && j.canaries.Keys == j.plan.canaries.Keys by { JournalShape(m, j); }
    assert ValidPlan(m, j'.plan) && j'.canaries.Keys == j'.plan.canaries.Keys by { JournalShape(m, j'); }
    x := base;
    if base' != Rebased(j.plan, base, w) {
      var p, t, probe :| LeftBy(j.plan, Rebased(j.plan, base, w), base', p, t, probe);
      RebasedProbe(j.plan, base, w, p, t, probe);
      x := WithRow(base, p, t, probe);
      assert LeftBy(j.plan, base, x, p, t, probe);
      WellPlannedProbed(m, j.plan, base, p, t, probe);
    }
    RestoredConsistent(m, j, base, w, j', w', x);
  }

  lemma {:induction false} RebasedProbe(plan: Plan, base: World, w: World, p: Host, t: Token, probe: Envelope)
    requires p in base.pubs && p in w.pubs && t !in Rebased(plan, base, w).pubs[p].rows && !Known(plan, p, t)
    ensures t !in base.pubs[p].rows
    ensures Rebased(plan, WithRow(base, p, t, probe), w) == WithRow(Rebased(plan, base, w), p, t, probe)
  {
    hide RebasedPublisher;
    var r := RebasedPublisher(plan, p, base.pubs[p], w.pubs[p]);
    assert r.Row(t) == base.pubs[p].Row(t);
    var probed := base.pubs[p].(rows := base.pubs[p].rows[t := probe]);
    var after := RebasedPublisher(plan, p, probed, w.pubs[p]);
    forall u
      ensures after.Row(u) == r.(rows := r.rows[t := probe]).Row(u)
    {
      assert after.Row(u) == RebasedRow(plan, p, probed, w.pubs[p], u);
      assert r.Row(u) == RebasedRow(plan, p, base.pubs[p], w.pubs[p], u);
    }
    SameRows(after, r.(rows := r.rows[t := probe]));
    assert Rebased(plan, WithRow(base, p, t, probe), w).pubs == WithRow(Rebased(plan, base, w), p, t, probe).pubs;
  }

  lemma {:induction false} RestoredConsistent(m: Manifest, j: Journal, base: World, w: World, j': Journal, w': World, x: World)
    requires Consistent(m, j, w, base) && Consistent(m, j', w', Rebased(j.plan, x, w)) && Advances(j, j')
    requires WellPlanned(m, j.plan, x) && (x == base || OneProbe(j.plan, base, x))
    ensures Consistent(m, j', w', x)
  {
    hide RebasedPublisher, PublisherPlanned, PublisherTracks, SafeJournal, GrantsListed, NodesTrack, OneProbe;
    assert ValidPlan(m, j.plan) && j.canaries.Keys == j.plan.canaries.Keys by { JournalShape(m, j); }
    assert ValidPlan(m, j'.plan) && j'.canaries.Keys == j'.plan.canaries.Keys by { JournalShape(m, j'); }
    forall p | p in m.publishers
      ensures PublisherTracks(m, j', p, w'.pubs[p], x.pubs[p])
    {
      assert PublisherTracks(m, j, p, w.pubs[p], base.pubs[p]);
      assert PublisherTracks(m, j', p, w'.pubs[p], RebasedPublisher(j.plan, p, x.pubs[p], w.pubs[p]));
      KnownUntouched(j.plan, base, x, p);
      RestoredTracks(m, j, j', p, w.pubs[p], base.pubs[p], w'.pubs[p], x.pubs[p]);
    }
    NodesAlike(m, j', w', x, Rebased(j.plan, x, w));
  }

  lemma {:induction false} KnownUntouched(plan: Plan, base: World, x: World, p: Host)
    requires (x == base || OneProbe(plan, base, x)) && p in base.pubs
    ensures p in x.pubs && x.pubs[p] == base.pubs[p].(rows := x.pubs[p].rows)
    ensures forall t | Known(plan, p, t) :: x.pubs[p].Row(t) == base.pubs[p].Row(t)
  {
    if x != base {
      var q, u, probe :| LeftBy(plan, base, x, q, u, probe);
    }
  }
}
