/**
 How many bytes a journal takes, and the most it can ever take.  What never changes, the intent
 and all field names, is one number; the phase, the evidence lists and the canary flags are
 counted as compact JSON.
 */
module LifecycleSizes {
  import opened Wrappers
  import opened Sums
  import opened SubscriptionPublisher
  import opened LifecycleJournal

  /** Half of the four mebibytes an encrypted document may have. */
  const JOURNAL_LIMIT: nat := 2 * 1024 * 1024

  function PhaseBytes(phase: Phase): nat {
    match phase
    case Prepared => |"prepared"|
    case AuthorityWritten => |"authority-written"|
    case RuntimeAdopted => |"runtime-adopted"|
    case Complete => |"complete"|
  }

  function ItemsBytes<T>(items: seq<T>, f: T -> nat): nat {
    if items == [] then 0 else ItemsBytes(items[..|items| - 1], f) + f(items[|items| - 1])
  }

  /** Brackets, and a comma between items; an item counts with its quotes and one comma. */
  function ListBytes<T>(items: seq<T>, f: T -> nat): nat {
    if items == [] then 2 else 1 + ItemsBytes(items, f)
  }

  function HostItem(host: Host): nat {
    |host| + 3
  }

  function GrantItem(grant: (Host, Token)): nat {
    |grant.0| + 1 + |grant.1| + 3
  }

  function FlagBytes(flag: bool): nat {
    if flag then 4 else 5
  }

  function StateBytes(c: CanaryState): nat {
    FlagBytes(c.positive) + FlagBytes(c.cleanupStarted) + FlagBytes(c.cleaned)
  }

  function StateAt(canaries: map<Host, CanaryState>, h: Host): nat {
    if h in canaries then StateBytes(canaries[h]) else 0
  }

  ghost function CanaryBytes(canaries: map<Host, CanaryState>): nat {
    Sum(canaries.Keys, h => StateAt(canaries, h))
  }

  ghost function JournalBytes(j: Journal): nat {
    PhaseBytes(j.phase) + ListBytes(j.written, HostItem) + ListBytes(j.adopted, HostItem) + ListBytes(j.published, GrantItem)
    + CanaryBytes(j.canaries)
  }

  /** The save's own count. */
  method MeasureJournal(j: Journal) returns (n: nat)
    ensures n == JournalBytes(j)
  {
    var todo := j.canaries.Keys;
    ghost var f := h => StateAt(j.canaries, h);
    n := 0;
    while todo != {}
      invariant todo <= j.canaries.Keys && n + Sum(todo, f) == CanaryBytes(j.canaries)
    {
      var host :| host in todo;
      SumWithout(todo, host, f);
      n := n + StateBytes(j.canaries[host]);
      todo := todo - {host};
    }
    n := n + PhaseBytes(j.phase) + ListBytes(j.written, HostItem) + ListBytes(j.adopted, HostItem) + ListBytes(j.published, GrantItem);
  }

  // ---------------------------------------------------------------- the fullest journal

  ghost function SetBytes<T(!new)>(items: set<T>, f: T -> nat): nat {
    if items == {} then 2 else 1 + Sum(items, f)
  }

  /** A journal resumed after its last publication, before any cleanup: all lists full in the longest phase. */
  ghost function FullBytes(m: Manifest, plan: Plan): nat
    requires ValidPlan(m, plan)
  {
    PhaseBytes(AuthorityWritten) + SetBytes(m.nodes, HostItem) + SetBytes(Affected(m, plan), HostItem)
    + SetBytes(GrantIds(plan), GrantItem) + 14 * |plan.canaries|
  }

  /** The first journal: empty lists, and three unset flags for each canary. */
  function FirstBytes(m: Manifest): nat {
    PhaseBytes(Prepared) + 6 + if m.action.Revoke? then 15 * |m.publishers| else 0
  }

  /** No save of this operation, in any history, passes the limit. */
  ghost predicate JournalRoom(m: Manifest, plan: Plan, intent: nat) {
    ValidPlan(m, plan) && intent + FullBytes(m, plan) <= JOURNAL_LIMIT
  }

  lemma {:induction false} ItemsAreSum<T(!new)>(items: seq<T>, f: T -> nat)
    requires Distinct(items)
    ensures ItemsBytes(items, f) == Sum(Elems(items), f)
    ensures ListBytes(items, f) == SetBytes(Elems(items), f)
    decreases |items|
  {
    if items != [] {
      var init, last := items[..|items| - 1], items[|items| - 1];
      ItemsAreSum(init, f);
      assert last !in Elems(init);
      assert Elems(items) == Elems(init) + {last};
      SumWith(Elems(init), last, f);
    }
  }

  lemma {:induction false} SetBytesBelow<T(!new)>(s: set<T>, t: set<T>, f: T -> nat)
    requires s <= t && forall x :: f(x) > 0
    ensures SetBytes(s, f) <= SetBytes(t, f)
  {
    SumBelow(s, t, f, f);
    if s == {} && t != {} {
      var x :| x in t;
      SumWithout(t, x, f);
    }
  }

  lemma {:induction false} SumConstant<T(!new)>(s: set<T>, k: nat)
    ensures Sum(s, x => k) == k * |s|
    decreases |s|
  {
    if x :| x in s {
      SumWithout(s, x, x => k);
      SumConstant(s - {x}, k);
    }
  }

  lemma {:induction false} FlagsBelow(canaries: map<Host, CanaryState>, k: nat)
    requires forall h | h in canaries :: StateBytes(canaries[h]) <= k
    ensures CanaryBytes(canaries) <= k * |canaries|
  {
    SumBelow(canaries.Keys, canaries.Keys, h => StateAt(canaries, h), h => k);
    SumConstant(canaries.Keys, k);
  }

  lemma {:induction false} SameCount<A, B>(a: map<Host, A>, b: map<Host, B>)
    requires a.Keys == b.Keys
    ensures |a| == |b|
  {
    assert |a| == |a.Keys| && |b| == |b.Keys|;
  }

  /** Before every canary is positive nothing is recorded. */
  lemma {:induction false} NothingWritten(m: Manifest, j: Journal)
    requires SafeJournal(m, j) && m.publishers <= m.nodes && !AllPositive(j)
    ensures j.written == [] && j.adopted == [] && j.published == [] && j.phase.Prepared? && m.nodes != {}
  {
    var h :| h in j.canaries && !j.canaries[h].positive;
    assert h in m.nodes;
    assert Elems(j.written) == {};
    SomeItem(j.adopted);
    assert h in Affected(m, j.plan) && h !in Elems(j.adopted);
  }

  lemma {:induction false} SomeItem<T>(items: seq<T>)
    ensures items == [] <==> Elems(items) == {}
  {
    if items != [] {
      assert items[0] in Elems(items);
    }
  }

  lemma {:induction false} NodesCount(m: Manifest, j: Journal)
    requires SafeJournal(m, j) && m.publishers <= m.nodes
    ensures Sum(m.nodes, HostItem) >= 3 * |j.plan.canaries|
  {
    SumBelow(m.nodes, m.nodes, h => 3, HostItem);
    SumConstant(m.nodes, 3);
    KeysBelow(j.plan.canaries.Keys, m.nodes);
    assert |j.plan.canaries| == |j.plan.canaries.Keys|;
  }

  /** What a journal before cleanup takes, once all nodes are written and all runtimes adopted. */
  lemma {:induction false} AdoptedExact(m: Manifest, j: Journal)
    requires SafeJournal(m, j) && AllPositive(j)
    requires Elems(j.written) == m.nodes && Elems(j.adopted) == Affected(m, j.plan)
    requires forall h | h in j.canaries :: !j.canaries[h].cleanupStarted
    ensures JournalBytes(j) == PhaseBytes(j.phase) + SetBytes(m.nodes, HostItem) + SetBytes(Affected(m, j.plan), HostItem)
                               + ListBytes(j.published, GrantItem) + 14 * |j.plan.canaries|
    ensures ListBytes(j.published, GrantItem) == SetBytes(Elems(j.published), GrantItem)
  {
    hide Sum, Affected, GrantIds, Distinct, Elems;
    ItemsAreSum(j.written, HostItem);
    ItemsAreSum(j.adopted, HostItem);
    ItemsAreSum(j.published, GrantItem);
    SameCount(j.canaries, j.plan.canaries);
    SumConstant(j.canaries.Keys, 14);
    SumBelow(j.canaries.Keys, j.canaries.Keys, h => StateAt(j.canaries, h), h => 14);
    SumBelow(j.canaries.Keys, j.canaries.Keys, h => 14, h => StateAt(j.canaries, h));
  }

  // ---------------------------------------------------------------- one run

  /**
   The most one run saves: with everything adopted, either in the longest phase with the grants that
   were recorded before it began, or in the next one with all of them.
   */
  ghost function RunBytes(m: Manifest, plan: Plan, begun: seq<(Host, Token)>): nat
    requires ValidPlan(m, plan)
  {
    var first := PhaseBytes(AuthorityWritten) + ListBytes(begun, GrantItem);
    var last := PhaseBytes(RuntimeAdopted) + SetBytes(GrantIds(plan), GrantItem);
    SetBytes(m.nodes, HostItem) + SetBytes(Affected(m, plan), HostItem) + 14 * |plan.canaries|
    + if first < last then last else first
  }

  ghost predicate RunRoom(m: Manifest, plan: Plan, begun: seq<(Host, Token)>, intent: nat) {
    ValidPlan(m, plan) && intent + RunBytes(m, plan, begun) <= JOURNAL_LIMIT
  }

  /** Until its runtimes are adopted, a run records no grants. */
  predicate Begun(j: Journal, begun: seq<(Host, Token)>) {
    j.phase.Prepared? || j.phase.AuthorityWritten? ==> j.published == begun
  }

  lemma {:induction false} JournalBelowRun(m: Manifest, j: Journal, begun: seq<(Host, Token)>)
    requires SafeJournal(m, j) && m.publishers <= m.nodes && Begun(j, begun)
    ensures JournalBytes(j) <= RunBytes(m, j.plan, begun)
  {
    hide Sum, Affected, GrantIds, Distinct, Elems;
    ItemsAreSum(j.written, HostItem);
    ItemsAreSum(j.adopted, HostItem);
    ItemsAreSum(j.published, GrantItem);
    SetBytesBelow(Elems(j.written), m.nodes, HostItem);
    SetBytesBelow(Elems(j.adopted), Affected(m, j.plan), HostItem);
    SetBytesBelow(Elems(j.published), GrantIds(j.plan), GrantItem);
    SameCount(j.canaries, j.plan.canaries);
    if AllPositive(j) {
      FlagsBelow(j.canaries, 14);
    } else {
      FlagsBelow(j.canaries, 15);
      NothingWritten(m, j);
      NodesCount(m, j);
    }
  }

  /** Both of the largest journals of a run fit only where the run has room. */
  lemma {:induction false} RunNeedsRoom(m: Manifest, a: Journal, b: Journal, intent: nat)
    requires SafeJournal(m, a) && SafeJournal(m, b) && b.plan == a.plan && AllPositive(a) && AllPositive(b)
    requires a.phase.AuthorityWritten? && Elems(a.written) == m.nodes && Elems(a.adopted) == Affected(m, a.plan)
    requires b.phase.RuntimeAdopted? && Elems(b.written) == m.nodes && Elems(b.published) == GrantIds(b.plan)
    requires forall h | h in a.canaries :: !a.canaries[h].cleanupStarted
    requires forall h | h in b.canaries :: !b.canaries[h].cleanupStarted
    requires intent + JournalBytes(a) <= JOURNAL_LIMIT && intent + JournalBytes(b) <= JOURNAL_LIMIT
    ensures RunRoom(m, a.plan, a.published, intent)
  {
    AdoptedExact(m, a);
    AdoptedExact(m, b);
  }

  /** A run needs at most the room of all runs, and exactly that once all grants are recorded. */
  lemma {:induction false} RunWithinFull(m: Manifest, j: Journal)
    requires SafeJournal(m, j)
    ensures RunBytes(m, j.plan, j.published) <= FullBytes(m, j.plan)
    ensures Elems(j.published) == GrantIds(j.plan) ==> RunBytes(m, j.plan, j.published) == FullBytes(m, j.plan)
  {
    hide Sum, Affected, GrantIds, Distinct, Elems, Evidence;
    ItemsAreSum(j.published, GrantItem);
    SetBytesBelow(Elems(j.published), GrantIds(j.plan), GrantItem);
  }

  /** Every safe journal takes at most as much as the fullest one. */
  lemma {:induction false} JournalBelow(m: Manifest, j: Journal)
    requires SafeJournal(m, j) && m.publishers <= m.nodes
    ensures JournalBytes(j) <= FullBytes(m, j.plan)
  {
    hide SafeJournal, JournalBytes, FullBytes, RunBytes;
    JournalBelowRun(m, j, j.published);
    RunWithinFull(m, j);
  }

  /** A full journal before cleanup takes exactly the fullest size in the longest phase. */
  lemma {:induction false} FullExact(m: Manifest, j: Journal)
    requires SafeJournal(m, j) && j.phase.AuthorityWritten? && AllPositive(j)
    requires Elems(j.written) == m.nodes && Elems(j.adopted) == Affected(m, j.plan) && Elems(j.published) == GrantIds(j.plan)
    requires forall h | h in j.canaries :: !j.canaries[h].cleanupStarted
    ensures JournalBytes(j) == FullBytes(m, j.plan)
  {
    hide SafeJournal, JournalBytes, SetBytes, ListBytes;
    AdoptedExact(m, j);
  }

  lemma {:induction false} Listed<T(!new)>(s: set<T>) returns (q: seq<T>)
    ensures Distinct(q) && Elems(q) == s
    decreases |s|
  {
    if s == {} {
      q := [];
    } else {
      var x :| x in s;
      var rest := Listed(s - {x});
      q := rest + [x];
      assert x !in Elems(rest);
      assert Elems(q) == Elems(rest) + {x};
    }
  }

  /** The room is exactly what every safe journal of the plan takes; there is one of the fullest size. */
  lemma {:induction false} JournalRoomExact(m: Manifest, plan: Plan, intent: nat)
    requires ValidPlan(m, plan) && m.publishers <= m.nodes
    ensures JournalRoom(m, plan, intent) <==>
            forall j | SafeJournal(m, j) && j.plan == plan :: intent + JournalBytes(j) <= JOURNAL_LIMIT
  {
    hide SafeJournal, JournalBytes, FullBytes;
    forall j | SafeJournal(m, j) && j.plan == plan
      ensures JournalBytes(j) <= FullBytes(m, plan)
    {
      JournalBelow(m, j);
    }
    var full := Fullest(m, plan);
  }

  lemma {:induction false} Fullest(m: Manifest, plan: Plan) returns (j: Journal)
    requires ValidPlan(m, plan) && m.publishers <= m.nodes
    ensures SafeJournal(m, j) && j.plan == plan && JournalBytes(j) == FullBytes(m, plan)
    ensures j.phase.AuthorityWritten? && Elems(j.written) == m.nodes && Elems(j.adopted) == Affected(m, plan)
    ensures forall h | h in j.canaries :: j.canaries[h] == CanaryState(true, false, false)
  {
    hide Sum, Distinct, JournalBytes, FullBytes;
    var written := Listed(m.nodes);
    var adopted := Listed(Affected(m, plan));
    var published := Listed(GrantIds(plan));
    var canaries := map h | h in plan.canaries :: CanaryState(true, false, false);
    j := Journal(m.action, m.device, plan, AuthorityWritten, written, adopted, published, canaries,
                 if m.action.Revoke? then Some(plan) else None);
    FullExact(m, j);
  }
}
