/**
 Outbound graphs of a sing-box bundle, and what it means for a tag to stay off direct
 egress.  Nothing here depends on the order in which tags or children are visited.
 */
module OutboundGraph {
  import opened Wrappers

  /** A reference to an outbound: a string, or some other value. */
  datatype Ref = Named(tag: string) | NotAString

  datatype Children = Absent | Malformed | Listed(refs: seq<Ref>)

  /** `tag` and `kind` are None when the value is not a string. */
  datatype Outbound =
    | NotAnObject
    | Outbound(tag: Option<string>, kind: Option<string>, children: Children, domainStrategy: string)

  type Graph = map<string, Outbound>

  datatype Node = Direct | Leaf | Broken | Group(refs: seq<Ref>)

  predicate Usable(text: Option<string>) {
    text.Some? && text.value != ""
  }

  function NodeOf(o: Outbound): Node {
    match o
    case NotAnObject => Broken
    case Outbound(_, kind, children, _) =>
      if kind == Some("direct") then Direct
      else if children.Absent? && kind != Some("selector") && kind != Some("urltest") then Leaf
      else if children.Listed? && children.refs != [] then Group(children.refs)
      else Broken
  }

  predicate Defined(g: Graph, ref: Ref) {
    ref.Named? && ref.tag != "" && ref.tag in g
  }

  /** `tag` is a non-direct leaf, or a group all of whose children are, within `n` levels. */
  ghost predicate SafeWithin(g: Graph, ref: Ref, n: nat)
    decreases n
  {
    n > 0 && Defined(g, ref) &&
    match NodeOf(g[ref.tag])
    case Leaf => true
    case Group(refs) => forall i | 0 <= i < |refs| :: SafeWithin(g, refs[i], n - 1)
    case _ => false
  }

  /** The least set of tags that cannot reach direct egress. */
  ghost predicate Safe(g: Graph, ref: Ref) {
    exists n: nat :: SafeWithin(g, ref, n)
  }

  /** `ref` is the first child of group `tag` that is not known to be safe. */
  ghost predicate NextAt(g: Graph, tag: string, i: nat, ref: Ref) {
    && tag in g && NodeOf(g[tag]).Group?
    && i < |NodeOf(g[tag]).refs| && NodeOf(g[tag]).refs[i] == ref
    && forall k | 0 <= k < i :: Safe(g, NodeOf(g[tag]).refs[k])
  }

  /** Following first unsafe children from `ref` ends at a direct outbound. */
  ghost predicate DirectWithin(g: Graph, ref: Ref, n: nat)
    decreases n
  {
    n > 0 && Defined(g, ref) && !Safe(g, ref) &&
    match NodeOf(g[ref.tag])
    case Direct => true
    case Group(refs) => exists i: nat :: i < |refs| && NextAt(g, ref.tag, i, refs[i]) && DirectWithin(g, refs[i], n - 1)
    case _ => false
  }

  ghost predicate PlainlyDirect(g: Graph, ref: Ref) {
    exists n: nat :: DirectWithin(g, ref, n)
  }

  /** The reference resolves without any structural defect in its way. */
  ghost predicate Resolved(g: Graph, ref: Ref) {
    Safe(g, ref) || PlainlyDirect(g, ref)
  }

  lemma {:induction false} SafeWithinMore(g: Graph, ref: Ref, n: nat, m: nat)
    requires SafeWithin(g, ref, n) && n <= m
    ensures SafeWithin(g, ref, m)
    decreases n
  {
    var node := NodeOf(g[ref.tag]);
    if node.Group? {
      forall i | 0 <= i < |node.refs|
        ensures SafeWithin(g, node.refs[i], m - 1)
      {
        SafeWithinMore(g, node.refs[i], n - 1, m - 1);
      }
    }
  }

  lemma {:induction false} CommonBound(g: Graph, refs: seq<Ref>) returns (n: nat)
    requires forall i | 0 <= i < |refs| :: Safe(g, refs[i])
    ensures forall i | 0 <= i < |refs| :: SafeWithin(g, refs[i], n)
  {
    n := 0;
    if refs != [] {
      var m := CommonBound(g, refs[..|refs| - 1]);
      var last := refs[|refs| - 1];
      var k: nat :| SafeWithin(g, last, k);
      n := m + k;
      forall i | 0 <= i < |refs|
        ensures SafeWithin(g, refs[i], n)
      {
        if i < |refs| - 1 {
          assert refs[..|refs| - 1][i] == refs[i];
          SafeWithinMore(g, refs[i], m, n);
        } else {
          SafeWithinMore(g, last, k, n);
        }
      }
    }
  }

  /** The defining equation of the least set. */
  lemma {:induction false} SafeEquation(g: Graph, ref: Ref)
    ensures Safe(g, ref) <==>
              Defined(g, ref) &&
              match NodeOf(g[ref.tag])
              case Leaf => true
              case Group(refs) => forall i | 0 <= i < |refs| :: Safe(g, refs[i])
              case _ => false
  {
    if Defined(g, ref) {
      var node := NodeOf(g[ref.tag]);
      if node.Leaf? {
        assert SafeWithin(g, ref, 1);
      } else if node.Group? {
        if Safe(g, ref) {
          var n: nat :| SafeWithin(g, ref, n);
          forall i | 0 <= i < |node.refs|
            ensures Safe(g, node.refs[i])
          {
            assert SafeWithin(g, node.refs[i], n - 1);
          }
        }
        if forall i | 0 <= i < |node.refs| :: Safe(g, node.refs[i]) {
          var n := CommonBound(g, node.refs);
          assert SafeWithin(g, ref, n + 1);
        }
      }
    }
  }

  /** An entry with nothing usable behind it: no object, a selection without members, or a malformed list. */
  predicate Unusable(o: Outbound) {
    || o.NotAnObject?
    || (o.kind != Some("direct")
        && (o.children == Listed([]) || o.children.Malformed?
            || (o.children.Absent? && (o.kind == Some("selector") || o.kind == Some("urltest")))))
  }

  /** What one entry is, read off its fields. */
  lemma {:induction false} FieldsDecide(g: Graph, tag: string)
    requires tag in g && tag != ""
    ensures Unusable(g[tag]) ==> !Safe(g, Named(tag)) && !PlainlyDirect(g, Named(tag))
    ensures g[tag].Outbound? && g[tag].kind == Some("direct") ==> !Safe(g, Named(tag)) && PlainlyDirect(g, Named(tag))
    ensures g[tag].Outbound? && g[tag].kind != Some("direct") && g[tag].children.Absent? && !Unusable(g[tag]) ==> Safe(g, Named(tag))
    ensures g[tag].Outbound? && g[tag].kind != Some("direct") && g[tag].children.Listed? && g[tag].children.refs != [] ==>
              (Safe(g, Named(tag)) <==> forall i | 0 <= i < |g[tag].children.refs| :: Safe(g, g[tag].children.refs[i]))
  {
    SafeEquation(g, Named(tag));
    if g[tag].Outbound? && g[tag].kind == Some("direct") {
      assert DirectWithin(g, Named(tag), 1);
    }
  }

  /** It is the least: any set closed under the same equation contains it. */
  lemma {:induction false} SafeIsLeast(g: Graph, closed: set<string>, ref: Ref, n: nat)
    requires forall t | t in g && t != "" && NodeOf(g[t]).Leaf? :: t in closed
    requires forall t | t in g && t != "" && NodeOf(g[t]).Group? &&
               (forall r | r in NodeOf(g[t]).refs :: r.Named? && r.tag in closed) :: t in closed
    requires SafeWithin(g, ref, n)
    ensures ref.tag in closed
    decreases n
  {
    var node := NodeOf(g[ref.tag]);
    if node.Group? {
      forall r | r in node.refs
        ensures r.Named? && r.tag in closed
      {
        var i :| 0 <= i < |node.refs| && node.refs[i] == r;
        SafeIsLeast(g, closed, node.refs[i], n - 1);
      }
    }
  }

  /** A trail leads through first children that were not known to be safe. */
  ghost predicate Leads(g: Graph, tag: string, ref: Ref) {
    exists i: nat :: NextAt(g, tag, i, ref)
  }

  ghost predicate Trail(g: Graph, trail: seq<string>, ref: Ref) {
    && (forall i | 0 <= i < |trail| :: trail[i] in g && trail[i] != "")
    && (forall i | 0 <= i < |trail| - 1 :: Leads(g, trail[i], Named(trail[i + 1])))
    && (trail != [] ==> Leads(g, trail[|trail| - 1], ref))
  }

  lemma {:induction false} TrailDescends(g: Graph, trail: seq<string>, ref: Ref, n: nat)
    requires trail != [] && Trail(g, trail, ref) && SafeWithin(g, Named(trail[0]), n)
    ensures |trail| < n && SafeWithin(g, ref, n - |trail|)
    decreases |trail|
  {
    var next := if |trail| == 1 then ref else Named(trail[1]);
    assert Leads(g, trail[0], next);
    var i: nat :| NextAt(g, trail[0], i, next);
    assert SafeWithin(g, next, n - 1);
    if |trail| > 1 {
      TrailStep(g, trail, ref);
      TrailDescends(g, trail[1..], ref, n - 1);
    }
  }

  lemma {:induction false} TrailStep(g: Graph, trail: seq<string>, ref: Ref)
    requires |trail| > 1 && Trail(g, trail, ref)
    ensures Trail(g, trail[1..], ref)
  {
    forall i | 0 <= i < |trail[1..]| - 1
      ensures Leads(g, trail[1..][i], Named(trail[1..][i + 1]))
    {
      assert Leads(g, trail[i + 1], Named(trail[i + 2]));
    }
  }

  lemma {:induction false} CycleUnsafe(g: Graph, trail: seq<string>, n: nat)
    requires trail != [] && Trail(g, trail, Named(trail[0]))
    ensures !SafeWithin(g, Named(trail[0]), n)
    decreases n
  {
    if SafeWithin(g, Named(trail[0]), n) {
      TrailDescends(g, trail, Named(trail[0]), n);
      CycleUnsafe(g, trail, n - |trail|);
    }
  }

  /** A child reached after safe siblings only is the unique next one of an unsafe group. */
  lemma {:induction false} NextUnique(g: Graph, tag: string, i: nat, j: nat, a: Ref, b: Ref)
    requires NextAt(g, tag, i, a) && NextAt(g, tag, j, b) && !Safe(g, a) && !Safe(g, b)
    ensures a == b
  {
  }

  lemma {:induction false} DirectFollows(g: Graph, trail: seq<string>, ref: Ref, n: nat)
    requires trail != [] && Trail(g, trail, ref) && DirectWithin(g, Named(trail[0]), n)
    requires !Safe(g, ref) && forall i | 0 <= i < |trail| :: !Safe(g, Named(trail[i]))
    ensures |trail| < n && DirectWithin(g, ref, n - |trail|)
    decreases |trail|
  {
    var next := if |trail| == 1 then ref else Named(trail[1]);
    assert Leads(g, trail[0], next);
    var i: nat :| NextAt(g, trail[0], i, next);
    var refs := NodeOf(g[trail[0]]).refs;
    var k: nat :| k < |refs| && NextAt(g, trail[0], k, refs[k]) && DirectWithin(g, refs[k], n - 1);
    NextUnique(g, trail[0], i, k, next, refs[k]);
    if |trail| > 1 {
      TrailStep(g, trail, ref);
      DirectFollows(g, trail[1..], ref, n - 1);
    }
  }

  lemma {:induction false} CycleNotDirect(g: Graph, trail: seq<string>, n: nat)
    requires trail != [] && Trail(g, trail, Named(trail[0]))
    requires forall i | 0 <= i < |trail| :: !Safe(g, Named(trail[i]))
    ensures !DirectWithin(g, Named(trail[0]), n)
    decreases n
  {
    if DirectWithin(g, Named(trail[0]), n) {
      DirectFollows(g, trail, Named(trail[0]), n);
      CycleNotDirect(g, trail, n - |trail|);
    }
  }

  /** An unsafe child makes every group on the trail to it unsafe. */
  lemma {:induction false} UnsafeTrail(g: Graph, trail: seq<string>, ref: Ref, i: nat)
    requires Trail(g, trail, ref) && !Safe(g, ref) && i < |trail|
    ensures !Safe(g, Named(trail[i]))
    decreases |trail| - i
  {
    var next := if i == |trail| - 1 then ref else Named(trail[i + 1]);
    if i < |trail| - 1 {
      UnsafeTrail(g, trail, ref, i + 1);
    }
    assert Leads(g, trail[i], next);
    SafeEquation(g, Named(trail[i]));
  }

  /** A tag met again on its own trail is unsafe, and not merely direct. */
  lemma {:induction false} TrailCycle(g: Graph, trail: seq<string>, tag: string)
    requires Trail(g, trail, Named(tag)) && tag in trail
    ensures !Safe(g, Named(tag)) && !PlainlyDirect(g, Named(tag))
  {
    var i :| 0 <= i < |trail| && trail[i] == tag;
    var loop := trail[i..];
    TrailSuffix(g, trail, Named(tag), i);
    forall n: nat
      ensures !SafeWithin(g, Named(tag), n)
    {
      CycleUnsafe(g, loop, n);
    }
    forall k | 0 <= k < |loop|
      ensures !Safe(g, Named(loop[k]))
    {
      UnsafeTrail(g, loop, Named(tag), k);
    }
    forall n: nat
      ensures !DirectWithin(g, Named(tag), n)
    {
      CycleNotDirect(g, loop, n);
    }
  }

  lemma {:induction false} TrailSuffix(g: Graph, trail: seq<string>, ref: Ref, i: nat)
    requires Trail(g, trail, ref) && i < |trail|
    ensures Trail(g, trail[i..], ref)
  {
    forall k | 0 <= k < |trail[i..]| - 1
      ensures Leads(g, trail[i..][k], Named(trail[i..][k + 1]))
    {
      assert Leads(g, trail[i + k], Named(trail[i + k + 1]));
    }
  }

  /** Which groups resolve: the first unsafe child decides. */
  lemma {:induction false} GroupResolved(g: Graph, tag: string, i: nat, child: Ref)
    requires tag != "" && NextAt(g, tag, i, child) && !Safe(g, child)
    ensures !Safe(g, Named(tag))
    ensures PlainlyDirect(g, Named(tag)) <==> PlainlyDirect(g, child)
  {
    SafeEquation(g, Named(tag));
    var refs := NodeOf(g[tag]).refs;
    if PlainlyDirect(g, Named(tag)) {
      var n: nat :| DirectWithin(g, Named(tag), n);
      var k: nat :| k < |refs| && NextAt(g, tag, k, refs[k]) && DirectWithin(g, refs[k], n - 1);
      NextUnique(g, tag, i, k, child, refs[k]);
    }
    if PlainlyDirect(g, child) {
      var n: nat :| DirectWithin(g, child, n);
      assert DirectWithin(g, Named(tag), n + 1);
    }
  }

  /** A graph without defects may still be cyclic: a direct first child ends the search. */
  lemma {:induction false} CycleBehindDirect()
    ensures exists g: Graph ::
              && (forall t | t in g :: Resolved(g, Named(t)))
              && "loop" in g && NodeOf(g["loop"]) == Group([Named("direct"), Named("loop")])
  {
    var direct := Outbound(Some("direct"), Some("direct"), Absent, "");
    var loop := Outbound(Some("loop"), Some("selector"), Listed([Named("direct"), Named("loop")]), "");
    var g := map["direct" := direct, "loop" := loop];
    SafeEquation(g, Named("direct"));
    assert DirectWithin(g, Named("direct"), 1);
    assert NextAt(g, "loop", 0, Named("direct"));
    GroupResolved(g, "loop", 0, Named("direct"));
    forall t | t in g
      ensures Resolved(g, Named(t))
    {
      assert t == "direct" || t == "loop";
    }
  }
}
