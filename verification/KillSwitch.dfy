/** The kill-switch checker: a memoised resolver over the outbound graph, and the bundle rules K1 to K5. */
module KillSwitch {
  import opened Wrappers
  import opened OutboundGraph

  datatype Finding =
    | BundleNotAnObject
    | InboundsMalformed
    | NoTun
    | SeveralTuns
    | AutoRouteOff
    | StrictRouteOff
    | CapturePolicy(field: string)
    | MptcpExcluded
    | NamespaceLimited
    | AddressListMissing
    | InvalidPrefix(index: nat)
    | NoIPv4Prefix
    | NoIPv6Prefix
    | NoSniff
    | OutboundsMalformed
    | OutboundNotAnObject(index: nat)
    | NoUsableTag(index: nat)
    | DuplicateTag(tag: string)
    | NoUsableType(index: nat)
    | InvalidReference
    | Cycle(path: seq<string>)
    | UndefinedReference(tag: string)
    | NoUsableChildren(tag: string)
    | RouteMalformed
    | FinalDirect
    | FinalUnexpected
    | FinalLeaks
    | RulesMalformed
    | RuleNotAnObject(index: nat)
    | RuleBypasses(index: nat)
    | RuleWithoutOutbound(index: nat)
    | RuleLeaks(index: nat)
    | DnsMalformed
    | NoTunneledResolver
    | ServerNotAnObject(index: nat)
    | DetourLeaks(index: nat)
    | StrategyLeaks(index: nat)

  datatype Prefix = IPv4 | IPv6 | Invalid

  /** `captured` names the selection policies that are present and not empty lists. */
  datatype Tun = Tun(autoRoute: bool, strictRoute: bool, captured: seq<string>, excludeMptcp: bool, netns: bool,
                     addresses: Option<seq<Prefix>>)

  datatype Inbound = TunInbound(tun: Tun) | OtherInbound

  datatype Rule = RuleMalformed | Rule(action: string, outbound: Option<Ref>)

  datatype Server = ServerMalformed | Server(detour: Option<Ref>)

  datatype Route = Route(final: Option<string>, rules: Option<seq<Rule>>)

  /** None stands for a value of the wrong JSON type throughout. */
  datatype Bundle =
    | NoBundle
    | Bundle(inbounds: Option<seq<Inbound>>, outbounds: Option<seq<Outbound>>, route: Option<Route>,
             dns: Option<Option<seq<Server>>>)

  // ---------------------------------------------------------------- the graph that is indexed

  /** First definition of each usable tag. */
  function IndexOf(outbounds: seq<Outbound>): (g: Graph)
    ensures forall t | t in g :: t != "" && g[t].Outbound? && g[t].tag == Some(t)
  {
    if outbounds == [] then map[] else
    var g := IndexOf(outbounds[..|outbounds| - 1]);
    var last := outbounds[|outbounds| - 1];
    if last.Outbound? && Usable(last.tag) && last.tag.value !in g then g[last.tag.value := last] else g
  }

  /** Objects with distinct usable tags and usable types. */
  predicate WellFormed(outbounds: seq<Outbound>) {
    && (forall i | 0 <= i < |outbounds| ::
          outbounds[i].Outbound? && Usable(outbounds[i].tag) && Usable(outbounds[i].kind))
    && (forall i, j | 0 <= i < j < |outbounds| ::
          outbounds[i].Outbound? && outbounds[j].Outbound? ==> outbounds[i].tag != outbounds[j].tag)
  }

  lemma {:induction false} IndexTags(outbounds: seq<Outbound>, tag: string)
    ensures tag in IndexOf(outbounds) <==>
              tag != "" && exists i :: 0 <= i < |outbounds| && outbounds[i].Outbound? && outbounds[i].tag == Some(tag)
  {
    if outbounds != [] {
      var rest := outbounds[..|outbounds| - 1];
      IndexTags(rest, tag);
      assert forall i | 0 <= i < |rest| :: rest[i] == outbounds[i];
    }
  }

  /** In a well-formed list every entry is the one its tag stands for. */
  lemma {:induction false} IndexAt(outbounds: seq<Outbound>, i: nat)
    requires WellFormed(outbounds) && i < |outbounds|
    ensures outbounds[i].tag.value in IndexOf(outbounds) && IndexOf(outbounds)[outbounds[i].tag.value] == outbounds[i]
  {
    var rest := outbounds[..|outbounds| - 1];
    var last := outbounds[|outbounds| - 1];
    WellFormedPrefix(outbounds, |outbounds| - 1);
    assert outbounds[..|outbounds|] == outbounds;
    if i < |rest| {
      assert outbounds[i].tag != last.tag;
      IndexAt(rest, i);
    }
  }

  lemma {:induction false} WellFormedPrefix(outbounds: seq<Outbound>, i: nat)
    requires i < |outbounds|
    ensures WellFormed(outbounds[..i + 1]) <==>
              WellFormed(outbounds[..i]) && outbounds[i].Outbound? && Usable(outbounds[i].tag) && Usable(outbounds[i].kind)
              && outbounds[i].tag.value !in IndexOf(outbounds[..i])
  {
    var o := outbounds[i];
    assert outbounds[..i + 1][..i] == outbounds[..i];
    if o.Outbound? && Usable(o.tag) {
      IndexTags(outbounds[..i], o.tag.value);
    }
    if WellFormed(outbounds[..i + 1]) {
      forall a, b | 0 <= a < b < i
        ensures outbounds[..i][a].tag != outbounds[..i][b].tag
      {
        assert outbounds[..i + 1][a].tag != outbounds[..i + 1][b].tag;
      }
      forall a | 0 <= a < i
        ensures outbounds[..i][a].tag != o.tag
      {
        assert outbounds[..i + 1][a].tag != outbounds[..i + 1][i].tag;
      }
    }
  }

  // ---------------------------------------------------------------- the resolver

  function Elems(trail: seq<string>): set<string> {
    set t | t in trail
  }

  class Resolver {
    const graph: Graph
    var cache: map<string, bool>
    /** Shared with the rest of the check. */
    var findings: seq<Finding>

    /** The cache is exact wherever it answers. */
    ghost predicate Exact()
      reads this
    {
      && (forall t | t in graph :: t != "")
      && (forall t | t in cache :: t in graph && (cache[t] <==> !Safe(graph, Named(t))))
    }

    ghost predicate CacheResolved()
      reads this
    {
      forall t | t in cache :: Resolved(graph, Named(t))
    }

    ghost predicate SomeUnresolved()
      reads this
    {
      exists t :: t in graph && !Resolved(graph, Named(t))
    }

    twostate predicate Grown()
      reads this
    {
      old(findings) <= findings && old(cache.Keys) <= cache.Keys
    }

    /** A finding was added only because something really does not resolve, and never missed. */
    twostate predicate Reported(ref: Ref)
      reads this
    {
      && (findings != old(findings) ==> SomeUnresolved() || !Resolved(graph, ref))
      && (findings == old(findings) && old(CacheResolved()) ==> CacheResolved() && Resolved(graph, ref))
    }

    constructor (outbounds: seq<Outbound>, findings: seq<Finding>)
      ensures graph == IndexOf(outbounds) && Exact()
      ensures findings <= this.findings
      ensures forall t | t in graph :: t in cache
      // Structure findings and resolution findings together say exactly this.
      ensures this.findings == findings <==>
                WellFormed(outbounds) && forall t | t in graph :: Resolved(graph, Named(t))
    {
      this.graph := IndexOf(outbounds);
      this.cache := map[];
      this.findings := findings;
      new;
      Admit(outbounds);
      ghost var admitted := this.findings;
      var todo := graph.Keys;
      while todo != {}
        invariant Exact() && todo <= graph.Keys && admitted <= this.findings
        invariant forall t | t in graph && t !in todo :: t in cache
        invariant this.findings != admitted ==> SomeUnresolved()
        invariant this.findings == admitted ==>
                    CacheResolved() && forall t | t in graph && t !in todo :: Resolved(graph, Named(t))
      {
        var tag :| tag in todo;
        var _ := ReachesDirect(Named(tag), []);
        todo := todo - {tag};
      }
    }

    /** Report malformed entries while the tags are indexed. */
    method Admit(outbounds: seq<Outbound>)
      modifies this`findings
      ensures old(findings) <= findings
      ensures findings == old(findings) <==> WellFormed(outbounds)
    {
      var byTag: Graph := map[];
      for index := 0 to |outbounds|
        invariant byTag == IndexOf(outbounds[..index])
        invariant old(findings) <= findings
        invariant findings == old(findings) <==> WellFormed(outbounds[..index])
      {
        WellFormedPrefix(outbounds, index);
        assert outbounds[..index + 1][..index] == outbounds[..index];
        var outbound := outbounds[index];
        if outbound.NotAnObject? {
          findings := findings + [OutboundNotAnObject(index)];
        } else if !Usable(outbound.tag) {
          findings := findings + [NoUsableTag(index)];
        } else if outbound.tag.value in byTag {
          findings := findings + [DuplicateTag(outbound.tag.value)];
        } else {
          if !Usable(outbound.kind) {
            findings := findings + [NoUsableType(index)];
          }
          byTag := byTag[outbound.tag.value := outbound];
        }
      }
      assert outbounds[..|outbounds|] == outbounds;
    }

    /**
     Whether `ref` can reach direct egress.  Exact for every graph, cyclic or not, every
     cache the resolver can hold and every trail it can be on.
     */
    method ReachesDirect(ref: Ref, trail: seq<string>) returns (direct: bool)
      requires Exact() && Trail(graph, trail, ref) && NoRepeat(trail)
      modifies this`cache, this`findings
      ensures Exact() && Grown()
      ensures direct <==> !Safe(graph, ref)
      ensures Reported(ref)
      ensures trail == [] && Defined(graph, ref) ==> ref.tag in cache
      ensures trail == [] && Defined(graph, ref) && ref.tag in old(cache) ==> findings == old(findings)
      ensures trail == [] && !Defined(graph, ref) ==> findings != old(findings) && cache == old(cache)
      decreases graph.Keys - Elems(trail)
    {
      SafeEquation(graph, ref);
      if ref.NotAString? || ref.tag == "" {
        findings := findings + [InvalidReference];
        UndefinedUnresolved(graph, ref);
        return true;
      }
      var tag := ref.tag;
      if tag in cache {
        return cache[tag];
      }
      if tag in trail {
        TrailCycle(graph, trail, tag);
        findings := findings + [Cycle(trail + [tag])];
        return true;
      }
      if tag !in graph {
        findings := findings + [UndefinedReference(tag)];
        UndefinedUnresolved(graph, ref);
        return true;
      }
      match NodeOf(graph[tag])
      case Direct =>
        assert DirectWithin(graph, ref, 1);
        cache := cache[tag := true];
        return true;
      case Leaf =>
        cache := cache[tag := false];
        return false;
      case Broken =>
        BrokenUnresolved(graph, tag);
        findings := findings + [NoUsableChildren(tag)];
        cache := cache[tag := true];
        return true;
      case Group(children) =>
        direct := AnyReachesDirect(tag, children, trail);
        cache := cache[tag := direct];
    }

    /** The short-circuiting scan of a group's children. */
    method AnyReachesDirect(tag: string, children: seq<Ref>, trail: seq<string>) returns (direct: bool)
      requires Exact() && Trail(graph, trail, Named(tag)) && NoRepeat(trail)
      requires tag in graph && tag !in trail && NodeOf(graph[tag]) == Group(children)
      modifies this`cache, this`findings
      ensures Exact() && Grown()
      ensures direct <==> !Safe(graph, Named(tag))
      ensures Reported(Named(tag))
      decreases graph.Keys - Elems(trail), 0
    {
      var i := 0;
      direct := false;
      while i < |children| && !direct
        invariant 0 <= i <= |children| && Exact() && Grown()
        invariant !direct ==> forall k | 0 <= k < i :: Safe(graph, children[k])
        invariant direct ==> !Safe(graph, Named(tag))
        invariant findings != old(findings) ==> SomeUnresolved() || (direct && !Resolved(graph, Named(tag)))
        invariant findings == old(findings) && old(CacheResolved()) ==>
                    CacheResolved() && (direct ==> Resolved(graph, Named(tag)))
      {
        assert NextAt(graph, tag, i, children[i]);
        TrailExtends(graph, trail, tag, children[i]);
        direct := ReachesDirect(children[i], trail + [tag]);
        if direct {
          GroupResolved(graph, tag, i, children[i]);
        }
        i := i + 1;
      }
      SafeEquation(graph, Named(tag));
    }
  }

  predicate NoRepeat(trail: seq<string>) {
    forall i, j | 0 <= i < j < |trail| :: trail[i] != trail[j]
  }

  lemma {:induction false} TrailExtends(g: Graph, trail: seq<string>, tag: string, child: Ref)
    requires Trail(g, trail, Named(tag)) && tag in g && tag != "" && Leads(g, tag, child)
    ensures Trail(g, trail + [tag], child)
    ensures Elems(trail + [tag]) == Elems(trail) + {tag}
  {
    var longer := trail + [tag];
    forall i | 0 <= i < |longer| - 1
      ensures Leads(g, longer[i], Named(longer[i + 1]))
    {
      if i == |trail| - 1 {
        assert Leads(g, trail[i], Named(tag));
      } else {
        assert Leads(g, trail[i], Named(trail[i + 1]));
      }
    }
  }

  lemma {:induction false} UndefinedUnresolved(g: Graph, ref: Ref)
    requires !Defined(g, ref)
    ensures !Resolved(g, ref)
  {
  }

  lemma {:induction false} BrokenUnresolved(g: Graph, tag: string)
    requires tag in g && NodeOf(g[tag]).Broken?
    ensures !Resolved(g, Named(tag))
  {
  }

  // ---------------------------------------------------------------- what a certified bundle is

  predicate TunCertified(tun: Tun) {
    && tun.autoRoute && tun.strictRoute && tun.captured == [] && !tun.excludeMptcp && !tun.netns
    && tun.addresses.Some? && IPv4 in tun.addresses.value && IPv6 in tun.addresses.value
    && Invalid !in tun.addresses.value
  }

  predicate Sniffs(rule: Rule) {
    rule.Rule? && rule.action == "sniff"
  }

  ghost predicate RuleCertified(g: Graph, rule: Rule) {
    && rule.Rule? && rule.action != "bypass"
    && (rule.action == "route" ==> rule.outbound.Some? && Safe(g, rule.outbound.value))
  }

  ghost predicate RouteCertified(g: Graph, route: Route) {
    && (route.final == Some("select") || route.final == Some("auto")) && Safe(g, Named(route.final.value))
    && route.rules.Some?
    && (exists i :: 0 <= i < |route.rules.value| && Sniffs(route.rules.value[i]))
    && (forall i | 0 <= i < |route.rules.value| :: RuleCertified(g, route.rules.value[i]))
  }

  ghost predicate DnsCertified(g: Graph, servers: seq<Server>) {
    servers != [] && forall i | 0 <= i < |servers| ::
      servers[i].Server? && servers[i].detour.Some? && Safe(g, servers[i].detour.value)
  }

  predicate StrategyOk(o: Outbound) {
    o.Outbound? ==> o.domainStrategy != "ipv6_only" && o.domainStrategy != "prefer_ipv6"
  }

  function Tuns(inbounds: seq<Inbound>): (tuns: seq<Tun>) {
    if inbounds == [] then [] else
    var rest := Tuns(inbounds[..|inbounds| - 1]);
    var last := inbounds[|inbounds| - 1];
    if last.TunInbound? then rest + [last.tun] else rest
  }

  /** Rules K2 to K5: nothing the route, its rules or DNS name can reach direct egress. */
  ghost predicate GraphCertified(bundle: Bundle, outbounds: seq<Outbound>)
    requires bundle.Bundle?
  {
    && bundle.route.Some? && bundle.dns.Some? && bundle.dns.value.Some?
    && var g := IndexOf(outbounds);
    && WellFormed(outbounds) && (forall t | t in g :: Resolved(g, Named(t)))
    && (forall i | 0 <= i < |outbounds| :: StrategyOk(outbounds[i]))
    && RouteCertified(g, bundle.route.value)
    && DnsCertified(g, bundle.dns.value.value)
  }

  /** Rules K1 to K5, as one statement about the bundle. */
  ghost predicate Certified(bundle: Bundle) {
    && bundle.Bundle? && bundle.inbounds.Some? && bundle.outbounds.Some?
    && var tuns := Tuns(bundle.inbounds.value);
    && |tuns| == 1 && TunCertified(tuns[0])
    && GraphCertified(bundle, bundle.outbounds.value)
  }

  // ---------------------------------------------------------------- what that means for traffic

  /** The entry is the one this tag stands for. */
  predicate Stands(outbounds: seq<Outbound>, tag: string, o: Outbound) {
    o in outbounds && o.Outbound? && o.tag == Some(tag)
  }

  /** An entry of this tag lists the other as a child. */
  ghost predicate Offers(outbounds: seq<Outbound>, tag: string, child: string) {
    exists o :: Stands(outbounds, tag, o) && o.children.Listed? && Named(child) in o.children.refs
  }

  /** The bundle sends something to this tag itself: by the final outbound, by a rule or by a resolver. */
  predicate Chosen(bundle: Bundle, tag: string)
    requires bundle.Bundle?
  {
    || (bundle.route.Some? && bundle.route.value.final == Some(tag))
    || (bundle.route.Some? && bundle.route.value.rules.Some?
        && exists r :: r in bundle.route.value.rules.value && r.Rule? && r.action == "route" && r.outbound == Some(Named(tag)))
    || (bundle.dns.Some? && bundle.dns.value.Some?
        && exists s :: s in bundle.dns.value.value && s.Server? && s.detour == Some(Named(tag)))
  }

  /** Each tag of the path is listed as a child by an entry of the one before. */
  ghost predicate Follows(outbounds: seq<Outbound>, path: seq<string>) {
    forall k | 0 <= k < |path| - 1 :: Offers(outbounds, path[k], path[k + 1])
  }

  /** The tag is defined, and by nothing of kind `direct`. */
  ghost predicate OffDirect(outbounds: seq<Outbound>, tag: string) {
    (exists o :: Stands(outbounds, tag, o)) && forall o | Stands(outbounds, tag, o) :: o.kind != Some("direct")
  }

  lemma {:induction false} StandsAt(outbounds: seq<Outbound>, tag: string, o: Outbound)
    requires WellFormed(outbounds) && Stands(outbounds, tag, o)
    ensures tag in IndexOf(outbounds) && tag != "" && IndexOf(outbounds)[tag] == o
  {
    hide WellFormed;
    var i :| 0 <= i < |outbounds| && outbounds[i] == o;
    IndexAt(outbounds, i);
  }

  /** In a certified bundle no entry is unusable or prefers IPv6. */
  lemma {:induction false} CertifiedEntries(bundle: Bundle, i: nat)
    requires Certified(bundle) && i < |bundle.outbounds.value|
    ensures bundle.outbounds.value[i].Outbound? && !Unusable(bundle.outbounds.value[i])
    ensures bundle.outbounds.value[i].domainStrategy != "ipv6_only" && bundle.outbounds.value[i].domainStrategy != "prefer_ipv6"
  {
    hide Safe, PlainlyDirect, RouteCertified, DnsCertified, TunCertified, Unusable;
    var outbounds := bundle.outbounds.value;
    IndexAt(outbounds, i);
    FieldsDecide(IndexOf(outbounds), outbounds[i].tag.value);
  }

  lemma {:induction false} ChosenSafe(bundle: Bundle, tag: string)
    requires Certified(bundle) && Chosen(bundle, tag)
    ensures Safe(IndexOf(bundle.outbounds.value), Named(tag))
  {
    hide Safe, PlainlyDirect, TunCertified, StrategyOk, WellFormed, Resolved;
    var g := IndexOf(bundle.outbounds.value);
    if r :| bundle.route.Some? && bundle.route.value.rules.Some? && r in bundle.route.value.rules.value
            && r.Rule? && r.action == "route" && r.outbound == Some(Named(tag)) {
      assert RuleCertified(g, r);
    }
  }

  lemma {:induction false} SafeChild(outbounds: seq<Outbound>, tag: string, child: string)
    requires WellFormed(outbounds) && Offers(outbounds, tag, child) && Safe(IndexOf(outbounds), Named(tag))
    ensures Safe(IndexOf(outbounds), Named(child))
  {
    hide Safe, PlainlyDirect, WellFormed;
    var o :| Stands(outbounds, tag, o) && o.children.Listed? && Named(child) in o.children.refs;
    StandsAt(outbounds, tag, o);
    FieldsDecide(IndexOf(outbounds), tag);
  }

  lemma {:induction false} SafePath(outbounds: seq<Outbound>, path: seq<string>)
    requires WellFormed(outbounds) && path != [] && Follows(outbounds, path) && Safe(IndexOf(outbounds), Named(path[0]))
    ensures Safe(IndexOf(outbounds), Named(path[|path| - 1]))
    decreases |path|
  {
    hide Safe, PlainlyDirect, WellFormed, Offers, IndexOf;
    if |path| > 1 {
      assert Offers(outbounds, path[0], path[1]);
      SafeChild(outbounds, path[0], path[1]);
      forall k | 0 <= k < |path[1..]| - 1 ensures Offers(outbounds, path[1..][k], path[1..][k + 1]) {
        assert Offers(outbounds, path[k + 1], path[k + 2]);
      }
      SafePath(outbounds, path[1..]);
    }
  }

  /**
   Wherever a certified bundle sends traffic or name lookups, and whatever selections it then
   follows: the tag is defined, and its entry is not the direct outbound.
   */
  lemma {:induction false} NothingReachesDirect(bundle: Bundle, path: seq<string>)
    requires Certified(bundle) && path != [] && Chosen(bundle, path[0]) && Follows(bundle.outbounds.value, path)
    ensures OffDirect(bundle.outbounds.value, path[|path| - 1])
  {
    hide Safe, PlainlyDirect, RouteCertified, DnsCertified, TunCertified, StrategyOk, Chosen, Follows, WellFormed, Resolved, Unusable;
    var outbounds, last := bundle.outbounds.value, path[|path| - 1];
    var g := IndexOf(outbounds);
    ChosenSafe(bundle, path[0]);
    SafePath(outbounds, path);
    SafeEquation(g, Named(last));
    IndexTags(outbounds, last);
    FieldsDecide(g, last);
    var i :| 0 <= i < |outbounds| && outbounds[i].Outbound? && outbounds[i].tag == Some(last);
    assert Stands(outbounds, last, outbounds[i]);
    forall o | Stands(outbounds, last, o)
      ensures o.kind != Some("direct")
    {
      StandsAt(outbounds, last, o);
    }
  }

  /** The inbounds hold exactly one tunnel, and this is it. */
  ghost predicate TheOnlyTun(inbounds: seq<Inbound>, tun: Tun) {
    exists i :: 0 <= i < |inbounds| && inbounds[i] == TunInbound(tun) && forall k | 0 <= k < |inbounds| && k != i :: !inbounds[k].TunInbound?
  }

  predicate WithoutTun(inbounds: seq<Inbound>) {
    forall i | 0 <= i < |inbounds| :: !inbounds[i].TunInbound?
  }

  lemma {:induction false} NoTuns(inbounds: seq<Inbound>)
    ensures Tuns(inbounds) == [] <==> WithoutTun(inbounds)
    decreases |inbounds|
  {
    if inbounds != [] {
      var init := inbounds[..|inbounds| - 1];
      NoTuns(init);
      assert forall i | 0 <= i < |init| :: init[i] == inbounds[i];
    }
  }

  lemma {:induction false} OneTun(inbounds: seq<Inbound>, tun: Tun)
    ensures Tuns(inbounds) == [tun] <==> TheOnlyTun(inbounds, tun)
    decreases |inbounds|
  {
    if inbounds != [] {
      var init, last := inbounds[..|inbounds| - 1], inbounds[|inbounds| - 1];
      NoTuns(init);
      OneTun(init, tun);
      hide Tuns;
      assert inbounds == init + [last];
      if last.TunInbound? {
        LastTun(inbounds, tun);
        assert Tuns(inbounds) == Tuns(init) + [last.tun] by { TunsAppended(inbounds); }
        if Tuns(inbounds) == [tun] {
          assert |Tuns(init)| == 0 && Tuns(inbounds)[0] == last.tun;
        }
      } else {
        EarlierTun(inbounds, tun);
        assert Tuns(inbounds) == Tuns(init) by { TunsAppended(inbounds); }
      }
    }
  }

  lemma {:induction false} TunsAppended(inbounds: seq<Inbound>)
    requires inbounds != []
    ensures var init, last := inbounds[..|inbounds| - 1], inbounds[|inbounds| - 1];
            Tuns(inbounds) == Tuns(init) + if last.TunInbound? then [last.tun] else []
  {
  }

  lemma {:induction false} LastTun(inbounds: seq<Inbound>, tun: Tun)
    requires inbounds != [] && inbounds[|inbounds| - 1].TunInbound?
    ensures TheOnlyTun(inbounds, tun) <==>
              inbounds[|inbounds| - 1].tun == tun && WithoutTun(inbounds[..|inbounds| - 1])
  {
    var n := |inbounds| - 1;
    var init := inbounds[..n];
    assert forall k | 0 <= k < n :: init[k] == inbounds[k];
    if inbounds[n].tun == tun && WithoutTun(init) {
      assert forall k | 0 <= k < |inbounds| && k != n :: !inbounds[k].TunInbound?;
      assert inbounds[n] == TunInbound(tun);
    }
    if TheOnlyTun(inbounds, tun) {
      var i :| 0 <= i < |inbounds| && inbounds[i] == TunInbound(tun) && forall k | 0 <= k < |inbounds| && k != i :: !inbounds[k].TunInbound?;
      assert i == n;
    }
  }

  lemma {:induction false} EarlierTun(inbounds: seq<Inbound>, tun: Tun)
    requires inbounds != [] && !inbounds[|inbounds| - 1].TunInbound?
    ensures TheOnlyTun(inbounds, tun) <==> TheOnlyTun(inbounds[..|inbounds| - 1], tun)
  {
    var init := inbounds[..|inbounds| - 1];
    assert forall k | 0 <= k < |init| :: init[k] == inbounds[k];
    if TheOnlyTun(inbounds, tun) {
      var i :| 0 <= i < |inbounds| && inbounds[i] == TunInbound(tun) && forall k | 0 <= k < |inbounds| && k != i :: !inbounds[k].TunInbound?;
      assert init[i] == TunInbound(tun);
    }
    if TheOnlyTun(init, tun) {
      var i :| 0 <= i < |init| && init[i] == TunInbound(tun) && forall k | 0 <= k < |init| && k != i :: !init[k].TunInbound?;
      assert inbounds[i] == TunInbound(tun);
    }
  }

  // ---------------------------------------------------------------- the check

  method CheckTun(tun: Tun) returns (findings: seq<Finding>)
    ensures findings == [] <==> TunCertified(tun)
  {
    findings := [];
    if !tun.autoRoute {
      findings := findings + [AutoRouteOff];
    }
    if !tun.strictRoute {
      findings := findings + [StrictRouteOff];
    }
    for i := 0 to |tun.captured|
      invariant findings == [] <==> tun.autoRoute && tun.strictRoute && i == 0
    {
      findings := findings + [CapturePolicy(tun.captured[i])];
    }
    if tun.excludeMptcp {
      findings := findings + [MptcpExcluded];
    }
    if tun.netns {
      findings := findings + [NamespaceLimited];
    }
    if tun.addresses.None? || tun.addresses.value == [] {
      findings := findings + [AddressListMissing];
    } else {
      var addresses := tun.addresses.value;
      var families: set<Prefix> := {};
      for i := 0 to |addresses|
        invariant families == set a | a in addresses[..i] && a != Invalid
        invariant findings == [] <==>
                    tun.autoRoute && tun.strictRoute && tun.captured == [] && !tun.excludeMptcp && !tun.netns
                    && Invalid !in addresses[..i]
      {
        assert addresses[..i + 1] == addresses[..i] + [addresses[i]];
        if addresses[i].Invalid? {
          findings := findings + [InvalidPrefix(i)];
        } else {
          families := families + {addresses[i]};
        }
      }
      assert addresses[..|addresses|] == addresses;
      if IPv4 !in families {
        findings := findings + [NoIPv4Prefix];
      }
      if IPv6 !in families {
        findings := findings + [NoIPv6Prefix];
      }
    }
  }

  /** A resolver that has already looked at every defined tag. */
  ghost predicate Complete(r: Resolver)
    reads r
  {
    r.Exact() && forall t | t in r.graph :: t in r.cache
  }

  /** Ask for one reference: silent exactly when it is defined. */
  method Leaks(r: Resolver, ref: Ref) returns (direct: bool)
    requires Complete(r)
    modifies r`cache, r`findings
    ensures Complete(r) && old(r.findings) <= r.findings
    ensures direct <==> !Safe(r.graph, ref)
    ensures !direct ==> r.findings == old(r.findings)
  {
    SafeEquation(r.graph, ref);
    direct := r.ReachesDirect(ref, []);
  }

  method CheckRules(r: Resolver, rules: seq<Rule>)
    requires Complete(r)
    modifies r`cache, r`findings
    ensures Complete(r) && old(r.findings) <= r.findings
    ensures r.findings == old(r.findings) <==>
              (exists i :: 0 <= i < |rules| && Sniffs(rules[i]))
              && forall i | 0 <= i < |rules| :: RuleCertified(r.graph, rules[i])
  {
    if !(exists i :: 0 <= i < |rules| && Sniffs(rules[i])) {
      r.findings := r.findings + [NoSniff];
    }
    ghost var sniffs := r.findings;
    for index := 0 to |rules|
      invariant Complete(r) && sniffs <= r.findings
      invariant r.findings == sniffs <==> forall i | 0 <= i < index :: RuleCertified(r.graph, rules[i])
    {
      var rule := rules[index];
      if rule.RuleMalformed? {
        r.findings := r.findings + [RuleNotAnObject(index)];
      } else if rule.action == "bypass" {
        r.findings := r.findings + [RuleBypasses(index)];
      } else if rule.action == "route" {
        if rule.outbound.None? {
          r.findings := r.findings + [RuleWithoutOutbound(index)];
        } else {
          var direct := Leaks(r, rule.outbound.value);
          if direct {
            r.findings := r.findings + [RuleLeaks(index)];
          }
        }
      }
    }
  }

  method CheckServers(r: Resolver, servers: seq<Server>)
    requires Complete(r)
    modifies r`cache, r`findings
    ensures Complete(r) && old(r.findings) <= r.findings
    ensures r.findings == old(r.findings) <==> DnsCertified(r.graph, servers)
  {
    if servers == [] {
      r.findings := r.findings + [NoTunneledResolver];
    }
    for index := 0 to |servers|
      invariant Complete(r) && old(r.findings) <= r.findings
      invariant r.findings == old(r.findings) <==>
                  servers != [] && forall i | 0 <= i < index ::
                    servers[i].Server? && servers[i].detour.Some? && Safe(r.graph, servers[i].detour.value)
    {
      if servers[index].ServerMalformed? {
        r.findings := r.findings + [ServerNotAnObject(index)];
      } else if servers[index].detour.None? {
        r.findings := r.findings + [DetourLeaks(index)];
      } else {
        var direct := Leaks(r, servers[index].detour.value);
        if direct {
          r.findings := r.findings + [DetourLeaks(index)];
        }
      }
    }
  }

  method CheckRoute(r: Resolver, route: Route)
    requires Complete(r)
    modifies r`cache, r`findings
    ensures Complete(r) && old(r.findings) <= r.findings
    ensures r.findings == old(r.findings) <==> RouteCertified(r.graph, route)
  {
    if route.final == Some("direct") {
      r.findings := r.findings + [FinalDirect];
    } else if route.final != Some("select") && route.final != Some("auto") {
      r.findings := r.findings + [FinalUnexpected];
    } else {
      var direct := Leaks(r, Named(route.final.value));
      if direct {
        r.findings := r.findings + [FinalLeaks];
      }
    }
    if route.rules.None? {
      r.findings := r.findings + [RulesMalformed];
    } else {
      CheckRules(r, route.rules.value);
    }
  }

  /** No finding exactly when the bundle is certified. */
  method Check(bundle: Bundle) returns (findings: seq<Finding>)
    ensures findings == [] <==> Certified(bundle)
  {
    hide Safe, Resolved, WellFormed, RouteCertified, DnsCertified, StrategyOk, TunCertified;
    if bundle.NoBundle? {
      return [BundleNotAnObject];
    }
    if bundle.inbounds.None? {
      return [InboundsMalformed];
    }
    var tuns := Tuns(bundle.inbounds.value);
    if tuns == [] {
      return [NoTun];
    }
    if |tuns| != 1 {
      return [SeveralTuns];
    }
    findings := CheckTun(tuns[0]);
    var outbounds := [];
    if bundle.outbounds.None? {
      findings := findings + [OutboundsMalformed];
    } else {
      outbounds := bundle.outbounds.value;
    }
    findings := CheckGraph(bundle, outbounds, findings);
  }

  method CheckDns(r: Resolver, dns: Option<Option<seq<Server>>>)
    requires Complete(r)
    modifies r`cache, r`findings
    ensures Complete(r) && old(r.findings) <= r.findings
    ensures r.findings == old(r.findings) <==> dns.Some? && dns.value.Some? && DnsCertified(r.graph, dns.value.value)
  {
    if dns.None? {
      r.findings := r.findings + [DnsMalformed];
      CheckServers(r, []);
    } else if dns.value.None? {
      r.findings := r.findings + [NoTunneledResolver];
    } else {
      CheckServers(r, dns.value.value);
    }
  }

  method CheckStrategies(r: Resolver, outbounds: seq<Outbound>)
    modifies r`findings
    ensures old(r.findings) <= r.findings
    ensures r.findings == old(r.findings) <==> forall i | 0 <= i < |outbounds| :: StrategyOk(outbounds[i])
  {
    for i := 0 to |outbounds|
      invariant old(r.findings) <= r.findings
      invariant r.findings == old(r.findings) <==> forall k | 0 <= k < i :: StrategyOk(outbounds[k])
    {
      if !StrategyOk(outbounds[i]) {
        r.findings := r.findings + [StrategyLeaks(i)];
      }
    }
  }

  /** Rules K2 to K5, over the shared resolver. */
  method CheckGraph(bundle: Bundle, outbounds: seq<Outbound>, before: seq<Finding>) returns (findings: seq<Finding>)
    requires bundle.Bundle?
    ensures before <= findings
    ensures findings == before <==> GraphCertified(bundle, outbounds)
  {
    hide Safe, Resolved, WellFormed, RouteCertified, DnsCertified, StrategyOk;
    var r := new Resolver(outbounds, before);
    var route := Route(None, Some([]));
    if bundle.route.None? {
      r.findings := r.findings + [RouteMalformed];
    } else {
      route := bundle.route.value;
    }
    CheckRoute(r, route);
    CheckDns(r, bundle.dns);
    CheckStrategies(r, outbounds);
    findings := r.findings;
  }
}
