/** The graph half of a client profile: selectors, route and DNS around the endpoints of one device. */
module ClientPayload {
  import opened Wrappers
  import opened OutboundGraph
  import opened KillSwitch

  /** One rendered endpoint; its kind is a proxy protocol. */
  datatype Endpoint = Endpoint(tag: string, kind: string)

  predicate Proxy(e: Endpoint) {
    e.kind == "vless" || e.kind == "hysteria2" || e.kind == "snell"
  }

  function Rendered(e: Endpoint): Outbound {
    Outbound(Some(e.tag), Some(e.kind), Absent, "")
  }

  function SnellTags(endpoints: seq<Endpoint>): seq<string>
  {
    if endpoints == [] then [] else
    var rest := SnellTags(endpoints[..|endpoints| - 1]);
    var last := endpoints[|endpoints| - 1];
    if last.kind == "snell" then rest + [last.tag] else rest
  }

  /** Tags that automatic selection may use: those no snell endpoint carries. */
  function Automatic(endpoints: seq<Endpoint>, snell: seq<string>): seq<string>
  {
    if endpoints == [] then [] else
    var rest := Automatic(endpoints[..|endpoints| - 1], snell);
    var last := endpoints[|endpoints| - 1];
    if last.tag in snell then rest else rest + [last.tag]
  }

  predicate Tagged(endpoints: seq<Endpoint>, tag: string) {
    exists i :: 0 <= i < |endpoints| && endpoints[i].tag == tag
  }

  /** Selection never invents a tag, and drops exactly the snell ones. */
  lemma {:induction false} SelectionTags(endpoints: seq<Endpoint>, snell: seq<string>, tag: string)
    ensures tag in Automatic(endpoints, snell) <==> Tagged(endpoints, tag) && tag !in snell
    ensures tag in SnellTags(endpoints) <==>
              exists i :: 0 <= i < |endpoints| && endpoints[i].tag == tag && endpoints[i].kind == "snell"
  {
    if endpoints != [] {
      var rest := endpoints[..|endpoints| - 1];
      SelectionTags(rest, snell, tag);
      assert forall i | 0 <= i < |rest| :: rest[i] == endpoints[i];
    }
  }

  /** With distinct tags, selection has a member exactly when some endpoint is not snell. */
  lemma {:induction false} AutomaticMembers(endpoints: seq<Endpoint>)
    ensures (forall i, j | 0 <= i < j < |endpoints| :: endpoints[i].tag != endpoints[j].tag) ==>
              (Automatic(endpoints, SnellTags(endpoints)) != [] <==>
               exists i :: 0 <= i < |endpoints| && endpoints[i].kind != "snell")
  {
    var snell := SnellTags(endpoints);
    var automatic := Automatic(endpoints, snell);
    if automatic != [] {
      SelectionTags(endpoints, snell, automatic[0]);
      var i :| 0 <= i < |endpoints| && endpoints[i].tag == automatic[0];
      assert endpoints[i].kind != "snell";
    }
    if i :| 0 <= i < |endpoints| && endpoints[i].kind != "snell" {
      SelectionTags(endpoints, snell, endpoints[i].tag);
      assert Tagged(endpoints, endpoints[i].tag);
    }
  }

  function Refs(tags: seq<string>): (refs: seq<Ref>)
    ensures |refs| == |tags| && forall i | 0 <= i < |tags| :: refs[i] == Named(tags[i])
  {
    seq(|tags|, i requires 0 <= i < |tags| => Named(tags[i]))
  }

  function Selector(kind: string, tag: string, tags: seq<string>): Outbound {
    Outbound(Some(tag), Some(kind), Listed(Refs(tags)), "")
  }

  /** `select`'s members, in order. */
  function SelectTags(automatic: seq<string>, snell: seq<string>): seq<string> {
    automatic + (if automatic != [] then ["auto"] else ["direct"]) + (if snell != [] then ["snell-evaluation"] else [])
  }

  function GroupsOf(automatic: seq<string>, snell: seq<string>): seq<Outbound> {
    (if snell != [] then [Selector("selector", "snell-evaluation", snell)] else [])
    + [Selector("selector", "select", SelectTags(automatic, snell))]
    + (if automatic != [] then [Selector("urltest", "auto", automatic)] else [])
    + [Outbound(Some("direct"), Some("direct"), Absent, ""), Outbound(Some("block"), Some("block"), Absent, "")]
  }

  function RulesOf(bypass: string, viaTun: string): seq<Rule> {
    (if bypass != "" then [Rule("route", Some(Named("direct")))] else [])
    + (if viaTun != "" then [Rule("route", Some(Named("select")))] else [])
    + [Rule("sniff", None), Rule("hijack-dns", None)]
  }

  const FULL_DEVICE: Tun := Tun(true, true, [], false, false, Some([IPv4, IPv6]))

  /** Whether every tag of the finished list, given or added, is usable and its own. */
  predicate TagsUsable(endpoints: seq<Endpoint>) {
    var snell := SnellTags(endpoints);
    var automatic := Automatic(endpoints, snell);
    && (forall i | 0 <= i < |endpoints| ::
          && endpoints[i].tag != "" && endpoints[i].tag != "select" && endpoints[i].tag != "direct"
          && endpoints[i].tag != "block"
          && (endpoints[i].tag == "auto" ==> automatic == [])
          && (endpoints[i].tag == "snell-evaluation" ==> snell == []))
    && (forall i, j | 0 <= i < j < |endpoints| :: endpoints[i].tag != endpoints[j].tag)
  }

  /** The finished outbound list. */
  function Finished(endpoints: seq<Endpoint>): seq<Outbound> {
    var snell := SnellTags(endpoints);
    seq(|endpoints|, i requires 0 <= i < |endpoints| => Rendered(endpoints[i])) + GroupsOf(Automatic(endpoints, snell), snell)
  }

  // ---------------------------------------------------------------- what the profile holds

  /** Some snell endpoint carries this tag. */
  predicate SnellNamed(endpoints: seq<Endpoint>, tag: string) {
    exists i :: 0 <= i < |endpoints| && endpoints[i].tag == tag && endpoints[i].kind == "snell"
  }

  predicate Qualifies(endpoints: seq<Endpoint>, i: nat, snell: bool)
    requires i < |endpoints|
  {
    if snell then endpoints[i].kind == "snell" else !SnellNamed(endpoints, endpoints[i].tag)
  }

  /** `tags` are the tags at these places of the list, which are all that qualify, in order. */
  ghost predicate PicksAt(endpoints: seq<Endpoint>, tags: seq<string>, at: seq<nat>, snell: bool) {
    && |at| == |tags| && (forall k, l | 0 <= k < l < |at| :: at[k] < at[l])
    && (forall k | 0 <= k < |at| :: at[k] < |endpoints| && endpoints[at[k]].tag == tags[k])
    && (forall i | 0 <= i < |endpoints| :: i in at <==> Qualifies(endpoints, i, snell))
  }

  ghost predicate Picks(endpoints: seq<Endpoint>, tags: seq<string>, snell: bool) {
    exists at :: PicksAt(endpoints, tags, at, snell)
  }

  /** One entry of the list offers exactly these tags, in this order. */
  ghost predicate Listing(out: seq<Outbound>, i: nat, kind: string, tag: string, tags: seq<string>) {
    && i < |out| && out[i].Outbound? && out[i].tag == Some(tag) && out[i].kind == Some(kind) && out[i].domainStrategy == ""
    && out[i].children.Listed? && |out[i].children.refs| == |tags|
    && forall k | 0 <= k < |tags| :: out[i].children.refs[k] == Named(tags[k])
  }

  predicate Plain(out: seq<Outbound>, i: nat, kind: string, tag: string) {
    i < |out| && out[i] == Outbound(Some(tag), Some(kind), Absent, "")
  }

  /** The endpoints as they came, then the selections over them and the two fixed outbounds. */
  ghost predicate ListFinished(endpoints: seq<Endpoint>, automatic: seq<string>, snell: seq<string>, out: seq<Outbound>) {
    var n := |endpoints| + if snell != [] then 1 else 0;
    var m := n + 1 + if automatic != [] then 1 else 0;
    && |out| == m + 2
    && (forall i | 0 <= i < |endpoints| :: Plain(out, i, endpoints[i].kind, endpoints[i].tag))
    && (snell != [] ==> Listing(out, n - 1, "selector", "snell-evaluation", snell))
    && Listing(out, n, "selector", "select",
               automatic + [if automatic != [] then "auto" else "direct"] + if snell != [] then ["snell-evaluation"] else [])
    && (automatic != [] ==> Listing(out, n + 1, "urltest", "auto", automatic))
    && Plain(out, m, "direct", "direct") && Plain(out, m + 1, "block", "block")
  }

  /** Everything goes to `select`, apps named for it past the tunnel, and names are resolved through the tunnel. */
  ghost predicate Assembled(endpoints: seq<Endpoint>, bypass: string, viaTun: string, profile: Bundle) {
    && profile.Bundle? && profile.inbounds.Some? && |profile.inbounds.value| == 1
    && profile.inbounds.value[0].TunInbound? && TunCertified(profile.inbounds.value[0].tun)
    && profile.outbounds.Some?
    && (exists automatic, snell :: Picks(endpoints, automatic, false) && Picks(endpoints, snell, true)
          && ListFinished(endpoints, automatic, snell, profile.outbounds.value))
    && profile.route == Some(Route(Some("select"), Some(
         (if bypass != "" then [Rule("route", Some(Named("direct")))] else [])
         + (if viaTun != "" then [Rule("route", Some(Named("select")))] else [])
         + [Rule("sniff", None), Rule("hijack-dns", None)])))
    && profile.dns == Some(Some([Server(Some(Named("select")))]))
  }

  /** The same for any choice of endpoints. */
  ghost predicate Places(endpoints: seq<Endpoint>, tags: seq<string>, at: seq<nat>, keep: Endpoint -> bool) {
    && |at| == |tags| && (forall k, l | 0 <= k < l < |at| :: at[k] < at[l])
    && (forall k | 0 <= k < |at| :: at[k] < |endpoints| && endpoints[at[k]].tag == tags[k])
    && (forall i | 0 <= i < |endpoints| :: i in at <==> keep(endpoints[i]))
  }

  lemma {:induction false} PlacesKept(endpoints: seq<Endpoint>, last: Endpoint, tags: seq<string>, at: seq<nat>, keep: Endpoint -> bool)
    requires Places(endpoints, tags, at, keep) && keep(last)
    ensures Places(endpoints + [last], tags + [last.tag], at + [|endpoints|], keep)
  {
  }

  lemma {:induction false} PlacesLeft(endpoints: seq<Endpoint>, last: Endpoint, tags: seq<string>, at: seq<nat>, keep: Endpoint -> bool)
    requires Places(endpoints, tags, at, keep) && !keep(last)
    ensures Places(endpoints + [last], tags, at, keep)
  {
  }

  lemma {:induction false} PickedSnell(endpoints: seq<Endpoint>) returns (at: seq<nat>)
    ensures Places(endpoints, SnellTags(endpoints), at, (e: Endpoint) => e.kind == "snell")
  {
    at := [];
    if endpoints != [] {
      hide Places;
      var init, last := endpoints[..|endpoints| - 1], endpoints[|endpoints| - 1];
      at := PickedSnell(init);
      assert init + [last] == endpoints;
      if last.kind == "snell" {
        PlacesKept(init, last, SnellTags(init), at, (e: Endpoint) => e.kind == "snell");
        at := at + [|init|];
      } else {
        PlacesLeft(init, last, SnellTags(init), at, (e: Endpoint) => e.kind == "snell");
      }
    }
  }

  lemma {:induction false} PickedOthers(endpoints: seq<Endpoint>, snell: seq<string>) returns (at: seq<nat>)
    ensures Places(endpoints, Automatic(endpoints, snell), at, (e: Endpoint) => e.tag !in snell)
  {
    at := [];
    if endpoints != [] {
      hide Places;
      var init, last := endpoints[..|endpoints| - 1], endpoints[|endpoints| - 1];
      at := PickedOthers(init, snell);
      assert init + [last] == endpoints;
      if last.tag !in snell {
        PlacesKept(init, last, Automatic(init, snell), at, (e: Endpoint) => e.tag !in snell);
        at := at + [|init|];
      } else {
        PlacesLeft(init, last, Automatic(init, snell), at, (e: Endpoint) => e.tag !in snell);
      }
    }
  }

  lemma {:induction false} PickedAutomatic(endpoints: seq<Endpoint>)
    ensures Picks(endpoints, SnellTags(endpoints), true)
    ensures Picks(endpoints, Automatic(endpoints, SnellTags(endpoints)), false)
  {
    var snell := SnellTags(endpoints);
    var at := PickedSnell(endpoints);
    var others := PickedOthers(endpoints, snell);
    forall i | 0 <= i < |endpoints|
      ensures endpoints[i].tag !in snell <==> Qualifies(endpoints, i, false)
    {
      SelectionTags(endpoints, snell, endpoints[i].tag);
    }
    assert PicksAt(endpoints, snell, at, true);
    assert PicksAt(endpoints, Automatic(endpoints, snell), others, false);
  }

  lemma {:induction false} FinishedMeans(endpoints: seq<Endpoint>)
    ensures ListFinished(endpoints, Automatic(endpoints, SnellTags(endpoints)), SnellTags(endpoints), Finished(endpoints))
  {
    hide Automatic, SnellTags;
  }

  // ---------------------------------------------------------------- assembling it

  /** The last lines of materialization, appending to the endpoint list as they go. */
  method Assemble(endpoints: seq<Endpoint>, awgOnly: bool, bypass: string, viaTun: string) returns (bundle: Option<Bundle>)
    requires forall i | 0 <= i < |endpoints| :: Proxy(endpoints[i])
    ensures bundle.None? <==> endpoints == [] && !awgOnly
    // The kill-switch accepts the profile exactly when something other than snell can carry
    // traffic, no app bypasses the tunnel and every tag is its own.
    ensures bundle.Some? ==>
              (Certified(bundle.value) <==>
               (exists i :: 0 <= i < |endpoints| && endpoints[i].kind != "snell")
               && bypass == "" && TagsUsable(endpoints))
    ensures bundle.Some? ==> Assembled(endpoints, bypass, viaTun, bundle.value)
  {
    hide GraphCertified, TagsUsable, Picks, ListFinished;
    if endpoints == [] && !awgOnly {
      return None;
    }
    var out := seq(|endpoints|, i requires 0 <= i < |endpoints| => Rendered(endpoints[i]));
    var snell := SnellTags(endpoints);
    var automatic := Automatic(endpoints, snell);
    if snell != [] {
      out := out + [Selector("selector", "snell-evaluation", snell)];
    }
    out := out + [Selector("selector", "select", SelectTags(automatic, snell))];
    if automatic != [] {
      out := out + [Selector("urltest", "auto", automatic)];
    }
    out := out + [Outbound(Some("direct"), Some("direct"), Absent, ""), Outbound(Some("block"), Some("block"), Absent, "")];
    var rules := [];
    if bypass != "" {
      rules := rules + [Rule("route", Some(Named("direct")))];
    }
    if viaTun != "" {
      rules := rules + [Rule("route", Some(Named("select")))];
    }
    rules := rules + [Rule("sniff", None), Rule("hijack-dns", None)];
    var profile := Bundle(Some([TunInbound(FULL_DEVICE)]), Some(out), Some(Route(Some("select"), Some(rules))),
                          Some(Some([Server(Some(Named("select")))])));
    assert out == Finished(endpoints) && rules == RulesOf(bypass, viaTun);
    assert Tuns([TunInbound(FULL_DEVICE)]) == [FULL_DEVICE] by {
      assert [TunInbound(FULL_DEVICE)][..0] == [];
    }
    FinishedCertified(endpoints, profile, bypass, viaTun);
    PickedAutomatic(endpoints);
    FinishedMeans(endpoints);
    bundle := Some(profile);
  }

  lemma {:induction false} FinishedCertified(endpoints: seq<Endpoint>, profile: Bundle, bypass: string, viaTun: string)
    requires forall i | 0 <= i < |endpoints| :: Proxy(endpoints[i])
    requires profile.Bundle? && profile.route == Some(Route(Some("select"), Some(RulesOf(bypass, viaTun))))
    requires profile.dns == Some(Some([Server(Some(Named("select")))]))
    ensures GraphCertified(profile, Finished(endpoints)) <==>
              (exists i :: 0 <= i < |endpoints| && endpoints[i].kind != "snell")
              && bypass == "" && TagsUsable(endpoints)
  {
    TagsUsableDistinct(endpoints);
    AutomaticMembers(endpoints);
    hide Safe, Resolved, TagsUsable, WellFormed, Finished;
    var out := Finished(endpoints);
    var g := IndexOf(out);
    FinishedWellFormed(endpoints);
    FinishedStrategies(endpoints);
    if WellFormed(out) {
      SelectSafe(endpoints);
      DirectUnsafe(endpoints);
      RulesSafe(g, bypass, viaTun);
      if Automatic(endpoints, SnellTags(endpoints)) != [] {
        AllResolved(endpoints);
      }
      DnsSafe(g);
    }
  }

  lemma {:induction false} TagsUsableDistinct(endpoints: seq<Endpoint>)
    ensures TagsUsable(endpoints) ==> forall i, j | 0 <= i < j < |endpoints| :: endpoints[i].tag != endpoints[j].tag
  {
  }

  lemma {:induction false} DnsSafe(g: Graph)
    ensures DnsCertified(g, [Server(Some(Named("select")))]) <==> Safe(g, Named("select"))
  {
    hide Safe;
    var servers := [Server(Some(Named("select")))];
    assert servers[0].detour.value == Named("select");
  }

  lemma {:induction false} FinishedStrategies(endpoints: seq<Endpoint>)
    ensures forall i | 0 <= i < |Finished(endpoints)| :: StrategyOk(Finished(endpoints)[i])
  {
  }

  /** The tags of the finished list: the endpoints' own, then those added. */
  function AddedTags(endpoints: seq<Endpoint>): seq<string> {
    var snell := SnellTags(endpoints);
    (if snell != [] then ["snell-evaluation"] else []) + ["select"]
    + (if Automatic(endpoints, snell) != [] then ["auto"] else []) + ["direct", "block"]
  }

  lemma {:induction false} FinishedTags(endpoints: seq<Endpoint>)
    ensures |Finished(endpoints)| == |endpoints| + |AddedTags(endpoints)|
    ensures forall i | 0 <= i < |Finished(endpoints)| ::
              Finished(endpoints)[i].Outbound? &&
              Finished(endpoints)[i].tag == Some(if i < |endpoints| then endpoints[i].tag else AddedTags(endpoints)[i - |endpoints|])
  {
  }

  lemma {:induction false} FinishedWellFormed(endpoints: seq<Endpoint>)
    requires forall i | 0 <= i < |endpoints| :: Proxy(endpoints[i])
    ensures WellFormed(Finished(endpoints)) <==> TagsUsable(endpoints)
  {
    FinishedTags(endpoints);
    var out, n, added := Finished(endpoints), |endpoints|, AddedTags(endpoints);
    hide Finished, Automatic, SnellTags;
    if WellFormed(out) {
      forall i | 0 <= i < n
        ensures endpoints[i].tag != "" && endpoints[i].tag !in added
      {
        assert Usable(out[i].tag);
        forall k | 0 <= k < |added|
          ensures endpoints[i].tag != added[k]
        {
          assert out[i].tag != out[n + k].tag;
        }
      }
      assert "select" in added && "direct" in added && "block" in added;
      forall i, j | 0 <= i < j < n
        ensures endpoints[i].tag != endpoints[j].tag
      {
        assert out[i].tag != out[j].tag;
      }
    }
    if TagsUsable(endpoints) {
      AllUsable(endpoints);
      forall i, j | 0 <= i < j < |out|
        ensures out[i].tag != out[j].tag
      {
        TagsApart(endpoints, i, j);
      }
    }
  }

  lemma {:induction false} AllUsable(endpoints: seq<Endpoint>)
    requires TagsUsable(endpoints) && forall i | 0 <= i < |endpoints| :: Proxy(endpoints[i])
    ensures forall i | 0 <= i < |Finished(endpoints)| ::
              Finished(endpoints)[i].Outbound? && Usable(Finished(endpoints)[i].tag) && Usable(Finished(endpoints)[i].kind)
  {
  }

  lemma {:induction false} TagsApart(endpoints: seq<Endpoint>, i: nat, j: nat)
    requires TagsUsable(endpoints) && i < j < |Finished(endpoints)|
    ensures Finished(endpoints)[i].tag != Finished(endpoints)[j].tag
  {
    FinishedTags(endpoints);
    hide Finished;
  }

  lemma {:induction false} EndpointSafe(endpoints: seq<Endpoint>, tag: string)
    requires forall i | 0 <= i < |endpoints| :: Proxy(endpoints[i])
    requires WellFormed(Finished(endpoints)) && Tagged(endpoints, tag)
    ensures Safe(IndexOf(Finished(endpoints)), Named(tag))
  {
    var i :| 0 <= i < |endpoints| && endpoints[i].tag == tag;
    assert Finished(endpoints)[i] == Rendered(endpoints[i]);
    IndexAt(Finished(endpoints), i);
    SafeEquation(IndexOf(Finished(endpoints)), Named(tag));
  }

  /** A group of safe tags is safe. */
  lemma {:induction false} GroupSafe(endpoints: seq<Endpoint>, i: nat, kind: string, tag: string, tags: seq<string>)
    requires WellFormed(Finished(endpoints)) && i < |Finished(endpoints)|
    requires Finished(endpoints)[i] == Selector(kind, tag, tags) && kind != "direct" && tags != []
    ensures Safe(IndexOf(Finished(endpoints)), Named(tag)) <==>
              forall k | 0 <= k < |tags| :: Safe(IndexOf(Finished(endpoints)), Named(tags[k]))
  {
    IndexAt(Finished(endpoints), i);
    SafeEquation(IndexOf(Finished(endpoints)), Named(tag));
    var g := IndexOf(Finished(endpoints));
    var refs := Refs(tags);
    assert NodeOf(g[tag]) == Group(refs);
    hide Safe;
    if forall k | 0 <= k < |tags| :: Safe(g, Named(tags[k])) {
      forall k | 0 <= k < |refs|
        ensures Safe(g, refs[k])
      {
        assert refs[k] == Named(tags[k]);
      }
    }
    if forall k | 0 <= k < |refs| :: Safe(g, refs[k]) {
      forall k | 0 <= k < |tags|
        ensures Safe(g, Named(tags[k]))
      {
        assert refs[k] == Named(tags[k]);
      }
    }
  }

  lemma {:induction false} DirectUnsafe(endpoints: seq<Endpoint>)
    requires WellFormed(Finished(endpoints))
    ensures var g := IndexOf(Finished(endpoints)); !Safe(g, Named("direct")) && PlainlyDirect(g, Named("direct"))
  {
    var out := Finished(endpoints);
    var g := IndexOf(out);
    IndexAt(out, |out| - 2);
    SafeEquation(g, Named("direct"));
    assert DirectWithin(g, Named("direct"), 1);
  }

  lemma {:induction false} BlockSafe(endpoints: seq<Endpoint>)
    requires WellFormed(Finished(endpoints))
    ensures Safe(IndexOf(Finished(endpoints)), Named("block"))
  {
    var out := Finished(endpoints);
    IndexAt(out, |out| - 1);
    SafeEquation(IndexOf(out), Named("block"));
  }

  lemma {:induction false} AutoSafe(endpoints: seq<Endpoint>)
    requires forall i | 0 <= i < |endpoints| :: Proxy(endpoints[i])
    requires WellFormed(Finished(endpoints)) && Automatic(endpoints, SnellTags(endpoints)) != []
    ensures Safe(IndexOf(Finished(endpoints)), Named("auto"))
  {
    var out, snell := Finished(endpoints), SnellTags(endpoints);
    var automatic := Automatic(endpoints, snell);
    var i := |endpoints| + (if snell != [] then 2 else 1);
    assert out[i] == Selector("urltest", "auto", automatic);
    forall k | 0 <= k < |automatic|
      ensures Safe(IndexOf(out), Named(automatic[k]))
    {
      SelectionTags(endpoints, snell, automatic[k]);
      EndpointSafe(endpoints, automatic[k]);
    }
    GroupSafe(endpoints, i, "urltest", "auto", automatic);
  }

  lemma {:induction false} SnellSafe(endpoints: seq<Endpoint>)
    requires forall i | 0 <= i < |endpoints| :: Proxy(endpoints[i])
    requires WellFormed(Finished(endpoints)) && SnellTags(endpoints) != []
    ensures Safe(IndexOf(Finished(endpoints)), Named("snell-evaluation"))
  {
    var out, snell := Finished(endpoints), SnellTags(endpoints);
    assert out[|endpoints|] == Selector("selector", "snell-evaluation", snell);
    forall k | 0 <= k < |snell|
      ensures Safe(IndexOf(out), Named(snell[k]))
    {
      SelectionTags(endpoints, snell, snell[k]);
      EndpointSafe(endpoints, snell[k]);
    }
    GroupSafe(endpoints, |endpoints|, "selector", "snell-evaluation", snell);
  }

  /** `select` is safe exactly when automatic selection has a member. */
  lemma {:induction false} SelectSafe(endpoints: seq<Endpoint>)
    requires forall i | 0 <= i < |endpoints| :: Proxy(endpoints[i])
    requires WellFormed(Finished(endpoints))
    ensures Safe(IndexOf(Finished(endpoints)), Named("select")) <==> Automatic(endpoints, SnellTags(endpoints)) != []
  {
    var out, snell := Finished(endpoints), SnellTags(endpoints);
    var g := IndexOf(out);
    var automatic := Automatic(endpoints, snell);
    var i := |endpoints| + (if snell != [] then 1 else 0);
    var tags := SelectTags(automatic, snell);
    assert out[i] == Selector("selector", "select", tags);
    GroupSafe(endpoints, i, "selector", "select", tags);
    DirectUnsafe(endpoints);
    if automatic == [] {
      assert tags[0] == "direct";
    } else {
      AutoSafe(endpoints);
      if snell != [] {
        SnellSafe(endpoints);
      }
      hide Safe, Finished;
      forall k | 0 <= k < |tags|
        ensures Safe(g, Named(tags[k]))
      {
        if k < |automatic| {
          assert tags[k] == automatic[k];
          SelectionTags(endpoints, snell, tags[k]);
          EndpointSafe(endpoints, automatic[k]);
        }
      }
    }
  }

  lemma {:induction false} RulesSafe(g: Graph, bypass: string, viaTun: string)
    requires !Safe(g, Named("direct"))
    ensures Safe(g, Named("select")) ==>
              (RouteCertified(g, Route(Some("select"), Some(RulesOf(bypass, viaTun)))) <==> bypass == "")
    ensures !Safe(g, Named("select")) ==> !RouteCertified(g, Route(Some("select"), Some(RulesOf(bypass, viaTun))))
  {
    hide Safe;
    var rules := RulesOf(bypass, viaTun);
    assert Sniffs(rules[|rules| - 2]);
    if bypass != "" {
      assert !RuleCertified(g, rules[0]);
    }
  }

  lemma {:induction false} AddedResolved(endpoints: seq<Endpoint>, tag: string)
    requires forall i | 0 <= i < |endpoints| :: Proxy(endpoints[i])
    requires WellFormed(Finished(endpoints)) && Automatic(endpoints, SnellTags(endpoints)) != []
    requires tag in AddedTags(endpoints)
    ensures Resolved(IndexOf(Finished(endpoints)), Named(tag))
  {
    hide Safe, PlainlyDirect, Finished, WellFormed;
    if tag == "direct" {
      DirectUnsafe(endpoints);
    } else if tag == "block" {
      BlockSafe(endpoints);
    } else if tag == "select" {
      SelectSafe(endpoints);
    } else if tag == "auto" {
      AutoSafe(endpoints);
    } else {
      SnellSafe(endpoints);
    }
  }

  lemma {:induction false} AllResolved(endpoints: seq<Endpoint>)
    requires forall i | 0 <= i < |endpoints| :: Proxy(endpoints[i])
    requires WellFormed(Finished(endpoints)) && Automatic(endpoints, SnellTags(endpoints)) != []
    ensures forall t | t in IndexOf(Finished(endpoints)) :: Resolved(IndexOf(Finished(endpoints)), Named(t))
  {
    hide Safe, PlainlyDirect, Finished, WellFormed, Proxy;
    var out := Finished(endpoints);
    FinishedTags(endpoints);
    forall t | t in IndexOf(out)
      ensures Resolved(IndexOf(out), Named(t))
    {
      IndexTags(out, t);
      var i :| 0 <= i < |out| && out[i].Outbound? && out[i].tag == Some(t);
      if i < |endpoints| {
        assert Tagged(endpoints, t);
        EndpointSafe(endpoints, t);
      } else {
        AddedResolved(endpoints, t);
      }
    }
  }
}
