/** What issuing and revoking devices keeps, adds, restores and removes, over any history of a fleet. */
module CredentialLaws {
  import opened Wrappers
  import opened AddressPool
  import opened DeviceAuthority
  import opened DeviceCredentials

  // ---------------------------------------------------------------- enrollment only appends

  ghost predicate GrownRows(before: seq<Row>, after: seq<Row>, name: string) {
    || after == before
    || (|after| == |before| + 1 && after == before + [after[|before|]] && after[|before|].name == name && !after[|before|].routed)
  }

  ghost predicate GrownClients(before: seq<string>, after: seq<string>, name: string) {
    after == before || after == before + [name]
  }

  ghost predicate GrownXray(before: Option<Xray>, after: Option<Xray>, name: string) {
    if before.None? then after.None?
    else
      && after.Some? && GrownRows(before.value.clients, after.value.clients, name)
      && |after.value.cohorts| == |before.value.cohorts|
      && forall i | 0 <= i < |before.value.cohorts| ::
           && after.value.cohorts[i].name == before.value.cohorts[i].name
           && GrownClients(before.value.cohorts[i].clients, after.value.cohorts[i].clients, name)
  }

  ghost predicate GrownOption(before: Option<seq<Row>>, after: Option<seq<Row>>, name: string) {
    if before.None? then after.None? else after.Some? && GrownRows(before.value, after.value, name)
  }

  ghost predicate GrownInstances(before: seq<Instance>, after: seq<Instance>, name: string) {
    && |after| == |before|
    && forall i | 0 <= i < |before| :: after[i] == before[i].(peers := after[i].peers) && GrownRows(before[i].peers, after[i].peers, name)
  }

  ghost predicate GrownVariants(before: seq<Variant>, after: seq<Variant>, name: string) {
    && |after| == |before|
    && forall i | 0 <= i < |before| :: after[i] == before[i].(users := after[i].users) && GrownRows(before[i].users, after[i].users, name)
  }

  /** Every collection is a prefix of the new one, with at most one row of the device behind it; nothing else moved. */
  ghost predicate Grown(before: Transports, after: Transports, name: string) {
    && GrownXray(before.xray, after.xray, name)
    && GrownOption(before.hysteria, after.hysteria, name) && GrownOption(before.naive, after.naive, name)
    && GrownInstances(before.awg, after.awg, name) && GrownVariants(before.snell, after.snell, name)
  }

  lemma {:induction false} XrayGrows(t: Transports, node: Node, name: string, id: Identity)
    requires AddXray(t, node, name, id).Some?
    ensures var u := AddXray(t, node, name, id).value;
            u == t.(xray := u.xray) && GrownXray(t.xray, u.xray, name)
  {
    hide Distinct, Among;
  }

  lemma {:induction false} AwgGrows(t: Transports, node: Node, name: string, id: Identity, rules: Rules)
    requires AddAwg(t, node, name, id, rules).Some?
    ensures var u := AddAwg(t, node, name, id, rules).value;
            u == t.(awg := u.awg) && GrownInstances(t.awg, u.awg, name)
  {
    hide Allocated, Selected;
  }

  lemma {:induction false} SnellGrows(t: Transports, node: Node, host: string, name: string, id: Identity)
    requires AddSnell(t, node, host, name, id).Some?
    ensures var u := AddSnell(t, node, host, name, id).value;
            u == t.(snell := u.snell) && GrownVariants(t.snell, u.snell, name)
  {
    hide Ids;
    var u := AddSnell(t, node, host, name, id).value;
    forall i | 0 <= i < |t.snell|
      ensures u.snell[i] == t.snell[i].(users := u.snell[i].users) && GrownRows(t.snell[i].users, u.snell[i].users, name)
    {
      var variant := t.snell[i];
      if SnellKind in node.kinds && variant.id in node.variants {
        assert u.snell[i].users == variant.users + [Credential(name, [id.userKey(host, variant.id)])];
      } else {
        assert u.snell[i] == variant;
      }
    }
  }

  /** Enrollment leaves every other credential, cohort reference and server identity where it was. */
  lemma {:induction false} ProvisionedGrows(t: Transports, node: Node, host: string, name: string, id: Identity, rules: Rules)
    requires Provisioned(t, node, host, name, id, rules).Some?
    ensures Grown(t, Provisioned(t, node, host, name, id, rules).value, name)
    ensures var u := Provisioned(t, node, host, name, id, rules).value;
            AddAwg(t, node, name, id, rules).Some? && AddAwg(t, node, name, id, rules).value.awg == u.awg
  {
    hide GrownXray, GrownInstances, GrownVariants, Joined, Subscribed, Selected, Allocated, Ids, Among, Distinct;
    var a := AddXray(t, node, name, id).value;
    XrayGrows(t, node, name, id);
    var b := AddHysteria(a, node, name, id).value;
    var c := AddAwg(b, node, name, id, rules).value;
    AwgGrows(b, node, name, id, rules);
    SnellGrows(c, node, host, name, id);
  }

  // ---------------------------------------------------------------- what an enrolled device holds

  /** The rows of every collection, with the device's own in front of each: none of them existed before. */
  ghost predicate Unheld(t: Transports, name: string) {
    && (t.xray.Some? ==> Named(t.xray.value.clients, name) == [])
    && (t.hysteria.Some? ==> Named(t.hysteria.value, name) == []) && (t.naive.Some? ==> Named(t.naive.value, name) == [])
    && (forall i | 0 <= i < |t.awg| :: Named(t.awg[i].peers, name) == [])
    && (forall i | 0 <= i < |t.snell| :: Named(t.snell[i].users, name) == [])
  }

  lemma {:induction false} UnknownIsUnheld(t: Transports, name: string)
    requires !HeldAnywhere(t, name)
    ensures Unheld(t, name)
  {
    hide Named, Holds;
    forall k | 0 <= k < |Collections(t)| ensures Named(Collections(t)[k], name) == [] {
      NamedAbsent(Collections(t)[k], name);
    }
    var a := XrayRows(t.xray);
    var b := a + Optional(t.hysteria);
    var c := b + Optional(t.naive);
    var d := c + PeerRows(t.awg);
    assert t.xray.Some? ==> Collections(t)[0] == t.xray.value.clients;
    assert t.hysteria.Some? ==> Collections(t)[|a|] == t.hysteria.value;
    assert t.naive.Some? ==> Collections(t)[|b|] == t.naive.value;
    forall i | 0 <= i < |t.awg| ensures Collections(t)[|c| + i] == t.awg[i].peers {
      assert PeerRows(t.awg)[i] == t.awg[i].peers;
    }
    forall i | 0 <= i < |t.snell| ensures Collections(t)[|d| + i] == t.snell[i].users {
      assert UserRows(t.snell)[i] == t.snell[i].users;
    }
  }

  function Exactly(enabled: bool, keys: seq<string>, name: string): seq<Row> {
    if enabled then [Credential(name, keys)] else []
  }

  /**
   On an enrolled node the device holds one credential of its identity in every enabled transport
   and none elsewhere: its peer on the one selected instance, a user in each selected variant,
   and a place in exactly the chosen cohorts besides those that already named it.
   */
  ghost predicate HoldsIdentity(before: Transports, t: Transports, node: Node, host: string, name: string, id: Identity, rules: Rules) {
    && HoldsXray(before.xray, t.xray, node, name, id)
    && HoldsOption(t.hysteria, HysteriaKind in node.kinds, [id.hysteriaPassword], name)
    && HoldsOption(t.naive, NaiveKind in node.kinds, [name, id.naivePassword], name)
    && (forall i | 0 <= i < |t.awg| :: HoldsPeer(before.awg, t.awg, i, node, name, id, rules))
    && HoldsUsers(t.snell, node, host, name, id)
  }

  ghost predicate HoldsXray(before: Option<Xray>, after: Option<Xray>, node: Node, name: string, id: Identity) {
    after.Some? ==>
      && before.Some? && |before.value.cohorts| == |after.value.cohorts|
      && Named(after.value.clients, name) == Exactly(XrayKind in node.kinds, [id.uuid, id.shortId], name)
      && forall i | 0 <= i < |after.value.cohorts| ::
           name in after.value.cohorts[i].clients <==>
             || name in before.value.cohorts[i].clients
             || (XrayKind in node.kinds && after.value.cohorts[i].name in node.xrayCohorts)
  }

  ghost predicate HoldsOption(rows: Option<seq<Row>>, enabled: bool, keys: seq<string>, name: string) {
    rows.Some? ==> Named(rows.value, name) == Exactly(enabled, keys, name)
  }

  ghost predicate HoldsUsers(variants: seq<Variant>, node: Node, host: string, name: string, id: Identity) {
    forall i | 0 <= i < |variants| ::
      Named(variants[i].users, name)
      == Exactly(SnellKind in node.kinds && variants[i].id in node.variants, [id.userKey(host, variants[i].id)], name)
  }

  ghost predicate HoldsPeer(before: seq<Instance>, after: seq<Instance>, i: nat, node: Node, name: string, id: Identity, rules: Rules)
    requires i < |after|
  {
    if AwgKind in node.kinds && Selects(after[i], node.awgInstance) then
      && i < |before| && rules.publicKey(id.awgPrivate).Some?
      && Allocated(before, i, V4).Some? && Allocated(before, i, V6).Some?
      && var v4, v6 := Allocated(before, i, V4).value, Allocated(before, i, V6).value;
      Named(after[i].peers, name)
      == [Row(name, [rules.publicKey(id.awgPrivate).value, id.awgPsk], false, Prefix(Claim(v4, v4)), Prefix(Claim(v6, v6)))]
    else Named(after[i].peers, name) == []
  }

  lemma {:induction false} XrayHolds(t: Transports, node: Node, name: string, id: Identity)
    requires AddXray(t, node, name, id).Some? && (t.xray.Some? ==> Named(t.xray.value.clients, name) == [])
    ensures HoldsXray(t.xray, AddXray(t, node, name, id).value.xray, node, name, id)
  {
    hide Distinct, Among, Named;
    if XrayKind in node.kinds {
      NamedAppended(t.xray.value.clients, Credential(name, [id.uuid, id.shortId]), name);
    }
  }

  lemma {:induction false} HysteriaHolds(t: Transports, node: Node, name: string, id: Identity)
    requires AddHysteria(t, node, name, id).Some? && (t.hysteria.Some? ==> Named(t.hysteria.value, name) == [])
    ensures AddHysteria(t, node, name, id).value == t.(hysteria := AddHysteria(t, node, name, id).value.hysteria)
    ensures HoldsOption(AddHysteria(t, node, name, id).value.hysteria, HysteriaKind in node.kinds, [id.hysteriaPassword], name)
  {
    hide Named;
    if HysteriaKind in node.kinds {
      NamedAppended(t.hysteria.value, Credential(name, [id.hysteriaPassword]), name);
    }
  }

  lemma {:induction false} NaiveHolds(t: Transports, node: Node, name: string, id: Identity)
    requires AddNaive(t, node, name, id).Some? && (t.naive.Some? ==> Named(t.naive.value, name) == [])
    ensures AddNaive(t, node, name, id).value == t.(naive := AddNaive(t, node, name, id).value.naive)
    ensures HoldsOption(AddNaive(t, node, name, id).value.naive, NaiveKind in node.kinds, [name, id.naivePassword], name)
  {
    hide Named;
    if NaiveKind in node.kinds {
      NamedAppended(t.naive.value, Credential(name, [name, id.naivePassword]), name);
    }
  }

  lemma {:induction false} AwgHolds(t: Transports, node: Node, name: string, id: Identity, rules: Rules, i: nat)
    requires AddAwg(t, node, name, id, rules).Some? && i < |t.awg|
    requires forall k | 0 <= k < |t.awg| :: Named(t.awg[k].peers, name) == []
    ensures var u := AddAwg(t, node, name, id, rules).value;
            |u.awg| == |t.awg| && HoldsPeer(t.awg, u.awg, i, node, name, id, rules)
  {
    hide Named, Allocated;
    if AwgKind in node.kinds {
      var k := Selected(t.awg, node.awgInstance).value;
      var v4, v6 := Allocated(t.awg, k, V4).value, Allocated(t.awg, k, V6).value;
      var row := Row(name, [rules.publicKey(id.awgPrivate).value, id.awgPsk], false, Prefix(Claim(v4, v4)), Prefix(Claim(v6, v6)));
      NamedAppended(t.awg[k].peers, row, name);
    }
  }

  lemma {:induction false} SnellHolds(t: Transports, node: Node, host: string, name: string, id: Identity)
    requires AddSnell(t, node, host, name, id).Some?
    requires forall i | 0 <= i < |t.snell| :: Named(t.snell[i].users, name) == []
    ensures HoldsUsers(AddSnell(t, node, host, name, id).value.snell, node, host, name, id)
  {
    hide Named, Ids;
    var after := AddSnell(t, node, host, name, id).value.snell;
    forall i | 0 <= i < |after|
      ensures Named(after[i].users, name)
              == Exactly(SnellKind in node.kinds && after[i].id in node.variants, [id.userKey(host, after[i].id)], name)
    {
      NamedAppended(t.snell[i].users, Credential(name, [id.userKey(host, t.snell[i].id)]), name);
    }
  }

  lemma {:induction false} EnrolledHoldsIdentity(t: Transports, node: Node, host: string, name: string, id: Identity, rules: Rules)
    requires Provisioned(t, node, host, name, id, rules).Some? && !HeldAnywhere(t, name)
    ensures HoldsIdentity(t, Provisioned(t, node, host, name, id, rules).value, node, host, name, id, rules)
  {
    UnknownIsUnheld(t, name);
    hide HeldAnywhere, Named, HoldsXray, HoldsOption, HoldsUsers, HoldsPeer, Joined, Subscribed, Selected, Allocated, Ids, Among,
      Distinct, WithPeer, GrownXray, GrownInstances, GrownVariants, AddXray, AddHysteria, AddAwg, AddSnell, AddNaive;
    var a := AddXray(t, node, name, id).value;
    XrayGrows(t, node, name, id);
    XrayHolds(t, node, name, id);
    HysteriaHolds(a, node, name, id);
    var b := AddHysteria(a, node, name, id).value;
    var c := AddAwg(b, node, name, id, rules).value;
    assert b.awg == t.awg;
    forall i | 0 <= i < |t.awg| ensures |c.awg| == |t.awg| && HoldsPeer(t.awg, c.awg, i, node, name, id, rules) {
      AwgHolds(b, node, name, id, rules, i);
    }
    AwgGrows(b, node, name, id, rules);
    SnellHolds(c, node, host, name, id);
    SnellGrows(c, node, host, name, id);
    var d := AddSnell(c, node, host, name, id).value;
    NaiveHolds(d, node, name, id);
  }

  /** The entry names all selected nodes, nothing was delivered yet, and an AmneziaWG key is bound to its one instance. */
  ghost predicate EntryIssued(entry: Entry, awg: seq<Instance>, nodes: map<string, Node>, host: string, order: Order, rules: Rules) {
    && entry.status == "issued" && entry.issuedAt == order.issuedAt && entry.hosts == order.hosts && |entry.cohorts| == |order.hosts|
    && (forall i | 0 <= i < |order.hosts| :: order.hosts[i] in nodes && entry.cohorts[i] == nodes[order.hosts[i]].cohort)
    && entry.formats == [] && entry.tokenPrefix == "" && entry.lastPayload == "" && entry.deliveryHost == ""
    && entry.sources.None? && entry.options.None? && entry.migrationDelivery.None?
    && host in nodes
    && (AwgKind !in nodes[host].kinds ==> entry.binding.None? && entry.privateKey == "" && entry.fingerprint == "")
    && (AwgKind in nodes[host].kinds ==>
          && entry.privateKey == order.id.awgPrivate && rules.publicKey(order.id.awgPrivate).Some?
          && entry.fingerprint == rules.fingerprint(rules.publicKey(order.id.awgPrivate).value)
          && exists k :: 0 <= k < |awg| && Selects(awg[k], nodes[host].awgInstance) && entry.binding == Some(Binding(host, awg[k].name)))
  }

  lemma {:induction false} EntryForMeans(t: Transports, nodes: map<string, Node>, host: string, order: Order, rules: Rules)
    requires host in nodes && forall i | 0 <= i < |order.hosts| :: order.hosts[i] in nodes
    requires AwgKind in nodes[host].kinds ==> rules.publicKey(order.id.awgPrivate).Some? && Selected(t.awg, nodes[host].awgInstance).Some?
    ensures EntryIssued(EntryFor(t, nodes[host], host, order, Cohorts(order.hosts, nodes), rules), t.awg, nodes, host, order, rules)
  {
    hide Selected;
  }

  lemma {:induction false} AwgNeeds(t: Transports, node: Node, host: string, name: string, id: Identity, rules: Rules)
    requires Provisioned(t, node, host, name, id, rules).Some? && AwgKind in node.kinds
    ensures rules.publicKey(id.awgPrivate).Some? && Selected(t.awg, node.awgInstance).Some?
  {
    hide AddXray, AddSnell, AddNaive, Selected, Allocated, WithPeer;
    XrayUntouched(t, node, name, id);
  }

  lemma {:induction false} EntryMeans(fleet: Fleet, nodes: map<string, Node>, order: Order, rules: Rules, issued: Fleet, host: string)
    requires Issued(fleet, nodes, order, rules, issued) && host in fleet && host in order.hosts
    ensures host in issued && order.name in issued[host].registry
    ensures EntryIssued(issued[host].registry[order.name], fleet[host].transports.awg, nodes, host, order, rules)
  {
    hide Unique, Discoverable, Known, Provisioned, Selected, EntryFor, EntryIssued, Distinct;
    assert Some(issued[host]) == EnrolledAt(fleet, nodes, order, rules, host);
    var t, node := fleet[host].transports, nodes[host];
    if AwgKind in node.kinds {
      AwgNeeds(t, node, host, order.name, order.id, rules);
    }
    EntryForMeans(t, nodes, host, order, rules);
  }

  /**
   Issuing is all or nothing over the fleet: every selected node gains exactly the device's
   identity and one issued registry entry naming all of them, every other node is untouched.
   */
  lemma {:induction false} IssuedDevice(fleet: Fleet, nodes: map<string, Node>, order: Order, rules: Rules, issued: Fleet, host: string)
    requires Issued(fleet, nodes, order, rules, issued) && host in fleet
    ensures host in issued && host in nodes
    ensures host !in order.hosts ==> issued[host] == fleet[host]
    ensures host in order.hosts ==>
              && Grown(fleet[host].transports, issued[host].transports, order.name)
              && HoldsIdentity(fleet[host].transports, issued[host].transports, nodes[host], host, order.name, order.id, rules)
              && order.name in issued[host].registry && issued[host].registry - {order.name} == fleet[host].registry
              && EntryIssued(issued[host].registry[order.name], fleet[host].transports.awg, nodes, host, order, rules)
  {
    hide Provisioned, Unique, Discoverable, HeldAnywhere, Grown, HoldsIdentity, Selected, EntryIssued;
    assert !Known(fleet[host], order.name);
    if host in order.hosts {
      assert Some(issued[host]) == EnrolledAt(fleet, nodes, order, rules, host);
      ProvisionedGrows(fleet[host].transports, nodes[host], host, order.name, order.id, rules);
      EnrolledHoldsIdentity(fleet[host].transports, nodes[host], host, order.name, order.id, rules);
      EntryMeans(fleet, nodes, order, rules, issued, host);
    }
  }

  // ---------------------------------------------------------------- disjoint addresses

  function WeightSum(prefixes: seq<AllowedIp>, n: nat): nat {
    if prefixes == [] then 0 else WeightSum(prefixes[..|prefixes| - 1], n) + Weight(prefixes[|prefixes| - 1], n)
  }

  lemma {:induction false} WeightSumOfSum(a: seq<AllowedIp>, b: seq<AllowedIp>, n: nat)
    ensures WeightSum(a + b, n) == WeightSum(a, n) + WeightSum(b, n)
    decreases |b|
  {
    if b == [] {
      assert a + b == a;
    } else {
      WeightSumOfSum(a, b[..|b| - 1], n);
      assert (a + b)[..|a + b| - 1] == a + b[..|b| - 1];
    }
  }

  lemma {:induction false} WeightOfPeers(peers: seq<Row>, family: Family, n: nat)
    ensures WeightSum(Prefixes(peers, family), n) == HeldByPeers(peers, family, n)
    decreases |peers|
  {
    if peers != [] {
      WeightOfPeers(peers[..|peers| - 1], family, n);
      assert Prefixes(peers, family)[..|peers| - 1] == Prefixes(peers[..|peers| - 1], family);
    }
  }

  lemma {:induction false} WeightOfAll(instances: seq<Instance>, family: Family, n: nat)
    ensures WeightSum(AllPrefixes(instances, family), n) == HeldBy(instances, family, n)
    decreases |instances|
  {
    hide Weight, HeldByPeers, Prefixes, ServerPrefix;
    if instances != [] {
      var init, last := instances[..|instances| - 1], instances[|instances| - 1];
      WeightOfAll(init, family, n);
      WeightSumOfSum(AllPrefixes(init, family), [ServerPrefix(last, family)], n);
      WeightSumOfSum(AllPrefixes(init, family) + [ServerPrefix(last, family)], Prefixes(last.peers, family), n);
      WeightOfPeers(last.peers, family, n);
      assert [ServerPrefix(last, family)][..0] == [];
    }
  }

  lemma {:induction false} CoveredAppended(claims: seq<Claim>, claim: Claim, n: nat)
    ensures Covered(claims + [claim], n) <==> Covered(claims, n) || Covers(claim, n)
  {
    CoveredByMore(claims + [claim], |claims|, n);
    assert (claims + [claim])[..|claims|] == claims;
    assert (claims + [claim])[..|claims| + 1] == claims + [claim];
  }

  lemma {:induction false} CoveredIsHeld(prefixes: seq<AllowedIp>, n: nat)
    requires Claims(prefixes).Some?
    ensures Covered(Claims(prefixes).value, n) <==> WeightSum(prefixes, n) > 0
    decreases |prefixes|
  {
    if prefixes != [] {
      hide Covered;
      var init, last := prefixes[..|prefixes| - 1], prefixes[|prefixes| - 1];
      CoveredIsHeld(init, n);
      if last.Prefix? {
        CoveredAppended(Claims(init).value, last.claim, n);
      }
    }
  }

  /** An address is allocated only while nobody on the node holds it. */
  lemma {:induction false} AllocatedUnheld(instances: seq<Instance>, k: nat, family: Family)
    requires k < |instances| && Allocated(instances, k, family).Some?
    ensures HeldBy(instances, family, Allocated(instances, k, family).value) == 0
  {
    hide Covered, FreeAddress, Claims, AllPrefixes, WeightSum, HeldBy;
    var server := InterfaceOf(instances[k], family);
    var prefixes := AllPrefixes(instances, family);
    var n := Allocated(instances, k, family).value;
    LeastFreeAddress(Claims(prefixes).value, server.network + 1, LastHost(server, family));
    CoveredIsHeld(prefixes, n);
    WeightOfAll(instances, family, n);
  }

  // ---------------------------------------------------------------- addresses, field by field

  /** The server or a peer of this instance claims the IPv4 address `n`. */
  predicate TakenV4(instance: Instance, n: nat) {
    || (instance.v4.Interface? && instance.v4.ip == n)
    || PeersClaimV4(instance.peers, n)
  }

  predicate TakenV6(instance: Instance, n: nat) {
    || (instance.v6.Interface? && instance.v6.ip == n)
    || PeersClaimV6(instance.peers, n)
  }

  predicate PeersClaimV4(peers: seq<Row>, n: nat) {
    exists j :: 0 <= j < |peers| && ClaimsAddress(peers[j].v4, n)
  }

  predicate PeersClaimV6(peers: seq<Row>, n: nat) {
    exists j :: 0 <= j < |peers| && ClaimsAddress(peers[j].v6, n)
  }

  predicate ClaimsAddress(prefix: AllowedIp, n: nat) {
    prefix.Prefix? && prefix.claim.start <= n <= prefix.claim.end
  }

  predicate TakenAt(instance: Instance, family: Family, n: nat) {
    match family
    case V4 => TakenV4(instance, n)
    case V6 => TakenV6(instance, n)
  }

  /** Somebody on the node claims the address. */
  predicate Taken(instances: seq<Instance>, family: Family, n: nat) {
    exists i :: 0 <= i < |instances| && TakenAt(instances[i], family, n)
  }

  lemma {:induction false} PeersHold(peers: seq<Row>, family: Family, n: nat)
    ensures HeldByPeers(peers, family, n) > 0 <==> match family case V4 => PeersClaimV4(peers, n) case V6 => PeersClaimV6(peers, n)
    decreases |peers|
  {
    if peers != [] {
      var init := peers[..|peers| - 1];
      PeersHold(init, family, n);
      assert forall j | 0 <= j < |init| :: init[j] == peers[j];
    }
  }

  lemma {:induction false} InstanceHolds(instance: Instance, family: Family, n: nat)
    ensures Weight(ServerPrefix(instance, family), n) + HeldByPeers(instance.peers, family, n) > 0 <==> TakenAt(instance, family, n)
  {
    PeersHold(instance.peers, family, n);
  }

  lemma {:induction false} HeldIsTaken(instances: seq<Instance>, family: Family, n: nat)
    ensures HeldBy(instances, family, n) > 0 <==> Taken(instances, family, n)
    decreases |instances|
  {
    hide TakenAt, HeldByPeers, ServerPrefix, Weight;
    if instances != [] {
      var init := instances[..|instances| - 1];
      HeldIsTaken(init, family, n);
      InstanceHolds(instances[|instances| - 1], family, n);
      assert forall i | 0 <= i < |init| :: init[i] == instances[i];
    }
  }

  /** An address of the pool that a peer may hold: behind the network address, and for IPv4 not the broadcast one. */
  predicate HostAddress(instance: Instance, family: Family, n: nat) {
    match family
    case V4 => instance.v4.Interface? && instance.v4.network < n < instance.v4.broadcast
    case V6 => instance.v6.Interface? && instance.v6.network < n <= instance.v6.broadcast
  }

  /** Every server address and every peer prefix of the family can be read. */
  predicate Readable(instances: seq<Instance>, family: Family) {
    forall i | 0 <= i < |instances| :: ReadableAt(instances[i], family)
  }

  predicate ReadableAt(instance: Instance, family: Family) {
    match family
    case V4 => instance.v4.Interface? && forall j | 0 <= j < |instance.peers| :: !instance.peers[j].v4.BadPrefix?
    case V6 => instance.v6.Interface? && forall j | 0 <= j < |instance.peers| :: !instance.peers[j].v6.BadPrefix?
  }

  predicate NoneBad(prefixes: seq<AllowedIp>) {
    forall i | 0 <= i < |prefixes| :: !prefixes[i].BadPrefix?
  }

  lemma {:induction false} ClaimsRead(prefixes: seq<AllowedIp>)
    ensures Claims(prefixes).Some? <==> NoneBad(prefixes)
    decreases |prefixes|
  {
    if prefixes != [] {
      var init, last := prefixes[..|prefixes| - 1], prefixes[|prefixes| - 1];
      ClaimsRead(init);
      assert prefixes == init + [last];
      BadOfSum(init, [last]);
    }
  }

  lemma {:induction false} BadOfSum(a: seq<AllowedIp>, b: seq<AllowedIp>)
    ensures NoneBad(a + b) <==> NoneBad(a) && NoneBad(b)
  {
    forall i | 0 <= i < |a| ensures (a + b)[i] == a[i] {
    }
    forall i | 0 <= i < |b| ensures (a + b)[|a| + i] == b[i] {
    }
  }

  lemma {:induction false} InstanceRead(instance: Instance, family: Family)
    ensures NoneBad([ServerPrefix(instance, family)]) && NoneBad(Prefixes(instance.peers, family)) <==> ReadableAt(instance, family)
  {
    var server, peers := ServerPrefix(instance, family), Prefixes(instance.peers, family);
    assert NoneBad([server]) <==> !server.BadPrefix? by { assert [server][0] == server; }
    match family
    case V4 =>
      assert forall j | 0 <= j < |peers| :: peers[j] == instance.peers[j].v4;
    case V6 =>
      assert forall j | 0 <= j < |peers| :: peers[j] == instance.peers[j].v6;
  }

  lemma {:induction false} AllRead(instances: seq<Instance>, family: Family)
    ensures Claims(AllPrefixes(instances, family)).Some? <==> Readable(instances, family)
    decreases |instances|
  {
    hide ReadableAt, Claims, NoneBad, Prefixes, ServerPrefix;
    ClaimsRead(AllPrefixes(instances, family));
    if instances != [] {
      var init, last := instances[..|instances| - 1], instances[|instances| - 1];
      AllRead(init, family);
      ClaimsRead(AllPrefixes(init, family));
      BadOfSum(AllPrefixes(init, family), [ServerPrefix(last, family)]);
      BadOfSum(AllPrefixes(init, family) + [ServerPrefix(last, family)], Prefixes(last.peers, family));
      InstanceRead(last, family);
      assert forall i | 0 <= i < |init| :: init[i] == instances[i];
    } else {
      assert NoneBad([]) by { NothingBad(); }
    }
  }

  lemma {:induction false} NothingBad()
    ensures NoneBad([])
  {
  }

  /**
   The allocated address of a family is the least host address of the selected instance's pool
   that no server or peer of the node claims; there is one iff everything can be read and some is free.
   */
  lemma {:induction false} AllocatedLeast(instances: seq<Instance>, k: nat, family: Family)
    requires k < |instances|
    ensures match Allocated(instances, k, family)
            case Some(n) =>
              && Readable(instances, family) && HostAddress(instances[k], family, n) && !Taken(instances, family, n)
              && forall m: nat | HostAddress(instances[k], family, m) && m < n :: Taken(instances, family, m)
            case None => Readable(instances, family) ==> forall m: nat | HostAddress(instances[k], family, m) :: Taken(instances, family, m)
  {
    AllRead(instances, family);
    hide Covered, FreeAddress, Claims, AllPrefixes, WeightSum, HeldBy, Taken, Readable;
    var server := InterfaceOf(instances[k], family);
    var prefixes := AllPrefixes(instances, family);
    if Claims(prefixes).Some? {
      assert server.Interface? by { ReadableServer(instances, k, family); }
      LeastFreeAddress(Claims(prefixes).value, server.network + 1, LastHost(server, family));
      forall m: nat ensures Covered(Claims(prefixes).value, m) <==> Taken(instances, family, m) {
        CoveredIsHeld(prefixes, m);
        WeightOfAll(instances, family, m);
        HeldIsTaken(instances, family, m);
      }
    }
  }

  lemma {:induction false} ReadableServer(instances: seq<Instance>, k: nat, family: Family)
    requires k < |instances| && Readable(instances, family)
    ensures InterfaceOf(instances[k], family).Interface?
  {
    assert ReadableAt(instances[k], family);
  }

  // ---------------------------------------------------------------- when a node accepts a device

  /** The one instance the operator's choice names. */
  predicate Sole(instances: seq<Instance>, wanted: Option<string>, k: nat) {
    k < |instances| && Selects(instances[k], wanted) && forall i | 0 <= i < |instances| && i != k :: !Selects(instances[i], wanted)
  }

  lemma {:induction false} SelectedSole(instances: seq<Instance>, wanted: Option<string>, k: nat)
    ensures Selected(instances, wanted) == Some(k) <==> Sole(instances, wanted, k)
    decreases |instances|
  {
    if instances != [] {
      var init, last := instances[..|instances| - 1], instances[|instances| - 1];
      SelectedSole(init, wanted, k);
      assert forall i | 0 <= i < |init| :: init[i] == instances[i];
      if Selects(last, wanted) && k < |init| {
        assert !Sole(instances, wanted, k);
      }
    }
  }

  /** Both families of the instance have an address left, and nothing on the node is unreadable. */
  ghost predicate AddressesLeft(instances: seq<Instance>, k: nat)
    requires k < |instances|
  {
    AddressLeft(instances, k, V4) && AddressLeft(instances, k, V6)
  }

  ghost predicate AddressLeft(instances: seq<Instance>, k: nat, family: Family)
    requires k < |instances|
  {
    Readable(instances, family) && exists n: nat :: HostAddress(instances[k], family, n) && !Taken(instances, family, n)
  }

  /** What every enabled transport of a node asks for. */
  ghost predicate Provisionable(t: Transports, node: Node, id: Identity, rules: Rules) {
    && (XrayKind in node.kinds ==>
          && t.xray.Some? && Distinct(node.xrayCohorts) && (t.xray.value.cohorts == [] <==> node.xrayCohorts == [])
          && forall c | c in node.xrayCohorts :: CohortNamed(t.xray.value.cohorts, c))
    && (HysteriaKind in node.kinds ==> t.hysteria.Some?) && (NaiveKind in node.kinds ==> t.naive.Some?)
    && (SnellKind in node.kinds ==>
          node.variants != {} && forall v | v in node.variants :: exists i :: 0 <= i < |t.snell| && t.snell[i].id == v)
    && (AwgKind in node.kinds ==>
          rules.publicKey(id.awgPrivate).Some? && exists k :: Sole(t.awg, node.awgInstance, k) && AddressesLeft(t.awg, k))
  }

  lemma {:induction false} XrayAccepted(t: Transports, node: Node, name: string, id: Identity)
    ensures AddXray(t, node, name, id).Some? <==>
              (XrayKind in node.kinds ==>
                && t.xray.Some? && Distinct(node.xrayCohorts) && (t.xray.value.cohorts == [] <==> node.xrayCohorts == [])
                && forall c | c in node.xrayCohorts :: CohortNamed(t.xray.value.cohorts, c))
  {
    hide Joined, Distinct, Among, CohortNamed;
    if t.xray.Some? {
      AmongNamed(node.xrayCohorts, t.xray.value.cohorts);
    }
  }

  lemma {:induction false} AmongNamed(chosen: seq<string>, cohorts: seq<Cohort>)
    ensures Among(chosen, cohorts) <==> forall c | c in chosen :: CohortNamed(cohorts, c)
  {
    hide CohortNamed;
    assert forall i | 0 <= i < |chosen| :: chosen[i] in chosen;
  }

  lemma {:induction false} SnellAccepted(t: Transports, node: Node, host: string, name: string, id: Identity)
    ensures AddSnell(t, node, host, name, id).Some? <==>
              (SnellKind in node.kinds ==>
                node.variants != {} && forall v | v in node.variants :: exists i :: 0 <= i < |t.snell| && t.snell[i].id == v)
  {
    hide Subscribed;
    assert node.variants <= Ids(t.snell) <==> forall v | v in node.variants :: v in Ids(t.snell);
  }

  lemma {:induction false} AwgAccepted(t: Transports, node: Node, name: string, id: Identity, rules: Rules)
    ensures AddAwg(t, node, name, id, rules).Some? <==>
              (AwgKind in node.kinds ==>
                rules.publicKey(id.awgPrivate).Some? && exists k :: Sole(t.awg, node.awgInstance, k) && AddressesLeft(t.awg, k))
  {
    hide WithPeer, Allocated, AddressLeft, Sole;
    forall k: nat ensures Selected(t.awg, node.awgInstance) == Some(k) <==> Sole(t.awg, node.awgInstance, k) {
      SelectedSole(t.awg, node.awgInstance, k);
    }
    if Selected(t.awg, node.awgInstance).Some? {
      var k := Selected(t.awg, node.awgInstance).value;
      AddressesFound(t.awg, k);
      assert forall i: nat | Sole(t.awg, node.awgInstance, i) :: i == k;
    }
  }

  lemma {:induction false} AddressesFound(instances: seq<Instance>, k: nat)
    requires k < |instances|
    ensures AddressesLeft(instances, k) <==> Allocated(instances, k, V4).Some? && Allocated(instances, k, V6).Some?
  {
    hide Allocated, AddressLeft;
    AddressFound(instances, k, V4);
    AddressFound(instances, k, V6);
  }

  lemma {:induction false} AddressFound(instances: seq<Instance>, k: nat, family: Family)
    requires k < |instances|
    ensures Allocated(instances, k, family).Some? <==> AddressLeft(instances, k, family)
  {
    hide Allocated, Readable, Taken, HostAddress;
    AllocatedLeast(instances, k, family);
  }

  /** A node accepts a device exactly when each of its enabled transports has what it needs. */
  lemma {:induction false} ProvisionAccepted(t: Transports, node: Node, host: string, name: string, id: Identity, rules: Rules)
    ensures Provisioned(t, node, host, name, id, rules).Some? <==> Provisionable(t, node, id, rules)
  {
    XrayAccepted(t, node, name, id);
    hide Selected, AddressesLeft, Sole, Distinct;
    if AddXray(t, node, name, id).Some? {
      XrayUntouched(t, node, name, id);
      var a := AddXray(t, node, name, id).value;
      hide AddXray;
      if AddHysteria(a, node, name, id).Some? {
        var b := AddHysteria(a, node, name, id).value;
        AwgAccepted(b, node, name, id, rules);
        if AddAwg(b, node, name, id, rules).Some? {
          AwgUntouched(b, node, name, id, rules);
          var c := AddAwg(b, node, name, id, rules).value;
          hide AddAwg;
          SnellAccepted(c, node, host, name, id);
          if AddSnell(c, node, host, name, id).Some? {
            SnellUntouched(c, node, host, name, id);
          }
        }
      }
    }
  }

  /** Beyond that, the host and the document have to be sound before and after, and nothing may be used twice. */
  lemma {:induction false} EnrollmentAccepted(doc: Document, node: Node, host: string, entry: Entry, name: string, id: Identity, rules: Rules)
    ensures Enrolled(doc, node, host, entry, name, id, rules).Some? <==>
              && rules.hostValid(host) && node.kinds != {} && rules.sound(node, doc) && Provisionable(doc.transports, node, id, rules)
              && var t := Provisioned(doc.transports, node, host, name, id, rules);
                 t.Some? && rules.sound(node, Document(t.value, doc.registry[name := entry])) && Unique(t.value)
  {
    hide Provisioned, Provisionable, Unique;
    ProvisionAccepted(doc.transports, node, host, name, id, rules);
  }

  /** After an issue no two rows of a collection share a name or a secret, and none is empty. */
  lemma {:induction false} IssuedDistinct(fleet: Fleet, nodes: map<string, Node>, order: Order, rules: Rules, issued: Fleet, host: string, k: nat)
    requires Issued(fleet, nodes, order, rules, issued) && host in order.hosts && host in fleet && host in issued
    requires k < |Collections(issued[host].transports)|
    ensures var rows := Collections(issued[host].transports)[k];
            && (forall i | 0 <= i < |rows| :: rows[i].name != "" && forall x | 0 <= x < |rows[i].keys| :: rows[i].keys[x] != "")
            && (forall i, j | 0 <= i < j < |rows| :: rows[i].name != rows[j].name && |rows[i].keys| == |rows[j].keys|
                  && forall x | 0 <= x < |rows[i].keys| :: rows[i].keys[x] != rows[j].keys[x])
  {
    hide Provisioned, Collections, Discoverable, Known, EntryFor;
    assert Some(issued[host]) == EnrolledAt(fleet, nodes, order, rules, host);
    var rows := Collections(issued[host].transports)[k];
    assert UniqueRows(rows);
    NamesUnique(rows);
    NamesPresent(rows);
  }

  lemma {:induction false} NamesPresent(rows: seq<Row>)
    requires UniqueRows(rows)
    ensures forall i | 0 <= i < |rows| :: rows[i].name != ""
  {
    var names := seq(|rows|, i requires 0 <= i < |rows| => rows[i].name);
    assert forall i | 0 <= i < |rows| :: names[i] == rows[i].name;
  }

  lemma {:induction false} XrayUntouched(t: Transports, node: Node, name: string, id: Identity)
    requires AddXray(t, node, name, id).Some?
    ensures AddXray(t, node, name, id).value == t.(xray := AddXray(t, node, name, id).value.xray)
  {
    hide Distinct, Among;
  }

  lemma {:induction false} AwgUntouched(t: Transports, node: Node, name: string, id: Identity, rules: Rules)
    requires AddAwg(t, node, name, id, rules).Some?
    ensures AddAwg(t, node, name, id, rules).value == t.(awg := AddAwg(t, node, name, id, rules).value.awg)
  {
    hide Allocated, Selected, WithPeer;
  }

  lemma {:induction false} SnellUntouched(t: Transports, node: Node, host: string, name: string, id: Identity)
    requires AddSnell(t, node, host, name, id).Some?
    ensures AddSnell(t, node, host, name, id).value == t.(snell := AddSnell(t, node, host, name, id).value.snell)
  {
    hide Subscribed, Ids;
  }

  lemma {:induction false} EnrollingKeepsDisjoint(t: Transports, node: Node, name: string, id: Identity, rules: Rules)
    requires Disjoint(t.awg) && AddAwg(t, node, name, id, rules).Some?
    ensures Disjoint(AddAwg(t, node, name, id, rules).value.awg)
  {
    hide Disjoint, Allocated, Selected, WithPeer;
    if AwgKind in node.kinds {
      var k := Selected(t.awg, node.awgInstance).value;
      var v4, v6 := Allocated(t.awg, k, V4).value, Allocated(t.awg, k, V6).value;
      var row := Row(name, [rules.publicKey(id.awgPrivate).value, id.awgPsk], false, Prefix(Claim(v4, v4)), Prefix(Claim(v6, v6)));
      AllocatedUnheld(t.awg, k, V4);
      AllocatedUnheld(t.awg, k, V6);
      DisjointWithPeer(t.awg, k, row, v4, v6);
    }
  }

  lemma {:induction false} DisjointWithPeer(instances: seq<Instance>, k: nat, row: Row, v4: nat, v6: nat)
    requires k < |instances| && Disjoint(instances)
    requires row.v4 == Prefix(Claim(v4, v4)) && row.v6 == Prefix(Claim(v6, v6))
    requires HeldBy(instances, V4, v4) == 0 && HeldBy(instances, V6, v6) == 0
    ensures Disjoint(WithPeer(instances, k, row))
  {
    hide HeldBy, WithPeer;
    forall family, n: nat ensures HeldBy(WithPeer(instances, k, row), family, n) <= 1 {
      HeldWithPeer(instances, k, row, family, n);
    }
  }

  // ---------------------------------------------------------------- histories of a fleet

  datatype Operation = Issuing(nodes: map<string, Node>, order: Order, rules: Rules) | Revoking(name: string)

  ghost predicate Effect(before: Fleet, operation: Operation, after: Fleet) {
    match operation
    case Issuing(nodes, order, rules) => Issued(before, nodes, order, rules, after)
    case Revoking(name) => Revoked(before, name, after)
  }

  /** The fleets between successful operations; refused ones change nothing. */
  ghost predicate History(fleets: seq<Fleet>, operations: seq<Operation>) {
    && |fleets| == |operations| + 1
    && forall i | 0 <= i < |operations| :: Effect(fleets[i], operations[i], fleets[i + 1])
  }

  ghost predicate FleetDisjoint(fleet: Fleet) {
    forall host | host in fleet :: Disjoint(fleet[host].transports.awg)
  }

  lemma {:induction false} IssuingKeepsDisjoint(fleet: Fleet, nodes: map<string, Node>, order: Order, rules: Rules, result: Fleet)
    requires FleetDisjoint(fleet) && Issued(fleet, nodes, order, rules, result)
    ensures FleetDisjoint(result)
  {
    hide Disjoint, Admissible, Provisioned, Unique, AddAwg, EntryFor;
    forall host | host in result ensures Disjoint(result[host].transports.awg) {
      if host in order.hosts {
        assert Some(result[host]) == EnrolledAt(fleet, nodes, order, rules, host);
        ProvisionedGrows(fleet[host].transports, nodes[host], host, order.name, order.id, rules);
        EnrollingKeepsDisjoint(fleet[host].transports, nodes[host], order.name, order.id, rules);
      }
    }
  }

  lemma {:induction false} RevokingKeepsDisjoint(fleet: Fleet, name: string, result: Fleet)
    requires FleetDisjoint(fleet) && Revoked(fleet, name, result)
    ensures FleetDisjoint(result)
  {
    hide Disjoint, Discoverable, Known, OtherPeers;
    forall host | host in result ensures Disjoint(result[host].transports.awg) {
      DisjointWithout(fleet[host].transports.awg, name);
    }
  }

  /** Addresses that are disjoint once stay disjoint through every history of issues and revocations. */
  lemma {:induction false} AlwaysDisjoint(fleets: seq<Fleet>, operations: seq<Operation>, i: nat)
    requires History(fleets, operations) && FleetDisjoint(fleets[0]) && i < |fleets|
    ensures FleetDisjoint(fleets[i])
  {
    hide FleetDisjoint, Issued, Revoked;
    if i > 0 {
      AlwaysDisjoint(fleets, operations, i - 1);
      assert Effect(fleets[i - 1], operations[i - 1], fleets[i]);
      match operations[i - 1]
      case Issuing(nodes, order, rules) => IssuingKeepsDisjoint(fleets[i - 1], nodes, order, rules, fleets[i]);
      case Revoking(name) => RevokingKeepsDisjoint(fleets[i - 1], name, fleets[i]);
    }
  }

  // ---------------------------------------------------------------- issue, then revoke

  lemma {:induction false} OthersOfGrown(before: seq<Row>, after: seq<Row>, name: string)
    requires GrownRows(before, after, name)
    ensures Others(after, name) == Others(before, name)
  {
    if after != before {
      OthersOfAppended(before, after[|before|]);
    }
  }

  lemma {:induction false} OtherXrayOfGrown(before: Option<Xray>, after: Option<Xray>, name: string)
    requires GrownXray(before, after, name)
    ensures OtherXray(after, name) == OtherXray(before, name)
  {
    hide Others, OtherClients, GrownRows;
    if before.Some? {
      OthersOfGrown(before.value.clients, after.value.clients, name);
      var a, b := before.value.cohorts, after.value.cohorts;
      forall i | 0 <= i < |a| ensures OtherClients(b[i].clients, name) == OtherClients(a[i].clients, name) {
        OtherClientsOfAppended(a[i].clients, name);
      }
      assert OtherCohorts(b, name) == OtherCohorts(a, name);
    }
  }

  /** Removing the device from grown transports removes exactly what was added, wherever it already was. */
  lemma {:induction false} WithoutGrown(before: Transports, after: Transports, name: string)
    requires Grown(before, after, name)
    ensures Without(after, name) == Without(before, name)
  {
    hide Others, GrownRows, GrownXray, OtherXray;
    OtherXrayOfGrown(before.xray, after.xray, name);
    if before.hysteria.Some? {
      OthersOfGrown(before.hysteria.value, after.hysteria.value, name);
    }
    if before.naive.Some? {
      OthersOfGrown(before.naive.value, after.naive.value, name);
    }
    forall i | 0 <= i < |before.awg| ensures OtherPeers(after.awg, name)[i] == OtherPeers(before.awg, name)[i] {
      OthersOfGrown(before.awg[i].peers, after.awg[i].peers, name);
    }
    forall i | 0 <= i < |before.snell| ensures OtherUsers(after.snell, name)[i] == OtherUsers(before.snell, name)[i] {
      OthersOfGrown(before.snell[i].users, after.snell[i].users, name);
    }
    assert OtherPeers(after.awg, name) == OtherPeers(before.awg, name);
    assert OtherUsers(after.snell, name) == OtherUsers(before.snell, name);
  }

  /**
   Issuing and then revoking restores every node: an untouched node entirely, and on an
   enrolled one every collection, order included, leaving one revoked registry entry.  The
   cohort lists of an enrolled node are restored iff none named the device beforehand.
   */
  lemma {:induction false} RevokeUndoesIssue(
    fleet: Fleet, nodes: map<string, Node>, order: Order, rules: Rules, issued: Fleet, revoked: Fleet, host: string)
    requires Issued(fleet, nodes, order, rules, issued) && Revoked(issued, order.name, revoked)
    requires host in fleet
    ensures host in revoked
    ensures host !in order.hosts ==> revoked[host] == fleet[host]
    ensures host in order.hosts ==>
              && (revoked[host].transports == fleet[host].transports <==> !ListedInCohort(fleet[host].transports, order.name))
              && Collections(revoked[host].transports) == Collections(fleet[host].transports)
              && order.name in revoked[host].registry && revoked[host].registry[order.name].status == "revoked"
              && revoked[host].registry - {order.name} == fleet[host].registry
  {
    hide Provisioned, Unique, EntryFor, Discoverable, HeldAnywhere, ListedInCohort, Collections, Without, Grown, RevokedEntry;
    assert !Known(fleet[host], order.name);
    if host in order.hosts {
      assert Some(issued[host]) == EnrolledAt(fleet, nodes, order, rules, host);
      ProvisionedGrows(fleet[host].transports, nodes[host], host, order.name, order.id, rules);
      UndoneDocument(fleet[host], issued[host], order.name);
    }
  }

  lemma {:induction false} UndoneDocument(was: Document, now: Document, name: string)
    requires Grown(was.transports, now.transports, name) && !HeldAnywhere(was.transports, name)
    requires name !in was.registry && name in now.registry && now.registry == was.registry[name := now.registry[name]]
    ensures var after := RevokedDocument(now, name);
            && (after.transports == was.transports <==> !ListedInCohort(was.transports, name))
            && Collections(after.transports) == Collections(was.transports)
            && name in after.registry && after.registry[name].status == "revoked" && after.registry - {name} == was.registry
  {
    hide HeldAnywhere, ListedInCohort, Collections, Without, Grown;
    WithoutGrown(was.transports, now.transports, name);
    WithoutAbsent(was.transports, name);
    CollectionsUnheld(was.transports, name);
  }

  lemma {:induction false} CollectionsUnheld(t: Transports, name: string)
    requires !HeldAnywhere(t, name)
    ensures Collections(Without(t, name)) == Collections(t)
  {
    hide Collections, Others, Without, Holds;
    CollectionsWithout(t, name);
    forall k | 0 <= k < |Collections(t)| ensures Others(Collections(t)[k], name) == Collections(t)[k] {
      OthersOfAbsent(Collections(t)[k], name);
    }
  }

  // ---------------------------------------------------------------- revocation

  lemma {:induction false} DistinctOthers(rows: seq<Row>, name: string)
    requires DistinctNames(rows)
    ensures DistinctNames(Others(rows, name))
    ensures forall i | 0 <= i < |Others(rows, name)| :: Others(rows, name)[i] in rows
    decreases |rows|
  {
    if rows != [] {
      var init, last := rows[..|rows| - 1], rows[|rows| - 1];
      DistinctOthers(init, name);
      forall row | row in init ensures row.name != last.name && row in rows {
        var i :| 0 <= i < |init| && init[i] == row;
        assert rows[i] == row;
      }
    }
  }

  lemma {:induction false} ExaminableOthers(rows: seq<Row>, name: string)
    requires Examinable(rows, name)
    ensures Examinable(Others(rows, name), name)
  {
    hide Others, DistinctNames;
    DistinctOthers(rows, name);
    OthersOfAbsent(rows, name);
  }

  lemma {:induction false} StillDiscoverable(doc: Document, name: string)
    requires Discoverable(doc, name)
    ensures Discoverable(RevokedDocument(doc, name), name)
  {
    hide Others, Collections, Without, Examinable, Known, ValidName;
    CollectionsWithout(doc.transports, name);
    forall k | 0 <= k < |Collections(doc.transports)| ensures Examinable(Others(Collections(doc.transports)[k], name), name) {
      ExaminableOthers(Collections(doc.transports)[k], name);
    }
  }

  /**
   A revoked device has no credential anywhere, and its registry entry holds no recovery material.
   A cohort reference survives exactly in a document that names the device nowhere else.
   */
  lemma {:induction false} RevokeRemovesAll(fleet: Fleet, name: string, result: Fleet, host: string)
    requires Revoked(fleet, name, result) && host in fleet
    ensures host in result && !HeldAnywhere(result[host].transports, name)
    ensures ListedInCohort(result[host].transports, name) <==>
              ListedInCohort(fleet[host].transports, name) && !Known(fleet[host], name)
    ensures name in result[host].registry <==> name in fleet[host].registry
    ensures name in result[host].registry ==>
              var entry := result[host].registry[name];
              var was := fleet[host].registry[name];
              && entry.status == "revoked" && entry.binding == None && entry.privateKey == "" && entry.fingerprint == ""
              && entry.tokenPrefix == "" && entry.formats == [] && entry.migrationDelivery == None
              && entry.deliveryHost == "" && entry.lastPayload == ""
              && entry.issuedAt == was.issuedAt && entry.hosts == was.hosts && entry.cohorts == was.cohorts
              && entry.sources == was.sources && entry.options == was.options
  {
    hide HeldAnywhere, ListedInCohort, Without, Discoverable;
    WithoutHoldsNothing(fleet[host].transports, name);
  }

  /** There are such documents: one where only a cohort list names the device. */
  lemma {:induction false} CohortReferenceSurvives() returns (fleet: Fleet, result: Fleet)
    ensures Revoked(fleet, "phone", result) && fleet.Keys == {"node"}
    ensures ListedInCohort(result["node"].transports, "phone")
  {
    var doc := Document(Transports(Some(Xray([], [Cohort("family", ["phone"])])), None, None, [], []), map[]);
    fleet := map["node" := doc];
    result := fleet;
    assert Collections(doc.transports) == [[]];
    assert doc.transports.xray.value.cohorts[0].clients == ["phone"];
  }

  /** Nobody else loses, gains or reorders anything. */
  lemma {:induction false} RevokeKeepsOthers(fleet: Fleet, name: string, result: Fleet, host: string, other: string, k: nat)
    requires Revoked(fleet, name, result) && host in fleet && other != name
    requires k < |Collections(fleet[host].transports)|
    ensures host in result && |Collections(result[host].transports)| == |Collections(fleet[host].transports)|
    ensures Named(Collections(result[host].transports)[k], other) == Named(Collections(fleet[host].transports)[k], other)
    ensures other in result[host].registry <==> other in fleet[host].registry
    ensures other in fleet[host].registry ==> result[host].registry[other] == fleet[host].registry[other]
  {
    hide Collections, Without, Named, Discoverable, Known;
    WithoutKeepsOthers(fleet[host].transports, name, other, k);
  }

  /** Revoking again is accepted and changes nothing. */
  lemma {:induction false} RevokeIdempotent(fleet: Fleet, name: string, result: Fleet)
    requires Revoked(fleet, name, result)
    ensures Revoked(result, name, result)
  {
    hide Discoverable, HeldAnywhere, ListedInCohort, Without;
    forall host | host in result
      ensures Discoverable(result[host], name) && RevokedDocument(result[host], name) == result[host]
    {
      StillDiscoverable(fleet[host], name);
      var t := fleet[host].transports;
      if Known(fleet[host], name) {
        WithoutHoldsNothing(t, name);
        WithoutAbsent(Without(t, name), name);
        if name in result[host].registry {
          assert result[host].registry[name := RevokedEntry(result[host].registry[name])] == result[host].registry;
        }
      }
    }
  }

  // ---------------------------------------------------------------- can an issued device be revoked?

  /** No collection has outgrown what discovery examines. */
  predicate EachSmall(collections: seq<seq<Row>>) {
    forall k | 0 <= k < |collections| :: |collections[k]| <= 256
  }

  predicate WithinLimit(t: Transports) {
    EachSmall(Collections(t))
  }

  lemma {:induction false} NamesUnique(rows: seq<Row>)
    requires UniqueRows(rows)
    ensures DistinctNames(rows)
  {
    var names := seq(|rows|, i requires 0 <= i < |rows| => rows[i].name);
    forall i, j | 0 <= i < j < |rows| ensures rows[i].name != rows[j].name {
      assert names[i] == rows[i].name && names[j] == rows[j].name;
    }
  }

  lemma {:induction false} GrownNotRouted(before: seq<Row>, after: seq<Row>, name: string)
    requires GrownRows(before, after, name) && !Holds(before, name)
    ensures forall i | 0 <= i < |after| && after[i].name == name :: !after[i].routed
  {
    forall i | 0 <= i < |before| ensures before[i].name != name && after[i] == before[i] {
    }
  }

  /** The collections of grown transports, one by one. */
  lemma {:induction false} CollectionsGrown(before: Transports, after: Transports, name: string)
    requires Grown(before, after, name)
    ensures |Collections(after)| == |Collections(before)|
    ensures forall k | 0 <= k < |Collections(before)| :: GrownRows(Collections(before)[k], Collections(after)[k], name)
  {
    hide GrownRows;
    GrownSum(XrayRows(before.xray), XrayRows(after.xray), Optional(before.hysteria), Optional(after.hysteria), name);
    var a, b := XrayRows(before.xray) + Optional(before.hysteria), XrayRows(after.xray) + Optional(after.hysteria);
    GrownSum(a, b, Optional(before.naive), Optional(after.naive), name);
    a, b := a + Optional(before.naive), b + Optional(after.naive);
    GrownSum(a, b, PeerRows(before.awg), PeerRows(after.awg), name);
    a, b := a + PeerRows(before.awg), b + PeerRows(after.awg);
    GrownSum(a, b, UserRows(before.snell), UserRows(after.snell), name);
  }

  ghost predicate GrownEach(before: seq<seq<Row>>, after: seq<seq<Row>>, name: string) {
    |after| == |before| && forall k | 0 <= k < |before| :: GrownRows(before[k], after[k], name)
  }

  lemma {:induction false} GrownSum(a: seq<seq<Row>>, b: seq<seq<Row>>, c: seq<seq<Row>>, d: seq<seq<Row>>, name: string)
    requires GrownEach(a, b, name) && GrownEach(c, d, name)
    ensures GrownEach(a + c, b + d, name)
  {
    hide GrownRows;
  }

  function Gained(yes: bool): nat {
    if yes then 1 else 0
  }

  /** Every collection that issuing adds a row to still has room for one that discovery accepts. */
  predicate HasRoom(t: Transports, node: Node) {
    && (XrayKind in node.kinds && t.xray.Some? ==> |t.xray.value.clients| < 256)
    && (HysteriaKind in node.kinds && t.hysteria.Some? ==> |t.hysteria.value| < 256)
    && (NaiveKind in node.kinds && t.naive.Some? ==> |t.naive.value| < 256)
    && (AwgKind in node.kinds ==> forall i | 0 <= i < |t.awg| && Selects(t.awg[i], node.awgInstance) :: |t.awg[i].peers| < 256)
    && (SnellKind in node.kinds ==> forall i | 0 <= i < |t.snell| && t.snell[i].id in node.variants :: |t.snell[i].users| < 256)
  }

  ghost predicate Enlarged(t: Transports, u: Transports, node: Node) {
    && (t.xray.Some? <==> u.xray.Some?)
    && (t.xray.Some? ==> |u.xray.value.clients| == |t.xray.value.clients| + Gained(XrayKind in node.kinds))
    && (t.hysteria.Some? <==> u.hysteria.Some?)
    && (t.hysteria.Some? ==> |u.hysteria.value| == |t.hysteria.value| + Gained(HysteriaKind in node.kinds))
    && (t.naive.Some? <==> u.naive.Some?)
    && (t.naive.Some? ==> |u.naive.value| == |t.naive.value| + Gained(NaiveKind in node.kinds))
    && |u.awg| == |t.awg| && |u.snell| == |t.snell|
    && (forall i | 0 <= i < |t.awg| ::
          |u.awg[i].peers| == |t.awg[i].peers| + Gained(AwgKind in node.kinds && Selects(t.awg[i], node.awgInstance)))
    && (forall i | 0 <= i < |t.snell| ::
          |u.snell[i].users| == |t.snell[i].users| + Gained(SnellKind in node.kinds && t.snell[i].id in node.variants))
  }

  lemma {:induction false} AwgEnlarged(t: Transports, node: Node, name: string, id: Identity, rules: Rules)
    requires AddAwg(t, node, name, id, rules).Some?
    ensures var u := AddAwg(t, node, name, id, rules).value;
            && u == t.(awg := u.awg) && |u.awg| == |t.awg|
            && forall i | 0 <= i < |t.awg| ::
                 |u.awg[i].peers| == |t.awg[i].peers| + Gained(AwgKind in node.kinds && Selects(t.awg[i], node.awgInstance))
  {
    hide Allocated, Selected;
  }

  lemma {:induction false} SnellEnlarged(t: Transports, node: Node, host: string, name: string, id: Identity)
    requires AddSnell(t, node, host, name, id).Some?
    ensures var u := AddSnell(t, node, host, name, id).value;
            && u == t.(snell := u.snell) && |u.snell| == |t.snell|
            && forall i | 0 <= i < |t.snell| ::
                 |u.snell[i].users| == |t.snell[i].users| + Gained(SnellKind in node.kinds && t.snell[i].id in node.variants)
  {
    hide Ids;
  }

  lemma {:induction false} ProvisionedEnlarges(t: Transports, node: Node, host: string, name: string, id: Identity, rules: Rules)
    requires Provisioned(t, node, host, name, id, rules).Some?
    ensures Enlarged(t, Provisioned(t, node, host, name, id, rules).value, node)
  {
    hide AddAwg, AddSnell, Joined, Among, Distinct;
    var a := AddXray(t, node, name, id).value;
    var b := AddHysteria(a, node, name, id).value;
    var c := AddAwg(b, node, name, id, rules).value;
    AwgEnlarged(b, node, name, id, rules);
    SnellEnlarged(c, node, host, name, id);
  }

  /** The limit, transport by transport. */
  predicate EachWithinLimit(t: Transports) {
    && (t.xray.Some? ==> |t.xray.value.clients| <= 256)
    && (t.hysteria.Some? ==> |t.hysteria.value| <= 256)
    && (t.naive.Some? ==> |t.naive.value| <= 256)
    && (forall i | 0 <= i < |t.awg| :: |t.awg[i].peers| <= 256)
    && (forall i | 0 <= i < |t.snell| :: |t.snell[i].users| <= 256)
  }

  lemma {:induction false} SmallSum(a: seq<seq<Row>>, b: seq<seq<Row>>)
    ensures EachSmall(a + b) <==> EachSmall(a) && EachSmall(b)
  {
    forall k | 0 <= k < |a| ensures (a + b)[k] == a[k] {
    }
    forall k | 0 <= k < |b| ensures (a + b)[|a| + k] == b[k] {
    }
  }

  lemma {:induction false} LimitByTransport(t: Transports)
    ensures WithinLimit(t) <==> EachWithinLimit(t)
  {
    var a := XrayRows(t.xray);
    var b := a + Optional(t.hysteria);
    var c := b + Optional(t.naive);
    SmallSum(a, Optional(t.hysteria));
    SmallSum(b, Optional(t.naive));
    SmallSum(c, PeerRows(t.awg));
    SmallSum(c + PeerRows(t.awg), UserRows(t.snell));
    assert Collections(t) == c + PeerRows(t.awg) + UserRows(t.snell);
    SmallRows(t);
  }

  lemma {:induction false} SmallRows(t: Transports)
    ensures EachSmall(XrayRows(t.xray)) <==> (t.xray.Some? ==> |t.xray.value.clients| <= 256)
    ensures EachSmall(Optional(t.hysteria)) <==> (t.hysteria.Some? ==> |t.hysteria.value| <= 256)
    ensures EachSmall(Optional(t.naive)) <==> (t.naive.Some? ==> |t.naive.value| <= 256)
    ensures EachSmall(PeerRows(t.awg)) <==> forall i | 0 <= i < |t.awg| :: |t.awg[i].peers| <= 256
    ensures EachSmall(UserRows(t.snell)) <==> forall i | 0 <= i < |t.snell| :: |t.snell[i].users| <= 256
  {
    assert t.xray.Some? ==> XrayRows(t.xray)[0] == t.xray.value.clients;
    assert t.hysteria.Some? ==> Optional(t.hysteria)[0] == t.hysteria.value;
    assert t.naive.Some? ==> Optional(t.naive)[0] == t.naive.value;
    forall i | 0 <= i < |t.awg| ensures PeerRows(t.awg)[i] == t.awg[i].peers {
    }
    forall i | 0 <= i < |t.snell| ensures UserRows(t.snell)[i] == t.snell[i].users {
    }
  }

  lemma {:induction false} EnlargedWithinLimit(t: Transports, u: Transports, node: Node)
    requires Enlarged(t, u, node) && WithinLimit(t)
    ensures WithinLimit(u) <==> HasRoom(t, node)
  {
    hide WithinLimit;
    LimitByTransport(t);
    LimitByTransport(u);
  }

  /**
   An issued device can be revoked iff no collection that gained a row was full already:
   issuing into a full collection succeeds and leaves a document that revocation refuses.
   */
  lemma {:induction false} IssuedIsRevocable(fleet: Fleet, nodes: map<string, Node>, order: Order, rules: Rules, issued: Fleet)
    requires Issued(fleet, nodes, order, rules, issued)
    ensures (forall host | host in issued :: Discoverable(issued[host], order.name)) <==>
            forall host | host in order.hosts :: HasRoom(fleet[host].transports, nodes[host])
  {
    hide Provisioned, EntryFor, WithinLimit, Discoverable, Known, Unique, HasRoom, Enlarged;
    forall host | host in issued
      ensures Discoverable(issued[host], order.name) <==> host in order.hosts ==> HasRoom(fleet[host].transports, nodes[host])
    {
      assert Discoverable(fleet[host], order.name) && !Known(fleet[host], order.name);
      DiscoverableWithinLimit(fleet[host], order.name);
      if host in order.hosts {
        assert Some(issued[host]) == EnrolledAt(fleet, nodes, order, rules, host);
        ProvisionedGrows(fleet[host].transports, nodes[host], host, order.name, order.id, rules);
        ProvisionedEnlarges(fleet[host].transports, nodes[host], host, order.name, order.id, rules);
        EnlargedWithinLimit(fleet[host].transports, issued[host].transports, nodes[host]);
        NodeRevocable(fleet[host], issued[host], order.name);
      }
    }
  }

  // ---------------------------------------------------------------- a full collection

  /** A name, and a password, that no other row has: two letters for every number below 256. */
  function Tally(n: nat): (name: string)
    requires n < 256
    ensures ValidName(name)
  {
    ['a' + (n / 16) as char, 'a' + (n % 16) as char]
  }

  lemma {:induction false} TalliesDiffer(i: nat, k: nat)
    requires i < k < 256
    ensures Tally(i) != Tally(k)
  {
    assert i / 16 != k / 16 || i % 16 != k % 16;
  }

  function FullRows(): (rows: seq<Row>)
    ensures |rows| == 256
  {
    seq(256, i requires 0 <= i < 256 => Credential(Tally(i), [Tally(i)]))
  }

  lemma {:induction false} FullRowsUnique(rows: seq<Row>)
    requires rows == FullRows() + [Credential("phone", ["secret"])]
    ensures UniqueRows(rows)
  {
    hide Tally, ValidName;
    forall i | 0 <= i < 256 ensures rows[i].keys[0] != "" {
      TwoLetters(i);
    }
    forall i, j | 0 <= i < j < |rows|
      ensures rows[i].name != rows[j].name && rows[i].keys[0] != rows[j].keys[0]
    {
      if j < 256 {
        TalliesDiffer(i, j);
      } else {
        TwoLetters(i);
      }
    }
  }

  lemma {:induction false} TwoLetters(i: nat)
    requires i < 256
    ensures |Tally(i)| == 2 && Tally(i) != "phone" && Tally(i) != "secret"
  {
    assert |Tally(i)| == 2;
  }

  /** Issuing into a collection of exactly 256 rows succeeds, and discovery then refuses the document. */
  lemma {:induction false} FullCollectionSticks()
      returns (fleet: Fleet, nodes: map<string, Node>, order: Order, rules: Rules, issued: Fleet)
    ensures Issued(fleet, nodes, order, rules, issued) && order.hosts == ["node"]
    ensures fleet["node"].transports.hysteria == Some(FullRows()) && forall i | 0 <= i < 256 :: ValidName(FullRows()[i].name)
    ensures !Discoverable(issued["node"], order.name)
  {
    hide FullRows, UniqueRows;
    var t := Transports(None, Some(FullRows()), None, [], []);
    var node := Node("cohort", {HysteriaKind}, {}, [], None);
    var id := Identity("", "", "secret", "", "", "", (host, variant) => "");
    order := Order("phone", ["node"], "today", id);
    rules := Rules((n, d) => true, h => true, k => None, k => "");
    fleet, nodes := map["node" := Document(t, map[])], map["node" := node];
    var rows := FullRows() + [Credential("phone", ["secret"])];
    var u := t.(hysteria := Some(rows));
    FullRowsUnique(rows);
    FullRowsExaminable();
    assert Collections(t) == [FullRows()] && Collections(u) == [rows];
    assert Provisioned(t, node, "node", "phone", id, rules) == Some(u);
    var entry := EntryFor(t, node, "node", order, Cohorts(order.hosts, nodes), rules);
    issued := map["node" := Document(u, map["phone" := entry])];
    assert |Collections(u)[0]| == 257;
  }

  lemma {:induction false} FullRowsExaminable()
    ensures Examinable(FullRows(), "phone") && !Holds(FullRows(), "phone")
  {
    var rows := FullRows();
    hide Tally, ValidName;
    forall i | 0 <= i < |rows| ensures rows[i].name != "phone" {
      TwoLetters(i);
    }
    forall i, j | 0 <= i < j < |rows| ensures rows[i].name != rows[j].name {
      TalliesDiffer(i, j);
    }
  }

  lemma {:induction false} DiscoverableWithinLimit(doc: Document, name: string)
    requires Discoverable(doc, name)
    ensures WithinLimit(doc.transports)
  {
    hide Collections, DistinctNames, ValidName;
  }

  lemma {:induction false} NodeRevocable(before: Document, after: Document, name: string)
    requires Discoverable(before, name) && !Known(before, name)
    requires Grown(before.transports, after.transports, name) && Unique(after.transports)
    ensures Discoverable(after, name) <==> WithinLimit(after.transports)
  {
    hide Collections, Grown, GrownRows, UniqueRows, DistinctNames, Holds, ValidName;
    CollectionsGrown(before.transports, after.transports, name);
    forall k | 0 <= k < |Collections(after.transports)|
      ensures Examinable(Collections(after.transports)[k], name) <==> |Collections(after.transports)[k]| <= 256
    {
      NamesUnique(Collections(after.transports)[k]);
      GrownNotRouted(Collections(before.transports)[k], Collections(after.transports)[k], name);
    }
  }

  // ---------------------------------------------------------------- discovery

  /** 1 to 64 letters, digits, `_` or `-`. */
  predicate Spelled(name: string) {
    && 1 <= |name| <= 64
    && forall c | c in name :: 'A' <= c <= 'Z' || 'a' <= c <= 'z' || '0' <= c <= '9' || c == '_' || c == '-'
  }

  lemma {:induction false} SpelledMeans(name: string)
    ensures ValidName(name) <==> Spelled(name)
  {
    assert forall i | 0 <= i < |name| :: name[i] in name;
  }

  /** These are the rows of one of the transports. */
  ghost predicate Stored(t: Transports, rows: seq<Row>) {
    || (t.xray.Some? && rows == t.xray.value.clients) || t.hysteria == Some(rows) || t.naive == Some(rows)
    || (exists i :: 0 <= i < |t.awg| && rows == t.awg[i].peers)
    || exists i :: 0 <= i < |t.snell| && rows == t.snell[i].users
  }

  lemma {:induction false} StoredMeans(t: Transports, rows: seq<Row>)
    ensures rows in Collections(t) <==> Stored(t, rows)
  {
    assert rows in PeerRows(t.awg) <==> exists i :: 0 <= i < |t.awg| && rows == t.awg[i].peers by {
      assert forall i | 0 <= i < |t.awg| :: PeerRows(t.awg)[i] == t.awg[i].peers;
    }
    assert rows in UserRows(t.snell) <==> exists i :: 0 <= i < |t.snell| && rows == t.snell[i].users by {
      assert forall i | 0 <= i < |t.snell| :: UserRows(t.snell)[i] == t.snell[i].users;
    }
  }

  /** At most 256 rows of different names, and the device's own is not a routed peer. */
  predicate Examined(rows: seq<Row>, name: string) {
    && |rows| <= 256 && (forall i, j | 0 <= i < j < |rows| :: rows[i].name != rows[j].name)
    && forall row | row in rows && row.name == name :: !row.routed
  }

  /** Which documents discovery accepts, and in which it finds the device. */
  lemma {:induction false} DiscoveryAccepted(doc: Document, name: string)
    ensures Discoverable(doc, name) <==> Spelled(name) && forall rows | Stored(doc.transports, rows) :: Examined(rows, name)
    ensures Known(doc, name) <==>
            name in doc.registry || exists rows, row: Row :: Stored(doc.transports, rows) && row in rows && row.name == name
  {
    hide Collections, Stored, ValidName, Spelled;
    var collections := Collections(doc.transports);
    SpelledMeans(name);
    forall rows
      ensures rows in collections <==> Stored(doc.transports, rows)
    {
      StoredMeans(doc.transports, rows);
    }
    forall rows
      ensures Examinable(rows, name) <==> Examined(rows, name)
    {
      assert forall i | 0 <= i < |rows| :: rows[i] in rows;
    }
    hide Examinable, Examined;
    assert forall k | 0 <= k < |collections| :: collections[k] in collections;
    if rows, row: Row :| Stored(doc.transports, rows) && row in rows && row.name == name {
      var k :| 0 <= k < |collections| && collections[k] == rows;
      assert Holds(collections[k], name);
    }
  }
}
