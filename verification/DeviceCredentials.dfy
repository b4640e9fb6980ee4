/** Issuing and revoking one device over a fleet of credential documents. */
module DeviceCredentials {
  import opened Wrappers
  import opened AddressPool
  import opened DeviceAuthority

  datatype Kind = XrayKind | HysteriaKind | AwgKind | SnellKind | NaiveKind

  /** A fleet node: its cohort, what that cohort's profile resolves to, and the operator's choices. */
  datatype Node = Node(
    cohort: string,
    kinds: set<Kind>,
    variants: set<string>,
    xrayCohorts: seq<string>,
    awgInstance: Option<string>)

  /** Fresh secrets; every Snell variant gets a key of its own. */
  datatype Identity = Identity(
    uuid: string, shortId: string, hysteriaPassword: string, naivePassword: string,
    awgPrivate: string, awgPsk: string, userKey: (string, string) -> string)

  /** Checks and key derivations that are not part of this model. */
  datatype Rules = Rules(
    sound: (Node, Document) -> bool,
    hostValid: string -> bool,
    publicKey: string -> Option<string>,
    fingerprint: string -> string)

  type Fleet = map<string, Document>

  // ---------------------------------------------------------------- discovery

  predicate NameCharacter(c: char) {
    'A' <= c <= 'Z' || 'a' <= c <= 'z' || '0' <= c <= '9' || c == '_' || c == '-'
  }

  predicate ValidName(name: string) {
    1 <= |name| <= 64 && forall i | 0 <= i < |name| :: NameCharacter(name[i])
  }

  predicate DistinctNames(rows: seq<Row>) {
    forall i, j | 0 <= i < j < |rows| :: rows[i].name != rows[j].name
  }

  predicate Examinable(rows: seq<Row>, name: string) {
    && |rows| <= 256 && DistinctNames(rows)
    && forall i | 0 <= i < |rows| && rows[i].name == name :: !rows[i].routed
  }

  predicate Discoverable(doc: Document, name: string) {
    && ValidName(name)
    && forall k | 0 <= k < |Collections(doc.transports)| :: Examinable(Collections(doc.transports)[k], name)
  }

  predicate Known(doc: Document, name: string) {
    HeldAnywhere(doc.transports, name) || name in doc.registry
  }

  /** Whether a document knows the device, or None when its collections cannot be trusted. */
  method Discover(doc: Document, name: string) returns (found: Option<bool>)
    ensures found.Some? <==> Discoverable(doc, name)
    ensures found.Some? ==> (found.value <==> Known(doc, name))
  {
    hide Examinable, Holds, Collections;
    if !ValidName(name) {
      return None;
    }
    var collections := Collections(doc.transports);
    var known := false;
    for k := 0 to |collections|
      invariant forall i | 0 <= i < k :: Examinable(collections[i], name)
      invariant known <==> exists i :: 0 <= i < k && Holds(collections[i], name)
    {
      if !Examinable(collections[k], name) {
        return None;
      }
      known := known || Holds(collections[k], name);
    }
    found := Some(known || name in doc.registry);
  }

  // ---------------------------------------------------------------- one node

  function Credential(name: string, keys: seq<string>): Row {
    Row(name, keys, false, NoPrefix, NoPrefix)
  }

  predicate Distinct(values: seq<string>) {
    forall i, j | 0 <= i < j < |values| :: values[i] != values[j]
  }

  predicate CohortNamed(cohorts: seq<Cohort>, name: string) {
    exists j :: 0 <= j < |cohorts| && cohorts[j].name == name
  }

  predicate Among(names: seq<string>, cohorts: seq<Cohort>) {
    forall i | 0 <= i < |names| :: CohortNamed(cohorts, names[i])
  }

  /** The device joins the chosen cohorts. */
  function Joined(cohorts: seq<Cohort>, chosen: seq<string>, name: string): (r: seq<Cohort>)
    ensures |r| == |cohorts|
  {
    seq(|cohorts|, i requires 0 <= i < |cohorts| =>
      if cohorts[i].name in chosen then cohorts[i].(clients := cohorts[i].clients + [name]) else cohorts[i])
  }

  function AddXray(t: Transports, node: Node, name: string, id: Identity): Option<Transports> {
    if XrayKind !in node.kinds then Some(t)
    else if t.xray.None? then None
    else
      var Xray(clients, cohorts) := t.xray.value;
      var chosen := node.xrayCohorts;
      if !Distinct(chosen) || (cohorts == []) != (chosen == []) || !Among(chosen, cohorts) then None
      else Some(t.(xray := Some(Xray(clients + [Credential(name, [id.uuid, id.shortId])], Joined(cohorts, chosen, name)))))
  }

  function AddHysteria(t: Transports, node: Node, name: string, id: Identity): Option<Transports> {
    if HysteriaKind !in node.kinds then Some(t)
    else if t.hysteria.None? then None
    else Some(t.(hysteria := Some(t.hysteria.value + [Credential(name, [id.hysteriaPassword])])))
  }

  predicate Selects(instance: Instance, wanted: Option<string>) {
    wanted.None? || instance.name == wanted.value
  }

  /** The one instance the device goes to; several or none are refused. */
  function Selected(instances: seq<Instance>, wanted: Option<string>): (r: Option<nat>)
    ensures r.Some? ==> r.value < |instances| && Selects(instances[r.value], wanted)
    ensures r.Some? ==> forall i | 0 <= i < |instances| && i != r.value :: !Selects(instances[i], wanted)
  {
    if instances == [] then None
    else
      var last := |instances| - 1;
      if Selects(instances[last], wanted) then
        if exists i :: 0 <= i < last && Selects(instances[i], wanted) then None else Some(last)
      else Selected(instances[..last], wanted)
  }

  /** Every address claim of the node: peers of all instances and all server addresses. */
  function Prefixes(peers: seq<Row>, family: Family): seq<AllowedIp> {
    seq(|peers|, i requires 0 <= i < |peers| => PrefixOf(peers[i], family))
  }

  function AllPrefixes(instances: seq<Instance>, family: Family): seq<AllowedIp> {
    if instances == [] then []
    else
      var last := instances[|instances| - 1];
      AllPrefixes(instances[..|instances| - 1], family) + [ServerPrefix(last, family)] + Prefixes(last.peers, family)
  }

  function Claims(prefixes: seq<AllowedIp>): Option<seq<Claim>> {
    if prefixes == [] then Some([])
    else
      match (Claims(prefixes[..|prefixes| - 1]), prefixes[|prefixes| - 1])
      case (None, _) => None
      case (_, BadPrefix) => None
      case (Some(claims), NoPrefix) => Some(claims)
      case (Some(claims), Prefix(claim)) => Some(claims + [claim])
  }

  /** The last host of the pool: an IPv4 broadcast address is not one. */
  function LastHost(server: Interface, family: Family): int
    requires server.Interface?
  {
    if family.V4? then server.broadcast - 1 else server.broadcast
  }

  function Allocated(instances: seq<Instance>, k: nat, family: Family): Option<nat>
    requires k < |instances|
  {
    var server := InterfaceOf(instances[k], family);
    var claims := Claims(AllPrefixes(instances, family));
    if server.BadInterface? || claims.None? then None
    else FreeAddress(claims.value, server.network + 1, LastHost(server, family))
  }

  function AddAwg(t: Transports, node: Node, name: string, id: Identity, rules: Rules): Option<Transports> {
    if AwgKind !in node.kinds then Some(t)
    else
      match Selected(t.awg, node.awgInstance)
      case None => None
      case Some(k) =>
        match (Allocated(t.awg, k, V4), Allocated(t.awg, k, V6), rules.publicKey(id.awgPrivate))
        case (Some(v4), Some(v6), Some(key)) =>
          Some(t.(awg := WithPeer(t.awg, k, Row(name, [key, id.awgPsk], false, Prefix(Claim(v4, v4)), Prefix(Claim(v6, v6))))))
        case _ => None
  }

  function Subscribed(variants: seq<Variant>, selected: set<string>, host: string, name: string, id: Identity): (r: seq<Variant>)
    ensures |r| == |variants|
  {
    seq(|variants|, i requires 0 <= i < |variants| =>
      if variants[i].id in selected
      then variants[i].(users := variants[i].users + [Credential(name, [id.userKey(host, variants[i].id)])])
      else variants[i])
  }

  function Ids(variants: seq<Variant>): set<string> {
    set i | 0 <= i < |variants| :: variants[i].id
  }

  function AddSnell(t: Transports, node: Node, host: string, name: string, id: Identity): Option<Transports> {
    if SnellKind !in node.kinds then Some(t)
    else if node.variants == {} || !(node.variants <= Ids(t.snell)) then None
    else Some(t.(snell := Subscribed(t.snell, node.variants, host, name, id)))
  }

  function AddNaive(t: Transports, node: Node, name: string, id: Identity): Option<Transports> {
    if NaiveKind !in node.kinds then Some(t)
    else if t.naive.None? then None
    else Some(t.(naive := Some(t.naive.value + [Credential(name, [name, id.naivePassword])])))
  }

  function Provisioned(t: Transports, node: Node, host: string, name: string, id: Identity, rules: Rules): Option<Transports> {
    match AddXray(t, node, name, id)
    case None => None
    case Some(a) =>
      match AddHysteria(a, node, name, id)
      case None => None
      case Some(b) =>
        match AddAwg(b, node, name, id, rules)
        case None => None
        case Some(c) =>
          match AddSnell(c, node, host, name, id)
          case None => None
          case Some(d) => AddNaive(d, node, name, id)
  }

  function Cohorts(hosts: seq<string>, nodes: map<string, Node>): seq<string>
    requires forall i | 0 <= i < |hosts| :: hosts[i] in nodes
  {
    seq(|hosts|, i requires 0 <= i < |hosts| => nodes[hosts[i]].cohort)
  }

  function EntryFor(t: Transports, node: Node, host: string, order: Order, cohorts: seq<string>, rules: Rules): Entry {
    var id := order.id;
    var fixed := Entry("issued", order.issuedAt, order.hosts, cohorts, [], "", "", None, "", "", "", None, None, None);
    var k := Selected(t.awg, node.awgInstance);
    var key := rules.publicKey(id.awgPrivate);
    if AwgKind !in node.kinds || k.None? || key.None? then fixed
    else fixed.(binding := Some(Binding(host, t.awg[k.value].name)), privateKey := id.awgPrivate, fingerprint := rules.fingerprint(key.value))
  }

  predicate UniqueValues(values: seq<string>) {
    Distinct(values) && forall i | 0 <= i < |values| :: values[i] != ""
  }

  /** Names and every secret of a collection are present and all different. */
  predicate UniqueRows(rows: seq<Row>) {
    && UniqueValues(seq(|rows|, i requires 0 <= i < |rows| => rows[i].name))
    && (forall i, j | 0 <= i < |rows| && 0 <= j < |rows| :: |rows[i].keys| == |rows[j].keys|)
    && (forall i, k | 0 <= i < |rows| && 0 <= k < |rows[i].keys| :: rows[i].keys[k] != "")
    && (forall i, j, k | 0 <= i < j < |rows| && 0 <= k < |rows[i].keys| && k < |rows[j].keys| :: rows[i].keys[k] != rows[j].keys[k])
  }

  predicate Unique(t: Transports) {
    forall k | 0 <= k < |Collections(t)| :: UniqueRows(Collections(t)[k])
  }

  /** The device enrolled on one node. */
  function Enrolled(doc: Document, node: Node, host: string, entry: Entry, name: string, id: Identity, rules: Rules): Option<Document> {
    if !rules.hostValid(host) || node.kinds == {} || !rules.sound(node, doc) then None
    else
      match Provisioned(doc.transports, node, host, name, id, rules)
      case None => None
      case Some(t) =>
        var result := Document(t, doc.registry[name := entry]);
        if rules.sound(node, result) && Unique(t) then Some(result) else None
  }

  // ---------------------------------------------------------------- the fleet

  datatype Order = Order(name: string, hosts: seq<string>, issuedAt: string, id: Identity)

  predicate Admissible(fleet: Fleet, nodes: map<string, Node>, order: Order) {
    && fleet.Keys == nodes.Keys
    && order.hosts != [] && Distinct(order.hosts) && (forall i | 0 <= i < |order.hosts| :: order.hosts[i] in nodes)
    && forall host | host in fleet :: Discoverable(fleet[host], order.name) && !Known(fleet[host], order.name)
  }

  function EnrolledAt(fleet: Fleet, nodes: map<string, Node>, order: Order, rules: Rules, host: string): Option<Document> {
    if host !in fleet || host !in nodes || exists i :: 0 <= i < |order.hosts| && order.hosts[i] !in nodes then None
    else
      var entry := EntryFor(fleet[host].transports, nodes[host], host, order, Cohorts(order.hosts, nodes), rules);
      Enrolled(fleet[host], nodes[host], host, entry, order.name, order.id, rules)
  }

  /** `result` is the fleet after exactly these hosts enrolled the device. */
  ghost predicate EnrolledOn(fleet: Fleet, nodes: map<string, Node>, order: Order, rules: Rules, hosts: seq<string>, result: Fleet) {
    && result.Keys == fleet.Keys
    && (forall host | host in hosts :: host in result && Some(result[host]) == EnrolledAt(fleet, nodes, order, rules, host))
    && (forall host | host in fleet && host !in hosts :: result[host] == fleet[host])
  }

  ghost predicate Issued(fleet: Fleet, nodes: map<string, Node>, order: Order, rules: Rules, result: Fleet) {
    Admissible(fleet, nodes, order) && EnrolledOn(fleet, nodes, order, rules, order.hosts, result)
  }

  /** Enroll a device: every selected node accepts it, or nothing is issued at all. */
  method Issue(fleet: Fleet, nodes: map<string, Node>, order: Order, rules: Rules) returns (result: Option<Fleet>)
    ensures result.Some? ==> Issued(fleet, nodes, order, rules, result.value)
    ensures result.None? ==>
              || !Admissible(fleet, nodes, order)
              || exists host :: host in order.hosts && EnrolledAt(fleet, nodes, order, rules, host).None?
  {
    hide EnrolledAt, Discoverable, Known;
    if !Admissible(fleet, nodes, order) {
      return None;
    }
    var issued := fleet;
    for i := 0 to |order.hosts|
      invariant EnrolledOn(fleet, nodes, order, rules, order.hosts[..i], issued)
    {
      var host := order.hosts[i];
      var document := EnrolledAt(fleet, nodes, order, rules, host);
      if document.None? {
        return None;
      }
      assert order.hosts[..i + 1] == order.hosts[..i] + [host];
      issued := issued[host := document.value];
    }
    assert order.hosts[..|order.hosts|] == order.hosts;
    result := Some(issued);
  }

  function RevokedEntry(entry: Entry): Entry {
    entry.(status := "revoked", binding := None, privateKey := "", fingerprint := "", deliveryHost := "",
           lastPayload := "", tokenPrefix := "", formats := [], migrationDelivery := None)
  }

  function RevokedDocument(doc: Document, name: string): Document {
    if !Known(doc, name) then doc
    else
      Document(Without(doc.transports, name),
               if name in doc.registry then doc.registry[name := RevokedEntry(doc.registry[name])] else doc.registry)
  }

  ghost predicate Revoked(fleet: Fleet, name: string, result: Fleet) {
    && result.Keys == fleet.Keys
    && (forall host | host in fleet :: Discoverable(fleet[host], name) && result[host] == RevokedDocument(fleet[host], name))
  }

  /** Remove a device everywhere, or refuse because some document cannot be examined. */
  method Revoke(fleet: Fleet, name: string) returns (result: Option<Fleet>)
    ensures result.Some? ==> Revoked(fleet, name, result.value)
    ensures result.None? <==> exists host :: host in fleet && !Discoverable(fleet[host], name)
  {
    hide Discoverable, RevokedDocument;
    var revoked, todo := fleet, fleet.Keys;
    while todo != {}
      invariant todo <= fleet.Keys && revoked.Keys == fleet.Keys
      invariant forall host | host in todo :: revoked[host] == fleet[host]
      invariant forall host | host in fleet && host !in todo ::
                  Discoverable(fleet[host], name) && revoked[host] == RevokedDocument(fleet[host], name)
    {
      var host :| host in todo;
      var found := Discover(fleet[host], name);
      if found.None? {
        return None;
      }
      revoked, todo := revoked[host := RevokedDocument(fleet[host], name)], todo - {host};
    }
    result := Some(revoked);
  }
}
