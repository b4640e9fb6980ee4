/**
 The credential documents of one node: rows of every transport, their owners, and the
 addresses they hold.  A document's AmneziaWG instances carry their effective addresses, that
 is after the profile's defaults were applied.
 */
module DeviceAuthority {
  import opened Wrappers
  import opened AddressPool

  datatype Family = V4 | V6

  datatype AllowedIp = NoPrefix | BadPrefix | Prefix(claim: Claim)

  datatype Interface = BadInterface | Interface(ip: nat, network: nat, broadcast: nat)

  /**
   One credential.  `keys` are its secrets in the order the uniqueness check names them:
   uuid and short id, password, public and preshared key, user key, or user name and password.
   */
  datatype Row = Row(name: string, keys: seq<string>, routed: bool, v4: AllowedIp, v6: AllowedIp)

  datatype Cohort = Cohort(name: string, clients: seq<string>)

  datatype Xray = Xray(clients: seq<Row>, cohorts: seq<Cohort>)

  datatype Instance = Instance(name: string, v4: Interface, v6: Interface, peers: seq<Row>)

  datatype Variant = Variant(id: string, psk: string, users: seq<Row>)

  datatype Transports = Transports(
    xray: Option<Xray>,
    hysteria: Option<seq<Row>>,
    naive: Option<seq<Row>>,
    awg: seq<Instance>,
    snell: seq<Variant>)

  /** The instance a device's key belongs to; the host names its provider and environment. */
  datatype Binding = Binding(host: string, instance: string)

  /** How the device's profile is delivered; `rest` stands for format, expiry and fingerprint options. */
  datatype DeliveryOptions = DeliveryOptions(hosts: seq<string>, cohorts: seq<string>, awgHost: string, rest: string)

  datatype Entry = Entry(
    status: string,
    issuedAt: string,
    hosts: seq<string>,
    cohorts: seq<string>,
    formats: seq<string>,
    tokenPrefix: string,
    lastPayload: string,
    binding: Option<Binding>,
    privateKey: string,
    fingerprint: string,
    deliveryHost: string,
    sources: Option<seq<string>>,
    options: Option<DeliveryOptions>,
    migrationDelivery: Option<string>)

  datatype Document = Document(transports: Transports, registry: map<string, Entry>)

  // ---------------------------------------------------------------- rows by name

  /** The rows of everybody else, in order. */
  function Others(rows: seq<Row>, name: string): seq<Row> {
    if rows == [] then []
    else
      var last := rows[|rows| - 1];
      Others(rows[..|rows| - 1], name) + if last.name == name then [] else [last]
  }

  /** The rows of one name, in order. */
  function Named(rows: seq<Row>, name: string): seq<Row> {
    if rows == [] then []
    else
      var last := rows[|rows| - 1];
      Named(rows[..|rows| - 1], name) + if last.name == name then [last] else []
  }

  function OtherClients(clients: seq<string>, name: string): seq<string> {
    if clients == [] then []
    else
      var last := clients[|clients| - 1];
      OtherClients(clients[..|clients| - 1], name) + if last == name then [] else [last]
  }

  lemma {:induction false} OthersKept(rows: seq<Row>, name: string)
    ensures Named(Others(rows, name), name) == []
    ensures forall other | other != name :: Named(Others(rows, name), other) == Named(rows, other)
    ensures |Others(rows, name)| <= |rows|
    decreases |rows|
  {
    if rows != [] {
      var init, last := rows[..|rows| - 1], rows[|rows| - 1];
      OthersKept(init, name);
      if last.name != name {
        var kept := Others(rows, name);
        assert kept[..|kept| - 1] == Others(init, name);
      } else {
        assert Others(init, name) + [] == Others(init, name);
      }
    }
  }

  lemma {:induction false} NamedAppended(rows: seq<Row>, row: Row, name: string)
    ensures Named(rows + [row], name) == Named(rows, name) + if row.name == name then [row] else []
  {
    assert (rows + [row])[..|rows|] == rows;
  }

  lemma {:induction false} OthersOfAppended(rows: seq<Row>, row: Row)
    ensures Others(rows + [row], row.name) == Others(rows, row.name)
  {
    assert (rows + [row])[..|rows|] == rows;
  }

  lemma {:induction false} OtherClientsOfAppended(clients: seq<string>, name: string)
    ensures OtherClients(clients + [name], name) == OtherClients(clients, name)
  {
    assert (clients + [name])[..|clients|] == clients;
  }

  predicate Holds(rows: seq<Row>, name: string) {
    exists i :: 0 <= i < |rows| && rows[i].name == name
  }

  lemma {:induction false} HoldsAppended(rows: seq<Row>, row: Row, name: string)
    ensures Holds(rows + [row], name) <==> Holds(rows, name) || row.name == name
  {
    if Holds(rows, name) {
      var i :| 0 <= i < |rows| && rows[i].name == name;
      assert (rows + [row])[i].name == name;
    }
    assert (rows + [row])[|rows|] == row;
  }

  lemma {:induction false} NamedAbsent(rows: seq<Row>, name: string)
    requires !Holds(rows, name)
    ensures Named(rows, name) == []
    decreases |rows|
  {
    if rows != [] {
      var init, last := rows[..|rows| - 1], rows[|rows| - 1];
      assert init + [last] == rows;
      HoldsAppended(init, last, name);
      hide Holds;
      NamedAbsent(init, name);
    }
  }

  /** Filtering out a name changes nothing iff no row has it. */
  lemma {:induction false} OthersOfAbsent(rows: seq<Row>, name: string)
    ensures Others(rows, name) == rows <==> !Holds(rows, name)
    ensures |Others(rows, name)| <= |rows|
    ensures !Holds(Others(rows, name), name)
    decreases |rows|
  {
    if rows != [] {
      hide Holds;
      var init, last := rows[..|rows| - 1], rows[|rows| - 1];
      OthersOfAbsent(init, name);
      HoldsAppended(init, last, name);
      assert rows == init + [last];
      if last.name != name {
        HoldsAppended(Others(init, name), last, name);
        assert Others(rows, name)[..|Others(init, name)|] == Others(init, name);
      }
    }
  }

  lemma {:induction false} OtherClientsOfAbsent(clients: seq<string>, name: string)
    ensures OtherClients(clients, name) == clients <==> name !in clients
    ensures |OtherClients(clients, name)| <= |clients|
    ensures name !in OtherClients(clients, name)
    decreases |clients|
  {
    if clients != [] {
      var init, last := clients[..|clients| - 1], clients[|clients| - 1];
      OtherClientsOfAbsent(init, name);
      assert clients == init + [last];
      if OtherClients(clients, name) == clients {
        assert |OtherClients(init, name)| + (if last == name then 0 else 1) == |init| + 1;
        assert OtherClients(clients, name)[..|init|] == OtherClients(init, name);
        assert clients[..|init|] == init;
      }
    }
  }

  // ---------------------------------------------------------------- whole documents

  function OtherCohorts(cohorts: seq<Cohort>, name: string): (r: seq<Cohort>)
    ensures |r| == |cohorts|
  {
    seq(|cohorts|, i requires 0 <= i < |cohorts| => cohorts[i].(clients := OtherClients(cohorts[i].clients, name)))
  }

  function OtherPeers(instances: seq<Instance>, name: string): (r: seq<Instance>)
    ensures |r| == |instances|
  {
    seq(|instances|, i requires 0 <= i < |instances| => instances[i].(peers := Others(instances[i].peers, name)))
  }

  function OtherUsers(variants: seq<Variant>, name: string): (r: seq<Variant>)
    ensures |r| == |variants|
  {
    seq(|variants|, i requires 0 <= i < |variants| => variants[i].(users := Others(variants[i].users, name)))
  }

  function OptionalOthers(rows: Option<seq<Row>>, name: string): Option<seq<Row>> {
    if rows.None? then None else Some(Others(rows.value, name))
  }

  function OtherXray(xray: Option<Xray>, name: string): Option<Xray> {
    if xray.None? then None
    else Some(Xray(Others(xray.value.clients, name), OtherCohorts(xray.value.cohorts, name)))
  }

  /** Everything of a device removed: its rows of every collection and its place in every cohort list. */
  function Without(t: Transports, name: string): Transports {
    Transports(OtherXray(t.xray, name), OptionalOthers(t.hysteria, name), OptionalOthers(t.naive, name),
               OtherPeers(t.awg, name), OtherUsers(t.snell, name))
  }

  function Optional(rows: Option<seq<Row>>): seq<seq<Row>> {
    if rows.None? then [] else [rows.value]
  }

  function XrayRows(xray: Option<Xray>): seq<seq<Row>> {
    if xray.None? then [] else [xray.value.clients]
  }

  function PeerRows(instances: seq<Instance>): seq<seq<Row>> {
    seq(|instances|, i requires 0 <= i < |instances| => instances[i].peers)
  }

  function UserRows(variants: seq<Variant>): seq<seq<Row>> {
    seq(|variants|, i requires 0 <= i < |variants| => variants[i].users)
  }

  /** Every collection of credentials, wherever the registry or profile points. */
  function Collections(t: Transports): seq<seq<Row>> {
    XrayRows(t.xray) + Optional(t.hysteria) + Optional(t.naive) + PeerRows(t.awg) + UserRows(t.snell)
  }

  predicate HeldAnywhere(t: Transports, name: string) {
    exists k :: 0 <= k < |Collections(t)| && Holds(Collections(t)[k], name)
  }

  predicate ListedInCohort(t: Transports, name: string) {
    t.xray.Some? && exists i :: 0 <= i < |t.xray.value.cohorts| && name in t.xray.value.cohorts[i].clients
  }

  /** A collection of collections, each without the name. */
  function EachOthers(collections: seq<seq<Row>>, name: string): seq<seq<Row>> {
    seq(|collections|, k requires 0 <= k < |collections| => Others(collections[k], name))
  }

  lemma {:induction false} CollectionsWithout(t: Transports, name: string)
    ensures Collections(Without(t, name)) == EachOthers(Collections(t), name)
  {
    hide Others;
    var after := Without(t, name);
    assert XrayRows(after.xray) == EachOthers(XrayRows(t.xray), name);
    assert Optional(after.hysteria) == EachOthers(Optional(t.hysteria), name);
    assert Optional(after.naive) == EachOthers(Optional(t.naive), name);
    assert PeerRows(after.awg) == EachOthers(PeerRows(t.awg), name);
    assert UserRows(after.snell) == EachOthers(UserRows(t.snell), name);
    EachOthersOfSum(XrayRows(t.xray), Optional(t.hysteria), name);
    EachOthersOfSum(XrayRows(t.xray) + Optional(t.hysteria), Optional(t.naive), name);
    EachOthersOfSum(XrayRows(t.xray) + Optional(t.hysteria) + Optional(t.naive), PeerRows(t.awg), name);
    EachOthersOfSum(XrayRows(t.xray) + Optional(t.hysteria) + Optional(t.naive) + PeerRows(t.awg), UserRows(t.snell), name);
  }

  lemma {:induction false} EachOthersOfSum(a: seq<seq<Row>>, b: seq<seq<Row>>, name: string)
    ensures EachOthers(a + b, name) == EachOthers(a, name) + EachOthers(b, name)
  {
    hide Others;
  }

  /** Removing a device leaves none of it behind. */
  lemma {:induction false} WithoutHoldsNothing(t: Transports, name: string)
    ensures !HeldAnywhere(Without(t, name), name) && !ListedInCohort(Without(t, name), name)
  {
    hide Others, OtherClients, Collections, Holds;
    CollectionsWithout(t, name);
    forall k | 0 <= k < |Collections(t)| ensures !Holds(EachOthers(Collections(t), name)[k], name) {
      OthersOfAbsent(Collections(t)[k], name);
    }
    if t.xray.Some? {
      forall i | 0 <= i < |t.xray.value.cohorts| ensures name !in OtherClients(t.xray.value.cohorts[i].clients, name) {
        OtherClientsOfAbsent(t.xray.value.cohorts[i].clients, name);
      }
    }
  }

  /** Everybody else keeps exactly their rows, in order, in every collection. */
  lemma {:induction false} WithoutKeepsOthers(t: Transports, name: string, other: string, k: nat)
    requires other != name && k < |Collections(t)|
    ensures |Collections(Without(t, name))| == |Collections(t)|
    ensures Named(Collections(Without(t, name))[k], other) == Named(Collections(t)[k], other)
  {
    hide Others, Collections, Named;
    CollectionsWithout(t, name);
    OthersKept(Collections(t)[k], name);
  }

  /** Removal changes nothing iff the device has no row and is in no cohort list. */
  lemma {:induction false} WithoutAbsent(t: Transports, name: string)
    ensures Without(t, name) == t <==> !HeldAnywhere(t, name) && !ListedInCohort(t, name)
  {
    if Without(t, name) == t {
      WithoutHoldsNothing(t, name);
    }
    if !HeldAnywhere(t, name) && !ListedInCohort(t, name) {
      hide Others, OtherClients, Holds;
      XrayAbsent(t, name);
      RowsAbsent(t, name);
      InstancesAbsent(t, name);
      VariantsAbsent(t, name);
    }
  }

  lemma {:induction false} CollectionAbsent(t: Transports, name: string, k: nat)
    requires !HeldAnywhere(t, name) && k < |Collections(t)|
    ensures Others(Collections(t)[k], name) == Collections(t)[k]
  {
    hide Others, Collections, Holds;
    OthersOfAbsent(Collections(t)[k], name);
  }

  lemma {:induction false} XrayAbsent(t: Transports, name: string)
    requires !HeldAnywhere(t, name) && !ListedInCohort(t, name)
    ensures OtherXray(t.xray, name) == t.xray
  {
    hide Others, OtherClients, HeldAnywhere;
    if t.xray.Some? {
      CollectionAbsent(t, name, 0);
      var cohorts := t.xray.value.cohorts;
      forall i | 0 <= i < |cohorts| ensures OtherClients(cohorts[i].clients, name) == cohorts[i].clients {
        OtherClientsOfAbsent(cohorts[i].clients, name);
      }
      assert OtherCohorts(cohorts, name) == cohorts;
    }
  }

  lemma {:induction false} RowsAbsent(t: Transports, name: string)
    requires !HeldAnywhere(t, name)
    ensures OptionalOthers(t.hysteria, name) == t.hysteria && OptionalOthers(t.naive, name) == t.naive
  {
    hide Others, HeldAnywhere;
    var first := |XrayRows(t.xray)|;
    if t.hysteria.Some? {
      CollectionAbsent(t, name, first);
      assert Collections(t)[first] == t.hysteria.value;
    }
    if t.naive.Some? {
      var second := first + |Optional(t.hysteria)|;
      CollectionAbsent(t, name, second);
      assert Collections(t)[second] == t.naive.value;
    }
  }

  lemma {:induction false} InstancesAbsent(t: Transports, name: string)
    requires !HeldAnywhere(t, name)
    ensures OtherPeers(t.awg, name) == t.awg
  {
    hide Others, HeldAnywhere;
    var first := |XrayRows(t.xray) + Optional(t.hysteria) + Optional(t.naive)|;
    forall i | 0 <= i < |t.awg| ensures Others(t.awg[i].peers, name) == t.awg[i].peers {
      CollectionAbsent(t, name, first + i);
      assert Collections(t)[first + i] == PeerRows(t.awg)[i];
    }
  }

  lemma {:induction false} VariantsAbsent(t: Transports, name: string)
    requires !HeldAnywhere(t, name)
    ensures OtherUsers(t.snell, name) == t.snell
  {
    hide Others, HeldAnywhere;
    var first := |XrayRows(t.xray) + Optional(t.hysteria) + Optional(t.naive) + PeerRows(t.awg)|;
    forall i | 0 <= i < |t.snell| ensures Others(t.snell[i].users, name) == t.snell[i].users {
      CollectionAbsent(t, name, first + i);
      assert Collections(t)[first + i] == UserRows(t.snell)[i];
    }
  }

  // ---------------------------------------------------------------- held addresses

  function PrefixOf(row: Row, family: Family): AllowedIp {
    if family.V4? then row.v4 else row.v6
  }

  function InterfaceOf(instance: Instance, family: Family): Interface {
    if family.V4? then instance.v4 else instance.v6
  }

  function Weight(prefix: AllowedIp, n: nat): nat {
    if prefix.Prefix? && Covers(prefix.claim, n) then 1 else 0
  }

  function ServerPrefix(instance: Instance, family: Family): AllowedIp {
    match InterfaceOf(instance, family)
    case BadInterface => BadPrefix
    case Interface(ip, _, _) => Prefix(Claim(ip, ip))
  }

  /** How many of the peers hold the address. */
  function HeldByPeers(peers: seq<Row>, family: Family, n: nat): nat {
    if peers == [] then 0
    else HeldByPeers(peers[..|peers| - 1], family, n) + Weight(PrefixOf(peers[|peers| - 1], family), n)
  }

  /** How often the node's servers and peers hold the address. */
  function HeldBy(instances: seq<Instance>, family: Family, n: nat): nat {
    if instances == [] then 0
    else
      var last := instances[|instances| - 1];
      HeldBy(instances[..|instances| - 1], family, n)
      + Weight(ServerPrefix(last, family), n) + HeldByPeers(last.peers, family, n)
  }

  /** Server addresses and peer prefixes of a node are pairwise disjoint: no address is held twice. */
  ghost predicate Disjoint(instances: seq<Instance>) {
    forall family, n: nat :: HeldBy(instances, family, n) <= 1
  }

  lemma {:induction false} HeldByOthers(rows: seq<Row>, name: string, family: Family, n: nat)
    ensures HeldByPeers(Others(rows, name), family, n) <= HeldByPeers(rows, family, n)
    decreases |rows|
  {
    if rows != [] {
      var init, last := rows[..|rows| - 1], rows[|rows| - 1];
      HeldByOthers(init, name, family, n);
      if last.name != name {
        var kept := Others(rows, name);
        assert kept[..|kept| - 1] == Others(init, name);
      } else {
        assert Others(init, name) + [] == Others(init, name);
      }
    }
  }

  lemma {:induction false} HeldWithout(instances: seq<Instance>, name: string, family: Family, n: nat)
    ensures HeldBy(OtherPeers(instances, name), family, n) <= HeldBy(instances, family, n)
    decreases |instances|
  {
    hide Others, HeldByPeers;
    if instances != [] {
      var init, last := instances[..|instances| - 1], instances[|instances| - 1];
      HeldWithout(init, name, family, n);
      HeldByOthers(last.peers, name, family, n);
      var after := OtherPeers(instances, name);
      assert after[..|after| - 1] == OtherPeers(init, name);
    }
  }

  /** Removing a device cannot make addresses collide. */
  lemma {:induction false} DisjointWithout(instances: seq<Instance>, name: string)
    requires Disjoint(instances)
    ensures Disjoint(OtherPeers(instances, name))
  {
    hide HeldBy, OtherPeers;
    forall family, n: nat ensures HeldBy(OtherPeers(instances, name), family, n) <= 1 {
      HeldWithout(instances, name, family, n);
    }
  }

  /** `row` appended to the peers of instance `k`. */
  function WithPeer(instances: seq<Instance>, k: nat, row: Row): (r: seq<Instance>)
    requires k < |instances|
    ensures |r| == |instances|
  {
    instances[k := instances[k].(peers := instances[k].peers + [row])]
  }

  lemma {:induction false} HeldWithPeer(instances: seq<Instance>, k: nat, row: Row, family: Family, n: nat)
    requires k < |instances|
    ensures HeldBy(WithPeer(instances, k, row), family, n)
            == HeldBy(instances, family, n) + Weight(PrefixOf(row, family), n)
    decreases |instances|
  {
    hide Weight;
    var init, last := instances[..|instances| - 1], instances[|instances| - 1];
    var after := WithPeer(instances, k, row);
    if k < |instances| - 1 {
      HeldWithPeer(init, k, row, family, n);
      assert after[..|after| - 1] == WithPeer(init, k, row);
    } else {
      assert after[..|after| - 1] == init;
      assert (last.peers + [row])[..|last.peers|] == last.peers;
    }
  }
}
