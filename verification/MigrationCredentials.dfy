/** Preparing selected devices on a replacement node, on a private copy of its credential document. */
module MigrationCredentials {
  import opened Wrappers
  import opened AddressPool
  import opened DeviceAuthority
  import opened DeviceCredentials

  datatype Flag = Reality | Xhttp | Hysteria | Amneziawg | Snell | Naive

  /** One side of the migration: where it is, what its profile enables, and the requested instance names. */
  datatype Site = Site(host: string, secretsFile: string, node: Node, flags: set<Flag>, awgInstances: map<string, string>)

  /** Format checks and the admission of whole documents, not part of this model. */
  datatype Checks = Checks(
    siteValid: Site -> bool,
    sound: (Node, Document) -> bool,
    awgSound: (Node, Document) -> bool,
    uuidValid: string -> bool,
    naiveValid: seq<Row> -> bool,
    optionsValid: DeliveryOptions -> bool)

  predicate Active(entry: Entry) {
    entry.status == "issued" || entry.status == "delivered" || entry.status == "active" || entry.status == "stale"
  }

  // ---------------------------------------------------------------- one collection

  predicate ClientsValid(rows: seq<Row>, checks: Checks, uuid: bool) {
    && |rows| <= 256 && UniqueRows(rows)
    && (forall i | 0 <= i < |rows| :: ValidName(rows[i].name))
    && (uuid ==> forall i | 0 <= i < |rows| :: |rows[i].keys| > 0 && checks.uuidValid(rows[i].keys[0]))
  }

  function CopyClient(source: seq<Row>, target: seq<Row>, name: string, checks: Checks, uuid: bool): Option<seq<Row>> {
    var selected, existing := Named(source, name), Named(target, name);
    if !ClientsValid(source, checks, uuid) || !ClientsValid(target, checks, uuid) || |selected| != 1 then None
    else if existing != [] then
      if existing[0] == selected[0] then Some(target) else None
    else
      var after := target + [selected[0]];
      if ClientsValid(after, checks, uuid) then Some(after) else None
  }

  function CopyOptional(source: Option<seq<Row>>, target: Option<seq<Row>>, name: string, checks: Checks)
    : Option<Option<seq<Row>>>
  {
    if source.None? || target.None? then None
    else
      match CopyClient(source.value, target.value, name, checks, false)
      case None => None
      case Some(rows) => Some(Some(rows))
  }

  // ---------------------------------------------------------------- cohorts

  function Listing(cohorts: seq<Cohort>, name: string): set<string> {
    set i | 0 <= i < |cohorts| && name in cohorts[i].clients :: cohorts[i].name
  }

  function CohortNames(cohorts: seq<Cohort>): set<string> {
    set i | 0 <= i < |cohorts| :: cohorts[i].name
  }

  predicate MembershipSupported(before: seq<Cohort>, after: seq<Cohort>, name: string) {
    var selected, existing := Listing(before, name), Listing(after, name);
    && (before == []) == (after == [])
    && (before != [] ==> selected != {} && selected <= CohortNames(after) && (existing != {} ==> existing == selected))
  }

  function Member(cohort: Cohort, selected: set<string>, name: string): Cohort {
    if cohort.name in selected && name !in cohort.clients then cohort.(clients := cohort.clients + [name]) else cohort
  }

  function Members(before: seq<Cohort>, after: seq<Cohort>, name: string): (r: seq<Cohort>)
    ensures |r| == |after|
  {
    seq(|after|, i requires 0 <= i < |after| => Member(after[i], Listing(before, name), name))
  }

  function MoveXray(source: Option<Xray>, target: Option<Xray>, name: string, checks: Checks): Option<Option<Xray>> {
    if source.None? || target.None? then None
    else
      match CopyClient(source.value.clients, target.value.clients, name, checks, true)
      case None => None
      case Some(clients) =>
        if MembershipSupported(source.value.cohorts, target.value.cohorts, name)
        then Some(Some(Xray(clients, Members(source.value.cohorts, target.value.cohorts, name))))
        else None
  }

  // ---------------------------------------------------------------- Snell variants

  predicate VariantsValid(variants: seq<Variant>) {
    && |variants| <= 256
    && UniqueValues(seq(|variants|, i requires 0 <= i < |variants| => variants[i].id))
    && UniqueValues(seq(|variants|, i requires 0 <= i < |variants| => variants[i].psk))
  }

  function UserKey(row: Row): string {
    if row.keys == [] then "" else row.keys[0]
  }

  /** Every variant's users are valid, and no key is used twice on the node. */
  predicate UsersValid(variants: seq<Variant>, checks: Checks) {
    && (forall v | 0 <= v < |variants| :: ClientsValid(variants[v].users, checks, false))
    && (forall v, w, i, j | 0 <= v < w < |variants| && 0 <= i < |variants[v].users| && 0 <= j < |variants[w].users| ::
          UserKey(variants[v].users[i]) != UserKey(variants[w].users[j]))
  }

  function UsersOf(variants: seq<Variant>, id: string): Option<seq<Row>> {
    if variants == [] then None
    else
      var last := variants[|variants| - 1];
      if last.id == id then Some(last.users) else UsersOf(variants[..|variants| - 1], id)
  }

  /** One target variant with the device's user of the same variant copied, if it is selected. */
  function CopyUser(source: seq<Variant>, variant: Variant, ids: set<string>, name: string, checks: Checks): Option<Variant> {
    if variant.id !in ids then Some(variant)
    else
      match UsersOf(source, variant.id)
      case None => None
      case Some(users) =>
        match CopyClient(users, variant.users, name, checks, false)
        case None => None
        case Some(after) => Some(variant.(users := after))
  }

  predicate AllCopied(source: seq<Variant>, target: seq<Variant>, ids: set<string>, name: string, checks: Checks) {
    forall i | 0 <= i < |target| :: CopyUser(source, target[i], ids, name, checks).Some?
  }

  function MoveSnell(source: seq<Variant>, target: seq<Variant>, from: Site, to: Site, name: string, checks: Checks): Option<seq<Variant>> {
    var ids := to.node.variants;
    if from.node.variants != ids || !VariantsValid(source) || !VariantsValid(target) || !(ids <= Ids(source) && ids <= Ids(target))
       || !AllCopied(source, target, ids, name, checks)
    then None
    else
      var after := seq(|target|, i requires 0 <= i < |target| => CopyUser(source, target[i], ids, name, checks).value);
      if UsersValid(after, checks) then Some(after) else None
  }

  // ---------------------------------------------------------------- the registry entry

  function IndexOf(values: seq<string>, value: string): (i: nat)
    ensures i < |values| ==> values[i] == value
    ensures i <= |values| && forall k | 0 <= k < i :: values[k] != value
  {
    if values == [] || values[0] == value then 0 else 1 + IndexOf(values[1..], value)
  }

  /** The host occurs exactly once. */
  predicate Once(values: seq<string>, value: string) {
    IndexOf(values, value) < |values| && value !in values[IndexOf(values, value) + 1..]
  }

  predicate Placed(entry: Entry, from: Site, to: Site, checks: Checks) {
    var i := IndexOf(entry.hosts, from.host);
    && Once(entry.hosts, from.host) && to.host !in entry.hosts
    && (entry.cohorts == [] || (|entry.cohorts| == |entry.hosts| && entry.cohorts[i] == from.node.cohort))
    && (entry.sources.None? || (|entry.sources.value| == |entry.hosts| && entry.sources.value[i] == from.secretsFile))
    && (entry.options.Some? ==>
          && checks.optionsValid(entry.options.value)
          && entry.options.value.hosts == entry.hosts && entry.options.value.cohorts == entry.cohorts
          && entry.options.value.awgHost == entry.deliveryHost)
  }

  /** The source device's entry with the target in the source's place, not delivered yet. */
  function MovedEntry(entry: Entry, from: Site, to: Site, checks: Checks): Option<Entry> {
    if !Placed(entry, from, to, checks) then None
    else
      var i := IndexOf(entry.hosts, from.host);
      var hosts := entry.hosts[i := to.host];
      var cohorts := if entry.cohorts == [] then [] else entry.cohorts[i := to.node.cohort];
      var sources := if entry.sources.None? then None else Some(entry.sources.value[i := to.secretsFile]);
      var deliveryHost := if entry.deliveryHost == from.host then to.host else entry.deliveryHost;
      var options := if entry.options.None? then None
                     else Some(entry.options.value.(hosts := hosts, cohorts := cohorts, awgHost := deliveryHost));
      if options.Some? && !checks.optionsValid(options.value) then None
      else
        Some(entry.(hosts := hosts, cohorts := cohorts, sources := sources, deliveryHost := deliveryHost, options := options,
             migrationDelivery := None, status := "issued", formats := [], tokenPrefix := "", lastPayload := ""))
  }

  // ---------------------------------------------------------------- AmneziaWG

  function PeersNamed(instances: seq<Instance>, name: string): seq<Row> {
    if instances == [] then [] else PeersNamed(instances[..|instances| - 1], name) + Named(instances[|instances| - 1].peers, name)
  }

  /** The last instance holding the device. */
  function InstanceOf(instances: seq<Instance>, name: string): (r: Option<nat>)
    ensures r.Some? ==> r.value < |instances| && Named(instances[r.value].peers, name) != []
  {
    if instances == [] then None
    else if Named(instances[|instances| - 1].peers, name) != [] then Some(|instances| - 1)
    else InstanceOf(instances[..|instances| - 1], name)
  }

  datatype Resolved = Resolved(index: nat, instance: string, peer: Row)

  /** The one instance and peer of an enrolled device, confirmed by its registry entry. */
  function Resolve(doc: Document, site: Site, name: string, wanted: Option<string>, checks: Checks): (r: Option<Resolved>)
    ensures r.Some? ==> r.value.index < |doc.transports.awg|
  {
    var k := InstanceOf(doc.transports.awg, name);
    if !checks.awgSound(site.node, doc) || |PeersNamed(doc.transports.awg, name)| != 1 || k.None? then None
    else
      var instance := doc.transports.awg[k.value];
      var peer := Named(instance.peers, name)[0];
      if !Selects(instance, wanted) || peer.routed || name !in doc.registry
         || doc.registry[name].binding != Some(Binding(site.host, instance.name)) || !Active(doc.registry[name])
      then None
      else Some(Resolved(k.value, instance.name, peer))
  }

  predicate SameKeys(existing: Row, original: Row, target: Entry, source: Entry) {
    existing.keys == original.keys && target.privateKey == source.privateKey && target.fingerprint == source.fingerprint
  }

  function WantedInstance(to: Site, original: string): string {
    if original in to.awgInstances then to.awgInstances[original] else original
  }

  /** The document with the device's peer, and the entry with its binding; unchanged when it is already there. */
  function MoveAwg(source: Document, doc: Document, name: string, from: Site, to: Site, entry: Entry, checks: Checks): Option<(Document, Entry)> {
    match Resolve(source, from, name, None, checks)
    case None => None
    case Some(original) =>
      var wanted := Some(WantedInstance(to, original.instance));
      if PeersNamed(doc.transports.awg, name) != [] then
        (match Resolve(doc, to, name, wanted, checks)
         case None => None
         case Some(existing) =>
           if name in doc.registry && name in source.registry
              && SameKeys(existing.peer, original.peer, doc.registry[name], source.registry[name])
           then Some((doc, entry)) else None)
      else if name in doc.registry && doc.registry[name].binding.Some? then None
      else if !checks.awgSound(to.node, doc) then None
      else
        match Selected(doc.transports.awg, wanted)
        case None => None
        case Some(k) =>
          match (Allocated(doc.transports.awg, k, V4), Allocated(doc.transports.awg, k, V6))
          case (Some(v4), Some(v6)) =>
            var peer := original.peer.(v4 := Prefix(Claim(v4, v4)), v6 := Prefix(Claim(v6, v6)));
            var bound := entry.(binding := Some(Binding(to.host, doc.transports.awg[k].name)));
            var registry := if name in doc.registry then doc.registry[name := WithKeys(doc.registry[name], bound)] else doc.registry;
            Some((Document(doc.transports.(awg := WithPeer(doc.transports.awg, k, peer)), registry), bound))
          case _ => None
  }

  /** An existing entry acquires the moved device's recovery authority and keeps its delivery. */
  function WithKeys(existing: Entry, bound: Entry): Entry {
    existing.(binding := bound.binding, privateKey := bound.privateKey, fingerprint := bound.fingerprint)
  }

  function Unbound(entry: Entry): Entry {
    entry.(binding := None, privateKey := "", fingerprint := "", deliveryHost := "",
           options := if entry.options.None? then None else Some(entry.options.value.(awgHost := "")))
  }

  // ---------------------------------------------------------------- one device

  /** The simple collections of one device: Xray, Hysteria, Snell and Naive. */
  function MoveRows(source: Transports, target: Transports, name: string, from: Site, to: Site, checks: Checks): Option<Transports> {
    var xray := if Reality in to.flags || Xhttp in to.flags then MoveXray(source.xray, target.xray, name, checks) else Some(target.xray);
    var hysteria := if Hysteria in to.flags then CopyOptional(source.hysteria, target.hysteria, name, checks) else Some(target.hysteria);
    var snell := if Snell in to.flags then MoveSnell(source.snell, target.snell, from, to, name, checks) else Some(target.snell);
    var naive := if Naive in to.flags then MoveNaive(source.naive, target.naive, name, checks) else Some(target.naive);
    if xray.None? || hysteria.None? || snell.None? || naive.None? then None
    else Some(target.(xray := xray.value, hysteria := hysteria.value, snell := snell.value, naive := naive.value))
  }

  function MoveNaive(source: Option<seq<Row>>, target: Option<seq<Row>>, name: string, checks: Checks): Option<Option<seq<Row>>> {
    if source.None? || target.None? || !checks.naiveValid(source.value) then None
    else
      match CopyOptional(source, target, name, checks)
      case None => None
      case Some(after) => if after.Some? && checks.naiveValid(after.value) then Some(after) else None
  }

  predicate Movable(source: Document, doc: Document, name: string) {
    && name in source.registry && Active(source.registry[name])
    && (name in doc.registry ==> Active(doc.registry[name]))
  }

  /** One device prepared on the target document. */
  function MoveDevice(source: Document, doc: Document, name: string, from: Site, to: Site, checks: Checks): Option<Document> {
    if !Movable(source, doc, name) then None
    else
      match MovedEntry(source.registry[name], from, to, checks)
      case None => None
      case Some(entry) =>
        match MoveRows(source.transports, doc.transports, name, from, to, checks)
        case None => None
        case Some(transports) =>
          var rows := Document(transports, doc.registry);
          if Amneziawg in to.flags then
            match MoveAwg(source, rows, name, from, to, entry, checks)
            case None => None
            case Some((moved, bound)) =>
              Some(if name in doc.registry then moved else moved.(registry := moved.registry[name := bound]))
          else
            Some(if name in doc.registry then rows else rows.(registry := rows.registry[name := Unbound(entry)]))
  }

  function MoveDevices(source: Document, target: Document, names: seq<string>, from: Site, to: Site, checks: Checks): Option<Document> {
    if names == [] then Some(target)
    else
      match MoveDevices(source, target, names[..|names| - 1], from, to, checks)
      case None => None
      case Some(doc) => MoveDevice(source, doc, names[|names| - 1], from, to, checks)
  }

  // ---------------------------------------------------------------- the whole preparation

  predicate Selection(names: seq<string>) {
    names != [] && |names| <= 256 && Distinct(names) && forall i | 0 <= i < |names| :: ValidName(names[i])
  }

  predicate Startable(source: Document, target: Document, names: seq<string>, from: Site, to: Site, checks: Checks) {
    && checks.siteValid(from) && checks.siteValid(to)
    && from.host != to.host && from.secretsFile != to.secretsFile
    && Selection(names) && from.flags == to.flags
    && checks.sound(from.node, source) && checks.sound(to.node, target)
  }

  /** The prepared target document, or None when anything about the inputs or the result is refused. */
  function Prepared(source: Document, target: Document, names: seq<string>, from: Site, to: Site, checks: Checks): Option<Document> {
    if !Startable(source, target, names, from, to, checks) then None
    else
      match MoveDevices(source, target, names, from, to, checks)
      case None => None
      case Some(result) => if checks.sound(to.node, result) then Some(result) else None
  }

  // ---------------------------------------------------------------- in place

  /** The isolated copy the preparation works on. */
  class TargetCopy {
    var result: Document

    constructor (target: Document)
      ensures result == target
    {
      result := target;
    }

    /** Append a name to the selected cohorts, one after the other. */
    method JoinCohorts(before: seq<Cohort>, name: string) returns (ok: bool)
      requires result.transports.xray.Some?
      modifies this
      ensures ok <==> MembershipSupported(before, old(result).transports.xray.value.cohorts, name)
      ensures result == if !ok || before == [] then old(result)
                        else old(result).(transports := old(result).transports.(xray := Some(old(result).transports.xray.value.(
                               cohorts := Members(before, old(result).transports.xray.value.cohorts, name)))))
    {
      var after := result.transports.xray.value.cohorts;
      ok := MembershipSupported(before, after, name);
      if !ok || before == [] {
        return;
      }
      var cohorts := after;
      var selected := Listing(before, name);
      for i := 0 to |cohorts|
        invariant |cohorts| == |after|
        invariant forall k | 0 <= k < i :: cohorts[k] == Member(after[k], selected, name)
        invariant forall k | i <= k < |after| :: cohorts[k] == after[k]
      {
        if cohorts[i].name in selected && name !in cohorts[i].clients {
          cohorts := cohorts[i := cohorts[i].(clients := cohorts[i].clients + [name])];
        }
      }
      assert cohorts == Members(before, after, name);
      result := result.(transports := result.transports.(xray := Some(result.transports.xray.value.(cohorts := cohorts))));
    }

    /** Copy the device's Xray client and let it join the cohorts it is in on the source node. */
    method CopyXray(source: Option<Xray>, name: string, checks: Checks) returns (ok: bool)
      modifies this
      ensures ok <==> MoveXray(source, old(result).transports.xray, name, checks).Some?
      ensures ok ==> result == old(result).(transports := old(result).transports.(
                                 xray := MoveXray(source, old(result).transports.xray, name, checks).value))
    {
      hide CopyClient, MembershipSupported, Listing;
      var target := result.transports.xray;
      if source.None? || target.None? {
        return false;
      }
      var clients := CopyClient(source.value.clients, target.value.clients, name, checks, true);
      if clients.None? {
        return false;
      }
      result := result.(transports := result.transports.(xray := Some(target.value.(clients := clients.value))));
      ok := JoinCohorts(source.value.cohorts, name);
      if ok && source.value.cohorts == [] {
        NoCohorts(target.value.cohorts, name);
      }
    }

    /** Copy the device's credentials of every enabled transport but AmneziaWG. */
    method CopyRows(source: Transports, name: string, from: Site, to: Site, checks: Checks) returns (ok: bool)
      modifies this
      ensures ok <==> MoveRows(source, old(result).transports, name, from, to, checks).Some?
      ensures ok ==> result == old(result).(transports := MoveRows(source, old(result).transports, name, from, to, checks).value)
    {
      hide MoveXray, MoveSnell, MoveNaive, CopyOptional;
      var target := result.transports;
      if Reality in to.flags || Xhttp in to.flags {
        ok := CopyXray(source.xray, name, checks);
        if !ok {
          return;
        }
      }
      var hysteria := if Hysteria in to.flags then CopyOptional(source.hysteria, target.hysteria, name, checks) else Some(target.hysteria);
      var snell := if Snell in to.flags then MoveSnell(source.snell, target.snell, from, to, name, checks) else Some(target.snell);
      var naive := if Naive in to.flags then MoveNaive(source.naive, target.naive, name, checks) else Some(target.naive);
      if hysteria.None? || snell.None? || naive.None? {
        return false;
      }
      result := result.(transports := result.transports.(hysteria := hysteria.value, snell := snell.value, naive := naive.value));
      ok := true;
    }

    /** Prepare one device on the copy. */
    method Move(source: Document, name: string, from: Site, to: Site, checks: Checks) returns (ok: bool)
      modifies this
      ensures ok <==> MoveDevice(source, old(result), name, from, to, checks).Some?
      ensures ok ==> result == MoveDevice(source, old(result), name, from, to, checks).value
    {
      hide MovedEntry, MoveRows, MoveAwg;
      if !Movable(source, result, name) {
        return false;
      }
      var entry := MovedEntry(source.registry[name], from, to, checks);
      if entry.None? {
        return false;
      }
      ok := CopyRows(source.transports, name, from, to, checks);
      if !ok {
        return;
      }
      var known := name in result.registry;
      var bound := Unbound(entry.value);
      if Amneziawg in to.flags {
        var moved := MoveAwg(source, result, name, from, to, entry.value, checks);
        if moved.None? {
          return false;
        }
        result, bound := moved.value.0, moved.value.1;
      }
      if !known {
        result := result.(registry := result.registry[name := bound]);
      }
    }

    /** Prepare one device after the other; a refusal leaves no result to publish. */
    method Prepare(source: Document, names: seq<string>, from: Site, to: Site, checks: Checks) returns (ok: bool)
      modifies this
      ensures ok <==> Prepared(source, old(result), names, from, to, checks).Some?
      ensures ok ==> result == Prepared(source, old(result), names, from, to, checks).value
    {
      hide Startable, MoveDevice;
      var target := result;
      if !Startable(source, target, names, from, to, checks) {
        return false;
      }
      for i := 0 to |names|
        invariant MoveDevices(source, target, names[..i], from, to, checks) == Some(result)
      {
        assert names[..i + 1][..i] == names[..i];
        ok := Move(source, names[i], from, to, checks);
        if !ok {
          MoveRefused(source, target, names, i + 1, from, to, checks);
          return;
        }
      }
      assert names[..|names|] == names;
      ok := checks.sound(to.node, result);
    }
  }

  lemma {:induction false} NoCohorts(after: seq<Cohort>, name: string)
    requires MembershipSupported([], after, name)
    ensures Members([], after, name) == after
  {
  }

  lemma {:induction false} MoveRefused(
    source: Document, target: Document, names: seq<string>, i: nat, from: Site, to: Site, checks: Checks)
    requires i <= |names| && MoveDevices(source, target, names[..i], from, to, checks).None?
    ensures MoveDevices(source, target, names, from, to, checks).None?
    decreases |names| - i
  {
    hide MoveDevice;
    if i == |names| {
      assert names[..i] == names;
    } else {
      assert names[..i + 1][..i] == names[..i];
      MoveRefused(source, target, names, i + 1, from, to, checks);
    }
  }
}
