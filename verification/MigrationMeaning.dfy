/** What a prepared target document holds of every selected device, field by field. */
module MigrationMeaning {
  import opened Wrappers
  import opened DeviceAuthority
  import opened DeviceCredentials
  import opened MigrationCredentials
  import opened MigrationLaws

  // ---------------------------------------------------------------- rows

  /** The place of the one row of this name. */
  predicate OnlyAt(rows: seq<Row>, name: string, a: nat) {
    a < |rows| && rows[a].name == name && forall x | 0 <= x < |rows| && x != a :: rows[x].name != name
  }

  /** The source has exactly one row of the device, and the target the very same row. */
  ghost predicate RowCopied(source: seq<Row>, target: seq<Row>, name: string) {
    exists a: nat :: OnlyAt(source, name, a) && source[a] in target
  }

  lemma {:induction false} NamedMembers(rows: seq<Row>, name: string, row: Row)
    ensures row in Named(rows, name) <==> row in rows && row.name == name
    decreases |rows|
  {
    if rows != [] {
      var init, last := rows[..|rows| - 1], rows[|rows| - 1];
      NamedMembers(init, name, row);
      assert rows == init + [last];
    }
  }

  lemma {:induction false} NamedOnce(rows: seq<Row>, name: string) returns (a: nat)
    requires |Named(rows, name)| == 1
    ensures OnlyAt(rows, name, a) && rows[a] == Named(rows, name)[0]
    decreases |rows|
  {
    var init, last := rows[..|rows| - 1], rows[|rows| - 1];
    if last.name == name {
      a := |init|;
      forall x | 0 <= x < |init| ensures rows[x].name != name {
        NamedMembers(init, name, init[x]);
        assert init[x] in init;
      }
    } else {
      a := NamedOnce(init, name);
      assert forall x | 0 <= x < |init| :: init[x] == rows[x];
    }
  }

  lemma {:induction false} ThereIsCopied(source: seq<Row>, target: seq<Row>, name: string)
    requires RowThere(source, target, name)
    ensures RowCopied(source, target, name)
  {
    hide Named;
    var a := NamedOnce(source, name);
    NamedMembers(target, name, Named(target, name)[0]);
  }

  // ---------------------------------------------------------------- cohorts

  predicate ListedAt(cohorts: seq<Cohort>, id: string, name: string) {
    exists i :: 0 <= i < |cohorts| && cohorts[i].name == id && name in cohorts[i].clients
  }

  /** The target lists the device in exactly the cohorts that list it on the source. */
  ghost predicate CohortsAlike(source: seq<Cohort>, target: seq<Cohort>, name: string) {
    && (forall i | 0 <= i < |target| :: name in target[i].clients <==> ListedAt(source, target[i].name, name))
    && (forall k | 0 <= k < |source| && name in source[k].clients :: ListedAt(target, source[k].name, name))
  }

  lemma {:induction false} ListingMeans(cohorts: seq<Cohort>, id: string, name: string)
    ensures id in Listing(cohorts, name) <==> ListedAt(cohorts, id, name)
  {
  }

  lemma {:induction false} JoinedAlike(before: seq<Cohort>, after: seq<Cohort>, name: string)
    requires MembershipSupported(before, after, name) && Members(before, after, name) == after
    ensures CohortsAlike(before, after, name)
  {
    hide Listing, ListedAt;
    forall i | 0 <= i < |after|
      ensures name in after[i].clients <==> ListedAt(before, after[i].name, name)
    {
      ListingMeans(before, after[i].name, name);
      ListingMeans(after, after[i].name, name);
      assert Members(before, after, name)[i] == after[i];
      if name in after[i].clients {
        ListedHere(after, i, name);
        assert before != [];
      }
    }
    forall k | 0 <= k < |before| && name in before[k].clients
      ensures ListedAt(after, before[k].name, name)
    {
      ListedHere(before, k, name);
      ListingMeans(before, before[k].name, name);
      NamedCohort(before, after, before[k].name, name);
    }
  }

  lemma {:induction false} ListedHere(cohorts: seq<Cohort>, i: nat, name: string)
    requires i < |cohorts| && name in cohorts[i].clients
    ensures ListedAt(cohorts, cohorts[i].name, name)
  {
  }

  lemma {:induction false} NamedCohort(before: seq<Cohort>, after: seq<Cohort>, id: string, name: string)
    requires id in CohortNames(after) && id in Listing(before, name) && Members(before, after, name) == after
    ensures ListedAt(after, id, name)
  {
    hide Listing;
    var i :| 0 <= i < |after| && after[i].name == id;
    assert Members(before, after, name)[i] == after[i];
  }

  // ---------------------------------------------------------------- one device

  ghost predicate OptionCopied(source: Option<seq<Row>>, target: Option<seq<Row>>, name: string) {
    source.Some? && target.Some? && RowCopied(source.value, target.value, name)
  }

  ghost predicate XrayCopied(source: Option<Xray>, target: Option<Xray>, name: string) {
    && source.Some? && target.Some? && RowCopied(source.value.clients, target.value.clients, name)
    && CohortsAlike(source.value.cohorts, target.value.cohorts, name)
  }

  ghost predicate UserCopied(source: seq<Variant>, variant: Variant, name: string) {
    exists k :: 0 <= k < |source| && source[k].id == variant.id && RowCopied(source[k].users, variant.users, name)
  }

  ghost predicate SnellCopied(source: seq<Variant>, target: seq<Variant>, selected: set<string>, name: string) {
    && (forall i | 0 <= i < |target| && target[i].id in selected :: UserCopied(source, target[i], name))
    && forall id | id in selected :: exists i :: 0 <= i < |target| && target[i].id == id
  }

  /** The device's peer on the target has the keys of its peer on the source, and both registries name where it is. */
  ghost predicate PeerCopied(source: Document, doc: Document, name: string, from: Site, to: Site) {
    exists k: nat, x: nat, l: nat, y: nat :: PeerAt(source, doc, name, from, to, k, x, l, y)
  }

  ghost predicate PeerAt(source: Document, doc: Document, name: string, from: Site, to: Site, k: nat, x: nat, l: nat, y: nat) {
    && k < |source.transports.awg| && x < |source.transports.awg[k].peers|
    && l < |doc.transports.awg| && y < |doc.transports.awg[l].peers|
    && name in source.registry && name in doc.registry
    && var was, now := source.transports.awg[k].peers[x], doc.transports.awg[l].peers[y];
    && was.name == name && now.name == name && now.keys == was.keys && !now.routed
    && source.registry[name].binding == Some(Binding(from.host, source.transports.awg[k].name))
    && doc.registry[name].binding == Some(Binding(to.host, doc.transports.awg[l].name))
    && doc.transports.awg[l].name == (if source.transports.awg[k].name in to.awgInstances
                                      then to.awgInstances[source.transports.awg[k].name] else source.transports.awg[k].name)
    && doc.registry[name].privateKey == source.registry[name].privateKey
    && doc.registry[name].fingerprint == source.registry[name].fingerprint
  }

  /** Of every enabled transport, the target holds what the source holds. */
  ghost predicate DeviceCopied(source: Document, doc: Document, name: string, from: Site, to: Site) {
    && (Reality in to.flags || Xhttp in to.flags ==> XrayCopied(source.transports.xray, doc.transports.xray, name))
    && (Hysteria in to.flags ==> OptionCopied(source.transports.hysteria, doc.transports.hysteria, name))
    && (Naive in to.flags ==> OptionCopied(source.transports.naive, doc.transports.naive, name))
    && (Snell in to.flags ==> SnellCopied(source.transports.snell, doc.transports.snell, to.node.variants, name))
    && (Amneziawg in to.flags ==> PeerCopied(source, doc, name, from, to))
  }

  lemma {:induction false} UsersOfMeans(variants: seq<Variant>, id: string) returns (k: nat)
    requires UsersOf(variants, id).Some?
    ensures k < |variants| && variants[k].id == id && variants[k].users == UsersOf(variants, id).value
    decreases |variants|
  {
    if variants[|variants| - 1].id == id {
      k := |variants| - 1;
    } else {
      k := UsersOfMeans(variants[..|variants| - 1], id);
    }
  }

  lemma {:induction false} SnellIsCopied(source: seq<Variant>, target: seq<Variant>, from: Site, to: Site, name: string)
    requires SnellThere(source, target, from, to, name)
    ensures SnellCopied(source, target, to.node.variants, name)
  {
    hide UsersOf, RowThere, RowCopied;
    forall i | 0 <= i < |target| && target[i].id in to.node.variants
      ensures UserCopied(source, target[i], name)
    {
      assert UserThere(source, target[i], to.node.variants, name);
      var k := UsersOfMeans(source, target[i].id);
      ThereIsCopied(source[k].users, target[i].users, name);
    }
    forall id | id in to.node.variants
      ensures exists i :: 0 <= i < |target| && target[i].id == id
    {
      assert id in Ids(target);
    }
  }

  lemma {:induction false} PeerIsCopied(source: Document, doc: Document, name: string, from: Site, to: Site, checks: Checks)
    requires AwgThere(source, doc, name, from, to, checks)
    ensures PeerCopied(source, doc, name, from, to)
  {
    hide Named, PeersNamed, InstanceOf, Active;
    var k := InstanceOf(source.transports.awg, name).value;
    var l := InstanceOf(doc.transports.awg, name).value;
    var was, now := Named(source.transports.awg[k].peers, name)[0], Named(doc.transports.awg[l].peers, name)[0];
    NamedMembers(source.transports.awg[k].peers, name, was);
    NamedMembers(doc.transports.awg[l].peers, name, now);
    var x :| 0 <= x < |source.transports.awg[k].peers| && source.transports.awg[k].peers[x] == was;
    var y :| 0 <= y < |doc.transports.awg[l].peers| && doc.transports.awg[l].peers[y] == now;
    assert PeerAt(source, doc, name, from, to, k, x, l, y);
  }

  lemma {:induction false} DeviceIsCopied(source: Document, doc: Document, name: string, from: Site, to: Site, checks: Checks)
    requires DeviceThere(source, doc, name, from, to, checks)
    ensures DeviceCopied(source, doc, name, from, to)
  {
    hide RowThere, RowCopied, MembershipSupported, Members, CohortsAlike, SnellThere, SnellCopied, AwgThere, PeerCopied, MovedEntry, Movable;
    if Reality in to.flags || Xhttp in to.flags {
      ThereIsCopied(source.transports.xray.value.clients, doc.transports.xray.value.clients, name);
      JoinedAlike(source.transports.xray.value.cohorts, doc.transports.xray.value.cohorts, name);
    }
    if Hysteria in to.flags {
      ThereIsCopied(source.transports.hysteria.value, doc.transports.hysteria.value, name);
    }
    if Naive in to.flags {
      ThereIsCopied(source.transports.naive.value, doc.transports.naive.value, name);
    }
    if Snell in to.flags {
      SnellIsCopied(source.transports.snell, doc.transports.snell, from, to, name);
    }
    if Amneziawg in to.flags {
      PeerIsCopied(source, doc, name, from, to, checks);
    }
  }

  // ---------------------------------------------------------------- the registry

  /** The same list with one place changed from `x` to `y`. */
  predicate Replaced(was: seq<string>, now: seq<string>, i: nat, x: string, y: string) {
    && |now| == |was| && i < |was| && was[i] == x && now[i] == y
    && forall k | 0 <= k < |was| && k != i :: now[k] == was[k]
  }

  /** The target stands in the source's one place of the entry, and nothing was delivered from there yet. */
  ghost predicate EntryPlaced(was: Entry, now: Entry, from: Site, to: Site) {
    && now.status == "issued" && now.issuedAt == was.issuedAt && now.formats == [] && now.tokenPrefix == "" && now.lastPayload == ""
    && now.migrationDelivery.None?
    && exists i :: PlacedAt(was, now, from, to, i)
  }

  ghost predicate PlacedAt(was: Entry, now: Entry, from: Site, to: Site, i: nat) {
    && Replaced(was.hosts, now.hosts, i, from.host, to.host)
    && (forall k | 0 <= k < |was.hosts| && k != i :: was.hosts[k] != from.host && was.hosts[k] != to.host)
    && (if was.cohorts == [] then now.cohorts == [] else Replaced(was.cohorts, now.cohorts, i, from.node.cohort, to.node.cohort))
    && (was.sources.None? <==> now.sources.None?)
    && (was.sources.Some? ==> Replaced(was.sources.value, now.sources.value, i, from.secretsFile, to.secretsFile))
    && (was.options.None? <==> now.options.None?)
    && (was.options.Some? ==> now.options.value.hosts == now.hosts && now.options.value.cohorts == now.cohorts
                              && now.options.value.awgHost == now.deliveryHost && now.options.value.rest == was.options.value.rest)
  }

  lemma {:induction false} MovedIsPlaced(entry: Entry, from: Site, to: Site, checks: Checks)
    requires MovedEntry(entry, from, to, checks).Some?
    ensures var moved := MovedEntry(entry, from, to, checks).value;
            && EntryPlaced(entry, moved, from, to)
            && moved.deliveryHost == (if entry.deliveryHost == from.host then to.host else entry.deliveryHost)
            && moved.privateKey == entry.privateKey && moved.fingerprint == entry.fingerprint
  {
    hide IndexOf;
    var moved, i := MovedEntry(entry, from, to, checks).value, IndexOf(entry.hosts, from.host);
    forall k | 0 <= k < |entry.hosts| && k != i
      ensures entry.hosts[k] != from.host && entry.hosts[k] != to.host
    {
      if k > i {
        assert entry.hosts[i + 1..][k - i - 1] == entry.hosts[k];
      }
      assert entry.hosts[k] in entry.hosts;
    }
    assert PlacedAt(entry, moved, from, to, i);
  }

  /** A device new to the target gets the placed entry, with its peer or without any AmneziaWG authority; a known one keeps its delivery. */
  ghost predicate EntryRegistered(source: Document, target: Document, result: Document, name: string, from: Site, to: Site) {
    && name in source.registry && name in result.registry
    && (name !in target.registry ==>
          && EntryPlaced(source.registry[name], result.registry[name], from, to)
          && (Amneziawg in to.flags ==>
                && result.registry[name].privateKey == source.registry[name].privateKey
                && result.registry[name].fingerprint == source.registry[name].fingerprint
                && result.registry[name].deliveryHost ==
                   (if source.registry[name].deliveryHost == from.host then to.host else source.registry[name].deliveryHost))
          && (Amneziawg !in to.flags ==>
                && result.registry[name].binding.None? && result.registry[name].privateKey == ""
                && result.registry[name].fingerprint == "" && result.registry[name].deliveryHost == ""))
    && (name in target.registry ==>
          && (Amneziawg !in to.flags ==> result.registry[name] == target.registry[name])
          && result.registry[name] == target.registry[name].(
               binding := result.registry[name].binding, privateKey := result.registry[name].privateKey,
               fingerprint := result.registry[name].fingerprint))
  }

  lemma {:induction false} UnboundPlaced(was: Entry, now: Entry, from: Site, to: Site)
    requires EntryPlaced(was, now, from, to)
    ensures EntryPlaced(was, Unbound(now), from, to)
  {
    var i :| PlacedAt(was, now, from, to, i);
    assert PlacedAt(was, Unbound(now), from, to, i);
  }

  lemma {:induction false} BoundPlaced(was: Entry, now: Entry, binding: Option<Binding>, from: Site, to: Site)
    requires EntryPlaced(was, now, from, to)
    ensures EntryPlaced(was, now.(binding := binding), from, to)
  {
    var i :| PlacedAt(was, now, from, to, i);
    var bound := now.(binding := binding);
    assert PlacedAt(was, bound, from, to, i);
  }

  /** What moving the peer does to the registry and to the entry. */
  lemma {:induction false} AwgRegistry(source: Document, doc: Document, name: string, from: Site, to: Site, entry: Entry, checks: Checks)
    requires MoveAwg(source, doc, name, from, to, entry, checks).Some?
    ensures var (after, bound) := MoveAwg(source, doc, name, from, to, entry, checks).value;
            && bound == entry.(binding := bound.binding)
            && (name in doc.registry ==>
                  && name in after.registry
                  && after.registry[name] == doc.registry[name].(
                       binding := after.registry[name].binding, privateKey := after.registry[name].privateKey,
                       fingerprint := after.registry[name].fingerprint))
  {
    hide PeersNamed, Allocated, WithPeer, Selected, Resolve;
  }

  lemma {:induction false} MoveRegisters(source: Document, doc: Document, name: string, from: Site, to: Site, checks: Checks)
    requires MoveDevice(source, doc, name, from, to, checks).Some?
    ensures EntryRegistered(source, doc, MoveDevice(source, doc, name, from, to, checks).value, name, from, to)
  {
    hide MovedEntry, MoveRows, MoveAwg, EntryPlaced, Active;
    var entry := MovedEntry(source.registry[name], from, to, checks).value;
    MovedIsPlaced(source.registry[name], from, to, checks);
    UnboundPlaced(source.registry[name], entry, from, to);
    if Amneziawg in to.flags {
      var rows := Document(MoveRows(source.transports, doc.transports, name, from, to, checks).value, doc.registry);
      AwgRegistry(source, rows, name, from, to, entry, checks);
      var bound := MoveAwg(source, rows, name, from, to, entry, checks).value.1;
      BoundPlaced(source.registry[name], entry, bound.binding, from, to);
    }
  }

  lemma {:induction false} RegisteredAside(source: Document, a: Document, b: Document, target: Document, name: string, from: Site, to: Site)
    requires name in b.registry && name in a.registry && b.registry[name] == a.registry[name]
    requires EntryRegistered(source, target, a, name, from, to)
    ensures EntryRegistered(source, target, b, name, from, to)
  {
    hide EntryPlaced;
  }

  lemma {:induction false} MovesRegister(source: Document, target: Document, names: seq<string>, from: Site, to: Site, checks: Checks, i: nat)
    requires Distinct(names) && i < |names| && MoveDevices(source, target, names, from, to, checks).Some?
    ensures EntryRegistered(source, target, MoveDevices(source, target, names, from, to, checks).value, names[i], from, to)
    decreases |names|
  {
    hide EntryRegistered, MoveDevice, Appended;
    var init, last := names[..|names| - 1], names[|names| - 1];
    var before := MoveDevices(source, target, init, from, to, checks).value;
    var after := MoveDevices(source, target, names, from, to, checks).value;
    if i < |init| {
      assert init[i] == names[i] && names[i] != last;
      MovesRegister(source, target, init, from, to, checks, i);
      MoveDeviceAppends(source, before, last, from, to, checks);
      KeptAside(before, after, last, names[i]);
      HasEntry(source, target, before, names[i], from, to);
      RegisteredAside(source, before, after, target, names[i], from, to);
    } else {
      MoveRegisters(source, before, last, from, to, checks);
      MoveDevicesAppends(source, target, init, from, to, checks);
      assert last !in init by {
        forall k | 0 <= k < |init| ensures init[k] != last {
          assert names[k] != names[|init|];
        }
      }
      FirstRegistered(source, target, before, after, init, last, from, to);
    }
  }

  lemma {:induction false} KeptAside(before: Document, after: Document, last: string, name: string)
    requires Appended(before, after, [last]) && name != last
    ensures name in before.registry ==> name in after.registry && after.registry[name] == before.registry[name]
  {
  }

  lemma {:induction false} HasEntry(source: Document, target: Document, result: Document, name: string, from: Site, to: Site)
    requires EntryRegistered(source, target, result, name, from, to)
    ensures name in result.registry
  {
  }

  lemma {:induction false} FirstRegistered(source: Document, target: Document, before: Document, after: Document,
                                           init: seq<string>, name: string, from: Site, to: Site)
    requires Appended(target, before, init) && name !in init && EntryRegistered(source, before, after, name, from, to)
    ensures EntryRegistered(source, target, after, name, from, to)
  {
    hide EntryPlaced, XrayAppended, OptionAppended, PeersAppended, UsersAppended;
  }

  /**
   Of every selected device the prepared target holds exactly the source's credentials in each
   enabled transport, in the same cohorts and variants, and an entry that names the target where
   the source was.
   */
  lemma {:induction false} PreparedMeans(
    source: Document, target: Document, names: seq<string>, from: Site, to: Site, checks: Checks, result: Document, i: nat)
    requires Prepared(source, target, names, from, to, checks) == Some(result) && i < |names|
    ensures DeviceCopied(source, result, names[i], from, to)
    ensures EntryRegistered(source, target, result, names[i], from, to)
  {
    hide DeviceThere, RowsValid, MoveDevices, Distinct, DeviceCopied, EntryRegistered;
    MoveDevicesThere(source, target, names, from, to, checks);
    DeviceIsCopied(source, result, names[i], from, to, checks);
    MovesRegister(source, target, names, from, to, checks, i);
  }
}
