/** Preparing migrated devices again changes nothing, and preparing them only appends. */
module MigrationLaws {
  import opened Wrappers
  import opened AddressPool
  import opened DeviceAuthority
  import opened DeviceCredentials
  import opened CredentialLaws
  import opened MigrationCredentials

  // ---------------------------------------------------------------- one collection

  lemma {:induction false} NamedNames(rows: seq<Row>, name: string)
    ensures forall row | row in Named(rows, name) :: row.name == name
    decreases |rows|
  {
    if rows != [] {
      NamedNames(rows[..|rows| - 1], name);
    }
  }

  /** The device's one source row is the target's row of that name. */
  ghost predicate RowThere(source: seq<Row>, target: seq<Row>, name: string) {
    |Named(source, name)| == 1 && Named(target, name) != [] && Named(target, name)[0] == Named(source, name)[0]
  }

  lemma {:induction false} CopyClientThere(source: seq<Row>, target: seq<Row>, name: string, checks: Checks, uuid: bool)
    requires CopyClient(source, target, name, checks, uuid).Some?
    ensures var after := CopyClient(source, target, name, checks, uuid).value;
            && RowThere(source, after, name) && target <= after
            && ClientsValid(source, checks, uuid) && ClientsValid(after, checks, uuid)
            && CopyClient(source, after, name, checks, uuid) == Some(after)
            && forall other | other != name :: Named(after, other) == Named(target, other)
  {
    hide ClientsValid;
    var row := Named(source, name)[0];
    NamedNames(source, name);
    assert row in Named(source, name);
    forall other ensures Named(target + [row], other) == Named(target, other) + if row.name == other then [row] else [] {
      NamedAppended(target, row, other);
    }
  }

  lemma {:induction false} CopyClientAgain(source: seq<Row>, target: seq<Row>, name: string, checks: Checks, uuid: bool)
    requires RowThere(source, target, name) && ClientsValid(source, checks, uuid) && ClientsValid(target, checks, uuid)
    ensures CopyClient(source, target, name, checks, uuid) == Some(target)
  {
    hide ClientsValid;
  }

  // ---------------------------------------------------------------- Xray

  lemma {:induction false} MembersJoined(before: seq<Cohort>, after: seq<Cohort>, name: string)
    requires MembershipSupported(before, after, name)
    ensures MembershipSupported(before, Members(before, after, name), name)
    ensures Members(before, Members(before, after, name), name) == Members(before, after, name)
  {
    var m, selected := Members(before, after, name), Listing(before, name);
    NamesKept(before, after, name);
    forall id | id in selected && before != [] ensures id in Listing(m, name) {
      assert id in CohortNames(after);
      var i :| 0 <= i < |after| && after[i].name == id;
      assert m[i].name == id && name in m[i].clients;
    }
    forall id | id in Listing(m, name) ensures id in selected {
      var i :| 0 <= i < |m| && name in m[i].clients && m[i].name == id;
      if name in after[i].clients {
        assert id in Listing(after, name);
      }
    }
    if before != [] {
      assert Listing(m, name) == selected;
    }
  }

  lemma {:induction false} NamesKept(before: seq<Cohort>, after: seq<Cohort>, name: string)
    ensures CohortNames(Members(before, after, name)) == CohortNames(after)
  {
    var m := Members(before, after, name);
    forall id ensures id in CohortNames(m) <==> id in CohortNames(after) {
      if id in CohortNames(after) {
        var i :| 0 <= i < |after| && after[i].name == id;
        assert m[i].name == id;
      }
      if id in CohortNames(m) {
        var i :| 0 <= i < |m| && m[i].name == id;
        assert after[i].name == id;
      }
    }
  }

  lemma {:induction false} MembersOfOther(before: seq<Cohort>, after: seq<Cohort>, name: string, other: string)
    requires other != name
    ensures Listing(Members(before, after, name), other) == Listing(after, other)
    ensures Members(before, after, other) == after ==>
              Members(before, Members(before, after, name), other) == Members(before, after, name)
  {
    var m := Members(before, after, name);
    forall id ensures id in Listing(m, other) <==> id in Listing(after, other) {
      if id in Listing(after, other) {
        var i :| 0 <= i < |after| && other in after[i].clients && after[i].name == id;
        assert other in m[i].clients && m[i].name == id;
      }
      if id in Listing(m, other) {
        var i :| 0 <= i < |m| && other in m[i].clients && m[i].name == id;
        assert other in after[i].clients && after[i].name == id;
      }
    }
    if Members(before, after, other) == after {
      forall i | 0 <= i < |m| ensures Member(m[i], Listing(before, other), other) == m[i] {
        assert Members(before, after, other)[i] == after[i];
      }
    }
  }

  ghost predicate XrayThere(source: Option<Xray>, target: Option<Xray>, name: string) {
    && source.Some? && target.Some? && RowThere(source.value.clients, target.value.clients, name)
    && MembershipSupported(source.value.cohorts, target.value.cohorts, name)
    && Members(source.value.cohorts, target.value.cohorts, name) == target.value.cohorts
  }

  ghost predicate XrayValid(xray: Option<Xray>, checks: Checks) {
    xray.Some? ==> ClientsValid(xray.value.clients, checks, true)
  }

  lemma {:induction false} MoveXrayThere(source: Option<Xray>, target: Option<Xray>, name: string, checks: Checks)
    requires MoveXray(source, target, name, checks).Some?
    ensures var after := MoveXray(source, target, name, checks).value;
            && XrayThere(source, after, name) && XrayValid(source, checks) && XrayValid(after, checks)
            && forall other | other != name && XrayThere(source, target, other) :: XrayThere(source, after, other)
  {
    hide ClientsValid, CopyClient, MembershipSupported, Members;
    CopyClientThere(source.value.clients, target.value.clients, name, checks, true);
    MembersJoined(source.value.cohorts, target.value.cohorts, name);
    forall other | other != name && XrayThere(source, target, other)
      ensures XrayThere(source, MoveXray(source, target, name, checks).value, other)
    {
      MembersOfOther(source.value.cohorts, target.value.cohorts, name, other);
      StillSupported(source.value.cohorts, target.value.cohorts, name, other);
    }
  }

  lemma {:induction false} StillSupported(before: seq<Cohort>, after: seq<Cohort>, name: string, other: string)
    requires other != name && MembershipSupported(before, after, other)
    ensures MembershipSupported(before, Members(before, after, name), other)
  {
    hide Listing, CohortNames;
    MembersOfOther(before, after, name, other);
    NamesKept(before, after, name);
  }

  lemma {:induction false} MoveXrayAgain(source: Option<Xray>, target: Option<Xray>, name: string, checks: Checks)
    requires XrayThere(source, target, name) && XrayValid(source, checks) && XrayValid(target, checks)
    ensures MoveXray(source, target, name, checks) == Some(target)
  {
    hide ClientsValid, CopyClient, MembershipSupported, Members, RowThere;
    CopyClientAgain(source.value.clients, target.value.clients, name, checks, true);
  }

  // ---------------------------------------------------------------- Snell

  ghost predicate UserThere(source: seq<Variant>, variant: Variant, ids: set<string>, name: string) {
    variant.id in ids ==> UsersOf(source, variant.id).Some? && RowThere(UsersOf(source, variant.id).value, variant.users, name)
  }

  ghost predicate SnellThere(source: seq<Variant>, target: seq<Variant>, from: Site, to: Site, name: string) {
    && from.node.variants == to.node.variants && to.node.variants <= Ids(source) && to.node.variants <= Ids(target)
    && forall i | 0 <= i < |target| :: UserThere(source, target[i], to.node.variants, name)
  }

  ghost predicate SourceUsersValid(source: seq<Variant>, target: seq<Variant>, ids: set<string>, checks: Checks) {
    forall i | 0 <= i < |target| && target[i].id in ids ::
      UsersOf(source, target[i].id).Some? && ClientsValid(UsersOf(source, target[i].id).value, checks, false)
  }

  ghost predicate SnellValid(source: seq<Variant>, target: seq<Variant>, to: Site, checks: Checks) {
    VariantsValid(source) && VariantsValid(target) && UsersValid(target, checks) && SourceUsersValid(source, target, to.node.variants, checks)
  }

  lemma {:induction false} CopyUserThere(source: seq<Variant>, variant: Variant, ids: set<string>, name: string, checks: Checks)
    requires CopyUser(source, variant, ids, name, checks).Some?
    ensures var after := CopyUser(source, variant, ids, name, checks).value;
            && after == variant.(users := after.users) && variant.users <= after.users && UserThere(source, after, ids, name)
            && (variant.id in ids ==>
                  UsersOf(source, variant.id).Some? && ClientsValid(UsersOf(source, variant.id).value, checks, false))
            && forall other | other != name && UserThere(source, variant, ids, other) :: UserThere(source, after, ids, other)
  {
    hide ClientsValid, CopyClient, UsersOf;
    if variant.id in ids {
      CopyClientThere(UsersOf(source, variant.id).value, variant.users, name, checks, false);
    }
  }

  lemma {:induction false} VariantsKept(before: seq<Variant>, after: seq<Variant>)
    requires |after| == |before| && forall i | 0 <= i < |before| :: after[i] == before[i].(users := after[i].users)
    ensures Ids(after) == Ids(before) && (VariantsValid(before) ==> VariantsValid(after))
  {
    hide UniqueValues;
    assert seq(|before|, i requires 0 <= i < |before| => before[i].id) == seq(|after|, i requires 0 <= i < |after| => after[i].id);
    assert seq(|before|, i requires 0 <= i < |before| => before[i].psk) == seq(|after|, i requires 0 <= i < |after| => after[i].psk);
    forall id ensures id in Ids(after) <==> id in Ids(before) {
      if id in Ids(before) {
        var i :| 0 <= i < |before| && before[i].id == id;
        assert after[i].id == id;
      }
      if id in Ids(after) {
        var i :| 0 <= i < |after| && after[i].id == id;
        assert before[i].id == id;
      }
    }
  }

  lemma {:induction false} MoveSnellParts(source: seq<Variant>, target: seq<Variant>, from: Site, to: Site, name: string, checks: Checks)
    requires MoveSnell(source, target, from, to, name, checks).Some?
    ensures var after := MoveSnell(source, target, from, to, name, checks).value;
            && |after| == |target| && AllCopied(source, target, to.node.variants, name, checks)
            && (forall i | 0 <= i < |target| :: after[i] == CopyUser(source, target[i], to.node.variants, name, checks).value)
            && (forall i | 0 <= i < |target| :: after[i] == target[i].(users := after[i].users) && target[i].users <= after[i].users)
  {
    hide CopyUser, VariantsValid, UsersValid, Ids;
    var after := MoveSnell(source, target, from, to, name, checks).value;
    forall i | 0 <= i < |target| ensures after[i] == target[i].(users := after[i].users) && target[i].users <= after[i].users {
      CopyUserThere(source, target[i], to.node.variants, name, checks);
    }
  }

  lemma {:induction false} MoveSnellThere(source: seq<Variant>, target: seq<Variant>, from: Site, to: Site, name: string, checks: Checks)
    requires MoveSnell(source, target, from, to, name, checks).Some?
    ensures var after := MoveSnell(source, target, from, to, name, checks).value;
            && SnellThere(source, after, from, to, name) && SnellValid(source, after, to, checks)
            && forall other | other != name && SnellThere(source, target, from, to, other) :: SnellThere(source, after, from, to, other)
  {
    hide CopyUser, VariantsValid, UsersValid, Ids, ClientsValid, UserThere;
    var after, ids := MoveSnell(source, target, from, to, name, checks).value, to.node.variants;
    MoveSnellParts(source, target, from, to, name, checks);
    VariantsKept(target, after);
    forall i | 0 <= i < |target|
      ensures UserThere(source, after[i], ids, name)
      ensures after[i].id in ids ==> UsersOf(source, after[i].id).Some? && ClientsValid(UsersOf(source, after[i].id).value, checks, false)
      ensures forall other | other != name && UserThere(source, target[i], ids, other) :: UserThere(source, after[i], ids, other)
    {
      CopyUserThere(source, target[i], ids, name, checks);
    }
  }

  lemma {:induction false} MoveSnellAgain(source: seq<Variant>, target: seq<Variant>, from: Site, to: Site, name: string, checks: Checks)
    requires SnellThere(source, target, from, to, name) && SnellValid(source, target, to, checks)
    ensures MoveSnell(source, target, from, to, name, checks) == Some(target)
  {
    hide VariantsValid, Ids, ClientsValid, RowThere, CopyClient;
    var ids := to.node.variants;
    forall i | 0 <= i < |target| ensures CopyUser(source, target[i], ids, name, checks) == Some(target[i]) {
      if target[i].id in ids {
        CopyClientAgain(UsersOf(source, target[i].id).value, target[i].users, name, checks, false);
      }
    }
    assert seq(|target|, i requires 0 <= i < |target| => CopyUser(source, target[i], ids, name, checks).value) == target;
  }

  // ---------------------------------------------------------------- the simple collections together

  ghost predicate OptionThere(source: Option<seq<Row>>, target: Option<seq<Row>>, name: string) {
    source.Some? && target.Some? && RowThere(source.value, target.value, name)
  }

  ghost predicate OptionValid(rows: Option<seq<Row>>, checks: Checks) {
    rows.Some? ==> ClientsValid(rows.value, checks, false)
  }

  ghost predicate NaiveOk(rows: Option<seq<Row>>, checks: Checks) {
    rows.Some? ==> checks.naiveValid(rows.value) && ClientsValid(rows.value, checks, false)
  }

  ghost predicate RowsThere(source: Transports, target: Transports, from: Site, to: Site, name: string) {
    && (Reality in to.flags || Xhttp in to.flags ==> XrayThere(source.xray, target.xray, name))
    && (Hysteria in to.flags ==> OptionThere(source.hysteria, target.hysteria, name))
    && (Snell in to.flags ==> SnellThere(source.snell, target.snell, from, to, name))
    && (Naive in to.flags ==> OptionThere(source.naive, target.naive, name))
  }

  /** What every copy checks of whole collections, on both sides. */
  ghost predicate RowsValid(source: Transports, target: Transports, to: Site, checks: Checks) {
    && (Reality in to.flags || Xhttp in to.flags ==> XrayValid(source.xray, checks) && XrayValid(target.xray, checks))
    && (Hysteria in to.flags ==> OptionValid(source.hysteria, checks) && OptionValid(target.hysteria, checks))
    && (Snell in to.flags ==> SnellValid(source.snell, target.snell, to, checks))
    && (Naive in to.flags ==> NaiveOk(source.naive, checks) && NaiveOk(target.naive, checks))
  }

  lemma {:induction false} CopyOptionalThere(source: Option<seq<Row>>, target: Option<seq<Row>>, name: string, checks: Checks)
    requires CopyOptional(source, target, name, checks).Some?
    ensures var after := CopyOptional(source, target, name, checks).value;
            && OptionThere(source, after, name) && OptionValid(source, checks) && OptionValid(after, checks)
            && source.Some? && target.Some? && after.Some? && target.value <= after.value
            && forall other | other != name && OptionThere(source, target, other) :: OptionThere(source, after, other)
  {
    hide ClientsValid, CopyClient;
    CopyClientThere(source.value, target.value, name, checks, false);
  }

  lemma {:induction false} MoveRowsThere(source: Transports, target: Transports, name: string, from: Site, to: Site, checks: Checks)
    requires MoveRows(source, target, name, from, to, checks).Some?
    ensures var after := MoveRows(source, target, name, from, to, checks).value;
            && RowsThere(source, after, from, to, name) && RowsValid(source, after, to, checks) && after.awg == target.awg
            && forall other | other != name && RowsThere(source, target, from, to, other) :: RowsThere(source, after, from, to, other)
  {
    hide MoveXray, CopyOptional, MoveSnell, XrayThere, OptionThere, SnellThere, XrayValid, SnellValid, ClientsValid;
    if Reality in to.flags || Xhttp in to.flags {
      MoveXrayThere(source.xray, target.xray, name, checks);
    }
    if Hysteria in to.flags {
      CopyOptionalThere(source.hysteria, target.hysteria, name, checks);
    }
    if Snell in to.flags {
      MoveSnellThere(source.snell, target.snell, from, to, name, checks);
    }
    if Naive in to.flags {
      CopyOptionalThere(source.naive, target.naive, name, checks);
    }
  }

  lemma {:induction false} CopyOptionalAgain(source: Option<seq<Row>>, target: Option<seq<Row>>, name: string, checks: Checks)
    requires OptionThere(source, target, name) && OptionValid(source, checks) && OptionValid(target, checks)
    ensures CopyOptional(source, target, name, checks) == Some(target)
  {
    hide ClientsValid, CopyClient, RowThere;
    CopyClientAgain(source.value, target.value, name, checks, false);
  }

  lemma {:induction false} MoveRowsAgain(source: Transports, target: Transports, name: string, from: Site, to: Site, checks: Checks)
    requires RowsThere(source, target, from, to, name) && RowsValid(source, target, to, checks)
    ensures MoveRows(source, target, name, from, to, checks) == Some(target)
  {
    hide MoveXray, CopyOptional, MoveSnell, XrayThere, RowThere, SnellThere, XrayValid, SnellValid, ClientsValid;
    if Reality in to.flags || Xhttp in to.flags {
      MoveXrayAgain(source.xray, target.xray, name, checks);
    }
    if Hysteria in to.flags {
      CopyOptionalAgain(source.hysteria, target.hysteria, name, checks);
    }
    if Snell in to.flags {
      MoveSnellAgain(source.snell, target.snell, from, to, name, checks);
    }
    if Naive in to.flags {
      CopyOptionalAgain(source.naive, target.naive, name, checks);
    }
  }

  // ---------------------------------------------------------------- AmneziaWG

  lemma {:induction false} PeersWithOther(instances: seq<Instance>, k: nat, row: Row, name: string)
    requires k < |instances| && row.name != name
    ensures PeersNamed(WithPeer(instances, k, row), name) == PeersNamed(instances, name)
    ensures InstanceOf(WithPeer(instances, k, row), name) == InstanceOf(instances, name)
    decreases |instances|
  {
    var after, last := WithPeer(instances, k, row), |instances| - 1;
    NamedAppended(instances[k].peers, row, name);
    if k < last {
      PeersWithOther(instances[..last], k, row, name);
      assert after[..last] == WithPeer(instances[..last], k, row);
    } else {
      assert after[..last] == instances[..last];
    }
  }

  lemma {:induction false} PeersWithNew(instances: seq<Instance>, k: nat, row: Row)
    requires k < |instances| && PeersNamed(instances, row.name) == []
    ensures PeersNamed(WithPeer(instances, k, row), row.name) == [row]
    ensures InstanceOf(WithPeer(instances, k, row), row.name) == Some(k)
    ensures Named(WithPeer(instances, k, row)[k].peers, row.name) == [row]
    decreases |instances|
  {
    hide Named;
    var after, last := WithPeer(instances, k, row), |instances| - 1;
    NamedAppended(instances[k].peers, row, row.name);
    NoneNamed(instances, row.name, k);
    if k < last {
      PeersWithNew(instances[..last], k, row);
      assert after[..last] == WithPeer(instances[..last], k, row);
    } else {
      assert after[..last] == instances[..last];
    }
  }

  lemma {:induction false} NoneNamed(instances: seq<Instance>, name: string, k: nat)
    requires PeersNamed(instances, name) == [] && k < |instances|
    ensures Named(instances[k].peers, name) == []
    decreases |instances|
  {
    if k < |instances| - 1 {
      NoneNamed(instances[..|instances| - 1], name, k);
    }
  }

  /** The device's one peer is where it was sent, with the source's keys, and registered there. */
  ghost predicate AwgThere(source: Document, doc: Document, name: string, from: Site, to: Site, checks: Checks) {
    var original := Resolve(source, from, name, None, checks);
    var k := InstanceOf(doc.transports.awg, name);
    && original.Some? && name in source.registry
    && |PeersNamed(doc.transports.awg, name)| == 1 && k.Some?
    && var instance := doc.transports.awg[k.value];
       var peer := Named(instance.peers, name)[0];
    && Selects(instance, Some(WantedInstance(to, original.value.instance))) && !peer.routed
    && name in doc.registry && doc.registry[name].binding == Some(Binding(to.host, instance.name))
    && SameKeys(peer, original.value.peer, doc.registry[name], source.registry[name])
  }

  lemma {:induction false} MoveAwgAgain(
    source: Document, doc: Document, name: string, from: Site, to: Site, entry: Entry, checks: Checks)
    requires AwgThere(source, doc, name, from, to, checks) && checks.awgSound(to.node, doc) && Active(doc.registry[name])
    ensures MoveAwg(source, doc, name, from, to, entry, checks) == Some((doc, entry))
  {
    hide PeersNamed, InstanceOf, Named, Active;
  }

  lemma {:induction false} AwgKeptForOther(
    source: Document, doc: Document, after: Document, name: string, other: string, from: Site, to: Site, checks: Checks)
    requires AwgThere(source, doc, other, from, to, checks) && other != name
    requires other in after.registry && after.registry[other] == doc.registry[other]
    requires |after.transports.awg| == |doc.transports.awg|
    requires PeersNamed(after.transports.awg, other) == PeersNamed(doc.transports.awg, other)
    requires InstanceOf(after.transports.awg, other) == InstanceOf(doc.transports.awg, other)
    requires forall i | 0 <= i < |doc.transports.awg| ::
               && after.transports.awg[i].name == doc.transports.awg[i].name
               && Named(after.transports.awg[i].peers, other) == Named(doc.transports.awg[i].peers, other)
    ensures AwgThere(source, after, other, from, to, checks)
  {
    hide PeersNamed, Named, Resolve;
  }

  lemma {:induction false} ResolvedPeer(doc: Document, site: Site, name: string, wanted: Option<string>, checks: Checks)
    requires Resolve(doc, site, name, wanted, checks).Some?
    ensures Resolve(doc, site, name, wanted, checks).value.peer.name == name
    ensures !Resolve(doc, site, name, wanted, checks).value.peer.routed
  {
    hide PeersNamed, Active;
    var peers := doc.transports.awg[InstanceOf(doc.transports.awg, name).value].peers;
    NamedNames(peers, name);
    assert Named(peers, name)[0] in Named(peers, name);
  }

  /** The moved document: unchanged, or one peer of the device appended at the selected instance. */
  ghost predicate AwgStep(doc: Document, after: Document, name: string) {
    && after.transports == doc.transports.(awg := after.transports.awg)
    && after.registry.Keys == doc.registry.Keys
    && (forall other | other in doc.registry && other != name :: after.registry[other] == doc.registry[other])
    && (name in doc.registry ==> after.registry[name].status == doc.registry[name].status)
    && (after.transports.awg == doc.transports.awg ||
        exists k: nat, row: Row :: k < |doc.transports.awg| && row.name == name && after.transports.awg == WithPeer(doc.transports.awg, k, row))
  }

  lemma {:induction false} MoveAwgStep(
    source: Document, doc: Document, name: string, from: Site, to: Site, entry: Entry, checks: Checks)
    requires MoveAwg(source, doc, name, from, to, entry, checks).Some?
    ensures AwgStep(doc, MoveAwg(source, doc, name, from, to, entry, checks).value.0, name)
  {
    hide PeersNamed, Allocated, WithPeer, Selected, Resolve;
    ResolvedPeer(source, from, name, None, checks);
    var after := MoveAwg(source, doc, name, from, to, entry, checks).value.0;
    if PeersNamed(doc.transports.awg, name) == [] {
      var original := Resolve(source, from, name, None, checks).value;
      var k := Selected(doc.transports.awg, Some(WantedInstance(to, original.instance))).value;
      var v4, v6 := Allocated(doc.transports.awg, k, V4).value, Allocated(doc.transports.awg, k, V6).value;
      var row := original.peer.(v4 := Prefix(Claim(v4, v4)), v6 := Prefix(Claim(v6, v6)));
      assert after.transports.awg == WithPeer(doc.transports.awg, k, row) && row.name == name;
    }
  }

  /** The document once the registry entry of a new device is added. */
  function Registered(doc: Document, moved: (Document, Entry), name: string): Document {
    if name in doc.registry then moved.0 else moved.0.(registry := moved.0.registry[name := moved.1])
  }

  lemma {:induction false} MoveAwgThere(
    source: Document, doc: Document, name: string, from: Site, to: Site, entry: Entry, checks: Checks)
    requires MoveAwg(source, doc, name, from, to, entry, checks).Some? && name in source.registry
    requires entry.privateKey == source.registry[name].privateKey && entry.fingerprint == source.registry[name].fingerprint
    ensures AwgThere(source, Registered(doc, MoveAwg(source, doc, name, from, to, entry, checks).value, name), name, from, to, checks)
  {
    if PeersNamed(doc.transports.awg, name) == [] {
      hide Resolve, Named, PeersNamed, InstanceOf, Selected, Allocated, AwgThere, WithPeer;
      ResolvedPeer(source, from, name, None, checks);
      var original := Resolve(source, from, name, None, checks).value;
      var k := Selected(doc.transports.awg, Some(WantedInstance(to, original.instance))).value;
      var v4, v6 := Allocated(doc.transports.awg, k, V4).value, Allocated(doc.transports.awg, k, V6).value;
      var row := original.peer.(v4 := Prefix(Claim(v4, v4)), v6 := Prefix(Claim(v6, v6)));
      var after := Registered(doc, MoveAwg(source, doc, name, from, to, entry, checks).value, name);
      PeersWithNew(doc.transports.awg, k, row);
      AwgAdded(source, doc, after, k, row, name, from, to, checks);
    } else {
      hide PeersNamed, Named, InstanceOf, Allocated;
    }
  }

  lemma {:induction false} AwgAdded(
    source: Document, doc: Document, after: Document, k: nat, row: Row, name: string, from: Site, to: Site, checks: Checks)
    requires k < |doc.transports.awg| && after.transports.awg == WithPeer(doc.transports.awg, k, row)
    requires PeersNamed(after.transports.awg, name) == [row] && InstanceOf(after.transports.awg, name) == Some(k)
    requires Named(after.transports.awg[k].peers, name) == [row] && !row.routed
    requires Resolve(source, from, name, None, checks).Some? && name in source.registry && name in after.registry
    requires after.registry[name].binding == Some(Binding(to.host, doc.transports.awg[k].name))
    requires var original := Resolve(source, from, name, None, checks).value;
             && Selects(doc.transports.awg[k], Some(WantedInstance(to, original.instance)))
             && SameKeys(row, original.peer, after.registry[name], source.registry[name])
    ensures AwgThere(source, after, name, from, to, checks)
  {
    hide Resolve, Named, PeersNamed, InstanceOf;
  }

  lemma {:induction false} AwgStepKeepsOther(
    source: Document, doc: Document, after: Document, name: string, other: string, from: Site, to: Site, checks: Checks)
    requires AwgStep(doc, after, name) && other != name && AwgThere(source, doc, other, from, to, checks)
    ensures AwgThere(source, after, other, from, to, checks)
  {
    hide AwgThere, PeersNamed, InstanceOf, Named;
    assert other in doc.registry by { RegisteredThere(source, doc, other, from, to, checks); }
    if after.transports.awg != doc.transports.awg {
      var k: nat, row: Row :| k < |doc.transports.awg| && row.name == name && after.transports.awg == WithPeer(doc.transports.awg, k, row);
      PeersWithOther(doc.transports.awg, k, row, other);
      NamedAppended(doc.transports.awg[k].peers, row, other);
      assert Named(doc.transports.awg[k].peers, other) + [] == Named(doc.transports.awg[k].peers, other);
    }
    AwgKeptForOther(source, doc, after, name, other, from, to, checks);
  }

  lemma {:induction false} RegisteredThere(source: Document, doc: Document, name: string, from: Site, to: Site, checks: Checks)
    requires AwgThere(source, doc, name, from, to, checks)
    ensures name in doc.registry
  {
  }

  // ---------------------------------------------------------------- one device

  /** Nothing is left to do for the device, short of checking whole collections. */
  ghost predicate DeviceThere(source: Document, doc: Document, name: string, from: Site, to: Site, checks: Checks) {
    && Movable(source, doc, name) && name in doc.registry
    && MovedEntry(source.registry[name], from, to, checks).Some?
    && RowsThere(source.transports, doc.transports, from, to, name)
    && (Amneziawg in to.flags ==> AwgThere(source, doc, name, from, to, checks))
  }

  lemma {:induction false} MovedEntryKeeps(entry: Entry, from: Site, to: Site, checks: Checks)
    requires MovedEntry(entry, from, to, checks).Some?
    ensures var moved := MovedEntry(entry, from, to, checks).value;
            Active(moved) && moved.privateKey == entry.privateKey && moved.fingerprint == entry.fingerprint
  {
    hide Placed;
  }

  lemma {:induction false} RowsThereAside(source: Transports, a: Transports, b: Transports, from: Site, to: Site, name: string, checks: Checks)
    requires b == a.(awg := b.awg)
    ensures RowsThere(source, b, from, to, name) == RowsThere(source, a, from, to, name)
    ensures RowsValid(source, b, to, checks) == RowsValid(source, a, to, checks)
  {
    hide XrayThere, OptionThere, SnellThere, XrayValid, OptionValid, SnellValid, NaiveOk;
  }

  /** The document between the copied rows and the registered device. */
  ghost predicate RegistryStep(doc: Document, after: Document, name: string) {
    && name in after.registry && after.registry.Keys == doc.registry.Keys + {name}
    && (forall other | other in doc.registry && other != name :: after.registry[other] == doc.registry[other])
    && ((name in doc.registry ==> Active(doc.registry[name])) ==> Active(after.registry[name]))
  }

  ghost predicate AwgOutcome(source: Document, rows: Document, after: Document, name: string, from: Site, to: Site, checks: Checks) {
    && RegistryStep(rows, after, name)
    && after.transports == rows.transports.(awg := after.transports.awg)
    && (Amneziawg in to.flags ==> AwgThere(source, after, name, from, to, checks))
    && (Amneziawg !in to.flags ==> after.transports == rows.transports)
    && forall other | other != name && AwgThere(source, rows, other, from, to, checks) :: AwgThere(source, after, other, from, to, checks)
  }

  lemma {:induction false} AwgOutcomeHolds(source: Document, doc: Document, name: string, from: Site, to: Site, checks: Checks)
    requires MoveDevice(source, doc, name, from, to, checks).Some?
    ensures MoveRows(source.transports, doc.transports, name, from, to, checks).Some?
    ensures var rows := Document(MoveRows(source.transports, doc.transports, name, from, to, checks).value, doc.registry);
            AwgOutcome(source, rows, MoveDevice(source, doc, name, from, to, checks).value, name, from, to, checks)
  {
    hide MoveRows, MoveAwg, MovedEntry, AwgThere, AwgStep, Active;
    var rows := Document(MoveRows(source.transports, doc.transports, name, from, to, checks).value, doc.registry);
    var after := MoveDevice(source, doc, name, from, to, checks).value;
    var entry := MovedEntry(source.registry[name], from, to, checks).value;
    MovedEntryKeeps(source.registry[name], from, to, checks);
    if Amneziawg in to.flags {
      var moved := MoveAwg(source, rows, name, from, to, entry, checks).value;
      MoveAwgStep(source, rows, name, from, to, entry, checks);
      MoveAwgThere(source, rows, name, from, to, entry, checks);
      BoundActive(source, rows, name, from, to, entry, checks);
      StepThenRegister(rows, moved, name);
      assert after == Registered(rows, moved, name);
      forall other | other != name && AwgThere(source, rows, other, from, to, checks)
        ensures AwgThere(source, after, other, from, to, checks)
      {
        AwgStepKeepsOther(source, rows, moved.0, name, other, from, to, checks);
        RegisteringKeepsOther(source, moved.0, after, moved.1, name, other, from, to, checks);
      }
    } else {
      UnboundActive(entry);
      forall other | other != name && AwgThere(source, rows, other, from, to, checks)
        ensures AwgThere(source, after, other, from, to, checks)
      {
        RegisteringKeepsOther(source, rows, after, Unbound(entry), name, other, from, to, checks);
      }
    }
  }

  lemma {:induction false} UnboundActive(entry: Entry)
    ensures Active(Unbound(entry)) == Active(entry)
  {
  }

  lemma {:induction false} BoundActive(
    source: Document, doc: Document, name: string, from: Site, to: Site, entry: Entry, checks: Checks)
    requires MoveAwg(source, doc, name, from, to, entry, checks).Some?
    ensures Active(MoveAwg(source, doc, name, from, to, entry, checks).value.1) == Active(entry)
  {
    hide Resolve, PeersNamed, Selected, Allocated, WithPeer;
  }

  lemma {:induction false} StepThenRegister(doc: Document, moved: (Document, Entry), name: string)
    requires AwgStep(doc, moved.0, name) && Active(moved.1)
    ensures RegistryStep(doc, Registered(doc, moved, name), name)
    ensures Registered(doc, moved, name).transports == doc.transports.(awg := moved.0.transports.awg)
  {
    hide WithPeer;
  }

  lemma {:induction false} RegisteringKeepsOther(
    source: Document, doc: Document, after: Document, entry: Entry, name: string, other: string, from: Site, to: Site, checks: Checks)
    requires other != name && AwgThere(source, doc, other, from, to, checks)
    requires after == doc || after == doc.(registry := doc.registry[name := entry])
    ensures AwgThere(source, after, other, from, to, checks)
  {
    hide PeersNamed, InstanceOf, Named, Resolve;
  }

  /** Preparing a device leaves it, and every device prepared before, there. */
  lemma {:induction false} MoveDeviceThere(source: Document, doc: Document, name: string, from: Site, to: Site, checks: Checks)
    requires MoveDevice(source, doc, name, from, to, checks).Some?
    ensures var after := MoveDevice(source, doc, name, from, to, checks).value;
            && DeviceThere(source, after, name, from, to, checks) && RowsValid(source.transports, after.transports, to, checks)
            && forall other | other != name && DeviceThere(source, doc, other, from, to, checks) :: DeviceThere(source, after, other, from, to, checks)
  {
    var after := MoveDevice(source, doc, name, from, to, checks).value;
    AwgOutcomeHolds(source, doc, name, from, to, checks);
    assert Movable(source, doc, name) && MovedEntry(source.registry[name], from, to, checks).Some?;
    hide MoveDevice, MovedEntry, MoveRows, RowsThere, RowsValid, AwgThere, Active;
    var rows := MoveRows(source.transports, doc.transports, name, from, to, checks).value;
    MoveRowsThere(source.transports, doc.transports, name, from, to, checks);
    RowsThereAside(source.transports, rows, after.transports, from, to, name, checks);
    forall other | other != name && DeviceThere(source, doc, other, from, to, checks)
      ensures DeviceThere(source, after, other, from, to, checks)
    {
      RowsThereAside(source.transports, rows, after.transports, from, to, other, checks);
      if Amneziawg in to.flags {
        AwgThereAside(source, doc, Document(rows, doc.registry), other, from, to, checks);
      }
    }
  }

  lemma {:induction false} AwgThereAside(source: Document, a: Document, b: Document, name: string, from: Site, to: Site, checks: Checks)
    requires AwgThere(source, a, name, from, to, checks) && b.transports.awg == a.transports.awg && b.registry == a.registry
    ensures AwgThere(source, b, name, from, to, checks)
  {
    hide PeersNamed, InstanceOf, Named, Resolve;
  }

  /** A device that is there is left as it is. */
  lemma {:induction false} MoveDeviceAgain(source: Document, doc: Document, name: string, from: Site, to: Site, checks: Checks)
    requires DeviceThere(source, doc, name, from, to, checks) && RowsValid(source.transports, doc.transports, to, checks)
    requires Amneziawg in to.flags ==> checks.awgSound(to.node, doc)
    ensures MoveDevice(source, doc, name, from, to, checks) == Some(doc)
  {
    hide MoveRows, MoveAwg, MovedEntry, RowsThere, RowsValid, AwgThere, Active;
    MoveRowsAgain(source.transports, doc.transports, name, from, to, checks);
    var entry := MovedEntry(source.registry[name], from, to, checks).value;
    assert Document(doc.transports, doc.registry) == doc;
    if Amneziawg in to.flags {
      MoveAwgAgain(source, doc, name, from, to, entry, checks);
    }
  }

  // ---------------------------------------------------------------- all devices

  lemma {:induction false} MoveDevicesThere(
    source: Document, target: Document, names: seq<string>, from: Site, to: Site, checks: Checks)
    requires Distinct(names) && MoveDevices(source, target, names, from, to, checks).Some?
    ensures var result := MoveDevices(source, target, names, from, to, checks).value;
            && (forall i | 0 <= i < |names| :: DeviceThere(source, result, names[i], from, to, checks))
            && (names != [] ==> RowsValid(source.transports, result.transports, to, checks))
    decreases |names|
  {
    hide DeviceThere, RowsValid, MoveDevice;
    if names != [] {
      var init, last := names[..|names| - 1], names[|names| - 1];
      MoveDevicesThere(source, target, init, from, to, checks);
      var before := MoveDevices(source, target, init, from, to, checks).value;
      MoveDeviceThere(source, before, last, from, to, checks);
      forall i | 0 <= i < |names| - 1
        ensures DeviceThere(source, MoveDevice(source, before, last, from, to, checks).value, names[i], from, to, checks)
      {
        assert init[i] == names[i] && names[i] != last;
      }
    }
  }

  lemma {:induction false} MoveDevicesAgain(
    source: Document, doc: Document, names: seq<string>, from: Site, to: Site, checks: Checks)
    requires forall i | 0 <= i < |names| :: DeviceThere(source, doc, names[i], from, to, checks)
    requires RowsValid(source.transports, doc.transports, to, checks)
    requires Amneziawg in to.flags ==> checks.awgSound(to.node, doc)
    ensures MoveDevices(source, doc, names, from, to, checks) == Some(doc)
    decreases |names|
  {
    hide DeviceThere, RowsValid, MoveDevice;
    if names != [] {
      var init := names[..|names| - 1];
      forall i | 0 <= i < |init| ensures DeviceThere(source, doc, init[i], from, to, checks) {
        assert init[i] == names[i];
      }
      MoveDevicesAgain(source, doc, init, from, to, checks);
      MoveDeviceAgain(source, doc, names[|names| - 1], from, to, checks);
    }
  }

  /**
   Preparing an already prepared document is accepted and changes nothing.  Admitting a whole
   document includes admitting its AmneziaWG part, where that transport is enabled.
   */
  lemma {:induction false} PrepareIdempotent(
    source: Document, target: Document, names: seq<string>, from: Site, to: Site, checks: Checks, result: Document)
    requires Prepared(source, target, names, from, to, checks) == Some(result)
    requires Amneziawg in to.flags && checks.sound(to.node, result) ==> checks.awgSound(to.node, result)
    ensures Prepared(source, result, names, from, to, checks) == Some(result)
  {
    hide DeviceThere, RowsValid, MoveDevices, Distinct;
    MoveDevicesThere(source, target, names, from, to, checks);
    MoveDevicesAgain(source, result, names, from, to, checks);
  }

  // ---------------------------------------------------------------- append-only

  ghost predicate XrayAppended(before: Option<Xray>, after: Option<Xray>) {
    if before.None? then after.None?
    else
      && after.Some? && before.value.clients <= after.value.clients && |after.value.cohorts| == |before.value.cohorts|
      && forall i | 0 <= i < |before.value.cohorts| ::
           && after.value.cohorts[i].name == before.value.cohorts[i].name
           && before.value.cohorts[i].clients <= after.value.cohorts[i].clients
  }

  ghost predicate OptionAppended(before: Option<seq<Row>>, after: Option<seq<Row>>) {
    if before.None? then after.None? else after.Some? && before.value <= after.value
  }

  ghost predicate PeersAppended(before: seq<Instance>, after: seq<Instance>) {
    |after| == |before| &&
    forall i | 0 <= i < |before| :: after[i] == before[i].(peers := after[i].peers) && before[i].peers <= after[i].peers
  }

  ghost predicate UsersAppended(before: seq<Variant>, after: seq<Variant>) {
    |after| == |before| &&
    forall i | 0 <= i < |before| :: after[i] == before[i].(users := after[i].users) && before[i].users <= after[i].users
  }

  /** Every collection is a prefix of the resulting one, and no other device's registry entry moved. */
  ghost predicate Appended(before: Document, after: Document, names: seq<string>) {
    && XrayAppended(before.transports.xray, after.transports.xray)
    && OptionAppended(before.transports.hysteria, after.transports.hysteria)
    && OptionAppended(before.transports.naive, after.transports.naive)
    && PeersAppended(before.transports.awg, after.transports.awg)
    && UsersAppended(before.transports.snell, after.transports.snell)
    && (forall other | other !in names :: other in after.registry <==> other in before.registry)
    && (forall other | other !in names && other in before.registry :: other in after.registry && after.registry[other] == before.registry[other])
  }

  lemma {:induction false} MoveXrayAppends(source: Option<Xray>, target: Option<Xray>, name: string, checks: Checks)
    requires MoveXray(source, target, name, checks).Some?
    ensures XrayAppended(target, MoveXray(source, target, name, checks).value)
  {
    hide CopyClient, MembershipSupported, Listing;
    CopyClientThere(source.value.clients, target.value.clients, name, checks, true);
  }

  lemma {:induction false} MoveRowsAppends(source: Transports, target: Transports, name: string, from: Site, to: Site, checks: Checks)
    requires MoveRows(source, target, name, from, to, checks).Some?
    ensures var after := MoveRows(source, target, name, from, to, checks).value;
            && XrayAppended(target.xray, after.xray) && OptionAppended(target.hysteria, after.hysteria)
            && OptionAppended(target.naive, after.naive) && UsersAppended(target.snell, after.snell) && after.awg == target.awg
  {
    hide MoveXray, MoveSnell, CopyOptional;
    var after := MoveRows(source, target, name, from, to, checks).value;
    if after.xray != target.xray {
      hide XrayAppended;
      MoveXrayAppends(source.xray, target.xray, name, checks);
    }
    if Hysteria in to.flags {
      CopyOptionalThere(source.hysteria, target.hysteria, name, checks);
    }
    if Snell in to.flags {
      MoveSnellParts(source.snell, target.snell, from, to, name, checks);
    }
    if Naive in to.flags {
      CopyOptionalThere(source.naive, target.naive, name, checks);
    }
  }

  lemma {:induction false} MoveDeviceAppends(source: Document, doc: Document, name: string, from: Site, to: Site, checks: Checks)
    requires MoveDevice(source, doc, name, from, to, checks).Some?
    ensures Appended(doc, MoveDevice(source, doc, name, from, to, checks).value, [name])
  {
    hide MoveRows, MoveAwg, MovedEntry, XrayAppended, OptionAppended, UsersAppended, WithPeer, PeersAppended, Active;
    MoveRowsAppends(source.transports, doc.transports, name, from, to, checks);
    var rows := Document(MoveRows(source.transports, doc.transports, name, from, to, checks).value, doc.registry);
    PeersAppendedSame(doc.transports.awg);
    if Amneziawg in to.flags {
      var entry := MovedEntry(source.registry[name], from, to, checks).value;
      var moved := MoveAwg(source, rows, name, from, to, entry, checks).value.0;
      MoveAwgStep(source, rows, name, from, to, entry, checks);
      if moved.transports.awg != rows.transports.awg {
        var k: nat, row: Row :| k < |doc.transports.awg| && row.name == name && moved.transports.awg == WithPeer(doc.transports.awg, k, row);
        PeersAppendedOne(doc.transports.awg, k, row);
      }
    }
  }

  lemma {:induction false} PeersAppendedSame(instances: seq<Instance>)
    ensures PeersAppended(instances, instances)
  {
  }

  lemma {:induction false} PeersAppendedOne(instances: seq<Instance>, k: nat, row: Row)
    requires k < |instances|
    ensures PeersAppended(instances, WithPeer(instances, k, row))
  {
  }

  lemma {:induction false} AppendedSame(doc: Document, names: seq<string>)
    ensures Appended(doc, doc, names)
  {
  }

  lemma {:induction false} AppendedTwice(a: Document, b: Document, c: Document, names: seq<string>, name: string)
    requires Appended(a, b, names) && Appended(b, c, [name])
    ensures Appended(a, c, names + [name])
  {
    hide XrayAppended, PeersAppended, UsersAppended;
    TransportsAppendedTwice(a.transports, b.transports, c.transports);
    forall other | other !in names + [name] ensures other !in names && other !in [name] {
    }
  }

  lemma {:induction false} TransportsAppendedTwice(a: Transports, b: Transports, c: Transports)
    requires XrayAppended(a.xray, b.xray) && XrayAppended(b.xray, c.xray)
    requires PeersAppended(a.awg, b.awg) && PeersAppended(b.awg, c.awg)
    requires UsersAppended(a.snell, b.snell) && UsersAppended(b.snell, c.snell)
    ensures XrayAppended(a.xray, c.xray) && PeersAppended(a.awg, c.awg) && UsersAppended(a.snell, c.snell)
  {
  }

  lemma {:induction false} MoveDevicesAppends(
    source: Document, target: Document, names: seq<string>, from: Site, to: Site, checks: Checks)
    requires MoveDevices(source, target, names, from, to, checks).Some?
    ensures Appended(target, MoveDevices(source, target, names, from, to, checks).value, names)
    decreases |names|
  {
    hide Appended, MoveDevice;
    if names == [] {
      AppendedSame(target, names);
    } else {
      var init, last := names[..|names| - 1], names[|names| - 1];
      MoveDevicesAppends(source, target, init, from, to, checks);
      var before := MoveDevices(source, target, init, from, to, checks).value;
      MoveDeviceAppends(source, before, last, from, to, checks);
      AppendedTwice(target, before, MoveDevice(source, before, last, from, to, checks).value, init, last);
      assert init + [last] == names;
    }
  }

  /** Other clients keep their rows and their order on the target. */
  lemma {:induction false} PrepareAppendsOnly(
    source: Document, target: Document, names: seq<string>, from: Site, to: Site, checks: Checks, result: Document)
    requires Prepared(source, target, names, from, to, checks) == Some(result)
    ensures Appended(target, result, names)
  {
    hide Appended, MoveDevices, Startable;
    MoveDevicesAppends(source, target, names, from, to, checks);
  }

  // ---------------------------------------------------------------- addresses

  lemma {:induction false} MoveAwgDisjoint(
    source: Document, doc: Document, name: string, from: Site, to: Site, entry: Entry, checks: Checks)
    requires MoveAwg(source, doc, name, from, to, entry, checks).Some? && Disjoint(doc.transports.awg)
    ensures Disjoint(MoveAwg(source, doc, name, from, to, entry, checks).value.0.transports.awg)
  {
    hide Disjoint, Resolve, PeersNamed, Selected, Allocated, WithPeer;
    if PeersNamed(doc.transports.awg, name) == [] {
      var awg := doc.transports.awg;
      var original := Resolve(source, from, name, None, checks).value;
      var k := Selected(awg, Some(WantedInstance(to, original.instance))).value;
      var v4, v6 := Allocated(awg, k, V4).value, Allocated(awg, k, V6).value;
      AllocatedUnheld(awg, k, V4);
      AllocatedUnheld(awg, k, V6);
      DisjointWithPeer(awg, k, original.peer.(v4 := Prefix(Claim(v4, v4)), v6 := Prefix(Claim(v6, v6))), v4, v6);
    }
  }

  /** Disjoint addresses on the target stay disjoint, including server addresses of overlapping pools. */
  lemma {:induction false} MoveDevicesDisjoint(
    source: Document, target: Document, names: seq<string>, from: Site, to: Site, checks: Checks)
    requires MoveDevices(source, target, names, from, to, checks).Some? && Disjoint(target.transports.awg)
    ensures Disjoint(MoveDevices(source, target, names, from, to, checks).value.transports.awg)
    decreases |names|
  {
    hide Disjoint, MoveRows, MoveAwg, MovedEntry, Active;
    if names != [] {
      var init, last := names[..|names| - 1], names[|names| - 1];
      MoveDevicesDisjoint(source, target, init, from, to, checks);
      var before := MoveDevices(source, target, init, from, to, checks).value;
      MoveRowsAppends(source.transports, before.transports, last, from, to, checks);
      if Amneziawg in to.flags {
        var rows := Document(MoveRows(source.transports, before.transports, last, from, to, checks).value, before.registry);
        MoveAwgDisjoint(source, rows, last, from, to, MovedEntry(source.registry[last], from, to, checks).value, checks);
      }
    }
  }

  // ---------------------------------------------------------------- there and back

  lemma {:induction false} IndexOfUpdated(values: seq<string>, value: string, other: string)
    requires Once(values, value) && other !in values
    ensures IndexOf(values[IndexOf(values, value) := other], other) == IndexOf(values, value)
    ensures Once(values[IndexOf(values, value) := other], other)
    ensures value !in values[IndexOf(values, value) := other]
  {
    var i := IndexOf(values, value);
    var updated := values[i := other];
    assert forall k | 0 <= k < i :: updated[k] == values[k] && values[k] in values;
    assert updated[i + 1..] == values[i + 1..];
    assert updated[i] == other;
    forall k | i < k < |values| ensures values[k] in values && values[k] != other {
    }
    forall k | 0 <= k < |updated| ensures updated[k] != value {
      if k > i {
        assert values[i + 1..][k - i - 1] == values[k];
      }
    }
  }

  /**
   A moved entry can be moved back, and then names exactly the hosts, cohorts, sources and
   delivery options it had, iff it was not already delivered from the target.
   */
  lemma {:induction false} MoveBack(entry: Entry, from: Site, to: Site, checks: Checks)
    requires MovedEntry(entry, from, to, checks).Some? && from.host != to.host
    ensures var there := MovedEntry(entry, from, to, checks).value;
            var back := MovedEntry(there, to, from, checks);
            && (back.Some? ==>
                  back.value.hosts == entry.hosts && back.value.cohorts == entry.cohorts && back.value.sources == entry.sources)
            && (entry.deliveryHost != to.host <==>
                  back.Some? && back.value.deliveryHost == entry.deliveryHost && back.value.options == entry.options)
  {
    hide IndexOf;
    IndexOfUpdated(entry.hosts, from.host, to.host);
    var i := IndexOf(entry.hosts, from.host);
    assert entry.hosts[i := to.host][i := from.host] == entry.hosts;
    if entry.cohorts != [] {
      assert entry.cohorts[i := to.node.cohort][i := from.node.cohort] == entry.cohorts;
    }
    if entry.sources.Some? {
      assert entry.sources.value[i := to.secretsFile][i := from.secretsFile] == entry.sources.value;
    }
  }
}
