/** Exactly when a device can be prepared on the target, transport by transport. */
module MigrationAdmission {
  import opened Wrappers
  import opened AddressPool
  import opened DeviceAuthority
  import opened DeviceCredentials
  import opened CredentialLaws
  import opened MigrationCredentials
  import opened MigrationMeaning

  // ---------------------------------------------------------------- one collection

  predicate RowUsable(row: Row, checks: Checks, uuid: bool) {
    && Spelled(row.name) && (forall x | 0 <= x < |row.keys| :: row.keys[x] != "")
    && (uuid ==> row.keys != [] && checks.uuidValid(row.keys[0]))
  }

  /** Neither the name nor any key is shared. */
  predicate Apart(a: Row, b: Row) {
    a.name != b.name && |a.keys| == |b.keys| && forall x | 0 <= x < |a.keys| && x < |b.keys| :: a.keys[x] != b.keys[x]
  }

  predicate Usable(rows: seq<Row>, checks: Checks, uuid: bool) {
    && |rows| <= 256 && (forall i | 0 <= i < |rows| :: RowUsable(rows[i], checks, uuid))
    && forall i, j | 0 <= i < j < |rows| :: Apart(rows[i], rows[j])
  }

  lemma {:induction false} UsableMeans(rows: seq<Row>, checks: Checks, uuid: bool)
    ensures ClientsValid(rows, checks, uuid) <==> Usable(rows, checks, uuid)
  {
    var names := seq(|rows|, i requires 0 <= i < |rows| => rows[i].name);
    assert forall i | 0 <= i < |rows| :: names[i] == rows[i].name;
    forall i | 0 <= i < |rows|
      ensures ValidName(rows[i].name) <==> Spelled(rows[i].name)
    {
      SpelledMeans(rows[i].name);
    }
    if Usable(rows, checks, uuid) {
      forall i, j | 0 <= i < |rows| && 0 <= j < |rows|
        ensures |rows[i].keys| == |rows[j].keys|
      {
        assert i < j ==> Apart(rows[i], rows[j]);
        assert j < i ==> Apart(rows[j], rows[i]);
      }
    }
  }

  /** The one source row of the name, already there or appended. */
  ghost predicate CopiesAt(source: seq<Row>, target: seq<Row>, name: string, after: seq<Row>, a: nat) {
    && OnlyAt(source, name, a)
    && if exists row :: row in target && row.name == name then source[a] in target && after == target
       else after == target + [source[a]]
  }

  ghost predicate Copies(source: seq<Row>, target: seq<Row>, name: string, checks: Checks, uuid: bool, after: seq<Row>) {
    && Usable(source, checks, uuid) && Usable(target, checks, uuid) && Usable(after, checks, uuid)
    && exists a: nat :: CopiesAt(source, target, name, after, a)
  }

  lemma {:induction false} NamedAt(rows: seq<Row>, name: string, a: nat)
    requires OnlyAt(rows, name, a)
    ensures Named(rows, name) == [rows[a]]
    decreases |rows|
  {
    var init, last := rows[..|rows| - 1], rows[|rows| - 1];
    if a == |init| {
      NoneNamed(init, name);
    } else {
      assert forall x | 0 <= x < |init| :: init[x] == rows[x];
      NamedAt(init, name, a);
    }
  }

  lemma {:induction false} NoneNamed(rows: seq<Row>, name: string)
    ensures Named(rows, name) == [] <==> forall i | 0 <= i < |rows| :: rows[i].name != name
    decreases |rows|
  {
    if rows != [] {
      var init := rows[..|rows| - 1];
      NoneNamed(init, name);
      assert forall x | 0 <= x < |init| :: init[x] == rows[x];
    }
  }

  lemma {:induction false} OnlyNamed(rows: seq<Row>, name: string, checks: Checks, uuid: bool, row: Row)
    requires Usable(rows, checks, uuid) && row in rows && row.name == name
    ensures Named(rows, name) == [row]
  {
    var a :| 0 <= a < |rows| && rows[a] == row;
    forall x | 0 <= x < |rows| && x != a
      ensures rows[x].name != name
    {
      assert x < a ==> Apart(rows[x], rows[a]);
      assert a < x ==> Apart(rows[a], rows[x]);
    }
    NamedAt(rows, name, a);
  }

  /** A row is copied exactly when both collections are usable, the source has one of the name, and the target none or the same. */
  lemma {:induction false} CopyAccepted(source: seq<Row>, target: seq<Row>, name: string, checks: Checks, uuid: bool, after: seq<Row>)
    ensures CopyClient(source, target, name, checks, uuid) == Some(after) <==> Copies(source, target, name, checks, uuid, after)
  {
    hide Named, ClientsValid, Usable;
    UsableMeans(source, checks, uuid);
    UsableMeans(target, checks, uuid);
    UsableMeans(after, checks, uuid);
    if Usable(source, checks, uuid) && Usable(target, checks, uuid) {
      if |Named(source, name)| == 1 {
        var a := NamedOnce(source, name);
        CopiedFrom(source, target, name, checks, uuid, after, a);
      }
      if a: nat :| CopiesAt(source, target, name, after, a) {
        NamedAt(source, name, a);
        CopiedFrom(source, target, name, checks, uuid, after, a);
      }
    }
  }

  lemma {:induction false} CopiedFrom(source: seq<Row>, target: seq<Row>, name: string, checks: Checks, uuid: bool, after: seq<Row>, a: nat)
    requires Usable(source, checks, uuid) && Usable(target, checks, uuid) && OnlyAt(source, name, a)
    ensures CopyClient(source, target, name, checks, uuid) == Some(after) <==>
            CopiesAt(source, target, name, after, a) && Usable(after, checks, uuid)
  {
    hide Named, ClientsValid, Usable;
    UsableMeans(source, checks, uuid);
    UsableMeans(target, checks, uuid);
    UsableMeans(after, checks, uuid);
    UsableMeans(target + [source[a]], checks, uuid);
    NamedAt(source, name, a);
    NoneNamed(target, name);
    if row :| row in target && row.name == name {
      OnlyNamed(target, name, checks, uuid, row);
    }
    if source[a] in target {
      OnlyNamed(target, name, checks, uuid, source[a]);
    }
  }

  // ---------------------------------------------------------------- cohorts

  ghost predicate Joinable(before: seq<Cohort>, after: seq<Cohort>, name: string) {
    && (before == [] <==> after == [])
    && (before != [] ==>
          && (exists k :: 0 <= k < |before| && name in before[k].clients)
          && (forall k | 0 <= k < |before| && name in before[k].clients :: CohortNamed(after, before[k].name))
          && ((exists i :: 0 <= i < |after| && name in after[i].clients) ==>
                && (forall k | 0 <= k < |before| && name in before[k].clients :: ListedAt(after, before[k].name, name))
                && (forall i | 0 <= i < |after| && name in after[i].clients :: ListedAt(before, after[i].name, name))))
  }

  lemma {:induction false} Listings(a: seq<Cohort>, b: seq<Cohort>, name: string)
    ensures Listing(a, name) <= Listing(b, name) <==>
            forall k | 0 <= k < |a| && name in a[k].clients :: ListedAt(b, a[k].name, name)
    ensures Listing(a, name) != {} <==> exists k :: 0 <= k < |a| && name in a[k].clients
  {
    forall k | 0 <= k < |a| && name in a[k].clients
      ensures a[k].name in Listing(a, name)
    {
    }
    if Listing(a, name) != {} {
      var id :| id in Listing(a, name);
    }
    if Listing(a, name) <= Listing(b, name) {
      forall k | 0 <= k < |a| && name in a[k].clients
        ensures ListedAt(b, a[k].name, name)
      {
        assert a[k].name in Listing(b, name);
      }
    }
  }

  lemma {:induction false} ListingsNamed(a: seq<Cohort>, b: seq<Cohort>, name: string)
    ensures Listing(a, name) <= CohortNames(b) <==>
            forall k | 0 <= k < |a| && name in a[k].clients :: CohortNamed(b, a[k].name)
  {
    if Listing(a, name) <= CohortNames(b) {
      forall k | 0 <= k < |a| && name in a[k].clients
        ensures CohortNamed(b, a[k].name)
      {
        assert a[k].name in Listing(a, name);
        assert a[k].name in CohortNames(b);
      }
    }
  }

  /** Cohorts are joined exactly when the target has all of the source's, and lists the device nowhere or in the same. */
  lemma {:induction false} JoinAccepted(before: seq<Cohort>, after: seq<Cohort>, name: string)
    ensures MembershipSupported(before, after, name) <==> Joinable(before, after, name)
  {
    hide Listing, CohortNames, CohortNamed, ListedAt;
    Listings(before, after, name);
    Listings(after, before, name);
    ListingsNamed(before, after, name);
  }

  // ---------------------------------------------------------------- Snell variants

  predicate VariantsUsable(variants: seq<Variant>) {
    && |variants| <= 256 && (forall i | 0 <= i < |variants| :: variants[i].id != "" && variants[i].psk != "")
    && forall i, j | 0 <= i < j < |variants| :: variants[i].id != variants[j].id && variants[i].psk != variants[j].psk
  }

  lemma {:induction false} VariantsMean(variants: seq<Variant>)
    ensures VariantsValid(variants) <==> VariantsUsable(variants)
  {
    var ids := seq(|variants|, i requires 0 <= i < |variants| => variants[i].id);
    var psks := seq(|variants|, i requires 0 <= i < |variants| => variants[i].psk);
    assert forall i | 0 <= i < |variants| :: ids[i] == variants[i].id && psks[i] == variants[i].psk;
  }

  /** No variant's first key is another's, and every variant's users are usable. */
  predicate UsersUsable(variants: seq<Variant>, checks: Checks) {
    && (forall v | 0 <= v < |variants| :: Usable(variants[v].users, checks, false))
    && forall v, w, i, j | 0 <= v < w < |variants| && 0 <= i < |variants[v].users| && 0 <= j < |variants[w].users| ::
         UserKey(variants[v].users[i]) != UserKey(variants[w].users[j])
  }

  ghost predicate UserCopies(source: seq<Variant>, was: Variant, ids: set<string>, name: string, checks: Checks, now: Variant) {
    && now.id == was.id && now.psk == was.psk
    && if was.id !in ids then now.users == was.users
       else exists k :: 0 <= k < |source| && source[k].id == was.id && Copies(source[k].users, was.users, name, checks, false, now.users)
  }

  lemma {:induction false} UserAccepted(source: seq<Variant>, was: Variant, ids: set<string>, name: string, checks: Checks, now: Variant)
    requires VariantsUsable(source)
    ensures CopyUser(source, was, ids, name, checks) == Some(now) <==> UserCopies(source, was, ids, name, checks, now)
  {
    hide CopyClient, Copies, UsersOf;
    if was.id in ids {
      if UsersOf(source, was.id).Some? {
        var k := UsersOfMeans(source, was.id);
        CopyAccepted(source[k].users, was.users, name, checks, false, now.users);
      }
      if k :| 0 <= k < |source| && source[k].id == was.id && Copies(source[k].users, was.users, name, checks, false, now.users) {
        UsersOfAt(source, k);
        CopyAccepted(source[k].users, was.users, name, checks, false, now.users);
      }
    }
  }

  lemma {:induction false} UsersOfAt(variants: seq<Variant>, k: nat)
    requires VariantsUsable(variants) && k < |variants|
    ensures UsersOf(variants, variants[k].id) == Some(variants[k].users)
    decreases |variants|
  {
    if k < |variants| - 1 {
      UsersOfAt(variants[..|variants| - 1], k);
    }
  }

  ghost predicate SnellMoves(source: seq<Variant>, target: seq<Variant>, from: Site, to: Site, name: string, checks: Checks, after: seq<Variant>) {
    && from.node.variants == to.node.variants && VariantsUsable(source) && VariantsUsable(target)
    && (forall id | id in to.node.variants ::
          (exists k :: 0 <= k < |source| && source[k].id == id) && exists i :: 0 <= i < |target| && target[i].id == id)
    && |after| == |target|
    && (forall i | 0 <= i < |target| :: UserCopies(source, target[i], to.node.variants, name, checks, after[i]))
    && UsersUsable(after, checks)
  }

  lemma {:induction false} SnellAccepted(
    source: seq<Variant>, target: seq<Variant>, from: Site, to: Site, name: string, checks: Checks, after: seq<Variant>)
    ensures MoveSnell(source, target, from, to, name, checks) == Some(after) <==>
            SnellMoves(source, target, from, to, name, checks, after)
  {
    hide CopyUser, UserCopies, VariantsValid, VariantsUsable, UsersValid, UsersUsable;
    VariantsMean(source);
    VariantsMean(target);
    UsersMean(after, checks);
    IdsMean(source, to.node.variants);
    IdsMean(target, to.node.variants);
    if VariantsUsable(source) {
      if AllCopied(source, target, to.node.variants, name, checks) {
        forall i | 0 <= i < |target| && |after| == |target|
          ensures UserCopies(source, target[i], to.node.variants, name, checks, after[i]) <==>
                  after[i] == CopyUser(source, target[i], to.node.variants, name, checks).value
        {
          UserAccepted(source, target[i], to.node.variants, name, checks, after[i]);
        }
      }
      if SnellMoves(source, target, from, to, name, checks, after) {
        forall i | 0 <= i < |target|
          ensures CopyUser(source, target[i], to.node.variants, name, checks) == Some(after[i])
        {
          UserAccepted(source, target[i], to.node.variants, name, checks, after[i]);
        }
        assert AllCopied(source, target, to.node.variants, name, checks);
        assert after == seq(|target|, i requires 0 <= i < |target| => CopyUser(source, target[i], to.node.variants, name, checks).value);
      }
    }
  }

  lemma {:induction false} IdsMean(variants: seq<Variant>, ids: set<string>)
    ensures ids <= Ids(variants) <==> forall id | id in ids :: exists k :: 0 <= k < |variants| && variants[k].id == id
  {
    assert forall id :: id in Ids(variants) <==> exists k :: 0 <= k < |variants| && variants[k].id == id;
  }

  lemma {:induction false} UsersMean(variants: seq<Variant>, checks: Checks)
    ensures UsersValid(variants, checks) <==> UsersUsable(variants, checks)
  {
    hide ClientsValid, Usable;
    forall v | 0 <= v < |variants|
      ensures ClientsValid(variants[v].users, checks, false) <==> Usable(variants[v].users, checks, false)
    {
      UsableMeans(variants[v].users, checks, false);
    }
  }

  // ---------------------------------------------------------------- the registry entry

  /** The source is in one place of the entry, the target in none, and the lists beside it agree. */
  ghost predicate PlaceableAt(entry: Entry, from: Site, to: Site, checks: Checks, i: nat) {
    && i < |entry.hosts| && entry.hosts[i] == from.host
    && (forall k | 0 <= k < |entry.hosts| && k != i :: entry.hosts[k] != from.host)
    && (forall k | 0 <= k < |entry.hosts| :: entry.hosts[k] != to.host)
    && (entry.cohorts == [] || (|entry.cohorts| == |entry.hosts| && entry.cohorts[i] == from.node.cohort))
    && (entry.sources.Some? ==> |entry.sources.value| == |entry.hosts| && entry.sources.value[i] == from.secretsFile)
    && (entry.options.Some? ==>
          && checks.optionsValid(entry.options.value)
          && entry.options.value.hosts == entry.hosts && entry.options.value.cohorts == entry.cohorts
          && entry.options.value.awgHost == entry.deliveryHost
          && checks.optionsValid(DeliveryOptions(
               entry.hosts[i := to.host], if entry.cohorts == [] then [] else entry.cohorts[i := to.node.cohort],
               if entry.deliveryHost == from.host then to.host else entry.deliveryHost, entry.options.value.rest)))
  }

  lemma {:induction false} EntryAccepted(entry: Entry, from: Site, to: Site, checks: Checks)
    ensures MovedEntry(entry, from, to, checks).Some? <==> exists i: nat :: PlaceableAt(entry, from, to, checks, i)
  {
    hide IndexOf;
    var k := IndexOf(entry.hosts, from.host);
    if i: nat :| PlaceableAt(entry, from, to, checks, i) {
      assert k == i;
      assert from.host !in entry.hosts[k + 1..];
      assert PlaceableAt(entry, from, to, checks, k);
      assert Placed(entry, from, to, checks);
    }
    if MovedEntry(entry, from, to, checks).Some? {
      forall x | 0 <= x < |entry.hosts| && x != k
        ensures entry.hosts[x] != from.host
      {
        if x > k {
          assert entry.hosts[k + 1..][x - k - 1] == entry.hosts[x];
        }
      }
      assert forall x | 0 <= x < |entry.hosts| :: entry.hosts[x] in entry.hosts;
      assert PlaceableAt(entry, from, to, checks, k);
    }
  }

  // ---------------------------------------------------------------- AmneziaWG

  /** The one peer of the name on the whole node. */
  ghost predicate PeerSole(instances: seq<Instance>, name: string, k: nat, x: nat) {
    && k < |instances| && OnlyAt(instances[k].peers, name, x)
    && forall l, y | 0 <= l < |instances| && l != k && 0 <= y < |instances[l].peers| :: instances[l].peers[y].name != name
  }

  ghost predicate PeerAbsent(instances: seq<Instance>, name: string) {
    forall l, y | 0 <= l < |instances| && 0 <= y < |instances[l].peers| :: instances[l].peers[y].name != name
  }

  lemma {:induction false} AbsentMeans(instances: seq<Instance>, name: string)
    ensures PeersNamed(instances, name) == [] <==> PeerAbsent(instances, name)
    decreases |instances|
  {
    hide Named;
    if instances != [] {
      var init, last := instances[..|instances| - 1], instances[|instances| - 1];
      assert forall l | 0 <= l < |init| :: init[l] == instances[l];
      AbsentMeans(init, name);
      NoneNamed(last.peers, name);
    }
  }

  lemma {:induction false} PeerSoleNamed(instances: seq<Instance>, name: string, k: nat, x: nat)
    requires PeerSole(instances, name, k, x)
    ensures PeersNamed(instances, name) == [instances[k].peers[x]] && InstanceOf(instances, name) == Some(k)
    ensures Named(instances[k].peers, name) == [instances[k].peers[x]]
    decreases |instances|
  {
    hide Named;
    var init, last := instances[..|instances| - 1], instances[|instances| - 1];
    assert forall l | 0 <= l < |init| :: init[l] == instances[l];
    NamedAt(instances[k].peers, name, x);
    if k == |init| {
      AbsentMeans(init, name);
    } else {
      PeerSoleNamed(init, name, k, x);
      NoneNamed(last.peers, name);
    }
  }

  lemma {:induction false} PeerFound(instances: seq<Instance>, name: string) returns (k: nat, x: nat)
    requires |PeersNamed(instances, name)| == 1
    ensures k < |instances| && x < |instances[k].peers| && PeerSole(instances, name, k, x)
    decreases |instances|
  {
    hide Named;
    var init, last := instances[..|instances| - 1], instances[|instances| - 1];
    assert forall l | 0 <= l < |init| :: init[l] == instances[l];
    NoneNamed(last.peers, name);
    if Named(last.peers, name) == [] {
      k, x := PeerFound(init, name);
    } else {
      AbsentMeans(init, name);
      k := |init|;
      x := NamedOnce(last.peers, name);
    }
  }

  /** An enrolled device: one peer, not routed, in the wanted instance, which its live entry names. */
  ghost predicate Enrolls(doc: Document, site: Site, name: string, wanted: Option<string>, checks: Checks, k: nat, x: nat) {
    && checks.awgSound(site.node, doc)
    && k < |doc.transports.awg| && x < |doc.transports.awg[k].peers| && PeerSole(doc.transports.awg, name, k, x)
    && (wanted.Some? ==> doc.transports.awg[k].name == wanted.value) && !doc.transports.awg[k].peers[x].routed
    && name in doc.registry && doc.registry[name].binding == Some(Binding(site.host, doc.transports.awg[k].name))
    && doc.registry[name].status in {"issued", "delivered", "active", "stale"}
  }

  lemma {:induction false} ResolveAccepted(doc: Document, site: Site, name: string, wanted: Option<string>, checks: Checks, r: Resolved)
    ensures Resolve(doc, site, name, wanted, checks) == Some(r) <==>
            exists k: nat, x: nat :: Enrolls(doc, site, name, wanted, checks, k, x)
              && r == Resolved(k, doc.transports.awg[k].name, doc.transports.awg[k].peers[x])
  {
    hide PeersNamed, InstanceOf, PeerSole, Named;
    if Resolve(doc, site, name, wanted, checks).Some? {
      var k, x := PeerFound(doc.transports.awg, name);
      PeerSoleNamed(doc.transports.awg, name, k, x);
      assert Enrolls(doc, site, name, wanted, checks, k, x);
    }
    if k: nat, x: nat :| Enrolls(doc, site, name, wanted, checks, k, x)
                         && r == Resolved(k, doc.transports.awg[k].name, doc.transports.awg[k].peers[x]) {
      PeerSoleNamed(doc.transports.awg, name, k, x);
    }
  }

  /** What the target has to offer: the very peer already, or room for one in an instance of its own. */
  ghost predicate Receives(source: Document, doc: Document, name: string, to: Site, original: Resolved, checks: Checks) {
    var wanted := if original.instance in to.awgInstances then to.awgInstances[original.instance] else original.instance;
    if PeerAbsent(doc.transports.awg, name) then
      && (name in doc.registry ==> doc.registry[name].binding.None?) && checks.awgSound(to.node, doc)
      && exists k :: 0 <= k < |doc.transports.awg| && Sole(doc.transports.awg, Some(wanted), k) && AddressesLeft(doc.transports.awg, k)
    else
      && name in source.registry
      && exists k: nat, x: nat :: Enrolls(doc, to, name, Some(wanted), checks, k, x)
           && doc.transports.awg[k].peers[x].keys == original.peer.keys
           && doc.registry[name].privateKey == source.registry[name].privateKey
           && doc.registry[name].fingerprint == source.registry[name].fingerprint
  }

  /** This peer of the source is enrolled there, and the target receives it. */
  ghost predicate Offers(source: Document, doc: Document, name: string, from: Site, to: Site, checks: Checks, k: nat, x: nat) {
    && Enrolls(source, from, name, None, checks, k, x)
    && Receives(source, doc, name, to, Resolved(k, source.transports.awg[k].name, source.transports.awg[k].peers[x]), checks)
  }

  lemma {:induction false} AwgAccepted(source: Document, doc: Document, name: string, from: Site, to: Site, entry: Entry, checks: Checks)
    ensures MoveAwg(source, doc, name, from, to, entry, checks).Some? <==>
            exists k: nat, x: nat :: Offers(source, doc, name, from, to, checks, k, x)
  {
    hide Resolve, Receives, PeerSole;
    if MoveAwg(source, doc, name, from, to, entry, checks).Some? {
      var original := Resolve(source, from, name, None, checks).value;
      hide MoveAwg;
      ResolveAccepted(source, from, name, None, checks, original);
      ReceiveAccepted(source, doc, name, from, to, entry, original, checks);
      var k: nat, x: nat :| Enrolls(source, from, name, None, checks, k, x)
                            && original == Resolved(k, source.transports.awg[k].name, source.transports.awg[k].peers[x]);
      assert Offers(source, doc, name, from, to, checks, k, x);
    }
    hide MoveAwg;
    if k: nat, x: nat :| Offers(source, doc, name, from, to, checks, k, x) {
      var original := Resolved(k, source.transports.awg[k].name, source.transports.awg[k].peers[x]);
      ResolveAccepted(source, from, name, None, checks, original);
      ReceiveAccepted(source, doc, name, from, to, entry, original, checks);
    }
  }

  lemma {:induction false} ReceiveAccepted(
    source: Document, doc: Document, name: string, from: Site, to: Site, entry: Entry, original: Resolved, checks: Checks)
    requires Resolve(source, from, name, None, checks) == Some(original)
    ensures MoveAwg(source, doc, name, from, to, entry, checks).Some? <==> Receives(source, doc, name, to, original, checks)
  {
    hide Resolve, PeersNamed, PeerAbsent, Allocated, Selected, Sole, AddressLeft, WithPeer;
    AbsentMeans(doc.transports.awg, name);
    var wanted := Some(WantedInstance(to, original.instance));
    if PeerAbsent(doc.transports.awg, name) {
      if Selected(doc.transports.awg, wanted).Some? {
        SelectedSole(doc.transports.awg, wanted, Selected(doc.transports.awg, wanted).value);
        AddressFound(doc.transports.awg, Selected(doc.transports.awg, wanted).value, V4);
        AddressFound(doc.transports.awg, Selected(doc.transports.awg, wanted).value, V6);
      }
      if k :| 0 <= k < |doc.transports.awg| && Sole(doc.transports.awg, wanted, k) && AddressesLeft(doc.transports.awg, k) {
        SelectedSole(doc.transports.awg, wanted, k);
        AddressFound(doc.transports.awg, k, V4);
        AddressFound(doc.transports.awg, k, V6);
      }
    } else {
      if Resolve(doc, to, name, wanted, checks).Some? {
        ResolveAccepted(doc, to, name, wanted, checks, Resolve(doc, to, name, wanted, checks).value);
      }
      if k: nat, x: nat :| Enrolls(doc, to, name, wanted, checks, k, x) {
        ResolveAccepted(doc, to, name, wanted, checks, Resolved(k, doc.transports.awg[k].name, doc.transports.awg[k].peers[x]));
      }
    }
  }

  // ---------------------------------------------------------------- one device

  ghost predicate OptionMoves(source: Option<seq<Row>>, target: Option<seq<Row>>, name: string, checks: Checks, whole: seq<Row> -> bool) {
    && source.Some? && target.Some? && whole(source.value)
    && exists after :: Copies(source.value, target.value, name, checks, false, after) && whole(after)
  }

  ghost predicate XrayMoves(source: Option<Xray>, target: Option<Xray>, name: string, checks: Checks) {
    && source.Some? && target.Some? && Joinable(source.value.cohorts, target.value.cohorts, name)
    && exists after :: Copies(source.value.clients, target.value.clients, name, checks, true, after)
  }

  /** Every enabled transport but AmneziaWG can take the device. */
  ghost predicate RowsMove(source: Transports, target: Transports, name: string, from: Site, to: Site, checks: Checks) {
    && (Reality in to.flags || Xhttp in to.flags ==> XrayMoves(source.xray, target.xray, name, checks))
    && (Hysteria in to.flags ==> OptionMoves(source.hysteria, target.hysteria, name, checks, rows => true))
    && (Snell in to.flags ==> exists after :: SnellMoves(source.snell, target.snell, from, to, name, checks, after))
    && (Naive in to.flags ==> OptionMoves(source.naive, target.naive, name, checks, checks.naiveValid))
  }

  lemma {:induction false} XrayAccepted(source: Option<Xray>, target: Option<Xray>, name: string, checks: Checks)
    ensures MoveXray(source, target, name, checks).Some? <==> XrayMoves(source, target, name, checks)
  {
    hide CopyClient, Copies, Joinable, MembershipSupported;
    if source.Some? && target.Some? {
      JoinAccepted(source.value.cohorts, target.value.cohorts, name);
      CopyPossible(source.value.clients, target.value.clients, name, checks, true);
    }
  }

  lemma {:induction false} CopyPossible(source: seq<Row>, target: seq<Row>, name: string, checks: Checks, uuid: bool)
    ensures forall after :: CopyClient(source, target, name, checks, uuid) == Some(after) <==> Copies(source, target, name, checks, uuid, after)
    ensures CopyClient(source, target, name, checks, uuid).Some? <==> exists after :: Copies(source, target, name, checks, uuid, after)
  {
    hide CopyClient, Copies;
    forall after
      ensures CopyClient(source, target, name, checks, uuid) == Some(after) <==> Copies(source, target, name, checks, uuid, after)
    {
      CopyAccepted(source, target, name, checks, uuid, after);
    }
    if CopyClient(source, target, name, checks, uuid).Some? {
      assert Copies(source, target, name, checks, uuid, CopyClient(source, target, name, checks, uuid).value);
    }
  }

  lemma {:induction false} OptionAccepted(source: Option<seq<Row>>, target: Option<seq<Row>>, name: string, checks: Checks)
    ensures CopyOptional(source, target, name, checks).Some? <==> OptionMoves(source, target, name, checks, rows => true)
    ensures MoveNaive(source, target, name, checks).Some? <==> OptionMoves(source, target, name, checks, checks.naiveValid)
  {
    hide CopyClient, Copies;
    if source.Some? && target.Some? {
      CopyPossible(source.value, target.value, name, checks, false);
    }
  }

  lemma {:induction false} SnellPossible(source: seq<Variant>, target: seq<Variant>, from: Site, to: Site, name: string, checks: Checks)
    ensures MoveSnell(source, target, from, to, name, checks).Some? <==>
            exists after :: SnellMoves(source, target, from, to, name, checks, after)
  {
    hide MoveSnell, SnellMoves;
    if MoveSnell(source, target, from, to, name, checks).Some? {
      SnellAccepted(source, target, from, to, name, checks, MoveSnell(source, target, from, to, name, checks).value);
    }
    if after :| SnellMoves(source, target, from, to, name, checks, after) {
      SnellAccepted(source, target, from, to, name, checks, after);
    }
  }

  lemma {:induction false} RowsAccepted(source: Transports, target: Transports, name: string, from: Site, to: Site, checks: Checks)
    ensures MoveRows(source, target, name, from, to, checks).Some? <==> RowsMove(source, target, name, from, to, checks)
  {
    hide MoveXray, MoveSnell, MoveNaive, CopyOptional, XrayMoves, OptionMoves, SnellMoves;
    XrayAccepted(source.xray, target.xray, name, checks);
    OptionAccepted(source.hysteria, target.hysteria, name, checks);
    OptionAccepted(source.naive, target.naive, name, checks);
    SnellPossible(source.snell, target.snell, from, to, name, checks);
  }

  ghost predicate Live(doc: Document, name: string) {
    name in doc.registry && doc.registry[name].status in {"issued", "delivered", "active", "stale"}
  }

  /** The other transports moved to `transports`, and the device's peer on the source is one the target then receives. */
  ghost predicate PeerMoves(source: Document, doc: Document, name: string, from: Site, to: Site, checks: Checks) {
    var moved := MoveRows(source.transports, doc.transports, name, from, to, checks);
    moved.Some? && exists k: nat, x: nat :: Offers(source, Document(moved.value, doc.registry), name, from, to, checks, k, x)
  }

  /** A live device is prepared exactly when its entry can be placed and each enabled transport can take it. */
  lemma {:induction false} DeviceAccepted(source: Document, doc: Document, name: string, from: Site, to: Site, checks: Checks)
    ensures MoveDevice(source, doc, name, from, to, checks).Some? <==>
            && Live(source, name) && (name in doc.registry ==> Live(doc, name))
            && (exists i: nat :: PlaceableAt(source.registry[name], from, to, checks, i))
            && RowsMove(source.transports, doc.transports, name, from, to, checks)
            && (Amneziawg in to.flags ==> PeerMoves(source, doc, name, from, to, checks))
  {
    hide MovedEntry, MoveRows, MoveAwg, RowsMove, PlaceableAt, Offers;
    if name in source.registry {
      EntryAccepted(source.registry[name], from, to, checks);
      RowsAccepted(source.transports, doc.transports, name, from, to, checks);
      var entry, rows := MovedEntry(source.registry[name], from, to, checks), MoveRows(source.transports, doc.transports, name, from, to, checks);
      if entry.Some? && rows.Some? {
        AwgAccepted(source, Document(rows.value, doc.registry), name, from, to, entry.value, checks);
      }
    }
  }

  // ---------------------------------------------------------------- the whole preparation

  /** One device after the other, from the target to the result. */
  ghost predicate Stepwise(source: Document, names: seq<string>, from: Site, to: Site, checks: Checks, docs: seq<Document>) {
    |docs| == |names| + 1 && forall i | 0 <= i < |names| :: MoveDevice(source, docs[i], names[i], from, to, checks) == Some(docs[i + 1])
  }

  lemma {:induction false} StepsFound(source: Document, target: Document, names: seq<string>, from: Site, to: Site, checks: Checks)
    returns (docs: seq<Document>)
    requires MoveDevices(source, target, names, from, to, checks).Some?
    ensures |docs| == |names| + 1 && Stepwise(source, names, from, to, checks, docs) && docs[0] == target
    ensures MoveDevices(source, target, names, from, to, checks) == Some(docs[|names|])
    decreases |names|
  {
    hide MoveDevice;
    docs := [target];
    if names != [] {
      var init := names[..|names| - 1];
      docs := StepsFound(source, target, init, from, to, checks);
      assert forall i | 0 <= i < |init| :: init[i] == names[i];
      docs := docs + [MoveDevices(source, target, names, from, to, checks).value];
    }
  }

  lemma {:induction false} StepsMove(source: Document, names: seq<string>, from: Site, to: Site, checks: Checks, docs: seq<Document>)
    requires Stepwise(source, names, from, to, checks, docs)
    ensures docs != [] && MoveDevices(source, docs[0], names, from, to, checks) == Some(docs[|names|])
    decreases |names|
  {
    hide MoveDevice;
    if names != [] {
      var init := names[..|names| - 1];
      assert forall i | 0 <= i < |init| :: init[i] == names[i];
      StepsMove(source, init, from, to, checks, docs[..|names|]);
    }
  }

  /** Two different sites with the same transports, sound documents, and at most 256 different device names. */
  ghost predicate Preparable(source: Document, target: Document, names: seq<string>, from: Site, to: Site, checks: Checks) {
    && checks.siteValid(from) && checks.siteValid(to)
    && from.host != to.host && from.secretsFile != to.secretsFile && from.flags == to.flags
    && checks.sound(from.node, source) && checks.sound(to.node, target)
    && 1 <= |names| <= 256 && (forall i, j | 0 <= i < j < |names| :: names[i] != names[j])
    && forall name | name in names :: Spelled(name)
  }

  /** Preparation is accepted exactly when the selection is, every device is in its turn, and the result is sound. */
  lemma {:induction false} PrepareAccepted(
    source: Document, target: Document, names: seq<string>, from: Site, to: Site, checks: Checks, result: Document)
    ensures Prepared(source, target, names, from, to, checks) == Some(result) <==>
            && Preparable(source, target, names, from, to, checks) && checks.sound(to.node, result)
            && exists docs :: |docs| == |names| + 1 && Stepwise(source, names, from, to, checks, docs) && docs[0] == target && docs[|names|] == result
  {
    hide MoveDevices, Stepwise, ValidName, Spelled;
    forall name | name in names
      ensures ValidName(name) <==> Spelled(name)
    {
      SpelledMeans(name);
    }
    assert forall i | 0 <= i < |names| :: names[i] in names;
    if MoveDevices(source, target, names, from, to, checks).Some? {
      var docs := StepsFound(source, target, names, from, to, checks);
    }
    if docs :| |docs| == |names| + 1 && Stepwise(source, names, from, to, checks, docs) && docs[0] == target && docs[|names|] == result {
      StepsMove(source, names, from, to, checks, docs);
    }
  }
}
