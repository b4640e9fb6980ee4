/**
 The resumable fleet operation: a controller that may be interrupted before any
 effect and is then run again.
 */
module DeviceLifecycle {
  import opened Wrappers
  import opened SubscriptionPublisher
  import opened LifecycleJournal
  import opened LifecycleFleet
  import opened LifecycleSteps
  import opened LifecycleProbes
  import opened LifecycleSizes
  import opened LifecyclePreparation
  import opened LifecycleRoom
  import opened LifecycleResume

  /** How one call ended.  Any failing foreign check raises, which is an interruption. */
  datatype Verdict = Proceed | Interrupted | Refused

  class Lifecycle {
    const manifest: Manifest
    /** True when no other writer touches documents, publishers or runtimes meanwhile. */
    const quiet: bool
    /** The bytes a saved journal takes besides its phase, evidence lists and canary flags. */
    const intent: nat

    var world: World
    /** The durable record in the journal host's document. */
    var record: Option<Journal>
    /** The controller's copy, lost by an interruption. */
    var journal: Journal
    /** Effects left before the next interruption; negative when none is coming. */
    var fuse: int
    ghost var trace: seq<Event>
    /** The fleet that `prepare` admitted, with every route probe left behind since. */
    ghost var base: World
    /** A route probe is there that the fence takes for a grant of the device. */
    ghost var mistaken: bool
    /** The grants that were recorded before the current run. */
    ghost var begun: seq<(Host, Token)>

    constructor (manifest: Manifest, world: World, quiet: bool, intent: nat, idle: Journal)
      ensures this.manifest == manifest && this.world == world && this.quiet == quiet && this.intent == intent
      ensures base == world && !mistaken && record.None? && trace == [] && begun == [] && fuse < 0
    {
      this.manifest, this.world, this.quiet, this.intent := manifest, world, quiet, intent;
      record, journal, fuse, trace, base, mistaken, begun := None, idle, -1, [], world, false, [];
    }

    /** The fleet is known to keep step with the journal. */
    ghost predicate Tracked()
      reads this
    {
      quiet && !mistaken
    }

    ghost predicate Inv()
      reads this
    {
      && record.Some?
      && SafeJournal(manifest, record.value)
      && Ordered(manifest, record.value.plan, trace)
      && Justified(record.value, trace) && Begun(record.value, begun)
      && (Tracked() ==> WellPlanned(manifest, record.value.plan, base) && Tracks(manifest, record.value, world, base))
    }

    /** Nothing in the way of finishing, however often a run is cut short: deny lists, snapshots and saves are in order. */
    ghost predicate CanDeliver()
      reads this
      requires Inv()
    {
      && Tracked() && Deliverable(manifest, record.value.plan, base)
      && Room(manifest, record.value.plan, base, 0) && JournalRoom(manifest, record.value.plan, intent)
    }

    /** Nothing in the way of the next run: room for what is still to be delivered, and for what that run saves. */
    ghost predicate CanFinish()
      reads this
      requires Inv()
    {
      && Tracked() && Deliverable(manifest, record.value.plan, base)
      && Room(manifest, record.value.plan, Rebased(record.value.plan, base, world), 0)
      && RunRoom(manifest, record.value.plan, record.value.published, intent)
    }

    /** Nothing in the way of the current run. */
    ghost predicate Able()
      reads this
      requires Inv()
    {
      && Tracked() && Deliverable(manifest, record.value.plan, base)
      && Room(manifest, record.value.plan, base, 0) && RunRoom(manifest, record.value.plan, begun, intent)
    }

    /** The controller's copy is within the limit that every save checks. */
    ghost predicate Fits()
      reads this
    {
      intent + JournalBytes(journal) <= JOURNAL_LIMIT
    }

    /** Only an interruption leaves a probe behind, and at most one. */
    twostate predicate Left(v: Verdict)
      requires old(record).Some?
      reads this
    {
      && (!v.Interrupted? ==> base == old(base) && mistaken == old(mistaken))
      && (base == old(base) || OneProbe(old(record.value.plan), old(base), base))
      && (mistaken == old(mistaken) || manifest.device == ROUTE_CHECK)
      && (base == old(base) || manifest.device != ROUTE_CHECK)
    }

    /** What every step keeps, however it ends. */
    twostate predicate Kept(v: Verdict)
      requires old(Inv())
      reads this
    {
      && Inv()
      && Advances(old(record.value), record.value)
      && begun == old(begun) && (v.Proceed? ==> journal == record.value)
      && (old(Able()) ==> !v.Refused?)
      && (old(fuse) < 0 ==> fuse < 0 && !v.Interrupted?)
      && Left(v)
    }

    /** A point at which the process may die and other writers may act. */
    method Effect() returns (alive: bool)
      modifies this`fuse, this`world
      ensures quiet ==> world == old(world)
      ensures alive <==> old(fuse) != 0
      ensures old(fuse) < 0 ==> fuse < 0
    {
      if fuse == 0 {
        return false;
      }
      if fuse > 0 {
        fuse := fuse - 1;
      }
      if !quiet {
        world := *;
      }
      return true;
    }

    method Save() returns (v: Verdict)
      requires Inv() && Advances(record.value, journal)
      requires SafeJournal(manifest, journal) && Justified(journal, trace) && Begun(journal, begun)
      requires Tracked() ==> Tracks(manifest, journal, world, base)
      modifies this`fuse, this`world, this`record
      ensures Kept(v)
      ensures quiet ==> world == old(world)
      ensures record == if v.Proceed? then Some(journal) else old(record)
      ensures Tracked() ==> (v.Refused? ==> intent + JournalBytes(journal) > JOURNAL_LIMIT)
      ensures v.Proceed? ==> Fits()
    {
      hide JournalBytes, RunBytes, Begun, Tracks, WellPlanned, Ordered, Justified, Deliverable, Room, Evidence, Distinct, AllPositive, AllCleaned, OneProbe, Affected, Elems, GrantIds;
      var bytes := MeasureJournal(journal);
      if Tracked() {
        SaveAdmitted(manifest, record.value, world, base);
      }
      if old(Able()) {
        JournalBelowRun(manifest, journal, begun);
      }
      if intent + bytes > JOURNAL_LIMIT || !ValidJournal(manifest, journal) {
        return Refused;
      }
      var alive := Effect();
      if !alive {
        return Interrupted;
      }
      var host := manifest.journalHost;
      if world.source != journal.plan.source || host !in world.docs || host !in manifest.nodes
        || (world.docs[host] != journal.plan.before[host] && world.docs[host] != journal.plan.after[host]) {
        return Refused;
      }
      record := Some(journal);
      return Proceed;
    }

    /** Read every node document, each at its own instant. */
    method ReadDocuments() returns (alive: bool, docs: map<Host, Content>)
      modifies this`fuse, this`world
      ensures quiet ==> world == old(world)
      ensures old(fuse) < 0 ==> fuse < 0 && alive
      ensures quiet && alive ==> docs.Keys == manifest.nodes * world.docs.Keys && forall h | h in docs :: docs[h] == world.docs[h]
    {
      alive, docs := true, map[];
      var todo := manifest.nodes;
      while todo != {}
        invariant alive && todo <= manifest.nodes
        invariant quiet ==> world == old(world)
        invariant old(fuse) < 0 ==> fuse < 0
        invariant quiet ==> docs.Keys == (manifest.nodes - todo) * world.docs.Keys && forall h | h in docs :: docs[h] == world.docs[h]
      {
        var host :| host in todo;
        todo := todo - {host};
        alive := Effect();
        if !alive {
          return;
        }
        if host in world.docs {
          docs := docs[host := world.docs[host]];
        }
      }
    }

    /** Take every publisher's snapshot, each at its own instant; one that does not fit is refused. */
    method TakeSnapshots() returns (v: Verdict, pubs: map<Host, Publisher>)
      modifies this`fuse, this`world
      ensures quiet ==> world == old(world)
      ensures old(fuse) < 0 ==> fuse < 0 && !v.Interrupted?
      ensures v.Proceed? ==> pubs.Keys <= manifest.publishers && forall p | p in pubs :: Snapshotable(pubs[p])
      ensures v.Proceed? && quiet ==> pubs.Keys == manifest.publishers * world.pubs.Keys && forall p | p in pubs :: pubs[p] == world.pubs[p]
      ensures v.Refused? && quiet ==> exists p :: p in manifest.publishers && p in world.pubs && !Snapshotable(world.pubs[p])
    {
      hide Snapshotable;
      v, pubs := Proceed, map[];
      var todo := manifest.publishers;
      while todo != {}
        invariant v.Proceed? && todo <= manifest.publishers && pubs.Keys <= manifest.publishers
        invariant quiet ==> world == old(world)
        invariant old(fuse) < 0 ==> fuse < 0
        invariant forall p | p in pubs :: Snapshotable(pubs[p])
        invariant quiet ==> pubs.Keys == (manifest.publishers - todo) * world.pubs.Keys && forall p | p in pubs :: pubs[p] == world.pubs[p]
      {
        var host :| host in todo;
        todo := todo - {host};
        var alive := Effect();
        if !alive {
          return Interrupted, pubs;
        }
        if host in world.pubs {
          var fits := MeasureSnapshot(world.pubs[host]);
          if !fits {
            return Refused, pubs;
          }
          pubs := pubs[host := world.pubs[host]];
        }
      }
    }

    method Fence() returns (v: Verdict, seen: World)
      requires Inv() && journal == record.value
      modifies this`fuse, this`world
      ensures Kept(v)
      ensures quiet ==> world == old(world)
      ensures v.Proceed? && Tracked() ==> seen == world
      ensures v.Proceed? ==> FenceAccepts(manifest, journal, seen)
    {
      hide Snapshotable, SnapshotChecked, Deliverable, Room, RunRoom, Evidence, Justified, Ordered, WellPlanned;
      seen := world;
      var alive := Effect();
      if !alive {
        return Interrupted, seen;
      }
      var source, running, output := world.source, world.running, world.output;
      var docs;
      alive, docs := ReadDocuments();
      if !alive {
        return Interrupted, seen;
      }
      var taken, pubs := TakeSnapshots();
      seen := World(source, docs, pubs, running, output);
      if old(Able()) {
        FenceNeverRefuses(manifest, journal, world, base);
      }
      if Tracked() {
        SeenAll(manifest, journal, world, base);
        assert taken.Proceed? ==> docs == world.docs && pubs == world.pubs;
      }
      v := if taken.Proceed? && !FenceChecks(manifest, journal, seen) then Refused else taken;
    }

    /** No publisher but `host`'s changed. */
    twostate predicate OnlyPublisher(host: Host)
      reads this
    {
      && old(world).pubs.Keys == world.pubs.Keys
      && (forall p | p in world.pubs && p != host :: world.pubs[p] == old(world).pubs[p])
      && world.output == old(world).output
    }

    /** A probe document that no publisher takes for expired. */
    ghost predicate Fresh(probe: Envelope)
      reads this
    {
      IsRouteProbe(probe) && (Tracked() ==> forall p | p in base.pubs :: !base.pubs[p].Expired(probe))
    }

    /** The probe is there, and nothing else changed. */
    twostate predicate Placed(host: Host, token: Token, probe: Envelope)
      reads this
    {
      && host in old(world).pubs && token !in old(world).pubs[host].rows
      && DenyListFits(old(world).pubs[host].revoked) && !old(world).pubs[host].Expired(probe)
      && world == WithRow(old(world), host, token, probe)
    }

    /** Publish a probe under a token nobody uses. */
    method CreateProbe(host: Host, probe: Envelope) returns (v: Verdict, token: Token)
      requires Inv() && journal == record.value && Fresh(probe)
      requires host in manifest.publishers
      modifies this`world, this`fuse, this`base, this`mistaken
      ensures Inv() && (old(fuse) < 0 ==> fuse < 0)
      ensures !v.Proceed? ==> Kept(v) && (quiet ==> world == old(world))
      ensures v.Proceed? ==> Left(Interrupted) && (quiet ==> Placed(host, token, probe))
    {
      hide Distinct, ValidJournal, Evidence, Justified, Ordered, Tracks, WellPlanned, Deliverable, FenceAccepts, AllPositive, Room, RunRoom, JournalBytes, OneProbe;
      hide CompareAndSwap, Affected, Elems, GrantIds, AllCleaned, FullBytes, Known, IsCanary;
      token := "";
      var alive := Effect();
      if !alive {
        return Interrupted, token;
      }
      if Tracked() {
        SeenAll(manifest, journal, world, base);
      }
      if host !in world.pubs {
        return Refused, token;
      }
      SomeUnused(journal.plan, host, world.pubs[host]);
      token :| Unused(journal.plan, host, world.pubs[host], token);
      ProbeStored(world.pubs[host], token, probe);
      if old(Able()) {
        ProbeAccepted(manifest, journal, world, base, host, token, probe);
      }
      var response := CompareAndSwap(world.pubs[host], token, None, Some(probe));
      if response.None? {
        return Refused, token;
      }
      if Tracked() {
        if manifest.device == ROUTE_CHECK {
          mistaken := true;
        } else {
          ProbePlaced(manifest, journal, world, base, host, token, probe);
          base := WithRow(base, host, token, probe);
        }
      }
      world := WithPublisher(world, host, response.value);
      v := Proceed;
    }

    /**
     Prove that the public route serves this namespace: publish a probe, read it back, and delete
     it whatever the answer was.  Dying in between leaves the probe.
     */
    method VerifyRoutes(host: Host, probe: Envelope) returns (v: Verdict)
      requires Inv() && journal == record.value && Fresh(probe)
      requires host in manifest.publishers
      modifies this`world, this`fuse, this`base, this`mistaken
      ensures Kept(v)
      ensures quiet && !v.Interrupted? ==> world == old(world)
      ensures quiet ==> OnlyPublisher(host)
    {
      hide Distinct, ValidJournal, Evidence, Justified, Ordered, Tracks, WellPlanned, Deliverable, FenceAccepts, AllPositive, Room, RunRoom, JournalBytes, OneProbe;
      hide CompareAndSwap, IsRouteProbe, DenyListFits, SafeJournal;
      var token;
      v, token := CreateProbe(host, probe);
      if !v.Proceed? {
        return;
      }
      var alive := Effect();
      if !alive {
        return Interrupted;
      }
      var served := host in world.pubs && world.pubs[host].Row(token) == Some(probe);
      var response := if host in world.pubs then CompareAndSwap(world.pubs[host], token, Some(probe), None) else None;
      if quiet {
        ProbeDeleted(old(world).pubs[host], token, probe);
        assert response == Some(old(world).pubs[host]);
        assert old(world).pubs[host := old(world).pubs[host]] == old(world).pubs;
      }
      base, mistaken := old(base), old(mistaken);
      if response.None? {
        return Refused;
      }
      world := WithPublisher(world, host, response.value);
      assert quiet ==> world == old(world);
      v := if served then Proceed else Refused;
    }

    /** Publish the owned canary and read it back over the public route. */
    method RequestCanary(host: Host) returns (v: Verdict)
      requires Inv() && journal == record.value
      requires host in journal.canaries && host in journal.plan.canaries && !journal.canaries[host].positive
      modifies this`world, this`fuse
      ensures Kept(v)
      ensures v.Proceed? && Tracked() ==> InStep(manifest, Positive(journal, host), world, base)
    {
      hide Distinct, ValidJournal, Evidence, Justified, Ordered, Tracks, WellPlanned, Deliverable, FenceAccepts, AllPositive, Room, RunRoom, JournalBytes, OneProbe;
      hide CompareAndSwap, Affected, Elems, GrantIds, AllCleaned, FullBytes;
      var canary := journal.plan.canaries[host];
      var alive := Effect();
      if !alive {
        return Interrupted;
      }
      if Tracked() {
        ServeStep(manifest, journal, world, base, host);
      }
      var response := ServeResponse(journal, world, host);
      if response.None? {
        return Refused;
      }
      world := WithPublisher(world, host, response.value);
      alive := Effect();
      if !alive {
        return Interrupted;
      }
      if host !in world.pubs || world.pubs[host].Row(canary.token) != Some(canary.document)
        || canary.token in world.pubs[host].revoked {
        return Refused;
      }
      v := Proceed;
    }

    /** Serve one canary, then record that. */
    method ServeCanary(host: Host) returns (v: Verdict)
      requires Inv() && journal == record.value
      requires host in journal.canaries && host in journal.plan.canaries && !journal.canaries[host].positive
      modifies this
      ensures Kept(v)
      ensures v.Proceed? ==> journal == Positive(old(journal), host)
    {
      hide Distinct, ValidJournal, Evidence, Justified, Ordered, Tracks, WellPlanned, Deliverable, FenceAccepts, AllPositive, Room, RunRoom, JournalBytes, OneProbe;
      v := RequestCanary(host);
      if !v.Proceed? {
        return;
      }
      ServedRecorded(manifest, journal, trace, host);
      trace := trace + [ServedCanary(host)];
      journal := Positive(journal, host);
      v := Save();
    }

    /** Compare-and-set one node's authority, keeping its operation records, then record that. */
    method WriteNode(host: Host) returns (v: Verdict)
      requires Inv() && journal == record.value
      requires host in manifest.nodes && host !in journal.written && AllPositive(journal)
      requires host in journal.plan.before && host in journal.plan.after
      modifies this
      ensures Kept(v)
      ensures v.Proceed? ==> journal == old(journal).(written := old(journal).written + [host])
      ensures quiet ==> world.pubs == old(world).pubs
    {
      hide Distinct, ValidJournal, Evidence, Justified, Ordered, Tracks, WellPlanned, Deliverable, FenceAccepts, AllPositive, Room, RunRoom, JournalBytes, OneProbe;
      var alive := Effect();
      if !alive {
        return Interrupted;
      }
      if Tracked() {
        WriteTracks(manifest, journal, world, base, host);
      }
      if host !in world.docs
        || (world.docs[host] != journal.plan.before[host] && world.docs[host] != journal.plan.after[host]) {
        return Refused;
      }
      world := world.(docs := world.docs[host := journal.plan.after[host]]);
      WroteRecorded(manifest, journal, trace, host);
      trace := trace + [WroteNode(host)];
      journal := journal.(written := journal.written + [host]);
      v := Save();
    }

    /** Deny lists may have changed, rows have not. */
    twostate predicate RowsKept()
      reads this
    {
      world.pubs.Keys == old(world).pubs.Keys && forall p | p in world.pubs :: world.pubs[p].rows == old(world).pubs[p].rows
    }

    /** The first half of adopting a runtime: its publisher's deny list. */
    method InstallDenyList(host: Host) returns (v: Verdict)
      requires Inv() && journal == record.value
      requires host in Affected(manifest, journal.plan) && Elems(journal.written) == manifest.nodes
      requires host in journal.plan.after
      modifies this`world, this`fuse
      ensures Kept(v)
      ensures quiet && v.Proceed? ==> world == WithDenyList(old(world), host, journal.plan.after[host])
      ensures quiet && !v.Proceed? ==> world == old(world)
    {
      hide Distinct, ValidJournal, Evidence, Justified, Ordered, Tracks, WellPlanned, Deliverable, FenceAccepts, AllPositive, Room, RunRoom, JournalBytes, OneProbe, Begun, Affected, Elems, GrantIds, AllCleaned, SafeJournal, WithDenyList;
      var alive := Effect();
      if !alive {
        return Interrupted;
      }
      if Tracked() {
        DenyListTracks(manifest, journal, world, base, host);
      }
      world := WithDenyList(world, host, journal.plan.after[host]);
      v := Proceed;
    }

    /** Bring one runtime to its new document: first its publisher's deny list, then the rest. */
    method ApplyRuntime(host: Host) returns (v: Verdict)
      requires Inv() && journal == record.value
      requires host in Affected(manifest, journal.plan) && Elems(journal.written) == manifest.nodes
      requires host in journal.plan.before && host in journal.plan.after
      modifies this`world, this`fuse, this`trace
      ensures Kept(v)
      ensures v.Proceed? ==> AdoptedRuntime(host) in trace
      ensures v.Proceed? && Tracked() ==> Applied(host)
      ensures quiet ==> RowsKept()
    {
      hide Distinct, ValidJournal, Evidence, Justified, Ordered, Tracks, WellPlanned, Deliverable, FenceAccepts, AllPositive, Room, RunRoom, JournalBytes, OneProbe, Begun, Affected, Elems, GrantIds, AllCleaned, SafeJournal;
      v := InstallDenyList(host);
      if !v.Proceed? {
        return;
      }
      var alive := Effect();
      if !alive {
        return Interrupted;
      }
      if Tracked() {
        RunningTracks(manifest, journal, world, base, host);
      }
      world := world.(running := world.running[host := journal.plan.after[host]]);
      AdoptedEvent(manifest, journal, trace, host);
      trace := trace + [AdoptedRuntime(host)];
      v := Proceed;
    }

    ghost predicate Applied(host: Host)
      reads this
    {
      && host in journal.plan.after && host in world.running && world.running[host] == journal.plan.after[host]
      && (host in world.pubs ==> world.pubs[host].revoked == Elems(journal.plan.after[host].revoked))
    }

    /** Preflight and adopt one runtime; each step is fenced. */
    method FencedApply(host: Host) returns (v: Verdict)
      requires Inv() && journal == record.value
      requires host in Affected(manifest, journal.plan) && Elems(journal.written) == manifest.nodes
      requires host in journal.plan.before && host in journal.plan.after
      modifies this`world, this`fuse, this`trace
      ensures Kept(v)
      ensures v.Proceed? ==> AdoptedRuntime(host) in trace
      ensures v.Proceed? && Tracked() ==> Applied(host) && world.pubs.Keys == manifest.publishers
      ensures quiet ==> RowsKept()
    {
      hide Distinct, ValidJournal, Evidence, Justified, Ordered, Tracks, WellPlanned, Deliverable, FenceAccepts, AllPositive, Room, RunRoom, JournalBytes, OneProbe, FullBytes, Snapshotable, SnapshotChecked;
      var seen;
      v, seen := Fence();
      if !v.Proceed? {
        return;
      }
      v := ApplyRuntime(host);
      if !v.Proceed? {
        return;
      }
      ghost var applied := world;
      v, seen := Fence();
      assert Tracked() ==> world == applied;
      if v.Proceed? && Tracked() {
        SeenAll(manifest, journal, world, base);
      }
    }

    /** Adopt one runtime, probe the device there if it has a profile, and record the adoption. */
    method AdoptRuntime(host: Host) returns (v: Verdict)
      requires Inv() && journal == record.value
      requires host in Affected(manifest, journal.plan) && host !in journal.adopted
      requires Elems(journal.written) == manifest.nodes && journal.phase.AuthorityWritten?
      requires host in journal.plan.before && host in journal.plan.after
      modifies this
      ensures Kept(v)
      ensures v.Proceed? ==> journal == old(journal).(adopted := old(journal).adopted + [host]) && Fits()
      ensures quiet ==> RowsKept()
    {
      hide Distinct, ValidJournal, Evidence, Justified, Ordered, Tracks, WellPlanned, Deliverable, FenceAccepts, AllPositive, Room, RunRoom, JournalBytes, OneProbe, GrantIds, AllCleaned, FullBytes;
      v := FencedApply(host);
      if !v.Proceed? {
        return;
      }
      if host in journal.plan.profiles {
        var alive := Effect();
        if !alive {
          return Interrupted;
        }
        ProbedEvent(manifest, journal, trace, host);
        trace := trace + [ProbedDevice(host)];
      }
      if Tracked() {
        AdoptedTracks(manifest, journal, world, base, host);
      }
      AdoptionRecorded(manifest, journal, trace, host);
      journal := journal.(adopted := journal.adopted + [host]);
      v := Save();
    }

    /** The publisher now serves this grant, and no other row or publisher changed. */
    twostate predicate OnlyGrant(host: Host, token: Token)
      reads this
    {
      && OnlyPublisher(host) && host in world.pubs && Known(journal.plan, host, token)
      && world.pubs[host].rows == old(world).pubs[host].rows[token := journal.plan.grants[host][token].after]
    }

    /** Replace one grant's document, by compare-and-swap against its recorded predecessor. */
    method ReplaceGrant(host: Host, token: Token) returns (v: Verdict)
      requires Inv() && journal == record.value
      requires Known(journal.plan, host, token) && InTurn(journal, host, token) && !manifest.action.Revoke?
      requires Elems(journal.adopted) == Affected(manifest, journal.plan)
      modifies this`world, this`fuse
      ensures Kept(v)
      ensures v.Proceed? ==> host in world.pubs && world.pubs[host].Row(token) == Some(journal.plan.grants[host][token].after)
      ensures quiet && v.Proceed? ==> OnlyGrant(host, token)
    {
      hide Distinct, ValidJournal, Evidence, Justified, Ordered, Tracks, WellPlanned, Deliverable, FenceAccepts, AllPositive, Room, RunRoom, JournalBytes, OneProbe, InTurn, Begun, Affected, Elems, GrantIds, AllCleaned, SafeJournal, CompareAndSwap;
      var alive := Effect();
      if !alive {
        return Interrupted;
      }
      if Tracked() {
        GrantStep(manifest, journal, world, base, host, token);
      }
      var response := GrantResponse(journal, world, host, token);
      if response.None? {
        return Refused;
      }
      Stored(world.pubs[host], token, journal.plan.grants[host][token].before, journal.plan.grants[host][token].after);
      world := WithPublisher(world, host, response.value);
      v := Proceed;
    }

    /** Record a grant that the publisher was seen to serve. */
    method RecordGrant(host: Host, token: Token) returns (v: Verdict)
      requires Inv() && journal == record.value && journal.phase.RuntimeAdopted?
      requires Known(journal.plan, host, token) && (host, token) !in journal.published
      requires Elems(journal.adopted) == Affected(manifest, journal.plan)
      requires ConfirmedGrant(host, token) in trace
      requires Tracked() ==> host in world.pubs && world.pubs[host].Row(token) == Some(journal.plan.grants[host][token].after)
      modifies this
      ensures Kept(v)
      ensures v.Proceed? ==> journal == old(journal).(published := old(journal).published + [(host, token)]) && Fits()
      ensures quiet ==> world == old(world)
    {
      hide Distinct, ValidJournal, Evidence, Justified, Ordered, Tracks, WellPlanned, Deliverable, FenceAccepts, AllPositive, Room, RunRoom, JournalBytes, OneProbe;
      if Tracked() {
        PublishedStep(manifest, journal, world, base, host, token);
      }
      ConfirmationRecorded(manifest, journal, trace, host, token);
      journal := journal.(published := journal.published + [(host, token)]);
      v := Save();
    }

    /** Make one grant serve its new document, or see that it is served and revoked. */
    method DeliverGrant(host: Host, token: Token, seen: World) returns (v: Verdict)
      requires Inv() && journal == record.value && (Tracked() ==> seen == world)
      requires Known(journal.plan, host, token) && InTurn(journal, host, token)
      requires Elems(journal.adopted) == Affected(manifest, journal.plan)
      modifies this`world, this`fuse
      ensures Kept(v)
      ensures v.Proceed? && Tracked() ==> OnlyGrant(host, token)
    {
      hide Distinct, ValidJournal, Evidence, Justified, Ordered, Tracks, WellPlanned, Deliverable, FenceAccepts, AllPositive, Room, RunRoom, JournalBytes, OneProbe, InTurn, Begun, Affected, Elems, GrantIds;
      if Tracked() {
        GrantStep(manifest, journal, world, base, host, token);
        AlreadyStored(world, host, token, journal.plan.grants[host][token].after);
      }
      v := Proceed;
      if host !in seen.pubs {
        return Refused;
      }
      var row := seen.pubs[host].Row(token);
      if manifest.action.Revoke? {
        if row.None? || token !in seen.pubs[host].revoked {
          return Refused;
        }
      } else if row != Some(journal.plan.grants[host][token].after) {
        v := ReplaceGrant(host, token);
      }
    }

    /** Deliver one grant, or observe its revocation, then record that. */
    method PublishGrant(host: Host, token: Token) returns (v: Verdict)
      requires Inv() && journal == record.value && journal.phase.RuntimeAdopted?
      requires Known(journal.plan, host, token) && InTurn(journal, host, token)
      requires Elems(journal.adopted) == Affected(manifest, journal.plan)
      modifies this
      ensures Kept(v)
      ensures v.Proceed? ==>
                journal == if (host, token) in old(journal).published then old(journal)
                           else old(journal).(published := old(journal).published + [(host, token)])
      ensures v.Proceed? && old(Fits()) ==> Fits()
      // Before it, every namespace was seen to fit.
      ensures v.Proceed? && Tracked() ==> SeenFits(manifest, old(world)) && OnlyGrant(host, token)
    {
      hide Distinct, ValidJournal, Evidence, Justified, Ordered, Tracks, WellPlanned, Deliverable, FenceAccepts, AllPositive, Room, RunRoom, JournalBytes, OneProbe, InTurn, SeenFits, Begun, Affected, Elems, GrantIds;
      var seen;
      v, seen := Fence();
      if !v.Proceed? {
        return;
      }
      if Tracked() {
        FenceSawFit(manifest, journal, world);
      }
      v := DeliverGrant(host, token, seen);
      if !v.Proceed? {
        return;
      }
      ConfirmedEvent(manifest, journal, trace, host, token);
      trace := trace + [ConfirmedGrant(host, token)];
      if (host, token) !in journal.published {
        v := RecordGrant(host, token);
      }
    }

    /** Save the intent to delete a canary whose denial was observed. */
    method StartCleanup(host: Host) returns (v: Verdict)
      requires Inv() && journal == record.value
      requires host in journal.canaries && journal.canaries[host].positive
      requires Elems(journal.written) == manifest.nodes && Elems(journal.adopted) == Affected(manifest, journal.plan)
      requires Elems(journal.published) == GrantIds(journal.plan)
      requires DeniedCanary(host) in trace
      modifies this
      ensures Kept(v)
      ensures v.Proceed? ==> journal == CleanupStarted(old(journal), host)
      ensures v.Proceed? ==> DeniedCanary(host) in trace && RecordedCleanup(host) in trace
      ensures quiet ==> world == old(world)
    {
      hide Distinct, ValidJournal, Evidence, Justified, Ordered, Tracks, WellPlanned, Deliverable, FenceAccepts, AllPositive, Room, RunRoom, JournalBytes, OneProbe;
      CleanupRecorded(manifest, journal, trace, host);
      if Tracked() {
        CleanupStep(manifest, journal, world, base, host);
      }
      journal := CleanupStarted(journal, host);
      v := Save();
      if v.Proceed? {
        CleanupEvent(manifest, journal, trace, host);
        trace := trace + [RecordedCleanup(host)];
      }
    }

    /** The row of a canary as the last fence saw it: still owned and denied, or already deleted by this journal. */
    predicate CanaryAuthority(host: Host, row: Option<Envelope>, revoked: bool, expired: bool)
      reads this
      requires host in journal.canaries && host in journal.plan.canaries
    {
      && (row.None? ==> journal.canaries[host].cleanupStarted)
      && (row.Some? ==> row.value == journal.plan.canaries[host].document && revoked && !expired)
    }

    /** Observe over the public route that one canary is denied. */
    method ObserveDenial(host: Host, row: Option<Envelope>, revoked: bool, expired: bool, probe: Envelope) returns (v: Verdict)
      requires Inv() && journal == record.value && Fresh(probe) && host in manifest.publishers
      requires host in journal.canaries && host in journal.plan.canaries && journal.canaries[host].positive
      requires manifest.action.Revoke? && Elems(journal.written) == manifest.nodes
      requires Elems(journal.adopted) == Affected(manifest, journal.plan)
      requires Elems(journal.published) == GrantIds(journal.plan)
      requires Tracked() && host in world.pubs ==>
                 var t := journal.plan.canaries[host].token;
                 row == world.pubs[host].Row(t) && revoked == (t in world.pubs[host].revoked)
                 && expired == ExpiredAny(world.pubs[host], row)
      modifies this`world, this`fuse, this`base, this`mistaken, this`trace
      ensures Kept(v)
      ensures v.Proceed? ==> CanaryAuthority(host, row, revoked, expired)
      ensures trace == if v.Proceed? then old(trace) + [DeniedCanary(host)] else old(trace)
      ensures quiet && !v.Interrupted? ==> world == old(world)
      ensures quiet ==> OnlyPublisher(host)
    {
      hide Distinct, ValidJournal, Evidence, Justified, Ordered, Tracks, WellPlanned, Deliverable, FenceAccepts, AllPositive, Room, RunRoom, JournalBytes, OneProbe;
      if Tracked() {
        DeniedStep(manifest, journal, world, base, host);
      }
      if !CanaryAuthority(host, row, revoked, expired) {
        return Refused;
      }
      v := VerifyRoutes(host, probe);
      if !v.Proceed? {
        return;
      }
      var alive := Effect();
      if !alive {
        return Interrupted;
      }
      if host !in world.pubs || journal.plan.canaries[host].token !in world.pubs[host].revoked {
        return Refused;
      }
      DeniedEvent(manifest, journal, trace, host);
      trace := trace + [DeniedCanary(host)];
    }

    /** Observe one canary's denial, record the intent to delete it, delete it, record that. */
    method CleanCanary(host: Host, row: Option<Envelope>, revoked: bool, expired: bool, probe: Envelope) returns (v: Verdict)
      requires Inv() && journal == record.value && Fresh(probe) && host in manifest.publishers
      requires host in journal.canaries && host in journal.plan.canaries && journal.canaries[host].positive
      requires manifest.action.Revoke? && Elems(journal.written) == manifest.nodes
      requires Elems(journal.adopted) == Affected(manifest, journal.plan)
      requires Elems(journal.published) == GrantIds(journal.plan)
      requires Tracked() && host in world.pubs ==>
                 var t := journal.plan.canaries[host].token;
                 row == world.pubs[host].Row(t) && revoked == (t in world.pubs[host].revoked)
                 && expired == ExpiredAny(world.pubs[host], row)
      modifies this
      ensures Kept(v)
      ensures v.Proceed? ==>
                journal == if old(journal).canaries[host].cleaned then old(journal)
                           else Cleaned(CleanupStarted(old(journal), host), host)
      ensures quiet ==> OnlyPublisher(host)
    {
      hide Distinct, ValidJournal, Evidence, Justified, Ordered, Tracks, WellPlanned, Deliverable, FenceAccepts, AllPositive, Room, RunRoom, JournalBytes, OneProbe;
      v := ObserveDenial(host, row, revoked, expired, probe);
      if !v.Proceed? || journal.canaries[host].cleaned {
        return;
      }
      v := StartCleanup(host);
      if !v.Proceed? {
        return;
      }
      ghost var saved := journal;
      v := DeleteCanary(host);
      AdvancesTransitive(old(record.value), saved, record.value);
    }

    /** Delete the owned canary document by its exact bytes. */
    method RequestDeletion(host: Host) returns (v: Verdict)
      requires Inv() && journal == record.value
      requires host in journal.canaries && journal.canaries[host].cleanupStarted
      modifies this`world, this`fuse
      ensures Kept(v)
      ensures v.Proceed? && Tracked() ==> InStep(manifest, Cleaned(journal, host), world, base)
      ensures quiet ==> OnlyPublisher(host)
    {
      hide Distinct, ValidJournal, Evidence, Justified, Ordered, Tracks, WellPlanned, Deliverable, FenceAccepts, AllPositive, Room, RunRoom, JournalBytes, OneProbe;
      hide CompareAndSwap, DeleteResponse, Affected, Elems, GrantIds, AllCleaned, FullBytes;
      var alive := Effect();
      if !alive {
        return Interrupted;
      }
      if Tracked() {
        DeleteStep(manifest, journal, world, base, host);
      }
      var response := DeleteResponse(journal, world, host);
      if response.None? {
        return Refused;
      }
      world := WithPublisher(world, host, response.value);
      v := Proceed;
    }

    /** Delete one canary, then record that. */
    method DeleteCanary(host: Host) returns (v: Verdict)
      requires Inv() && journal == record.value
      requires host in journal.canaries && host in journal.plan.canaries && journal.canaries[host].cleanupStarted
      requires DeniedCanary(host) in trace && RecordedCleanup(host) in trace
      modifies this
      ensures Kept(v)
      ensures v.Proceed? ==> journal == Cleaned(old(journal), host)
      ensures quiet ==> OnlyPublisher(host)
    {
      hide Distinct, ValidJournal, Evidence, Justified, Ordered, Tracks, WellPlanned, Deliverable, FenceAccepts, AllPositive, Room, RunRoom, JournalBytes, OneProbe;
      v := RequestDeletion(host);
      if !v.Proceed? {
        return;
      }
      DeletedRecorded(manifest, journal, trace, host);
      trace := trace + [DeletedCanary(host)];
      journal := Cleaned(journal, host);
      v := Save();
    }

    method EnterPhase(phase: Phase) returns (v: Verdict)
      requires Inv() && journal == record.value
      requires !phase.Prepared? && Elems(journal.written) == manifest.nodes
      requires phase.RuntimeAdopted? || phase.Complete? ==> Elems(journal.adopted) == Affected(manifest, journal.plan)
      requires phase.Complete? ==> Elems(journal.published) == GrantIds(journal.plan) && AllCleaned(journal)
      requires phase.AuthorityWritten? ==> journal.published == begun
      modifies this
      ensures Kept(v)
      ensures quiet ==> world == old(world)
      ensures v.Proceed? ==> journal == old(journal).(phase := phase) && Fits()
    {
      hide ValidJournal, Evidence, Justified, Ordered, Tracks, WellPlanned, Deliverable, Advances, Affected, Elems, GrantIds, AllCleaned, RunRoom, JournalBytes;
      PhaseStep(manifest, journal, phase, trace);
      if Tracked() {
        PhaseTracks(manifest, journal, phase, world, base);
      }
      journal := journal.(phase := phase);
      v := Save();
    }

    method ServeCanaries() returns (v: Verdict)
      requires Inv() && journal == record.value
      modifies this
      ensures Kept(v)
      ensures v.Proceed? ==> AllPositive(journal) && journal.published == old(journal).published
      ensures v.Proceed? && NoCleanup(old(journal)) ==> NoCleanup(journal)
      ensures quiet && old(journal).canaries == map[] ==> world == old(world)
    {
      hide Evidence, Justified, Ordered, Tracks, WellPlanned, Deliverable, Distinct, Room, RunRoom, JournalBytes, OneProbe;
      v := Proceed;
      var todo := journal.canaries.Keys;
      while todo != {}
        invariant v.Proceed? && Kept(v)
        invariant todo <= journal.canaries.Keys
        invariant NoCleanup(old(journal)) ==> NoCleanup(journal)
        invariant journal.published == old(journal).published && (old(journal).canaries == map[] ==> todo == {})
        invariant quiet && old(journal).canaries == map[] ==> world == old(world)
        invariant forall h | h in journal.canaries && h !in todo :: journal.canaries[h].positive
      {
        var host :| host in todo;
        if !journal.canaries[host].positive {
          ghost var saved := journal;
          v := ServeCanary(host);
          AdvancesTransitive(old(record.value), saved, record.value);
          if !v.Proceed? {
            return;
          }
        }
        todo := todo - {host};
      }
    }

    method WriteNodes() returns (v: Verdict)
      requires Inv() && journal == record.value && AllPositive(journal)
      modifies this
      ensures Kept(v)
      ensures v.Proceed? ==> Elems(journal.written) == manifest.nodes && AllPositive(journal)
      ensures v.Proceed? ==> journal == old(journal).(written := journal.written)
      ensures v.Proceed? && NoCleanup(old(journal)) ==> NoCleanup(journal)
      ensures quiet ==> world.pubs == old(world).pubs
      ensures v.Proceed? && Tracked() ==> manifest.nodes == {} || FenceAccepts(manifest, journal, world)
    {
      hide Evidence, Justified, Ordered, Tracks, WellPlanned, Deliverable, Distinct, FenceAccepts, Room, RunRoom, JournalBytes, OneProbe;
      v := Proceed;
      var todo := manifest.nodes;
      while todo != {}
        invariant v.Proceed? && Kept(v)
        invariant todo <= manifest.nodes && AllPositive(journal)
        invariant journal == old(journal).(written := journal.written)
        invariant quiet ==> world.pubs == old(world).pubs
        invariant Tracked() ==> todo == manifest.nodes || FenceAccepts(manifest, journal, world)
        invariant forall h | h in manifest.nodes && h !in todo :: h in journal.written
      {
        var host :| host in todo;
        ghost var saved := journal;
        if host !in journal.written {
          v := WriteNode(host);
          AdvancesTransitive(old(record.value), saved, record.value);
          if !v.Proceed? {
            return;
          }
        }
        var seen;
        v, seen := Fence();
        if !v.Proceed? {
          return;
        }
        todo := todo - {host};
      }
    }

    method AdoptRuntimes() returns (v: Verdict)
      requires Inv() && journal == record.value
      requires Elems(journal.written) == manifest.nodes && journal.phase.AuthorityWritten?
      modifies this
      ensures Kept(v)
      ensures v.Proceed? ==> journal == old(journal).(adopted := journal.adopted)
      ensures v.Proceed? ==> Elems(journal.adopted) == Affected(manifest, journal.plan)
      ensures v.Proceed? && old(Fits()) ==> Fits()
      ensures quiet ==> RowsKept()
    {
      hide Justified, Ordered, Tracks, WellPlanned, Deliverable, Distinct, Room, RunRoom, JournalBytes, OneProbe;
      v := Proceed;
      var todo := Affected(manifest, journal.plan);
      while todo != {}
        invariant v.Proceed? && Kept(v)
        invariant todo <= Affected(manifest, journal.plan)
        invariant journal == old(journal).(adopted := journal.adopted)
        invariant old(Fits()) ==> Fits()
        invariant quiet ==> RowsKept()
        invariant forall h | h in Affected(manifest, journal.plan) && h !in todo :: h in journal.adopted
      {
        var host :| host in todo;
        if host !in journal.adopted {
          ghost var saved := journal;
          v := AdoptRuntime(host);
          AdvancesTransitive(old(record.value), saved, record.value);
          if !v.Proceed? {
            return;
          }
        }
        todo := todo - {host};
      }
    }

    /** Nothing is served at this publisher but what the operation started from. */
    ghost predicate UnmovedAt(host: Host)
      reads this
    {
      host in world.pubs && host in base.pubs && world.pubs[host].rows == base.pubs[host].rows
    }

    ghost predicate Unmoved()
      reads this
    {
      !manifest.action.Revoke? && forall p | p in world.pubs :: UnmovedAt(p)
    }

    /** Before a publisher is changed, prove that the public route serves it. */
    method CheckRoute(host: Host, probe: Envelope) returns (v: Verdict)
      requires Inv() && journal == record.value && Fresh(probe) && host in journal.plan.grants
      modifies this`world, this`fuse, this`base, this`mistaken
      ensures Kept(v)
      ensures quiet && !v.Interrupted? ==> world == old(world)
    {
      hide Distinct, ValidJournal, Evidence, Justified, Ordered, Tracks, WellPlanned, Deliverable, FenceAccepts, AllPositive, Room, RunRoom, JournalBytes, OneProbe;
      v := Proceed;
      GrantsOf(manifest, journal, host);
      if !manifest.action.Revoke? && journal.plan.grants[host] != map[] {
        v := VerifyRoutes(host, probe);
      }
    }

    /** The next grant in the order of a publisher. */
    method PublishAt(host: Host, i: nat) returns (v: Verdict)
      requires Inv() && journal == record.value && journal.phase.RuntimeAdopted?
      requires Elems(journal.adopted) == Affected(manifest, journal.plan)
      requires host in journal.plan.grants && i < |OrderOf(journal.plan, host)|
      requires forall k | 0 <= k < i :: (host, OrderOf(journal.plan, host)[k]) in journal.published
      modifies this
      ensures Kept(v)
      ensures v.Proceed? ==>
                var grant := (host, OrderOf(old(journal).plan, host)[i]);
                journal == if grant in old(journal).published then old(journal)
                           else old(journal).(published := old(journal).published + [grant])
      ensures v.Proceed? && old(Fits()) ==> Fits()
      ensures v.Proceed? && Tracked() ==> OnlyPublisher(host)
      ensures v.Proceed? && Tracked() && !manifest.action.Revoke? && old(AtPrefix(journal.plan, host, world, base, i)) ==>
                AtPrefix(journal.plan, host, world, base, i + 1)
    {
      hide Distinct, ValidJournal, Evidence, Justified, Ordered, Tracks, WellPlanned, Deliverable, FenceAccepts, AllPositive, Room, RunRoom, JournalBytes, OneProbe,
           AtPrefix, SeenFits, Begun, Affected, Elems, GrantIds, GrantsListed, SafeJournal, InTurn, TurnAt;
      GrantsOf(manifest, journal, host);
      TurnOf(journal, host, i);
      v := PublishGrant(host, OrderOf(journal.plan, host)[i]);
      if v.Proceed? && Tracked() && !manifest.action.Revoke? && old(AtPrefix(journal.plan, host, world, base, i)) {
        AtNext(manifest, journal.plan, host, old(world), world, base, i);
      }
    }

    /** The grants of one publisher, in their order. */
    method PublishOrder(host: Host) returns (v: Verdict)
      requires Inv() && journal == record.value && journal.phase.RuntimeAdopted?
      requires Elems(journal.adopted) == Affected(manifest, journal.plan)
      requires host in journal.plan.grants
      modifies this
      ensures Kept(v)
      ensures v.Proceed? ==> journal == old(journal).(published := journal.published)
      ensures v.Proceed? ==> forall g | g in old(journal).published :: g in journal.published
      ensures v.Proceed? ==> forall i | 0 <= i < |OrderOf(journal.plan, host)| :: (host, OrderOf(journal.plan, host)[i]) in journal.published
      ensures v.Proceed? && old(Fits()) ==> Fits()
      ensures v.Proceed? && Tracked() ==> OnlyPublisher(host)
      ensures v.Proceed? && Tracked() && !manifest.action.Revoke? && old(AtPrefix(journal.plan, host, world, base, 0)) ==>
                AtPrefix(journal.plan, host, world, base, |OrderOf(journal.plan, host)|)
    {
      hide Distinct, ValidJournal, Evidence, Justified, Ordered, Tracks, WellPlanned, Deliverable, FenceAccepts, AllPositive, Room, RunRoom, JournalBytes, OneProbe,
           AtPrefix, Begun, Affected, Elems, GrantIds, GrantsListed, SafeJournal;
      v := Proceed;
      var order := OrderOf(journal.plan, host);
      for i := 0 to |order|
        invariant v.Proceed? && Kept(v)
        invariant journal == old(journal).(published := journal.published)
        invariant forall g | g in old(journal).published :: g in journal.published
        invariant forall k | 0 <= k < i :: (host, order[k]) in journal.published
        invariant old(Fits()) ==> Fits()
        invariant Tracked() ==> OnlyPublisher(host)
        invariant Tracked() && !manifest.action.Revoke? && old(AtPrefix(journal.plan, host, world, base, 0)) ==>
                    AtPrefix(journal.plan, host, world, base, i)
      {
        ghost var saved := journal;
        v := PublishAt(host, i);
        AdvancesTransitive(old(record.value), saved, record.value);
        if !v.Proceed? {
          return;
        }
      }
    }

    /** Check the route of one publisher, then deliver its grants. */
    method PublishHost(host: Host, probe: Envelope) returns (v: Verdict)
      requires Inv() && journal == record.value && Fresh(probe) && journal.phase.RuntimeAdopted?
      requires Elems(journal.adopted) == Affected(manifest, journal.plan)
      requires host in journal.plan.grants
      modifies this
      ensures Kept(v)
      ensures v.Proceed? ==> journal == old(journal).(published := journal.published)
      ensures v.Proceed? ==> forall g | g in old(journal).published :: g in journal.published
      ensures v.Proceed? ==> forall t | t in journal.plan.grants[host] :: (host, t) in journal.published
      ensures v.Proceed? && old(Fits()) ==> Fits()
      ensures v.Proceed? && Tracked() ==> OnlyPublisher(host)
      ensures v.Proceed? && Tracked() && !manifest.action.Revoke? && old(UnmovedAt(host)) ==>
                PrefixesSeenAt(journal.plan, host, base.pubs[host], |OrderOf(journal.plan, host)|)
    {
      hide Distinct, ValidJournal, Evidence, Justified, Ordered, Tracks, WellPlanned, Deliverable, FenceAccepts, AllPositive, Room, RunRoom, JournalBytes, OneProbe,
           AtPrefix, PrefixesSeenAt, Begun, Affected, Elems, GrantIds, GrantsListed, SafeJournal;
      GrantsOf(manifest, journal, host);
      if Tracked() && !manifest.action.Revoke? && UnmovedAt(host) {
        AtFirst(journal.plan, host, world, base);
      }
      v := CheckRoute(host, probe);
      if !v.Proceed? {
        return;
      }
      v := PublishOrder(host);
      if v.Proceed? && Tracked() && !manifest.action.Revoke? && old(UnmovedAt(host)) {
        SeenBefore(journal.plan, host, world, base, |OrderOf(journal.plan, host)|);
      }
    }

    method PublishGrants(probe: Envelope) returns (v: Verdict)
      requires Inv() && journal == record.value && Fresh(probe) && journal.phase.RuntimeAdopted?
      requires Elems(journal.adopted) == Affected(manifest, journal.plan)
      modifies this
      ensures Kept(v)
      ensures v.Proceed? ==> journal == old(journal).(published := journal.published)
      ensures v.Proceed? ==> Elems(journal.published) == GrantIds(journal.plan)
      ensures v.Proceed? && old(Fits()) ==> Fits()
      ensures v.Proceed? && Tracked() && old(Unmoved()) ==> PrefixesSeen(journal.plan, base)
    {
      hide Evidence, Justified, Ordered, Tracks, WellPlanned, Deliverable, Distinct, AllPositive, AllCleaned, Room, RunRoom, JournalBytes,
           OneProbe, PrefixesSeenAt, GrantsListed, ValidJournal, SafeJournal, FenceAccepts, Begun, Affected, Elems, GrantIds;
      v := Proceed;
      var hosts := journal.plan.grants.Keys;
      while hosts != {}
        invariant v.Proceed? && Kept(v)
        invariant hosts <= journal.plan.grants.Keys && Fresh(probe)
        invariant journal == old(journal).(published := journal.published)
        invariant old(Fits()) ==> Fits()
        invariant forall h, t | Known(journal.plan, h, t) && h !in hosts :: (h, t) in journal.published
        invariant Tracked() && old(Unmoved()) ==> forall p | p in hosts && p in world.pubs :: UnmovedAt(p)
        invariant Tracked() && old(Unmoved()) ==>
                    forall p | p in journal.plan.grants && p !in hosts && p in base.pubs ::
                      PrefixesSeenAt(journal.plan, p, base.pubs[p], |OrderOf(journal.plan, p)|)
      {
        var host :| host in hosts;
        ghost var saved := journal;
        if Tracked() {
          SeenAll(manifest, journal, world, base);
        }
        v := PublishHost(host, probe);
        AdvancesTransitive(old(record.value), saved, record.value);
        if !v.Proceed? {
          return;
        }
        hosts := hosts - {host};
      }
      AllPublished(manifest, journal);
    }

    /** All nodes written, runtimes adopted and grants published. */
    ghost predicate Established()
      reads this
      requires Inv() && journal == record.value
    {
      && Elems(journal.written) == manifest.nodes
      && Elems(journal.adopted) == Affected(manifest, journal.plan)
      && Elems(journal.published) == GrantIds(journal.plan)
    }

    /** Hand the recipient file over: created once, or already holding the same bytes. */
    method WriteOutput() returns (v: Verdict)
      requires Inv() && journal == record.value
      modifies this`world, this`fuse
      ensures Kept(v)
      ensures v.Proceed? && quiet && journal.plan.artifact.Some? ==> world.output == journal.plan.artifact
    {
      hide ValidJournal, Evidence, Justified, Ordered, Tracks, WellPlanned, Deliverable;
      v := Proceed;
      if journal.plan.artifact.Some? {
        var alive := Effect();
        if !alive {
          return Interrupted;
        }
        if Tracked() {
          OutputTracks(manifest, journal, world, base);
        }
        if world.output.Some? && world.output != journal.plan.artifact {
          return Refused;
        }
        world := world.(output := journal.plan.artifact);
      }
    }

    /** Recheck every adopted runtime and every credential probe, then every grant. */
    method Confirm() returns (v: Verdict, seen: World)
      requires Inv() && journal == record.value && Established()
      modifies this`world, this`fuse
      ensures Kept(v)
      ensures quiet ==> world == old(world)
      ensures v.Proceed? && Tracked() ==> seen == world
    {
      hide Distinct, Evidence, Justified, Ordered, Tracks, WellPlanned, Deliverable, FenceAccepts, AllPositive, Room, RunRoom, JournalBytes, OneProbe;
      v, seen := Proceed, world;
      var todo := Affected(manifest, journal.plan);
      while todo != {}
        invariant v.Proceed? && Kept(v)
        invariant quiet ==> world == old(world)
      {
        var alive := Effect();
        if !alive {
          return Interrupted, seen;
        }
        var host :| host in todo;
        todo := todo - {host};
      }
      todo := journal.plan.profiles;
      while todo != {}
        invariant v.Proceed? && Kept(v)
        invariant quiet ==> world == old(world)
      {
        var alive := Effect();
        if !alive {
          return Interrupted, seen;
        }
        var host :| host in todo;
        todo := todo - {host};
      }
      v, seen := Fence();
      if !v.Proceed? {
        return;
      }
      if old(Able()) {
        forall h, t | Known(journal.plan, h, t)
          ensures GrantServed(h, t, seen)
        {
          GrantsFinal(manifest, journal, world, base, h, t);
        }
      }
      if exists h | h in journal.plan.grants ::
           exists t | t in journal.plan.grants[h] :: !GrantServed(h, t, seen) {
        v := Refused;
      }
    }

    predicate GrantServed(host: Host, token: Token, seen: World)
      reads this
      requires Known(journal.plan, host, token)
    {
      && host in seen.pubs
      && seen.pubs[host].Row(token) == Some(journal.plan.grants[host][token].after)
      && (token in seen.pubs[host].revoked <==> manifest.action.Revoke?)
    }

    method CleanCanaries(seen: World, probe: Envelope) returns (v: Verdict)
      requires Inv() && journal == record.value && Established() && AllPositive(journal) && Fresh(probe)
      requires Tracked() ==> seen == world
      modifies this
      ensures Kept(v)
      ensures v.Proceed? ==> Established() && AllCleaned(journal)
      ensures quiet ==> world.output == old(world).output
    {
      hide Evidence, Justified, Ordered, Tracks, WellPlanned, Deliverable, Distinct, Room, RunRoom, JournalBytes, OneProbe;
      v := Proceed;
      var todo := journal.canaries.Keys;
      while todo != {}
        invariant v.Proceed? && Kept(v) && Established() && AllPositive(journal)
        invariant todo <= journal.canaries.Keys
        invariant quiet ==> world.output == old(world).output
        invariant Fresh(probe) && journal.canaries.Keys <= manifest.publishers
        invariant Tracked() ==> forall h | h in todo && h in world.pubs :: h in seen.pubs && world.pubs[h] == seen.pubs[h]
        invariant forall h | h in journal.canaries && h !in todo :: journal.canaries[h].cleaned
      {
        var host :| host in todo;
        var token := journal.plan.canaries[host].token;
        var row, revoked, expired := None, false, false;
        if host in seen.pubs {
          row := seen.pubs[host].Row(token);
          revoked := token in seen.pubs[host].revoked;
          expired := ExpiredAny(seen.pubs[host], row);
        }
        ghost var saved := journal;
        v := CleanCanary(host, row, revoked, expired, probe);
        AdvancesTransitive(old(record.value), saved, record.value);
        if !v.Proceed? {
          return;
        }
        todo := todo - {host};
      }
    }

    predicate CanaryRetired(host: Host, seen: World)
      reads this
      requires host in journal.plan.canaries
    {
      && host in seen.pubs
      && seen.pubs[host].Row(journal.plan.canaries[host].token).None?
      && (host in journal.plan.grants ==> forall t | t in journal.plan.grants[host] ::
            seen.pubs[host].Row(t).Some? && t in seen.pubs[host].revoked)
    }

    /** The last fence: no canary row is left and every revoked grant still is. */
    method Finish() returns (v: Verdict)
      requires Inv() && journal == record.value && Established() && AllCleaned(journal)
      modifies this
      ensures Kept(v)
      ensures quiet ==> world == old(world)
      ensures v.Proceed? ==> journal.phase.Complete?
      ensures v.Proceed? && Tracked() ==> FenceAccepts(manifest, journal, world)
      ensures v.Proceed? && Tracked() ==> forall h | h in journal.plan.canaries :: CanaryRetired(h, world)
    {
      hide Evidence, Justified, Ordered, Tracks, WellPlanned, Deliverable, Distinct, FenceAccepts, Room, RunRoom, JournalBytes, OneProbe;
      var seen;
      v, seen := Fence();
      if !v.Proceed? {
        return;
      }
      if old(Able()) {
        forall h | h in journal.plan.canaries
          ensures CanaryRetired(h, seen)
        {
          CanariesGone(manifest, journal, world, base, h);
          if h in journal.plan.grants {
            forall t | t in journal.plan.grants[h]
              ensures seen.pubs[h].Row(t).Some? && t in seen.pubs[h].revoked
            {
              GrantsFinal(manifest, journal, world, base, h, t);
            }
          }
        }
      }
      if exists h | h in journal.plan.canaries :: !CanaryRetired(h, seen) {
        return Refused;
      }
      v := EnterPhase(Complete);
      if v.Proceed? {
        FencePhase(manifest, old(journal), journal, seen);
      }
    }

    /** The first save of an operation. */
    method SaveFirst(first: Journal) returns (v: Verdict)
      requires record.None? && trace == [] && SafeJournal(manifest, first) && Justified(first, []) && first.phase.Prepared? && first.published == []
      requires quiet ==> world == base
      requires WellPlanned(manifest, first.plan, world) && Tracks(manifest, first, world, world)
      modifies this`fuse, this`world, this`journal, this`record, this`begun
      ensures quiet ==> world == old(world)
      ensures v.Proceed? ==> Inv() && record == Some(first) && journal == first && begun == []
      ensures !v.Proceed? ==> record.None?
      ensures quiet && old(fuse) < 0 ==> (v.Proceed? <==> intent + JournalBytes(first) <= JOURNAL_LIMIT)
    {
      hide Evidence, Justified, Tracks, PublisherPlanned, JournalBytes, Distinct;
      SaveAdmitted(manifest, first, world, world);
      hide WellPlanned, ValidJournal;
      var bytes := MeasureJournal(first);
      if intent + bytes > JOURNAL_LIMIT {
        return Refused;
      }
      var alive := Effect();
      if !alive {
        return Interrupted;
      }
      var host := manifest.journalHost;
      if world.source != first.plan.source || host !in world.docs
        || (world.docs[host] != first.plan.before[host] && world.docs[host] != first.plan.after[host]) {
        return Refused;
      }
      journal, begun := first, [];
      record := Some(first);
      v := Proceed;
    }

    /**
     Save the first journal of an admitted fleet.  Nothing but the record changes, and
     only a complete intent is ever saved.
     */
    method Prepare(d: Draft) returns (v: Verdict)
      requires record.None? && trace == [] && Admitted(manifest, world, d)
      requires quiet ==> world == base
      modifies this`fuse, this`world, this`journal, this`record, this`begun
      ensures quiet ==> world == old(world)
      ensures v.Proceed? ==> Inv() && journal == record.value && journal.phase.Prepared? && NoCleanup(journal)
      ensures !v.Proceed? ==> record.None?
      ensures v.Proceed? ==> Planned(manifest, old(world), d, record.value.plan)
      // What is still in the way of finishing can be read off the fleet and the draft.
      ensures v.Proceed? && Tracked() ==>
                (CanDeliver() <==>
                  && (manifest.action.Refresh? ==> Agreed(manifest, record.value.plan, base))
                  && RoomBefore(manifest, base, d, 0) && JournalRoom(manifest, record.value.plan, intent))
      ensures v.Proceed? && Tracked() ==>
                (CanFinish() <==>
                  && (manifest.action.Refresh? ==> Agreed(manifest, record.value.plan, base))
                  && RoomBefore(manifest, base, d, 0) && RunRoom(manifest, record.value.plan, [], intent))
      ensures quiet && old(fuse) < 0 && !manifest.action.Refresh? ==>
                (v.Proceed? <==> Reviewed(manifest, old(world), d) && intent + FirstBytes(manifest) <= JOURNAL_LIMIT)
    {
      hide Reviewed, PublisherPlanned, Deliverable, DenyListsAgree, ActiveTokens, DeviceTokens, Elems, Planned, Room, RoomBefore, JournalRoom, JournalBytes, RunRoom, GrantsListed, Affected;
      var plan := MakePlan(manifest, world, d);
      if plan.None? {
        return Refused;
      }
      FirstJournalTracks(manifest, plan.value, world);
      FirstExact(manifest, plan.value);
      ReviewedFit(manifest, world, d);
      RoomIsReadable(manifest, world, d, plan.value, 0);
      hide ValidJournal, Evidence, Justified, Tracks, Admitted;
      v := SaveFirst(FirstJournal(manifest, plan.value));
      if v.Proceed? && Tracked() {
        NothingAhead(manifest, plan.value, base);
      }
    }

    /** See that nothing foreign happened, then serve every canary. */
    method BeginRun() returns (v: Verdict)
      requires Inv() && journal == record.value && journal.published == begun
      modifies this
      ensures Kept(v)
      ensures v.Proceed? ==> AllPositive(journal) && journal.published == begun
      ensures v.Proceed? && NoCleanup(old(journal)) ==> NoCleanup(journal)
      ensures quiet && !manifest.action.Revoke? ==> world == old(world)
    {
      hide Evidence, Justified, Ordered, Tracks, WellPlanned, Deliverable, Distinct, FenceAccepts, Room, RunRoom, JournalBytes, OneProbe;
      NoCanaries(manifest, journal);
      hide Begun, ValidJournal, Affected, Elems, GrantIds, SafeJournal;
      var alive := Effect();            // the undeclared nodes still have no publisher
      if !alive {
        return Interrupted;
      }
      var seen;
      v, seen := Fence();
      if v.Proceed? {
        v := ServeCanaries();
      }
    }

    /** Everything `run` does before the first runtime is touched. */
    method WriteAuthority() returns (v: Verdict)
      requires Inv() && journal == record.value && journal.published == begun
      modifies this
      ensures Kept(v)
      ensures v.Proceed? ==> Elems(journal.written) == manifest.nodes && journal.phase.AuthorityWritten?
      ensures v.Proceed? ==> AllPositive(journal) && journal.published == begun && Fits()
      ensures v.Proceed? && NoCleanup(old(journal)) ==> NoCleanup(journal)
      ensures v.Proceed? && Tracked() && manifest.action.Revoke? && NoCleanup(old(journal)) ==>
                PrefixesFit(manifest, journal.plan, base)
      ensures quiet && !manifest.action.Revoke? ==> world.pubs == old(world).pubs
    {
      hide Evidence, Justified, Ordered, Tracks, WellPlanned, Deliverable, Distinct, FenceAccepts, Room, RunRoom, JournalBytes, OneProbe;
      hide PrefixesFit, Begun, ValidJournal, Affected, Elems, GrantIds, SafeJournal;
      v := BeginRun();
      ghost var served := record.value;
      if !v.Proceed? {
        return;
      }
      v := WriteNodes();
      ghost var wrote := record.value;
      AdvancesTransitive(old(record.value), served, wrote);
      if !v.Proceed? {
        return;
      }
      if Tracked() && manifest.action.Revoke? && NoCleanup(old(journal)) {
        CanariesWritten(manifest, journal, world, base);
      }
      v := EnterPhase(AuthorityWritten);
      AdvancesTransitive(old(record.value), wrote, record.value);
    }

    /** Adopt every affected runtime, then every grant. */
    method Establish(probe: Envelope) returns (v: Verdict)
      requires Inv() && journal == record.value && AllPositive(journal) && Fresh(probe)
      requires Elems(journal.written) == manifest.nodes && journal.phase.AuthorityWritten? && Fits()
      modifies this
      ensures Kept(v)
      ensures v.Proceed? ==> Established() && AllPositive(journal)
      ensures v.Proceed? && NoCleanup(old(journal)) ==> RunRoom(manifest, journal.plan, old(journal).published, intent)
      ensures v.Proceed? && Tracked() && old(Unmoved()) ==> PrefixesSeen(journal.plan, base)
    {
      hide Evidence, Justified, Ordered, Tracks, WellPlanned, Deliverable, Distinct, FenceAccepts, Room, RunRoom, JournalBytes, OneProbe,
           PrefixesSeen, ValidJournal;
      v := AdoptRuntimes();
      ghost var adopted := record.value;
      if !v.Proceed? {
        return;
      }
      v := EnterPhase(RuntimeAdopted);
      ghost var entered := record.value;
      AdvancesTransitive(old(record.value), adopted, entered);
      if !v.Proceed? {
        return;
      }
      v := PublishGrants(probe);
      AdvancesTransitive(old(record.value), entered, record.value);
      if v.Proceed? && NoCleanup(old(journal)) {
        RunNeedsRoom(manifest, adopted, journal, intent);
      }
    }

    /** Hand over, reverify, retire the canaries and close the operation. */
    method Close(probe: Envelope) returns (v: Verdict)
      requires Inv() && journal == record.value && Established() && AllPositive(journal) && Fresh(probe)
      modifies this
      ensures Kept(v)
      ensures v.Proceed? ==> journal.phase.Complete?
      ensures v.Proceed? && Tracked() ==> FenceAccepts(manifest, journal, world)
      ensures v.Proceed? && Tracked() && journal.plan.artifact.Some? ==> world.output == journal.plan.artifact
    {
      hide Evidence, Justified, Ordered, Tracks, WellPlanned, Deliverable, Distinct, FenceAccepts, Room, RunRoom, JournalBytes, OneProbe;
      v := WriteOutput();
      if !v.Proceed? {
        return;
      }
      var seen;
      v, seen := Confirm();
      if !v.Proceed? {
        return;
      }
      v := CleanCanaries(seen, probe);
      ghost var cleaned := record.value;
      if !v.Proceed? {
        return;
      }
      v := Finish();
      AdvancesTransitive(old(record.value), cleaned, record.value);
    }

    /** The fleet is exactly the final one, and nothing about the deny lists was in the way. */
    ghost predicate AtEnd()
      reads this
    {
      && record.Some? && WellPlanned(manifest, record.value.plan, base)
      && world == FinalWorld(manifest, record.value.plan, base) && Deliverable(manifest, record.value.plan, base)
    }

    /** One attempt, of which the fleet it started from is known. */
    method Attempt(probe: Envelope) returns (v: Verdict)
      requires Inv() && Fresh(probe) && begun == record.value.published
      modifies this
      ensures Kept(v)
      ensures v.Proceed? ==> record.value.phase.Complete?
      ensures v.Proceed? && Tracked() ==> AtEnd()
      // Before any cleanup, finishing shows that nothing was in the way.
      ensures v.Proceed? && Tracked() && NoCleanup(old(record.value)) && (manifest.action.Revoke? || old(Unmoved())) ==> old(Able())
    {
      hide Evidence, Justified, Ordered, Tracks, WellPlanned, Deliverable, Distinct, FenceAccepts, FinalWorld, Room, RunRoom, JournalBytes,
           OneProbe, Begun, PrefixesFit, PrefixesSeen, ValidJournal, InStep;
      journal := record.value;
      v := WriteAuthority();
      ghost var wrote := record.value;
      if !v.Proceed? {
        return;
      }
      v := Establish(probe);
      ghost var established := record.value;
      AdvancesTransitive(old(record.value), wrote, established);
      if !v.Proceed? {
        return;
      }
      v := Close(probe);
      AdvancesTransitive(old(record.value), established, record.value);
      if v.Proceed? && Tracked() {
        CompleteEvidence(manifest, journal);
        CompleteIsFinal(manifest, journal, world, base);
        FinalNeedsDeliverable(manifest, journal, base);
        if NoCleanup(old(record.value)) && (manifest.action.Revoke? || old(Unmoved())) {
          RoomWasThere(manifest, journal, base);
        }
      }
    }

    /**
     One attempt at the prepared operation, from the durable record.  However it ends,
     the record stays safe and its evidence only grows.  Without other writers the attempt
     never refuses a plan that can be delivered, and finishing leaves exactly the final fleet.
     From any record before cleanup the conditions for finishing are exact.
     */
    method Run(probe: Envelope) returns (v: Verdict)
      requires Inv() && Fresh(probe)
      modifies this
      ensures Inv() && Advances(old(record.value), record.value) && Left(v)
      ensures old(fuse) < 0 ==> fuse < 0 && !v.Interrupted?
      ensures v.Proceed? ==> record.value.phase.Complete?
      ensures v.Proceed? && Tracked() ==> AtEnd()
      ensures old(CanFinish()) ==> !v.Refused?
      ensures v.Proceed? && Tracked() && NoCleanup(old(record.value)) ==> old(CanFinish())
    {
      hide SafeJournal, Justified, Ordered, Tracks, WellPlanned, Deliverable, FinalWorld, Room, RunRoom, OneProbe, Rebased, IsRouteProbe;
      ghost var first, origin, start, tracked := record.value, base, world, Tracked();
      begun := first.published;
      if tracked {
        RebasedConsistent(manifest, first, world, base);
        RebasedDeliverable(manifest, first.plan, base, world);
        base := Rebased(first.plan, base, world);
      }
      v := Attempt(probe);
      if tracked && Tracked() {
        ghost var x := Restored(manifest, first, origin, start, record.value, world, base);
        RebasedDeliverable(manifest, first.plan, x, start);
        RebasedFinal(manifest, first.plan, x, start);
        base := x;
      } else if tracked {
        base := origin;
      }
    }

    /**
     Any number of attempts, each cut short anywhere, then one that is not: the same fleet as a
     single uninterrupted attempt, a function of the admitted fleet and the plan, littered by
     at most one route probe for each attempt that was cut short.
     */
    method Recover(crashes: seq<nat>, probes: seq<Envelope>) returns (v: Verdict)
      requires Inv() && CanDeliver() && manifest.device != ROUTE_CHECK
      requires Room(manifest, record.value.plan, base, |crashes|)
      requires |probes| == |crashes| + 1 && forall i | 0 <= i < |probes| :: Fresh(probes[i])
      modifies this
      ensures Inv() && Advances(old(record.value), record.value)
      ensures v.Proceed? && record.value.phase.Complete?
      ensures AtEnd() && Litter(record.value.plan, old(base), base, |crashes|)
    {
      hide SafeJournal, Justified, Ordered, Tracks, WellPlanned, Deliverable, FenceAccepts, FinalWorld, Room, RunRoom, OneProbe, IsRouteProbe;
      for i := 0 to |crashes|
        invariant Inv() && Advances(old(record.value), record.value) && CanDeliver()
        invariant Room(manifest, record.value.plan, base, |crashes| - i)
        invariant Litter(record.value.plan, old(base), base, i)
        invariant forall k | i <= k < |probes| :: Fresh(probes[k])
      {
        ghost var saved, was := record.value, base;
        DeliverIsFinish(manifest, saved, world, base, intent);
        fuse := crashes[i];
        v := Run(probes[i]);
        AdvancesTransitive(old(record.value), saved, record.value);
        AfterAttempt(manifest, saved.plan, was, base, |crashes| - i - 1);
        LitterMore(saved.plan, old(base), was, base, i);
        RoomLess(manifest, saved.plan, base, |crashes| - i - 1);
        forall k | i < k < |probes| ensures Fresh(probes[k]) {
          StillUnexpired(saved.plan, was, base, probes[k]);
        }
      }
      ghost var saved := record.value;
      DeliverIsFinish(manifest, saved, world, base, intent);
      fuse := -1;
      v := Run(probes[|crashes|]);
      AdvancesTransitive(old(record.value), saved, record.value);
    }
  }

  /** What never stops any run does not stop the next one. */
  lemma {:induction false} DeliverIsFinish(m: Manifest, j: Journal, w: World, base: World, intent: nat)
    requires Consistent(m, j, w, base) && Room(m, j.plan, base, 0) && JournalRoom(m, j.plan, intent)
    ensures Room(m, j.plan, Rebased(j.plan, base, w), 0) && RunRoom(m, j.plan, j.published, intent)
  {
    RebasedRoom(m, j, w, base, 0);
    hide Room, Rebased, Tracks, WellPlanned, RunBytes, FullBytes;
    RunWithinFull(m, j);
  }

  lemma {:induction false} FencePhase(m: Manifest, j: Journal, j': Journal, w: World)
    requires ValidPlan(m, j.plan) && j'.plan == j.plan && j'.written == j.written
    requires FenceAccepts(m, j, w)
    ensures FenceAccepts(m, j', w)
  {
  }
}
