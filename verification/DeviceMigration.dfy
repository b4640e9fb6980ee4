/** The migration controller: prepare, publish and roll back, each resumable after any interruption. */
module DeviceMigration {
  import opened Wrappers
  import opened SubscriptionPublisher
  import opened MigrationJournal
  import opened MigrationSteps
  import opened MigrationRoom
  import opened MigrationAttempts

  datatype Verdict = Proceed | Interrupted | Refused

  class Migration {
    const first: Alias
    const publishers: set<Alias>
    const size: Measure
    const quiet: bool
    ghost const base: World

    var world: World
    var record: Option<Journal>
    var journal: Journal
    var fuse: int

    constructor (first: Alias, publishers: set<Alias>, size: Measure, world: World, quiet: bool, idle: Journal)
      requires first in publishers && (quiet ==> world.pubs.Keys == publishers)
      ensures this.first == first && this.publishers == publishers && this.size == size && this.quiet == quiet
      ensures this.world == world && base == world && record.None? && fuse < 0 && Inv()
    {
      this.first, this.publishers, this.size, this.quiet := first, publishers, size, quiet;
      this.world, base := world, world;
      record, journal, fuse := None, idle, -1;
    }

    ghost predicate Inv()
      reads this
    {
      && first in publishers
      && (quiet ==> world.pubs.Keys == publishers && base.pubs.Keys == publishers)
      && (quiet && record.None? ==> world == base)
      && (record.Some? ==> Shape(publishers, record.value) && (quiet ==> Tracks(record.value, world, base)))
      && (record.Some? && record.value.phase.Preparing? ==> Storable(size, record.value.sourceBefore, record.value))
    }

    twostate predicate Kept(v: Verdict)
      requires old(Inv())
      reads this
    {
      && Inv()
      && (old(record).Some? ==> record.Some? && Later(old(record).value, record.value))
      && (old(fuse) < 0 ==> fuse < 0 && !v.Interrupted?)
    }

    /** Time and other actors may intervene before any effect; the process may also die there. */
    method Effect() returns (alive: bool)
      modifies this`fuse, this`world
      ensures quiet ==> world == old(world)
      ensures alive <==> old(fuse) != 0
      ensures old(fuse) < 0 ==> fuse < 0
      ensures old(fuse) > 0 ==> fuse == old(fuse) - 1
    {
      if fuse == 0 {
        return false;
      }
      if fuse > 0 {
        fuse := fuse - 1;
      }
      if !quiet {
        world := *;
      }
      return true;
    }

    /** Save the journal in the source document, if that is still the document that was read and has room. */
    method Save(source: Document) returns (v: Verdict)
      requires Inv() && Shape(publishers, journal)
      requires record.Some? ==> Later(record.value, journal)
      requires quiet ==> Tracks(journal, world, base)
      requires journal.phase.Preparing? ==> source == journal.sourceBefore
      modifies this`fuse, this`world, this`record
      ensures Kept(v)
      ensures quiet ==> world == old(world)
      ensures record == if v.Proceed? then Some(journal) else old(record)
      ensures v.Proceed? ==> Storable(size, source, journal)
      ensures quiet && source == world.source && Storable(size, source, journal) ==> !v.Refused?
    {
      var alive := Effect();
      if !alive {
        return Interrupted;
      }
      if world.source != source || !Storable(size, source, journal) {
        return Refused;
      }
      record := Some(journal);
      v := Proceed;
    }

    /** One publisher's answer to a snapshot request. */
    method TakeSnapshot(alias: Alias) returns (v: Verdict, pub: Publisher)
      requires Inv()
      modifies this`fuse, this`world
      ensures Kept(v)
      ensures quiet ==> world == old(world)
      ensures v.Proceed? ==> Snapshotable(pub)
      ensures v.Proceed? && quiet ==> alias in world.pubs && pub == world.pubs[alias]
      ensures quiet && alias in world.pubs && Snapshotable(world.pubs[alias]) ==> !v.Refused?
    {
      hide Shape, Tracks, Later, Snapshotable, Storable;
      pub := Publisher(map[], {}, {}, 0);
      if record.Some? {
        LaterRefl(record.value);
      }
      var alive := Effect();
      if !alive {
        return Interrupted, pub;
      }
      if alias !in world.pubs {
        return Refused, pub;
      }
      pub := world.pubs[alias];
      var fits := MeasureSnapshot(pub);
      v := if fits then Proceed else Refused;
    }

    /** One snapshot after the other, and no bootstrap grant in a namespace to be emptied. */
    method TakeSnapshots() returns (v: Verdict, seen: map<Alias, Publisher>)
      requires Inv()
      modifies this`fuse, this`world
      ensures Kept(v)
      ensures quiet ==> world == old(world)
      ensures v.Proceed? ==> seen.Keys == publishers && (forall a | a in publishers :: Snapshotable(seen[a]))
                             && (|publishers| > 1 ==> seen[first].bootstrap == 0)
      ensures v.Proceed? && quiet ==> seen == world.pubs
      ensures quiet && SnapshotsFit(publishers, world) && (|publishers| > 1 ==> world.pubs[first].bootstrap == 0) ==> !v.Refused?
    {
      hide Shape, Tracks, Later, Snapshotable, Storable;
      v, seen := Proceed, map[];
      if record.Some? {
        LaterRefl(record.value);
      }
      var todo := publishers;
      while todo != {}
        invariant v.Proceed? && Kept(v) && record == old(record)
        invariant todo <= publishers && seen.Keys == publishers - todo
        invariant quiet ==> world == old(world) && forall a | a in seen :: a in world.pubs && seen[a] == world.pubs[a]
        invariant forall a | a in seen :: Snapshotable(seen[a])
      {
        var alias :| alias in todo;
        var pub;
        v, pub := TakeSnapshot(alias);
        if !v.Proceed? {
          return;
        }
        seen, todo := seen[alias := pub], todo - {alias};
      }
      if |publishers| > 1 && seen[first].bootstrap != 0 {
        v := Refused;
      }
    }

    /** Compare-and-set the target document. */
    method ReplaceTarget(expected: Document, desired: Document) returns (v: Verdict)
      requires Inv() && record.Some?
      requires quiet ==> DocumentsTrack(record.value, world.source, desired)
      modifies this`fuse, this`world
      ensures Kept(v)
      ensures quiet ==> world == old(world) || world == old(world).(target := desired)
      ensures quiet && v.Proceed? ==> world.target == desired
      ensures quiet && old(world.target) == expected ==> !v.Refused?
    {
      var alive := Effect();
      if !alive {
        return Interrupted;
      }
      if world.target != desired {
        if world.target != expected {
          return Refused;
        }
        world := world.(target := desired);
      }
      v := Proceed;
    }

    /** A journaled grant at a publisher, in a phase that may move it in this direction. */
    ghost predicate Movable(alias: Alias, token: Token, rollback: bool)
      reads this
    {
      && Inv() && record == Some(journal)
      && alias in publishers && token in journal.grants && alias in journal.grants[token].before
      && GrantShape(journal.grants[token])
      && if rollback then journal.phase.RollingBack? else journal.phase.Publishing? || journal.phase.Published?
    }

    /** Move one row by compare-and-swap. */
    method Settle(alias: Alias, token: Token, rollback: bool) returns (v: Verdict)
      requires Movable(alias, token, rollback)
      modifies this`fuse, this`world
      ensures Kept(v)
      ensures quiet ==> OnlyRow(old(world), world, alias, token)
      ensures quiet && v.Proceed? ==> PairSettled(journal, world, alias, token, rollback)
      ensures quiet && !v.Proceed? ==> world == old(world)
      ensures quiet && v.Proceed? && alias in old(world).pubs ==>
                var pub := old(world).pubs[alias];
                (token in pub.rows ==> token !in pub.revoked && !pub.Expired(pub.rows[token])) ==>
                  PairReady(journal, old(world), alias, token, rollback)
      ensures quiet && PairReady(journal, old(world), alias, token, rollback) && DenyListFits(old(world).pubs[alias].revoked) ==>
                !v.Refused?
    {
      hide Shape, Tracks, Later, Storable;
      LaterRefl(journal);
      var alive := Effect();
      if !alive {
        return Interrupted;
      }
      if alias !in world.pubs {
        return Refused;
      }
      var allowed, wanted := Allowed(journal, alias, token, rollback), Wanted(journal, alias, token, rollback);
      if quiet {
        SettleStep(journal, world, base, alias, token, rollback);
      }
      var response := CompareAndSwap(world.pubs[alias], token, allowed, wanted);
      if response.None? {
        return Refused;
      }
      world := WithPublisher(world, alias, response.value);
      v := Proceed;
    }

    /** One grant at one publisher: refuse anything but its two recorded ends, then move it. */
    method ReconcileRow(alias: Alias, token: Token, seen: World, rollback: bool, exact: bool) returns (v: Verdict)
      requires Movable(alias, token, rollback)
      requires alias in seen.pubs && Snapshotable(seen.pubs[alias]) && (quiet ==> StillAs(world, alias, token, seen))
      modifies this`fuse, this`world
      ensures Kept(v)
      ensures quiet ==> OnlyRow(old(world), world, alias, token)
      ensures quiet ==> world == old(world) || PairSettled(journal, world, alias, token, rollback)
      ensures quiet && exact ==> world == old(world)
      ensures v.Proceed? && quiet ==> PairSettled(journal, world, alias, token, rollback)
      ensures v.Proceed? && quiet && !exact ==> PairReady(journal, old(world), alias, token, rollback)
      ensures quiet && PairReady(journal, old(world), alias, token, rollback) &&
                (exact ==> PairSettled(journal, old(world), alias, token, rollback)) ==>
                !v.Refused?
    {
      hide Shape, Tracks, Later, Storable, RowsFit, CompareAndSwap;
      LaterRefl(journal);
      if quiet {
        SettleStep(journal, world, base, alias, token, rollback);
      }
      var snapshot := seen.pubs[alias];
      var row := snapshot.Row(token);
      if row.Some? && (token in snapshot.revoked || snapshot.Expired(row.value)) {
        return Refused;
      }
      if row != Wanted(journal, alias, token, rollback) && (exact || row != Allowed(journal, alias, token, rollback)) {
        return Refused;
      }
      if exact {
        return Proceed;
      }
      v := Settle(alias, token, rollback);
    }

    /** A reconciliation may start: the journal names both ends of every grant at every publisher. */
    ghost predicate Reconcilable(rollback: bool)
      reads this
    {
      && Inv() && record == Some(journal) && journal.after.Some?
      && if rollback then journal.phase.RollingBack? else journal.phase.Publishing? || journal.phase.Published?
    }

    /**
     Bring every grant at every publisher to one end of the migration, or (`exact`) only
     confirm it.  Refuses strays, expired or revoked grants, competing documents and
     namespaces that do not fit a snapshot.
     */
    method Reconcile(rollback: bool, exact: bool) returns (v: Verdict)
      requires Reconcilable(rollback)
      modifies this`fuse, this`world
      ensures Kept(v)
      ensures quiet ==> OnlyGrants(journal, old(world), world, rollback)
      ensures quiet && exact ==> world == old(world)
      ensures quiet && v.Proceed? ==> Settled(journal, world, publishers, rollback) && SnapshotsFit(publishers, old(world))
      ensures quiet && v.Proceed? && !exact ==> Ready(first, publishers, journal, old(world), rollback)
      ensures quiet && Ready(first, publishers, journal, old(world), rollback) &&
                (exact ==> Settled(journal, old(world), publishers, rollback)) ==>
                !v.Refused?
    {
      hide Shape, Tracks, Later, NothingStray, AllSettled, Settled, PairReady, PairSettled, Pairs, Snapshotable, Storable, RowsMoved;
      LaterRefl(journal);
      NothingMoved(journal, world, rollback);
      var seen;
      v, seen := TakeSnapshots();
      if !v.Proceed? {
        return;
      }
      var snapshots := World(world.source, world.target, seen, world.due);
      if !SnapshotsClean(first, publishers, journal, snapshots) {
        return Refused;
      }
      if exists t | t in journal.grants :: !Unexpired(journal.grants[t], world.due) {
        return Refused;
      }
      PairsReady(first, publishers, journal, snapshots, rollback);
      PairsSettled(journal, world, publishers, rollback);
      v := ReconcileRows(snapshots, rollback, exact);
      PairsSettled(journal, world, publishers, rollback);
    }

    method ReconcileRows(seen: World, rollback: bool, exact: bool) returns (v: Verdict)
      requires Reconcilable(rollback) && SnapshotsFit(publishers, seen)
      requires quiet ==> seen == world
      modifies this`fuse, this`world
      ensures Kept(v)
      ensures quiet ==> OnlyGrants(journal, old(world), world, rollback)
      ensures quiet && exact ==> world == old(world)
      ensures quiet && v.Proceed? ==> AllSettled(Pairs(journal, publishers), journal, world, rollback)
      ensures quiet && v.Proceed? && !exact ==> AllReady(Pairs(journal, publishers), journal, old(world), rollback)
      ensures quiet && AllReady(Pairs(journal, publishers), journal, old(world), rollback) &&
                (exact ==> AllSettled(Pairs(journal, publishers), journal, old(world), rollback)) ==>
                !v.Refused?
    {
      hide Shape, Tracks, Later, OnlyRow, OnlyGrants, StillAs, AllStill, PairSettled, PairReady, GrantShape, Snapshotable, Storable;
      LaterRefl(journal);
      v := Proceed;
      var todo := Pairs(journal, publishers);
      ghost var done: set<(Alias, Token)> := {};
      NothingDone(journal, seen, publishers, rollback);
      while todo != {}
        invariant v.Proceed? && Kept(v) && record == old(record) && journal == old(journal)
        invariant todo + done == Pairs(journal, publishers)
        invariant quiet ==> OnlyGrants(journal, old(world), world, rollback) && AllStill(todo, world, seen)
        invariant quiet ==> AllSettled(done, journal, world, rollback)
        invariant quiet && !exact ==> AllReady(done, journal, old(world), rollback)
        invariant quiet && exact ==> world == old(world)
      {
        var pair :| pair in todo;
        var alias, token := pair.0, pair.1;
        PairShape(publishers, journal, alias, token);
        if quiet {
          PairUnchanged(journal, old(world), world, alias, token, rollback, todo, seen);
        }
        ghost var before := world;
        v := ReconcileRow(alias, token, seen, rollback, exact);
        if quiet {
          ReconcileStep(journal, old(world), before, world, seen, alias, token, rollback, todo, done);
        }
        if !v.Proceed? {
          return;
        }
        todo, done := todo - {pair}, done + {pair};
      }
    }

    /** Serve a credential-free probe at one publisher, read it back, delete it. */
    method ProbeRoute(alias: Alias, token: Token, stamp: string, nonce: string) returns (v: Verdict)
      requires Inv() && record == Some(journal)
      requires quiet ==> Fresh(journal, world, alias, token, stamp, nonce)
      modifies this`fuse, this`world
      ensures Kept(v)
      ensures quiet ==> OnlyProbes(old(world), world, map[alias := token], stamp)
      ensures quiet && v.Proceed? ==> world == old(world)
      ensures quiet && DenyListFits(old(world).pubs[alias].revoked) ==> !v.Refused?
      // Killed between the two requests, it leaves exactly the probe.
      ensures quiet && old(fuse) == 1 && DenyListFits(old(world).pubs[alias].revoked) ==>
                v.Interrupted? && world == WithPublisher(old(world), alias, old(world).pubs[alias].With(token, Some(Probe(stamp, nonce))))
    {
      hide Shape, Tracks, Later, OnlyProbes, CompareAndSwap, Storable, IsRouteProbe;
      LaterRefl(journal);
      if quiet {
        ProbeStep(journal, world, base, alias, token, stamp, nonce);
        NoProbes(world, map[alias := token], stamp);
      }
      var probe := Probe(stamp, nonce);
      var alive := Effect();
      if !alive {
        return Interrupted;
      }
      if alias !in world.pubs {
        return Refused;
      }
      var response := CompareAndSwap(world.pubs[alias], token, None, Some(probe));
      if response.None? {
        return Refused;
      }
      world := WithPublisher(world, alias, response.value);
      alive := Effect();
      if !alive {
        return Interrupted;
      }
      if alias !in world.pubs {
        return Refused;
      }
      response := CompareAndSwap(world.pubs[alias], token, Some(probe), None);
      if response.None? {
        return Refused;
      }
      world := WithPublisher(world, alias, response.value);
      v := Proceed;
    }

    /** One publisher after the other, the source namespace first. */
    method VerifyRoutes(probes: Probes) returns (v: Verdict)
      requires Inv() && record == Some(journal) && probes.tokens.Keys == publishers && probes.nonces.Keys == publishers
      requires quiet ==> FreshProbes(publishers, journal, world, probes)
      modifies this`fuse, this`world
      ensures Kept(v)
      ensures quiet ==> OnlyProbes(old(world), world, probes.tokens, probes.stamp)
      ensures quiet && v.Proceed? ==> world == old(world)
      ensures quiet && (forall a | a in publishers :: DenyListFits(old(world).pubs[a].revoked)) ==> !v.Refused?
      ensures quiet && old(fuse) == 1 && DenyListFits(old(world).pubs[first].revoked) ==>
                && v.Interrupted?
                && world == WithPublisher(old(world), first,
                                          old(world).pubs[first].With(probes.tokens[first], Some(Probe(probes.stamp, probes.nonces[first]))))
    {
      hide Shape, Tracks, Later, Fresh, Storable, DenyListFits;
      LaterRefl(journal);
      if quiet {
        assert Fresh(journal, world, first, probes.tokens[first], probes.stamp, probes.nonces[first]);
      }
      v := ProbeRoute(first, probes.tokens[first], probes.stamp, probes.nonces[first]);
      if !v.Proceed? {
        return;
      }
      var todo := publishers - {first};
      while todo != {}
        invariant v.Proceed? && Kept(v) && record == Some(journal)
        invariant todo <= publishers
        invariant quiet ==> world == old(world)
      {
        var alias :| alias in todo;
        v := ProbeRoute(alias, probes.tokens[alias], probes.stamp, probes.nonces[alias]);
        if !v.Proceed? {
          return;
        }
        todo := todo - {alias};
      }
    }

    /** A route check killed after its first request stops every publication that moves publishers. */
    method KillRouteCheck(probes: Probes) returns (v: Verdict)
      requires quiet && Inv() && record == Some(journal) && FreshProbes(publishers, journal, world, probes)
      requires |publishers| > 1 && Ready(first, publishers, journal, world, false)
      modifies this
      ensures v.Interrupted? && !Ready(first, publishers, journal, world, false)
    {
      hide Shape, Tracks, Later, SnapshotsClean, PairReady, RowsFit;
      assert Fresh(journal, world, first, probes.tokens[first], probes.stamp, probes.nonces[first]);
      assert Snapshotable(world.pubs[first]);
      KilledCheckStops(first, publishers, journal, world, probes.tokens[first], probes.stamp, probes.nonces[first]);
      fuse := 1;
      v := VerifyRoutes(probes);
    }

    /** Complete every grant's predecessors from one snapshot, or refuse a conflict. */
    method RecordPredecessors(seen: map<Alias, Publisher>) returns (ok: bool, grants: map<Token, MigrationGrant>)
      requires publishers <= seen.Keys
      ensures ok <==> AllRecordable(journal, publishers, seen)
      ensures ok ==> grants == AllRecorded(journal, publishers, seen)
    {
      grants := journal.grants;
      var todo := journal.grants.Keys;
      while todo != {}
        invariant todo <= journal.grants.Keys && grants.Keys == journal.grants.Keys
        invariant forall t | t in todo :: grants[t] == journal.grants[t]
        invariant forall t | t in journal.grants && t !in todo ::
                    GrantRecordable(journal.grants[t], t, publishers, seen)
                    && grants[t] == Recorded(journal.grants[t], t, publishers, seen)
      {
        var token :| token in todo;
        if !GrantRecordable(grants[token], token, publishers, seen) {
          return false, grants;
        }
        grants := grants[token := Recorded(grants[token], token, publishers, seen)];
        todo := todo - {token};
      }
      ok := true;
    }

    /** Fix both halves of the commit and every predecessor, before anything is published. */
    method StartPublication(d: DeliveryDraft, source: Document, target: Document) returns (v: Verdict)
      requires Inv() && record == Some(journal) && journal.phase.Prepared?
      requires source == journal.sourceBefore && target == journal.candidate
      requires journal.devices <= source.registry.Keys && journal.devices <= target.registry.Keys
      requires quiet ==> source == world.source && target == world.target
      modifies this
      ensures Kept(v)
      ensures quiet ==> world == old(world)
      ensures v.Proceed? ==> record == Some(journal) && journal.phase.Publishing?
      ensures !v.Proceed? ==> record == old(record)
      ensures v.Proceed? ==> Drafted(journal, d)
      ensures v.Proceed? && quiet ==> Startable(publishers, size, old(journal), old(world), d)
      ensures quiet && Startable(publishers, size, old(journal), old(world), d) && SnapshotsOk(first, publishers, old(journal), old(world)) ==> !v.Refused?
    {
      hide Shape, Tracks, Later, IntentShape, AllRecordable, AllRecorded, NothingStray, Snapshotable, Storable, IntentOf, Drafted;
      LaterRefl(journal);
      var seen;
      v, seen := TakeSnapshots();
      if !v.Proceed? {
        return;
      }
      var ok, grants := RecordPredecessors(seen);
      if !ok || !(journal.devices <= d.source.Keys && journal.devices <= d.target.Keys) {
        return Refused;
      }
      var intent := IntentOf(journal, source, target, d.source, d.target, d.identity);
      PreparedIntent(publishers, journal, d);
      StartShape(publishers, journal, seen, intent);
      if quiet {
        StartTracks(publishers, journal, world, base, intent);
      }
      IntentDrafted(publishers, journal, journal.(phase := Publishing, grants := grants, after := Some(intent)), d);
      journal := journal.(phase := Publishing, grants := grants, after := Some(intent));
      v := Save(source);
    }

    /** Write the target half, then the source half together with the journal's `published`. */
    method CommitPublication(source: Document, target: Document) returns (v: Verdict)
      requires Inv() && record == Some(journal) && journal.after.Some?
      requires journal.phase.Publishing? || journal.phase.Published?
      requires quiet ==> source == world.source && target == world.target && Settled(journal, world, publishers, false)
      modifies this
      ensures Kept(v)
      ensures record == old(record) || record.value.phase.Published?
      ensures v.Proceed? ==> record == Some(journal) && journal.phase.Published?
      ensures quiet ==> !v.Refused?
      ensures quiet ==> world.pubs == old(world).pubs && world.due == old(world).due
    {
      hide GrantShape, IntentShape, RowTracks, PublisherTracks, Later, Settled, Storable;
      ShapePublished(publishers, journal);
      RepeatedTarget(publishers, journal);
      LaterRefl(journal);
      var intent := journal.after.value;
      var desired := Updated(target, intent.targetDelivery, intent.targetIdentity);
      if desired != intent.target {
        return Refused;
      }
      v := ReplaceTarget(target, desired);
      if !v.Proceed? {
        return;
      }
      if quiet {
        SettledElsewhere(journal, old(world), world, publishers, false);
      }
      var alive := Effect();
      if !alive {
        return Interrupted;
      }
      if world.source != source {
        return Refused;
      }
      var updated := Updated(source, intent.sourceDelivery, intent.sourceIdentity);
      if updated != intent.source {
        return Refused;
      }
      if quiet {
        CommitTracks(journal, world, base, publishers);
      }
      journal := journal.(phase := Published);
      world := world.(source := updated);
      record := Some(journal);
    }

    /** The gates before any document may be published; both are rechecked after the slow ones. */
    method AdmitPublication(probes: Probes) returns (v: Verdict, source: Document, target: Document)
      requires Inv() && record == Some(journal) && probes.tokens.Keys == publishers && probes.nonces.Keys == publishers
      requires quiet ==> FreshProbes(publishers, journal, world, probes)
      modifies this`fuse, this`world
      ensures Kept(v)
      ensures quiet ==> OnlyProbes(old(world), world, probes.tokens, probes.stamp)
      ensures quiet && v.Proceed? ==> world == old(world) && source == world.source && target == world.target
      ensures v.Proceed? ==> InputsOk(journal, source, target)
      ensures v.Proceed? ==> journal.phase.Prepared? || journal.phase.Publishing? || journal.phase.Published?
      ensures (quiet && (journal.phase.Prepared? || journal.phase.Publishing? || journal.phase.Published?)
                && SnapshotsFit(publishers, old(world))) ==> !v.Refused?
    {
      hide GrantShape, IntentShape, PublisherTracks, Later, InputsOk, FreshProbes, Storable, RowsFit;
      LaterRefl(journal);
      NoProbes(world, probes.tokens, probes.stamp);
      source, target := world.source, world.target;
      if !journal.phase.Prepared? && !journal.phase.Publishing? && !journal.phase.Published? {
        return Refused, source, target;
      }
      if quiet {
        InputsNeverRefused(publishers, journal, world, base);
      }
      if !InputsOk(journal, source, target) {
        return Refused, source, target;
      }
      var alive := Effect();            // the target itself verifies
      if !alive {
        return Interrupted, source, target;
      }
      v := VerifyRoutes(probes);
      source, target := world.source, world.target;
      if v.Proceed? && !InputsOk(journal, source, target) {
        v := Refused;
      }
    }

    /**
     One attempt at publication, from the durable record.  Without other writers it finishes,
     unless it is cut short, exactly when the fleet is ready and has room, and finishing moves
     both documents and every row to the recorded end.
     */
    method Publish(d: DeliveryDraft, probes: Probes) returns (v: Verdict)
      requires Inv() && record.Some? && probes.tokens.Keys == publishers && probes.nonces.Keys == publishers
      requires quiet ==> FreshProbes(publishers, record.value, world, probes)
      modifies this
      ensures Kept(v)
      ensures v.Proceed? ==> record.value.phase.Published?
      ensures record == old(record) || record.value.phase.Publishing? || record.value.phase.Published?
      ensures v.Proceed? && quiet ==> Migrated(record.value, world, publishers)
      // A publication that starts here delivers this draft: to each document its own deliveries.
      ensures old(record.value).after.None? && record.value.after.Some? ==> Drafted(record.value, d)
      ensures v.Proceed? && quiet && old(record.value).phase.Prepared? ==>
                && DeliveredTo(old(record.value).sourceBefore, world.source, old(record.value).devices, d.source, d.identity)
                && DeliveredTo(old(record.value).candidate, world.target, old(record.value).devices, d.target, d.identity)
      ensures v.Proceed? && quiet ==> Publishable(first, publishers, size, old(record.value), old(world), d)
      ensures quiet && Publishable(first, publishers, size, old(record.value), old(world), d) ==> !v.Refused?
      ensures quiet ==> StraysKept(old(record.value), old(world), world, probes.tokens, probes.stamp)
    {
      hide StraysKept, Shape, Tracks, Later, OnlyGrants, OnlyGrantRows, OnlyProbes, InputsOk, Settled, PairReady, SnapshotsClean,
           AllRecordable, Storable, Snapshotable, RowsFit, EndRows, Startable, Fresh, DeliveredTo;
      journal := record.value;
      PreparedAlone(publishers, journal);
      ProbesUnknown(probes);
      var source, target;
      v, source, target := AdmitPublication(probes);
      if quiet {
        ProbesKeepStrays(journal, old(world), world, probes.tokens, probes.stamp);
      }
      if !v.Proceed? {
        return;
      }
      if journal.phase.Prepared? {
        PreparedInputs(publishers, journal, source, target);
        v := StartPublication(d, source, target);
        if !v.Proceed? {
          return;
        }
      }
      ghost var started := record.value;
      SameReady(first, publishers, old(record.value), started, old(world), false);
      SameEnds(old(record.value), started, old(world), publishers, false);
      AfterSome(publishers, started);
      v := FinishPublication(source, target);
      LaterTransitive(old(record.value), started, record.value);
      StartedDrafted(old(record.value), started, record.value, d);
      if quiet {
        GrantsKeepStrays(old(record.value), started, old(world), world, probes.tokens, probes.stamp);
      }
      if v.Proceed? && quiet {
        PublishedIsMigrated(record.value, world, base, publishers);
      }
    }

    lemma ProbesUnknown(probes: Probes)
      requires record.Some? && probes.tokens.Keys == publishers && probes.nonces.Keys == publishers
      requires quiet ==> FreshProbes(publishers, record.value, world, probes)
      ensures quiet ==> forall a | a in probes.tokens :: probes.tokens[a] !in record.value.grants
    {
      if quiet {
        forall a | a in probes.tokens
          ensures probes.tokens[a] !in record.value.grants
        {
          assert Fresh(record.value, world, a, probes.tokens[a], probes.stamp, probes.nonces[a]);
        }
      }
    }

    /** Bring every row to its new end, confirm that, then commit both documents. */
    method FinishPublication(source: Document, target: Document) returns (v: Verdict)
      requires Reconcilable(false)
      requires quiet ==> source == world.source && target == world.target
      modifies this
      ensures Kept(v)
      ensures quiet ==> OnlyGrantRows(old(journal), old(world), world, false)
      ensures record == old(record) || record.value.phase.Published?
      ensures v.Proceed? ==> record == Some(journal) && journal.phase.Published?
      ensures v.Proceed? && quiet ==>
                Ready(first, publishers, old(journal), old(world), false) && EndFits(old(journal), old(world), publishers, false)
      ensures quiet && Ready(first, publishers, old(journal), old(world), false) && EndFits(old(journal), old(world), publishers, false) ==>
                !v.Refused?
    {
      hide Shape, Tracks, Later, Settled, Storable, Ready, EndFits, SnapshotsFit, RowsMoved;
      v := Reconcile(false, false);
      ghost var reconciled := world;
      if quiet {
        MovedFrom(journal, old(world), reconciled, reconciled, false);
      }
      if !v.Proceed? {
        return;
      }
      if quiet {
        Confirmable(first, publishers, journal, old(world), reconciled, false);
      }
      v := Reconcile(false, true);
      if !v.Proceed? {
        return;
      }
      v := CommitPublication(source, target);
      if quiet {
        MovedFrom(old(journal), old(world), reconciled, world, false);
      }
    }

    /** Restore the target candidate, then the source registry together with `rolled-back`. */
    method CommitRollback(source: Document, target: Document) returns (v: Verdict)
      requires Inv() && record == Some(journal) && journal.phase.RollingBack?
      requires journal.after.Some? && journal.undo.Some?
      requires quiet ==> source == world.source && target == world.target && Settled(journal, world, publishers, true)
      requires quiet ==> journal.undo.value == UndoOf(journal, source, target)
      modifies this
      ensures Kept(v)
      ensures v.Proceed? ==> record == Some(journal) && journal.phase.RolledBack?
      ensures record.value.phase.RolledBack? || record == old(record)
      ensures quiet && !record.value.phase.RolledBack? ==> world.source == old(world).source
      ensures quiet ==> !v.Refused? && world.target.identity == old(world).target.identity
      ensures quiet ==> world.pubs == old(world).pubs && world.due == old(world).due
    {
      hide GrantShape, IntentShape, RowTracks, PublisherTracks, Later, Settled, Storable;
      ShapeRolledBack(publishers, journal);
      RestoredSource(publishers, journal);
      LaterRefl(journal);
      v := ReplaceTarget(target, journal.undo.value.target);
      if !v.Proceed? {
        return;
      }
      if quiet {
        SettledElsewhere(journal, old(world), world, publishers, true);
      }
      var alive := Effect();
      if !alive {
        return Interrupted;
      }
      if world.source != source {
        return Refused;
      }
      var restored := Updated(source, journal.after.value.registryBefore, None);
      if quiet {
        RollbackTracks(journal, world, base, publishers, restored);
      }
      journal := journal.(phase := RolledBack);
      world := world.(source := restored);
      record := Some(journal);
    }

    /** Put every row back, confirm that, then restore both documents. */
    method FinishRollback(source: Document, target: Document) returns (v: Verdict)
      requires Reconcilable(true) && journal.undo.Some?
      requires quiet ==> source == world.source && target == world.target
      requires quiet ==> journal.undo.value == UndoOf(journal, source, target)
      modifies this
      ensures Kept(v)
      ensures quiet ==> OnlyGrantRows(old(journal), old(world), world, true)
      ensures quiet ==> world.target.identity == old(world).target.identity
      ensures v.Proceed? ==> record == Some(journal) && journal.phase.RolledBack?
      ensures record.value.phase.RolledBack? || record == old(record)
      ensures quiet && !record.value.phase.RolledBack? ==> world.source == old(world).source
      ensures v.Proceed? && quiet ==>
                Ready(first, publishers, old(journal), old(world), true) && EndFits(old(journal), old(world), publishers, true)
      ensures quiet && Ready(first, publishers, old(journal), old(world), true) && EndFits(old(journal), old(world), publishers, true) ==>
                !v.Refused?
    {
      hide Shape, Tracks, Later, Settled, Storable, Ready, EndFits, SnapshotsFit, RowsMoved, UndoOf;
      v := Reconcile(true, false);
      ghost var reconciled := world;
      if quiet {
        MovedFrom(journal, old(world), reconciled, reconciled, true);
      }
      if !v.Proceed? {
        return;
      }
      if quiet {
        Confirmable(first, publishers, journal, old(world), reconciled, true);
      }
      v := Reconcile(true, true);
      if !v.Proceed? {
        return;
      }
      v := CommitRollback(source, target);
      if quiet {
        MovedFrom(old(journal), old(world), reconciled, world, true);
      }
    }

    /**
     One attempt at rolling back, from the durable record.  A prepared migration is just
     abandoned; rolled back is terminal; anything in between is put back row by row.
     Without other writers it finishes, unless it is cut short, exactly when it is possible.
     */
    method Rollback() returns (v: Verdict)
      requires Inv() && record.Some?
      modifies this
      ensures Kept(v)
      ensures v.Proceed? ==> record.value.phase.RolledBack?
      ensures v.Proceed? && quiet ==> Undone(record.value, world, base, publishers)
      ensures quiet ==> world.target.identity == old(world).target.identity
      ensures v.Proceed? && quiet ==> Rollbackable(first, publishers, size, old(record.value), old(world))
      ensures quiet && Rollbackable(first, publishers, size, old(record.value), old(world)) ==> !v.Refused?
      ensures quiet ==> OnlyGrantRows(old(record.value), old(world), world, true)
      // Until it is done, neither the source nor the journal it saved changes any more.
      ensures quiet && !record.value.phase.RolledBack? ==> world.source == old(world).source
      ensures quiet ==>
                || record.value.phase.RolledBack? || record == old(record)
                || (Moving(old(record).value) && record.value == Rolling(old(record).value, old(world).source, old(world).target))
    {
      hide Shape, Tracks, Later, OnlyGrantRows, Ready, EndFits, InputsOk, UndoOf, Storable;
      journal := record.value;
      LaterRefl(journal);
      NothingMoved(journal, world, true);
      MovedFrom(journal, world, world, world, true);
      if journal.phase.RolledBack? {
        if quiet {
          RolledBackIsUndone(journal, world, base, publishers);
        }
        return Proceed;
      }
      var source, target := world.source, world.target;
      if quiet && !journal.phase.Preparing? {
        InputsNeverRefused(publishers, journal, world, base);
      }
      if !InputsOk(journal, source, target) || journal.phase.Preparing? {
        return Refused;
      }
      if journal.phase.Prepared? {
        v := Abandon(source);
      } else {
        v := PutBack(source, target);
      }
    }

    /** A prepared migration has moved nothing yet. */
    method Abandon(source: Document) returns (v: Verdict)
      requires Inv() && record == Some(journal) && journal.phase.Prepared? && (quiet ==> source == world.source)
      modifies this
      ensures Kept(v)
      ensures quiet ==> world == old(world)
      ensures v.Proceed? ==> record.value.phase.RolledBack?
      ensures record.value.phase.RolledBack? || record == old(record)
      ensures v.Proceed? && quiet ==> Undone(record.value, world, base, publishers)
      ensures v.Proceed? ==> Storable(size, source, old(journal).(phase := RolledBack))
      ensures quiet && Storable(size, source, old(journal).(phase := RolledBack)) ==> !v.Refused?
    {
      hide Shape, Tracks, Later, Storable;
      LaterRefl(journal);
      ShapeRolledBack(publishers, journal);
      if quiet {
        AbandonTracks(publishers, journal, world, base);
      }
      journal := journal.(phase := RolledBack);
      v := Save(source);
      if v.Proceed? && quiet {
        RolledBackIsUndone(journal, world, base, publishers);
      }
    }

    /** Save the undo half first, then put back rows and documents. */
    method PutBack(source: Document, target: Document) returns (v: Verdict)
      requires Inv() && record == Some(journal)
      requires journal.phase.Publishing? || journal.phase.Published? || journal.phase.RollingBack?
      requires quiet ==> source == world.source && target == world.target
      modifies this
      ensures Kept(v)
      ensures v.Proceed? ==> record.value.phase.RolledBack?
      ensures v.Proceed? && quiet ==> Undone(record.value, world, base, publishers)
      ensures quiet ==> world.target.identity == old(world).target.identity
      ensures v.Proceed? && quiet ==> Rollbackable(first, publishers, size, old(journal), old(world))
      ensures quiet && Rollbackable(first, publishers, size, old(journal), old(world)) ==> !v.Refused?
      ensures quiet ==> OnlyGrantRows(old(journal), old(world), world, true)
      ensures quiet && !record.value.phase.RolledBack? ==> world.source == old(world).source
      ensures Moving(old(journal))
      ensures record.value.phase.RolledBack? || record == old(record) || record.value == Rolling(old(journal), source, target)
    {
      hide Shape, Tracks, Later, OnlyGrantRows, Ready, EndFits, UndoOf, Storable;
      AfterSome(publishers, journal);
      ghost var j := journal;
      LaterRefl(journal);
      NothingMoved(journal, world, true);
      MovedFrom(journal, world, world, world, true);
      ShapeRollingBack(publishers, journal, UndoOf(journal, source, target));
      if quiet {
        RollingBackTracks(publishers, journal, world, base);
      }
      journal := Rolling(journal, source, target);
      v := Save(source);
      if !v.Proceed? {
        return;
      }
      ghost var started := record.value;
      SameUndo(j, started, source, target);
      SameReady(first, publishers, j, started, old(world), true);
      SameEnds(j, started, old(world), publishers, true);
      v := FinishRollback(source, target);
      LaterTransitive(j, started, record.value);
      if quiet {
        SameGrantRows(j, started, old(world), world);
      }
      if v.Proceed? && quiet {
        RolledBackIsUndone(record.value, world, base, publishers);
      }
    }

    /** Take over the live grants of the source namespace, one by one. */
    method SelectGrants(d: MigrationDraft, pub: Publisher) returns (ok: bool, grants: map<Token, MigrationGrant>)
      ensures ok <==> Complete(d, |publishers| > 1, pub)
      ensures ok ==> grants == FirstGrants(first, d.devices, |publishers| > 1, pub, d.rendered)
    {
      grants := map[];
      var todo := pub.rows.Keys;
      while todo != {}
        invariant todo <= pub.rows.Keys
        invariant forall t :: t in grants <==> t !in todo && Selected(d.devices, |publishers| > 1, pub, t)
        invariant forall t | t in grants ::
                    && grants[t] == FirstGrant(first, d.devices, pub.rows[t], Rendered(d.rendered, t))
                    && (pub.rows[t].client in d.devices ==> t in d.rendered)
      {
        var t :| t in todo;
        todo := todo - {t};
        if Selected(d.devices, |publishers| > 1, pub, t) {
          if pub.rows[t].client in d.devices && t !in d.rendered {
            return false, grants;
          }
          grants := grants[t := FirstGrant(first, d.devices, pub.rows[t], Rendered(d.rendered, t))];
        }
      }
      ok := true;
    }

    /** Save the intent to migrate before anything else changes. */
    method StartPreparation(d: MigrationDraft) returns (v: Verdict)
      requires Inv() && record.None?
      modifies this
      ensures Kept(v)
      ensures quiet ==> world == old(world)
      ensures v.Proceed? ==> record == Some(journal) && journal.phase.Preparing?
      ensures v.Proceed? && quiet ==>
                && PreparationFits(first, publishers, size, d, world)
                && journal == FirstOf(first, publishers, d, world.source, world.target, world.pubs[first])
      ensures quiet && PreparationFits(first, publishers, size, d, world) ==> !v.Refused?
      ensures !v.Proceed? ==> record.None?
    {
      hide Later, Snapshotable, Storable, Complete, FirstGrants, Shape, Tracks, FirstJournal;
      var source, target := world.source, world.target;
      var pub;
      v, pub := TakeSnapshot(first);
      if !v.Proceed? {
        return;
      }
      if (|publishers| > 1 && pub.bootstrap != 0)
        || !(d.devices <= source.registry.Keys && d.devices <= d.candidate.registry.Keys)
        || (d.devices != {} && source.identity.None?) {
        return Refused;
      }
      var ok, grants := SelectGrants(d, pub);
      if !ok {
        return Refused;
      }
      journal := Journal(Preparing, source, target, d.candidate, d.devices, grants, None, None);
      ghost var seen := World(source, target, map[first := pub], world.due);
      FirstInStep(first, publishers, d, seen);
      if quiet {
        FirstInStep(first, publishers, d, world);
      }
      v := Save(source);
    }

    /** Bring the target to its prepared candidate, then record that. */
    method FinishPreparation() returns (v: Verdict)
      requires Inv() && record == Some(journal) && journal.phase.Preparing?
      modifies this
      ensures Kept(v)
      ensures v.Proceed? ==> record == Some(journal) && journal.phase.Prepared?
      ensures record == old(record) || record == Some(old(journal).(phase := Prepared))
      ensures quiet ==> !v.Refused?
      ensures quiet ==> world == old(world) || world == old(world).(target := old(journal).candidate)
      ensures quiet && record != old(record) ==> world.target == old(journal).candidate
    {
      hide PublisherTracks, GrantShape, IntentShape, Later;
      LaterRefl(journal);
      var source, target := world.source, world.target;
      if source != journal.sourceBefore || (target != journal.targetBefore && target != journal.candidate) {
        return Refused;
      }
      var alive := Effect();            // additional sources and endpoints are rechecked
      if !alive {
        return Interrupted;
      }
      v := ReplaceTarget(target, journal.candidate);
      if !v.Proceed? {
        return;
      }
      ShapePrepared(publishers, journal);
      if quiet {
        PreparedTracks(publishers, journal, world, base);
      }
      journal := journal.(phase := Prepared);
      v := Save(source);
    }

    /**
     One attempt at preparation, from nothing or from the durable record.  Without other
     writers and from nothing it finishes, unless it is cut short, exactly when the source
     namespace, the draft and the room for the journal allow it.
     */
    method Prepare(d: MigrationDraft) returns (v: Verdict)
      requires Inv()
      modifies this
      ensures Kept(v)
      ensures v.Proceed? ==> record.Some? && 1 <= Rank(record.value.phase) <= 3
      ensures quiet && old(record).None? && v.Proceed? ==> PreparationFits(first, publishers, size, d, old(world))
      ensures quiet && old(record).None? && PreparationFits(first, publishers, size, d, old(world)) ==> !v.Refused?
      ensures quiet && old(record).None? && record.Some? ==>
                && first in old(world).pubs
                && var j := FirstOf(first, publishers, d, old(world).source, old(world).target, old(world).pubs[first]);
                   record == Some(j) || record == Some(j.(phase := Prepared))
      ensures quiet && old(record).Some? ==> (v.Refused? <==> Rank(old(record).value.phase) > 3)
      ensures old(record).Some? ==>
                record == old(record) || (old(record).value.phase.Preparing? && record == Some(old(record).value.(phase := Prepared)))
      ensures quiet ==> world == old(world) || (record.Some? && world == old(world).(target := record.value.candidate))
      ensures quiet && record != old(record) && record.value.phase.Prepared? ==> world.target == record.value.candidate
    {
      hide Shape, Tracks, Later, InputsOk, Storable, PreparationFits;
      if record.None? {
        v := StartPreparation(d);
        if !v.Proceed? {
          return;
        }
        assert quiet ==> first in old(world).pubs by { FirstAnswers(first, publishers, size, d, world, quiet); }
        v := FinishPreparation();
        return;
      }
      journal := record.value;
      LaterRefl(journal);
      if journal.phase.RollingBack? || journal.phase.RolledBack? {
        return Refused;
      }
      if journal.phase.Preparing? {
        v := FinishPreparation();
        return;
      }
      if quiet {
        InputsNeverRefused(publishers, journal, world, base);
      }
      v := if InputsOk(journal, world.source, world.target) then Proceed else Refused;
    }

    method PassTime(stamp: string)
      requires Inv() && record.Some?
      modifies this`world
      ensures Inv() && world == Elapsed(old(world), stamp)
    {
      if quiet {
        ElapsedTracks(record.value, world, base, stamp);
      }
      world := Elapsed(world, stamp);
    }

    /**
     Any number of publication attempts, each cut short anywhere and followed by the expiry of
     the route probes it may have left, then one that is not: both documents and every row
     reach the recorded end.
     */
    method ResumePublication(attempts: seq<Attempt>) returns (v: Verdict)
      requires quiet && Inv() && record.Some? && attempts != []
      requires Resumable(first, publishers, size, record.value, world, attempts)
      modifies this
      ensures Inv() && record.Some? && Later(old(record).value, record.value)
      ensures v.Proceed? && Migrated(record.value, world, publishers)
      ensures old(record).value.after.None? ==> DraftedBy(record.value, attempts, |attempts|)
    {
      hide Shape, Tracks, Later, Publishable, AllFresh, StraysKept, PeakFits, Storable, Drafted, DraftedBy;
      var i := 0;
      LaterRefl(record.value);
      while i < |attempts| - 1
        invariant 0 <= i <= |attempts| - 1
        invariant Inv() && record.Some? && Later(old(record).value, record.value)
        invariant Resumable(first, publishers, size, record.value, world, attempts[i..])
        invariant old(record).value.after.None? && record.value.after.Some? ==> DraftedBy(record.value, attempts, i)
      {
        ghost var j, w := record.value, world;
        ghost var rest := attempts[i..];
        assert rest[0] == attempts[i] && rest[1..] == attempts[i + 1..];
        FirstFresh(first, publishers, size, j, w, rest);
        fuse := attempts[i].crash;
        v := Publish(attempts[i].draft, attempts[i].probes);
        ghost var j', w' := record.value, world;
        PassTime(attempts[i].probes.stamp);
        LaterTransitive(old(record).value, j, j');
        if old(record).value.after.None? {
          DraftedNext(j, j', attempts, i);
        }
        StillResumable(first, publishers, size, j, j', w, w', base, rest);
        i := i + 1;
      }
      ghost var j := record.value;
      ghost var rest := attempts[i..];
      assert rest[0] == attempts[i];
      FirstFresh(first, publishers, size, j, world, rest);
      fuse := -1;
      v := Publish(attempts[i].draft, attempts[i].probes);
      LaterTransitive(old(record).value, j, record.value);
      if old(record).value.after.None? {
        DraftedNext(j, record.value, attempts, i);
      }
    }

    /**
     Rollback from any point of a publication, however often interrupted: every row back at
     its predecessor, the source exactly as before, the target its candidate with whatever
     delivery identity had been committed to it.
     */
    method ResumeRollback(crashes: seq<nat>) returns (v: Verdict)
      requires quiet && Inv() && record.Some?
      requires Rollbackable(first, publishers, size, record.value, world) && RollbackRoom(record.value, world, publishers)
      modifies this
      ensures Inv() && record.Some? && Later(old(record).value, record.value)
      ensures v.Proceed? && Undone(record.value, world, base, publishers)
      ensures world.target.identity == old(world).target.identity
    {
      hide Shape, Tracks, Later, Rollbackable, RollbackRoom, OnlyGrantRows, Storable;
      LaterRefl(record.value);
      for i := 0 to |crashes|
        invariant Inv() && record.Some? && Later(old(record).value, record.value)
        invariant Rollbackable(first, publishers, size, record.value, world) && RollbackRoom(record.value, world, publishers)
        invariant world.target.identity == old(world).target.identity
      {
        ghost var j, w := record.value, world;
        fuse := crashes[i];
        v := Rollback();
        LaterTransitive(old(record).value, j, record.value);
        StillRollbackable(first, publishers, size, j, record.value, w, world);
      }
      ghost var j := record.value;
      fuse := -1;
      v := Rollback();
      LaterTransitive(old(record).value, j, record.value);
    }

    /**
     A whole migration: any number of preparations cut short anywhere, one that is not, any
     number of publications cut short anywhere, and one that is not.  The journal of the
     first preparation that got to save one decides what is moved.
     */
    method Migrate(preparations: seq<Preparation>, attempts: seq<Attempt>) returns (v: Verdict, ghost d: MigrationDraft)
      requires quiet && Inv() && record.None? && preparations != [] && attempts != []
      requires forall i | 0 <= i < |preparations| ::
                 Migratable(first, publishers, size, preparations[i].draft, world, attempts)
      modifies this
      ensures Inv() && v.Proceed? && record.Some? && Migrated(record.value, world, publishers)
      ensures exists i :: 0 <= i < |preparations| && preparations[i].draft == d
      ensures first in old(world).pubs
      ensures Later(FirstOf(first, publishers, d, old(world).source, old(world).target, old(world).pubs[first]), record.value)
      ensures exists i :: 0 <= i < |attempts| && Delivers(old(world), world, d, attempts[i].draft)
    {
      hide Shape, Tracks, Later, Migratable, FirstOf, Migrated, Resumable, DraftedBy, Delivers;
      var i := 0;
      d := preparations[0].draft;
      while i < |preparations| - 1
        invariant 0 <= i <= |preparations| - 1
        invariant Inv() && exists k :: 0 <= k < |preparations| && preparations[k].draft == d
        invariant Underway(first, publishers, d, record, old(world), world)
      {
        ghost var r, w := record, world;
        fuse := preparations[i].crash;
        v := Prepare(preparations[i].draft);
        ghost var e := if r.None? then preparations[i].draft else d;
        UnderwayStep(first, publishers, d, e, r, record, old(world), w, world);
        d := e;
        i := i + 1;
      }
      fuse := -1;
      ghost var r, w := record, world;
      ghost var e := if r.None? then preparations[i].draft else d;
      PreparedNext(first, publishers, size, e, old(world), attempts);
      v := Prepare(preparations[i].draft);
      UnderwayStep(first, publishers, d, e, r, record, old(world), w, world);
      d := e;
      ghost var j := record.value;
      FirstLater(first, publishers, d, old(world), world, j);
      v := ResumePublication(attempts);
      LaterTransitive(FirstOf(first, publishers, d, old(world).source, old(world).target, old(world).pubs[first]), j, record.value);
      MigrationDelivers(first, publishers, d, old(world), world, record.value, attempts);
    }
  }
}
