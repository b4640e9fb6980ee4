# A Dafny model of the device and publication protocols

This project models the stateful and arithmetic core of a VPN fleet toolkit and proves what its
protocols keep, over all inputs, all interruptions and all histories.  Every file is one module;
`dafny verify dfyconfig.toml` checks the whole project.

| component | modules |
|---|---|
| compare-and-swap and snapshot limits of one subscription publisher | `SubscriptionPublisher`, `Sums` |
| resumable fleet device operation | `LifecycleJournal`, `LifecycleFleet`, `LifecycleSteps`, `LifecycleProbes`, `LifecycleSizes`, `LifecyclePreparation`, `LifecycleRoom`, `LifecycleResume`, `DeviceLifecycle` |
| two-document migration with publication and rollback | `MigrationJournal`, `MigrationSteps`, `MigrationRoom`, `MigrationAttempts`, `DeviceMigration` |
| kill-switch resolver and the profile generator it accepts | `OutboundGraph`, `KillSwitch`, `ClientPayload` |
| loopback relay and reloading dataset cache | `ClassifierProxy`, `DatasetCache` |
| geoip.dat parser and address classifier | `ProtobufWire`, `Utf8`, `GeoIp`, `GeoIpDataset` |
| address allocation, issuing, revoking and migrating credentials | `AddressPool`, `DeviceAuthority`, `DeviceCredentials`, `CredentialLaws`, `MigrationCredentials`, `MigrationLaws`, `MigrationMeaning`, `MigrationAdmission` |
| three-file publication with rollback | `BackupConfigure`, `BackupLaws` |
| inventory parser, merge and printer | `Inventory`, `InventoryLaws` |

## How interruptions, faults and other writers are modelled

A controller is a class whose `fuse` counts the effects left before the process dies; a negative fuse
never burns.  Every effect on a document, publisher or runtime is preceded by such a point, so a run may
end between any two effects, and every method states what holds however it ends.  A foreign check that
raises ends a run in the same way.  When the constant `quiet` is false, other writers may change the
fleet arbitrarily at each of these points: safety (evidence, order of effects, compare-and-swap) is
claimed for both cases, convergence and absence of refusals only without foreign writers.  Partial
reads and writes, would-block answers, readiness, instants at which a file is looked at, and the outcome
of every write of the backup publication are nondeterministic or parameters.

## Assumptions

- Hashes and fingerprints are injective, so documents are compared directly.
- A document rewrite is one atomic read, transform and write.
- A publisher answers requests with `SubscriptionPublisher.CompareAndSwap`, and reads its deny list on every
  request (ansible/roles/subscription-host/tasks/revoked-hashes.yml:2-14), so adopting a runtime also
  replaces that list.
- Random identities, tokens, keys and rendered profiles are parameters; freshness is required only where
  a row would otherwise be overwritten.  A route probe has its fixed size, an expiry stamp of its own, and is not
  expired when it is published.
- A stored document has the size of its compact JSON text with a one-line ASCII payload, a deny list one line
  for each hash.  The size of a migration's source document is any function of the document and the journal, to
  which only the name of the phase adds a known length; of a lifecycle journal, only the recorded intent is an
  unknown number of bytes that no save changes.
- `transport_errors`, `registry_errors`, `awg_errors` and format checks are uninterpreted predicates; where
  AmneziaWG is enabled, admitting a whole document includes admitting its AmneziaWG part
  (scripts/transport_semantics.py:917-918).
- Only the byte strings `ru`, `rU`, `Ru` and `RU` upper-case to `RU`.
- One read of the dataset file returns one version of it.

## Results that differ from what a reader might expect

- **A refresh can be accepted and never finish.** Preparation looks at the rows of a publisher, the fence and
  the final confirmation at what its adopted deny list says.  `LifecyclePreparation.RefreshDeliverable` gives
  the exact condition, `LifecyclePreparation.RefreshCanStick` an instance.
- **An accepted operation can outgrow its snapshots.** A publisher takes any number of documents, but no snapshot
  has more than 256 or more than 2 MiB of them, and every resumption takes snapshots first.  A revocation at a
  publisher of exactly 256 documents is accepted and sticks (`LifecycleRoom.FullPublisherSticks`); a migration to one
  can be neither published nor rolled back once it began to move grants (`MigrationAttempts.FullTargetSticks`).
  `DeviceLifecycle.Lifecycle.Run`, `DeviceMigration.Migration.Publish` and `DeviceMigration.Migration.Rollback` give the
  exact conditions.  For a device operation every stage of its grants, delivered in the order of the plan, has to fit:
  a refresh that renews one grant by a longer document before it shortens another needs the room in between
  (`LifecycleRoom.RoomIsReadable` reads this off the fleet and the draft before anything is published).
- **Interrupted route checks leave probes behind.** A device operation goes on over them and leaves them where they
  are, as long as there is room for one more document, and unless the device is named `migration-route-check`
  (`LifecycleProbes.LeftoverProbeAccepted`, `DeviceLifecycle.Lifecycle.Recover`).  A migration that moves publishers can
  be neither published nor rolled back over a probe in the namespace to be emptied until it expires; other probes only
  take room, unless the migration is about a device of that name (`MigrationSteps.LeftoverProbeStops`,
  `MigrationSteps.KilledCheckStops`, `MigrationSteps.LiveOnceElapsed`).
- **A journal can outgrow its limit while it is being filled.** Every plan has intents whose first journal is saved
  while no run from before any cleanup can finish (`LifecycleRoom.JournalOutgrows`).  What a run saves depends on the
  grants recorded before it began, since the phase with the longest name is entered again on every resumption: a run
  from before any cleanup proceeds only if that much fits (`DeviceLifecycle.Lifecycle.Run`), and no run of any history
  saves more than the full journal (`LifecycleSizes.JournalBelow`).
- **No finding does not mean no cycle** in the outbound graph (`OutboundGraph.CycleBehindDirect`).
- **The dataset cache can answer with foreign content** when the file is replaced and put back between the two looks of
  a reload, as by a symbolic link pointed elsewhere and back, even if every signature names one content
  (`DatasetCache.ReplacedAndPutBack`); it is coherent iff the life of the file is stable.
- **Revoking after issuing restores cohort lists only if none named the device beforehand**
  (`CredentialLaws.RevokeUndoesIssue`), and a device issued into a collection of 256 rows cannot be revoked
  (`CredentialLaws.IssuedIsRevocable`, `CredentialLaws.FullCollectionSticks`).
- **A cohort reference survives revocation** exactly in a document that names the device nowhere else
  (`CredentialLaws.RevokeRemovesAll`, `CredentialLaws.CohortReferenceSurvives`).
- **A backup publication can release mixed files** in exactly one situation: the write of the status `complete`
  raised after replacing the file, and the rollback did not get to replace it
  (`BackupLaws.MixedFilesAreHeld`, `BackupLaws.MixedFilesReleased`).
- **An empty variable section only the rendering has makes the inventory merge fail** with a missing key, where
  the preceding comparison treats both sides as equal (`InventoryLaws.MergeAccepted`,
  `InventoryLaws.NewEmptyVariablesRefused`).
- **A /0 range written by an encoder that omits default values is refused** (`GeoIpDataset.RangeRead`).

## Model

| member | source | states |
|---|---|---|
| SubscriptionPublisher.CompareAndSwap | ansible/roles/subscription-host/templates/vpn-bootstrap.py.j2:422-492 | an accepted request leaves exactly the desired document and moves nothing else; an admissible one is accepted iff the row is what the caller expected or already what it desires, and repeating it changes nothing; how many documents there are is not asked |
| SubscriptionPublisher.AcceptedExactly | ansible/roles/subscription-host/templates/vpn-bootstrap.py.j2:422-492 | a request is accepted iff the deny list can be read, something is desired or expected, nothing involved has elapsed or is created against the deny list, client and expiry stay, and the row is the expected or the desired one |
| SubscriptionPublisher.MeasureSnapshot | ansible/roles/subscription-host/templates/vpn-bootstrap.py.j2:386-419 | a snapshot can be taken iff the namespace has at most 256 documents of together at most 2 MiB and its deny list fits one read; summing up in any order decides it |
| SubscriptionPublisher.OneTooMany | ansible/roles/subscription-host/templates/vpn-bootstrap.py.j2:411-412 | a publisher of exactly 256 documents accepts one more, and no snapshot of it can be taken afterwards |
| LifecycleJournal.AllowedAt | scripts/device_lifecycle.py:298-394 | every effect in the log of any number of interrupted runs happened after everything it rests on |
| LifecycleJournal.DeletionIsLast | scripts/device_lifecycle.py:302-391 | a canary is deleted only after it was served and read, all nodes were written, all runtimes adopted, all grants confirmed, its denial observed and the intent to delete it saved |
| LifecycleJournal.AdvancesTransitive | scripts/device_lifecycle.py:302-392 | journal evidence only grows and the intent never changes, across any number of saves |
| LifecycleFleet.FenceNeverRefuses | scripts/device_lifecycle.py:251-280 | no fleet that an interrupted deliverable operation can leave makes the fence refuse, its snapshots included, if every publisher has room for each stage of its grants |
| LifecycleFleet.FenceMeans | scripts/device_lifecycle.py:251-280 | the fence accepts a fleet iff the source is unchanged, each document is final or, until it is recorded, as it was, every snapshot fits and holds no bootstrap grant, and each row of the device is a grant as recorded and served, the canary, or an inactive one during a refresh |
| LifecycleFleet.CompleteIsFinal | scripts/device_lifecycle.py:357-393 | with all evidence in, the fleet equals one function of the plan and of the admitted fleet together with the route probes left behind since, whatever interruptions happened |
| LifecycleFleet.FinalMeans | scripts/device_lifecycle.py:310-353 | node by node and row by row, the final fleet has the planned documents, the planned grants and otherwise the earlier rows, and the planned deny list and runtime exactly where an adoption was due |
| LifecycleFleet.FinalNeedsDeliverable | scripts/device_lifecycle.py:383-393 | an operation can only finish when the deny list each publisher adopts agrees with the grants to deliver |
| LifecyclePreparation.DenyAll | scripts/device_lifecycle.py:183-187 | the deny list keeps its order, gains exactly the missing tokens, and stays free of duplicates |
| LifecyclePreparation.MakePlan | scripts/device_lifecycle.py:63-96 | an admitted fleet whose registry entries, unfinished operations, approval and snapshots pass the review yields a well-formed plan: a revocation writes the candidate to every node, at publishers with the tokens of the device and the canary denied as well; any other operation writes the candidate; the recipient file is planned for an issue or a native delivery; issue and revoke are planned iff the review passes |
| LifecyclePreparation.ReviewMeans | scripts/device_lifecycle.py:63-96 | the review passes iff the draft is approved, nothing is unfinished, every snapshot fits and holds no bootstrap grant, and: an issue finds neither an entry nor a row of the device, a revocation finds one, a refresh finds live entries only and, unless delivery is native, a served row; a recipient file is never overwritten |
| LifecyclePreparation.RowsPlanned | scripts/device_lifecycle.py:165-205 | row by row, which documents a plan covers and with what: a revocation every row of the device, unchanged; a refresh its active rows with the renewed payload and the same expiry; an issue the one new grant; a native delivery none |
| LifecyclePreparation.DenyListsNeverBlock | scripts/device_lifecycle.py:135-211 | in an issue or a revocation that preparation accepts, deny lists and grants agree; what can still be in the way is room |
| LifecyclePreparation.RefreshDeliverable | scripts/device_lifecycle.py:190-198 | a refresh can be finished iff each document deny list agrees with the list its publisher runs on the unexpired rows of the device |
| LifecyclePreparation.RefreshCanStick | scripts/device_lifecycle.py:268-276 | a concrete refresh, admitted, reviewed and planned with exactly its renewed grants, that no run can finish because a document denies a token its publisher still serves |
| LifecyclePreparation.FirstJournalTracks | scripts/device_lifecycle.py:148-210 | the first saved journal is valid and describes the untouched fleet |
| LifecycleProbes.LeftoverProbeAccepted | scripts/device_lifecycle.py:258-269 | the fence still accepts a snapshot with a leftover route probe iff one more document of its size fits and the device is not itself named like the probe, unless a refresh passes over it as expired |
| LifecycleProbes.ProbeKeepsStep | scripts/device_migration_io.py:175-193 | a probe that is there changes the fleet and the fleet the operation started from alike, so nothing the journal says is disturbed |
| LifecycleProbes.LitterKeeps | scripts/device_migration_io.py:175-193 | in a fleet littered by leftover probes every other row, document, deny list and runtime is untouched, and every added row is a probe |
| LifecycleProbes.FinalLitter | scripts/device_lifecycle.py:298-394 | an operation over a littered fleet ends in the final fleet littered by the same number of probes |
| LifecycleSizes.MeasureJournal | scripts/device_lifecycle.py:98-100 | counting the entries of a journal gives the bytes that every save compares with its limit |
| LifecycleSizes.JournalBelow | scripts/device_lifecycle.py:98-100 | no journal that any history can save is larger than the full one of its plan |
| LifecycleSizes.JournalRoomExact | scripts/device_lifecycle.py:98-100 | every safe journal of a plan fits its limit iff the full journal does, which is one of them |
| LifecycleSizes.JournalBelowRun | scripts/device_lifecycle.py:321-353 | no save of a run is larger than what the grants recorded before it began allow: all nodes and runtimes in the phase with the longest name, or all grants in the next phase |
| LifecycleSizes.RunNeedsRoom | scripts/device_lifecycle.py:321-353 | the two largest journals of a run before cleanup fit only where the run has that much room |
| LifecycleRoom.JournalOutgrows | scripts/device_lifecycle.py:98-100 | every plan has intents whose first journal fits the limit although no run has the room it needs, whatever was recorded before it |
| LifecycleRoom.RoomIsReadable | scripts/device_lifecycle.py:135-211 | whether all publishers have room for every stage of a plan can be read off the fleet and the draft before anything is saved: one canary more at every publisher, one grant more at the issuer, or the renewed documents one after the other in their order |
| LifecycleRoom.RoomExact | scripts/device_lifecycle.py:251-280 | among all fleets in step with a safe journal, grants served in the order of the plan, none has more documents than a snapshot allows iff every stage of every publisher fits |
| LifecycleRoom.FullPublisherSticks | ansible/roles/subscription-host/templates/vpn-bootstrap.py.j2:411-412 | a concrete revocation at a publisher of exactly 256 documents: preparation accepts it, its canary is published, and no snapshot can be taken from then on |
| LifecycleResume.RebasedRoom | scripts/device_lifecycle.py:298-353 | what an interrupted operation still has to deliver never needs more room than it needed at first |
| LifecycleResume.Restored | scripts/device_lifecycle.py:298-353 | an attempt followed from the fleet as far as it had been delivered keeps step with the fleet the operation started from, up to the probe the attempt may have left |
| LifecycleSteps.ServeStep | scripts/device_lifecycle.py:302-309 | publishing a canary is accepted while the deny list fits, and the fleet still agrees with the journal before and after the positive flag is saved |
| LifecycleSteps.DeleteStep | scripts/device_lifecycle.py:375-382 | deleting a canary is accepted again and again around a crash while the deny list fits, and the fleet agrees with the journal on both sides |
| LifecycleSteps.DeniedStep | scripts/device_lifecycle.py:368-374 | a missing canary row is possible only once this journal recorded the start of its cleanup |
| LifecycleSteps.GrantStep | scripts/device_lifecycle.py:340-349 | a grant publication is never refused for a deliverable plan with room, and a revoked grant keeps its row |
| LifecycleSteps.WriteTracks | scripts/device_lifecycle.py:310-320 | a node document is its preimage or its final content at every point around the write |
| LifecycleSteps.AdoptedTracks | scripts/device_lifecycle.py:325-334 | recording an adoption keeps fleet and journal in agreement |
| LifecycleSteps.CanaryUpdate | scripts/device_lifecycle.py:302-382 | canary flags only turn true, on the evidence each stands for, and the journal stays valid |
| DeviceLifecycle.Lifecycle.Save | scripts/device_lifecycle.py:98-115 | a save makes the whole journal durable or changes nothing; without foreign writers it is refused only for its size, and never when the run has the room it needs |
| DeviceLifecycle.Lifecycle.Fence | scripts/device_lifecycle.py:251-280 | the fence reads documents and snapshots one after the other and accepts only fleets between the recorded preimages and results whose snapshots fit |
| DeviceLifecycle.Lifecycle.TakeSnapshots | scripts/device_lifecycle.py:55-61 | one publisher after the other answers with its namespace, or the first that does not fit refuses |
| DeviceLifecycle.Lifecycle.VerifyRoutes | scripts/device_lifecycle_io.py:235-240 | a probe is created and deleted again; an interruption in between leaves exactly its row, which the fence mistakes for a grant only of a device named like it |
| DeviceLifecycle.Lifecycle.ServeCanary | scripts/device_lifecycle.py:302-309 | one canary becomes positive, nothing else moves |
| DeviceLifecycle.Lifecycle.WriteNode | scripts/device_lifecycle.py:310-321 | one node document is replaced by its final content, at most once recorded |
| DeviceLifecycle.Lifecycle.AdoptRuntime | scripts/device_lifecycle.py:325-334 | one runtime adopts its document between two fences and is recorded |
| DeviceLifecycle.Lifecycle.PublishGrant | scripts/device_lifecycle.py:340-353 | after a fence that saw every namespace fit, one grant whose predecessors are all recorded is delivered or confirmed revoked, no other row moves, and it is recorded once |
| DeviceLifecycle.Lifecycle.PublishHost | scripts/device_lifecycle.py:337-353 | the route is checked and the grants are delivered in their order; where none had been delivered since the run began, every stage was seen to fit |
| DeviceLifecycle.Lifecycle.ObserveDenial | scripts/device_lifecycle.py:368-374 | the denial of a canary is recorded only when the snapshot showed it revoked, unexpired and unchanged, or its cleanup had started, and after the route of its publisher was checked |
| DeviceLifecycle.Lifecycle.CleanCanary | scripts/device_lifecycle.py:368-382 | a canary is denied and its route checked, its cleanup announced and its row deleted, in this order |
| DeviceLifecycle.Lifecycle.Finish | scripts/device_lifecycle.py:383-393 | completion is saved only when a last fence finds no canary row left and every revoked grant still denied |
| DeviceLifecycle.Lifecycle.Prepare | scripts/device_lifecycle.py:135-211 | the only effect of preparation is the saved journal of the plan just described; without foreign writers an issue or a revocation is prepared iff the review passes and the first journal fits; whether the first run, or any number of interrupted ones, can finish is decided by room that can be read off the fleet and the draft, for a refresh also by its deny lists |
| DeviceLifecycle.Lifecycle.Run | scripts/device_lifecycle.py:298-394 | from any record: evidence grows, every log stays ordered, and a run that proceeds ends complete in the final fleet; it is never refused when deny lists agree, every stage of the grants still ahead fits the snapshots and the journals of this run fit their limit, and from a record before any cleanup it proceeds only then |
| DeviceLifecycle.Lifecycle.Recover | scripts/device_lifecycle.py:298-394 | any number of interrupted runs followed by one uninterrupted run ends complete, in the fleet one uninterrupted run would leave, littered by at most one route probe for each interruption |
| MigrationSteps.RepeatedTarget | scripts/device_migration.py:399-418 | applying the recorded delivery to a document that already has it gives the recorded result again |
| MigrationSteps.RestoredSource | scripts/device_migration.py:505-518 | undoing the registry gives back the source as it was before, from either side of the publication |
| MigrationSteps.InputsNeverRefused | scripts/device_migration.py:304-313 | without foreign writers both fingerprints stay in the recorded sets at every point |
| MigrationSteps.ReconcileStep | scripts/device_migration.py:315-347 | each publisher row is its earlier or its new document around every reconciliation step |
| MigrationSteps.PublishedIsMigrated | scripts/device_migration.py:369-419 | a published journal means both documents and every row on every publisher are the recorded results |
| MigrationSteps.RolledBackIsUndone | scripts/device_migration.py:488-520 | a rolled-back journal means source, target candidate and all rows are as before |
| MigrationSteps.LeftoverProbeStops | scripts/device_migration.py:315-323 | a fleet stays ready, for publication and for rollback alike, after an interrupted publication attempt iff its snapshots still fit and every new row is expired or revoked in the namespace to be emptied, or in all of them if a device is named like the probe |
| MigrationRoom.ReadyMeans | scripts/device_migration.py:315-347 | a reconciliation is possible iff no grant has elapsed and in every namespace snapshots fit, every row unknown to the migration is dead or of a device left alone, and every grant to be moved is live; a rollback asks this only of grants that are or were there |
| MigrationAttempts.RecordableMeans | scripts/device_migration.py:380-389 | predecessors can be recorded iff each namespace not recorded yet has no such row or the live document of the grant |
| MigrationAttempts.UndoMeans | scripts/device_migration.py:488-505 | a rollback restores the recorded entries of its devices in the source and leaves all others as they are by then; the target becomes the prepared one, keeping a delivery identity it has |
| MigrationSteps.KilledCheckStops | scripts/device_migration.py:317-323 | every publication that moves publishers is stopped by a route check killed between its first two requests |
| MigrationSteps.LiveOnceElapsed | scripts/device_migration.py:317-330 | once the probe expires, whatever was ready before the interruption is ready again if it still fits |
| MigrationRoom.ConfirmationFits | scripts/device_migration.py:110-119 | whether the snapshots that confirm a publication or a rollback can be taken is decided before anything moves, by the rows each namespace will have |
| MigrationRoom.PeakAfterAttempt | scripts/device_migration_io.py:175-193 | an attempt at publication that was cut short takes the room of at most one more probe |
| MigrationAttempts.OverfullStops | scripts/device_migration.py:315-316 | once a namespace outgrew its snapshot, neither publication nor rollback can be finished |
| MigrationAttempts.FullTargetSticks | scripts/device_migration.py:315-316 | a concrete migration to a publisher of exactly 256 documents: preparation is accepted, publication starts and moves the grant, and neither direction can be finished from there |
| MigrationAttempts.FirstTakesOver | scripts/device_migration.py:238-287 | a first preparation takes over exactly the served grants of the migrated devices, of all devices where there are several publishers, each with its document as predecessor and, for a migrated device, the rendered payload under the same name and expiry |
| MigrationAttempts.IntentDrafted | scripts/device_migration.py:353-366 | the recorded results of a publication are the two documents with, for each device, the delivery rendered under that document |
| DeviceMigration.Migration.Save | scripts/device_migration.py:177-189 | the journal is saved only onto the source document it was derived from, and only if it has room there |
| DeviceMigration.Migration.TakeSnapshots | scripts/device_migration.py:110-119 | one publisher after the other answers with a namespace that fits, and a namespace to be emptied holds no bootstrap grant, or it is refused |
| DeviceMigration.Migration.ReplaceTarget | scripts/device_migration.py:191-199 | the target becomes the desired document, from it or from the expected one |
| DeviceMigration.Migration.Reconcile | scripts/device_migration.py:315-347 | all rows on all publishers become the wanted documents; without foreign writers it proceeds only from, and is never refused on, a fleet whose snapshots fit, hold no strays, and show every grant movable in that direction |
| DeviceMigration.Migration.RecordPredecessors | scripts/device_migration.py:380-389 | every row that will be replaced is recorded first |
| DeviceMigration.Migration.VerifyRoutes | scripts/device_migration_io.py:175-195 | route probes touch only fresh rows of their own, and killed after its first request the check leaves exactly one of them in the source namespace |
| DeviceMigration.Migration.KillRouteCheck | scripts/device_migration_io.py:175-195 | for every ready migration that moves publishers, a route check killed at that point leaves a fleet that is not ready |
| DeviceMigration.Migration.Prepare | scripts/device_migration.py:201-295 | from nothing an uninterrupted preparation proceeds iff the source namespace fits, nothing is being bootstrapped, the selection is complete and the journal has room; from a journal it is refused iff a rollback began; publishers and source keep their content |
| DeviceMigration.Migration.Publish | scripts/device_migration.py:369-419 | resumable from any crash; without foreign writers it proceeds, unless cut short, iff the grants are live, the rows it will leave fit a snapshot and the journal it starts with has room, and then source, target and all rows are migrated; started from a prepared migration, each document gains for every migrated device the delivery rendered for that document, all other entries stay, and a missing target identity is filled in |
| DeviceMigration.Migration.Rollback | scripts/device_migration.py:488-520 | resumable from any crash of publication or rollback; proceeds, unless cut short, iff the rows can be put back, what they leave fits a snapshot and the journal has room; ends with everything undone except a delivery identity already committed to the target |
| DeviceMigration.Migration.ResumePublication | scripts/device_migration.py:369-419 | any number of interrupted publications, then one uninterrupted one: migrated, with the deliveries of one of the attempts; enough if every namespace fits with each grant at the larger of its two documents and a probe for each interruption |
| DeviceMigration.Migration.ResumeRollback | scripts/device_migration.py:488-520 | any number of interrupted rollbacks, then one uninterrupted one: undone, if each namespace fits with every grant at the larger of its two documents |
| DeviceMigration.Migration.Migrate | scripts/device_migration.py:201-419 | any number of preparations cut short, one that is not, any number of publications cut short and one that is not: migrated from the two documents of the beginning, with the deliveries that one of the attempts rendered for each registry |
| OutboundGraph.SafeEquation | scripts/check-singbox-killswitch.py:53-83 | a tag is safe iff it is a defined non-direct leaf or a non-empty group of safe children |
| OutboundGraph.FieldsDecide | scripts/check-singbox-killswitch.py:65-83 | read off the fields of an outbound: never safe are a direct one, a group whose list is empty or malformed, and a selector or urltest without children; safe are any other outbound without children, and a listed group iff all its references are |
| OutboundGraph.SafeIsLeast | scripts/check-singbox-killswitch.py:53-83 | safety is the least such set: every set closed under the two rules contains it |
| OutboundGraph.TrailCycle | scripts/check-singbox-killswitch.py:59-63 | a tag met again on the trail is unsafe and not merely direct |
| OutboundGraph.GroupResolved | scripts/check-singbox-killswitch.py:81-83 | short-circuiting at the first unsafe child decides the group |
| OutboundGraph.CycleBehindDirect | scripts/check-singbox-killswitch.py:81-87 | a cyclic graph that yields no structural finding, because evaluation stops at an earlier direct child |
| KillSwitch.Resolver.constructor | scripts/check-singbox-killswitch.py:35-88 | indexing and resolving everything yields no finding iff the outbounds are well formed and every tag resolves |
| KillSwitch.Resolver.ReachesDirect | scripts/check-singbox-killswitch.py:53-83 | for every graph, cache and trail the search returns false exactly for safe references, and terminates on cycles |
| KillSwitch.CheckTun | scripts/check-singbox-killswitch.py:99-143 | no finding iff the TUN inbound captures the full device over both families |
| KillSwitch.CheckRoute | scripts/check-singbox-killswitch.py:150-190 | no finding iff the final outbound is select or auto and safe, and no rule can leak |
| KillSwitch.CheckDns | scripts/check-singbox-killswitch.py:192-208 | no finding iff there is a resolver and every detour is safe |
| KillSwitch.Check | scripts/check-singbox-killswitch.py:91-219 | no finding iff the bundle is certified, a condition independent of visiting order |
| KillSwitch.CertifiedEntries | scripts/check-singbox-killswitch.py:91-219 | every outbound of a certified bundle is direct, has no children, or is a non-empty group, and none prefers IPv6 |
| KillSwitch.NothingReachesDirect | scripts/check-singbox-killswitch.py:53-219 | from the final outbound, a rule target or a resolver detour of a certified bundle, no chain of group members of any length reaches a direct outbound |
| KillSwitch.OneTun | scripts/check-singbox-killswitch.py:99-143 | the TUN check sees one inbound iff that inbound is in the list and is the only one of its kind |
| ClientPayload.SelectionTags | scripts/client_payload.py:358-363 | the selector offers every automatic endpoint, then auto or direct, then the snell group |
| ClientPayload.FinishedWellFormed | scripts/client_payload.py:358-369 | the finished outbound list has usable distinct tags iff the endpoint tags are distinct and none is a group tag in use |
| ClientPayload.SelectSafe | scripts/client_payload.py:362-369 | the select group stays off direct egress iff some endpoint is not snell |
| ClientPayload.Assemble | scripts/client_payload.py:358-373 | the assembled profile lists the endpoints as they came, then the snell, select and auto groups with exactly their members in order, direct and block, has one certified TUN inbound, goes to select by default, past the tunnel only for bypassing apps, and resolves names through select; the checker certifies it iff some endpoint is not snell, no app bypasses the tunnel and every tag is its own |
| ClassifierProxy.Direction.Drain | scripts/cascade-classifier-proxy.py:88-96 | a send that is offered takes a byte off the buffer, is blocked or ends the relay; whatever it takes is what was buffered first |
| ClassifierProxy.Direction.Fill | scripts/cascade-classifier-proxy.py:97-108 | a read asks for at least one byte, takes one, is blocked, or finds the true end; the buffer stays within 65536 |
| ClassifierProxy.Direction.Finish | scripts/cascade-classifier-proxy.py:109-112 | the write side is shut once, after the source ended and everything was delivered |
| ClassifierProxy.Direction.Complete | scripts/cascade-classifier-proxy.py:85-87 | a direction with nothing to read or write delivered its whole stream and was shut |
| ClassifierProxy.Round | scripts/cascade-classifier-proxy.py:86-112 | any readiness in any order keeps both directions lossless; a round with something ready moves a byte, finds an end, is blocked or ends the relay |
| ClassifierProxy.Relay | scripts/cascade-classifier-proxy.py:77-112 | each side receives a prefix of what the other sent; ending because nothing is left means complete delivery and one shutdown each way, and it ends by the idle deadline only after that many rounds in a row without a byte |
| ClassifierProxy.Connection.ReceiveExact | scripts/cascade-classifier-proxy.py:30-37 | exactly the next bytes however they arrive, an error iff the stream ends first |
| DatasetCache.Networks | scripts/cascade-classifier-proxy.py:141-154 | a refusal leaves the cache unchanged; an answer leaves it holding that answer under the signature seen first |
| DatasetCache.AnswersExactly | scripts/cascade-classifier-proxy.py:141-154 | a call answers iff both looks see the same signature and either it is the cached one or the content read in between is a dataset |
| DatasetCache.QuietFileAnswers | scripts/cascade-classifier-proxy.py:143-152 | over a stable file that holds one readable dataset throughout a call, the call answers with that dataset |
| DatasetCache.RunCoherent | scripts/cascade-classifier-proxy.py:127-154 | over a stable file every answer of every run is what the file held at an instant during that call, also after failed reloads |
| DatasetCache.CoherentExactlyWhenStable | scripts/cascade-classifier-proxy.py:127-154 | the cache can never answer incoherently iff the life of the file is stable |
| DatasetCache.NeverReturnsIsStable | scripts/cascade-classifier-proxy.py:134-139 | a signature that names one content and never comes back after being replaced makes the file stable |
| DatasetCache.ReplacedAndPutBack | scripts/cascade-classifier-proxy.py:143-150 | a file replaced and put back between the two looks of a reload makes the next call answer with the content that was there in between, although each signature names one content |
| DatasetCache.DatasetStore.CurrentNetworks | scripts/cascade-classifier-proxy.py:141-154 | one call, with the file changing at any moment, does what the specification says of the instants it looked at |
| ProtobufWire.VarintRoundTrip | scripts/cascade_classifier_lib.py:18-28 | decoding inverts encoding for every value below 2^70, whatever follows |
| ProtobufWire.ReadVarint | scripts/cascade_classifier_lib.py:18-28 | the shifting loop reads exactly the varint at the offset, or refuses |
| ProtobufWire.ReadFields | scripts/cascade_classifier_lib.py:31-55 | the parser loop yields exactly the fields of the message, or refuses |
| ProtobufWire.FieldsOfConcatenation | scripts/cascade_classifier_lib.py:31-55 | if the first part parses, a concatenation parses as the first fields followed by the second |
| ProtobufWire.FieldsRoundTrip | scripts/cascade_classifier_lib.py:31-55 | parsing inverts encoding for every list of fields |
| GeoIp.ParseCidr | scripts/cascade_classifier_lib.py:58-71 | the last address and prefix fields win, and the network has the leading bits of the address bytes as they stand; anything missing, of a wrong size or too long is refused |
| GeoIp.NetworkByteOrder | scripts/cascade_classifier_lib.py:68-71 | bit i of a packed address, counted from the most significant, is bit 7 - i mod 8 of its byte i / 8 |
| GeoIp.MadeBits | scripts/cascade_classifier_lib.py:70-71 | a loaded network has the bits of its packed address up to the prefix and zeros behind it |
| GeoIp.ParseGeoip | scripts/cascade_classifier_lib.py:74-85 | country, inverse flag and networks of one entry, or a refusal for any malformed part |
| Utf8.DecodesExactly | scripts/cascade_classifier_lib.py:79-80 | a country decodes iff its bytes are the shortest encodings of code points: no overlong form, no surrogate, nothing beyond U+10FFFF |
| GeoIp.LoadRuNetworks | scripts/cascade_classifier_lib.py:88-114 | the networks of the groups whose country is RU in any case, in order, or a refusal |
| GeoIp.ClassifyAddress | scripts/cascade_classifier_lib.py:117-122 | ru iff some loaded network contains the address, no verdict iff the destination is no address |
| GeoIp.SamePrefixBits | scripts/cascade_classifier_lib.py:71-122 | clearing host bits makes two addresses equal iff their first prefix bits agree |
| GeoIpDataset.RangeRead | scripts/cascade_classifier_lib.py:58-71 | an encoded range reads back with its host bits cleared iff it is readable; an encoder that omits a zero prefix makes a /0 range unreadable |
| GeoIpDataset.RangeBits | scripts/cascade_classifier_lib.py:58-71 | a range that reads back keeps the leading bits of its address bytes |
| GeoIpDataset.GroupRead | scripts/cascade_classifier_lib.py:74-85 | an encoded country reads back with all its networks, or not at all |
| GeoIpDataset.DatasetRoundTrip | scripts/cascade_classifier_lib.py:88-114 | an encoded dataset loads as exactly the networks of its domestic groups in order, refused iff a group is unreadable, a domestic one is inverse, or none has networks |
| GeoIpDataset.ClassifiedByPrefix | scripts/cascade_classifier_lib.py:117-122 | a loaded network contains an address iff the bits of the address agree with those of the bytes of a domestic range of its family, as far as the prefix goes |
| GeoIpDataset.DatasetVerdict | scripts/cascade_classifier_lib.py:88-122 | from the bytes of an encoded dataset to the verdict: ru iff the bits of the address agree with those of the bytes of a range of a domestic group as far as its prefix goes, whenever the dataset is accepted |
| AddressPool.Sweep | scripts/awg_device_binding.py:96-111 | the sorted sweep computes the specified free address |
| AddressPool.LeastFreeAddress | scripts/awg_device_binding.py:89-115 | the address is the least one of the pool outside every claim, and there is none iff all are claimed |
| AddressPool.SortedKeeps | scripts/awg_device_binding.py:105-105 | sorting keeps the claims and orders their starts |
| DeviceAuthority.WithoutHoldsNothing | scripts/device_lifecycle_credentials.py:173-188 | removing a device leaves no row and no cohort reference of it |
| DeviceAuthority.WithoutKeepsOthers | scripts/device_lifecycle_credentials.py:179-182 | everybody else keeps exactly their rows, in order |
| DeviceAuthority.WithoutAbsent | scripts/device_lifecycle_credentials.py:176-182 | removal changes nothing iff the device had no row and no cohort reference |
| DeviceCredentials.Discover | scripts/device_lifecycle_credentials.py:56-77 | refused iff a collection is oversized, has duplicate names or holds the name as a routed peer; otherwise whether the document knows the device |
| CredentialLaws.DiscoveryAccepted | scripts/device_lifecycle_credentials.py:36-77 | a document is examined iff the name is well formed and each collection of each transport has at most 256 rows of different names, none of them a routed peer of this name; the device is known iff one of them or the registry names it |
| DeviceCredentials.Issue | scripts/device_lifecycle_credentials.py:112-159 | every selected node enrolls the device and all others stay untouched, or nothing is issued |
| DeviceCredentials.Revoke | scripts/device_lifecycle_credentials.py:173-188 | every document that knows the device loses it, refused iff some document cannot be examined |
| CredentialLaws.ProvisionedGrows | scripts/device_lifecycle_credentials.py:130-154 | enrollment appends at most one row per collection and moves nothing else |
| CredentialLaws.EnrolledHoldsIdentity | scripts/device_lifecycle_credentials.py:130-154 | an enrolled device holds exactly its identity in every enabled transport and nothing elsewhere |
| CredentialLaws.IssuedDevice | scripts/device_lifecycle_credentials.py:112-159 | the whole effect of issuing on every node of the fleet, down to each field of the new registry entry |
| CredentialLaws.ProvisionAccepted | scripts/device_lifecycle_credentials.py:118-158 | the transports of a node gain the device iff every enabled collection, the selected cohorts and the selected variants are there, and for AmneziaWG one instance can be chosen and has an address of each family left |
| CredentialLaws.EnrollmentAccepted | scripts/device_lifecycle_credentials.py:112-158 | a document enrolls the device iff host and profile are usable, it is sound before and after, its transports can gain the device, and names and keys stay unique |
| CredentialLaws.IssuedDistinct | scripts/device_lifecycle_credentials.py:112-159 | after issuing, no collection has two rows with the same name or a key in common, nor an empty one |
| CredentialLaws.AllocatedLeast | scripts/device_lifecycle_credentials.py:95-109 | the allocated address is the least one of the pool that no server or peer of the node holds, for IPv4 neither the network nor the broadcast address, and exists iff there is one |
| CredentialLaws.HeldIsTaken | scripts/awg_device_binding.py:89-104 | the claims the sweep avoids are exactly the peers of all instances and their server addresses |
| CredentialLaws.AlwaysDisjoint | scripts/device_lifecycle_credentials.py:95-188 | pairwise disjoint server addresses and peer prefixes stay so through every history of issues and revocations |
| CredentialLaws.RevokeUndoesIssue | scripts/device_lifecycle_credentials.py:112-188 | revoking after issuing restores every node, order included, leaving a revoked registry entry; cohort lists are restored iff none named the device beforehand |
| CredentialLaws.IssuedIsRevocable | scripts/device_lifecycle_credentials.py:62-64 | an issued device can be revoked iff, before it was issued, no collection that gains a row already had the 256 rows that discovery accepts |
| CredentialLaws.FullCollectionSticks | scripts/device_lifecycle_credentials.py:62-64 | issuing into a collection of exactly 256 rows with valid names succeeds, and discovery then refuses the document |
| CredentialLaws.RevokeRemovesAll | scripts/device_lifecycle_credentials.py:173-188 | a revoked device has no credential anywhere and no recovery material, delivery host or last payload in its registry entry, whose other fields stay; a cohort reference survives iff the document named the device nowhere else |
| CredentialLaws.CohortReferenceSurvives | scripts/device_lifecycle_credentials.py:173-188 | a document that names a device only in a cohort list keeps it there through a revocation |
| CredentialLaws.RevokeKeepsOthers | scripts/device_lifecycle_credentials.py:179-182 | nobody else loses, gains or reorders anything |
| CredentialLaws.RevokeIdempotent | scripts/device_lifecycle_credentials.py:173-188 | revoking again is accepted and changes nothing |
| MigrationCredentials.TargetCopy.JoinCohorts | scripts/device_migration_credentials.py:76-89 | the cohort loop refuses an unsupported map and otherwise joins exactly the selected cohorts |
| MigrationCredentials.TargetCopy.Move | scripts/device_migration_credentials.py:222-250 | copying one device transport by transport on the private copy computes the specified document or refuses |
| MigrationCredentials.TargetCopy.Prepare | scripts/device_migration_credentials.py:191-253 | the in-place preparation computes the specified document or refuses |
| MigrationLaws.CopyClientThere | scripts/device_migration_credentials.py:62-73 | a copied client is the one source row, appended or already there, and other names keep their rows |
| MigrationLaws.MembersJoined | scripts/device_migration_credentials.py:76-89 | after joining, the target lists the device in exactly the cohorts of the source |
| MigrationLaws.MoveSnellThere | scripts/device_migration_credentials.py:92-107 | the device has its source user in every selected variant, and other devices keep theirs |
| MigrationLaws.MoveAwgThere | scripts/device_migration_credentials.py:146-180 | the one peer of the device is where it was sent, with the keys of the source, and registered there |
| MigrationLaws.MoveBack | scripts/device_migration_credentials.py:110-143 | an entry moved there and back names its hosts, cohorts and sources again, and its delivery host and options iff it was not delivered from the target |
| MigrationLaws.PrepareIdempotent | scripts/device_migration_credentials.py:191-253 | preparing an already prepared document is accepted and changes nothing |
| MigrationLaws.PrepareAppendsOnly | scripts/device_migration_credentials.py:191-253 | every target collection is a prefix of the resulting one, and no other registry entry moves |
| MigrationLaws.MoveDevicesDisjoint | scripts/device_migration_credentials.py:161-175 | disjoint addresses on the target stay disjoint, servers of overlapping pools included |
| MigrationMeaning.PreparedMeans | scripts/device_migration_credentials.py:191-253 | of every selected device the prepared target holds exactly the credentials of the source in each enabled transport, in the same cohorts and variants, and an entry that names the target where the source was |
| MigrationMeaning.MovedIsPlaced | scripts/device_migration_credentials.py:110-143 | a moved entry names the target host, cohort and source in the one place of the source, keeps its keys, and counts as not delivered |
| MigrationMeaning.JoinedAlike | scripts/device_migration_credentials.py:76-89 | cohorts that need no more joining list the device alike on both sides |
| MigrationAdmission.CopyAccepted | scripts/device_migration_credentials.py:40-73 | a row is copied iff both collections hold at most 256 usable rows apart in name and keys, the source has exactly one of the name and the target none or the very same, and so does the result |
| MigrationAdmission.JoinAccepted | scripts/device_migration_credentials.py:76-89 | cohorts are joined iff both sides have some or neither has, the source lists the device, the target has all those cohorts, and lists the device nowhere or in the same ones |
| MigrationAdmission.SnellAccepted | scripts/device_migration_credentials.py:92-107 | the result of moving Snell users is the one list in which every selected variant copied its user and no user key is shared between variants; there is none otherwise |
| MigrationAdmission.EntryAccepted | scripts/device_migration_credentials.py:110-143 | an entry can be moved iff the source is in exactly one place of it, the target in none, and cohorts, sources and delivery options agree with that place |
| MigrationAdmission.ResolveAccepted | scripts/awg_device_binding.py:47-84 | an enrolled device is resolved iff it has exactly one peer on the node, not routed, in the wanted instance, and its live entry names that instance |
| MigrationAdmission.AwgAccepted | scripts/device_migration_credentials.py:146-180 | a peer is moved iff the source is enrolled and the target either has that very peer, or none, no binding, one matching instance and addresses left in it |
| MigrationAdmission.DeviceAccepted | scripts/device_migration_credentials.py:214-250 | a device is prepared iff its entries are live, its entry can be placed, and each enabled transport can take it |
| MigrationAdmission.PrepareAccepted | scripts/device_migration_credentials.py:191-253 | the result of a preparation is what the devices give one after the other; there is one iff the sites differ and match, the selection and the documents are usable, every device is accepted in its turn and the result is sound |
| BackupConfigure.Configurator.Attempt | scripts/backup-configure.py:265-276 | the three files are installed in order up to the first failure |
| BackupConfigure.Configurator.Rollback | scripts/backup-configure.py:277-296 | every file is put back as far as possible, and the status says how it went |
| BackupConfigure.Configurator.Publish | scripts/backup-configure.py:246-296 | the publication is the specified function of the host and the faults |
| BackupLaws.OutcomeMeans | scripts/backup-configure.py:246-296 | published means the staged contents with their modes and status complete; rolled back means the earlier files with that status; unchanged and refused leave the files alone |
| BackupLaws.PublishedExactly | scripts/backup-configure.py:246-276 | a configuration is published iff it is staged, differs from the files, no recovery of that name exists and no effect fails; it is left unchanged iff the files already hold it |
| BackupLaws.PublishedOrRolledBack | scripts/backup-configure.py:265-296 | if putting back meets no fault, an attempt that began ends with the staged files, with the earlier ones, or killed |
| BackupLaws.FinishedReleases | scripts/backup-configure.py:299-309 | after a publication or a complete rollback the lock can be released, and where nothing needed recovery before, nothing does |
| BackupLaws.MixedFilesAreHeld | scripts/backup-configure.py:299-309 | files that are neither configuration make release and the next recovery check refuse, except exactly when the final status write raised after taking effect and was not replaced |
| BackupLaws.MixedFilesReleased | scripts/backup-configure.py:275-296 | the exception is real: a kill during the rollback of such a publication leaves mixed files that release accepts |
| BackupLaws.ClaimedOverComplete | scripts/backup-configure.py:98-114 | over every history of claims, stagings, publications and releases without that exception, a claim is granted only over the first configuration or one that was staged completely |
| Inventory.Sections | scripts/device_migration_inventory.py:26-41 | the line loop computes the specified sections, refusing duplicates and rows before any section |
| Inventory.ParsedClean | scripts/device_migration_inventory.py:26-41 | parsed sections are distinct and their rows clean |
| InventoryLaws.RowsRead | scripts/device_migration_inventory.py:26-41 | a row that starts and ends with something, is one line and neither a comment nor a header is read as it stands, into the last section; parsed rows are all of this kind |
| InventoryLaws.LineEnds | scripts/device_migration_inventory.py:28-28 | each of the ten line-end characters splits the text, whatever stands around it |
| Inventory.PrintThenParse | scripts/device_migration_inventory.py:26-92 | parsing what was printed gives back every well-formed inventory |
| Inventory.Merge | scripts/device_migration_inventory.py:71-92 | the section loop prints the specified merge or refuses |
| InventoryLaws.UnrelatedRowsSurvive | scripts/device_migration_inventory.py:86-91 | every row whose first word is outside the pair occurs in the merged section as often as before, kept rows stand in their original order, and the section ends with the rendered rows; variable sections stay as they are |
| InventoryLaws.SectionsKeepOrder | scripts/device_migration_inventory.py:84-92 | the merged sections are the original ones in their order, followed by those only the rendering has |
| InventoryLaws.MergeAgain | scripts/device_migration_inventory.py:71-92 | merging the same rendering into the result changes nothing |
| InventoryLaws.MergedTextReadsBack | scripts/device_migration_inventory.py:26-92 | the merged text parses as the merged sections, and merging again reprints it |
| InventoryLaws.MergeAccepted | scripts/device_migration_inventory.py:71-92 | a merge is accepted iff the rendering names exactly the pair, and every section of either side is a variable section the original has, with the same rows on both sides, or vpn or vpn- with named original rows and rendered rows of the pair only |
| InventoryLaws.NewEmptyVariablesRefused | scripts/device_migration_inventory.py:80-83 | a concrete rendering whose variable sections agree and that is refused all the same, for an empty variable section only it has |

## Left out

- Remote access, encryption at rest, subprocesses, TLS, HTTP, file descriptors and permission checks: only the contracts above remain.
- Approval digests and manifest digests of a migration and delivery hosts during inspection: they refuse before the first save; a lifecycle draft says whether its approval matches, which devices are inactive and whether another operation is unfinished.
- Legacy publications, temporary files and the 1152 names a publication directory may hold: a namespace consists of its documents, its deny list and its count of bootstrap grants.
- Limits of encrypted documents and of the requests that replace them: only the limits of journals, snapshots and deny lists are modelled.
- Finding texts of the checker, and the order of findings: only which findings occur, and whether there are any.
- JSON values of a wrong type: they collapse into one constructor or None per place where the source refuses them.
- Additional sources, endpoints, canonical grants, receipts, attestations and readiness of a migration: they gate publication but move no document or row.
- The retained-publisher adoption check of the runtime role: part of the foreign runtime contract.
- Transport-specific fields inside the profile generator: only the final outbound, rule, resolver and inbound assembly matters to the checker.
- SOCKS negotiation, interface binding and the clock of the relay: a number of rounds in a row without a byte stands for the idle deadline.
- Concurrent calls of the dataset cache: its lock keeps them apart, so calls follow one another.
- Text decoding of inventories: text is a sequence of characters, and a two-character line end counts as a line end and an empty line.
- Shell word splitting of inventory rows: the first word is a parameter.
- Defaults of AmneziaWG instances: an instance carries its effective addresses, which stay the same between operations.
- In-place appends inside the copied documents of issue: each transport is a function on values, and only the loops over nodes and documents are methods.
- Power loss: a killed process leaves completed replacements in place.
- SubscriptionPublisher.CompareAndSwap: does not model the helper's limit of 2 MiB for a single document, because a namespace with a larger one fits no snapshot either.
- LifecycleRoom.RoomExact: speaks of the documents of the operation; deny lists are known beforehand and part of the room that `DeviceLifecycle.Lifecycle.Run` asks for.
- DeviceMigration.Migration.ResumePublication: asks for room for every interruption's probe and for each grant at the larger of its documents, which is exact only for a run without interruptions; that exact condition is the one of `DeviceMigration.Migration.Publish`.
- DeviceMigration.Migration.VerifyRoutes: all probes of one check expire at one stamp, where the source computes each a moment later.
- DeviceMigration.Migration.Reconcile: checks grants and publishes in an arbitrary order of grants and publishers; the source goes through them in insertion order.
- DeviceLifecycle.Lifecycle.Run: visits sets of hosts in an arbitrary order where the source sorts or uses insertion order; the grants of one publisher are delivered in the order of the plan.
- DeviceLifecycle.Lifecycle.Recover: asks at first for room for every interruption's probe and for the full journal, which an operation that is interrupted less often or elsewhere may not need.
- DeviceCredentials.Issue: the order of refusals is not modelled, since every refusal leaves the input unchanged.
- BackupConfigure.Configurator.Publish: no other writer touches the three files while the lock is held, and deleting the lock directory is atomic.
