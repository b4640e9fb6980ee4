/** What a publication of the backup files leaves behind, for every pattern of faults and over every history. */
module BackupLaws {
  import opened Wrappers
  import opened BackupConfigure

  // ---------------------------------------------------------------- shape of the phases

  /** `after` differs from `before` at most in this token's recovery, the lock's marker and the files. */
  ghost predicate Touches(before: Host, after: Host, token: string) {
    && (before.lock.None? ==> after.lock.None?)
    && (before.lock.Some? ==> after.lock.Some? && after.lock.value.(marker := None) == before.lock.value.(marker := None))
    && after.recoveries.Keys <= before.recoveries.Keys + {token}
    && before.recoveries.Keys <= after.recoveries.Keys
    && forall other | other in before.recoveries && other != token :: after.recoveries[other] == before.recoveries[other]
  }

  ghost predicate Announced(host: Host, token: string) {
    host.lock.Some? && host.lock.value.marker == Some(token) && token in host.recoveries
  }

  lemma {:induction false} OpenedTouches(host: Host, token: string, faults: Point -> Fault)
    requires host.lock.Some?
    ensures var run := Opened(host, token, faults);
            Touches(host, run.host, token) && run.host.files == host.files && (run.host != host ==> token !in host.recoveries)
  {
    hide Touches;
    TouchesSelf(host, token);
    if !(faults(MakeBase) == Fine && token in host.recoveries) {
      var base := Do(Run(host, Go), faults(MakeBase), host);
      TouchesRecovery(host, base.host, token, Recovery(None, None));
      var recovery := Do(base, faults(MakeRecovery), WithRecovery(host, token, Recovery(None, None)));
      TouchesRecovery(host, recovery.host, token, Recovery(Some(host.files), None));
      var previous := Do(recovery, faults(WritePrevious), WithRecovery(recovery.host, token, Recovery(Some(host.files), None)));
      TouchesMarker(host, previous.host, token);
      var marker := Do(previous, faults(WriteMarker), WithMarker(previous.host, token));
      TouchesRecovery(host, marker.host, token, RecoveryOf(marker.host, token).(status := Some(Pending)));
    }
  }

  lemma {:induction false} TouchesSelf(host: Host, token: string)
    ensures Touches(host, host, token)
  {
  }

  lemma {:induction false} TouchesRecovery(before: Host, after: Host, token: string, recovery: Recovery)
    requires Touches(before, after, token)
    ensures Touches(before, WithRecovery(after, token, recovery), token)
  {
  }

  lemma {:induction false} TouchesMarker(before: Host, after: Host, token: string)
    requires Touches(before, after, token)
    ensures Touches(before, WithMarker(after, token), token)
  {
  }

  lemma {:induction false} OpenedShape(host: Host, token: string, faults: Point -> Fault)
    requires host.lock.Some?
    ensures var run := Opened(host, token, faults);
            && Touches(host, run.host, token) && run.host.files == host.files
            && (run.host != host ==> token !in host.recoveries)
            && (run.progress == Go ==>
                  && token !in host.recoveries && Announced(run.host, token)
                  && run.host.recoveries[token] == Recovery(Some(host.files), Some(Pending)))
  {
    hide Touches;
    OpenedTouches(host, token, faults);
  }

  /** Within the files, some are the candidate's and the rest are as they were. */
  ghost predicate Between(files: Config, a: Config, b: Config) {
    forall i | 0 <= i < 3 :: files[i] == a[i] || files[i] == b[i]
  }

  lemma {:induction false} InstalledShape(run: Run, candidate: Config, previous: Config, faults: Point -> Fault, i: nat)
    requires i <= 3 && Between(run.host.files, previous, candidate)
    requires run.progress == Go ==> forall k | 0 <= k < i :: run.host.files[k] == candidate[k]
    ensures var after := InstalledFrom(run, candidate, faults, i);
            && after.host == run.host.(files := after.host.files) && Between(after.host.files, previous, candidate)
            && (after.progress == Go <==> run.progress == Go && forall k: nat | i <= k < 3 :: faults(Install(k)) == Fine)
            && (after.progress == Go ==> after.host.files == candidate)
    decreases 3 - i
  {
    if i < 3 {
      var next := Do(run, faults(Install(i)), WithFile(run.host, i, candidate[i]));
      InstalledShape(next, candidate, previous, faults, i + 1);
    }
  }

  /** Every effect up to the last status write succeeded. */
  ghost predicate AllInstalled(faults: Point -> Fault) {
    && faults(MakeDirectory) == Fine && (forall k: nat | k < 3 :: faults(Install(k)) == Fine)
    && faults(Quiesce) == Fine && faults(Verify) == Fine
  }

  lemma {:induction false} AttemptedShape(host: Host, token: string, candidate: Config, faults: Point -> Fault)
    requires Announced(host, token) && host.recoveries[token].status == Some(Pending)
    ensures var run := Attempted(host, token, candidate, faults);
            && Touches(host, run.host, token) && Announced(run.host, token) && Between(run.host.files, host.files, candidate)
            && (run.progress == Go ==> run.host.files == candidate)
            && run.host.recoveries[token].previous == host.recoveries[token].previous
            && (run.host.recoveries[token].status ==
                  if run.progress == Go || (AllInstalled(faults) && faults(WriteComplete) == After) then Some(Complete) else Some(Pending))
            && (AllInstalled(faults) && faults(WriteComplete) == After ==> run.progress == Raised && run.host.files == candidate)
  {
    hide InstalledFrom, Between;
    BetweenSelf(host.files, candidate);
    InstalledShape(Do(Run(host, Go), faults(MakeDirectory), host), candidate, host.files, faults, 0);
  }

  lemma {:induction false} BetweenSelf(a: Config, b: Config)
    ensures Between(a, a, b) && Between(b, a, b)
  {
  }

  lemma {:induction false} RestoredShape(undo: Undo, previous: Config, faults: Point -> Fault, i: nat)
    requires i <= 3
    ensures var after := RestoredFrom(undo, previous, faults, i);
            && after.host == undo.host.(files := after.host.files)
            && (after.dead <==> undo.dead || exists k: nat :: i <= k < 3 && faults(Restore(k)) == Kill)
    decreases 3 - i
  {
    if i < 3 && !undo.dead {
      var run := Do(Run(undo.host, Go), faults(Restore(i)), WithFile(undo.host, i, previous[i]));
      RestoredShape(Undo(run.host, undo.failed || run.progress != Go, run.progress == Dead), previous, faults, i + 1);
      assert run.progress == Dead <==> faults(Restore(i)) == Kill;
    }
  }

  /** The rollback ends without rewriting the recovery's status. */
  ghost predicate StatusKept(faults: Point -> Fault) {
    || (exists k: nat :: k < 3 && faults(Restore(k)) == Kill)
    || faults(Compare) != Fine || faults(WriteRollback) == Before || faults(WriteRollback) == Kill
  }

  lemma {:induction false} UndoneShape(host: Host, token: string, previous: Config, faults: Point -> Fault)
    requires Announced(host, token)
    ensures var (after, outcome) := Undone(host, token, previous, faults);
            && Touches(host, after, token) && Announced(after, token)
            && (outcome == WasRolledBack ==> after.files == previous && after.recoveries[token].status == Some(RolledBack))
            && outcome != Published && outcome != Unchanged && outcome != Refused
            && (if StatusKept(faults) then after.recoveries[token].status == host.recoveries[token].status
                else after.recoveries[token].status == Some(Incomplete)
                     || (after.recoveries[token].status == Some(RolledBack) && after.files == previous))
  {
    hide RestoredFrom;
    RestoredShape(Undo(host, false, false), previous, faults, 0);
  }

  // ---------------------------------------------------------------- one publication

  /** The write of the final status raised although it had taken effect, and the rollback never replaced it. */
  ghost predicate LateComplete(faults: Point -> Fault) {
    AllInstalled(faults) && faults(WriteComplete) == After && StatusKept(faults)
  }

  /** The three files hold what was staged: the configuration with mode 0600, the two scripts with mode 0750. */
  ghost predicate Holds(files: Config, stage: Stage) {
    forall i | 0 <= i < 3 :: files[i] == Some(File(stage[i], if i == 0 then 384 else 488))
  }

  /** The outcome of a publication says what the files are. */
  lemma {:induction false} OutcomeMeans(host: Host, token: string, faults: Point -> Fault)
    ensures var (after, outcome) := Publication(host, token, faults);
            && (outcome == Unchanged ==> after == host && Staged(host, token) && Holds(host.files, host.lock.value.stage.value))
            && (outcome == Refused ==> after.files == host.files)
            && (outcome == Published ==>
                  && Staged(host, token) && Holds(after.files, host.lock.value.stage.value)
                  && RecoveryOf(after, token) == Recovery(Some(host.files), Some(Complete)))
            && (outcome == WasRolledBack ==>
                  after.files == host.files && RecoveryOf(after, token).status == Some(RolledBack))
  {
    hide Opened, Attempted, Undone, Touches, Between, AllInstalled, StatusKept;
    if Staged(host, token) {
      OpenedShape(host, token, faults);
      var ready := Opened(host, token, faults);
      if ready.progress == Go {
        var candidate := Candidate(host.lock.value.stage.value);
        AttemptedShape(ready.host, token, candidate, faults);
        UndoneShape(Attempted(ready.host, token, candidate, faults).host, token, host.files, faults);
      }
    }
  }

  /** The recovery is new, and every effect that records it succeeds. */
  ghost predicate Opens(host: Host, token: string, faults: Point -> Fault) {
    && token !in host.recoveries
    && forall point | point in {MakeBase, MakeRecovery, WritePrevious, WriteMarker, WritePending} :: faults(point) == Fine
  }

  lemma {:induction false} OpensExactly(host: Host, token: string, faults: Point -> Fault)
    requires host.lock.Some?
    ensures Opened(host, token, faults).progress == Go <==> Opens(host, token, faults)
  {
    assert Opened(host, token, faults).progress == Go ==>
           faults(MakeBase) == faults(MakeRecovery) == faults(WritePrevious) == faults(WriteMarker) == faults(WritePending) == Fine;
  }

  lemma {:induction false} HeldIsCandidate(files: Config, stage: Stage)
    ensures Holds(files, stage) <==> files == Candidate(stage)
  {
  }

  /** A configuration is published exactly when it is staged, differs, has a new recovery, and no effect fails. */
  lemma {:induction false} PublishedExactly(host: Host, token: string, faults: Point -> Fault)
    ensures Publication(host, token, faults).1 == Published <==>
            && Staged(host, token) && !Holds(host.files, host.lock.value.stage.value)
            && faults(Admit) == Fine && Opens(host, token, faults) && AllInstalled(faults) && faults(WriteComplete) == Fine
    ensures Publication(host, token, faults).1 == Unchanged <==>
            && Staged(host, token) && Holds(host.files, host.lock.value.stage.value)
            && faults(Admit) == Fine && faults(Recheck) == Fine
  {
    hide Opened, Opens, InstalledFrom, RestoredFrom, Holds, Candidate;
    if Staged(host, token) {
      HeldIsCandidate(host.files, host.lock.value.stage.value);
      OpensExactly(host, token, faults);
      OpenedShape(host, token, faults);
      var ready, candidate := Opened(host, token, faults), Candidate(host.lock.value.stage.value);
      BetweenSelf(host.files, candidate);
      InstalledShape(Do(Run(ready.host, Go), faults(MakeDirectory), ready.host), candidate, host.files, faults, 0);
    }
  }

  /** Every effect of putting the files back succeeds. */
  ghost predicate RestoresFine(faults: Point -> Fault) {
    (forall k: nat | k < 3 :: faults(Restore(k)) == Fine) && faults(Compare) == Fine && faults(WriteRollback) == Fine
  }

  lemma {:induction false} RestoresEnd(faults: Point -> Fault)
    requires RestoresFine(faults)
    ensures faults(Compare) == Fine && faults(WriteRollback) == Fine
  {
  }

  lemma {:induction false} RestoresAll(undo: Undo, previous: Config, faults: Point -> Fault, i: nat)
    requires i <= 3 && !undo.failed && !undo.dead && RestoresFine(faults)
    requires forall k | 0 <= k < i :: undo.host.files[k] == previous[k]
    ensures RestoredFrom(undo, previous, faults, i) == Undo(undo.host.(files := previous), false, false)
    decreases 3 - i
  {
    if i < 3 {
      RestoresAll(Undo(WithFile(undo.host, i, previous[i]), false, false), previous, faults, i + 1);
    } else {
      assert undo.host.files == previous;
    }
  }

  /** With no fault while putting back, an attempt that changed a file is published, rolled back, or was killed. */
  lemma {:induction false} PublishedOrRolledBack(host: Host, token: string, faults: Point -> Fault)
    requires Staged(host, token) && !Holds(host.files, host.lock.value.stage.value)
    requires faults(Admit) == Fine && Opens(host, token, faults) && RestoresFine(faults)
    ensures var (after, outcome) := Publication(host, token, faults);
            && outcome in {Published, WasRolledBack, Killed}
            && (outcome == Killed ==> exists point :: faults(point) == Kill)
            && (outcome == Published ==> Holds(after.files, host.lock.value.stage.value))
            && (outcome == WasRolledBack ==> after.files == host.files)
  {
    hide Opened, Opens, Attempted, RestoresFine, RestoredFrom, Holds, Candidate;
    HeldIsCandidate(host.files, host.lock.value.stage.value);
    OpensExactly(host, token, faults);
    OpenedShape(host, token, faults);
    OutcomeMeans(host, token, faults);
    var ready, candidate := Opened(host, token, faults), Candidate(host.lock.value.stage.value);
    var attempt := Attempted(ready.host, token, candidate, faults);
    if attempt.progress == Dead {
      KilledSomewhere(ready.host, token, candidate, faults);
    } else if attempt.progress == Raised {
      RestoresAll(Undo(attempt.host, false, false), host.files, faults, 0);
      RestoresEnd(faults);
    }
  }

  lemma {:induction false} KilledSomewhere(host: Host, token: string, candidate: Config, faults: Point -> Fault)
    requires Attempted(host, token, candidate, faults).progress == Dead
    ensures exists point :: faults(point) == Kill
  {
    hide InstalledFrom;
    if forall point :: faults(point) != Kill {
      NeverDead(Do(Run(host, Go), faults(MakeDirectory), host), candidate, faults, 0);
    }
  }

  lemma {:induction false} NeverDead(run: Run, candidate: Config, faults: Point -> Fault, i: nat)
    requires run.progress != Dead && forall point :: faults(point) != Kill
    ensures InstalledFrom(run, candidate, faults, i).progress != Dead
    decreases 3 - i
  {
    if i < 3 {
      NeverDead(Do(run, faults(Install(i)), WithFile(run.host, i, candidate[i])), candidate, faults, i + 1);
    }
  }

  /** The publication got as far as touching the files. */
  ghost predicate Started(host: Host, token: string, faults: Point -> Fault) {
    && faults(Admit) == Fine && Staged(host, token) && host.files != Candidate(host.lock.value.stage.value)
    && Opened(host, token, faults).progress == Go
  }

  /** Where a started publication ends: announced, and its status terminal only with consistent files or a late completion. */
  lemma {:induction false} StartedMeans(host: Host, token: string, faults: Point -> Fault)
    requires Started(host, token, faults)
    ensures var after := Publication(host, token, faults).0;
            var candidate := Candidate(host.lock.value.stage.value);
            && Touches(host, after, token) && Announced(after, token) && token !in host.recoveries
            && (LateComplete(faults) ==> Terminal(after.recoveries[token]))
            && (!LateComplete(faults) && Terminal(after.recoveries[token]) ==> after.files == host.files || after.files == candidate)
  {
    hide Opened, Attempted, Undone, Between, AllInstalled, StatusKept, Touches;
    OpenedShape(host, token, faults);
    var ready := Opened(host, token, faults);
    var candidate := Candidate(host.lock.value.stage.value);
    AttemptedShape(ready.host, token, candidate, faults);
    var attempt := Attempted(ready.host, token, candidate, faults);
    TouchesTwice(host, ready.host, attempt.host, token);
    if attempt.progress == Raised {
      UndoneShape(attempt.host, token, host.files, faults);
      TouchesTwice(host, attempt.host, Undone(attempt.host, token, host.files, faults).0, token);
    }
  }

  lemma {:induction false} TouchesTwice(a: Host, b: Host, c: Host, token: string)
    requires Touches(a, b, token) && Touches(b, c, token)
    ensures Touches(a, c, token)
  {
  }

  lemma {:induction false} NotStartedMeans(host: Host, token: string, faults: Point -> Fault)
    requires !Started(host, token, faults)
    ensures var after := Publication(host, token, faults).0;
            && Touches(host, after, token) && after.files == host.files
            && (after == host || token !in host.recoveries)
  {
    hide Opened, Attempted, Undone;
    if Staged(host, token) {
      OpenedShape(host, token, faults);
    }
  }

  /** What was published or rolled back can be released, and the next claim finds nothing to recover but what there was. */
  lemma {:induction false} FinishedReleases(host: Host, token: string, faults: Point -> Fault)
    requires Publication(host, token, faults).1 == Published || Publication(host, token, faults).1 == WasRolledBack
    ensures var after := Publication(host, token, faults).0;
            && Release(after, token) == Some(after.(lock := None))
            && (RecoveryClear(host) && |host.recoveries| < 1024 ==> RecoveryClear(after))
  {
    hide Publication, Opened, Touches, LateComplete;
    OutcomeMeans(host, token, faults);
    var after := Publication(host, token, faults).0;
    if !Started(host, token, faults) {
      NotFinished(host, token, faults);
    }
    StartedMeans(host, token, faults);
    StartedOwned(host, token, faults);
    OwnerKept(host, after, token);
    if RecoveryClear(host) && |host.recoveries| < 1024 {
      OneMoreRecovery(host, after, token);
    }
  }

  lemma {:induction false} NotFinished(host: Host, token: string, faults: Point -> Fault)
    requires !Started(host, token, faults)
    ensures Publication(host, token, faults).1 != Published && Publication(host, token, faults).1 != WasRolledBack
  {
    hide Opened, Attempted, Undone;
  }

  lemma {:induction false} OwnerKept(before: Host, after: Host, token: string)
    requires Touches(before, after, token) && Owned(before, token)
    ensures Owned(after, token)
  {
    assert after.lock.value.(marker := None).token == before.lock.value.(marker := None).token;
  }

  lemma {:induction false} OneMoreRecovery(before: Host, after: Host, token: string)
    requires Touches(before, after, token) && RecoveryClear(before) && |before.recoveries| < 1024
    requires token in after.recoveries && Terminal(after.recoveries[token])
    ensures RecoveryClear(after)
  {
    KeysWithin(after.recoveries.Keys, before.recoveries.Keys, token);
    assert |after.recoveries| == |after.recoveries.Keys| && |before.recoveries| == |before.recoveries.Keys|;
    forall other | other in after.recoveries ensures Terminal(after.recoveries[other]) {
      if other != token {
        assert other in before.recoveries.Keys;
      }
    }
  }

  lemma {:induction false} KeysWithin(after: set<string>, before: set<string>, token: string)
    requires after <= before + {token}
    ensures |after| <= |before| + 1
  {
    Within(after - {token}, before);
    assert |after| <= |after - {token}| + 1;
  }

  lemma {:induction false} Within(a: set<string>, b: set<string>)
    requires a <= b
    ensures |a| <= |b|
    decreases |a|
  {
    if x :| x in a {
      Within(a - {x}, b - {x});
    }
  }

  /** Neither the owner's release nor the next claim's recovery check objects. */
  predicate Admitted(host: Host, token: string) {
    Release(host, token).Some? || RecoveryClear(host)
  }

  /**
   Whatever faults strike, files that are neither the earlier nor the staged configuration make
   both the release and the next recovery check refuse, except exactly when the final status
   write raised after taking effect and the rollback did not replace it.
   */
  lemma {:induction false} MixedFilesAreHeld(host: Host, token: string, faults: Point -> Fault)
    requires Owned(host, token)
    ensures var after := Publication(host, token, faults).0;
            after.files != host.files && (Staged(host, token) ==> after.files != Candidate(host.lock.value.stage.value)) ==>
              (Release(after, token).Some? <==> LateComplete(faults)) && (RecoveryClear(after) ==> LateComplete(faults))
  {
    hide Publication, Started, LateComplete, Terminal;
    if Started(host, token, faults) {
      StartedOwned(host, token, faults);
      StartedMeans(host, token, faults);
    } else {
      NotStartedMeans(host, token, faults);
    }
  }

  lemma {:induction false} StartedOwned(host: Host, token: string, faults: Point -> Fault)
    requires Started(host, token, faults)
    ensures Staged(host, token) && token !in host.recoveries
  {
    hide Opened;
    OpenedShape(host, token, faults);
  }

  /** The exception is real: killed after putting back one file, the lock is released over mixed files. */
  lemma {:induction false} MixedFilesReleased(host: Host, token: string, faults: Point -> Fault)
    requires Started(host, token, faults) && AllInstalled(faults)
    requires faults(WriteComplete) == After && faults(Restore(0)) == Fine && faults(Restore(1)) == Kill
    requires var candidate := Candidate(host.lock.value.stage.value);
             host.files[0] != candidate[0] && host.files[1] != candidate[1]
    ensures var after := Publication(host, token, faults).0;
            && after.files != host.files && after.files != Candidate(host.lock.value.stage.value)
            && Release(after, token).Some? && Terminal(RecoveryOf(after, token))
  {
    var ready := Opened(host, token, faults);
    var candidate := Candidate(host.lock.value.stage.value);
    OpenedShape(host, token, faults);
    AttemptedShape(ready.host, token, candidate, faults);
    var attempt := Attempted(ready.host, token, candidate, faults);
    hide Opened, Attempted, Touches, AllInstalled;
    var first := Undo(attempt.host.(files := candidate[0 := host.files[0]]), false, false);
    assert WithFile(attempt.host, 0, host.files[0]) == first.host;
    assert RestoredFrom(Undo(attempt.host, false, false), host.files, faults, 0) == RestoredFrom(first, host.files, faults, 1);
    assert RestoredFrom(first, host.files, faults, 1) == Undo(first.host, true, true);
    assert Undone(attempt.host, token, host.files, faults) == (first.host, Killed);
    assert first.host.files[0] != candidate[0] && first.host.files[1] != host.files[1];
  }

  // ---------------------------------------------------------------- histories

  datatype Operation =
    | Claiming(token: string, fault: Fault)
    | Staging(token: string, stage: Stage)
    | Publishing(token: string, faults: Point -> Fault)
    | Releasing(token: string)

  /** What one operation does to the host; a refused one does nothing. */
  function Effect(host: Host, operation: Operation): Host {
    match operation
    case Claiming(token, fault) =>
      (match Claim(host, token, fault) case None => host case Some(after) => after)
    case Staging(token, stage) =>
      if Owned(host, token) then host.(lock := Some(host.lock.value.(stage := Some(stage)))) else host
    case Publishing(token, faults) => Publication(host, token, faults).0
    case Releasing(token) =>
      (match Release(host, token) case None => host case Some(after) => after)
  }

  /** The configurations that were ever complete: the first one and everything staged since. */
  function Known(start: Config, operations: seq<Operation>): set<Config> {
    {start} + (set i | 0 <= i < |operations| && operations[i].Staging? :: Candidate(operations[i].stage))
  }

  function Reached(host: Host, operations: seq<Operation>): Host {
    if operations == [] then host else Effect(Reached(host, operations[..|operations| - 1]), operations[|operations| - 1])
  }

  ghost predicate NeverLate(operations: seq<Operation>) {
    forall i | 0 <= i < |operations| && operations[i].Publishing? :: !LateComplete(operations[i].faults)
  }

  /** With a clear recovery record the files are one complete configuration; what is staged is known. */
  ghost predicate Consistent(host: Host, known: set<Config>) {
    && ((forall token | token in host.recoveries :: Terminal(host.recoveries[token])) ==> host.files in known)
    && (host.lock.Some? && host.lock.value.stage.Some? ==> Candidate(host.lock.value.stage.value) in known)
  }

  lemma {:induction false} PublishingConsistent(host: Host, token: string, faults: Point -> Fault, known: set<Config>)
    requires Consistent(host, known) && !LateComplete(faults)
    ensures Consistent(Publication(host, token, faults).0, known)
  {
    hide Publication, LateComplete, Terminal, Candidate;
    var after := Publication(host, token, faults).0;
    if Started(host, token, faults) {
      StartedOwned(host, token, faults);
      StartedMeans(host, token, faults);
      hide Started;
      CandidateOf(host, after, token);
    } else {
      NotStartedMeans(host, token, faults);
      hide Started;
      if host.lock.Some? {
        CandidateOf(host, after, token);
      }
    }
  }

  lemma {:induction false} CandidateOf(before: Host, after: Host, token: string)
    requires Touches(before, after, token) && before.lock.Some?
    ensures after.lock.Some? && after.lock.value.stage == before.lock.value.stage
  {
    assert after.lock.value.(marker := None).stage == before.lock.value.(marker := None).stage;
  }

  lemma {:induction false} OperationConsistent(host: Host, operation: Operation, known: set<Config>)
    requires Consistent(host, known)
    requires operation.Staging? ==> Candidate(operation.stage) in known
    requires operation.Publishing? ==> !LateComplete(operation.faults)
    ensures Consistent(Effect(host, operation), known)
  {
    hide Publication, LateComplete, Terminal, Candidate;
    match operation
    case Publishing(token, faults) => PublishingConsistent(host, token, faults, known);
    case _ =>
  }

  /**
   Over every history of claims, stagings, publications and releases, each with any faults and
   kills but no late completion: a new claim is only granted over one complete configuration.
   */
  lemma {:induction false} ClaimedOverComplete(host: Host, operations: seq<Operation>)
    requires host.lock.None? && RecoveryClear(host) && NeverLate(operations)
    ensures Consistent(Reached(host, operations), Known(host.files, operations))
    ensures RecoveryClear(Reached(host, operations)) ==> Reached(host, operations).files in Known(host.files, operations)
    ensures forall token, fault :: Claim(Reached(host, operations), token, fault).Some? ==>
              Reached(host, operations).files in Known(host.files, operations)
    decreases |operations|
  {
    hide Effect, Candidate, Terminal, LateComplete;
    if operations != [] {
      var init, last := operations[..|operations| - 1], operations[|operations| - 1];
      ClaimedOverComplete(host, init);
      var known := Known(host.files, operations);
      forall config | config in Known(host.files, init) ensures config in known {
        if i :| 0 <= i < |init| && init[i].Staging? && Candidate(init[i].stage) == config {
          assert operations[i] == init[i];
        }
      }
      assert Consistent(Reached(host, init), known);
      if last.Staging? {
        assert operations[|operations| - 1].Staging?;
      }
      OperationConsistent(Reached(host, init), last, known);
    }
  }
}
