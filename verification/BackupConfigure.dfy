/**
 Publishing the three backup files with a recovery record.  Every effect may succeed, raise
 without or after taking effect, or be where the process is killed.
 */
module BackupConfigure {
  import opened Wrappers

  datatype File = File(data: seq<byte>, mode: nat)

  /** rclone configuration, backup script and restore drill, in this order. */
  type Config = files: seq<Option<File>> | |files| == 3 witness [None, None, None]

  /** What the operator staged: the three new contents. */
  type Stage = data: seq<seq<byte>> | |data| == 3 witness [[], [], []]

  /** Permission bits 0600 for the private configuration and 0750 for the scripts. */
  const PRIVATE: nat := 6 * 64
  const SCRIPT: nat := 7 * 64 + 5 * 8

  datatype Status = Pending | Complete | RolledBack | Incomplete

  datatype Recovery = Recovery(previous: Option<Config>, status: Option<Status>)

  /**
   `token` is missing when claiming was killed, `stage` until all three contents are there;
   `marker` names the recovery of a publication.
   */
  datatype Lock = Lock(token: Option<string>, stage: Option<Stage>, marker: Option<string>)

  datatype Host = Host(files: Config, lock: Option<Lock>, recoveries: map<string, Recovery>)

  datatype Fault = Fine | Before | After | Kill

  /** The effects of one publication, in the order they happen. */
  datatype Point =
    | Admit | Recheck | MakeBase | MakeRecovery | WritePrevious | WriteMarker | WritePending
    | MakeDirectory | Install(i: nat) | Quiesce | Verify | WriteComplete
    | Restore(i: nat) | Compare | WriteRollback

  datatype Progress = Go | Raised | Dead

  datatype Run = Run(host: Host, progress: Progress)

  datatype Outcome = Unchanged | Published | Refused | WasRolledBack | RollbackIncomplete | Killed

  function Candidate(stage: Stage): Config {
    [Some(File(stage[0], PRIVATE)), Some(File(stage[1], SCRIPT)), Some(File(stage[2], SCRIPT))]
  }

  predicate Terminal(recovery: Recovery) {
    recovery.status == Some(Complete) || recovery.status == Some(RolledBack)
  }

  /** No recovery needs attention. */
  predicate RecoveryClear(host: Host) {
    |host.recoveries| <= 1024 && forall token | token in host.recoveries :: Terminal(host.recoveries[token])
  }

  predicate Owned(host: Host, token: string) {
    host.lock.Some? && host.lock.value.token == Some(token)
  }

  /** Owned, and everything is staged: publication refuses a missing file. */
  predicate Staged(host: Host, token: string) {
    Owned(host, token) && host.lock.value.stage.Some?
  }

  // ---------------------------------------------------------------- effects

  /** One more effect, unless an earlier one raised. */
  function Do(run: Run, fault: Fault, after: Host): Run {
    if run.progress != Go then run
    else
      match fault
      case Fine => Run(after, Go)
      case Before => Run(run.host, Raised)
      case After => Run(after, Raised)
      case Kill => Run(run.host, Dead)
  }

  function RecoveryOf(host: Host, token: string): Recovery {
    if token in host.recoveries then host.recoveries[token] else Recovery(None, None)
  }

  function WithRecovery(host: Host, token: string, recovery: Recovery): Host {
    host.(recoveries := host.recoveries[token := recovery])
  }

  function WithStatus(host: Host, token: string, status: Status): Host {
    WithRecovery(host, token, RecoveryOf(host, token).(status := Some(status)))
  }

  function WithMarker(host: Host, token: string): Host {
    if host.lock.None? then host else host.(lock := Some(host.lock.value.(marker := Some(token))))
  }

  function WithFile(host: Host, i: nat, file: Option<File>): Host {
    if i < 3 then host.(files := host.files[i := file]) else host
  }

  /** Everything before the files are touched. */
  function Opened(host: Host, token: string, faults: Point -> Fault): Run {
    var base := Do(Run(host, Go), faults(MakeBase), host);
    var recovery :=
      if base.progress == Go && token in host.recoveries then Run(host, Raised)
      else Do(base, faults(MakeRecovery), WithRecovery(host, token, Recovery(None, None)));
    var previous := Do(recovery, faults(WritePrevious), WithRecovery(recovery.host, token, Recovery(Some(host.files), None)));
    var marker := Do(previous, faults(WriteMarker), WithMarker(previous.host, token));
    Do(marker, faults(WritePending), WithStatus(marker.host, token, Pending))
  }

  /** Files from `i` on replaced by the candidate's. */
  function InstalledFrom(run: Run, candidate: Config, faults: Point -> Fault, i: nat): Run
    decreases 3 - i
  {
    if i >= 3 then run
    else InstalledFrom(Do(run, faults(Install(i)), WithFile(run.host, i, candidate[i])), candidate, faults, i + 1)
  }

  function Attempted(host: Host, token: string, candidate: Config, faults: Point -> Fault): Run {
    var directory := Do(Run(host, Go), faults(MakeDirectory), host);
    var installed := InstalledFrom(directory, candidate, faults, 0);
    var quiet := Do(installed, faults(Quiesce), installed.host);
    var checked := Do(quiet, faults(Verify), quiet.host);
    var verified := if checked.progress == Go && checked.host.files != candidate then Run(checked.host, Raised) else checked;
    Do(verified, faults(WriteComplete), WithStatus(verified.host, token, Complete))
  }

  datatype Undo = Undo(host: Host, failed: bool, dead: bool)

  /** Files from `i` on put back; a failure is remembered and the others are still tried. */
  function RestoredFrom(undo: Undo, previous: Config, faults: Point -> Fault, i: nat): Undo
    decreases 3 - i
  {
    if i >= 3 || undo.dead then undo
    else
      var run := Do(Run(undo.host, Go), faults(Restore(i)), WithFile(undo.host, i, previous[i]));
      RestoredFrom(Undo(run.host, undo.failed || run.progress != Go, run.progress == Dead), previous, faults, i + 1)
  }

  function Undone(host: Host, token: string, previous: Config, faults: Point -> Fault): (Host, Outcome) {
    var undo := RestoredFrom(Undo(host, false, false), previous, faults, 0);
    if undo.dead || faults(Compare) == Kill then (undo.host, Killed)
    else if faults(Compare) != Fine then (undo.host, RollbackIncomplete)
    else
      var failed := undo.failed || undo.host.files != previous;
      var run := Do(Run(undo.host, Go), faults(WriteRollback), WithStatus(undo.host, token, if failed then Incomplete else RolledBack));
      (run.host,
       if run.progress == Dead then Killed
       else if failed || run.progress == Raised then RollbackIncomplete
       else WasRolledBack)
  }

  function Interrupted(run: Run): Outcome {
    if run.progress == Dead then Killed else Refused
  }

  /** The whole publication under one pattern of faults. */
  function Publication(host: Host, token: string, faults: Point -> Fault): (Host, Outcome) {
    var admitted := Do(Run(host, Go), faults(Admit), host);
    if admitted.progress != Go || !Staged(host, token) then (host, Interrupted(admitted))
    else
      var candidate := Candidate(host.lock.value.stage.value);
      if host.files == candidate then
        var again := Do(Run(host, Go), faults(Recheck), host);
        (host, if again.progress == Go then Unchanged else Interrupted(again))
      else
        var ready := Opened(host, token, faults);
        if ready.progress != Go then (ready.host, Interrupted(ready))
        else
          var attempt := Attempted(ready.host, token, candidate, faults);
          if attempt.progress == Go then (attempt.host, Published)
          else if attempt.progress == Dead then (attempt.host, Killed)
          else Undone(attempt.host, token, host.files, faults)
  }

  /** Releasing the lock: only without a publication, or with its recovery finished. */
  function Release(host: Host, token: string): Option<Host> {
    if !Owned(host, token) then None
    else
      match host.lock.value.marker
      case None => Some(host.(lock := None))
      case Some(reference) =>
        if reference == token && Terminal(RecoveryOf(host, token)) then Some(host.(lock := None)) else None
  }

  /** Claiming the lock; `fault` strikes between taking it and writing its token. */
  function Claim(host: Host, token: string, fault: Fault): Option<Host> {
    if !RecoveryClear(host) || host.lock.Some? then None
    else
      match fault
      case Fine => Some(host.(lock := Some(Lock(Some(token), None, None))))
      case Kill => Some(host.(lock := Some(Lock(None, None, None))))
      case _ => None
  }

  // ---------------------------------------------------------------- in place

  class Configurator {
    var host: Host
    const faults: Point -> Fault

    constructor (host: Host, faults: Point -> Fault)
      ensures this.host == host && this.faults == faults
    {
      this.host, this.faults := host, faults;
    }

    /** One effect on the host. */
    method Effect(point: Point, after: Host) returns (progress: Progress)
      modifies this`host
      ensures Run(host, progress) == Do(Run(old(host), Go), faults(point), after)
    {
      match faults(point)
      case Fine => host := after; progress := Go;
      case Before => progress := Raised;
      case After => host := after; progress := Raised;
      case Kill => progress := Dead;
    }

    /** Record what is there and announce the publication, before any file is touched. */
    method Open(token: string) returns (progress: Progress)
      modifies this`host
      ensures Run(host, progress) == Opened(old(host), token, faults)
    {
      var previous := host.files;
      progress := Effect(MakeBase, host);
      if progress == Go && token in host.recoveries {
        return Raised;
      }
      if progress == Go {
        progress := Effect(MakeRecovery, WithRecovery(host, token, Recovery(None, None)));
      }
      if progress == Go {
        progress := Effect(WritePrevious, WithRecovery(host, token, Recovery(Some(previous), None)));
      }
      if progress == Go {
        progress := Effect(WriteMarker, WithMarker(host, token));
      }
      if progress == Go {
        progress := Effect(WritePending, WithStatus(host, token, Pending));
      }
    }

    method Attempt(token: string, candidate: Config) returns (progress: Progress)
      modifies this`host
      ensures Run(host, progress) == Attempted(old(host), token, candidate, faults)
    {
      hide WithFile, WithStatus;
      ghost var start := host;
      progress := Effect(MakeDirectory, host);
      ghost var goal := InstalledFrom(Run(host, progress), candidate, faults, 0);
      for i := 0 to 3
        invariant InstalledFrom(Run(host, progress), candidate, faults, i) == goal
      {
        if progress == Go {
          progress := Effect(Install(i), WithFile(host, i, candidate[i]));
        }
      }
      if progress == Go {
        progress := Effect(Quiesce, host);
      }
      if progress == Go {
        progress := Effect(Verify, host);
      }
      if progress == Go && host.files != candidate {
        progress := Raised;
      }
      if progress == Go {
        progress := Effect(WriteComplete, WithStatus(host, token, Complete));
      }
    }

    /** The exception handler: put everything back, look, and record how it went. */
    method Rollback(token: string, previous: Config) returns (outcome: Outcome)
      modifies this`host
      ensures (host, outcome) == Undone(old(host), token, previous, faults)
    {
      hide WithFile, WithStatus;
      var failed := false;
      ghost var goal := RestoredFrom(Undo(host, false, false), previous, faults, 0);
      for i := 0 to 3
        invariant RestoredFrom(Undo(host, failed, false), previous, faults, i) == goal
      {
        var progress := Effect(Restore(i), WithFile(host, i, previous[i]));
        failed := failed || progress != Go;
        if progress == Dead {
          return Killed;
        }
      }
      var compared := Effect(Compare, host);
      if compared != Go {
        return if compared == Dead then Killed else RollbackIncomplete;
      }
      failed := failed || host.files != previous;
      var progress := Effect(WriteRollback, WithStatus(host, token, if failed then Incomplete else RolledBack));
      outcome := if progress == Dead then Killed else if failed || progress == Raised then RollbackIncomplete else WasRolledBack;
    }

    method Publish(token: string) returns (outcome: Outcome)
      modifies this`host
      ensures (host, outcome) == Publication(old(host), token, faults)
    {
      hide Opened, Attempted, Undone;
      var previous := host.files;
      var progress := Effect(Admit, host);
      if progress != Go || !Staged(host, token) {
        return if progress == Dead then Killed else Refused;
      }
      var candidate := Candidate(host.lock.value.stage.value);
      if previous == candidate {
        progress := Effect(Recheck, host);
        return if progress == Go then Unchanged else if progress == Dead then Killed else Refused;
      }
      progress := Open(token);
      if progress != Go {
        return if progress == Dead then Killed else Refused;
      }
      progress := Attempt(token, candidate);
      if progress == Go {
        outcome := Published;
      } else if progress == Dead {
        outcome := Killed;
      } else {
        outcome := Rollback(token, previous);
      }
    }
  }
}
