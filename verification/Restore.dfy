/** Restoring a backup by swapping SQLite file sets, and the recovery that completes it after a crash.
    The old database and the snapshot are never mixed. */
module Restore {
  import opened Wrappers

  /** The main database file and SQLite's sidecars. */
  datatype Suffix = Main | Wal | Shm

  /** Which database a file belongs to. */
  datatype Generation = Old | Snapshot

  datatype Copy = PartialCopy | VerifiedCopy

  /** The active files, the staged snapshot, and the quarantine of one restore operation. */
  datatype FileSet = FileSet(active: map<Suffix, Generation>, staged: Option<Copy>, quarantine: map<Suffix, Generation>)

  datatype Stage = Prepared | ActiveQuarantined | InstallingSnapshot | Failed

  datatype RestoreError =
    | MaintenanceIncomplete
    | BackupRefused
    | StagingInvalid
    | IoFailed
    | AmbiguousFileSet
    | ActiveDatabaseMissing
    | VerificationFailed

  datatype Exit = Done | NothingToRecover | Threw(error: RestoreError) | Crashed

  /** How one file operation ends: the change is made or not, and the process survives or not. */
  datatype Fate = Succeeds | Fails | DiesBefore | DiesAfter

  // ---- what a file set may be ----

  /** The old database, whole: every file it had is active, and nothing of it is in quarantine. */
  ghost predicate OldComplete(f: FileSet, originals: set<Suffix>) {
    && (forall s <- originals :: s in f.active) && (forall s <- f.active :: f.active[s].Old?)
    && f.quarantine == map[]
  }

  /** The snapshot, with no sidecar of the old database beside it; the old files are all kept in quarantine. */
  ghost predicate SnapshotComplete(f: FileSet, originals: set<Suffix>) {
    && Main in f.active && (forall s <- f.active :: f.active[s].Snapshot?)
    && (forall s <- originals :: s in f.quarantine) && (forall s <- f.quarantine :: f.quarantine[s].Old?)
  }

  /** No active main file: the old files are in one place or the other, the main one in quarantine. */
  ghost predicate Between(f: FileSet, originals: set<Suffix>) {
    && Main !in f.active && Main in f.quarantine && f.staged != Some(PartialCopy)
    && (forall s <- f.active :: f.active[s].Old? && s !in f.quarantine) && (forall s <- f.quarantine :: f.quarantine[s].Old?)
    && (forall s <- originals :: s in f.active || s in f.quarantine)
  }

  /** The invariant between any two file operations. */
  ghost predicate Sound(f: FileSet, originals: set<Suffix>) {
    && Main in originals
    && if Main in f.active then OldComplete(f, originals) || SnapshotComplete(f, originals) else Between(f, originals)
  }

  // ---- the file operations ----

  function Quarantined(f: FileSet, s: Suffix): FileSet
    requires s in f.active
  {
    f.(active := f.active - {s}, quarantine := f.quarantine[s := f.active[s]])
  }

  function Returned(f: FileSet, s: Suffix): FileSet
    requires s in f.quarantine
  {
    f.(active := f.active[s := f.quarantine[s]], quarantine := f.quarantine - {s})
  }

  function Installed(f: FileSet): FileSet {
    f.(active := f.active[Main := Snapshot], staged := None)
  }

  lemma QuarantineMain(f: FileSet, originals: set<Suffix>)
    requires Main in f.active && OldComplete(f, originals) && Main in originals && f.staged == Some(VerifiedCopy)
    ensures Sound(Quarantined(f, Main), originals)
  {
  }

  lemma QuarantineSidecar(f: FileSet, originals: set<Suffix>, s: Suffix)
    requires Sound(f, originals) && Main !in f.active && s in f.active
    ensures Sound(Quarantined(f, s), originals)
  {
  }

  lemma ReturnSidecar(f: FileSet, originals: set<Suffix>, s: Suffix)
    requires Sound(f, originals) && Main !in f.active && s in f.quarantine && s != Main
    ensures Sound(Returned(f, s), originals)
  {
  }

  /** The main file comes back last. */
  lemma ReturnMain(f: FileSet, originals: set<Suffix>)
    requires Sound(f, originals) && Main !in f.active && Wal !in f.quarantine && Shm !in f.quarantine
    ensures Main in f.quarantine && Sound(Returned(f, Main), originals) && OldComplete(Returned(f, Main), originals)
    ensures Main in Returned(f, Main).active && Returned(f, Main).active[Main].Old?
  {
    forall s | s in f.quarantine ensures s == Main {
      assert s == Main || s == Wal || s == Shm;
    }
    assert Returned(f, Main).quarantine == map[];
  }

  /** The snapshot goes in only once every old file is out of its way. */
  lemma InstallSnapshot(f: FileSet, originals: set<Suffix>)
    requires Sound(f, originals) && f.active == map[]
    ensures Sound(Installed(f), originals) && SnapshotComplete(Installed(f), originals)
  {
  }

  /** The staging directory may be lost at any time; the file set stays sound. */
  lemma LosingStagingIsSound(f: FileSet, originals: set<Suffix>)
    requires Sound(f, originals)
    ensures Sound(f.(staged := None), originals)
  {
  }

  /** An old -wal never sits beside the snapshot. */
  lemma GenerationsNeverMix(f: FileSet, originals: set<Suffix>, s: Suffix, t: Suffix)
    requires Sound(f, originals) && s in f.active && t in f.active
    ensures f.active[s] == f.active[t]
  {
  }

  /** Recovery always has a file set to go back or forward to, and never an ambiguous one. */
  lemma RecoveryIsNeverStuck(f: FileSet, originals: set<Suffix>)
    requires Sound(f, originals)
    ensures Main in f.active || f.staged == Some(VerifiedCopy) || (f.staged.None? && Main in f.quarantine)
    ensures Main !in f.active ==> forall s :: !(s in f.active && s in f.quarantine)
  {
    if f.staged.Some? {
      assert f.staged.value.PartialCopy? || f.staged.value.VerifiedCopy?;
    }
  }

  // ---- the commands ----

  const SUFFIXES := [Main, Wal, Shm]
  const SIDECARS := [Wal, Shm]

  /** The environment directory. `fateAt` decides how each file operation ends. */
  class Disk {
    var files: FileSet
    var marker: Option<Stage>
    var clock: nat
    const fateAt: nat -> Fate

    constructor (fateAt: nat -> Fate, active: map<Suffix, Generation>)
      ensures this.fateAt == fateAt && files == FileSet(active, None, map[]) && marker == None
    {
      this.fateAt := fateAt;
      files, marker, clock := FileSet(active, None, map[]), None, 0;
    }

    /** From now on every file operation succeeds. */
    ghost predicate Calm()
      reads this`clock
    {
      forall t :: t >= clock ==> fateAt(t).Succeeds?
    }

    /** One atomic change of the file set. */
    method Change(next: FileSet) returns (exit: Exit)
      modifies this`files, this`clock
      ensures files == next || files == old(files)
      ensures exit == Done ==> files == next
      ensures exit.Done? || exit == Threw(IoFailed) || exit.Crashed?
      ensures old(Calm()) ==> Calm() && exit.Done?
    {
      var fate := fateAt(clock);
      clock := clock + 1;
      if fate.Succeeds? || fate.DiesAfter? {
        files := next;
      }
      return match fate case Succeeds => Done case Fails => Threw(IoFailed) case _ => Crashed;
    }

    method WriteMarker(next: Option<Stage>) returns (exit: Exit)
      modifies this`marker, this`clock
      ensures marker == next || marker == old(marker)
      ensures exit == Done ==> marker == next
      ensures exit.Done? || exit == Threw(IoFailed) || exit.Crashed?
      ensures exit == Threw(IoFailed) ==> marker == old(marker)
      ensures old(Calm()) ==> Calm() && exit.Done?
    {
      var fate := fateAt(clock);
      clock := clock + 1;
      if fate.Succeeds? || fate.DiesAfter? {
        marker := next;
      }
      return match fate case Succeeds => Done case Fails => Threw(IoFailed) case _ => Crashed;
    }

    /** Opens the active database and verifies it. SQLite makes sidecars of its own beside it; beside the snapshot,
        which is opened for writing, it also removes them when it closes. */
    method OpenAndVerify(sidecars: set<Suffix>, healthy: bool, ghost originals: set<Suffix>) returns (exit: Exit)
      requires Sound(files, originals) && Main in files.active
      modifies this`files, this`clock
      ensures Sound(files, originals) && Main in files.active && files.active[Main] == old(files).active[Main]
      ensures exit.Done? || exit == Threw(VerificationFailed) || exit == Threw(IoFailed) || exit.Crashed?
      ensures old(Calm()) ==> Calm() && (healthy ==> exit.Done?)
    {
      var generation := files.active[Main];
      var left := sidecars + (if generation.Old? then files.active.Keys else {Main});
      exit := Change(files.(active := map s | s in left :: generation));
      if exit.Done? && !healthy {
        return Threw(VerificationFailed);
      }
    }

    /** The handler of a failed restore. */
    method Abort(error: RestoreError) returns (exit: Exit)
      requires marker.Some?
      modifies this`marker, this`clock
      ensures marker.Some? && (exit == Threw(error) || exit == Threw(IoFailed) || exit.Crashed?)
    {
      exit := WriteMarker(Some(Failed));
      return if exit.Done? then Threw(error) else exit;
    }

    /** Copies the backup to staging and checks it, before any active file is touched. */
    method StageSnapshot(copied: bool, healthy: bool, ghost originals: set<Suffix>) returns (exit: Exit)
      requires Sound(files, originals) && Main in files.active
      modifies this`files, this`clock
      ensures Sound(files, originals) && files.active == old(files).active && files.quarantine == old(files).quarantine
      ensures exit.Done? ==> files.staged == Some(VerifiedCopy)
      ensures exit.Done? || exit == Threw(IoFailed) || exit == Threw(StagingInvalid) || exit.Crashed?
      ensures old(Calm()) ==> Calm() && (copied && healthy ==> exit.Done?)
    {
      exit := Change(files.(staged := Some(PartialCopy)));
      if !exit.Done? {
        return;
      }
      if !copied || !healthy {
        return Threw(StagingInvalid);
      }
      exit := Change(files.(staged := Some(VerifiedCopy)));
    }

    /** Moves the active files to quarantine, the main file first. */
    method QuarantineAll(ghost originals: set<Suffix>) returns (exit: Exit)
      requires Sound(files, originals) && OldComplete(files, originals) && files.staged == Some(VerifiedCopy)
      modifies this`files, this`clock
      ensures Sound(files, originals)
      ensures exit.Done? ==> files.active == map[] && files.staged == Some(VerifiedCopy)
      ensures exit.Done? || exit == Threw(IoFailed) || exit.Crashed?
      ensures old(Calm()) ==> Calm() && exit.Done?
    {
      for i := 0 to |SUFFIXES|
        invariant old(Calm()) ==> Calm()
        invariant Sound(files, originals) && files.staged == Some(VerifiedCopy)
        invariant i == 0 ==> OldComplete(files, originals)
        invariant forall k :: 0 <= k < i ==> SUFFIXES[k] !in files.active
      {
        var s := SUFFIXES[i];
        if s in files.active {
          if i == 0 {
            QuarantineMain(files, originals);
          } else {
            assert SUFFIXES[0] == Main;
            QuarantineSidecar(files, originals, s);
          }
          exit := Change(Quarantined(files, s));
          if !exit.Done? {
            return;
          }
        }
      }
      forall s ensures s !in files.active {
        assert s == SUFFIXES[0] || s == SUFFIXES[1] || s == SUFFIXES[2];
      }
      return Done;
    }

    /** restoreEnvironment. `accepted`, `copied` and `healthy` are what the checks of the backup, the copy and
        the databases find. */
    method RestoreEnvironment(accepted: bool, copied: bool, healthy: bool, sidecars: set<Suffix>, ghost originals: set<Suffix>)
      returns (exit: Exit)
      requires marker.None? ==> Sound(files, originals) && OldComplete(files, originals)
      requires marker.Some? ==> Sound(files, originals)
      modifies this`files, this`marker, this`clock
      ensures Sound(files, originals)
      ensures exit.Done? ==> marker == None && SnapshotComplete(files, originals)
      ensures marker.None? ==> OldComplete(files, originals) || SnapshotComplete(files, originals)
      ensures old(marker).Some? ==> exit == Threw(MaintenanceIncomplete) && files == old(files) && marker == old(marker)
      ensures old(marker).None? && old(Calm()) && accepted && copied && healthy ==> exit.Done?
    {
      if marker.Some? {
        return Threw(MaintenanceIncomplete);
      }
      exit := WriteMarker(Some(Prepared));
      if !exit.Done? {
        return;
      }
      exit := Swap(accepted, copied, healthy, sidecars, originals);
      if exit.Threw? {
        exit := Abort(exit.error);
        return;
      }
      if exit.Done? {
        exit := WriteMarker(None);
        if exit.Threw? {
          exit := Abort(exit.error);
        }
      }
    }

    /** Stages, quarantines and installs. */
    method Swap(accepted: bool, copied: bool, healthy: bool, sidecars: set<Suffix>, ghost originals: set<Suffix>)
      returns (exit: Exit)
      requires Sound(files, originals) && OldComplete(files, originals) && marker.Some?
      modifies this`files, this`marker, this`clock
      ensures Sound(files, originals) && marker.Some?
      ensures exit.Done? ==> SnapshotComplete(files, originals)
      ensures old(Calm()) ==> Calm() && (accepted && copied && healthy ==> exit.Done?)
    {
      if !accepted {
        return Threw(BackupRefused);
      }
      exit := StageSnapshot(copied, healthy, originals);
      if !exit.Done? {
        return;
      }
      exit := WriteMarker(Some(ActiveQuarantined));
      if !exit.Done? {
        return;
      }
      exit := QuarantineAll(originals);
      if !exit.Done? {
        return;
      }
      exit := WriteMarker(Some(InstallingSnapshot));
      if !exit.Done? {
        return;
      }
      InstallSnapshot(files, originals);
      exit := Change(Installed(files));
      if !exit.Done? {
        return;
      }
      exit := OpenAndVerify(sidecars, healthy, originals);
    }

    /** quarantineActiveRestoreSidecars. */
    method QuarantineSidecars(ghost originals: set<Suffix>) returns (exit: Exit)
      requires Sound(files, originals) && Main !in files.active
      modifies this`files, this`clock
      ensures Sound(files, originals) && Main !in files.active && files.staged == old(files).staged
      ensures exit.Done? ==> files.active == map[]
      ensures exit.Done? || exit == Threw(IoFailed) || exit == Threw(AmbiguousFileSet) || exit.Crashed?
      ensures old(Calm()) ==> Calm() && exit.Done?
    {
      hide Between, OldComplete, SnapshotComplete, Sound;
      for i := 0 to |SIDECARS|
        invariant old(Calm()) ==> Calm()
        invariant Sound(files, originals) && Main !in files.active && files.staged == old(files).staged
        invariant forall k :: 0 <= k < i ==> SIDECARS[k] !in files.active
      {
        var s := SIDECARS[i];
        RecoveryIsNeverStuck(files, originals);
        if s in files.active {
          if s in files.quarantine {
            return Threw(AmbiguousFileSet);
          }
          QuarantineSidecar(files, originals, s);
          exit := Change(Quarantined(files, s));
          if !exit.Done? {
            return;
          }
        }
      }
      forall s ensures s !in files.active {
        assert s == Main || s == SIDECARS[0] || s == SIDECARS[1];
      }
      return Done;
    }

    /** restoreQuarantinedFileSet: sidecars first, the main file last. */
    method ReturnFileSet(ghost originals: set<Suffix>) returns (exit: Exit)
      requires Sound(files, originals) && Main !in files.active && Main in files.quarantine
      modifies this`files, this`clock
      ensures Sound(files, originals)
      ensures exit.Done? ==> Main in files.active && files.active[Main].Old?
      ensures exit.Done? || exit == Threw(IoFailed) || exit == Threw(AmbiguousFileSet) || exit.Crashed?
      ensures old(Calm()) ==> Calm() && exit.Done?
    {
      hide Between, OldComplete, SnapshotComplete, Sound;
      for i := 0 to |SIDECARS|
        invariant old(Calm()) ==> Calm()
        invariant Sound(files, originals) && Main !in files.active && Main in files.quarantine
        invariant forall k :: 0 <= k < i ==> SIDECARS[k] !in files.quarantine
      {
        var s := SIDECARS[i];
        RecoveryIsNeverStuck(files, originals);
        if s in files.active && s in files.quarantine {
          return Threw(AmbiguousFileSet);
        }
        if s in files.quarantine {
          ReturnSidecar(files, originals, s);
          exit := Change(Returned(files, s));
          if !exit.Done? {
            return;
          }
        }
      }
      assert SIDECARS[0] == Wal && SIDECARS[1] == Shm;
      ReturnMain(files, originals);
      exit := Change(Returned(files, Main));
    }

    /** recoverEnvironment on a RESTORE marker. */
    method RecoverEnvironment(healthy: bool, sidecars: set<Suffix>, ghost originals: set<Suffix>) returns (exit: Exit)
      requires Sound(files, originals)
      requires marker.None? ==> Main in files.active
      modifies this`files, this`marker, this`clock
      ensures Sound(files, originals)
      ensures exit.NothingToRecover? <==> old(marker).None?
      ensures marker.None? ==> Main in files.active
      ensures exit.Done? ==>
                && marker == None && Main in files.active
                && files.active[Main] == if Main in old(files).active then old(files).active[Main]
                                         else if old(files).staged.Some? then Snapshot else Old
      ensures old(marker).Some? && old(Calm()) && healthy ==> exit.Done?
    {
      hide Between, OldComplete, SnapshotComplete, Sound;
      if marker.None? {
        return NothingToRecover;
      }
      RecoveryIsNeverStuck(files, originals);
      if Main !in files.active {
        if files.staged.Some? {
          exit := QuarantineSidecars(originals);
          if !exit.Done? {
            return;
          }
          InstallSnapshot(files, originals);
          exit := Change(Installed(files));
          if !exit.Done? {
            return;
          }
        } else if Main in files.quarantine {
          exit := ReturnFileSet(originals);
          if !exit.Done? {
            return;
          }
        }
      }
      if Main !in files.active {
        return Threw(ActiveDatabaseMissing);
      }
      exit := OpenAndVerify(sidecars, healthy, originals);
      if !exit.Done? {
        return;
      }
      exit := WriteMarker(None);
    }
  }

  /** What happens between a restore and its completion. */
  datatype Event = Recovery(healthy: bool, sidecars: set<Suffix>) | StagingLost

  /** A restore that may fail or die anywhere, then any recoveries that may fail or die too, with the staging
      directory possibly lost between them: the files stay sound throughout, and once no marker is left they are
      the whole old database or the snapshot alone. */
  method RestoreAndRecover(disk: Disk, accepted: bool, copied: bool, healthy: bool, sidecars: set<Suffix>,
                           events: seq<Event>, ghost originals: set<Suffix>)
    requires disk.marker.None? && Sound(disk.files, originals) && OldComplete(disk.files, originals)
    modifies disk
    ensures Sound(disk.files, originals)
    ensures disk.marker.None? ==> OldComplete(disk.files, originals) || SnapshotComplete(disk.files, originals)
  {
    var exit := disk.RestoreEnvironment(accepted, copied, healthy, sidecars, originals);
    for i := 0 to |events|
      invariant Sound(disk.files, originals)
      invariant disk.marker.None? ==> Main in disk.files.active
    {
      match events[i]
      case Recovery(ok, made) =>
        exit := disk.RecoverEnvironment(ok, made, originals);
      case StagingLost =>
        LosingStagingIsSound(disk.files, originals);
        disk.files := disk.files.(staged := None);
    }
  }
}
