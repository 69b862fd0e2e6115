/** runProjectionMaintenance: the durable marker around a rebuild or a reindex, and the recovery barrier it met. */
module Maintenance {
  import opened Wrappers
  import opened Domain
  import opened JournalDatabase
  import opened ProjectionStore
  import opened IngestRange
  import opened CatchUp

  datatype Operation = RebuildProjection | ReindexProjection | OtherMaintenance

  datatype Stage = Prepared | Active | Failed

  datatype Phase = Preparing | CatchingUp

  /** Deployment, environment, database path and schema contract a marker was written for. */
  datatype Owner = Owner(deploymentId: string, environmentId: string, databasePath: string, schemaContract: string)

  datatype ReindexTarget = ReindexTarget(number: nat, hash: Hash)

  datatype Recovery = Recovery(from: nat, target: ReindexTarget)

  datatype Marker = Marker(
    operationId: nat, operation: Operation, stage: Stage, owner: Owner, recovery: Option<Recovery>,
    backupId: Option<nat>, phase: Option<Phase>, lastError: Option<MaintenanceError>, transitionedFrom: Option<nat>)

  datatype MaintenanceError =
    | MaintenanceIncomplete
    | ReindexTargetChanged
    | ReindexTargetNotAvailable
    | TargetUnreadable(read: IngestError)
    | RecoveryOperationNotAllowed(reason: Option<string>)
    | DatabaseUnusable
    | ContractUnsupported(open: OpenError)
    | BackupUnverified
    | StoreRejected(cause: StoreError)
    | CatchUpFailed(catchUp: CatchUpError)
    | CatchUpIncomplete
    | RecoveryPostconditionIncomplete

  /** How an attempt ends: Crashed is process death, which runs no handler. */
  datatype Exit = Done(operationId: nat) | Threw(error: MaintenanceError) | Crashed

  /** How opening and verifying the database ends; one that fails the verification may refuse writes, too. */
  datatype Opening = Opens | OpenFails | VerificationFails(writable: bool)

  /** What outlives a process: the marker file, the backups and the database. How each opening ends is arbitrary. */
  class Environment {
    var marker: Option<Marker>
    var backups: map<nat, nat>
    var nextId: nat
    var lives: nat
    var openings: nat
    const openingAt: nat -> Opening
    const database: Database

    constructor (database: Database, openingAt: nat -> Opening)
      ensures this.database == database && this.openingAt == openingAt && marker == None
    {
      this.database, this.openingAt := database, openingAt;
      marker, backups, nextId, lives, openings := None, map[], 0, 0, 0;
    }

    /** From now on the database opens and verifies. */
    ghost predicate Healthy()
      reads this`openings
    {
      forall t :: t >= openings ==> openingAt(t).Opens?
    }

    method OpenDatabase() returns (opening: Opening)
      modifies this`openings
      ensures old(Healthy()) ==> Healthy() && opening.Opens?
    {
      opening := openingAt(openings);
      openings := openings + 1;
    }

    /** A crash point before a durable write: an arbitrary budget of writes before the process dies. */
    method Survives() returns (alive: bool)
      modifies this`lives
      ensures alive <==> old(lives) > 0
      ensures lives == if alive then old(lives) - 1 else old(lives)
    {
      alive := lives > 0;
      if alive {
        lives := lives - 1;
      }
    }

    method NextId() returns (id: nat)
      modifies this`nextId
    {
      id := nextId;
      nextId := nextId + 1;
    }
  }

  /** A reindex from the scan start may take over from a rebuild that found its source incomplete. */
  predicate TakesOver(existing: Marker, operation: Operation, fromScanStart: bool) {
    && fromScanStart && operation.ReindexProjection? && existing.operation.RebuildProjection? && existing.stage.Failed?
    && existing.lastError == Some(StoreRejected(RebuildSourceIncomplete))
  }

  /** Whose marker is it? Success(true) when it is taken over. */
  method CheckOwner(env: Environment, operation: Operation, owner: Owner, fromScanStart: bool)
    returns (r: Result<bool, MaintenanceError>)
    ensures r == match env.marker
                 case None => Success(false)
                 case Some(m) =>
                   if m.owner != owner then Failure(MaintenanceIncomplete)
                   else if TakesOver(m, operation, fromScanStart) then Success(true)
                   else if m.operation != operation then Failure(MaintenanceIncomplete)
                   else Success(false)
  {
    if env.marker.None? {
      return Success(false);
    }
    var existing := env.marker.value;
    if TakesOver(existing, operation, fromScanStart) {
      return if existing.owner != owner then Failure(MaintenanceIncomplete) else Success(true);
    }
    if existing.operation != operation || existing.owner != owner {
      return Failure(MaintenanceIncomplete);
    }
    return Success(false);
  }

  /** The barrier the run met: its reason while RECOVERY_REQUIRED. */
  function Barrier(db: Db): Option<Option<string>> {
    if db.status.RecoveryRequired? then Some(db.reason) else None
  }

  /** A rebuild may only lift a barrier raised by the projectors. */
  predicate Allowed(operation: Operation, db: Db) {
    operation.RebuildProjection? && db.status.RecoveryRequired? ==> db.reason == Some("PROJECTOR_INTEGRITY")
  }

  /** The marker an attempt starts from: a resumed one keeps its operation, backup and phase. */
  function PreparedMarker(existing: Option<Marker>, taken: bool, operation: Operation, owner: Owner,
                          recovery: Option<Recovery>, newId: nat): Marker
  {
    Marker(
      if existing.Some? && !taken then existing.value.operationId else newId,
      operation, Prepared, owner, recovery,
      if existing.Some? then existing.value.backupId else None,
      if existing.Some? then existing.value.phase else None,
      None,
      if existing.None? then None
      else if taken then Some(existing.value.operationId) else existing.value.transitionedFrom)
  }

  datatype Begun =
    | Refused(error: MaintenanceError)
    | BeginCrashed
    | BeginFailed(error: MaintenanceError)
    | Began(barrier: Option<Option<string>>)

  /** Opens and verifies the database and writes the marker as ACTIVE. If it does not open, the marker is written as
      FAILED, unless the barrier the run met cannot be put back first. */
  method Activate(env: Environment, prepared: Marker, barrier: Option<Option<string>>) returns (r: Begun)
    requires env.marker.Some?
    modifies env`marker, env`lives, env`openings
    ensures r == Began(barrier) || r == BeginFailed(DatabaseUnusable) || r.BeginCrashed?
    ensures r.Began? ==> env.marker == Some(prepared.(stage := Active))
    ensures r.BeginFailed? ==>
              || env.marker == Some(prepared.(stage := Failed, lastError := Some(DatabaseUnusable)))
              || (env.marker == old(env.marker) && barrier.Some?)
    ensures r.BeginCrashed? ==> env.marker == old(env.marker)
    ensures old(env.Healthy()) ==> env.Healthy() && !r.BeginFailed?
    ensures old(env.lives) >= 1 ==> !r.BeginCrashed? && env.lives >= old(env.lives) - 1
  {
    var opening := env.OpenDatabase();
    if opening == VerificationFails(false) && barrier.Some? {
      return BeginFailed(DatabaseUnusable);
    }
    var alive := env.Survives();
    if !alive {
      return BeginCrashed;
    }
    if opening.Opens? {
      env.marker := Some(prepared.(stage := Active));
      return Began(barrier);
    }
    env.marker := Some(prepared.(stage := Failed, lastError := Some(DatabaseUnusable)));
    return BeginFailed(DatabaseUnusable);
  }

  /** Checks the recovery and the barrier, writes the marker as PREPARED, opens and verifies the database, and writes the
      marker as ACTIVE. */
  method Begin(env: Environment, operation: Operation, owner: Owner, recovery: Option<Recovery>, taken: bool)
    returns (r: Begun)
    requires taken ==> env.marker.Some?
    modifies env
    ensures r.Refused? ==> env.marker == old(env.marker)
    ensures r.Began? ==>
              && r.barrier == Barrier(env.database.State()) && Allowed(operation, env.database.State())
              && (old(env.marker).Some? && !taken ==> old(env.marker).value.recovery == recovery)
              && exists id :: env.marker == Some(PreparedMarker(old(env.marker), taken, operation, owner, recovery, id).(stage := Active))
    ensures r.BeginCrashed? ==>
              || env.marker == old(env.marker)
              || exists id :: env.marker == Some(PreparedMarker(old(env.marker), taken, operation, owner, recovery, id))
    ensures r.BeginFailed? ==>
              && r.error == DatabaseUnusable && env.marker.Some?
              && exists id ::
                   var prepared := PreparedMarker(old(env.marker), taken, operation, owner, recovery, id);
                   || env.marker == Some(prepared.(stage := Failed, lastError := Some(DatabaseUnusable)))
                   || (Barrier(env.database.State()).Some? && (env.marker == Some(prepared) || env.marker == old(env.marker)))
    ensures !r.Refused? && old(env.marker).Some? && !taken ==> old(env.marker).value.recovery == recovery
    ensures r.Refused? ==>
              || (old(env.marker).Some? && !taken && old(env.marker).value.recovery != recovery)
              || !Allowed(operation, env.database.State()) || r.error == DatabaseUnusable
    ensures old(env.Healthy()) ==> env.Healthy() && !r.BeginFailed? && (r.Refused? ==> r.error != DatabaseUnusable)
    ensures old(env.lives) >= 2 ==> !r.BeginCrashed? && env.lives >= old(env.lives) - 2
    ensures env.backups == old(env.backups)
  {
    hide PreparedMarker, Environment.Healthy, Barrier, Allowed;
    var existing := env.marker;
    if existing.Some? && !taken && existing.value.recovery != recovery {
      return Refused(MaintenanceIncomplete);
    }
    var policy := env.OpenDatabase();
    if policy.OpenFails? {
      return Refused(DatabaseUnusable);
    }
    var state := env.database.State();
    if !Allowed(operation, state) {
      return Refused(RecoveryOperationNotAllowed(state.reason));
    }
    var id := env.NextId();
    var prepared := PreparedMarker(existing, taken, operation, owner, recovery, id);
    if existing.None? || taken {
      var alive := env.Survives();
      if !alive {
        return BeginCrashed;
      }
      env.marker := Some(prepared);
    }
    r := Activate(env, prepared, Barrier(state));
  }

  /** The handler: a barrier the run met is put back before the marker is written as FAILED. */
  method Fail(env: Environment, barrier: Option<Option<string>>, error: MaintenanceError) returns (exit: Exit)
    requires env.database.Valid() && env.marker.Some?
    modifies env, env.database`status, env.database`reason
    ensures env.database.Valid() && StatusOnly(old(env.database.State()), env.database.State())
    ensures exit.Threw? || exit.Crashed?
    ensures exit.Threw? ==>
              && exit.error == error
              && env.marker == Some(old(env.marker).value.(stage := Failed, lastError := Some(error)))
              && (barrier.Some? ==> env.database.status.RecoveryRequired?)
    ensures exit.Crashed? ==> env.marker == old(env.marker)
    ensures env.backups == old(env.backups)
    ensures old(env.database.status).RecoveryRequired? ==> env.database.State() == old(env.database.State())
    ensures barrier.None? ==> env.database.State() == old(env.database.State())
    ensures env.database.status.RecoveryRequired? || env.database.State() == old(env.database.State())
  {
    if barrier.Some? {
      var alive := env.Survives();
      if !alive {
        return Crashed;
      }
      if !env.database.status.RecoveryRequired? {
        env.database.SetStatus(RecoveryRequired, barrier.value);
      }
    }
    var alive := env.Survives();
    if !alive {
      return Crashed;
    }
    env.marker := Some(env.marker.value.(stage := Failed, lastError := Some(error)));
    return Threw(error);
  }

  /** The barrier is discharged: the projection is in use again, with no reason. */
  predicate Discharged(db: Db) {
    (db.status.Current? || db.status.Syncing?) && db.reason.None?
  }

  /** A run that met the barrier must have discharged it before its marker is removed. */
  method Finish(env: Environment, barrier: Option<Option<string>>) returns (exit: Exit)
    requires env.database.Valid() && env.marker.Some?
    modifies env, env.database`status, env.database`reason
    ensures env.database.Valid()
    ensures exit.Done? ==>
              && env.marker == None && env.database.State() == old(env.database.State())
              && exit.operationId == old(env.marker).value.operationId
              && (barrier.Some? ==> Discharged(env.database.State()))
    ensures !exit.Done? ==>
              && StatusOnly(old(env.database.State()), env.database.State())
              && env.marker.Some?
              && env.marker.value == old(env.marker).value.(stage := env.marker.value.stage, lastError := env.marker.value.lastError)
              && (env.database.status.RecoveryRequired? || env.database.State() == old(env.database.State()))
    ensures barrier.Some? && exit.Threw? ==> env.database.status.RecoveryRequired?
    ensures env.backups == old(env.backups)
    ensures Discharged(old(env.database.State())) ==> env.database.State() == old(env.database.State()) && !exit.Threw?
    ensures Discharged(old(env.database.State())) && old(env.lives) > 0 ==> exit.Done?
  {
    if barrier.Some? && !Discharged(env.database.State()) {
      exit := Fail(env, barrier, RecoveryPostconditionIncomplete);
      return;
    }
    var alive := env.Survives();
    if !alive {
      return Crashed;
    }
    var id := env.marker.value.operationId;
    env.marker := None;
    return Done(id);
  }

  // ---- the rebuild command ----

  /** Nothing but a crash stands in the way of a rebuild. */
  ghost predicate Rebuildable(env: Environment, owner: Owner, scope: string, buildId: nat)
    reads env, env.database
  {
    var db := env.database.State();
    && env.Healthy()
    && (env.marker.Some? ==>
          env.marker.value.operation.RebuildProjection? && env.marker.value.owner == owner && env.marker.value.recovery.None?)
    && Allowed(RebuildProjection, db)
    && (db.projectorVersion == PROJECTOR_VERSION || db.projectorVersion == "0") && db.logScope == scope
    && forall rows :: ListsJournal(rows, db) ==> Rebuild(db, false, scope, env.database.scanStart, buildId, rows).error.None?
  }

  /** REBUILD_PROJECTION, from the marker check to the marker's removal, dying at any durable write. */
  method RunRebuild(env: Environment, owner: Owner, scope: string, buildId: nat) returns (exit: Exit)
    requires env.database.Valid()
    modifies env, env.database
    ensures env.database.Valid()
    ensures var before, after := old(env.database.State()), env.database.State();
            && after.blocks == before.blocks && after.events == before.events && after.checkpoint == before.checkpoint
            && (before.status.RecoveryRequired? ==> after.status.RecoveryRequired? || Discharged(after))
            && (before.status.RecoveryRequired? && before.reason != Some("PROJECTOR_INTEGRITY") ==> after == before && !exit.Done?)
            && (exit.Done? ==>
                  && env.marker == None && Discharged(after)
                  && exists rows ::
                       ListsJournal(rows, before) && Outcome(after, None) == Rebuild(before, false, scope, env.database.scanStart, buildId, rows))
    ensures old(env.lives) >= 4 && old(Rebuildable(env, owner, scope, buildId)) ==> exit.Done?
  {
    hide Rebuild, ListsJournal;
    ghost var before := env.database.State();
    var taken := CheckOwner(env, RebuildProjection, owner, false);
    if taken.Failure? {
      return Threw(taken.error);
    }
    var begun := Begin(env, RebuildProjection, owner, None, false);
    if begun.Refused? || begun.BeginFailed? {
      return Threw(begun.error);
    }
    if begun.BeginCrashed? {
      return Crashed;
    }
    var store := Store.Open(env.database, scope, true, {"0"}, false, false);
    if store.Failure? {
      exit := Fail(env, begun.barrier, ContractUnsupported(store.error));
      return;
    }
    var alive := env.Survives();
    if !alive {
      return Crashed;
    }
    var error := store.value.RebuildFromJournal(buildId);
    RebuildOutcome(before, env.database.State(), error, scope, env.database.scanStart, buildId);
    if error.Some? {
      exit := Fail(env, begun.barrier, StoreRejected(error.value));
      return;
    }
    exit := Finish(env, begun.barrier);
  }

  lemma RebuildOutcome(before: Db, after: Db, error: Option<StoreError>, scope: string, scanStart: nat, buildId: nat)
    requires exists rows :: ListsJournal(rows, before) && Outcome(after, error) == Rebuild(before, false, scope, scanStart, buildId, rows)
    ensures after.blocks == before.blocks && after.events == before.events && after.checkpoint == before.checkpoint
    ensures if error.None? then Discharged(after) else after.status.RecoveryRequired? && StatusOnly(before, after)
  {
  }
}
