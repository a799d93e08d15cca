/** Further laws of the rotation protocol: what recovery leaves behind, how long an
    armed generation lasts, which key clients use, and exactly when publishing a seed and
    the operations that replace a record lose the key on a guest disk. */
module RotationLaws {
  import opened Basics
  import opened Records
  import opened ControlPlane
  import opened Deployment
  import opened RotationSafety

  // --- Recovery -------------------------------------------------------------------

  /** A queued reinstall of `v` whose payload names `generation`. */
  ghost predicate QueuedReinstallNames(jobs: map<JobId, Job>, v: VmId, generation: string) {
    exists id :: id in jobs && jobs[id].status == Queued && IsReinstallOf(jobs[id], v)
                 && jobs[id].payload.generation == Some(generation)
  }

  lemma SurvivingStageIsQueued(db: Db, after: Db, now: int, v: VmId)
    requires IsRecovered(db, after, now) && v in db.tools && v in after.tools
    requires db.tools[v].pending.Some? ==> 0 < |db.tools[v].pending.value.generation| <= 64
    requires Unarmed(after.tools[v])
    ensures QueuedReinstallNames(after.jobs, v, after.tools[v].pending.value.generation)
  {
    var row := db.tools[v];
    RecoveredRowCases(db.jobs, v, row);
    var id :| id in db.jobs && NamesPending(db.jobs[id], v, row);
    assert !AbandonedBy(db.jobs, id, v, row);
    NamingJobIsQueued(db.jobs[id], v, row, now);
    assert after.jobs[id] == RecoveredJob(db.jobs[id], now);
  }

  lemma NamingJobIsQueued(j: Job, v: VmId, row: Tools, now: int)
    requires Unarmed(row) && 0 < |row.pending.value.generation| <= 64
    requires NamesPending(j, v, row) && !Abandons(j, v, row)
    ensures var k := RecoveredJob(j, now);
            k.status == Queued && IsReinstallOf(k, v) && k.payload.generation == Some(row.pending.value.generation)
  {
  }

  lemma ArmedRowRecovered(db: Db, after: Db, now: int, v: VmId)
    requires IsRecovered(db, after, now) && v in db.tools
    requires db.tools[v].pending.Some? && db.tools[v].pending.value.armed
    ensures v in after.tools && after.tools[v].pending == db.tools[v].pending
    ensures after.tools[v].active == db.tools[v].active
  {
    RecoveredRowCases(db.jobs, v, db.tools[v]);
  }

  /** After recovery no job is running, every unarmed generation that survives is named
      by a queued reinstall of the same VM, and every armed generation is intact. */
  lemma RecoverySettles(w: World, now: int)
    requires Invariant(w)
    ensures var after := Recover(w.db, now);
            && (forall id :: id in after.jobs ==> after.jobs[id].status != Running)
            && (forall v :: v in after.tools && Unarmed(after.tools[v]) ==>
                  QueuedReinstallNames(after.jobs, v, after.tools[v].pending.value.generation))
            && (forall v :: v in w.db.tools && w.db.tools[v].pending.Some? && w.db.tools[v].pending.value.armed ==>
                  v in after.tools && after.tools[v].pending == w.db.tools[v].pending)
  {
    var after := Recover(w.db, now);
    RecoverByRows(w.db, now);
    NothingRunsAfterRecovery(w.db, after, now);
    RecoveredStagesAreQueued(w, after, now);
    RecoveryKeepsArmedRows(w.db, after, now);
  }

  lemma NothingRunsAfterRecovery(db: Db, after: Db, now: int)
    requires IsRecovered(db, after, now)
    ensures forall id :: id in after.jobs ==> after.jobs[id].status != Running
  {
    forall id | id in after.jobs ensures after.jobs[id].status != Running {
      assert after.jobs[id] == RecoveredJob(db.jobs[id], now);
    }
  }

  lemma RecoveredStagesAreQueued(w: World, after: Db, now: int)
    requires Invariant(w) && IsRecovered(w.db, after, now)
    ensures forall v :: v in after.tools && Unarmed(after.tools[v]) ==>
                          QueuedReinstallNames(after.jobs, v, after.tools[v].pending.value.generation)
  {
    forall v | v in after.tools && Unarmed(after.tools[v])
      ensures QueuedReinstallNames(after.jobs, v, after.tools[v].pending.value.generation)
    {
      PendingIsCanonical(w, v);
      SurvivingStageIsQueued(w.db, after, now, v);
    }
  }

  lemma PendingIsCanonical(w: World, v: VmId)
    requires TablesOk(w) && v in w.db.tools
    ensures w.db.tools[v].pending.Some? ==> IsCanonicalUuid(w.db.tools[v].pending.value.generation)
  {
    assert RowOk(w.db, v, w.used);
  }

  lemma RecoveryKeepsArmedRows(db: Db, after: Db, now: int)
    requires IsRecovered(db, after, now)
    ensures forall v :: v in db.tools && db.tools[v].pending.Some? && db.tools[v].pending.value.armed ==>
                          v in after.tools && after.tools[v].pending == db.tools[v].pending
  {
    forall v | v in db.tools && db.tools[v].pending.Some? && db.tools[v].pending.value.armed
      ensures v in after.tools && after.tools[v].pending == db.tools[v].pending
    {
      ArmedRowRecovered(db, after, now, v);
    }
  }

  // --- The lifetime of an armed generation ------------------------------------------

  predicate IsArmedWith(db: Db, v: VmId, rotation: Rotation) {
    v in db.tools && rotation.armed && db.tools[v].pending == Some(rotation)
  }

  /** The steps after which the rotation of `v` is over. */
  ghost predicate EndsRotation(w: World, s: Step, v: VmId) {
    || (s.Handshake? && s.vm == v && Enabled(w, s) && Promote(w.db, v, s.generation, s.version, s.now).1.Ok?)
    || (s.RetireAfterReinstall? && Enabled(w, s) && WorkerVm(w) == Some(v))
    || (v in w.db.vms && v !in Next(w, s).db.vms)
  }

  ghost predicate ArmedKept(before: Db, after: Db) {
    forall v, r :: IsArmedWith(before, v, r) && v in after.vms ==> IsArmedWith(after, v, r)
  }

  predicate TouchesTools(s: Step) {
    || s.RemoveVmRow? || s.Cancel? || s.Configure? || s.Stage? || s.DiscardStage? || s.DeleteConfiguration?
    || s.ReportStatus? || s.Handshake? || s.Arm? || s.RetireAfterReinstall? || s.Fail? || s.RecoverJobs?
  }

  lemma OtherStepsKeepTools(w: World, s: Step)
    requires !TouchesTools(s)
    ensures Next(w, s).db.tools == w.db.tools
  {
  }

  lemma RequestsKeepArmed(w: World, s: Step)
    requires Enabled(w, s)
    requires
      || s.RemoveVmRow? || s.Configure? || s.Stage? || s.DiscardStage? || s.DeleteConfiguration?
      || s.ReportStatus?
    ensures ArmedKept(w.db, DbAfter(w, s))
  {
  }

  /** Marking, discarding, reconfiguring and deleting never disturb an armed generation,
      whoever calls them and whatever generation they name. */
  lemma ToolsOperationsKeepArmed(db: Db, v: VmId, g: string, secret: Secret, install: Install)
    ensures ArmedKept(db, MarkInstalled(db, v, g).0)
    ensures ArmedKept(db, DiscardRotation(db, v, g).0)
    ensures ArmedKept(db, ConfigureTools(db, v, secret, install).0)
    ensures ArmedKept(db, DeleteToolsConfiguration(db, v).0)
    ensures ArmedKept(db, StageRotation(db, v, g, secret, install).0)
  {
  }

  lemma JobEndsKeepArmed(db: Db, id: JobId, retryAt: Option<int>, now: int)
    ensures ArmedKept(db, CancelJob(db, id, now).0)
    ensures ArmedKept(db, FailJob(db, id, retryAt, now).0)
  {
  }

  lemma RecoveryKeepsArmed(db: Db, after: Db, now: int)
    requires IsRecovered(db, after, now)
    ensures ArmedKept(db, after)
  {
    forall v, r | IsArmedWith(db, v, r) ensures IsArmedWith(after, v, r) {
      ArmedRowRecovered(db, after, now, v);
    }
  }

  lemma TableStepKeepsArmed(w: World, s: Step)
    requires Enabled(w, s) && TouchesTools(s) && !s.Handshake? && !s.RetireAfterReinstall?
    ensures ArmedKept(w.db, DbAfter(w, s))
  {
    match s {
      case RecoverJobs(now) => RecoverByRows(w.db, now); RecoveryKeepsArmed(w.db, DbAfter(w, s), now);
      case Cancel(id, now) => JobEndsKeepArmed(w.db, id, None, now);
      case Fail(retryAt, now) => JobEndsKeepArmed(w.db, w.worker.value.job, retryAt, now);
      case Arm => ToolsOperationsKeepArmed(w.db, WorkerVm(w).value, WorkerGeneration(w).value, "", Install("", "", ""));
      case _ => RequestsKeepArmed(w, s);
    }
  }

  lemma RotationEndsElsewhere(w: World, s: Step, v: VmId, r: Rotation)
    requires IsArmedWith(w.db, v, r) && Enabled(w, s)
    requires || (s.Handshake? && !(s.vm == v && Promote(w.db, v, s.generation, s.version, s.now).1.Ok?))
             || (s.RetireAfterReinstall? && WorkerVm(w) != Some(v))
    ensures IsArmedWith(DbAfter(w, s), v, r)
  {
  }

  lemma StepKeepsArmed(w: World, s: Step, v: VmId, r: Rotation)
    requires IsArmedWith(w.db, v, r) && v in w.db.vms && !EndsRotation(w, s, v)
    ensures IsArmedWith(Next(w, s).db, v, r)
  {
    if !TouchesTools(s) {
      OtherStepsKeepTools(w, s);
    } else if Enabled(w, s) {
      assert Next(w, s).db == DbAfter(w, s);
      if s.Handshake? || s.RetireAfterReinstall? {
        RotationEndsElsewhere(w, s, v, r);
      } else {
        TableStepKeepsArmed(w, s);
      }
    }
  }

  /** Along any run an armed generation and its envelope stay as they are until a
      handshake promotes it, its tools are retired or its VM is deleted. */
  lemma {:induction false} ArmedUntilEnded(w: World, steps: seq<Step>, v: VmId, r: Rotation)
    requires IsArmedWith(w.db, v, r) && v in w.db.vms
    ensures || IsArmedWith(Run(w, steps).db, v, r)
            || exists i :: 0 <= i < |steps| && EndsRotation(Run(w, steps[..i]), steps[i], v)
    decreases |steps|
  {
    if steps != [] {
      var next := Next(w, steps[0]);
      if EndsRotation(w, steps[0], v) {
        assert Run(w, steps[..0]) == w;
      } else {
        StepKeepsArmed(w, steps[0], v, r);
        ArmedUntilEnded(next, steps[1..], v, r);
        if i :| 0 <= i < |steps[1..]| && EndsRotation(Run(next, steps[1..][..i]), steps[1..][i], v) {
          assert steps[..i + 1][1..] == steps[1..][..i];
          assert EndsRotation(Run(w, steps[..i + 1]), steps[i + 1], v);
        }
      }
    }
  }

  /** While a generation is armed, at every later point of a run that has not ended it, a
      reinstall request with tools gets that very generation if it repeats a failed attempt
      with the same installation, and is refused otherwise; the tables stay as they are. */
  lemma ArmedRequestsDecided(
    w: World, steps: seq<Step>, v: VmId, r: Rotation,
    fingerprint: string, generation: string, placeholder: Secret, secret: Secret, install: Install, socketOk: bool)
    requires IsArmedWith(w.db, v, r) && v in w.db.vms && IsFingerprint(fingerprint)
    requires forall i :: 0 <= i < |steps| ==> !EndsRotation(Run(w, steps[..i]), steps[i], v)
    ensures var later := Run(w, steps).db;
            StageRequest(later, v, fingerprint, generation, placeholder, secret, install, socketOk) ==
            (later,
             if !AnyLeftArmed(later, v, fingerprint) || install != r.install then Err(Conflict)
             else if socketOk then Ok(Staged(r.generation, false)) else Err(Validation))
  {
    ArmedUntilEnded(w, steps, v, r);
    assert IsArmedWith(Run(w, steps).db, v, r);
  }

  // --- The key clients authenticate with -----------------------------------------------

  lemma KeptRowKeepsClientKey(w: World, after: Db, u: VmId)
    requires KeepsKeys(w, after) && u in after.tools
    ensures u in w.db.tools && ClientSecret(after, u) == ClientSecret(w.db, u)
  {
    assert RowKept(w.db.tools[u], after.tools[u]);
  }

  lemma RequestKeepsClientKey(w: World, s: Step, u: VmId)
    requires TablesOk(w) && Enabled(w, s) && IsTableStep(s) && u in DbAfter(w, s).tools
    ensures u in w.db.tools && ClientSecret(DbAfter(w, s), u) == ClientSecret(w.db, u)
  {
    if s.CreateVm? || s.ObserveVm? || s.StorePassword? || s.CommitPassword? {
      VmStepKeepsKeys(w, s);
    } else {
      RequestStepKeepsKeys(w, s);
    }
    KeptRowKeepsClientKey(w, DbAfter(w, s), u);
  }

  lemma RecordStepKeepsClientKey(w: World, s: Step, u: VmId)
    requires TablesOk(w) && Enabled(w, s) && u in DbAfter(w, s).tools
    requires s.Stage? || s.Handshake? || s.DeleteConfiguration? || (s.Configure? && s.vm != u)
    ensures u in w.db.tools && ClientSecret(DbAfter(w, s), u) == ClientSecret(w.db, u)
  {
    if s.Handshake? {
      PromotionKeepsClientKey(w, s.vm, s.generation, s.version, s.now, u);
    }
  }

  lemma PromotionKeepsClientKey(w: World, v: VmId, g: string, version: string, now: int, u: VmId)
    requires TablesOk(w) && u in w.db.tools
    ensures ClientSecret(Promote(w.db, v, g, version, now).0, u) == ClientSecret(w.db, u)
  {
    assert RowOk(w.db, u, w.used);
  }

  lemma ArmingSwitchesClientKey(w: World, u: VmId)
    requires TablesOk(w) && Enabled(w, Arm) && u in w.db.tools
    ensures || ClientSecret(DbAfter(w, Arm), u) == ClientSecret(w.db, u)
            || (&& WorkerVm(w) == Some(u) && PendingIs(w.db, u, WorkerGeneration(w).value) && !Armed(w.db, u)
                && ClientSecret(DbAfter(w, Arm), u) == Some(w.db.tools[u].pending.value.envelope.secret))
  {
    assert RowOk(w.db, u, w.used);
  }

  lemma WorkerStepKeepsClientKey(w: World, s: Step, u: VmId)
    requires TablesOk(w) && Enabled(w, s) && u in DbAfter(w, s).tools
    requires || s.ClaimNext? || s.LoadSeed? || s.SwapDisk? || s.UndoSwap? || s.KeepSwap?
             || s.RetireAfterReinstall? || s.Finish? || s.Fail? || s.Crash?
    ensures u in w.db.tools && ClientSecret(DbAfter(w, s), u) == ClientSecret(w.db, u)
  {
    if s.Finish? || s.Fail? {
      EndOfJobKeepsKeys(w, s);
      KeptRowKeepsClientKey(w, DbAfter(w, s), u);
    } else {
      OtherWorkerStepsLeaveRecords(w, s);
    }
  }

  lemma OtherWorkerStepsLeaveRecords(w: World, s: Step)
    requires Enabled(w, s)
    requires || s.ClaimNext? || s.LoadSeed? || s.SwapDisk? || s.UndoSwap? || s.KeepSwap?
             || s.RetireAfterReinstall? || s.Crash?
    ensures forall u :: u in DbAfter(w, s).tools ==> u in w.db.tools && DbAfter(w, s).tools[u] == w.db.tools[u]
  {
  }

  /** Arming is the only step that switches clients of an existing record to another key, and
      it switches them to the staged one; a promotion, a stage, a status report or a recovery
      leaves the client key of every VM as it is. Records appear only by configuring. */
  lemma ClientKeySwitchesOnlyOnArming(w: World, s: Step, u: VmId)
    requires Invariant(w) && u in Next(w, s).db.tools && !(s.Configure? && s.vm == u)
    ensures u in w.db.tools
    ensures || ClientSecret(Next(w, s).db, u) == ClientSecret(w.db, u)
            || (&& s.Arm? && Enabled(w, s) && WorkerVm(w) == Some(u) && !Armed(w.db, u)
                && PendingIs(w.db, u, WorkerGeneration(w).value)
                && ClientSecret(Next(w, s).db, u) == Some(w.db.tools[u].pending.value.envelope.secret))
  {
    if Enabled(w, s) {
      NextDb(w, s);
      if IsTableStep(s) {
        RequestKeepsClientKey(w, s, u);
      } else if s.Arm? {
        ArmingSwitchesClientKey(w, u);
      } else if s.Stage? || s.Handshake? || s.DeleteConfiguration? || s.Configure? {
        RecordStepKeepsClientKey(w, s, u);
      } else {
        WorkerStepKeepsClientKey(w, s, u);
      }
    }
  }

  // --- Exactly when a key is lost --------------------------------------------------------

  predicate KeySurvives(w: World, after: Db, v: VmId) {
    v in w.disk ==> KeyOk(after, v, w.disk[v])
  }

  ghost predicate DiskKeysUsable(w: World) {
    forall v :: v in w.disk ==> KeyOk(w.db, v, w.disk[v])
  }

  /** Reconfiguring is refused while a generation is armed. Otherwise it loses the key of
      a guest disk that has one, unless the new secret happens to be that key. */
  lemma ConfigureKeepsKeyExactly(w: World, v: VmId, secret: Secret, install: Install)
    requires Invariant(w) && v in w.db.vms
    ensures KeySurvives(w, ConfigureTools(w.db, v, secret, install).0, v)
            <==> v !in w.disk || Armed(w.db, v) || w.disk[v] == secret
  {
  }

  lemma DeleteConfigurationKeepsKeyExactly(w: World, v: VmId)
    requires Invariant(w) && v in w.db.vms
    ensures KeySurvives(w, DeleteToolsConfiguration(w.db, v).0, v) <==> v !in w.disk || Armed(w.db, v)
  {
  }

  /** A worker whose job names no generation builds a seed and replaces the disk: all keys on
      disks stay usable exactly if, when it built the seed, no unarmed generation was staged. */
  lemma PublishingKeepsKeyExactly(w: World)
    requires Invariant(w) && Enabled(w, LoadSeed) && WorkerGeneration(w).None?
    ensures Enabled(Next(w, LoadSeed), SwapDisk)
    ensures DiskKeysUsable(Next(Next(w, LoadSeed), SwapDisk)) <==> !SeedIsUnarmed(w.db, WorkerVm(w).value)
  {
    var v := WorkerVm(w).value;
    var w1 := Next(w, LoadSeed);
    var w2 := Next(w1, SwapDisk);
    assert Enabled(w1, SwapDisk) && DiskKey(w2, v) == SeedSecret(w.db, v) && w2.db == w.db;
    if SeedIsUnarmed(w.db, v) {
      assert RowOk(w.db, v, w.used);
      SeedSecretOf(w, v);
      assert !KeyOk(w2.db, v, w2.disk[v]);
    } else {
      StepIsSafeExactly(w, LoadSeed);
      StepIsSafeExactly(w1, SwapDisk);
    }
  }

  /** A worker whose job names a generation arms it first; whatever happens in between, the
      disk it then provides carries a usable key. */
  lemma ArmedPublishingIsSafe(w: World)
    requires Invariant(w) && Enabled(w, SwapDisk) && WorkerGeneration(w).Some?
    ensures DiskKeysUsable(Next(w, SwapDisk))
    ensures w.worker.value.loaded.Some? ==> KeyOk(w.db, WorkerVm(w).value, w.worker.value.loaded.value)
  {
    StepIsSafeExactly(w, SwapDisk);
    assert PublishKey(w) == w.worker.value.loaded;
  }

  /** Retiring the tools after a reinstall leaves every key on a disk usable exactly if the
      reinstall was done without building a seed with a key. */
  lemma RetireKeepsKeyExactly(w: World)
    requires Invariant(w) && Enabled(w, RetireAfterReinstall)
    ensures DiskKeysUsable(Next(w, RetireAfterReinstall)) <==> w.worker.value.loaded.None?
  {
    var v := WorkerVm(w).value;
    assert DiskKey(w, v) == w.worker.value.loaded;
    StepIsSafeExactly(w, RetireAfterReinstall);
    if w.worker.value.loaded.Some? {
      assert v !in Next(w, RetireAfterReinstall).db.tools && v in Next(w, RetireAfterReinstall).disk;
    }
  }

  /** The worker steps that can follow to bring an unusable key onto a disk. */
  function Consequence(w: World, s: Step): seq<Step> {
    if s.RetireAfterReinstall? then []
    else if s.LoadSeed? then [SwapDisk]
    else if (s.Configure? || s.DeleteConfiguration?) && s.vm !in w.disk then
      if SavedKey(w).Some? then [UndoSwap] else [SwapDisk]
    else []
  }

  /** The condition is not too strict: a step that breaks, with at most one further step of the
      worker, leaves a guest disk whose key is neither active nor armed. */
  lemma BreakingLosesAKey(w: World, s: Step)
    requires Invariant(w) && Breaks(w, s) && !s.Stage?
    ensures !DiskKeysUsable(Run(Next(w, s), Consequence(w, s)))
  {
    var next := Next(w, s);
    if s.LoadSeed? {
      PublishingKeepsKeyExactly(w);
      RunOne(next, SwapDisk);
    } else if s.RetireAfterReinstall? {
      RetireKeepsKeyExactly(w);
    } else {
      OverwritingLosesAKey(w, s);
    }
  }

  lemma RunOne(w: World, s: Step)
    ensures Run(w, [s]) == Next(w, s)
  {
    assert [s][1..] == [];
  }

  /** What overwriting or deleting the record of `v` leaves: everything but the key. */
  lemma OverwritingDropsTheKey(w: World, s: Step)
    requires Invariant(w) && Breaks(w, s) && (s.Configure? || s.DeleteConfiguration?)
    ensures var next := Next(w, s);
            && next == w.(db := w.db.(tools := next.db.tools))
            && !KeyOk(next.db, s.vm, w.db.tools[s.vm].active.secret)
  {
    assert s.vm in w.db.vms;
  }

  lemma OverwritingLosesAKey(w: World, s: Step)
    requires Invariant(w) && Breaks(w, s) && (s.Configure? || s.DeleteConfiguration?)
    ensures !DiskKeysUsable(Run(Next(w, s), Consequence(w, s)))
  {
    var v, next := s.vm, Next(w, s);
    UsedKeyIsActive(w, v);
    OverwritingDropsTheKey(w, s);
    WorkerIgnoresTools(w, next.db.tools);
    if v in w.disk {
      assert v in next.disk;
    } else if SavedKey(w).Some? {
      RunOne(next, UndoSwap);
      SavedKeyReturns(next, v);
    } else {
      RunOne(next, SwapDisk);
      PublishKeyArrives(next, v);
    }
  }

  lemma SavedKeyReturns(w: World, v: VmId)
    requires WorkerVm(w) == Some(v) && SavedKey(w).Some?
    ensures Next(w, UndoSwap).db == w.db && DiskKey(Next(w, UndoSwap), v) == SavedKey(w)
  {
  }

  lemma PublishKeyArrives(w: World, v: VmId)
    requires WorkerVm(w) == Some(v) && PublishKey(w).Some? && w.worker.value.saved.None?
    requires WorkerRuns(w, VmReinstall) || WorkerRuns(w, VmCreate)
    ensures Next(w, SwapDisk).db == w.db && DiskKey(Next(w, SwapDisk), v) == PublishKey(w)
  {
  }

  /** The same for a stage that takes a record in use for a new one: when its job is queued and
      cancelled, the record goes and with it the key of the guest. */
  lemma StagingAsNewLosesAKey(w: World, s: Step, job: JobId, req: NewJob, now: int)
    requires Invariant(w) && Breaks(w, s) && s.Stage? && s.vm in w.disk
    requires job !in w.db.jobs && Competitor(w.db.jobs, VmReinstall, Some(s.vm), None).None?
    requires req.kind == VmReinstall && req.vm == Some(s.vm) && req.key.None? && req.payload.stagedPassword.None?
    requires req.payload.generation == Some(s.generation) && req.payload.newConfiguration
    ensures var queue := QueueReinstall(job, req, None, Up, now);
            !DiskKeysUsable(Next(Next(Next(w, s), queue), Cancel(job, now)))
  {
    var v := s.vm;
    var w1 := Next(w, s);
    assert RowOk(w.db, v, w.used);
    assert HasUnarmed(w1.db.tools[v], s.generation) && w1.disk == w.disk && w1.db.jobs == w.db.jobs;
    var w2 := Next(w1, QueueReinstall(job, req, None, Up, now));
    assert w2.db.tools == w1.db.tools && w2.disk == w.disk && job in w2.db.jobs;
    assert StagedBy(w2.db.jobs[job], v, w2.db.tools[v]) && w2.db.jobs[job].status == Queued;
    CancellingDropsTheRecord(w2, job, v, now);
  }

  /** A stage taken back is as if the generation had only been handed out. */
  lemma DiscardedStageLeavesRecord(w: World, s: Step)
    requires Invariant(w) && Enabled(w, s) && s.Stage? && s.vm in w.db.tools && w.db.tools[s.vm].pending.None?
    ensures Next(Next(w, s), DiscardStage(s.vm, s.generation)) == HandedOut(w, s.generation, s.newConfiguration)
  {
    var w2 := Next(Next(w, s), DiscardStage(s.vm, s.generation));
    assert RowOk(w.db, s.vm, w.used);
    assert w2.db.tools == w.db.tools;
  }

  /** However the key is in use: when the request that staged as new is rolled back, as it is
      when its job is refused, it deletes the record and with it the key. */
  lemma RollingBackAsNewLosesAKey(w: World, s: Step)
    requires Invariant(w) && Breaks(w, s) && s.Stage?
    ensures var back, delete := Next(Next(w, s), DiscardStage(s.vm, s.generation)), DeleteConfiguration(s.vm);
            Breaks(back, delete) && !DiskKeysUsable(Run(Next(back, delete), Consequence(back, delete)))
  {
    var back, delete := Next(Next(w, s), DiscardStage(s.vm, s.generation)), DeleteConfiguration(s.vm);
    DiscardedStageLeavesRecord(w, s);
    MoreGenerationsAreSafe(w, s.generation, s.newConfiguration);
    assert InUse(back, s.vm) == InUse(w, s.vm);
    BreakingLosesAKey(back, delete);
  }

  lemma CancellingDropsTheRecord(w: World, job: JobId, v: VmId, now: int)
    requires job in w.db.jobs && w.db.jobs[job].status == Queued && v in w.db.tools && v in w.db.vms && v in w.disk
    requires StagedBy(w.db.jobs[job], v, w.db.tools[v]) && w.db.jobs[job].payload.newConfiguration
    ensures v in Next(w, Cancel(job, now)).disk && v !in Next(w, Cancel(job, now)).db.tools
    ensures !DiskKeysUsable(Next(w, Cancel(job, now)))
  {
  }
}
