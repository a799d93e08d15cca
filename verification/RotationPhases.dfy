/** How far a queued reinstall has got, which steps take it on, and which leave it where it is:
    those of other requests, other jobs and process deaths while the worker is not on it. */
module RotationPhases {
  import opened Basics
  import opened Records
  import opened ControlPlane
  import opened Deployment
  import opened RotationSafety

  /** What a queued reinstall with guest tools is about; `armed` says that its generation was
      left armed by a failed attempt. */
  datatype Reinstall = Reinstall(
    vm: VmId, job: JobId, fingerprint: string, generation: string, secret: Secret, install: Install, armed: bool)

  // --- How far a reinstall has got -----------------------------------------------------------

  /** The job waits, is claimed, has its seed, has armed its generation, is replacing the disk,
      keeps the new one, and is finished; the guest proves its key after that, or before (`Proven`). */
  datatype Phase = Waiting | Claimed | Seeded | Marked | Replacing | Keeping | Proven | Finished | Done

  /** The row carries the generation of the reinstall, armed or not. */
  predicate HasStage(db: Db, r: Reinstall, armed: bool) {
    && r.vm in db.tools && db.tools[r.vm].enabled
    && db.tools[r.vm].pending ==
       Some(Rotation(r.generation, Encrypt(r.secret, PendingKey(r.vm, r.generation)), r.install, armed))
  }

  /** The key of the reinstall is the active one, nothing is pending, and clients use it. */
  predicate IsCurrent(db: Db, r: Reinstall) {
    && r.vm in db.tools && db.tools[r.vm].pending.None?
    && db.tools[r.vm].active.secret == r.secret && db.tools[r.vm].install == r.install
    && ClientSecret(db, r.vm) == Some(r.secret)
  }

  predicate HasJob(db: Db, r: Reinstall, status: Status) {
    && r.job in db.jobs && db.jobs[r.job].status == status && IsReinstallOf(db.jobs[r.job], r.vm)
    && db.jobs[r.job].payload.generation == Some(r.generation)
    && db.jobs[r.job].payload.fingerprint == Some(r.fingerprint)
  }

  /** Reinstall jobs get one attempt. */
  predicate IsLastAttempt(j: Job) {
    j.attempts + (if j.status == Queued then 1 else 0) >= j.maxAttempts
  }

  /** No other reinstall of the VM is live. */
  predicate IsOnlyReinstall(jobs: map<JobId, Job>, r: Reinstall) {
    forall id <- jobs :: IsLive(jobs[id]) && IsReinstallOf(jobs[id], r.vm) ==> id == r.job
  }

  predicate IsIdle(w: World, r: Reinstall) {
    w.worker.Some? ==> w.worker.value.job != r.job
  }

  predicate OnDisk(w: World, r: Reinstall) {
    r.vm in w.disk && w.disk[r.vm] == r.secret
  }

  predicate IsRunning(ph: Phase) {
    ph.Claimed? || ph.Seeded? || ph.Marked? || ph.Replacing? || ph.Keeping? || ph.Proven?
  }

  predicate AfterArming(ph: Phase) {
    ph.Marked? || ph.Replacing? || ph.Keeping? || ph.Proven? || ph.Finished?
  }

  /** The memory of the worker on the job of the reinstall. */
  predicate IsWorking(w: World, r: Reinstall, ph: Phase) {
    && w.worker.Some? && w.worker.value.job == r.job
    && w.worker.value.loaded == (if ph.Claimed? then None else Some(r.secret))
    && w.worker.value.armed == AfterArming(ph)
    && w.worker.value.saved.Some? == ph.Replacing?
    && w.worker.value.replaced == (ph.Keeping? || ph.Proven?)
  }

  function JobStatus(ph: Phase): Status {
    if ph.Waiting? then Queued else if IsRunning(ph) then Running else Succeeded
  }

  predicate At(w: World, r: Reinstall, ph: Phase) {
    && r.vm in w.db.vms && HasJob(w.db, r, JobStatus(ph)) && IsLastAttempt(w.db.jobs[r.job])
    && IsCanonicalUuid(r.generation)
    && (if ph.Proven? || ph.Done? then IsCurrent(w.db, r) else HasStage(w.db, r, AfterArming(ph) || r.armed))
    && (if IsRunning(ph) then IsWorking(w, r, ph) else IsIdle(w, r))
    && (ph.Finished? || ph.Done? || IsOnlyReinstall(w.db.jobs, r))
    && (ph.Replacing? || ph.Keeping? || ph.Proven? || ph.Finished? || ph.Done? ==> OnDisk(w, r))
  }

  // --- Its own steps ------------------------------------------------------------------------------

  /** The steps that take the reinstall on, or back when the replacement of the disk fails; the
      guest may prove its key before the job is recorded as finished. */
  predicate IsOwn(r: Reinstall, ph: Phase, s: Step) {
    match ph
    case Waiting => s.ClaimNext? && s.id == r.job
    case Claimed => s.LoadSeed?
    case Seeded => s.Arm?
    case Marked => s.SwapDisk?
    case Replacing => s.KeepSwap? || s.UndoSwap?
    case Keeping => s.Finish? || IsProof(r, s)
    case Proven => s.Finish?
    case Finished => IsProof(r, s)
    case Done => false
  }

  predicate IsProof(r: Reinstall, s: Step) {
    s.Handshake? && s.vm == r.vm && s.generation == r.generation && s.version == r.install.version
  }

  function NextPhase(ph: Phase, s: Step): Phase {
    match ph
    case Waiting => Claimed
    case Claimed => Seeded
    case Seeded => Marked
    case Marked => Replacing
    case Replacing => if s.KeepSwap? then Keeping else Marked
    case Keeping => if s.Finish? then Finished else Proven
    case Proven => Done
    case Finished => Done
    case Done => Done
  }

  lemma ClaimAdvances(w: World, r: Reinstall, s: Step)
    requires At(w, r, Waiting) && IsOwn(r, Waiting, s) && Enabled(w, s)
    ensures At(Next(w, s), r, Claimed)
  {
  }

  lemma LoadAdvances(w: World, r: Reinstall)
    requires At(w, r, Claimed)
    ensures Enabled(w, LoadSeed) && At(Next(w, LoadSeed), r, Seeded)
  {
  }

  lemma ArmAdvances(w: World, r: Reinstall)
    requires At(w, r, Seeded)
    ensures Enabled(w, Arm) && At(Next(w, Arm), r, Marked)
  {
  }

  lemma SwapAdvances(w: World, r: Reinstall)
    requires At(w, r, Marked)
    ensures Enabled(w, SwapDisk) && At(Next(w, SwapDisk), r, Replacing)
  {
  }

  lemma KeepAdvances(w: World, r: Reinstall)
    requires At(w, r, Replacing)
    ensures Enabled(w, KeepSwap) && At(Next(w, KeepSwap), r, Keeping)
  {
  }

  lemma UndoReturns(w: World, r: Reinstall)
    requires At(w, r, Replacing)
    ensures Enabled(w, UndoSwap) && At(Next(w, UndoSwap), r, Marked)
  {
  }

  lemma FinishLeaves(w: World, r: Reinstall, now: int)
    requires HasJob(w.db, r, Running) && w.worker.Some? && w.worker.value.job == r.job && w.worker.value.saved.None?
    ensures var done := Next(w, Finish(now));
            && HasJob(done.db, r, Succeeded) && (IsLastAttempt(w.db.jobs[r.job]) ==> IsLastAttempt(done.db.jobs[r.job]))
            && done.worker.None? && done.disk == w.disk
            && done.db.tools == w.db.tools && done.db.vms == w.db.vms
  {
    NextDb(w, Finish(now));
  }

  lemma FinishAdvances(w: World, r: Reinstall, ph: Phase, s: Step)
    requires At(w, r, ph) && (ph.Keeping? || ph.Proven?) && s.Finish?
    ensures Enabled(w, s) && At(Next(w, s), r, NextPhase(ph, s))
  {
    FinishLeaves(w, r, s.now);
  }

  lemma ProofAdvances(w: World, r: Reinstall, ph: Phase, s: Step)
    requires At(w, r, ph) && (ph.Keeping? || ph.Finished?) && IsProof(r, s)
    requires Enabled(w, s)
    ensures At(Next(w, s), r, NextPhase(ph, s))
  {
    NextDb(w, s);
  }

  lemma OwnStepAdvances(w: World, r: Reinstall, ph: Phase, s: Step)
    requires At(w, r, ph) && IsOwn(r, ph, s) && Enabled(w, s)
    ensures At(Next(w, s), r, NextPhase(ph, s))
  {
    match ph
    case Waiting => ClaimAdvances(w, r, s);
    case Claimed => LoadAdvances(w, r);
    case Seeded => ArmAdvances(w, r);
    case Marked => SwapAdvances(w, r);
    case Replacing => if s.KeepSwap? { KeepAdvances(w, r); } else { UndoReturns(w, r); }
    case Keeping => if s.Finish? { FinishAdvances(w, r, ph, s); } else { ProofAdvances(w, r, ph, s); }
    case Proven => FinishAdvances(w, r, ph, s);
    case Finished => ProofAdvances(w, r, ph, s);
  }

  // --- What may come between them -------------------------------------------------------------------

  /** The worker is on a job of another VM. */
  predicate IsElsewhere(w: World, r: Reinstall) {
    w.worker.Some? && w.worker.value.job != r.job && WorkerVm(w) != Some(r.vm)
  }

  /** Steps on other VMs, and those on this one that leave record, job and disk alone: reports,
      passwords, deletions and bootstraps queued for later, and jobs claimed before or after.
      Processes may die and recover while the worker is not on the job. */
  predicate IsForeign(w: World, r: Reinstall, s: Step) {
    match s
    case RemoveVmRow(v) => v != r.vm
    case QueueReinstall(_, req, _, _, _) => req.vm != Some(r.vm)
    case Cancel(id, _) => id in w.db.jobs ==> w.db.jobs[id].vm != Some(r.vm)
    case Configure(v, _, _) => v != r.vm
    case Stage(v, _, _, _, _) => v != r.vm
    case DiscardStage(v, _) => v != r.vm
    case DeleteConfiguration(v) => v != r.vm
    case Handshake(v, _, _, _) => v != r.vm
    case ClaimNext(id, _) => id != r.job
    case LoadSeed => IsElsewhere(w, r)
    case Arm => IsElsewhere(w, r)
    case SwapDisk => IsElsewhere(w, r)
    case UndoSwap => IsElsewhere(w, r)
    case KeepSwap => IsElsewhere(w, r)
    case RetireAfterReinstall => IsElsewhere(w, r)
    case Finish(_) => IsIdle(w, r)
    case Fail(_, _) => IsElsewhere(w, r)
    case Crash(_) => w.worker.None? || IsElsewhere(w, r)
    case _ => true
  }

  /** The columns of the job and of the record that the reinstall is about stay as they are. */
  predicate JobUntouched(before: Job, after: Job) {
    && after.kind == before.kind && after.vm == before.vm && after.status == before.status
    && after.attempts == before.attempts && after.maxAttempts == before.maxAttempts
    && after.payload.generation == before.payload.generation
    && after.payload.fingerprint == before.payload.fingerprint
  }

  predicate RecordUntouched(before: Tools, after: Tools) {
    && after.enabled == before.enabled && after.active == before.active && after.install == before.install
    && after.pending == before.pending
  }

  /** `after` is `before` to the reinstall, as far as the tables go. */
  predicate TablesUntouched(before: Db, after: Db, r: Reinstall) {
    && (r.vm in before.vms ==> r.vm in after.vms)
    && (r.job in before.jobs ==> r.job in after.jobs && JobUntouched(before.jobs[r.job], after.jobs[r.job]))
    && (r.vm in before.tools ==> r.vm in after.tools && RecordUntouched(before.tools[r.vm], after.tools[r.vm]))
    && (IsOnlyReinstall(before.jobs, r) ==> IsOnlyReinstall(after.jobs, r))
  }

  predicate Untouched(before: World, after: World, r: Reinstall) {
    && TablesUntouched(before.db, after.db, r)
    && (OnDisk(before, r) ==> OnDisk(after, r))
    && (if IsIdle(before, r) then IsIdle(after, r) else after.worker == before.worker)
  }

  lemma UntouchedStaysAt(w: World, w': World, r: Reinstall, ph: Phase)
    requires At(w, r, ph) && Untouched(w, w', r)
    ensures At(w', r, ph)
  {
  }

  // Requests.

  lemma NewJobLeavesTables(db: Db, after: Db, id: JobId, r: Reinstall)
    requires id !in db.jobs && after.tools == db.tools && db.vms.Keys <= after.vms.Keys
    requires after.jobs == db.jobs || (id in after.jobs && after.jobs == db.jobs[id := after.jobs[id]]
                                       && !IsReinstallOf(after.jobs[id], r.vm))
    ensures TablesUntouched(db, after, r)
  {
  }

  lemma QueueingLeavesTables(w: World, s: Step, r: Reinstall)
    requires Enabled(w, s) && (s.Enqueue? || s.QueueBootstrap? || s.QueueDelete? || s.QueueReinstall?)
    requires IsForeign(w, r, s)
    ensures TablesUntouched(w.db, DbAfter(w, s), r)
  {
    NewJobLeavesTables(w.db, DbAfter(w, s), s.id, r);
  }

  lemma VmStepLeavesTables(w: World, s: Step, r: Reinstall)
    requires Enabled(w, s) && (s.CreateVm? || s.ObserveVm? || s.StorePassword? || s.CommitPassword? || s.ReportStatus?)
    ensures TablesUntouched(w.db, DbAfter(w, s), r)
  {
  }

  lemma RecordStepLeavesTables(w: World, s: Step, r: Reinstall)
    requires Enabled(w, s) && IsForeign(w, r, s)
    requires s.Configure? || s.Stage? || s.DiscardStage? || s.DeleteConfiguration? || s.Handshake?
    ensures TablesUntouched(w.db, DbAfter(w, s), r)
  {
  }

  lemma RemovalLeavesTables(db: Db, v: VmId, r: Reinstall)
    requires v != r.vm && (r.job in db.jobs ==> db.jobs[r.job].vm == Some(r.vm))
    ensures TablesUntouched(db, RemoveVm(db, v), r)
  {
  }

  lemma CancelLeavesTables(db: Db, id: JobId, now: int, r: Reinstall)
    requires r.job in db.jobs && db.jobs[r.job].vm == Some(r.vm) && (id in db.jobs ==> db.jobs[id].vm != Some(r.vm))
    ensures TablesUntouched(db, CancelJob(db, id, now).0, r)
  {
    if id in db.jobs && db.jobs[id].status == Queued {
      var j := db.jobs[id];
      var cancelled := db.(jobs := db.jobs[id := Ended(j, Cancelled, now)]);
      assert TablesUntouched(db, cancelled, r);
      if j.kind == VmCreate && j.vm.Some? { RemovalLeavesTables(cancelled, j.vm.value, r); }
    }
  }

  // The worker on other jobs.

  lemma ClaimLeavesTables(w: World, s: Step, r: Reinstall)
    requires Enabled(w, s) && IsForeign(w, r, s) && s.ClaimNext?
    ensures TablesUntouched(w.db, DbAfter(w, s), r)
  {
    assert DbAfter(w, s) == Claim(w.db, s.id, s.now);
  }

  lemma FinishLeavesTables(w: World, s: Step, r: Reinstall)
    requires Enabled(w, s) && IsForeign(w, r, s) && s.Finish?
    ensures TablesUntouched(w.db, DbAfter(w, s), r)
  {
    assert DbAfter(w, s) == FinishJob(w.db, w.worker.value.job, s.now).0;
  }

  lemma FailureLeavesTables(db: Db, id: JobId, retryAt: Option<int>, now: int, r: Reinstall)
    requires id != r.job && (id in db.jobs ==> db.jobs[id].vm != Some(r.vm))
    ensures TablesUntouched(db, FailJob(db, id, retryAt, now).0, r)
  {
  }

  lemma FailLeavesTables(w: World, s: Step, r: Reinstall)
    requires Enabled(w, s) && IsForeign(w, r, s) && s.Fail?
    ensures TablesUntouched(w.db, DbAfter(w, s), r)
  {
    FailureLeavesTables(w.db, w.worker.value.job, s.retryAt, s.now, r);
    assert DbAfter(w, s) == FailJob(w.db, w.worker.value.job, s.retryAt, s.now).0;
  }

  lemma DiskStepLeavesTables(w: World, s: Step, r: Reinstall)
    requires Enabled(w, s) && (s.LoadSeed? || s.SwapDisk? || s.UndoSwap? || s.KeepSwap? || s.Crash?)
    ensures TablesUntouched(w.db, DbAfter(w, s), r)
  {
    assert DbAfter(w, s) == w.db;
  }

  lemma OtherRecordLeavesTables(w: World, s: Step, r: Reinstall)
    requires Enabled(w, s) && IsForeign(w, r, s) && (s.Arm? || s.RetireAfterReinstall?)
    ensures TablesUntouched(w.db, DbAfter(w, s), r)
  {
  }

  lemma WorkerStepLeavesTables(w: World, s: Step, r: Reinstall)
    requires Enabled(w, s) && IsForeign(w, r, s)
    requires || s.ClaimNext? || s.LoadSeed? || s.Arm? || s.SwapDisk? || s.UndoSwap? || s.KeepSwap?
             || s.RetireAfterReinstall? || s.Finish? || s.Fail? || s.Crash?
    ensures TablesUntouched(w.db, DbAfter(w, s), r)
  {
    if s.ClaimNext? {
      ClaimLeavesTables(w, s, r);
    } else if s.Finish? {
      FinishLeavesTables(w, s, r);
    } else if s.Fail? {
      FailLeavesTables(w, s, r);
    } else if s.Arm? || s.RetireAfterReinstall? {
      OtherRecordLeavesTables(w, s, r);
    } else {
      DiskStepLeavesTables(w, s, r);
    }
  }

  // Recovery.

  /** The row survives a recovery if its generation is armed or named by a job that waits. */
  lemma RecoveryKeepsRecord(db: Db, r: Reinstall)
    requires r.vm in db.tools
    requires Unarmed(db.tools[r.vm]) ==>
               && IsOnlyReinstall(db.jobs, r) && r.job in db.jobs && db.jobs[r.job].status == Queued
               && NamesPending(db.jobs[r.job], r.vm, db.tools[r.vm])
    ensures var after := RecoveredRow(db.jobs, r.vm, db.tools[r.vm]);
            after.Some? && RecordUntouched(db.tools[r.vm], after.value)
  {
    if Unarmed(db.tools[r.vm]) { assert forall id :: !AbandonedBy(db.jobs, id, r.vm, db.tools[r.vm]); }
  }

  lemma RecoveryLeavesJobs(db: Db, after: Db, now: int, r: Reinstall)
    requires IsRecovered(db, after, now) && r.job in db.jobs && db.jobs[r.job].status != Running
    ensures r.job in after.jobs && after.jobs[r.job] == db.jobs[r.job]
    ensures IsOnlyReinstall(db.jobs, r) ==> IsOnlyReinstall(after.jobs, r)
  {
    forall id | id in after.jobs ensures IsLive(after.jobs[id]) ==> IsLive(db.jobs[id])
      ensures IsReinstallOf(after.jobs[id], r.vm) <==> IsReinstallOf(db.jobs[id], r.vm)
    {
      assert after.jobs[id] == RecoveredJob(db.jobs[id], now);
    }
  }

  lemma RecoveryLeavesTables(w: World, now: int, r: Reinstall, ph: Phase)
    requires At(w, r, ph) && !IsRunning(ph)
    ensures TablesUntouched(w.db, Recover(w.db, now), r)
  {
    RecoverByRows(w.db, now);
    RecoveryLeavesJobs(w.db, Recover(w.db, now), now, r);
    RecoveryKeepsRecord(w.db, r);
  }

  // All of them.

  lemma VmRemovalLeavesTables(w: World, s: Step, r: Reinstall, ph: Phase)
    requires At(w, r, ph) && Enabled(w, s) && IsForeign(w, r, s) && (s.RemoveVmRow? || s.Cancel? || s.RecoverJobs?)
    ensures TablesUntouched(w.db, DbAfter(w, s), r)
  {
    if s.RemoveVmRow? {
      RemovalLeavesTables(w.db, s.vm, r);
    } else if s.Cancel? {
      CancelLeavesTables(w.db, s.id, s.now, r);
    } else {
      RecoveryLeavesTables(w, s.now, r, ph);
    }
  }

  predicate IsRequest(s: Step) {
    || s.Enqueue? || s.QueueBootstrap? || s.QueueDelete? || s.QueueReinstall?
    || s.CreateVm? || s.ObserveVm? || s.StorePassword? || s.CommitPassword? || s.ReportStatus?
    || s.Configure? || s.Stage? || s.DiscardStage? || s.DeleteConfiguration? || s.Handshake?
  }

  lemma RequestLeavesTables(w: World, s: Step, r: Reinstall)
    requires Enabled(w, s) && IsForeign(w, r, s) && IsRequest(s)
    ensures TablesUntouched(w.db, DbAfter(w, s), r)
  {
    if s.Enqueue? || s.QueueBootstrap? || s.QueueDelete? || s.QueueReinstall? {
      QueueingLeavesTables(w, s, r);
    } else if s.Configure? || s.Stage? || s.DiscardStage? || s.DeleteConfiguration? || s.Handshake? {
      RecordStepLeavesTables(w, s, r);
    } else {
      VmStepLeavesTables(w, s, r);
    }
  }

  lemma ForeignStepLeavesTables(w: World, s: Step, r: Reinstall, ph: Phase)
    requires At(w, r, ph) && Enabled(w, s) && IsForeign(w, r, s)
    ensures TablesUntouched(w.db, DbAfter(w, s), r)
  {
    if s.RemoveVmRow? || s.Cancel? || s.RecoverJobs? {
      VmRemovalLeavesTables(w, s, r, ph);
    } else if IsRequest(s) {
      RequestLeavesTables(w, s, r);
    } else {
      WorkerStepLeavesTables(w, s, r);
    }
  }

  predicate WritesDisk(s: Step) {
    s.RemoveVmRow? || s.Cancel? || s.SwapDisk? || s.UndoSwap? || s.Crash?
  }

  lemma OtherStepsLeaveDisk(w: World, s: Step)
    requires Enabled(w, s) && !WritesDisk(s)
    ensures Next(w, s).disk == w.disk
  {
  }

  lemma ForeignStepLeavesDisk(w: World, s: Step, r: Reinstall)
    requires Enabled(w, s) && IsForeign(w, r, s) && r.vm in DbAfter(w, s).vms
    ensures OnDisk(w, r) ==> OnDisk(Next(w, s), r)
  {
    if !WritesDisk(s) { OtherStepsLeaveDisk(w, s); }
  }

  lemma ForeignStepLeavesWorker(w: World, s: Step, r: Reinstall)
    requires Enabled(w, s) && IsForeign(w, r, s)
    ensures if IsIdle(w, r) then IsIdle(Next(w, s), r) else Next(w, s).worker == w.worker
  {
  }

  lemma ForeignStepStaysAt(w: World, s: Step, r: Reinstall, ph: Phase)
    requires At(w, r, ph) && Enabled(w, s) && IsForeign(w, r, s)
    ensures At(Next(w, s), r, ph)
  {
    NextDb(w, s);
    ForeignStepLeavesTables(w, s, r, ph);
    ForeignStepLeavesDisk(w, s, r);
    ForeignStepLeavesWorker(w, s, r);
    UntouchedStaysAt(w, Next(w, s), r, ph);
  }
}
