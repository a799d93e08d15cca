/** A reinstall completes its rotation, from every consistent state, whatever other requests
    and other jobs come between its steps; and one that fails or is interrupted leaves a
    state in which the same request succeeds again. */
module RotationProgress {
  import opened Basics
  import opened Records
  import opened ControlPlane
  import opened Deployment
  import opened RotationSafety
  import opened RotationLaws
  import opened RotationRequests
  import opened RotationPhases
  import opened ToolsEffects

  // --- Schedules --------------------------------------------------------------------------

  /** A schedule that takes the reinstall from one phase to another: each step is its own next
      one or a foreign one. */
  ghost predicate Follows(w: World, r: Reinstall, from: Phase, steps: seq<Step>, to: Phase)
    decreases |steps|
  {
    if steps == [] then from == to
    else
      && Enabled(w, steps[0])
      && if IsOwn(r, from, steps[0]) then Follows(Next(w, steps[0]), r, NextPhase(from, steps[0]), steps[1..], to)
         else IsForeign(w, r, steps[0]) && Follows(Next(w, steps[0]), r, from, steps[1..], to)
  }

  lemma {:induction false} ScheduleLeads(w: World, r: Reinstall, from: Phase, steps: seq<Step>, to: Phase)
    requires At(w, r, from) && Follows(w, r, from, steps, to)
    ensures At(Run(w, steps), r, to)
    decreases |steps|
  {
    if steps != [] {
      if IsOwn(r, from, steps[0]) {
        OwnStepAdvances(w, r, from, steps[0]);
        ScheduleLeads(Next(w, steps[0]), r, NextPhase(from, steps[0]), steps[1..], to);
      } else {
        ForeignStepStaysAt(w, steps[0], r, from);
        ScheduleLeads(Next(w, steps[0]), r, from, steps[1..], to);
      }
    }
  }

  /** The next step of the reinstall when nothing fails. */
  function Own(r: Reinstall, ph: Phase, now: int): Step
    requires !ph.Done?
  {
    match ph
    case Waiting => ClaimNext(r.job, now)
    case Claimed => LoadSeed
    case Seeded => Arm
    case Marked => SwapDisk
    case Replacing => KeepSwap
    case Keeping => Finish(now)
    case Proven => Finish(now)
    case Finished => Handshake(r.vm, r.generation, r.install.version, now)
  }

  /** Once its job is claimed the reinstall is never stuck; the guest can prove its key unless
      a later job is just replacing the disk again. */
  lemma OwnStepIsEnabled(w: World, r: Reinstall, ph: Phase, now: int)
    requires At(w, r, ph) && !ph.Waiting? && !ph.Done? && (ph.Finished? ==> !Swapping(w, r.vm))
    ensures Enabled(w, Own(r, ph, now)) && IsOwn(r, ph, Own(r, ph, now))
  {
    match ph
    case Claimed => LoadAdvances(w, r);
    case Seeded => ArmAdvances(w, r);
    case Marked => SwapAdvances(w, r);
    case Replacing => KeepAdvances(w, r);
    case Keeping => FinishAdvances(w, r, ph, Finish(now));
    case Proven => FinishAdvances(w, r, ph, Finish(now));
    case Finished => GuestProves(w, r);
  }

  lemma GuestProves(w: World, r: Reinstall)
    requires At(w, r, Finished)
    ensures PendingIs(w.db, r.vm, r.generation) && DiskKey(w, r.vm) == ClientSecret(w.db, r.vm) == Some(r.secret)
  {
  }

  function PhasesLeft(ph: Phase): nat {
    match ph
    case Waiting => 8
    case Claimed => 7
    case Seeded => 6
    case Marked => 5
    case Replacing => 4
    case Keeping => 3
    case Proven => 1
    case Finished => 1
    case Done => 0
  }

  /** The steps from a phase on when nothing comes between. */
  function WorkFrom(r: Reinstall, ph: Phase, now: int): seq<Step>
    decreases PhasesLeft(ph)
  {
    if ph.Done? then [] else [Own(r, ph, now)] + WorkFrom(r, NextPhase(ph, Own(r, ph, now)), now)
  }

  lemma {:induction false} WorkFollows(w: World, r: Reinstall, ph: Phase, now: int)
    requires At(w, r, ph) && !ph.Proven? && (ph.Waiting? ==> Enabled(w, ClaimNext(r.job, now)))
    requires ph.Finished? || ph.Done? ==> w.worker.None?
    ensures Follows(w, r, ph, WorkFrom(r, ph, now), Done)
    decreases PhasesLeft(ph)
  {
    if !ph.Done? {
      var s := Own(r, ph, now);
      WorkAdvances(w, r, ph, now);
      WorkFollows(Next(w, s), r, NextPhase(ph, s), now);
      FollowsFirst(w, r, ph, s, WorkFrom(r, NextPhase(ph, s), now), Done);
    }
  }

  lemma FollowsFirst(w: World, r: Reinstall, ph: Phase, s: Step, rest: seq<Step>, to: Phase)
    requires Enabled(w, s) && IsOwn(r, ph, s) && Follows(Next(w, s), r, NextPhase(ph, s), rest, to)
    ensures Follows(w, r, ph, [s] + rest, to)
  {
    assert ([s] + rest)[1..] == rest;
  }

  lemma WorkAdvances(w: World, r: Reinstall, ph: Phase, now: int)
    requires At(w, r, ph) && !ph.Proven? && !ph.Done? && (ph.Waiting? ==> Enabled(w, ClaimNext(r.job, now)))
    requires ph.Finished? ==> w.worker.None?
    ensures var s := Own(r, ph, now);
            && Enabled(w, s) && IsOwn(r, ph, s) && At(Next(w, s), r, NextPhase(ph, s))
            && (ph.Keeping? || ph.Finished? ==> Next(w, s).worker.None?)
  {
    var s := Own(r, ph, now);
    if !ph.Waiting? { OwnStepIsEnabled(w, r, ph, now); }
    OwnStepAdvances(w, r, ph, s);
    if ph.Keeping? || ph.Finished? { WorkerIsDone(w, r, ph, s); }
  }

  lemma WorkerIsDone(w: World, r: Reinstall, ph: Phase, s: Step)
    requires At(w, r, ph) && Enabled(w, s) && IsOwn(r, ph, s)
    requires (ph.Keeping? && s.Finish?) || (ph.Finished? && w.worker.None?)
    ensures Next(w, s).worker.None?
  {
  }

  // --- The request ------------------------------------------------------------------------------

  /** The steps of a request leave all but one record as it is. */
  lemma {:induction false} RecordStepsLeaveTheRest(w: World, steps: seq<Step>, v: VmId)
    requires forall i :: 0 <= i < |steps| ==> WritesRecord(steps[i], v)
    ensures var after := Run(w, steps);
            after.worker == w.worker && after.disk == w.disk && after.db.jobs == w.db.jobs && after.db.vms == w.db.vms
    decreases |steps|
  {
    if steps != [] {
      RecordStepLeavesTheRest(w, steps[0], v);
      RecordStepsLeaveTheRest(Next(w, steps[0]), steps[1..], v);
    }
  }

  lemma RecordStepLeavesTheRest(w: World, s: Step, v: VmId)
    requires WritesRecord(s, v)
    ensures var after := Next(w, s);
            after.worker == w.worker && after.disk == w.disk && after.db.jobs == w.db.jobs && after.db.vms == w.db.vms
  {
  }

  /** A request that gets a generation, to be followed by its job. */
  ghost predicate IsGranted(w: World, q: Request) {
    Invariant(w) && IsFresh(w, q) && Staging(w.db, q).1.Ok? && q.queued
  }

  ghost function Requested(w: World, q: Request): World {
    Run(w, RequestSteps(w.db, q))
  }

  /** A first configuration is known to be one. */
  lemma NewConfigurationIsProvisional(w: World, q: Request)
    requires IsGranted(w, q) && Staging(w.db, q).1.value.newConfiguration
    ensures q.generation in Requested(w, q).provisional
  {
    RequestSucceedsExactly(w, q);
    assert q.vm in w.db.tools ==> RowOk(w.db, q.vm, w.used);
    var c, s := Configure(q.vm, q.placeholder, q.install), StageStep(q, true);
    RunFirst(w, c, [s] + Rollback(q));
    RunEmpty(Next(w, c), s);
    assert Enabled(Next(w, c), s);
  }

  /** What the job of a granted request is about. */
  ghost function JobOf(w: World, q: Request, job: JobId): Reinstall
    requires q.vm in w.db.tools && w.db.tools[q.vm].pending.Some?
  {
    var p := w.db.tools[q.vm].pending.value;
    Reinstall(q.vm, job, q.fingerprint, p.generation, p.envelope.secret, p.install, p.armed)
  }

  /** The job that the request asks for: nothing competes with it, its identifiers are new, and
      it names what the request was granted. */
  ghost predicate IsJobFor(w: World, q: Request, s: Step) {
    && s.QueueReinstall? && s.id !in w.db.jobs && (w.worker.Some? ==> w.worker.value.job != s.id)
    && s.req.vm == Some(q.vm) && ReinstallRequestValid(s.req, s.envelope) && s.req.maxAttempts <= 1
    && Competitor(w.db.jobs, VmReinstall, Some(q.vm), None).None? && JobByKey(w.db.jobs, s.req.key).None?
    && Staging(w.db, q).1.Ok?
    && var granted := Staging(w.db, q).1.value;
       && s.req.payload.generation == Some(granted.generation)
       && s.req.payload.newConfiguration == granted.newConfiguration
       && s.req.payload.fingerprint == Some(q.fingerprint)
  }

  lemma GrantedIsStaged(w: World, q: Request)
    requires IsGranted(w, q)
    ensures var after := Requested(w, q);
            && Invariant(after) && PendingIs(after.db, q.vm, Staging(w.db, q).1.value.generation)
            && after.worker == w.worker && after.db.jobs == w.db.jobs && after.db.vms == w.db.vms
  {
    UndisturbedRequestIsCareful(w, q);
    RecordStepsLeaveTheRest(w, RequestSteps(w.db, q), q.vm);
  }

  /** The job as the table has it, and the record as it was. */
  lemma QueueingStores(db: Db, s: Step)
    requires s.QueueReinstall? && s.id !in db.jobs && s.req.vm.Some? && s.req.vm.value in db.vms
    requires ReinstallRequestValid(s.req, s.envelope)
    requires Competitor(db.jobs, VmReinstall, s.req.vm, None).None? && JobByKey(db.jobs, s.req.key).None?
    ensures var after := EnqueueReinstall(db, s.id, s.req, s.envelope, s.desired, s.now).0;
            && after.tools == db.tools && after.vms.Keys == db.vms.Keys
            && after.jobs ==
               db.jobs[s.id := QueuedJob(s.req, s.req.payload.(stagedPassword := s.envelope), s.req.key, s.now)]
  {
  }

  lemma QueueingWaits(w: World, q: Request, s: Step)
    requires Invariant(w) && q.vm in w.db.tools && w.db.tools[q.vm].pending.Some? && q.vm in w.db.vms
    requires Enabled(w, s) && s.QueueReinstall? && (w.worker.Some? ==> w.worker.value.job != s.id)
    requires s.req.vm == Some(q.vm) && ReinstallRequestValid(s.req, s.envelope) && s.req.maxAttempts <= 1
    requires Competitor(w.db.jobs, VmReinstall, Some(q.vm), None).None? && JobByKey(w.db.jobs, s.req.key).None?
    requires s.req.payload.generation == Some(w.db.tools[q.vm].pending.value.generation)
    requires s.req.payload.fingerprint == Some(q.fingerprint)
    ensures At(Next(w, s), JobOf(w, q, s.id), Waiting)
  {
    NextDb(w, s);
    PendingRowOk(w, q.vm);
    QueuedTables(w.db, s, JobOf(w, q, s.id));
    assert Next(w, s).worker == w.worker;
  }

  lemma QueuedTables(db: Db, s: Step, r: Reinstall)
    requires s.QueueReinstall? && s.id !in db.jobs && s.id == r.job && s.req.vm == Some(r.vm) && r.vm in db.vms
    requires ReinstallRequestValid(s.req, s.envelope) && s.req.maxAttempts <= 1
    requires Competitor(db.jobs, VmReinstall, s.req.vm, None).None? && JobByKey(db.jobs, s.req.key).None?
    requires s.req.payload.generation == Some(r.generation) && s.req.payload.fingerprint == Some(r.fingerprint)
    requires HasStage(db, r, r.armed)
    ensures var after := EnqueueReinstall(db, s.id, s.req, s.envelope, s.desired, s.now).0;
            && r.vm in after.vms && HasJob(after, r, Queued) && IsLastAttempt(after.jobs[r.job])
            && HasStage(after, r, r.armed) && IsOnlyReinstall(after.jobs, r)
  {
    QueueingStores(db, s);
    NoCompetitorIsLive(db.jobs, r.vm);
  }

  lemma PendingRowOk(w: World, v: VmId)
    requires TablesOk(w) && v in w.db.tools && w.db.tools[v].pending.Some?
    ensures var row := w.db.tools[v];
            && row.enabled && IsCanonicalUuid(row.pending.value.generation)
            && row.pending.value.envelope.context == PendingKey(v, row.pending.value.generation)
  {
    assert RowOk(w.db, v, w.used);
  }

  lemma NoCompetitorIsLive(jobs: map<JobId, Job>, v: VmId)
    ensures Competitor(jobs, VmReinstall, Some(v), None).None?
            <==> forall id <- jobs :: !(IsLive(jobs[id]) && IsReinstallOf(jobs[id], v))
  {
    forall id | id in jobs
      ensures IsCompetitor(jobs, id, VmReinstall, Some(v), None) <==> IsLive(jobs[id]) && IsReinstallOf(jobs[id], v)
    {
    }
  }

  /** A granted request whose job is queued waits for the worker. */
  lemma RequestWaits(w: World, q: Request, s: Step)
    requires IsGranted(w, q) && IsJobFor(w, q, s)
    ensures var staged := Requested(w, q);
            && q.vm in staged.db.tools && staged.db.tools[q.vm].pending.Some?
            && At(Next(staged, s), JobOf(staged, q, s.id), Waiting)
  {
    var staged := Requested(w, q);
    GrantedIsStaged(w, q);
    assert RowOk(staged.db, q.vm, staged.used);
    if Staging(w.db, q).1.value.newConfiguration { NewConfigurationIsProvisional(w, q); }
    QueueingWaits(staged, q, s);
  }

  // --- What the guest reported --------------------------------------------------------------------

  /** The guest is ready in the version of the reinstall, and was last seen at the given time. */
  predicate IsReady(db: Db, r: Reinstall, at: int) {
    && r.vm in db.tools && db.tools[r.vm].status == Ready
    && db.tools[r.vm].installedVersion == Some(r.install.version) && db.tools[r.vm].lastSeenAt == Some(at)
  }

  /** The steps that write what is known of the guest of `v` other than its proof. */
  predicate Reports(s: Step, v: VmId) {
    (s.ReportStatus? && s.vm == v) || s.RecoverJobs?
  }

  predicate NoReports(steps: seq<Step>, v: VmId) {
    forall i :: 0 <= i < |steps| ==> !Reports(steps[i], v)
  }

  lemma ProofMakesReady(w: World, r: Reinstall, ph: Phase, s: Step)
    requires At(w, r, ph) && (ph.Keeping? || ph.Finished?) && IsProof(r, s) && Enabled(w, s)
    ensures IsReady(Next(w, s).db, r, s.now)
  {
    NextDb(w, s);
    PromoteEffect(w.db, s.vm, s.generation, s.version, s.now);
  }

  lemma RequestLeavesRecord(w: World, s: Step, r: Reinstall)
    requires Enabled(w, s) && IsForeign(w, r, s) && !Reports(s, r.vm) && r.vm in w.db.tools
    requires || s.Configure? || s.Stage? || s.DiscardStage? || s.DeleteConfiguration? || s.Handshake?
             || s.ReportStatus?
    ensures r.vm in DbAfter(w, s).tools && DbAfter(w, s).tools[r.vm] == w.db.tools[r.vm]
  {
  }

  lemma WorkerLeavesRecord(w: World, s: Step, r: Reinstall)
    requires Enabled(w, s) && IsForeign(w, r, s) && r.vm in w.db.tools
    requires s.RemoveVmRow? || s.Cancel? || s.Arm? || s.RetireAfterReinstall? || s.Fail?
    ensures r.vm in DbAfter(w, s).tools && DbAfter(w, s).tools[r.vm] == w.db.tools[r.vm]
  {
  }

  lemma RecordStays(w: World, s: Step, r: Reinstall)
    requires r.vm in w.db.tools && Enabled(w, s) && !Reports(s, r.vm)
    requires IsForeign(w, r, s) || s.Finish?
    ensures r.vm in Next(w, s).db.tools && Next(w, s).db.tools[r.vm] == w.db.tools[r.vm]
  {
    if !TouchesTools(s) {
      OtherStepsKeepTools(w, s);
    } else {
      NextDb(w, s);
      if s.RemoveVmRow? || s.Cancel? || s.Arm? || s.RetireAfterReinstall? || s.Fail? {
        WorkerLeavesRecord(w, s, r);
      } else {
        RequestLeavesRecord(w, s, r);
      }
    }
  }

  lemma {:induction false} ReadyStays(w: World, r: Reinstall, from: Phase, steps: seq<Step>, to: Phase, at: int)
    requires At(w, r, from) && (from.Proven? || from.Done?) && Follows(w, r, from, steps, to)
    requires NoReports(steps, r.vm) && IsReady(w.db, r, at)
    ensures IsReady(Run(w, steps).db, r, at)
    decreases |steps|
  {
    if steps != [] {
      RecordStays(w, steps[0], r);
      if IsOwn(r, from, steps[0]) {
        OwnStepAdvances(w, r, from, steps[0]);
        ReadyStays(Next(w, steps[0]), r, NextPhase(from, steps[0]), steps[1..], to, at);
      } else {
        ForeignStepStaysAt(w, steps[0], r, from);
        ReadyStays(Next(w, steps[0]), r, from, steps[1..], to, at);
      }
    }
  }

  /** At `steps[i]` the guest proves its key and is recorded as ready; that is how it stays
      while nothing else is reported. */
  ghost predicate BecomesReady(w: World, r: Reinstall, steps: seq<Step>, i: nat) {
    && i < |steps| && IsProof(r, steps[i]) && IsReady(Run(w, steps[..i + 1]).db, r, steps[i].now)
    && (NoReports(steps[i + 1..], r.vm) ==> IsReady(Run(w, steps).db, r, steps[i].now))
  }

  lemma {:induction false} GuestBecomesReady(w: World, r: Reinstall, from: Phase, steps: seq<Step>)
    requires At(w, r, from) && !from.Proven? && !from.Done? && Follows(w, r, from, steps, Done)
    ensures exists i :: BecomesReady(w, r, steps, i)
    decreases |steps|
  {
    var s, next, rest := steps[0], Next(w, steps[0]), steps[1..];
    if IsOwn(r, from, s) && IsProof(r, s) {
      ProofMakesReady(w, r, from, s);
      OwnStepAdvances(w, r, from, s);
      RunOfOne(w, steps);
      if NoReports(steps[1..], r.vm) { ReadyStays(next, r, NextPhase(from, s), rest, Done, s.now); }
      assert BecomesReady(w, r, steps, 0);
    } else {
      var ph := if IsOwn(r, from, s) then NextPhase(from, s) else from;
      if IsOwn(r, from, s) { OwnStepAdvances(w, r, from, s); } else { ForeignStepStaysAt(w, s, r, from); }
      GuestBecomesReady(next, r, ph, rest);
      var i :| BecomesReady(next, r, rest, i);
      BecomesReadyLater(w, r, steps, i);
    }
  }

  lemma RunOfOne(w: World, steps: seq<Step>)
    requires steps != []
    ensures Run(w, steps[..1]) == Next(w, steps[0])
  {
    assert steps[..1][1..] == [];
  }

  lemma BecomesReadyLater(w: World, r: Reinstall, steps: seq<Step>, i: nat)
    requires steps != [] && BecomesReady(Next(w, steps[0]), r, steps[1..], i)
    ensures BecomesReady(w, r, steps, i + 1)
  {
    assert steps[..i + 2][1..] == steps[1..][..i + 1];
    assert steps[i + 2..] == steps[1..][i + 1..];
  }

  // --- The whole reinstall ------------------------------------------------------------------------

  /** Whether it stages a new generation or gets the armed one of a failed attempt again, and
      whatever comes between its steps: when its schedule is through, the key of the reinstall
      is on the disk, is the active key, and is the key clients use; nothing is pending; and at
      its proof the guest was recorded as ready in the new version, which stays so while nothing
      else is reported. */
  lemma RotationCompletes(w: World, q: Request, s: Step, steps: seq<Step>)
    requires IsGranted(w, q) && IsJobFor(w, q, s)
    requires q.vm in Requested(w, q).db.tools && Requested(w, q).db.tools[q.vm].pending.Some?
    requires var staged := Requested(w, q);
             Follows(Next(staged, s), JobOf(staged, q, s.id), Waiting, steps, Done)
    ensures var staged, done := Requested(w, q), Run(Next(Requested(w, q), s), steps);
            var rotation := staged.db.tools[q.vm].pending.value;
            var secret := rotation.envelope.secret;
            && q.vm in done.disk && done.disk[q.vm] == secret && ClientSecret(done.db, q.vm) == Some(secret)
            && q.vm in done.db.tools && done.db.tools[q.vm].pending.None?
            && done.db.tools[q.vm].active.secret == secret && done.db.tools[q.vm].install == rotation.install
            && s.id in done.db.jobs && done.db.jobs[s.id].status == Succeeded
    ensures var staged := Requested(w, q);
            exists i :: BecomesReady(Next(staged, s), JobOf(staged, q, s.id), steps, i)
  {
    RequestWaits(w, q, s);
    ScheduleLeads(Next(Requested(w, q), s), JobOf(Requested(w, q), q, s.id), Waiting, steps, Done);
    GuestBecomesReady(Next(Requested(w, q), s), JobOf(Requested(w, q), q, s.id), Waiting, steps);
  }

  /** Repeating a request whose attempt failed with its generation armed: the tables stay as they
      are, the request gets that generation again, and the same rotation completes. */
  lemma RetryCompletes(w: World, q: Request, origin: JobId, s: Step, steps: seq<Step>)
    requires Invariant(w) && IsFresh(w, q) && q.queued && q.socketOk && IsFingerprint(q.fingerprint)
    requires LeftArmed(w.db, origin, q.vm, q.fingerprint) && q.install == w.db.tools[q.vm].pending.value.install
    requires IsJobFor(w, q, s) && Follows(Next(w, s), JobOf(w, q, s.id), Waiting, steps, Done)
    ensures Requested(w, q) == w
    ensures Staging(w.db, q) == (w.db, Ok(Staged(w.db.tools[q.vm].pending.value.generation, false)))
    ensures var done, secret := Run(Next(w, s), steps), w.db.tools[q.vm].pending.value.envelope.secret;
            && q.vm in done.disk && done.disk[q.vm] == secret && ClientSecret(done.db, q.vm) == Some(secret)
            && q.vm in done.db.tools && done.db.tools[q.vm].pending.None?
  {
    assert AnyLeftArmed(w.db, q.vm, q.fingerprint);
    assert RequestSteps(w.db, q) == [];
    RotationCompletes(w, q, s, steps);
  }

  /** Such a schedule exists whenever the worker is free and no other job is due earlier. */
  lemma ScheduleExists(w: World, q: Request, s: Step, now: int)
    requires IsGranted(w, q) && IsJobFor(w, q, s) && Enabled(Next(Requested(w, q), s), ClaimNext(s.id, now))
    ensures var staged := Requested(w, q);
            && q.vm in staged.db.tools && staged.db.tools[q.vm].pending.Some?
            && var r := JobOf(staged, q, s.id);
               Follows(Next(staged, s), r, Waiting, WorkFrom(r, Waiting, now), Done)
  {
    RequestWaits(w, q, s);
    WorkFollows(Next(Requested(w, q), s), JobOf(Requested(w, q), q, s.id), Waiting, now);
  }

  // --- Failures and process deaths --------------------------------------------------------------

  /** The worker dies on the job, or gives it up. */
  ghost predicate Interrupts(w: World, r: Reinstall, s: Step) {
    && Enabled(w, s) && w.worker.Some? && w.worker.value.job == r.job
    && (s.Crash? || (s.Fail? && s.retryAt.None?))
  }

  /** What an interrupted reinstall leaves once the service has started again. */
  ghost predicate IsLeft(db: Db, r: Reinstall, armed: bool) {
    && HasJob(db, r, Failed) && r.vm in db.vms
    && (forall id <- db.jobs :: !(IsLive(db.jobs[id]) && IsReinstallOf(db.jobs[id], r.vm)))
    && if armed then HasStage(db, r, true) else r.vm in db.tools ==> db.tools[r.vm].pending.None?
  }

  lemma RecoveredJobFails(db: Db, after: Db, now: int, r: Reinstall)
    requires IsRecovered(db, after, now) && (HasJob(db, r, Running) || HasJob(db, r, Failed))
    requires IsOnlyReinstall(db.jobs, r) && IsLastAttempt(db.jobs[r.job])
    ensures HasJob(after, r, Failed)
    ensures forall id <- after.jobs :: !(IsLive(after.jobs[id]) && IsReinstallOf(after.jobs[id], r.vm))
  {
    assert after.jobs[r.job] == RecoveredJob(db.jobs[r.job], now);
    forall id | id in after.jobs ensures !(IsLive(after.jobs[id]) && IsReinstallOf(after.jobs[id], r.vm)) {
      assert after.jobs[id] == RecoveredJob(db.jobs[id], now);
    }
  }

  /** An armed generation outlives the job; an unarmed one goes with it. */
  lemma RecoveredRecord(db: Db, after: Db, now: int, r: Reinstall, armed: bool)
    requires IsRecovered(db, after, now) && HasStage(db, r, armed) && IsOnlyReinstall(db.jobs, r)
    requires HasJob(db, r, Running) && IsLastAttempt(db.jobs[r.job]) && IsCanonicalUuid(r.generation)
    ensures if armed then HasStage(after, r, true) else r.vm in after.tools ==> after.tools[r.vm].pending.None?
  {
    var row := db.tools[r.vm];
    RecoveredRowCases(db.jobs, r.vm, row);
    assert !armed ==> AbandonedBy(db.jobs, r.job, r.vm, row);
  }

  lemma CrashLeaves(w: World, r: Reinstall, ph: Phase, s: Step, now: int)
    requires At(w, r, ph) && IsRunning(ph) && !ph.Proven? && s.Crash?
    ensures IsLeft(Next(Next(w, s), RecoverJobs(now)).db, r, AfterArming(ph) || r.armed)
  {
    RestartRecovers(w, s, now);
    RecoverByRows(w.db, now);
    RecoveredJobFails(w.db, Recover(w.db, now), now, r);
    RecoveredRecord(w.db, Recover(w.db, now), now, r, AfterArming(ph) || r.armed);
  }

  lemma RestartRecovers(w: World, s: Step, now: int)
    requires Enabled(w, s) && (s.Crash? || s.Fail?)
    ensures Next(Next(w, s), RecoverJobs(now)).db == Recover(DbAfter(w, s), now)
  {
    NextDb(w, s);
    assert Next(w, s).worker.None?;
    NextDb(Next(w, s), RecoverJobs(now));
  }

  lemma FailedJobLeaves(db: Db, r: Reinstall, armed: bool, now: int)
    requires HasJob(db, r, Running) && HasStage(db, r, armed) && IsOnlyReinstall(db.jobs, r)
    requires IsCanonicalUuid(r.generation) && IsLastAttempt(db.jobs[r.job]) && r.vm in db.vms
    ensures IsLeft(FailJob(db, r.job, None, now).0, r, armed)
  {
  }

  lemma RestartLeaves(db: Db, r: Reinstall, armed: bool, now: int)
    requires IsLeft(db, r, armed)
    ensures IsLeft(Recover(db, now), r, armed)
  {
    var after := Recover(db, now);
    RecoverByRows(db, now);
    forall id | id in after.jobs ensures !(IsLive(after.jobs[id]) && IsReinstallOf(after.jobs[id], r.vm)) {
      assert after.jobs[id] == RecoveredJob(db.jobs[id], now);
    }
    if r.vm in db.tools { RecoveredRowCases(db.jobs, r.vm, db.tools[r.vm]); }
  }

  lemma FailureLeaves(w: World, r: Reinstall, ph: Phase, s: Step, now: int)
    requires At(w, r, ph) && IsRunning(ph) && !ph.Proven? && s.Fail? && s.retryAt.None? && Enabled(w, s)
    ensures IsLeft(Next(Next(w, s), RecoverJobs(now)).db, r, AfterArming(ph) || r.armed)
  {
    RestartRecovers(w, s, now);
    FailedJobLeaves(w.db, r, AfterArming(ph) || r.armed, s.now);
    RestartLeaves(DbAfter(w, s), r, AfterArming(ph) || r.armed, now);
  }

  lemma RestartIsSafe(w: World, s: Step, now: int)
    requires Invariant(w) && (s.Crash? || s.Fail?)
    ensures Invariant(Next(Next(w, s), RecoverJobs(now)))
  {
    assert !Breaks(w, s);
    StepIsSafeExactly(w, s);
    assert !Breaks(Next(w, s), RecoverJobs(now));
    StepIsSafeExactly(Next(w, s), RecoverJobs(now));
  }

  /** What is left suffices for the same request: it gets a generation, the armed one if the
      attempt had armed it. */
  lemma LeftIsRepeatable(w: World, r: Reinstall, armed: bool, q: Request)
    requires Invariant(w) && IsLeft(w.db, r, armed)
    requires q.vm == r.vm && q.fingerprint == r.fingerprint && q.install == r.install && q.socketOk
    requires IsFingerprint(q.fingerprint)
    ensures Staging(w.db, q).1.Ok? && Competitor(w.db.jobs, VmReinstall, Some(q.vm), None).None?
    ensures armed ==> Staging(w.db, q).1.value == Staged(r.generation, false)
  {
    RequestSucceedsExactly(w, q);
    NoCompetitorIsLive(w.db.jobs, q.vm);
    assert armed ==> LeftArmed(w.db, r.job, q.vm, q.fingerprint);
  }

  /** Wherever a reinstall fails or its process dies: after a restart the same request gets a
      generation again, the one the attempt had armed or else a new one, and nothing competes
      with its job; so the rotation completes. */
  lemma InterruptedCanBeRepeated(w: World, r: Reinstall, ph: Phase, s: Step, now: int, q: Request)
    requires Invariant(w) && At(w, r, ph) && IsRunning(ph) && !ph.Proven? && Interrupts(w, r, s)
    requires q.vm == r.vm && q.fingerprint == r.fingerprint && q.install == r.install && q.socketOk
    requires IsFingerprint(q.fingerprint)
    ensures var w2 := Next(Next(w, s), RecoverJobs(now));
            && Invariant(w2) && Staging(w2.db, q).1.Ok?
            && Competitor(w2.db.jobs, VmReinstall, Some(q.vm), None).None?
            && (AfterArming(ph) || r.armed ==> Staging(w2.db, q).1.value == Staged(r.generation, false))
  {
    var w2 := Next(Next(w, s), RecoverJobs(now));
    RestartIsSafe(w, s, now);
    if s.Crash? { CrashLeaves(w, r, ph, s, now); } else { FailureLeaves(w, r, ph, s, now); }
    LeftIsRepeatable(w2, r, AfterArming(ph) || r.armed, q);
  }
}
