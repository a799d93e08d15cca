/** What every step keeps about jobs, and what follows for whole runs: attempt
    budgets, terminal states, uniqueness, idempotent replay and guest credentials. */
module JobHistory {
  import opened Basics
  import opened Records
  import opened ControlPlane
  import opened Deployment

  // --- How one step can change one job ------------------------------------------

  predicate Untouched(j: Job, k: Job) {
    k.status == j.status && k.attempts == j.attempts && k.maxAttempts == j.maxAttempts && k.payload == j.payload
  }

  predicate WasClaimed(j: Job, k: Job) {
    && j.status == Queued && k.status == Running && j.attempts < j.maxAttempts
    && k.attempts == j.attempts + 1 && k.maxAttempts == j.maxAttempts && k.payload == j.payload
  }

  predicate WasRequeued(j: Job, k: Job) {
    && j.status == Running && k.status == Queued && j.attempts < j.maxAttempts
    && k.attempts == j.attempts && k.maxAttempts == j.maxAttempts && k.payload == j.payload
  }

  /** The one exception to the budget: an exhausted delete whose VM row is gone. */
  predicate WasGrantedFinalizer(j: Job, k: Job) {
    && IsDeleteFinalizer(j) && k.status == Queued && j.attempts >= j.maxAttempts
    && k.attempts == j.attempts && k.maxAttempts == j.attempts + 1 && k.payload == j.payload
  }

  predicate WasEnded(j: Job, k: Job) {
    && (if j.status == Queued then k.status == Cancelled
        else j.status == Running && (k.status == Succeeded || k.status == Failed))
    && k.attempts == j.attempts && k.maxAttempts == j.maxAttempts
    && k.payload == WithoutStagedPassword(j.payload)
  }

  predicate Evolves(j: Job, k: Job) {
    && k.kind == j.kind && k.key == j.key && k.createdAt == j.createdAt
    && (k.vm == j.vm || k.vm.None?)
    && (Untouched(j, k) || WasClaimed(j, k) || WasRequeued(j, k) || WasGrantedFinalizer(j, k) || WasEnded(j, k))
  }

  predicate IsNewJob(j: Job) {
    j.status == Queued && j.attempts == 0 && j.maxAttempts >= 1
  }

  ghost predicate JobsEvolve(before: map<JobId, Job>, after: map<JobId, Job>) {
    && (forall id :: id in before ==> id in after && Evolves(before[id], after[id]))
    && (forall id :: id in after && id !in before ==> IsNewJob(after[id]))
  }

  lemma RecoveryEvolvesJobs(db: Db, after: Db, now: int)
    requires IsRecovered(db, after, now)
    ensures JobsEvolve(db.jobs, after.jobs)
  {
    forall id | id in db.jobs ensures Evolves(db.jobs[id], after.jobs[id]) {
      assert after.jobs[id] == RecoveredJob(db.jobs[id], now);
    }
  }

  lemma WritingEvolvesJobs(jobs: map<JobId, Job>, id: JobId, k: Job)
    requires id in jobs && Evolves(jobs[id], k)
    ensures JobsEvolve(jobs, jobs[id := k])
  {
  }

  lemma DetachingEvolvesJobs(before: map<JobId, Job>, jobs: map<JobId, Job>, v: VmId)
    requires JobsEvolve(before, jobs)
    ensures JobsEvolve(before, DetachJobs(jobs, v))
  {
  }

  lemma CancelEvolvesJobs(db: Db, id: JobId, now: int)
    ensures JobsEvolve(db.jobs, CancelJob(db, id, now).0.jobs)
  {
    if id in db.jobs && db.jobs[id].status == Queued {
      var j := db.jobs[id];
      WritingEvolvesJobs(db.jobs, id, Ended(j, Cancelled, now));
      if j.vm.Some? { DetachingEvolvesJobs(db.jobs, db.jobs[id := Ended(j, Cancelled, now)], j.vm.value); }
    }
  }

  lemma FailEvolvesJobs(db: Db, id: JobId, retryAt: Option<int>, now: int)
    ensures JobsEvolve(db.jobs, FailJob(db, id, retryAt, now).0.jobs)
    ensures JobsEvolve(db.jobs, FinishJob(db, id, now).0.jobs)
  {
    if id in db.jobs && db.jobs[id].status == Running {
      WritingEvolvesJobs(db.jobs, id, FailedRow(db.jobs[id], retryAt, now));
      WritingEvolvesJobs(db.jobs, id, Ended(db.jobs[id], Succeeded, now));
    }
  }

  lemma EnqueueEvolvesJobs(w: World, s: Step)
    requires Enabled(w, s)
    requires s.Enqueue? || s.QueueBootstrap? || s.QueueDelete? || s.QueueReinstall?
    ensures JobsEvolve(w.db.jobs, DbAfter(w, s).jobs)
  {
  }

  lemma OtherStepEvolvesJobs(w: World, s: Step)
    requires Enabled(w, s)
    requires s.RemoveVmRow? || s.ClaimNext?
    ensures JobsEvolve(w.db.jobs, DbAfter(w, s).jobs)
  {
  }

  predicate MovesJobs(s: Step) {
    || s.Enqueue? || s.QueueBootstrap? || s.QueueDelete? || s.QueueReinstall? || s.RemoveVmRow? || s.ClaimNext?
    || s.RecoverJobs? || s.Cancel? || s.Finish? || s.Fail?
  }

  lemma OnlyJobStepsMoveJobs(w: World, s: Step)
    requires !MovesJobs(s)
    ensures Next(w, s).db.jobs == w.db.jobs
  {
  }

  lemma SettlingStepEvolvesJobs(w: World, s: Step)
    requires Enabled(w, s) && (s.RecoverJobs? || s.Cancel? || s.Finish? || s.Fail?)
    ensures JobsEvolve(w.db.jobs, DbAfter(w, s).jobs)
  {
    match s
    case RecoverJobs(now) => RecoverByRows(w.db, now); RecoveryEvolvesJobs(w.db, DbAfter(w, s), now);
    case Cancel(id, now) => CancelEvolvesJobs(w.db, id, now);
    case Finish(now) => FailEvolvesJobs(w.db, w.worker.value.job, None, now);
    case Fail(retryAt, now) => FailEvolvesJobs(w.db, w.worker.value.job, retryAt, now);
  }

  lemma MovingStepEvolvesJobs(w: World, s: Step)
    requires Enabled(w, s) && MovesJobs(s)
    ensures JobsEvolve(w.db.jobs, DbAfter(w, s).jobs)
  {
    if s.Enqueue? || s.QueueBootstrap? || s.QueueDelete? || s.QueueReinstall? {
      EnqueueEvolvesJobs(w, s);
    } else if s.RemoveVmRow? || s.ClaimNext? {
      OtherStepEvolvesJobs(w, s);
    } else {
      SettlingStepEvolvesJobs(w, s);
    }
  }

  lemma StepEvolvesJobs(w: World, s: Step)
    ensures JobsEvolve(w.db.jobs, Next(w, s).db.jobs)
  {
    if !MovesJobs(s) {
      OnlyJobStepsMoveJobs(w, s);
    } else if Enabled(w, s) {
      NextDb(w, s);
      MovingStepEvolvesJobs(w, s);
    }
  }

  // --- Attempt budgets and terminal states ---------------------------------------

  predicate BudgetOk(j: Job) {
    && 1 <= j.maxAttempts && j.attempts <= j.maxAttempts
    && (j.status == Queued ==> j.attempts < j.maxAttempts)
    && (j.status == Running ==> 1 <= j.attempts)
  }

  /** An upper bound on how many more times the status of a job can change. */
  function Budget(j: Job): int {
    if IsTerminal(j) then 0
    else 2 * (j.maxAttempts - j.attempts) + (if j.status == Running then 1 else 0)
  }

  /** Each change of status uses up budget, except the grant of a finalizer attempt. */
  lemma StatusChangesUseBudget(j: Job, k: Job)
    requires BudgetOk(j) && Evolves(j, k)
    ensures BudgetOk(k)
    ensures Budget(k) > Budget(j) <==> WasGrantedFinalizer(j, k)
    ensures Budget(k) < Budget(j) <==> k.status != j.status && !WasGrantedFinalizer(j, k)
    ensures WasGrantedFinalizer(j, k) ==> Budget(j) == 1 && Budget(k) == 2
    ensures IsTerminal(j) ==>
              k == j.(vm := k.vm, runAfter := k.runAfter, lockedAt := k.lockedAt, finishedAt := k.finishedAt)
  {
  }

  ghost predicate AllBudgetsOk(w: World) {
    forall id :: id in w.db.jobs ==> BudgetOk(w.db.jobs[id])
  }

  lemma {:induction false} RunEvolves(w: World, steps: seq<Step>, id: JobId)
    requires id in w.db.jobs
    ensures id in Run(w, steps).db.jobs
    ensures WithoutStagedPassword(Run(w, steps).db.jobs[id].payload) == WithoutStagedPassword(w.db.jobs[id].payload)
    ensures Run(w, steps).db.jobs[id].kind == w.db.jobs[id].kind
    ensures Run(w, steps).db.jobs[id].key == w.db.jobs[id].key
    ensures Run(w, steps).db.jobs[id].vm == w.db.jobs[id].vm || Run(w, steps).db.jobs[id].vm.None?
    ensures IsTerminal(w.db.jobs[id]) ==>
              && Run(w, steps).db.jobs[id].status == w.db.jobs[id].status
              && Run(w, steps).db.jobs[id].payload == w.db.jobs[id].payload
              && Run(w, steps).db.jobs[id].attempts == w.db.jobs[id].attempts
    decreases |steps|
  {
    if steps != [] {
      StepEvolvesJobs(w, steps[0]);
      assert Evolves(w.db.jobs[id], Next(w, steps[0]).db.jobs[id]);
      RunEvolves(Next(w, steps[0]), steps[1..], id);
    }
  }

  lemma {:induction false} BudgetsStayOk(w: World, steps: seq<Step>)
    requires AllBudgetsOk(w)
    ensures AllBudgetsOk(Run(w, steps))
    decreases |steps|
  {
    if steps != [] {
      BudgetsStayOkOnce(w, steps[0]);
      BudgetsStayOk(Next(w, steps[0]), steps[1..]);
    }
  }

  lemma BudgetsStayOkOnce(w: World, s: Step)
    requires AllBudgetsOk(w)
    ensures AllBudgetsOk(Next(w, s))
  {
    var next := Next(w, s);
    StepEvolvesJobs(w, s);
    forall id | id in next.db.jobs ensures BudgetOk(next.db.jobs[id]) {
      if id in w.db.jobs { StatusChangesUseBudget(w.db.jobs[id], next.db.jobs[id]); }
    }
  }

  /** How often the status of a job changes along a run. */
  ghost function StatusChanges(w: World, steps: seq<Step>, id: JobId): nat
    decreases |steps|
  {
    if steps == [] then 0
    else
      var next := Next(w, steps[0]);
      (if id in w.db.jobs && id in next.db.jobs && w.db.jobs[id].status != next.db.jobs[id].status then 1 else 0)
      + StatusChanges(next, steps[1..], id)
  }

  /** A job that is not a delete changes status at most `Budget` times, ever. */
  lemma {:induction false} StatusChangesBounded(w: World, steps: seq<Step>, id: JobId)
    requires AllBudgetsOk(w) && id in w.db.jobs && w.db.jobs[id].kind != VmDelete
    ensures StatusChanges(w, steps, id) <= Budget(w.db.jobs[id])
    decreases |steps|
  {
    if steps != [] {
      StatusChangeUsesBudget(w, steps[0], id);
      StatusChangesBounded(Next(w, steps[0]), steps[1..], id);
    }
  }

  lemma StatusChangeUsesBudget(w: World, s: Step, id: JobId)
    requires AllBudgetsOk(w) && id in w.db.jobs && w.db.jobs[id].kind != VmDelete
    ensures var next := Next(w, s);
            && AllBudgetsOk(next) && id in next.db.jobs && next.db.jobs[id].kind == w.db.jobs[id].kind
            && Budget(next.db.jobs[id]) + (if next.db.jobs[id].status != w.db.jobs[id].status then 1 else 0)
               <= Budget(w.db.jobs[id])
  {
    BudgetsStayOkOnce(w, s);
    StepEvolvesJobs(w, s);
    StatusChangesUseBudget(w.db.jobs[id], Next(w, s).db.jobs[id]);
  }

  // --- Uniqueness of keys and live jobs -------------------------------------------

  /** The only way to add a job: after finding no competitor and no job with its key. */
  predicate AddsOnly(before: map<JobId, Job>, after: map<JobId, Job>, id: JobId) {
    after.Keys <= before.Keys + {id}
  }

  ghost predicate FitsIn(jobs: map<JobId, Job>, j: Job) {
    && (j.key.Some? ==> forall o :: !HasKey(jobs, o, j.key.value))
    && (IsDedicated(j.kind) && j.vm.Some? ==>
          forall o :: !IsCompetitor(jobs, o, j.kind, j.vm, j.payload.expectedGeneration))
  }

  lemma EvolutionKeepsUniqueness(before: map<JobId, Job>, after: map<JobId, Job>, id: JobId)
    requires KeysUnique(before) && LiveJobsUnique(before)
    requires JobsEvolve(before, after) && AddsOnly(before, after, id)
    requires id in after && id !in before ==> FitsIn(before, after[id])
    ensures KeysUnique(after) && LiveJobsUnique(after)
  {
    forall a, b, k | HasKey(after, a, k) && HasKey(after, b, k) ensures a == b {
      assert a in before ==> HasKey(before, a, k);
      assert b in before ==> HasKey(before, b, k);
    }
    forall a, b, kind, v, g |
      IsDedicated(kind) && IsCompetitor(after, a, kind, Some(v), g) && IsCompetitor(after, b, kind, Some(v), g)
      ensures a == b
    {
      assert a in before ==> IsCompetitor(before, a, kind, Some(v), g);
      assert b in before ==> IsCompetitor(before, b, kind, Some(v), g);
      if a !in before {
        assert b in before ==> IsCompetitor(before, b, kind, Some(v), after[a].payload.expectedGeneration);
      }
      if b !in before {
        assert a in before ==> IsCompetitor(before, a, kind, Some(v), after[b].payload.expectedGeneration);
      }
    }
  }

  lemma EnqueueFitsIn(w: World, s: Step)
    requires Enabled(w, s)
    requires s.Enqueue? || s.QueueBootstrap? || s.QueueDelete? || s.QueueReinstall?
    ensures AddsOnly(w.db.jobs, DbAfter(w, s).jobs, s.id)
    ensures s.id in DbAfter(w, s).jobs ==> FitsIn(w.db.jobs, DbAfter(w, s).jobs[s.id])
  {
    if s.QueueReinstall? {
      forall o, g | IsCompetitor(w.db.jobs, o, VmReinstall, s.req.vm, g)
        ensures IsCompetitor(w.db.jobs, o, VmReinstall, s.req.vm, None) {}
    } else if s.QueueDelete? {
      forall o, g | IsCompetitor(w.db.jobs, o, VmDelete, s.req.vm, g)
        ensures IsCompetitor(w.db.jobs, o, VmDelete, s.req.vm, None) {}
    }
  }

  lemma OtherStepsAddNothing(w: World, s: Step)
    requires !(s.Enqueue? || s.QueueBootstrap? || s.QueueDelete? || s.QueueReinstall?)
    ensures Next(w, s).db.jobs.Keys == w.db.jobs.Keys
  {
    if !MovesJobs(s) { OnlyJobStepsMoveJobs(w, s); }
  }

  lemma StepKeepsUniqueness(w: World, s: Step)
    requires KeysUnique(w.db.jobs) && LiveJobsUnique(w.db.jobs)
    ensures KeysUnique(Next(w, s).db.jobs) && LiveJobsUnique(Next(w, s).db.jobs)
  {
    var after := Next(w, s).db.jobs;
    StepEvolvesJobs(w, s);
    if s.Enqueue? || s.QueueBootstrap? || s.QueueDelete? || s.QueueReinstall? {
      if Enabled(w, s) {
        EnqueueFitsIn(w, s);
        assert Next(w, s).db == DbAfter(w, s);
      }
      EvolutionKeepsUniqueness(w.db.jobs, after, s.id);
    } else {
      OtherStepsAddNothing(w, s);
      EvolutionKeepsUniqueness(w.db.jobs, after, 0);
    }
  }

  /** Over every interleaving there is at most one live reinstall and one live delete
      per VM, and one live bootstrap per VM and expected generation. */
  lemma {:induction false} LiveJobsStayUnique(w: World, steps: seq<Step>)
    requires KeysUnique(w.db.jobs) && LiveJobsUnique(w.db.jobs)
    ensures KeysUnique(Run(w, steps).db.jobs) && LiveJobsUnique(Run(w, steps).db.jobs)
    decreases |steps|
  {
    if steps != [] {
      StepKeepsUniqueness(w, steps[0]);
      LiveJobsStayUnique(Next(w, steps[0]), steps[1..]);
    }
  }

  // --- Idempotent replay ------------------------------------------------------------

  /** Once a reinstall with a key is queued, then at every later point of the job's life
      a request with that key either gets the same job back or is refused, and in both
      cases changes nothing. It gets the job back exactly if it is the same request and
      the VM still exists. */
  lemma ReinstallReplay(
    w: World, id: JobId, req: NewJob, envelope: Option<string>, desired: VmState, now: int,
    steps: seq<Step>,
    id2: JobId, req2: NewJob, envelope2: Option<string>, desired2: VmState, now2: int)
    requires KeysUnique(w.db.jobs) && LiveJobsUnique(w.db.jobs)
    requires Enabled(w, QueueReinstall(id, req, envelope, desired, now))
    requires req.key.Some? && EnqueueReinstall(w.db, id, req, envelope, desired, now).1 == Ok(id)
    requires req2.key == req.key && ReinstallRequestValid(req2, envelope2)
    ensures var later := Run(w, [QueueReinstall(id, req, envelope, desired, now)] + steps).db;
            && id in later.jobs
            && EnqueueReinstall(later, id2, req2, envelope2, desired2, now2) ==
               (later,
                if later.jobs[id].vm.Some? && req2.vm == req.vm && req2.payload == req.payload
                then Ok(id) else Err(Conflict))
  {
    var first := QueueReinstall(id, req, envelope, desired, now);
    var queued := Next(w, first);
    assert ([first] + steps)[1..] == steps;
    assert HasKey(queued.db.jobs, id, req.key.value);
    assert WithoutStagedPassword(queued.db.jobs[id].payload) == req.payload;
    StepKeepsUniqueness(w, first);
    RunEvolves(queued, steps, id);
    LiveJobsStayUnique(queued, steps);
    var later := Run(queued, steps).db;
    assert HasKey(later.jobs, id, req.key.value);
    assert JobByKey(later.jobs, req2.key) == Some(id);
  }

  // --- Guest credentials -------------------------------------------------------------

  /** A terminal job never carries a staged credential. */
  ghost predicate NoStagedInTerminal(w: World) {
    forall id :: id in w.db.jobs && IsTerminal(w.db.jobs[id]) ==> w.db.jobs[id].payload.stagedPassword.None?
  }

  lemma {:induction false} TerminalJobsCarryNoCredential(w: World, steps: seq<Step>)
    requires NoStagedInTerminal(w)
    ensures NoStagedInTerminal(Run(w, steps))
    decreases |steps|
  {
    if steps != [] {
      var next := Next(w, steps[0]);
      StepEvolvesJobs(w, steps[0]);
      forall id | id in next.db.jobs && IsTerminal(next.db.jobs[id])
        ensures next.db.jobs[id].payload.stagedPassword.None?
      {
        if id in w.db.jobs { assert Evolves(w.db.jobs[id], next.db.jobs[id]); }
      }
      TerminalJobsCarryNoCredential(next, steps[1..]);
    }
  }

  ghost function PasswordOf(w: World, v: VmId): Option<Option<string>> {
    if v in w.db.vms then Some(w.db.vms[v].password) else None
  }

  /** The steps that may write the stored password of `v`: an administrator's, or the
      commit of the running reinstall of `v`. */
  ghost predicate WritesPassword(w: World, s: Step, v: VmId) {
    || (s.StorePassword? && s.vm == v)
    || (s.CommitPassword? && Enabled(w, s) && WorkerVm(w) == Some(v) && WorkerJob(w).value.status == Running)
  }

  ghost predicate PasswordsKept(before: Db, after: Db) {
    forall v :: v in before.vms && v in after.vms ==> after.vms[v].password == before.vms[v].password
  }

  lemma RecoveryKeepsPasswords(db: Db, after: Db, now: int)
    requires IsRecovered(db, after, now)
    ensures PasswordsKept(db, after)
  {
    forall v | v in db.vms ensures after.vms[v].password == db.vms[v].password {
      assert after.vms[v] == RecoveredVm(db.jobs, v, db.vms[v]);
    }
  }

  predicate TouchesVms(s: Step) {
    || s.CreateVm? || s.RemoveVmRow? || s.ObserveVm? || s.StorePassword? || s.QueueReinstall? || s.Cancel?
    || s.CommitPassword? || s.RecoverJobs?
  }

  lemma OtherStepsKeepVms(w: World, s: Step)
    requires !TouchesVms(s)
    ensures Next(w, s).db.vms == w.db.vms
  {
  }

  lemma VmStepsKeepPasswords(w: World, s: Step)
    requires Enabled(w, s)
    requires s.CreateVm? || s.RemoveVmRow? || s.ObserveVm? || s.QueueReinstall?
    ensures PasswordsKept(w.db, DbAfter(w, s))
  {
  }

  lemma CancelKeepsPasswords(db: Db, id: JobId, now: int)
    ensures PasswordsKept(db, CancelJob(db, id, now).0)
  {
  }

  /** No transition of a job undoes or writes a credential: only `WritesPassword` does. */
  lemma OnlyWritersChangePasswords(w: World, s: Step, v: VmId)
    requires v in w.db.vms && v in Next(w, s).db.vms && !WritesPassword(w, s, v)
    ensures Next(w, s).db.vms[v].password == w.db.vms[v].password
  {
    if !TouchesVms(s) {
      OtherStepsKeepVms(w, s);
    } else if Enabled(w, s) {
      NextDb(w, s);
      if s.StorePassword? || s.CommitPassword? {
        OtherWritesKeepPassword(w, s, v);
      } else {
        VmStepKeepsPasswords(w, s);
      }
    }
  }

  lemma OtherWritesKeepPassword(w: World, s: Step, v: VmId)
    requires Enabled(w, s) && (s.StorePassword? || s.CommitPassword?) && !WritesPassword(w, s, v) && v in w.db.vms
    ensures v in DbAfter(w, s).vms && DbAfter(w, s).vms[v].password == w.db.vms[v].password
  {
  }

  lemma VmStepKeepsPasswords(w: World, s: Step)
    requires Enabled(w, s) && TouchesVms(s) && !s.StorePassword? && !s.CommitPassword?
    ensures PasswordsKept(w.db, DbAfter(w, s))
  {
    if s.RecoverJobs? {
      RecoverByRows(w.db, s.now);
      RecoveryKeepsPasswords(w.db, DbAfter(w, s), s.now);
    } else if s.Cancel? {
      CancelKeepsPasswords(w.db, s.id, s.now);
    } else {
      VmStepsKeepPasswords(w, s);
    }
  }

  /** `v` exists all along the run and no step of it writes its password. */
  ghost predicate PasswordUnwritten(w: World, steps: seq<Step>, v: VmId)
    decreases |steps|
  {
    && v in w.db.vms
    && (steps != [] ==> !WritesPassword(w, steps[0], v) && PasswordUnwritten(Next(w, steps[0]), steps[1..], v))
  }

  lemma {:induction false} PasswordSticks(w: World, steps: seq<Step>, v: VmId)
    requires PasswordUnwritten(w, steps, v)
    ensures v in Run(w, steps).db.vms && Run(w, steps).db.vms[v].password == w.db.vms[v].password
    decreases |steps|
  {
    if steps != [] {
      OnlyWritersChangePasswords(w, steps[0], v);
      PasswordSticks(Next(w, steps[0]), steps[1..], v);
    }
  }

  /** The credential a running reinstall commits: cleared, replaced, or left alone. */
  function CommittedPassword(p: Payload, current: Option<string>): Option<string> {
    if p.clearPassword then None else if p.stagedPassword.Some? then p.stagedPassword else current
  }

  /** A commit succeeds exactly for a running reinstall that owns an existing VM. It is
      idempotent, touches nothing but that VM's password, and whatever becomes of the
      job afterwards the password stays until someone writes it again. */
  lemma CommitIsDurable(w: World, id: JobId, steps: seq<Step>)
    requires id in w.db.jobs && ReferencesResolve(w.db)
    ensures var j := w.db.jobs[id];
            var (after, outcome) := CommitReinstallPassword(w.db, id);
            && (outcome.Ok? <==> j.kind == VmReinstall && j.status == Running && j.vm.Some?
                                 && !(j.payload.clearPassword && j.payload.stagedPassword.Some?))
            && (outcome.Err? ==> after == w.db)
            && CommitReinstallPassword(after, id) == (after, outcome)
            && (outcome.Ok? ==>
                  && after == w.db.(vms := after.vms)
                  && after.vms == w.db.vms[j.vm.value := w.db.vms[j.vm.value].(
                                      password := CommittedPassword(j.payload, w.db.vms[j.vm.value].password))]
                  && (PasswordUnwritten(w.(db := after), steps, j.vm.value) ==>
                        PasswordOf(Run(w.(db := after), steps), j.vm.value)
                        == Some(CommittedPassword(j.payload, w.db.vms[j.vm.value].password))))
  {
    var j := w.db.jobs[id];
    var (after, outcome) := CommitReinstallPassword(w.db, id);
    if outcome.Ok? {
      assert CommitReinstallPassword(after, id).0.vms == after.vms;
    }
    if outcome.Ok? && PasswordUnwritten(w.(db := after), steps, j.vm.value) {
      PasswordSticks(w.(db := after), steps, j.vm.value);
    }
  }
}
