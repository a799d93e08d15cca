/** What each transaction on jobs and VMs does, column by column: its answer, what it writes, and
    what it leaves alone. */
module JobEffects {
  import opened Basics
  import opened Records
  import opened ControlPlane

  // --- Enqueueing ---------------------------------------------------------------------------

  /** The columns of a job just queued. */
  predicate IsQueuedFor(j: Job, req: NewJob, payload: Payload, key: Option<string>, now: int) {
    && j.kind == req.kind && j.vm == req.vm && j.status == Queued && j.payload == payload && j.key == key
    && j.attempts == 0 && (req.maxAttempts >= 1 ==> j.maxAttempts == req.maxAttempts)
    && (req.maxAttempts == 0 ==> j.maxAttempts == 1)
    && (req.runAfter.Some? ==> j.runAfter == req.runAfter.value) && (req.runAfter.None? ==> j.runAfter == now)
    && j.lockedAt.None? && j.createdAt == now && j.finishedAt.None?
  }

  predicate IsInserted(before: Db, after: Db, id: JobId) {
    && after.vms == before.vms && after.tools == before.tools
    && id in after.jobs && after.jobs - {id} == before.jobs
  }

  /** Stored unless its VM does not exist. */
  predicate IsQueued(before: Db, after: Db, r: Result<JobId>, id: JobId, req: NewJob, key: Option<string>, now: int) {
    if req.vm.Some? && req.vm.value !in before.vms then after == before && r == Err(Storage)
    else r == Ok(id) && IsInserted(before, after, id) && IsQueuedFor(after.jobs[id], req, req.payload, key, now)
  }

  predicate KeyTaken(db: Db, key: Option<string>) {
    key.Some? && exists old_ :: old_ in db.jobs && db.jobs[old_].key == key
  }

  /** A job with the key is returned if it is the same request, and a conflict otherwise. */
  ghost predicate IsReplayed(before: Db, after: Db, r: Result<JobId>, req: NewJob) {
    && after == before
    && forall old_ :: old_ in before.jobs && before.jobs[old_].key == req.key ==>
         r == if && before.jobs[old_].kind == req.kind && before.jobs[old_].vm == req.vm
                 && before.jobs[old_].payload == req.payload then Ok(old_) else Err(Conflict)
  }

  lemma KeyFound(db: Db, key: Option<string>)
    requires KeysUnique(db.jobs)
    ensures JobByKey(db.jobs, key).Some? <==> KeyTaken(db, key)
    ensures forall id :: id in db.jobs && key.Some? && db.jobs[id].key == key ==> JobByKey(db.jobs, key) == Some(id)
  {
    forall id | id in db.jobs && key.Some? && db.jobs[id].key == key ensures JobByKey(db.jobs, key) == Some(id) {
      assert HasKey(db.jobs, id, key.value);
    }
  }

  /** A live job of the kind for the VM and, for a bootstrap, for the generation. */
  predicate IsLiveJob(j: Job, kind: Kind, vm: Option<VmId>, generation: Option<string>) {
    && (j.status == Queued || j.status == Running) && j.kind == kind && j.vm == vm
    && (kind == GuestBootstrap ==> j.payload.expectedGeneration == generation)
  }

  predicate AnyLiveJob(db: Db, kind: Kind, vm: Option<VmId>, generation: Option<string>) {
    exists id :: id in db.jobs && IsLiveJob(db.jobs[id], kind, vm, generation)
  }

  lemma CompetitorFound(db: Db, kind: Kind, vm: Option<VmId>, generation: Option<string>)
    ensures Competitor(db.jobs, kind, vm, generation).Some? <==> AnyLiveJob(db, kind, vm, generation)
    ensures Competitor(db.jobs, kind, vm, generation).Some? ==>
              && Competitor(db.jobs, kind, vm, generation).value in db.jobs
              && IsLiveJob(db.jobs[Competitor(db.jobs, kind, vm, generation).value], kind, vm, generation)
  {
    forall id | id in db.jobs
      ensures IsCompetitor(db.jobs, id, kind, vm, generation) <==> IsLiveJob(db.jobs[id], kind, vm, generation)
    {
    }
  }

  lemma EnqueueJobEffect(db: Db, id: JobId, req: NewJob, now: int)
    requires id !in db.jobs && KeysUnique(db.jobs)
    ensures var (after, r) := EnqueueJob(db, id, req, now);
            if KeyTaken(db, req.key) then IsReplayed(db, after, r, req)
            else IsQueued(db, after, r, id, req, req.key, now)
  {
    KeyFound(db, req.key);
  }

  lemma EnqueueDeleteEffect(db: Db, id: JobId, req: NewJob, now: int)
    requires id !in db.jobs && KeysUnique(db.jobs)
    ensures var (after, r) := EnqueueDelete(db, id, req, now);
            if req.kind != VmDelete || req.vm.None? then after == db && r == Err(Validation)
            else if KeyTaken(db, req.key) then IsReplayed(db, after, r, req)
            else if AnyLiveJob(db, VmDelete, req.vm, None) then
              after == db && r.Ok? && r.value in db.jobs && IsLiveJob(db.jobs[r.value], VmDelete, req.vm, None)
            else IsQueued(db, after, r, id, req, req.key, now)
  {
    KeyFound(db, req.key);
    CompetitorFound(db, VmDelete, req.vm, None);
  }

  /** Bootstraps have no idempotency key. */
  lemma EnqueueBootstrapEffect(db: Db, id: JobId, req: NewJob, now: int)
    requires id !in db.jobs
    ensures var (after, r) := EnqueueBootstrap(db, id, req, now);
            var g := req.payload.expectedGeneration;
            if req.kind != GuestBootstrap || req.vm.None? || (g.Some? && !IsCanonicalUuid(g.value)) then
              after == db && r == Err(Validation)
            else if AnyLiveJob(db, GuestBootstrap, req.vm, g) then
              after == db && r.Ok? && r.value in db.jobs && IsLiveJob(db.jobs[r.value], GuestBootstrap, req.vm, g)
            else IsQueued(db, after, r, id, req, None, now)
  {
    CompetitorFound(db, GuestBootstrap, req.vm, req.payload.expectedGeneration);
  }

  /** The credential goes into the payload and is left out of the comparison with a replay. */
  ghost predicate IsReplayedReinstall(before: Db, after: Db, r: Result<JobId>, req: NewJob) {
    && after == before
    && forall old_ :: old_ in before.jobs && before.jobs[old_].key == req.key ==>
         r == if && before.jobs[old_].kind == req.kind && before.jobs[old_].vm == req.vm
                 && before.jobs[old_].payload.(stagedPassword := None) == req.payload then Ok(old_) else Err(Conflict)
  }

  lemma EnqueueReinstallEffect(
    db: Db, id: JobId, req: NewJob, envelope: Option<string>, desired: VmState, now: int)
    requires id !in db.jobs && KeysUnique(db.jobs)
    ensures var (after, r) := EnqueueReinstall(db, id, req, envelope, desired, now);
            if || req.kind != VmReinstall || req.vm.None? || req.payload.stagedPassword.Some?
               || (envelope.Some? && req.payload.clearPassword) then after == db && r == Err(Validation)
            else if KeyTaken(db, req.key) then IsReplayedReinstall(db, after, r, req)
            else if AnyLiveJob(db, VmReinstall, req.vm, None) then after == db && r == Err(Conflict)
            else if req.vm.value !in db.vms then after == db && r == Err(NotFound)
            else
              var v, vm := req.vm.value, db.vms[req.vm.value];
              && r == Ok(id) && after.tools == db.tools && id in after.jobs && after.jobs - {id} == db.jobs
              && after.vms == db.vms[v := Vm(Reinstalling, desired, vm.password, vm.domainDefined)]
              && IsQueuedFor(after.jobs[id], req, req.payload.(stagedPassword := envelope), req.key, now)
  {
    KeyFound(db, req.key);
    CompetitorFound(db, VmReinstall, req.vm, None);
  }

  // --- The life of a job ------------------------------------------------------------------------

  /** One job is written, the others stay; the columns that say what it is about stay too. */
  ghost predicate OnlyJobWritten(before: map<JobId, Job>, after: map<JobId, Job>, id: JobId) {
    && id in before && after.Keys == before.Keys
    && (forall o :: o in before && o != id ==> after[o] == before[o])
    && SameWork(before[id], after[id])
  }

  predicate SameWork(j: Job, k: Job) {
    k.kind == j.kind && k.vm == j.vm && k.key == j.key && k.maxAttempts == j.maxAttempts && k.createdAt == j.createdAt
  }

  /** A claim takes a job that is queued, due and has an attempt left, and none such is due
      earlier or as early and created earlier; it counts the attempt and locks the job. */
  lemma ClaimEffect(db: Db, id: JobId, now: int)
    requires IsNextClaim(db.jobs, id, now)
    ensures var j, after := db.jobs[id], Claim(db, id, now);
            var k := after.jobs[id];
            && j.status == Queued && j.runAfter <= now && j.attempts < j.maxAttempts
            && (forall o :: o in db.jobs && db.jobs[o].status == Queued && db.jobs[o].runAfter <= now
                            && db.jobs[o].attempts < db.jobs[o].maxAttempts ==>
                  || j.runAfter < db.jobs[o].runAfter
                  || (j.runAfter == db.jobs[o].runAfter && j.createdAt <= db.jobs[o].createdAt))
            && after.vms == db.vms && after.tools == db.tools && OnlyJobWritten(db.jobs, after.jobs, id)
            && k.status == Running && k.attempts == j.attempts + 1 && k.lockedAt == Some(now)
            && k.payload == j.payload && k.runAfter == j.runAfter && k.finishedAt == j.finishedAt
  {
    forall o | o in db.jobs && db.jobs[o].status == Queued && db.jobs[o].runAfter <= now
               && db.jobs[o].attempts < db.jobs[o].maxAttempts
      ensures ClaimedBefore(db.jobs[id], db.jobs[o])
    {
      assert Claimable(db.jobs[o], now);
    }
  }

  /** And it finds none only if there is none. */
  lemma NothingToClaim(jobs: map<JobId, Job>, now: int)
    ensures (forall id :: id in jobs ==> !Claimable(jobs[id], now)) <==>
            forall id :: id in jobs && jobs[id].status == Queued && jobs[id].runAfter <= now ==>
              jobs[id].attempts >= jobs[id].maxAttempts
  {
    forall id | id in jobs
      ensures Claimable(jobs[id], now) <==>
              jobs[id].status == Queued && jobs[id].runAfter <= now && jobs[id].attempts < jobs[id].maxAttempts
    {
    }
  }

  /** The columns of a job that has ended: unlocked, dated, and without its credential. */
  predicate IsEnded(j: Job, k: Job, status: Status, now: int) {
    && k.status == status && k.finishedAt == Some(now) && k.lockedAt.None? && k.attempts == j.attempts
    && k.payload == j.payload.(stagedPassword := None)
  }

  lemma FinishJobEffect(db: Db, id: JobId, now: int)
    ensures var (after, r) := FinishJob(db, id, now);
            if id in db.jobs && db.jobs[id].status == Running then
              && r == Ok(()) && after.vms == db.vms && after.tools == db.tools
              && OnlyJobWritten(db.jobs, after.jobs, id) && after.jobs[id].runAfter == db.jobs[id].runAfter
              && IsEnded(db.jobs[id], after.jobs[id], Succeeded, now)
            else after == db && r == Err(NotFound)
  {
  }

  /** The unarmed generation that a reinstall names goes, with the record if it was new. */
  ghost predicate IsRolledBack(before: map<VmId, Tools>, after: map<VmId, Tools>, j: Job) {
    && (forall v :: v in before && !Staged(before, v, j) ==> v in after && after[v] == before[v])
    && (forall v :: v in before && Staged(before, v, j) ==>
          if j.payload.newConfiguration then v !in after
          else v in after && after[v] == before[v].(pending := None))
    && after.Keys <= before.Keys
  }

  predicate Staged(tools: map<VmId, Tools>, v: VmId, j: Job)
    requires v in tools
  {
    && j.kind == VmReinstall && j.vm == Some(v) && j.payload.generation.Some?
    && 0 < |j.payload.generation.value| <= 64
    && tools[v].pending.Some? && !tools[v].pending.value.armed
    && tools[v].pending.value.generation == j.payload.generation.value
  }

  lemma CleanupEffect(tools: map<VmId, Tools>, j: Job)
    ensures IsRolledBack(tools, CleanupUnarmed(tools, j), j)
  {
  }

  /** A running job is queued again if and only if a retry is asked for and an attempt is left:
      at the time asked for, unlocked, with payload and tools as they were, and not to be claimed
      earlier. Otherwise it has failed for good and its stage is rolled back. */
  lemma FailJobEffect(db: Db, id: JobId, retryAt: Option<int>, now: int)
    ensures var (after, r) := FailJob(db, id, retryAt, now);
            if id !in db.jobs then after == db && r == Err(NotFound)
            else if db.jobs[id].status != Running then after == db && r == Err(Conflict)
            else
              var j, k := db.jobs[id], after.jobs[id];
              && r == Ok(()) && after.vms == db.vms && OnlyJobWritten(db.jobs, after.jobs, id)
              && (k.status == Queued <==> retryAt.Some? && j.attempts < j.maxAttempts)
              && k.runAfter == (if retryAt.Some? then retryAt.value else j.runAfter)
              && (k.status == Queued ==>
                    && k.attempts == j.attempts && k.lockedAt.None? && k.finishedAt.None? && k.payload == j.payload
                    && after.tools == db.tools
                    && forall later :: IsNextClaim(after.jobs, id, later) ==> retryAt.value <= later)
              && (k.status != Queued ==> IsEnded(j, k, Failed, now) && IsRolledBack(db.tools, after.tools, j))
  {
    if id in db.jobs && db.jobs[id].status == Running { CleanupEffect(db.tools, db.jobs[id]); }
  }

  /** The VM of a job leaves: its row and record go, and its jobs stay without it. */
  ghost predicate IsRemoved(before: Db, after: Db, v: VmId) {
    && after.vms == before.vms - {v} && after.tools == before.tools - {v} && after.jobs.Keys == before.jobs.Keys
    && forall id :: id in before.jobs ==>
         after.jobs[id] == if before.jobs[id].vm == Some(v) then before.jobs[id].(vm := None) else before.jobs[id]
  }

  lemma DeleteVmEffect(db: Db, v: VmId)
    ensures var (after, r) := DeleteVm(db, v);
            if v in db.vms then r == Ok(()) && IsRemoved(db, after, v) else after == db && r == Err(NotFound)
  {
  }

  /** The columns that a cancelled job has, and nothing else of it changes but its VM. */
  predicate IsCancelled(j: Job, k: Job, now: int) {
    && IsEnded(j, k, Cancelled, now) && k.kind == j.kind && k.key == j.key && k.maxAttempts == j.maxAttempts
    && k.createdAt == j.createdAt && k.runAfter == j.runAfter
  }

  /** Cancelling a create takes its VM with it while nothing is defined; cancelling a reinstall
      rolls its stage back and leaves the state of its VM unknown; other jobs just end. */
  lemma CancelJobEffect(db: Db, id: JobId, now: int)
    ensures var (after, r) := CancelJob(db, id, now);
            if id !in db.jobs then after == db && r == Err(NotFound)
            else if db.jobs[id].status != Queued then after == db && r == Err(Conflict)
            else
              var j := db.jobs[id];
              && r == Ok(()) && after.jobs.Keys == db.jobs.Keys && IsCancelled(j, after.jobs[id], now)
              && (if j.kind == VmCreate && j.vm.Some? && j.vm.value in db.vms
                     && db.vms[j.vm.value].state == Creating && !db.vms[j.vm.value].domainDefined then
                    IsRemoved(db.(jobs := db.jobs[id := after.jobs[id].(vm := j.vm)]), after, j.vm.value)
                  else
                    && OnlyJobWritten(db.jobs, after.jobs, id)
                    && (if j.kind == VmReinstall && j.vm.Some? then
                          IsRolledBack(db.tools, after.tools, j) && IsUnsettled(db.vms, after.vms, j.vm.value)
                        else after.tools == db.tools && after.vms == db.vms))
  {
    if id in db.jobs && db.jobs[id].status == Queued { CleanupEffect(db.tools, db.jobs[id]); }
  }

  /** A VM that waits for its reinstall has the state unknown after; no other column or VM changes. */
  predicate IsUnsettled(before: map<VmId, Vm>, after: map<VmId, Vm>, v: VmId) {
    if v in before && before[v].state == Reinstalling
    then after == before[v := Vm(Unknown, before[v].desired, before[v].password, before[v].domainDefined)]
    else after == before
  }

  // --- Passwords ----------------------------------------------------------------------------------

  /** A commit clears the password, replaces it by the staged one, or keeps it. */
  lemma CommitEffect(db: Db, id: JobId)
    requires CommitReinstallPassword(db, id).1.Ok?
    ensures var (after, j) := (CommitReinstallPassword(db, id).0, db.jobs[id]);
            && after.jobs == db.jobs && after.tools == db.tools && j.vm.value in db.vms
            && var vm := db.vms[j.vm.value];
               && (j.payload.clearPassword ==>
                     after.vms == db.vms[j.vm.value := Vm(vm.state, vm.desired, None, vm.domainDefined)])
               && (!j.payload.clearPassword && j.payload.stagedPassword.Some? ==>
                     after.vms ==
                     db.vms[j.vm.value := Vm(vm.state, vm.desired, j.payload.stagedPassword, vm.domainDefined)])
               && (!j.payload.clearPassword && j.payload.stagedPassword.None? ==> after == db)
  {
    var after := CommitReinstallPassword(db, id).0;
    if !db.jobs[id].payload.clearPassword && db.jobs[id].payload.stagedPassword.None? { assert after.vms == db.vms; }
  }

  lemma SetPasswordEffect(db: Db, v: VmId, password: Option<string>)
    ensures var (after, r) := SetPassword(db, v, password);
            if v !in db.vms then after == db && r == Err(NotFound)
            else
              && r == Ok(()) && after.jobs == db.jobs && after.tools == db.tools
              && after.vms == db.vms[v := Vm(db.vms[v].state, db.vms[v].desired, password, db.vms[v].domainDefined)]
  {
  }

  // --- Recovery after a process death ---------------------------------------------------------------

  predicate Exhausted(j: Job) {
    j.status == Running && j.attempts >= j.maxAttempts
  }

  predicate LostItsCreation(jobs: map<JobId, Job>, v: VmId) {
    exists id :: id in jobs && Exhausted(jobs[id]) && (jobs[id].kind == VmCreate || jobs[id].kind == VmReinstall)
                 && jobs[id].vm == Some(v)
  }

  /** Only the state of a VM changes, and only of one whose create or reinstall was running with
      no attempt left: it becomes faulted. */
  lemma RecoveryOfVms(db: Db, after: Db, now: int)
    requires IsRecovered(db, after, now)
    ensures after.vms.Keys == db.vms.Keys
    ensures forall v :: v in db.vms ==>
              after.vms[v] == if LostItsCreation(db.jobs, v) then db.vms[v].(state := Faulted) else db.vms[v]
  {
    forall v | v in db.vms
      ensures after.vms[v] == if LostItsCreation(db.jobs, v) then db.vms[v].(state := Faulted) else db.vms[v]
    {
      assert after.vms[v] == RecoveredVm(db.jobs, v, db.vms[v]);
      forall id | id in db.jobs
        ensures LeavesVmFaulted(db.jobs[id], v) <==>
                Exhausted(db.jobs[id]) && (db.jobs[id].kind == VmCreate || db.jobs[id].kind == VmReinstall)
                && db.jobs[id].vm == Some(v)
      {
      }
    }
  }

  /** A delete whose VM row has gone already, and which still names its target. */
  predicate IsFinalizer(j: Job) {
    j.kind == VmDelete && j.vm.None? && j.payload.targetVmId.Some? && j.payload.targetVmName.Some?
  }

  /** A running job with an attempt left, or a delete that only has to be finalized, is queued
      again: due at once, unlocked, and otherwise the same, except that a finalizer gets an
      attempt if it has none left. Other running jobs have failed; the rest stay. */
  lemma RecoveryOfJobs(db: Db, after: Db, now: int, id: JobId)
    requires IsRecovered(db, after, now) && id in db.jobs
    ensures after.jobs.Keys == db.jobs.Keys
    ensures var j, k := db.jobs[id], after.jobs[id];
            if j.status != Running then k == j
            else if j.attempts < j.maxAttempts || IsFinalizer(j) then
              && k.status == Queued && k.runAfter == now && k.lockedAt.None? && k.finishedAt == j.finishedAt
              && k.kind == j.kind && k.vm == j.vm && k.key == j.key && k.createdAt == j.createdAt
              && k.payload == j.payload && k.attempts == j.attempts
              && k.maxAttempts == if j.attempts < j.maxAttempts then j.maxAttempts else j.attempts + 1
            else SameWork(j, k) && k.runAfter == j.runAfter && IsEnded(j, k, Failed, now)
  {
    assert after.jobs[id] == RecoveredJob(db.jobs[id], now);
  }

  /** The job died with no attempt left and leaves the tools of `v` in error: a reinstall whose
      generation was armed, a create, or a bootstrap, of the armed generation or of an active
      key that nobody has proved since the job began. */
  predicate FailsTools(j: Job, v: VmId, row: Tools) {
    var armed := row.pending.Some? && row.pending.value.armed;
    && Exhausted(j) && j.vm == Some(v)
    && (|| j.kind == VmCreate
        || (j.kind == VmReinstall && armed && j.payload.generation == Some(row.pending.value.generation))
        || (j.kind == GuestBootstrap && armed && j.payload.expectedGeneration == Some(row.pending.value.generation))
        || (j.kind == GuestBootstrap && !armed && j.payload.expectedGeneration.None?
            && !(row.status == Ready && row.lastSeenAt.Some? && j.lockedAt.Some?
                 && row.lastSeenAt.value >= j.lockedAt.value)))
  }

  /** Of a record that stays, only status and stage change: the status becomes failing exactly
      for such a job, and the stage is dropped exactly if it is unarmed and a reinstall that died
      had staged it or no live reinstall names it. */
  lemma RecoveryOfTools(db: Db, after: Db, now: int, v: VmId)
    requires IsRecovered(db, after, now) && v in db.tools
    ensures after.tools.Keys <= db.tools.Keys
    ensures v in after.tools ==>
              var row, kept := db.tools[v], after.tools[v];
              && kept == row.(status := kept.status, pending := kept.pending)
              && kept.status ==
                 (if exists id :: id in db.jobs && FailsTools(db.jobs[id], v, row) then Failing else row.status)
              && kept.pending == if DropsStage(db.jobs, v, db.tools) then None else row.pending
    ensures v !in after.tools ==>
              exists id :: id in db.jobs && Exhausted(db.jobs[id]) && Staged(db.tools, v, db.jobs[id])
                           && db.jobs[id].payload.newConfiguration
    ensures (exists id :: id in db.jobs && Exhausted(db.jobs[id]) && Staged(db.tools, v, db.jobs[id]))
            && (forall id :: id in db.jobs && Exhausted(db.jobs[id]) && Staged(db.tools, v, db.jobs[id]) ==>
                  db.jobs[id].payload.newConfiguration)
            ==> v !in after.tools
  {
    var row := db.tools[v];
    AbandonedInColumns(db.jobs, v, db.tools);
    RecoveredStatus(db.jobs, v, row);
    RecoveredStage(db.jobs, v, db.tools);
  }

  /** The stage is unarmed, and a reinstall that died had staged it or no live one names it. */
  predicate DropsStage(jobs: map<JobId, Job>, v: VmId, tools: map<VmId, Tools>)
    requires v in tools
  {
    && tools[v].pending.Some? && !tools[v].pending.value.armed
    && (|| (exists id :: id in jobs && Exhausted(jobs[id]) && Staged(tools, v, jobs[id]))
        || !exists id :: id in jobs && NamesStage(jobs[id], v, tools[v].pending.value.generation))
  }

  predicate NamesStage(j: Job, v: VmId, generation: string) {
    && (j.status == Queued || j.status == Running) && j.kind == VmReinstall && j.vm == Some(v)
    && j.payload.generation == Some(generation)
  }

  lemma AbandonedInColumns(jobs: map<JobId, Job>, v: VmId, tools: map<VmId, Tools>)
    requires v in tools
    ensures forall id :: AbandonedBy(jobs, id, v, tools[v]) <==>
                         id in jobs && Exhausted(jobs[id]) && Staged(tools, v, jobs[id])
  {
  }

  lemma RecoveredStatus(jobs: map<JobId, Job>, v: VmId, row: Tools)
    ensures var after := RecoveredRow(jobs, v, row);
            after.Some? ==>
              && after.value == row.(status := after.value.status, pending := after.value.pending)
              && after.value.status ==
                 if exists id :: id in jobs && FailsTools(jobs[id], v, row) then Failing else row.status
  {
    var after := RolledBackRow(jobs, v, row);
    if after.Some? {
      FailsToolsAlike(jobs, v, row, after.value);
      if Unarmed(after.value) { FailsToolsAlike(jobs, v, row, DropPending(after.value)); }
    }
  }

  /** Dropping an unarmed stage has no influence on the status. */
  lemma FailsToolsAlike(jobs: map<JobId, Job>, v: VmId, row: Tools, kept: Tools)
    requires kept == row || (Unarmed(row) && kept == DropPending(row))
    ensures AnyLeavesToolsFailing(jobs, v, kept) <==> exists id :: id in jobs && FailsTools(jobs[id], v, row)
  {
    forall id | id in jobs ensures LeavesToolsFailing(jobs[id], v, kept) <==> FailsTools(jobs[id], v, row) {
    }
  }

  lemma RecoveredStage(jobs: map<JobId, Job>, v: VmId, tools: map<VmId, Tools>)
    requires v in tools
    ensures var after := RecoveredRow(jobs, v, tools[v]);
            after.Some? ==> after.value.pending == if DropsStage(jobs, v, tools) then None else tools[v].pending
  {
    AbandonedInColumns(jobs, v, tools);
    if tools[v].pending.Some? {
      forall id | id in jobs
        ensures NamesPending(jobs[id], v, tools[v]) <==> NamesStage(jobs[id], v, tools[v].pending.value.generation)
      {
      }
    }
  }
}
