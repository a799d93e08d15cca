/** The `Database` object: the same transactions, carried out statement by statement on
    tables that are updated in place. */
module Database {
  import opened Basics
  import opened Records
  import opened ControlPlane
  import Deployment
  import JobHistory

  class Database {
    var vms: map<VmId, Vm>
    var tools: map<VmId, Tools>
    var jobs: map<JobId, Job>

    ghost function Snapshot(): Db
      reads this
    {
      Db(vms, tools, jobs)
    }

    /** The unique indexes, and what the dedicated enqueue operations maintain. */
    ghost predicate Valid()
      reads this
    {
      KeysUnique(jobs) && LiveJobsUnique(jobs)
    }

    constructor ()
      ensures Snapshot() == Db(map[], map[], map[]) && Valid()
    {
      vms, tools, jobs := map[], map[], map[];
    }

    // --- Queries -------------------------------------------------------------------

    method FindByKey(key: Option<string>) returns (found: Option<JobId>)
      requires Valid()
      ensures found == JobByKey(jobs, key)
    {
      found := None;
      if key.None? { return; }
      var left := jobs.Keys;
      while left != {}
        invariant left <= jobs.Keys
        invariant forall id :: HasKey(jobs, id, key.value) ==> id in left
      {
        var id :| id in left;
        if jobs[id].key == key {
          assert HasKey(jobs, id, key.value);
          return Some(id);
        }
        left := left - {id};
      }
    }

    /** The oldest live job competing for the same VM. */
    method FindCompetitor(kind: Kind, v: VmId, generation: Option<string>) returns (found: Option<JobId>)
      requires Valid() && IsDedicated(kind)
      ensures found == Competitor(jobs, kind, Some(v), generation)
    {
      found := None;
      var left := jobs.Keys;
      while left != {}
        invariant left <= jobs.Keys
        invariant forall id :: IsCompetitor(jobs, id, kind, Some(v), generation) ==> id in left || found.Some?
        invariant found.Some? ==> IsCompetitor(jobs, found.value, kind, Some(v), generation)
      {
        var id :| id in left;
        if Competes(jobs[id], kind, Some(v), generation)
           && (found.None? || jobs[id].createdAt < jobs[found.value].createdAt)
        {
          assert IsCompetitor(jobs, id, kind, Some(v), generation);
          found := Some(id);
        }
        left := left - {id};
      }
      assert found.Some? ==> found == Competitor(jobs, kind, Some(v), generation);
    }

    // --- Enqueueing ------------------------------------------------------------------

    method InsertJob(id: JobId, job: Job) returns (r: Result<JobId>)
      requires id !in jobs
      modifies this
      ensures (Snapshot(), r) == Insert(old(Snapshot()), id, job)
    {
      if job.vm.Some? && job.vm.value !in vms { return Err(Storage); }
      jobs := jobs[id := job];
      r := Ok(id);
    }

    method EnqueueJob(id: JobId, req: NewJob, now: int) returns (r: Result<JobId>)
      requires Valid() && id !in jobs
      modifies this
      ensures (Snapshot(), r) == ControlPlane.EnqueueJob(old(Snapshot()), id, req, now)
      ensures !IsDedicated(req.kind) ==> Valid()
    {
      JobHistory.StepKeepsUniqueness(AnyWorld(Snapshot(), None), Deployment.Enqueue(id, req, now));
      var existing := FindByKey(req.key);
      if existing.Some? {
        var j := jobs[existing.value];
        if j.kind != req.kind || j.vm != req.vm || j.payload != req.payload { return Err(Conflict); }
        return Ok(existing.value);
      }
      r := InsertJob(id, QueuedJob(req, req.payload, req.key, now));
    }

    method EnqueueBootstrap(id: JobId, req: NewJob, now: int) returns (r: Result<JobId>)
      requires Valid() && id !in jobs
      modifies this
      ensures (Snapshot(), r) == ControlPlane.EnqueueBootstrap(old(Snapshot()), id, req, now)
      ensures Valid()
    {
      JobHistory.StepKeepsUniqueness(AnyWorld(Snapshot(), None), Deployment.QueueBootstrap(id, req, now));
      if req.kind != GuestBootstrap || req.vm.None? { return Err(Validation); }
      var generation := req.payload.expectedGeneration;
      if generation.Some? && !IsCanonicalUuid(generation.value) { return Err(Validation); }
      var active := FindCompetitor(GuestBootstrap, req.vm.value, generation);
      if active.Some? { return Ok(active.value); }
      r := InsertJob(id, QueuedJob(req, req.payload, None, now));
    }

    method EnqueueDelete(id: JobId, req: NewJob, now: int) returns (r: Result<JobId>)
      requires Valid() && id !in jobs
      modifies this
      ensures (Snapshot(), r) == ControlPlane.EnqueueDelete(old(Snapshot()), id, req, now)
      ensures Valid()
    {
      JobHistory.StepKeepsUniqueness(AnyWorld(Snapshot(), None), Deployment.QueueDelete(id, req, now));
      if req.kind != VmDelete || req.vm.None? { return Err(Validation); }
      var existing := FindByKey(req.key);
      if existing.Some? {
        var j := jobs[existing.value];
        if j.kind != req.kind || j.vm != req.vm || j.payload != req.payload { return Err(Conflict); }
        return Ok(existing.value);
      }
      var active := FindCompetitor(VmDelete, req.vm.value, None);
      if active.Some? { return Ok(active.value); }
      r := InsertJob(id, QueuedJob(req, req.payload, req.key, now));
    }

    method EnqueueReinstall(id: JobId, req: NewJob, envelope: Option<string>, desired: VmState, now: int)
      returns (r: Result<JobId>)
      requires Valid() && id !in jobs
      modifies this
      ensures (Snapshot(), r) == ControlPlane.EnqueueReinstall(old(Snapshot()), id, req, envelope, desired, now)
      ensures Valid()
    {
      JobHistory.StepKeepsUniqueness(
        AnyWorld(Snapshot(), req.payload.generation), Deployment.QueueReinstall(id, req, envelope, desired, now));
      if req.kind != VmReinstall || req.vm.None? { return Err(Validation); }
      if req.payload.stagedPassword.Some? { return Err(Validation); }
      if envelope.Some? && req.payload.clearPassword { return Err(Validation); }
      var payload := req.payload;
      if envelope.Some? { payload := payload.(stagedPassword := envelope); }
      var existing := FindByKey(req.key);
      if existing.Some? {
        var j := jobs[existing.value];
        if j.kind != req.kind || j.vm != req.vm || WithoutStagedPassword(j.payload) != req.payload {
          return Err(Conflict);
        }
        return Ok(existing.value);
      }
      var v := req.vm.value;
      var active := FindCompetitor(VmReinstall, v, None);
      if active.Some? { return Err(Conflict); }
      if v !in vms { return Err(NotFound); }
      vms := vms[v := vms[v].(state := Reinstalling, desired := desired)];
      jobs := jobs[id := QueuedJob(req, payload, req.key, now)];
      r := Ok(id);
    }

    // --- The life of a job -------------------------------------------------------------

    method ClaimNextJob(now: int) returns (claimed: Option<JobId>)
      requires Valid()
      modifies this
      ensures Valid()
      ensures claimed.None? ==> Snapshot() == old(Snapshot()) && forall id :: id in jobs ==> !Claimable(jobs[id], now)
      ensures claimed.Some? ==>
                && IsNextClaim(old(jobs), claimed.value, now)
                && Snapshot() == Claim(old(Snapshot()), claimed.value, now)
    {
      claimed := None;
      var left := jobs.Keys;
      while left != {}
        invariant left <= jobs.Keys
        invariant claimed.Some? ==> claimed.value in jobs && Claimable(jobs[claimed.value], now)
        invariant forall id :: id in jobs && id !in left && Claimable(jobs[id], now) ==>
                                 claimed.Some? && ClaimedBefore(jobs[claimed.value], jobs[id])
      {
        var id :| id in left;
        if Claimable(jobs[id], now) && (claimed.None? || !ClaimedBefore(jobs[claimed.value], jobs[id])) {
          claimed := Some(id);
        }
        left := left - {id};
      }
      if claimed.Some? {
        KeepsValid(jobs, jobs[claimed.value := Claimed(jobs[claimed.value], now)]);
        jobs := jobs[claimed.value := Claimed(jobs[claimed.value], now)];
      }
    }

    method FinishJob(id: JobId, now: int) returns (r: Result<()>)
      requires Valid()
      modifies this
      ensures (Snapshot(), r) == ControlPlane.FinishJob(old(Snapshot()), id, now)
      ensures Valid()
    {
      JobHistory.FailEvolvesJobs(Snapshot(), id, None, now);
      KeepsValid(jobs, ControlPlane.FinishJob(Snapshot(), id, now).0.jobs);
      if id !in jobs || jobs[id].status != Running { return Err(NotFound); }
      var j := jobs[id];
      jobs := jobs[id := j.(status := Succeeded, lockedAt := None, finishedAt := Some(now),
                            payload := j.payload.(stagedPassword := None))];
      r := Ok(());
    }

    /** Roll back the unarmed generation staged by exactly this reinstall job. */
    method CleanupUnarmedStage(job: Job)
      modifies this`tools
      ensures tools == CleanupUnarmed(old(tools), job)
    {
      if job.kind != VmReinstall || job.vm.None? || job.payload.generation.None? { return; }
      var v, generation := job.vm.value, job.payload.generation.value;
      if generation == "" || |generation| > 64 { return; }
      if v in tools && HasUnarmed(tools[v], generation) {
        if job.payload.newConfiguration {
          tools := tools - {v};
        } else {
          tools := tools[v := tools[v].(pending := None)];
        }
      }
    }

    method FailJob(id: JobId, retryAt: Option<int>, now: int) returns (r: Result<()>)
      requires Valid()
      modifies this
      ensures (Snapshot(), r) == ControlPlane.FailJob(old(Snapshot()), id, retryAt, now)
      ensures Valid()
    {
      JobHistory.FailEvolvesJobs(Snapshot(), id, retryAt, now);
      KeepsValid(jobs, ControlPlane.FailJob(Snapshot(), id, retryAt, now).0.jobs);
      if id !in jobs { return Err(NotFound); }
      var j := jobs[id];
      if j.status != Running { return Err(Conflict); }
      var retry := retryAt.Some? && j.attempts < j.maxAttempts;
      if !retry { CleanupUnarmedStage(j); }
      var runAfter := if retryAt.Some? then retryAt.value else j.runAfter;
      jobs := jobs[id := j.(status := if retry then Queued else Failed, runAfter := runAfter, lockedAt := None,
                            finishedAt := if retry then None else Some(now),
                            payload := if retry then j.payload else j.payload.(stagedPassword := None))];
      r := Ok(());
    }

    method DeleteVmRow(v: VmId)
      modifies this
      ensures Snapshot() == RemoveVm(old(Snapshot()), v)
    {
      // The foreign keys: tools rows cascade, jobs keep their history with a null VM.
      vms := vms - {v};
      tools := tools - {v};
      jobs := map id | id in jobs :: if jobs[id].vm == Some(v) then jobs[id].(vm := None) else jobs[id];
    }

    method DeleteVm(v: VmId) returns (r: Result<()>)
      requires Valid()
      modifies this
      ensures (Snapshot(), r) == ControlPlane.DeleteVm(old(Snapshot()), v)
      ensures Valid()
    {
      KeepsValid(jobs, DetachJobs(jobs, v));
      if v !in vms { return Err(NotFound); }
      DeleteVmRow(v);
      r := Ok(());
    }

    method CancelJob(id: JobId, now: int) returns (r: Result<()>)
      requires Valid()
      modifies this
      ensures (Snapshot(), r) == ControlPlane.CancelJob(old(Snapshot()), id, now)
      ensures Valid()
    {
      JobHistory.CancelEvolvesJobs(Snapshot(), id, now);
      KeepsValid(jobs, ControlPlane.CancelJob(Snapshot(), id, now).0.jobs);
      if id !in jobs { return Err(NotFound); }
      var j := jobs[id];
      if j.status != Queued { return Err(Conflict); }
      jobs := jobs[id := j.(status := Cancelled, lockedAt := None, finishedAt := Some(now),
                            payload := j.payload.(stagedPassword := None))];
      if j.kind == VmCreate && j.vm.Some? {
        var v := j.vm.value;
        if v in vms && vms[v].state == Creating && !vms[v].domainDefined { DeleteVmRow(v); }
      } else if j.kind == VmReinstall && j.vm.Some? {
        var v := j.vm.value;
        CleanupUnarmedStage(j);
        if v in vms && vms[v].state == Reinstalling { vms := vms[v := vms[v].(state := Unknown)]; }
      }
      r := Ok(());
    }

    // --- Recovery ------------------------------------------------------------------------

    /** Roll back every generation staged by a reinstall that died with its last attempt. */
    method RollBackAbandoned()
      requires Valid()
      modifies this`tools
      ensures RolledBackBy(jobs, {}, old(tools), tools)
    {
      var left := set id | id in jobs && IsExhausted(jobs[id]) && jobs[id].kind == VmReinstall;
      ghost var before := tools;
      assert forall id, v, row: Tools :: AbandonedBy(jobs, id, v, row) ==> id in left;
      while left != {}
        invariant forall id :: id in left ==> id in jobs && IsExhausted(jobs[id])
        invariant RolledBackBy(jobs, left, before, tools)
      {
        var id :| id in left;
        OneMoreRolledBack(jobs, left, before, tools, id);
        CleanupUnarmedStage(jobs[id]);
        left := left - {id};
      }
    }

    /** Requeue deletes whose VM row is already gone, with one more attempt if needed. */
    method RequeueFinalizers(now: int) returns (count: nat)
      modifies this`jobs
      ensures jobs.Keys == old(jobs.Keys)
      ensures forall id :: id in jobs ==>
                jobs[id] == if IsDeleteFinalizer(old(jobs)[id]) then GrantFinalizer(old(jobs)[id], now) else old(jobs)[id]
      ensures count == |set id | id in jobs && IsDeleteFinalizer(old(jobs)[id])|
    {
      var finalizers := set id | id in jobs && IsDeleteFinalizer(jobs[id]);
      count := |finalizers|;
      jobs := map id | id in jobs ::
        if id in finalizers
        then jobs[id].(status := Queued, lockedAt := None, runAfter := now,
                       maxAttempts := if jobs[id].maxAttempts < jobs[id].attempts + 1
                                      then jobs[id].attempts + 1 else jobs[id].maxAttempts)
        else jobs[id];
    }

    /** Requeue every job that is still running and has attempts left. */
    method RequeueOrdinary(now: int) returns (count: nat)
      modifies this`jobs
      ensures jobs.Keys == old(jobs.Keys)
      ensures forall id :: id in jobs ==>
                jobs[id] == if MayRetry(old(jobs)[id]) then Requeued(old(jobs)[id], now) else old(jobs)[id]
      ensures count == |set id | id in jobs && MayRetry(old(jobs)[id])|
    {
      var ordinary := set id | id in jobs && MayRetry(jobs[id]);
      count := |ordinary|;
      jobs := map id | id in jobs ::
        if id in ordinary then jobs[id].(status := Queued, lockedAt := None, runAfter := now) else jobs[id];
    }

    method RequeueInterrupted(now: int) returns (requeued: nat)
      modifies this`jobs
      ensures IsRequeued(old(jobs), jobs, now)
      ensures requeued == |WentFromRunningTo(old(jobs), jobs, Queued)|
    {
      var finalizers := RequeueFinalizers(now);
      ghost var granted := jobs;
      var ordinary := RequeueOrdinary(now);
      requeued := finalizers + ordinary;
      CountRequeued(old(jobs), granted, jobs, now);
    }

    /** Clear unarmed generations no live reinstall names: the process died before the
        job was inserted. */
    method SweepUnclaimed()
      modifies this`tools
      ensures tools.Keys == old(tools.Keys)
      ensures forall v :: v in tools ==>
                var row := old(tools)[v];
                tools[v] == if Unarmed(row) && !PendingNamed(jobs, v, row) then DropPending(row) else row
    {
      tools := map v | v in tools ::
        if Unarmed(tools[v]) && !PendingNamed(jobs, v, tools[v]) then tools[v].(pending := None) else tools[v];
    }

    /** Put the VMs and tools of jobs that died with their last attempt into error. */
    method MarkCasualties()
      modifies this`vms, this`tools
      ensures vms.Keys == old(vms.Keys) && tools.Keys == old(tools.Keys)
      ensures forall v :: v in vms ==> vms[v] == RecoveredVm(jobs, v, old(vms)[v])
      ensures forall v :: v in tools ==> tools[v] == MarkFailing(jobs, v, old(tools)[v])
    {
      vms := map v | v in vms ::
        if exists id :: id in jobs && LeavesVmFaulted(jobs[id], v) then vms[v].(state := Faulted) else vms[v];
      ghost var before := tools;
      MarkFailingFor(VmReinstall);
      MarkFailingFor(VmCreate);
      MarkFailingFor(GuestBootstrap);
      forall v | v in tools ensures tools[v] == MarkFailing(jobs, v, before[v]) {
        MarkedByEachKind(v, before[v]);
      }
    }

    function MarkedFor(kind: Kind, v: VmId, row: Tools): Tools
      reads this`jobs
    {
      if exists id :: id in jobs && jobs[id].kind == kind && LeavesToolsFailing(jobs[id], v, row)
      then row.(status := Failing) else row
    }

    method MarkFailingFor(kind: Kind)
      modifies this`tools
      ensures tools.Keys == old(tools.Keys)
      ensures forall v :: v in tools ==> tools[v] == MarkedFor(kind, v, old(tools)[v])
    {
      tools := map v | v in tools :: MarkedFor(kind, v, tools[v]);
    }

    lemma MarkedByEachKind(v: VmId, row: Tools)
      ensures MarkedFor(GuestBootstrap, v, MarkedFor(VmCreate, v, MarkedFor(VmReinstall, v, row)))
              == MarkFailing(jobs, v, row)
    {
    }

    /** Fail every job that is still running; their staged credentials go with them. */
    method FailExhausted(now: int) returns (failed: nat)
      modifies this`jobs
      ensures jobs.Keys == old(jobs.Keys)
      ensures forall id :: id in jobs ==>
                jobs[id] == if IsExhausted(old(jobs)[id]) then Ended(old(jobs)[id], Failed, now) else old(jobs)[id]
      ensures failed == |set id | id in jobs && IsExhausted(old(jobs)[id])|
    {
      var exhausted := set id | id in jobs && IsExhausted(jobs[id]);
      jobs := map id | id in jobs ::
        if id in exhausted
        then jobs[id].(status := Failed, lockedAt := None, finishedAt := Some(now),
                       payload := jobs[id].payload.(stagedPassword := None))
        else jobs[id];
      failed := |exhausted|;
    }

    method RecoverInterruptedJobs(now: int) returns (requeued: nat, failed: nat)
      requires Valid()
      modifies this
      ensures IsRecovered(old(Snapshot()), Snapshot(), now)
      ensures requeued == |WentFromRunningTo(old(jobs), jobs, Queued)|
      ensures failed == |WentFromRunningTo(old(jobs), jobs, Failed)|
      ensures requeued + failed == |set id | id in old(jobs) && old(jobs)[id].status == Running|
      ensures Valid()
    {
      RollBackAbandoned();
      AllRolledBack(jobs, old(tools), tools);
      ghost var rolled := tools;
      requeued := RequeueInterrupted(now);
      ghost var queued := jobs;
      SweepUnclaimed();
      MarkCasualties();
      failed := FailExhausted(now);
      ghost var before := old(jobs);
      CountRecovered(before, queued, jobs, now);
      UpdatesRecover(old(Snapshot()), rolled, queued, Snapshot(), now);
      JobHistory.RecoveryEvolvesJobs(old(Snapshot()), Snapshot(), now);
      KeepsValid(before, jobs);
    }

    // --- Guest credentials -----------------------------------------------------------------

    method CommitReinstallPassword(id: JobId) returns (r: Result<()>)
      modifies this`vms
      ensures (Snapshot(), r) == ControlPlane.CommitReinstallPassword(old(Snapshot()), id)
    {
      if id !in jobs { return Err(NotFound); }
      var j := jobs[id];
      if j.kind != VmReinstall { return Err(Validation); }
      if j.status != Running { return Err(Conflict); }
      if j.vm.None? { return Err(Conflict); }
      var v := j.vm.value;
      if j.payload.clearPassword && j.payload.stagedPassword.Some? { return Err(Validation); }
      if v !in vms { return Err(NotFound); }
      if j.payload.clearPassword {
        vms := vms[v := vms[v].(password := None)];
      } else if j.payload.stagedPassword.Some? {
        vms := vms[v := vms[v].(password := j.payload.stagedPassword)];
      }
      assert vms == old(vms)[v := vms[v]];
      r := Ok(());
    }

    // --- Guest-tools channel keys ------------------------------------------------------------

    method ConfigureTools(v: VmId, secret: Secret, install: Install) returns (r: Result<()>)
      modifies this`tools
      ensures (Snapshot(), r) == ControlPlane.ConfigureTools(old(Snapshot()), v, secret, install)
    {
      if v in tools {
        // ON CONFLICT DO UPDATE ... WHERE pending_installed = 0
        if tools[v].pending.Some? && tools[v].pending.value.armed { return Err(Conflict); }
        if v !in vms { return Err(Storage); }
        tools := tools[v := tools[v].(
          enabled := true, active := Encrypt(secret, ActiveKey(v)), install := install, installedVersion := None,
          status := ToolsStatus.Pending, lastSeenAt := None, pending := None)];
      } else {
        if v !in vms { return Err(Storage); }
        tools := tools[v := NewTools(v, secret, install)];
      }
      r := Ok(());
    }

    method DeleteToolsConfiguration(v: VmId) returns (r: Result<()>)
      modifies this`tools
      ensures (Snapshot(), r) == ControlPlane.DeleteToolsConfiguration(old(Snapshot()), v)
    {
      if v !in tools { return Err(NotFound); }
      if tools[v].pending.Some? && tools[v].pending.value.armed { return Err(Conflict); }
      tools := tools - {v};
      r := Ok(());
    }

    method StageRotation(v: VmId, generation: string, secret: Secret, install: Install) returns (r: Result<string>)
      modifies this`tools
      ensures (Snapshot(), r) == ControlPlane.StageRotation(old(Snapshot()), v, generation, secret, install)
    {
      var envelope := Encrypt(secret, PendingKey(v, generation));
      if v !in tools { return Err(NotFound); }
      if !tools[v].enabled { return Err(Conflict); }
      if tools[v].pending.Some? { return Err(Conflict); }
      tools := tools[v := tools[v].(pending := Some(Rotation(generation, envelope, install, false)))];
      r := Ok(generation);
    }

    method MarkInstalled(v: VmId, generation: string) returns (r: Result<()>)
      modifies this`tools
      ensures (Snapshot(), r) == ControlPlane.MarkInstalled(old(Snapshot()), v, generation)
    {
      if !IsCanonicalUuid(generation) { return Err(Validation); }
      if !PendingIs(Db(vms, tools, jobs), v, generation) { return Err(if v in tools then Conflict else NotFound); }
      var rotation := tools[v].pending.value;
      tools := tools[v := tools[v].(pending := Some(rotation.(armed := true)), status := ToolsStatus.Pending)];
      r := Ok(());
    }

    method Promote(v: VmId, generation: string, version: string, now: int) returns (r: Result<()>)
      modifies this`tools
      ensures (Snapshot(), r) == ControlPlane.Promote(old(Snapshot()), v, generation, version, now)
    {
      if !IsCanonicalUuid(generation) { return Err(Validation); }
      if !PendingIs(Db(vms, tools, jobs), v, generation) || !tools[v].pending.value.armed {
        return Err(if v in tools then Conflict else NotFound);
      }
      var rotation := tools[v].pending.value;
      if version != rotation.install.version { return Err(Conflict); }
      var secret := Decrypt(rotation.envelope, PendingKey(v, generation));
      if secret.None? { return Err(Internal); }
      var active := Encrypt(secret.value, ActiveKey(v));
      tools := tools[v := tools[v].(
        install := rotation.install, active := active, installedVersion := Some(rotation.install.version),
        status := Ready, lastSeenAt := Some(now), pending := None)];
      r := Ok(());
    }

    method DiscardRotation(v: VmId, generation: string) returns (r: Result<()>)
      modifies this`tools
      ensures (Snapshot(), r) == ControlPlane.DiscardRotation(old(Snapshot()), v, generation)
    {
      if !IsCanonicalUuid(generation) { return Err(Validation); }
      if !PendingIs(Db(vms, tools, jobs), v, generation) { return Err(if v in tools then Conflict else NotFound); }
      if tools[v].pending.value.armed { return Err(Conflict); }
      tools := tools[v := tools[v].(pending := None)];
      r := Ok(());
    }

    method UpdateToolsStatus(v: VmId, status: ToolsStatus, version: Option<string>, contacted: bool, now: int)
      returns (r: Result<()>)
      modifies this`tools
      ensures (Snapshot(), r) == ControlPlane.UpdateToolsStatus(old(Snapshot()), v, status, version, contacted, now)
    {
      if v !in tools || !tools[v].enabled { return Err(NotFound); }
      var row := tools[v];
      if row.pending.Some? && row.pending.value.armed {
        row := row.(status := if status == Ready then ToolsStatus.Pending else status);
      } else {
        row := row.(status := status, installedVersion := if version.Some? then version else row.installedVersion);
      }
      if contacted { row := row.(lastSeenAt := Some(now)); }
      tools := tools[v := row];
      r := Ok(());
    }

    method RetireTools(v: VmId) returns (retired: bool)
      modifies this`tools
      ensures (Snapshot(), retired) == ControlPlane.RetireTools(old(Snapshot()), v)
    {
      retired := v in tools;
      tools := tools - {v};
    }

    /** An armed rotation that a failed reinstall with the same fingerprint left behind:
        the newest such job, by finishing time and then by creation time. */
    method ReusableRotation(v: VmId, fingerprint: string) returns (r: Result<Option<JobId>>)
      ensures r == Err(Validation) <==> !IsFingerprint(fingerprint)
      ensures r.Err? ==> r == Err(Validation)
      ensures r.Ok? ==> match r.value
                        case Some(origin) =>
                          && LeftArmed(Snapshot(), origin, v, fingerprint)
                          && forall id :: LeftArmed(Snapshot(), id, v, fingerprint) ==>
                               var (a, b) := (jobs[origin], jobs[id]);
                               && (b.finishedAt.Some? ==> a.finishedAt.Some? && a.finishedAt.value >= b.finishedAt.value)
                               && (a.finishedAt == b.finishedAt ==> a.createdAt >= b.createdAt)
                        case None => !AnyLeftArmed(Snapshot(), v, fingerprint)
    {
      if !IsFingerprint(fingerprint) { return Err(Validation); }
      var origin := None;
      var left := jobs.Keys;
      while left != {}
        invariant left <= jobs.Keys
        invariant origin.Some? ==> LeftArmed(Snapshot(), origin.value, v, fingerprint)
        invariant forall id :: id !in left && LeftArmed(Snapshot(), id, v, fingerprint) ==>
                    origin.Some? && FinishedAfter(jobs[origin.value], jobs[id])
      {
        var id :| id in left;
        if LeftArmed(Db(vms, tools, jobs), id, v, fingerprint)
           && (origin.None? || !FinishedAfter(jobs[origin.value], jobs[id]))
        {
          origin := Some(id);
        }
        left := left - {id};
      }
      r := Ok(origin);
    }

    predicate FinishedAfter(a: Job, b: Job) {
      match (a.finishedAt, b.finishedAt)
      case (Some(x), Some(y)) => x > y || (x == y && a.createdAt >= b.createdAt)
      case (Some(_), None) => true
      case (None, Some(_)) => false
      case (None, None) => a.createdAt >= b.createdAt
    }

    /** Prepare a reinstall with tools. */
    method StageReinstall(
      v: VmId, fingerprint: string, generation: string, placeholder: Secret, secret: Secret, install: Install,
      socketOk: bool)
      returns (r: Result<Staged>)
      modifies this`tools
      ensures (Snapshot(), r) ==
              StageRequest(old(Snapshot()), v, fingerprint, generation, placeholder, secret, install, socketOk)
    {
      var reusable := ReusableRotation(v, fingerprint);
      if reusable.Err? { return Err(reusable.error); }
      if reusable.value.Some? {
        var left := tools[v].pending.value;
        if left.install != install { return Err(Conflict); }
        if !socketOk { return Err(Validation); }
        return Ok(Staged(left.generation, false));
      }
      var newConfiguration := !(v in tools && tools[v].enabled);
      if newConfiguration {
        var configured := ConfigureTools(v, placeholder, install);
        if configured.Err? { return Err(configured.error); }
      }
      var staged := StageRotation(v, generation, secret, install);
      // A record that was configured just now has nothing pending, so a refused stage has
      // none to roll back.
      if staged.Err? { return Err(staged.error); }
      if !socketOk {
        CleanupStage(v, generation, newConfiguration);
        return Err(Validation);
      }
      r := Ok(Staged(generation, newConfiguration));
    }

    /** Undo a stage whose reinstall job could not be queued. */
    method CleanupStage(v: VmId, generation: string, newConfiguration: bool)
      modifies this`tools
      ensures Snapshot() == CleanupRequest(old(Snapshot()), v, generation, newConfiguration)
    {
      var discarded := DiscardRotation(v, generation);
      if discarded.Ok? && newConfiguration {
        var _ := DeleteToolsConfiguration(v);
      }
    }
  }

  // --- Rolling back, job by job ------------------------------------------------------------

  function RowAt(tools: map<VmId, Tools>, v: VmId): Option<Tools> {
    if v in tools then Some(tools[v]) else None
  }

  ghost predicate AbandonedOutside(jobs: map<JobId, Job>, left: set<JobId>, v: VmId, row: Tools) {
    exists id :: id !in left && AbandonedBy(jobs, id, v, row)
  }

  /** The rows whose abandoning job is not among those left are rolled back. */
  ghost predicate RolledBackBy(
    jobs: map<JobId, Job>, left: set<JobId>, before: map<VmId, Tools>, tools: map<VmId, Tools>)
  {
    && tools.Keys <= before.Keys
    && forall v :: v in before ==>
         RowAt(tools, v) == if AbandonedOutside(jobs, left, v, before[v]) then RolledBackRow(jobs, v, before[v])
                            else Some(before[v])
  }

  lemma OneJobAbandons(jobs: map<JobId, Job>, a: JobId, b: JobId, v: VmId, row: Tools)
    requires LiveJobsUnique(jobs) && AbandonedBy(jobs, a, v, row) && AbandonedBy(jobs, b, v, row)
    ensures a == b
  {
    assert IsCompetitor(jobs, a, VmReinstall, Some(v), None);
    assert IsCompetitor(jobs, b, VmReinstall, Some(v), None);
  }

  lemma RolledBackByIt(jobs: map<JobId, Job>, id: JobId, v: VmId, row: Tools)
    requires LiveJobsUnique(jobs) && AbandonedBy(jobs, id, v, row)
    ensures RolledBackRow(jobs, v, row) == CleanRow(jobs[id], v, row)
  {
    var o :| AbandonedBy(jobs, o, v, row) && RolledBackRow(jobs, v, row) == CleanRow(jobs[o], v, row);
    OneJobAbandons(jobs, id, o, v, row);
  }

  lemma CleanupAt(tools: map<VmId, Tools>, j: Job, v: VmId)
    ensures RowAt(CleanupUnarmed(tools, j), v)
            == if v in tools && StagedBy(j, v, tools[v]) then CleanRow(j, v, tools[v]) else RowAt(tools, v)
  {
  }

  /** The row of `v` after the cleanup for one more exhausted job. */
  lemma RowRolledBack(
    jobs: map<JobId, Job>, left: set<JobId>, before: map<VmId, Tools>, tools: map<VmId, Tools>, id: JobId, v: VmId)
    requires LiveJobsUnique(jobs) && RolledBackBy(jobs, left, before, tools) && v in before
    requires id in left && id in jobs && IsExhausted(jobs[id])
    ensures RowAt(CleanupUnarmed(tools, jobs[id]), v)
            == if AbandonedOutside(jobs, left - {id}, v, before[v]) then RolledBackRow(jobs, v, before[v])
               else Some(before[v])
  {
    var row := before[v];
    CleanupAt(tools, jobs[id], v);
    if AbandonedBy(jobs, id, v, row) {
      RolledBackByIt(jobs, id, v, row);
      if o :| o !in left && AbandonedBy(jobs, o, v, row) { OneJobAbandons(jobs, id, o, v, row); }
      assert id !in left - {id};
    } else if o :| o !in left && AbandonedBy(jobs, o, v, row) {
      RolledBackByIt(jobs, o, v, row);
      assert o !in left - {id};
    }
  }

  lemma OneMoreRolledBack(
    jobs: map<JobId, Job>, left: set<JobId>, before: map<VmId, Tools>, tools: map<VmId, Tools>, id: JobId)
    requires LiveJobsUnique(jobs) && RolledBackBy(jobs, left, before, tools)
    requires id in left && id in jobs && IsExhausted(jobs[id])
    ensures RolledBackBy(jobs, left - {id}, before, CleanupUnarmed(tools, jobs[id]))
  {
    forall v | v in before
      ensures RowAt(CleanupUnarmed(tools, jobs[id]), v)
              == if AbandonedOutside(jobs, left - {id}, v, before[v]) then RolledBackRow(jobs, v, before[v])
                 else Some(before[v])
    {
      RowRolledBack(jobs, left, before, tools, id, v);
    }
  }

  lemma AllRolledBack(jobs: map<JobId, Job>, before: map<VmId, Tools>, tools: map<VmId, Tools>)
    requires RolledBackBy(jobs, {}, before, tools)
    ensures tools.Keys <= before.Keys
    ensures forall v :: v in before ==> RowAt(tools, v) == RolledBackRow(jobs, v, before[v])
  {
    forall v | v in before ensures RowAt(tools, v) == RolledBackRow(jobs, v, before[v]) {
      assert AbandonedOutside(jobs, {}, v, before[v]) <==> exists id :: AbandonedBy(jobs, id, v, before[v]);
    }
  }

  /** A deployment around these tables in which the generation has been handed out. */
  ghost function AnyWorld(db: Db, generation: Option<string>): Deployment.World {
    var handedOut := if generation.Some? then {generation.value} else {};
    Deployment.World(db, None, map[], handedOut, handedOut)
  }

  lemma KeepsValid(before: map<JobId, Job>, after: map<JobId, Job>)
    requires KeysUnique(before) && LiveJobsUnique(before)
    requires JobHistory.JobsEvolve(before, after) && after.Keys <= before.Keys
    ensures KeysUnique(after) && LiveJobsUnique(after)
  {
    JobHistory.EvolutionKeepsUniqueness(before, after, 0);
  }

  // --- Requeueing does not disturb what the later statements look at ----------------------

  ghost predicate IsRequeued(before: map<JobId, Job>, after: map<JobId, Job>, now: int) {
    && after.Keys == before.Keys
    && forall id :: id in before ==>
         var j := before[id];
         after[id] == if j.status == Running && (IsDeleteFinalizer(j) || j.attempts < j.maxAttempts)
                      then RecoveredJob(j, now) else j
  }

  lemma NamedAfterRequeue(before: map<JobId, Job>, after: map<JobId, Job>, now: int, v: VmId, row: Tools)
    requires IsRequeued(before, after, now)
    ensures PendingNamed(after, v, row) == PendingNamed(before, v, row)
  {
    forall id | id in before ensures NamesPending(after[id], v, row) == NamesPending(before[id], v, row) {}
  }

  lemma FailingAfterRequeue(before: map<JobId, Job>, after: map<JobId, Job>, now: int, v: VmId, row: Tools)
    requires IsRequeued(before, after, now)
    ensures MarkFailing(after, v, row) == MarkFailing(before, v, row)
  {
    forall id | id in before ensures LeavesToolsFailing(after[id], v, row) == LeavesToolsFailing(before[id], v, row) {}
  }

  lemma FaultedAfterRequeue(before: map<JobId, Job>, after: map<JobId, Job>, now: int, v: VmId)
    requires IsRequeued(before, after, now)
    ensures AnyLeavesVmFaulted(after, v) == AnyLeavesVmFaulted(before, v)
  {
    forall id | id in before ensures LeavesVmFaulted(after[id], v) == LeavesVmFaulted(before[id], v) {}
  }

  // --- Counting ----------------------------------------------------------------------------

  /** The updates one after the other make up a recovery. */
  lemma UpdatesRecover(
    db: Db, rolled: map<VmId, Tools>, queued: map<JobId, Job>, after: Db, now: int)
    requires rolled.Keys <= db.tools.Keys && after.tools.Keys == rolled.Keys && after.vms.Keys == db.vms.Keys
    requires forall v :: v in db.tools ==>
               RowAt(rolled, v) == RolledBackRow(db.jobs, v, db.tools[v])
    requires IsRequeued(db.jobs, queued, now)
    requires forall v :: v in db.vms ==> after.vms[v] == RecoveredVm(queued, v, db.vms[v])
    requires forall v :: v in rolled ==>
               after.tools[v] == MarkFailing(queued, v,
                 if Unarmed(rolled[v]) && !PendingNamed(queued, v, rolled[v]) then DropPending(rolled[v]) else rolled[v])
    requires after.jobs.Keys == db.jobs.Keys
    requires forall id :: id in db.jobs ==> after.jobs[id] == RecoveredJob(db.jobs[id], now)
    ensures IsRecovered(db, after, now)
  {
    RequeueingDecidesNothing(db.jobs, queued, now);
  }

  /** What recovery does to VMs and tools can be decided before or after requeueing. */
  lemma RequeueingDecidesNothing(before: map<JobId, Job>, after: map<JobId, Job>, now: int)
    requires IsRequeued(before, after, now)
    ensures forall v, row: Tools :: PendingNamed(after, v, row) == PendingNamed(before, v, row)
    ensures forall v, row: Tools :: MarkFailing(after, v, row) == MarkFailing(before, v, row)
    ensures forall v, vm: Vm :: RecoveredVm(after, v, vm) == RecoveredVm(before, v, vm)
  {
    forall v, row: Tools ensures PendingNamed(after, v, row) == PendingNamed(before, v, row) {
      NamedAfterRequeue(before, after, now, v, row);
    }
    forall v, row: Tools ensures MarkFailing(after, v, row) == MarkFailing(before, v, row) {
      FailingAfterRequeue(before, after, now, v, row);
    }
    forall v, vm: Vm ensures RecoveredVm(after, v, vm) == RecoveredVm(before, v, vm) {
      FaultedAfterRequeue(before, after, now, v);
    }
  }

  predicate MayRetry(j: Job) {
    j.status == Running && j.attempts < j.maxAttempts
  }

  ghost function WentFromRunningTo(before: map<JobId, Job>, after: map<JobId, Job>, status: Status): set<JobId> {
    set id | id in before && id in after && before[id].status == Running && after[id].status == status
  }

  lemma CountRequeued(before: map<JobId, Job>, granted: map<JobId, Job>, after: map<JobId, Job>, now: int)
    requires before.Keys == granted.Keys == after.Keys
    requires forall id :: id in before ==>
               granted[id] == if IsDeleteFinalizer(before[id]) then GrantFinalizer(before[id], now) else before[id]
    requires forall id :: id in before ==>
               after[id] == if MayRetry(granted[id]) then Requeued(granted[id], now) else granted[id]
    ensures IsRequeued(before, after, now)
    ensures |set id | id in granted && IsDeleteFinalizer(before[id])| + |set id | id in after && MayRetry(granted[id])|
         == |WentFromRunningTo(before, after, Queued)|
  {
    var finalizers := set id | id in granted && IsDeleteFinalizer(before[id]);
    var ordinary := set id | id in after && MayRetry(granted[id]);
    forall id | id in before
      ensures id in WentFromRunningTo(before, after, Queued) <==> id in finalizers || id in ordinary
      ensures !(id in finalizers && id in ordinary)
    {}
    assert WentFromRunningTo(before, after, Queued) == finalizers + ordinary;
    assert finalizers !! ordinary;
  }

  lemma FailingTheRestRecovers(
    before: map<JobId, Job>, queued: map<JobId, Job>, after: map<JobId, Job>, now: int, id: JobId)
    requires IsRequeued(before, queued, now) && after.Keys == queued.Keys && id in before
    requires forall o :: o in after ==>
               after[o] == if IsExhausted(queued[o]) then Ended(queued[o], Failed, now) else queued[o]
    ensures after[id] == RecoveredJob(before[id], now)
    ensures queued[id].status == Queued <==> after[id].status == Queued
    ensures before[id].status == Running ==> after[id].status == if IsExhausted(queued[id]) then Failed else Queued
    ensures IsExhausted(queued[id]) ==> before[id].status == Running
  {
  }

  lemma CountRecovered(before: map<JobId, Job>, queued: map<JobId, Job>, after: map<JobId, Job>, now: int)
    requires IsRequeued(before, queued, now) && after.Keys == queued.Keys
    requires forall id :: id in after ==>
               after[id] == if IsExhausted(queued[id]) then Ended(queued[id], Failed, now) else queued[id]
    ensures forall id :: id in before ==> after[id] == RecoveredJob(before[id], now)
    ensures WentFromRunningTo(before, queued, Queued) == WentFromRunningTo(before, after, Queued)
    ensures (set id | id in after && IsExhausted(queued[id])) == WentFromRunningTo(before, after, Failed)
    ensures |WentFromRunningTo(before, after, Queued)| + |WentFromRunningTo(before, after, Failed)|
         == |set id | id in before && before[id].status == Running|
  {
    forall id | id in before
      ensures after[id] == RecoveredJob(before[id], now)
      ensures queued[id].status == Queued <==> after[id].status == Queued
      ensures before[id].status == Running ==>
                after[id].status == if IsExhausted(queued[id]) then Failed else Queued
      ensures IsExhausted(queued[id]) ==> before[id].status == Running
    {
      FailingTheRestRecovers(before, queued, after, now, id);
    }
    EachRunningJobMoves(before, after);
  }

  lemma EachRunningJobMoves(before: map<JobId, Job>, after: map<JobId, Job>)
    requires before.Keys == after.Keys
    requires forall id :: id in before && before[id].status == Running ==>
               after[id].status == Queued || after[id].status == Failed
    ensures |WentFromRunningTo(before, after, Queued)| + |WentFromRunningTo(before, after, Failed)|
         == |set id | id in before && before[id].status == Running|
  {
    var requeued := WentFromRunningTo(before, after, Queued);
    var failed := WentFromRunningTo(before, after, Failed);
    assert (set id | id in before && before[id].status == Running) == requeued + failed;
    assert requeued !! failed;
  }
}
