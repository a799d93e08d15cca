/** Safety of the two-phase rotation of guest-tools channel keys over all runs. */
module RotationSafety {
  import opened Basics
  import opened Records
  import opened ControlPlane
  import opened Deployment

  /** `k` is the active key of `v`, or the pending key of its armed generation. */
  predicate KeyOk(db: Db, v: VmId, k: Secret) {
    && v in db.tools
    && (|| db.tools[v].active.secret == k
        || (db.tools[v].pending.Some? && db.tools[v].pending.value.armed
            && db.tools[v].pending.value.envelope.secret == k))
  }

  predicate RowOk(db: Db, v: VmId, used: set<string>)
    requires v in db.tools
  {
    var row := db.tools[v];
    && row.enabled
    && row.active.context == ActiveKey(v)
    && (row.pending.Some? ==>
          && row.pending.value.envelope.context == PendingKey(v, row.pending.value.generation)
          && row.pending.value.envelope.secret != row.active.secret
          && row.pending.value.generation in used)
  }

  predicate JobOk(j: Job, used: set<string>, provisional: set<string>) {
    j.kind == VmReinstall && j.payload.generation.Some? ==>
      && j.payload.generation.value in used
      && (j.payload.newConfiguration ==> j.payload.generation.value in provisional)
  }

  /** The key the worker may put on the disk of its VM without a further check: that of a
      seed whose generation it has armed, or of a seed for a job that names no generation. */
  function PublishKey(w: World): Option<Secret> {
    if WorkerVm(w).Some? && !w.worker.value.replaced && (WorkerGeneration(w).None? || w.worker.value.armed)
    then w.worker.value.loaded else None
  }

  /** The key of the disk the worker has set aside. */
  function SavedKey(w: World): Option<Secret> {
    if WorkerVm(w).Some? && w.worker.value.saved.Some? then w.worker.value.saved.value else None
  }

  /** The guest of `v` may have or get a key: it is on the disk, on the disk set aside, or
      in the seed the worker may publish. */
  predicate InUse(w: World, v: VmId) {
    || v in w.disk
    || (WorkerVm(w) == Some(v) && (SavedKey(w).Some? || PublishKey(w).Some?))
  }

  /** Every key on a disk, set aside during a swap, or about to be written is usable. */
  ghost predicate KeysOk(w: World) {
    && (forall v :: v in w.disk ==> KeyOk(w.db, v, w.disk[v]))
    && (SavedKey(w).Some? ==> KeyOk(w.db, WorkerVm(w).value, SavedKey(w).value))
    && (PublishKey(w).Some? ==> KeyOk(w.db, WorkerVm(w).value, PublishKey(w).value))
  }

  /** No key of a row that was configured for an unarmed generation can be in use. */
  predicate ProvisionalUnused(w: World, v: VmId)
    requires v in w.db.tools
  {
    Unarmed(w.db.tools[v]) && w.db.tools[v].pending.value.generation in w.provisional ==> !InUse(w, v)
  }

  /** How the seed the worker has built relates to the row of its VM. */
  predicate SeedOk(w: World, row: Tools)
    requires w.worker.Some?
  {
    var worker := w.worker.value;
    row.pending.Some? ==>
      var p := row.pending.value;
      match WorkerGeneration(w)
      case None => worker.loaded.Some? && !worker.replaced && p.armed ==> worker.loaded.value == p.envelope.secret
      case Some(g) =>
        && (p.generation == g && worker.loaded.Some? ==> worker.loaded.value == p.envelope.secret)
        && (worker.armed && p.armed ==> p.generation == g)
  }

  predicate WorkerOk(w: World) {
    w.worker.Some? ==>
      var worker := w.worker.value;
      && worker.job in w.db.jobs
      && (worker.armed ==> WorkerGeneration(w).Some?)
      && (worker.replaced ==> worker.saved.None?)
      && (worker.loaded.Some? ==> w.db.jobs[worker.job].kind == VmReinstall || w.db.jobs[worker.job].kind == VmCreate)
      && (WorkerVm(w).Some? && (worker.saved.Some? || worker.replaced) ==> DiskKey(w, WorkerVm(w).value) == worker.loaded)
      && (WorkerVm(w).Some? && WorkerVm(w).value in w.db.tools ==> SeedOk(w, w.db.tools[WorkerVm(w).value]))
  }

  ghost predicate TablesOk(w: World) {
    && ReferencesResolve(w.db)
    && w.disk.Keys <= w.db.vms.Keys
    && w.provisional <= w.used
    && (forall g :: g in w.used ==> IsCanonicalUuid(g))
    && (forall v :: v in w.db.tools ==> RowOk(w.db, v, w.used))
    && (forall id :: id in w.db.jobs ==> JobOk(w.db.jobs[id], w.used, w.provisional))
  }

  ghost predicate ProvisionalOk(w: World) {
    forall v :: v in w.db.tools ==> ProvisionalUnused(w, v)
  }

  ghost predicate Invariant(w: World) {
    TablesOk(w) && KeysOk(w) && ProvisionalOk(w) && WorkerOk(w)
  }

  predicate Armed(db: Db, v: VmId) {
    v in db.tools && db.tools[v].pending.Some? && db.tools[v].pending.value.armed
  }

  /** The steps that can cost a guest its key, each with the test that would have told. A
      request overwrites or deletes a record whose key is in use, or treats such a record as
      new; the worker builds a seed with a key that is staged but that its job will not arm; or
      it retires the tools of a guest whose disk it has just provided with a key. */
  ghost predicate Breaks(w: World, s: Step) {
    Enabled(w, s) &&
    match s
    case Configure(v, _, _) => v in w.db.tools && !Armed(w.db, v) && InUse(w, v)
    case DeleteConfiguration(v) => v in w.db.tools && !Armed(w.db, v) && InUse(w, v)
    case Stage(v, _, _, _, newConfiguration) =>
      newConfiguration && v in w.db.tools && w.db.tools[v].pending.None? && InUse(w, v)
    case LoadSeed => WorkerGeneration(w).None? && SeedIsUnarmed(w.db, WorkerVm(w).value)
    case RetireAfterReinstall => w.worker.value.loaded.Some?
    case _ => false
  }

  // --- Changes that leave every key in place ------------------------------------

  /** A row that kept its active key and kept or dropped an unarmed rotation. */
  predicate RowKept(before: Tools, after: Tools) {
    && after.active == before.active && after.enabled == before.enabled
    && (after.pending == before.pending || (Unarmed(before) && after.pending.None?))
  }

  predicate JobKept(before: Job, after: Job) {
    && after.kind == before.kind
    && (after.vm == before.vm || after.vm.None?)
    && after.payload.generation == before.payload.generation
    && after.payload.newConfiguration == before.payload.newConfiguration
  }

  /** A row may disappear with its VM, or while it only holds a provisional stage. */
  predicate MayDisappear(w: World, after: Db, v: VmId)
    requires v in w.db.tools
  {
    v !in after.vms ||
    (Unarmed(w.db.tools[v]) && w.db.tools[v].pending.value.generation in w.provisional)
  }

  ghost predicate KeepsKeys(w: World, after: Db) {
    && ReferencesResolve(after)
    && (forall v :: v in after.tools ==> v in w.db.tools && RowKept(w.db.tools[v], after.tools[v]))
    && (forall v :: v in w.db.tools && v !in after.tools ==> MayDisappear(w, after, v))
    && (forall id :: id in w.db.jobs ==> id in after.jobs && JobKept(w.db.jobs[id], after.jobs[id]))
    && (forall id :: id in after.jobs && id !in w.db.jobs ==> JobOk(after.jobs[id], w.used, w.provisional))
  }

  lemma KeyStaysOk(w: World, after: Db, v: VmId, k: Secret)
    requires v in w.db.tools && v in after.vms && KeepsKeys(w, after) && ProvisionalUnused(w, v)
    requires KeyOk(w.db, v, k) && InUse(w, v)
    ensures KeyOk(after, v, k)
  {
    assert !MayDisappear(w, after, v);
  }

  /** The world after a change of the tables; the disk of a VM goes with its row. */
  function WithTables(w: World, after: Db): World {
    w.(db := after, disk := Surviving(w.disk, after))
  }

  lemma WorkerStaysOnItsJob(w: World, after: Db)
    requires KeepsKeys(w, after) && (w.worker.Some? ==> w.worker.value.job in w.db.jobs)
    ensures WorkerVm(WithTables(w, after)).Some? ==>
              && WorkerVm(WithTables(w, after)) == WorkerVm(w)
              && WorkerGeneration(WithTables(w, after)) == WorkerGeneration(w)
              && SavedKey(WithTables(w, after)) == SavedKey(w)
              && PublishKey(WithTables(w, after)) == PublishKey(w)
              && DiskKey(WithTables(w, after), WorkerVm(w).value) == DiskKey(w, WorkerVm(w).value)
    ensures w.worker.Some? ==>
              && w.worker.value.job in after.jobs
              && after.jobs[w.worker.value.job].kind == w.db.jobs[w.worker.value.job].kind
              && WorkerGeneration(WithTables(w, after)) == WorkerGeneration(w)
  {
    if w.worker.Some? {
      assert JobKept(w.db.jobs[w.worker.value.job], after.jobs[w.worker.value.job]);
    }
  }

  lemma UsedKeysStayOk(w: World, after: Db)
    requires Invariant(w) && KeepsKeys(w, after)
    ensures KeysOk(WithTables(w, after))
  {
    var w' := WithTables(w, after);
    WorkerStaysOnItsJob(w, after);
    forall v | v in w'.disk ensures KeyOk(after, v, w'.disk[v]) {
      KeyStaysOk(w, after, v, w.disk[v]);
    }
    if WorkerVm(w').Some? {
      var v := WorkerVm(w').value;
      if SavedKey(w').Some? { KeyStaysOk(w, after, v, SavedKey(w).value); }
      if PublishKey(w').Some? { KeyStaysOk(w, after, v, PublishKey(w).value); }
    }
  }

  lemma TablesStayOk(w: World, after: Db)
    requires TablesOk(w) && KeepsKeys(w, after)
    ensures TablesOk(WithTables(w, after))
  {
    forall id | id in after.jobs ensures JobOk(after.jobs[id], w.used, w.provisional) {
      if id in w.db.jobs { assert JobKept(w.db.jobs[id], after.jobs[id]); }
    }
    forall v | v in after.tools ensures RowOk(after, v, w.used) {
      assert RowKept(w.db.tools[v], after.tools[v]);
    }
  }

  lemma ProvisionalStaysOk(w: World, after: Db)
    requires ProvisionalOk(w) && KeepsKeys(w, after) && (w.worker.Some? ==> w.worker.value.job in w.db.jobs)
    ensures ProvisionalOk(WithTables(w, after))
  {
    var w' := WithTables(w, after);
    WorkerStaysOnItsJob(w, after);
    forall v | v in after.tools ensures ProvisionalUnused(w', v) {
      assert RowKept(w.db.tools[v], after.tools[v]);
      assert ProvisionalUnused(w, v);
      assert InUse(w', v) ==> InUse(w, v);
    }
  }

  lemma SeedStaysOk(w: World, w': World, before: Tools, after: Tools)
    requires w.worker.Some? && w'.worker == w.worker && WorkerGeneration(w') == WorkerGeneration(w)
    requires RowKept(before, after) && SeedOk(w, before)
    ensures SeedOk(w', after)
  {
  }

  lemma WorkerStaysOk(w: World, after: Db)
    requires WorkerOk(w) && KeepsKeys(w, after)
    ensures WorkerOk(WithTables(w, after))
  {
    var w' := WithTables(w, after);
    WorkerStaysOnItsJob(w, after);
    if WorkerVm(w').Some? && WorkerVm(w').value in after.tools {
      var v := WorkerVm(w').value;
      SeedStaysOk(w, w', w.db.tools[v], after.tools[v]);
    }
  }

  lemma KeepingKeysIsSafe(w: World, after: Db)
    requires Invariant(w) && KeepsKeys(w, after)
    ensures Invariant(WithTables(w, after))
  {
    TablesStayOk(w, after);
    UsedKeysStayOk(w, after);
    ProvisionalStaysOk(w, after);
    WorkerStaysOk(w, after);
  }

  lemma KeepingKeysAndVmsIsSafe(w: World, after: Db)
    requires Invariant(w) && KeepsKeys(w, after) && w.db.vms.Keys <= after.vms.Keys
    ensures Invariant(w.(db := after))
  {
    KeepingKeysIsSafe(w, after);
    assert Surviving(w.disk, after) == w.disk;
    assert WithTables(w, after) == w.(db := after);
  }

  lemma StartingIsSafe(w: World, id: JobId)
    requires Invariant(w) && w.worker.None? && id in w.db.jobs
    ensures Invariant(w.(worker := Some(Worker(id, None, false, None, false))))
  {
    var w' := w.(worker := Some(Worker(id, None, false, None, false)));
    assert forall v :: InUse(w', v) ==> InUse(w, v);
    assert ProvisionalOk(w');
  }

  lemma DroppingTheWorkerIsSafe(w: World)
    requires Invariant(w)
    ensures Invariant(w.(worker := None))
  {
    var w' := w.(worker := None);
    assert forall v :: InUse(w', v) ==> InUse(w, v);
    assert ProvisionalOk(w');
  }

  // --- Steps of requests and recoveries -----------------------------------------

  lemma SameTablesKeepKeys(w: World)
    requires TablesOk(w)
    ensures KeepsKeys(w, w.db)
  {
  }

  lemma UpdatingVmsKeepsKeys(w: World, vms: map<VmId, Vm>)
    requires TablesOk(w) && w.db.vms.Keys <= vms.Keys
    ensures KeepsKeys(w, w.db.(vms := vms))
  {
  }

  lemma NewJobKeepsKeys(w: World, vms: map<VmId, Vm>, id: JobId, job: Job)
    requires TablesOk(w) && id !in w.db.jobs && w.db.vms.Keys <= vms.Keys
    requires job.vm.Some? ==> job.vm.value in vms
    requires JobOk(job, w.used, w.provisional)
    ensures KeepsKeys(w, w.db.(vms := vms, jobs := w.db.jobs[id := job]))
  {
  }

  lemma EnqueueKeepsKeys(w: World, s: Step)
    requires TablesOk(w) && Enabled(w, s)
    requires s.Enqueue? || s.QueueBootstrap? || s.QueueDelete? || s.QueueReinstall?
    ensures KeepsKeys(w, DbAfter(w, s))
  {
    SameTablesKeepKeys(w);
    var after := DbAfter(w, s);
    if after != w.db {
      assert after.jobs == w.db.jobs[s.id := after.jobs[s.id]];
      NewJobKeepsKeys(w, after.vms, s.id, after.jobs[s.id]);
    }
  }

  lemma RemoveVmKeepsKeys(w: World, after: Db, v: VmId)
    requires KeepsKeys(w, after)
    ensures KeepsKeys(w, RemoveVm(after, v))
  {
  }

  lemma KeptJobKeepsKeys(w: World, id: JobId, job: Job)
    requires TablesOk(w) && id in w.db.jobs && JobKept(w.db.jobs[id], job)
    ensures KeepsKeys(w, w.db.(jobs := w.db.jobs[id := job]))
  {
  }

  /** The job-scoped rollback of an unarmed generation. */
  lemma CleanupKeepsKeys(w: World, id: JobId, job: Job)
    requires TablesOk(w) && id in w.db.jobs && JobKept(w.db.jobs[id], job)
    ensures KeepsKeys(w, w.db.(tools := CleanupUnarmed(w.db.tools, w.db.jobs[id]), jobs := w.db.jobs[id := job]))
  {
    assert JobOk(w.db.jobs[id], w.used, w.provisional);
    KeptJobKeepsKeys(w, id, job);
  }

  lemma FailKeepsKeys(w: World, id: JobId, retryAt: Option<int>, now: int)
    requires TablesOk(w)
    ensures KeepsKeys(w, FailJob(w.db, id, retryAt, now).0)
  {
    SameTablesKeepKeys(w);
    if id in w.db.jobs {
      KeptJobKeepsKeys(w, id, FailedRow(w.db.jobs[id], retryAt, now));
      CleanupKeepsKeys(w, id, FailedRow(w.db.jobs[id], retryAt, now));
    }
  }

  lemma FinishKeepsKeys(w: World, id: JobId, now: int)
    requires TablesOk(w)
    ensures KeepsKeys(w, FinishJob(w.db, id, now).0)
  {
    SameTablesKeepKeys(w);
    if id in w.db.jobs { KeptJobKeepsKeys(w, id, Ended(w.db.jobs[id], Succeeded, now)); }
  }

  lemma VmRowsDoNotMatter(w: World, after: Db, vms: map<VmId, Vm>)
    requires KeepsKeys(w, after) && vms.Keys == after.vms.Keys
    ensures KeepsKeys(w, after.(vms := vms))
  {
  }

  lemma CancelKeepsKeys(w: World, id: JobId, now: int)
    requires TablesOk(w)
    ensures KeepsKeys(w, CancelJob(w.db, id, now).0)
  {
    if id in w.db.jobs && w.db.jobs[id].status == Queued {
      var j := w.db.jobs[id];
      var jobs := w.db.jobs[id := Ended(j, Cancelled, now)];
      KeptJobKeepsKeys(w, id, Ended(j, Cancelled, now));
      CleanupKeepsKeys(w, id, Ended(j, Cancelled, now));
      if j.kind == VmCreate && j.vm.Some? {
        RemoveVmKeepsKeys(w, w.db.(jobs := jobs), j.vm.value);
      } else if j.kind == VmReinstall && j.vm.Some? {
        VmRowsDoNotMatter(
          w, w.db.(tools := CleanupUnarmed(w.db.tools, j), jobs := jobs), CancelJob(w.db, id, now).0.vms);
      }
    } else {
      SameTablesKeepKeys(w);
    }
  }

  lemma RecoveredRowKept(w: World, v: VmId)
    requires TablesOk(w) && v in w.db.tools
    ensures var row := w.db.tools[v];
            match RecoveredRow(w.db.jobs, v, row)
            case Some(after) => RowKept(row, after)
            case None => Unarmed(row) && row.pending.value.generation in w.provisional
  {
    var row := w.db.tools[v];
    RecoveredRowCases(w.db.jobs, v, row);
    if RecoveredRow(w.db.jobs, v, row).None? {
      var id :| AbandonedBy(w.db.jobs, id, v, row) && w.db.jobs[id].payload.newConfiguration;
      assert JobOk(w.db.jobs[id], w.used, w.provisional);
    }
  }

  lemma RecoverKeepsRow(w: World, after: Db, now: int, v: VmId)
    requires TablesOk(w) && IsRecovered(w.db, after, now) && v in w.db.tools
    ensures if v in after.tools then RowKept(w.db.tools[v], after.tools[v]) else MayDisappear(w, after, v)
  {
    RecoveredRowKept(w, v);
  }

  lemma RecoverKeepsJob(db: Db, after: Db, now: int, id: JobId)
    requires IsRecovered(db, after, now) && id in db.jobs
    ensures id in after.jobs && JobKept(db.jobs[id], after.jobs[id]) && after.jobs[id].vm == db.jobs[id].vm
  {
    assert after.jobs[id] == RecoveredJob(db.jobs[id], now);
  }

  lemma RecoverKeepsReferences(db: Db, after: Db, now: int)
    requires ReferencesResolve(db) && IsRecovered(db, after, now)
    ensures ReferencesResolve(after)
  {
    forall id | id in after.jobs && after.jobs[id].vm.Some? ensures after.jobs[id].vm.value in after.vms {
      RecoverKeepsJob(db, after, now, id);
    }
  }

  lemma RecoverKeepsKeys(w: World, after: Db, now: int)
    requires TablesOk(w) && IsRecovered(w.db, after, now)
    ensures KeepsKeys(w, after)
  {
    RecoverKeepsReferences(w.db, after, now);
    forall v | v in w.db.tools
      ensures if v in after.tools then RowKept(w.db.tools[v], after.tools[v]) else MayDisappear(w, after, v)
    {
      RecoverKeepsRow(w, after, now, v);
    }
    forall id | id in w.db.jobs ensures id in after.jobs && JobKept(w.db.jobs[id], after.jobs[id]) {
      RecoverKeepsJob(w.db, after, now, id);
    }
  }

  lemma KeptRowKeepsKeys(w: World, v: VmId, row: Tools)
    requires TablesOk(w) && v in w.db.tools && RowKept(w.db.tools[v], row)
    ensures KeepsKeys(w, w.db.(tools := w.db.tools[v := row]))
  {
  }

  lemma DiscardKeepsKeys(w: World, v: VmId, g: string)
    requires TablesOk(w)
    ensures KeepsKeys(w, DiscardRotation(w.db, v, g).0)
  {
    SameTablesKeepKeys(w);
    var after := DiscardRotation(w.db, v, g).0;
    if after != w.db { KeptRowKeepsKeys(w, v, DropPending(w.db.tools[v])); }
  }

  lemma StatusKeepsKeys(
    w: World, v: VmId, status: ToolsStatus, version: Option<string>, contacted: bool, now: int)
    requires TablesOk(w)
    ensures KeepsKeys(w, UpdateToolsStatus(w.db, v, status, version, contacted, now).0)
  {
    SameTablesKeepKeys(w);
    var after := UpdateToolsStatus(w.db, v, status, version, contacted, now).0;
    if after != w.db { KeptRowKeepsKeys(w, v, after.tools[v]); }
  }

  lemma RequestStepKeepsKeys(w: World, s: Step)
    requires TablesOk(w) && Enabled(w, s)
    requires
      || s.RemoveVmRow? || s.Enqueue? || s.QueueBootstrap? || s.QueueDelete? || s.QueueReinstall?
      || s.Cancel? || s.DiscardStage? || s.RecoverJobs? || s.ReportStatus?
    ensures KeepsKeys(w, DbAfter(w, s))
  {
    match s {
      case Enqueue(_, _, _) => EnqueueKeepsKeys(w, s);
      case QueueBootstrap(_, _, _) => EnqueueKeepsKeys(w, s);
      case QueueDelete(_, _, _) => EnqueueKeepsKeys(w, s);
      case QueueReinstall(_, _, _, _, _) => EnqueueKeepsKeys(w, s);
      case RemoveVmRow(v) => SameTablesKeepKeys(w); RemoveVmKeepsKeys(w, w.db, v);
      case Cancel(id, now) => CancelKeepsKeys(w, id, now);
      case DiscardStage(v, g) => DiscardKeepsKeys(w, v, g);
      case ReportStatus(v, status, version, contacted, now) => StatusKeepsKeys(w, v, status, version, contacted, now);
      case RecoverJobs(now) => RecoverByRows(w.db, now); RecoverKeepsKeys(w, DbAfter(w, s), now);
    }
  }

  lemma VmStepKeepsKeys(w: World, s: Step)
    requires TablesOk(w) && Enabled(w, s)
    requires s.CreateVm? || s.ObserveVm? || s.StorePassword? || s.CommitPassword?
    ensures KeepsKeys(w, DbAfter(w, s))
  {
    UpdatingVmsKeepsKeys(w, DbAfter(w, s).vms);
  }

  predicate IsTableStep(s: Step) {
    || s.RemoveVmRow? || s.Enqueue? || s.QueueBootstrap? || s.QueueDelete? || s.QueueReinstall?
    || s.Cancel? || s.DiscardStage? || s.RecoverJobs? || s.ReportStatus?
    || s.CreateVm? || s.ObserveVm? || s.StorePassword? || s.CommitPassword?
  }

  lemma TableStepApplies(w: World, s: Step)
    requires Enabled(w, s) && IsTableStep(s) && w.disk.Keys <= w.db.vms.Keys
    ensures Apply(w, s) == WithTables(w, DbAfter(w, s))
  {
    if !s.RemoveVmRow? && !s.Cancel? { SurvivingAll(w, s); }
  }

  lemma SurvivingAll(w: World, s: Step)
    requires w.disk.Keys <= w.db.vms.Keys && Enabled(w, s) && IsTableStep(s) && !s.RemoveVmRow? && !s.Cancel?
    ensures Surviving(w.disk, DbAfter(w, s)) == w.disk
  {
  }

  lemma TableStepIsSafe(w: World, s: Step)
    requires Invariant(w) && Enabled(w, s) && IsTableStep(s)
    ensures Invariant(Apply(w, s))
  {
    if s.CreateVm? || s.ObserveVm? || s.StorePassword? || s.CommitPassword? {
      VmStepKeepsKeys(w, s);
    } else {
      RequestStepKeepsKeys(w, s);
    }
    KeepingKeysIsSafe(w, DbAfter(w, s));
    TableStepApplies(w, s);
  }

  // --- Configuring, deleting and staging -------------------------------------------

  /** The world with one tools row replaced or removed. */
  function WithRow(w: World, v: VmId, row: Option<Tools>): World {
    w.(db := w.db.(tools := PutRow(w.db.tools, v, row)))
  }

  lemma WorkerIgnoresTools(w: World, tools: map<VmId, Tools>)
    ensures var w' := w.(db := w.db.(tools := tools));
            && WorkerJob(w') == WorkerJob(w) && WorkerVm(w') == WorkerVm(w)
            && WorkerGeneration(w') == WorkerGeneration(w)
            && SavedKey(w') == SavedKey(w) && PublishKey(w') == PublishKey(w)
            && forall v :: InUse(w', v) == InUse(w, v)
  {
  }

  /** Replacing or removing the row of a VM whose key is not in use. */
  lemma ReplacingUnusedRowIsSafe(w: World, v: VmId, row: Option<Tools>)
    requires Invariant(w) && !InUse(w, v) && v in w.db.vms
    requires row.Some? ==> row.value.enabled && row.value.active.context == ActiveKey(v) && row.value.pending.None?
    ensures Invariant(WithRow(w, v, row))
  {
    WorkerIgnoresTools(w, WithRow(w, v, row).db.tools);
    ReplacedRowLeavesTablesOk(w, v, row);
    ReplacedRowLeavesProvisionalOk(w, v, row);
    ReplacedRowLeavesWorkerOk(w, v, row);
    UnusedRowLeavesKeysOk(w, v, row);
  }

  lemma ReplacedRowLeavesTablesOk(w: World, v: VmId, row: Option<Tools>)
    requires TablesOk(w) && v in w.db.vms
    requires row.Some? ==> row.value.enabled && row.value.active.context == ActiveKey(v) && row.value.pending.None?
    ensures TablesOk(WithRow(w, v, row))
  {
    var w' := WithRow(w, v, row);
    forall u | u in w'.db.tools ensures RowOk(w'.db, u, w.used) {
      if u != v { assert RowOk(w.db, u, w.used); }
    }
  }

  lemma ReplacedRowLeavesProvisionalOk(w: World, v: VmId, row: Option<Tools>)
    requires ProvisionalOk(w) && (row.Some? ==> row.value.pending.None?)
    ensures ProvisionalOk(WithRow(w, v, row))
  {
    var w' := WithRow(w, v, row);
    WorkerIgnoresTools(w, w'.db.tools);
    forall u | u in w'.db.tools ensures ProvisionalUnused(w', u) {
      if u != v { assert ProvisionalUnused(w, u); }
    }
  }

  lemma UnusedRowLeavesKeysOk(w: World, v: VmId, row: Option<Tools>)
    requires KeysOk(w) && !InUse(w, v)
    ensures KeysOk(WithRow(w, v, row))
  {
    WorkerIgnoresTools(w, WithRow(w, v, row).db.tools);
  }

  lemma ReplacedRowLeavesWorkerOk(w: World, v: VmId, row: Option<Tools>)
    requires WorkerOk(w) && (row.Some? ==> row.value.pending.None?)
    ensures WorkerOk(WithRow(w, v, row))
  {
    WorkerIgnoresTools(w, WithRow(w, v, row).db.tools);
  }

  /** The key in use on a row that has no armed generation is its active key. */
  lemma UsedKeyIsActive(w: World, v: VmId)
    requires KeysOk(w) && v in w.db.tools && !Armed(w.db, v)
    ensures v in w.disk ==> w.disk[v] == w.db.tools[v].active.secret
    ensures WorkerVm(w) == Some(v) && SavedKey(w).Some? ==> SavedKey(w).value == w.db.tools[v].active.secret
    ensures WorkerVm(w) == Some(v) && PublishKey(w).Some? ==> PublishKey(w).value == w.db.tools[v].active.secret
  {
  }

  /** Replacing or removing a row whose active key is in use costs the guest its key. */
  lemma ReplacingUsedRowBreaks(w: World, v: VmId, row: Option<Tools>)
    requires KeysOk(w) && v in w.db.tools && !Armed(w.db, v) && InUse(w, v)
    requires row.Some? ==> row.value.pending.None? && row.value.active.secret != w.db.tools[v].active.secret
    ensures !KeysOk(WithRow(w, v, row))
  {
    UsedKeyIsActive(w, v);
    WorkerIgnoresTools(w, WithRow(w, v, row).db.tools);
    assert !KeyOk(WithRow(w, v, row).db, v, w.db.tools[v].active.secret);
  }

  lemma ConfigureIsSafeExactly(w: World, s: Step)
    requires Invariant(w) && Enabled(w, s) && s.Configure?
    ensures Invariant(Apply(w, s)) <==> !Breaks(w, s)
  {
    var row := NewTools(s.vm, s.secret, s.install);
    if !Armed(w.db, s.vm) && s.vm in w.db.vms {
      assert Apply(w, s) == WithRow(w, s.vm, Some(row));
      UnknownRowIsUnused(w, s.vm);
      if InUse(w, s.vm) {
        ReplacingUsedRowBreaks(w, s.vm, Some(row));
      } else {
        ReplacingUnusedRowIsSafe(w, s.vm, Some(row));
      }
    } else {
      assert Apply(w, s) == w;
    }
  }

  lemma UnknownRowIsUnused(w: World, v: VmId)
    requires KeysOk(w)
    ensures v !in w.db.tools ==> !InUse(w, v)
  {
  }

  lemma DeleteIsSafeExactly(w: World, s: Step)
    requires Invariant(w) && Enabled(w, s) && s.DeleteConfiguration?
    ensures Invariant(Apply(w, s)) <==> !Breaks(w, s)
  {
    if s.vm in w.db.tools && !Armed(w.db, s.vm) {
      assert Apply(w, s) == WithRow(w, s.vm, None);
      if InUse(w, s.vm) {
        ReplacingUsedRowBreaks(w, s.vm, None);
      } else {
        ReplacingUnusedRowIsSafe(w, s.vm, None);
      }
    } else {
      assert Apply(w, s) == w;
    }
  }

  /** An unarmed generation is added to the row of `v`. */
  function WithStage(w: World, v: VmId, rotation: Rotation): World
    requires v in w.db.tools
  {
    WithRow(w, v, Some(w.db.tools[v].(pending := Some(rotation))))
  }

  lemma StagingKeepsKeysOk(w: World, v: VmId, rotation: Rotation)
    requires KeysOk(w) && v in w.db.tools && w.db.tools[v].pending.None?
    ensures KeysOk(WithStage(w, v, rotation))
  {
    WorkerIgnoresTools(w, WithStage(w, v, rotation).db.tools);
  }

  lemma StagingKeepsWorkerOk(w: World, v: VmId, rotation: Rotation)
    requires WorkerOk(w) && v in w.db.tools && w.db.tools[v].pending.None? && !rotation.armed
    requires WorkerGeneration(w) != Some(rotation.generation)
    ensures WorkerOk(WithStage(w, v, rotation))
  {
    WorkerIgnoresTools(w, WithStage(w, v, rotation).db.tools);
  }

  lemma StagingKeepsTablesOk(w: World, v: VmId, rotation: Rotation)
    requires TablesOk(w) && v in w.db.tools && w.db.tools[v].pending.None? && rotation.generation in w.used
    requires rotation.envelope.context == PendingKey(v, rotation.generation)
    requires rotation.envelope.secret != w.db.tools[v].active.secret
    ensures TablesOk(WithStage(w, v, rotation))
  {
    var w' := WithStage(w, v, rotation);
    forall u | u in w'.db.tools ensures RowOk(w'.db, u, w.used) {
      assert RowOk(w.db, u, w.used);
    }
  }

  /** A generation staged for a new configuration needs a row whose key is not in use. */
  lemma StagingKeepsProvisionalOkExactly(w: World, v: VmId, rotation: Rotation)
    requires ProvisionalOk(w) && v in w.db.tools && w.db.tools[v].pending.None? && !rotation.armed
    ensures ProvisionalOk(WithStage(w, v, rotation)) <==> !(rotation.generation in w.provisional && InUse(w, v))
  {
    var w' := WithStage(w, v, rotation);
    WorkerIgnoresTools(w, w'.db.tools);
    forall u | u in w'.db.tools && u != v ensures ProvisionalUnused(w', u) {
      assert ProvisionalUnused(w, u);
    }
    assert v in w'.db.tools && w'.db.tools[v].pending == Some(rotation);
  }

  lemma StagingIsSafeExactly(w: World, v: VmId, rotation: Rotation)
    requires Invariant(w) && v in w.db.tools && w.db.tools[v].pending.None? && !rotation.armed
    requires WorkerGeneration(w) != Some(rotation.generation) && rotation.generation in w.used
    requires rotation.envelope.context == PendingKey(v, rotation.generation)
    requires rotation.envelope.secret != w.db.tools[v].active.secret
    ensures Invariant(WithStage(w, v, rotation)) <==> !(rotation.generation in w.provisional && InUse(w, v))
  {
    StagingKeepsTablesOk(w, v, rotation);
    StagingKeepsKeysOk(w, v, rotation);
    StagingKeepsWorkerOk(w, v, rotation);
    StagingKeepsProvisionalOkExactly(w, v, rotation);
  }

  lemma MoreGenerationsAreSafe(w: World, g: string, newConfiguration: bool)
    requires Invariant(w) && IsCanonicalUuid(g) && g !in w.used
    ensures Invariant(HandedOut(w, g, newConfiguration))
  {
    var w' := HandedOut(w, g, newConfiguration);
    forall id | id in w.db.jobs ensures JobOk(w.db.jobs[id], w'.used, w'.provisional) {
      assert JobOk(w.db.jobs[id], w.used, w.provisional);
    }
    forall v | v in w.db.tools ensures RowOk(w.db, v, w'.used) && ProvisionalUnused(w', v) {
      assert RowOk(w.db, v, w.used) && ProvisionalUnused(w, v);
      assert InUse(w', v) == InUse(w, v);
    }
    assert TablesOk(w') && KeysOk(w') && WorkerOk(w');
  }

  function HandedOut(w: World, g: string, newConfiguration: bool): World {
    w.(used := w.used + {g}, provisional := if newConfiguration then w.provisional + {g} else w.provisional)
  }

  lemma WorkerDoesNotName(w: World, g: string)
    requires TablesOk(w) && WorkerOk(w) && g !in w.used
    ensures WorkerGeneration(w) != Some(g)
  {
    if w.worker.Some? { assert JobOk(w.db.jobs[w.worker.value.job], w.used, w.provisional); }
  }

  lemma StageIsSafeExactly(w: World, s: Step)
    requires Invariant(w) && Enabled(w, s) && s.Stage?
    ensures Invariant(Apply(w, s)) <==> !Breaks(w, s)
  {
    var v, g := s.vm, s.generation;
    var w1 := HandedOut(w, g, s.newConfiguration);
    MoreGenerationsAreSafe(w, g, s.newConfiguration);
    WorkerDoesNotName(w, g);
    if v in w.db.tools && w.db.tools[v].pending.None? {
      assert RowOk(w.db, v, w.used);
      var rotation := Rotation(g, Encrypt(s.secret, PendingKey(v, g)), s.install, false);
      assert Apply(w, s) == WithStage(w1, v, rotation);
      StagingIsSafeExactly(w1, v, rotation);
      assert InUse(w1, v) == InUse(w, v);
      assert g in w1.provisional <==> s.newConfiguration;
    } else {
      assert Apply(w, s) == w1;
    }
  }

  // --- Promotion --------------------------------------------------------------------

  /** The row of `v` after its armed generation became the active key. */
  lemma PromotionIsSafe(w: World, v: VmId, row: Tools)
    requires Invariant(w) && v in w.disk && !Swapping(w, v) && Armed(w.db, v)
    requires w.disk[v] == w.db.tools[v].pending.value.envelope.secret
    requires row.enabled && row.pending.None?
    requires row.active == Encrypt(w.db.tools[v].pending.value.envelope.secret, ActiveKey(v))
    ensures Invariant(WithRow(w, v, Some(row)))
  {
    var w' := WithRow(w, v, Some(row));
    WorkerIgnoresTools(w, w'.db.tools);
    ReplacedRowLeavesTablesOk(w, v, Some(row));
    PromotedKeysAreOk(w, v, row);
    ReplacedRowLeavesProvisionalOk(w, v, Some(row));
    ReplacedRowLeavesWorkerOk(w, v, Some(row));
  }

  lemma PromotedKeysAreOk(w: World, v: VmId, row: Tools)
    requires KeysOk(w) && WorkerOk(w) && v in w.disk && !Swapping(w, v) && Armed(w.db, v)
    requires w.disk[v] == w.db.tools[v].pending.value.envelope.secret == row.active.secret
    ensures KeysOk(WithRow(w, v, Some(row)))
  {
    WorkerIgnoresTools(w, WithRow(w, v, Some(row)).db.tools);
    if WorkerVm(w) == Some(v) {
      assert SavedKey(w).None?;
      assert SeedOk(w, w.db.tools[v]);
      assert PublishKey(w).Some? ==> PublishKey(w).value == row.active.secret;
    }
  }

  lemma HandshakeIsSafe(w: World, s: Step)
    requires Invariant(w) && Enabled(w, s) && s.Handshake?
    ensures Invariant(Apply(w, s))
  {
    var after := DbAfter(w, s);
    if after != w.db {
      assert RowOk(w.db, s.vm, w.used);
      assert Apply(w, s) == WithRow(w, s.vm, Some(after.tools[s.vm]));
      PromotionIsSafe(w, s.vm, after.tools[s.vm]);
    } else {
      assert Apply(w, s) == w;
    }
  }

  // --- Steps of the worker -------------------------------------------------------------

  lemma ClaimIsSafe(w: World, s: Step)
    requires Invariant(w) && Enabled(w, s) && s.ClaimNext?
    ensures Invariant(Apply(w, s))
  {
    var after := DbAfter(w, s);
    KeptJobKeepsKeys(w, s.id, Claimed(w.db.jobs[s.id], s.now));
    KeepingKeysAndVmsIsSafe(w, after);
    StartingIsSafe(w.(db := after), s.id);
    assert Apply(w, s) == w.(db := after).(worker := Some(Worker(s.id, None, false, None, false)));
  }

  /** A change of what the worker knows that adds no key in use on any VM but its own. */
  lemma WorkerChangeIsSafe(w: World, w': World)
    requires Invariant(w) && w' == w.(worker := w'.worker, disk := w'.disk)
    requires w.worker.Some? && w'.worker.Some? && w'.worker.value.job == w.worker.value.job
    requires w'.disk.Keys <= w.db.vms.Keys
    requires forall v :: v in w'.disk && WorkerVm(w) != Some(v) ==> v in w.disk && w'.disk[v] == w.disk[v]
    requires WorkerVm(w).Some? ==>
               var v := WorkerVm(w).value;
               && (v in w'.disk ==> KeyOk(w.db, v, w'.disk[v]))
               && (SavedKey(w').Some? ==> KeyOk(w.db, v, SavedKey(w').value))
               && (PublishKey(w').Some? ==> KeyOk(w.db, v, PublishKey(w').value))
               && (v in w.db.tools ==> ProvisionalUnused(w', v))
    requires WorkerOk(w')
    ensures Invariant(w')
  {
    assert WorkerVm(w') == WorkerVm(w);
    forall v | v in w.db.tools ensures ProvisionalUnused(w', v) {
      if WorkerVm(w) != Some(v) {
        assert ProvisionalUnused(w, v);
        assert InUse(w', v) ==> InUse(w, v);
      }
    }
    assert TablesOk(w') && KeysOk(w') && ProvisionalOk(w');
  }

  lemma SeedSecretOf(w: World, v: VmId)
    requires TablesOk(w) && v in w.db.tools
    ensures SeedSecret(w.db, v) == Some(if w.db.tools[v].pending.Some? then w.db.tools[v].pending.value.envelope.secret
                                        else w.db.tools[v].active.secret)
  {
    assert RowOk(w.db, v, w.used);
  }

  lemma LoadSeedIsSafeExactly(w: World)
    requires Invariant(w) && Enabled(w, LoadSeed)
    ensures Invariant(Apply(w, LoadSeed)) <==> !Breaks(w, LoadSeed)
  {
    var w', v := Apply(w, LoadSeed), WorkerVm(w).value;
    assert WorkerVm(w') == Some(v) && WorkerGeneration(w') == WorkerGeneration(w);
    assert PublishKey(w') == if WorkerGeneration(w).None? then SeedSecret(w.db, v) else None;
    if v in w.db.tools {
      assert RowOk(w.db, v, w.used);
      SeedSecretOf(w, v);
      if Breaks(w, LoadSeed) {
        assert !KeyOk(w.db, v, PublishKey(w').value);
      } else {
        LoadedSeedIsOk(w, v);
        WorkerChangeIsSafe(w, w');
      }
    } else {
      UnknownRowIsUnused(w, v);
      WorkerChangeIsSafe(w, w');
    }
  }

  lemma LoadedSeedIsOk(w: World, v: VmId)
    requires Invariant(w) && Enabled(w, LoadSeed) && WorkerVm(w) == Some(v) && v in w.db.tools && !Breaks(w, LoadSeed)
    ensures var w' := Apply(w, LoadSeed);
            && WorkerOk(w') && ProvisionalUnused(w', v)
            && (PublishKey(w').Some? ==> KeyOk(w.db, v, PublishKey(w').value))
  {
    SeedSecretOf(w, v);
    assert RowOk(w.db, v, w.used) && ProvisionalUnused(w, v);
  }

  /** The pending generation of `v`, armed. */
  function ArmedRow(row: Tools): Tools
    requires row.pending.Some?
  {
    row.(pending := Some(row.pending.value.(armed := true)), status := ToolsStatus.Pending)
  }

  lemma ArmedTablesAreOk(w: World, v: VmId)
    requires TablesOk(w) && ProvisionalOk(w) && v in w.db.tools && w.db.tools[v].pending.Some?
    ensures var w' := WithRow(w, v, Some(ArmedRow(w.db.tools[v])));
            TablesOk(w') && ProvisionalOk(w')
  {
    var w' := WithRow(w, v, Some(ArmedRow(w.db.tools[v])));
    WorkerIgnoresTools(w, w'.db.tools);
    forall u | u in w'.db.tools ensures RowOk(w'.db, u, w.used) && ProvisionalUnused(w', u) {
      assert RowOk(w.db, u, w.used) && ProvisionalUnused(w, u);
    }
  }

  lemma ArmIsSafe(w: World)
    requires Invariant(w) && Enabled(w, Arm)
    ensures Invariant(Apply(w, Arm))
  {
    var v, g := WorkerVm(w).value, WorkerGeneration(w).value;
    assert JobOk(WorkerJob(w).value, w.used, w.provisional);
    if PendingIs(w.db, v, g) {
      var w1 := WithRow(w, v, Some(ArmedRow(w.db.tools[v])));
      ArmedTablesAreOk(w, v);
      ArmedKeysAreOk(w, v, g);
      assert Apply(w, Arm) == w1.(worker := Some(w.worker.value.(armed := true)));
    } else {
      assert Apply(w, Arm) == w;
    }
  }

  lemma ArmedKeysAreOk(w: World, v: VmId, g: string)
    requires KeysOk(w) && ProvisionalOk(w) && WorkerOk(w)
    requires WorkerVm(w) == Some(v) && WorkerGeneration(w) == Some(g) && PendingIs(w.db, v, g)
    ensures var w' := WithRow(w, v, Some(ArmedRow(w.db.tools[v]))).(worker := Some(w.worker.value.(armed := true)));
            KeysOk(w') && WorkerOk(w') && (ProvisionalOk(WithRow(w, v, Some(ArmedRow(w.db.tools[v])))) ==> ProvisionalOk(w'))
  {
    var w1 := WithRow(w, v, Some(ArmedRow(w.db.tools[v])));
    var w' := w1.(worker := Some(w.worker.value.(armed := true)));
    WorkerIgnoresTools(w, w1.db.tools);
    assert SeedOk(w, w.db.tools[v]);
    forall u | u in w'.db.tools && ProvisionalOk(w1) ensures ProvisionalUnused(w', u) {
      assert ProvisionalUnused(w1, u);
      assert u != v ==> InUse(w', u) == InUse(w1, u);
    }
  }

  lemma SwapOutIsSafe(w: World)
    requires Invariant(w) && Enabled(w, SwapDisk)
    ensures Invariant(Apply(w, SwapDisk))
  {
    var w', v := Apply(w, SwapDisk), WorkerVm(w).value;
    assert WorkerVm(w') == Some(v) && WorkerGeneration(w') == WorkerGeneration(w);
    assert w.worker.value.loaded == PublishKey(w) == PublishKey(w');
    assert SavedKey(w') == DiskKey(w, v);
    assert w'.disk.Keys <= w.db.vms.Keys;
    assert v in w.db.tools ==> ProvisionalUnused(w, v);
    WorkerChangeIsSafe(w, w');
  }

  lemma UndoSwapIsSafe(w: World)
    requires Invariant(w) && Enabled(w, UndoSwap)
    ensures Invariant(Apply(w, UndoSwap))
  {
    var w' := Apply(w, UndoSwap);
    assert WorkerVm(w') == WorkerVm(w) && WorkerGeneration(w') == WorkerGeneration(w);
    if WorkerVm(w).Some? {
      var v := WorkerVm(w).value;
      assert DiskKey(w', v) == SavedKey(w) && PublishKey(w') == PublishKey(w);
      assert v in w.db.tools ==> ProvisionalUnused(w, v);
    }
    WorkerChangeIsSafe(w, w');
  }

  lemma KeepSwapIsSafe(w: World)
    requires Invariant(w) && Enabled(w, KeepSwap)
    ensures Invariant(Apply(w, KeepSwap))
  {
    var w' := Apply(w, KeepSwap);
    assert WorkerVm(w') == WorkerVm(w) && WorkerGeneration(w') == WorkerGeneration(w);
    if WorkerVm(w).Some? {
      var v := WorkerVm(w).value;
      assert SavedKey(w').None? && PublishKey(w').None?;
      assert v in w.db.tools ==> ProvisionalUnused(w, v);
    }
    WorkerChangeIsSafe(w, w');
  }

  /** After the swap the key of the seed is the key of the disk. */
  lemma RetireIsSafeExactly(w: World)
    requires Invariant(w) && Enabled(w, RetireAfterReinstall)
    ensures Invariant(Apply(w, RetireAfterReinstall)) <==> !Breaks(w, RetireAfterReinstall)
  {
    var v := WorkerVm(w).value;
    var w' := Apply(w, RetireAfterReinstall);
    assert DiskKey(w, v) == w.worker.value.loaded && SavedKey(w).None? && PublishKey(w).None?;
    assert w' == WithRow(w, v, None);
    if v in w.disk {
      assert !KeyOk(w'.db, v, w'.disk[v]);
    } else {
      assert v in w.db.vms;
      ReplacingUnusedRowIsSafe(w, v, None);
    }
  }

  lemma EndOfJobIsSafe(w: World, s: Step)
    requires Invariant(w) && Enabled(w, s) && (s.Finish? || s.Fail?)
    ensures Invariant(Apply(w, s))
  {
    var after := DbAfter(w, s);
    EndOfJobKeepsKeys(w, s);
    KeepingKeysAndVmsIsSafe(w, after);
    DroppingTheWorkerIsSafe(w.(db := after));
    assert Apply(w, s) == w.(db := after).(worker := None);
  }

  lemma EndOfJobKeepsKeys(w: World, s: Step)
    requires TablesOk(w) && Enabled(w, s) && (s.Finish? || s.Fail?)
    ensures KeepsKeys(w, DbAfter(w, s)) && DbAfter(w, s).vms == w.db.vms
  {
    match s
    case Finish(now) => FinishKeepsKeys(w, w.worker.value.job, now);
    case Fail(retryAt, now) => FailKeepsKeys(w, w.worker.value.job, retryAt, now);
  }

  lemma CrashIsSafe(w: World, s: Step)
    requires Invariant(w) && s.Crash?
    ensures Invariant(Apply(w, s))
  {
    if s.oldDiskBack && w.worker.Some? && w.worker.value.saved.Some? {
      UndoSwapIsSafe(w);
      DroppingTheWorkerIsSafe(Apply(w, UndoSwap));
      assert Apply(w, s) == Apply(w, UndoSwap).(worker := None);
    } else {
      DroppingTheWorkerIsSafe(w);
      assert Apply(w, s) == w.(worker := None);
    }
  }

  // --- Every step, every run --------------------------------------------------------------

  lemma RotationRequestIsSafeExactly(w: World, s: Step)
    requires Invariant(w) && Enabled(w, s)
    requires s.Configure? || s.DeleteConfiguration? || s.Stage? || s.Handshake?
    ensures Invariant(Apply(w, s)) <==> !Breaks(w, s)
  {
    if s.Configure? {
      ConfigureIsSafeExactly(w, s);
    } else if s.DeleteConfiguration? {
      DeleteIsSafeExactly(w, s);
    } else if s.Stage? {
      StageIsSafeExactly(w, s);
    } else {
      HandshakeIsSafe(w, s);
    }
  }

  lemma WorkerStepIsSafeExactly(w: World, s: Step)
    requires Invariant(w) && Enabled(w, s)
    requires || s.ClaimNext? || s.LoadSeed? || s.Arm? || s.SwapDisk? || s.UndoSwap? || s.KeepSwap?
             || s.RetireAfterReinstall? || s.Finish? || s.Fail? || s.Crash?
    ensures Invariant(Apply(w, s)) <==> !Breaks(w, s)
  {
    match s
    case ClaimNext(_, _) => ClaimIsSafe(w, s);
    case LoadSeed => LoadSeedIsSafeExactly(w);
    case Arm => ArmIsSafe(w);
    case SwapDisk => SwapOutIsSafe(w);
    case UndoSwap => UndoSwapIsSafe(w);
    case KeepSwap => KeepSwapIsSafe(w);
    case RetireAfterReinstall => RetireIsSafeExactly(w);
    case Finish(_) => EndOfJobIsSafe(w, s);
    case Fail(_, _) => EndOfJobIsSafe(w, s);
    case Crash(_) => CrashIsSafe(w, s);
  }

  lemma TableStepDoesNotBreak(w: World, s: Step)
    requires IsTableStep(s)
    ensures !Breaks(w, s)
  {
  }

  lemma DisabledStepDoesNotBreak(w: World, s: Step)
    requires !Enabled(w, s)
    ensures !Breaks(w, s) && Next(w, s) == w
  {
  }

  lemma EnabledStepApplies(w: World, s: Step)
    requires Enabled(w, s)
    ensures Next(w, s) == Apply(w, s)
  {
  }

  /** Whatever requests, worker and crashes do, a step keeps every key usable if and only if it
      is none of those that `Breaks` describes. */
  lemma StepIsSafeExactly(w: World, s: Step)
    requires Invariant(w)
    ensures Invariant(Next(w, s)) <==> !Breaks(w, s)
  {
    if !Enabled(w, s) {
      DisabledStepDoesNotBreak(w, s);
    } else {
      EnabledStepApplies(w, s);
      if IsTableStep(s) {
        TableStepIsSafe(w, s);
        TableStepDoesNotBreak(w, s);
      } else if s.Configure? || s.DeleteConfiguration? || s.Stage? || s.Handshake? {
        RotationRequestIsSafeExactly(w, s);
      } else {
        WorkerStepIsSafeExactly(w, s);
      }
    }
  }

  /** No step along the run breaks. */
  ghost predicate Careful(w: World, steps: seq<Step>)
    decreases |steps|
  {
    steps == [] || (!Breaks(w, steps[0]) && Careful(Next(w, steps[0]), steps[1..]))
  }

  lemma {:induction false} RunIsSafe(w: World, steps: seq<Step>)
    requires Invariant(w) && Careful(w, steps)
    ensures Invariant(Run(w, steps))
    decreases |steps|
  {
    if steps != [] {
      StepIsSafeExactly(w, steps[0]);
      RunIsSafe(Next(w, steps[0]), steps[1..]);
    }
  }

  /** Every state along a run is consistent if and only if no step of it breaks. */
  lemma {:induction false} RunIsSafeExactly(w: World, steps: seq<Step>)
    requires Invariant(w)
    ensures Careful(w, steps) <==> forall i :: 0 <= i <= |steps| ==> Invariant(Run(w, steps[..i]))
    decreases |steps|
  {
    if steps != [] {
      var next, rest := Next(w, steps[0]), steps[1..];
      StepIsSafeExactly(w, steps[0]);
      forall i | 0 <= i < |steps| ensures Run(w, steps[..i + 1]) == Run(next, rest[..i]) {
        assert steps[..i + 1][1..] == rest[..i];
      }
      assert Run(w, steps[..0]) == w;
      assert Run(next, rest[..0]) == next;
      if Invariant(next) { RunIsSafeExactly(next, rest); }
      if Careful(w, steps) {
        forall i | 0 <= i <= |steps| ensures Invariant(Run(w, steps[..i])) {
          if i > 0 { assert Run(w, steps[..(i - 1) + 1]) == Run(next, rest[..i - 1]); }
        }
      }
      if forall i :: 0 <= i <= |steps| ==> Invariant(Run(w, steps[..i])) {
        assert Run(w, steps[..0 + 1]) == Run(next, rest[..0]);
        forall i | 0 <= i <= |rest| ensures Invariant(Run(next, rest[..i])) {
          assert Run(w, steps[..i + 1]) == Run(next, rest[..i]);
        }
      }
    }
  }

  /** In every state reachable from an empty installation without a step that breaks, with
      process deaths allowed between any two steps, the channel key on a guest disk is the
      active key or the pending key of an armed generation. */
  lemma DiskKeyAlwaysUsable(steps: seq<Step>)
    requires Careful(EmptyWorld, steps)
    ensures var w := Run(EmptyWorld, steps);
            forall v :: v in w.disk ==> KeyOk(w.db, v, w.disk[v])
  {
    RunIsSafe(EmptyWorld, steps);
  }
}
