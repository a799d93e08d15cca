/** What each database transaction of the control plane does to the tables.

    `Database.with_transaction` makes every operation one atomic step, so an
    operation is a function from the tables before it to the tables after it; the
    class in Database.dfy carries the operations out statement by statement. */
module ControlPlane {
  import opened Basics
  import opened Records

  // --- Looking up jobs --------------------------------------------------------

  predicate HasKey(jobs: map<JobId, Job>, id: JobId, key: string) {
    id in jobs && jobs[id].key == Some(key)
  }

  ghost function JobByKey(jobs: map<JobId, Job>, key: Option<string>): (r: Option<JobId>)
    ensures r.Some? ==> key.Some? && HasKey(jobs, r.value, key.value)
    ensures r.None? && key.Some? ==> forall id :: !HasKey(jobs, id, key.value)
  {
    if key.Some? && exists id :: HasKey(jobs, id, key.value)
    then var id :| HasKey(jobs, id, key.value); Some(id)
    else None
  }

  /** The jobs that compete with a request: live, of the same kind, for the same VM
      and, for a bootstrap, for the same expected generation. */
  predicate Competes(j: Job, kind: Kind, vm: Option<VmId>, generation: Option<string>) {
    && IsLive(j) && j.kind == kind && j.vm == vm
    && (kind == GuestBootstrap ==> j.payload.expectedGeneration == generation)
  }

  predicate IsCompetitor(
    jobs: map<JobId, Job>, id: JobId, kind: Kind, vm: Option<VmId>, generation: Option<string>)
  {
    id in jobs && Competes(jobs[id], kind, vm, generation)
  }

  ghost function Competitor(
    jobs: map<JobId, Job>, kind: Kind, vm: Option<VmId>, generation: Option<string>): (r: Option<JobId>)
    ensures r.Some? ==> IsCompetitor(jobs, r.value, kind, vm, generation)
    ensures r.None? ==> forall id :: !IsCompetitor(jobs, id, kind, vm, generation)
  {
    if exists id :: IsCompetitor(jobs, id, kind, vm, generation)
    then var id :| IsCompetitor(jobs, id, kind, vm, generation); Some(id)
    else None
  }

  /** Idempotency keys are unique: the index `idx_jobs_idempotency`. */
  ghost predicate KeysUnique(jobs: map<JobId, Job>) {
    forall a, b, k :: HasKey(jobs, a, k) && HasKey(jobs, b, k) ==> a == b
  }

  predicate IsDedicated(kind: Kind) {
    kind == VmReinstall || kind == VmDelete || kind == GuestBootstrap
  }

  /** At most one live reinstall and one live delete per VM, and one live bootstrap
      per VM and expected generation. */
  ghost predicate LiveJobsUnique(jobs: map<JobId, Job>) {
    forall a, b, kind, v, g ::
      IsDedicated(kind) && IsCompetitor(jobs, a, kind, Some(v), g) && IsCompetitor(jobs, b, kind, Some(v), g)
      ==> a == b
  }

  /** The foreign keys of `jobs` and `vm_guest_tools` into `vms`. */
  ghost predicate ReferencesResolve(db: Db) {
    && db.tools.Keys <= db.vms.Keys
    && forall id :: id in db.jobs && db.jobs[id].vm.Some? ==> db.jobs[id].vm.value in db.vms
  }

  // --- Enqueueing -------------------------------------------------------------

  function QueuedJob(req: NewJob, payload: Payload, key: Option<string>, now: int): Job {
    Job(req.kind, req.vm, Queued, payload, key, 0,
        if req.maxAttempts < 1 then 1 else req.maxAttempts,
        if req.runAfter.Some? then req.runAfter.value else now,
        None, now, None)
  }

  predicate SameRequest(j: Job, req: NewJob) {
    j.kind == req.kind && j.vm == req.vm && j.payload == req.payload
  }

  /** A reinstall is compared without the credential staged into its payload. */
  predicate SameReinstall(j: Job, req: NewJob) {
    j.kind == req.kind && j.vm == req.vm && WithoutStagedPassword(j.payload) == req.payload
  }

  function Insert(db: Db, id: JobId, job: Job): (Db, Result<JobId>) {
    if job.vm.Some? && job.vm.value !in db.vms then (db, Err(Storage))
    else (db.(jobs := db.jobs[id := job]), Ok(id))
  }

  ghost function EnqueueJob(db: Db, id: JobId, req: NewJob, now: int): (Db, Result<JobId>) {
    match JobByKey(db.jobs, req.key)
    case Some(existing) =>
      (db, if SameRequest(db.jobs[existing], req) then Ok(existing) else Err(Conflict))
    case None => Insert(db, id, QueuedJob(req, req.payload, req.key, now))
  }

  ghost function EnqueueBootstrap(db: Db, id: JobId, req: NewJob, now: int): (Db, Result<JobId>) {
    if req.kind != GuestBootstrap || req.vm.None? then (db, Err(Validation))
    else if req.payload.expectedGeneration.Some? && !IsCanonicalUuid(req.payload.expectedGeneration.value)
    then (db, Err(Validation))
    else match Competitor(db.jobs, GuestBootstrap, req.vm, req.payload.expectedGeneration)
      case Some(active) => (db, Ok(active))
      case None => Insert(db, id, QueuedJob(req, req.payload, None, now))
  }

  ghost function EnqueueDelete(db: Db, id: JobId, req: NewJob, now: int): (Db, Result<JobId>) {
    if req.kind != VmDelete || req.vm.None? then (db, Err(Validation))
    else match JobByKey(db.jobs, req.key)
      case Some(existing) =>
        (db, if SameRequest(db.jobs[existing], req) then Ok(existing) else Err(Conflict))
      case None =>
        match Competitor(db.jobs, VmDelete, req.vm, None)
        case Some(active) => (db, Ok(active))
        case None => Insert(db, id, QueuedJob(req, req.payload, req.key, now))
  }

  predicate ReinstallRequestValid(req: NewJob, envelope: Option<string>) {
    && req.kind == VmReinstall && req.vm.Some?
    && req.payload.stagedPassword.None?
    && !(envelope.Some? && req.payload.clearPassword)
  }

  ghost function EnqueueReinstall(
    db: Db, id: JobId, req: NewJob, envelope: Option<string>, desired: VmState, now: int): (Db, Result<JobId>)
  {
    if !ReinstallRequestValid(req, envelope) then (db, Err(Validation))
    else match JobByKey(db.jobs, req.key)
      case Some(existing) =>
        (db, if SameReinstall(db.jobs[existing], req) then Ok(existing) else Err(Conflict))
      case None =>
        var v := req.vm.value;
        if Competitor(db.jobs, VmReinstall, req.vm, None).Some? then (db, Err(Conflict))
        else if v !in db.vms then (db, Err(NotFound))
        else
          var payload := req.payload.(stagedPassword := envelope);
          (db.(vms := db.vms[v := db.vms[v].(state := Reinstalling, desired := desired)],
               jobs := db.jobs[id := QueuedJob(req, payload, req.key, now)]),
           Ok(id))
  }

  // --- The life of a job ------------------------------------------------------

  predicate Claimable(j: Job, now: int) {
    j.status == Queued && j.runAfter <= now && j.attempts < j.maxAttempts
  }

  predicate ClaimedBefore(a: Job, b: Job) {
    a.runAfter < b.runAfter || (a.runAfter == b.runAfter && a.createdAt <= b.createdAt)
  }

  /** A job the claim query may return: due, with budget, and first in its order. */
  ghost predicate IsNextClaim(jobs: map<JobId, Job>, id: JobId, now: int) {
    && id in jobs && Claimable(jobs[id], now)
    && forall o :: o in jobs && Claimable(jobs[o], now) ==> ClaimedBefore(jobs[id], jobs[o])
  }

  function Claimed(j: Job, now: int): Job {
    j.(status := Running, attempts := j.attempts + 1, lockedAt := Some(now))
  }

  function Claim(db: Db, id: JobId, now: int): Db
    requires id in db.jobs
  {
    db.(jobs := db.jobs[id := Claimed(db.jobs[id], now)])
  }

  /** Every terminal transition drops the staged credential with the lock. */
  function Ended(j: Job, status: Status, now: int): Job {
    j.(status := status, lockedAt := None, finishedAt := Some(now), payload := WithoutStagedPassword(j.payload))
  }

  function FinishJob(db: Db, id: JobId, now: int): (Db, Result<()>) {
    if id !in db.jobs || db.jobs[id].status != Running then (db, Err(NotFound))
    else (db.(jobs := db.jobs[id := Ended(db.jobs[id], Succeeded, now)]), Ok(()))
  }

  predicate WillRetry(j: Job, retryAt: Option<int>) {
    retryAt.Some? && j.attempts < j.maxAttempts
  }

  function Rescheduled(j: Job, retryAt: Option<int>): Job {
    if retryAt.Some? then j.(runAfter := retryAt.value) else j
  }

  function FailedRow(j: Job, retryAt: Option<int>, now: int): Job {
    if WillRetry(j, retryAt) then Rescheduled(j, retryAt).(status := Queued, lockedAt := None, finishedAt := None)
    else Ended(Rescheduled(j, retryAt), Failed, now)
  }

  function FailJob(db: Db, id: JobId, retryAt: Option<int>, now: int): (Db, Result<()>) {
    if id !in db.jobs then (db, Err(NotFound))
    else if db.jobs[id].status != Running then (db, Err(Conflict))
    else
      var j := db.jobs[id];
      (db.(tools := if WillRetry(j, retryAt) then db.tools else CleanupUnarmed(db.tools, j),
           jobs := db.jobs[id := FailedRow(j, retryAt, now)]),
       Ok(()))
  }

  function DropPending(row: Tools): Tools {
    row.(pending := None)
  }

  /** The exact unarmed generation a reinstall job staged, if it is still there. */
  predicate StagedBy(j: Job, v: VmId, row: Tools) {
    && IsReinstallOf(j, v) && j.payload.generation.Some?
    && 0 < |j.payload.generation.value| <= 64
    && HasUnarmed(row, j.payload.generation.value)
  }

  /** The row of VM `v` once the unarmed generation staged by `j` is rolled back. */
  function CleanRow(j: Job, v: VmId, row: Tools): Option<Tools> {
    if !StagedBy(j, v, row) then Some(row)
    else if j.payload.newConfiguration then None
    else Some(DropPending(row))
  }

  function PutRow(tools: map<VmId, Tools>, v: VmId, row: Option<Tools>): map<VmId, Tools> {
    if row.Some? then tools[v := row.value] else tools - {v}
  }

  function CleanupUnarmed(tools: map<VmId, Tools>, j: Job): map<VmId, Tools> {
    if j.vm.Some? && j.vm.value in tools
    then PutRow(tools, j.vm.value, CleanRow(j, j.vm.value, tools[j.vm.value]))
    else tools
  }

  /** A deleted VM keeps its jobs, with `vm_id` set to null, and loses its tools row. */
  function DetachJobs(jobs: map<JobId, Job>, v: VmId): map<JobId, Job> {
    map id | id in jobs :: if jobs[id].vm == Some(v) then jobs[id].(vm := None) else jobs[id]
  }

  function RemoveVm(db: Db, v: VmId): Db {
    Db(db.vms - {v}, db.tools - {v}, DetachJobs(db.jobs, v))
  }

  function DeleteVm(db: Db, v: VmId): (Db, Result<()>) {
    if v !in db.vms then (db, Err(NotFound)) else (RemoveVm(db, v), Ok(()))
  }

  function CancelJob(db: Db, id: JobId, now: int): (Db, Result<()>) {
    if id !in db.jobs then (db, Err(NotFound))
    else if db.jobs[id].status != Queued then (db, Err(Conflict))
    else
      var j := db.jobs[id];
      var cancelled := db.(jobs := db.jobs[id := Ended(j, Cancelled, now)]);
      var after :=
        if j.kind == VmCreate && j.vm.Some? then
          var v := j.vm.value;
          if v in db.vms && db.vms[v].state == Creating && !db.vms[v].domainDefined
          then RemoveVm(cancelled, v) else cancelled
        else if j.kind == VmReinstall && j.vm.Some? then
          var v := j.vm.value;
          cancelled.(
            tools := CleanupUnarmed(db.tools, j),
            vms := if v in db.vms && db.vms[v].state == Reinstalling
                   then db.vms[v := db.vms[v].(state := Unknown)] else db.vms)
        else cancelled;
      (after, Ok(()))
  }

  // --- Recovery after a process death -----------------------------------------

  /** A delete whose VM row is gone but whose target is still named in its payload. */
  predicate IsDeleteFinalizer(j: Job) {
    && j.status == Running && j.kind == VmDelete && j.vm.None?
    && j.payload.targetVmId.Some? && j.payload.targetVmName.Some?
  }

  function Requeued(j: Job, now: int): Job {
    j.(status := Queued, lockedAt := None, runAfter := now)
  }

  function GrantFinalizer(j: Job, now: int): Job {
    Requeued(j, now).(maxAttempts := if j.maxAttempts < j.attempts + 1 then j.attempts + 1 else j.maxAttempts)
  }

  function RecoveredJob(j: Job, now: int): Job {
    if j.status != Running then j
    else if IsDeleteFinalizer(j) then GrantFinalizer(j, now)
    else if j.attempts < j.maxAttempts then Requeued(j, now)
    else Ended(j, Failed, now)
  }

  predicate LeavesVmFaulted(j: Job, v: VmId) {
    IsExhausted(j) && (j.kind == VmCreate || j.kind == VmReinstall) && j.vm == Some(v)
  }

  predicate AnyLeavesVmFaulted(jobs: map<JobId, Job>, v: VmId) {
    exists id :: id in jobs && LeavesVmFaulted(jobs[id], v)
  }

  function RecoveredVm(jobs: map<JobId, Job>, v: VmId, vm: Vm): Vm {
    if AnyLeavesVmFaulted(jobs, v) then vm.(state := Faulted) else vm
  }

  /** An exhausted reinstall of `v` that staged the row's unarmed generation. */
  predicate Abandons(j: Job, v: VmId, row: Tools) {
    IsExhausted(j) && StagedBy(j, v, row)
  }

  predicate AbandonedBy(jobs: map<JobId, Job>, id: JobId, v: VmId, row: Tools) {
    id in jobs && Abandons(jobs[id], v, row)
  }

  /** A live reinstall job of `v` whose payload names the row's pending generation. */
  predicate NamesPending(j: Job, v: VmId, row: Tools) {
    && IsLive(j) && IsReinstallOf(j, v)
    && row.pending.Some? && j.payload.generation == Some(row.pending.value.generation)
  }

  predicate PendingNamed(jobs: map<JobId, Job>, v: VmId, row: Tools) {
    exists id :: id in jobs && NamesPending(jobs[id], v, row)
  }

  predicate Unarmed(row: Tools) {
    row.pending.Some? && !row.pending.value.armed
  }

  predicate AuthenticatedSince(row: Tools, lockedAt: Option<int>) {
    row.status == Ready && row.lastSeenAt.Some? && lockedAt.Some? && row.lastSeenAt.value >= lockedAt.value
  }

  /** Jobs that died with no attempt left and leave the tools of `v` in error. */
  predicate LeavesToolsFailing(j: Job, v: VmId, row: Tools) {
    && IsExhausted(j) && j.vm == Some(v)
    && match j.kind
       case VmReinstall => j.payload.generation.Some? && HasArmed(row, j.payload.generation.value)
       case VmCreate => true
       case GuestBootstrap =>
         if row.pending.Some? && row.pending.value.armed
         then j.payload.expectedGeneration == Some(row.pending.value.generation)
         else j.payload.expectedGeneration.None? && !AuthenticatedSince(row, j.lockedAt)
       case _ => false
  }

  predicate AnyLeavesToolsFailing(jobs: map<JobId, Job>, v: VmId, row: Tools) {
    exists id :: id in jobs && LeavesToolsFailing(jobs[id], v, row)
  }

  function MarkFailing(jobs: map<JobId, Job>, v: VmId, row: Tools): Tools {
    if AnyLeavesToolsFailing(jobs, v, row) then row.(status := Failing) else row
  }

  /** The row of `v` with an abandoned unarmed generation rolled back. */
  ghost function RolledBackRow(jobs: map<JobId, Job>, v: VmId, row: Tools): Option<Tools> {
    if exists id :: AbandonedBy(jobs, id, v, row)
    then var id :| AbandonedBy(jobs, id, v, row); CleanRow(jobs[id], v, row)
    else Some(row)
  }

  /** The row of `v` after recovery: abandoned generations are rolled back, then
      unarmed generations no live reinstall names, and then the status is set. */
  ghost function RecoveredRow(jobs: map<JobId, Job>, v: VmId, row: Tools): Option<Tools> {
    match RolledBackRow(jobs, v, row)
    case None => None
    case Some(kept) =>
      var swept := if Unarmed(kept) && !PendingNamed(jobs, v, kept) then DropPending(kept) else kept;
      Some(MarkFailing(jobs, v, swept))
  }

  /** Recovery removes a row only together with an abandoned first configuration, and a
      generation only while it is unarmed and neither abandoned nor unclaimed. */
  lemma RecoveredRowCases(jobs: map<JobId, Job>, v: VmId, row: Tools)
    ensures match RecoveredRow(jobs, v, row)
            case None =>
              Unarmed(row) && exists id :: AbandonedBy(jobs, id, v, row) && jobs[id].payload.newConfiguration
            case Some(after) =>
              && after.active == row.active && after.enabled == row.enabled
              && (after.pending == row.pending || (Unarmed(row) && after.pending.None?))
              && (Unarmed(after) ==> PendingNamed(jobs, v, row) && forall id :: !AbandonedBy(jobs, id, v, row))
  {
  }

  ghost function Recover(db: Db, now: int): Db {
    Db(map v | v in db.vms :: RecoveredVm(db.jobs, v, db.vms[v]),
       map v | v in db.tools && RecoveredRow(db.jobs, v, db.tools[v]).Some? ::
         RecoveredRow(db.jobs, v, db.tools[v]).value,
       map id | id in db.jobs :: RecoveredJob(db.jobs[id], now))
  }

  /** `after` is what recovery makes of `db`, table by table and row by row. */
  ghost predicate IsRecovered(db: Db, after: Db, now: int) {
    && after.vms.Keys == db.vms.Keys
    && (forall v :: v in db.vms ==> after.vms[v] == RecoveredVm(db.jobs, v, db.vms[v]))
    && after.tools.Keys <= db.tools.Keys
    && (forall v :: v in db.tools ==>
          match RecoveredRow(db.jobs, v, db.tools[v])
          case None => v !in after.tools
          case Some(row) => v in after.tools && after.tools[v] == row)
    && after.jobs.Keys == db.jobs.Keys
    && (forall id :: id in db.jobs ==> after.jobs[id] == RecoveredJob(db.jobs[id], now))
  }

  lemma RecoverByRows(db: Db, now: int)
    ensures IsRecovered(db, Recover(db, now), now)
  {
  }

  // --- Guest credentials ------------------------------------------------------

  function CommitReinstallPassword(db: Db, id: JobId): (Db, Result<()>) {
    if id !in db.jobs then (db, Err(NotFound))
    else
      var j := db.jobs[id];
      if j.kind != VmReinstall then (db, Err(Validation))
      else if j.status != Running || j.vm.None? then (db, Err(Conflict))
      else if j.payload.clearPassword && j.payload.stagedPassword.Some? then (db, Err(Validation))
      else if j.vm.value !in db.vms then (db, Err(NotFound))
      else
        var v := j.vm.value;
        var password := if j.payload.clearPassword then None
                        else if j.payload.stagedPassword.Some? then j.payload.stagedPassword
                        else db.vms[v].password;
        (db.(vms := db.vms[v := db.vms[v].(password := password)]), Ok(()))
  }

  function SetPassword(db: Db, v: VmId, password: Option<string>): (Db, Result<()>) {
    if v !in db.vms then (db, Err(NotFound))
    else (db.(vms := db.vms[v := db.vms[v].(password := password)]), Ok(()))
  }

  // --- Guest-tools channel keys -----------------------------------------------

  function NewTools(v: VmId, secret: Secret, install: Install): Tools {
    Tools(true, Encrypt(secret, ActiveKey(v)), install, None, ToolsStatus.Pending, None, None)
  }

  /** Insert or overwrite the configuration, unless a rotation is armed. */
  function ConfigureTools(db: Db, v: VmId, secret: Secret, install: Install): (Db, Result<()>) {
    if v in db.tools && db.tools[v].pending.Some? && db.tools[v].pending.value.armed then (db, Err(Conflict))
    else if v !in db.vms then (db, Err(Storage))
    else (db.(tools := db.tools[v := NewTools(v, secret, install)]), Ok(()))
  }

  function DeleteToolsConfiguration(db: Db, v: VmId): (Db, Result<()>) {
    if v !in db.tools then (db, Err(NotFound))
    else if db.tools[v].pending.Some? && db.tools[v].pending.value.armed then (db, Err(Conflict))
    else (db.(tools := db.tools - {v}), Ok(()))
  }

  function RetireTools(db: Db, v: VmId): (Db, bool) {
    (db.(tools := db.tools - {v}), v in db.tools)
  }

  function StageRotation(
    db: Db, v: VmId, generation: string, secret: Secret, install: Install): (Db, Result<string>)
  {
    if v !in db.tools then (db, Err(NotFound))
    else if !db.tools[v].enabled || db.tools[v].pending.Some? then (db, Err(Conflict))
    else
      var rotation := Rotation(generation, Encrypt(secret, PendingKey(v, generation)), install, false);
      (db.(tools := db.tools[v := db.tools[v].(pending := Some(rotation))]), Ok(generation))
  }

  predicate PendingIs(db: Db, v: VmId, generation: string) {
    && v in db.tools && db.tools[v].enabled
    && db.tools[v].pending.Some? && db.tools[v].pending.value.generation == generation
  }

  function GenerationMismatch(db: Db, v: VmId): Error {
    if v in db.tools then Conflict else NotFound
  }

  function MarkInstalled(db: Db, v: VmId, generation: string): (Db, Result<()>) {
    if !IsCanonicalUuid(generation) then (db, Err(Validation))
    else if !PendingIs(db, v, generation) then (db, Err(GenerationMismatch(db, v)))
    else
      var row := db.tools[v];
      (db.(tools := db.tools[v := row.(pending := Some(row.pending.value.(armed := true)),
                                       status := ToolsStatus.Pending)]),
       Ok(()))
  }

  function PromotedRow(v: VmId, row: Tools, secret: Secret, now: int): Tools
    requires row.pending.Some?
  {
    var p := row.pending.value;
    row.(active := Encrypt(secret, ActiveKey(v)), install := p.install,
         installedVersion := Some(p.install.version), status := Ready,
         lastSeenAt := Some(now), pending := None)
  }

  function Promote(db: Db, v: VmId, generation: string, version: string, now: int): (Db, Result<()>) {
    if !IsCanonicalUuid(generation) then (db, Err(Validation))
    else if !PendingIs(db, v, generation) || !db.tools[v].pending.value.armed
    then (db, Err(GenerationMismatch(db, v)))
    else
      var p := db.tools[v].pending.value;
      if version != p.install.version then (db, Err(Conflict))
      else match Decrypt(p.envelope, PendingKey(v, generation))
        case None => (db, Err(Internal))
        case Some(secret) =>
          (db.(tools := db.tools[v := PromotedRow(v, db.tools[v], secret, now)]), Ok(()))
  }

  function DiscardRotation(db: Db, v: VmId, generation: string): (Db, Result<()>) {
    if !IsCanonicalUuid(generation) then (db, Err(Validation))
    else if !PendingIs(db, v, generation) then (db, Err(GenerationMismatch(db, v)))
    else if db.tools[v].pending.value.armed then (db, Err(Conflict))
    else (db.(tools := db.tools[v := DropPending(db.tools[v])]), Ok(()))
  }

  /** An authenticated or failed contact; an armed rotation hides 'ready'. */
  function UpdateToolsStatus(
    db: Db, v: VmId, status: ToolsStatus, version: Option<string>, contacted: bool, now: int): (Db, Result<()>)
  {
    if v !in db.tools || !db.tools[v].enabled then (db, Err(NotFound))
    else
      var row := db.tools[v];
      var armed := row.pending.Some? && row.pending.value.armed;
      (db.(tools := db.tools[v := row.(
          status := if armed && status == Ready then ToolsStatus.Pending else status,
          installedVersion := if armed || version.None? then row.installedVersion else version,
          lastSeenAt := if contacted then Some(now) else row.lastSeenAt)]),
       Ok(()))
  }

  /** The key the panel authenticates with: pending once armed, active before. */
  function ClientSecret(db: Db, v: VmId): Option<Secret> {
    if v !in db.tools || !db.tools[v].enabled then None
    else
      var row := db.tools[v];
      if row.pending.Some? && row.pending.value.armed
      then Decrypt(row.pending.value.envelope, PendingKey(v, row.pending.value.generation))
      else Decrypt(row.active, ActiveKey(v))
  }

  // --- Requests made of several transactions ------------------------------------

  /** The form of a request fingerprint: a SHA-256 digest in hexadecimal. */
  predicate IsFingerprint(s: string) {
    |s| == 64 && forall i :: 0 <= i < |s| ==> IsLowerHex(s[i])
  }

  /** A failed reinstall with the fingerprint whose generation is still armed. */
  predicate LeftArmed(db: Db, id: JobId, v: VmId, fingerprint: string) {
    && id in db.jobs && IsReinstallOf(db.jobs[id], v) && db.jobs[id].status == Failed
    && db.jobs[id].payload.fingerprint == Some(fingerprint) && db.jobs[id].payload.generation.Some?
    && v in db.tools && db.tools[v].enabled && HasArmed(db.tools[v], db.jobs[id].payload.generation.value)
  }

  predicate AnyLeftArmed(db: Db, v: VmId, fingerprint: string) {
    exists id :: id in db.jobs && LeftArmed(db, id, v, fingerprint)
  }

  /** What a reinstall request gets to put into its job. */
  datatype Staged = Staged(generation: string, newConfiguration: bool)

  /** Prepare a reinstall with tools, undisturbed: reuse the generation that a failed attempt
      at the same request left armed, or stage a new one, first configuring the tools if there
      is no enabled record. `socketOk` says whether the channel has a valid path. */
  function StageRequest(
    db: Db, v: VmId, fingerprint: string, generation: string, placeholder: Secret, secret: Secret,
    install: Install, socketOk: bool): (Db, Result<Staged>)
  {
    if !IsFingerprint(fingerprint) then (db, Err(Validation))
    else if AnyLeftArmed(db, v, fingerprint) then
      var left := db.tools[v].pending.value;
      (db, if left.install != install then Err(Conflict)
           else if !socketOk then Err(Validation) else Ok(Staged(left.generation, false)))
    else
      var newConfiguration := !(v in db.tools && db.tools[v].enabled);
      var (configured, outcome) := if newConfiguration then ConfigureTools(db, v, placeholder, install) else (db, Ok(()));
      if outcome.Err? then (configured, Err(outcome.error))
      else
        var (staged, stage) := StageRotation(configured, v, generation, secret, install);
        if stage.Err? then
          (if newConfiguration then DeleteToolsConfiguration(configured, v).0 else configured, Err(stage.error))
        else if !socketOk then (CleanupRequest(staged, v, generation, newConfiguration), Err(Validation))
        else (staged, Ok(Staged(generation, newConfiguration)))
  }

  /** Undo a stage whose job could not be queued, undisturbed. */
  function CleanupRequest(db: Db, v: VmId, generation: string, newConfiguration: bool): Db {
    var (discarded, outcome) := DiscardRotation(db, v, generation);
    if outcome.Ok? && newConfiguration then DeleteToolsConfiguration(discarded, v).0 else discarded
  }

  /** A disabled record that the request may configure again. */
  predicate Reconfigures(db: Db, v: VmId, fingerprint: string) {
    && IsFingerprint(fingerprint) && v in db.vms && v in db.tools && !db.tools[v].enabled
    && !(db.tools[v].pending.Some? && db.tools[v].pending.value.armed)
  }

  /** A request that is refused, whatever for, leaves the tables as they were, except that it
      deletes a disabled record that it had configured again. */
  lemma RefusedRequestLeavesNothing(
    db: Db, v: VmId, fingerprint: string, generation: string, placeholder: Secret, secret: Secret,
    install: Install, socketOk: bool)
    requires IsCanonicalUuid(generation)
    ensures var (after, r) := StageRequest(db, v, fingerprint, generation, placeholder, secret, install, socketOk);
            r.Err? ==>
              && (after == db <==> !Reconfigures(db, v, fingerprint))
              && (Reconfigures(db, v, fingerprint) ==> after == db.(tools := db.tools - {v}))
  {
    var (after, r) := StageRequest(db, v, fingerprint, generation, placeholder, secret, install, socketOk);
    if r.Err? && !AnyLeftArmed(db, v, fingerprint) {
      if Reconfigures(db, v, fingerprint) {
        assert after.tools == db.tools - {v};
      } else {
        assert after.tools == db.tools;
      }
    }
  }
}
