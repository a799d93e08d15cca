/** The control plane together with what lies outside its database: the single job
    worker, the channel key each guest disk carries, and every generation ever
    handed out. Any process may die between two steps. */
module Deployment {
  import opened Basics
  import opened Records
  import opened ControlPlane

  /** Memory of the worker while it executes one claimed job; lost in a crash.
      `loaded` is the key in the seed it has built, `saved` the key of the disk set aside
      while a replacement is swapped in, and `replaced` says that the swap is complete. */
  datatype Worker = Worker(
    job: JobId, loaded: Option<Secret>, armed: bool, saved: Option<Option<Secret>>, replaced: bool)

  /** `provisional` holds the generations staged by requests that had found no enabled
      record and configured one first (`new_configuration`). */
  datatype World = World(
    db: Db,
    worker: Option<Worker>,
    disk: map<VmId, Secret>,
    used: set<string>,
    provisional: set<string>)

  const EmptyWorld := World(Db(map[], map[], map[]), None, map[], {}, {})

  datatype Step =
    // API requests
    | CreateVm(vm: VmId, row: Vm)
    | RemoveVmRow(vm: VmId)
    | ObserveVm(vm: VmId, state: VmState, desired: VmState, defined: bool)
    | StorePassword(vm: VmId, password: Option<string>)
    | Enqueue(id: JobId, req: NewJob, now: int)
    | QueueBootstrap(id: JobId, req: NewJob, now: int)
    | QueueDelete(id: JobId, req: NewJob, now: int)
    | QueueReinstall(id: JobId, req: NewJob, envelope: Option<string>, desired: VmState, now: int)
    | Cancel(id: JobId, now: int)
    | Configure(vm: VmId, secret: Secret, install: Install)
    | Stage(vm: VmId, generation: string, secret: Secret, install: Install, newConfiguration: bool)
    | DiscardStage(vm: VmId, generation: string)
    | DeleteConfiguration(vm: VmId)
    | ReportStatus(vm: VmId, status: ToolsStatus, reported: Option<string>, contacted: bool, now: int)
    | Handshake(vm: VmId, generation: string, version: string, now: int)
    // The worker
    | ClaimNext(id: JobId, now: int)
    | LoadSeed
    | Arm
    | SwapDisk
    | UndoSwap
    | KeepSwap
    | CommitPassword
    | RetireAfterReinstall
    | Finish(now: int)
    | Fail(retryAt: Option<int>, now: int)
    // Process death and restart
    | Crash(oldDiskBack: bool)
    | RecoverJobs(now: int)

  // --- The worker's view ------------------------------------------------------

  function WorkerJob(w: World): Option<Job> {
    if w.worker.Some? && w.worker.value.job in w.db.jobs then Some(w.db.jobs[w.worker.value.job]) else None
  }

  /** The VM whose job the worker is executing, while that VM still exists. */
  function WorkerVm(w: World): Option<VmId> {
    if WorkerJob(w).Some? then WorkerJob(w).value.vm else None
  }

  function WorkerGeneration(w: World): Option<string> {
    if WorkerJob(w).Some? && WorkerJob(w).value.kind == VmReinstall
    then WorkerJob(w).value.payload.generation else None
  }

  predicate WorkerRuns(w: World, kind: Kind) {
    WorkerJob(w).Some? && WorkerJob(w).value.kind == kind && WorkerVm(w).Some?
  }

  /** The key a seed for `v` carries: the pending one if there is one, else the active one. */
  function SeedSecret(db: Db, v: VmId): Option<Secret> {
    if v !in db.tools || !db.tools[v].enabled then None
    else if db.tools[v].pending.Some?
    then Decrypt(db.tools[v].pending.value.envelope, PendingKey(v, db.tools[v].pending.value.generation))
    else Decrypt(db.tools[v].active, ActiveKey(v))
  }

  function PutKey(disk: map<VmId, Secret>, v: VmId, key: Option<Secret>): map<VmId, Secret> {
    if key.Some? then disk[v := key.value] else disk - {v}
  }

  function DiskKey(w: World, v: VmId): Option<Secret> {
    if v in w.disk then Some(w.disk[v]) else None
  }

  predicate Swapping(w: World, v: VmId) {
    WorkerVm(w) == Some(v) && w.worker.value.saved.Some?
  }

  // --- When a step can be taken -----------------------------------------------

  /** Identifiers and secrets of new rows are new; a reinstall names a generation that a
      request staged; a guest proves the key it has; and the worker runs one job at a time,
      in the order of its code: build the seed, arm the generation its job names, replace the
      disk, and only then commit and retire. Requests interleave freely with each other and
      with the worker. */
  ghost predicate Enabled(w: World, s: Step) {
    match s
    case CreateVm(v, row) => v !in w.db.vms && v !in w.disk
    case RemoveVmRow(_) => true
    case ObserveVm(v, _, _, _) => v in w.db.vms
    case StorePassword(_, _) => true
    case Enqueue(id, req, _) => id !in w.db.jobs && !IsDedicated(req.kind)
    case QueueBootstrap(id, _, _) => id !in w.db.jobs
    case QueueDelete(id, _, _) => id !in w.db.jobs
    case QueueReinstall(id, req, _, _, _) =>
      && id !in w.db.jobs
      && (req.payload.generation.Some? ==> req.payload.generation.value in w.used)
      && (req.payload.generation.Some? && req.payload.newConfiguration ==>
            req.payload.generation.value in w.provisional)
    case Cancel(_, _) => true
    case Configure(v, secret, _) => IsNewSecret(w.db, v, secret)
    case Stage(v, g, secret, _, _) => IsCanonicalUuid(g) && g !in w.used && IsNewSecret(w.db, v, secret)
    case DiscardStage(_, _) => true
    case DeleteConfiguration(_) => true
    case ReportStatus(_, _, _, _, _) => true
    case Handshake(v, g, _, _) =>
      // The guest proves that it holds the armed key; it is not running mid-swap.
      PendingIs(w.db, v, g) && v in w.disk && ClientSecret(w.db, v) == Some(w.disk[v]) && !Swapping(w, v)
    case ClaimNext(id, now) => w.worker.None? && IsNextClaim(w.db.jobs, id, now)
    case LoadSeed => BeforeSwap(w) && !w.worker.value.armed
    case Arm => BeforeSwap(w) && WorkerGeneration(w).Some?
    case SwapDisk =>
      BeforeSwap(w) && (WorkerGeneration(w).Some? && w.worker.value.loaded.Some? ==> w.worker.value.armed)
    case UndoSwap => w.worker.Some? && w.worker.value.saved.Some?
    case KeepSwap => w.worker.Some? && w.worker.value.saved.Some?
    case CommitPassword => WorkerRuns(w, VmReinstall) && w.worker.value.replaced
    case RetireAfterReinstall =>
      WorkerRuns(w, VmReinstall) && w.worker.value.replaced && WorkerJob(w).value.payload.disableTools
    case Finish(_) => w.worker.Some? && w.worker.value.saved.None?
    case Fail(_, _) => w.worker.Some? && w.worker.value.saved.None?
    case Crash(_) => true
    case RecoverJobs(_) => w.worker.None?
  }

  predicate IsNewSecret(db: Db, v: VmId, secret: Secret) {
    v in db.tools ==> db.tools[v].active.secret != secret
  }

  /** The worker provisions a VM and has not begun to replace its disk. */
  predicate BeforeSwap(w: World) {
    && (WorkerRuns(w, VmReinstall) || WorkerRuns(w, VmCreate))
    && w.worker.value.saved.None? && !w.worker.value.replaced
  }

  /** The seed the worker would build now carries a key that is staged but not armed. */
  predicate SeedIsUnarmed(db: Db, v: VmId) {
    v in db.tools && db.tools[v].enabled && Unarmed(db.tools[v])
  }

  function SwappedOut(w: World): World
    requires w.worker.Some? && WorkerVm(w).Some?
  {
    w.(worker := Some(w.worker.value.(saved := Some(DiskKey(w, WorkerVm(w).value)))))
  }

  function SwappedBack(w: World): map<VmId, Secret> {
    if w.worker.Some? && w.worker.value.saved.Some? && WorkerVm(w).Some?
    then PutKey(w.disk, WorkerVm(w).value, w.worker.value.saved.value) else w.disk
  }

  /** The guest disks of VMs that still have a row. */
  function Surviving(disk: map<VmId, Secret>, db: Db): map<VmId, Secret> {
    map v | v in disk && v in db.vms :: disk[v]
  }

  /** The database after a step; the worker only acts through its own job. */
  ghost function DbAfter(w: World, s: Step): Db
    requires Enabled(w, s)
  {
    var db := w.db;
    match s
    case CreateVm(v, row) => db.(vms := db.vms[v := row])
    case RemoveVmRow(v) => DeleteVm(db, v).0
    case ObserveVm(v, state, desired, defined) =>
      db.(vms := db.vms[v := db.vms[v].(state := state, desired := desired, domainDefined := defined)])
    case StorePassword(v, password) => SetPassword(db, v, password).0
    case Enqueue(id, req, now) => EnqueueJob(db, id, req, now).0
    case QueueBootstrap(id, req, now) => EnqueueBootstrap(db, id, req, now).0
    case QueueDelete(id, req, now) => EnqueueDelete(db, id, req, now).0
    case QueueReinstall(id, req, envelope, desired, now) => EnqueueReinstall(db, id, req, envelope, desired, now).0
    case Cancel(id, now) => CancelJob(db, id, now).0
    case Configure(v, secret, install) => ConfigureTools(db, v, secret, install).0
    case Stage(v, g, secret, install, _) => StageRotation(db, v, g, secret, install).0
    case DiscardStage(v, g) => DiscardRotation(db, v, g).0
    case DeleteConfiguration(v) => DeleteToolsConfiguration(db, v).0
    case ReportStatus(v, status, version, contacted, now) =>
      UpdateToolsStatus(db, v, status, version, contacted, now).0
    case Handshake(v, g, version, now) => Promote(db, v, g, version, now).0
    case ClaimNext(id, now) => Claim(db, id, now)
    case Arm => MarkInstalled(db, WorkerVm(w).value, WorkerGeneration(w).value).0
    case CommitPassword => CommitReinstallPassword(db, w.worker.value.job).0
    case RetireAfterReinstall => RetireTools(db, WorkerVm(w).value).0
    case Finish(now) => FinishJob(db, w.worker.value.job, now).0
    case Fail(retryAt, now) => FailJob(db, w.worker.value.job, retryAt, now).0
    case RecoverJobs(now) => Recover(db, now)
    case _ => db
  }

  ghost function Apply(w: World, s: Step): World
    requires Enabled(w, s)
  {
    var db := DbAfter(w, s);
    match s
    case RemoveVmRow(_) => w.(db := db, disk := Surviving(w.disk, db))
    case Cancel(_, _) => w.(db := db, disk := Surviving(w.disk, db))
    case Stage(_, g, _, _, newConfiguration) =>
      // The generation counts as handed out even when staging was refused.
      w.(db := db, used := w.used + {g},
         provisional := if newConfiguration then w.provisional + {g} else w.provisional)
    case ClaimNext(id, _) => w.(db := db, worker := Some(Worker(id, None, false, None, false)))
    case LoadSeed => w.(worker := Some(w.worker.value.(loaded := SeedSecret(w.db, WorkerVm(w).value))))
    case Arm =>
      w.(db := db,
         worker := Some(w.worker.value.(
           armed := w.worker.value.armed || PendingIs(w.db, WorkerVm(w).value, WorkerGeneration(w).value))))
    case SwapDisk => SwappedOut(w).(disk := PutKey(w.disk, WorkerVm(w).value, w.worker.value.loaded))
    case UndoSwap => w.(disk := SwappedBack(w), worker := Some(w.worker.value.(saved := None)))
    case KeepSwap => w.(worker := Some(w.worker.value.(saved := None, replaced := true)))
    case Finish(_) => w.(db := db, worker := None)
    case Fail(_, _) => w.(db := db, worker := None)
    case Crash(oldDiskBack) => w.(disk := if oldDiskBack then SwappedBack(w) else w.disk, worker := None)
    case _ => w.(db := db)
  }

  ghost function Next(w: World, s: Step): World {
    if Enabled(w, s) then Apply(w, s) else w
  }

  lemma NextDb(w: World, s: Step)
    requires Enabled(w, s)
    ensures Next(w, s).db == DbAfter(w, s)
  {
  }

  ghost function Run(w: World, steps: seq<Step>): World
    decreases |steps|
  {
    if steps == [] then w else Run(Next(w, steps[0]), steps[1..])
  }
}
