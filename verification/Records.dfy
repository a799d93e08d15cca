/** Rows of the `vms`, `vm_guest_tools` and `jobs` tables, reduced to the columns
    that a modelled branch reads or writes. */
module Records {
  import opened Basics

  type JobId = nat

  // --- vms --------------------------------------------------------------------

  /** `Up` is the stored state 'running' and `Faulted` is 'error'. */
  datatype VmState =
    | Creating | Up | Stopped | Paused | Reinstalling | Migrating | Faulted | Unknown

  datatype Vm = Vm(state: VmState, desired: VmState, password: Option<string>, domainDefined: bool)

  // --- vm_guest_tools ---------------------------------------------------------

  type Secret = string

  /** Associated data bound into an envelope at encryption time. */
  datatype Context =
    | ActiveKey(vm: VmId)
    | PendingKey(vm: VmId, generation: string)

  /** An AES-GCM envelope, seen as the secret together with its context. */
  datatype Envelope = Envelope(secret: Secret, context: Context)

  function Encrypt(secret: Secret, context: Context): Envelope {
    Envelope(secret, context)
  }

  /** An envelope opens only under the context it was sealed with. */
  function Decrypt(envelope: Envelope, context: Context): Option<Secret> {
    if envelope.context == context then Some(envelope.secret) else None
  }

  /** `Failing` is the stored status 'error'. */
  datatype ToolsStatus = Pending | Ready | Unavailable | Failing

  /** Platform, provisioner and artifact version of one installation. */
  datatype Install = Install(platform: string, provisioner: string, version: string)

  /** The pending columns are all null or all set (migration 7), so they form one
      optional value; `armed` is the column `pending_installed`. */
  datatype Rotation = Rotation(generation: string, envelope: Envelope, install: Install, armed: bool)

  datatype Tools = Tools(
    enabled: bool,
    active: Envelope,
    install: Install,
    installedVersion: Option<string>,
    status: ToolsStatus,
    lastSeenAt: Option<int>,
    pending: Option<Rotation>)

  predicate HasUnarmed(row: Tools, generation: string) {
    row.pending.Some? && !row.pending.value.armed && row.pending.value.generation == generation
  }

  predicate HasArmed(row: Tools, generation: string) {
    row.pending.Some? && row.pending.value.armed && row.pending.value.generation == generation
  }

  predicate IsLowerHex(c: char) {
    '0' <= c <= '9' || 'a' <= c <= 'f'
  }

  /** Hyphenated lower-case form, the only one `Uuid::to_string` produces. */
  predicate IsCanonicalUuid(s: string) {
    && |s| == 36
    && forall i :: 0 <= i < |s| ==>
                     if i in {8, 13, 18, 23} then s[i] == '-' else IsLowerHex(s[i])
  }

  // --- jobs -------------------------------------------------------------------

  datatype Kind = VmCreate | VmDelete | VmReinstall | GuestBootstrap | OtherKind(name: string)

  datatype Status = Queued | Running | Succeeded | Failed | Cancelled

  /** The JSON payload: the fields some branch inspects, and `rest` for all others. */
  datatype Payload = Payload(
    stagedPassword: Option<string>,
    clearPassword: bool,
    generation: Option<string>,
    newConfiguration: bool,
    disableTools: bool,
    fingerprint: Option<string>,
    expectedGeneration: Option<string>,
    targetVmId: Option<string>,
    targetVmName: Option<string>,
    rest: string)

  function WithoutStagedPassword(p: Payload): Payload {
    p.(stagedPassword := None)
  }

  datatype Job = Job(
    kind: Kind,
    vm: Option<VmId>,
    status: Status,
    payload: Payload,
    key: Option<string>,
    attempts: nat,
    maxAttempts: nat,
    runAfter: int,
    lockedAt: Option<int>,
    createdAt: int,
    finishedAt: Option<int>)

  /** A request to enqueue a job; `maxAttempts` may be 0 and is then raised to 1. */
  datatype NewJob = NewJob(
    kind: Kind,
    vm: Option<VmId>,
    payload: Payload,
    key: Option<string>,
    runAfter: Option<int>,
    maxAttempts: nat)

  predicate IsLive(j: Job) {
    j.status == Queued || j.status == Running
  }

  predicate IsTerminal(j: Job) {
    !IsLive(j)
  }

  /** Running with no attempt left. */
  predicate IsExhausted(j: Job) {
    j.status == Running && j.attempts >= j.maxAttempts
  }

  predicate IsReinstallOf(j: Job, v: VmId) {
    j.kind == VmReinstall && j.vm == Some(v)
  }

  /** One snapshot of the three tables. */
  datatype Db = Db(vms: map<VmId, Vm>, tools: map<VmId, Tools>, jobs: map<JobId, Job>)
}
