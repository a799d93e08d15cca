/** Two runs, each made of ordinary requests that all succeed, after which a guest disk carries
    a key that is neither the active one nor that of an armed generation. */
module RotationHazards {
  import opened Basics
  import opened Records
  import opened ControlPlane
  import opened Deployment
  import opened RotationSafety
  import opened RotationLaws

  lemma {:induction false} RunAppend(w: World, a: seq<Step>, b: seq<Step>)
    ensures Run(w, a + b) == Run(Run(w, a), b)
    decreases |a|
  {
    if a == [] {
      assert a + b == b;
    } else {
      assert (a + b)[1..] == a[1..] + b;
      RunAppend(Next(w, a[0]), a[1..], b);
    }
  }

  lemma RunStep(w: World, s: Step, rest: seq<Step>)
    ensures Run(w, [s] + rest) == Run(Next(w, s), rest)
  {
    assert ([s] + rest)[1..] == rest;
  }

  // --- What the worker does -------------------------------------------------------------

  /** The worker claims a job that provisions `v`, builds its seed, replaces the disk. */
  function Provision(job: JobId, now: int): seq<Step> {
    [ClaimNext(job, now)] + ([LoadSeed] + ([SwapDisk] + [KeepSwap]))
  }

  predicate ProvisionsWithoutGeneration(j: Job, v: VmId) {
    && j.vm == Some(v)
    && (j.kind == VmCreate || (j.kind == VmReinstall && j.payload.generation.None?))
  }

  /** The seed of a job without a generation carries whatever key the record offers. */
  lemma ProvisionPutsSeedKey(w: World, job: JobId, v: VmId, now: int)
    requires w.worker.None? && IsNextClaim(w.db.jobs, job, now) && ProvisionsWithoutGeneration(w.db.jobs[job], v)
    ensures var done := Run(w, Provision(job, now));
            && done.db == Claim(w.db, job, now) && DiskKey(done, v) == SeedSecret(w.db, v)
            && done.worker.Some? && done.worker.value.job == job && done.worker.value.replaced
            && done.worker.value.saved.None? && done.worker.value.loaded == SeedSecret(w.db, v)
  {
    var w1 := Next(w, ClaimNext(job, now));
    var w2 := Next(w1, LoadSeed);
    var w3 := Next(w2, SwapDisk);
    assert w1.db == Claim(w.db, job, now) && w1.worker == Some(Worker(job, None, false, None, false));
    assert SeedSecret(w1.db, v) == SeedSecret(w.db, v);
    assert w2 == w1.(worker := Some(Worker(job, SeedSecret(w.db, v), false, None, false)));
    SwapPutsSeedKey(w2, v);
    RunStep(w, ClaimNext(job, now), [LoadSeed] + ([SwapDisk] + [KeepSwap]));
    RunStep(w1, LoadSeed, [SwapDisk] + [KeepSwap]);
    RunStep(w2, SwapDisk, [KeepSwap]);
    RunOne(w3, KeepSwap);
  }

  lemma SwapPutsSeedKey(w: World, v: VmId)
    requires BeforeSwap(w) && WorkerVm(w) == Some(v) && WorkerGeneration(w).None?
    ensures var done := Next(Next(w, SwapDisk), KeepSwap);
            && done.db == w.db && DiskKey(done, v) == w.worker.value.loaded
            && done.worker == Some(w.worker.value.(saved := None, replaced := true))
  {
  }

  // --- A create job publishes the key staged by a reinstall -------------------------------

  /** A create job is next; a reinstall of the same VM is queued and has staged a generation. */
  predicate RaceReady(w: World, create: JobId, reinstall: JobId, v: VmId, now: int) {
    && w.worker.None? && create in w.db.jobs && reinstall in w.db.jobs && create != reinstall
    && w.db.jobs[create].kind == VmCreate && w.db.jobs[create].vm == Some(v)
    && v in w.db.tools && v in w.db.vms && w.db.tools[v].enabled
    && StagedBy(w.db.jobs[reinstall], v, w.db.tools[v]) && w.db.jobs[reinstall].status == Queued
    && !w.db.jobs[reinstall].payload.newConfiguration
    && w.db.tools[v].pending.value.envelope.context == PendingKey(v, w.db.tools[v].pending.value.generation)
    && w.db.tools[v].pending.value.envelope.secret != w.db.tools[v].active.secret
  }

  /** The create job builds its seed from the staged generation, which the reinstall has not
      armed; cancelling the reinstall then drops that generation and with it the guest's key. */
  lemma CreatePublishesStagedKey(w: World, create: JobId, reinstall: JobId, v: VmId, now: int)
    requires RaceReady(w, create, reinstall, v, now) && IsNextClaim(w.db.jobs, create, now)
    ensures var done := Run(w, Provision(create, now) + ([Finish(now)] + [Cancel(reinstall, now)]));
            && v in done.disk && done.disk[v] == w.db.tools[v].pending.value.envelope.secret
            && v in done.db.tools && done.db.tools[v].pending.None?
            && done.db.tools[v].active == w.db.tools[v].active
            && !KeyOk(done.db, v, done.disk[v])
  {
    ProvisionPutsSeedKey(w, create, v, now);
    RunAppend(w, Provision(create, now), [Finish(now)] + [Cancel(reinstall, now)]);
    StagedKeyIsDropped(w, Run(w, Provision(create, now)), create, reinstall, v, now);
  }

  lemma StagedKeyIsDropped(w: World, w1: World, create: JobId, reinstall: JobId, v: VmId, now: int)
    requires RaceReady(w, create, reinstall, v, now) && w1.db == Claim(w.db, create, now)
    requires DiskKey(w1, v) == Some(w.db.tools[v].pending.value.envelope.secret)
    requires w1.worker.Some? && w1.worker.value.job == create && w1.worker.value.saved.None?
    ensures var done := Run(w1, [Finish(now)] + [Cancel(reinstall, now)]);
            && DiskKey(done, v) == DiskKey(w1, v)
            && v in done.db.tools && done.db.tools[v] == DropPending(w.db.tools[v])
  {
    var w2 := Next(w1, Finish(now));
    RunStep(w1, Finish(now), [Cancel(reinstall, now)]);
    RunOne(w2, Cancel(reinstall, now));
    FinishLeavesTheRest(w1, reinstall, now);
    CancelDropsGeneration(w2, reinstall, v, now);
  }

  lemma FinishLeavesTheRest(w: World, other: JobId, now: int)
    requires w.worker.Some? && w.worker.value.job != other && other in w.db.jobs
    ensures var next := Next(w, Finish(now));
            && next.db.tools == w.db.tools && next.db.vms == w.db.vms && next.disk == w.disk
            && other in next.db.jobs && next.db.jobs[other] == w.db.jobs[other]
  {
  }

  lemma CancelDropsGeneration(w: World, job: JobId, v: VmId, now: int)
    requires job in w.db.jobs && w.db.jobs[job].status == Queued && v in w.db.tools && v in w.db.vms
    requires StagedBy(w.db.jobs[job], v, w.db.tools[v]) && !w.db.jobs[job].payload.newConfiguration
    ensures var done := Next(w, Cancel(job, now));
            && DiskKey(done, v) == DiskKey(w, v)
            && v in done.db.tools && done.db.tools[v] == DropPending(w.db.tools[v])
  {
  }

  // --- A reinstall without tools retires the record of a guest that got its key ------------

  /** A reinstall without tools of a VM that has them: the seed still carries the active key,
      and the record is deleted once the guest has it. */
  lemma PlainReinstallRetiresPublishedKey(w: World, job: JobId, v: VmId, now: int)
    requires w.worker.None? && IsNextClaim(w.db.jobs, job, now) && w.db.jobs[job].kind == VmReinstall
    requires w.db.jobs[job].vm == Some(v) && w.db.jobs[job].payload.generation.None?
    requires w.db.jobs[job].payload.disableTools
    requires v in w.db.tools && w.db.tools[v].enabled && w.db.tools[v].pending.None?
    requires w.db.tools[v].active.context == ActiveKey(v)
    ensures var done := Run(w, Provision(job, now) + ([CommitPassword] + [RetireAfterReinstall]));
            && v in done.disk && done.disk[v] == w.db.tools[v].active.secret
            && v !in done.db.tools && !KeyOk(done.db, v, done.disk[v])
  {
    ProvisionPutsSeedKey(w, job, v, now);
    RunAppend(w, Provision(job, now), [CommitPassword] + [RetireAfterReinstall]);
    PublishedKeyIsRetired(Run(w, Provision(job, now)), job, v);
  }

  lemma PublishedKeyIsRetired(w: World, job: JobId, v: VmId)
    requires WorkerRuns(w, VmReinstall) && WorkerVm(w) == Some(v) && w.worker.value.replaced
    requires WorkerJob(w).value.payload.disableTools
    ensures var done := Run(w, [CommitPassword] + [RetireAfterReinstall]);
            DiskKey(done, v) == DiskKey(w, v) && v !in done.db.tools
  {
    var w1 := Next(w, CommitPassword);
    RunStep(w, CommitPassword, [RetireAfterReinstall]);
    RunOne(w1, RetireAfterReinstall);
    CommitLeavesTheRest(w);
    RetiringLeavesTheDisk(w1, v);
  }

  lemma RetiringLeavesTheDisk(w: World, v: VmId)
    requires WorkerRuns(w, VmReinstall) && WorkerVm(w) == Some(v) && w.worker.value.replaced
    requires WorkerJob(w).value.payload.disableTools
    ensures var done := Next(w, RetireAfterReinstall);
            DiskKey(done, v) == DiskKey(w, v) && v !in done.db.tools
  {
  }

  lemma CommitLeavesTheRest(w: World)
    ensures var next := Next(w, CommitPassword);
            next.db.tools == w.db.tools && next.db.jobs == w.db.jobs && next.disk == w.disk && next.worker == w.worker
  {
  }

  // --- Both happen from an empty installation ------------------------------------------------

  const GENERATION: string := "00000000-0000-4000-8000-000000000000"
  const INSTALL: Install := Install("linux", "cloud-init", "1")
  const NEW_VM: Vm := Vm(Creating, Up, Some("envelope"), false)
  const PAYLOAD: Payload := Payload(None, false, None, false, false, None, None, None, None, "")
  const CREATE: NewJob := NewJob(VmCreate, Some(0), PAYLOAD, None, None, 1)

  /** VM 0 with tools and its queued create job. */
  const INSTALLED: Db := Db(
    map[0 := NEW_VM], map[0 := NewTools(0, "first key", INSTALL)], map[0 := QueuedJob(CREATE, PAYLOAD, None, 0)])

  function CreateRequest(): seq<Step> {
    [CreateVm(0, NEW_VM)] + ([Configure(0, "first key", INSTALL)] + [Enqueue(0, CREATE, 0)])
  }

  lemma CreateRequestInstalls()
    ensures Run(EmptyWorld, CreateRequest()) == World(INSTALLED, None, map[], {}, {})
  {
    var w1 := World(Db(map[0 := NEW_VM], map[], map[]), None, map[], {}, {});
    var w2 := World(Db(map[0 := NEW_VM], map[0 := NewTools(0, "first key", INSTALL)], map[]), None, map[], {}, {});
    assert Next(EmptyWorld, CreateVm(0, NEW_VM)) == w1;
    assert Next(w1, Configure(0, "first key", INSTALL)) == w2;
    assert Next(w2, Enqueue(0, CREATE, 0)) == World(INSTALLED, None, map[], {}, {});
    RunStep(EmptyWorld, CreateVm(0, NEW_VM), [Configure(0, "first key", INSTALL)] + [Enqueue(0, CREATE, 0)]);
    RunStep(w1, Configure(0, "first key", INSTALL), [Enqueue(0, CREATE, 0)]);
    RunOne(w2, Enqueue(0, CREATE, 0));
  }

  function ReinstallRequest(generation: Option<string>): NewJob {
    NewJob(VmReinstall, Some(0), PAYLOAD.(generation := generation, disableTools := generation.None?), None, None, 1)
  }

  /** Create a VM with tools; request a reinstall with tools while its create job waits; let the
      create job run; cancel the reinstall. */
  function RaceSteps(): seq<Step> {
    (CreateRequest()
     + ([Stage(0, GENERATION, "second key", INSTALL, false)]
        + [QueueReinstall(1, ReinstallRequest(Some(GENERATION)), None, Up, 2)]))
    + (Provision(0, 1) + ([Finish(1)] + [Cancel(1, 1)]))
  }

  lemma GenerationIsCanonical()
    ensures IsCanonicalUuid(GENERATION)
  {
  }

  /** The guest of VM 0 ends up with a key that the panel no longer has. */
  lemma RaceLosesTheKey()
    ensures var w := Run(EmptyWorld, RaceSteps());
            0 in w.disk && w.disk[0] == "second key" && !KeyOk(w.db, 0, w.disk[0])
  {
    var request := [Stage(0, GENERATION, "second key", INSTALL, false)]
                   + [QueueReinstall(1, ReinstallRequest(Some(GENERATION)), None, Up, 2)];
    var w := World(INSTALLED, None, map[], {}, {});
    CreateRequestInstalls();
    RunAppend(EmptyWorld, CreateRequest() + request, Provision(0, 1) + ([Finish(1)] + [Cancel(1, 1)]));
    RunAppend(EmptyWorld, CreateRequest(), request);
    StagedAndQueued(w);
    CreatePublishesStagedKey(Run(w, request), 0, 1, 0, 1);
  }

  lemma StagedAndQueued(w: World)
    requires w == World(INSTALLED, None, map[], {}, {})
    ensures var ready := Run(w, [Stage(0, GENERATION, "second key", INSTALL, false)]
                                + [QueueReinstall(1, ReinstallRequest(Some(GENERATION)), None, Up, 2)]);
            && RaceReady(ready, 0, 1, 0, 1) && IsNextClaim(ready.db.jobs, 0, 1)
            && ready.db.tools[0].pending.value.envelope.secret == "second key"
  {
    var stage := Stage(0, GENERATION, "second key", INSTALL, false);
    var queue := QueueReinstall(1, ReinstallRequest(Some(GENERATION)), None, Up, 2);
    SecondKeyStaged(w);
    ReinstallQueues(Next(w, stage), Some(GENERATION));
    RunStep(w, stage, [queue]);
    RunOne(Next(w, stage), queue);
  }

  lemma SecondKeyStaged(w: World)
    requires w == World(INSTALLED, None, map[], {}, {})
    ensures var staged := Next(w, Stage(0, GENERATION, "second key", INSTALL, false));
            && staged.db.jobs == w.db.jobs && staged.db.vms == w.db.vms && staged.worker.None?
            && GENERATION in staged.used && staged.db.tools.Keys == {0}
            && staged.db.tools[0] == w.db.tools[0].(pending := Some(
                 Rotation(GENERATION, Encrypt("second key", PendingKey(0, GENERATION)), INSTALL, false)))
  {
    GenerationIsCanonical();
    assert "first key"[0] != "second key"[0];
  }

  /** Create a VM with tools and let the create job run; then reinstall it without tools. */
  function PlainSteps(): seq<Step> {
    ((CreateRequest() + Provision(0, 1)) + ([Finish(1)] + [QueueReinstall(1, ReinstallRequest(None), None, Up, 2)]))
    + (Provision(1, 2) + ([CommitPassword] + [RetireAfterReinstall]))
  }

  /** The guest of VM 0 keeps running with a key, and the panel has no record of it any more. */
  lemma PlainReinstallLosesTheKey()
    ensures var w := Run(EmptyWorld, PlainSteps());
            0 in w.disk && w.disk[0] == "first key" && 0 !in w.db.tools
  {
    var w := World(INSTALLED, None, map[], {}, {});
    var request := [Finish(1)] + [QueueReinstall(1, ReinstallRequest(None), None, Up, 2)];
    CreateRequestInstalls();
    RunAppend(EmptyWorld, (CreateRequest() + Provision(0, 1)) + request,
              Provision(1, 2) + ([CommitPassword] + [RetireAfterReinstall]));
    RunAppend(EmptyWorld, CreateRequest() + Provision(0, 1), request);
    RunAppend(EmptyWorld, CreateRequest(), Provision(0, 1));
    ProvisionPutsSeedKey(w, 0, 0, 1);
    FinishedAndQueued(Run(w, Provision(0, 1)));
    PlainReinstallRetiresPublishedKey(Run(Run(w, Provision(0, 1)), request), 1, 0, 2);
  }

  lemma FinishedAndQueued(w: World)
    requires w.db == Claim(INSTALLED, 0, 1) && w.worker.Some? && w.worker.value.job == 0 && w.worker.value.saved.None?
    ensures var ready := Run(w, [Finish(1)] + [QueueReinstall(1, ReinstallRequest(None), None, Up, 2)]);
            && ready.worker.None? && IsNextClaim(ready.db.jobs, 1, 2) && ready.db.tools == INSTALLED.tools
            && ready.db.jobs[1] == QueuedJob(ReinstallRequest(None), ReinstallRequest(None).payload, None, 2)
  {
    var queue := QueueReinstall(1, ReinstallRequest(None), None, Up, 2);
    CreateJobFinishes(w);
    ReinstallQueues(Next(w, Finish(1)), None);
    RunStep(w, Finish(1), [queue]);
    RunOne(Next(w, Finish(1)), queue);
  }

  lemma CreateJobFinishes(w: World)
    requires w.db == Claim(INSTALLED, 0, 1) && w.worker.Some? && w.worker.value.job == 0 && w.worker.value.saved.None?
    ensures var done := Next(w, Finish(1));
            && done.worker.None? && done.db.tools == INSTALLED.tools && done.db.vms == INSTALLED.vms
            && done.db.jobs.Keys == {0} && done.db.jobs[0].status == Succeeded && done.db.jobs[0].kind == VmCreate
  {
  }

  /** A reinstall of VM 0 is queued when its only job is the one that creates it. */
  lemma ReinstallQueues(w: World, generation: Option<string>)
    requires w.db.vms == INSTALLED.vms && w.db.jobs.Keys == {0} && w.db.jobs[0].kind == VmCreate
    requires generation.Some? ==> generation.value in w.used
    ensures var request := ReinstallRequest(generation);
            var queued := Next(w, QueueReinstall(1, request, None, Up, 2));
            && queued.worker == w.worker && queued.disk == w.disk && queued.db.tools == w.db.tools
            && queued.db.jobs == w.db.jobs[1 := QueuedJob(request, request.payload, None, 2)]
            && queued.db.vms.Keys == w.db.vms.Keys
  {
    assert Competitor(w.db.jobs, VmReinstall, Some(0), None).None?;
  }
}
