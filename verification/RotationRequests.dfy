/** Reinstall requests that nobody interrupts: the transactions of one are steps of the
    deployment, they do what the request as a whole is specified to do, and a run made of such
    requests can lose a key only by the steps between them. */
module RotationRequests {
  import opened Basics
  import opened Records
  import opened ControlPlane
  import opened Deployment
  import opened RotationSafety
  import opened RotationLaws
  import opened RotationTests

  /** A reinstall with tools: `socketOk` says whether the channel has a valid path, `queued`
      whether the job is then accepted. */
  datatype Request = Request(
    vm: VmId, fingerprint: string, generation: string, placeholder: Secret, secret: Secret, install: Install,
    socketOk: bool, queued: bool)

  /** The tables after the request. */
  function RequestTables(db: Db, q: Request): Db {
    var (staged, r) := Staging(db, q);
    if r.Ok? && !q.queued then CleanupRequest(staged, q.vm, r.value.generation, r.value.newConfiguration) else staged
  }

  function Staging(db: Db, q: Request): (Db, Result<Staged>) {
    StageRequest(db, q.vm, q.fingerprint, q.generation, q.placeholder, q.secret, q.install, q.socketOk)
  }

  /** The transactions the request carries out, one after the other. */
  function RequestSteps(db: Db, q: Request): seq<Step> {
    if !IsFingerprint(q.fingerprint) then []
    else if AnyLeftArmed(db, q.vm, q.fingerprint) then
      if Staging(db, q).1.Ok? && !q.queued then [DiscardStage(q.vm, db.tools[q.vm].pending.value.generation)] else []
    else if q.vm in db.tools && db.tools[q.vm].enabled then
      [StageStep(q, false)]
      + if db.tools[q.vm].pending.None? && !(q.socketOk && q.queued) then [DiscardStage(q.vm, q.generation)] else []
    else if Armed(db, q.vm) || q.vm !in db.vms then [Configure(q.vm, q.placeholder, q.install)]
    else [Configure(q.vm, q.placeholder, q.install)] + ([StageStep(q, true)] + Rollback(q))
  }

  function StageStep(q: Request, newConfiguration: bool): Step {
    Stage(q.vm, q.generation, q.secret, q.install, newConfiguration)
  }

  function Rollback(q: Request): seq<Step> {
    if q.socketOk && q.queued then [] else [DiscardStage(q.vm, q.generation)] + [DeleteConfiguration(q.vm)]
  }

  /** Generation and secrets are freshly drawn. */
  ghost predicate IsFresh(w: World, q: Request) {
    && IsCanonicalUuid(q.generation) && q.generation !in w.used
    && q.secret != q.placeholder && IsNewSecret(w.db, q.vm, q.secret)
  }

  // --- The steps are the request -----------------------------------------------------------

  lemma RunFirst(w: World, s: Step, rest: seq<Step>)
    ensures Run(w, [s] + rest) == Run(Next(w, s), rest)
  {
    assert ([s] + rest)[1..] == rest;
  }

  lemma RunEmpty(w: World, s: Step)
    ensures Run(w, [s] + []) == Run(w, [s]) == Next(w, s)
  {
    RunFirst(w, s, []);
    RunOne(w, s);
  }

  lemma ReuseStepsAreTheRequest(w: World, q: Request)
    requires IsFingerprint(q.fingerprint) && AnyLeftArmed(w.db, q.vm, q.fingerprint)
    ensures Run(w, RequestSteps(w.db, q)).db == RequestTables(w.db, q) == w.db
  {
    if Staging(w.db, q).1.Ok? && !q.queued {
      RunOne(w, DiscardStage(q.vm, w.db.tools[q.vm].pending.value.generation));
    }
  }

  lemma DiscardRestores(db: Db, v: VmId, g: string, secret: Secret, install: Install)
    requires v in db.tools && db.tools[v].enabled && db.tools[v].pending.None? && IsCanonicalUuid(g)
    ensures StageRotation(db, v, g, secret, install).1.Ok?
    ensures DiscardRotation(StageRotation(db, v, g, secret, install).0, v, g) == (db, Ok(()))
  {
    assert DiscardRotation(StageRotation(db, v, g, secret, install).0, v, g).0.tools == db.tools;
  }

  lemma StageStepsAreTheRequest(w: World, q: Request)
    requires IsFresh(w, q) && IsFingerprint(q.fingerprint) && !AnyLeftArmed(w.db, q.vm, q.fingerprint)
    requires q.vm in w.db.tools && w.db.tools[q.vm].enabled
    ensures Run(w, RequestSteps(w.db, q)).db == RequestTables(w.db, q)
  {
    var s := StageStep(q, false);
    assert Enabled(w, s);
    RunEmpty(w, s);
    if w.db.tools[q.vm].pending.None? && !(q.socketOk && q.queued) {
      RunFirst(w, s, [DiscardStage(q.vm, q.generation)]);
      RunOne(Next(w, s), DiscardStage(q.vm, q.generation));
      DiscardRestores(w.db, q.vm, q.generation, q.secret, q.install);
    }
  }

  lemma RollbackDeletes(w: World, q: Request)
    requires IsCanonicalUuid(q.generation) && !(q.socketOk && q.queued)
    ensures Run(w, Rollback(q)).db
            == DeleteToolsConfiguration(DiscardRotation(w.db, q.vm, q.generation).0, q.vm).0
  {
    var discard, delete := DiscardStage(q.vm, q.generation), DeleteConfiguration(q.vm);
    RunFirst(w, discard, [delete]);
    RunOne(Next(w, discard), delete);
    NextDb(w, discard);
    NextDb(Next(w, discard), delete);
  }

  /** What follows the configuration of a record: staging and, it may be, the rollback. */
  lemma NewStageSteps(w: World, q: Request)
    requires q.vm in w.db.tools && w.db.tools[q.vm].enabled && w.db.tools[q.vm].pending.None?
    requires Enabled(w, StageStep(q, true))
    ensures Run(w, [StageStep(q, true)] + Rollback(q)).db
            == if q.socketOk && q.queued then StageRotation(w.db, q.vm, q.generation, q.secret, q.install).0
               else DeleteToolsConfiguration(w.db, q.vm).0
  {
    var s := StageStep(q, true);
    RunFirst(w, s, Rollback(q));
    NextDb(w, s);
    if !(q.socketOk && q.queued) {
      RollbackDeletes(Next(w, s), q);
      DiscardRestores(w.db, q.vm, q.generation, q.secret, q.install);
    }
  }

  /** A request for a VM without a record, by what it does to a newly configured one. */
  lemma NewRecordTables(db: Db, q: Request)
    requires IsCanonicalUuid(q.generation) && IsFingerprint(q.fingerprint) && !AnyLeftArmed(db, q.vm, q.fingerprint)
    requires q.vm !in db.tools && q.vm in db.vms
    ensures var configured := ConfigureTools(db, q.vm, q.placeholder, q.install).0;
            RequestTables(db, q)
            == if q.socketOk && q.queued then StageRotation(configured, q.vm, q.generation, q.secret, q.install).0
               else DeleteToolsConfiguration(configured, q.vm).0
  {
    DiscardRestores(
      ConfigureTools(db, q.vm, q.placeholder, q.install).0, q.vm, q.generation, q.secret, q.install);
  }

  lemma ConfigureStepsAreTheRequest(w: World, q: Request)
    requires IsFresh(w, q) && IsFingerprint(q.fingerprint) && !AnyLeftArmed(w.db, q.vm, q.fingerprint)
    requires q.vm !in w.db.tools
    ensures Run(w, RequestSteps(w.db, q)).db == RequestTables(w.db, q)
  {
    var c := Configure(q.vm, q.placeholder, q.install);
    RunOne(w, c);
    NextDb(w, c);
    if q.vm in w.db.vms {
      assert Next(w, c).used == w.used;
      NewStageSteps(Next(w, c), q);
      RunFirst(w, c, [StageStep(q, true)] + Rollback(q));
      NewRecordTables(w.db, q);
    }
  }

  // --- A request takes no risk ------------------------------------------------------------------

  predicate WritesRecord(s: Step, v: VmId) {
    (s.Configure? || s.DeleteConfiguration? || s.Stage? || s.DiscardStage?) && s.vm == v
  }

  /** Staging on a known record, or taking a stage back. */
  predicate IsMild(s: Step) {
    s.DiscardStage? || (s.Stage? && !s.newConfiguration)
  }

  lemma WritingKeepsUse(w: World, s: Step, v: VmId)
    requires WritesRecord(s, v)
    ensures InUse(Next(w, s), v) == InUse(w, v)
  {
    if Enabled(w, s) {
      var w' := Next(w, s);
      assert w'.disk == w.disk && w'.worker == w.worker && w'.db.jobs == w.db.jobs;
    }
  }

  /** Steps on a record whose key is not in use do not break, nor do mild steps on any. */
  lemma {:induction false} WritingIsCareful(w: World, steps: seq<Step>, v: VmId)
    requires forall i :: 0 <= i < |steps| ==> WritesRecord(steps[i], v)
    requires InUse(w, v) ==> forall i :: 0 <= i < |steps| ==> IsMild(steps[i])
    ensures Careful(w, steps)
    decreases |steps|
  {
    if steps != [] {
      assert !Breaks(w, steps[0]);
      WritingKeepsUse(w, steps[0], v);
      WritingIsCareful(Next(w, steps[0]), steps[1..], v);
    }
  }

  /** A request that nobody interrupts breaks nothing, wherever it ends and whether or not it is
      rolled back; its steps do to the tables what the request as a whole does, and a request
      that stages leaves its generation pending. */
  lemma UndisturbedRequestIsCareful(w: World, q: Request)
    requires Invariant(w)
    ensures Careful(w, RequestSteps(w.db, q)) && Invariant(Run(w, RequestSteps(w.db, q)))
    ensures IsFresh(w, q) ==> Run(w, RequestSteps(w.db, q)).db == RequestTables(w.db, q)
    ensures Staging(w.db, q).1.Ok? && q.queued ==>
              PendingIs(RequestTables(w.db, q), q.vm, Staging(w.db, q).1.value.generation)
  {
    UnknownRowIsUnused(w, q.vm);
    if q.vm in w.db.tools { assert RowOk(w.db, q.vm, w.used); }
    WritingIsCareful(w, RequestSteps(w.db, q), q.vm);
    RunIsSafe(w, RequestSteps(w.db, q));
    if IsFresh(w, q) && IsFingerprint(q.fingerprint) {
      if AnyLeftArmed(w.db, q.vm, q.fingerprint) {
        ReuseStepsAreTheRequest(w, q);
      } else if q.vm in w.db.tools {
        StageStepsAreTheRequest(w, q);
      } else {
        ConfigureStepsAreTheRequest(w, q);
      }
    }
  }

  /** A request that is refused, or whose job is, leaves the tables as they were. */
  lemma UnqueuedRequestLeavesNothing(w: World, q: Request)
    requires Invariant(w) && IsCanonicalUuid(q.generation) && (Staging(w.db, q).1.Err? || !q.queued)
    ensures RequestTables(w.db, q) == w.db
  {
    if q.vm in w.db.tools { assert RowOk(w.db, q.vm, w.used); }
    if Staging(w.db, q).1.Err? {
      RefusedRequestLeavesNothing(
        w.db, q.vm, q.fingerprint, q.generation, q.placeholder, q.secret, q.install, q.socketOk);
    } else if !AnyLeftArmed(w.db, q.vm, q.fingerprint) {
      if q.vm in w.db.tools {
        DiscardRestores(w.db, q.vm, q.generation, q.secret, q.install);
      } else {
        var configured := ConfigureTools(w.db, q.vm, q.placeholder, q.install).0;
        DiscardRestores(configured, q.vm, q.generation, q.secret, q.install);
        assert DeleteToolsConfiguration(configured, q.vm).0.tools == w.db.tools;
      }
    }
  }

  /** A request gets a generation exactly if it is well-formed and repeats a failed attempt with
      the same installation, or nothing is pending. */
  lemma RequestSucceedsExactly(w: World, q: Request)
    requires Invariant(w)
    ensures Staging(w.db, q).1.Ok?
            <==> && IsFingerprint(q.fingerprint) && q.socketOk
                 && if AnyLeftArmed(w.db, q.vm, q.fingerprint) then q.install == w.db.tools[q.vm].pending.value.install
                    else if q.vm in w.db.tools then w.db.tools[q.vm].pending.None? else q.vm in w.db.vms
  {
    if q.vm in w.db.tools { assert RowOk(w.db, q.vm, w.used); }
  }

  // --- Runs made of such requests -----------------------------------------------------------------

  /** One step of anybody, or a whole request. */
  datatype Block = One(step: Step) | Whole(request: Request)

  function BlockSteps(db: Db, b: Block): seq<Step> {
    match b
    case One(step) => [step]
    case Whole(q) => RequestSteps(db, q)
  }

  ghost function RunBlocks(w: World, blocks: seq<Block>): World
    decreases |blocks|
  {
    if blocks == [] then w else RunBlocks(Run(w, BlockSteps(w.db, blocks[0])), blocks[1..])
  }

  /** Whoever takes the step can see that it is safe: the tables tell, or the worker's memory. */
  ghost predicate IsChecked(w: World, s: Step) {
    if s.Configure? || s.DeleteConfiguration? || s.Stage? then PassesTest(w.db, s) else !Breaks(w, s)
  }

  ghost predicate AllChecked(w: World, blocks: seq<Block>)
    decreases |blocks|
  {
    blocks == [] ||
    (&& (blocks[0].One? ==> IsChecked(w, blocks[0].step))
     && AllChecked(Run(w, BlockSteps(w.db, blocks[0])), blocks[1..]))
  }

  lemma BlockIsSafe(w: World, b: Block)
    requires Invariant(w) && (b.One? ==> IsChecked(w, b.step))
    ensures Invariant(Run(w, BlockSteps(w.db, b)))
  {
    match b {
      case One(s) =>
        RunOne(w, s);
        if s.Configure? || s.DeleteConfiguration? || s.Stage? {
          PassingIsSafe(w, s);
        } else {
          StepIsSafeExactly(w, s);
        }
      case Whole(q) => UndisturbedRequestIsCareful(w, q);
    }
  }

  lemma {:induction false} CheckedRunIsSafe(w: World, blocks: seq<Block>)
    requires Invariant(w) && AllChecked(w, blocks)
    ensures Invariant(RunBlocks(w, blocks))
    decreases |blocks|
  {
    if blocks != [] {
      BlockIsSafe(w, blocks[0]);
      CheckedRunIsSafe(Run(w, BlockSteps(w.db, blocks[0])), blocks[1..]);
    }
  }

  /** If requests run undisturbed, no matter how many and whether they are kept, refused or
      rolled back, and every other step is checked by whoever takes it, then from an empty
      installation the key on every guest disk stays usable, process deaths included. */
  lemma ContiguousRequestsAreSafe(blocks: seq<Block>)
    requires AllChecked(EmptyWorld, blocks)
    ensures DiskKeysUsable(RunBlocks(EmptyWorld, blocks))
  {
    CheckedRunIsSafe(EmptyWorld, blocks);
  }
}
