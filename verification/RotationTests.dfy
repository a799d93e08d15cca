/** What a request can tell from the tables alone, without a look at the guest disks or the
    worker's memory: exactly when overwriting, deleting or staging a record cannot cost a key. */
module RotationTests {
  import opened Basics
  import opened Records
  import opened ControlPlane
  import opened Deployment
  import opened RotationSafety
  import opened RotationLaws

  predicate IsNewConfigurationJob(j: Job) {
    j.kind == VmReinstall && j.payload.generation.Some? && j.payload.newConfiguration
  }

  predicate NamesAsNew(j: Job, generation: string) {
    IsNewConfigurationJob(j) && j.payload.generation == Some(generation)
  }

  /** The record was configured for its unarmed generation, says a reinstall job. */
  predicate NamedAsNew(db: Db, v: VmId) {
    && v in db.tools && Unarmed(db.tools[v])
    && exists id :: id in db.jobs && NamesAsNew(db.jobs[id], db.tools[v].pending.value.generation)
  }

  /** A test of the tables before a step that writes the record of `s.vm`: there is no record,
      or it is armed and the step refused, or a job says that its key was never handed out. A
      stage that counts the record as new needs one that will not take the stage. */
  predicate PassesTest(db: Db, s: Step)
    requires s.Configure? || s.DeleteConfiguration? || s.Stage?
  {
    if s.Stage? then !s.newConfiguration || s.vm !in db.tools || db.tools[s.vm].pending.Some?
    else s.vm !in db.tools || Armed(db, s.vm) || NamedAsNew(db, s.vm)
  }

  /** No consistent world with these tables loses a key by the step. */
  ghost predicate SafeWithTables(db: Db, s: Step) {
    forall u :: Invariant(u) && u.db == db ==> Invariant(Next(u, s))
  }

  lemma NamedAsNewIsUnused(w: World, v: VmId)
    requires Invariant(w) && NamedAsNew(w.db, v)
    ensures !InUse(w, v)
  {
    var id :| id in w.db.jobs && NamesAsNew(w.db.jobs[id], w.db.tools[v].pending.value.generation);
    assert JobOk(w.db.jobs[id], w.used, w.provisional);
    assert ProvisionalUnused(w, v);
  }

  lemma PassingIsSafe(w: World, s: Step)
    requires Invariant(w) && (s.Configure? || s.DeleteConfiguration? || s.Stage?) && PassesTest(w.db, s)
    ensures Invariant(Next(w, s))
  {
    if NamedAsNew(w.db, s.vm) { NamedAsNewIsUnused(w, s.vm); }
    StepIsSafeExactly(w, s);
  }

  // --- The other world that the tables allow ------------------------------------------------

  function NewConfigurations(jobs: map<JobId, Job>): set<string> {
    set id | id in jobs && IsNewConfigurationJob(jobs[id]) :: jobs[id].payload.generation.value
  }

  /** The tables of `w` with one disk, which carries the active key of `v`; nothing is known to
      be new but what a job says is. */
  function WithKeyOut(w: World, v: VmId): World
    requires v in w.db.tools
  {
    World(w.db, None, map[v := w.db.tools[v].active.secret], w.used, NewConfigurations(w.db.jobs))
  }

  lemma KeyOutTablesOk(w: World, v: VmId)
    requires TablesOk(w) && v in w.db.tools
    ensures TablesOk(WithKeyOut(w, v))
  {
    var u := WithKeyOut(w, v);
    forall id | id in w.db.jobs ensures JobOk(w.db.jobs[id], u.used, u.provisional) {
      assert JobOk(w.db.jobs[id], w.used, w.provisional);
    }
    forall g | g in u.provisional ensures g in u.used {
      var id :| id in w.db.jobs && IsNewConfigurationJob(w.db.jobs[id]) && g == w.db.jobs[id].payload.generation.value;
      assert JobOk(w.db.jobs[id], w.used, w.provisional);
    }
  }

  lemma KeyOutIsConsistent(w: World, v: VmId)
    requires Invariant(w) && v in w.db.tools && !NamedAsNew(w.db, v)
    ensures Invariant(WithKeyOut(w, v)) && InUse(WithKeyOut(w, v), v)
  {
    var u := WithKeyOut(w, v);
    KeyOutTablesOk(w, v);
    assert ProvisionalOk(u);
  }

  lemma FailingIsUnsafe(w: World, s: Step)
    requires Invariant(w) && Enabled(w, s) && (s.Configure? || s.DeleteConfiguration? || s.Stage?)
    requires !PassesTest(w.db, s)
    ensures var u := WithKeyOut(w, s.vm);
            Invariant(u) && u.db == w.db && !Invariant(Next(u, s))
  {
    var u := WithKeyOut(w, s.vm);
    KeyOutIsConsistent(w, s.vm);
    assert Enabled(u, s);
    StepIsSafeExactly(u, s);
  }

  // --- The test is exact ------------------------------------------------------------------------

  /** No test of the tables does better: a step that passes is safe in every consistent world
      with these tables, and one that fails loses a key in some of them. */
  lemma TestIsExact(w: World, s: Step)
    requires Invariant(w) && Enabled(w, s) && (s.Configure? || s.DeleteConfiguration? || s.Stage?)
    ensures SafeWithTables(w.db, s) <==> PassesTest(w.db, s)
  {
    if PassesTest(w.db, s) {
      forall u | Invariant(u) && u.db == w.db ensures Invariant(Next(u, s)) {
        PassingIsSafe(u, s);
      }
    } else {
      FailingIsUnsafe(w, s);
    }
  }

  /** The same for the operations themselves and the keys on disks, whatever the secret. */
  lemma ConfigureTestIsExact(w: World, v: VmId, secret: Secret, install: Install)
    requires Invariant(w) && v in w.db.vms
    ensures (forall u :: Invariant(u) && u.db == w.db ==> KeySurvives(u, ConfigureTools(u.db, v, secret, install).0, v))
            <==> v !in w.db.tools || Armed(w.db, v) || NamedAsNew(w.db, v) || w.db.tools[v].active.secret == secret
  {
    forall u | Invariant(u) && u.db == w.db
      ensures KeySurvives(u, ConfigureTools(u.db, v, secret, install).0, v)
              <==> v !in u.disk || Armed(w.db, v) || w.db.tools[v].active.secret == secret
      ensures v !in w.db.tools || NamedAsNew(w.db, v) ==> v !in u.disk
    {
      ConfigureKeepsKeyExactly(u, v, secret, install);
      UnknownRowIsUnused(u, v);
      if v in w.db.tools && !Armed(w.db, v) { UsedKeyIsActive(u, v); }
      if NamedAsNew(w.db, v) { NamedAsNewIsUnused(u, v); }
    }
    if v in w.db.tools && !NamedAsNew(w.db, v) {
      KeyOutIsConsistent(w, v);
      assert v in WithKeyOut(w, v).disk && WithKeyOut(w, v).db == w.db;
    }
  }

  lemma DeleteConfigurationTestIsExact(w: World, v: VmId)
    requires Invariant(w) && v in w.db.vms
    ensures (forall u :: Invariant(u) && u.db == w.db ==> KeySurvives(u, DeleteToolsConfiguration(u.db, v).0, v))
            <==> v !in w.db.tools || Armed(w.db, v) || NamedAsNew(w.db, v)
  {
    forall u | Invariant(u) && u.db == w.db
      ensures KeySurvives(u, DeleteToolsConfiguration(u.db, v).0, v) <==> v !in u.disk || Armed(w.db, v)
      ensures v !in w.db.tools || NamedAsNew(w.db, v) ==> v !in u.disk
    {
      DeleteConfigurationKeepsKeyExactly(u, v);
      UnknownRowIsUnused(u, v);
      if NamedAsNew(w.db, v) { NamedAsNewIsUnused(u, v); }
    }
    if v in w.db.tools && !NamedAsNew(w.db, v) {
      KeyOutIsConsistent(w, v);
      assert v in WithKeyOut(w, v).disk && WithKeyOut(w, v).db == w.db;
    }
  }
}
