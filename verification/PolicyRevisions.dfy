/** Versioned network-security policies, edited while reconcilers apply them to the host. */
module PolicyRevisions {
  import opened Basics

  type RuleId = string

  /** The columns a patch may set. */
  datatype Field =
    | FirewallEnabled | DdosEnabled | DefaultIngressAction | DefaultEgressAction
    | SynRateLimit | UdpRateLimit | IcmpRateLimit | NewConnectionLimit | ConcurrentConnectionLimit
    | PortScanProtection | DropInvalidPackets

  /** `Active` is the column `enabled`. */
  datatype RuleField =
    | Priority | Direction | Action | Protocol | SourceCidr | DestinationCidr
    | SourcePorts | DestinationPorts | Log | Active | Description

  datatype Setting = Null | Number(n: int) | Text(s: string)

  type Settings = map<Field, Setting>
  type RuleSpec = map<RuleField, Setting>

  datatype Profile = Profile(settings: Settings, revision: nat, applied: Option<nat>, failed: bool)

  datatype Rule = Rule(vm: VmId, spec: RuleSpec)

  /** What is to be enforced for one VM. */
  datatype Policy = Policy(settings: Settings, rules: map<RuleId, RuleSpec>)

  const MAX_RULES: nat := 256

  datatype Store = Store(profiles: map<VmId, Profile>, rules: map<RuleId, Rule>)

  function RulesOf(rules: map<RuleId, Rule>, vm: VmId): map<RuleId, RuleSpec> {
    map id | id in rules && rules[id].vm == vm :: rules[id].spec
  }

  function PolicyOf(st: Store, vm: VmId): Policy
    requires vm in st.profiles
  {
    Policy(st.profiles[vm].settings, RulesOf(st.rules, vm))
  }

  // --- The database operations, each one transaction -------------------------------------------

  function Bumped(p: Profile): Profile {
    p.(revision := p.revision + 1, failed := false)
  }

  function Bump(st: Store, vm: VmId): Store
    requires vm in st.profiles
  {
    st.(profiles := st.profiles[vm := Bumped(st.profiles[vm])])
  }

  /** `valid` is the verdict of field validation on the merged settings. */
  function PatchProfile(st: Store, vm: VmId, patch: Settings, valid: bool): (Store, Result<()>) {
    if vm !in st.profiles then (st, Err(NotFound))
    else if patch == map[] then (st, Ok(()))
    else if !valid then (st, Err(Validation))
    else
      var p := st.profiles[vm];
      (st.(profiles := st.profiles[vm := Bumped(p.(settings := p.settings + patch))]), Ok(()))
  }

  function MarkApplied(st: Store, vm: VmId, revision: nat, error: bool): (Store, Result<()>) {
    if vm !in st.profiles then (st, Err(NotFound))
    else if st.profiles[vm].revision != revision then (st, Err(Conflict))
    else
      var p := st.profiles[vm];
      var applied := if error then p.applied else Some(revision);
      (st.(profiles := st.profiles[vm := p.(applied := applied, failed := error)]), Ok(()))
  }

  function CreateRule(st: Store, vm: VmId, id: RuleId, spec: RuleSpec, valid: bool): (Store, Result<()>) {
    if !valid then (st, Err(Validation))
    else if vm !in st.profiles then (st, Err(NotFound))
    else if |RulesOf(st.rules, vm)| >= MAX_RULES then (st, Err(Conflict))
    else if id in st.rules then (st, Err(Storage))
    else (Bump(st.(rules := st.rules[id := Rule(vm, spec)]), vm), Ok(()))
  }

  function PatchRule(st: Store, vm: VmId, id: RuleId, patch: RuleSpec, valid: bool): (Store, Result<()>) {
    if id !in st.rules || st.rules[id].vm != vm then (st, Err(NotFound))
    else if patch == map[] then (st, Ok(()))
    else if !valid then (st, Err(Validation))
    else if vm !in st.profiles then (st, Err(NotFound))
    else (Bump(st.(rules := st.rules[id := Rule(vm, st.rules[id].spec + patch)]), vm), Ok(()))
  }

  function DeleteRule(st: Store, vm: VmId, id: RuleId): (Store, Result<()>) {
    if id !in st.rules || st.rules[id].vm != vm then (st, Err(NotFound))
    else if vm !in st.profiles then (st, Err(NotFound))
    else (Bump(st.(rules := st.rules - {id}), vm), Ok(()))
  }

  /** The insert trigger gives every new VM a profile. */
  function CreateVm(st: Store, vm: VmId, settings: Settings): Store {
    if vm in st.profiles then st
    else st.(profiles := st.profiles[vm := Profile(settings, 0, None, false)])
  }

  function DeleteVm(st: Store, vm: VmId): Store {
    Store(st.profiles - {vm}, map id | id in st.rules && st.rules[id].vm != vm :: st.rules[id])
  }

  // --- Reconciliation ---------------------------------------------------------------------------

  /** What a reconciler has read of one VM: first the profile with its revision, then the rules. */
  datatype Seen = Seen(settings: Settings, revision: nat, rules: Option<map<RuleId, RuleSpec>>)

  /** A running reconciliation; the network-security lock admits one at a time. `domains`
      holds the listed VMs that had a libvirt domain when they were listed. */
  datatype Reconciler = Reconciler(todo: set<VmId>, domains: set<VmId>, seen: map<VmId, Seen>, loaded: bool)

  /** `host` holds the policies the loaded ruleset was rendered from and `skipped` the VMs it
      was rendered without, for want of a domain; `defined` the VMs that have a domain now, and
      `issued` all VM ids so far. */
  datatype World = World(
    store: Store, reconciler: Option<Reconciler>, host: map<VmId, Policy>, skipped: set<VmId>,
    defined: set<VmId>, issued: set<VmId>)

  datatype Step =
    | NewVm(vm: VmId, settings: Settings)
    | DropVm(vm: VmId)
    | Define(vm: VmId)
    | EditProfile(vm: VmId, patch: Settings, valid: bool)
    | AddRule(vm: VmId, id: RuleId, spec: RuleSpec, valid: bool)
    | EditRule(vm: VmId, id: RuleId, rulePatch: RuleSpec, valid: bool)
    | DropRule(vm: VmId, id: RuleId)
    | Start
    | ReadProfile(vm: VmId)
    | ReadRules(vm: VmId)
    | Load
    | Mark(vm: VmId)
    | MarkFailed(vm: VmId)
    | Stop

  predicate Ready(r: Reconciler) {
    forall vm <- r.todo :: vm in r.seen && r.seen[vm].rules.Some?
  }

  predicate Enabled(w: World, s: Step) {
    match s
    case NewVm(vm, _) => vm !in w.issued
    case Start => w.reconciler.None?
    case ReadProfile(vm) =>
      w.reconciler.Some? && !w.reconciler.value.loaded && vm in w.reconciler.value.todo && vm !in w.reconciler.value.seen
    case ReadRules(vm) =>
      w.reconciler.Some? && !w.reconciler.value.loaded && vm in w.reconciler.value.seen
    case Load => w.reconciler.Some? && !w.reconciler.value.loaded && Ready(w.reconciler.value)
    case Mark(vm) => w.reconciler.Some? && w.reconciler.value.loaded && vm in w.reconciler.value.seen
    case MarkFailed(vm) => w.reconciler.Some? && !w.reconciler.value.loaded && vm in w.reconciler.value.seen
    case _ => true
  }

  function Read(w: World, vm: VmId): Reconciler
    requires w.reconciler.Some?
  {
    var r := w.reconciler.value;
    if vm in w.store.profiles
    then r.(seen := r.seen[vm := Seen(w.store.profiles[vm].settings, w.store.profiles[vm].revision, None)])
    else r.(todo := r.todo - {vm})
  }

  /** The policies of the VMs that have a domain replace the whole table in one nftables
      transaction. */
  function Rendered(r: Reconciler): map<VmId, Policy>
    requires Ready(r)
  {
    map vm | vm in r.todo && vm in r.domains :: Policy(r.seen[vm].settings, r.seen[vm].rules.value)
  }

  function Next(w: World, s: Step): World
    requires Enabled(w, s)
  {
    match s
    case NewVm(vm, settings) => w.(store := CreateVm(w.store, vm, settings), issued := w.issued + {vm})
    case DropVm(vm) => w.(store := DeleteVm(w.store, vm), defined := w.defined - {vm})
    case Define(vm) => w.(defined := w.defined + {vm})
    case EditProfile(vm, patch, valid) => w.(store := PatchProfile(w.store, vm, patch, valid).0)
    case AddRule(vm, id, spec, valid) => w.(store := CreateRule(w.store, vm, id, spec, valid).0)
    case EditRule(vm, id, patch, valid) => w.(store := PatchRule(w.store, vm, id, patch, valid).0)
    case DropRule(vm, id) => w.(store := DeleteRule(w.store, vm, id).0)
    case Start => w.(reconciler := Some(Reconciler(w.store.profiles.Keys, w.defined, map[], false)))
    case ReadProfile(vm) => w.(reconciler := Some(Read(w, vm)))
    case ReadRules(vm) =>
      var r := w.reconciler.value;
      w.(reconciler := Some(r.(seen := r.seen[vm := r.seen[vm].(rules := Some(RulesOf(w.store.rules, vm)))])))
    case Load =>
      var r := w.reconciler.value;
      w.(host := Rendered(r), skipped := r.todo - r.domains, reconciler := Some(r.(loaded := true)))
    case Mark(vm) => w.(store := MarkApplied(w.store, vm, w.reconciler.value.seen[vm].revision, false).0)
    case MarkFailed(vm) => w.(store := MarkApplied(w.store, vm, w.reconciler.value.seen[vm].revision, true).0)
    case Stop => w.(reconciler := None)
  }

  const EMPTY: World := World(Store(map[], map[]), None, map[], {}, {}, {})

  // --- The invariant --------------------------------------------------------------------------------

  predicate RevisionsOk(st: Store) {
    forall vm <- st.profiles ::
      st.profiles[vm].applied.Some? ==> st.profiles[vm].applied.value <= st.profiles[vm].revision
  }

  ghost predicate RulesOk(st: Store) {
    && (forall id <- st.rules :: st.rules[id].vm in st.profiles)
    && (forall vm :: |RulesOf(st.rules, vm)| <= MAX_RULES)
  }

  /** A view that has the current revision is the current policy. */
  predicate ViewOk(st: Store, vm: VmId, seen: Seen) {
    vm in st.profiles ==>
      && seen.revision <= st.profiles[vm].revision
      && (st.profiles[vm].applied.Some? ==> st.profiles[vm].applied.value <= seen.revision)
      && (seen.revision == st.profiles[vm].revision ==>
            && seen.settings == st.profiles[vm].settings
            && (seen.rules.Some? ==> seen.rules.value == RulesOf(st.rules, vm)))
  }

  /** The reconciler will have read every VM whose profile counts as applied. */
  predicate ReconcilerOk(w: World) {
    w.reconciler.Some? ==>
      var r := w.reconciler.value;
      && r.seen.Keys <= r.todo
      && (forall vm <- r.seen :: vm in w.issued && ViewOk(w.store, vm, r.seen[vm]))
      && (forall vm <- w.store.profiles :: w.store.profiles[vm].applied.Some? ==> vm in r.todo)
      && (forall vm <- r.todo :: vm in w.issued)
      && (r.loaded ==> Ready(r) && w.host == Rendered(r) && w.skipped == r.todo - r.domains)
  }

  /** What counts as applied is what the host enforces, for the VMs the ruleset is about. */
  predicate Enforced(w: World) {
    forall vm <- w.store.profiles :: w.store.profiles[vm].applied == Some(w.store.profiles[vm].revision) ==>
      vm in w.skipped || (vm in w.host && w.host[vm] == PolicyOf(w.store, vm))
  }

  ghost predicate Invariant(w: World) {
    && RevisionsOk(w.store) && RulesOk(w.store) && ReconcilerOk(w) && Enforced(w)
    && w.host.Keys !! w.skipped && w.store.profiles.Keys <= w.issued
  }

  /** An edit of one VM: nothing else changes, and its own revision goes up. */
  predicate Edits(before: Store, after: Store, vm: VmId) {
    && vm in before.profiles && after.profiles.Keys == before.profiles.Keys
    && after.profiles[vm].revision == before.profiles[vm].revision + 1
    && after.profiles[vm].applied == before.profiles[vm].applied
    && (forall v <- before.profiles :: v != vm ==>
          after.profiles[v] == before.profiles[v] && RulesOf(after.rules, v) == RulesOf(before.rules, v))
  }

  predicate IsEdit(s: Step) {
    s.EditProfile? || s.AddRule? || s.EditRule? || s.DropRule?
  }

  lemma RulesOfUpdate(rules: map<RuleId, Rule>, id: RuleId, rule: Rule, v: VmId)
    requires v != rule.vm && (id in rules ==> rules[id].vm == rule.vm)
    ensures RulesOf(rules[id := rule], v) == RulesOf(rules, v)
  {
  }

  lemma RulesOfRemove(rules: map<RuleId, Rule>, id: RuleId, v: VmId)
    requires id in rules && v != rules[id].vm
    ensures RulesOf(rules - {id}, v) == RulesOf(rules, v)
  {
  }

  /** Every edit either changes nothing or raises the revision of its VM. */
  lemma EditBumps(w: World, s: Step)
    requires IsEdit(s)
    ensures Next(w, s).store == w.store || Edits(w.store, Next(w, s).store, s.vm)
  {
    var st := w.store;
    match s {
      case EditProfile(vm, patch, valid) =>
      case AddRule(vm, id, spec, valid) =>
        if id !in st.rules {
          forall v <- st.profiles | v != vm ensures RulesOf(st.rules[id := Rule(vm, spec)], v) == RulesOf(st.rules, v) {
            RulesOfUpdate(st.rules, id, Rule(vm, spec), v);
          }
        }
      case EditRule(vm, id, patch, valid) =>
        if id in st.rules && st.rules[id].vm == vm {
          var rule := Rule(vm, st.rules[id].spec + patch);
          forall v <- st.profiles | v != vm ensures RulesOf(st.rules[id := rule], v) == RulesOf(st.rules, v) {
            RulesOfUpdate(st.rules, id, rule, v);
          }
        }
      case DropRule(vm, id) =>
        if id in st.rules && st.rules[id].vm == vm {
          forall v <- st.profiles | v != vm ensures RulesOf(st.rules - {id}, v) == RulesOf(st.rules, v) {
            RulesOfRemove(st.rules, id, v);
          }
        }
      case _ =>
    }
  }

  lemma SubmapIsSmaller(a: map<RuleId, RuleSpec>, b: map<RuleId, RuleSpec>)
    requires a.Keys <= b.Keys
    ensures |a| <= |b|
  {
    assert |b.Keys| == |a.Keys| + |b.Keys - a.Keys|;
    assert |a| == |a.Keys| && |b| == |b.Keys|;
  }

  lemma OneMoreRule(rules: map<RuleId, Rule>, vm: VmId, id: RuleId, spec: RuleSpec)
    requires id !in rules
    ensures |RulesOf(rules[id := Rule(vm, spec)], vm)| == |RulesOf(rules, vm)| + 1
  {
    assert RulesOf(rules[id := Rule(vm, spec)], vm) == RulesOf(rules, vm)[id := spec];
  }

  lemma AddKeepsRulesOk(st: Store, vm: VmId, id: RuleId, spec: RuleSpec, valid: bool)
    requires RulesOk(st)
    ensures RulesOk(CreateRule(st, vm, id, spec, valid).0)
  {
    var after := CreateRule(st, vm, id, spec, valid).0;
    forall v ensures |RulesOf(after.rules, v)| <= MAX_RULES {
      if after.rules != st.rules {
        if v == vm {
          OneMoreRule(st.rules, vm, id, spec);
        } else {
          RulesOfUpdate(st.rules, id, Rule(vm, spec), v);
        }
      }
    }
  }

  lemma FewerRulesOk(st: Store, after: Store)
    requires RulesOk(st) && after.profiles.Keys == st.profiles.Keys && after.rules.Keys <= st.rules.Keys
    requires forall id <- after.rules :: after.rules[id].vm == st.rules[id].vm
    ensures RulesOk(after)
  {
    forall v ensures |RulesOf(after.rules, v)| <= MAX_RULES {
      SubmapIsSmaller(RulesOf(after.rules, v), RulesOf(st.rules, v));
    }
  }

  lemma EditKeepsRulesOk(w: World, s: Step)
    requires IsEdit(s) && RulesOk(w.store)
    ensures RulesOk(Next(w, s).store)
  {
    if s.AddRule? {
      AddKeepsRulesOk(w.store, s.vm, s.id, s.spec, s.valid);
    } else {
      FewerRulesOk(w.store, Next(w, s).store);
    }
  }

  /** Views taken before an edit are of a lower revision, or of another VM. */
  lemma EditedStoreIsOk(w: World, after: Store, vm: VmId)
    requires Invariant(w) && Edits(w.store, after, vm) && RulesOk(after)
    ensures Invariant(w.(store := after))
  {
  }

  lemma EditKeepsInvariant(w: World, s: Step)
    requires IsEdit(s) && Invariant(w)
    ensures Invariant(Next(w, s))
  {
    EditBumps(w, s);
    EditKeepsRulesOk(w, s);
    var after := Next(w, s).store;
    assert Next(w, s) == w.(store := after);
    if after != w.store { EditedStoreIsOk(w, after, s.vm); }
  }

  lemma VmStepKeepsInvariant(w: World, s: Step)
    requires (s.NewVm? || s.DropVm? || s.Define?) && Enabled(w, s) && Invariant(w)
    ensures Invariant(Next(w, s))
  {
    var st, after := w.store, Next(w, s).store;
    forall vm ensures |RulesOf(after.rules, vm)| <= MAX_RULES {
      SubmapIsSmaller(RulesOf(after.rules, vm), RulesOf(st.rules, vm));
    }
    forall vm | vm in after.profiles && vm in st.profiles
      ensures RulesOf(after.rules, vm) == RulesOf(st.rules, vm)
    {
    }
  }

  /** A mark by a reconciler that has seen the VM, as applied only once its ruleset is loaded. */
  lemma MarkedStoreIsOk(w: World, vm: VmId, error: bool)
    requires Invariant(w) && w.reconciler.Some? && vm in w.reconciler.value.seen
    requires error || w.reconciler.value.loaded
    ensures Invariant(w.(store := MarkApplied(w.store, vm, w.reconciler.value.seen[vm].revision, error).0))
  {
    assert MarkApplied(w.store, vm, w.reconciler.value.seen[vm].revision, error).0.rules == w.store.rules;
  }

  lemma MarkKeepsInvariant(w: World, s: Step)
    requires (s.Mark? || s.MarkFailed?) && Enabled(w, s) && Invariant(w)
    ensures Invariant(Next(w, s))
  {
    MarkedStoreIsOk(w, s.vm, s.MarkFailed?);
  }

  lemma ReconcilerKeepsInvariant(w: World, s: Step)
    requires (s.Start? || s.ReadProfile? || s.ReadRules? || s.Load? || s.Stop?) && Enabled(w, s) && Invariant(w)
    ensures Invariant(Next(w, s))
  {
    assert Next(w, s).store == w.store;
  }

  lemma StepKeepsInvariant(w: World, s: Step)
    requires Enabled(w, s) && Invariant(w)
    ensures Invariant(Next(w, s))
  {
    if IsEdit(s) {
      EditKeepsInvariant(w, s);
    } else if s.NewVm? || s.DropVm? || s.Define? {
      VmStepKeepsInvariant(w, s);
    } else if s.Mark? || s.MarkFailed? {
      MarkKeepsInvariant(w, s);
    } else {
      ReconcilerKeepsInvariant(w, s);
    }
  }

  // --- Runs ---------------------------------------------------------------------------------------

  predicate Run(w: World, steps: seq<Step>)
    decreases |steps|
  {
    steps == [] || (Enabled(w, steps[0]) && Run(Next(w, steps[0]), steps[1..]))
  }

  function After(w: World, steps: seq<Step>): World
    requires Run(w, steps)
    decreases |steps|
  {
    if steps == [] then w else After(Next(w, steps[0]), steps[1..])
  }

  lemma {:induction false} RunKeepsInvariant(w: World, steps: seq<Step>)
    requires Invariant(w) && Run(w, steps)
    ensures Invariant(After(w, steps))
    decreases |steps|
  {
    if steps != [] {
      StepKeepsInvariant(w, steps[0]);
      RunKeepsInvariant(Next(w, steps[0]), steps[1..]);
    }
  }

  /** However edits, reconciliations, failures and crashes interleave: the applied revision never
      passes the current one; a policy whose applied revision is the current one is what the host
      enforces exactly if the VM had a domain when the loaded ruleset was rendered; and no VM has
      more than the permitted number of rules. */
  lemma AppliedIsEnforced(steps: seq<Step>, vm: VmId)
    requires Run(EMPTY, steps) && vm in After(EMPTY, steps).store.profiles
    ensures var w := After(EMPTY, steps);
            var p := w.store.profiles[vm];
            && (p.applied.Some? ==> p.applied.value <= p.revision)
            && (p.applied == Some(p.revision) ==>
                  (vm !in w.skipped <==> vm in w.host && w.host[vm] == PolicyOf(w.store, vm)))
            && |RulesOf(w.store.rules, vm)| <= MAX_RULES
  {
    RunKeepsInvariant(EMPTY, steps);
  }

  /** A mark that succeeds was computed from the stored profile and rules: a stale reconciler is refused. */
  lemma MarkProvesCurrent(steps: seq<Step>, vm: VmId)
    requires Run(EMPTY, steps) && Enabled(After(EMPTY, steps), Mark(vm))
    ensures var w := After(EMPTY, steps);
            var seen := w.reconciler.value.seen[vm];
            MarkApplied(w.store, vm, seen.revision, false).1.Ok? ==>
              && seen.rules.Some? && PolicyOf(w.store, vm) == Policy(seen.settings, seen.rules.value)
              && (vm !in w.skipped <==> vm in w.host && w.host[vm] == PolicyOf(w.store, vm))
  {
    RunKeepsInvariant(EMPTY, steps);
  }

  /** Reading, loading and marking a VM that has no domain. */
  lemma UndefinedVmIsMarked(vm: VmId, settings: Settings)
    ensures var steps := [ReadRules(vm)] + ([Load] + ([Mark(vm)] + ([Define(vm)] + [])));
            var r := Reconciler({vm}, {}, map[vm := Seen(settings, 0, None)], false);
            var w := World(Store(map[vm := Profile(settings, 0, None, false)], map[]), Some(r), map[], {}, {}, {vm});
            && Run(w, steps)
            && var done := After(w, steps);
               && done.store.profiles == map[vm := Profile(settings, 0, Some(0), false)]
               && done.defined == {vm} && done.host == map[]
  {
    var r := Reconciler({vm}, {}, map[vm := Seen(settings, 0, None)], false);
    var w := World(Store(map[vm := Profile(settings, 0, None, false)], map[]), Some(r), map[], {}, {}, {vm});
    var w1 := Next(w, ReadRules(vm));
    assert w1.reconciler.value == r.(seen := map[vm := Seen(settings, 0, Some(map[]))]);
    var w2 := Next(w1, Load);
    var w3 := Next(w2, Mark(vm));
    assert w2.host == map[] && w3.store.profiles == map[vm := Profile(settings, 0, Some(0), false)];
    RunFirst(w3, Define(vm), []);
    RunFirst(w2, Mark(vm), [Define(vm)] + []);
    RunFirst(w1, Load, [Mark(vm)] + ([Define(vm)] + []));
    RunFirst(w, ReadRules(vm), [Load] + ([Mark(vm)] + ([Define(vm)] + [])));
  }

  /** A VM that had no domain counts as applied all the same: when its domain is defined, its
      policy is not enforced until the next reconciliation. */
  lemma AppliedWithoutADomain(vm: VmId, settings: Settings)
    ensures var rest := [ReadRules(vm)] + ([Load] + ([Mark(vm)] + ([Define(vm)] + [])));
            var steps := [NewVm(vm, settings)] + ([Start] + ([ReadProfile(vm)] + rest));
            && Run(EMPTY, steps)
            && var w := After(EMPTY, steps);
               && vm in w.store.profiles && w.store.profiles[vm].applied == Some(w.store.profiles[vm].revision)
               && vm in w.defined && vm !in w.host
  {
    var rest := [ReadRules(vm)] + ([Load] + ([Mark(vm)] + ([Define(vm)] + [])));
    var w1 := Next(EMPTY, NewVm(vm, settings));
    var w2 := Next(w1, Start);
    var w3 := Next(w2, ReadProfile(vm));
    assert w1.store.profiles == map[vm := Profile(settings, 0, None, false)] && w1.issued == {vm};
    assert w3.reconciler.value == Reconciler({vm}, {}, map[vm := Seen(settings, 0, None)], false);
    UndefinedVmIsMarked(vm, settings);
    RunFirst(w2, ReadProfile(vm), rest);
    RunFirst(w1, Start, [ReadProfile(vm)] + rest);
    RunFirst(EMPTY, NewVm(vm, settings), [Start] + ([ReadProfile(vm)] + rest));
  }

  lemma RunFirst(w: World, s: Step, rest: seq<Step>)
    requires Enabled(w, s) && Run(Next(w, s), rest)
    ensures Run(w, [s] + rest) && After(w, [s] + rest) == After(Next(w, s), rest)
  {
    assert ([s] + rest)[1..] == rest;
  }

  // --- A revision names one policy -----------------------------------------------------------------

  /** The VM is gone for good, or its revision grew, or its policy is the same. */
  predicate Follows(before: World, after: World, vm: VmId) {
    && (vm in before.issued ==> vm in after.issued)
    && (vm in before.issued && vm !in before.store.profiles ==> vm !in after.store.profiles)
    && (vm in before.store.profiles && vm in after.store.profiles ==>
          && before.store.profiles[vm].revision <= after.store.profiles[vm].revision
          && (before.store.profiles[vm].revision == after.store.profiles[vm].revision ==>
                PolicyOf(before.store, vm) == PolicyOf(after.store, vm)))
  }

  lemma StepFollows(w: World, s: Step, vm: VmId)
    requires Enabled(w, s) && w.store.profiles.Keys <= w.issued
    ensures Follows(w, Next(w, s), vm) && Next(w, s).store.profiles.Keys <= Next(w, s).issued
  {
    if IsEdit(s) {
      EditBumps(w, s);
    } else if s.DropVm? && vm != s.vm {
      assert RulesOf(Next(w, s).store.rules, vm) == RulesOf(w.store.rules, vm);
    }
  }

  lemma {:induction false} RunFollows(w: World, steps: seq<Step>, vm: VmId)
    requires Run(w, steps) && w.store.profiles.Keys <= w.issued
    ensures Follows(w, After(w, steps), vm)
    decreases |steps|
  {
    if steps != [] {
      StepFollows(w, steps[0], vm);
      RunFollows(Next(w, steps[0]), steps[1..], vm);
    }
  }

  /** While a VM lives, equal revisions at two moments of a run mean the same profile and rules;
      so while the applied revision is the current one, nothing was edited since it was applied. */
  lemma RevisionNamesPolicy(steps: seq<Step>, more: seq<Step>, vm: VmId)
    requires Run(EMPTY, steps) && Run(After(EMPTY, steps), more)
    requires var w, later := After(EMPTY, steps), After(After(EMPTY, steps), more);
             && vm in w.store.profiles && vm in later.store.profiles
    ensures var w, later := After(EMPTY, steps), After(After(EMPTY, steps), more);
            && w.store.profiles[vm].revision <= later.store.profiles[vm].revision
            && (w.store.profiles[vm].revision == later.store.profiles[vm].revision ==>
                  PolicyOf(w.store, vm) == PolicyOf(later.store, vm))
  {
    RunKeepsInvariant(EMPTY, steps);
    RunFollows(After(EMPTY, steps), more, vm);
  }

  /** An edit that changes a policy makes its applied revision out of date at once. */
  lemma EditUnapplies(w: World, s: Step)
    requires Invariant(w) && IsEdit(s) && Next(w, s).store != w.store
    ensures s.vm in Next(w, s).store.profiles
    ensures var p := Next(w, s).store.profiles[s.vm]; p.applied != Some(p.revision)
  {
    EditBumps(w, s);
  }

  // --- The tables, updated in place ------------------------------------------------------------------

  class PolicyStore {
    var profiles: map<VmId, Profile>
    var rules: map<RuleId, Rule>

    function Snapshot(): Store
      reads this
    {
      Store(profiles, rules)
    }

    ghost predicate Valid()
      reads this
    {
      RevisionsOk(Snapshot()) && RulesOk(Snapshot())
    }

    method PatchVmNetworkSecurity(vm: VmId, patch: Settings, valid: bool) returns (r: Result<()>)
      requires Valid()
      modifies this`profiles
      ensures (Snapshot(), r) == PatchProfile(old(Snapshot()), vm, patch, valid)
      ensures Valid()
    {
      if vm !in profiles { return Err(NotFound); }
      if patch == map[] { return Ok(()); }
      if !valid { return Err(Validation); }
      var profile := profiles[vm];
      profile := profile.(settings := profile.settings + patch);
      profiles := profiles[vm := profile.(revision := profile.revision + 1, failed := false)];
      r := Ok(());
    }

    method MarkVmNetworkSecurityApplied(vm: VmId, revision: nat, error: bool) returns (r: Result<()>)
      requires Valid()
      modifies this`profiles
      ensures (Snapshot(), r) == MarkApplied(old(Snapshot()), vm, revision, error)
      ensures Valid()
    {
      if vm !in profiles { return Err(NotFound); }
      if profiles[vm].revision != revision { return Err(Conflict); }
      var profile := profiles[vm].(failed := error);
      if !error { profile := profile.(applied := Some(revision)); }
      profiles := profiles[vm := profile];
      r := Ok(());
    }

    method BumpRevision(vm: VmId)
      requires vm in profiles
      modifies this`profiles
      ensures Snapshot() == Bump(old(Snapshot()), vm)
    {
      profiles := profiles[vm := profiles[vm].(revision := profiles[vm].revision + 1, failed := false)];
    }

    method CreateVmFirewallRule(vm: VmId, id: RuleId, spec: RuleSpec, valid: bool) returns (r: Result<()>)
      requires Valid()
      modifies this
      ensures (Snapshot(), r) == CreateRule(old(Snapshot()), vm, id, spec, valid)
      ensures Valid()
    {
      AddKeepsRulesOk(Snapshot(), vm, id, spec, valid);
      if !valid { return Err(Validation); }
      if vm !in profiles { return Err(NotFound); }
      if |RulesOf(rules, vm)| >= MAX_RULES { return Err(Conflict); }
      if id in rules { return Err(Storage); }
      rules := rules[id := Rule(vm, spec)];
      BumpRevision(vm);
      r := Ok(());
    }

    method PatchVmFirewallRule(vm: VmId, id: RuleId, patch: RuleSpec, valid: bool) returns (r: Result<()>)
      requires Valid()
      modifies this
      ensures (Snapshot(), r) == PatchRule(old(Snapshot()), vm, id, patch, valid)
      ensures Valid()
    {
      FewerRulesOk(Snapshot(), PatchRule(Snapshot(), vm, id, patch, valid).0);
      if id !in rules || rules[id].vm != vm { return Err(NotFound); }
      if patch == map[] { return Ok(()); }
      if !valid { return Err(Validation); }
      rules := rules[id := rules[id].(spec := rules[id].spec + patch)];
      BumpRevision(vm);
      r := Ok(());
    }

    method DeleteVmFirewallRule(vm: VmId, id: RuleId) returns (r: Result<()>)
      requires Valid()
      modifies this
      ensures (Snapshot(), r) == DeleteRule(old(Snapshot()), vm, id)
      ensures Valid()
    {
      FewerRulesOk(Snapshot(), DeleteRule(Snapshot(), vm, id).0);
      if id !in rules || rules[id].vm != vm { return Err(NotFound); }
      rules := rules - {id};
      BumpRevision(vm);
      r := Ok(());
    }
  }
}
