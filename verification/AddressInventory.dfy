/** IP pools and the address inventory: what each operation does to the tables. */
module AddressInventory {
  import opened Basics
  import opened Cidr
  import opened PoolPlan

  type PoolId = nat

  datatype Scope = Public | Private

  datatype Pool = Pool(net: Net, scope: Scope, gateway: Option<IpAddr>, mtu: nat, enabled: bool)

  /** `details` stands for the reverse DNS name and the metadata. */
  datatype Record = Record(
    pool: Option<PoolId>, prefix: nat, scope: Scope, status: IpStatus, gateway: Option<IpAddr>,
    vm: Option<VmId>, primary: bool, details: string)

  /** The tables `vms` (identifiers only), `ip_pools` and `ip_addresses`. */
  datatype Stock = Stock(vms: set<VmId>, pools: map<PoolId, Pool>, addresses: map<IpAddr, Record>)

  datatype PoolPatch = PoolPatch(
    scope: Option<Scope>, gateway: Option<IpAddr>, mtu: Option<nat>, enabled: Option<bool>)

  datatype AddressSpec = AddressSpec(
    pool: Option<PoolId>, prefix: nat, scope: Scope, status: IpStatus, gateway: Option<IpAddr>, details: string)

  function Or<T>(first: Option<T>, second: Option<T>): Option<T> {
    if first.Some? then first else second
  }

  function Get<T>(o: Option<T>, default: T): T {
    if o.Some? then o.value else default
  }

  // --- Pools --------------------------------------------------------------------------

  predicate GatewayFits(net: Net, gateway: Option<IpAddr>)
    requires ValidNet(net)
  {
    gateway.Some? ==> Contains(net, gateway.value)
  }

  ghost predicate OverlapsStored(pools: map<PoolId, Pool>, net: Net)
    requires ValidNet(net) && PoolsValid(pools)
  {
    exists p :: p in pools && NetworksOverlap(net, pools[p].net)
  }

  ghost predicate PoolsValid(pools: map<PoolId, Pool>) {
    forall p :: p in pools ==> ValidNet(pools[p].net)
  }

  ghost function CreatePool(s: Stock, id: PoolId, pool: Pool): (Stock, Result<PoolId>)
    requires ValidNet(pool.net) && PoolsValid(s.pools)
  {
    if !GatewayFits(pool.net, pool.gateway) then (s, Err(Validation))
    else if OverlapsStored(s.pools, pool.net) then (s, Err(Conflict))
    else (s.(pools := s.pools[id := pool]), Ok(id))
  }

  function PatchPool(s: Stock, id: PoolId, patch: PoolPatch): (Stock, Result<()>)
    requires id in s.pools ==> ValidNet(s.pools[id].net)
  {
    if id !in s.pools then (s, Err(NotFound))
    else
      var current := s.pools[id];
      var patched := current.(
        scope := Get(patch.scope, current.scope),
        gateway := Or(patch.gateway, current.gateway),
        mtu := Get(patch.mtu, current.mtu),
        enabled := Get(patch.enabled, current.enabled));
      if !GatewayFits(current.net, patched.gateway) || !(576 <= patched.mtu <= 9216) then (s, Err(Validation))
      else (s.(pools := s.pools[id := patched]), Ok(()))
  }

  predicate HasAddresses(s: Stock, id: PoolId) {
    exists a :: a in s.addresses && s.addresses[a].pool == Some(id)
  }

  function DeletePool(s: Stock, id: PoolId): (Stock, Result<()>) {
    if HasAddresses(s, id) then (s, Err(Conflict))
    else if id !in s.pools then (s, Err(NotFound))
    else (s.(pools := s.pools - {id}), Ok(()))
  }

  predicate IsProtected(r: Record) {
    r.status == Used || r.status == Main || r.vm.Some?
  }

  predicate HasProtected(s: Stock, id: PoolId) {
    exists a :: a in s.addresses && s.addresses[a].pool == Some(id) && IsProtected(s.addresses[a])
  }

  function WithoutPool(addresses: map<IpAddr, Record>, id: PoolId): map<IpAddr, Record> {
    map a | a in addresses && addresses[a].pool != Some(id) :: addresses[a]
  }

  /** Undo a just-created pool together with its unassigned addresses. */
  function DeletePoolWithUnassigned(s: Stock, id: PoolId): (Stock, Result<()>) {
    if HasProtected(s, id) then (s, Err(Conflict))
    else if id !in s.pools then (s, Err(NotFound))
    else (s.(pools := s.pools - {id}, addresses := WithoutPool(s.addresses, id)), Ok(()))
  }

  // --- Addresses -----------------------------------------------------------------------

  predicate FitsPool(s: Stock, a: IpAddr, pool: Option<PoolId>, scope: Scope, prefix: nat)
    requires pool.Some? && pool.value in s.pools && ValidNet(s.pools[pool.value].net)
  {
    var p := s.pools[pool.value];
    p.scope == scope && Contains(p.net, a) && prefix >= p.net.prefix
  }

  /** Insert or refresh an address. `detected` refreshes keep the pool, gateway and
      details of an existing main address. */
  function UpsertAddress(s: Stock, a: IpAddr, spec: AddressSpec, detected: bool): (Stock, Result<()>)
    requires PoolsValid(s.pools)
  {
    if detected && spec.status != Main then (s, Err(Validation))
    else if spec.prefix > Width(a.family) || spec.status == Used then (s, Err(Validation))
    else if spec.gateway.Some? && spec.gateway.value.family != a.family then (s, Err(Validation))
    else if a in s.addresses && (s.addresses[a].vm.Some? || s.addresses[a].status == Used) then (s, Err(Conflict))
    else if a in s.addresses && s.addresses[a].status == Main && spec.status != Main then (s, Err(Conflict))
    else
      var keep := detected && a in s.addresses && s.addresses[a].status == Main;
      var pool := if keep then s.addresses[a].pool else spec.pool;
      var gateway := if keep then s.addresses[a].gateway else spec.gateway;
      var details := if keep then s.addresses[a].details + spec.details else spec.details;
      if pool.Some? && pool.value !in s.pools then (s, Err(NotFound))
      else if pool.Some? && !FitsPool(s, a, pool, spec.scope, spec.prefix) then (s, Err(Validation))
      else
        var record := Record(pool, spec.prefix, spec.scope, spec.status, gateway, None, false, details);
        (s.(addresses := s.addresses[a := record]), Ok(()))
  }

  function Demoted(addresses: map<IpAddr, Record>, v: VmId, family: Family): map<IpAddr, Record> {
    map a | a in addresses ::
      if addresses[a].vm == Some(v) && a.family == family then addresses[a].(primary := false) else addresses[a]
  }

  function AssignAddress(s: Stock, a: IpAddr, v: VmId, primary: bool, blacklisted: bool): (Stock, Result<()>) {
    if a !in s.addresses then (s, Err(NotFound))
    else
      var current := s.addresses[a];
      var owned := current.vm == Some(v);
      if !owned && current.pool.Some? && current.pool.value !in s.pools then (s, Err(Internal))
      else if !owned && current.pool.Some? && !s.pools[current.pool.value].enabled then (s, Err(Conflict))
      else if !owned && blacklisted then (s, Err(Conflict))
      else if !owned && current.status != Free then (s, Err(Conflict))
      else if v !in s.vms then (s, Err(Storage))
      else
        var others := if primary then Demoted(s.addresses, v, a.family) else s.addresses;
        (s.(addresses := others[a := current.(status := Used, vm := Some(v), primary := primary)]), Ok(()))
  }

  function Freed(r: Record): Record {
    r.(status := Free, vm := None, primary := false)
  }

  function ReleaseAddress(s: Stock, a: IpAddr): (Stock, Result<()>) {
    if a !in s.addresses || s.addresses[a].status != Used then (s, Err(Conflict))
    else (s.(addresses := s.addresses[a := Freed(s.addresses[a])]), Ok(()))
  }

  predicate IsMain(addresses: map<IpAddr, Record>, a: IpAddr) {
    a in addresses && addresses[a].status == Main
  }

  /** A status is set in two transactions: the check, and the write. */
  function CheckStatus(s: Stock, a: IpAddr, status: IpStatus): Result<()> {
    if status == Used then Err(Validation)
    else if IsMain(s.addresses, a) && status != Main then Err(Conflict)
    else Ok(())
  }

  function WriteStatus(s: Stock, a: IpAddr, status: IpStatus): (Stock, Result<()>) {
    if a !in s.addresses then (s, Err(NotFound))
    else (s.(addresses := s.addresses[a := s.addresses[a].(status := status, vm := None, primary := false)]), Ok(()))
  }

  /** Both, with nothing in between. */
  function SetStatus(s: Stock, a: IpAddr, status: IpStatus): (Stock, Result<()>) {
    var check := CheckStatus(s, a, status);
    if check.Err? then (s, check) else WriteStatus(s, a, status)
  }

  function DeleteAddress(s: Stock, a: IpAddr): (Stock, Result<()>) {
    if a !in s.addresses then (s, Err(NotFound))
    else if s.addresses[a].status == Main || s.addresses[a].vm.Some? then (s, Err(Conflict))
    else (s.(addresses := s.addresses - {a}), Ok(()))
  }

  function ReleaseAll(addresses: map<IpAddr, Record>, v: VmId): map<IpAddr, Record> {
    map a | a in addresses :: if addresses[a].vm == Some(v) then Freed(addresses[a]) else addresses[a]
  }

  function DeleteVm(s: Stock, v: VmId): (Stock, Result<()>) {
    if v !in s.vms then (s, Err(NotFound))
    else (s.(vms := s.vms - {v}, addresses := ReleaseAll(s.addresses, v)), Ok(()))
  }

  /** Cancelling a create releases the addresses; the VM row goes only while provisional. */
  function CancelCreate(s: Stock, v: VmId, provisional: bool): Stock {
    s.(addresses := ReleaseAll(s.addresses, v),
       vms := if provisional then s.vms - {v} else s.vms)
  }

  // --- Runs -----------------------------------------------------------------------------

  datatype Step =
    | AddVm(v: VmId)
    | RemoveVm(v: VmId)
    | CancelVm(v: VmId, provisional: bool)
    | NewPool(id: PoolId, pool: Pool)
    | EditPool(id: PoolId, patch: PoolPatch)
    | DropPool(id: PoolId)
    | UndoPool(id: PoolId)
    | Upsert(a: IpAddr, spec: AddressSpec, detected: bool)
    | Assign(a: IpAddr, v: VmId, primary: bool, blacklisted: bool)
    | Release(a: IpAddr)
    | LateWrite(a: IpAddr, status: IpStatus)
    | DropAddress(a: IpAddr)

  /** Identifiers of new rows are fresh and texts have been parsed. A status is written when its
      check has passed, at whatever earlier time. */
  predicate Enabled(s: Stock, step: Step) {
    match step
    case AddVm(v) => v !in s.vms
    case NewPool(id, pool) => id !in s.pools && ValidNet(pool.net)
    case Upsert(a, _, _) => ValidAddr(a)
    case LateWrite(_, status) => status != Used
    case _ => true
  }

  ghost function Next(s: Stock, step: Step): Stock
    requires PoolsValid(s.pools)
  {
    if !Enabled(s, step) then s
    else match step
      case AddVm(v) => s.(vms := s.vms + {v})
      case RemoveVm(v) => DeleteVm(s, v).0
      case CancelVm(v, provisional) => CancelCreate(s, v, provisional)
      case NewPool(id, pool) => CreatePool(s, id, pool).0
      case EditPool(id, patch) => PatchPool(s, id, patch).0
      case DropPool(id) => DeletePool(s, id).0
      case UndoPool(id) => DeletePoolWithUnassigned(s, id).0
      case Upsert(a, spec, detected) => UpsertAddress(s, a, spec, detected).0
      case Assign(a, v, primary, blacklisted) => AssignAddress(s, a, v, primary, blacklisted).0
      case Release(a) => ReleaseAddress(s, a).0
      case LateWrite(a, status) => WriteStatus(s, a, status).0
      case DropAddress(a) => DeleteAddress(s, a).0
  }

  // --- The invariant -----------------------------------------------------------------------

  ghost predicate PoolsDisjoint(pools: map<PoolId, Pool>)
    requires PoolsValid(pools)
  {
    forall p, q :: p in pools && q in pools && p != q ==> !Intersect(pools[p].net, pools[q].net)
  }

  /** Inside its pool, of its family, and never broader than it. */
  predicate WithinPool(s: Stock, a: IpAddr)
    requires a in s.addresses
  {
    var r := s.addresses[a];
    r.pool.Some? ==>
      && r.pool.value in s.pools
      && ValidNet(s.pools[r.pool.value].net)
      && Contains(s.pools[r.pool.value].net, a)
      && s.pools[r.pool.value].net.prefix <= r.prefix
  }

  predicate OwnershipOk(s: Stock, a: IpAddr)
    requires a in s.addresses
  {
    var r := s.addresses[a];
    && (r.status == Used <==> r.vm.Some?)
    && (r.vm.Some? ==> r.vm.value in s.vms)
    && (r.primary ==> r.vm.Some?)
  }

  /** Each VM has at most one primary address per family. */
  ghost predicate OnePrimary(addresses: map<IpAddr, Record>) {
    forall a, b | a in addresses && b in addresses && a.family == b.family ::
      addresses[a].primary && addresses[b].primary && addresses[a].vm == addresses[b].vm ==> a == b
  }

  ghost predicate Invariant(s: Stock) {
    && PoolsValid(s.pools)
    && PoolsDisjoint(s.pools)
    && (forall a :: a in s.addresses ==> WithinPool(s, a) && OwnershipOk(s, a))
    && OnePrimary(s.addresses)
  }

  lemma NewPoolKeepsInvariant(s: Stock, id: PoolId, pool: Pool)
    requires Invariant(s) && id !in s.pools && ValidNet(pool.net)
    ensures Invariant(CreatePool(s, id, pool).0)
  {
    forall p | p in s.pools
      ensures NetworksOverlap(pool.net, s.pools[p].net) <==> Intersect(pool.net, s.pools[p].net)
      ensures Intersect(pool.net, s.pools[p].net) <==> Intersect(s.pools[p].net, pool.net)
    {
      OverlapIsIntersection(pool.net, s.pools[p].net);
    }
  }

  lemma PoolStepKeepsInvariant(s: Stock, step: Step)
    requires Invariant(s) && (step.NewPool? || step.EditPool? || step.DropPool? || step.UndoPool?)
    ensures Invariant(Next(s, step))
  {
    match step
    case NewPool(id, pool) => if Enabled(s, step) { NewPoolKeepsInvariant(s, id, pool); }
    case EditPool(id, patch) => PatchKeepsInvariant(s, id, patch);
    case DropPool(id) => DropKeepsInvariant(s, id);
    case UndoPool(id) => UndoKeepsInvariant(s, id);
  }

  lemma PatchKeepsInvariant(s: Stock, id: PoolId, patch: PoolPatch)
    requires Invariant(s)
    ensures Invariant(PatchPool(s, id, patch).0)
  {
  }

  lemma DropKeepsInvariant(s: Stock, id: PoolId)
    requires Invariant(s)
    ensures Invariant(DeletePool(s, id).0)
  {
  }

  lemma UndoKeepsInvariant(s: Stock, id: PoolId)
    requires Invariant(s)
    ensures Invariant(DeletePoolWithUnassigned(s, id).0)
  {
  }

  /** Where the pools stay, only the addresses matter. */
  lemma SamePoolsKeepInvariant(s: Stock, t: Stock)
    requires Invariant(s) && t.pools == s.pools && OnePrimary(t.addresses)
    requires forall a :: a in t.addresses ==> WithinPool(t, a) && OwnershipOk(t, a)
    ensures Invariant(t)
  {
  }

  lemma ReleasedAddressOk(s: Stock, t: Stock, v: VmId, a: IpAddr)
    requires a in s.addresses && WithinPool(s, a) && OwnershipOk(s, a)
    requires t.pools == s.pools && t.addresses == ReleaseAll(s.addresses, v) && s.vms - {v} <= t.vms
    ensures a in t.addresses && WithinPool(t, a) && OwnershipOk(t, a)
  {
  }

  lemma ReleasingKeepsOnePrimary(addresses: map<IpAddr, Record>, v: VmId)
    requires OnePrimary(addresses)
    ensures OnePrimary(ReleaseAll(addresses, v))
  {
  }

  lemma ReleasingKeepsInvariant(s: Stock, t: Stock, v: VmId)
    requires Invariant(s) && t.pools == s.pools && t.addresses == ReleaseAll(s.addresses, v) && s.vms - {v} <= t.vms
    ensures Invariant(t)
  {
    forall a | a in t.addresses ensures WithinPool(t, a) && OwnershipOk(t, a) {
      ReleasedAddressOk(s, t, v, a);
    }
    ReleasingKeepsOnePrimary(s.addresses, v);
    SamePoolsKeepInvariant(s, t);
  }

  lemma VmStepKeepsInvariant(s: Stock, step: Step)
    requires Invariant(s) && (step.AddVm? || step.RemoveVm? || step.CancelVm?)
    ensures Invariant(Next(s, step))
  {
    var t := Next(s, step);
    if step.AddVm? || t == s {
      SamePoolsKeepInvariant(s, t);
    } else {
      ReleasingKeepsInvariant(s, t, step.v);
    }
  }

  lemma DemotingKeepsOnePrimary(addresses: map<IpAddr, Record>, v: VmId, family: Family)
    requires OnePrimary(addresses)
    ensures OnePrimary(Demoted(addresses, v, family))
    ensures var demoted := Demoted(addresses, v, family);
            forall a :: a in demoted && a.family == family && demoted[a].vm == Some(v) ==> !demoted[a].primary
  {
  }

  lemma OwningKeepsOnePrimary(addresses: map<IpAddr, Record>, a: IpAddr, r: Record)
    requires OnePrimary(addresses) && a in addresses
    requires r.primary ==> forall b :: b in addresses && b.family == a.family && addresses[b].vm == r.vm ==>
                                         !addresses[b].primary
    ensures OnePrimary(addresses[a := r])
  {
  }

  lemma AssignedAddressOk(s: Stock, a: IpAddr, v: VmId, primary: bool, blacklisted: bool, b: IpAddr)
    requires a in s.addresses && b in s.addresses && WithinPool(s, b) && OwnershipOk(s, b)
    ensures var t := AssignAddress(s, a, v, primary, blacklisted).0;
            b in t.addresses && WithinPool(t, b) && OwnershipOk(t, b)
  {
  }

  lemma AssignKeepsInvariant(s: Stock, a: IpAddr, v: VmId, primary: bool, blacklisted: bool)
    requires Invariant(s)
    ensures Invariant(AssignAddress(s, a, v, primary, blacklisted).0)
  {
    var t := AssignAddress(s, a, v, primary, blacklisted).0;
    if t != s {
      forall b | b in t.addresses ensures WithinPool(t, b) && OwnershipOk(t, b) {
        AssignedAddressOk(s, a, v, primary, blacklisted, b);
      }
      AssignKeepsOnePrimary(s, a, v, primary, blacklisted);
      SamePoolsKeepInvariant(s, t);
    }
  }

  lemma AssignKeepsOnePrimary(s: Stock, a: IpAddr, v: VmId, primary: bool, blacklisted: bool)
    requires OnePrimary(s.addresses) && a in s.addresses
    ensures OnePrimary(AssignAddress(s, a, v, primary, blacklisted).0.addresses)
  {
    var r := s.addresses[a].(status := Used, vm := Some(v), primary := primary);
    if primary {
      DemotingKeepsOnePrimary(s.addresses, v, a.family);
      OwningKeepsOnePrimary(Demoted(s.addresses, v, a.family), a, r);
    } else {
      OwningKeepsOnePrimary(s.addresses, a, r);
    }
  }

  lemma WritingUnassignedKeepsInvariant(s: Stock, a: IpAddr, r: Record)
    requires Invariant(s) && r.status != Used && r.vm.None? && !r.primary
    requires WithinPool(s.(addresses := s.addresses[a := r]), a)
    ensures Invariant(s.(addresses := s.addresses[a := r]))
  {
    var t := s.(addresses := s.addresses[a := r]);
    forall b | b in t.addresses ensures WithinPool(t, b) && OwnershipOk(t, b) {
      if b != a { assert WithinPool(s, b) && OwnershipOk(s, b); }
    }
  }

  lemma UpsertKeepsInvariant(s: Stock, step: Step)
    requires Invariant(s) && step.Upsert?
    ensures Invariant(Next(s, step))
  {
    var t := Next(s, step);
    if t != s {
      WritingUnassignedKeepsInvariant(s, step.a, t.addresses[step.a]);
    }
  }

  lemma AddressStepKeepsInvariant(s: Stock, step: Step)
    requires Invariant(s) && (step.Release? || step.LateWrite? || step.DropAddress?)
    ensures Invariant(Next(s, step))
  {
    var t := Next(s, step);
    if t != s && !step.DropAddress? {
      WritingUnassignedKeepsInvariant(s, step.a, t.addresses[step.a]);
    }
  }

  // --- What a single step can do to an address ------------------------------------------------

  /** Ownership passes only through an unassigned state. */
  ghost predicate KeepsOwners(s: Stock, t: Stock) {
    forall a :: a in s.addresses && s.addresses[a].vm.Some? ==>
      a in t.addresses && (t.addresses[a].vm.Some? ==> t.addresses[a].vm == s.addresses[a].vm)
  }

  /** A status other than main is written, whatever the address has become since the check. */
  predicate Demotes(step: Step, a: IpAddr) {
    step.LateWrite? && step.a == a && step.status != Main && step.status != Used
  }

  ghost predicate KeepsMain(s: Stock, t: Stock, step: Step) {
    forall a :: IsMain(s.addresses, a) ==> (IsMain(t.addresses, a) <==> !Demotes(step, a))
  }

  lemma AssignKeepsOwners(s: Stock, step: Step)
    requires step.Assign? && PoolsValid(s.pools) && forall b :: b in s.addresses ==> OwnershipOk(s, b)
    ensures KeepsOwners(s, Next(s, step)) && KeepsMain(s, Next(s, step), step)
  {
    assert step.a in s.addresses ==> OwnershipOk(s, step.a);
  }

  lemma WritingKeepsOwners(s: Stock, t: Stock, a: IpAddr, step: Step)
    requires t.addresses == if a in t.addresses then s.addresses[a := t.addresses[a]] else s.addresses - {a}
    requires a in s.addresses && s.addresses[a].vm.Some? ==>
               a in t.addresses && (t.addresses[a].vm.Some? ==> t.addresses[a].vm == s.addresses[a].vm)
    requires IsMain(s.addresses, a) ==> (IsMain(t.addresses, a) <==> !Demotes(step, a))
    requires forall b :: b != a ==> !Demotes(step, b)
    ensures KeepsOwners(s, t) && KeepsMain(s, t, step)
  {
  }

  lemma OneRecordKeepsOwners(s: Stock, step: Step)
    requires Invariant(s) && (step.Upsert? || step.Release? || step.LateWrite? || step.DropAddress?)
    ensures KeepsOwners(s, Next(s, step)) && KeepsMain(s, Next(s, step), step)
  {
    var t := Next(s, step);
    assert step.a in s.addresses ==> OwnershipOk(s, step.a);
    if t.addresses != s.addresses { WritingKeepsOwners(s, t, step.a, step); }
  }

  lemma VmStepKeepsOwners(s: Stock, step: Step)
    requires Invariant(s) && (step.AddVm? || step.RemoveVm? || step.CancelVm?)
    ensures KeepsOwners(s, Next(s, step)) && KeepsMain(s, Next(s, step), step)
  {
    forall a | IsMain(s.addresses, a) ensures s.addresses[a].vm.None? {
      assert OwnershipOk(s, a);
    }
  }

  lemma PoolStepKeepsOwners(s: Stock, step: Step)
    requires Invariant(s) && (step.NewPool? || step.EditPool? || step.DropPool? || step.UndoPool?)
    ensures KeepsOwners(s, Next(s, step)) && KeepsMain(s, Next(s, step), step)
  {
  }

  lemma StepKeepsOwners(s: Stock, step: Step)
    requires Invariant(s)
    ensures KeepsOwners(s, Next(s, step)) && KeepsMain(s, Next(s, step), step)
  {
    if step.Assign? {
      AssignKeepsOwners(s, step);
    } else if step.Upsert? || step.Release? || step.LateWrite? || step.DropAddress? {
      OneRecordKeepsOwners(s, step);
    } else if step.AddVm? || step.RemoveVm? || step.CancelVm? {
      VmStepKeepsOwners(s, step);
    } else {
      PoolStepKeepsOwners(s, step);
    }
  }

  lemma StepKeepsInvariant(s: Stock, step: Step)
    requires Invariant(s)
    ensures Invariant(Next(s, step))
  {
    if step.NewPool? || step.EditPool? || step.DropPool? || step.UndoPool? {
      PoolStepKeepsInvariant(s, step);
    } else if step.AddVm? || step.RemoveVm? || step.CancelVm? {
      VmStepKeepsInvariant(s, step);
    } else if step.Assign? {
      AssignKeepsInvariant(s, step.a, step.v, step.primary, step.blacklisted);
    } else if step.Upsert? {
      UpsertKeepsInvariant(s, step);
    } else {
      AddressStepKeepsInvariant(s, step);
    }
  }

  // --- Whole runs ---------------------------------------------------------------------------

  /** The states along a run, the first one included. */
  ghost function States(s: Stock, steps: seq<Step>): (states: seq<Stock>)
    requires Invariant(s)
    ensures |states| == |steps| + 1 && states[0] == s
    ensures forall i :: 0 <= i < |states| ==> Invariant(states[i])
    ensures forall i :: 0 <= i < |steps| ==> Invariant(states[i]) && states[i + 1] == Next(states[i], steps[i])
    decreases |steps|
  {
    if steps == [] then [s]
    else
      StepKeepsInvariant(s, steps[0]);
      var rest := States(Next(s, steps[0]), steps[1..]);
      assert forall i :: 0 <= i < |steps[1..]| ==> steps[1..][i] == steps[i + 1];
      [s] + rest
  }

  predicate OwnedBy(s: Stock, a: IpAddr, v: VmId) {
    a in s.addresses && s.addresses[a].vm == Some(v)
  }

  predicate Unassigned(s: Stock, a: IpAddr) {
    a in s.addresses && s.addresses[a].vm.None?
  }

  /** Along every run the pools stay disjoint, every address lies within its pool, is used
      exactly when it has a VM, and no VM has two primary addresses of one family. */
  lemma RunsKeepInvariant(steps: seq<Step>, i: nat)
    requires i <= |steps|
    ensures Invariant(Stock({}, map[], map[]))
    ensures Invariant(States(Stock({}, map[], map[]), steps)[i])
  {
  }

  /** If an address belongs to one VM now and to another later, it was unassigned between. */
  lemma {:induction false} OwnershipPassesThroughUnassigned(
    s: Stock, steps: seq<Step>, a: IpAddr, v: VmId, i: nat, j: nat)
    requires Invariant(s) && i <= j <= |steps|
    requires OwnedBy(States(s, steps)[i], a, v)
    requires a in States(s, steps)[j].addresses && States(s, steps)[j].addresses[a].vm != Some(v)
    ensures exists k :: i < k <= j && Unassigned(States(s, steps)[k], a)
    decreases j - i
  {
    var states := States(s, steps);
    StepKeepsOwners(states[i], steps[i]);
    if OwnedBy(states[i + 1], a, v) {
      OwnershipPassesThroughUnassigned(s, steps, a, v, i + 1, j);
    } else {
      assert Unassigned(states[i + 1], a);
    }
  }

  /** A main address stays main along a run if and only if no late write of another status meets
      it. */
  lemma {:induction false} MainStaysMain(s: Stock, steps: seq<Step>, a: IpAddr, n: nat)
    requires Invariant(s) && n <= |steps| && IsMain(s.addresses, a)
    ensures (forall i :: 0 <= i <= n ==> IsMain(States(s, steps)[i].addresses, a))
            <==> forall i :: 0 <= i < n ==> !Demotes(steps[i], a)
  {
    var states := States(s, steps);
    if n > 0 {
      MainStaysMain(s, steps, a, n - 1);
      StepKeepsOwners(states[n - 1], steps[n - 1]);
      if forall i :: 0 <= i < n ==> !Demotes(steps[i], a) {
        assert IsMain(states[n - 1].addresses, a) && IsMain(states[n].addresses, a);
      }
      if forall i :: 0 <= i <= n ==> IsMain(states[i].addresses, a) {
        assert IsMain(states[n - 1].addresses, a) && IsMain(states[n].addresses, a);
      }
    }
  }

  /** Every status written along the run was checked before, in some earlier state. */
  ghost predicate WritesAreChecked(s: Stock, steps: seq<Step>)
    requires Invariant(s)
  {
    forall i :: 0 <= i < |steps| && steps[i].LateWrite? ==>
      exists j :: 0 <= j <= i && CheckStatus(States(s, steps)[j], steps[i].a, steps[i].status).Ok?
  }

  /** The check does not prevent it: an address that is detected as a host address between the
      check and the write is main no more. */
  lemma LateWriteDemotes(a: IpAddr, spec: AddressSpec)
    requires ValidAddr(a) && spec.status == Main && spec.pool.None? && spec.gateway.None?
    requires spec.prefix <= Width(a.family)
    ensures var s, steps := Stock({}, map[], map[]), [Upsert(a, spec, true), LateWrite(a, Free)];
            && Invariant(s) && WritesAreChecked(s, steps)
            && IsMain(States(s, steps)[1].addresses, a) && !IsMain(States(s, steps)[2].addresses, a)
  {
    var s, steps := Stock({}, map[], map[]), [Upsert(a, spec, true), LateWrite(a, Free)];
    assert Invariant(s);
    var states := States(s, steps);
    assert CheckStatus(states[0], a, Free).Ok?;
    assert IsMain(states[1].addresses, a);
    StepKeepsOwners(states[1], steps[1]);
    assert Demotes(steps[1], a);
  }

  /** Deleting a VM loses no address: exactly the addresses it owned become free. */
  lemma DeletionConservesInventory(s: Stock, v: VmId)
    requires Invariant(s) && v in s.vms
    ensures var t := DeleteVm(s, v).0;
            && t.addresses.Keys == s.addresses.Keys
            && (forall a :: a in s.addresses ==>
                  if s.addresses[a].vm == Some(v)
                  then t.addresses[a].status == Free && t.addresses[a] == Freed(s.addresses[a])
                  else t.addresses[a] == s.addresses[a])
            && (forall a :: a in t.addresses ==> t.addresses[a].vm != Some(v))
  {
  }

  /** A pool is refused exactly when it shares an address with a stored pool. */
  lemma PoolRefusedIfShared(s: Stock, id: PoolId, pool: Pool)
    requires Invariant(s) && ValidNet(pool.net) && GatewayFits(pool.net, pool.gateway)
    ensures CreatePool(s, id, pool).1 == Err(Conflict) <==>
            exists p, a :: p in s.pools && ValidAddr(a) && Contains(pool.net, a) && Contains(s.pools[p].net, a)
  {
    forall p | p in s.pools
      ensures NetworksOverlap(pool.net, s.pools[p].net) <==> Intersect(pool.net, s.pools[p].net)
    {
      OverlapIsIntersection(pool.net, s.pools[p].net);
    }
  }
}
