/** The pool and address operations of the `Database` object on tables updated in place,
    and the request that creates a pool together with its inventory. */
module InventoryStore {
  import opened Basics
  import opened Cidr
  import opened PoolPlan
  import opened AddressInventory
  import opened PoolCreation

  class InventoryStore {
    var vms: set<VmId>
    var pools: map<PoolId, Pool>
    var addresses: map<IpAddr, Record>

    ghost function Snapshot(): Stock
      reads this
    {
      Stock(vms, pools, addresses)
    }

    ghost predicate Valid()
      reads this
    {
      Invariant(Snapshot())
    }

    constructor ()
      ensures Snapshot() == Stock({}, map[], map[]) && Valid()
    {
      vms, pools, addresses := {}, map[], map[];
    }

    // --- Pools ---------------------------------------------------------------------------

    method CreatePool(id: PoolId, pool: Pool) returns (r: Result<PoolId>)
      requires PoolsValid(pools) && id !in pools && ValidNet(pool.net)
      modifies this`pools
      ensures (Snapshot(), r) == AddressInventory.CreatePool(old(Snapshot()), id, pool)
    {
      if pool.gateway.Some? && !Contains(pool.net, pool.gateway.value) { return Err(Validation); }
      var left := pools.Keys;
      while left != {}
        invariant left <= pools.Keys
        invariant forall p :: p in pools && p !in left ==> !NetworksOverlap(pool.net, pools[p].net)
      {
        var p :| p in left;
        if NetworksOverlap(pool.net, pools[p].net) { return Err(Conflict); }
        left := left - {p};
      }
      pools := pools[id := pool];
      r := Ok(id);
    }

    method PatchPool(id: PoolId, patch: PoolPatch) returns (r: Result<()>)
      requires PoolsValid(pools)
      modifies this`pools
      ensures (Snapshot(), r) == AddressInventory.PatchPool(old(Snapshot()), id, patch)
    {
      if id !in pools { return Err(NotFound); }
      var current := pools[id];
      var gateway := if patch.gateway.Some? then patch.gateway else current.gateway;
      if gateway.Some? && !Contains(current.net, gateway.value) { return Err(Validation); }
      var mtu := if patch.mtu.Some? then patch.mtu.value else current.mtu;
      if mtu < 576 || mtu > 9216 { return Err(Validation); }
      pools := pools[id := Pool(
        current.net,
        if patch.scope.Some? then patch.scope.value else current.scope,
        gateway, mtu,
        if patch.enabled.Some? then patch.enabled.value else current.enabled)];
      r := Ok(());
    }

    method DeletePool(id: PoolId) returns (r: Result<()>)
      modifies this`pools
      ensures (Snapshot(), r) == AddressInventory.DeletePool(old(Snapshot()), id)
    {
      var members := set a | a in addresses && addresses[a].pool == Some(id);
      assert members == {} <==> !HasAddresses(Snapshot(), id) by {
        if a :| a in addresses && addresses[a].pool == Some(id) { assert a in members; }
      }
      if |members| != 0 { return Err(Conflict); }
      if id !in pools { return Err(NotFound); }
      pools := pools - {id};
      r := Ok(());
    }

    method DeletePoolWithUnassigned(id: PoolId) returns (r: Result<()>)
      modifies this`pools, this`addresses
      ensures (Snapshot(), r) == AddressInventory.DeletePoolWithUnassigned(old(Snapshot()), id)
    {
      if exists a :: a in addresses && addresses[a].pool == Some(id) && IsProtected(addresses[a]) {
        return Err(Conflict);
      }
      if id !in pools { return Err(NotFound); }
      addresses := map a | a in addresses && addresses[a].pool != Some(id) :: addresses[a];
      pools := pools - {id};
      r := Ok(());
    }

    // --- Addresses -----------------------------------------------------------------------

    method UpsertAddress(a: IpAddr, spec: AddressSpec, detected: bool) returns (r: Result<()>)
      requires PoolsValid(pools)
      modifies this`addresses
      ensures (Snapshot(), r) == AddressInventory.UpsertAddress(old(Snapshot()), a, spec, detected)
    {
      if detected && spec.status != Main { return Err(Validation); }
      if spec.prefix > Width(a.family) { return Err(Validation); }
      if spec.status == Used { return Err(Validation); }
      if spec.gateway.Some? && spec.gateway.value.family != a.family { return Err(Validation); }
      var pool, gateway, details := spec.pool, spec.gateway, spec.details;
      if a in addresses {
        var existing := addresses[a];
        if existing.vm.Some? || existing.status == Used { return Err(Conflict); }
        if existing.status == Main && spec.status != Main { return Err(Conflict); }
        if detected && existing.status == Main {
          pool, gateway, details := existing.pool, existing.gateway, existing.details + spec.details;
        }
      }
      if pool.Some? {
        if pool.value !in pools { return Err(NotFound); }
        var p := pools[pool.value];
        if p.scope != spec.scope || !Contains(p.net, a) { return Err(Validation); }
        if spec.prefix < p.net.prefix { return Err(Validation); }
      }
      addresses := addresses[a := Record(pool, spec.prefix, spec.scope, spec.status, gateway, None, false, details)];
      r := Ok(());
    }

    method AssignAddress(a: IpAddr, v: VmId, primary: bool, blacklisted: bool) returns (r: Result<()>)
      modifies this`addresses
      ensures (Snapshot(), r) == AddressInventory.AssignAddress(old(Snapshot()), a, v, primary, blacklisted)
    {
      if a !in addresses { return Err(NotFound); }
      var current := addresses[a];
      if current.vm != Some(v) {
        if current.pool.Some? {
          if current.pool.value !in pools { return Err(Internal); }
          if !pools[current.pool.value].enabled { return Err(Conflict); }
        }
        if blacklisted { return Err(Conflict); }
        if current.status != Free { return Err(Conflict); }
      }
      if v !in vms { return Err(Storage); }
      if primary {
        addresses := map b | b in addresses ::
          if addresses[b].vm == Some(v) && b.family == a.family
          then addresses[b].(primary := false) else addresses[b];
      }
      addresses := addresses[a := addresses[a].(status := Used, vm := Some(v), primary := primary)];
      r := Ok(());
    }

    method ReleaseAddress(a: IpAddr) returns (r: Result<()>)
      modifies this`addresses
      ensures (Snapshot(), r) == AddressInventory.ReleaseAddress(old(Snapshot()), a)
    {
      if a !in addresses || addresses[a].status != Used { return Err(Conflict); }
      addresses := addresses[a := addresses[a].(status := Free, vm := None, primary := false)];
      r := Ok(());
    }

    /** The first of the two transactions that set a status. */
    method CheckStatus(a: IpAddr, status: IpStatus) returns (r: Result<()>)
      ensures r == AddressInventory.CheckStatus(Snapshot(), a, status)
    {
      if status == Used { return Err(Validation); }
      if a in addresses && addresses[a].status == Main && status != Main { return Err(Conflict); }
      r := Ok(());
    }

    /** The second: it writes whatever the address has become. */
    method WriteStatus(a: IpAddr, status: IpStatus) returns (r: Result<()>)
      modifies this`addresses
      ensures (Snapshot(), r) == AddressInventory.WriteStatus(old(Snapshot()), a, status)
    {
      if a !in addresses { return Err(NotFound); }
      addresses := addresses[a := addresses[a].(status := status, vm := None, primary := false)];
      r := Ok(());
    }

    method SetStatus(a: IpAddr, status: IpStatus) returns (r: Result<()>)
      modifies this`addresses
      ensures (Snapshot(), r) == AddressInventory.SetStatus(old(Snapshot()), a, status)
    {
      r := CheckStatus(a, status);
      if r.Ok? { r := WriteStatus(a, status); }
    }

    method DeleteAddress(a: IpAddr) returns (r: Result<()>)
      modifies this`addresses
      ensures (Snapshot(), r) == AddressInventory.DeleteAddress(old(Snapshot()), a)
    {
      if a !in addresses { return Err(NotFound); }
      if addresses[a].status == Main || addresses[a].vm.Some? { return Err(Conflict); }
      addresses := addresses - {a};
      r := Ok(());
    }

    method ReleaseOwned(v: VmId)
      modifies this`addresses
      ensures addresses == ReleaseAll(old(addresses), v)
    {
      addresses := map a | a in addresses ::
        if addresses[a].vm == Some(v)
        then addresses[a].(status := Free, vm := None, primary := false) else addresses[a];
    }

    method DeleteVm(v: VmId) returns (r: Result<()>)
      modifies this`vms, this`addresses
      ensures (Snapshot(), r) == AddressInventory.DeleteVm(old(Snapshot()), v)
    {
      if v !in vms { return Err(NotFound); }
      ReleaseOwned(v);
      vms := vms - {v};
      r := Ok(());
    }

    method CancelCreate(v: VmId, provisional: bool)
      modifies this`vms, this`addresses
      ensures Snapshot() == AddressInventory.CancelCreate(old(Snapshot()), v, provisional)
    {
      ReleaseOwned(v);
      if provisional { vms := vms - {v}; }
    }

    // --- Creating a pool with its inventory --------------------------------------------------

    /** Enter one planned address unless it is a host address. */
    method EnterPlanned(id: PoolId, pool: Pool, e: Entry) returns (r: Result<()>)
      requires PoolsValid(pools) && id in pools && pools[id] == pool
      requires Contains(pool.net, e.0) && GatewayFits(pool.net, pool.gateway) && (e.1 == Free || e.1 == Reserved)
      modifies this`addresses
      ensures r == if Taken(old(addresses), e.0) then Err(Conflict) else Ok(())
      ensures addresses == if IsMain(old(addresses), e.0) || r.Err? then old(addresses)
                           else old(addresses)[e.0 := PlannedRecord(id, pool, e.1)]
      ensures Snapshot() == old(Snapshot())
              || exists spec :: Snapshot() == AddressInventory.UpsertAddress(old(Snapshot()), e.0, spec, false).0
    {
      var (a, status) := e;
      if a in addresses && addresses[a].status == Main { return Ok(()); }
      var spec := AddressSpec(Some(id), pool.net.prefix, pool.scope, status, pool.gateway, "materialized");
      r := UpsertAddress(a, spec, false);
    }

    method EnterNext(id: PoolId, pool: Pool, e: Entry) returns (r: Result<()>)
      requires Valid() && id in pools && pools[id] == pool && ValidAddr(e.0)
      requires Contains(pool.net, e.0) && GatewayFits(pool.net, pool.gateway) && (e.1 == Free || e.1 == Reserved)
      modifies this`addresses
      ensures Valid()
      ensures r == if Taken(old(addresses), e.0) then Err(Conflict) else Ok(())
      ensures addresses == if IsMain(old(addresses), e.0) || r.Err? then old(addresses)
                           else old(addresses)[e.0 := PlannedRecord(id, pool, e.1)]
    {
      r := EnterPlanned(id, pool, e);
      UpsertStepIsValid(old(Snapshot()), Snapshot(), e.0);
    }

    /** One turn of the loop below: `before` are the addresses it started from. */
    method EnterPlannedAt(id: PoolId, pool: Pool, entries: seq<Entry>, k: nat, ghost before: map<IpAddr, Record>)
      returns (r: Result<()>)
      requires Valid() && id in pools && pools[id] == pool && GatewayFits(pool.net, pool.gateway)
      requires k < |entries| && StrictlyAscending(entries) && AreEnterable(pool, entries)
      requires addresses == Entered(before, id, pool, entries, k) && NoneTakenBelow(before, entries, k)
      modifies this`addresses
      ensures Valid()
      ensures r.Ok? ==> addresses == Entered(before, id, pool, entries, k + 1) && NoneTakenBelow(before, entries, k + 1)
      ensures r.Err? ==>
                r == Err(Conflict) && addresses == old(addresses) && Taken(before, entries[k].0)
    {
      assert IsEnterable(pool, entries[k]);
      EnteringNext(before, id, pool, entries, k);
      r := EnterNext(id, pool, entries[k]);
    }

    /** Enter the planned addresses one by one, up to the first that is in use. */
    method EnterAll(id: PoolId, pool: Pool, entries: seq<Entry>) returns (r: Result<()>, ghost entered: nat)
      requires Valid() && id in pools && pools[id] == pool && GatewayFits(pool.net, pool.gateway)
      requires StrictlyAscending(entries) && AreEnterable(pool, entries)
      modifies this`addresses
      ensures Valid() && entered <= |entries| && addresses == Entered(old(addresses), id, pool, entries, entered)
      ensures if r.Ok? then entered == |entries| && NoneTakenBelow(old(addresses), entries, entered)
              else r == Err(Conflict) && entered < |entries| && StopsAt(old(addresses), entries, entered)
    {
      entered := 0;
      for k := 0 to |entries|
        invariant Valid() && entered == k && addresses == Entered(old(addresses), id, pool, entries, k)
        invariant NoneTakenBelow(old(addresses), entries, k)
      {
        r := EnterPlannedAt(id, pool, entries, k, old(addresses));
        if r.Err? { return; }
        entered := k + 1;
      }
      r := Ok(());
    }

    method CreateEmptyPool(id: PoolId, pool: Pool) returns (r: Result<PoolId>)
      requires Valid() && id !in pools && ValidNet(pool.net) && GatewayFits(pool.net, pool.gateway)
      modifies this`pools
      ensures Valid() && pools == if r.Ok? then old(pools)[id := pool] else old(pools)
      ensures if OverlapsStored(old(pools), pool.net) then r == Err(Conflict) else r.Ok?
    {
      PoolStepIsValid(Snapshot(), AddressInventory.CreatePool(Snapshot(), id, pool).0, NewPool(id, pool));
      r := CreatePool(id, pool);
    }

    /** Take a partly filled pool out again; its addresses are unassigned, so this cannot fail. */
    method UndoCreate(id: PoolId)
      requires Valid() && id in pools && !HasProtected(Snapshot(), id)
      modifies this
      ensures Valid() && vms == old(vms) && pools == old(pools) - {id} && addresses == WithoutPool(old(addresses), id)
    {
      PoolStepIsValid(Snapshot(), AddressInventory.DeletePoolWithUnassigned(Snapshot(), id).0, UndoPool(id));
      var undone := DeletePoolWithUnassigned(id);
    }

    /** Create the pool and enter its addresses; a failure takes the pool out again, as does
        a firewall that cannot protect it. */
    method CreateAndFill(id: PoolId, q: PoolRequest, entries: seq<Entry>) returns (r: Result<()>)
      requires Valid() && id !in pools && IsWellTyped(q) && Accepted(q)
      requires IsPlan(q, entries) && AreEnterable(PoolOf(q), entries)
      modifies this
      ensures Valid()
      ensures r.Err? ==> r == Err(Conflict)
      ensures IsOutcome(old(Snapshot()), Snapshot(), if r.Ok? then Ok(IsSparse(q)) else Err(Conflict), id, q)
    {
      var pool := PoolOf(q);
      NobodyUses(Snapshot(), id);
      GatewayLiesInside(q);
      var created := CreateEmptyPool(id, pool);
      if created.Err? { return Err(created.error); }
      ghost var entered;
      r, entered := EnterAll(id, pool, entries);
      if r.Err? || !q.guarded {
        r := Err(Conflict);
        NoneProtected(old(addresses), id, pool, entries, entered, Snapshot());
        UndoCreate(id);
        UndoneIsOutcome(old(Snapshot()), Snapshot(), id, q, entries, entered);
      } else {
        FilledIsOutcome(old(Snapshot()), Snapshot(), id, q, entries);
      }
    }

    /** The request: plan the addresses, then create the pool and fill it. */
    method CreatePoolWithInventory(id: PoolId, q: PoolRequest) returns (r: Result<bool>)
      requires Valid() && id !in pools && IsWellTyped(q)
      modifies this
      ensures Valid()
      ensures IsOutcome(old(Snapshot()), Snapshot(), r, id, q)
      ensures forall a :: a in old(addresses) && IsProtected(old(addresses)[a]) ==>
                a in addresses && addresses[a] == old(addresses)[a]
    {
      r := PlanAndCreate(id, q);
      forall a | a in old(addresses) && IsProtected(old(addresses)[a])
        ensures a in addresses && addresses[a] == old(addresses)[a]
      {
        ProtectedIsKept(old(Snapshot()), Snapshot(), r, id, q, a);
      }
    }

    method PlanAndCreate(id: PoolId, q: PoolRequest) returns (r: Result<bool>)
      requires Valid() && id !in pools && IsWellTyped(q)
      modifies this
      ensures Valid()
      ensures IsOutcome(old(Snapshot()), Snapshot(), r, id, q)
    {
      var plan := PlannedPoolAddresses(q.cidr, q.gateway, q.items);
      if plan.Err? { return Err(plan.error); }
      var (planned, sparse) := plan.value;
      if sparse { SparsePlanIsPlan(q, planned); } else { FullPlanIsPlan(q, planned); }
      PlanIsEnterable(q, planned);
      var filled := CreateAndFill(id, q, planned);
      r := if filled.Err? then Err(filled.error) else Ok(sparse);
    }
  }

  /** An address of the pool's network, to become free or reserved. */
  ghost predicate IsEnterable(pool: Pool, e: Entry) {
    ValidNet(pool.net) && ValidAddr(e.0) && Contains(pool.net, e.0) && (e.1 == Free || e.1 == Reserved)
  }

  ghost predicate AreEnterable(pool: Pool, entries: seq<Entry>) {
    && ValidNet(pool.net)
    && forall i {:trigger IsEnterable(pool, entries[i])} :: 0 <= i < |entries| ==> IsEnterable(pool, entries[i])
  }

  lemma PlanIsEnterable(q: PoolRequest, entries: seq<Entry>)
    requires IsWellTyped(q) && Accepted(q) && IsPlan(q, entries)
    ensures AreEnterable(PoolOf(q), entries)
  {
    ContainedIsValid(q.cidr.value);
    forall i | 0 <= i < |entries| ensures Contains(q.cidr.value, entries[i].0) {
      assert Lists(entries, entries[i].0);
    }
  }

  lemma GatewayLiesInside(q: PoolRequest)
    requires IsWellTyped(q) && Accepted(q)
    ensures GatewayFits(PoolOf(q).net, PoolOf(q).gateway)
  {
    if PoolOf(q).gateway.Some? {
      assert Requested(GatewayOf(q.gateway), q.items, PoolOf(q).gateway.value);
    }
  }

  lemma EnteringNext(addresses: map<IpAddr, Record>, id: PoolId, pool: Pool, entries: seq<Entry>, k: nat)
    requires k < |entries| && StrictlyAscending(entries)
    ensures var entered, a := Entered(addresses, id, pool, entries, k), entries[k].0;
            && Taken(entered, a) == Taken(addresses, a)
            && Entered(addresses, id, pool, entries, k + 1)
               == if IsMain(entered, a) then entered else entered[a := PlannedRecord(id, pool, entries[k].1)]
  {
    EnteredAt(addresses, id, pool, entries, k, entries[k].0);
    forall i | 0 <= i < k ensures entries[i].0 != entries[k].0 {
      assert Rank(entries[i].0) < Rank(entries[k].0);
    }
  }

  /** The addresses entered so far are unassigned. */
  lemma NoneProtected(
    addresses: map<IpAddr, Record>, id: PoolId, pool: Pool, entries: seq<Entry>, k: nat, s: Stock)
    requires k <= |entries| && StrictlyAscending(entries) && s.addresses == Entered(addresses, id, pool, entries, k)
    requires forall i :: 0 <= i < |entries| ==> entries[i].1 == Free || entries[i].1 == Reserved
    requires forall a :: a in addresses ==> addresses[a].pool != Some(id)
    ensures !HasProtected(s, id)
  {
    forall a | a in s.addresses && s.addresses[a].pool == Some(id) ensures !IsProtected(s.addresses[a]) {
      EnteredAt(addresses, id, pool, entries, k, a);
    }
  }

  lemma PoolStepIsValid(before: Stock, after: Stock, step: Step)
    requires Invariant(before) && Enabled(before, step)
    requires || (step.NewPool? && after == AddressInventory.CreatePool(before, step.id, step.pool).0)
             || (step.UndoPool? && after == AddressInventory.DeletePoolWithUnassigned(before, step.id).0)
    ensures Invariant(after)
  {
    StepKeepsInvariant(before, step);
  }

  lemma UpsertStepIsValid(before: Stock, after: Stock, a: IpAddr)
    requires Invariant(before) && ValidAddr(a)
    requires after == before || exists spec :: after == AddressInventory.UpsertAddress(before, a, spec, false).0
    ensures Invariant(after)
  {
    if after != before {
      var spec :| after == AddressInventory.UpsertAddress(before, a, spec, false).0;
      StepKeepsInvariant(before, Upsert(a, spec, false));
    }
  }

  lemma NobodyUses(s: Stock, id: PoolId)
    requires Invariant(s) && id !in s.pools
    ensures forall a :: a in s.addresses ==> s.addresses[a].pool != Some(id)
  {
    forall a | a in s.addresses ensures s.addresses[a].pool != Some(id) {
      assert WithinPool(s, a);
    }
  }
}
