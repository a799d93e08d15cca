/** Creating a pool together with its inventory: plan, create, enter the planned addresses
    one by one, and take the pool out again when one of them is in use or the firewall cannot
    be made to protect the pool. */
module PoolCreation {
  import opened Basics
  import opened Cidr
  import opened PoolPlan
  import opened AddressInventory

  /** `cidr` and `gateway` are None where the text does not parse; `guarded` says that the
      ownership guard is off or that the firewall accepts the pool. */
  datatype PoolRequest = PoolRequest(
    cidr: Option<Net>, gateway: Option<Option<IpAddr>>, items: seq<ReservedItem>,
    scope: Scope, mtu: nat, enabled: bool, guarded: bool)

  ghost predicate IsWellTyped(q: PoolRequest) {
    && (q.cidr.Some? ==> ValidNet(q.cidr.value))
    && (GatewayOf(q.gateway).Some? ==> ValidAddr(GatewayOf(q.gateway).value))
    && (forall i :: 0 <= i < |q.items| ==> WellTyped(q.items[i]))
  }

  ghost predicate Accepted(q: PoolRequest)
    requires IsWellTyped(q)
  {
    PlanAccepted(q.cidr, q.gateway, q.items)
  }

  function PoolOf(q: PoolRequest): Pool
    requires q.cidr.Some?
  {
    Pool(q.cidr.value, q.scope, GatewayOf(q.gateway), q.mtu, q.enabled)
  }

  predicate IsSparse(q: PoolRequest)
    requires q.cidr.Some? && ValidNet(q.cidr.value)
  {
    BlockSize(q.cidr.value) > 4096
  }

  /** The addresses the pool is to hold: all of a small block, else those to be reserved. */
  ghost predicate Planned(q: PoolRequest, a: IpAddr)
    requires IsWellTyped(q) && q.cidr.Some?
  {
    if IsSparse(q) then Requested(GatewayOf(q.gateway), q.items, a) else Contains(q.cidr.value, a)
  }

  ghost function PlannedAs(q: PoolRequest, a: IpAddr): IpStatus
    requires IsWellTyped(q) && q.cidr.Some?
  {
    if IsSparse(q) || Requested(GatewayOf(q.gateway), q.items, a) || UnusableEdge(q.cidr.value, a) then Reserved
    else Free
  }

  function PlannedRecord(id: PoolId, pool: Pool, status: IpStatus): Record {
    Record(Some(id), pool.net.prefix, pool.scope, status, pool.gateway, None, false, "materialized")
  }

  /** A VM has the address. */
  predicate Taken(addresses: map<IpAddr, Record>, a: IpAddr) {
    a in addresses && (addresses[a].vm.Some? || addresses[a].status == Used) && !IsMain(addresses, a)
  }

  ghost predicate AnyTaken(addresses: map<IpAddr, Record>, q: PoolRequest)
    requires IsWellTyped(q) && q.cidr.Some?
  {
    exists a :: Planned(q, a) && Taken(addresses, a)
  }

  /** A record that the request overwrites before it comes to an address in use. */
  ghost predicate Overwritten(addresses: map<IpAddr, Record>, q: PoolRequest, a: IpAddr)
    requires IsWellTyped(q) && q.cidr.Some?
  {
    && a in addresses && Planned(q, a) && !IsMain(addresses, a)
    && forall t :: Planned(q, t) && Taken(addresses, t) ==> Rank(a) < Rank(t)
  }

  ghost function WithoutOverwritten(addresses: map<IpAddr, Record>, q: PoolRequest): map<IpAddr, Record>
    requires IsWellTyped(q) && q.cidr.Some?
  {
    map a | a in addresses && !Overwritten(addresses, q, a) :: addresses[a]
  }

  /** Every planned address is in the inventory as planned, except that a host address stays
      as it is; all others are as before. */
  ghost predicate IsFilled(before: map<IpAddr, Record>, after: map<IpAddr, Record>, id: PoolId, q: PoolRequest)
    requires IsWellTyped(q) && q.cidr.Some?
  {
    && (forall a :: a in after <==> a in before || Planned(q, a))
    && (forall a :: Planned(q, a) && !IsMain(before, a) ==>
          a in after && after[a] == PlannedRecord(id, PoolOf(q), PlannedAs(q, a)))
    && (forall a :: a in before && (IsMain(before, a) || !Planned(q, a)) ==> a in after && after[a] == before[a])
  }

  /** What the request answers and leaves, in every case. */
  ghost predicate IsOutcome(before: Stock, after: Stock, r: Result<bool>, id: PoolId, q: PoolRequest)
    requires IsWellTyped(q) && PoolsValid(before.pools)
  {
    if !Accepted(q) then after == before && r == Err(Validation)
    else if OverlapsStored(before.pools, q.cidr.value) then after == before && r == Err(Conflict)
    else if AnyTaken(before.addresses, q) || !q.guarded then
      after == before.(addresses := WithoutOverwritten(before.addresses, q)) && r == Err(Conflict)
    else
      && r == Ok(IsSparse(q))
      && after.vms == before.vms && after.pools == before.pools[id := PoolOf(q)]
      && IsFilled(before.addresses, after.addresses, id, q)
  }

  // --- What the outcome means -----------------------------------------------------------

  /** The request succeeds exactly if the plan is accepted, no stored pool overlaps, no planned
      address is in use and the firewall accepts the pool; a failure leaves the tables as they were exactly if it comes
      before the creation or no record was overwritten before the first address in use. */
  lemma FailureLeavesInventoryExactly(before: Stock, after: Stock, r: Result<bool>, id: PoolId, q: PoolRequest)
    requires IsWellTyped(q) && Invariant(before) && id !in before.pools && IsOutcome(before, after, r, id, q)
    ensures r.Ok? <==> && Accepted(q) && !OverlapsStored(before.pools, q.cidr.value)
                       && !AnyTaken(before.addresses, q) && q.guarded
    ensures r.Err? ==>
              (after == before <==>
               || !Accepted(q) || OverlapsStored(before.pools, q.cidr.value)
               || forall a :: !Overwritten(before.addresses, q, a))
  {
    if r.Err? && Accepted(q) && !OverlapsStored(before.pools, q.cidr.value) {
      if a :| Overwritten(before.addresses, q, a) {
        assert a in before.addresses && a !in after.addresses;
      } else {
        assert after.addresses == before.addresses;
      }
    }
  }

  /** Whatever happens, no address of a VM and no host address is touched. */
  lemma ProtectedIsKept(before: Stock, after: Stock, r: Result<bool>, id: PoolId, q: PoolRequest, a: IpAddr)
    requires IsWellTyped(q) && Invariant(before) && IsOutcome(before, after, r, id, q)
    requires a in before.addresses && IsProtected(before.addresses[a])
    ensures a in after.addresses && after.addresses[a] == before.addresses[a]
  {
    assert OwnershipOk(before, a);
    assert IsMain(before.addresses, a) || Taken(before.addresses, a);
    if Accepted(q) { assert !Overwritten(before.addresses, q, a); }
  }

  // --- Entering a list of planned addresses -----------------------------------------------

  /** The list is the plan, in order. */
  ghost predicate IsPlan(q: PoolRequest, entries: seq<Entry>)
    requires IsWellTyped(q) && q.cidr.Some?
  {
    && StrictlyAscending(entries)
    && (forall a :: Lists(entries, a) <==> Planned(q, a))
    && (forall i :: 0 <= i < |entries| ==> entries[i].1 == PlannedAs(q, entries[i].0))
  }

  lemma FullPlanIsPlan(q: PoolRequest, entries: seq<Entry>)
    requires IsWellTyped(q) && Accepted(q) && !IsSparse(q)
    requires IsFullPlan(q.cidr.value, GatewayOf(q.gateway), q.items, entries)
    ensures IsPlan(q, entries)
  {
    var n := q.cidr.value;
    forall a ensures Lists(entries, a) <==> Planned(q, a) {
      if Contains(n, a) {
        assert entries[a.number - FirstOf(n)].0 == a;
      }
    }
  }

  lemma SparsePlanIsPlan(q: PoolRequest, entries: seq<Entry>)
    requires IsWellTyped(q) && Accepted(q) && IsSparse(q)
    requires IsSparsePlan(GatewayOf(q.gateway), q.items, entries)
    ensures IsPlan(q, entries)
  {
    forall a ensures Lists(entries, a) <==> Planned(q, a) {
      if Planned(q, a) { assert (a, Reserved) in entries; }
    }
  }

  /** The inventory after the first `k` entries. */
  function Entered(
    addresses: map<IpAddr, Record>, id: PoolId, pool: Pool, entries: seq<Entry>, k: nat): map<IpAddr, Record>
    requires k <= |entries|
  {
    if k == 0 then addresses
    else
      var (a, status) := entries[k - 1];
      var earlier := Entered(addresses, id, pool, entries, k - 1);
      if IsMain(addresses, a) then earlier else earlier[a := PlannedRecord(id, pool, status)]
  }

  ghost predicate EntersAt(addresses: map<IpAddr, Record>, entries: seq<Entry>, k: nat, a: IpAddr)
    requires k <= |entries|
  {
    !IsMain(addresses, a) && exists i :: 0 <= i < k && entries[i].0 == a
  }

  lemma {:induction false} EnteredAt(
    addresses: map<IpAddr, Record>, id: PoolId, pool: Pool, entries: seq<Entry>, k: nat, a: IpAddr)
    requires k <= |entries| && StrictlyAscending(entries)
    ensures var entered := Entered(addresses, id, pool, entries, k);
            && (a in entered <==> a in addresses || EntersAt(addresses, entries, k, a))
            && (!EntersAt(addresses, entries, k, a) && a in addresses ==> entered[a] == addresses[a])
            && (forall i :: 0 <= i < k && entries[i].0 == a && !IsMain(addresses, a) ==>
                  a in entered && entered[a] == PlannedRecord(id, pool, entries[i].1))
  {
    if k > 0 {
      EnteredAt(addresses, id, pool, entries, k - 1, a);
      forall i | 0 <= i < k - 1 ensures entries[i].0 != entries[k - 1].0 {
        assert Rank(entries[i].0) < Rank(entries[k - 1].0);
      }
      if entries[k - 1].0 == a {
        assert !IsMain(addresses, a) ==> EntersAt(addresses, entries, k, a);
      } else {
        assert EntersAt(addresses, entries, k, a) <==> EntersAt(addresses, entries, k - 1, a);
      }
    }
  }

  /** When no planned address is in use, entering the whole list fills the pool. */
  lemma AllEnteredIsFilled(
    addresses: map<IpAddr, Record>, id: PoolId, q: PoolRequest, entries: seq<Entry>)
    requires IsWellTyped(q) && q.cidr.Some? && IsPlan(q, entries)
    ensures IsFilled(addresses, Entered(addresses, id, PoolOf(q), entries, |entries|), id, q)
  {
    var after := Entered(addresses, id, PoolOf(q), entries, |entries|);
    forall a
      ensures a in after <==> a in addresses || Planned(q, a)
      ensures Planned(q, a) && !IsMain(addresses, a) ==>
                a in after && after[a] == PlannedRecord(id, PoolOf(q), PlannedAs(q, a))
      ensures a in addresses && (IsMain(addresses, a) || !Planned(q, a)) ==> a in after && after[a] == addresses[a]
    {
      EnteredAt(addresses, id, PoolOf(q), entries, |entries|, a);
      assert Lists(entries, a) <==> Planned(q, a);
    }
  }

  ghost predicate NoneTakenBelow(addresses: map<IpAddr, Record>, entries: seq<Entry>, k: nat)
    requires k <= |entries|
  {
    forall i :: 0 <= i < k ==> !Taken(addresses, entries[i].0)
  }

  /** Entry `k` is the first whose address is in use, or there is none. */
  ghost predicate StopsAt(addresses: map<IpAddr, Record>, entries: seq<Entry>, k: nat) {
    k <= |entries| && (k < |entries| ==> Taken(addresses, entries[k].0)) && NoneTakenBelow(addresses, entries, k)
  }

  lemma OverwrittenIsEntered(addresses: map<IpAddr, Record>, q: PoolRequest, entries: seq<Entry>, k: nat, a: IpAddr)
    requires IsWellTyped(q) && q.cidr.Some? && IsPlan(q, entries) && StopsAt(addresses, entries, k)
    ensures Overwritten(addresses, q, a) <==> a in addresses && EntersAt(addresses, entries, k, a)
  {
    assert Lists(entries, a) <==> Planned(q, a);
    if k < |entries| { assert Lists(entries, entries[k].0); }
    if Overwritten(addresses, q, a) {
      var i :| 0 <= i < |entries| && entries[i].0 == a;
      assert k < |entries| ==> Rank(a) < Rank(entries[k].0);
      assert i < k;
    }
    if a in addresses && EntersAt(addresses, entries, k, a) {
      var i :| 0 <= i < k && entries[i].0 == a;
      forall t | Planned(q, t) && Taken(addresses, t) ensures Rank(a) < Rank(t) {
        assert Lists(entries, t);
        var j :| 0 <= j < |entries| && entries[j].0 == t;
        assert k <= j;
      }
    }
  }

  lemma UndoneAddress(
    addresses: map<IpAddr, Record>, id: PoolId, q: PoolRequest, entries: seq<Entry>, k: nat, a: IpAddr)
    requires IsWellTyped(q) && q.cidr.Some? && IsPlan(q, entries) && StopsAt(addresses, entries, k)
    requires a in addresses ==> addresses[a].pool != Some(id)
    ensures var undone := WithoutPool(Entered(addresses, id, PoolOf(q), entries, k), id);
            && (a in undone <==> a in addresses && !Overwritten(addresses, q, a))
            && (a in undone ==> undone[a] == addresses[a])
  {
    EnteredAt(addresses, id, PoolOf(q), entries, k, a);
    OverwrittenIsEntered(addresses, q, entries, k, a);
  }

  /** Taking the pool out again after a failure at entry `k`. */
  lemma UndoneAddresses(addresses: map<IpAddr, Record>, id: PoolId, q: PoolRequest, entries: seq<Entry>, k: nat)
    requires IsWellTyped(q) && q.cidr.Some? && IsPlan(q, entries) && StopsAt(addresses, entries, k)
    requires forall a :: a in addresses ==> addresses[a].pool != Some(id)
    ensures WithoutPool(Entered(addresses, id, PoolOf(q), entries, k), id) == WithoutOverwritten(addresses, q)
    ensures k < |entries| ==> AnyTaken(addresses, q)
  {
    var undone := WithoutPool(Entered(addresses, id, PoolOf(q), entries, k), id);
    forall a
      ensures a in undone <==> a in addresses && !Overwritten(addresses, q, a)
      ensures a in undone ==> undone[a] == addresses[a]
    {
      UndoneAddress(addresses, id, q, entries, k, a);
    }
    if k < |entries| {
      assert Lists(entries, entries[k].0);
      assert Planned(q, entries[k].0);
    }
  }

  lemma NoneTaken(addresses: map<IpAddr, Record>, q: PoolRequest, entries: seq<Entry>)
    requires IsWellTyped(q) && q.cidr.Some? && IsPlan(q, entries)
    requires NoneTakenBelow(addresses, entries, |entries|)
    ensures !AnyTaken(addresses, q)
  {
    forall a | Planned(q, a) ensures !Taken(addresses, a) {
      assert Lists(entries, a);
    }
  }

  lemma UndoneIsOutcome(before: Stock, after: Stock, id: PoolId, q: PoolRequest, entries: seq<Entry>, k: nat)
    requires PoolsValid(before.pools) && id !in before.pools && IsWellTyped(q) && !OverlapsStoredPool(before, q)
    requires Accepted(q) && IsPlan(q, entries) && StopsAt(before.addresses, entries, k)
    requires k < |entries| || !q.guarded
    requires forall a :: a in before.addresses ==> before.addresses[a].pool != Some(id)
    requires after.vms == before.vms && after.pools == before.pools[id := PoolOf(q)] - {id}
    requires after.addresses == WithoutPool(Entered(before.addresses, id, PoolOf(q), entries, k), id)
    ensures IsOutcome(before, after, Err(Conflict), id, q)
  {
    UndoneAddresses(before.addresses, id, q, entries, k);
    assert after.pools == before.pools;
  }

  lemma FilledIsOutcome(before: Stock, after: Stock, id: PoolId, q: PoolRequest, entries: seq<Entry>)
    requires PoolsValid(before.pools) && IsWellTyped(q) && !OverlapsStoredPool(before, q)
    requires Accepted(q) && IsPlan(q, entries) && q.guarded
    requires NoneTakenBelow(before.addresses, entries, |entries|)
    requires after.vms == before.vms && after.pools == before.pools[id := PoolOf(q)]
    requires after.addresses == Entered(before.addresses, id, PoolOf(q), entries, |entries|)
    ensures IsOutcome(before, after, Ok(IsSparse(q)), id, q)
  {
    NoneTaken(before.addresses, q, entries);
    AllEnteredIsFilled(before.addresses, id, q, entries);
  }

  ghost predicate OverlapsStoredPool(s: Stock, q: PoolRequest)
    requires PoolsValid(s.pools) && IsWellTyped(q)
  {
    q.cidr.Some? && OverlapsStored(s.pools, q.cidr.value)
  }

  // --- An input at which a failure loses an address --------------------------------------------

  /** The network 10.0.0.0/30. */
  const NET: Net := Net(IpAddr(V4, 0x0a00_0000), 30)
  const REQUEST: PoolRequest := PoolRequest(Some(NET), None, [], Public, 1500, true, true)
  const FREE: IpAddr := IpAddr(V4, 0x0a00_0001)
  const USED: IpAddr := IpAddr(V4, 0x0a00_0002)

  /** A VM has 10.0.0.2; 10.0.0.1 is free; neither belongs to a pool. */
  const INVENTORY: Stock := Stock(
    {0}, map[],
    map[FREE := Record(None, 32, Public, Free, None, None, false, "imported"),
        USED := Record(None, 32, Public, Used, None, Some(0), true, "imported")])

  lemma SmallBlock()
    ensures ValidNet(NET) && BlockSize(NET) == 4 && FirstOf(NET) == 0x0a00_0000 && LastOf(NET) == 0x0a00_0003
  {
    Pow2Of32();
    assert Pow2(2) == 4;
    assert 0x0a00_0000 / 4 * 4 == 0x0a00_0000;
  }

  /** Creating the pool 10.0.0.0/30 there is refused, and 10.0.0.1 is gone from the inventory. */
  lemma RefusedCreationLosesAnAddress()
    ensures IsWellTyped(REQUEST) && Invariant(INVENTORY) && FREE in INVENTORY.addresses
    ensures forall after, r :: IsOutcome(INVENTORY, after, r, 0, REQUEST) ==>
              r == Err(Conflict) && FREE !in after.addresses && USED in after.addresses
  {
    SmallBlock();
    assert IsWellTyped(REQUEST);
    forall a ensures !Requested(None, [], a) {}
    assert Accepted(REQUEST) && !IsSparse(REQUEST);
    assert Planned(REQUEST, USED) && Taken(INVENTORY.addresses, USED);
    assert Planned(REQUEST, FREE);
    forall t | Planned(REQUEST, t) && Taken(INVENTORY.addresses, t) ensures Rank(FREE) < Rank(t) {
      assert t == USED;
    }
    assert Overwritten(INVENTORY.addresses, REQUEST, FREE);
    assert !Overwritten(INVENTORY.addresses, REQUEST, USED);
  }
}
