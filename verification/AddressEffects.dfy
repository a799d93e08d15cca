/** What each operation on pools and addresses does, column by column: its answer, what it
    writes, and what it leaves alone. */
module AddressEffects {
  import opened Basics
  import opened Cidr
  import opened PoolPlan
  import opened AddressInventory

  predicate IsRefused<T(==)>(s: Stock, t: Stock, r: Result<T>, error: Error) {
    t == s && r == Err(error)
  }

  // --- Pools ----------------------------------------------------------------------------

  predicate IsOutside(net: Net, gateway: Option<IpAddr>)
    requires ValidNet(net)
  {
    gateway.Some? && !Contains(net, gateway.value)
  }

  ghost predicate SharesAddress(s: Stock, net: Net)
    requires PoolsValid(s.pools) && ValidNet(net)
  {
    exists p, a :: p in s.pools && ValidAddr(a) && Contains(net, a) && Contains(s.pools[p].net, a)
  }

  lemma CreatePoolEffect(s: Stock, id: PoolId, pool: Pool)
    requires Invariant(s) && ValidNet(pool.net)
    ensures var (t, r) := CreatePool(s, id, pool);
            if IsOutside(pool.net, pool.gateway) then IsRefused(s, t, r, Validation)
            else if SharesAddress(s, pool.net) then IsRefused(s, t, r, Conflict)
            else r == Ok(id) && t == Stock(s.vms, s.pools[id := pool], s.addresses)
  {
    if !IsOutside(pool.net, pool.gateway) { PoolRefusedIfShared(s, id, pool); }
  }

  /** What the patch gives replaces what is stored; the network is never given. */
  lemma PatchPoolEffect(s: Stock, id: PoolId, patch: PoolPatch)
    requires PoolsValid(s.pools)
    ensures var (t, r) := PatchPool(s, id, patch);
            if id !in s.pools then IsRefused(s, t, r, NotFound)
            else
              var old_ := s.pools[id];
              var gateway := if patch.gateway.Some? then patch.gateway else old_.gateway;
              var mtu := if patch.mtu.Some? then patch.mtu.value else old_.mtu;
              if IsOutside(old_.net, gateway) || mtu < 576 || mtu > 9216 then IsRefused(s, t, r, Validation)
              else
                && r == Ok(()) && t.vms == s.vms && t.addresses == s.addresses
                && id in t.pools && t.pools - {id} == s.pools - {id}
                && t.pools[id].net == old_.net && t.pools[id].gateway == gateway && t.pools[id].mtu == mtu
                && t.pools[id].scope == (if patch.scope.Some? then patch.scope.value else old_.scope)
                && t.pools[id].enabled == (if patch.enabled.Some? then patch.enabled.value else old_.enabled)
  {
  }

  lemma DeletePoolEffect(s: Stock, id: PoolId)
    ensures var (t, r) := DeletePool(s, id);
            if exists a :: a in s.addresses && s.addresses[a].pool == Some(id) then IsRefused(s, t, r, Conflict)
            else if id !in s.pools then IsRefused(s, t, r, NotFound)
            else r == Ok(()) && t == Stock(s.vms, s.pools - {id}, s.addresses)
  {
  }

  /** An address of the pool is used, is a host address or belongs to a VM. */
  predicate HoldsInUse(s: Stock, id: PoolId) {
    exists a :: a in s.addresses && s.addresses[a].pool == Some(id)
                && (s.addresses[a].status == Used || s.addresses[a].status == Main || s.addresses[a].vm.Some?)
  }

  lemma UndoPoolEffect(s: Stock, id: PoolId)
    ensures var (t, r) := DeletePoolWithUnassigned(s, id);
            if HoldsInUse(s, id) then IsRefused(s, t, r, Conflict)
            else if id !in s.pools then IsRefused(s, t, r, NotFound)
            else
              && r == Ok(()) && t.vms == s.vms && t.pools == s.pools - {id}
              && forall a :: (a in t.addresses <==> a in s.addresses && s.addresses[a].pool != Some(id))
                             && (a in t.addresses ==> t.addresses[a] == s.addresses[a])
  {
    if HasProtected(s, id) {
      var a :| a in s.addresses && s.addresses[a].pool == Some(id) && IsProtected(s.addresses[a]);
      assert HoldsInUse(s, id);
    }
    if HoldsInUse(s, id) {
      var a :| a in s.addresses && s.addresses[a].pool == Some(id)
                && (s.addresses[a].status == Used || s.addresses[a].status == Main || s.addresses[a].vm.Some?);
      assert IsProtected(s.addresses[a]);
    }
  }

  // --- One address --------------------------------------------------------------------------

  /** The record of one address is written, and nothing else. */
  predicate OnlyAddressWritten(s: Stock, t: Stock, a: IpAddr) {
    t.vms == s.vms && t.pools == s.pools && a in t.addresses && t.addresses - {a} == s.addresses - {a}
  }

  predicate IsMalformed(a: IpAddr, spec: AddressSpec, detected: bool) {
    || (detected && spec.status != Main) || spec.status == Used
    || spec.prefix > (if a.family == V4 then 32 else 128)
    || (spec.gateway.Some? && spec.gateway.value.family != a.family)
  }

  predicate IsInUse(s: Stock, a: IpAddr) {
    a in s.addresses && (s.addresses[a].vm.Some? || s.addresses[a].status == Used)
  }

  /** The address is not what its pool is for. */
  predicate IsMisplaced(s: Stock, a: IpAddr, pool: PoolId, spec: AddressSpec)
    requires pool in s.pools && ValidNet(s.pools[pool].net)
  {
    || s.pools[pool].scope != spec.scope || !Contains(s.pools[pool].net, a)
    || spec.prefix < s.pools[pool].net.prefix
  }

  /** An upsert stores what it was given, as unassigned; a detection keeps pool and gateway of a
      host address it finds and adds its details to those there are. */
  lemma UpsertEffect(s: Stock, a: IpAddr, spec: AddressSpec, detected: bool)
    requires PoolsValid(s.pools)
    ensures var (t, r) := UpsertAddress(s, a, spec, detected);
            var main := a in s.addresses && s.addresses[a].status == Main;
            var pool := if detected && main then s.addresses[a].pool else spec.pool;
            if IsMalformed(a, spec, detected) then IsRefused(s, t, r, Validation)
            else if IsInUse(s, a) || (main && spec.status != Main) then IsRefused(s, t, r, Conflict)
            else if pool.Some? && pool.value !in s.pools then IsRefused(s, t, r, NotFound)
            else if pool.Some? && IsMisplaced(s, a, pool.value, spec) then IsRefused(s, t, r, Validation)
            else
              && r == Ok(()) && OnlyAddressWritten(s, t, a)
              && var record := t.addresses[a];
                 && record.prefix == spec.prefix && record.scope == spec.scope && record.status == spec.status
                 && record.pool == pool && record.vm.None? && !record.primary
                 && (detected && main ==>
                       && record.gateway == s.addresses[a].gateway
                       && record.details == s.addresses[a].details + spec.details)
                 && (!(detected && main) ==> record.gateway == spec.gateway && record.details == spec.details)
  {
  }

  /** An address the VM does not have must be free, not barred, and of no pool that is off; then
      it is used by the VM, and primary if and only if that was asked for. */
  lemma AssignEffect(s: Stock, a: IpAddr, v: VmId, primary: bool, blacklisted: bool)
    requires a in s.addresses ==> WithinPool(s, a)
    ensures var (t, r) := AssignAddress(s, a, v, primary, blacklisted);
            if a !in s.addresses then IsRefused(s, t, r, NotFound)
            else
              var before := s.addresses[a];
              if before.vm != Some(v)
                 && ((before.pool.Some? && !s.pools[before.pool.value].enabled) || blacklisted || before.status != Free)
              then IsRefused(s, t, r, Conflict)
              else if v !in s.vms then IsRefused(s, t, r, Storage)
              else
                && r == Ok(()) && t.vms == s.vms && t.pools == s.pools && t.addresses.Keys == s.addresses.Keys
                && t.addresses[a].status == Used && t.addresses[a].vm == Some(v) && t.addresses[a].primary == primary
                && t.addresses[a].(status := before.status, vm := before.vm, primary := before.primary) == before
  {
  }

  /** Of the other addresses only those of the VM and the family change, and only by ceasing to
      be primary, and only if the new one is. */
  lemma AssignDemotesExactly(s: Stock, a: IpAddr, v: VmId, primary: bool, blacklisted: bool, b: IpAddr)
    requires b in s.addresses && b != a
    ensures var (t, r) := AssignAddress(s, a, v, primary, blacklisted);
            && b in t.addresses
            && t.addresses[b] ==
               if r.Ok? && primary && b.family == a.family && s.addresses[b].vm == Some(v)
               then s.addresses[b].(primary := false) else s.addresses[b]
  {
  }

  /** A used address becomes free; any other is not assigned. */
  lemma ReleaseEffect(s: Stock, a: IpAddr)
    ensures var (t, r) := ReleaseAddress(s, a);
            if a in s.addresses && s.addresses[a].status == Used then
              && r == Ok(()) && OnlyAddressWritten(s, t, a)
              && t.addresses[a].status == Free && t.addresses[a].vm.None? && !t.addresses[a].primary
              && t.addresses[a].(status := Used, vm := s.addresses[a].vm, primary := s.addresses[a].primary)
                 == s.addresses[a]
            else IsRefused(s, t, r, Conflict)
  {
  }

  lemma StatusEffect(s: Stock, a: IpAddr, status: IpStatus)
    ensures CheckStatus(s, a, status) ==
            if status == Used then Err(Validation)
            else if a in s.addresses && s.addresses[a].status == Main && status != Main then Err(Conflict)
            else Ok(())
    ensures var (t, r) := WriteStatus(s, a, status);
            if a !in s.addresses then IsRefused(s, t, r, NotFound)
            else
              && r == Ok(()) && OnlyAddressWritten(s, t, a)
              && t.addresses[a].status == status && t.addresses[a].vm.None? && !t.addresses[a].primary
              && var before := s.addresses[a];
                 t.addresses[a].(status := before.status, vm := before.vm, primary := before.primary) == before
  {
  }

  lemma DeleteAddressEffect(s: Stock, a: IpAddr)
    ensures var (t, r) := DeleteAddress(s, a);
            if a !in s.addresses then IsRefused(s, t, r, NotFound)
            else if s.addresses[a].status == Main || s.addresses[a].vm.Some? then IsRefused(s, t, r, Conflict)
            else r == Ok(()) && t == Stock(s.vms, s.pools, s.addresses - {a})
  {
  }

  /** Deleting a VM or cancelling its creation frees its addresses and touches no other. */
  lemma VmLeavesEffect(s: Stock, v: VmId, provisional: bool, a: IpAddr)
    requires a in s.addresses
    ensures var (deleted, cancelled) := (DeleteVm(s, v).0, CancelCreate(s, v, provisional));
            && (v in s.vms ==> DeleteVm(s, v).1 == Ok(()) && deleted.vms == s.vms - {v} && deleted.pools == s.pools)
            && (v !in s.vms ==> DeleteVm(s, v) == (s, Err(NotFound)))
            && cancelled.vms == (if provisional then s.vms - {v} else s.vms) && cancelled.pools == s.pools
            && deleted.addresses.Keys == cancelled.addresses.Keys == s.addresses.Keys
            && (s.addresses[a].vm != Some(v) ==> deleted.addresses[a] == cancelled.addresses[a] == s.addresses[a])
            && (s.addresses[a].vm == Some(v) && v in s.vms ==> deleted.addresses[a] == cancelled.addresses[a])
            && (s.addresses[a].vm == Some(v) ==>
                  && cancelled.addresses[a].status == Free && cancelled.addresses[a].vm.None?
                  && !cancelled.addresses[a].primary
                  && var before := s.addresses[a];
                     cancelled.addresses[a].(status := before.status, vm := Some(v), primary := before.primary)
                     == before)
  {
  }
}
