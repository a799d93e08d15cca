/** What each edit of a network-security policy does, column by column: its answer, what it
    writes, and what it leaves alone. */
module PolicyEffects {
  import opened Basics
  import opened PolicyRevisions

  predicate IsRefused(st: Store, after: Store, r: Result<()>, error: Error) {
    after == st && r == Err(error)
  }

  /** The revision of one VM goes up by one, what was applied stays on record, and no error is on
      record any more; other VMs keep theirs. */
  predicate IsBumped(st: Store, after: Store, vm: VmId) {
    && vm in st.profiles && vm in after.profiles && after.profiles - {vm} == st.profiles - {vm}
    && after.profiles[vm].revision == st.profiles[vm].revision + 1
    && after.profiles[vm].applied == st.profiles[vm].applied && !after.profiles[vm].failed
  }

  /** What the patch gives wins over what is stored; what it does not give stays. */
  predicate IsMerged<K(==), V(==)>(before: map<K, V>, patch: map<K, V>, after: map<K, V>) {
    && (forall k <- patch :: k in after && after[k] == patch[k])
    && (forall k <- before :: k !in patch ==> k in after && after[k] == before[k])
    && (forall k <- after :: k in before || k in patch)
  }

  lemma PatchProfileEffect(st: Store, vm: VmId, patch: Settings, valid: bool)
    ensures var (after, r) := PatchProfile(st, vm, patch, valid);
            if vm !in st.profiles then IsRefused(st, after, r, NotFound)
            else if |patch| == 0 then after == st && r == Ok(())
            else if !valid then IsRefused(st, after, r, Validation)
            else
              && r == Ok(()) && after.rules == st.rules && IsBumped(st, after, vm)
              && IsMerged(st.profiles[vm].settings, patch, after.profiles[vm].settings)
  {
  }

  /** A mark is for exactly the current revision; a failure keeps what was applied before. */
  lemma MarkEffect(st: Store, vm: VmId, revision: nat, error: bool)
    ensures var (after, r) := MarkApplied(st, vm, revision, error);
            if vm !in st.profiles then IsRefused(st, after, r, NotFound)
            else if st.profiles[vm].revision != revision then IsRefused(st, after, r, Conflict)
            else
              && r == Ok(()) && after.rules == st.rules
              && vm in after.profiles && after.profiles - {vm} == st.profiles - {vm}
              && var (old_, new_) := (st.profiles[vm], after.profiles[vm]);
                 && new_.settings == old_.settings && new_.revision == old_.revision && new_.failed == error
                 && (error ==> new_.applied == old_.applied) && (!error ==> new_.applied == Some(revision))
  {
  }

  lemma CreateRuleEffect(st: Store, vm: VmId, id: RuleId, spec: RuleSpec, valid: bool)
    ensures var (after, r) := CreateRule(st, vm, id, spec, valid);
            if !valid then IsRefused(st, after, r, Validation)
            else if vm !in st.profiles then IsRefused(st, after, r, NotFound)
            else if |set o | o in st.rules && st.rules[o].vm == vm| >= 256 then IsRefused(st, after, r, Conflict)
            else if id in st.rules then IsRefused(st, after, r, Storage)
            else
              && r == Ok(()) && IsBumped(st, after, vm)
              && after.profiles[vm].settings == st.profiles[vm].settings
              && id in after.rules && after.rules - {id} == st.rules
              && after.rules[id].vm == vm && after.rules[id].spec == spec
  {
    var ids := set o | o in st.rules && st.rules[o].vm == vm;
    assert RulesOf(st.rules, vm).Keys == ids && |RulesOf(st.rules, vm)| == |RulesOf(st.rules, vm).Keys|;
  }

  predicate IsRuleOf(st: Store, vm: VmId, id: RuleId) {
    id in st.rules && st.rules[id].vm == vm
  }

  lemma PatchRuleEffect(st: Store, vm: VmId, id: RuleId, patch: RuleSpec, valid: bool)
    requires RulesOk(st)
    ensures var (after, r) := PatchRule(st, vm, id, patch, valid);
            if !IsRuleOf(st, vm, id) then IsRefused(st, after, r, NotFound)
            else if |patch| == 0 then after == st && r == Ok(())
            else if !valid then IsRefused(st, after, r, Validation)
            else
              && r == Ok(()) && IsBumped(st, after, vm) && after.profiles[vm].settings == st.profiles[vm].settings
              && IsRuleOf(after, vm, id) && after.rules - {id} == st.rules - {id}
              && IsMerged(st.rules[id].spec, patch, after.rules[id].spec)
  {
  }

  lemma DeleteRuleEffect(st: Store, vm: VmId, id: RuleId)
    requires RulesOk(st)
    ensures var (after, r) := DeleteRule(st, vm, id);
            if !IsRuleOf(st, vm, id) then IsRefused(st, after, r, NotFound)
            else
              && r == Ok(()) && after.rules == st.rules - {id} && IsBumped(st, after, vm)
              && after.profiles[vm].settings == st.profiles[vm].settings
  {
  }

  /** A new VM starts at revision zero with nothing applied; a VM takes its rules with it. */
  lemma VmEffect(st: Store, vm: VmId, settings: Settings)
    ensures var created := CreateVm(st, vm, settings);
            && created.rules == st.rules
            && (vm in st.profiles ==> created == st)
            && (vm !in st.profiles ==>
                  && vm in created.profiles && created.profiles - {vm} == st.profiles
                  && created.profiles[vm].settings == settings && created.profiles[vm].revision == 0
                  && created.profiles[vm].applied.None? && !created.profiles[vm].failed)
    ensures var deleted := DeleteVm(st, vm);
            && deleted.profiles == st.profiles - {vm}
            && forall id :: (id in deleted.rules <==> id in st.rules && st.rules[id].vm != vm)
                            && (id in deleted.rules ==> deleted.rules[id] == st.rules[id])
  {
  }

  // --- A round of reconciliation -------------------------------------------------------------

  /** A round is about the VMs there are, and those of them that have a domain now. */
  lemma StartEffect(w: World)
    requires w.reconciler.None?
    ensures var after := Next(w, Start);
            && after.(reconciler := None) == w && after.reconciler.Some?
            && var r := after.reconciler.value;
               && r.todo == w.store.profiles.Keys && r.domains == w.defined && r.seen.Keys == {} && !r.loaded
  {
  }

  /** A round reads the profile with its revision and later the rules, as they are then; a VM that
      has gone is left out. */
  lemma ReadEffect(w: World, vm: VmId)
    ensures Enabled(w, ReadProfile(vm)) ==>
              var (before, after) := (w.reconciler.value, Next(w, ReadProfile(vm)).reconciler.value);
              && after.domains == before.domains && after.loaded == before.loaded
              && after.seen - {vm} == before.seen - {vm}
              && (vm in w.store.profiles ==>
                    && after.todo == before.todo && vm in after.seen && after.seen[vm].rules.None?
                    && after.seen[vm].settings == w.store.profiles[vm].settings
                    && after.seen[vm].revision == w.store.profiles[vm].revision)
              && (vm !in w.store.profiles ==> after.todo == before.todo - {vm} && vm !in after.seen)
    ensures Enabled(w, ReadRules(vm)) ==>
              var (before, after) := (w.reconciler.value, Next(w, ReadRules(vm)).reconciler.value);
              && after == before.(seen := after.seen) && vm in after.seen && after.seen - {vm} == before.seen - {vm}
              && after.seen[vm] == before.seen[vm].(rules := after.seen[vm].rules) && after.seen[vm].rules.Some?
              && (forall id :: id in after.seen[vm].rules.value <==> IsRuleOf(w.store, vm, id))
              && (forall id <- after.seen[vm].rules.value :: after.seen[vm].rules.value[id] == w.store.rules[id].spec)
  {
  }

  /** Loading replaces the whole ruleset: it holds the policy read of every VM of the round that
      has a domain, and leaves out exactly those that have none. */
  lemma LoadEffect(w: World)
    requires Enabled(w, Load)
    ensures var (r, after) := (w.reconciler.value, Next(w, Load));
            && after.store == w.store && after.defined == w.defined
            && (forall vm :: vm in after.host <==> vm in r.todo && vm in r.domains)
            && (forall vm :: vm in after.skipped <==> vm in r.todo && vm !in r.domains)
            && (forall vm <- after.host ::
                  && vm in r.seen && r.seen[vm].rules.Some?
                  && after.host[vm].settings == r.seen[vm].settings && after.host[vm].rules == r.seen[vm].rules.value)
  {
  }

  /** A round applies what it has read: if a VM was not edited since, loading and marking leave
      its current revision on record as applied, and enforced exactly if it has a domain. */
  lemma CurrentViewIsApplied(w: World, vm: VmId)
    requires Invariant(w) && Enabled(w, Load) && vm in w.reconciler.value.todo && vm in w.store.profiles
    requires w.reconciler.value.seen[vm].revision == w.store.profiles[vm].revision
    ensures Enabled(Next(w, Load), Mark(vm))
    ensures var after := Next(Next(w, Load), Mark(vm));
            && vm in after.store.profiles && after.store.profiles[vm].applied == Some(w.store.profiles[vm].revision)
            && after.store.profiles[vm].revision == w.store.profiles[vm].revision
            && (vm in after.host <==> vm in w.reconciler.value.domains)
            && (vm in after.host ==>
                  && after.host[vm].settings == w.store.profiles[vm].settings
                  && (forall id :: id in after.host[vm].rules <==> IsRuleOf(w.store, vm, id))
                  && (forall id <- after.host[vm].rules :: after.host[vm].rules[id] == w.store.rules[id].spec))
  {
    LoadEffect(w);
    MarkEffect(w.store, vm, w.store.profiles[vm].revision, false);
    assert ViewOk(w.store, vm, w.reconciler.value.seen[vm]);
  }
}
