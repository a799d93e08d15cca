/** Traffic-quota enforcement of one VM: the link is switched by the hypervisor, who owes whom
    a restored link is kept in the database. */
module Traffic {
  import opened Basics

  datatype Enforcement = Enforcement(blocked: bool, blockedAt: Option<int>, failed: bool)

  /** A call to the hypervisor and whether it succeeded. */
  datatype Attempt = Attempt(enabled: bool, ok: bool)

  datatype State = State(limit: Option<nat>, used: nat, record: Option<Enforcement>, link: bool, attempts: seq<Attempt>)

  datatype Status = Status(exceeded: bool, blocked: bool, blockedAt: Option<int>, failed: bool)

  /** No limit and a limit of zero both mean unlimited. */
  predicate IsExceeded(limit: Option<nat>, used: nat) {
    limit.Some? && limit.value > 0 && used > limit.value
  }

  predicate Blocked(record: Option<Enforcement>) {
    record.Some? && record.value.blocked
  }

  function StatusFrom(st: State): Status {
    var limit := if st.limit == Some(0) then None else st.limit;
    Status(IsExceeded(limit, st.used), Blocked(st.record),
           if st.record.Some? then st.record.value.blockedAt else None, st.record.Some? && st.record.value.failed)
  }

  /** A block keeps the time it began; a restored link has none. */
  function Recorded(old_: Option<Enforcement>, blocked: bool, failed: bool, now: int): Enforcement {
    var since := if old_.Some? && old_.value.blockedAt.Some? then old_.value.blockedAt else Some(now);
    Enforcement(blocked, if blocked then since else None, failed)
  }

  function SwitchLink(st: State, enabled: bool, ok: bool): State {
    st.(link := if ok then enabled else st.link, attempts := st.attempts + [Attempt(enabled, ok)])
  }

  /** `ok` says whether the hypervisor call, if one is made, succeeds, and `stored` whether the
      write of the record, if there is one, does. */
  function Reconcile(st: State, force: bool, ok: bool, stored: bool, now: int): (State, Result<Status>) {
    var blocked, exceeded := Blocked(st.record), IsExceeded(st.limit, st.used);
    if exceeded != blocked || (force && exceeded) then
      var switched := SwitchLink(st, !exceeded, ok);
      if !stored then (switched, Err(Storage))
      else if !ok then (switched.(record := Some(Recorded(st.record, blocked, true, now))), Err(Hypervisor))
      else
        var after := switched.(record := Some(Recorded(st.record, exceeded, false, now)));
        (after, Ok(StatusFrom(after)))
    else if st.record.Some? && st.record.value.failed then
      if !stored then (st, Err(Storage))
      else
        var after := st.(record := Some(Recorded(st.record, blocked, false, now)));
        (after, Ok(StatusFrom(after)))
    else (st, Ok(StatusFrom(st)))
  }

  /** The quota is exceeded above a limit, and one of zero is none. */
  predicate IsOver(st: State) {
    st.limit.Some? && 0 < st.limit.value < st.used
  }

  predicate IsBlocked(st: State) {
    st.record.Some? && st.record.value.blocked
  }

  /** The hypervisor is called exactly if quota and record differ, or to enforce a block anew; it
      is told to switch the link off above the quota and on otherwise, and the link follows if
      it obeys. */
  lemma ReconcileCallsExactly(st: State, force: bool, ok: bool, stored: bool, now: int)
    ensures var after := Reconcile(st, force, ok, stored, now).0;
            if IsOver(st) != IsBlocked(st) || (force && IsOver(st)) then
              && after.attempts == st.attempts + [Attempt(!IsOver(st), ok)]
              && after.link == if ok then !IsOver(st) else st.link
            else after.attempts == st.attempts && after.link == st.link
  {
  }

  /** A success leaves the block on record exactly above the quota, since when it first was, and
      reports it; a failure leaves the block as it was. */
  lemma ReconcileRecordsExactly(st: State, force: bool, ok: bool, stored: bool, now: int)
    ensures var (after, r) := Reconcile(st, force, ok, stored, now);
            && after.limit == st.limit && after.used == st.used
            && (r.Ok? ==>
                  && (IsBlocked(after) <==> IsOver(st)) && !(after.record.Some? && after.record.value.failed)
                  && r.value.exceeded == r.value.blocked == IsOver(st) && !r.value.failed
                  && (after.record.Some? ==> r.value.blockedAt == after.record.value.blockedAt)
                  && (IsOver(st) && !IsBlocked(st) && (st.record.None? || st.record.value.blockedAt.None?) ==>
                        r.value.blockedAt == Some(now))
                  && (IsOver(st) && st.record.Some? && st.record.value.blockedAt.Some? ==>
                        r.value.blockedAt == st.record.value.blockedAt)
                  && (!IsOver(st) && IsBlocked(st) ==> r.value.blockedAt.None?))
            && (r.Err? ==> (IsBlocked(after) <==> IsBlocked(st)) && r.error == (if stored then Hypervisor else Storage))
            && (r.Err? && !stored ==> after.record == st.record)
            && (r.Err? && stored ==> !ok && after.record.Some? && after.record.value.failed)
  {
  }

  /** A reconciliation that succeeds leaves the recorded flag equal to the quota test and no
      error on record, and says so; one that fails leaves the flag as it was. */
  lemma SuccessRecordsTheQuota(st: State, force: bool, ok: bool, stored: bool, now: int)
    ensures var (after, r) := Reconcile(st, force, ok, stored, now);
            && after.limit == st.limit && after.used == st.used
            && (r.Ok? ==> Blocked(after.record) == IsExceeded(st.limit, st.used) == r.value.exceeded == r.value.blocked
                          && !r.value.failed)
            && (r.Err? ==> Blocked(after.record) == Blocked(st.record))
            && (r == Err(Hypervisor) ==> after.link == st.link && after.record.Some? && after.record.value.failed)
  {
  }

  /** After a success, an unforced reconciliation changes nothing and calls nobody. */
  lemma RepeatIsQuiet(st: State, force: bool, ok: bool, stored: bool, now: int, ok1: bool, stored1: bool, now1: int)
    requires Reconcile(st, force, ok, stored, now).1.Ok?
    ensures Reconcile(Reconcile(st, force, ok, stored, now).0, false, ok1, stored1, now1)
            == Reconcile(st, force, ok, stored, now)
  {
  }

  // --- Whole runs ------------------------------------------------------------------------------

  datatype Step =
    | Meter(used: nat)
    | SetLimit(limit: Option<nat>)
    | Reset
    | Operator(link: bool)
    | Enforce(force: bool, ok: bool, stored: bool, now: int)

  function Next(st: State, s: Step): State {
    match s
    case Meter(used) => st.(used := used)
    case SetLimit(limit) => st.(limit := limit)
    case Reset => st.(used := 0)
    case Operator(link) => st.(link := link)
    case Enforce(force, ok, stored, now) => Reconcile(st, force, ok, stored, now).0
  }

  function Run(st: State, steps: seq<Step>): State {
    if steps == [] then st else Next(Run(st, steps[..|steps| - 1]), steps[|steps| - 1])
  }

  /** The last call that took effect switched the link off: Vexa owes the VM its link. */
  predicate Owed(attempts: seq<Attempt>) {
    attempts != [] &&
    var last := attempts[|attempts| - 1];
    if last.ok then !last.enabled else Owed(attempts[..|attempts| - 1])
  }

  /** Every call to switch the link on undoes a call of ours that switched it off. */
  ghost predicate OnlyRestores(attempts: seq<Attempt>) {
    forall k :: 0 <= k < |attempts| && attempts[k].enabled ==> Owed(attempts[..k])
  }

  ghost predicate Invariant(st: State) {
    && OnlyRestores(st.attempts)
    && Blocked(st.record) == Owed(st.attempts)
    && (st.record.Some? ==> st.record.value.blocked == st.record.value.blockedAt.Some?)
  }

  lemma AttemptKeepsDiscipline(attempts: seq<Attempt>, a: Attempt)
    requires OnlyRestores(attempts) && (a.enabled ==> Owed(attempts))
    ensures OnlyRestores(attempts + [a])
    ensures Owed(attempts + [a]) == if a.ok then !a.enabled else Owed(attempts)
  {
    var more := attempts + [a];
    assert more[..|attempts|] == attempts;
    forall k | 0 <= k < |more| && more[k].enabled ensures Owed(more[..k]) {
      if k < |attempts| { assert more[..k] == attempts[..k]; }
    }
  }

  /** The hypervisor flips the link but the record of it is lost. */
  predicate LosesFlip(st: State, s: Step) {
    s.Enforce? && s.ok && !s.stored && IsExceeded(st.limit, st.used) != Blocked(st.record)
  }

  /** Record and link stay in step exactly as long as no flip goes unrecorded. */
  lemma StepKeepsInvariantExactly(st: State, s: Step)
    requires Invariant(st)
    ensures Invariant(Next(st, s)) <==> !LosesFlip(st, s)
  {
    if s.Enforce? {
      var blocked, exceeded := Blocked(st.record), IsExceeded(st.limit, st.used);
      if exceeded != blocked || (s.force && exceeded) {
        AttemptKeepsDiscipline(st.attempts, Attempt(!exceeded, s.ok));
      }
    }
  }

  /** No step of the run loses a flip. */
  predicate LosesNoFlip(st: State, steps: seq<Step>) {
    steps == [] ||
    var front := steps[..|steps| - 1];
    LosesNoFlip(st, front) && !LosesFlip(Run(st, front), steps[|steps| - 1])
  }

  /** Whatever the operator, the meter and the failures do, unless a flip goes unrecorded: a
      link is switched on only if the last effective call switched it off, so one an operator
      took down is left alone; and a block is on record exactly while the link is owed. */
  lemma {:induction false} RestoresOnlyOwnBlocks(limit: Option<nat>, link: bool, steps: seq<Step>)
    requires LosesNoFlip(State(limit, 0, None, link, []), steps)
    ensures Invariant(Run(State(limit, 0, None, link, []), steps))
  {
    if steps != [] {
      RestoresOnlyOwnBlocks(limit, link, steps[..|steps| - 1]);
      StepKeepsInvariantExactly(Run(State(limit, 0, None, link, []), steps[..|steps| - 1]), steps[|steps| - 1]);
    }
  }

  /** What an unrecorded flip can do: the allowance is reset and the link restored, but not on
      record; the operator takes the link down; the next reconciliation switches it on. */
  lemma UnrecordedFlipOverridesOperator()
    ensures var blocked := State(Some(10), 0, Some(Enforcement(true, Some(0), false)), false, [Attempt(false, true)]);
            var restored := Next(blocked, Enforce(false, true, false, 1));
            var after := Next(Next(restored, Operator(false)), Enforce(false, true, true, 2));
            Invariant(blocked) && after.link && !OnlyRestores(after.attempts)
  {
    var blocked := State(Some(10), 0, Some(Enforcement(true, Some(0), false)), false, [Attempt(false, true)]);
    var after := Next(Next(Next(blocked, Enforce(false, true, false, 1)), Operator(false)), Enforce(false, true, true, 2));
    assert after.attempts == [Attempt(false, true), Attempt(true, true), Attempt(true, true)];
    assert after.attempts[..2] == [Attempt(false, true), Attempt(true, true)];
    assert after.attempts[2].enabled && !Owed(after.attempts[..2]);
  }

  // --- The record and the link, updated in place --------------------------------------------------

  class VmTraffic {
    var limit: Option<nat>
    var used: nat
    var record: Option<Enforcement>
    var link: bool
    var generation: bv64
    ghost var attempts: seq<Attempt>

    ghost function Value(): State
      reads this
    {
      State(limit, used, record, link, attempts)
    }

    method SetNetworkEnabled(enabled: bool, ok: bool)
      modifies this`link, this`attempts
      ensures Value() == SwitchLink(old(Value()), enabled, ok)
    {
      attempts := attempts + [Attempt(enabled, ok)];
      if ok { link := enabled; }
    }

    method SetEnforcement(blocked: bool, failed: bool, stored: bool, now: int)
      modifies this`record
      ensures record == if stored then Some(Recorded(old(record), blocked, failed, now)) else old(record)
    {
      if !stored { return; }
      var blockedAt := None;
      if blocked {
        blockedAt := if record.Some? && record.value.blockedAt.Some? then record.value.blockedAt else Some(now);
      }
      record := Some(Enforcement(blocked, blockedAt, failed));
    }

    method ReconcileLocked(force: bool, ok: bool, stored: bool, now: int) returns (r: Result<Status>)
      modifies this`link, this`attempts, this`record
      ensures (Value(), r) == Reconcile(old(Value()), force, ok, stored, now)
    {
      var currentlyBlocked := Blocked(record);
      var shouldBlock := IsExceeded(limit, used);
      if shouldBlock != currentlyBlocked || (force && shouldBlock) {
        SetNetworkEnabled(!shouldBlock, ok);
        if ok {
          SetEnforcement(shouldBlock, false, stored, now);
          if !stored { return Err(Storage); }
        } else {
          SetEnforcement(currentlyBlocked, true, stored, now);
          return Err(if stored then Hypervisor else Storage);
        }
      } else if record.Some? && record.value.failed {
        SetEnforcement(currentlyBlocked, false, stored, now);
        if !stored { return Err(Storage); }
      }
      var filtered := if limit == Some(0) then None else limit;
      r := Ok(Status(IsExceeded(filtered, used), Blocked(record),
                     if record.Some? then record.value.blockedAt else None, record.Some? && record.value.failed));
    }

    /** The accounting generation wraps; samples measured under an older one are ignored. */
    method ResetUsageLocked()
      modifies this`used, this`generation
      ensures Value() == Next(old(Value()), Reset)
      ensures generation != old(generation)
    {
      used := 0;
      generation := generation + 1;
    }
  }
}
