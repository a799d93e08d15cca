/** What each transaction on guest-tools records does, column by column: its answer, what it
    writes, and what it leaves alone. */
module ToolsEffects {
  import opened Basics
  import opened Records
  import opened ControlPlane

  /** The record of one VM is written, and nothing else. */
  predicate OnlyRecordWritten(before: Db, after: Db, v: VmId) {
    after.vms == before.vms && after.jobs == before.jobs && v in after.tools && after.tools - {v} == before.tools - {v}
  }

  /** The record of an enabled VM has this generation pending. */
  predicate IsPending(db: Db, v: VmId, generation: string) {
    && v in db.tools && db.tools[v].enabled && db.tools[v].pending.Some?
    && db.tools[v].pending.value.generation == generation
  }

  predicate IsArmed(db: Db, v: VmId) {
    v in db.tools && db.tools[v].pending.Some? && db.tools[v].pending.value.armed
  }

  predicate IsRefused(before: Db, after: Db, r: Result<()>, error: Error) {
    after == before && r == Err(error)
  }

  /** Whatever was there, unless it was armed: the record is enabled, has the secret sealed for
      active use, and is pending first contact with nothing staged. */
  lemma ConfigureEffect(db: Db, v: VmId, secret: Secret, install: Install)
    ensures var (after, r) := ConfigureTools(db, v, secret, install);
            if IsArmed(db, v) then IsRefused(db, after, r, Conflict)
            else if v !in db.vms then IsRefused(db, after, r, Storage)
            else
              && r == Ok(()) && OnlyRecordWritten(db, after, v)
              && var row := after.tools[v];
                 && row.enabled && row.active.secret == secret && row.active.context == ActiveKey(v)
                 && row.install == install && row.status == ToolsStatus.Pending && row.pending.None?
                 && row.installedVersion.None? && row.lastSeenAt.None?
  {
  }

  lemma DeleteConfigurationEffect(db: Db, v: VmId)
    ensures var (after, r) := DeleteToolsConfiguration(db, v);
            if v !in db.tools then IsRefused(db, after, r, NotFound)
            else if IsArmed(db, v) then IsRefused(db, after, r, Conflict)
            else r == Ok(()) && after == db.(tools := db.tools - {v})
  {
  }

  lemma RetireEffect(db: Db, v: VmId)
    ensures RetireTools(db, v) == (db.(tools := db.tools - {v}), v in db.tools)
  {
  }

  /** A stage adds an unarmed generation, its secret sealed for it, and changes nothing else. */
  lemma StageEffect(db: Db, v: VmId, generation: string, secret: Secret, install: Install)
    ensures var (after, r) := StageRotation(db, v, generation, secret, install);
            if v !in db.tools then after == db && r == Err(NotFound)
            else if !db.tools[v].enabled || db.tools[v].pending.Some? then after == db && r == Err(Conflict)
            else
              && r == Ok(generation) && OnlyRecordWritten(db, after, v)
              && after.tools[v].(pending := None) == db.tools[v] && after.tools[v].pending.Some?
              && var p := after.tools[v].pending.value;
                 && p.generation == generation && !p.armed && p.install == install
                 && p.envelope.secret == secret && p.envelope.context == PendingKey(v, generation)
  {
  }

  /** Arming changes the flag of exactly the named generation, and the tools count as not yet
      seen; a generation that is armed already stays so. */
  lemma ArmEffect(db: Db, v: VmId, generation: string)
    ensures var (after, r) := MarkInstalled(db, v, generation);
            if !IsCanonicalUuid(generation) then IsRefused(db, after, r, Validation)
            else if !IsPending(db, v, generation) then
              IsRefused(db, after, r, if v in db.tools then Conflict else NotFound)
            else
              && r == Ok(()) && OnlyRecordWritten(db, after, v) && IsArmed(after, v)
              && after.tools[v].status == ToolsStatus.Pending
              && var (before, p) := (db.tools[v], after.tools[v].pending.value);
                 after.tools[v].(status := before.status, pending := Some(p.(armed := before.pending.value.armed)))
                 == before
  {
  }

  /** A discard drops exactly the named generation, and none that is armed. */
  lemma DiscardEffect(db: Db, v: VmId, generation: string)
    ensures var (after, r) := DiscardRotation(db, v, generation);
            if !IsCanonicalUuid(generation) then IsRefused(db, after, r, Validation)
            else if !IsPending(db, v, generation) then
              IsRefused(db, after, r, if v in db.tools then Conflict else NotFound)
            else if IsArmed(db, v) then IsRefused(db, after, r, Conflict)
            else
              && r == Ok(()) && OnlyRecordWritten(db, after, v)
              && after.tools[v].pending.None? && after.tools[v].(pending := db.tools[v].pending) == db.tools[v]
  {
  }

  /** A promotion is granted exactly for the armed generation, with the version it was staged
      for, whose envelope opens. Then the staged secret, sealed anew, is the active one, the
      guest has the staged installation in the version it reports, and is ready and seen now. */
  lemma PromoteEffect(db: Db, v: VmId, generation: string, version: string, now: int)
    ensures var (after, r) := Promote(db, v, generation, version, now);
            if !IsCanonicalUuid(generation) then IsRefused(db, after, r, Validation)
            else if !IsPending(db, v, generation) || !IsArmed(db, v) then
              IsRefused(db, after, r, if v in db.tools then Conflict else NotFound)
            else
              var p, row := db.tools[v].pending.value, after.tools[v];
              if p.install.version != version then IsRefused(db, after, r, Conflict)
              else if p.envelope.context != PendingKey(v, generation) then IsRefused(db, after, r, Internal)
              else
                && r == Ok(()) && OnlyRecordWritten(db, after, v)
                && row.active.secret == p.envelope.secret && row.active.context == ActiveKey(v)
                && row.install == p.install && row.installedVersion == Some(version)
                && row.status == Ready && row.lastSeenAt == Some(now)
                && row.pending.None? && row.enabled
  {
  }

  /** A report stores its status, except that an armed generation shows no readiness; stores its
      version, if it has one and no generation is armed; and stores its time if it was a contact. */
  lemma StatusEffect(db: Db, v: VmId, status: ToolsStatus, version: Option<string>, contacted: bool, now: int)
    ensures var (after, r) := UpdateToolsStatus(db, v, status, version, contacted, now);
            if v !in db.tools || !db.tools[v].enabled then IsRefused(db, after, r, NotFound)
            else
              var before, row := db.tools[v], after.tools[v];
              && r == Ok(()) && OnlyRecordWritten(db, after, v)
              && row.enabled && row.active == before.active && row.install == before.install
              && row.pending == before.pending
              && (IsArmed(db, v) && status == Ready ==> row.status == ToolsStatus.Pending)
              && (!IsArmed(db, v) || status != Ready ==> row.status == status)
              && (IsArmed(db, v) || version.None? ==> row.installedVersion == before.installedVersion)
              && (!IsArmed(db, v) && version.Some? ==> row.installedVersion == version)
              && (contacted ==> row.lastSeenAt == Some(now)) && (!contacted ==> row.lastSeenAt == before.lastSeenAt)
  {
  }

  /** Clients use the pending secret of an armed record and the active one of any other, if its
      envelope opens. */
  lemma ClientSecretEffect(db: Db, v: VmId)
    ensures ClientSecret(db, v).Some? <==>
              && v in db.tools && db.tools[v].enabled
              && if IsArmed(db, v) then
                   db.tools[v].pending.value.envelope.context == PendingKey(v, db.tools[v].pending.value.generation)
                 else db.tools[v].active.context == ActiveKey(v)
    ensures ClientSecret(db, v).Some? ==>
              ClientSecret(db, v).value ==
              if IsArmed(db, v) then db.tools[v].pending.value.envelope.secret else db.tools[v].active.secret
  {
  }

  /** The rollback of a request drops its generation while it is unarmed, with the record if the
      request had configured it. */
  lemma CleanupRequestEffect(db: Db, v: VmId, generation: string, newConfiguration: bool)
    ensures var after := CleanupRequest(db, v, generation, newConfiguration);
            if !IsCanonicalUuid(generation) || !IsPending(db, v, generation) || IsArmed(db, v) then after == db
            else if newConfiguration then after == db.(tools := db.tools - {v})
            else
              && OnlyRecordWritten(db, after, v)
              && after.tools[v].pending.None? && after.tools[v].(pending := db.tools[v].pending) == db.tools[v]
  {
    if IsPending(db, v, generation) {
      assert DiscardRotation(db, v, generation).1.Ok? ==>
               DiscardRotation(db, v, generation).0.tools - {v} == db.tools - {v};
    }
  }

  // --- Reuse of an armed generation -------------------------------------------------------------

  /** A reinstall of the VM failed that was asked for alike and whose generation is still armed. */
  predicate FailedAlike(db: Db, v: VmId, fingerprint: string) {
    && IsArmed(db, v) && db.tools[v].enabled
    && exists id :: id in db.jobs && db.jobs[id].kind == VmReinstall && db.jobs[id].vm == Some(v)
                    && db.jobs[id].status == Failed && db.jobs[id].payload.fingerprint == Some(fingerprint)
                    && db.jobs[id].payload.generation == Some(db.tools[v].pending.value.generation)
  }

  lemma FailedAlikeIsLeftArmed(db: Db, v: VmId, fingerprint: string)
    ensures AnyLeftArmed(db, v, fingerprint) <==> FailedAlike(db, v, fingerprint)
  {
    if IsArmed(db, v) {
      forall id | id in db.jobs
        ensures LeftArmed(db, id, v, fingerprint) <==>
                && db.tools[v].enabled && db.jobs[id].kind == VmReinstall && db.jobs[id].vm == Some(v)
                && db.jobs[id].status == Failed && db.jobs[id].payload.fingerprint == Some(fingerprint)
                && db.jobs[id].payload.generation == Some(db.tools[v].pending.value.generation)
      {
      }
    }
  }

  /** The answer of a request: the armed generation of a failed attempt at the same request, if
      the installation is the same, and else its own, if the record has none pending. */
  lemma StageRequestEffect(
    db: Db, v: VmId, fingerprint: string, generation: string, placeholder: Secret, secret: Secret,
    install: Install, socketOk: bool)
    ensures var (after, r) := StageRequest(db, v, fingerprint, generation, placeholder, secret, install, socketOk);
            var known := v in db.tools && db.tools[v].enabled;
            if |fingerprint| != 64
               || exists i :: 0 <= i < 64 && !('0' <= fingerprint[i] <= '9' || 'a' <= fingerprint[i] <= 'f')
            then after == db && r == Err(Validation)
            else if FailedAlike(db, v, fingerprint) then
              && after == db
              && r == if db.tools[v].pending.value.install != install then Err(Conflict)
                      else if !socketOk then Err(Validation)
                      else Ok(Staged(db.tools[v].pending.value.generation, false))
            else if known && db.tools[v].pending.Some? then after == db && r == Err(Conflict)
            else if !known && IsArmed(db, v) then after == db && r == Err(Conflict)
            else if !known && v !in db.vms then after == db && r == Err(Storage)
            else if !socketOk then r == Err(Validation)
            else
              && r == Ok(Staged(generation, !known)) && OnlyRecordWritten(db, after, v)
              && IsPending(after, v, generation)
              && var row := after.tools[v];
                 && row.pending.value.envelope.secret == secret && row.pending.value.install == install
                 && !row.pending.value.armed
                 && (known ==> row.(pending := None) == db.tools[v])
                 && (!known ==> row.active.secret == placeholder && row.install == install)
  {
    FailedAlikeIsLeftArmed(db, v, fingerprint);
    FingerprintInCharacters(fingerprint);
  }

  /** The form of a generation: 32 lower-case hexadecimal digits in groups. */
  lemma CanonicalInCharacters(s: string)
    ensures IsCanonicalUuid(s) <==>
            && |s| == 36 && s[8] == s[13] == s[18] == s[23] == '-'
            && forall i :: 0 <= i < 36 && i != 8 && i != 13 && i != 18 && i != 23 ==>
                 '0' <= s[i] <= '9' || 'a' <= s[i] <= 'f'
  {
    if |s| == 36 {
      forall i | 0 <= i < 36 ensures IsLowerHex(s[i]) <==> '0' <= s[i] <= '9' || 'a' <= s[i] <= 'f' {
      }
    }
  }

  lemma FingerprintInCharacters(s: string)
    ensures IsFingerprint(s) <==>
            |s| == 64 && forall i :: 0 <= i < 64 ==> '0' <= s[i] <= '9' || 'a' <= s[i] <= 'f'
  {
    if |s| == 64 {
      forall i | 0 <= i < 64 ensures IsLowerHex(s[i]) <==> '0' <= s[i] <= '9' || 'a' <= s[i] <= 'f' {
      }
    }
  }
}
