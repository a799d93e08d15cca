/** What each operation on one-time links does to the table, column by column, and how long a
    revocation lasts. */
module LinkEffects {
  import opened Basics
  import opened LinkTokens

  /** No row but one is written. */
  predicate OnlyRowWritten(t: Table, after: Table, id: Id) {
    id in after && after - {id} == t - {id}
  }

  /** A new link is stored unless its expiry has passed or its identifiers are taken; a VNC link
      expires after ten minutes, whatever was asked for. */
  lemma CreateEffect(t: Table, kind: Kind, s: Step)
    requires s.Create?
    ensures var (after, answer) := CreateLink(t, kind, s);
            if kind == Customer && s.expiresAt <= s.now then after == t && answer == Failed(Validation)
            else if s.id in t || exists id <- t :: t[id].linkHash == s.linkHash then
              after == t && answer == Failed(Storage)
            else
              && answer == Done && OnlyRowWritten(t, after, s.id)
              && var r := after[s.id];
                 && r.vmId == s.vmId && r.linkHash == s.linkHash && r.boundIp == s.boundIp && r.createdAt == s.now
                 && (kind == Customer ==> r.expiresAt == s.expiresAt) && (kind == Vnc ==> r.expiresAt == s.now + 600)
                 && r.sessionHash.None? && r.consumedAt.None? && r.sessionExpiresAt.None?
                 && r.lastUsedAt.None? && r.revokedAt.None?
  {
  }

  /** The link can still be exchanged. */
  predicate IsOpen(r: Token, linkHash: Hash, now: int) {
    r.linkHash == linkHash && r.consumedAt.None? && r.revokedAt.None? && now < r.expiresAt
  }

  /** An open link, asked for from the address it is bound to, becomes a session under a hash
      that no other row has; it ends with the link, and a customer's also after its time to live
      and after an hour. */
  lemma ExchangeEffect(t: Table, kind: Kind, s: Step, id: Id)
    requires s.Exchange? && TableOk(t) && id in t && IsOpen(t[id], s.linkHash, s.now)
    requires kind == Customer ==> s.ttl > 0
    ensures var (after, answer) := ExchangeLink(t, kind, s);
            if t[id].boundIp.Some? && t[id].boundIp != s.sourceIp then after == t && answer == Denied
            else if exists o <- t :: t[o].sessionHash == Some(s.sessionHash) then
              after == t && answer == Failed(Storage)
            else
              && OnlyRowWritten(t, after, id) && answer == Granted(id, after[id])
              && var r := after[id];
                 && r.sessionHash == Some(s.sessionHash) && r.consumedAt == Some(s.now) && r.sessionExpiresAt.Some?
                 && (kind == Vnc ==> r.sessionExpiresAt.value == t[id].expiresAt && r.lastUsedAt == t[id].lastUsedAt)
                 && (kind == Customer ==>
                       && r.sessionExpiresAt.value <= t[id].expiresAt && r.sessionExpiresAt.value <= s.now + s.ttl
                       && r.sessionExpiresAt.value <= s.now + 3600 && r.lastUsedAt == Some(s.now)
                       && r.sessionExpiresAt.value in {t[id].expiresAt, s.now + s.ttl, s.now + 3600})
                 && r.vmId == t[id].vmId && r.linkHash == t[id].linkHash && r.boundIp == t[id].boundIp
                 && r.createdAt == t[id].createdAt && r.expiresAt == t[id].expiresAt && r.revokedAt.None?
  {
    assert Exchangeable(t[id], s.linkHash, s.now);
    assert FindLink(t, s.linkHash, s.now) == Some(id);
  }

  lemma ExchangeRefused(t: Table, kind: Kind, s: Step)
    requires s.Exchange?
    ensures kind == Customer && s.ttl == 0 ==> ExchangeLink(t, kind, s) == (t, Failed(Validation))
    ensures !(kind == Customer && s.ttl == 0) && (forall id <- t :: !IsOpen(t[id], s.linkHash, s.now)) ==>
              ExchangeLink(t, kind, s) == (t, Denied)
  {
    forall id | id in t ensures Exchangeable(t[id], s.linkHash, s.now) <==> IsOpen(t[id], s.linkHash, s.now) {
    }
  }

  /** The session is running and asked for from the address it is bound to. */
  predicate IsRunning(r: Token, sessionHash: Hash, sourceIp: Option<Ip>, now: int) {
    && r.sessionHash == Some(sessionHash) && r.sessionExpiresAt.Some? && now < r.sessionExpiresAt.value
    && r.revokedAt.None? && (r.boundIp.None? || r.boundIp == sourceIp)
  }

  /** A running session authenticates; a customer's row records when. */
  lemma AuthenticateEffect(t: Table, kind: Kind, s: Step)
    requires s.Authenticate? && TableOk(t)
    ensures var (after, answer) := AuthenticateSession(t, kind, s);
            && (answer.Granted? <==> exists id <- t :: IsRunning(t[id], s.sessionHash, s.sourceIp, s.now))
            && (!answer.Granted? ==> after == t && answer == Denied)
            && (answer.Granted? ==>
                  && answer.id in t && IsRunning(t[answer.id], s.sessionHash, s.sourceIp, s.now)
                  && answer.token == t[answer.id] && OnlyRowWritten(t, after, answer.id)
                  && (kind == Vnc ==> after == t)
                  && (kind == Customer ==> after[answer.id] == t[answer.id].(lastUsedAt := Some(s.now))))
  {
    forall id | id in t
      ensures Authentic(t[id], s.sessionHash, s.sourceIp, s.now) <==> IsRunning(t[id], s.sessionHash, s.sourceIp, s.now)
    {
    }
  }

  // --- Revocation and pruning -------------------------------------------------------------------

  /** The step revokes this row. */
  predicate Revokes(s: Step, id: Id, r: Token) {
    || (s.RevokeLink? && s.id == id && s.vmId == r.vmId)
    || (s.RevokeSession? && r.sessionHash == Some(s.sessionHash))
    || (s.RevokeVm? && s.vmId == r.vmId)
  }

  /** A revocation dates exactly its rows, where there is no date yet. */
  lemma RevokeEffect(t: Table, kind: Kind, s: Step)
    requires s.RevokeLink? || s.RevokeSession? || s.RevokeVm?
    ensures var after := Apply(t, kind, s).0;
            && after.Keys == t.Keys
            && forall id <- t ::
                 after[id] == if Revokes(s, id, t[id]) && t[id].revokedAt.None? then t[id].(revokedAt := Some(s.now))
                              else t[id]
    ensures s.RevokeLink? ==>
              Apply(t, kind, s).1 == if s.id in t && t[s.id].vmId == s.vmId then Done else Failed(NotFound)
  {
  }

  lemma RemovalEffect(t: Table, kind: Kind, s: Step, id: Id)
    requires (s.DeleteVm? || s.Prune?) && id in t
    ensures var (after, r) := (Apply(t, kind, s).0, t[id]);
            && after.Keys <= t.Keys
            && (id in after <==>
                  if s.DeleteVm? then r.vmId != s.vmId
                  else if r.sessionExpiresAt.Some? then r.revokedAt.None? && s.now < r.sessionExpiresAt.value
                  else r.revokedAt.None? && s.now < r.expiresAt)
            && (id in after ==> after[id] == r)
  {
  }

  /** A row that is not revoked was not revoked before. */
  lemma {:induction false} UnrevokedBefore(kind: Kind, steps: seq<Step>, i: nat, n: nat, id: Id)
    requires i <= n <= |steps|
    requires id in TableAt(kind, steps, n, true) && TableAt(kind, steps, n, true)[id].revokedAt.None?
    requires forall j :: i <= j < n ==> !(steps[j].Create? && steps[j].id == id)
    ensures id in TableAt(kind, steps, i, true) && TableAt(kind, steps, i, true)[id].revokedAt.None?
    decreases n
  {
    if i < n {
      UnrevokedStepBefore(TableAt(kind, steps, n - 1, true), kind, steps[n - 1], id);
      UnrevokedBefore(kind, steps, i, n - 1, id);
    }
  }

  lemma UnrevokedStepBefore(t: Table, kind: Kind, s: Step, id: Id)
    requires id in Apply(t, kind, s).0 && Apply(t, kind, s).0[id].revokedAt.None? && !(s.Create? && s.id == id)
    ensures id in t && t[id].revokedAt.None?
  {
    if s.Create? {
      assert id in t;
    } else {
      RowAfter(t, kind, s, id);
    }
  }

  /** A revocation is final: whatever comes after it, no link or session of a row that it met is
      granted any more. */
  lemma RevocationIsFinal(kind: Kind, steps: seq<Step>, i: nat, n: nat)
    requires NeverDrawnTwice(steps) && i < n < |steps| && AnswerAt(kind, steps, n, true).Granted?
    ensures var id := AnswerAt(kind, steps, n, true).id;
            id in TableAt(kind, steps, i, true) ==> !Revokes(steps[i], id, TableAt(kind, steps, i, true)[id])
  {
    GrantedIsUnrevoked(TableAt(kind, steps, n, true), kind, steps[n]);
    UnrevokedMeansUnmet(kind, steps, i, n, AnswerAt(kind, steps, n, true).id);
  }

  lemma NotCreatedAgain(kind: Kind, steps: seq<Step>, i: nat, id: Id)
    requires NeverDrawnTwice(steps) && i <= |steps| && id in TableAt(kind, steps, i, true)
    ensures forall j :: i <= j < |steps| ==> !(steps[j].Create? && steps[j].id == id)
  {
    var c, x := RowHistory(kind, steps, i, true, id);
  }

  lemma UnrevokedMeansUnmet(kind: Kind, steps: seq<Step>, i: nat, n: nat, id: Id)
    requires NeverDrawnTwice(steps) && i < n < |steps|
    requires id in TableAt(kind, steps, n, true) && TableAt(kind, steps, n, true)[id].revokedAt.None?
    ensures id in TableAt(kind, steps, i, true) ==> !Revokes(steps[i], id, TableAt(kind, steps, i, true)[id])
  {
    if id in TableAt(kind, steps, i, true) {
      NotCreatedAgain(kind, steps, i, id);
      UnrevokedBefore(kind, steps, i + 1, n, id);
      RevokedIsDated(TableAt(kind, steps, i, true), kind, steps[i], id);
    }
  }

  lemma RevokedIsDated(t: Table, kind: Kind, s: Step, id: Id)
    requires id in t
    ensures Revokes(s, id, t[id]) ==> id in Apply(t, kind, s).0 && Apply(t, kind, s).0[id].revokedAt.Some?
  {
    if s.RevokeLink? || s.RevokeSession? || s.RevokeVm? { RevokeEffect(t, kind, s); }
  }

  lemma GrantedIsUnrevoked(t: Table, kind: Kind, s: Step)
    requires Apply(t, kind, s).1.Granted?
    ensures Apply(t, kind, s).1.id in t && t[Apply(t, kind, s).1.id].revokedAt.None?
  {
  }
}
