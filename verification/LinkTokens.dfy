/** One-time customer and VNC links, the browser sessions they are exchanged for, and pruning. */
module LinkTokens {
  import opened Basics

  type Id = string
  type Hash = string
  type Ip = string

  datatype Kind = Customer | Vnc

  datatype Token = Token(
    vmId: Id, linkHash: Hash, boundIp: Option<Ip>, createdAt: int, expiresAt: int,
    sessionHash: Option<Hash>, consumedAt: Option<int>, sessionExpiresAt: Option<int>,
    lastUsedAt: Option<int>, revokedAt: Option<int>)

  /** `customer_tokens` or `vnc_tokens`. */
  type Table = map<Id, Token>

  const SESSION_LIMIT: nat := 3600
  const VNC_LIFETIME: nat := 600

  function Min(a: int, b: int): int {
    if a < b then a else b
  }

  // --- The operations, each one transaction --------------------------------------------------

  /** What a request asks for; the times are the caller's clock. */
  datatype Step =
    | Create(now: int, id: Id, vmId: Id, linkHash: Hash, boundIp: Option<Ip>, expiresAt: int)
    | Exchange(now: int, linkHash: Hash, sessionHash: Hash, sourceIp: Option<Ip>, ttl: nat)
    | Authenticate(now: int, sessionHash: Hash, sourceIp: Option<Ip>)
    | RevokeLink(now: int, vmId: Id, id: Id)
    | RevokeSession(now: int, sessionHash: Hash)
    | RevokeVm(now: int, vmId: Id)
    | DeleteVm(now: int, vmId: Id)
    | Prune(now: int)

  predicate Exchangeable(r: Token, linkHash: Hash, now: int) {
    r.linkHash == linkHash && r.consumedAt.None? && r.revokedAt.None? && r.expiresAt > now
  }

  predicate Authentic(r: Token, sessionHash: Hash, sourceIp: Option<Ip>, now: int) {
    && r.sessionHash == Some(sessionHash) && r.sessionExpiresAt.Some? && r.sessionExpiresAt.value > now
    && r.revokedAt.None? && (r.boundIp.Some? ==> r.boundIp == sourceIp)
  }

  predicate Revoked(r: Token) {
    r.revokedAt.Some?
  }

  function Revoke(r: Token, now: int): Token {
    if Revoked(r) then r else r.(revokedAt := Some(now))
  }

  predicate HasSession(t: Table, sessionHash: Hash) {
    exists id <- t :: t[id].sessionHash == Some(sessionHash)
  }

  predicate HasLink(t: Table, linkHash: Hash) {
    exists id <- t :: t[id].linkHash == linkHash
  }

  /** The expiry of a new link: VNC links live ten minutes. */
  function LinkExpiry(kind: Kind, now: int, requested: int): int {
    if kind == Vnc then now + VNC_LIFETIME else requested
  }

  /** The unconsumed token behind a link; link hashes are unique. */
  ghost function FindLink(t: Table, linkHash: Hash, now: int): (id: Option<Id>)
    ensures id.Some? ==> id.value in t && Exchangeable(t[id.value], linkHash, now)
    ensures id.None? ==> forall i <- t :: !Exchangeable(t[i], linkHash, now)
  {
    if id :| id in t && Exchangeable(t[id], linkHash, now) then Some(id) else None
  }

  ghost function FindSession(t: Table, sessionHash: Hash, sourceIp: Option<Ip>, now: int): (id: Option<Id>)
    ensures id.Some? ==> id.value in t && Authentic(t[id.value], sessionHash, sourceIp, now)
    ensures id.None? ==> forall i <- t :: !Authentic(t[i], sessionHash, sourceIp, now)
  {
    if id :| id in t && Authentic(t[id], sessionHash, sourceIp, now) then Some(id) else None
  }

  datatype Answer = Granted(id: Id, token: Token) | Denied | Failed(error: Error) | Done

  function SessionExpiry(kind: Kind, r: Token, now: int, ttl: nat): int {
    if kind == Vnc then r.expiresAt else Min(r.expiresAt, now + Min(ttl, SESSION_LIMIT))
  }

  /** The row of a link that has been exchanged for a session. */
  function Consumed(kind: Kind, r: Token, sessionHash: Hash, now: int, ttl: nat): Token {
    r.(sessionHash := Some(sessionHash), consumedAt := Some(now),
       sessionExpiresAt := Some(SessionExpiry(kind, r, now, ttl)),
       lastUsedAt := if kind == Customer then Some(now) else r.lastUsedAt)
  }

  ghost function ExchangeLink(t: Table, kind: Kind, s: Step): (Table, Answer)
    requires s.Exchange?
  {
    if kind == Customer && s.ttl == 0 then (t, Failed(Validation))
    else
      var found := FindLink(t, s.linkHash, s.now);
      if found.None? then (t, Denied)
      else
        var r := t[found.value];
        if r.boundIp.Some? && r.boundIp != s.sourceIp then (t, Denied)
        else if HasSession(t, s.sessionHash) then (t, Failed(Storage))
        else
          var consumed := Consumed(kind, r, s.sessionHash, s.now, s.ttl);
          (t[found.value := consumed], Granted(found.value, consumed))
  }

  function Used(kind: Kind, r: Token, now: int): Token {
    if kind == Customer then r.(lastUsedAt := Some(now)) else r
  }

  ghost function AuthenticateSession(t: Table, kind: Kind, s: Step): (Table, Answer)
    requires s.Authenticate?
  {
    var found := FindSession(t, s.sessionHash, s.sourceIp, s.now);
    if found.None? then (t, Denied)
    else (t[found.value := Used(kind, t[found.value], s.now)], Granted(found.value, t[found.value]))
  }

  function CreateLink(t: Table, kind: Kind, s: Step): (Table, Answer)
    requires s.Create?
  {
    if kind == Customer && s.expiresAt <= s.now then (t, Failed(Validation))
    else if s.id in t || HasLink(t, s.linkHash) then (t, Failed(Storage))
    else (t[s.id := Token(s.vmId, s.linkHash, s.boundIp, s.now, LinkExpiry(kind, s.now, s.expiresAt),
                          None, None, None, None, None)], Done)
  }

  function RevokeIn(t: Table, ids: set<Id>, now: int): Table {
    map id | id in t :: if id in ids then Revoke(t[id], now) else t[id]
  }

  function Until(r: Token): int {
    if r.sessionExpiresAt.Some? then r.sessionExpiresAt.value else r.expiresAt
  }

  /** A row that no exchange or authentication can use any more. */
  predicate Dead(r: Token, now: int) {
    Revoked(r) || Until(r) <= now
  }

  function Pruned(t: Table, now: int): Table {
    map id | id in t && !Dead(t[id], now) :: t[id]
  }

  ghost function Apply(t: Table, kind: Kind, s: Step): (Table, Answer) {
    match s
    case Create(_, _, _, _, _, _) => CreateLink(t, kind, s)
    case Exchange(_, _, _, _, _) => ExchangeLink(t, kind, s)
    case Authenticate(_, _, _) => AuthenticateSession(t, kind, s)
    case RevokeLink(now, vmId, id) =>
      if id in t && t[id].vmId == vmId then (RevokeIn(t, {id}, now), Done) else (t, Failed(NotFound))
    case RevokeSession(now, sessionHash) =>
      (RevokeIn(t, (set id | id in t && t[id].sessionHash == Some(sessionHash)), now), Done)
    case RevokeVm(now, vmId) => (RevokeIn(t, (set id | id in t && t[id].vmId == vmId), now), Done)
    case DeleteVm(_, vmId) => ((map id | id in t && t[id].vmId != vmId :: t[id]), Done)
    case Prune(now) => (Pruned(t, now), Done)
  }

  // --- Invariant -----------------------------------------------------------------------------

  ghost predicate Unique(t: Table) {
    && (forall i, j :: i in t && j in t && t[i].linkHash == t[j].linkHash ==> i == j)
    && (forall i, j :: i in t && j in t && t[i].sessionHash.Some? && t[i].sessionHash == t[j].sessionHash ==> i == j)
  }

  /** The hash and the expiry of a session come with the consumption, and the session ends
      no later than the link. */
  predicate RowOk(r: Token) {
    && r.sessionHash.Some? == r.consumedAt.Some? == r.sessionExpiresAt.Some?
    && (r.sessionExpiresAt.Some? ==> r.sessionExpiresAt.value <= r.expiresAt)
  }

  ghost predicate TableOk(t: Table) {
    Unique(t) && forall id <- t :: RowOk(t[id])
  }

  /** The rows differ at most in when they were last used and revoked. */
  predicate SameLink(a: Token, b: Token) {
    b == a.(lastUsedAt := b.lastUsedAt, revokedAt := b.revokedAt)
  }

  ghost predicate OnlyOldLinks(t: Table, after: Table) {
    forall id <- after :: id in t && SameLink(t[id], after[id])
  }

  lemma OtherStepsAddNothing(t: Table, kind: Kind, s: Step)
    requires !s.Create? && !s.Exchange?
    ensures OnlyOldLinks(t, Apply(t, kind, s).0)
  {
  }

  lemma OldLinksStayOk(t: Table, after: Table)
    requires TableOk(t) && OnlyOldLinks(t, after)
    ensures TableOk(after)
  {
  }

  lemma CreateKeepsTableOk(t: Table, kind: Kind, s: Step)
    requires TableOk(t) && s.Create?
    ensures TableOk(CreateLink(t, kind, s).0)
  {
    assert HasLink(t, s.linkHash) || forall id <- t :: t[id].linkHash != s.linkHash;
  }

  lemma ExchangeKeepsTableOk(t: Table, kind: Kind, s: Step)
    requires TableOk(t) && s.Exchange?
    ensures TableOk(ExchangeLink(t, kind, s).0)
  {
    assert HasSession(t, s.sessionHash) || forall id <- t :: t[id].sessionHash != Some(s.sessionHash);
  }

  lemma ApplyKeepsTableOk(t: Table, kind: Kind, s: Step)
    requires TableOk(t)
    ensures TableOk(Apply(t, kind, s).0)
  {
    if s.Create? {
      CreateKeepsTableOk(t, kind, s);
    } else if s.Exchange? {
      ExchangeKeepsTableOk(t, kind, s);
    } else {
      OtherStepsAddNothing(t, kind, s);
      OldLinksStayOk(t, Apply(t, kind, s).0);
    }
  }

  // --- Runs ----------------------------------------------------------------------------------

  /** The table after the first `n` steps, starting empty; without `prunes`, pruning is skipped. */
  ghost function TableAt(kind: Kind, steps: seq<Step>, n: nat, prunes: bool): Table
    requires n <= |steps|
  {
    if n == 0 then map[]
    else if steps[n - 1].Prune? && !prunes then TableAt(kind, steps, n - 1, prunes)
    else Apply(TableAt(kind, steps, n - 1, prunes), kind, steps[n - 1]).0
  }

  ghost function AnswerAt(kind: Kind, steps: seq<Step>, n: nat, prunes: bool): Answer
    requires n < |steps|
  {
    Apply(TableAt(kind, steps, n, prunes), kind, steps[n]).1
  }

  lemma {:induction false} TableAtOk(kind: Kind, steps: seq<Step>, n: nat, prunes: bool)
    requires n <= |steps|
    ensures TableOk(TableAt(kind, steps, n, prunes))
  {
    if n > 0 {
      TableAtOk(kind, steps, n - 1, prunes);
      ApplyKeepsTableOk(TableAt(kind, steps, n - 1, prunes), kind, steps[n - 1]);
    }
  }

  /** Identifiers, links and session cookies are drawn from so large a space that none is
      drawn twice. */
  ghost predicate NeverDrawnTwice(steps: seq<Step>) {
    forall i, j :: 0 <= i < j < |steps| ==>
      && (steps[i].Create? && steps[j].Create? ==> steps[i].id != steps[j].id && steps[i].linkHash != steps[j].linkHash)
      && (steps[i].Exchange? && steps[j].Exchange? ==> steps[i].sessionHash != steps[j].sessionHash)
  }

  ghost predicate ClockMonotone(steps: seq<Step>) {
    forall i, j :: 0 <= i < j < |steps| ==> steps[i].now <= steps[j].now
  }

  /** The row is what step `c` created, as far as it was not exchanged or revoked since. */
  predicate CreatedBy(id: Id, r: Token, kind: Kind, s: Step) {
    && s.Create? && s.id == id && s.vmId == r.vmId && s.linkHash == r.linkHash && s.boundIp == r.boundIp
    && r.createdAt == s.now && r.expiresAt == LinkExpiry(kind, s.now, s.expiresAt)
  }

  predicate ExchangedBy(r: Token, kind: Kind, s: Step) {
    && s.Exchange? && s.linkHash == r.linkHash && r.sessionHash == Some(s.sessionHash)
    && (r.boundIp.Some? ==> r.boundIp == s.sourceIp)
    && s.now < r.expiresAt && r.consumedAt == Some(s.now)
    && r.sessionExpiresAt == Some(SessionExpiry(kind, r, s.now, s.ttl))
  }

  /** Where a row comes from: created by an earlier step and, if consumed, consumed by a later
      one that was granted. */
  lemma {:induction false} RowHistory(kind: Kind, steps: seq<Step>, n: nat, prunes: bool, id: Id)
    returns (c: nat, x: nat)
    requires n <= |steps| && id in TableAt(kind, steps, n, prunes)
    ensures c < n && CreatedBy(id, TableAt(kind, steps, n, prunes)[id], kind, steps[c])
    ensures TableAt(kind, steps, n, prunes)[id].consumedAt.Some? ==>
              && c < x < n && ExchangedBy(TableAt(kind, steps, n, prunes)[id], kind, steps[x])
              && AnswerAt(kind, steps, x, prunes).Granted? && AnswerAt(kind, steps, x, prunes).id == id
  {
    var before := TableAt(kind, steps, n - 1, prunes);
    var s := steps[n - 1];
    if s.Prune? && !prunes {
      c, x := RowHistory(kind, steps, n - 1, prunes, id);
    } else if s.Create? && id !in before {
      c, x := n - 1, 0;
    } else {
      RowAfter(before, kind, s, id);
      c, x := RowHistory(kind, steps, n - 1, prunes, id);
      if before[id].consumedAt != TableAt(kind, steps, n, prunes)[id].consumedAt { x := n - 1; }
    }
  }

  /** What one step does to a row that was there before. */
  lemma RowAfter(t: Table, kind: Kind, s: Step, id: Id)
    requires id in Apply(t, kind, s).0 && !(s.Create? && id !in t)
    ensures id in t
    ensures var (after, answer) := Apply(t, kind, s);
            || SameLink(t[id], after[id])
            || (&& s.Exchange? && answer.Granted? && answer.id == id && t[id].consumedAt.None?
                && after[id] == Consumed(kind, t[id], s.sessionHash, s.now, s.ttl)
                && Exchangeable(t[id], s.linkHash, s.now) && (t[id].boundIp.Some? ==> t[id].boundIp == s.sourceIp))
  {
    if !s.Create? && !s.Exchange? { OtherStepsAddNothing(t, kind, s); }
  }

  /** A link is consumed at most once, whatever else happens. */
  lemma LinkConsumedOnce(kind: Kind, steps: seq<Step>, i: nat, j: nat)
    requires NeverDrawnTwice(steps) && i < j < |steps|
    requires steps[i].Exchange? && steps[j].Exchange? && steps[i].linkHash == steps[j].linkHash
    requires AnswerAt(kind, steps, i, true).Granted?
    ensures AnswerAt(kind, steps, j, true) == Denied || AnswerAt(kind, steps, j, true) == Failed(Validation)
  {
    var c := GrantedLinkWasCreated(kind, steps, i);
    TableAtOk(kind, steps, i, true);
    GrantSpends(TableAt(kind, steps, i, true), kind, steps[i]);
    SpentStays(kind, steps, i + 1, j, steps[i].linkHash, c);
    SpentIsRefused(TableAt(kind, steps, j, true), kind, steps[j]);
  }

  lemma GrantedLinkWasCreated(kind: Kind, steps: seq<Step>, i: nat) returns (c: nat)
    requires i < |steps| && steps[i].Exchange? && AnswerAt(kind, steps, i, true).Granted?
    ensures c < i && steps[c].Create? && steps[c].linkHash == steps[i].linkHash
  {
    var x;
    c, x := RowHistory(kind, steps, i, true, AnswerAt(kind, steps, i, true).id);
  }

  lemma GrantSpends(t: Table, kind: Kind, s: Step)
    requires TableOk(t) && s.Exchange? && Apply(t, kind, s).1.Granted?
    ensures !Spendable(Apply(t, kind, s).0, s.linkHash)
  {
  }

  lemma SpentIsRefused(t: Table, kind: Kind, s: Step)
    requires s.Exchange? && !Spendable(t, s.linkHash)
    ensures Apply(t, kind, s).1 == Denied || Apply(t, kind, s).1 == Failed(Validation)
  {
  }

  ghost predicate Spendable(t: Table, linkHash: Hash) {
    exists id <- t :: t[id].linkHash == linkHash && t[id].consumedAt.None?
  }

  lemma {:induction false} SpentStays(kind: Kind, steps: seq<Step>, from: nat, n: nat, h: Hash, c: nat)
    requires NeverDrawnTwice(steps) && c < from <= n <= |steps|
    requires steps[c].Create? && steps[c].linkHash == h
    requires !Spendable(TableAt(kind, steps, from, true), h)
    ensures !Spendable(TableAt(kind, steps, n, true), h)
    decreases n
  {
    if n > from {
      SpentStays(kind, steps, from, n - 1, h, c);
      SpentAfter(TableAt(kind, steps, n - 1, true), kind, steps[n - 1], h);
    }
  }

  lemma SpentAfter(t: Table, kind: Kind, s: Step, h: Hash)
    requires !Spendable(t, h) && (s.Create? ==> s.linkHash != h)
    ensures !Spendable(Apply(t, kind, s).0, h)
  {
    var after := Apply(t, kind, s).0;
    forall id | id in after && after[id].linkHash == h ensures after[id].consumedAt.Some? {
      if !(s.Create? && id !in t) { RowAfter(t, kind, s, id); }
    }
  }

  /** A session authenticates only if a link was exchanged for it earlier, strictly before the
      link's own expiry, within its time to live, and from the address the link is bound to. */
  lemma SessionComesFromItsLink(kind: Kind, steps: seq<Step>, n: nat) returns (c: nat, x: nat)
    requires n < |steps| && steps[n].Authenticate? && AnswerAt(kind, steps, n, true).Granted?
    ensures var r := AnswerAt(kind, steps, n, true).token;
            && c < x < n
            && CreatedBy(AnswerAt(kind, steps, n, true).id, r, kind, steps[c])
            && ExchangedBy(r, kind, steps[x]) && AnswerAt(kind, steps, x, true).Granted?
            && steps[x].sessionHash == steps[n].sessionHash
            && (kind == Vnc ==> steps[n].now < steps[c].now + 600 && steps[x].now < steps[c].now + 600)
            && (kind == Customer ==>
                  && steps[n].now < steps[c].expiresAt && steps[x].now < steps[c].expiresAt
                  && steps[n].now < steps[x].now + steps[x].ttl && steps[n].now < steps[x].now + 3600)
            && (steps[c].boundIp.Some? ==> steps[c].boundIp == steps[x].sourceIp == steps[n].sourceIp)
            && r.revokedAt.None?
  {
    TableAtOk(kind, steps, n, true);
    c, x := RowHistory(kind, steps, n, true, AnswerAt(kind, steps, n, true).id);
  }

  /** A new link is exchanged: the row it leaves, and nothing else, has the session. */
  lemma NewLinkExchanges(t: Table, kind: Kind, c: Step, x: Step)
    requires TableOk(t) && c.Create? && x.Exchange?
    requires c.id !in t && !HasLink(t, c.linkHash) && !HasSession(t, x.sessionHash)
    requires c.now < LinkExpiry(kind, c.now, c.expiresAt) && x.now < LinkExpiry(kind, c.now, c.expiresAt)
    requires x.linkHash == c.linkHash && (kind == Customer ==> x.ttl > 0)
    requires c.boundIp.Some? ==> c.boundIp == x.sourceIp
    ensures var t1 := Apply(t, kind, c).0;
            var (t2, answer) := Apply(t1, kind, x);
            && Apply(t, kind, c).1 == Done && answer.Granted? && answer.id == c.id && c.id in t1 && c.id in t2
            && t1[c.id].expiresAt == LinkExpiry(kind, c.now, c.expiresAt)
            && t2[c.id] == Consumed(kind, t1[c.id], x.sessionHash, x.now, x.ttl)
            && t2[c.id].revokedAt.None? && t2[c.id].boundIp == c.boundIp
            && forall id <- t2 :: t2[id].sessionHash == Some(x.sessionHash) ==> id == c.id
  {
    ApplyKeepsTableOk(t, kind, c);
    var t1 := Apply(t, kind, c).0;
    assert Exchangeable(t1[c.id], x.linkHash, x.now);
    assert forall id <- t1 :: Exchangeable(t1[id], x.linkHash, x.now) ==> id == c.id;
    assert !HasSession(t1, x.sessionHash) by {
      forall id | id in t1 ensures t1[id].sessionHash != Some(x.sessionHash) {
        if id in t { assert t1[id] == t[id]; }
      }
    }
    ApplyKeepsTableOk(t1, kind, x);
  }

  /** The one session with a hash authenticates until it ends. */
  lemma OnlySessionAuthenticates(t: Table, kind: Kind, a: Step, id: Id)
    requires a.Authenticate? && id in t && t[id].sessionHash == Some(a.sessionHash) && t[id].sessionExpiresAt.Some?
    requires forall o <- t :: t[o].sessionHash == Some(a.sessionHash) ==> o == id
    requires t[id].revokedAt.None? && (t[id].boundIp.Some? ==> t[id].boundIp == a.sourceIp)
    ensures Apply(t, kind, a).1.Granted? <==> a.now < t[id].sessionExpiresAt.value
    ensures Apply(t, kind, a).1.Granted? ==> Apply(t, kind, a).1.id == id
  {
    assert a.now < t[id].sessionExpiresAt.value ==> Authentic(t[id], a.sessionHash, a.sourceIp, a.now);
  }

  /** A link works: created under unused identifiers, it can be exchanged before it expires from
      an address it is bound to, and the session authenticates until it ends: a customer's with
      the link, its time to live or after an hour, whichever comes first, and a VNC session ten
      minutes after the link was created. */
  lemma LinkWorks(t: Table, kind: Kind, c: Step, x: Step, a: Step)
    requires TableOk(t) && c.Create? && x.Exchange? && a.Authenticate?
    requires c.id !in t && !HasLink(t, c.linkHash) && !HasSession(t, x.sessionHash)
    requires if kind == Vnc then x.now < c.now + 600 else c.now < c.expiresAt && x.now < c.expiresAt
    requires x.linkHash == c.linkHash && a.sessionHash == x.sessionHash && (kind == Customer ==> x.ttl > 0)
    requires c.boundIp.Some? ==> c.boundIp == x.sourceIp == a.sourceIp
    ensures var t1 := Apply(t, kind, c).0;
            var t2 := Apply(t1, kind, x).0;
            && Apply(t, kind, c).1 == Done
            && Apply(t1, kind, x).1.Granted? && Apply(t1, kind, x).1.id == c.id
            && (Apply(t2, kind, a).1.Granted? <==>
                  if kind == Vnc then a.now < c.now + 600
                  else a.now < c.expiresAt && a.now < x.now + x.ttl && a.now < x.now + 3600)
            && (Apply(t2, kind, a).1.Granted? ==> Apply(t2, kind, a).1.id == c.id)
  {
    NewLinkExchanges(t, kind, c, x);
    OnlySessionAuthenticates(Apply(Apply(t, kind, c).0, kind, x).0, kind, a, c.id);
  }

  // --- Pruning ---------------------------------------------------------------------------------

  /** The pruned table is the other one less some dead rows. */
  ghost predicate Simulates(pruned: Table, full: Table, now: int) {
    && (forall id <- pruned :: id in full && full[id] == pruned[id])
    && (forall id <- full :: id !in pruned ==> Dead(full[id], now))
  }

  lemma SimulatesLater(pruned: Table, full: Table, now: int, later: int)
    requires Simulates(pruned, full, now) && now <= later
    ensures Simulates(pruned, full, later)
  {
  }

  lemma DeadIsUseless(r: Token, h: Hash, ip: Option<Ip>, now: int)
    requires Dead(r, now) && RowOk(r)
    ensures !Exchangeable(r, h, now) && !Authentic(r, h, ip, now)
  {
  }

  lemma FindsTheSame(pruned: Table, full: Table, h: Hash, ip: Option<Ip>, now: int)
    requires TableOk(full) && Simulates(pruned, full, now)
    ensures FindLink(pruned, h, now) == FindLink(full, h, now)
    ensures FindSession(pruned, h, ip, now) == FindSession(full, h, ip, now)
  {
    forall id | id in full && id !in pruned
      ensures !Exchangeable(full[id], h, now) && !Authentic(full[id], h, ip, now)
    {
      DeadIsUseless(full[id], h, ip, now);
    }
  }

  /** A new hash of the step is already in the table. */
  predicate Collides(t: Table, s: Step) {
    match s
    case Create(_, id, _, linkHash, _, _) => id in t || HasLink(t, linkHash)
    case Exchange(_, _, sessionHash, _, _) => HasSession(t, sessionHash)
    case _ => false
  }

  predicate Answers(s: Step) {
    s.Create? || s.Exchange? || s.Authenticate?
  }

  lemma ExchangeSimulates(pruned: Table, full: Table, kind: Kind, s: Step)
    requires s.Exchange? && TableOk(full) && Simulates(pruned, full, s.now) && !Collides(full, s)
    ensures Simulates(ExchangeLink(pruned, kind, s).0, ExchangeLink(full, kind, s).0, s.now)
    ensures ExchangeLink(pruned, kind, s).1 == ExchangeLink(full, kind, s).1
  {
    FindsTheSame(pruned, full, s.linkHash, s.sourceIp, s.now);
    assert !HasSession(full, s.sessionHash) && !HasSession(pruned, s.sessionHash);
  }

  lemma AuthenticateSimulates(pruned: Table, full: Table, kind: Kind, s: Step)
    requires s.Authenticate? && TableOk(full) && Simulates(pruned, full, s.now)
    ensures Simulates(AuthenticateSession(pruned, kind, s).0, AuthenticateSession(full, kind, s).0, s.now)
    ensures AuthenticateSession(pruned, kind, s).1 == AuthenticateSession(full, kind, s).1
  {
    FindsTheSame(pruned, full, s.sessionHash, s.sourceIp, s.now);
  }

  lemma CreateSimulates(pruned: Table, full: Table, kind: Kind, s: Step)
    requires s.Create? && Simulates(pruned, full, s.now) && !Collides(full, s)
    ensures Simulates(CreateLink(pruned, kind, s).0, CreateLink(full, kind, s).0, s.now)
    ensures CreateLink(pruned, kind, s).1 == CreateLink(full, kind, s).1
  {
    assert !HasLink(full, s.linkHash) && !HasLink(pruned, s.linkHash);
  }

  lemma RevokeSimulates(pruned: Table, full: Table, kind: Kind, s: Step)
    requires (s.RevokeLink? || s.RevokeSession? || s.RevokeVm? || s.DeleteVm?) && Simulates(pruned, full, s.now)
    ensures Simulates(Apply(pruned, kind, s).0, Apply(full, kind, s).0, s.now)
  {
  }

  lemma StepSimulates(pruned: Table, full: Table, kind: Kind, s: Step)
    requires TableOk(full) && Simulates(pruned, full, s.now) && !Collides(full, s) && !s.Prune?
    ensures Simulates(Apply(pruned, kind, s).0, Apply(full, kind, s).0, s.now)
    ensures Answers(s) ==> Apply(pruned, kind, s).1 == Apply(full, kind, s).1
  {
    if s.Create? {
      CreateSimulates(pruned, full, kind, s);
    } else if s.Exchange? {
      ExchangeSimulates(pruned, full, kind, s);
    } else if s.Authenticate? {
      AuthenticateSimulates(pruned, full, kind, s);
    } else {
      RevokeSimulates(pruned, full, kind, s);
    }
  }

  lemma PruneSimulates(pruned: Table, full: Table, now: int)
    requires Simulates(pruned, full, now)
    ensures Simulates(Pruned(pruned, now), full, now)
  {
  }

  /** One step of both runs, the second of which does not prune. */
  lemma BothSimulate(pruned: Table, full: Table, kind: Kind, s: Step)
    requires TableOk(full) && Simulates(pruned, full, s.now) && !Collides(full, s)
    ensures Simulates(Apply(pruned, kind, s).0, if s.Prune? then full else Apply(full, kind, s).0, s.now)
  {
    if s.Prune? {
      PruneSimulates(pruned, full, s.now);
    } else {
      StepSimulates(pruned, full, kind, s);
    }
  }

  lemma DrawsDoNotCollide(kind: Kind, steps: seq<Step>, n: nat)
    requires NeverDrawnTwice(steps) && n < |steps|
    ensures !Collides(TableAt(kind, steps, n, false), steps[n])
  {
    var t := TableAt(kind, steps, n, false);
    forall id | id in t
      ensures steps[n].Create? ==> id != steps[n].id && t[id].linkHash != steps[n].linkHash
      ensures steps[n].Exchange? ==> t[id].sessionHash != Some(steps[n].sessionHash)
    {
      TableAtOk(kind, steps, n, false);
      var c, x := RowHistory(kind, steps, n, false, id);
    }
  }

  lemma {:induction false} RunsSimulate(kind: Kind, steps: seq<Step>, n: nat, now: int)
    requires NeverDrawnTwice(steps) && ClockMonotone(steps) && n <= |steps|
    requires forall i :: 0 <= i < n ==> steps[i].now <= now
    ensures Simulates(TableAt(kind, steps, n, true), TableAt(kind, steps, n, false), now)
  {
    if n > 0 {
      var s := steps[n - 1];
      RunsSimulate(kind, steps, n - 1, s.now);
      TableAtOk(kind, steps, n - 1, false);
      DrawsDoNotCollide(kind, steps, n - 1);
      BothSimulate(TableAt(kind, steps, n - 1, true), TableAt(kind, steps, n - 1, false), kind, s);
      SimulatesLater(TableAt(kind, steps, n, true), TableAt(kind, steps, n, false), s.now, now);
    }
  }

  /** Pruning, at whatever times, changes the answer of no exchange and no authentication. */
  lemma PruningIsInvisible(kind: Kind, steps: seq<Step>, n: nat)
    requires NeverDrawnTwice(steps) && ClockMonotone(steps) && n < |steps| && Answers(steps[n])
    ensures AnswerAt(kind, steps, n, true) == AnswerAt(kind, steps, n, false)
  {
    RunsSimulate(kind, steps, n, steps[n].now);
    TableAtOk(kind, steps, n, false);
    DrawsDoNotCollide(kind, steps, n);
    StepSimulates(TableAt(kind, steps, n, true), TableAt(kind, steps, n, false), kind, steps[n]);
  }

  /** The link is open to this request. */
  predicate Admits(t: Table, kind: Kind, s: Step)
    requires s.Exchange?
  {
    && (kind == Customer ==> s.ttl > 0)
    && exists id <- t ::
         Exchangeable(t[id], s.linkHash, s.now) && (t[id].boundIp.Some? ==> t[id].boundIp == s.sourceIp)
  }

  /** The one way to notice a pruned row: the link is open, and the session hash is one that a
      pruned row and no other holds. */
  lemma PruneNoticedExactly(t: Table, kind: Kind, at: int, s: Step)
    requires TableOk(t) && s.Exchange? && at <= s.now
    ensures ExchangeLink(Pruned(t, at), kind, s).1 != ExchangeLink(t, kind, s).1
            <==> && Admits(t, kind, s)
                 && HasSession(t, s.sessionHash) && !HasSession(Pruned(t, at), s.sessionHash)
  {
    var pruned := Pruned(t, at);
    assert Simulates(pruned, t, at);
    SimulatesLater(pruned, t, at, s.now);
    FindsTheSame(pruned, t, s.linkHash, s.sourceIp, s.now);
    if HasSession(pruned, s.sessionHash) {
      var id :| id in pruned && pruned[id].sessionHash == Some(s.sessionHash);
      assert t[id].sessionHash == Some(s.sessionHash);
    }
  }

  lemma OpenLinkIsGranted(t: Table, kind: Kind, s: Step, id: Id)
    requires TableOk(t) && s.Exchange? && s.ttl > 0
    requires id in t && Exchangeable(t[id], s.linkHash, s.now) && t[id].boundIp.None?
    ensures ExchangeLink(t, kind, s).1 ==
              if HasSession(t, s.sessionHash) then Failed(Storage)
              else Granted(id, Consumed(kind, t[id], s.sessionHash, s.now, s.ttl))
  {
    assert FindLink(t, s.linkHash, s.now) == Some(id);
  }

  const ENDED: Token := Token("vm", "first", None, 0, 100, Some("hash"), Some(0), Some(10), None, None)
  const OPEN: Token := Token("vm", "second", None, 0, 100, None, None, None, None, None)

  /** Drawing the hash of a session that has ended: refused until its row is pruned, granted after. */
  lemma PrunedHashIsGranted(kind: Kind)
    ensures var t := map["1" := ENDED, "2" := OPEN];
            var s := Exchange(20, "second", "hash", None, 60);
            && TableOk(t) && ExchangeLink(t, kind, s).1 == Failed(Storage)
            && ExchangeLink(Pruned(t, 10), kind, s).1 == Granted("2", Consumed(kind, OPEN, "hash", 20, 60))
  {
    var t := map["1" := ENDED, "2" := OPEN];
    var s := Exchange(20, "second", "hash", None, 60);
    assert Pruned(t, 10) == map["2" := OPEN];
    assert "first" != "second" by { assert |"first"| != |"second"|; }
    assert t["1"].sessionHash == Some("hash");
    OpenLinkIsGranted(t, kind, s, "2");
    OpenLinkIsGranted(Pruned(t, 10), kind, s, "2");
  }

  // --- The tables, updated in place ------------------------------------------------------------

  /** Rows revoked before keep their time, so only the others need to be written. */
  lemma SessionRevoked(t: Table, after: Table, sessionHash: Hash, now: int)
    requires after.Keys == t.Keys
    requires forall id <- t :: after[id] == if t[id].sessionHash == Some(sessionHash) && t[id].revokedAt.None?
                                            then t[id].(revokedAt := Some(now)) else t[id]
    ensures after == RevokeIn(t, (set id | id in t && t[id].sessionHash == Some(sessionHash)), now)
  {
  }

  /** One of the two token tables; `prune_expired_tokens` prunes both in one transaction. */
  class TokenTable {
    const kind: Kind
    var rows: Table

    ghost predicate Valid()
      reads this
    {
      TableOk(rows)
    }

    constructor (kind: Kind)
      ensures Valid() && this.kind == kind && rows == map[]
    {
      this.kind, rows := kind, map[];
    }

    method Create(s: Step) returns (answer: Answer)
      requires Valid() && s.Create?
      modifies this
      ensures Valid() && (rows, answer) == Apply(old(rows), kind, s)
    {
      ApplyKeepsTableOk(rows, kind, s);
      if kind == Customer && s.expiresAt <= s.now { return Failed(Validation); }
      if s.id in rows || HasLink(rows, s.linkHash) { return Failed(Storage); }
      var expiresAt := if kind == Vnc then s.now + VNC_LIFETIME else s.expiresAt;
      rows := rows[s.id := Token(s.vmId, s.linkHash, s.boundIp, s.now, expiresAt, None, None, None, None, None)];
      answer := Done;
    }

    method Exchange(s: Step) returns (answer: Answer)
      requires Valid() && s.Exchange?
      modifies this
      ensures Valid() && (rows, answer) == Apply(old(rows), kind, s)
    {
      ApplyKeepsTableOk(rows, kind, s);
      if kind == Customer && s.ttl == 0 { return Failed(Validation); }
      if id :| id in rows && Exchangeable(rows[id], s.linkHash, s.now) {
        assert FindLink(rows, s.linkHash, s.now) == Some(id);
        var link := rows[id];
        if link.boundIp.Some? && link.boundIp != s.sourceIp { return Denied; }
        if HasSession(rows, s.sessionHash) { return Failed(Storage); }
        var ends := link.expiresAt;
        if kind == Customer { ends := Min(ends, s.now + Min(s.ttl, SESSION_LIMIT)); }
        var session := link.(
          sessionHash := Some(s.sessionHash), consumedAt := Some(s.now), sessionExpiresAt := Some(ends));
        if kind == Customer { session := session.(lastUsedAt := Some(s.now)); }
        rows := rows[id := session];
        return Granted(id, session);
      }
      answer := Denied;
    }

    method Authenticate(s: Step) returns (answer: Answer)
      requires Valid() && s.Authenticate?
      modifies this
      ensures Valid() && (rows, answer) == Apply(old(rows), kind, s)
    {
      ApplyKeepsTableOk(rows, kind, s);
      if id :| id in rows && Authentic(rows[id], s.sessionHash, s.sourceIp, s.now) {
        assert FindSession(rows, s.sessionHash, s.sourceIp, s.now) == Some(id);
        answer := Granted(id, rows[id]);
        if kind == Customer { rows := rows[id := rows[id].(lastUsedAt := Some(s.now))]; }
        assert rows == old(rows)[id := Used(kind, old(rows)[id], s.now)];
        return;
      }
      answer := Denied;
    }

    /** A revocation time once set stays. */
    method RevokeLink(vmId: Id, id: Id, now: int) returns (answer: Answer)
      requires Valid()
      modifies this
      ensures Valid() && (rows, answer) == Apply(old(rows), kind, Step.RevokeLink(now, vmId, id))
    {
      ApplyKeepsTableOk(rows, kind, Step.RevokeLink(now, vmId, id));
      if id !in rows || rows[id].vmId != vmId { return Failed(NotFound); }
      rows := rows[id := Revoke(rows[id], now)];
      assert rows == RevokeIn(old(rows), {id}, now);
      answer := Done;
    }

    method RevokeSession(sessionHash: Hash, now: int)
      requires Valid()
      modifies this
      ensures Valid() && rows == Apply(old(rows), kind, Step.RevokeSession(now, sessionHash)).0
    {
      ApplyKeepsTableOk(rows, kind, Step.RevokeSession(now, sessionHash));
      rows := rows + map id | id in rows && rows[id].sessionHash == Some(sessionHash) && rows[id].revokedAt.None?
                       :: rows[id].(revokedAt := Some(now));
      SessionRevoked(old(rows), rows, sessionHash, now);
    }

    method RevokeVm(vmId: Id, now: int)
      requires Valid()
      modifies this
      ensures Valid() && rows == Apply(old(rows), kind, Step.RevokeVm(now, vmId)).0
    {
      ApplyKeepsTableOk(rows, kind, Step.RevokeVm(now, vmId));
      rows := rows + map id | id in rows && rows[id].vmId == vmId :: Revoke(rows[id], now);
      ghost var chosen := set id | id in old(rows) && old(rows)[id].vmId == vmId;
      assert rows == RevokeIn(old(rows), chosen, now);
    }

    method Prune(now: int)
      requires Valid()
      modifies this
      ensures Valid() && rows == Pruned(old(rows), now)
    {
      OldLinksStayOk(rows, Pruned(rows, now));
      var dead := set id | id in rows && (rows[id].revokedAt.Some? || Until(rows[id]) <= now);
      rows := rows - dead;
    }
  }
}
