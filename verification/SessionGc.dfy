/**
 * Collecting sessions and scoped requests.
 *
 * A vault that collects sessions is run side by side with one that keeps them, under a clock that
 * never runs back.  The two hold the same leases, and answer scoped requests alike, until an
 * operation tells them apart; which operations do is stated exactly.
 */
module SessionGc {
  import opened Types
  import opened Identity
  import opened Policy
  import opened Leases
  import opened Sessions
  import opened VaultModel
  import opened Gc

  /** The same sessions, without some that are no longer active. */
  predicate Pruned(kept: map<Token, Session>, pruned: map<Token, Session>, since: Time) {
    && (forall t | t in pruned :: t in kept && kept[t] == pruned[t])
    && (forall t | t in kept && t !in pruned :: !Active(kept[t], since))
  }

  /** Two vaults that differ in collected sessions only. */
  predicate Twins(a: State, b: State, since: Time) {
    a.leases == b.leases && SameKeys(a, b) && Pruned(a.sessions, b.sessions, since)
  }

  /**
   * The operations that tell them apart: revoking a collected session that still has live leases,
   * and a renewal that only the limit of a collected session stands against.
   */
  ghost predicate Divides(a: State, b: State, op: Op) {
    match op
    case OpRevokeSession(token, _) =>
      && token in a.sessions && token !in b.sessions
      && Flipped(a.leases, BySession(a.sessions[token].id)) != {}
    case OpRenew(id, ext, env) =>
      && id in a.leases
      && var l := a.leases[id];
      && env.now <= l.expiresAt && !l.revoked && l.renewable && 0 < ext <= MAX_EXTENSION_SECS && l.sessionId.Some?
      && RenewalCapped(a.sessions, l.sessionId.value, l.renewalCount)
      && !RenewalCapped(b.sessions, l.sessionId.value, l.renewalCount)
    case _ => false
  }

  // ---- Operations that do not look at sessions ----

  predicate SameVault(a: State, b: State) {
    a.leases == b.leases && SameKeys(a, b)
  }

  lemma SameRequest(c: Config, a: State, b: State, agent: AgentId, name: SecretName, domain: DomainScope, id: LeaseId,
                    env: Env)
    requires SameVault(a, b)
    ensures var (a', r), (b', q) := RequestLease(c, a, agent, name, domain, id, env),
                                    RequestLease(c, b, agent, name, domain, id, env);
      SameVault(a', b') && r == q && a'.sessions == a.sessions && b'.sessions == b.sessions
  {
    hide Evaluate, ActiveCount;
  }

  lemma SameAccess(c: Config, a: State, b: State, id: LeaseId, target: string, env: Env)
    requires SameVault(a, b)
    ensures var a', b' := AccessSecret(c, a, id, target, env).0, AccessSecret(c, b, id, target, env).0;
      SameVault(a', b') && a'.sessions == a.sessions && b'.sessions == b.sessions
  {
    hide AccessSecret, UseLease;
    AccessEffect(c, a, id, target, env);
    AccessEffect(c, b, id, target, env);
  }

  lemma SameRevoke(a: State, b: State, id: LeaseId, reason: RevocationReason, env: Env)
    requires SameVault(a, b)
    ensures var a', b' := RevokeLease(a, id, reason, env).0, RevokeLease(b, id, reason, env).0;
      SameVault(a', b') && a'.sessions == a.sessions && b'.sessions == b.sessions
  {
  }

  lemma SameBulk(a: State, b: State, sel: Selector, lost: set<LeaseId>)
    requires SameVault(a, b)
    ensures var a', b' := BulkRevoke(a, sel, lost), BulkRevoke(b, sel, lost);
      SameVault(a', b') && a'.sessions == a.sessions && b'.sessions == b.sessions
  {
    hide RevokeWhere, RevocationEntries, Flipped;
  }

  lemma SameDelete(a: State, b: State, name: SecretName, env: Env)
    requires SameVault(a, b)
    ensures var a', b' := DeleteSecret(a, name, env).0, DeleteSecret(b, name, env).0;
      SameVault(a', b') && a'.sessions == a.sessions && b'.sessions == b.sessions
  {
    hide BulkRevoke;
    SameBulk(a, b, BySecret(name), env.lost);
  }

  // ---- Operations that do ----

  /** A session check passes in both vaults or in neither. */
  lemma SameCheck(a: map<Token, Session>, b: map<Token, Session>, since: Time, token: Token, tool: string,
                  name: SecretName, domain: DomainScope, now: Time)
    requires Pruned(a, b, since) && since <= now
    ensures var r, q := SessionCheck(a, token, tool, name, domain, now),
                        SessionCheck(b, token, tool, name, domain, now);
      && (token in b ==> r == q)
      && (token !in b ==> r.Err? && !r.error.AccessDenied? && q == Err(SessionNotFound))
  {
    hide ToolAllowed;
  }

  lemma PrunedCounted(a: State, b: State, since: Time, token: Token)
    requires Pruned(a.sessions, b.sessions, since) && token in b.sessions
    ensures Pruned(Counted(a, token).sessions, Counted(b, token).sessions, since)
    ensures Counted(a, token) == a.(sessions := Counted(a, token).sessions)
    ensures Counted(b, token) == b.(sessions := Counted(b, token).sessions)
  {
  }

  lemma LinkedAlike(a: State, b: State, id: LeaseId, sid: SessionId)
    requires SameVault(a, b)
    ensures SameVault(Linked(a, id, sid), Linked(b, id, sid))
    ensures Linked(a, id, sid).sessions == a.sessions && Linked(b, id, sid).sessions == b.sessions
  {
  }

  /** A scoped request is answered alike by twins and leaves twins. */
  lemma TwinScoped(c: Config, a: State, b: State, since: Time, agent: AgentId, name: SecretName, domain: DomainScope,
                   token: Token, tool: string, id: LeaseId, env: Env)
    requires Twins(a, b, since) && since <= env.now
    ensures var (a', r), (b', q) := RequestLeaseScoped(c, a, agent, name, domain, token, tool, id, env),
                                    RequestLeaseScoped(c, b, agent, name, domain, token, tool, id, env);
      Twins(a', b', env.now) && (r.Ok? <==> q.Ok?) && (r.Ok? ==> r == q)
  {
    hide RequestLease, SessionCheck, Linked, Counted, Pruned;
    SameCheck(a.sessions, b.sessions, since, token, tool, name, domain, env.now);
    SameRequest(c, a, b, agent, name, domain, id, env);
    StillPruned(a.sessions, b.sessions, since, env.now);
    var check := SessionCheck(b.sessions, token, tool, name, domain, env.now);
    if check.Ok? {
      CheckHeld(b.sessions, token, tool, name, domain, env.now);
      var a1 := RequestLease(c, a, agent, name, domain, id, env).0;
      var b1 := RequestLease(c, b, agent, name, domain, id, env).0;
      LinkedAlike(a1, b1, id, check.value);
      PrunedCounted(Linked(a1, id, check.value), Linked(b1, id, check.value), env.now, token);
    }
  }

  lemma StillPruned(a: map<Token, Session>, b: map<Token, Session>, since: Time, later: Time)
    requires Pruned(a, b, since) && since <= later
    ensures Pruned(a, b, later)
  {
  }

  /** A renewal leaves twins, or tells them apart. */
  lemma TwinRenew(a: State, b: State, since: Time, id: LeaseId, ext: int, env: Env)
    requires Twins(a, b, since)
    ensures var a', b' := RenewLease(a, id, ext, env).0, RenewLease(b, id, ext, env).0;
      if Divides(a, b, OpRenew(id, ext, env)) then a'.leases != b'.leases else Twins(a', b', since)
  {
    RenewalsAlike(a, b, since, id, ext, env.now);
    hide RenewLease, RenewedLease, RenewalCapped, Pruned;
    RenewEffect(a, id, ext, env);
    RenewEffect(b, id, ext, env);
  }

  lemma RenewalsAlike(a: State, b: State, since: Time, id: LeaseId, ext: int, now: Time)
    requires Twins(a, b, since)
    ensures var la, lb := RenewedLease(a, id, ext, now), RenewedLease(b, id, ext, now);
      if Divides(a, b, OpRenew(id, ext, Env(now, true, true, {})))
      then la.Err? && lb.Ok? && lb.value != a.leases[id]
      else (la.Ok? <==> lb.Ok?) && (la.Ok? ==> la == lb)
  {
    if id in a.leases && a.leases[id].sessionId.Some? {
      CappedBoth(a.sessions, b.sessions, since, a.leases[id].sessionId.value, a.leases[id].renewalCount);
    }
    hide RenewalCapped, RenewalLimit, Pruned;
  }

  lemma CappedBoth(a: map<Token, Session>, b: map<Token, Session>, since: Time, sid: SessionId, n: nat)
    requires Pruned(a, b, since)
    ensures RenewalCapped(b, sid, n) ==> RenewalCapped(a, sid, n)
  {
  }

  /** Revoking a session leaves twins, or tells them apart. */
  lemma TwinRevokeSession(a: State, b: State, since: Time, token: Token, env: Env)
    requires Twins(a, b, since)
    ensures var a', b' := RevokeSession(a, token, env).0, RevokeSession(b, token, env).0;
      if Divides(a, b, OpRevokeSession(token, env)) then a'.leases != b'.leases else Twins(a', b', since)
  {
    hide RevocationEntries, Flipped, RevokeWhere;
    if token in a.sessions {
      FlipsAny(a.leases, BySession(a.sessions[token].id));
    }
  }

  lemma FlipsAny(leases: map<LeaseId, Lease>, sel: Selector)
    ensures RevokeWhere(leases, sel) == leases <==> Flipped(leases, sel) == {}
  {
    if id :| id in Flipped(leases, sel) {
      assert RevokeWhere(leases, sel)[id] != leases[id];
    } else {
      var after := RevokeWhere(leases, sel);
      forall id | id in leases ensures after[id] == leases[id] {
        assert id in Flipped(leases, sel) <==> sel.Selects(leases[id]) && !leases[id].revoked;
      }
      assert after == leases;
    }
  }

  lemma PrunedCreate(a: map<Token, Session>, b: map<Token, Session>, since: Time, token: Token, session: Session)
    requires Pruned(a, b, since) && token !in a
    ensures Pruned(a[token := session], b[token := session], since)
  {
  }

  lemma PrunedMore(a: map<Token, Session>, b: map<Token, Session>, since: Time, now: Time)
    requires Pruned(a, b, since) && since <= now
    ensures Pruned(a, map t | t in b && Active(b[t], now) :: b[t], now)
  {
  }

  /** One step of both vaults: twins stay twins, unless the operation is one that tells them apart. */
  lemma TwinStep(c: Config, a: State, b: State, since: Time, op: Op, later: Time)
    requires Twins(a, b, since) && since <= later && (OpTime(op).Some? ==> later == OpTime(op).value)
    requires op.OpCreateSession? ==> op.token !in a.sessions
    ensures var a', b' := KeepingApply(c, a, op), Apply(c, b, op);
      if Divides(a, b, op) then a'.leases != b'.leases else Twins(a', b', later)
  {
    hide RequestLease, RequestLeaseScoped, AccessSecret, RenewLease, RevokeLease, BulkRevoke, DeleteSecret, StoreSecret,
      RotateDek, RevokeSession, Pruned, Divides, Kept;
    StillPruned(a.sessions, b.sessions, since, later);
    NeverDivides(a, b, op);
    match op
    case OpRequest(agent, name, domain, id, env) => SameRequest(c, a, b, agent, name, domain, id, env);
    case OpRequestScoped(agent, name, domain, token, tool, id, env) =>
      TwinScoped(c, a, b, since, agent, name, domain, token, tool, id, env);
    case OpAccess(id, target, env) => SameAccess(c, a, b, id, target, env);
    case OpRevoke(id, reason, env) => SameRevoke(a, b, id, reason, env);
    case OpRevokeAll(agent, env) => SameBulk(a, b, ByAgent(agent), env.lost);
    case OpDelete(name, env) => SameDelete(a, b, name, env);
    case OpRenew(id, ext, env) => TwinRenew(a, b, later, id, ext, env);
    case OpStore(name, plaintext, kind, description, sid, nonce, env) =>
      SimStore(c, a, b, name, plaintext, kind, description, sid, nonce, env);
    case OpRotate(newKey, nonces, faults, env) => SimRotate(c, a, b, newKey, nonces, faults, env);
    case OpCreateSession(user, channel, policy, token, sid, env) =>
      PrunedCreate(a.sessions, b.sessions, later, token, NewSession(sid, user, channel, policy, env.now));
    case OpRevokeSession(token, env) => TwinRevokeSession(a, b, later, token, env);
    case OpGcSessions(now) => PrunedMore(a.sessions, b.sessions, since, now);
    case OpInitialize =>
    case OpGcLeases(now) =>
  }

  lemma NeverDivides(a: State, b: State, op: Op)
    ensures !op.OpRevokeSession? && !op.OpRenew? ==> !Divides(a, b, op)
  {
  }

  // ---- Runs ----

  /** No operation of the run tells the vaults apart. */
  ghost predicate Harmless(c: Config, s: State, now: Time, ops: seq<Op>) {
    ops == [] ||
    (var init := ops[..|ops| - 1];
     && Harmless(c, s, now, init)
     && !Divides(KeepingRun(c, s, init), Run(c, GcSessions(s, now), init), ops[|ops| - 1]))
  }

  /** At every point of the run the two vaults hold the same leases. */
  ghost predicate AlwaysAlike(c: Config, s: State, now: Time, ops: seq<Op>) {
    && KeepingRun(c, s, ops).leases == Run(c, GcSessions(s, now), ops).leases
    && (ops != [] ==> AlwaysAlike(c, s, now, ops[..|ops| - 1]))
  }

  lemma {:induction false} TwinRun(c: Config, s: State, now: Time, ops: seq<Op>)
    requires Monotone(c, s, now, ops)
    ensures now <= LastTime(now, ops)
    ensures Harmless(c, s, now, ops) ==>
        Twins(KeepingRun(c, s, ops), Run(c, GcSessions(s, now), ops), LastTime(now, ops))
    ensures Harmless(c, s, now, ops) <==> AlwaysAlike(c, s, now, ops)
    decreases |ops|
  {
    if ops == [] {
      TwinStart(s, now);
    } else {
      hide Twins, Apply, Divides, GcSessions, OpTime;
      var init, op := ops[..|ops| - 1], ops[|ops| - 1];
      TwinRun(c, s, now, init);
      if Harmless(c, s, now, init) {
        var a, b := KeepingRun(c, s, init), Run(c, GcSessions(s, now), init);
        TwinStep(c, a, b, LastTime(now, init), op, LastTime(now, ops));
        TwinsHold(KeepingRun(c, s, ops), Run(c, GcSessions(s, now), ops), LastTime(now, ops));
      }
    }
  }

  lemma TwinStart(s: State, now: Time)
    ensures Twins(s, GcSessions(s, now), now)
  {
  }

  lemma TwinsHold(a: State, b: State, since: Time)
    ensures Twins(a, b, since) ==> a.leases == b.leases
  {
  }

  /**
   * Under a clock that never runs back, a vault that collects sessions at any points of a run holds
   * the same leases throughout as one that keeps them, exactly if no operation revokes a collected
   * session that has live leases or renews a lease against the limit of a collected session.
   */
  lemma LeasesAlikeIff(c: Config, s: State, now: Time, ops: seq<Op>)
    requires Monotone(c, s, now, ops)
    ensures AlwaysAlike(c, s, now, ops) <==> Harmless(c, s, now, ops)
  {
    TwinRun(c, s, now, ops);
  }

  /** After such a run every scoped request succeeds in both vaults or in neither, with the same grant. */
  lemma ScopedRequestsAlike(c: Config, s: State, now: Time, ops: seq<Op>, agent: AgentId, name: SecretName,
                            domain: DomainScope, token: Token, tool: string, id: LeaseId, env: Env)
    requires Monotone(c, s, now, ops) && Harmless(c, s, now, ops) && LastTime(now, ops) <= env.now
    ensures var r := RequestLeaseScoped(c, KeepingRun(c, s, ops), agent, name, domain, token, tool, id, env).1;
      var q := RequestLeaseScoped(c, Run(c, GcSessions(s, now), ops), agent, name, domain, token, tool, id, env).1;
      (r.Ok? <==> q.Ok?) && (r.Ok? ==> r == q)
  {
    hide Harmless, Monotone, KeepingRun, Run, RequestLeaseScoped, Twins;
    TwinRun(c, s, now, ops);
    var kept, collected := KeepingRun(c, s, ops), Run(c, GcSessions(s, now), ops);
    TwinScoped(c, kept, collected, LastTime(now, ops), agent, name, domain, token, tool, id, env);
  }
}
