/**
 * Garbage collection as a refinement.
 *
 * A vault that collects leases is run side by side with one that is given the same operations
 * but never collects.  Whatever succeeds on a lease in the first succeeds identically in the
 * second.  The same is done for sessions.
 */
module Gc {
  import opened Types
  import opened Identity
  import opened Policy
  import opened Leases
  import opened Sessions
  import opened Crypto
  import opened Store
  import opened VaultModel

  // ---- Leases ----

  /** The collector drops a lease exactly when it is revoked or has less than one second left. */
  lemma GcDropsExactly(s: State, now: Time, id: LeaseId)
    requires id in s.leases
    ensures id !in GcLeases(s, now).leases <==>
      s.leases[id].revoked || s.leases[id].expiresAt - now < NANOS_PER_SECOND
    ensures id in GcLeases(s, now).leases ==> GcLeases(s, now).leases[id] == s.leases[id]
  {
  }

  /** Equal but for the counter of granted leases. */
  predicate SameSession(a: Session, b: Session) {
    a.(activeLeaseCount := 0) == b.(activeLeaseCount := 0)
  }

  predicate SameSessions(a: map<Token, Session>, b: map<Token, Session>) {
    a.Keys == b.Keys && forall t | t in a :: SameSession(a[t], b[t])
  }

  /** On the watched ids, `small` has no lease that `big` does not have identically. */
  predicate Covers(big: map<LeaseId, Lease>, small: map<LeaseId, Lease>, watched: set<LeaseId>) {
    forall id | id in watched && id in small :: id in big && big[id] == small[id]
  }

  predicate LeaseSim(plain: State, collected: State, watched: set<LeaseId>) {
    && plain.store == collected.store && plain.dek == collected.dek && plain.persisted == collected.persisted
    && SameSessions(plain.sessions, collected.sessions)
    && Covers(plain.leases, collected.leases, watched)
  }

  /** The same operation, except that the plain vault does not collect leases. */
  ghost function PlainApply(c: Config, s: State, op: Op): State {
    if op.OpGcLeases? then s else Apply(c, s, op)
  }

  ghost function PlainRun(c: Config, s: State, ops: seq<Op>): State {
    if ops == [] then s else PlainApply(c, PlainRun(c, s, ops[..|ops| - 1]), ops[|ops| - 1])
  }

  /** No request reuses the id of a watched lease. */
  predicate Spares(op: Op, watched: set<LeaseId>) {
    op.OpRequest? || op.OpRequestScoped? ==> op.id !in watched
  }

  /** Both maps change at one id only, and there compatibly. */
  lemma CoversAt(big: map<LeaseId, Lease>, small: map<LeaseId, Lease>, big': map<LeaseId, Lease>, small': map<LeaseId,
                 Lease>,
                 watched: set<LeaseId>, id: LeaseId)
    requires Covers(big, small, watched)
    requires big' - {id} == big - {id} && small' - {id} == small - {id}
    requires id in watched && id in small' ==> id in big' && big'[id] == small'[id]
    ensures Covers(big', small', watched)
  {
    forall w | w in watched && w in small' ensures w in big' && big'[w] == small'[w] {
      if w != id {
        assert w in small' - {id} && (small' - {id})[w] == small'[w];
        assert w in small && small[w] == (small - {id})[w];
        assert w in big - {id} && (big - {id})[w] == big[w];
      }
    }
  }

  /** What the access does to the lease map and what it answers depend on one lease, the store and the key. */
  lemma AccessEffect(c: Config, s: State, id: LeaseId, target: string, env: Env)
    ensures var s' := AccessSecret(c, s, id, target, env).0;
      && s'.store == s.store && s'.dek == s.dek && s'.persisted == s.persisted && s'.sessions == s.sessions
      && s'.leases == if UseLease(s.leases, id, target, env.now).Ok?
                      then s.leases[id := UseLease(s.leases, id, target, env.now).value] else s.leases
  {
    hide OpenSecret, UseLease;
  }

  lemma PutThenDrop<K, V>(m: map<K, V>, k: K, v: V)
    ensures m[k := v] - {k} == m - {k}
  {
  }

  lemma SimAccess(c: Config, a: State, b: State, watched: set<LeaseId>, id: LeaseId, target: string, env: Env)
    requires LeaseSim(a, b, watched)
    ensures LeaseSim(AccessSecret(c, a, id, target, env).0, AccessSecret(c, b, id, target, env).0, watched)
    ensures id in watched && AccessSecret(c, b, id, target, env).1.Ok? ==>
      AccessSecret(c, a, id, target, env).1 == AccessSecret(c, b, id, target, env).1
  {
    var ua, ub := UseLease(a.leases, id, target, env.now), UseLease(b.leases, id, target, env.now);
    SimUseFails(a.leases, b.leases, watched, id, target, env.now);
    hide OpenSecret, UseLease, SameSessions, Covers;
    AccessEffect(c, a, id, target, env);
    AccessEffect(c, b, id, target, env);
    if ua.Ok? {
      PutThenDrop(a.leases, id, ua.value);
    }
    if ub.Ok? {
      PutThenDrop(b.leases, id, ub.value);
    }
    assert LeaseSim(AccessSecret(c, a, id, target, env).0, AccessSecret(c, b, id, target, env).0, watched) by {
      hide AccessSecret;
      var a', b' := AccessSecret(c, a, id, target, env).0, AccessSecret(c, b, id, target, env).0;
      CoversAt(a.leases, b.leases, a'.leases, b'.leases, watched, id);
    }
  }

  /** A watched lease that both vaults hold is used in both or in neither. */
  lemma SimUseFails(a: map<LeaseId, Lease>, b: map<LeaseId, Lease>, watched: set<LeaseId>, id: LeaseId,
                    target: string, now: Time)
    requires Covers(a, b, watched)
    ensures id in watched && id in b ==>
        id in a && a[id] == b[id] && UseLease(a, id, target, now) == UseLease(b, id, target, now)
    ensures UseLease(b, id, target, now).Ok? ==> id in b
  {
    hide Refusal;
  }

  lemma SimCapped(a: map<Token, Session>, b: map<Token, Session>, sid: SessionId, n: nat)
    requires SameSessions(a, b)
    ensures RenewalCapped(a, sid, n) <==> RenewalCapped(b, sid, n)
  {
    if RenewalCapped(a, sid, n) {
      var t :| t in a && a[t].id == sid && n >= a[t].policy.maxRenewalsPerLease;
      assert SameSession(a[t], b[t]);
    }
    if RenewalCapped(b, sid, n) {
      var t :| t in b && b[t].id == sid && n >= b[t].policy.maxRenewalsPerLease;
      assert SameSession(a[t], b[t]);
    }
  }

  /** A renewal changes at most the renewed lease. */
  lemma RenewEffect(s: State, id: LeaseId, ext: int, env: Env)
    ensures var (s', r), l := RenewLease(s, id, ext, env), RenewedLease(s, id, ext, env.now);
      && s'.store == s.store && s'.dek == s.dek && s'.persisted == s.persisted && s'.sessions == s.sessions
      && s'.leases == (if l.Ok? then s.leases[id := l.value] else s.leases)
      && r == (if l.Ok? then (if env.auditOk then Ok(GrantOf(l.value)) else Err(Storage)) else Err(l.error))
  {
    hide RenewedLease;
  }

  /** A watched lease that both vaults hold is renewed in both, to the same lease, or in neither. */
  lemma SimRenewed(a: State, b: State, watched: set<LeaseId>, id: LeaseId, ext: int, now: Time)
    requires SameSessions(a.sessions, b.sessions) && Covers(a.leases, b.leases, watched)
    ensures var la, lb := RenewedLease(a, id, ext, now), RenewedLease(b, id, ext, now);
      && (lb.Ok? ==> id in b.leases)
      && (id in watched && id in b.leases ==>
            id in a.leases && a.leases[id] == b.leases[id] && (la.Ok? <==> lb.Ok?) && (la.Ok? ==> la == lb))
  {
    if id in a.leases && a.leases[id].sessionId.Some? {
      SimCapped(a.sessions, b.sessions, a.leases[id].sessionId.value, a.leases[id].renewalCount);
    }
    hide RenewalCapped, SameSessions, RenewalLimit;
  }

  lemma SimRenew(a: State, b: State, watched: set<LeaseId>, id: LeaseId, ext: int, env: Env)
    requires LeaseSim(a, b, watched)
    ensures LeaseSim(RenewLease(a, id, ext, env).0, RenewLease(b, id, ext, env).0, watched)
    ensures id in watched && RenewLease(b, id, ext, env).1.Ok? ==>
        RenewLease(a, id, ext, env).1 == RenewLease(b, id, ext, env).1
  {
    hide RenewLease, RenewedLease, SameSessions, Covers;
    var la, lb := RenewedLease(a, id, ext, env.now), RenewedLease(b, id, ext, env.now);
    SimRenewed(a, b, watched, id, ext, env.now);
    RenewEffect(a, id, ext, env);
    RenewEffect(b, id, ext, env);
    if la.Ok? {
      PutThenDrop(a.leases, id, la.value);
    }
    if lb.Ok? {
      PutThenDrop(b.leases, id, lb.value);
    }
    var a', b' := RenewLease(a, id, ext, env).0, RenewLease(b, id, ext, env).0;
    CoversAt(a.leases, b.leases, a'.leases, b'.leases, watched, id);
  }

  lemma SimRevoke(a: State, b: State, watched: set<LeaseId>, id: LeaseId, reason: RevocationReason, env: Env)
    requires LeaseSim(a, b, watched)
    ensures LeaseSim(RevokeLease(a, id, reason, env).0, RevokeLease(b, id, reason, env).0, watched)
  {
    hide SameSessions;
  }

  lemma SimBulk(a: State, b: State, watched: set<LeaseId>, sel: Selector, lost: set<LeaseId>)
    requires LeaseSim(a, b, watched)
    ensures LeaseSim(BulkRevoke(a, sel, lost), BulkRevoke(b, sel, lost), watched)
  {
    hide SameSessions, RevocationEntries;
  }

  /** A request touches, of what the relation sees, at most the counter of a session. */
  lemma RequestEffect(c: Config, s: State, agent: AgentId, name: SecretName, domain: DomainScope, id: LeaseId, env: Env)
    ensures var s' := RequestLease(c, s, agent, name, domain, id, env).0;
      && s'.store == s.store && s'.dek == s.dek && s'.persisted == s.persisted && s'.sessions == s.sessions
      && s'.leases - {id} == s.leases - {id}
  {
    hide FirstMatch, ActiveCount;
    var s' := RequestLease(c, s, agent, name, domain, id, env).0;
    assert forall other | other != id :: other in s'.leases <==> other in s.leases;
  }

  lemma CountedEffect(s: State, token: Token)
    ensures SameSessions(s.sessions, Counted(s, token).sessions)
    ensures Counted(s, token) == s.(sessions := Counted(s, token).sessions)
  {
  }

  lemma LinkedEffect(s: State, id: LeaseId, sid: SessionId)
    ensures Linked(s, id, sid) == s.(leases := Linked(s, id, sid).leases)
    ensures Linked(s, id, sid).leases - {id} == s.leases - {id}
  {
  }

  lemma RequestScopedEffect(c: Config, s: State, agent: AgentId, name: SecretName, domain: DomainScope, token: Token,
                            tool: string, id: LeaseId, env: Env)
    ensures var s' := RequestLeaseScoped(c, s, agent, name, domain, token, tool, id, env).0;
      && s'.store == s.store && s'.dek == s.dek && s'.persisted == s.persisted
      && SameSessions(s.sessions, s'.sessions)
      && s'.leases - {id} == s.leases - {id}
  {
    hide RequestLease, SessionCheck, SameSessions, Linked, Counted;
    SameSessionsRefl(s.sessions);
    RequestEffect(c, s, agent, name, domain, id, env);
    match SessionCheck(s.sessions, token, tool, name, domain, env.now)
    case Err(_) =>
    case Ok(sid) =>
      var s1 := RequestLease(c, s, agent, name, domain, id, env).0;
      LinkedEffect(s1, id, sid);
      CountedEffect(Linked(s1, id, sid), token);
  }

  lemma SameSessionsTrans(a: map<Token, Session>, b: map<Token, Session>, a': map<Token, Session>, b': map<Token,
                          Session>)
    requires SameSessions(a, b) && SameSessions(a, a') && SameSessions(b, b')
    ensures SameSessions(a', b')
  {
    forall t | t in a' ensures SameSession(a'[t], b'[t]) {
      assert SameSession(a[t], b[t]) && SameSession(a[t], a'[t]) && SameSession(b[t], b'[t]);
    }
  }

  lemma SimRequest(c: Config, a: State, b: State, watched: set<LeaseId>, op: Op)
    requires LeaseSim(a, b, watched) && (op.OpRequest? || op.OpRequestScoped?) && op.id !in watched
    ensures LeaseSim(Apply(c, a, op), Apply(c, b, op), watched)
  {
    hide RequestLease, RequestLeaseScoped, SameSessions, Covers;
    if op.OpRequest? {
      RequestEffect(c, a, op.agent, op.name, op.domain, op.id, op.env);
      RequestEffect(c, b, op.agent, op.name, op.domain, op.id, op.env);
    } else {
      RequestScopedEffect(c, a, op.agent, op.name, op.domain, op.token, op.tool, op.id, op.env);
      RequestScopedEffect(c, b, op.agent, op.name, op.domain, op.token, op.tool, op.id, op.env);
      SameSessionsTrans(a.sessions, b.sessions, Apply(c, a, op).sessions, Apply(c, b, op).sessions);
    }
    CoversAt(a.leases, b.leases, Apply(c, a, op).leases, Apply(c, b, op).leases, watched, op.id);
  }

  lemma SimCreateSession(a: map<Token, Session>, b: map<Token, Session>, token: Token, session: Session)
    requires SameSessions(a, b)
    ensures SameSessions(a[token := session], b[token := session])
  {
    var a', b' := a[token := session], b[token := session];
    forall t | t in a' ensures SameSession(a'[t], b'[t]) {
      if t != token {
        assert SameSession(a[t], b[t]);
      }
    }
  }

  lemma SimGcSessions(a: State, b: State, now: Time)
    requires SameSessions(a.sessions, b.sessions)
    ensures SameSessions(GcSessions(a, now).sessions, GcSessions(b, now).sessions)
  {
    forall t | t in a.sessions ensures Active(a.sessions[t], now) <==> Active(b.sessions[t], now) {
      assert SameSession(a.sessions[t], b.sessions[t]);
    }
    forall t | t in GcSessions(a, now).sessions
      ensures SameSession(GcSessions(a, now).sessions[t], GcSessions(b, now).sessions[t])
    {
      assert SameSession(a.sessions[t], b.sessions[t]);
    }
  }

  /** Storing and rotating look only at the store and the key, and touch nothing else. */
  predicate SameKeys(a: State, b: State) {
    a.store == b.store && a.dek == b.dek && a.persisted == b.persisted
  }

  predicate SameMaps(a: State, b: State) {
    a.leases == b.leases && a.sessions == b.sessions
  }

  lemma SimStore(c: Config, a: State, b: State, name: SecretName, plaintext: Bytes, kind: SecretKind,
                 description: Option<string>, sid: SecretId, nonce: Bytes, env: Env)
    requires SameKeys(a, b)
    ensures var a', b' := StoreSecret(c, a, name, plaintext, kind, description, sid, nonce, env).0,
                          StoreSecret(c, b, name, plaintext, kind, description, sid, nonce, env).0;
      SameKeys(a', b') && SameMaps(a, a') && SameMaps(b, b')
  {
    hide Encrypt;
  }

  lemma SimRotate(c: Config, a: State, b: State, newKey: Key, nonces: SecretName -> Bytes, faults: RotateFaults,
                  env: Env)
    requires SameKeys(a, b)
    ensures var a', b' := RotateDek(c, a, newKey, nonces, faults, env).0,
                          RotateDek(c, b, newKey, nonces, faults, env).0;
      SameKeys(a', b') && SameMaps(a, a') && SameMaps(b, b')
  {
    hide CanReSealAll, ReSealAll;
  }

  lemma SimDelete(a: State, b: State, watched: set<LeaseId>, name: SecretName, env: Env)
    requires LeaseSim(a, b, watched)
    ensures LeaseSim(DeleteSecret(a, name, env).0, DeleteSecret(b, name, env).0, watched)
  {
    hide SameSessions, Covers, RevokeWhere, RevocationEntries;
    SimBulk(a, b, watched, BySecret(name), env.lost);
  }

  lemma SimGcLeases(a: State, b: State, watched: set<LeaseId>, now: Time)
    requires LeaseSim(a, b, watched)
    ensures LeaseSim(a, GcLeases(b, now), watched)
  {
    hide SameSessions, Kept;
  }

  lemma SimRevokeSession(a: State, b: State, watched: set<LeaseId>, token: Token, env: Env)
    requires LeaseSim(a, b, watched)
    ensures LeaseSim(RevokeSession(a, token, env).0, RevokeSession(b, token, env).0, watched)
  {
    hide Covers, RevokeWhere, RevocationEntries;
    if token in a.sessions {
      assert SameSession(a.sessions[token], b.sessions[token]);
      SimBulk(a, b, watched, BySession(a.sessions[token].id), env.lost);
    }
  }

  /** One step of both vaults keeps the relation. */
  lemma SimStep(c: Config, a: State, b: State, watched: set<LeaseId>, op: Op)
    requires LeaseSim(a, b, watched) && Spares(op, watched)
    ensures LeaseSim(PlainApply(c, a, op), Apply(c, b, op), watched)
  {
    hide AccessSecret, RenewLease, RevokeLease, RevokeSession, BulkRevoke, RequestLease, RequestLeaseScoped,
      DeleteSecret,
      GcLeases, GcSessions, StoreSecret, RotateDek, SameSessions, Covers;
    match op
    case OpAccess(id, target, env) => SimAccess(c, a, b, watched, id, target, env);
    case OpRenew(id, ext, env) => SimRenew(a, b, watched, id, ext, env);
    case OpRevoke(id, reason, env) => SimRevoke(a, b, watched, id, reason, env);
    case OpRevokeAll(agent, env) => SimBulk(a, b, watched, ByAgent(agent), env.lost);
    case OpDelete(name, env) => SimDelete(a, b, watched, name, env);
    case OpRequest(_, _, _, _, _) => SimRequest(c, a, b, watched, op);
    case OpRequestScoped(_, _, _, _, _, _, _) => SimRequest(c, a, b, watched, op);
    case OpCreateSession(user, channel, policy, token, sid, env) =>
      SimCreateSession(a.sessions, b.sessions, token, NewSession(sid, user, channel, policy, env.now));
    case OpGcSessions(now) =>
      SimGcSessions(a, b, now);
      GcSessionsEffect(a, now);
      GcSessionsEffect(b, now);
    case OpRevokeSession(token, env) => SimRevokeSession(a, b, watched, token, env);
    case OpGcLeases(now) => SimGcLeases(a, b, watched, now);
    case OpInitialize =>
    case OpStore(name, plaintext, kind, description, sid, nonce, env) =>
      SimStore(c, a, b, name, plaintext, kind, description, sid, nonce, env);
    case OpRotate(newKey, nonces, faults, env) => SimRotate(c, a, b, newKey, nonces, faults, env);
  }

  lemma GcSessionsEffect(s: State, now: Time)
    ensures var s' := GcSessions(s, now);
      s'.store == s.store && s'.dek == s.dek && s'.persisted == s.persisted && s'.leases == s.leases
  {
  }

  predicate IsRequest(op: Op) {
    op.OpRequest? || op.OpRequestScoped?
  }

  /** The ids of new leases are new. */
  predicate FreshRequests(s: State, ops: seq<Op>) {
    forall i | 0 <= i < |ops| && IsRequest(ops[i]) ::
      ops[i].id !in s.leases && forall j | 0 <= j < i && IsRequest(ops[j]) :: ops[j].id != ops[i].id
  }

  /** The leases held at the start, and those that the vault without collection granted since. */
  ghost function Granted(c: Config, s: State, ops: seq<Op>): set<LeaseId> {
    if ops == [] then s.leases.Keys
    else
      var init, op := ops[..|ops| - 1], ops[|ops| - 1];
      Granted(c, s, init) + (if IsRequest(op) && op.id in PlainRun(c, s, ops).leases then {op.id} else {})
  }

  function Asked(ops: seq<Op>): set<LeaseId> {
    set i | 0 <= i < |ops| && IsRequest(ops[i]) :: ops[i].id
  }

  lemma RequestAdds(c: Config, s: State, agent: AgentId, name: SecretName, domain: DomainScope, id: LeaseId, env: Env)
    ensures var (s', r) := RequestLease(c, s, agent, name, domain, id, env);
      && s'.sessions == s.sessions
      && (r.Err? ==> s'.leases == s.leases)
      && (r.Ok? ==>
            && Evaluate(c.policy, agent, name, domain).Ok?
            && var terms := Evaluate(c.policy, agent, name, domain).value;
               s'.leases == s.leases[id := NewLease(id, agent, name, [domain], terms, env.now)])
  {
    hide Evaluate, ActiveCount;
  }

  /** If both vaults grant a request they grant the same lease. */
  lemma SameGrant(c: Config, a: State, b: State, op: Op)
    requires IsRequest(op) && SameSessions(a.sessions, b.sessions) && op.id !in a.leases && op.id !in b.leases
    ensures var a', b' := Apply(c, a, op), Apply(c, b, op);
      op.id in a'.leases && op.id in b'.leases ==> a'.leases[op.id] == b'.leases[op.id]
  {
    hide RequestLease, SessionCheck, Evaluate;
    RequestAdds(c, a, op.agent, op.name, op.domain, op.id, op.env);
    RequestAdds(c, b, op.agent, op.name, op.domain, op.id, op.env);
    if op.OpRequestScoped? {
      CheckHeld(a.sessions, op.token, op.tool, op.name, op.domain, op.env.now);
      CheckHeld(b.sessions, op.token, op.tool, op.name, op.domain, op.env.now);
      assert op.token in a.sessions ==> SameSession(a.sessions[op.token], b.sessions[op.token]);
    }
  }

  lemma CheckHeld(m: map<Token, Session>, token: Token, tool: string, name: SecretName, domain: DomainScope, now: Time)
    ensures var r := SessionCheck(m, token, tool, name, domain, now);
      r.Ok? ==> token in m && r.value == m[token].id && Active(m[token], now)
  {
    hide ToolAllowed;
  }

  /** Leases come from requests only. */
  lemma KeysGrow(c: Config, s: State, op: Op)
    ensures Apply(c, s, op).leases.Keys <= s.leases.Keys + (if IsRequest(op) then {op.id} else {})
  {
    hide AccessSecret, RenewLease, StoreSecret, RotateDek, RequestLease, RequestLeaseScoped, SessionCheck, Kept,
      RevocationEntries, Flipped, Active;
    match op
    case OpAccess(id, target, env) =>
      AccessEffect(c, s, id, target, env);
      UseHeld(s.leases, id, target, env.now);
    case OpRenew(id, ext, env) =>
      RenewEffect(s, id, ext, env);
      RenewHeld(s, id, ext, env.now);
    case OpStore(name, plaintext, kind, description, sid, nonce, env) =>
      SimStore(c, s, s, name, plaintext, kind, description, sid, nonce, env);
    case OpRotate(newKey, nonces, faults, env) => SimRotate(c, s, s, newKey, nonces, faults, env);
    case OpRequest(agent, name, domain, id, env) =>
      RequestEffect(c, s, agent, name, domain, id, env);
      KeysBut(s.leases, Apply(c, s, op).leases, id);
    case OpRequestScoped(agent, name, domain, token, tool, id, env) =>
      RequestScopedEffect(c, s, agent, name, domain, token, tool, id, env);
      KeysBut(s.leases, Apply(c, s, op).leases, id);
    case _ =>
  }

  lemma KeysBut(m: map<LeaseId, Lease>, m': map<LeaseId, Lease>, id: LeaseId)
    requires m' - {id} == m - {id}
    ensures m'.Keys <= m.Keys + {id}
  {
    forall k | k in m' && k != id ensures k in m {
      assert k in m' - {id};
    }
  }

  lemma UseHeld(leases: map<LeaseId, Lease>, id: LeaseId, target: string, now: Time)
    ensures UseLease(leases, id, target, now).Ok? ==> id in leases
  {
  }

  lemma RenewHeld(s: State, id: LeaseId, ext: int, now: Time)
    ensures RenewedLease(s, id, ext, now).Ok? ==> id in s.leases
  {
  }

  /** What holds of the two vaults after a run: agreement on what the plain one granted, and nothing else in it. */
  ghost predicate RunSim(c: Config, s: State, b: State, ops: seq<Op>) {
    && LeaseSim(PlainRun(c, s, ops), Run(c, b, ops), Granted(c, s, ops))
    && PlainRun(c, s, ops).leases.Keys <= Granted(c, s, ops) <= s.leases.Keys + Asked(ops)
    && Run(c, b, ops).leases.Keys <= s.leases.Keys + Asked(ops)
  }

  lemma AskedMore(ops: seq<Op>)
    requires ops != []
    ensures var init, op := ops[..|ops| - 1], ops[|ops| - 1];
      Asked(ops) == Asked(init) + (if IsRequest(op) then {op.id} else {})
  {
    var init, op := ops[..|ops| - 1], ops[|ops| - 1];
    forall id | id in Asked(ops) ensures id in Asked(init) + (if IsRequest(op) then {op.id} else {}) {
      var i :| 0 <= i < |ops| && IsRequest(ops[i]) && ops[i].id == id;
      if i < |init| {
        assert init[i] == ops[i];
      }
    }
    forall id | id in Asked(init) ensures id in Asked(ops) {
      var i :| 0 <= i < |init| && IsRequest(init[i]) && init[i].id == id;
      assert ops[i] == init[i];
    }
    if IsRequest(op) {
      assert ops[|ops| - 1].id in Asked(ops);
    }
  }

  lemma FreshLast(s: State, ops: seq<Op>)
    requires FreshRequests(s, ops) && ops != [] && IsRequest(ops[|ops| - 1])
    ensures ops[|ops| - 1].id !in s.leases && ops[|ops| - 1].id !in Asked(ops[..|ops| - 1])
  {
  }

  lemma SimExtends(a: State, b: State, watched: set<LeaseId>, id: LeaseId)
    requires LeaseSim(a, b, watched) && (id in b.leases ==> id in a.leases && a.leases[id] == b.leases[id])
    ensures LeaseSim(a, b, watched + {id})
  {
  }

  lemma {:induction false} RunSimRun(c: Config, s: State, b: State, ops: seq<Op>)
    requires LeaseSim(s, b, s.leases.Keys) && b.leases.Keys <= s.leases.Keys && FreshRequests(s, ops)
    ensures RunSim(c, s, b, ops)
  {
    hide LeaseSim, Apply, Asked;
    if ops == [] {
      assert Asked([]) == {} by { NothingAsked(); }
    } else {
      var init, op := ops[..|ops| - 1], ops[|ops| - 1];
      assert FreshRequests(s, init);
      RunSimRun(c, s, b, init);
      AskedMore(ops);
      RunSimStep(c, s, b, ops);
    }
  }

  lemma NothingAsked()
    ensures Asked([]) == {}
  {
  }

  lemma RunSimStep(c: Config, s: State, b: State, ops: seq<Op>)
    requires ops != [] && FreshRequests(s, ops) && RunSim(c, s, b, ops[..|ops| - 1])
    requires var op := ops[|ops| - 1];
      Asked(ops) == Asked(ops[..|ops| - 1]) + (if IsRequest(op) then {op.id} else {})
    ensures RunSim(c, s, b, ops)
  {
    hide LeaseSim, Apply, Asked, FreshRequests;
    var init, op := ops[..|ops| - 1], ops[|ops| - 1];
    var x, y := PlainRun(c, s, init), Run(c, b, init);
    var w := Granted(c, s, init);
    if IsRequest(op) {
      FreshLast(s, ops);
    }
    SimStep(c, x, y, w, op);
    KeysGrow(c, x, op);
    KeysGrow(c, y, op);
    if IsRequest(op) && op.id in PlainRun(c, s, ops).leases {
      SameGrant(c, x, y, op) by { SessionsSim(x, y, w); }
      SimExtends(PlainRun(c, s, ops), Run(c, b, ops), w, op.id);
    } else {
      assert Granted(c, s, ops) == w + {} == w;
    }
    assert PlainRun(c, s, ops).leases.Keys <= Granted(c, s, ops);
  }

  lemma SessionsSim(a: State, b: State, watched: set<LeaseId>)
    requires LeaseSim(a, b, watched)
    ensures SameSessions(a.sessions, b.sessions)
  {
  }

  /**
   * Collecting now, and as often as one likes later, is invisible to whoever holds a lease: an
   * access or a renewal that succeeds at the end of any run succeeds with the same answer in the
   * run that never collects, exactly if that run granted the lease too.
   */
  lemma LeaseGcRefines(c: Config, s: State, now: Time, ops: seq<Op>, id: LeaseId, target: string, ext: int, env: Env)
    requires FreshRequests(s, ops)
    ensures var plain, collected := PlainRun(c, s, ops), Run(c, GcLeases(s, now), ops);
      && (AccessSecret(c, collected, id, target, env).1.Ok? ==>
            (AccessSecret(c, plain, id, target, env).1 == AccessSecret(c, collected, id, target, env).1
             <==> id in Granted(c, s, ops)))
      && (RenewLease(collected, id, ext, env).1.Ok? ==>
            (RenewLease(plain, id, ext, env).1 == RenewLease(collected, id, ext, env).1 <==> id in Granted(c, s, ops)))
  {
    var plain, collected, w := PlainRun(c, s, ops), Run(c, GcLeases(s, now), ops), Granted(c, s, ops);
    StartSim(s, now);
    RunSimRun(c, s, GcLeases(s, now), ops);
    SimAccess(c, plain, collected, w, id, target, env);
    SimRenew(plain, collected, w, id, ext, env);
    if id !in w {
      hide LeaseSim, Granted, PlainRun, Run;
      Unheld(c, plain, id, target, ext, env);
    }
  }

  lemma StartSim(s: State, now: Time)
    ensures LeaseSim(s, GcLeases(s, now), s.leases.Keys)
  {
  }

  lemma Unheld(c: Config, s: State, id: LeaseId, target: string, ext: int, env: Env)
    requires id !in s.leases
    ensures AccessSecret(c, s, id, target, env).1.Err? && RenewLease(s, id, ext, env).1.Err?
  {
  }

  // ---- Sessions ----

  function OpTime(op: Op): Option<Time> {
    match op
    case OpInitialize => None
    case OpGcLeases(now) => Some(now)
    case OpGcSessions(now) => Some(now)
    case _ => Some(op.env.now)
  }

  /** The held sessions agree, and whatever was collected is inactive from `since` on. */
  predicate SessionSim(plain: map<Token, Session>, collected: map<Token, Session>, since: Time) {
    && (forall t | t in collected :: t in plain && SameSession(plain[t], collected[t]))
    && (forall t | t in plain && t !in collected :: !Active(plain[t], since))
  }

  ghost function KeepingApply(c: Config, s: State, op: Op): State {
    if op.OpGcSessions? then s else Apply(c, s, op)
  }

  ghost function KeepingRun(c: Config, s: State, ops: seq<Op>): State {
    if ops == [] then s else KeepingApply(c, KeepingRun(c, s, ops[..|ops| - 1]), ops[|ops| - 1])
  }

  /** The clock never runs back and new sessions get unused tokens. */
  ghost predicate Monotone(c: Config, s: State, since: Time, ops: seq<Op>) {
    ops == [] ||
    var init, op := ops[..|ops| - 1], ops[|ops| - 1];
    && Monotone(c, s, since, init)
    && (OpTime(op).Some? ==> LastTime(since, init) <= OpTime(op).value)
    && (op.OpCreateSession? ==> op.token !in KeepingRun(c, s, init).sessions)
  }

  function LastTime(since: Time, ops: seq<Op>): Time {
    if ops == [] then since
    else match OpTime(ops[|ops| - 1])
      case Some(t) => t
      case None => LastTime(since, ops[..|ops| - 1])
  }

  /** What any operation does to the sessions, whatever the leases are. */
  ghost predicate SessionEffect(before: map<Token, Session>, op: Op, after: map<Token, Session>) {
    match op
    case OpCreateSession(user, channel, policy, token, sid, env) =>
      after == before[token := NewSession(sid, user, channel, policy, env.now)]
    case OpRevokeSession(token, _) =>
      after == if token in before then before[token := RevokeSessionRecord(before[token])] else before
    case OpGcSessions(now) => after == map t | t in before && Active(before[t], now) :: before[t]
    case _ => SameSessions(before, after)
  }

  lemma SameSessionsRefl(m: map<Token, Session>)
    ensures SameSessions(m, m)
  {
  }

  lemma LeaseOpsEffect(s: State, id: LeaseId, reason: RevocationReason, ext: int, sel: Selector, name: SecretName,
                       env: Env)
    ensures RevokeLease(s, id, reason, env).0.sessions == s.sessions
    ensures RenewLease(s, id, ext, env).0.sessions == s.sessions
    ensures BulkRevoke(s, sel, env.lost).sessions == s.sessions
    ensures DeleteSecret(s, name, env).0.sessions == s.sessions
    ensures GcLeases(s, env.now).sessions == s.sessions
  {
    hide RenewedLease, RevokeWhere, RevocationEntries;
  }

  lemma EveryOpSessionEffect(c: Config, s: State, op: Op)
    ensures SessionEffect(s.sessions, op, Apply(c, s, op).sessions)
  {
    hide RequestLease, RequestLeaseScoped, AccessSecret, RenewLease, RevokeLease, BulkRevoke, DeleteSecret,
      StoreSecret, RotateDek,
      GcLeases, SameSessions;
    SameSessionsRefl(s.sessions);
    match op
    case OpRequest(agent, name, domain, id, env) => RequestEffect(c, s, agent, name, domain, id, env);
    case OpRequestScoped(agent, name, domain, token, tool, id, env) =>
      RequestScopedEffect(c, s, agent, name, domain, token, tool, id, env);
    case OpAccess(id, target, env) => AccessEffect(c, s, id, target, env);
    case OpRevoke(id, reason, env) => LeaseOpsEffect(s, id, reason, 0, ByAgent(""), "", env);
    case OpRenew(id, ext, env) => LeaseOpsEffect(s, id, AdminRevoked, ext, ByAgent(""), "", env);
    case OpRevokeAll(agent, env) => LeaseOpsEffect(s, 0, AdminRevoked, 0, ByAgent(agent), "", env);
    case OpDelete(name, env) => LeaseOpsEffect(s, 0, AdminRevoked, 0, BySecret(name), name, env);
    case OpGcLeases(now) => LeaseOpsEffect(s, 0, AdminRevoked, 0, ByAgent(""), "", Env(now, true, true, {}));
    case OpStore(name, plaintext, kind, description, sid, nonce, env) =>
      SimStore(c, s, s, name, plaintext, kind, description, sid, nonce, env);
    case OpRotate(newKey, nonces, faults, env) => SimRotate(c, s, s, newKey, nonces, faults, env);
    case OpRevokeSession(token, env) =>
      if token in s.sessions {
        LeaseOpsEffect(s.(sessions := s.sessions[token := RevokeSessionRecord(s.sessions[token])]), 0, AdminRevoked, 0,
                       BySession(s.sessions[token].id), "", env);
      }
    case _ =>
  }

  lemma SessionSimStep(a: map<Token, Session>, b: map<Token, Session>, since: Time, op: Op, later: Time,
                       a': map<Token, Session>, b': map<Token, Session>)
    requires SessionSim(a, b, since) && since <= later && (OpTime(op).Some? ==> later == OpTime(op).value)
    requires op.OpCreateSession? ==> op.token !in a
    requires if op.OpGcSessions? then a' == a else SessionEffect(a, op, a')
    requires SessionEffect(b, op, b')
    ensures SessionSim(a', b', later)
  {
    forall t | t in b' ensures t in a' && SameSession(a'[t], b'[t]) {
    }
    forall t | t in a' && t !in b' ensures !Active(a'[t], later) {
    }
  }

  lemma {:induction false} SessionSimRun(c: Config, a: State, b: State, since: Time, ops: seq<Op>)
    requires SessionSim(a.sessions, b.sessions, since) && Monotone(c, a, since, ops)
    ensures SessionSim(KeepingRun(c, a, ops).sessions, Run(c, b, ops).sessions, LastTime(since, ops))
    ensures since <= LastTime(since, ops)
  {
    hide SessionSim, Apply, SessionEffect;
    if ops != [] {
      var init, op := ops[..|ops| - 1], ops[|ops| - 1];
      SessionSimRun(c, a, b, since, init);
      EveryOpSessionEffect(c, KeepingRun(c, a, init), op);
      EveryOpSessionEffect(c, Run(c, b, init), op);
      SessionSimStep(KeepingRun(c, a, init).sessions, Run(c, b, init).sessions, LastTime(since, init), op,
                     LastTime(since, ops), KeepingRun(c, a, ops).sessions, Run(c, b, ops).sessions);
    }
  }

  /**
   * Under a clock that never runs back, collecting sessions at any points of a run changes no
   * later verdict of `validate_session`.
   */
  lemma SessionGcRefines(c: Config, s: State, now: Time, ops: seq<Op>, token: Token, later: Time)
    requires Monotone(c, s, now, ops) && LastTime(now, ops) <= later
    ensures ValidateSession(KeepingRun(c, s, ops).sessions, token, later).Ok? <==>
            ValidateSession(Run(c, GcSessions(s, now), ops).sessions, token, later).Ok?
  {
    SessionSimRun(c, s, GcSessions(s, now), now, ops);
    var a, b := KeepingRun(c, s, ops), Run(c, GcSessions(s, now), ops);
    assert token in b.sessions ==> SameSession(a.sessions[token], b.sessions[token]);
  }
}
