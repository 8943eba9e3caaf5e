/**
 * What each vault operation does, told by the fields of leases, sessions and rows: exactly when it
 * succeeds, which error the first failing condition gives, what it changes, and that it changes
 * nothing else.
 */
module VaultMeaning {
  import opened Types
  import opened Counting
  import opened Identity
  import opened Policy
  import opened Leases
  import opened Sessions
  import opened Crypto
  import opened Store
  import opened VaultModel
  import Utf8

  /** Secrets and keys as before. */
  predicate KeepsSecrets(s: State, s': State) {
    s'.store == s.store && s'.dek == s.dek && s'.persisted == s.persisted
  }

  function Entries(ok: bool, e: AuditEntry): multiset<AuditEntry> {
    if ok then multiset{e} else multiset{}
  }

  // ---- Requests ----

  /** The unrevoked leases of an agent, which count against its cap. */
  function OfAgent(leases: map<LeaseId, Lease>, agent: AgentId): (ids: set<LeaseId>)
    ensures ids <= leases.Keys
  {
    set id | id in leases && leases[id].agent == agent && !leases[id].revoked
  }

  /** The unrevoked leases of a secret. */
  function OfSecret(leases: map<LeaseId, Lease>, name: SecretName): (ids: set<LeaseId>)
    ensures ids <= leases.Keys
  {
    set id | id in leases && leases[id].secretName == name && !leases[id].revoked
  }

  /** The unrevoked leases of a session. */
  function OfSession(leases: map<LeaseId, Lease>, sid: SessionId): (ids: set<LeaseId>)
    ensures ids <= leases.Keys
  {
    set id | id in leases && leases[id].sessionId == Some(sid) && !leases[id].revoked
  }

  /** The grants of the policy permit the request, by the first of them on these terms. */
  ghost predicate OnTerms(policy: PolicyConfig, agent: AgentId, name: SecretName, domain: DomainScope,
                          terms: LeaseTerms) {
    exists i: nat ::
      && Decides(policy, i, agent, name, domain)
      && terms == match policy.grants[i].leaseTerms case Some(own) => own case None => policy.defaultTerms
  }

  lemma TermsAre(policy: PolicyConfig, agent: AgentId, name: SecretName, domain: DomainScope)
    ensures var r := Evaluate(policy, agent, name, domain);
      && (forall t :: OnTerms(policy, agent, name, domain, t) <==> r == Ok(t))
      && (r.Err? ==> r.error == AccessDenied(agent, name, domain))
  {
    EvaluateMeaning(policy, agent, name, domain);
    hide Evaluate, Permits;
    var r := Evaluate(policy, agent, name, domain);
    if r.Ok? {
      var i: nat :| Decides(policy, i, agent, name, domain);
      assert OnTerms(policy, agent, name, domain, r.value);
    }
  }

  /**
   * A request is granted exactly if the policy permits it, the agent has fewer unrevoked leases than
   * the cap, the store answers and has the secret, and the grant is recorded.  Then exactly one lease
   * is new, on the policy's terms, and the answer describes it.
   */
  lemma RequestOutcome(c: Config, s: State, agent: AgentId, name: SecretName, domain: DomainScope, id: LeaseId,
                       env: Env)
    ensures var (s', r) := RequestLease(c, s, agent, name, domain, id, env);
      && KeepsSecrets(s, s') && s'.sessions == s.sessions
      && (r.Err? ==> s'.leases == s.leases)
      && ((forall t :: !OnTerms(c.policy, agent, name, domain, t)) ==>
            && r == Err(if env.auditOk then AccessDenied(agent, name, domain) else Storage)
            && s'.audit == s.audit + Entries(env.auditOk, AuditEntry(agent, AccessDenial(name, domain))))
      && (forall t | OnTerms(c.policy, agent, name, domain, t) ::
            && (|OfAgent(s.leases, agent)| >= c.maxLeasesPerAgent ==> r == Err(InvalidConfig))
            && (|OfAgent(s.leases, agent)| < c.maxLeasesPerAgent ==>
                  && (!env.storeOk ==> r == Err(Storage))
                  && (env.storeOk && name !in s.store ==> r == Err(SecretNotFound(name)))
                  && (env.storeOk && name in s.store && !env.auditOk ==> r == Err(Storage))
                  && (env.storeOk && name in s.store && env.auditOk ==>
                        GrantedOn(s, s', r, agent, name, domain, id, t, env.now)))
            && (r.Err? ==> s'.audit == s.audit))
  {
    TermsAre(c.policy, agent, name, domain);
    hide Evaluate, OnTerms;
    assert OfAgent(s.leases, agent) == Where(s.leases, ActiveFor(agent));
  }

  /** A lease with all its fields, the entry about it and the answer. */
  ghost predicate GrantedOn(s: State, s': State, r: Result<LeaseGrant>, agent: AgentId, name: SecretName,
                            domain: DomainScope, id: LeaseId, t: LeaseTerms, now: Time) {
    && r == Ok(LeaseGrant(id, name, [domain], now + t.ttl, t.renewable, t.maxUses))
    && s'.leases.Keys == s.leases.Keys + {id} && (forall i | i in s.leases && i != id :: s'.leases[i] == s.leases[i])
    && s'.leases[id] == Lease(id, agent, name, [domain], now, now + t.ttl, t.renewable, t.maxUses, 0, false, None, 0)
    && s'.audit == s.audit + multiset{AuditEntry(agent, LeaseGranted(id, name, [domain], NumSeconds(t.ttl)))}
  }

  /** What the agent is told about a lease. */
  lemma GrantDescribes(l: Lease)
    ensures var g := GrantOf(l);
      && g.leaseId == l.id && g.secretName == l.secretName && g.allowedDomains == l.allowedDomains
      && g.expiresAt == l.expiresAt && g.renewable == l.renewable
      && (g.remainingUses.None? <==> l.maxUses.None?)
      && (l.maxUses.Some? && l.useCount <= l.maxUses.value ==> g.remainingUses.value + l.useCount == l.maxUses.value)
      && (l.maxUses.Some? && l.useCount > l.maxUses.value ==> g.remainingUses == Some(0))
  {
  }

  /** The session lets the request through: live, the tool bound, and fewer leases counted than its limit. */
  ghost predicate LetsThrough(s: Session, tool: string, name: SecretName, domain: DomainScope, now: Time) {
    && !s.revoked && now <= s.expiresAt && Bound(s.policy, tool, name, domain)
    && s.activeLeaseCount < s.policy.maxConcurrentLeases
  }

  /** A binding of the tool lists the secret and a scope around the domain. */
  ghost predicate Bound(policy: SessionPolicy, tool: string, name: SecretName, domain: DomainScope) {
    exists b | b in policy.toolBindings ::
      b.toolName == tool && name in b.allowedSecrets && exists d | d in b.allowedDomains :: Matches(d, domain)
  }

  /** Why a session does not let a request through, the first reason first. */
  lemma SessionRefuses(s: State, c: Config, agent: AgentId, name: SecretName, domain: DomainScope, token: Token,
                       tool: string, id: LeaseId, env: Env)
    requires token !in s.sessions || !LetsThrough(s.sessions[token], tool, name, domain, env.now)
    ensures var (s', r) := RequestLeaseScoped(c, s, agent, name, domain, token, tool, id, env);
      && KeepsSecrets(s, s') && s'.leases == s.leases && s'.sessions == s.sessions
      && (token !in s.sessions ==> r == Err(SessionNotFound) && s'.audit == s.audit)
      && (token in s.sessions ==>
            var x := s.sessions[token];
            && (x.revoked ==> r == Err(SessionRevoked(x.id)) && s'.audit == s.audit)
            && (!x.revoked && env.now > x.expiresAt ==> r == Err(SessionExpired(x.id)) && s'.audit == s.audit)
            && (!x.revoked && env.now <= x.expiresAt ==>
                  if Bound(x.policy, tool, name, domain) then
                    r == Err(SessionLeaseLimitReached(x.id, x.policy.maxConcurrentLeases)) && s'.audit == s.audit
                  else
                    && r == Err(AccessDenied(tool, name, domain))
                    && s'.audit
                       == s.audit + Entries(env.auditOk, AuditEntry(agent, ToolBindingDenied(x.id, tool, name)))))
  {
    hide RequestLease;
    if token in s.sessions {
      ToolMeaning(s.sessions[token].policy, tool, name, domain);
      hide ToolAllowed;
    }
  }

  /**
   * A request that the session lets through is the plain request; if that is granted, the new lease
   * is linked to the session and the session counts one more.
   */
  lemma ScopedOutcome(c: Config, s: State, agent: AgentId, name: SecretName, domain: DomainScope, token: Token,
                      tool: string, id: LeaseId, env: Env)
    requires token in s.sessions && LetsThrough(s.sessions[token], tool, name, domain, env.now)
    ensures var (s1, q) := RequestLease(c, s, agent, name, domain, id, env);
      var (s', r) := RequestLeaseScoped(c, s, agent, name, domain, token, tool, id, env);
      && r == q && KeepsSecrets(s, s') && s'.audit == s1.audit
      && (r.Err? ==> s'.leases == s.leases && s'.sessions == s.sessions)
      && (r.Ok? ==>
            && s'.leases.Keys == s1.leases.Keys && id in s1.leases
            && (forall i | i in s1.leases && i != id :: s'.leases[i] == s1.leases[i])
            && s'.leases[id] == s1.leases[id].(sessionId := Some(s.sessions[token].id))
            && s'.sessions.Keys == s.sessions.Keys
            && (forall t | t in s.sessions && t != token :: s'.sessions[t] == s.sessions[t])
            && s'.sessions[token]
               == s.sessions[token].(activeLeaseCount := s.sessions[token].activeLeaseCount + 1))
  {
    ToolMeaning(s.sessions[token].policy, tool, name, domain);
    assert SessionCheck(s.sessions, token, tool, name, domain, env.now) == Ok(s.sessions[token].id) by {
      hide ToolAllowed, RequestLease;
    }
    RequestFrame(c, s, agent, name, domain, id, env);
    hide SessionCheck, RequestLease, ToolAllowed, LetsThrough;
  }

  lemma RequestFrame(c: Config, s: State, agent: AgentId, name: SecretName, domain: DomainScope, id: LeaseId, env: Env)
    ensures var (s', r) := RequestLease(c, s, agent, name, domain, id, env);
      && KeepsSecrets(s, s') && s'.sessions == s.sessions
      && (r.Err? ==> s'.leases == s.leases) && (r.Ok? ==> id in s'.leases)
  {
    hide Evaluate, ActiveCount;
  }

  // ---- Accesses ----

  /** The lease may be used for the target. */
  ghost predicate Usable(l: Lease, target: string, now: Time) {
    && !l.revoked && now <= l.expiresAt && (l.maxUses.None? || l.useCount < l.maxUses.value)
    && exists d | d in l.allowedDomains :: Matches(d, target)
  }

  lemma DomainsMatch(ds: seq<DomainScope>, host: string)
    ensures AnyMatches(ds, host) <==> exists d | d in ds :: Matches(d, host)
  {
    hide Matches;
    if d :| d in ds && Matches(d, host) {
      var i :| 0 <= i < |ds| && ds[i] == d;
      assert Matches(ds[i], host);
    }
  }

  /** A lease that may not be used: nothing changes, and the first failing condition gives the error. */
  lemma AccessRefused(c: Config, s: State, id: LeaseId, target: string, env: Env)
    requires id !in s.leases || !Usable(s.leases[id], target, env.now)
    ensures var (s', r) := AccessSecret(c, s, id, target, env);
      && s' == s
      && (id !in s.leases ==> r == Err(LeaseNotFound(id)))
      && (id in s.leases ==>
            var l := s.leases[id]; var over := l.maxUses.Some? && l.useCount >= l.maxUses.value;
            && (l.revoked ==> r == Err(LeaseRevoked(l.id)))
            && (!l.revoked && (env.now > l.expiresAt || over) ==> r == Err(LeaseExpired(l.id)))
            && (!l.revoked && env.now <= l.expiresAt && !over ==>
                  r == Err(AccessDenied(l.agent, l.secretName, target))))
  {
    if id in s.leases {
      DomainsMatch(s.leases[id].allowedDomains, target);
      hide AnyMatches;
    }
  }

  /** A lease that may be used counts the use, whatever comes after; then the first thing that fails gives the error. */
  lemma AccessOutcome(c: Config, s: State, id: LeaseId, target: string, env: Env)
    requires id in s.leases && Usable(s.leases[id], target, env.now)
    ensures var (s', r) := AccessSecret(c, s, id, target, env); var l := s.leases[id];
      && KeepsSecrets(s, s') && s'.sessions == s.sessions && s'.leases.Keys == s.leases.Keys
      && (forall i | i in s.leases && i != id :: s'.leases[i] == s.leases[i])
      && s'.leases[id] == l.(useCount := l.useCount + 1)
      && s'.audit == s.audit + Entries(r.Ok?, AuditEntry(l.agent, SecretAccessed(id, l.secretName, target)))
      && (!env.storeOk ==> r == Err(Storage))
      && (env.storeOk && l.secretName !in s.store ==> r == Err(SecretNotFound(l.secretName)))
      && (env.storeOk && l.secretName in s.store && s.dek.None? ==> r == Err(KeySourceUnavailable))
      && (env.storeOk && l.secretName in s.store && s.dek.Some? ==>
            match Decrypt(c.cipher, s.store[l.secretName].sealed, s.dek.value)
            case Err(_) => r == Err(DecryptionFailed)
            case Ok(p) =>
              && (!Utf8.Valid(p) ==> r == Err(DecryptionFailed))
              && (Utf8.Valid(p) ==> r == if env.auditOk then Ok(Guard(id, p)) else Err(Storage)))
  {
    UseOutcome(s.leases, id, target, env.now);
    hide UseLease, Usable, Utf8.Valid;
    if s.dek.Some? && s.leases[id].secretName in s.store {
      DecryptIff(c.cipher, s.store[s.leases[id].secretName].sealed, s.dek.value, []);
      hide Decrypt;
    }
  }

  lemma UseOutcome(leases: map<LeaseId, Lease>, id: LeaseId, target: string, now: Time)
    requires id in leases && Usable(leases[id], target, now)
    ensures UseLease(leases, id, target, now) == Ok(leases[id].(useCount := leases[id].useCount + 1))
  {
    DomainsMatch(leases[id].allowedDomains, target);
    hide AnyMatches;
  }

  // ---- Renewals ----

  /** Some held session with the lease's session id has its limit of renewals reached. */
  ghost predicate AtLimit(s: State, l: Lease) {
    exists t | t in s.sessions ::
      l.sessionId == Some(s.sessions[t].id) && l.renewalCount >= s.sessions[t].policy.maxRenewalsPerLease
  }

  /**
   * A renewal takes effect exactly if the lease is held, not past its expiry, the extension between
   * a second and a day, no session limit reached, and the lease unrevoked and renewable.  The expiry
   * then is the extension from now, be that later than before or earlier.
   */
  lemma RenewOutcome(s: State, id: LeaseId, ext: int, env: Env)
    ensures var (s', r) := RenewLease(s, id, ext, env);
      && KeepsSecrets(s, s') && s'.sessions == s.sessions && s'.leases.Keys == s.leases.Keys
      && (forall i | i in s.leases && i != id :: s'.leases[i] == s.leases[i])
      && (id !in s.leases ==> r == Err(LeaseNotFound(id)) && s'.audit == s.audit)
      && (id in s.leases ==>
            var l := s.leases[id];
            if env.now <= l.expiresAt && 1 <= ext <= 86_400 && !AtLimit(s, l) && !l.revoked && l.renewable then
              && s'.leases[id] == l.(expiresAt := env.now + ext * 1_000_000_000, renewalCount := l.renewalCount + 1)
              && r == (if env.auditOk then Ok(GrantOf(s'.leases[id])) else Err(Storage))
              && s'.audit == s.audit + Entries(env.auditOk, AuditEntry(l.agent, LeaseRenewed(id, ext)))
            else
              && s' == s
              && (env.now > l.expiresAt ==> r == Err(LeaseExpired(id)))
              && (env.now <= l.expiresAt && !(1 <= ext <= 86_400) ==> r == Err(InvalidConfig))
              && (env.now <= l.expiresAt && 1 <= ext <= 86_400 && AtLimit(s, l) ==>
                    exists t | t in s.sessions ::
                      && l.sessionId == Some(s.sessions[t].id)
                      && r == Err(RenewalLimitReached(id, s.sessions[t].policy.maxRenewalsPerLease)))
              && (env.now <= l.expiresAt && 1 <= ext <= 86_400 && !AtLimit(s, l) ==>
                    r == Err(if l.revoked then LeaseRevoked(l.id) else InvalidConfig)))
  {
    if id in s.leases {
      var l := s.leases[id];
      if l.sessionId.Some? {
        LimitIsCap(s, l);
        hide RenewalCapped, RenewalLimit;
      }
    }
  }

  lemma LimitIsCap(s: State, l: Lease)
    requires l.sessionId.Some?
    ensures AtLimit(s, l) <==> RenewalCapped(s.sessions, l.sessionId.value, l.renewalCount)
    ensures AtLimit(s, l) ==>
      exists t | t in s.sessions ::
        && l.sessionId == Some(s.sessions[t].id)
        && RenewalLimit(s.sessions, l.sessionId.value, l.renewalCount) == s.sessions[t].policy.maxRenewalsPerLease
  {
  }

  // ---- Revocations ----

  /** The same leases are held; those in `hit` are revoked now and otherwise as they were, the others as they were. */
  ghost predicate OnlyRevokes(before: map<LeaseId, Lease>, after: map<LeaseId, Lease>, hit: set<LeaseId>) {
    && after.Keys == before.Keys
    && (forall id | id in before && id in hit :: after[id] == before[id].(revoked := true))
    && (forall id | id in before && id !in hit :: after[id] == before[id])
  }

  /** One entry for each lease in `ids`, under its agent. */
  function RevocationLog(leases: map<LeaseId, Lease>, ids: set<LeaseId>, reason: RevocationReason): multiset<AuditEntry>
    requires ids <= leases.Keys
  {
    multiset(set id | id in ids :: AuditEntry(leases[id].agent, LeaseRevocation(id, reason)))
  }

  lemma RevokeOutcome(s: State, id: LeaseId, reason: RevocationReason, env: Env)
    ensures var (s', r) := RevokeLease(s, id, reason, env);
      && KeepsSecrets(s, s') && s'.sessions == s.sessions && OnlyRevokes(s.leases, s'.leases, {id})
      && (id !in s.leases ==> r == Err(LeaseNotFound(id)) && s'.audit == s.audit)
      && (id in s.leases ==>
            && r == (if env.auditOk then Ok(()) else Err(Storage))
            && s'.audit == s.audit + Entries(env.auditOk, AuditEntry(s.leases[id].agent, LeaseRevocation(id, reason))))
  {
  }

  /** The unrevoked leases of the agent are revoked, counted and logged, and no other. */
  lemma RevokeAllOutcome(s: State, agent: AgentId, env: Env)
    ensures var hit := OfAgent(s.leases, agent); var (s', r) := RevokeAllForAgent(s, agent, env);
      && KeepsSecrets(s, s') && s'.sessions == s.sessions && OnlyRevokes(s.leases, s'.leases, hit)
      && r == Ok(|hit|)
      && s'.audit == s.audit + RevocationLog(s.leases, hit - env.lost, AdminRevoked)
  {
    var hit := OfAgent(s.leases, agent);
    assert Flipped(s.leases, ByAgent(agent)) == hit;
    BulkOutcome(s, ByAgent(agent), env.lost, hit);
    hide BulkRevoke, RevocationLog, OnlyRevokes;
  }

  /** What a bulk revocation leaves, given which leases it flips. */
  lemma BulkOutcome(s: State, sel: Selector, lost: set<LeaseId>, hit: set<LeaseId>)
    requires Flipped(s.leases, sel) == hit
    ensures hit <= s.leases.Keys
    ensures var s' := BulkRevoke(s, sel, lost);
      && KeepsSecrets(s, s') && s'.sessions == s.sessions && OnlyRevokes(s.leases, s'.leases, hit)
      && s'.audit == s.audit + RevocationLog(s.leases, hit - lost, sel.Reason())
  {
    LogsAgree(s.leases, hit - lost, sel.Reason());
    hide RevocationEntries, RevocationLog;
    forall id | id in s.leases ensures id in hit <==> sel.Selects(s.leases[id]) && !s.leases[id].revoked {
    }
  }

  lemma LogsAgree(leases: map<LeaseId, Lease>, ids: set<LeaseId>, reason: RevocationReason)
    requires ids <= leases.Keys
    ensures RevocationEntries(leases, ids, reason) == RevocationLog(leases, ids, reason)
  {
  }

  /**
   * The unrevoked leases of the secret are revoked and logged, and no other, even if the deletion
   * fails after that.  The row goes exactly if the store answers, and no other row does.
   */
  lemma DeleteOutcome(s: State, name: SecretName, env: Env)
    ensures var hit := OfSecret(s.leases, name); var (s', r) := DeleteSecret(s, name, env);
      && s'.dek == s.dek && s'.persisted == s.persisted && s'.sessions == s.sessions
      && OnlyRevokes(s.leases, s'.leases, hit)
      && (name in s'.store <==> name in s.store && !env.storeOk)
      && (forall n | n != name :: n in s'.store <==> n in s.store)
      && (forall n | n in s'.store :: s'.store[n] == s.store[n])
      && (!env.storeOk ==> r == Err(Storage))
      && (env.storeOk && name !in s.store ==> r == Err(SecretNotFound(name)))
      && (env.storeOk && name in s.store ==> r == if env.auditOk then Ok(()) else Err(Storage))
      && s'.audit == s.audit + RevocationLog(s.leases, hit - env.lost, SecretDeletion)
                     + Entries(r.Ok?, AuditEntry("admin", SecretDeleted(name)))
  {
    var hit := OfSecret(s.leases, name);
    assert Flipped(s.leases, BySecret(name)) == hit;
    BulkOutcome(s, BySecret(name), env.lost, hit);
    hide BulkRevoke, RevocationLog, OnlyRevokes;
  }

  /** The session is revoked, and with it its unrevoked leases, and no other; the entry counts them. */
  lemma RevokeSessionOutcome(s: State, token: Token, env: Env)
    ensures var (s', r) := RevokeSession(s, token, env);
      && (token !in s.sessions ==> s' == s && r == Err(SessionNotFound))
      && (token in s.sessions ==>
            var sid := s.sessions[token].id; var hit := OfSession(s.leases, sid);
            && KeepsSecrets(s, s') && OnlyRevokes(s.leases, s'.leases, hit)
            && s'.sessions.Keys == s.sessions.Keys
            && (forall t | t in s.sessions && t != token :: s'.sessions[t] == s.sessions[t])
            && s'.sessions[token] == s.sessions[token].(revoked := true)
            && r == (if env.auditOk then Ok(()) else Err(Storage))
            && s'.audit == s.audit + RevocationLog(s.leases, hit - env.lost, SessionRevocation)
                           + Entries(env.auditOk, AuditEntry("session", SessionRevocationDone(sid, |hit|))))
  {
    if token in s.sessions {
      var sid := s.sessions[token].id;
      var hit := OfSession(s.leases, sid);
      assert Flipped(s.leases, BySession(sid)) == hit;
      var s1 := s.(sessions := s.sessions[token := RevokeSessionRecord(s.sessions[token])]);
      BulkOutcome(s1, BySession(sid), env.lost, hit);
      hide BulkRevoke, RevocationLog, OnlyRevokes, Flipped;
    }
  }

  // ---- Secrets ----

  /**
   * A secret is stored exactly if the vault is opened, the plaintext is sealed, the store answers and
   * the name is free, and stays stored if the log fails.  The new row is version 1 of what was given,
   * and opens to the plaintext.
   */
  lemma StoreOutcome(c: Config, s: State, name: SecretName, plaintext: Bytes, kind: SecretKind,
                     description: Option<string>, sid: SecretId, nonce: Bytes, env: Env)
    ensures var (s', r) := StoreSecret(c, s, name, plaintext, kind, description, sid, nonce, env);
      && s'.leases == s.leases && s'.sessions == s.sessions && s'.dek == s.dek && s'.persisted == s.persisted
      && (s.dek.None? ==> r == Err(KeySourceUnavailable) && s' == s)
      && (s.dek.Some? ==>
            match Encrypt(c.cipher, plaintext, s.dek.value, nonce)
            case Err(e) => r == Err(e) && s' == s
            case Ok(sealed) =>
              && (!env.storeOk ==> r == Err(Storage) && s' == s)
              && (env.storeOk && name in s.store ==> r == Err(SecretAlreadyExists(name)) && s' == s)
              && (env.storeOk && name !in s.store ==>
                    && s'.store.Keys == s.store.Keys + {name} && (forall n | n in s.store :: s'.store[n] == s.store[n])
                    && s'.store[name] == StoredSecret(sid, sealed, kind, description, env.now, env.now, 1)
                    && r == (if env.auditOk then Ok(s'.store[name]) else Err(Storage))
                    && s'.audit == s.audit + Entries(env.auditOk, AuditEntry("admin", SecretStored(name)))
                    && (LawfulCipher(c.cipher) && |nonce| == NonceLength(c.cipher.defaultAlgorithm) ==>
                          Decrypt(c.cipher, s'.store[name].sealed, s.dek.value) == Ok(plaintext))))
  {
    hide LawfulCipher;
    if s.dek.Some? && LawfulCipher(c.cipher) && |nonce| == NonceLength(c.cipher.defaultAlgorithm)
       && Encrypt(c.cipher, plaintext, s.dek.value, nonce).Ok? {
      DecryptEncrypt(c.cipher, c.cipher.defaultAlgorithm, plaintext, s.dek.value, nonce);
    }
    hide Encrypt, Decrypt, NonceLength;
  }

  /** Every row is fetched, opens under the old key, and what it opens to is sealed under the new one. */
  ghost predicate ReSeals(c: Cipher, t: Table, oldKey: Key, op: Op)
    requires op.OpRotate?
  {
    forall n | n in t ::
      && n !in op.faults.unreadable && Decrypt(c, t[n].sealed, oldKey).Ok?
      && Encrypt(c, Decrypt(c, t[n].sealed, oldKey).value, op.newKey, op.nonces(n)).Ok?
  }

  lemma ReSealsAll(c: Cipher, t: Table, oldKey: Key, op: Op)
    requires op.OpRotate?
    ensures ReSeals(c, t, oldKey, op) <==>
        FetchesAll(t, op.faults) && CanReSealAll(c, t, oldKey, op.newKey, op.nonces)
  {
    hide Decrypt, Encrypt;
    forall n | n in t
      ensures ReSeal(c, t[n], oldKey, op.newKey, op.nonces(n), 0).Ok? <==>
        && Decrypt(c, t[n].sealed, oldKey).Ok?
        && Encrypt(c, Decrypt(c, t[n].sealed, oldKey).value, op.newKey, op.nonces(n)).Ok?
    {
    }
    hide ReSeal;
  }

  /** The row of `r` after a rotation. */
  ghost predicate ReSealed(c: Cipher, r: StoredSecret, r': StoredSecret, oldKey: Key, newKey: Key, nonce: Bytes,
                           now: Time)
    requires Decrypt(c, r.sealed, oldKey).Ok?
  {
    && Encrypt(c, Decrypt(c, r.sealed, oldKey).value, newKey, nonce) == Ok(r'.sealed)
    && r'.version == r.version + 1 && r'.updatedAt == now
    && r'.id == r.id && r'.kind == r.kind && r'.description == r.description && r'.createdAt == r.createdAt
  }

  /**
   * A rotation gets through its batch exactly if the key is loaded, the store answers, every row is
   * fetched, opens and is sealed again, and no statement of the batch fails.  The new key is then in
   * force exactly if the key source takes it, and the call succeeds exactly if also the log answers.
   */
  lemma RotationOutcome(c: Config, s: State, op: Op)
    requires op.OpRotate?
    ensures var (s', ok) := RotateDek(c, s, op.newKey, op.nonces, op.faults, op.env);
      var through := && s.dek.Some? && op.env.storeOk && ReSeals(c.cipher, s.store, s.dek.value, op)
                     && op.faults.batchFailsAt > |s.store|;
      && s'.leases == s.leases && s'.sessions == s.sessions && s'.store.Keys == s.store.Keys
      && (!through ==> s'.store == s.store)
      && (through ==>
            forall n | n in s.store ::
              ReSealed(c.cipher, s.store[n], s'.store[n], s.dek.value, op.newKey, op.nonces(n), op.env.now))
      && (if through && op.faults.keySourceOk then s'.dek == Some(op.newKey) && s'.persisted == op.newKey
          else s'.dek == s.dek && s'.persisted == s.persisted)
      && (ok <==> through && op.faults.keySourceOk && op.env.auditOk)
      && s'.audit == s.audit + Entries(ok, AuditEntry("admin", DekRotated))
  {
    if s.dek.Some? {
      ReSealsAll(c.cipher, s.store, s.dek.value, op);
      hide ReSeals, FetchesAll;
      if CanReSealAll(c.cipher, s.store, s.dek.value, op.newKey, op.nonces) {
        RowsReSealed(c.cipher, s.store, s.dek.value, op);
      }
    }
    hide CanReSealAll, ReSealAll, ReSealed, ReSeals;
  }

  lemma RowsReSealed(c: Cipher, t: Table, oldKey: Key, op: Op)
    requires op.OpRotate? && CanReSealAll(c, t, oldKey, op.newKey, op.nonces)
    ensures var t' := ReSealAll(c, t, oldKey, op.newKey, op.nonces, op.env.now);
      && t'.Keys == t.Keys
      && forall n | n in t ::
           && Decrypt(c, t[n].sealed, oldKey).Ok?
           && ReSealed(c, t[n], t'[n], oldKey, op.newKey, op.nonces(n), op.env.now)
  {
    hide Decrypt, Encrypt;
    forall n | n in t ensures ReSeal(c, t[n], oldKey, op.newKey, op.nonces(n), 0).Ok? {
    }
  }

  // ---- Sessions ----

  /** The new session is as asked for, live until its duration is over, and counts no leases. */
  lemma CreateOutcome(s: State, user: string, channel: string, policy: SessionPolicy, token: Token, sid: SessionId,
                      env: Env)
    ensures var (s', r) := CreateSession(s, user, channel, policy, token, sid, env);
      && KeepsSecrets(s, s') && s'.leases == s.leases
      && s'.sessions.Keys == s.sessions.Keys + {token}
      && (forall t | t in s.sessions && t != token :: s'.sessions[t] == s.sessions[t])
      && s'.sessions[token]
         == Session(sid, user, channel, env.now, env.now + policy.maxDuration, policy, 0, false)
      && r == (if env.auditOk then Ok((token, sid)) else Err(Storage))
      && var created := SessionCreated(sid, user, channel, NumSeconds(policy.maxDuration));
         s'.audit == s.audit + Entries(env.auditOk, AuditEntry(user, created))
  {
    hide NumSeconds;
    assert env.now + policy.maxDuration - env.now == policy.maxDuration;
  }

  /** Collection drops exactly the leases revoked or with less than a second left, and the sessions revoked or over. */
  lemma CollectOutcome(s: State, now: Time)
    ensures var s' := GcLeases(s, now);
      && KeepsSecrets(s, s') && s'.sessions == s.sessions && s'.audit == s.audit
      && (forall id :: id in s'.leases <==>
            id in s.leases && !s.leases[id].revoked && s.leases[id].expiresAt - now >= 1_000_000_000)
      && (forall id | id in s'.leases :: s'.leases[id] == s.leases[id])
    ensures var s' := GcSessions(s, now);
      && KeepsSecrets(s, s') && s'.leases == s.leases && s'.audit == s.audit
      && (forall t :: t in s'.sessions <==>
            t in s.sessions && !s.sessions[t].revoked && now <= s.sessions[t].expiresAt)
      && (forall t | t in s'.sessions :: s'.sessions[t] == s.sessions[t])
  {
  }
}
