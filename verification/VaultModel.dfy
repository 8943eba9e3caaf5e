/**
 * What each vault operation does to the vault, as a function of the state it is called in.
 *
 * Everything the operations take from outside is an argument: the clock, fresh identifiers and
 * nonces, and whether the database, the audit log and the key source answer.  Operations that
 * fail part of the way keep the effects they had up to there, as the code does.
 */
module VaultModel {
  import opened Types
  import opened Counting
  import opened Identity
  import opened Policy
  import opened Leases
  import opened Sessions
  import opened Crypto
  import opened Store
  import Utf8

  datatype RevocationReason =
    | Expiry | AdminRevoked | SecretDeletion | UseLimitReached | VaultShutdown | SessionRevocation

  datatype AuditEvent =
    | LeaseGranted(lease: LeaseId, secret: SecretName, domains: seq<DomainScope>, ttlSeconds: int)
    | SecretAccessed(lease: LeaseId, secret: SecretName, target: string)
    | LeaseRevocation(lease: LeaseId, reason: RevocationReason)
    | LeaseRenewed(lease: LeaseId, extensionSecs: int)
    | AccessDenial(secret: SecretName, domain: DomainScope)
    | SecretStored(secret: SecretName)
    | SecretDeleted(secret: SecretName)
    | DekRotated
    | SessionCreated(session: SessionId, user: string, channel: string, durationSecs: int)
    | SessionRevocationDone(session: SessionId, leasesRevoked: nat)
    | ToolBindingDenied(session: SessionId, tool: string, secret: SecretName)

  datatype AuditEntry = AuditEntry(agent: AgentId, event: AuditEvent)

  datatype Config = Config(policy: PolicyConfig, maxLeasesPerAgent: nat, cipher: Cipher)

  /** The audit log is a multiset: bulk revocations are logged in hash-map order. */
  datatype State = State(
    leases: map<LeaseId, Lease>,
    sessions: map<Token, Session>,
    store: Table,
    dek: Option<Key>,
    persisted: Key,               // the key held by the key source
    audit: multiset<AuditEntry>)

  /** Clock, database and audit log as one call finds them; `lost` are the best-effort entries that fail. */
  datatype Env = Env(now: Time, storeOk: bool, auditOk: bool, lost: set<LeaseId>)

  datatype Guard = Guard(lease: LeaseId, value: Bytes)

  function Logged(s: State, e: AuditEntry, ok: bool): State {
    if ok then s.(audit := s.audit + multiset{e}) else s
  }

  // ---- Lease operations ----

  function ActiveFor(agent: AgentId): Lease -> bool {
    (l: Lease) => l.agent == agent && !l.revoked
  }

  function ActiveCount(leases: map<LeaseId, Lease>, agent: AgentId): nat {
    Count(leases, ActiveFor(agent))
  }

  function RequestLease(c: Config, s: State, agent: AgentId, name: SecretName, domain: DomainScope,
                        id: LeaseId, env: Env): (State, Result<LeaseGrant>) {
    match Evaluate(c.policy, agent, name, domain)
    case Err(e) =>
      (Logged(s, AuditEntry(agent, AccessDenial(name, domain)), env.auditOk),
       if env.auditOk then Err(e) else Err(Storage))
    case Ok(terms) =>
      if ActiveCount(s.leases, agent) >= c.maxLeasesPerAgent then (s, Err(InvalidConfig))
      else if !env.storeOk then (s, Err(Storage))
      else if name !in s.store then (s, Err(SecretNotFound(name)))
      else
        var lease := NewLease(id, agent, name, [domain], terms, env.now);
        var entry := AuditEntry(agent, LeaseGranted(id, name, [domain], NumSeconds(terms.ttl)));
        if !env.auditOk then (s, Err(Storage))
        else (Logged(s, entry, true).(leases := s.leases[id := lease]), Ok(GrantOf(lease)))
  }

  /** The first lock scope of an access: validate the lease and count the use. */
  function UseLease(leases: map<LeaseId, Lease>, id: LeaseId, target: string, now: Time): Result<Lease> {
    if id !in leases then Err(LeaseNotFound(id))
    else match Refusal(leases[id], target, now)
      case Some(e) => Err(e)
      case None => RecordUse(leases[id])
  }

  function OpenSecret(c: Cipher, r: StoredSecret, dek: Option<Key>): Result<Bytes> {
    if dek.None? then Err(KeySourceUnavailable)
    else match Decrypt(c, r.sealed, dek.value)
      case Err(e) => Err(e)
      case Ok(p) => if Utf8.Valid(p) then Ok(p) else Err(DecryptionFailed)
  }

  function AccessSecret(c: Config, s: State, id: LeaseId, target: string, env: Env): (State, Result<Guard>) {
    match UseLease(s.leases, id, target, env.now)
    case Err(e) => (s, Err(e))
    case Ok(used) =>
      var s1 := s.(leases := s.leases[id := used]);
      if !env.storeOk then (s1, Err(Storage))
      else if used.secretName !in s.store then (s1, Err(SecretNotFound(used.secretName)))
      else match OpenSecret(c.cipher, s.store[used.secretName], s.dek)
        case Err(e) => (s1, Err(e))
        case Ok(p) =>
          if !env.auditOk then (s1, Err(Storage))
          else (Logged(s1, AuditEntry(used.agent, SecretAccessed(id, used.secretName, target)), true), Ok(Guard(id, p)))
  }

  function RevokeLease(s: State, id: LeaseId, reason: RevocationReason, env: Env): (State, Result<()>) {
    if id !in s.leases then (s, Err(LeaseNotFound(id)))
    else
      var s1 := s.(leases := s.leases[id := Revoke(s.leases[id])]);
      (Logged(s1, AuditEntry(s.leases[id].agent, LeaseRevocation(id, reason)), env.auditOk),
       if env.auditOk then Ok(()) else Err(Storage))
  }

  /** Which leases a bulk revocation is after. */
  datatype Selector = ByAgent(agent: AgentId) | BySecret(name: SecretName) | BySession(session: SessionId) {
    predicate Selects(l: Lease) {
      match this
      case ByAgent(a) => l.agent == a
      case BySecret(n) => l.secretName == n
      case BySession(sid) => l.sessionId == Some(sid)
    }

    function Reason(): RevocationReason {
      match this
      case ByAgent(_) => AdminRevoked
      case BySecret(_) => SecretDeletion
      case BySession(_) => SessionRevocation
    }
  }

  function Flipped(leases: map<LeaseId, Lease>, sel: Selector): set<LeaseId> {
    set id | id in leases && sel.Selects(leases[id]) && !leases[id].revoked
  }

  function RevokeWhere(leases: map<LeaseId, Lease>, sel: Selector): map<LeaseId, Lease> {
    map id | id in leases :: if sel.Selects(leases[id]) then Revoke(leases[id]) else leases[id]
  }

  /** One best-effort entry per lease flipped, except the lost ones. */
  function RevocationEntries(leases: map<LeaseId, Lease>, ids: set<LeaseId>,
                             reason: RevocationReason): multiset<AuditEntry>
    requires ids <= leases.Keys
  {
    multiset(set id | id in ids :: AuditEntry(leases[id].agent, LeaseRevocation(id, reason)))
  }

  function BulkRevoke(s: State, sel: Selector, lost: set<LeaseId>): State {
    s.(leases := RevokeWhere(s.leases, sel),
       audit := s.audit + RevocationEntries(s.leases, Flipped(s.leases, sel) - lost, sel.Reason()))
  }

  function RevokeAllForAgent(s: State, agent: AgentId, env: Env): (State, Result<nat>) {
    (BulkRevoke(s, ByAgent(agent), env.lost), Ok(|Flipped(s.leases, ByAgent(agent))|))
  }

  /** Some held session with this id caps renewals at or below `count`. */
  ghost predicate RenewalCapped(sessions: map<Token, Session>, sid: SessionId, count: nat) {
    exists t :: t in sessions && sessions[t].id == sid && count >= sessions[t].policy.maxRenewalsPerLease
  }

  /** The limit of such a session; session ids are unique among the held sessions. */
  ghost function RenewalLimit(sessions: map<Token, Session>, sid: SessionId, count: nat): nat
    requires RenewalCapped(sessions, sid, count)
  {
    var t :| t in sessions && sessions[t].id == sid && count >= sessions[t].policy.maxRenewalsPerLease;
    sessions[t].policy.maxRenewalsPerLease
  }

  /** The lock scope of a renewal. */
  ghost function RenewedLease(s: State, id: LeaseId, extensionSecs: int, now: Time): Result<Lease> {
    if id !in s.leases then Err(LeaseNotFound(id))
    else
      var l := s.leases[id];
      if now > l.expiresAt then Err(LeaseExpired(id))
      else if extensionSecs <= 0 || extensionSecs > MAX_EXTENSION_SECS then Err(InvalidConfig)
      else if l.sessionId.Some? && RenewalCapped(s.sessions, l.sessionId.value, l.renewalCount) then
        Err(RenewalLimitReached(id, RenewalLimit(s.sessions, l.sessionId.value, l.renewalCount)))
      else Renew(l, extensionSecs * NANOS_PER_SECOND, now)
  }

  ghost function RenewLease(s: State, id: LeaseId, extensionSecs: int, env: Env): (State, Result<LeaseGrant>) {
    match RenewedLease(s, id, extensionSecs, env.now)
    case Err(e) => (s, Err(e))
    case Ok(l) =>
      var s1 := s.(leases := s.leases[id := l]);
      (Logged(s1, AuditEntry(l.agent, LeaseRenewed(id, extensionSecs)), env.auditOk),
       if env.auditOk then Ok(GrantOf(l)) else Err(Storage))
  }

  function GcLeases(s: State, now: Time): State {
    s.(leases := map id | id in s.leases && Kept(s.leases[id], now) :: s.leases[id])
  }

  // ---- Secret operations ----

  function Initialize(s: State): State {
    s.(dek := Some(s.persisted))
  }

  function StoreSecret(c: Config, s: State, name: SecretName, plaintext: Bytes, kind: SecretKind,
                       description: Option<string>, sid: SecretId, nonce: Bytes, env: Env)
    : (State, Result<StoredSecret>)
  {
    if s.dek.None? then (s, Err(KeySourceUnavailable))
    else match Encrypt(c.cipher, plaintext, s.dek.value, nonce)
      case Err(e) => (s, Err(e))
      case Ok(sealed) =>
        if !env.storeOk then (s, Err(Storage))
        else if name in s.store then (s, Err(SecretAlreadyExists(name)))
        else
          var row := StoredSecret(sid, sealed, kind, description, env.now, env.now, 1);
          (Logged(s.(store := s.store[name := row]), AuditEntry("admin", SecretStored(name)), env.auditOk),
           if env.auditOk then Ok(row) else Err(Storage))
  }

  function DeleteSecret(s: State, name: SecretName, env: Env): (State, Result<()>) {
    var s1 := BulkRevoke(s, BySecret(name), env.lost);
    if !env.storeOk then (s1, Err(Storage))
    else if name !in s.store then (s1, Err(SecretNotFound(name)))
    else
      (Logged(s1.(store := s.store - {name}), AuditEntry("admin", SecretDeleted(name)), env.auditOk),
       if env.auditOk then Ok(()) else Err(Storage))
  }

  /** One row decrypted under the old key and sealed again under the new one. */
  function ReSeal(c: Cipher, r: StoredSecret, oldKey: Key, newKey: Key, nonce: Bytes, now: Time): Result<StoredSecret> {
    match Decrypt(c, r.sealed, oldKey)
    case Err(e) => Err(e)
    case Ok(p) =>
      match Encrypt(c, p, newKey, nonce)
      case Err(e) => Err(e)
      case Ok(sealed) => Ok(Rewritten(r, sealed, now))
  }

  predicate CanReSealAll(c: Cipher, t: Table, oldKey: Key, newKey: Key, nonces: SecretName -> Bytes) {
    forall n | n in t :: ReSeal(c, t[n], oldKey, newKey, nonces(n), 0).Ok?
  }

  function ReSealAll(c: Cipher, t: Table, oldKey: Key, newKey: Key, nonces: SecretName -> Bytes, now: Time): Table
    requires CanReSealAll(c, t, oldKey, newKey, nonces)
  {
    map n | n in t :: ReSeal(c, t[n], oldKey, newKey, nonces(n), now).value
  }

  /** What fails in a rotation: fetches of single rows, a statement of the batch, the key source. */
  datatype RotateFaults = RotateFaults(unreadable: set<SecretName>, batchFailsAt: nat, keySourceOk: bool)

  predicate FetchesAll(t: Table, faults: RotateFaults) {
    forall n | n in t :: n !in faults.unreadable
  }

  function RotateDek(c: Config, s: State, newKey: Key, nonces: SecretName -> Bytes, faults: RotateFaults, env: Env)
    : (State, bool)
  {
    if s.dek.None? || !env.storeOk || !FetchesAll(s.store, faults) then (s, false)
    else if !CanReSealAll(c.cipher, s.store, s.dek.value, newKey, nonces) then (s, false)
    else if faults.batchFailsAt <= |s.store| then (s, false)
    else
      var s1 := s.(store := ReSealAll(c.cipher, s.store, s.dek.value, newKey, nonces, env.now));
      if !faults.keySourceOk then (s1, false)
      else
        var s2 := s1.(persisted := newKey, dek := Some(newKey));
        (Logged(s2, AuditEntry("admin", DekRotated), env.auditOk), env.auditOk)
  }

  /** The error a failed rotation may report; which row is tried first is up to the database. */
  ghost predicate RotateError(c: Config, s: State, newKey: Key, nonces: SecretName -> Bytes, faults: RotateFaults,
                              env: Env, e: Error) {
    if s.dek.None? then e == KeySourceUnavailable
    else if !env.storeOk then e == Storage
    else if !FetchesAll(s.store, faults) || !CanReSealAll(c.cipher, s.store, s.dek.value, newKey, nonces) then
      exists n | n in s.store :: RowError(c.cipher, s.store[n], n, s.dek.value, newKey, nonces, faults, e)
    else if faults.batchFailsAt <= |s.store| then e == Storage
    else if !faults.keySourceOk then e == KeySourceUnavailable
    else !env.auditOk && e == Storage
  }

  /** Why one row stops a rotation: it cannot be fetched, or it does not open or seal. */
  predicate RowError(c: Cipher, r: StoredSecret, n: SecretName, oldKey: Key, newKey: Key, nonces: SecretName -> Bytes,
                     faults: RotateFaults, e: Error) {
    if n in faults.unreadable then e == Storage else ReSeal(c, r, oldKey, newKey, nonces(n), 0) == Err(e)
  }

  // ---- Session operations ----

  function CreateSession(s: State, user: string, channel: string, policy: SessionPolicy, token: Token,
                         sid: SessionId, env: Env): (State, Result<(Token, SessionId)>) {
    var session := NewSession(sid, user, channel, policy, env.now);
    var duration := NumSeconds(session.expiresAt - env.now);
    (Logged(s.(sessions := s.sessions[token := session]),
            AuditEntry(user, SessionCreated(sid, user, channel, duration)), env.auditOk),
     if env.auditOk then Ok((token, sid)) else Err(Storage))
  }

  function ValidateSession(sessions: map<Token, Session>, token: Token, now: Time): Result<Session> {
    if token !in sessions then Err(SessionNotFound)
    else if sessions[token].revoked then Err(SessionRevoked(sessions[token].id))
    else if Expired(sessions[token], now) then Err(SessionExpired(sessions[token].id))
    else Ok(sessions[token])
  }

  function RevokeSession(s: State, token: Token, env: Env): (State, Result<()>) {
    if token !in s.sessions then (s, Err(SessionNotFound))
    else
      var session := s.sessions[token];
      var s1 := s.(sessions := s.sessions[token := RevokeSessionRecord(session)]);
      var n := |Flipped(s.leases, BySession(session.id))|;
      (Logged(BulkRevoke(s1, BySession(session.id), env.lost),
              AuditEntry("session", SessionRevocationDone(session.id, n)), env.auditOk),
       if env.auditOk then Ok(()) else Err(Storage))
  }

  /** Session check of a scoped request: active, tool bound, counter below the limit. */
  function SessionCheck(sessions: map<Token, Session>, token: Token, tool: string, name: SecretName,
                        domain: DomainScope, now: Time): Result<SessionId> {
    match ValidateSession(sessions, token, now)
    case Err(e) => Err(e)
    case Ok(session) =>
      if !ToolAllowed(session.policy, tool, name, domain) then Err(AccessDenied(tool, name, domain))
      else if session.activeLeaseCount >= session.policy.maxConcurrentLeases then
        Err(SessionLeaseLimitReached(session.id, session.policy.maxConcurrentLeases))
      else Ok(session.id)
  }

  function Linked(s: State, id: LeaseId, sid: SessionId): State {
    if id in s.leases then s.(leases := s.leases[id := s.leases[id].(sessionId := Some(sid))]) else s
  }

  function Counted(s: State, token: Token): State {
    if token in s.sessions then
      var session := s.sessions[token];
      s.(sessions := s.sessions[token := session.(activeLeaseCount := session.activeLeaseCount + 1)])
    else s
  }

  function RequestLeaseScoped(c: Config, s: State, agent: AgentId, name: SecretName, domain: DomainScope,
                              token: Token, tool: string, id: LeaseId, env: Env): (State, Result<LeaseGrant>) {
    match SessionCheck(s.sessions, token, tool, name, domain, env.now)
    case Err(e) =>
      if e.AccessDenied? && token in s.sessions then
        (Logged(s, AuditEntry(agent, ToolBindingDenied(s.sessions[token].id, tool, name)), env.auditOk), Err(e))
      else (s, Err(e))
    case Ok(sid) =>
      match RequestLease(c, s, agent, name, domain, id, env)
      case (s1, Err(e)) => (s1, Err(e))
      case (s1, Ok(grant)) => (Counted(Linked(s1, id, sid), token), Ok(grant))
  }

  function GcSessions(s: State, now: Time): State {
    s.(sessions := map t | t in s.sessions && Active(s.sessions[t], now) :: s.sessions[t])
  }

  // ---- Operations as data ----

  datatype Op =
    | OpInitialize
    | OpRequest(agent: AgentId, name: SecretName, domain: DomainScope, id: LeaseId, env: Env)
    | OpAccess(id: LeaseId, target: string, env: Env)
    | OpRevoke(id: LeaseId, reason: RevocationReason, env: Env)
    | OpRevokeAll(agent: AgentId, env: Env)
    | OpRenew(id: LeaseId, extensionSecs: int, env: Env)
    | OpGcLeases(now: Time)
    | OpStore(name: SecretName, plaintext: Bytes, kind: SecretKind, description: Option<string>,
              secretId: SecretId, nonce: Bytes, env: Env)
    | OpDelete(name: SecretName, env: Env)
    | OpRotate(newKey: Key, nonces: SecretName -> Bytes, faults: RotateFaults, env: Env)
    | OpCreateSession(user: string, channel: string, policy: SessionPolicy, token: Token, session: SessionId, env: Env)
    | OpRevokeSession(token: Token, env: Env)
    | OpRequestScoped(agent: AgentId, name: SecretName, domain: DomainScope, token: Token, tool: string,
                      id: LeaseId, env: Env)
    | OpGcSessions(now: Time)

  /** The state after one operation. */
  ghost function Apply(c: Config, s: State, op: Op): State {
    match op
    case OpInitialize => Initialize(s)
    case OpRequest(agent, name, domain, id, env) => RequestLease(c, s, agent, name, domain, id, env).0
    case OpAccess(id, target, env) => AccessSecret(c, s, id, target, env).0
    case OpRevoke(id, reason, env) => RevokeLease(s, id, reason, env).0
    case OpRevokeAll(agent, env) => RevokeAllForAgent(s, agent, env).0
    case OpRenew(id, extensionSecs, env) => RenewLease(s, id, extensionSecs, env).0
    case OpGcLeases(now) => GcLeases(s, now)
    case OpStore(name, plaintext, kind, description, sid, nonce, env) =>
      StoreSecret(c, s, name, plaintext, kind, description, sid, nonce, env).0
    case OpDelete(name, env) => DeleteSecret(s, name, env).0
    case OpRotate(newKey, nonces, faults, env) => RotateDek(c, s, newKey, nonces, faults, env).0
    case OpCreateSession(user, channel, policy, token, sid, env) =>
      CreateSession(s, user, channel, policy, token, sid, env).0
    case OpRevokeSession(token, env) => RevokeSession(s, token, env).0
    case OpRequestScoped(agent, name, domain, token, tool, id, env) =>
      RequestLeaseScoped(c, s, agent, name, domain, token, tool, id, env).0
    case OpGcSessions(now) => GcSessions(s, now)
  }

  /** The state after a sequence of operations, the first one first. */
  ghost function Run(c: Config, s: State, ops: seq<Op>): State {
    if ops == [] then s else Apply(c, Run(c, s, ops[..|ops| - 1]), ops[|ops| - 1])
  }
}
