/**
 * Whole runs of vault operations, each taken as one atomic step.
 *
 * A run carries a history of what happened in it: what each stored secret was written as, and
 * for each lease ever granted the secret it was granted on.  `Inv` ties the state to that
 * history; it holds at the start, every admissible operation keeps it, and the theorems at the
 * end read off what it says about whole runs.
 */
module VaultRuns {
  import opened Types
  import opened Counting
  import opened Identity
  import opened Policy
  import opened Leases
  import opened Sessions
  import opened Crypto
  import opened Store
  import opened VaultModel

  /** How a lease came about: the secret it was granted on, the lease as issued, the tool it was for. */
  datatype Origin = Origin(
    incarnation: SecretId,
    plaintext: Bytes,
    issued: Lease,
    binding: Option<(SessionPolicy, string)>)

  datatype History = History(
    written: map<SecretName, Bytes>,          // plaintext of the store_secret call in force
    origin: map<LeaseId, Origin>,             // every lease ever granted
    sessionIds: set<SessionId>,               // every session ever created
    revokedSessions: set<SessionId>)          // every session ever revoked

  datatype World = World(s: State, h: History)

  ghost function WithOrigin(c: Config, w: World, op: Op, id: LeaseId, name: SecretName,
                            binding: Option<(SessionPolicy, string)>): History {
    var s' := Apply(c, w.s, op);
    if id in s'.leases && id !in w.s.leases && name in w.s.store && name in w.h.written then
      var issued := s'.leases[id].(sessionId := None);
      w.h.(origin := w.h.origin[id := Origin(w.s.store[name].id, w.h.written[name], issued, binding)])
    else w.h
  }

  ghost function Track(c: Config, w: World, op: Op): History {
    var s' := Apply(c, w.s, op);
    match op
    case OpStore(name, plaintext, _, _, _, _, _) =>
      if name !in w.s.store && name in s'.store then w.h.(written := w.h.written[name := plaintext]) else w.h
    case OpDelete(name, _) =>
      if name !in s'.store then w.h.(written := w.h.written - {name}) else w.h
    case OpRequest(_, name, _, id, _) => WithOrigin(c, w, op, id, name, None)
    case OpRequestScoped(_, name, _, token, tool, id, _) =>
      if token in w.s.sessions then WithOrigin(c, w, op, id, name, Some((w.s.sessions[token].policy, tool))) else w.h
    case OpCreateSession(_, _, _, _, sid, _) => w.h.(sessionIds := w.h.sessionIds + {sid})
    case OpRevokeSession(token, _) =>
      if token in w.s.sessions then w.h.(revokedSessions := w.h.revokedSessions + {w.s.sessions[token].id}) else w.h
    case _ => w.h
  }

  ghost function Step(c: Config, w: World, op: Op): World {
    World(Apply(c, w.s, op), Track(c, w, op))
  }

  ghost function Runs(c: Config, w: World, ops: seq<Op>): World {
    if ops == [] then w else Step(c, Runs(c, w, ops[..|ops| - 1]), ops[|ops| - 1])
  }

  // ---- What a run may contain ----

  /** A rotation whose batch went through but whose new key the key source then refused. */
  predicate Stranded(c: Config, s: State, op: Op) {
    && op.OpRotate?
    && s.dek.Some? && op.env.storeOk && FetchesAll(s.store, op.faults)
    && CanReSealAll(c.cipher, s.store, s.dek.value, op.newKey, op.nonces)
    && op.faults.batchFailsAt > |s.store|
    && !op.faults.keySourceOk
  }

  /** Identifiers and tokens are fresh, nonces have the cipher's length, and no rotation is stranded. */
  ghost predicate Admissible(c: Config, w: World, op: Op) {
    match op
    case OpRequest(_, _, _, id, _) => id !in w.h.origin
    case OpRequestScoped(_, _, _, _, _, id, _) => id !in w.h.origin
    case OpCreateSession(_, _, _, token, sid, _) => token !in w.s.sessions && sid !in w.h.sessionIds
    case OpStore(_, _, _, _, _, nonce, _) => |nonce| == NonceLength(c.cipher.defaultAlgorithm)
    case OpRotate(_, nonces, _, _) => NoncesFit(c, nonces) && !Stranded(c, w.s, op)
    case _ => true
  }

  ghost predicate NoncesFit(c: Config, nonces: SecretName -> Bytes) {
    forall n :: |nonces(n)| == NonceLength(c.cipher.defaultAlgorithm)
  }

  ghost predicate AdmissibleRun(c: Config, w: World, ops: seq<Op>) {
    ops == [] ||
    (AdmissibleRun(c, w, ops[..|ops| - 1]) && Admissible(c, Runs(c, w, ops[..|ops| - 1]), ops[|ops| - 1]))
  }

  // ---- The invariant, part by part ----

  type LeaseMap = map<LeaseId, Lease>
  type SessionMap = map<Token, Session>

  /** Every stored secret opens, under the key the key source holds, to what was written. */
  ghost predicate Readable(c: Cipher, store: Table, key: Key, written: map<SecretName, Bytes>) {
    && store.Keys == written.Keys
    && forall n | n in store :: Decrypt(c, store[n].sealed, key) == Ok(written[n])
  }

  predicate KeyOk(s: State) {
    s.dek == None || s.dek == Some(s.persisted)
  }

  /** The policy grants the lease as issued, and so does the tool binding if it has one. */
  ghost predicate OriginOk(policy: PolicyConfig, o: Origin) {
    && AsGranted(policy, o.issued)
    && (o.binding.Some? ==>
          ToolAllowed(o.binding.value.0, o.binding.value.1, o.issued.secretName, o.issued.allowedDomains[0]))
  }

  ghost predicate OriginsOk(policy: PolicyConfig, origin: map<LeaseId, Origin>) {
    forall id | id in origin :: OriginOk(policy, origin[id])
  }

  ghost predicate LeaseOk(l: Lease, o: Origin) {
    && SameTerms(o.issued, l)
    && WithinLifetime(o.issued, l)
    && (l.sessionId.Some? ==> o.binding.Some?)
    && (l.maxUses.Some? ==> l.useCount <= l.maxUses.value)
  }

  ghost predicate LeasesOk(leases: LeaseMap, origin: map<LeaseId, Origin>) {
    forall id | id in leases :: id in origin && leases[id].id == id && LeaseOk(leases[id], origin[id])
  }

  /** An unrevoked lease stands on the very secret it was granted on. */
  ghost predicate StandsOn(l: Lease, o: Origin, store: Table, written: map<SecretName, Bytes>) {
    && l.secretName in store && l.secretName in written
    && store[l.secretName].id == o.incarnation
    && written[l.secretName] == o.plaintext
  }

  ghost predicate LiveOk(leases: LeaseMap, origin: map<LeaseId, Origin>, store: Table, written: map<SecretName,
                         Bytes>) {
    forall id | id in leases && !leases[id].revoked :: id in origin && StandsOn(leases[id], origin[id], store, written)
  }

  /** Held sessions have distinct known ids and know whether they were revoked. */
  ghost predicate SessionsOk(sessions: SessionMap, ids: set<SessionId>, revoked: set<SessionId>) {
    && revoked <= ids
    && (forall t | t in sessions :: sessions[t].id in ids && (sessions[t].revoked <==> sessions[t].id in revoked))
    && (forall t, u | t in sessions && u in sessions && sessions[t].id == sessions[u].id :: t == u)
  }

  /** Leases are linked to known sessions only, and none of a revoked session is live, collected sessions included. */
  ghost predicate CascadeOk(leases: LeaseMap, ids: set<SessionId>, revoked: set<SessionId>) {
    forall id | id in leases && leases[id].sessionId.Some? ::
      leases[id].sessionId.value in ids && (leases[id].sessionId.value in revoked ==> leases[id].revoked)
  }

  /** While its session is held, a lease has not been renewed more often than the session allows. */
  ghost predicate RenewalsFit(l: Lease, sessions: SessionMap) {
    forall t | t in sessions && l.sessionId == Some(sessions[t].id) ::
      l.renewalCount <= sessions[t].policy.maxRenewalsPerLease
  }

  ghost predicate RenewalsOk(leases: LeaseMap, sessions: SessionMap) {
    forall id | id in leases :: RenewalsFit(leases[id], sessions)
  }

  function LiveIn(sid: SessionId): Lease -> bool {
    (l: Lease) => l.sessionId == Some(sid) && !l.revoked
  }

  ghost predicate AgentCapOk(max: nat, leases: LeaseMap) {
    forall a :: ActiveCount(leases, a) <= max
  }

  /** A session's counter is at least its live leases and at most its limit. */
  ghost predicate CounterOk(leases: LeaseMap, s: Session) {
    Count(leases, LiveIn(s.id)) <= s.activeLeaseCount <= s.policy.maxConcurrentLeases
  }

  ghost predicate SessionCapOk(leases: LeaseMap, sessions: SessionMap) {
    forall t | t in sessions :: CounterOk(leases, sessions[t])
  }

  /** What the lease map must satisfy. */
  ghost predicate LeasePart(c: Config, w: World) {
    && LeasesOk(w.s.leases, w.h.origin)
    && LiveOk(w.s.leases, w.h.origin, w.s.store, w.h.written)
    && CascadeOk(w.s.leases, w.h.sessionIds, w.h.revokedSessions)
    && RenewalsOk(w.s.leases, w.s.sessions)
    && AgentCapOk(c.maxLeasesPerAgent, w.s.leases)
    && SessionCapOk(w.s.leases, w.s.sessions)
  }

  ghost predicate Inv(c: Config, w: World) {
    && KeyOk(w.s) && Readable(c.cipher, w.s.store, w.s.persisted, w.h.written)
    && OriginsOk(c.policy, w.h.origin)
    && SessionsOk(w.s.sessions, w.h.sessionIds, w.h.revokedSessions)
    && LeasePart(c, w)
  }

  /** A vault just opened on an existing store: no leases, no sessions, everything readable. */
  ghost predicate Start(c: Config, w: World) {
    && w.s.leases == map[] && w.s.sessions == map[] && w.h.origin == map[]
    && w.h.sessionIds == {} && w.h.revokedSessions == {}
    && KeyOk(w.s) && Readable(c.cipher, w.s.store, w.s.persisted, w.h.written)
  }

  lemma StartInv(c: Config, w: World)
    requires Start(c, w)
    ensures Inv(c, w)
  {
    forall a ensures ActiveCount(w.s.leases, a) == 0 {
      assert Where(w.s.leases, ActiveFor(a)) == {};
    }
  }

  // ---- How the lease map may change ----

  /** A lease gives way to a later version of itself, or is dropped. */
  ghost predicate Succeeds(before: Lease, after: Lease, o: Origin, sessions: SessionMap) {
    && LeaseOk(after, o) && after.id == before.id && after.sessionId == before.sessionId
    && (before.revoked ==> after.revoked)
    && RenewalsFit(after, sessions)
  }

  ghost predicate Evolves(before: LeaseMap, after: LeaseMap, origin: map<LeaseId, Origin>, sessions: SessionMap) {
    forall id | id in after :: id in before && id in origin && Succeeds(before[id], after[id], origin[id], sessions)
  }

  lemma EvolveCaps(max: nat, before: LeaseMap, after: LeaseMap, origin: map<LeaseId, Origin>, sessions: SessionMap)
    requires LeasesOk(before, origin) && Evolves(before, after, origin, sessions)
    requires AgentCapOk(max, before) && SessionCapOk(before, sessions)
    ensures AgentCapOk(max, after) && SessionCapOk(after, sessions)
  {
    forall a ensures ActiveCount(after, a) <= max {
      assert ActiveCount(before, a) <= max;
      CountMonotone(after, before, ActiveFor(a));
    }
    forall t | t in sessions ensures CounterOk(after, sessions[t]) {
      assert CounterOk(before, sessions[t]);
      CountMonotone(after, before, LiveIn(sessions[t].id));
    }
  }

  lemma EvolveInv(c: Config, w: World, after: LeaseMap, audit: multiset<AuditEntry>)
    requires Inv(c, w) && Evolves(w.s.leases, after, w.h.origin, w.s.sessions)
    ensures Inv(c, w.(s := w.s.(leases := after, audit := audit)))
  {
    hide AgentCapOk, SessionCapOk, Readable, OriginsOk, SessionsOk, Succeeds, LeaseOk, RenewalsFit, StandsOn,
      LeasesOk, LiveOk, CascadeOk, RenewalsOk;
    EvolveCaps(c.maxLeasesPerAgent, w.s.leases, after, w.h.origin, w.s.sessions);
    EvolveParts(w.s.leases, after, w.s.sessions, w.s.store, w.h);
  }

  lemma EvolveParts(before: LeaseMap, after: LeaseMap, sessions: SessionMap, store: Table, h: History)
    requires Evolves(before, after, h.origin, sessions)
    requires LiveOk(before, h.origin, store, h.written) && CascadeOk(before, h.sessionIds, h.revokedSessions)
    requires LeasesOk(before, h.origin)
    ensures LeasesOk(after, h.origin) && RenewalsOk(after, sessions)
    ensures LiveOk(after, h.origin, store, h.written) && CascadeOk(after, h.sessionIds, h.revokedSessions)
  {
    hide RenewalsFit, WithinLifetime;
  }

  lemma GrantCaps(max: nat, leases: LeaseMap, l: Lease, sessions: SessionMap)
    requires AgentCapOk(max, leases) && SessionCapOk(leases, sessions)
    requires l.id !in leases && l.sessionId.None? && ActiveCount(leases, l.agent) < max
    ensures AgentCapOk(max, leases[l.id := l]) && SessionCapOk(leases[l.id := l], sessions)
  {
    var after := leases[l.id := l];
    forall a ensures ActiveCount(after, a) <= max {
      assert ActiveCount(leases, a) <= max;
      CountUpdate(leases, l.id, l, ActiveFor(a));
    }
    forall t | t in sessions ensures CounterOk(after, sessions[t]) {
      assert CounterOk(leases, sessions[t]);
      CountUpdate(leases, l.id, l, LiveIn(sessions[t].id));
    }
  }

  lemma GrantParts(leases: LeaseMap, l: Lease, o: Origin, sessions: SessionMap, store: Table, h: History)
    requires l.id !in h.origin && l.sessionId.None? && LeaseOk(l, o) && StandsOn(l, o, store, h.written)
    requires LeasesOk(leases, h.origin) && LiveOk(leases, h.origin, store, h.written)
    requires CascadeOk(leases, h.sessionIds, h.revokedSessions) && RenewalsOk(leases, sessions)
    ensures l.id !in leases
    ensures LeasesOk(leases[l.id := l], h.origin[l.id := o])
    ensures LiveOk(leases[l.id := l], h.origin[l.id := o], store, h.written)
    ensures CascadeOk(leases[l.id := l], h.sessionIds, h.revokedSessions)
    ensures RenewalsOk(leases[l.id := l], sessions)
  {
    hide LeaseOk, StandsOn;
  }

  /** A fresh lease on a stored secret. */
  lemma GrantInv(c: Config, w: World, l: Lease, o: Origin, audit: multiset<AuditEntry>)
    requires Inv(c, w)
    requires l.id !in w.h.origin && l.sessionId.None? && ActiveCount(w.s.leases, l.agent) < c.maxLeasesPerAgent
    requires OriginOk(c.policy, o) && LeaseOk(l, o) && StandsOn(l, o, w.s.store, w.h.written)
    ensures Inv(c, World(w.s.(leases := w.s.leases[l.id := l], audit := audit), w.h.(origin := w.h.origin[l.id := o])))
  {
    hide LeasesOk, LiveOk, CascadeOk, RenewalsOk, AgentCapOk, SessionCapOk, Readable, SessionsOk,
      LeaseOk, StandsOn, ActiveCount, OriginOk;
    GrantParts(w.s.leases, l, o, w.s.sessions, w.s.store, w.h);
    GrantCaps(c.maxLeasesPerAgent, w.s.leases, l, w.s.sessions);
  }

  lemma LinkCaps(max: nat, s: State, id: LeaseId, token: Token, ids: set<SessionId>, revoked: set<SessionId>)
    requires AgentCapOk(max, s.leases) && SessionCapOk(s.leases, s.sessions) && SessionsOk(s.sessions, ids, revoked)
    requires id in s.leases && s.leases[id].sessionId.None? && token in s.sessions
    requires s.sessions[token].activeLeaseCount < s.sessions[token].policy.maxConcurrentLeases
    ensures var s' := Counted(Linked(s, id, s.sessions[token].id), token);
      AgentCapOk(max, s'.leases) && SessionCapOk(s'.leases, s'.sessions)
  {
    var l := s.leases[id].(sessionId := Some(s.sessions[token].id));
    var s' := Counted(Linked(s, id, s.sessions[token].id), token);
    forall a ensures ActiveCount(s'.leases, a) <= max {
      assert ActiveCount(s.leases, a) <= max;
      CountUpdate(s.leases, id, l, ActiveFor(a));
    }
    forall t | t in s'.sessions ensures CounterOk(s'.leases, s'.sessions[t]) {
      assert CounterOk(s.leases, s.sessions[t]);
      CountUpdate(s.leases, id, l, LiveIn(s.sessions[t].id));
    }
  }

  /** Session records may change in anything but identity, revocation and renewal limit. */
  ghost predicate SameSessions(before: SessionMap, after: SessionMap) {
    && before.Keys == after.Keys
    && forall t | t in after ::
         && after[t].id == before[t].id && after[t].revoked == before[t].revoked
         && after[t].policy.maxRenewalsPerLease == before[t].policy.maxRenewalsPerLease
  }

  lemma LinkLeases(leases: LeaseMap, id: LeaseId, sid: SessionId, before: SessionMap, after: SessionMap, h: History)
    requires id in leases && leases[id].renewalCount == 0 && sid in h.sessionIds && sid !in h.revokedSessions
    requires SameSessions(before, after)
    requires LeasesOk(leases, h.origin) && h.origin[id].binding.Some?
    requires CascadeOk(leases, h.sessionIds, h.revokedSessions) && RenewalsOk(leases, before)
    ensures var leases' := leases[id := leases[id].(sessionId := Some(sid))];
      LeasesOk(leases', h.origin) && CascadeOk(leases', h.sessionIds, h.revokedSessions) && RenewalsOk(leases', after)
  {
  }

  lemma LinkLive(w: World, id: LeaseId, sid: SessionId)
    requires id in w.s.leases && LiveOk(w.s.leases, w.h.origin, w.s.store, w.h.written)
    ensures LiveOk(Linked(w.s, id, sid).leases, w.h.origin, w.s.store, w.h.written)
  {
  }

  lemma CountedSessions(s: State, token: Token, ids: set<SessionId>, revoked: set<SessionId>)
    requires SessionsOk(s.sessions, ids, revoked)
    ensures SessionsOk(Counted(s, token).sessions, ids, revoked)
    ensures SameSessions(s.sessions, Counted(s, token).sessions)
  {
  }

  lemma SessionKnown(sessions: SessionMap, token: Token, ids: set<SessionId>, revoked: set<SessionId>)
    requires SessionsOk(sessions, ids, revoked) && token in sessions
    ensures sessions[token].id in ids && (sessions[token].id in revoked <==> sessions[token].revoked)
  {
  }

  lemma LinkedShape(s: State, id: LeaseId, sid: SessionId, token: Token)
    requires id in s.leases
    ensures Linked(s, id, sid) == s.(leases := s.leases[id := s.leases[id].(sessionId := Some(sid))])
    ensures Counted(Linked(s, id, sid), token)
        == Linked(s, id, sid).(sessions := Counted(Linked(s, id, sid), token).sessions)
  {
  }

  /** Linking a fresh lease to the session it was checked against, and counting it there. */
  lemma LinkInv(c: Config, w: World, id: LeaseId, token: Token)
    requires Inv(c, w)
    requires id in w.s.leases && w.s.leases[id].sessionId.None? && w.s.leases[id].renewalCount == 0
    requires token in w.s.sessions && !w.s.sessions[token].revoked
    requires w.s.sessions[token].activeLeaseCount < w.s.sessions[token].policy.maxConcurrentLeases
    requires id in w.h.origin && w.h.origin[id].binding.Some?
    ensures Inv(c, w.(s := Counted(Linked(w.s, id, w.s.sessions[token].id), token)))
  {
    var sid := w.s.sessions[token].id;
    var s' := Counted(Linked(w.s, id, sid), token);
    hide LeasesOk, LiveOk, CascadeOk, RenewalsOk, AgentCapOk, SessionCapOk, Readable, OriginsOk, SessionsOk,
      SameSessions, Linked,
      Counted;
    LinkedShape(w.s, id, sid, token);
    SessionKnown(w.s.sessions, token, w.h.sessionIds, w.h.revokedSessions);
    LinkCaps(c.maxLeasesPerAgent, w.s, id, token, w.h.sessionIds, w.h.revokedSessions);
    CountedSessions(Linked(w.s, id, sid), token, w.h.sessionIds, w.h.revokedSessions);
    LinkLeases(w.s.leases, id, sid, w.s.sessions, s'.sessions, w.h);
    LinkLive(w, id, sid);
  }

  // ---- Each operation keeps the invariant ----

  ghost function Granted(w: World, s: State, id: LeaseId, name: SecretName,
                         binding: Option<(SessionPolicy, string)>): World
    requires id in s.leases && name in w.s.store && name in w.h.written
  {
    var issued := s.leases[id].(sessionId := None);
    World(s, w.h.(origin := w.h.origin[id := Origin(w.s.store[name].id, w.h.written[name], issued, binding)]))
  }

  lemma ReadableKeys(c: Cipher, t: Table, key: Key, written: map<SecretName, Bytes>)
    requires Readable(c, t, key, written)
    ensures t.Keys == written.Keys
  {
  }

  lemma FreshId(leases: LeaseMap, origin: map<LeaseId, Origin>, id: LeaseId)
    requires LeasesOk(leases, origin) && id !in origin
    ensures id !in leases
  {
  }

  /** A granted request leaves the invariant in force, with the tool it was for on record. */
  lemma RequestInv(c: Config, w: World, agent: AgentId, name: SecretName, domain: DomainScope, id: LeaseId, env: Env,
                   binding: Option<(SessionPolicy, string)>)
    requires Inv(c, w) && id !in w.h.origin
    requires binding.Some? ==> ToolAllowed(binding.value.0, binding.value.1, name, domain)
    requires RequestLease(c, w.s, agent, name, domain, id, env).1.Ok?
    ensures name in w.s.store && name in w.h.written && id !in w.s.leases
    ensures Inv(c, Granted(w, RequestLease(c, w.s, agent, name, domain, id, env).0, id, name, binding))
  {
    hide LeasesOk, LiveOk, CascadeOk, RenewalsOk, AgentCapOk, SessionCapOk, Readable, OriginsOk, SessionsOk,
      ToolAllowed,
      ActiveCount, FirstMatch;
    var s' := RequestLease(c, w.s, agent, name, domain, id, env).0;
    var l := s'.leases[id];
    FreshId(w.s.leases, w.h.origin, id);
    ReadableKeys(c.cipher, w.s.store, w.s.persisted, w.h.written);
    GrantInv(c, w, l, Origin(w.s.store[name].id, w.h.written[name], l, binding), s'.audit);
  }

  lemma RequestScopedInv(c: Config, w: World, agent: AgentId, name: SecretName, domain: DomainScope, token: Token,
                         tool: string, id: LeaseId, env: Env)
    requires Inv(c, w) && id !in w.h.origin
    requires RequestLeaseScoped(c, w.s, agent, name, domain, token, tool, id, env).1.Ok?
    ensures token in w.s.sessions && name in w.s.store && name in w.h.written && id !in w.s.leases
    ensures
      var s' := RequestLeaseScoped(c, w.s, agent, name, domain, token, tool, id, env).0;
      && id in s'.leases
      && Inv(c, World(s', w.h.(origin := w.h.origin[id :=
           Origin(w.s.store[name].id, w.h.written[name], s'.leases[id].(sessionId := None),
                  Some((w.s.sessions[token].policy, tool)))])))
  {
    hide LeasesOk, LiveOk, CascadeOk, RenewalsOk, AgentCapOk, SessionCapOk, Readable, OriginsOk, SessionsOk,
      ToolAllowed,
      ActiveCount, FirstMatch;
    var s1 := RequestLease(c, w.s, agent, name, domain, id, env).0;
    var binding := Some((w.s.sessions[token].policy, tool));
    RequestInv(c, w, agent, name, domain, id, env, binding);
    LinkInv(c, Granted(w, s1, id, name, binding), id, token);
  }

  /** Replacing one lease by a successor of it. */
  lemma UpdateInv(c: Config, w: World, id: LeaseId, l: Lease, audit: multiset<AuditEntry>)
    requires Inv(c, w) && id in w.s.leases && id in w.h.origin
    requires Succeeds(w.s.leases[id], l, w.h.origin[id], w.s.sessions)
    ensures Inv(c, w.(s := w.s.(leases := w.s.leases[id := l], audit := audit)))
  {
    hide LiveOk, CascadeOk, AgentCapOk, SessionCapOk, Readable, OriginsOk, SessionsOk, LeaseOk, RenewalsFit;
    assert Evolves(w.s.leases, w.s.leases[id := l], w.h.origin, w.s.sessions);
    hide LeasesOk, RenewalsOk, Evolves;
    EvolveInv(c, w, w.s.leases[id := l], audit);
  }

  lemma AccessInv(c: Config, w: World, id: LeaseId, target: string, env: Env)
    requires Inv(c, w)
    ensures Inv(c, w.(s := AccessSecret(c, w.s, id, target, env).0))
  {
    var s' := AccessSecret(c, w.s, id, target, env).0;
    hide LiveOk, CascadeOk, AgentCapOk, SessionCapOk, Readable, OriginsOk, SessionsOk, AnyMatches, OpenSecret;
    var used := UseLease(w.s.leases, id, target, env.now);
    if used.Ok? {
      assert Succeeds(w.s.leases[id], used.value, w.h.origin[id], w.s.sessions) by {
        assert RenewalsFit(w.s.leases[id], w.s.sessions);
      }
      hide LeasesOk, RenewalsOk, Succeeds;
      UpdateInv(c, w, id, used.value, s'.audit);
    }
  }

  lemma RevokeInv(c: Config, w: World, id: LeaseId, reason: RevocationReason, env: Env)
    requires Inv(c, w)
    ensures Inv(c, w.(s := RevokeLease(w.s, id, reason, env).0))
  {
    hide LiveOk, CascadeOk, AgentCapOk, SessionCapOk, Readable, OriginsOk, SessionsOk;
    if id in w.s.leases {
      assert Succeeds(w.s.leases[id], Revoke(w.s.leases[id]), w.h.origin[id], w.s.sessions) by {
        assert RenewalsFit(w.s.leases[id], w.s.sessions);
      }
      hide LeasesOk, RenewalsOk, Succeeds;
      UpdateInv(c, w, id, Revoke(w.s.leases[id]), RevokeLease(w.s, id, reason, env).0.audit);
    }
  }

  lemma RenewInv(c: Config, w: World, id: LeaseId, extensionSecs: int, env: Env)
    requires Inv(c, w)
    ensures Inv(c, w.(s := RenewLease(w.s, id, extensionSecs, env).0))
  {
    hide LiveOk, CascadeOk, AgentCapOk, SessionCapOk, Readable, OriginsOk, SessionsOk;
    var renewed := RenewedLease(w.s, id, extensionSecs, env.now);
    if renewed.Ok? {
      assert Succeeds(w.s.leases[id], renewed.value, w.h.origin[id], w.s.sessions) by {
        RenewWithinLifetime(w.h.origin[id].issued, w.s.leases[id], extensionSecs, env.now);
      }
      hide LeasesOk, RenewalsOk, Succeeds, RenewalCapped;
      UpdateInv(c, w, id, renewed.value, RenewLease(w.s, id, extensionSecs, env).0.audit);
    }
  }

  /** Dropping some leases and revoking others. */
  lemma ShrinkInv(c: Config, w: World, after: LeaseMap, audit: multiset<AuditEntry>)
    requires Inv(c, w)
    requires forall id | id in after ::
      id in w.s.leases && (after[id] == w.s.leases[id] || after[id] == Revoke(w.s.leases[id]))
    ensures Inv(c, w.(s := w.s.(leases := after, audit := audit)))
  {
    hide LiveOk, CascadeOk, AgentCapOk, SessionCapOk, Readable, OriginsOk, SessionsOk, Evolves;
    assert Evolves(w.s.leases, after, w.h.origin, w.s.sessions) by {
      ShrinkEvolves(w.s.leases, after, w.h.origin, w.s.sessions);
    }
    hide LeasesOk, RenewalsOk;
    EvolveInv(c, w, after, audit);
  }

  lemma ShrinkEvolves(before: LeaseMap, after: LeaseMap, origin: map<LeaseId, Origin>, sessions: SessionMap)
    requires LeasesOk(before, origin) && RenewalsOk(before, sessions)
    requires forall id | id in after :: id in before && (after[id] == before[id] || after[id] == Revoke(before[id]))
    ensures Evolves(before, after, origin, sessions)
  {
    forall id | id in after
      ensures id in before && id in origin && Succeeds(before[id], after[id], origin[id], sessions)
    {
      assert RenewalsFit(before[id], sessions);
    }
  }

  lemma BulkRevokeInv(c: Config, w: World, sel: Selector, lost: set<LeaseId>)
    requires Inv(c, w)
    ensures Inv(c, w.(s := BulkRevoke(w.s, sel, lost)))
  {
    hide LeasePart, Readable, OriginsOk, SessionsOk;
    ShrinkInv(c, w, RevokeWhere(w.s.leases, sel), BulkRevoke(w.s, sel, lost).audit);
  }

  lemma GcLeasesInv(c: Config, w: World, now: Time)
    requires Inv(c, w)
    ensures Inv(c, w.(s := GcLeases(w.s, now)))
  {
    hide LeasePart, Readable, OriginsOk, SessionsOk;
    ShrinkInv(c, w, GcLeases(w.s, now).leases, w.s.audit);
  }

  /** Changes of the store that keep every live lease on its secret. */
  lemma StoreInv(c: Config, w: World, store: Table, key: Key, dek: Option<Key>, written: map<SecretName, Bytes>,
                 audit: multiset<AuditEntry>)
    requires Inv(c, w)
    requires dek == None || dek == Some(key)
    requires Readable(c.cipher, store, key, written)
    requires LiveOk(w.s.leases, w.h.origin, store, written)
    ensures Inv(c, World(w.s.(store := store, persisted := key, dek := dek, audit := audit), w.h.(written := written)))
  {
    hide LeasesOk, LiveOk, CascadeOk, RenewalsOk, AgentCapOk, SessionCapOk, Readable, OriginsOk, SessionsOk;
  }

  lemma StoredParts(c: Cipher, leases: LeaseMap, origin: map<LeaseId, Origin>, t: Table, key: Key,
                    written: map<SecretName, Bytes>, name: SecretName, row: StoredSecret, plaintext: Bytes)
    requires Readable(c, t, key, written) && LiveOk(leases, origin, t, written)
    requires name !in t && Decrypt(c, row.sealed, key) == Ok(plaintext)
    ensures Readable(c, t[name := row], key, written[name := plaintext])
    ensures LiveOk(leases, origin, t[name := row], written[name := plaintext])
  {
  }

  lemma StoreSecretInv(c: Config, w: World, name: SecretName, plaintext: Bytes, kind: SecretKind,
                       description: Option<string>, sid: SecretId, nonce: Bytes, env: Env)
    requires Inv(c, w) && LawfulCipher(c.cipher) && |nonce| == NonceLength(c.cipher.defaultAlgorithm)
    ensures var s' := StoreSecret(c, w.s, name, plaintext, kind, description, sid, nonce, env).0;
      Inv(c, World(s', if name !in w.s.store
          && name in s'.store then w.h.(written := w.h.written[name := plaintext]) else w.h))
  {
    hide LeasesOk, LiveOk, CascadeOk, RenewalsOk, AgentCapOk, SessionCapOk, Readable, OriginsOk, SessionsOk;
    var s' := StoreSecret(c, w.s, name, plaintext, kind, description, sid, nonce, env).0;
    if name !in w.s.store && name in s'.store {
      DecryptEncrypt(c.cipher, c.cipher.defaultAlgorithm, plaintext, w.s.persisted, nonce);
      StoredParts(c.cipher, w.s.leases, w.h.origin, w.s.store, w.s.persisted, w.h.written, name, s'.store[name],
                  plaintext);
      StoreInv(c, w, s'.store, w.s.persisted, w.s.dek, w.h.written[name := plaintext], s'.audit);
    }
  }

  lemma DeletedParts(c: Cipher, leases: LeaseMap, origin: map<LeaseId, Origin>, t: Table, key: Key,
                     written: map<SecretName, Bytes>, name: SecretName)
    requires Readable(c, t, key, written)
    requires LiveOk(RevokeWhere(leases, BySecret(name)), origin, t, written)
    ensures Readable(c, t - {name}, key, written - {name})
    ensures LiveOk(RevokeWhere(leases, BySecret(name)), origin, t - {name}, written - {name})
  {
  }

  lemma DeleteInv(c: Config, w: World, name: SecretName, env: Env)
    requires Inv(c, w)
    ensures var s' := DeleteSecret(w.s, name, env).0;
      Inv(c, World(s', if name !in s'.store then w.h.(written := w.h.written - {name}) else w.h))
  {
    hide LeasesOk, LiveOk, CascadeOk, RenewalsOk, AgentCapOk, SessionCapOk, Readable, OriginsOk, SessionsOk,
      RevokeWhere, RevocationEntries;
    var s1 := BulkRevoke(w.s, BySecret(name), env.lost);
    var s' := DeleteSecret(w.s, name, env).0;
    BulkRevokeInv(c, w, BySecret(name), env.lost);
    if name in w.s.store && name !in s'.store {
      DeletedParts(c.cipher, w.s.leases, w.h.origin, w.s.store, w.s.persisted, w.h.written, name);
      StoreInv(c, World(s1, w.h), s'.store, w.s.persisted, w.s.dek, w.h.written - {name}, s'.audit);
    } else if name !in s'.store {
      WrittenKeys(c.cipher, w.s.store, w.s.persisted, w.h.written, name);
    }
  }

  lemma WrittenKeys(c: Cipher, t: Table, key: Key, written: map<SecretName, Bytes>, name: SecretName)
    requires Readable(c, t, key, written) && name !in t
    ensures written - {name} == written
  {
  }

  /** Re-encryption refines the identity on plaintexts, row by row, and leaves everything else but the version alone. */
  lemma ReSealAllEffect(c: Cipher, t: Table, oldKey: Key, newKey: Key, nonces: SecretName -> Bytes, now: Time)
    requires LawfulCipher(c) && forall n :: |nonces(n)| == NonceLength(c.defaultAlgorithm)
    requires CanReSealAll(c, t, oldKey, newKey, nonces)
    ensures var t' := ReSealAll(c, t, oldKey, newKey, nonces, now);
      && t'.Keys == t.Keys
      && forall n | n in t ::
           && Decrypt(c, t'[n].sealed, newKey) == Decrypt(c, t[n].sealed, oldKey)
           && Decrypt(c, t'[n].sealed, newKey).Ok?
           && t'[n].version == t[n].version + 1
           && t'[n].id == t[n].id && t'[n].kind == t[n].kind && t'[n].description == t[n].description
           && t'[n].createdAt == t[n].createdAt
  {
    forall n | n in t
      ensures var r := ReSeal(c, t[n], oldKey, newKey, nonces(n), now);
        r.Ok? && Decrypt(c, r.value.sealed, newKey) == Decrypt(c, t[n].sealed, oldKey)
    {
      assert ReSeal(c, t[n], oldKey, newKey, nonces(n), 0).Ok?;
      var p := Decrypt(c, t[n].sealed, oldKey).value;
      DecryptEncrypt(c, c.defaultAlgorithm, p, newKey, nonces(n));
    }
  }

  lemma RotatedLive(leases: LeaseMap, origin: map<LeaseId, Origin>, t: Table, t': Table, written: map<SecretName,
                    Bytes>)
    requires LiveOk(leases, origin, t, written)
    requires t'.Keys == t.Keys && forall n | n in t :: t'[n].id == t[n].id
    ensures LiveOk(leases, origin, t', written)
  {
  }

  lemma RotateInv(c: Config, w: World, op: Op)
    requires Inv(c, w) && LawfulCipher(c.cipher) && op.OpRotate? && NoncesFit(c, op.nonces) && !Stranded(c, w.s, op)
    ensures Inv(c, w.(s := RotateDek(c, w.s, op.newKey, op.nonces, op.faults, op.env).0))
  {
    hide LeasesOk, LiveOk, CascadeOk, RenewalsOk, AgentCapOk, SessionCapOk, OriginsOk, SessionsOk, CanReSealAll,
      ReSealAll;
    var s' := RotateDek(c, w.s, op.newKey, op.nonces, op.faults, op.env).0;
    if s' != w.s {
      ReSealAllEffect(c.cipher, w.s.store, w.s.persisted, op.newKey, op.nonces, op.env.now);
      assert Readable(c.cipher, s'.store, op.newKey, w.h.written);
      hide Readable;
      RotatedLive(w.s.leases, w.h.origin, w.s.store, s'.store, w.h.written);
      StoreInv(c, w, s'.store, op.newKey, Some(op.newKey), w.h.written, s'.audit);
    }
  }

  /** A session with a fresh id has no leases yet. */
  lemma NewSessionParts(leases: LeaseMap, sessions: SessionMap, token: Token, session: Session,
                        ids: set<SessionId>, revoked: set<SessionId>)
    requires CascadeOk(leases, ids, revoked) && session.id !in ids && session.activeLeaseCount == 0
    requires SessionCapOk(leases, sessions) && RenewalsOk(leases, sessions)
    ensures SessionCapOk(leases, sessions[token := session]) && RenewalsOk(leases, sessions[token := session])
    ensures CascadeOk(leases, ids + {session.id}, revoked)
  {
    assert Where(leases, LiveIn(session.id)) == {};
    forall id | id in leases ensures RenewalsFit(leases[id], sessions[token := session]) {
      assert RenewalsFit(leases[id], sessions);
    }
  }

  lemma NewSessionOk(sessions: SessionMap, token: Token, session: Session, ids: set<SessionId>, revoked: set<SessionId>)
    requires SessionsOk(sessions, ids, revoked) && session.id !in ids && !session.revoked
    ensures SessionsOk(sessions[token := session], ids + {session.id}, revoked)
  {
  }

  lemma CreateSessionInv(c: Config, w: World, user: string, channel: string, policy: SessionPolicy, token: Token,
                         sid: SessionId, env: Env)
    requires Inv(c, w) && sid !in w.h.sessionIds
    ensures Inv(c, World(CreateSession(w.s, user, channel, policy, token, sid, env).0,
                         w.h.(sessionIds := w.h.sessionIds + {sid})))
  {
    hide LeasesOk, LiveOk, CascadeOk, RenewalsOk, AgentCapOk, SessionCapOk, Readable, OriginsOk, SessionsOk;
    var session := NewSession(sid, user, channel, policy, env.now);
    NewSessionParts(w.s.leases, w.s.sessions, token, session, w.h.sessionIds, w.h.revokedSessions);
    NewSessionOk(w.s.sessions, token, session, w.h.sessionIds, w.h.revokedSessions);
  }

  lemma CascadeLeases(leases: LeaseMap, sid: SessionId, ids: set<SessionId>, revoked: set<SessionId>)
    requires CascadeOk(leases, ids, revoked)
    ensures CascadeOk(RevokeWhere(leases, BySession(sid)), ids, revoked + {sid})
  {
  }

  lemma RevokedSessionOk(sessions: SessionMap, token: Token, ids: set<SessionId>, revoked: set<SessionId>)
    requires SessionsOk(sessions, ids, revoked) && token in sessions
    ensures SessionsOk(sessions[token := RevokeSessionRecord(sessions[token])], ids, revoked + {sessions[token].id})
  {
  }

  lemma RevokeSessionInv(c: Config, w: World, token: Token, env: Env)
    requires Inv(c, w) && token in w.s.sessions
    ensures Inv(c, World(RevokeSession(w.s, token, env).0,
                         w.h.(revokedSessions := w.h.revokedSessions + {w.s.sessions[token].id})))
  {
    hide LeasesOk, LiveOk, CascadeOk, RenewalsOk, AgentCapOk, SessionCapOk, Readable, OriginsOk, SessionsOk,
      RevokeWhere, RevocationEntries;
    var sid := w.s.sessions[token].id;
    var sessions := w.s.sessions[token := RevokeSessionRecord(w.s.sessions[token])];
    BulkRevokeInv(c, w, BySession(sid), env.lost);
    CascadeLeases(w.s.leases, sid, w.h.sessionIds, w.h.revokedSessions);
    RevokedSessionOk(w.s.sessions, token, w.h.sessionIds, w.h.revokedSessions);
    SameRecordsOk(RevokeWhere(w.s.leases, BySession(sid)), w.s.sessions, sessions, token);
  }

  /** Marking a session revoked touches neither its counter nor its renewal limit. */
  lemma SameRecordsOk(leases: LeaseMap, before: SessionMap, after: SessionMap, token: Token)
    requires token in before && after == before[token := RevokeSessionRecord(before[token])]
    requires SessionCapOk(leases, before) && RenewalsOk(leases, before)
    ensures SessionCapOk(leases, after) && RenewalsOk(leases, after)
  {
    forall t | t in after ensures CounterOk(leases, after[t]) {
      assert CounterOk(leases, before[t]);
    }
    forall id | id in leases ensures RenewalsFit(leases[id], after) {
      assert RenewalsFit(leases[id], before);
    }
  }

  lemma GcSessionsInv(c: Config, w: World, now: Time)
    requires Inv(c, w)
    ensures Inv(c, w.(s := GcSessions(w.s, now)))
  {
    var sessions := GcSessions(w.s, now).sessions;
    hide LeasesOk, LiveOk, AgentCapOk, OriginsOk, Readable, CascadeOk, CounterOk;
    assert SessionsOk(sessions, w.h.sessionIds, w.h.revokedSessions) && SessionCapOk(w.s.leases, sessions);
    assert RenewalsOk(w.s.leases, sessions) by {
      forall id | id in w.s.leases ensures RenewalsFit(w.s.leases[id], sessions) {
        assert RenewalsFit(w.s.leases[id], w.s.sessions);
      }
    }
    hide SessionsOk, SessionCapOk, RenewalsOk;
  }

  lemma InitializeInv(c: Config, w: World)
    requires Inv(c, w)
    ensures Inv(c, w.(s := Initialize(w.s)))
  {
    hide LeasesOk, LiveOk, CascadeOk, RenewalsOk, AgentCapOk, SessionCapOk, Readable, OriginsOk, SessionsOk;
  }

  /** Only the audit log differs. */
  lemma AuditInv(c: Config, w: World, audit: multiset<AuditEntry>)
    requires Inv(c, w)
    ensures Inv(c, w.(s := w.s.(audit := audit)))
  {
    hide LeasesOk, LiveOk, CascadeOk, RenewalsOk, AgentCapOk, SessionCapOk, Readable, OriginsOk, SessionsOk;
  }

  lemma RequestStepInv(c: Config, w: World, op: Op)
    requires Inv(c, w) && op.OpRequest? && Admissible(c, w, op)
    ensures Inv(c, Step(c, w, op))
  {
    hide Inv, ActiveCount, FirstMatch;
    var (s', r) := RequestLease(c, w.s, op.agent, op.name, op.domain, op.id, op.env);
    if r.Ok? {
      RequestInv(c, w, op.agent, op.name, op.domain, op.id, op.env, None);
    } else {
      AuditInv(c, w, s'.audit);
    }
  }

  lemma RequestScopedStepInv(c: Config, w: World, op: Op)
    requires Inv(c, w) && op.OpRequestScoped? && Admissible(c, w, op)
    ensures Inv(c, Step(c, w, op))
  {
    hide Inv, ActiveCount, FirstMatch, ToolAllowed;
    var (s', r) := RequestLeaseScoped(c, w.s, op.agent, op.name, op.domain, op.token, op.tool, op.id, op.env);
    if r.Ok? {
      RequestScopedInv(c, w, op.agent, op.name, op.domain, op.token, op.tool, op.id, op.env);
    } else {
      AuditInv(c, w, s'.audit);
    }
  }

  /** Every admissible operation keeps the invariant. */
  lemma StepInv(c: Config, w: World, op: Op)
    requires LawfulCipher(c.cipher) && Inv(c, w) && Admissible(c, w, op)
    ensures Inv(c, Step(c, w, op))
  {
    hide Inv, LawfulCipher, RequestLease, RequestLeaseScoped, AccessSecret, RenewLease, RevokeLease, StoreSecret,
      DeleteSecret,
      RotateDek, CreateSession, GcLeases, GcSessions, BulkRevoke;
    match op
    case OpInitialize => InitializeInv(c, w);
    case OpRequest(agent, name, domain, id, env) => RequestStepInv(c, w, op);
    case OpAccess(id, target, env) => AccessInv(c, w, id, target, env);
    case OpRevoke(id, reason, env) => RevokeInv(c, w, id, reason, env);
    case OpRevokeAll(agent, env) => BulkRevokeInv(c, w, ByAgent(agent), env.lost);
    case OpRenew(id, extensionSecs, env) => RenewInv(c, w, id, extensionSecs, env);
    case OpGcLeases(now) => GcLeasesInv(c, w, now);
    case OpStore(name, plaintext, kind, description, sid, nonce, env) =>
      StoreSecretInv(c, w, name, plaintext, kind, description, sid, nonce, env);
    case OpDelete(name, env) => DeleteInv(c, w, name, env);
    case OpRotate(newKey, nonces, faults, env) => RotateInv(c, w, op);
    case OpCreateSession(user, channel, policy, token, sid, env) =>
      CreateSessionInv(c, w, user, channel, policy, token, sid, env);
    case OpRevokeSession(token, env) =>
      if token in w.s.sessions {
        RevokeSessionInv(c, w, token, env);
      }
    case OpRequestScoped(agent, name, domain, token, tool, id, env) => RequestScopedStepInv(c, w, op);
    case OpGcSessions(now) => GcSessionsInv(c, w, now);
  }
}
