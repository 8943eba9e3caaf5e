/**
 * Concurrent vault calls, interleaved at every lock scope.
 *
 * A call is a process whose next lock scope is its program counter; each scope is one atomic
 * step, and between scopes any other call may run.  Whether the secret is found and decrypts,
 * whether the audit log accepts an entry, the clock and fresh identifiers are chosen by the
 * environment at each step, so what is proved holds whatever the store and the log do.
 */
module Interleaving {
  import opened Types
  import opened Counting
  import opened Identity
  import opened Policy
  import opened Leases
  import opened Sessions
  import opened VaultModel

  type LeaseMap = map<LeaseId, Lease>
  type SessionMap = map<Token, Session>

  /** A scoped request that passed its session check: when, under which session policy and for which tool. */
  datatype Link = Link(token: Token, session: SessionId, passedAt: nat, policy: SessionPolicy, tool: string)

  /**
   * When a lease was linked, when its request passed the session check, how often the lease had
   * been renewed by then, and what the request had passed with.
   */
  datatype Linking = Linking(at: nat, passedAt: nat, renewals: nat, policy: SessionPolicy, tool: string)

  /** What a call does next. */
  datatype Proc =
    // request_lease_scoped before its session check
    | ScopedStart(agent: AgentId, name: SecretName, domain: DomainScope, token: Token, tool: string)
    // request_lease: policy check, cap check, secret lookup, audit, insertion
    | ReqPolicy(agent: AgentId, name: SecretName, domain: DomainScope, link: Option<Link>)
    | ReqCap(agent: AgentId, name: SecretName, domain: DomainScope, link: Option<Link>, terms: LeaseTerms)
    | ReqLookup(agent: AgentId, name: SecretName, domain: DomainScope, link: Option<Link>, terms: LeaseTerms)
    | ReqAudit(lease: Lease, link: Option<Link>)
    | ReqInsert(lease: Lease, link: Option<Link>)
    // the rest of request_lease_scoped
    | ReqLink(id: LeaseId, pass: Link)
    | ReqCount(pass: Link)
    // access_secret: validate and count, fetch and decrypt, audit
    | AccUse(id: LeaseId, target: string)
    | AccFetch(id: LeaseId, agent: AgentId, name: SecretName, target: string)
    | AccAudit(id: LeaseId, agent: AgentId, name: SecretName, target: string)
    // the other calls, each with the one lock scope that matters, then a final audit entry
    | RevFlip(id: LeaseId, reason: RevocationReason)
    | RenewFlip(id: LeaseId, extensionSecs: int)
    | BulkFlip(sel: Selector)
    | SessMark(token: Token)
    | SessCascade(session: SessionId)
    | SessCreate(user: string, channel: string, policy: SessionPolicy)
    | CollectLeases
    | CollectSessions
    | Logging(entry: AuditEntry)

  /**
   * The environment's choices for one step.  `order` lists the leases whose entries a bulk
   * revocation gets recorded, in the order it visits them; the other entries are lost.
   */
  datatype Choice = Choice(
    now: Time,
    ok: bool,
    newId: LeaseId,
    newToken: Token,
    newSession: SessionId,
    order: seq<LeaseId>)

  /** The shared state, the calls in flight, and a history of what has happened. */
  datatype Sys = Sys(
    leases: LeaseMap,
    sessions: SessionMap,
    audit: seq<AuditEntry>,
    guards: seq<LeaseId>,                    // guards handed out, by lease
    procs: map<nat, Proc>,
    steps: nat,
    issued: LeaseMap,                        // every lease record made, as made
    gone: LeaseMap,                          // collected leases, as last seen
    tokens: set<Token>,                      // every session token ever given out
    sessionIds: set<SessionId>,
    markedAt: map<SessionId, nat>,           // first revocation mark of a session
    cascadedAt: map<SessionId, nat>,         // last completed cascade of a session
    linkedAt: map<LeaseId, Linking>)

  const Empty: Sys := Sys(map[], map[], [], [], map[], 0, map[], map[], {}, {}, map[], map[], map[])

  datatype Label = Spawn(pid: nat, proc: Proc) | Go(pid: nat, ch: Choice)

  /** A call starts at its first scope. */
  predicate Initial(p: Proc) {
    match p
    case ScopedStart(_, _, _, _, _) => true
    case ReqPolicy(_, _, _, link) => link.None?
    case AccUse(_, _) => true
    case RevFlip(_, _) => true
    case RenewFlip(_, _) => true
    case BulkFlip(sel) => !sel.BySession?
    case SessMark(_) => true
    case SessCreate(_, _, _) => true
    case CollectLeases => true
    case CollectSessions => true
    case _ => false
  }

  /** Fresh identifiers are fresh. */
  predicate Enabled(s: Sys, a: Label) {
    match a
    case Spawn(pid, p) => pid !in s.procs && Initial(p)
    case Go(pid, ch) =>
      && pid in s.procs
      && (s.procs[pid].ReqLookup? ==> ch.newId !in s.issued)
      && (s.procs[pid].SessCreate? ==> ch.newToken !in s.tokens && ch.newSession !in s.sessionIds)
      && (s.procs[pid].BulkFlip? ==> Visits(s.leases, s.procs[pid].sel, ch.order))
      && (s.procs[pid].SessCascade? ==> Visits(s.leases, BySession(s.procs[pid].session), ch.order))
  }

  /** Some of the leases a bulk revocation flips, each once. */
  predicate Visits(leases: LeaseMap, sel: Selector, order: seq<LeaseId>) {
    && (forall i | 0 <= i < |order| :: order[i] in Flipped(leases, sel))
    && (forall i, j | 0 <= i < j < |order| :: order[i] != order[j])
  }

  function Entries(leases: LeaseMap, sel: Selector, order: seq<LeaseId>): seq<AuditEntry> {
    if order == [] || !Visits(leases, sel, order) then []
    else
      var init, id := order[..|order| - 1], order[|order| - 1];
      Entries(leases, sel, init) + [AuditEntry(leases[id].agent, LeaseRevocation(id, sel.Reason()))]
  }

  // ---- One step, component by component ----

  ghost function Renewable(s: Sys, id: LeaseId, extensionSecs: int, now: Time): Result<Lease> {
    RenewedLease(State(s.leases, s.sessions, map[], None, [], multiset{}), id, extensionSecs, now)
  }

  ghost function LeasesAfter(s: Sys, p: Proc, ch: Choice): LeaseMap {
    match p
    case ReqInsert(l, _) => s.leases[l.id := l]
    case ReqLink(id, pass) =>
      if id in s.leases then s.leases[id := s.leases[id].(sessionId := Some(pass.session))] else s.leases
    case AccUse(id, target) =>
      (match UseLease(s.leases, id, target, ch.now) case Ok(l) => s.leases[id := l] case Err(_) => s.leases)
    case RevFlip(id, _) => if id in s.leases then s.leases[id := Revoke(s.leases[id])] else s.leases
    case RenewFlip(id, ext) =>
      (match Renewable(s, id, ext, ch.now) case Ok(l) => s.leases[id := l] case Err(_) => s.leases)
    case BulkFlip(sel) => RevokeWhere(s.leases, sel)
    case SessCascade(sid) => RevokeWhere(s.leases, BySession(sid))
    case CollectLeases => map id | id in s.leases && Kept(s.leases[id], ch.now) :: s.leases[id]
    case _ => s.leases
  }

  function SessionsAfter(s: Sys, p: Proc, ch: Choice): SessionMap {
    match p
    case ReqCount(pass) =>
      if pass.token in s.sessions then
        var session := s.sessions[pass.token];
        s.sessions[pass.token := session.(activeLeaseCount := session.activeLeaseCount + 1)]
      else s.sessions
    case SessMark(token) =>
      if token in s.sessions then s.sessions[token := RevokeSessionRecord(s.sessions[token])] else s.sessions
    case SessCreate(user, channel, policy) =>
      s.sessions[ch.newToken := NewSession(ch.newSession, user, channel, policy, ch.now)]
    case CollectSessions => map t | t in s.sessions && Active(s.sessions[t], ch.now) :: s.sessions[t]
    case _ => s.sessions
  }

  /** Where the call goes next, or nowhere if it returns. */
  ghost function ProcAfter(c: Config, s: Sys, p: Proc, ch: Choice): Option<Proc> {
    match p
    case ScopedStart(agent, name, domain, token, tool) =>
      (match SessionCheck(s.sessions, token, tool, name, domain, ch.now)
       case Ok(sid) =>
         Some(ReqPolicy(agent, name, domain, Some(Link(token, sid, s.steps, s.sessions[token].policy, tool))))
       case Err(_) => None)
    case ReqPolicy(agent, name, domain, link) =>
      (match Evaluate(c.policy, agent, name, domain)
       case Ok(terms) => Some(ReqCap(agent, name, domain, link, terms))
       case Err(_) => None)
    case ReqCap(agent, name, domain, link, terms) =>
      if ActiveCount(s.leases, agent) >= c.maxLeasesPerAgent then None
      else Some(ReqLookup(agent, name, domain, link, terms))
    case ReqLookup(agent, name, domain, link, terms) =>
      if ch.ok then Some(ReqAudit(NewLease(ch.newId, agent, name, [domain], terms, ch.now), link)) else None
    case ReqAudit(l, link) => if ch.ok then Some(ReqInsert(l, link)) else None
    case ReqInsert(l, link) => (match link case Some(pass) => Some(ReqLink(l.id, pass)) case None => None)
    case ReqLink(_, pass) => Some(ReqCount(pass))
    case ReqCount(_) => None
    case AccUse(id, target) =>
      (match UseLease(s.leases, id, target, ch.now)
       case Ok(l) => Some(AccFetch(id, l.agent, l.secretName, target))
       case Err(_) => None)
    case AccFetch(id, agent, name, target) => if ch.ok then Some(AccAudit(id, agent, name, target)) else None
    case AccAudit(_, _, _, _) => None
    case RevFlip(id, reason) =>
      if id in s.leases then Some(Logging(AuditEntry(s.leases[id].agent, LeaseRevocation(id, reason)))) else None
    case RenewFlip(id, ext) =>
      (match Renewable(s, id, ext, ch.now)
       case Ok(l) => Some(Logging(AuditEntry(l.agent, LeaseRenewed(id, ext))))
       case Err(_) => None)
    case BulkFlip(sel) =>
      (match sel case BySecret(name) => Some(Logging(AuditEntry("admin", SecretDeleted(name)))) case _ => None)
    case SessMark(token) => if token in s.sessions then Some(SessCascade(s.sessions[token].id)) else None
    case SessCascade(sid) =>
      Some(Logging(AuditEntry("session", SessionRevocationDone(sid, |Flipped(s.leases, BySession(sid))|))))
    case SessCreate(user, channel, policy) =>
      Some(Logging(AuditEntry(user, SessionCreated(ch.newSession, user, channel, NumSeconds(policy.maxDuration)))))
    case CollectLeases => None
    case CollectSessions => None
    case Logging(_) => None
  }

  /** The entries this step records. */
  function LogOf(c: Config, s: Sys, p: Proc, ch: Choice): seq<AuditEntry> {
    if p.BulkFlip? then Entries(s.leases, p.sel, ch.order)
    else if p.SessCascade? then Entries(s.leases, BySession(p.session), ch.order)
    else if !ch.ok then []
    else match p
      case ScopedStart(agent, name, domain, token, tool) =>
        if SessionCheck(s.sessions, token, tool, name, domain, ch.now) == Err(AccessDenied(tool, name, domain))
           && token in s.sessions
        then [AuditEntry(agent, ToolBindingDenied(s.sessions[token].id, tool, name))] else []
      case ReqPolicy(agent, name, domain, _) =>
        if Evaluate(c.policy, agent, name, domain).Err? then [AuditEntry(agent, AccessDenial(name, domain))] else []
      case ReqAudit(l, _) => [GrantEntry(l)]
      case AccAudit(id, agent, name, target) => [AuditEntry(agent, SecretAccessed(id, name, target))]
      case Logging(e) => [e]
      case _ => []
  }

  function GrantEntry(l: Lease): AuditEntry {
    AuditEntry(l.agent, LeaseGranted(l.id, l.secretName, l.allowedDomains, NumSeconds(l.expiresAt - l.issuedAt)))
  }

  /** Guards are handed out after the access was recorded. */
  function GuardsOf(p: Proc, ch: Choice): seq<LeaseId> {
    if ch.ok && p.AccAudit? then [p.id] else []
  }

  function IssuedAfter(s: Sys, p: Proc, ch: Choice): LeaseMap {
    match p
    case ReqLookup(agent, name, domain, _, terms) =>
      if ch.ok then s.issued[ch.newId := NewLease(ch.newId, agent, name, [domain], terms, ch.now)] else s.issued
    case _ => s.issued
  }

  function GoneAfter(s: Sys, p: Proc, ch: Choice): LeaseMap {
    if p.CollectLeases? then s.gone + map id | id in s.leases && !Kept(s.leases[id], ch.now) :: s.leases[id] else s.gone
  }

  function MarkedAfter(s: Sys, p: Proc): map<SessionId, nat> {
    if p.SessMark? && p.token in s.sessions && s.sessions[p.token].id !in s.markedAt
    then s.markedAt[s.sessions[p.token].id := s.steps] else s.markedAt
  }

  function CascadedAfter(s: Sys, p: Proc): map<SessionId, nat> {
    if p.SessCascade? then s.cascadedAt[p.session := s.steps] else s.cascadedAt
  }

  function LinkedAfter(s: Sys, p: Proc): map<LeaseId, Linking> {
    if p.ReqLink? && p.id in s.leases
    then s.linkedAt[p.id := Linking(s.steps, p.pass.passedAt, s.leases[p.id].renewalCount, p.pass.policy, p.pass.tool)]
    else s.linkedAt
  }

  ghost function ProcsAfter(c: Config, s: Sys, pid: nat, ch: Choice): map<nat, Proc>
    requires pid in s.procs
  {
    match ProcAfter(c, s, s.procs[pid], ch)
    case Some(q) => s.procs[pid := q]
    case None => s.procs - {pid}
  }

  ghost function Next(c: Config, s: Sys, a: Label): Sys
    requires Enabled(s, a)
  {
    match a
    case Spawn(pid, p) => s.(procs := s.procs[pid := p], steps := s.steps + 1)
    case Go(pid, ch) =>
      var p := s.procs[pid];
      Sys(LeasesAfter(s, p, ch), SessionsAfter(s, p, ch), s.audit + LogOf(c, s, p, ch), s.guards + GuardsOf(p, ch),
          ProcsAfter(c, s, pid, ch), s.steps + 1,
          IssuedAfter(s, p, ch), GoneAfter(s, p, ch),
          if p.SessCreate? then s.tokens + {ch.newToken} else s.tokens,
          if p.SessCreate? then s.sessionIds + {ch.newSession} else s.sessionIds,
          MarkedAfter(s, p), CascadedAfter(s, p), LinkedAfter(s, p))
  }

  ghost predicate Possible(c: Config, s: Sys, run: seq<Label>)
    decreases |run|, 0
  {
    run == [] ||
    (Possible(c, s, run[..|run| - 1]) && Enabled(After(c, s, run[..|run| - 1]), run[|run| - 1]))
  }

  ghost function After(c: Config, s: Sys, run: seq<Label>): Sys
    requires Possible(c, s, run)
    decreases |run|, 1
  {
    if run == [] then s else Next(c, After(c, s, run[..|run| - 1]), run[|run| - 1])
  }

  // ---- The agent cap ----

  /** A request of the agent between its cap check and the insertion of its lease. */
  function Past(agent: AgentId): Proc -> bool {
    (p: Proc) => match p
      case ReqLookup(a, _, _, _, _) => a == agent
      case ReqAudit(l, _) => l.agent == agent
      case ReqInsert(l, _) => l.agent == agent
      case _ => false
  }

  /** A request of the agent whose lease is not inserted yet. */
  function Requesting(agent: AgentId): Proc -> bool {
    (p: Proc) => match p
      case ScopedStart(a, _, _, _, _) => a == agent
      case ReqPolicy(a, _, _, _) => a == agent
      case ReqCap(a, _, _, _, _) => a == agent
      case _ => Past(agent)(p)
  }

  /** Unrevoked leases of the agent, and requests that will add one. */
  ghost function Load(s: Sys, agent: AgentId): nat {
    ActiveCount(s.leases, agent) + Count(s.procs, Past(agent))
  }

  /** At no point of the run are more than `n` calls in flight that satisfy `p`. */
  ghost predicate AtMost(c: Config, s: Sys, run: seq<Label>, p: Proc -> bool, n: nat)
    requires Possible(c, s, run)
    decreases |run|
  {
    && Count(After(c, s, run).procs, p) <= n
    && (run != [] ==> AtMost(c, s, run[..|run| - 1], p, n))
  }

  lemma RemoveCount(procs: map<nat, Proc>, pid: nat, p: Proc -> bool)
    requires pid in procs
    ensures Count(procs - {pid}, p) == Count(procs, p) - Bit(p(procs[pid]))
  {
    CardWithout(Where(procs, p), pid);
    assert Where(procs - {pid}, p) == Where(procs, p) - {pid};
  }

  function CountOf(q: Option<Proc>, p: Proc -> bool): nat {
    if q.Some? then Bit(p(q.value)) else 0
  }

  /** One process moves: every count moves by what that process contributes. */
  lemma ProcCount(c: Config, s: Sys, pid: nat, ch: Choice, p: Proc -> bool)
    requires pid in s.procs
    ensures Count(ProcsAfter(c, s, pid, ch), p)
         == Count(s.procs, p) - Bit(p(s.procs[pid])) + CountOf(ProcAfter(c, s, s.procs[pid], ch), p)
  {
    hide ProcAfter, Count;
    match ProcAfter(c, s, s.procs[pid], ch)
    case Some(q) => CountUpdate(s.procs, pid, q, p);
    case None => RemoveCount(s.procs, pid, p);
  }

  lemma ActiveOnlyBefore(s: Sys, p: Proc, ch: Choice, agent: AgentId)
    requires !p.ReqInsert?
    ensures forall id | id in LeasesAfter(s, p, ch) && ActiveFor(agent)(LeasesAfter(s, p, ch)[id]) ::
      id in s.leases && ActiveFor(agent)(s.leases[id])
  {
    hide Refusal, RenewalCapped, Kept;
  }

  /** Leases other than freshly inserted ones do not become active. */
  lemma ActiveAfter(s: Sys, p: Proc, ch: Choice, agent: AgentId)
    ensures ActiveCount(LeasesAfter(s, p, ch), agent)
         <= ActiveCount(s.leases, agent) + Bit(p.ReqInsert? && ActiveFor(agent)(p.lease))
  {
    if p.ReqInsert? {
      CountUpdate(s.leases, p.lease.id, p.lease, ActiveFor(agent));
    } else {
      ActiveOnlyBefore(s, p, ch, agent);
      hide LeasesAfter, Where;
      CountMonotone(LeasesAfter(s, p, ch), s.leases, ActiveFor(agent));
    }
  }

  /** Only a passed cap check adds to the requests past it; an insertion takes one off. */
  lemma PastFlow(c: Config, s: Sys, p: Proc, ch: Choice, agent: AgentId)
    ensures var q := ProcAfter(c, s, p, ch);
      if p.ReqCap? && q.Some? then
        Bit(Past(agent)(p)) == 0 && (CountOf(q, Past(agent)) > 0 ==> ActiveCount(s.leases, agent) < c.maxLeasesPerAgent)
      else
        CountOf(q, Past(agent)) + Bit(p.ReqInsert? && ActiveFor(agent)(p.lease)) <= Bit(Past(agent)(p))
  {
    hide ActiveCount, FirstMatch, SessionCheck, UseLease, Renewable;
  }

  lemma CapStep(c: Config, s: Sys, a: Label, agent: AgentId, n: nat)
    requires Enabled(s, a) && Load(s, agent) < c.maxLeasesPerAgent + n
    requires Count(Next(c, s, a).procs, Requesting(agent)) <= n
    ensures Load(Next(c, s, a), agent) < c.maxLeasesPerAgent + n
  {
    var s' := Next(c, s, a);
    match a
    case Spawn(pid, p) =>
      hide Requesting, ActiveCount, Count;
      CountUpdate(s.procs, pid, p, Past(agent));
    case Go(pid, ch) =>
      hide ProcAfter, LeasesAfter, ProcsAfter, ActiveCount, Past, Requesting, Count, SessionsAfter;
      var p := s.procs[pid];
      ActiveAfter(s, p, ch, agent);
      ProcCount(c, s, pid, ch, Past(agent));
      PastFlow(c, s, p, ch, agent);
      if p.ReqCap? {
        assert LeasesAfter(s, p, ch) == s.leases by {
          CapScopeReadsOnly(s, p, ch);
        }
        PastIsRequesting(s'.procs, agent);
      }
  }

  lemma CapScopeReadsOnly(s: Sys, p: Proc, ch: Choice)
    requires p.ReqCap?
    ensures LeasesAfter(s, p, ch) == s.leases
  {
  }

  lemma PastIsRequesting(procs: map<nat, Proc>, agent: AgentId)
    ensures Count(procs, Past(agent)) <= Count(procs, Requesting(agent))
  {
    CountImplies(procs, Past(agent), Requesting(agent));
  }

  /**
   * The cap under every interleaving: if an agent never has more than `n` requests in flight,
   * its unrevoked leases and the requests past their check never exceed the cap by more than
   * `n - 1`.  With one request at a time the cap is exact.
   */
  lemma {:induction false} AgentCap(c: Config, run: seq<Label>, agent: AgentId, n: nat)
    requires Possible(c, Empty, run) && n >= 1 && AtMost(c, Empty, run, Requesting(agent), n)
    ensures Load(After(c, Empty, run), agent) <= c.maxLeasesPerAgent - 1 + n
    decreases |run|
  {
    hide Next, Enabled;
    if run == [] {
      assert Where(Empty.leases, ActiveFor(agent)) == {} && Where(Empty.procs, Past(agent)) == {};
    } else {
      hide Load, Count;
      AgentCap(c, run[..|run| - 1], agent, n);
      CapStep(c, After(c, Empty, run[..|run| - 1]), run[|run| - 1], agent, n);
    }
  }
}
