/**
 * The lock-scoped steps and the atomic operations agree: a call whose scopes run without
 * interference leaves the leases, the sessions and the audit log that the operation leaves, and
 * answers what the operation answers.
 */
module Sequential {
  import opened Types
  import opened Identity
  import opened Policy
  import opened Leases
  import opened Sessions
  import opened VaultModel
  import opened Interleaving

  /** An upper bound on the scopes a call still has to run. */
  function Steps(p: Proc): nat {
    match p
    case ScopedStart(_, _, _, _, _) => 9
    case ReqPolicy(_, _, _, _) => 8
    case ReqCap(_, _, _, _, _) => 7
    case ReqLookup(_, _, _, _, _) => 6
    case ReqAudit(_, _) => 5
    case ReqInsert(_, _) => 4
    case ReqLink(_, _) => 3
    case ReqCount(_) => 2
    case AccUse(_, _) => 3
    case AccFetch(_, _, _, _) => 2
    case SessMark(_) => 3
    case SessCascade(_) => 2
    case AccAudit(_, _, _, _) => 1
    case Logging(_) => 1
    case _ => 2
  }

  lemma StepsDrop(c: Config, s: Sys, p: Proc, ch: Choice)
    ensures ProcAfter(c, s, p, ch).Some? ==> Steps(ProcAfter(c, s, p, ch).value) < Steps(p)
  {
    hide ActiveCount, FirstMatch, UseLease, Renewable, SessionCheck, Flipped;
  }

  /**
   * What a call takes from outside: the operation's environment, whether the secret it needs is
   * found and what it opens to, whether the call is closed off and its entry recorded, the error
   * if it is not found or not closed off, and fresh identifiers.
   */
  datatype Script = Script(
    env: Env,
    found: bool,
    value: Bytes,
    closed: bool,
    fault: Error,
    newId: LeaseId,
    newToken: Token,
    newSession: SessionId,
    order: seq<LeaseId>)

  /** The choices of the steps of such a call. */
  function Pick(sc: Script, p: Proc): Choice {
    var ok := if p.ReqLookup? || p.AccFetch? then sc.found else if p.Logging? then sc.closed else sc.env.auditOk;
    Choice(sc.env.now, ok, sc.newId, sc.newToken, sc.newSession, sc.order)
  }

  predicate Ready(s: Sys, pid: nat, sc: Script) {
    pid in s.procs && Enabled(s, Go(pid, Pick(sc, s.procs[pid])))
  }

  ghost function Step(c: Config, s: Sys, pid: nat, sc: Script): Sys
    requires Ready(s, pid, sc)
  {
    Next(c, s, Go(pid, Pick(sc, s.procs[pid])))
  }

  /** Process `pid` run on its own until it returns. */
  ghost function Finish(c: Config, s: Sys, pid: nat, sc: Script): Sys
    decreases if pid in s.procs then Steps(s.procs[pid]) else 0
  {
    if !Ready(s, pid, sc) then s
    else
      StepsDrop(c, s, s.procs[pid], Pick(sc, s.procs[pid]));
      Finish(c, Step(c, s, pid, sc), pid, sc)
  }

  // ---- Answers ----

  datatype Answer =
    | Granted(grant: LeaseGrant) | Handed(guard: Guard) | Flips(count: nat) | Opened(token: Token, session: SessionId)
    | Done | Failed(error: Error)

  function GrantAnswer(r: Result<LeaseGrant>): Answer {
    match r case Ok(grant) => Granted(grant) case Err(e) => Failed(e)
  }

  function GuardAnswer(r: Result<Guard>): Answer {
    match r case Ok(guard) => Handed(guard) case Err(e) => Failed(e)
  }

  function CountAnswer(r: Result<nat>): Answer {
    match r case Ok(n) => Flips(n) case Err(e) => Failed(e)
  }

  function DoneAnswer(r: Result<()>): Answer {
    match r case Ok(_) => Done case Err(e) => Failed(e)
  }

  function OpenedAnswer(r: Result<(Token, SessionId)>): Answer {
    match r case Ok((token, session)) => Opened(token, session) case Err(e) => Failed(e)
  }

  /** What a scope decides about the answer of its call, if it decides anything. */
  ghost function Says(c: Config, s: Sys, p: Proc, sc: Script): Option<Answer> {
    match p
    case ScopedStart(_, name, domain, token, tool) =>
      (match SessionCheck(s.sessions, token, tool, name, domain, sc.env.now)
       case Ok(_) => None
       case Err(e) => Some(Failed(e)))
    case ReqPolicy(agent, name, domain, _) =>
      (match Evaluate(c.policy, agent, name, domain)
       case Ok(_) => None
       case Err(e) => Some(Failed(if sc.env.auditOk then e else Storage)))
    case ReqCap(agent, _, _, _, _) =>
      if ActiveCount(s.leases, agent) >= c.maxLeasesPerAgent then Some(Failed(InvalidConfig)) else None
    case ReqLookup(_, _, _, _, _) => if sc.found then None else Some(Failed(sc.fault))
    case ReqAudit(_, _) => if sc.env.auditOk then None else Some(Failed(Storage))
    case ReqInsert(l, _) => Some(Granted(GrantOf(l)))
    case AccUse(id, target) =>
      (match UseLease(s.leases, id, target, sc.env.now) case Ok(_) => None case Err(e) => Some(Failed(e)))
    case AccFetch(id, _, _, _) => Some(if sc.found then Handed(Guard(id, sc.value)) else Failed(sc.fault))
    case AccAudit(_, _, _, _) => if sc.env.auditOk then None else Some(Failed(Storage))
    case RevFlip(id, _) => Some(if id in s.leases then Done else Failed(LeaseNotFound(id)))
    case RenewFlip(id, ext) =>
      (match Renewable(s, id, ext, sc.env.now) case Ok(l) => Some(Granted(GrantOf(l))) case Err(e) => Some(Failed(e)))
    case BulkFlip(sel) => Some(if sel.BySecret? then Done else Flips(|Flipped(s.leases, sel)|))
    case SessMark(token) => Some(if token in s.sessions then Done else Failed(SessionNotFound))
    case SessCreate(_, _, _) => Some(Opened(sc.newToken, sc.newSession))
    case Logging(_) => if sc.closed then None else Some(Failed(sc.fault))
    case _ => None
  }

  /** What the call answers in the end, `sofar` being decided before. */
  ghost function Reply(c: Config, s: Sys, pid: nat, sc: Script, sofar: Option<Answer>): Option<Answer>
    decreases if pid in s.procs then Steps(s.procs[pid]) else 0
  {
    if !Ready(s, pid, sc) then sofar
    else
      StepsDrop(c, s, s.procs[pid], Pick(sc, s.procs[pid]));
      Reply(c, Step(c, s, pid, sc), pid, sc, Later(Says(c, s, s.procs[pid], sc), sofar))
  }

  function Later(said: Option<Answer>, sofar: Option<Answer>): Option<Answer> {
    if said.Some? then said else sofar
  }

  /** Nothing but the audit log stands against closing the call off. */
  predicate Closes(sc: Script) {
    sc.closed == sc.env.auditOk && sc.fault == Storage
  }

  /** The part of the vault state that the steps act on; the rest is the operation's own. */
  ghost predicate Sees(s: Sys, t: State) {
    s.leases == t.leases && s.sessions == t.sessions && multiset(s.audit) == t.audit
  }

  /** The call has returned, leaving what the operation leaves. */
  ghost predicate Agrees(s: Sys, pid: nat, t: State) {
    pid !in s.procs && Sees(s, t)
  }

  lemma Returns(c: Config, s: Sys, pid: nat, sc: Script)
    requires pid !in s.procs
    ensures Finish(c, s, pid, sc) == s && forall sofar :: Reply(c, s, pid, sc, sofar) == sofar
  {
  }

  /** One scope after the other. */
  lemma Unfolds(c: Config, s: Sys, pid: nat, sc: Script, sofar: Option<Answer>)
    requires Ready(s, pid, sc)
    ensures Finish(c, s, pid, sc) == Finish(c, Step(c, s, pid, sc), pid, sc)
    ensures Reply(c, s, pid, sc, sofar)
         == Reply(c, Step(c, s, pid, sc), pid, sc, Later(Says(c, s, s.procs[pid], sc), sofar))
  {
    hide Next, Says;
  }

  lemma LoggedOne(log: seq<AuditEntry>, e: AuditEntry)
    ensures multiset(log + [e]) == multiset(log) + multiset{e} && log + [] == log
  {
  }

  /** The closing entry of a call. */
  lemma LogReturns(c: Config, s: Sys, pid: nat, sc: Script, sofar: Option<Answer>, t: State)
    requires pid in s.procs && s.procs[pid].Logging? && Sees(s, t)
    ensures Agrees(Finish(c, s, pid, sc), pid, Logged(t, s.procs[pid].entry, sc.closed))
    ensures Reply(c, s, pid, sc, sofar) == if sc.closed then sofar else Some(Failed(sc.fault))
  {
    LoggedOne(s.audit, s.procs[pid].entry);
    Returns(c, Step(c, s, pid, sc), pid, sc);
  }

  // ---- Requests ----

  lemma CountAlone(c: Config, s: Sys, pid: nat, sc: Script, sofar: Option<Answer>, pass: Link, t: State)
    requires pid in s.procs && s.procs[pid] == ReqCount(pass) && Sees(s, t)
    ensures Agrees(Finish(c, s, pid, sc), pid, Counted(t, pass.token)) && Reply(c, s, pid, sc, sofar) == sofar
  {
    assert s.audit + [] == s.audit;
    Returns(c, Step(c, s, pid, sc), pid, sc);
  }

  lemma LinkAlone(c: Config, s: Sys, pid: nat, sc: Script, sofar: Option<Answer>, id: LeaseId, pass: Link, t: State)
    requires pid in s.procs && s.procs[pid] == ReqLink(id, pass) && Sees(s, t)
    ensures Agrees(Finish(c, s, pid, sc), pid, Counted(Linked(t, id, pass.session), pass.token))
    ensures Reply(c, s, pid, sc, sofar) == sofar
  {
    assert s.audit + [] == s.audit;
    var s' := Step(c, s, pid, sc);
    assert Sees(s', Linked(t, id, pass.session));
    hide Next, LeasesAfter, SessionsAfter;
    CountAlone(c, s', pid, sc, sofar, pass, Linked(t, id, pass.session));
  }

  /** What follows the insertion: linking and counting if the request was scoped. */
  ghost function Closed(t: State, id: LeaseId, link: Option<Link>): State {
    match link case None => t case Some(pass) => Counted(Linked(t, id, pass.session), pass.token)
  }

  lemma InsertAlone(c: Config, s: Sys, pid: nat, sc: Script, sofar: Option<Answer>, l: Lease, link: Option<Link>,
                    t: State)
    requires pid in s.procs && s.procs[pid] == ReqInsert(l, link) && Sees(s, t)
    ensures Agrees(Finish(c, s, pid, sc), pid, Closed(t.(leases := t.leases[l.id := l]), l.id, link))
    ensures Reply(c, s, pid, sc, sofar) == Some(Granted(GrantOf(l)))
  {
    assert s.audit + [] == s.audit;
    var s', t' := Step(c, s, pid, sc), t.(leases := t.leases[l.id := l]);
    assert Sees(s', t');
    if link.Some? {
      hide Next, LeasesAfter, SessionsAfter, Linked, Counted;
      LinkAlone(c, s', pid, sc, Some(Granted(GrantOf(l))), l.id, link.value, t');
    } else {
      Returns(c, s', pid, sc);
    }
  }

  /** The grant of a lease: recorded, inserted, and closed off. */
  ghost function Grant(t: State, l: Lease, link: Option<Link>): State {
    Closed(Logged(t, GrantEntry(l), true).(leases := t.leases[l.id := l]), l.id, link)
  }

  lemma AuditAlone(c: Config, s: Sys, pid: nat, sc: Script, sofar: Option<Answer>, l: Lease, link: Option<Link>,
                   t: State)
    requires pid in s.procs && s.procs[pid] == ReqAudit(l, link) && Sees(s, t)
    ensures Agrees(Finish(c, s, pid, sc), pid, if sc.env.auditOk then Grant(t, l, link) else t)
    ensures Reply(c, s, pid, sc, sofar) == Some(if sc.env.auditOk then Granted(GrantOf(l)) else Failed(Storage))
  {
    hide GrantEntry;
    LoggedOne(s.audit, GrantEntry(l));
    var s' := Step(c, s, pid, sc);
    if sc.env.auditOk {
      var t' := Logged(t, GrantEntry(l), true);
      assert Sees(s', t') && s'.procs[pid] == ReqInsert(l, link);
      hide Next, LeasesAfter, SessionsAfter, Closed;
      InsertAlone(c, s', pid, sc, sofar, l, link, t');
    } else {
      Returns(c, s', pid, sc);
    }
  }

  /** The answer to a request that passed its cap check. */
  function LookupAnswer(sc: Script, l: Lease): Answer {
    if !sc.found then Failed(sc.fault) else if !sc.env.auditOk then Failed(Storage) else Granted(GrantOf(l))
  }

  lemma LookupAlone(c: Config, s: Sys, pid: nat, sc: Script, sofar: Option<Answer>, agent: AgentId, name: SecretName,
                    domain: DomainScope, link: Option<Link>, terms: LeaseTerms, t: State)
    requires pid in s.procs && s.procs[pid] == ReqLookup(agent, name, domain, link, terms)
    requires Sees(s, t) && sc.newId !in s.issued
    ensures var l := NewLease(sc.newId, agent, name, [domain], terms, sc.env.now);
      && Agrees(Finish(c, s, pid, sc), pid, if sc.found && sc.env.auditOk then Grant(t, l, link) else t)
      && Reply(c, s, pid, sc, sofar) == Some(LookupAnswer(sc, l))
  {
    assert s.audit + [] == s.audit;
    var s', l := Step(c, s, pid, sc), NewLease(sc.newId, agent, name, [domain], terms, sc.env.now);
    assert Sees(s', t);
    if sc.found {
      hide Next, LeasesAfter, SessionsAfter, Grant;
      AuditAlone(c, s', pid, sc, sofar, l, link, t);
    } else {
      Returns(c, s', pid, sc);
    }
  }

  /** The answer to a request that the policy grants. */
  function CapAnswer(c: Config, t: State, sc: Script, l: Lease): Answer {
    if ActiveCount(t.leases, l.agent) >= c.maxLeasesPerAgent then Failed(InvalidConfig) else LookupAnswer(sc, l)
  }

  lemma CapAlone(c: Config, s: Sys, pid: nat, sc: Script, sofar: Option<Answer>, agent: AgentId, name: SecretName,
                 domain: DomainScope, link: Option<Link>, terms: LeaseTerms, t: State)
    requires pid in s.procs && s.procs[pid] == ReqCap(agent, name, domain, link, terms)
    requires Sees(s, t) && sc.newId !in s.issued
    ensures var l := NewLease(sc.newId, agent, name, [domain], terms, sc.env.now);
      && Agrees(Finish(c, s, pid, sc), pid,
                if ActiveCount(t.leases, agent) < c.maxLeasesPerAgent && sc.found && sc.env.auditOk
                then Grant(t, l, link) else t)
      && Reply(c, s, pid, sc, sofar) == Some(CapAnswer(c, t, sc, l))
  {
    hide ActiveCount, LookupAnswer, Finish, Reply;
    Unfolds(c, s, pid, sc, sofar);
    assert s.audit + [] == s.audit;
    var s' := Step(c, s, pid, sc);
    assert Sees(s', t);
    if ActiveCount(t.leases, agent) < c.maxLeasesPerAgent {
      assert s'.procs[pid] == ReqLookup(agent, name, domain, link, terms) && s'.issued == s.issued;
      hide Next, LeasesAfter, SessionsAfter, Grant;
      LookupAlone(c, s', pid, sc, sofar, agent, name, domain, link, terms, t);
    } else {
      Returns(c, s', pid, sc);
    }
  }

  /** What a request leaves, in terms of its checks. */
  lemma RequestShape(c: Config, t: State, agent: AgentId, name: SecretName, domain: DomainScope, sc: Script)
    requires Finds(sc, name, t)
    ensures var id, env := sc.newId, sc.env; var (t', r) := RequestLease(c, t, agent, name, domain, id, env);
      var granted := Evaluate(c.policy, agent, name, domain);
      && GrantAnswer(r) == (match granted
           case Err(e) => Failed(if env.auditOk then e else Storage)
           case Ok(terms) => CapAnswer(c, t, sc, NewLease(id, agent, name, [domain], terms, env.now)))
      && (r.Ok? <==> granted.Ok? && ActiveCount(t.leases, agent) < c.maxLeasesPerAgent
                     && env.storeOk && name in t.store && env.auditOk)
      && t' == (if granted.Err? then Logged(t, AuditEntry(agent, AccessDenial(name, domain)), env.auditOk)
                else if r.Ok? then Grant(t, NewLease(id, agent, name, [domain], granted.value, env.now), None)
                else t)
  {
    hide Evaluate, ActiveCount;
  }

  /** The secret of a request is found if the store answers and has it. */
  predicate Finds(sc: Script, name: SecretName, t: State) {
    && (sc.found <==> sc.env.storeOk && name in t.store)
    && (!sc.found ==> sc.fault == if sc.env.storeOk then SecretNotFound(name) else Storage)
  }

  /** The policy scope itself. */
  lemma PolicyMoves(c: Config, s: Sys, pid: nat, sc: Script, agent: AgentId, name: SecretName, domain: DomainScope,
                    link: Option<Link>, t: State)
    requires pid in s.procs && s.procs[pid] == ReqPolicy(agent, name, domain, link) && Sees(s, t)
    ensures var s', e := Step(c, s, pid, sc), Evaluate(c.policy, agent, name, domain);
      match e
      case Ok(terms) =>
        && pid in s'.procs && s'.procs[pid] == ReqCap(agent, name, domain, link, terms) && s'.issued == s.issued
        && Sees(s', t)
      case Err(_) => Agrees(s', pid, Logged(t, AuditEntry(agent, AccessDenial(name, domain)), sc.env.auditOk))
  {
    hide Evaluate;
    LoggedOne(s.audit, AuditEntry(agent, AccessDenial(name, domain)));
  }

  lemma PolicyAlone(c: Config, s: Sys, pid: nat, sc: Script, sofar: Option<Answer>, agent: AgentId, name: SecretName,
                    domain: DomainScope, link: Option<Link>, t: State)
    requires pid in s.procs && s.procs[pid] == ReqPolicy(agent, name, domain, link)
    requires Sees(s, t) && sc.newId !in s.issued && Finds(sc, name, t)
    ensures var (t', r) := RequestLease(c, t, agent, name, domain, sc.newId, sc.env);
      && Agrees(Finish(c, s, pid, sc), pid, if r.Ok? then Closed(t', sc.newId, link) else t')
      && Reply(c, s, pid, sc, sofar) == Some(GrantAnswer(r))
  {
    hide Evaluate, ActiveCount, Closed, RequestLease, CapAnswer, GrantAnswer;
    RequestShape(c, t, agent, name, domain, sc);
    Unfolds(c, s, pid, sc, sofar);
    PolicyMoves(c, s, pid, sc, agent, name, domain, link, t);
    hide Finish, Reply, Step;
    var s', e := Step(c, s, pid, sc), Evaluate(c.policy, agent, name, domain);
    if e.Ok? {
      CapAlone(c, s', pid, sc, sofar, agent, name, domain, link, e.value, t);
      GrantCloses(t, NewLease(sc.newId, agent, name, [domain], e.value, sc.env.now), link);
    } else {
      Returns(c, s', pid, sc);
    }
  }

  lemma GrantCloses(t: State, l: Lease, link: Option<Link>)
    ensures Closed(Grant(t, l, None), l.id, link) == Grant(t, l, link)
  {
  }

  /** The answer to a request: granted exactly if the lease is there afterwards, and then describing it. */
  ghost predicate Describes(r: Result<LeaseGrant>, leases: LeaseMap, id: LeaseId) {
    (r.Ok? <==> id in leases) && (r.Ok? ==> r.value == GrantOf(leases[id]))
  }

  lemma RequestAnswer(c: Config, t: State, agent: AgentId, name: SecretName, domain: DomainScope, id: LeaseId, env: Env)
    requires id !in t.leases
    ensures var (t', r) := RequestLease(c, t, agent, name, domain, id, env); Describes(r, t'.leases, id)
  {
    hide Evaluate, ActiveCount;
  }

  lemma ScopedAnswer(c: Config, t: State, agent: AgentId, name: SecretName, domain: DomainScope, token: Token,
                     tool: string, id: LeaseId, env: Env)
    requires id !in t.leases
    ensures var (t', r) := RequestLeaseScoped(c, t, agent, name, domain, token, tool, id, env);
      Describes(r, t'.leases, id)
  {
    hide RequestLease, SessionCheck;
    RequestAnswer(c, t, agent, name, domain, id, env);
  }

  /** A request that runs alone leaves what the atomic request leaves, answers the same, and the answer describes it. */
  lemma RequestAlone(c: Config, s: Sys, pid: nat, sc: Script, agent: AgentId, name: SecretName, domain: DomainScope,
                     t: State)
    requires pid in s.procs && s.procs[pid] == ReqPolicy(agent, name, domain, None)
    requires Sees(s, t) && sc.newId !in s.issued && Finds(sc, name, t)
    ensures var (t', r) := RequestLease(c, t, agent, name, domain, sc.newId, sc.env); var s' := Finish(c, s, pid, sc);
      && Agrees(s', pid, t') && Reply(c, s, pid, sc, None) == Some(GrantAnswer(r))
      && (sc.newId !in s.leases ==> Describes(r, s'.leases, sc.newId))
  {
    hide RequestLease, Describes, Reply, GrantAnswer;
    PolicyAlone(c, s, pid, sc, None, agent, name, domain, None, t);
    if sc.newId !in t.leases {
      RequestAnswer(c, t, agent, name, domain, sc.newId, sc.env);
    }
  }

  /** A scoped request that fails its session check. */
  lemma RefusedAlone(c: Config, s: Sys, pid: nat, sc: Script, agent: AgentId, name: SecretName, domain: DomainScope,
                     token: Token, tool: string, t: State)
    requires pid in s.procs && s.procs[pid] == ScopedStart(agent, name, domain, token, tool) && Sees(s, t)
    requires SessionCheck(t.sessions, token, tool, name, domain, sc.env.now).Err?
    ensures var (t', r) := RequestLeaseScoped(c, t, agent, name, domain, token, tool, sc.newId, sc.env);
      Agrees(Finish(c, s, pid, sc), pid, t') && Reply(c, s, pid, sc, None) == Some(GrantAnswer(r))
  {
    Unfolds(c, s, pid, sc, None);
    RefusedMoves(c, s, pid, sc, agent, name, domain, token, tool, t);
    Returns(c, Step(c, s, pid, sc), pid, sc);
    hide RequestLease, SessionCheck, Finish, Reply, Step;
  }

  lemma RefusedMoves(c: Config, s: Sys, pid: nat, sc: Script, agent: AgentId, name: SecretName, domain: DomainScope,
                     token: Token, tool: string, t: State)
    requires pid in s.procs && s.procs[pid] == ScopedStart(agent, name, domain, token, tool) && Sees(s, t)
    requires SessionCheck(t.sessions, token, tool, name, domain, sc.env.now).Err?
    ensures Agrees(Step(c, s, pid, sc), pid,
                   RequestLeaseScoped(c, t, agent, name, domain, token, tool, sc.newId, sc.env).0)
  {
    CheckErrors(t.sessions, token, tool, name, domain, sc.env.now);
    hide RequestLease, SessionCheck, Entries;
    var s' := Step(c, s, pid, sc);
    assert pid !in s'.procs && s'.leases == s.leases && s'.sessions == s.sessions by { hide LogOf; }
    hide ProcsAfter, ProcAfter, LeasesAfter, SessionsAfter;
    if token in s.sessions {
      LoggedOne(s.audit, AuditEntry(agent, ToolBindingDenied(s.sessions[token].id, tool, name)));
    }
    assert s.audit + [] == s.audit;
  }

  /** So does a scoped request, through all of its four lock scopes and those of the request inside. */
  lemma ScopedAlone(c: Config, s: Sys, pid: nat, sc: Script, agent: AgentId, name: SecretName, domain: DomainScope,
                    token: Token, tool: string, t: State)
    requires pid in s.procs && s.procs[pid] == ScopedStart(agent, name, domain, token, tool)
    requires Sees(s, t) && sc.newId !in s.issued && Finds(sc, name, t)
    ensures var (t', r) := RequestLeaseScoped(c, t, agent, name, domain, token, tool, sc.newId, sc.env);
      var s' := Finish(c, s, pid, sc);
      && Agrees(s', pid, t') && Reply(c, s, pid, sc, None) == Some(GrantAnswer(r))
      && (sc.newId !in s.leases ==> Describes(r, s'.leases, sc.newId))
  {
    ScopedSteps(c, s, pid, sc, agent, name, domain, token, tool, t);
    hide RequestLeaseScoped, Describes, Finish, Reply, GrantAnswer;
    if sc.newId !in t.leases {
      ScopedAnswer(c, t, agent, name, domain, token, tool, sc.newId, sc.env);
    }
  }

  lemma ScopedSteps(c: Config, s: Sys, pid: nat, sc: Script, agent: AgentId, name: SecretName, domain: DomainScope,
                    token: Token, tool: string, t: State)
    requires pid in s.procs && s.procs[pid] == ScopedStart(agent, name, domain, token, tool)
    requires Sees(s, t) && sc.newId !in s.issued && Finds(sc, name, t)
    ensures var (t', r) := RequestLeaseScoped(c, t, agent, name, domain, token, tool, sc.newId, sc.env);
      Agrees(Finish(c, s, pid, sc), pid, t') && Reply(c, s, pid, sc, None) == Some(GrantAnswer(r))
  {
    Unfolds(c, s, pid, sc, None);
    hide RequestLease, RequestLeaseScoped, SessionCheck, Closed, Finish, Reply, GrantAnswer, Step, Sees;
    if SessionCheck(t.sessions, token, tool, name, domain, sc.env.now).Ok? {
      var link := ScopedMoves(c, s, pid, sc, agent, name, domain, token, tool, t);
      ScopedShape(c, s, t, agent, name, domain, tool, link, sc);
      PolicyAlone(c, Step(c, s, pid, sc), pid, sc, None, agent, name, domain, Some(link), t);
    } else {
      RefusedAlone(c, s, pid, sc, agent, name, domain, token, tool, t);
    }
  }

  lemma ScopedShape(c: Config, s: Sys, t: State, agent: AgentId, name: SecretName, domain: DomainScope, tool: string,
                    link: Link, sc: Script)
    requires SessionCheck(t.sessions, link.token, tool, name, domain, sc.env.now) == Ok(link.session) && Sees(s, t)
    ensures var (t1, q) := RequestLease(c, t, agent, name, domain, sc.newId, sc.env);
      RequestLeaseScoped(c, t, agent, name, domain, link.token, tool, sc.newId, sc.env)
        == (if q.Ok? then Closed(t1, sc.newId, Some(link)) else t1, q)
    ensures SessionCheck(s.sessions, link.token, tool, name, domain, sc.env.now).Ok?
  {
    hide RequestLease, SessionCheck, Linked, Counted;
  }

  /** A passed session check. */
  lemma ScopedMoves(c: Config, s: Sys, pid: nat, sc: Script, agent: AgentId, name: SecretName, domain: DomainScope,
                    token: Token, tool: string, t: State) returns (link: Link)
    requires pid in s.procs && s.procs[pid] == ScopedStart(agent, name, domain, token, tool) && Sees(s, t)
    requires SessionCheck(t.sessions, token, tool, name, domain, sc.env.now).Ok?
    ensures link.token == token && link.session == SessionCheck(t.sessions, token, tool, name, domain, sc.env.now).value
    ensures var s' := Step(c, s, pid, sc);
      && pid in s'.procs && s'.procs[pid] == ReqPolicy(agent, name, domain, Some(link)) && s'.issued == s.issued
      && Sees(s', t)
  {
    CheckErrors(t.sessions, token, tool, name, domain, sc.env.now);
    hide SessionCheck;
    assert s.audit + [] == s.audit;
    var check := SessionCheck(t.sessions, token, tool, name, domain, sc.env.now);
    link := Link(token, check.value, s.steps, s.sessions[token].policy, tool);
  }

  lemma CheckErrors(m: map<Token, Session>, token: Token, tool: string, name: SecretName, domain: DomainScope,
                    now: Time)
    ensures var r := SessionCheck(m, token, tool, name, domain, now);
      && (r.Err? && r.error.AccessDenied? ==> r.error == AccessDenied(tool, name, domain) && token in m)
      && (r.Ok? ==> token in m)
  {
    hide ToolAllowed;
  }

  // ---- Accesses ----

  /** The secret of an access is found if it can be fetched and opened. */
  ghost predicate Opens(sc: Script, c: Config, name: SecretName, t: State) {
    if !sc.env.storeOk then !sc.found && sc.fault == Storage
    else if name !in t.store then !sc.found && sc.fault == SecretNotFound(name)
    else match OpenSecret(c.cipher, t.store[name], t.dek)
      case Ok(p) => sc.found && sc.value == p
      case Err(e) => !sc.found && sc.fault == e
  }

  /** An access also hands out a guard exactly when the operation does, with the same value. */
  lemma AccessAlone(c: Config, s: Sys, pid: nat, sc: Script, id: LeaseId, target: string, t: State)
    requires pid in s.procs && s.procs[pid] == AccUse(id, target) && Sees(s, t)
    requires id in t.leases ==> Opens(sc, c, t.leases[id].secretName, t)
    ensures var (t', r) := AccessSecret(c, t, id, target, sc.env); var s' := Finish(c, s, pid, sc);
      && Agrees(s', pid, t') && Reply(c, s, pid, sc, None) == Some(GuardAnswer(r))
      && s'.guards == s.guards + (if r.Ok? then [id] else [])
  {
    UseKeepsName(t.leases, id, target, sc.env.now);
    Unfolds(c, s, pid, sc, None);
    UseMoves(c, s, pid, sc, id, target, t);
    assert UseLease(s.leases, id, target, sc.env.now) == UseLease(t.leases, id, target, sc.env.now);
    AccessShape(c, t, id, target, sc);
    hide UseLease, Step, Finish, Reply, AccessSecret, GuardAnswer;
    assert s.guards + [] == s.guards;
    var s', used := Step(c, s, pid, sc), UseLease(t.leases, id, target, sc.env.now);
    if used.Ok? {
      var t1 := t.(leases := t.leases[id := used.value]);
      FetchAlone(c, s', pid, sc, None, id, used.value.agent, used.value.secretName, target, t1);
    } else {
      Returns(c, s', pid, sc);
    }
  }

  /** What an access leaves and answers, in terms of its scopes. */
  lemma AccessShape(c: Config, t: State, id: LeaseId, target: string, sc: Script)
    requires id in t.leases ==> Opens(sc, c, t.leases[id].secretName, t)
    ensures var (t', r) := AccessSecret(c, t, id, target, sc.env);
      match UseLease(t.leases, id, target, sc.env.now)
      case Err(e) => t' == t && GuardAnswer(r) == Failed(e)
      case Ok(l) =>
        && (r.Ok? <==> sc.found && sc.env.auditOk)
        && t' == Logged(t.(leases := t.leases[id := l]), AuditEntry(l.agent, SecretAccessed(id, l.secretName, target)),
                        r.Ok?)
        && GuardAnswer(r) == (if !sc.found then Failed(sc.fault)
                              else if r.Ok? then Handed(Guard(id, sc.value)) else Failed(Storage))
  {
    UseKeepsName(t.leases, id, target, sc.env.now);
    hide UseLease, OpenSecret;
  }

  lemma UseMoves(c: Config, s: Sys, pid: nat, sc: Script, id: LeaseId, target: string, t: State)
    requires pid in s.procs && s.procs[pid] == AccUse(id, target) && Sees(s, t)
    ensures var s', used := Step(c, s, pid, sc), UseLease(t.leases, id, target, sc.env.now);
      && s'.guards == s.guards
      && match used
         case Ok(l) =>
           && Sees(s', t.(leases := t.leases[id := l]))
           && pid in s'.procs && s'.procs[pid] == AccFetch(id, l.agent, l.secretName, target)
         case Err(_) => Agrees(s', pid, t)
  {
    hide UseLease;
    assert s.audit + [] == s.audit && s.guards + [] == s.guards;
  }

  lemma UseKeepsName(leases: map<LeaseId, Lease>, id: LeaseId, target: string, now: Time)
    ensures var r := UseLease(leases, id, target, now); r.Ok? ==>
        id in leases && r.value.secretName == leases[id].secretName
  {
    hide Refusal;
  }

  lemma FetchAlone(c: Config, s: Sys, pid: nat, sc: Script, sofar: Option<Answer>, id: LeaseId, agent: AgentId,
                   name: SecretName, target: string, t: State)
    requires pid in s.procs && s.procs[pid] == AccFetch(id, agent, name, target) && Sees(s, t)
    ensures var s' := Finish(c, s, pid, sc); var ok := sc.found && sc.env.auditOk;
      && Agrees(s', pid, Logged(t, AuditEntry(agent, SecretAccessed(id, name, target)), ok))
      && Reply(c, s, pid, sc, sofar)
         == Some(if !sc.found then Failed(sc.fault) else if ok then Handed(Guard(id, sc.value)) else Failed(Storage))
      && s'.guards == s.guards + (if ok then [id] else [])
  {
    assert s.audit + [] == s.audit && s.guards + [] == s.guards;
    var s' := Step(c, s, pid, sc);
    assert Sees(s', t) && s'.guards == s.guards;
    if sc.found {
      assert s'.procs[pid] == AccAudit(id, agent, name, target);
      hide Next, LeasesAfter, SessionsAfter;
      AccessLogged(c, s', pid, sc, Some(Handed(Guard(id, sc.value))), id, agent, name, target, t);
    } else {
      Returns(c, s', pid, sc);
    }
  }

  lemma AccessLogged(c: Config, s: Sys, pid: nat, sc: Script, sofar: Option<Answer>, id: LeaseId, agent: AgentId,
                     name: SecretName, target: string, t: State)
    requires pid in s.procs && s.procs[pid] == AccAudit(id, agent, name, target) && Sees(s, t)
    ensures var s' := Finish(c, s, pid, sc);
      && Agrees(s', pid, Logged(t, AuditEntry(agent, SecretAccessed(id, name, target)), sc.env.auditOk))
      && s'.guards == s.guards + (if sc.env.auditOk then [id] else [])
      && Reply(c, s, pid, sc, sofar) == if sc.env.auditOk then sofar else Some(Failed(Storage))
  {
    LoggedOne(s.audit, AuditEntry(agent, SecretAccessed(id, name, target)));
    Returns(c, Step(c, s, pid, sc), pid, sc);
  }

  // ---- The other calls ----

  lemma RevokeAlone(c: Config, s: Sys, pid: nat, sc: Script, id: LeaseId, reason: RevocationReason, t: State)
    requires pid in s.procs && s.procs[pid] == RevFlip(id, reason) && Sees(s, t) && Closes(sc)
    ensures var (t', r) := RevokeLease(t, id, reason, sc.env);
      Agrees(Finish(c, s, pid, sc), pid, t') && Reply(c, s, pid, sc, None) == Some(DoneAnswer(r))
  {
    Unfolds(c, s, pid, sc, None);
    RevokeMoves(c, s, pid, sc, id, reason, t);
    hide Finish, Reply, Step;
    var s' := Step(c, s, pid, sc);
    if id in t.leases {
      var t1 := t.(leases := t.leases[id := Revoke(t.leases[id])]);
      LogReturns(c, s', pid, sc, Some(Done), t1);
    } else {
      Returns(c, s', pid, sc);
    }
  }

  lemma RevokeMoves(c: Config, s: Sys, pid: nat, sc: Script, id: LeaseId, reason: RevocationReason, t: State)
    requires pid in s.procs && s.procs[pid] == RevFlip(id, reason) && Sees(s, t)
    ensures var s' := Step(c, s, pid, sc);
      if id in t.leases then
        && Sees(s', t.(leases := t.leases[id := Revoke(t.leases[id])])) && pid in s'.procs
        && s'.procs[pid] == Logging(AuditEntry(t.leases[id].agent, LeaseRevocation(id, reason)))
      else Agrees(s', pid, t)
  {
    assert s.audit + [] == s.audit;
  }

  lemma RenewAlone(c: Config, s: Sys, pid: nat, sc: Script, id: LeaseId, ext: int, t: State)
    requires pid in s.procs && s.procs[pid] == RenewFlip(id, ext) && Sees(s, t) && Closes(sc)
    ensures var (t', r) := RenewLease(t, id, ext, sc.env); var s' := Finish(c, s, pid, sc);
      && Agrees(s', pid, t') && Reply(c, s, pid, sc, None) == Some(GrantAnswer(r))
      && (r.Ok? ==> id in s'.leases && r.value == GrantOf(s'.leases[id]))
  {
    RenewSees(s, t, id, ext, sc.env.now);
    hide RenewedLease;
    assert s.audit + [] == s.audit;
    var s', l := Step(c, s, pid, sc), RenewedLease(t, id, ext, sc.env.now);
    if l.Ok? {
      var t1 := t.(leases := t.leases[id := l.value]);
      assert Sees(s', t1) && s'.procs[pid] == Logging(AuditEntry(l.value.agent, LeaseRenewed(id, ext)));
      hide Next, LeasesAfter, SessionsAfter;
      LogReturns(c, s', pid, sc, Some(Granted(GrantOf(l.value))), t1);
    } else {
      Returns(c, s', pid, sc);
    }
  }

  lemma RenewSees(s: Sys, t: State, id: LeaseId, ext: int, now: Time)
    requires Sees(s, t)
    ensures Renewable(s, id, ext, now) == RenewedLease(t, id, ext, now)
  {
    hide RenewalCapped, RenewalLimit;
  }

  /** The order of a bulk revocation lists exactly the leases whose entries are not lost. */
  ghost predicate Covers(order: seq<LeaseId>, ids: set<LeaseId>) {
    && (forall id :: id in order <==> id in ids)
    && (forall i, j | 0 <= i < j < |order| :: order[i] != order[j])
  }

  lemma CoversVisits(leases: LeaseMap, sel: Selector, order: seq<LeaseId>, ids: set<LeaseId>)
    requires Covers(order, ids) && ids <= Flipped(leases, sel)
    ensures Visits(leases, sel, order) && ids <= leases.Keys && (order == [] ==> ids == {})
    ensures order != [] ==> order[|order| - 1] in ids
  {
    assert forall i | 0 <= i < |order| :: order[i] in order;
  }

  /** The entries of a bulk revocation, in whatever order, are those of the operation. */
  lemma {:induction false} EntriesAgree(leases: LeaseMap, sel: Selector, order: seq<LeaseId>, ids: set<LeaseId>)
    requires Covers(order, ids) && ids <= Flipped(leases, sel)
    ensures Visits(leases, sel, order) && ids <= leases.Keys
    ensures multiset(Entries(leases, sel, order)) == RevocationEntries(leases, ids, sel.Reason())
    decreases |order|
  {
    CoversVisits(leases, sel, order, ids);
    if order != [] {
      hide Covers, Visits, Flipped, RevocationEntries;
      var init, id := order[..|order| - 1], order[|order| - 1];
      InitCovers(order, ids);
      EntriesAgree(leases, sel, init, ids - {id});
      OneMore(leases, ids, id, sel.Reason());
      LoggedOne(Entries(leases, sel, init), AuditEntry(leases[id].agent, LeaseRevocation(id, sel.Reason())));
    }
  }

  lemma InitCovers(order: seq<LeaseId>, ids: set<LeaseId>)
    requires Covers(order, ids) && order != []
    ensures Covers(order[..|order| - 1], ids - {order[|order| - 1]})
  {
    var init, id := order[..|order| - 1], order[|order| - 1];
    forall x ensures x in init <==> x in ids - {id} {
      if x in ids - {id} {
        var i :| 0 <= i < |order| && order[i] == x;
        assert init[i] == x;
      }
      if x in init {
        var i :| 0 <= i < |init| && init[i] == x;
        assert order[i] == x && x in order;
      }
    }
  }

  lemma OneMore(leases: LeaseMap, ids: set<LeaseId>, id: LeaseId, reason: RevocationReason)
    requires ids <= leases.Keys && id in ids
    ensures RevocationEntries(leases, ids, reason)
         == RevocationEntries(leases, ids - {id}, reason)
            + multiset{AuditEntry(leases[id].agent, LeaseRevocation(id, reason))}
  {
    var rest := set i | i in ids - {id} :: AuditEntry(leases[i].agent, LeaseRevocation(i, reason));
    var e := AuditEntry(leases[id].agent, LeaseRevocation(id, reason));
    assert (set i | i in ids :: AuditEntry(leases[i].agent, LeaseRevocation(i, reason))) == rest + {e};
    assert e !in rest;
  }

  /** The bulk step itself. */
  lemma BulkSees(s: Sys, t: State, sel: Selector, order: seq<LeaseId>, lost: set<LeaseId>)
    requires Sees(s, t) && Covers(order, Flipped(t.leases, sel) - lost)
    ensures Visits(s.leases, sel, order)
    ensures multiset(s.audit + Entries(s.leases, sel, order)) == BulkRevoke(t, sel, lost).audit
  {
    EntriesAgree(s.leases, sel, order, Flipped(t.leases, sel) - lost);
  }

  /** A deletion closes if the store answers and has the secret, and the entry is recorded. */
  predicate Deletes(sc: Script, name: SecretName, t: State) {
    && (sc.closed <==> sc.env.storeOk && name in t.store && sc.env.auditOk)
    && (!sc.closed ==> sc.fault == if sc.env.storeOk && name !in t.store then SecretNotFound(name) else Storage)
  }

  /** Revoking all leases of an agent; deleting a secret. */
  lemma BulkAlone(c: Config, s: Sys, pid: nat, sc: Script, sel: Selector, t: State)
    requires pid in s.procs && s.procs[pid] == BulkFlip(sel) && !sel.BySession? && Sees(s, t)
    requires Covers(sc.order, Flipped(t.leases, sel) - sc.env.lost)
    requires sel.BySecret? ==> Deletes(sc, sel.name, t)
    ensures sel.ByAgent? ==>
      var (t', r) := RevokeAllForAgent(t, sel.agent, sc.env);
      Agrees(Finish(c, s, pid, sc), pid, t') && Reply(c, s, pid, sc, None) == Some(CountAnswer(r))
    ensures sel.BySecret? ==>
      var (t', r) := DeleteSecret(t, sel.name, sc.env);
      Agrees(Finish(c, s, pid, sc), pid, t') && Reply(c, s, pid, sc, None) == Some(DoneAnswer(r))
  {
    BulkMoves(c, s, pid, sc, sel, t);
    Unfolds(c, s, pid, sc, None);
    hide Flipped, Covers, Finish, Reply, Step, BulkRevoke;
    var s', t' := Step(c, s, pid, sc), BulkRevoke(t, sel, sc.env.lost);
    BulkKeepsStore(t, sel, sc.env.lost);
    if sel.BySecret? {
      LogReturns(c, s', pid, sc, Some(Done), t');
    } else {
      Returns(c, s', pid, sc);
    }
  }

  lemma BulkKeepsStore(t: State, sel: Selector, lost: set<LeaseId>)
    ensures BulkRevoke(t, sel, lost).store == t.store
  {
  }

  lemma BulkMoves(c: Config, s: Sys, pid: nat, sc: Script, sel: Selector, t: State)
    requires pid in s.procs && s.procs[pid] == BulkFlip(sel) && !sel.BySession? && Sees(s, t)
    requires Covers(sc.order, Flipped(t.leases, sel) - sc.env.lost)
    ensures Ready(s, pid, sc)
    ensures var s', t' := Step(c, s, pid, sc), BulkRevoke(t, sel, sc.env.lost);
      && Sees(s', t')
      && if sel.BySecret? then
           pid in s'.procs && s'.procs[pid] == Logging(AuditEntry("admin", SecretDeleted(sel.name)))
         else pid !in s'.procs
  {
    BulkSees(s, t, sel, sc.order, sc.env.lost);
    hide RevokeWhere, RevocationEntries, Flipped, Visits, Entries, Covers;
  }

  lemma CascadeAlone(c: Config, s: Sys, pid: nat, sc: Script, sofar: Option<Answer>, sid: SessionId, t: State)
    requires pid in s.procs && s.procs[pid] == SessCascade(sid) && Sees(s, t)
    requires Covers(sc.order, Flipped(t.leases, BySession(sid)) - sc.env.lost)
    ensures var e := AuditEntry("session", SessionRevocationDone(sid, |Flipped(t.leases, BySession(sid))|));
      Agrees(Finish(c, s, pid, sc), pid, Logged(BulkRevoke(t, BySession(sid), sc.env.lost), e, sc.closed))
    ensures Reply(c, s, pid, sc, sofar) == if sc.closed then sofar else Some(Failed(sc.fault))
  {
    BulkSees(s, t, BySession(sid), sc.order, sc.env.lost);
    hide RevokeWhere, RevocationEntries, Flipped, Visits, Entries, Covers;
    var s', t' := Step(c, s, pid, sc), BulkRevoke(t, BySession(sid), sc.env.lost);
    assert Sees(s', t');
    hide Next, LeasesAfter, SessionsAfter, BulkRevoke;
    LogReturns(c, s', pid, sc, sofar, t');
  }

  /** Marking a session and revoking its leases, in two scopes. */
  lemma RevokeSessionAlone(c: Config, s: Sys, pid: nat, sc: Script, token: Token, t: State)
    requires pid in s.procs && s.procs[pid] == SessMark(token) && Sees(s, t) && Closes(sc)
    requires token in t.sessions ==> Covers(sc.order, Flipped(t.leases, BySession(t.sessions[token].id)) - sc.env.lost)
    ensures var (t', r) := RevokeSession(t, token, sc.env);
      Agrees(Finish(c, s, pid, sc), pid, t') && Reply(c, s, pid, sc, None) == Some(DoneAnswer(r))
  {
    hide BulkRevoke, Flipped, Covers;
    assert s.audit + [] == s.audit;
    var s' := Step(c, s, pid, sc);
    if token in t.sessions {
      var t' := t.(sessions := t.sessions[token := RevokeSessionRecord(t.sessions[token])]);
      assert Sees(s', t') && s'.procs[pid] == SessCascade(t.sessions[token].id);
      hide Next, LeasesAfter, SessionsAfter;
      CascadeAlone(c, s', pid, sc, Some(Done), t.sessions[token].id, t');
    } else {
      Returns(c, s', pid, sc);
    }
  }

  lemma CreateShape(t: State, user: string, channel: string, policy: SessionPolicy, token: Token, sid: SessionId,
                    env: Env)
    ensures var t' := t.(sessions := t.sessions[token := NewSession(sid, user, channel, policy, env.now)]);
      var e := AuditEntry(user, SessionCreated(sid, user, channel, NumSeconds(policy.maxDuration)));
      CreateSession(t, user, channel, policy, token, sid, env)
        == (Logged(t', e, env.auditOk), if env.auditOk then Ok((token, sid)) else Err(Storage))
  {
    hide NumSeconds;
    assert NewSession(sid, user, channel, policy, env.now).expiresAt - env.now == policy.maxDuration;
  }

  lemma CreateStep(c: Config, s: Sys, pid: nat, sc: Script, user: string, channel: string, policy: SessionPolicy)
    requires Ready(s, pid, sc) && s.procs[pid] == SessCreate(user, channel, policy)
    ensures var s' := Step(c, s, pid, sc);
      && s'.leases == s.leases && multiset(s'.audit) == multiset(s.audit) && pid in s'.procs
      && s'.sessions == s.sessions[sc.newToken := NewSession(sc.newSession, user, channel, policy, sc.env.now)]
      && s'.procs[pid]
         == Logging(AuditEntry(user, SessionCreated(sc.newSession, user, channel, NumSeconds(policy.maxDuration))))
  {
    hide NumSeconds;
    assert s.audit + [] == s.audit;
  }

  lemma CreateSessionAlone(c: Config, s: Sys, pid: nat, sc: Script, user: string, channel: string,
                           policy: SessionPolicy, t: State)
    requires pid in s.procs && s.procs[pid] == SessCreate(user, channel, policy) && Sees(s, t)
    requires sc.newToken !in s.tokens && sc.newSession !in s.sessionIds && Closes(sc)
    ensures var (t', r) := CreateSession(t, user, channel, policy, sc.newToken, sc.newSession, sc.env);
      Agrees(Finish(c, s, pid, sc), pid, t') && Reply(c, s, pid, sc, None) == Some(OpenedAnswer(r))
  {
    hide NumSeconds, Next, CreateSession, Logged;
    CreateStep(c, s, pid, sc, user, channel, policy);
    CreateShape(t, user, channel, policy, sc.newToken, sc.newSession, sc.env);
    var session := NewSession(sc.newSession, user, channel, policy, sc.env.now);
    var answer := Some(Opened(sc.newToken, sc.newSession));
    LogReturns(c, Step(c, s, pid, sc), pid, sc, answer, t.(sessions := t.sessions[sc.newToken := session]));
  }

  lemma CollectAlone(c: Config, s: Sys, pid: nat, sc: Script, t: State)
    requires pid in s.procs && Sees(s, t)
    ensures s.procs[pid].CollectLeases? ==> Agrees(Finish(c, s, pid, sc), pid, GcLeases(t, sc.env.now))
    ensures s.procs[pid].CollectSessions? ==> Agrees(Finish(c, s, pid, sc), pid, GcSessions(t, sc.env.now))
  {
    hide Kept, Active;
    assert s.audit + [] == s.audit;
    if s.procs[pid].CollectLeases? || s.procs[pid].CollectSessions? {
      Returns(c, Step(c, s, pid, sc), pid, sc);
    }
  }
}
