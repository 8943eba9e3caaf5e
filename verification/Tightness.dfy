/**
 * The bounds on concurrent requests are reached, and a cascade can be outrun: runs that show it,
 * for every configuration whose policy grants the request.
 */
module Tightness {
  import opened Types
  import opened Counting
  import opened Identity
  import opened Policy
  import opened Leases
  import opened Sessions
  import opened VaultModel
  import opened Interleaving
  import opened Concurrency

  /** One request, repeated; scoped if it has a token. */
  datatype Ask = Ask(agent: AgentId, name: SecretName, domain: DomainScope, terms: LeaseTerms)

  ghost predicate Granted(c: Config, a: Ask) {
    c.maxLeasesPerAgent >= 1 && Evaluate(c.policy, a.agent, a.name, a.domain) == Ok(a.terms)
  }

  function Pick(id: LeaseId): Choice {
    Choice(0, true, id, 0, 0, [])
  }

  function Made(a: Ask, id: LeaseId): (l: Lease)
    ensures l.id == id && l.agent == a.agent && l.sessionId.None? && !l.revoked
  {
    NewLease(id, a.agent, a.name, [a.domain], a.terms, 0)
  }

  // ---- Building a run step by step ----

  ghost predicate Bounded(c: Config, run: seq<Label>, p: Proc -> bool, n: nat) {
    Possible(c, Empty, run) && AtMost(c, Empty, run, p, n)
  }

  /** Processes numbered below `n` are at most `n`. */
  lemma {:induction false} FewProcs(procs: map<nat, Proc>, p: Proc -> bool, n: nat)
    requires forall k | k in procs :: k < n
    ensures Count(procs, p) <= n
    decreases n
  {
    if n == 0 {
      assert Where(procs, p) == {};
    } else if n - 1 in procs {
      FewProcs(procs - {n - 1}, p, n - 1);
      RemoveCount(procs, n - 1, p);
    } else {
      FewProcs(procs, p, n - 1);
    }
  }

  lemma Extend(c: Config, run: seq<Label>, a: Label, p: Proc -> bool, n: nat) returns (longer: seq<Label>)
    requires Bounded(c, run, p, n) && Enabled(After(c, Empty, run), a)
    requires forall k | k in Next(c, After(c, Empty, run), a).procs :: k < n
    ensures Bounded(c, longer, p, n) && After(c, Empty, longer) == Next(c, After(c, Empty, run), a)
  {
    hide Next, Enabled, Count;
    longer := run + [a];
    assert longer[..|longer| - 1] == run;
    FewProcs(Next(c, After(c, Empty, run), a).procs, p, n);
  }

  // ---- What single steps do ----

  ghost function Moved(s: Sys, pid: nat, q: Proc): Sys {
    s.(procs := s.procs[pid := q], steps := s.steps + 1)
  }

  lemma PolicyStep(c: Config, s: Sys, pid: nat, a: Ask, link: Option<Link>, ch: Choice)
    requires Granted(c, a) && pid in s.procs && s.procs[pid] == ReqPolicy(a.agent, a.name, a.domain, link)
    ensures Next(c, s, Go(pid, ch)) == Moved(s, pid, ReqCap(a.agent, a.name, a.domain, link, a.terms))
  {
    hide FirstMatch;
  }

  lemma CapPassed(c: Config, s: Sys, pid: nat, a: Ask, link: Option<Link>, ch: Choice)
    requires pid in s.procs && s.procs[pid] == ReqCap(a.agent, a.name, a.domain, link, a.terms)
    requires ActiveCount(s.leases, a.agent) < c.maxLeasesPerAgent
    ensures Next(c, s, Go(pid, ch)) == Moved(s, pid, ReqLookup(a.agent, a.name, a.domain, link, a.terms))
  {
    hide ActiveCount;
  }

  lemma LookupStep(c: Config, s: Sys, pid: nat, a: Ask, link: Option<Link>, id: LeaseId)
    requires pid in s.procs && s.procs[pid] == ReqLookup(a.agent, a.name, a.domain, link, a.terms)
    requires id !in s.issued
    ensures Next(c, s, Go(pid, Pick(id)))
         == Moved(s, pid, ReqAudit(Made(a, id), link)).(issued := s.issued[id := Made(a, id)])
  {
  }

  lemma AuditStep(c: Config, s: Sys, pid: nat, l: Lease, link: Option<Link>)
    requires pid in s.procs && s.procs[pid] == ReqAudit(l, link)
    ensures Next(c, s, Go(pid, Pick(0))) == Moved(s, pid, ReqInsert(l, link)).(audit := s.audit + [GrantEntry(l)])
  {
  }

  lemma InsertStep(c: Config, s: Sys, pid: nat, l: Lease, link: Option<Link>)
    requires pid in s.procs && s.procs[pid] == ReqInsert(l, link)
    ensures Next(c, s, Go(pid, Pick(0)))
         == s.(procs := if link.Some? then s.procs[pid := ReqLink(l.id, link.value)] else s.procs - {pid},
               leases := s.leases[l.id := l], steps := s.steps + 1)
  {
  }

  // ---- Pieces of runs ----

  /** A started request passes its policy and cap checks. */
  lemma PassChecks(c: Config, run: seq<Label>, pid: nat, a: Ask, link: Option<Link>, p: Proc -> bool, n: nat)
    returns (longer: seq<Label>)
    requires Granted(c, a) && Bounded(c, run, p, n)
    requires var s := After(c, Empty, run);
      && (forall k | k in s.procs :: k < n)
      && pid in s.procs && s.procs[pid] == ReqPolicy(a.agent, a.name, a.domain, link)
      && ActiveCount(s.leases, a.agent) < c.maxLeasesPerAgent
    ensures Bounded(c, longer, p, n)
    ensures var s := After(c, Empty, run);
      After(c, Empty, longer)
        == s.(procs := s.procs[pid := ReqLookup(a.agent, a.name, a.domain, link, a.terms)], steps := s.steps + 2)
  {
    hide Next, AtMost, Possible, ActiveCount, Evaluate;
    var s := After(c, Empty, run);
    PolicyStep(c, s, pid, a, link, Pick(0));
    longer := Extend(c, run, Go(pid, Pick(0)), p, n);
    CapPassed(c, After(c, Empty, longer), pid, a, link, Pick(0));
    longer := Extend(c, longer, Go(pid, Pick(0)), p, n);
  }

  /** The parts of the state that a grant changes, and the parts that later steps look at. */
  ghost predicate Became(s: Sys, t: Sys, procs: map<nat, Proc>, leases: LeaseMap, issued: LeaseMap) {
    && t.procs == procs && t.leases == leases && t.issued == issued
    && t.sessions == s.sessions && t.cascadedAt == s.cascadedAt
  }

  /** A request past its checks finds the secret and is recorded. */
  lemma Find(c: Config, run: seq<Label>, pid: nat, a: Ask, link: Option<Link>, id: LeaseId, p: Proc -> bool, n: nat)
    returns (longer: seq<Label>)
    requires Bounded(c, run, p, n)
    requires var s := After(c, Empty, run);
      && (forall k | k in s.procs :: k < n) && id !in s.issued
      && pid in s.procs && s.procs[pid] == ReqLookup(a.agent, a.name, a.domain, link, a.terms)
    ensures Bounded(c, longer, p, n)
    ensures var s := After(c, Empty, run); var l := Made(a, id);
      Became(s, After(c, Empty, longer), s.procs[pid := ReqInsert(l, link)], s.leases, s.issued[id := l])
  {
    hide Next, AtMost, Possible, GrantEntry, Made;
    LookupStep(c, After(c, Empty, run), pid, a, link, id);
    longer := Extend(c, run, Go(pid, Pick(id)), p, n);
    AuditStep(c, After(c, Empty, longer), pid, Made(a, id), link);
    longer := Extend(c, longer, Go(pid, Pick(0)), p, n);
  }

  /** And inserts its lease. */
  lemma Insert(c: Config, run: seq<Label>, pid: nat, a: Ask, link: Option<Link>, id: LeaseId, p: Proc -> bool, n: nat)
    returns (longer: seq<Label>)
    requires Bounded(c, run, p, n)
    requires var s := After(c, Empty, run);
      && (forall k | k in s.procs :: k < n) && id !in s.issued
      && pid in s.procs && s.procs[pid] == ReqLookup(a.agent, a.name, a.domain, link, a.terms)
    ensures Bounded(c, longer, p, n)
    ensures var s := After(c, Empty, run); var l := Made(a, id);
      var procs := if link.Some? then s.procs[pid := ReqLink(id, link.value)] else s.procs - {pid};
      Became(s, After(c, Empty, longer), procs, s.leases[id := l], s.issued[id := l])
  {
    hide Next, AtMost, Possible, Made;
    longer := Find(c, run, pid, a, link, id, p, n);
    var s := After(c, Empty, run);
    InsertStep(c, After(c, Empty, longer), pid, Made(a, id), link);
    longer := Extend(c, longer, Go(pid, Pick(0)), p, n);
    assert s.procs[pid := ReqInsert(Made(a, id), link)] - {pid} == s.procs - {pid};
  }

  /** A started request passes its checks and inserts its lease. */
  lemma Serve(c: Config, run: seq<Label>, pid: nat, a: Ask, link: Option<Link>, id: LeaseId, p: Proc -> bool, n: nat)
    returns (longer: seq<Label>)
    requires Granted(c, a) && Bounded(c, run, p, n)
    requires var s := After(c, Empty, run);
      && (forall k | k in s.procs :: k < n) && id !in s.issued
      && pid in s.procs && s.procs[pid] == ReqPolicy(a.agent, a.name, a.domain, link)
      && ActiveCount(s.leases, a.agent) < c.maxLeasesPerAgent
    ensures Bounded(c, longer, p, n)
    ensures var s := After(c, Empty, run); var l := Made(a, id);
      var procs := if link.Some? then s.procs[pid := ReqLink(id, link.value)] else s.procs - {pid};
      Became(s, After(c, Empty, longer), procs, s.leases[id := l], s.issued[id := l])
  {
    hide Next, AtMost, Possible, GrantEntry, Made, ActiveCount, Granted;
    longer := PassChecks(c, run, pid, a, link, p, n);
    longer := Insert(c, longer, pid, a, link, id, p, n);
    var s, t := After(c, Empty, run), After(c, Empty, longer);
    var passed := s.procs[pid := ReqLookup(a.agent, a.name, a.domain, link, a.terms)];
    assert link.None? ==> passed - {pid} == s.procs - {pid};
  }

  // ---- The agent cap is reached ----

  /** `k` live leases of the agent, numbered below `k`. */
  ghost predicate Holding(s: Sys, agent: AgentId, k: nat) {
    && ActiveCount(s.leases, agent) == k
    && (forall id | id in s.leases || id in s.issued :: id < k)
  }

  lemma HoldOneMore(s: Sys, t: Sys, a: Ask, k: nat)
    requires Holding(s, a.agent, k)
    requires t.leases == s.leases[k := Made(a, k)] && t.issued == s.issued[k := Made(a, k)]
    ensures Holding(t, a.agent, k + 1)
  {
    CountUpdate(s.leases, k, Made(a, k), ActiveFor(a.agent));
  }

  lemma StartRequest(c: Config, run: seq<Label>, pid: nat, a: Ask, p: Proc -> bool, n: nat) returns (longer: seq<Label>)
    requires Bounded(c, run, p, n) && pid < n
    requires pid !in After(c, Empty, run).procs && forall k | k in After(c, Empty, run).procs :: k < n
    ensures Bounded(c, longer, p, n)
    ensures After(c, Empty, longer) == Moved(After(c, Empty, run), pid, ReqPolicy(a.agent, a.name, a.domain, None))
  {
    hide AtMost, Possible;
    longer := Extend(c, run, Spawn(pid, ReqPolicy(a.agent, a.name, a.domain, None)), p, n);
  }

  lemma NothingYet(c: Config, agent: AgentId, p: Proc -> bool, n: nat)
    ensures Bounded(c, [], p, n) && Holding(Empty, agent, 0)
  {
    assert Where(Empty.leases, ActiveFor(agent)) == {};
    assert Where(Empty.procs, p) == {};
  }

  lemma FillOne(c: Config, run: seq<Label>, a: Ask, k: nat, p: Proc -> bool, n: nat) returns (longer: seq<Label>)
    requires Granted(c, a) && n >= 1 && k < c.maxLeasesPerAgent && Bounded(c, run, p, n)
    requires Holding(After(c, Empty, run), a.agent, k) && After(c, Empty, run).procs == map[]
    ensures Bounded(c, longer, p, n)
    ensures Holding(After(c, Empty, longer), a.agent, k + 1) && After(c, Empty, longer).procs == map[]
  {
    hide AtMost, Possible, Granted, ActiveCount, Next, Made, GrantEntry;
    var s := After(c, Empty, run);
    var started := StartRequest(c, run, 0, a, p, n);
    longer := Serve(c, started, 0, a, None, k, p, n);
    assert After(c, Empty, started).procs - {0} == map[];
    HoldOneMore(s, After(c, Empty, longer), a, k);
  }

  /** One request at a time fills the agent up to `k` leases. */
  lemma {:induction false} Fill(c: Config, a: Ask, k: nat, p: Proc -> bool, n: nat) returns (run: seq<Label>)
    requires Granted(c, a) && n >= 1 && k <= c.maxLeasesPerAgent
    ensures Bounded(c, run, p, n)
    ensures Holding(After(c, Empty, run), a.agent, k) && After(c, Empty, run).procs == map[]
  {
    if k == 0 {
      run := [];
      NothingYet(c, a.agent, p, n);
    } else {
      hide AtMost, Possible, Granted, Holding, Next;
      run := Fill(c, a, k - 1, p, n);
      run := FillOne(c, run, a, k - 1, p, n);
    }
  }

  /** Exactly the processes `lo` to `hi - 1`, each past its cap check. */
  ghost predicate Waiting(procs: map<nat, Proc>, a: Ask, lo: nat, hi: nat) {
    && (forall k :: k in procs <==> lo <= k < hi)
    && (forall k | k in procs :: procs[k] == ReqLookup(a.agent, a.name, a.domain, None, a.terms))
  }

  /** `j` requests pass the cap check one after another before any of them inserts. */
  lemma {:induction false} Gather(c: Config, run: seq<Label>, a: Ask, j: nat, p: Proc -> bool, n: nat)
    returns (longer: seq<Label>)
    requires Granted(c, a) && j <= n && Bounded(c, run, p, n) && After(c, Empty, run).procs == map[]
    requires ActiveCount(After(c, Empty, run).leases, a.agent) < c.maxLeasesPerAgent
    ensures Bounded(c, longer, p, n)
    ensures var s, t := After(c, Empty, run), After(c, Empty, longer);
      Waiting(t.procs, a, 0, j) && t.leases == s.leases && t.issued == s.issued
    decreases j
  {
    hide AtMost, Possible, Granted, ActiveCount, Next, Made, GrantEntry;
    longer := run;
    if j > 0 {
      longer := Gather(c, run, a, j - 1, p, n);
      longer := StartRequest(c, longer, j - 1, a, p, n);
      longer := PassChecks(c, longer, j - 1, a, None, p, n);
    }
  }

  /** The waiting requests insert their leases. */
  lemma {:induction false} Release(c: Config, run: seq<Label>, a: Ask, k: nat, j: nat, p: Proc -> bool, n: nat)
    returns (longer: seq<Label>)
    requires j <= n && Bounded(c, run, p, n)
    requires Waiting(After(c, Empty, run).procs, a, j, n) && Holding(After(c, Empty, run), a.agent, k)
    ensures Bounded(c, longer, p, n) && Holding(After(c, Empty, longer), a.agent, k + n - j)
    decreases n - j
  {
    hide AtMost, Possible, ActiveCount, Next, Made, GrantEntry;
    longer := run;
    if j < n {
      var s := After(c, Empty, run);
      longer := Insert(c, run, j, a, None, k, p, n);
      HoldOneMore(s, After(c, Empty, longer), a, k);
      longer := Release(c, longer, a, k + 1, j + 1, p, n);
    }
  }

  /**
   * The bound of `AgentCap` is reached: with `n` requests in flight the agent ends with
   * `max_leases_per_agent - 1 + n` live leases.
   */
  lemma AgentCapReached(c: Config, a: Ask, n: nat) returns (run: seq<Label>)
    requires Granted(c, a) && n >= 1
    ensures Possible(c, Empty, run) && AtMost(c, Empty, run, Requesting(a.agent), n)
    ensures ActiveCount(After(c, Empty, run).leases, a.agent) == c.maxLeasesPerAgent - 1 + n
  {
    hide AtMost, Possible, ActiveCount, Next, Evaluate;
    var p, k := Requesting(a.agent), c.maxLeasesPerAgent - 1;
    run := Fill(c, a, k, p, n);
    run := Gather(c, run, a, n, p, n);
    run := Release(c, run, a, k, 0, p, n);
  }

  // ---- The session limit is reached ----

  /** A session and a tool use it allows. */
  datatype Scope = Scope(user: string, channel: string, policy: SessionPolicy, tool: string)

  ghost predicate Permitted(c: Config, a: Ask, sc: Scope) {
    && Granted(c, a) && sc.policy.maxConcurrentLeases >= 1 && sc.policy.maxDuration >= 0
    && ToolAllowed(sc.policy, sc.tool, a.name, a.domain)
  }

  /** The session under token 0 after `k` counted leases. */
  function Held(sc: Scope, k: nat): SessionMap {
    map[0 := NewSession(0, sc.user, sc.channel, sc.policy, 0).(activeLeaseCount := k)]
  }

  /** `k` leases were granted through the session, and all of them are revoked. */
  ghost predicate Retired(s: Sys, sc: Scope, k: nat) {
    && s.sessions == Held(sc, k)
    && (forall id | id in s.leases || id in s.issued :: id < k)
    && (forall id | id in s.leases :: s.leases[id].revoked)
  }

  predicate OfSession(link: Option<Link>) {
    link.Some? && link.value.token == 0 && link.value.session == 0
  }

  lemma NoneActive(s: Sys, agent: AgentId)
    requires forall id | id in s.leases :: s.leases[id].revoked
    ensures ActiveCount(s.leases, agent) == 0
  {
    assert Where(s.leases, ActiveFor(agent)) == {};
  }

  lemma CreateStep(c: Config, s: Sys, sc: Scope)
    requires s.procs == map[0 := SessCreate(sc.user, sc.channel, sc.policy)] && s.sessions == map[]
    requires s.tokens == {} && s.sessionIds == {}
    ensures var t := Next(c, s, Go(0, Pick(0)));
      t.sessions == Held(sc, 0) && t.leases == s.leases && t.issued == s.issued && t.procs.Keys == {0}
      && t.procs[0].Logging?
  {
  }

  lemma LoggingReturns(c: Config, s: Sys, pid: nat)
    requires pid in s.procs && s.procs[pid].Logging?
    ensures var t := Next(c, s, Go(pid, Pick(0)));
      t == s.(audit := t.audit, procs := s.procs - {pid}, steps := s.steps + 1)
  {
  }

  lemma Open(c: Config, sc: Scope, p: Proc -> bool, n: nat) returns (run: seq<Label>)
    requires n >= 1
    ensures Bounded(c, run, p, n) && Retired(After(c, Empty, run), sc, 0) && After(c, Empty, run).procs == map[]
  {
    NothingYet(c, "", p, n);
    run := [];
    hide AtMost, Possible, LeasesAfter, SessionsAfter, ProcsAfter, LogOf, GuardsOf;
    run := Extend(c, run, Spawn(0, SessCreate(sc.user, sc.channel, sc.policy)), p, n);
    hide Next;
    CreateStep(c, After(c, Empty, run), sc);
    run := Extend(c, run, Go(0, Pick(0)), p, n);
    LoggingReturns(c, After(c, Empty, run), 0);
    run := Extend(c, run, Go(0, Pick(0)), p, n);
  }

  lemma SessionPassed(c: Config, s: Sys, pid: nat, a: Ask, sc: Scope, k: nat)
    requires Permitted(c, a, sc) && s.sessions == Held(sc, k) && k < sc.policy.maxConcurrentLeases
    requires pid in s.procs && s.procs[pid] == ScopedStart(a.agent, a.name, a.domain, 0, sc.tool)
    ensures Next(c, s, Go(pid, Pick(0)))
         == Moved(s, pid, ReqPolicy(a.agent, a.name, a.domain, Some(Link(0, 0, s.steps, sc.policy, sc.tool))))
  {
    hide Granted, ToolAllowed;
  }

  /** A scoped request starts and passes its session check. */
  lemma StartScoped(c: Config, run: seq<Label>, pid: nat, a: Ask, sc: Scope, k: nat, p: Proc -> bool, n: nat)
    returns (longer: seq<Label>, link: Option<Link>)
    requires Permitted(c, a, sc) && k < sc.policy.maxConcurrentLeases
    requires Bounded(c, run, p, n) && pid < n && After(c, Empty, run).sessions == Held(sc, k)
    requires pid !in After(c, Empty, run).procs && forall j | j in After(c, Empty, run).procs :: j < n
    ensures Bounded(c, longer, p, n) && OfSession(link)
    ensures var s := After(c, Empty, run);
      After(c, Empty, longer)
        == s.(procs := s.procs[pid := ReqPolicy(a.agent, a.name, a.domain, link)], steps := s.steps + 2)
  {
    hide AtMost, Possible, Permitted, LeasesAfter, SessionsAfter, ProcsAfter, LogOf, GuardsOf;
    longer := Extend(c, run, Spawn(pid, ScopedStart(a.agent, a.name, a.domain, 0, sc.tool)), p, n);
    var s := After(c, Empty, longer);
    hide Next;
    SessionPassed(c, s, pid, a, sc, k);
    longer := Extend(c, longer, Go(pid, Pick(0)), p, n);
    link := Some(Link(0, 0, s.steps, sc.policy, sc.tool));
  }

  lemma LinkStep(c: Config, s: Sys, pid: nat, id: LeaseId, pass: Link)
    requires pid in s.procs && s.procs[pid] == ReqLink(id, pass) && id in s.leases
    ensures Next(c, s, Go(pid, Pick(0)))
         == Moved(s, pid, ReqCount(pass)).(
              leases := s.leases[id := s.leases[id].(sessionId := Some(pass.session))],
              linkedAt := s.linkedAt[id :=
                Linking(s.steps, pass.passedAt, s.leases[id].renewalCount, pass.policy, pass.tool)])
  {
  }

  lemma CountStep(c: Config, s: Sys, pid: nat, pass: Link, sc: Scope, k: nat)
    requires pid in s.procs && s.procs[pid] == ReqCount(pass) && pass.token == 0 && s.sessions == Held(sc, k)
    ensures Next(c, s, Go(pid, Pick(0)))
         == s.(procs := s.procs - {pid}, sessions := Held(sc, k + 1), steps := s.steps + 1)
  {
  }

  lemma RevokeStep(c: Config, s: Sys, pid: nat, id: LeaseId)
    requires pid in s.procs && s.procs[pid] == RevFlip(id, AdminRevoked) && id in s.leases
    ensures var t := Next(c, s, Go(pid, Pick(0)));
      t.procs == s.procs[pid := t.procs[pid]] && t.procs[pid].Logging?
      && t == s.(procs := t.procs, leases := s.leases[id := Revoke(s.leases[id])], steps := s.steps + 1)
  {
  }

  /** An inserted scoped lease is linked and counted. */
  lemma LinkAndCount(c: Config, run: seq<Label>, pid: nat, id: LeaseId, pass: Link, sc: Scope, k: nat,
                     p: Proc -> bool, n: nat)
    returns (longer: seq<Label>)
    requires Bounded(c, run, p, n) && pass.token == 0
    requires var s := After(c, Empty, run);
      && (forall j | j in s.procs :: j < n) && pid in s.procs && s.procs[pid] == ReqLink(id, pass)
      && id in s.leases && s.sessions == Held(sc, k)
    ensures Bounded(c, longer, p, n)
    ensures var s, t := After(c, Empty, run), After(c, Empty, longer);
      && t.leases == s.leases[id := s.leases[id].(sessionId := Some(pass.session))]
      && t.sessions == Held(sc, k + 1) && t.issued == s.issued && t.procs == s.procs - {pid}
  {
    hide Next, AtMost, Possible, Held;
    LinkStep(c, After(c, Empty, run), pid, id, pass);
    longer := Extend(c, run, Go(pid, Pick(0)), p, n);
    CountStep(c, After(c, Empty, longer), pid, pass, sc, k);
    longer := Extend(c, longer, Go(pid, Pick(0)), p, n);
  }

  /** A call revokes one lease. */
  lemma RevokeOne(c: Config, run: seq<Label>, pid: nat, id: LeaseId, p: Proc -> bool,
                  n: nat) returns (longer: seq<Label>)
    requires Bounded(c, run, p, n) && pid < n
    requires var s := After(c, Empty, run);
      (forall j | j in s.procs :: j < n) && pid !in s.procs && id in s.leases
    ensures Bounded(c, longer, p, n)
    ensures var s, t := After(c, Empty, run), After(c, Empty, longer);
      && t.leases == s.leases[id := Revoke(s.leases[id])]
      && t.sessions == s.sessions && t.issued == s.issued && t.procs == s.procs
  {
    hide AtMost, Possible, LeasesAfter, SessionsAfter, ProcsAfter, LogOf, GuardsOf;
    longer := Extend(c, run, Spawn(pid, RevFlip(id, AdminRevoked)), p, n);
    hide Next;
    RevokeStep(c, After(c, Empty, longer), pid, id);
    longer := Extend(c, longer, Go(pid, Pick(0)), p, n);
    LoggingReturns(c, After(c, Empty, longer), pid);
    longer := Extend(c, longer, Go(pid, Pick(0)), p, n);
  }

  /** A request past the session check completes, and its lease is revoked. */
  lemma Complete(c: Config, run: seq<Label>, pid: nat, a: Ask, sc: Scope, link: Option<Link>, k: nat, p: Proc -> bool,
                 n: nat)
    returns (longer: seq<Label>)
    requires Granted(c, a) && OfSession(link) && pid < n && Bounded(c, run, p, n)
    requires Retired(After(c, Empty, run), sc, k)
    requires var s := After(c, Empty, run);
      && (forall j | j in s.procs :: j < n)
      && pid in s.procs && s.procs[pid] == ReqPolicy(a.agent, a.name, a.domain, link)
    ensures Bounded(c, longer, p, n) && Retired(After(c, Empty, longer), sc, k + 1)
    ensures After(c, Empty, longer).procs == After(c, Empty, run).procs - {pid}
  {
    hide Next, AtMost, Possible, Held, Made, GrantEntry, Evaluate, ActiveCount;
    NoneActive(After(c, Empty, run), a.agent);
    longer := Serve(c, run, pid, a, link, k, p, n);
    longer := LinkAndCount(c, longer, pid, k, link.value, sc, k, p, n);
    longer := RevokeOne(c, longer, pid, k, p, n);
  }

  /** One scoped request at a time brings the counter to `k`. */
  lemma {:induction false} FillSession(c: Config, a: Ask, sc: Scope, k: nat, p: Proc -> bool, n: nat)
    returns (run: seq<Label>)
    requires Permitted(c, a, sc) && n >= 1 && k <= sc.policy.maxConcurrentLeases
    ensures Bounded(c, run, p, n) && Retired(After(c, Empty, run), sc, k) && After(c, Empty, run).procs == map[]
    decreases k
  {
    hide Next, AtMost, Possible, Held, Granted;
    if k == 0 {
      run := Open(c, sc, p, n);
    } else {
      run := FillSession(c, a, sc, k - 1, p, n);
      var link;
      run, link := StartScoped(c, run, 0, a, sc, k - 1, p, n);
      run := Complete(c, run, 0, a, sc, link, k - 1, p, n);
    }
  }

  /** Exactly the processes `lo` to `hi - 1`, each past its session check. */
  ghost predicate WaitingScoped(procs: map<nat, Proc>, a: Ask, lo: nat, hi: nat) {
    && (forall k :: k in procs <==> lo <= k < hi)
    && (forall k | k in procs ::
          && procs[k].ReqPolicy? && OfSession(procs[k].link)
          && procs[k] == ReqPolicy(a.agent, a.name, a.domain, procs[k].link))
  }

  /** `j` scoped requests pass the session check before any of them is counted. */
  lemma {:induction false} GatherScoped(c: Config, run: seq<Label>, a: Ask, sc: Scope, k: nat, j: nat,
                                        p: Proc -> bool, n: nat)
    returns (longer: seq<Label>)
    requires Permitted(c, a, sc) && k < sc.policy.maxConcurrentLeases
    requires j <= n && Bounded(c, run, p, n) && After(c, Empty, run).procs == map[]
    requires Retired(After(c, Empty, run), sc, k)
    ensures Bounded(c, longer, p, n) && Retired(After(c, Empty, longer), sc, k)
    ensures WaitingScoped(After(c, Empty, longer).procs, a, 0, j)
    decreases j
  {
    hide Next, AtMost, Possible, Held, Permitted;
    longer := run;
    if j > 0 {
      longer := GatherScoped(c, run, a, sc, k, j - 1, p, n);
      var link;
      longer, link := StartScoped(c, longer, j - 1, a, sc, k, p, n);
    }
  }

  /** The waiting requests complete, one after another. */
  lemma {:induction false} ReleaseScoped(c: Config, run: seq<Label>, a: Ask, sc: Scope, k: nat, j: nat,
                                         p: Proc -> bool, n: nat)
    returns (longer: seq<Label>)
    requires Granted(c, a) && j <= n && Bounded(c, run, p, n)
    requires WaitingScoped(After(c, Empty, run).procs, a, j, n) && Retired(After(c, Empty, run), sc, k)
    ensures Bounded(c, longer, p, n) && Retired(After(c, Empty, longer), sc, k + n - j)
    decreases n - j
  {
    hide Next, AtMost, Possible, Held, Granted, Retired;
    longer := run;
    if j < n {
      longer := Complete(c, run, j, a, sc, After(c, Empty, run).procs[j].link, k, p, n);
      longer := ReleaseScoped(c, longer, a, sc, k + 1, j + 1, p, n);
    }
  }

  /**
   * The bound of `SessionLimit` is reached: with `n` scoped requests in flight the session's
   * counter ends at `max_concurrent_leases - 1 + n`.
   */
  lemma SessionLimitReached(c: Config, a: Ask, sc: Scope, n: nat) returns (run: seq<Label>)
    requires Permitted(c, a, sc) && n >= 1
    ensures Possible(c, Empty, run) && AtMost(c, Empty, run, Scoped(0), n)
    ensures var s := After(c, Empty, run);
      && 0 in s.sessions && s.sessions[0].policy == sc.policy
      && s.sessions[0].activeLeaseCount == sc.policy.maxConcurrentLeases - 1 + n
  {
    hide Next, AtMost, Possible, Granted, ToolAllowed;
    var p, k := Scoped(0), sc.policy.maxConcurrentLeases - 1;
    run := FillSession(c, a, sc, k, p, n);
    run := GatherScoped(c, run, a, sc, k, n, p, n);
    run := ReleaseScoped(c, run, a, sc, k, 0, p, n);
  }

  // ---- A cascade can be outrun ----

  lemma MarkStep(c: Config, s: Sys, pid: nat, sc: Scope)
    requires pid in s.procs && s.procs[pid] == SessMark(0) && s.sessions == Held(sc, 0)
    ensures var t := Next(c, s, Go(pid, Pick(0)));
      && t.procs == s.procs[pid := SessCascade(0)] && t.leases == s.leases && t.issued == s.issued
      && 0 in t.sessions && t.sessions[0].revoked && t.sessions[0].id == 0
  {
  }

  lemma CascadeStep(c: Config, s: Sys, pid: nat)
    requires pid in s.procs && s.procs[pid] == SessCascade(0) && s.leases == map[]
    ensures var t := Next(c, s, Go(pid, Pick(0)));
      && t.procs == s.procs[pid := t.procs[pid]] && t.leases == map[] && t.issued == s.issued
      && t.sessions == s.sessions && 0 in t.cascadedAt
  {
  }

  /** The session is marked and its cascade completes while process 0 waits. */
  lemma RevokeMeanwhile(c: Config, run: seq<Label>, sc: Scope, p: Proc -> bool) returns (longer: seq<Label>)
    requires Bounded(c, run, p, 2)
    requires var s := After(c, Empty, run);
      s.procs.Keys == {0} && s.sessions == Held(sc, 0) && s.leases == map[]
    ensures Bounded(c, longer, p, 2)
    ensures var s, t := After(c, Empty, run), After(c, Empty, longer);
      && t.procs.Keys == {0, 1} && t.procs[0] == s.procs[0] && t.leases == map[] && t.issued == s.issued
      && 0 in t.sessions && t.sessions[0].revoked && t.sessions[0].id == 0 && 0 in t.cascadedAt
  {
    hide AtMost, Possible, LeasesAfter, SessionsAfter, ProcsAfter, Held, LogOf, GuardsOf;
    longer := Extend(c, run, Spawn(1, SessMark(0)), p, 2);
    hide Next;
    MarkStep(c, After(c, Empty, longer), 1, sc);
    longer := Extend(c, longer, Go(1, Pick(0)), p, 2);
    CascadeStep(c, After(c, Empty, longer), 1);
    longer := Extend(c, longer, Go(1, Pick(0)), p, 2);
  }

  /**
   * What `OnlyEarlierPassesSurvive` allows does happen: a request that passed the session check
   * before the revocation leaves a live lease linked to a session whose cascade is complete.
   */
  lemma CascadeOutrun(c: Config, a: Ask, sc: Scope) returns (run: seq<Label>)
    requires Permitted(c, a, sc)
    ensures Possible(c, Empty, run)
    ensures var s := After(c, Empty, run);
      && 0 in s.leases && !s.leases[0].revoked && s.leases[0].sessionId == Some(0)
      && 0 in s.cascadedAt && 0 in s.sessions && s.sessions[0].id == 0 && s.sessions[0].revoked
  {
    hide Next, AtMost, Possible, Evaluate, ToolAllowed, Made, GrantEntry, ActiveCount, Held;
    var p := (_: Proc) => true;
    var link;
    run := Open(c, sc, p, 2);
    run, link := StartScoped(c, run, 0, a, sc, 0, p, 2);
    run := RevokeMeanwhile(c, run, sc, p);
    NoneActive(After(c, Empty, run), a.agent);
    run := Serve(c, run, 0, a, link, 0, p, 2);
    LinkStep(c, After(c, Empty, run), 0, 0, link.value);
    run := Extend(c, run, Go(0, Pick(0)), p, 2);
  }

  // ---- Renewals before the link do not count against the limit ----

  lemma RenewStep(c: Config, s: Sys, pid: nat, id: LeaseId)
    requires pid in s.procs && s.procs[pid] == RenewFlip(id, 1) && id in s.leases
    requires s.leases[id].renewable && !s.leases[id].revoked
    requires s.leases[id].expiresAt >= 0 && s.leases[id].sessionId.None?
    ensures var t := Next(c, s, Go(pid, Pick(0)));
      && t.procs == s.procs[pid := t.procs[pid]] && t.procs[pid].Logging?
      && var l := s.leases[id];
      && t == s.(procs := t.procs, steps := s.steps + 1,
                 leases := s.leases[id := l.(expiresAt := NANOS_PER_SECOND, renewalCount := l.renewalCount + 1)])
  {
  }

  /** An inserted lease waits to be linked. */
  ghost predicate Unlinked(s: Sys, link: Option<Link>, sc: Scope, k: nat) {
    && OfSession(link) && s.procs == map[0 := ReqLink(0, link.value)] && s.sessions == Held(sc, 0) && 0 in s.leases
    && var l := s.leases[0];
       l.renewable && !l.revoked && l.expiresAt >= 0 && l.sessionId.None? && l.renewalCount == k
  }

  lemma RenewOnce(c: Config, run: seq<Label>, link: Option<Link>, sc: Scope, k: nat, p: Proc -> bool)
    returns (longer: seq<Label>)
    requires Bounded(c, run, p, 2) && Unlinked(After(c, Empty, run), link, sc, k)
    ensures Bounded(c, longer, p, 2) && Unlinked(After(c, Empty, longer), link, sc, k + 1)
  {
    hide AtMost, Possible, LeasesAfter, SessionsAfter, ProcsAfter, LogOf, GuardsOf, Held;
    var s := After(c, Empty, run);
    longer := Extend(c, run, Spawn(1, RenewFlip(0, 1)), p, 2);
    hide Next;
    RenewStep(c, After(c, Empty, longer), 1, 0);
    longer := Extend(c, longer, Go(1, Pick(0)), p, 2);
    LoggingReturns(c, After(c, Empty, longer), 1);
    longer := Extend(c, longer, Go(1, Pick(0)), p, 2);
    assert After(c, Empty, longer).procs == s.procs;
  }

  lemma {:induction false} RenewOften(c: Config, run: seq<Label>, link: Option<Link>, sc: Scope, k: nat,
                                      p: Proc -> bool)
    returns (longer: seq<Label>)
    requires Bounded(c, run, p, 2) && Unlinked(After(c, Empty, run), link, sc, 0)
    ensures Bounded(c, longer, p, 2) && Unlinked(After(c, Empty, longer), link, sc, k)
    decreases k
  {
    hide Bounded, Unlinked;
    longer := run;
    if k > 0 {
      longer := RenewOften(c, run, link, sc, k - 1, p);
      longer := RenewOnce(c, longer, link, sc, k - 1, p);
    }
  }

  lemma MadeRenewable(a: Ask)
    requires a.terms.renewable && a.terms.ttl >= 0
    ensures Made(a, 0).renewable && Made(a, 0).expiresAt >= 0 && Made(a, 0).renewalCount == 0
  {
  }

  /** A scoped request up to the insertion of its lease. */
  lemma WaitUnlinked(c: Config, a: Ask, sc: Scope, p: Proc -> bool) returns (run: seq<Label>, link: Option<Link>)
    requires Permitted(c, a, sc) && a.terms.renewable && a.terms.ttl >= 0
    ensures Bounded(c, run, p, 2) && Unlinked(After(c, Empty, run), link, sc, 0)
  {
    MadeRenewable(a);
    hide Next, AtMost, Possible, Evaluate, ToolAllowed, ActiveCount, Made, Held;
    run := Open(c, sc, p, 2);
    run, link := StartScoped(c, run, 0, a, sc, 0, p, 2);
    NoneActive(After(c, Empty, run), a.agent);
    run := Serve(c, run, 0, a, link, 0, p, 2);
  }

  /**
   * For every number there is a run in which a lease was renewed that often before it was linked,
   * whatever the limit of the session it is then linked to.
   */
  lemma RenewalLimitPassed(c: Config, a: Ask, sc: Scope, k: nat) returns (run: seq<Label>)
    requires Permitted(c, a, sc) && a.terms.renewable && a.terms.ttl >= 0
    ensures Possible(c, Empty, run)
    ensures var s := After(c, Empty, run);
      && 0 in s.leases && s.leases[0].sessionId == Some(0) && s.leases[0].renewalCount == k
      && 0 in s.linkedAt && s.linkedAt[0].renewals == k && s.linkedAt[0].at + 1 == s.steps
      && 0 in s.sessions && s.sessions[0].id == 0 && s.sessions[0].policy == sc.policy
  {
    hide Next, AtMost, Possible, Permitted;
    var p := (_: Proc) => true;
    var link;
    run, link := WaitUnlinked(c, a, sc, p);
    run := RenewOften(c, run, link, sc, k, p);
    LinkStep(c, After(c, Empty, run), 0, 0, link.value);
    run := Extend(c, run, Go(0, Pick(0)), p, 2);
  }
}
