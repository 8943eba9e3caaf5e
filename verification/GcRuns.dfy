/**
 * Runs in which collecting leases or sessions can be told from not collecting them.
 *
 * Each begins with a vault opened on a store that has the secret, and goes through the vault's own
 * operations only.
 */
module GcRuns {
  import opened Types
  import opened Counting
  import opened Identity
  import opened Policy
  import opened Leases
  import opened Sessions
  import opened VaultModel
  import opened VaultRuns
  import Gc

  /** Somebody who is granted the secret, one lease at a time, and a session that lets the tool use it. */
  datatype Case = Case(agent: AgentId, name: SecretName, domain: DomainScope, policy: SessionPolicy, tool: string)

  ghost predicate Granting(c: Config, w: World, k: Case) {
    && Start(c, w) && k.name in w.s.store
    && c.maxLeasesPerAgent == 1 && Evaluate(c.policy, k.agent, k.name, k.domain).Ok?
  }

  ghost predicate Admitting(k: Case) {
    && k.policy.maxDuration >= 0 && k.policy.maxConcurrentLeases >= 1
    && ToolAllowed(k.policy, k.tool, k.name, k.domain)
  }

  ghost function Terms(c: Config, w: World, k: Case): LeaseTerms
    requires Granting(c, w, k)
  {
    Evaluate(c.policy, k.agent, k.name, k.domain).value
  }

  function At(now: Time): Env {
    Env(now, true, true, {})
  }

  // ---- One operation more ----

  lemma More(c: Config, s: State, since: Time, ops: seq<Op>, op: Op)
    ensures var longer := ops + [op];
      && Run(c, s, longer) == Apply(c, Run(c, s, ops), op)
      && Gc.KeepingRun(c, s, longer) == Gc.KeepingApply(c, Gc.KeepingRun(c, s, ops), op)
      && Gc.LastTime(since, longer) == (if Gc.OpTime(op).Some? then Gc.OpTime(op).value else Gc.LastTime(since, ops))
      && (Gc.Monotone(c, s, since, longer) <==>
            && Gc.Monotone(c, s, since, ops)
            && (Gc.OpTime(op).Some? ==> Gc.LastTime(since, ops) <= Gc.OpTime(op).value)
            && (op.OpCreateSession? ==> op.token !in Gc.KeepingRun(c, s, ops).sessions))
  {
    hide Apply, Gc.OpTime;
    assert (ops + [op])[..|ops|] == ops;
  }

  lemma MoreRuns(c: Config, w: World, ops: seq<Op>, op: Op)
    requires AdmissibleRun(c, w, ops) && Admissible(c, Runs(c, w, ops), op)
    ensures AdmissibleRun(c, w, ops + [op]) && Runs(c, w, ops + [op]) == Step(c, Runs(c, w, ops), op)
  {
    hide Step, Admissible;
    assert (ops + [op])[..|ops|] == ops;
  }

  // ---- Collecting leases ----

  /** A request of somebody without leases is granted, of somebody with one it is refused. */
  lemma OneAtATime(c: Config, s: State, k: Case, id: LeaseId, now: Time)
    requires c.maxLeasesPerAgent == 1 && Evaluate(c.policy, k.agent, k.name, k.domain).Ok? && k.name in s.store
    ensures var (s', r) := RequestLease(c, s, k.agent, k.name, k.domain, id, At(now));
      var terms := Evaluate(c.policy, k.agent, k.name, k.domain).value;
      && s'.sessions == s.sessions && s'.store == s.store
      && (r.Ok? <==> ActiveCount(s.leases, k.agent) == 0)
      && s'.leases == (if r.Ok? then s.leases[id := NewLease(id, k.agent, k.name, [k.domain], terms, now)]
                       else s.leases)
  {
    hide Evaluate, ActiveCount;
  }

  lemma NoLease(leases: map<LeaseId, Lease>, agent: AgentId)
    requires leases == map[]
    ensures ActiveCount(leases, agent) == 0
  {
    assert Where(leases, ActiveFor(agent)) == {};
  }

  lemma OneLease(leases: map<LeaseId, Lease>, agent: AgentId)
    requires leases.Keys == {0} && leases[0].agent == agent && !leases[0].revoked
    ensures ActiveCount(leases, agent) == 1
  {
    assert Where(leases, ActiveFor(agent)) == {0};
  }

  /** The lease is granted at time 0. */
  lemma Granted(c: Config, w: World, k: Case) returns (pre: seq<Op>)
    requires Granting(c, w, k)
    ensures AdmissibleRun(c, w, pre) && Gc.Monotone(c, w.s, 0, pre) && Gc.LastTime(0, pre) == 0
    ensures var s := Runs(c, w, pre).s;
      s.leases == map[0 := NewLease(0, k.agent, k.name, [k.domain], Terms(c, w, k), 0)] && k.name in s.store
  {
    hide Evaluate, ActiveCount, RequestLease;
    NoLease(w.s.leases, k.agent);
    OneAtATime(c, w.s, k, 0, 0);
    var op := OpRequest(k.agent, k.name, k.domain, 0, At(0));
    pre := [] + [op];
    MoreRuns(c, w, [], op);
    More(c, w.s, 0, [], op);
  }

  /**
   * A lease that expired and was collected makes room under the cap, so a request is granted that
   * the vault without collection refuses.
   */
  lemma CollectingMakesRoom(c: Config, w: World, k: Case) returns (pre: seq<Op>, now: Time, op: Op)
    requires Granting(c, w, k)
    ensures AdmissibleRun(c, w, pre) && Gc.Monotone(c, w.s, 0, pre) && Gc.LastTime(0, pre) <= now
    ensures var s := Runs(c, w, pre).s;
      && Gc.FreshRequests(s, [op]) && op.OpRequest? && op.env.now == now
      && op.id in Run(c, GcLeases(s, now), [op]).leases && op.id !in Gc.Granted(c, s, [op])
  {
    hide Evaluate, ActiveCount, RequestLease, Runs;
    pre := Granted(c, w, k);
    var s := Runs(c, w, pre).s;
    now := if Terms(c, w, k).ttl < 0 then 0 else Terms(c, w, k).ttl;
    op := OpRequest(k.agent, k.name, k.domain, 1, At(now));
    var collected := GcLeases(s, now);
    assert collected.leases == map[];
    NoLease(collected.leases, k.agent);
    OneLease(s.leases, k.agent);
    OneAtATime(c, collected, k, 1, now);
    OneAtATime(c, s, k, 1, now);
    OnlyOne(c, s, op);
    OnlyOne(c, collected, op);
  }

  lemma OnlyOne(c: Config, s: State, op: Op)
    ensures Run(c, s, [op]) == Apply(c, s, op)
    ensures op.OpRequest? ==>
        Gc.Granted(c, s, [op]) == s.leases.Keys + if op.id in Apply(c, s, op).leases then {op.id} else {}
  {
    hide Apply;
    assert [op][..0] == [];
    assert Run(c, s, []) == s && Gc.PlainRun(c, s, []) == s;
  }

  // ---- Collecting sessions ----

  /** The lease as granted through session 0. */
  ghost function First(c: Config, w: World, k: Case): Lease
    requires Granting(c, w, k)
  {
    NewLease(0, k.agent, k.name, [k.domain], Terms(c, w, k), 0).(sessionId := Some(0))
  }

  function Session0(k: Case): Session {
    NewSession(0, "u", "c", k.policy, 0).(activeLeaseCount := 1)
  }

  function Create(k: Case, n: nat, now: Time): Op {
    OpCreateSession("u", "c", k.policy, n, n, At(now))
  }

  lemma CreateEffect(c: Config, s: State, k: Case, n: nat, now: Time)
    ensures var s' := Apply(c, s, Create(k, n, now));
      && s'.sessions == s.sessions[n := NewSession(n, "u", "c", k.policy, now)]
      && s'.leases == s.leases && s'.store == s.store
  {
    hide NumSeconds;
  }

  /** A session that has no lease yet passes the request on; then only the cap decides. */
  lemma ThroughSession(c: Config, s: State, k: Case, n: nat, id: LeaseId, now: Time)
    requires c.maxLeasesPerAgent == 1 && Evaluate(c.policy, k.agent, k.name, k.domain).Ok? && k.name in s.store
    requires Admitting(k) && n in s.sessions && s.sessions[n].policy == k.policy && s.sessions[n].activeLeaseCount == 0
    requires Active(s.sessions[n], now)
    ensures var (s', r) := RequestLeaseScoped(c, s, k.agent, k.name, k.domain, n, k.tool, id, At(now));
      var terms := Evaluate(c.policy, k.agent, k.name, k.domain).value;
      && (r.Ok? <==> ActiveCount(s.leases, k.agent) == 0)
      && (r.Ok? ==>
            && s'.leases == s.leases[id := NewLease(id, k.agent, k.name, [k.domain], terms, now)
                                             .(sessionId := Some(s.sessions[n].id))]
            && s'.sessions == s.sessions[n := s.sessions[n].(activeLeaseCount := 1)] && s'.store == s.store)
  {
    hide Evaluate, ActiveCount, RequestLease, ToolAllowed;
    OneAtATime(c, s, k, id, now);
  }

  /** Session 0 is created and a lease granted through it, at time 0. */
  lemma Linked(c: Config, w: World, k: Case) returns (pre: seq<Op>)
    requires Granting(c, w, k) && Admitting(k)
    ensures AdmissibleRun(c, w, pre) && Gc.Monotone(c, w.s, 0, pre) && Gc.LastTime(0, pre) == 0
    ensures var s := Runs(c, w, pre).s;
      s.leases == map[0 := First(c, w, k)] && s.sessions == map[0 := Session0(k)] && k.name in s.store
  {
    hide Evaluate, ActiveCount, RequestLeaseScoped, CreateSession, ToolAllowed, Readable;
    var create, ask := Create(k, 0, 0), OpRequestScoped(k.agent, k.name, k.domain, 0, k.tool, 0, At(0));
    CreateEffect(c, w.s, k, 0, 0);
    MoreRuns(c, w, [], create);
    More(c, w.s, 0, [], create);
    var s := Runs(c, w, [] + [create]).s;
    NoLease(s.leases, k.agent);
    ThroughSession(c, s, k, 0, 0, 0);
    MoreRuns(c, w, [] + [create], ask);
    More(c, w.s, 0, [] + [create], ask);
    pre := [] + [create] + [ask];
  }

  lemma Session0Goes(s: State, k: Case, now: Time)
    requires s.sessions == map[0 := Session0(k)] && now > k.policy.maxDuration
    ensures GcSessions(s, now) == s.(sessions := map[])
  {
    assert GcSessions(s, now).sessions == map[];
  }

  /** Both vaults are given one operation more. */
  ghost function Both(c: Config, s: State, now: Time, ops: seq<Op>): (State, State) {
    (Gc.KeepingRun(c, s, ops), Run(c, GcSessions(s, now), ops))
  }

  lemma MoreBoth(c: Config, s: State, now: Time, ops: seq<Op>, op: Op)
    requires !op.OpGcSessions? && Gc.Monotone(c, s, now, ops)
    requires Gc.OpTime(op).Some? && Gc.LastTime(now, ops) <= Gc.OpTime(op).value
    requires op.OpCreateSession? ==> op.token !in Both(c, s, now, ops).0.sessions
    ensures var longer := ops + [op]; var (kept, collected) := Both(c, s, now, ops);
      && Both(c, s, now, longer) == (Apply(c, kept, op), Apply(c, collected, op))
      && Gc.Monotone(c, s, now, longer) && Gc.LastTime(now, longer) == Gc.OpTime(op).value
  {
    hide Apply, Gc.OpTime, GcSessions;
    More(c, s, now, ops, op);
    More(c, GcSessions(s, now), now, ops, op);
  }

  lemma NoneYet(c: Config, s: State, now: Time)
    ensures Both(c, s, now, []) == (s, GcSessions(s, now))
    ensures Gc.Monotone(c, s, now, []) && Gc.LastTime(now, []) == now
  {
  }

  /** Whether a scoped request of the case, through session 1 at `now`, is granted. */
  ghost predicate Grants(c: Config, s: State, k: Case, now: Time) {
    RequestLeaseScoped(c, s, k.agent, k.name, k.domain, 1, k.tool, 1, At(now)).1.Ok?
  }

  lemma RevokeEffect(c: Config, s: State, now: Time)
    ensures var s' := Apply(c, s, OpRevokeSession(0, At(now)));
      && s'.store == s.store
      && (0 !in s.sessions ==> s' == s)
      && (0 in s.sessions ==>
            && s'.sessions == s.sessions[0 := RevokeSessionRecord(s.sessions[0])]
            && s'.leases == RevokeWhere(s.leases, BySession(s.sessions[0].id)))
  {
    hide RevocationEntries, RevokeWhere, Flipped;
  }

  /**
   * Session 0 runs out and is collected, then revoked by a token the collecting vault no longer
   * knows: its lease stays live there, and the cap refuses the next scoped request.
   */
  lemma RevokingCollectedSession(c: Config, w: World, k: Case) returns (pre: seq<Op>, now: Time, ops: seq<Op>)
    requires Granting(c, w, k) && Admitting(k)
    ensures AdmissibleRun(c, w, pre) && Gc.Monotone(c, w.s, 0, pre) && Gc.LastTime(0, pre) <= now
    ensures var s := Runs(c, w, pre).s;
      && Gc.Monotone(c, s, now, ops) && Gc.LastTime(now, ops) == now
      && Grants(c, Gc.KeepingRun(c, s, ops), k, now) && !Grants(c, Run(c, GcSessions(s, now), ops), k, now)
  {
    hide Evaluate, ActiveCount, RequestLeaseScoped, ToolAllowed, Runs, Apply, Gc.Monotone, Gc.KeepingRun, Run,
      AdmissibleRun, Gc.LastTime, Start;
    pre := Linked(c, w, k);
    var s := Runs(c, w, pre).s;
    now := k.policy.maxDuration + 1;
    Session0Goes(s, k, now);
    NoneYet(c, s, now);
    var create, revoke := Create(k, 1, now), OpRevokeSession(0, At(now));
    MoreBoth(c, s, now, [], create);
    CreateEffect(c, s, k, 1, now);
    CreateEffect(c, GcSessions(s, now), k, 1, now);
    MoreBoth(c, s, now, [] + [create], revoke);
    var (kept, collected) := Both(c, s, now, [] + [create]);
    RevokeEffect(c, kept, now);
    RevokeEffect(c, collected, now);
    ops := [] + [create] + [revoke];
    Dead(Both(c, s, now, ops).0.leases, k.agent);
    OneLease(Both(c, s, now, ops).1.leases, k.agent);
    ThroughSession(c, Both(c, s, now, ops).0, k, 1, 1, now);
    ThroughSession(c, Both(c, s, now, ops).1, k, 1, 1, now);
  }

  lemma Dead(leases: map<LeaseId, Lease>, agent: AgentId)
    requires leases.Keys == {0} && leases[0].revoked
    ensures ActiveCount(leases, agent) == 0
  {
    assert Where(leases, ActiveFor(agent)) == {};
  }

  lemma RenewRefused(c: Config, s: State, now: Time)
    requires 0 in s.leases && 0 in s.sessions && s.sessions[0].id == 0 && s.sessions[0].policy.maxRenewalsPerLease == 0
    requires s.leases[0].sessionId == Some(0)
    ensures Apply(c, s, OpRenew(0, 3600, At(now))) == s
  {
    assert RenewalCapped(s.sessions, 0, s.leases[0].renewalCount);
  }

  lemma RenewGranted(c: Config, s: State, now: Time)
    requires 0 in s.leases && s.sessions == map[] && now <= s.leases[0].expiresAt
    requires s.leases[0].renewable && !s.leases[0].revoked
    ensures var s', l := Apply(c, s, OpRenew(0, 3600, At(now))), s.leases[0];
      && s'.sessions == s.sessions && s'.store == s.store
      && s'.leases == s.leases[0 := l.(expiresAt := now + 3600 * NANOS_PER_SECOND, renewalCount := l.renewalCount + 1)]
  {
    var l := s.leases[0];
    assert l.sessionId.Some? ==> !RenewalCapped(s.sessions, l.sessionId.value, l.renewalCount);
  }

  /** Only a lease with a second left is kept. */
  lemma KeptIff(s: State, agent: AgentId, now: Time)
    requires s.leases.Keys == {0} && s.leases[0].agent == agent && !s.leases[0].revoked
    ensures var s' := GcLeases(s, now);
      && s'.sessions == s.sessions && s'.store == s.store
      && (ActiveCount(s'.leases, agent) == 0 <==> s.leases[0].expiresAt - now < NANOS_PER_SECOND)
  {
    var s' := GcLeases(s, now);
    if Kept(s.leases[0], now) {
      OneLease(s'.leases, agent);
    } else {
      assert s'.leases == map[];
      NoLease(s'.leases, agent);
    }
  }

  /**
   * Session 0, which allows no renewals, runs out and is collected; then its lease is renewed, which
   * only the collecting vault permits, and the lease stays there past the point where the other
   * vault drops it.
   */
  lemma RenewingAgainstCollectedSession(c: Config, w: World, k: Case) returns (pre: seq<Op>, now: Time, ops: seq<Op>)
    requires Granting(c, w, k) && Admitting(k) && k.policy.maxRenewalsPerLease == 0
    requires Terms(c, w, k).renewable && k.policy.maxDuration < Terms(c, w, k).ttl
    ensures AdmissibleRun(c, w, pre) && Gc.Monotone(c, w.s, 0, pre) && Gc.LastTime(0, pre) <= now
    ensures var s := Runs(c, w, pre).s; var later := Gc.LastTime(now, ops);
      && Gc.Monotone(c, s, now, ops) && now <= later
      && Grants(c, Gc.KeepingRun(c, s, ops), k, later) && !Grants(c, Run(c, GcSessions(s, now), ops), k, later)
  {
    hide Evaluate, ActiveCount, RequestLeaseScoped, ToolAllowed, Runs, Apply, Gc.Monotone, Gc.KeepingRun, Run,
      AdmissibleRun, Gc.LastTime, Start;
    pre := Linked(c, w, k);
    var s := Runs(c, w, pre).s;
    now := k.policy.maxDuration + 1;
    var later := Terms(c, w, k).ttl;
    Session0Goes(s, k, now);
    NoneYet(c, s, now);
    var renew := OpRenew(0, 3600, At(later));
    MoreBoth(c, s, now, [], renew);
    RenewRefused(c, s, later);
    RenewGranted(c, GcSessions(s, now), later);
    ops := DropAndAsk(c, s, k, now, [] + [renew], later);
  }

  /** Afterwards session 1 is created, leases are collected, and the request is made. */
  lemma DropAndAsk(c: Config, s: State, k: Case, now: Time, ops: seq<Op>, later: Time) returns (longer: seq<Op>)
    requires c.maxLeasesPerAgent == 1 && Evaluate(c.policy, k.agent, k.name, k.domain).Ok? && Admitting(k)
    requires Gc.Monotone(c, s, now, ops) && Gc.LastTime(now, ops) == later
    requires var (kept, collected) := Both(c, s, now, ops);
      && kept.leases.Keys == {0} && kept.leases[0].agent == k.agent && !kept.leases[0].revoked
      && collected.leases.Keys == {0} && collected.leases[0].agent == k.agent && !collected.leases[0].revoked
      && kept.leases[0].expiresAt == later && collected.leases[0].expiresAt == later + 3600 * NANOS_PER_SECOND
      && 1 !in kept.sessions && k.name in kept.store && k.name in collected.store
    ensures Gc.Monotone(c, s, now, longer) && Gc.LastTime(now, longer) == later
    ensures Grants(c, Gc.KeepingRun(c, s, longer), k, later) && !Grants(c, Run(c, GcSessions(s, now), longer), k, later)
  {
    hide Evaluate, ActiveCount, RequestLeaseScoped, ToolAllowed, Apply, Gc.Monotone, Gc.KeepingRun, Run, Gc.LastTime;
    var create, gc := Create(k, 1, later), OpGcLeases(later);
    var (kept, collected) := Both(c, s, now, ops);
    MoreBoth(c, s, now, ops, create);
    CreateEffect(c, kept, k, 1, later);
    CreateEffect(c, collected, k, 1, later);
    MoreBoth(c, s, now, ops + [create], gc);
    longer := ops + [create] + [gc];
    GcApplied(c, Both(c, s, now, ops + [create]).0, k.agent, later);
    GcApplied(c, Both(c, s, now, ops + [create]).1, k.agent, later);
    ThroughSession(c, Both(c, s, now, longer).0, k, 1, 1, later);
    ThroughSession(c, Both(c, s, now, longer).1, k, 1, 1, later);
  }

  lemma GcApplied(c: Config, s: State, agent: AgentId, now: Time)
    requires s.leases.Keys == {0} && s.leases[0].agent == agent && !s.leases[0].revoked
    ensures var s' := Apply(c, s, OpGcLeases(now));
      && s'.sessions == s.sessions && s'.store == s.store
      && (ActiveCount(s'.leases, agent) == 0 <==> s.leases[0].expiresAt - now < NANOS_PER_SECOND)
  {
    hide ActiveCount;
    KeptIff(s, agent, now);
  }
}
