/**
 * What a lease may be used for under every interleaving.
 *
 * A scoped request checks the tool binding in one lock scope and links its lease to the session
 * several scopes later, when the session may be revoked or collected already.
 */
module Delegation {
  import opened Types
  import opened Identity
  import opened Policy
  import opened Leases
  import opened Sessions
  import opened VaultModel
  import opened Interleaving
  import opened Concurrency
  import opened SessionCascade
  import RenewalLimits

  /** The lease was issued for what the session's policy lets the tool have. */
  ghost predicate Bound(issued: LeaseMap, id: LeaseId, policy: SessionPolicy, tool: string) {
    && id in issued && |issued[id].allowedDomains| == 1
    && ToolAllowed(policy, tool, issued[id].secretName, issued[id].allowedDomains[0])
  }

  /** A scoped request in flight asks for what its session's policy lets its tool have. */
  ghost predicate ProcBound(issued: LeaseMap, p: Proc) {
    match p
    case ReqPolicy(_, name, domain, Some(pass)) => ToolAllowed(pass.policy, pass.tool, name, domain)
    case ReqCap(_, name, domain, Some(pass), _) => ToolAllowed(pass.policy, pass.tool, name, domain)
    case ReqLookup(_, name, domain, Some(pass), _) => ToolAllowed(pass.policy, pass.tool, name, domain)
    case ReqAudit(l, Some(pass)) => Bound(issued, l.id, pass.policy, pass.tool)
    case ReqInsert(l, Some(pass)) => Bound(issued, l.id, pass.policy, pass.tool)
    case ReqLink(id, pass) => Bound(issued, id, pass.policy, pass.tool)
    case _ => true
  }

  /** If the session is held, that is its policy. */
  ghost predicate PolicyOf(s: Sys, sid: SessionId, policy: SessionPolicy) {
    sid in s.sessionIds && forall t | t in s.sessions && s.sessions[t].id == sid :: s.sessions[t].policy == policy
  }

  ghost predicate ProcsBound(s: Sys) {
    forall k | k in s.procs :: ProcBound(s.issued, s.procs[k])
  }

  ghost predicate LinksBound(s: Sys) {
    forall id | id in s.linkedAt :: Bound(s.issued, id, s.linkedAt[id].policy, s.linkedAt[id].tool)
  }

  ghost predicate PassPolicies(s: Sys) {
    forall k | k in s.procs && LinkOf(s.procs[k]).Some? ::
      PolicyOf(s, LinkOf(s.procs[k]).value.session, LinkOf(s.procs[k]).value.policy)
  }

  ghost predicate LinkPolicies(s: Sys) {
    forall id | id in s.leases && s.leases[id].sessionId.Some? ::
      id in s.linkedAt && PolicyOf(s, s.leases[id].sessionId.value, s.linkedAt[id].policy)
  }

  // ---- Every step keeps them ----

  /** Lease records stay as made. */
  lemma IssuedStays(s: Sys, p: Proc, ch: Choice, id: LeaseId)
    requires id in s.issued && (p.ReqLookup? ==> ch.newId !in s.issued)
    ensures id in IssuedAfter(s, p, ch) && IssuedAfter(s, p, ch)[id] == s.issued[id]
  {
  }

  lemma StillBound(s: Sys, p: Proc, ch: Choice, q: Proc)
    requires ProcBound(s.issued, q) && (p.ReqLookup? ==> ch.newId !in s.issued)
    ensures ProcBound(IssuedAfter(s, p, ch), q)
  {
    hide IssuedAfter, ToolAllowed;
    match q
    case ReqAudit(l, Some(pass)) => IssuedStays(s, p, ch, l.id);
    case ReqInsert(l, Some(pass)) => IssuedStays(s, p, ch, l.id);
    case ReqLink(id, pass) => IssuedStays(s, p, ch, id);
    case _ =>
  }

  /** The moving request itself. */
  lemma BoundFlow(c: Config, s: Sys, p: Proc, ch: Choice)
    requires ProcBound(s.issued, p) && (p.ReqLookup? ==> ch.newId !in s.issued)
    ensures var q := ProcAfter(c, s, p, ch); q.Some? ==> ProcBound(IssuedAfter(s, p, ch), q.value)
  {
    hide ActiveCount, FirstMatch, UseLease, Renewable, Flipped, ToolAllowed;
  }

  lemma ProcsBoundStep(c: Config, s: Sys, a: Label)
    requires ProcsBound(s) && Enabled(s, a)
    ensures ProcsBound(Next(c, s, a))
  {
    hide ProcAfter, ProcsAfter, LeasesAfter, SessionsAfter, IssuedAfter, GoneAfter, LogOf, GuardsOf;
    var s' := Next(c, s, a);
    if a.Go? {
      hide ProcBound;
      BoundFlow(c, s, s.procs[a.pid], a.ch);
      forall k | k in s'.procs ensures ProcBound(s'.issued, s'.procs[k]) {
        ProcFlow(c, s, a.pid, a.ch, k);
        if k != a.pid {
          StillBound(s, s.procs[a.pid], a.ch, s.procs[k]);
        }
      }
    }
  }

  lemma LinksBoundStep(c: Config, s: Sys, a: Label)
    requires ProcsBound(s) && LinksBound(s) && Enabled(s, a)
    ensures LinksBound(Next(c, s, a))
  {
    hide ProcAfter, ProcsAfter, LeasesAfter, SessionsAfter, IssuedAfter, GoneAfter, LogOf, GuardsOf, ToolAllowed;
    if a.Go? {
      var p, s' := s.procs[a.pid], Next(c, s, a);
      assert ProcBound(s.issued, p);
      forall id | id in s'.linkedAt ensures Bound(s'.issued, id, s'.linkedAt[id].policy, s'.linkedAt[id].tool) {
        assert id in s.issued && Bound(s.issued, id, s'.linkedAt[id].policy, s'.linkedAt[id].tool);
        IssuedStays(s, p, a.ch, id);
      }
    }
  }

  /** Sessions keep their policies, and new ones have new ids. */
  lemma PolicyStays(s: Sys, p: Proc, ch: Choice, t: Token)
    requires t in SessionsAfter(s, p, ch)
    ensures if p.SessCreate? && t == ch.newToken then SessionsAfter(s, p, ch)[t].id == ch.newSession
            else t in s.sessions && SessionsAfter(s, p, ch)[t].id == s.sessions[t].id
                 && SessionsAfter(s, p, ch)[t].policy == s.sessions[t].policy
  {
    hide Active;
  }

  lemma StillPolicyOf(c: Config, s: Sys, a: Label, sid: SessionId, policy: SessionPolicy)
    requires PolicyOf(s, sid, policy) && Enabled(s, a)
    ensures PolicyOf(Next(c, s, a), sid, policy)
  {
    hide ProcAfter, ProcsAfter, LeasesAfter, SessionsAfter, IssuedAfter, GoneAfter, LogOf, GuardsOf;
    if a.Go? {
      var s' := Next(c, s, a);
      forall t | t in s'.sessions && s'.sessions[t].id == sid ensures s'.sessions[t].policy == policy {
        PolicyStays(s, s.procs[a.pid], a.ch, t);
      }
    }
  }

  lemma PassPoliciesStep(c: Config, s: Sys, a: Label)
    requires PassPolicies(s) && MarksOk(s) && Enabled(s, a)
    ensures PassPolicies(Next(c, s, a))
  {
    hide ProcAfter, ProcsAfter, LeasesAfter, SessionsAfter, IssuedAfter, GoneAfter, LogOf, GuardsOf, LinkOf;
    var s' := Next(c, s, a);
    forall k | k in s'.procs && LinkOf(s'.procs[k]).Some?
      ensures PolicyOf(s', LinkOf(s'.procs[k]).value.session, LinkOf(s'.procs[k]).value.policy)
    {
      var pass := LinkOf(s'.procs[k]).value;
      if a.Go? {
        LinkFlow(c, s, s.procs[a.pid], a.ch);
        ProcFlow(c, s, a.pid, a.ch, k);
      } else if k == a.pid {
        InitialUnlinked(a.proc);
      }
      assert PolicyOf(s, pass.session, pass.policy);
      hide Next, PolicyOf;
      StillPolicyOf(c, s, a, pass.session, pass.policy);
    }
  }

  /** A linked lease after a step: linked just now, or before. */
  lemma LinkPolicy(c: Config, s: Sys, pid: nat, ch: Choice, id: LeaseId)
    requires LinkPolicies(s) && PassPolicies(s) && CarriedOk(s) && IssuedOk(s) && Enabled(s, Go(pid, ch))
    requires var s' := Next(c, s, Go(pid, ch)); id in s'.leases && s'.leases[id].sessionId.Some?
    ensures var s' := Next(c, s, Go(pid, ch));
      id in s'.linkedAt && PolicyOf(s, s'.leases[id].sessionId.value, s'.linkedAt[id].policy)
  {
    hide ProcAfter, ProcsAfter, LeasesAfter, SessionsAfter, IssuedAfter, GoneAfter, LogOf, GuardsOf, Descends, PolicyOf;
    var p := s.procs[pid];
    CarriedKinds(p);
    RenewalLimits.LinkKinds(p);
    if p.ReqInsert? && p.lease.id == id {
      InsertedLease(s, p, ch);
    } else {
      LeaseFlow(s, p, ch, id);
      if p.ReqLink? && p.id == id {
        LinkSets(s, p, ch);
      }
    }
  }

  lemma LinkPoliciesStep(c: Config, s: Sys, a: Label)
    requires LinkPolicies(s) && PassPolicies(s) && CarriedOk(s) && IssuedOk(s) && Enabled(s, a)
    ensures LinkPolicies(Next(c, s, a))
  {
    var s' := Next(c, s, a);
    assert a.Spawn? ==> s'.leases == s.leases && s'.linkedAt == s.linkedAt;
    hide Next, PolicyOf, CarriedOk, IssuedOk, PassPolicies;
    forall id | id in s'.leases && s'.leases[id].sessionId.Some?
      ensures id in s'.linkedAt && PolicyOf(s', s'.leases[id].sessionId.value, s'.linkedAt[id].policy)
    {
      if a.Go? {
        LinkPolicy(c, s, a.pid, a.ch, id);
      }
      StillPolicyOf(c, s, a, s'.leases[id].sessionId.value, s'.linkedAt[id].policy);
    }
  }

  ghost predicate AllBound(s: Sys) {
    ProcsBound(s) && LinksBound(s) && PassPolicies(s) && LinkPolicies(s)
  }

  lemma {:induction false} BoundRun(c: Config, run: seq<Label>)
    requires Possible(c, Empty, run)
    ensures AllBound(After(c, Empty, run))
    decreases |run|
  {
    hide Next, Enabled;
    if run != [] {
      hide ProcsBound, LinksBound, PassPolicies, LinkPolicies, MarksOk, IssuedOk, CarriedOk;
      var init, a := run[..|run| - 1], run[|run| - 1];
      BoundRun(c, init);
      IssuedRun(c, init);
      CascadeRun(c, init);
      var s := After(c, Empty, init);
      ProcsBoundStep(c, s, a);
      LinksBoundStep(c, s, a);
      PassPoliciesStep(c, s, a);
      LinkPoliciesStep(c, s, a);
    }
  }

  /**
   * Under every interleaving: whenever the check of an access passes for a target, a grant of the
   * policy permits that agent that secret for that target; and if the lease is linked to a session,
   * so does a binding, in the policy of that session, of the tool the lease was requested for.
   */
  lemma DelegationSound(c: Config, run: seq<Label>, id: LeaseId, target: string, now: Time)
    requires Possible(c, Empty, run) && UseLease(After(c, Empty, run).leases, id, target, now).Ok?
    ensures var s := After(c, Empty, run);
      && id in s.leases
      && var l := s.leases[id];
      && Evaluate(c.policy, l.agent, l.secretName, target).Ok?
      && (exists i: nat | i < |c.policy.grants| :: Permits(c.policy.grants[i], l.agent, l.secretName, target))
      && (l.sessionId.Some? ==>
            && id in s.linkedAt && var link := s.linkedAt[id];
            && (exists b | b in link.policy.toolBindings ::
                  && b.toolName == link.tool && l.secretName in b.allowedSecrets
                  && exists d | d in b.allowedDomains :: Matches(d, target))
            && forall t | t in s.sessions && s.sessions[t].id == l.sessionId.value ::
                 s.sessions[t].policy == link.policy)
  {
    hide Next, Enabled, Evaluate, ToolAllowed, Matches;
    IssuedRun(c, run);
    TermsRun(c, run);
    BoundRun(c, run);
    var s := After(c, Empty, run);
    hide Possible, After;
    var l := s.leases[id];
    assert AsGranted(c.policy, s.issued[id]) && Descends(s.issued[id], l);
    var i :| 0 <= i < |l.allowedDomains| && Matches(l.allowedDomains[i], target);
    PolicyMonotone(c.policy, l.agent, l.secretName, l.allowedDomains[0], target);
    EvaluateMeaning(c.policy, l.agent, l.secretName, target);
    if l.sessionId.Some? {
      ToolMonotone(s.linkedAt[id].policy, s.linkedAt[id].tool, l.secretName, l.allowedDomains[0], target);
      ToolMeaning(s.linkedAt[id].policy, s.linkedAt[id].tool, l.secretName, target);
    }
  }
}
