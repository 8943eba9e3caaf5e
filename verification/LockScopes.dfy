/**
 * The lock scopes of `Locks` and the steps of `Interleaving` are the same thing: each step runs
 * under the scopes its call holds there, and touches nothing those scopes do not cover.
 */
module LockScopes {
  import opened Types
  import opened Policy
  import opened Leases
  import opened Sessions
  import opened VaultModel
  import opened Interleaving
  import L = Locks

  /** What the scopes of a call depend on. */
  datatype Branch = Branch(toolDenied: bool, policyDenies: bool, inSession: bool, flips: nat)

  const AUDIT: L.Scopes := L.Brief(L.AuditLock, L.Write, L.Done)

  function Then(a: L.Scopes, b: L.Scopes): L.Scopes {
    if a.Done? then b else L.Scope(a.lock, a.mode, a.inside, Then(a.next, b))
  }

  /** The scopes a step runs under, one after the other if it stands for two. */
  function ScopeAt(p: Proc, b: Branch): L.Scopes {
    match p
    case ScopedStart(_, _, _, _, _) => L.Scope(L.SessionsLock, L.Read, if b.toolDenied then AUDIT else L.Done, L.Done)
    case ReqPolicy(_, _, _, _) => L.Scope(L.PolicyLock, L.Read, if b.policyDenies then AUDIT else L.Done, L.Done)
    case ReqCap(_, _, _, _, _) => L.Brief(L.LeasesLock, L.Read, L.Done)
    case ReqLookup(_, _, _, _, _) => L.Brief(L.StoreLock, L.Write, L.Done)
    case ReqAudit(_, _) => AUDIT
    case ReqInsert(_, _) => L.Brief(L.LeasesLock, L.Write, L.Done)
    case ReqLink(_, _) => L.Brief(L.LeasesLock, L.Write, L.Done)
    case ReqCount(_) => L.Brief(L.SessionsLock, L.Write, L.Done)
    case AccUse(_, _) => L.Brief(L.LeasesLock, L.Write, L.Done)
    case AccFetch(_, _, _, _) => L.Brief(L.StoreLock, L.Write, L.Brief(L.DekLock, L.Read, L.Done))
    case AccAudit(_, _, _, _) => AUDIT
    case RevFlip(_, _) => L.Brief(L.LeasesLock, L.Write, L.Done)
    case RenewFlip(_, _) =>
      L.Scope(L.LeasesLock, L.Write, if b.inSession then L.Brief(L.SessionsLock, L.Read, L.Done) else L.Done, L.Done)
    case BulkFlip(sel) =>
      L.Scope(L.LeasesLock, L.Write, L.Times(b.flips, L.AuditLock, L.Done),
              if sel.BySecret? then L.Brief(L.StoreLock, L.Write, L.Done) else L.Done)
    case SessMark(_) => L.Brief(L.SessionsLock, L.Write, L.Done)
    case SessCascade(_) => L.Scope(L.LeasesLock, L.Write, L.Times(b.flips, L.AuditLock, L.Done), L.Done)
    case SessCreate(_, _, _) => L.Brief(L.SessionsLock, L.Write, L.Done)
    case CollectLeases => L.Brief(L.LeasesLock, L.Write, L.Done)
    case CollectSessions => L.Brief(L.SessionsLock, L.Write, L.Done)
    case Logging(_) => AUDIT
  }

  /** The scopes of the steps that follow, if the call runs to its end. */
  function Rest(p: Proc, b: Branch): L.Scopes {
    match p
    case ScopedStart(_, _, _, _, _) =>
      if b.toolDenied then L.Done
      else L.Scope(L.PolicyLock, L.Read, if b.policyDenies then AUDIT else L.Done,
                   if b.policyDenies then L.Done else Checked(true))
    case ReqPolicy(_, _, _, link) => if b.policyDenies then L.Done else Checked(link.Some?)
    case ReqCap(_, _, _, link, _) => L.Brief(L.StoreLock, L.Write, Found(link.Some?))
    case ReqLookup(_, _, _, link, _) => Found(link.Some?)
    case ReqAudit(_, link) => L.Brief(L.LeasesLock, L.Write, Inserted(link.Some?))
    case ReqInsert(_, link) => Inserted(link.Some?)
    case ReqLink(_, _) => L.Brief(L.SessionsLock, L.Write, L.Done)
    case AccUse(_, _) => L.Brief(L.StoreLock, L.Write, L.Brief(L.DekLock, L.Read, AUDIT))
    case AccFetch(_, _, _, _) => AUDIT
    case RevFlip(_, _) => AUDIT
    case RenewFlip(_, _) => AUDIT
    case BulkFlip(sel) => if sel.BySecret? then AUDIT else L.Done
    case SessMark(_) => L.Scope(L.LeasesLock, L.Write, L.Times(b.flips, L.AuditLock, L.Done), AUDIT)
    case SessCascade(_) => AUDIT
    case SessCreate(_, _, _) => AUDIT
    case _ => L.Done
  }

  /** A request whose policy check passed. */
  function Checked(scoped: bool): L.Scopes {
    L.Brief(L.LeasesLock, L.Read, L.Brief(L.StoreLock, L.Write, Found(scoped)))
  }

  /** A request that found its secret. */
  function Found(scoped: bool): L.Scopes {
    L.Brief(L.AuditLock, L.Write, L.Brief(L.LeasesLock, L.Write, Inserted(scoped)))
  }

  /** A request whose lease is inserted. */
  function Inserted(scoped: bool): L.Scopes {
    if scoped then L.Brief(L.LeasesLock, L.Write, L.Brief(L.SessionsLock, L.Write, L.Done)) else L.Done
  }

  /** The call that a process starts as. */
  function CallOf(p: Proc, b: Branch): L.Call
    requires Initial(p)
  {
    match p
    case ScopedStart(_, _, _, _, _) => L.RequestLeaseScoped(b.toolDenied, b.policyDenies)
    case ReqPolicy(_, _, _, _) => L.RequestLease(b.policyDenies)
    case AccUse(_, _) => L.AccessSecret
    case RevFlip(_, _) => L.RevokeLease
    case RenewFlip(_, _) => L.RenewLease(b.inSession)
    case BulkFlip(sel) => if sel.BySecret? then L.DeleteSecret(b.flips) else L.RevokeAllForAgent(b.flips)
    case SessMark(_) => L.RevokeSession(b.flips)
    case SessCreate(_, _, _) => L.CreateSession
    case CollectLeases => L.GcLeases
    case CollectSessions => L.GcSessions
  }

  /** Whether the branches taken at this step are those of `b`. */
  ghost predicate Takes(c: Config, s: Sys, p: Proc, ch: Choice, b: Branch) {
    match p
    case ScopedStart(_, name, domain, token, tool) =>
      b.toolDenied <==>
        SessionCheck(s.sessions, token, tool, name, domain, ch.now) == Err(AccessDenied(tool, name, domain))
    case ReqPolicy(agent, name, domain, _) => b.policyDenies <==> Evaluate(c.policy, agent, name, domain).Err?
    case RenewFlip(id, _) => b.inSession <==> id in s.leases && s.leases[id].sessionId.Some?
    case BulkFlip(sel) => b.flips == |Flipped(s.leases, sel)|
    case SessCascade(sid) => b.flips == |Flipped(s.leases, BySession(sid))|
    case _ => true
  }

  /** A call starts with the scopes of `Locks` ahead of it. */
  lemma StartsWith(p: Proc, b: Branch)
    requires Initial(p)
    ensures Then(ScopeAt(p, b), Rest(p, b)) == L.ScopesOf(CallOf(p, b))
  {
  }

  /** And each step takes the scopes it runs under off the front. */
  lemma StepTakesScope(c: Config, s: Sys, p: Proc, ch: Choice, b: Branch)
    requires Takes(c, s, p, ch, b)
    ensures var q := ProcAfter(c, s, p, ch); q.Some? ==> Rest(p, b) == Then(ScopeAt(q.value, b), Rest(q.value, b))
  {
    hide ActiveCount, FirstMatch, UseLease, Renewable, Flipped, ToolAllowed;
  }

  // ---- What the scopes cover ----

  /** Somewhere in these scopes the lock is held, for writing if `m` says so. */
  predicate Held(scopes: L.Scopes, l: L.Lock, m: L.Mode) {
    && scopes.Scope?
    && ((scopes.lock == l && (m == L.Read || scopes.mode == L.Write))
        || Held(scopes.inside, l, m) || Held(scopes.next, l, m))
  }

  lemma TimesHeld(n: nat, l: L.Lock)
    ensures Held(L.Times(n, l, L.Done), l, L.Write) <==> n > 0
  {
  }

  /** A step changes leases and sessions, and adds to the log, only under the lock of each held for writing. */
  lemma WritesCovered(c: Config, s: Sys, p: Proc, ch: Choice, b: Branch)
    requires Takes(c, s, p, ch, b)
    requires p.BulkFlip? ==> Visits(s.leases, p.sel, ch.order)
    requires p.SessCascade? ==> Visits(s.leases, BySession(p.session), ch.order)
    ensures LeasesAfter(s, p, ch) != s.leases ==> Held(ScopeAt(p, b), L.LeasesLock, L.Write)
    ensures SessionsAfter(s, p, ch) != s.sessions ==> Held(ScopeAt(p, b), L.SessionsLock, L.Write)
    ensures LogOf(c, s, p, ch) != [] ==> Held(ScopeAt(p, b), L.AuditLock, L.Write)
  {
    LogCovered(c, s, p, ch, b);
    hide LogOf, UseLease, Renewable, Kept, Active, RevokeWhere, Takes, Visits;
  }

  lemma LogCovered(c: Config, s: Sys, p: Proc, ch: Choice, b: Branch)
    requires Takes(c, s, p, ch, b)
    requires p.BulkFlip? ==> Visits(s.leases, p.sel, ch.order)
    requires p.SessCascade? ==> Visits(s.leases, BySession(p.session), ch.order)
    ensures LogOf(c, s, p, ch) != [] ==> Held(ScopeAt(p, b), L.AuditLock, L.Write)
  {
    hide FirstMatch, ToolAllowed, SessionCheck;
    TimesHeld(b.flips, L.AuditLock);
    if p.BulkFlip? {
      NoneToLog(s.leases, p.sel, ch.order);
    }
    if p.SessCascade? {
      NoneToLog(s.leases, BySession(p.session), ch.order);
    }
    hide Flipped, Entries, Visits;
  }

  lemma NoneToLog(leases: LeaseMap, sel: Selector, order: seq<LeaseId>)
    requires Visits(leases, sel, order)
    ensures |Flipped(leases, sel)| == 0 ==> Entries(leases, sel, order) == []
  {
  }

  /** A step that does not hold the leases lock goes the same way whatever the leases are. */
  lemma LeasesReadCovered(c: Config, s: Sys, p: Proc, ch: Choice, b: Branch, leases: LeaseMap)
    requires Takes(c, s, p, ch, b) && !Held(ScopeAt(p, b), L.LeasesLock, L.Read)
    ensures var t := s.(leases := leases);
      && ProcAfter(c, t, p, ch) == ProcAfter(c, s, p, ch) && SessionsAfter(t, p, ch) == SessionsAfter(s, p, ch)
      && LogOf(c, t, p, ch) == LogOf(c, s, p, ch)
  {
    hide FirstMatch, UseLease, Renewable, ToolAllowed, SessionCheck, Kept, Active, ActiveCount, Entries;
    LeasesUnseen(c, s, p, ch, b, leases);
    hide LogOf, SessionsAfter;
  }

  lemma LeasesUnseen(c: Config, s: Sys, p: Proc, ch: Choice, b: Branch, leases: LeaseMap)
    requires !Held(ScopeAt(p, b), L.LeasesLock, L.Read)
    ensures var t := s.(leases := leases);
      SessionsAfter(t, p, ch) == SessionsAfter(s, p, ch) && LogOf(c, t, p, ch) == LogOf(c, s, p, ch)
  {
    hide FirstMatch, ToolAllowed, SessionCheck, Active, Entries;
  }

  /** One that does not hold the sessions lock goes the same way whatever the sessions are. */
  lemma SessionsReadCovered(c: Config, s: Sys, p: Proc, ch: Choice, b: Branch, sessions: SessionMap)
    requires Takes(c, s, p, ch, b) && !Held(ScopeAt(p, b), L.SessionsLock, L.Read)
    ensures var t := s.(sessions := sessions);
      && LeasesAfter(t, p, ch) == LeasesAfter(s, p, ch) && LogOf(c, t, p, ch) == LogOf(c, s, p, ch)
      && ProcAfter(c, t, p, ch) == ProcAfter(c, s, p, ch)
  {
    var t := s.(sessions := sessions);
    if p.RenewFlip? {
      RenewsAlike(s, t, p.id, p.extensionSecs, ch.now);
    }
    hide Renewable, FirstMatch, UseLease, ToolAllowed, Kept, Active, ActiveCount, Flipped, SessionCheck, Entries;
    SessionsUnseen(c, s, p, ch, b, t);
    hide LogOf, LeasesAfter;
  }

  lemma SessionsUnseen(c: Config, s: Sys, p: Proc, ch: Choice, b: Branch, t: Sys)
    requires !Held(ScopeAt(p, b), L.SessionsLock, L.Read) && t == s.(sessions := t.sessions)
    requires p.RenewFlip? ==> Renewable(t, p.id, p.extensionSecs, ch.now) == Renewable(s, p.id, p.extensionSecs, ch.now)
    ensures LeasesAfter(t, p, ch) == LeasesAfter(s, p, ch) && LogOf(c, t, p, ch) == LogOf(c, s, p, ch)
  {
    hide Renewable, FirstMatch, UseLease, ToolAllowed, Kept, SessionCheck, Entries, RevokeWhere;
  }

  /** A renewal of a lease without a session does not look at sessions. */
  lemma RenewsAlike(s: Sys, t: Sys, id: LeaseId, ext: int, now: Time)
    requires t == s.(sessions := t.sessions) && (id in s.leases ==> s.leases[id].sessionId.None?)
    ensures Renewable(t, id, ext, now) == Renewable(s, id, ext, now)
  {
    hide RenewalCapped, RenewalLimit;
  }

  /** One that does not hold the policy lock goes the same way whatever the policy is. */
  lemma PolicyReadCovered(c: Config, s: Sys, p: Proc, ch: Choice, b: Branch, policy: PolicyConfig)
    requires !Held(ScopeAt(p, b), L.PolicyLock, L.Read)
    ensures var d := c.(policy := policy);
      ProcAfter(d, s, p, ch) == ProcAfter(c, s, p, ch) && LogOf(d, s, p, ch) == LogOf(c, s, p, ch)
  {
    hide FirstMatch, UseLease, Renewable, ToolAllowed, SessionCheck, Kept, Active, ActiveCount, Flipped;
  }
}
