/**
 * The renewal limit of a session under every interleaving.
 *
 * A lease is capped once it is linked to its session.  Between its insertion and its link it is
 * not, so what holds is a bound on the renewals made after the link.
 */
module RenewalLimits {
  import opened Types
  import opened VaultModel
  import opened Interleaving
  import opened Concurrency
  import opened SessionCascade

  function Max(a: nat, b: nat): nat {
    if a >= b then a else b
  }

  /** Linked leases are linked to known sessions, and it is on record when. */
  ghost predicate LinksKnown(s: Sys) {
    forall id | id in s.leases && s.leases[id].sessionId.Some? ::
      s.leases[id].sessionId.value in s.sessionIds && id in s.linkedAt
  }

  /** A lease of a held session was renewed up to the session's limit, or no more since it was linked. */
  ghost predicate WithinRenewals(s: Sys, id: LeaseId, t: Token) {
    id in s.leases && t in s.sessions && s.leases[id].sessionId == Some(s.sessions[t].id) ==>
      && id in s.linkedAt
      && s.leases[id].renewalCount <= Max(s.linkedAt[id].renewals, s.sessions[t].policy.maxRenewalsPerLease)
  }

  ghost predicate RenewalsBounded(s: Sys) {
    forall id, t | id in s.leases && t in s.sessions :: WithinRenewals(s, id, t)
  }

  lemma LinksStep(c: Config, s: Sys, a: Label)
    requires LinksKnown(s) && PassesOk(s) && CarriedOk(s) && IssuedOk(s) && Enabled(s, a)
    ensures LinksKnown(Next(c, s, a))
  {
    if a.Go? {
      hide ProcAfter, ProcsAfter, LeasesAfter, SessionsAfter, IssuedAfter, GoneAfter, LogOf, GuardsOf, Descends;
      var p, ch, s' := s.procs[a.pid], a.ch, Next(c, s, a);
      CarriedKinds(p);
      LinkKinds(p);
      forall id | id in s'.leases && s'.leases[id].sessionId.Some?
        ensures s'.leases[id].sessionId.value in s'.sessionIds && id in s'.linkedAt
      {
        if p.ReqInsert? && p.lease.id == id {
          InsertedLease(s, p, ch);
        } else {
          LeaseFlow(s, p, ch, id);
        }
      }
    }
  }

  lemma LinkKinds(p: Proc)
    ensures p.ReqLink? ==> LinkOf(p) == Some(p.pass)
  {
  }

  /** A renewal of a lease of a held session stays within that session's limit. */
  lemma RenewalWithin(s: Sys, id: LeaseId, ext: int, now: Time, t: Token)
    requires Renewable(s, id, ext, now).Ok? && t in s.sessions && id in s.leases
    requires s.leases[id].sessionId == Some(s.sessions[t].id)
    ensures Renewable(s, id, ext, now).value.renewalCount <= s.sessions[t].policy.maxRenewalsPerLease
  {
  }

  lemma RenewalsAt(c: Config, s: Sys, pid: nat, ch: Choice, id: LeaseId, t: Token)
    requires RenewalsBounded(s) && LinksKnown(s) && CarriedOk(s) && IssuedOk(s) && Enabled(s, Go(pid, ch))
    requires var s' := Next(c, s, Go(pid, ch)); id in s'.leases && t in s'.sessions
    ensures WithinRenewals(Next(c, s, Go(pid, ch)), id, t)
  {
    hide ProcAfter, ProcsAfter, LeasesAfter, SessionsAfter, IssuedAfter, GoneAfter, LogOf, GuardsOf, Descends,
      Renewable;
    var p, s' := s.procs[pid], Next(c, s, Go(pid, ch));
    CarriedKinds(p);
    if p.ReqInsert? && p.lease.id == id {
      InsertedLease(s, p, ch);
    } else {
      LeaseFlow(s, p, ch, id);
      SessionFlow(s, p, ch, t);
      if !(p.SessCreate? && t == ch.newToken) {
        HeldSession(s, p, ch, t);
        assert WithinRenewals(s, id, t);
        if p.RenewFlip? && p.id == id && Renewable(s, id, p.extensionSecs, ch.now) == Ok(s'.leases[id])
           && s.leases[id].sessionId == Some(s.sessions[t].id) {
          RenewalWithin(s, id, p.extensionSecs, ch.now, t);
        }
      }
    }
  }

  lemma RenewalsStep(c: Config, s: Sys, a: Label)
    requires RenewalsBounded(s) && LinksKnown(s) && CarriedOk(s) && IssuedOk(s) && Enabled(s, a)
    ensures RenewalsBounded(Next(c, s, a))
  {
    var s' := Next(c, s, a);
    if a.Go? {
      hide Next, Enabled, LinksKnown, CarriedOk, IssuedOk, WithinRenewals;
      forall id, t | id in s'.leases && t in s'.sessions ensures WithinRenewals(s', id, t) {
        RenewalsAt(c, s, a.pid, a.ch, id, t);
      }
    } else {
      forall id, t | id in s'.leases && t in s'.sessions ensures WithinRenewals(s', id, t) {
        assert WithinRenewals(s, id, t);
      }
    }
  }

  lemma {:induction false} RenewalsRun(c: Config, run: seq<Label>)
    requires Possible(c, Empty, run)
    ensures RenewalsBounded(After(c, Empty, run)) && LinksKnown(After(c, Empty, run))
    decreases |run|
  {
    hide Next, Enabled;
    if run != [] {
      hide RenewalsBounded, LinksKnown;
      var init, a := run[..|run| - 1], run[|run| - 1];
      RenewalsRun(c, init);
      IssuedRun(c, init);
      CascadeRun(c, init);
      RenewalsStep(c, After(c, Empty, init), a);
      LinksStep(c, After(c, Empty, init), a);
    }
  }

  /**
   * Under every interleaving: while the session of a lease is held, the lease has been renewed at
   * most up to the session's limit, or not at all since it was linked.
   */
  lemma RenewalsAfterLink(c: Config, run: seq<Label>, id: LeaseId, t: Token)
    requires Possible(c, Empty, run)
    requires var s := After(c, Empty, run);
      id in s.leases && t in s.sessions && s.leases[id].sessionId == Some(s.sessions[t].id)
    ensures var s := After(c, Empty, run);
      && id in s.linkedAt
      && s.leases[id].renewalCount <= Max(s.linkedAt[id].renewals, s.sessions[t].policy.maxRenewalsPerLease)
  {
    hide Next, Enabled;
    RenewalsRun(c, run);
    assert WithinRenewals(After(c, Empty, run), id, t);
  }
}
