/**
 * Revoking a session under every interleaving.
 *
 * Revocation marks the session in one lock scope and revokes its leases in another, while a
 * scoped request checks the session in one scope and links its lease in a later one.
 */
module SessionCascade {
  import opened Types
  import opened Policy
  import opened Sessions
  import opened VaultModel
  import opened Interleaving
  import opened Concurrency

  /** Held sessions have distinct known ids and are marked exactly when they are revoked. */
  ghost predicate MarksOk(s: Sys) {
    && (forall t | t in s.sessions ::
          s.sessions[t].id in s.sessionIds && (s.sessions[t].revoked <==> s.sessions[t].id in s.markedAt))
    && (forall t, u | t in s.sessions && u in s.sessions && s.sessions[t].id == s.sessions[u].id :: t == u)
    && (forall sid | sid in s.markedAt :: sid in s.sessionIds && s.markedAt[sid] < s.steps)
    && (forall sid | sid in s.cascadedAt :: sid in s.markedAt && s.cascadedAt[sid] < s.steps)
    && (forall k | k in s.procs && s.procs[k].SessCascade? :: s.procs[k].session in s.markedAt)
  }

  /** The session check was passed in the past, and before the session was marked if it was. */
  ghost predicate PassedInTime(s: Sys, sid: SessionId, passedAt: nat) {
    sid in s.sessionIds && passedAt < s.steps && (sid in s.markedAt ==> passedAt < s.markedAt[sid])
  }

  ghost predicate PassesOk(s: Sys) {
    forall k | k in s.procs && LinkOf(s.procs[k]).Some? ::
      PassedInTime(s, LinkOf(s.procs[k]).value.session, LinkOf(s.procs[k]).value.passedAt)
  }

  /** A live lease of a session was linked after the last cascade, by a request that passed in time. */
  ghost predicate LateOnly(s: Sys, id: LeaseId, sid: SessionId) {
    && id in s.linkedAt
    && PassedInTime(s, sid, s.linkedAt[id].passedAt)
    && (sid in s.cascadedAt ==> s.linkedAt[id].at > s.cascadedAt[sid])
  }

  ghost predicate CascadesOk(s: Sys) {
    forall id | id in s.leases && !s.leases[id].revoked && s.leases[id].sessionId.Some? ::
      LateOnly(s, id, s.leases[id].sessionId.value)
  }

  lemma SessionFlow(s: Sys, p: Proc, ch: Choice, t: Token)
    requires t in SessionsAfter(s, p, ch)
    ensures if p.SessCreate? && t == ch.newToken then
        SessionsAfter(s, p, ch)[t].id == ch.newSession && !SessionsAfter(s, p, ch)[t].revoked
      else
        && t in s.sessions && SessionsAfter(s, p, ch)[t].id == s.sessions[t].id
        && (SessionsAfter(s, p, ch)[t].revoked <==> s.sessions[t].revoked || (p.SessMark? && p.token == t))
  {
    hide Active;
  }

  lemma CascadeFlow(c: Config, s: Sys, p: Proc, ch: Choice)
    ensures var q := ProcAfter(c, s, p, ch);
      q.Some? && q.value.SessCascade? ==>
          p.SessMark? && p.token in s.sessions && q.value.session == s.sessions[p.token].id
  {
    hide ActiveCount, FirstMatch, UseLease, Renewable, SessionCheck, Flipped;
  }

  lemma MarksSessions(c: Config, s: Sys, pid: nat, ch: Choice)
    requires MarksOk(s) && Enabled(s, Go(pid, ch))
    ensures var s' := Next(c, s, Go(pid, ch));
      && (forall t | t in s'.sessions ::
            s'.sessions[t].id in s'.sessionIds && (s'.sessions[t].revoked <==> s'.sessions[t].id in s'.markedAt))
      && (forall t, u | t in s'.sessions && u in s'.sessions && s'.sessions[t].id == s'.sessions[u].id :: t == u)
  {
    hide ProcAfter, ProcsAfter, LeasesAfter, SessionsAfter, IssuedAfter, GoneAfter;
    var p, s' := s.procs[pid], Next(c, s, Go(pid, ch));
    forall t | t in s'.sessions
      ensures s'.sessions[t].id in s'.sessionIds && (s'.sessions[t].revoked <==> s'.sessions[t].id in s'.markedAt)
    {
      SessionFlow(s, p, ch, t);
    }
    forall t, u | t in s'.sessions && u in s'.sessions && s'.sessions[t].id == s'.sessions[u].id ensures t == u {
      SessionFlow(s, p, ch, t);
      SessionFlow(s, p, ch, u);
    }
  }

  lemma MarksTimes(c: Config, s: Sys, pid: nat, ch: Choice)
    requires MarksOk(s) && Enabled(s, Go(pid, ch))
    ensures var s' := Next(c, s, Go(pid, ch));
      && (forall sid | sid in s'.markedAt :: sid in s'.sessionIds && s'.markedAt[sid] < s'.steps)
      && (forall sid | sid in s'.cascadedAt :: sid in s'.markedAt && s'.cascadedAt[sid] < s'.steps)
  {
    hide ProcAfter, ProcsAfter, LeasesAfter, SessionsAfter, IssuedAfter, GoneAfter, LogOf, GuardsOf;
  }

  lemma MarksProcs(c: Config, s: Sys, pid: nat, ch: Choice, k: nat)
    requires MarksOk(s) && Enabled(s, Go(pid, ch)) && k in Next(c, s, Go(pid, ch)).procs
    ensures var s' := Next(c, s, Go(pid, ch)); s'.procs[k].SessCascade? ==> s'.procs[k].session in s'.markedAt
  {
    hide ProcAfter, ProcsAfter, LeasesAfter, SessionsAfter, IssuedAfter, GoneAfter, LogOf, GuardsOf;
    CascadeFlow(c, s, s.procs[pid], ch);
    ProcFlow(c, s, pid, ch, k);
  }

  lemma MarksStep(c: Config, s: Sys, a: Label)
    requires MarksOk(s) && Enabled(s, a)
    ensures MarksOk(Next(c, s, a))
  {
    if a.Go? {
      hide Next, Enabled;
      MarksSessions(c, s, a.pid, a.ch);
      MarksTimes(c, s, a.pid, a.ch);
      var s' := Next(c, s, a);
      forall k | k in s'.procs && s'.procs[k].SessCascade? ensures s'.procs[k].session in s'.markedAt {
        MarksProcs(c, s, a.pid, a.ch, k);
      }
    }
  }

  /** A pass that was in time stays in time. */
  lemma StillInTime(c: Config, s: Sys, a: Label, sid: SessionId, passedAt: nat)
    requires PassedInTime(s, sid, passedAt) && Enabled(s, a)
    ensures PassedInTime(Next(c, s, a), sid, passedAt)
  {
    hide ProcAfter, ProcsAfter, LeasesAfter, SessionsAfter, IssuedAfter, GoneAfter;
  }

  lemma PassesStep(c: Config, s: Sys, a: Label)
    requires MarksOk(s) && PassesOk(s) && Enabled(s, a)
    ensures PassesOk(Next(c, s, a))
  {
    hide ProcAfter, ProcsAfter, LeasesAfter, SessionsAfter, IssuedAfter, GoneAfter, LinkOf;
    var s' := Next(c, s, a);
    forall k | k in s'.procs && LinkOf(s'.procs[k]).Some?
      ensures PassedInTime(s', LinkOf(s'.procs[k]).value.session, LinkOf(s'.procs[k]).value.passedAt)
    {
      if a.Go? {
        LinkFlow(c, s, s.procs[a.pid], a.ch);
        ProcFlow(c, s, a.pid, a.ch, k);
        if k != a.pid || !s.procs[k].ScopedStart? {
          hide PassedInTime;
          StillInTime(c, s, a, LinkOf(s'.procs[k]).value.session, LinkOf(s'.procs[k]).value.passedAt);
        }
      } else if k == a.pid {
        InitialUnlinked(a.proc);
      } else {
        hide PassedInTime;
        StillInTime(c, s, a, LinkOf(s'.procs[k]).value.session, LinkOf(s'.procs[k]).value.passedAt);
      }
    }
  }

  /** The cascade revokes every lease of its session. */
  lemma CascadeRevokes(s: Sys, p: Proc, ch: Choice, id: LeaseId)
    requires p.SessCascade? && id in LeasesAfter(s, p, ch) && !LeasesAfter(s, p, ch)[id].revoked
    ensures LeasesAfter(s, p, ch)[id].sessionId != Some(p.session)
  {
  }

  lemma LateOnlyStep(c: Config, s: Sys, pid: nat, ch: Choice, id: LeaseId)
    requires MarksOk(s) && PassesOk(s) && IssuedOk(s) && CarriedOk(s) && CascadesOk(s) && Enabled(s, Go(pid, ch))
    requires var s' := Next(c, s, Go(pid, ch));
      id in s'.leases && !s'.leases[id].revoked && s'.leases[id].sessionId.Some?
    ensures var s' := Next(c, s, Go(pid, ch)); LateOnly(s', id, s'.leases[id].sessionId.value)
  {
    hide ProcAfter, ProcsAfter, LeasesAfter, SessionsAfter, IssuedAfter, GoneAfter, PassedInTime, Descends, LogOf,
      GuardsOf;
    var p, s' := s.procs[pid], Next(c, s, Go(pid, ch));
    var sid := s'.leases[id].sessionId.value;
    if p.ReqInsert? && p.lease.id == id {
      InsertedLease(s, p, ch);
      CarriedKinds(p);
    } else {
      LeaseFlow(s, p, ch, id);
      if p.SessCascade? {
        CascadeRevokes(s, p, ch, id);
      }
      if p.ReqLink? && p.id == id {
        assert LinkOf(p) == Some(p.pass);
        StillInTime(c, s, Go(pid, ch), p.pass.session, p.pass.passedAt);
        LinkSets(s, p, ch);
      } else {
        StillInTime(c, s, Go(pid, ch), sid, s.linkedAt[id].passedAt);
      }
    }
  }

  lemma LinkSets(s: Sys, p: Proc, ch: Choice)
    requires p.ReqLink? && p.id in s.leases
    ensures LeasesAfter(s, p, ch) == s.leases[p.id := s.leases[p.id].(sessionId := Some(p.pass.session))]
  {
  }

  lemma CascadesStep(c: Config, s: Sys, a: Label)
    requires MarksOk(s) && PassesOk(s) && IssuedOk(s) && CarriedOk(s) && CascadesOk(s) && Enabled(s, a)
    ensures CascadesOk(Next(c, s, a))
  {
    var s' := Next(c, s, a);
    forall id | id in s'.leases && !s'.leases[id].revoked && s'.leases[id].sessionId.Some?
      ensures LateOnly(s', id, s'.leases[id].sessionId.value)
    {
      if a.Go? {
        hide Next, LateOnly, MarksOk, PassesOk, IssuedOk, CarriedOk, CascadesOk;
        LateOnlyStep(c, s, a.pid, a.ch, id);
      } else {
        hide MarksOk, PassesOk, IssuedOk, CarriedOk;
      }
    }
  }

  lemma {:induction false} CascadeRun(c: Config, run: seq<Label>)
    requires Possible(c, Empty, run)
    ensures MarksOk(After(c, Empty, run)) && PassesOk(After(c, Empty, run)) && CascadesOk(After(c, Empty, run))
    decreases |run|
  {
    hide Next, Enabled;
    if run != [] {
      hide MarksOk, PassesOk, CascadesOk;
      var init, a := run[..|run| - 1], run[|run| - 1];
      CascadeRun(c, init);
      IssuedRun(c, init);
      MarksStep(c, After(c, Empty, init), a);
      PassesStep(c, After(c, Empty, init), a);
      CascadesStep(c, After(c, Empty, init), a);
    }
  }

  /**
   * Once a session's cascade has completed, any live lease linked to it was linked after that
   * cascade, by a request that had passed the session check before the revocation mark.
   */
  lemma OnlyEarlierPassesSurvive(c: Config, run: seq<Label>, id: LeaseId, sid: SessionId)
    requires Possible(c, Empty, run)
    requires var s := After(c, Empty, run);
      id in s.leases && !s.leases[id].revoked && s.leases[id].sessionId == Some(sid) && sid in s.cascadedAt
    ensures var s := After(c, Empty, run);
      && id in s.linkedAt && sid in s.markedAt
      && s.linkedAt[id].at > s.cascadedAt[sid]
      && s.linkedAt[id].passedAt < s.markedAt[sid]
  {
    hide Next, Enabled;
    CascadeRun(c, run);
  }
}
