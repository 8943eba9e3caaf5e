/** What holds under every interleaving of vault calls. */
module Concurrency {
  import opened Types
  import opened Counting
  import opened Identity
  import opened Policy
  import opened Leases
  import opened Sessions
  import opened VaultModel
  import opened Interleaving

  // ---- The session limit ----

  function LinkOf(p: Proc): Option<Link> {
    match p
    case ReqPolicy(_, _, _, link) => link
    case ReqCap(_, _, _, link, _) => link
    case ReqLookup(_, _, _, link, _) => link
    case ReqAudit(_, link) => link
    case ReqInsert(_, link) => link
    case ReqLink(_, pass) => Some(pass)
    case ReqCount(pass) => Some(pass)
    case _ => None
  }

  /** A scoped request that passed the check of this session and has not been counted yet. */
  function Pending(token: Token): Proc -> bool {
    (p: Proc) => LinkOf(p).Some? && LinkOf(p).value.token == token
  }

  /** Any scoped request of this session in flight. */
  function Scoped(token: Token): Proc -> bool {
    (p: Proc) => (p.ScopedStart? && p.token == token) || Pending(token)(p)
  }

  /** Counted leases of a held session, and requests that will be counted. */
  ghost predicate WithinLimit(s: Sys, token: Token, n: nat) {
    token in s.sessions ==>
      s.sessions[token].activeLeaseCount + Count(s.procs, Pending(token))
        < s.sessions[token].policy.maxConcurrentLeases + n
  }

  /** Tokens in use are known tokens. */
  ghost predicate TokensOk(s: Sys) {
    && (forall t | t in s.sessions :: t in s.tokens)
    && (forall k | k in s.procs && LinkOf(s.procs[k]).Some? :: LinkOf(s.procs[k]).value.token in s.tokens)
  }

  /** Where the link of a moving request comes from. */
  lemma LinkFlow(c: Config, s: Sys, p: Proc, ch: Choice)
    ensures var q := ProcAfter(c, s, p, ch);
      q.Some? && LinkOf(q.value).Some? ==>
        if p.ScopedStart? then
          && p.token in s.sessions && Active(s.sessions[p.token], ch.now)
          && s.sessions[p.token].activeLeaseCount < s.sessions[p.token].policy.maxConcurrentLeases
          && LinkOf(q.value).value
             == Link(p.token, s.sessions[p.token].id, s.steps, s.sessions[p.token].policy, p.tool)
        else LinkOf(q.value) == LinkOf(p)
  {
    hide ActiveCount, FirstMatch, UseLease, Renewable, ToolAllowed;
  }

  lemma TokensStep(c: Config, s: Sys, a: Label)
    requires TokensOk(s) && Enabled(s, a)
    ensures TokensOk(Next(c, s, a))
  {
    if a.Go? {
      LinkFlow(c, s, s.procs[a.pid], a.ch);
      hide ProcAfter, LeasesAfter;
      assert forall t | t in SessionsAfter(s, s.procs[a.pid], a.ch) ::
        t in s.sessions || (s.procs[a.pid].SessCreate? && t == a.ch.newToken);
    }
  }

  /** What a step does to a session that was already held. */
  lemma HeldSession(s: Sys, p: Proc, ch: Choice, token: Token)
    requires token in SessionsAfter(s, p, ch) && (p.SessCreate? ==> ch.newToken != token)
    ensures token in s.sessions
    ensures var before, after := s.sessions[token], SessionsAfter(s, p, ch)[token];
      && after.policy == before.policy && after.id == before.id
      && after.activeLeaseCount == before.activeLeaseCount + Bit(p.ReqCount? && p.pass.token == token)
  {
  }

  lemma NoPending(s: Sys, token: Token)
    requires TokensOk(s) && token !in s.tokens
    ensures Count(s.procs, Pending(token)) == 0
  {
    assert Where(s.procs, Pending(token)) == {};
  }

  lemma PendingIsScoped(procs: map<nat, Proc>, token: Token)
    ensures Count(procs, Pending(token)) <= Count(procs, Scoped(token))
  {
    CountImplies(procs, Pending(token), Scoped(token));
  }

  lemma LimitStep(c: Config, s: Sys, a: Label, token: Token, n: nat)
    requires Enabled(s, a) && TokensOk(s) && WithinLimit(s, token, n) && n >= 1
    requires Count(Next(c, s, a).procs, Scoped(token)) <= n
    ensures WithinLimit(Next(c, s, a), token, n)
  {
    hide ProcAfter, LeasesAfter, ProcsAfter, Count, SessionsAfter, Scoped, Active, LinkOf;
    var s' := Next(c, s, a);
    match a
    case Spawn(pid, p) =>
      CountUpdate(s.procs, pid, p, Pending(token));
      InitialUnlinked(p);
    case Go(pid, ch) =>
      var p := s.procs[pid];
      PendingIsScoped(s'.procs, token);
      ProcCount(c, s, pid, ch, Pending(token));
      LinkFlow(c, s, p, ch);
      UnlinkedKinds(p);
      if token in s'.sessions {
        if p.SessCreate? && ch.newToken == token {
          NoPending(s, token);
          CreatedFresh(s, p, ch);
        } else {
          HeldSession(s, p, ch, token);
          if p.ReqCount? {
            CountReturns(c, s, p, ch);
          }
        }
      }
  }

  lemma InitialUnlinked(p: Proc)
    requires Initial(p)
    ensures LinkOf(p).None?
  {
  }

  lemma UnlinkedKinds(p: Proc)
    ensures p.ScopedStart? || p.SessCreate? ==> LinkOf(p).None?
    ensures p.ReqCount? ==> LinkOf(p) == Some(p.pass)
  {
  }

  lemma CreatedFresh(s: Sys, p: Proc, ch: Choice)
    requires p.SessCreate?
    ensures ch.newToken in SessionsAfter(s, p, ch) && SessionsAfter(s, p, ch)[ch.newToken].activeLeaseCount == 0
  {
  }

  lemma CountReturns(c: Config, s: Sys, p: Proc, ch: Choice)
    requires p.ReqCount?
    ensures ProcAfter(c, s, p, ch).None?
  {
  }

  lemma {:induction false} TokensRun(c: Config, run: seq<Label>)
    requires Possible(c, Empty, run)
    ensures TokensOk(After(c, Empty, run))
    decreases |run|
  {
    hide Next, Enabled;
    if run != [] {
      hide TokensOk;
      TokensRun(c, run[..|run| - 1]);
      TokensStep(c, After(c, Empty, run[..|run| - 1]), run[|run| - 1]);
    }
  }

  /**
   * The session limit under every interleaving: if a session never has more than `n` scoped
   * requests in flight, its counter and the requests past its check never exceed
   * `max_concurrent_leases` by more than `n - 1`.
   */
  lemma {:induction false} SessionLimit(c: Config, run: seq<Label>, token: Token, n: nat)
    requires Possible(c, Empty, run) && n >= 1 && AtMost(c, Empty, run, Scoped(token), n)
    ensures WithinLimit(After(c, Empty, run), token, n)
    decreases |run|
  {
    hide Next, Enabled;
    if run != [] {
      hide WithinLimit, TokensOk;
      SessionLimit(c, run[..|run| - 1], token, n);
      TokensRun(c, run[..|run| - 1]);
      LimitStep(c, After(c, Empty, run[..|run| - 1]), run[|run| - 1], token, n);
    }
  }

  // ---- How leases change ----

  /** The lease a request carries between making it and inserting it. */
  function Carried(p: Proc): Option<Lease> {
    match p
    case ReqAudit(l, _) => Some(l)
    case ReqInsert(l, _) => Some(l)
    case _ => None
  }

  predicate Pristine(l: Lease, id: LeaseId) {
    l.id == id && l.useCount == 0 && l.renewalCount == 0 && !l.revoked && l.sessionId.None?
  }

  /** A lease record and what became of it: the terms stay, revocation stays, a day a renewal at most. */
  predicate Descends(first: Lease, l: Lease) {
    && SameTerms(first, l) && WithinLifetime(first, l)
    && (l.maxUses.Some? ==> l.useCount <= l.maxUses.value)
  }

  /** What one step makes of a lease that was already in the map. */
  lemma LeaseFlow(s: Sys, p: Proc, ch: Choice, id: LeaseId)
    requires id in LeasesAfter(s, p, ch) && !(p.ReqInsert? && p.lease.id == id)
    ensures id in s.leases
    ensures var before, after := s.leases[id], LeasesAfter(s, p, ch)[id];
      && SameTerms(before, after)
      && (before.revoked ==> after.revoked)
      && after.useCount
         == before.useCount + Bit(p.AccUse? && p.id == id && UseLease(s.leases, id, p.target, ch.now).Ok?)
      && (after.useCount > before.useCount && after.maxUses.Some? ==> before.useCount < after.maxUses.value)
      && (after.sessionId != before.sessionId ==> p.ReqLink? && p.id == id && after.sessionId == Some(p.pass.session))
      && ((after.renewalCount == before.renewalCount && after.expiresAt == before.expiresAt)
          || (p.RenewFlip? && p.id == id && Renewable(s, id, p.extensionSecs, ch.now) == Ok(after)))
  {
    hide AnyMatches, RenewalCapped, Kept;
  }

  /** Leases leave the map only through the collector. */
  lemma LeaseLoss(s: Sys, p: Proc, ch: Choice, id: LeaseId)
    requires id in s.leases && id !in LeasesAfter(s, p, ch)
    ensures p.CollectLeases? && !Kept(s.leases[id], ch.now)
  {
    hide Kept, UseLease, Renewable;
  }

  lemma RenewalDescends(first: Lease, s: Sys, id: LeaseId, ext: int, now: Time)
    requires id in s.leases && Descends(first, s.leases[id]) && Renewable(s, id, ext, now).Ok?
    ensures WithinLifetime(first, Renewable(s, id, ext, now).value)
  {
    hide RenewalCapped;
    RenewWithinLifetime(first, s.leases[id], ext, now);
  }

  /** A lease in the map evolves within its terms. */
  lemma DescendsStep(s: Sys, p: Proc, ch: Choice, id: LeaseId, first: Lease)
    requires id in LeasesAfter(s, p, ch) && !(p.ReqInsert? && p.lease.id == id)
    requires id in s.leases ==> Descends(first, s.leases[id])
    ensures Descends(first, LeasesAfter(s, p, ch)[id])
  {
    LeaseFlow(s, p, ch, id);
    if p.RenewFlip? && Renewable(s, id, p.extensionSecs, ch.now).Ok? {
      RenewalDescends(first, s, id, p.extensionSecs, ch.now);
    }
    hide LeasesAfter, Renewable, UseLease;
  }

  ghost predicate IssuedOk(s: Sys) {
    && (forall id | id in s.issued :: Pristine(s.issued[id], id))
    && (forall id | id in s.leases :: id in s.issued && Descends(s.issued[id], s.leases[id]))
    && (forall id | id in s.gone :: id in s.issued && id !in s.leases && Descends(s.issued[id], s.gone[id]))
  }

  predicate NowhereElse(s: Sys, l: Lease) {
    l.id in s.issued && s.issued[l.id] == l && l.id !in s.leases && l.id !in s.gone
  }

  /** A lease on its way in is nowhere else. */
  ghost predicate CarriedOk(s: Sys) {
    && (forall k | k in s.procs && Carried(s.procs[k]).Some? ::
          NowhereElse(s, Carried(s.procs[k]).value))
    && (forall j, k | && j in s.procs && k in s.procs && j != k
                      && Carried(s.procs[j]).Some? && Carried(s.procs[k]).Some? ::
          Carried(s.procs[j]).value.id != Carried(s.procs[k]).value.id)
  }

  /** What a step carries on, and what it makes. */
  lemma CarryFlow(c: Config, s: Sys, p: Proc, ch: Choice)
    ensures var q := ProcAfter(c, s, p, ch);
      q.Some? && Carried(q.value).Some? ==>
        if p.ReqLookup? then
          Carried(q.value).value.id == ch.newId && IssuedAfter(s, p, ch) == s.issued[ch.newId := Carried(q.value).value]
        else Carried(q.value) == Carried(p) && !p.ReqInsert?
    ensures IssuedAfter(s, p, ch) == s.issued ||
      (p.ReqLookup? && exists l :: Pristine(l, ch.newId) && IssuedAfter(s, p, ch) == s.issued[ch.newId := l])
  {
    hide ActiveCount, FirstMatch, UseLease, Renewable, SessionCheck;
    if p.ReqLookup? && ch.ok {
      assert Pristine(NewLease(ch.newId, p.agent, p.name, [p.domain], p.terms, ch.now), ch.newId);
    }
  }

  lemma PristineDescends(l: Lease)
    requires Pristine(l, l.id)
    ensures Descends(l, l)
  {
  }

  lemma GoneFlow(s: Sys, p: Proc, ch: Choice, id: LeaseId)
    requires id in GoneAfter(s, p, ch)
    ensures (id in s.gone && GoneAfter(s, p, ch)[id] == s.gone[id])
         || (p.CollectLeases? && id in s.leases && id !in LeasesAfter(s, p, ch)
             && GoneAfter(s, p, ch)[id] == s.leases[id])
  {
    hide Kept;
  }

  lemma InsertedOnly(s: Sys, p: Proc, ch: Choice, id: LeaseId)
    requires id in LeasesAfter(s, p, ch) && id !in s.leases
    ensures p.ReqInsert? && p.lease.id == id && LeasesAfter(s, p, ch)[id] == p.lease
  {
    hide Refusal, RenewalCapped, Kept;
  }

  lemma InsertedLease(s: Sys, p: Proc, ch: Choice)
    requires p.ReqInsert?
    ensures LeasesAfter(s, p, ch) == s.leases[p.lease.id := p.lease]
  {
  }

  lemma IssuedLease(c: Config, s: Sys, pid: nat, ch: Choice, id: LeaseId)
    requires IssuedOk(s) && CarriedOk(s) && Enabled(s, Go(pid, ch)) && id in Next(c, s, Go(pid, ch)).leases
    ensures var s' := Next(c, s, Go(pid, ch)); id in s'.issued && Descends(s'.issued[id], s'.leases[id])
  {
    hide ProcAfter, ProcsAfter, LeasesAfter, SessionsAfter, IssuedAfter, GoneAfter, Descends, Pristine, LogOf, GuardsOf;
    var p := s.procs[pid];
    CarryFlow(c, s, p, ch);
    CarriedKinds(p);
    if p.ReqInsert? && p.lease.id == id {
      InsertedLease(s, p, ch);
      PristineDescends(p.lease);
    } else {
      if id !in s.leases {
        InsertedOnly(s, p, ch, id);
      }
      DescendsStep(s, p, ch, id, s.issued[id]);
    }
  }

  lemma IssuedGone(c: Config, s: Sys, pid: nat, ch: Choice, id: LeaseId)
    requires IssuedOk(s) && CarriedOk(s) && Enabled(s, Go(pid, ch)) && id in Next(c, s, Go(pid, ch)).gone
    ensures var s' := Next(c, s, Go(pid, ch));
      id in s'.issued && id !in s'.leases && Descends(s'.issued[id], s'.gone[id])
  {
    hide ProcAfter, ProcsAfter, LeasesAfter, SessionsAfter, IssuedAfter, GoneAfter, Descends, Pristine, LogOf, GuardsOf;
    var p, s' := s.procs[pid], Next(c, s, Go(pid, ch));
    CarryFlow(c, s, p, ch);
    CarriedKinds(p);
    GoneFlow(s, p, ch, id);
    if id in s'.leases && id !in s.leases {
      InsertedOnly(s, p, ch, id);
    }
  }

  lemma IssuedStep(c: Config, s: Sys, a: Label)
    requires IssuedOk(s) && CarriedOk(s) && Enabled(s, a)
    ensures IssuedOk(Next(c, s, a))
  {
    if a.Go? {
      var s' := Next(c, s, a);
      CarryFlow(c, s, s.procs[a.pid], a.ch);
      assert forall id | id in s'.issued :: Pristine(s'.issued[id], id);
      hide Next, Enabled, Descends, Pristine, CarriedOk;
      forall id | id in s'.leases ensures id in s'.issued && Descends(s'.issued[id], s'.leases[id]) {
        IssuedLease(c, s, a.pid, a.ch, id);
      }
      forall id | id in s'.gone ensures id in s'.issued && id !in s'.leases && Descends(s'.issued[id], s'.gone[id]) {
        IssuedGone(c, s, a.pid, a.ch, id);
      }
    }
  }

  /** The process at `k` after a step, traced back. */
  lemma ProcFlow(c: Config, s: Sys, pid: nat, ch: Choice, k: nat)
    requires pid in s.procs && k in ProcsAfter(c, s, pid, ch)
    ensures k in s.procs
    ensures if k == pid then ProcAfter(c, s, s.procs[pid], ch) == Some(ProcsAfter(c, s, pid, ch)[k])
            else ProcsAfter(c, s, pid, ch)[k] == s.procs[k]
  {
    hide ProcAfter;
  }

  lemma CarriedNowhere(c: Config, s: Sys, pid: nat, ch: Choice, k: nat)
    requires IssuedOk(s) && CarriedOk(s) && Enabled(s, Go(pid, ch))
    requires k in Next(c, s, Go(pid, ch)).procs && Carried(Next(c, s, Go(pid, ch)).procs[k]).Some?
    ensures NowhereElse(Next(c, s, Go(pid, ch)), Carried(Next(c, s, Go(pid, ch)).procs[k]).value)
  {
    hide ProcAfter, LeasesAfter, SessionsAfter, IssuedAfter, GoneAfter, Descends, Pristine, Carried;
    var p, s' := s.procs[pid], Next(c, s, Go(pid, ch));
    var l := Carried(s'.procs[k]).value;
    CarryFlow(c, s, p, ch);
    CarriedKinds(p);
    hide ProcsAfter;
    ProcFlow(c, s, pid, ch, k);
    if l.id in s'.leases && l.id !in s.leases {
      InsertedOnly(s, p, ch, l.id);
    }
    if l.id in s'.gone {
      GoneFlow(s, p, ch, l.id);
    }
  }

  lemma CarriedStep(c: Config, s: Sys, a: Label)
    requires IssuedOk(s) && CarriedOk(s) && Enabled(s, a)
    ensures CarriedOk(Next(c, s, a))
  {
    hide ProcAfter, LeasesAfter, SessionsAfter, IssuedAfter, GoneAfter, Descends, Pristine, Carried, ProcsAfter;
    var s' := Next(c, s, a);
    if a.Go? {
      CarryFlow(c, s, s.procs[a.pid], a.ch);
      forall k | k in s'.procs && Carried(s'.procs[k]).Some? ensures NowhereElse(s', Carried(s'.procs[k]).value) {
        CarriedNowhere(c, s, a.pid, a.ch, k);
      }
      forall j, k | j in s'.procs && k in s'.procs && j != k && Carried(s'.procs[j]).Some? && Carried(s'.procs[k]).Some?
        ensures Carried(s'.procs[j]).value.id != Carried(s'.procs[k]).value.id
      {
        hide NowhereElse;
        ProcFlow(c, s, a.pid, a.ch, j);
        ProcFlow(c, s, a.pid, a.ch, k);
        CarriedKnown(s, j);
        CarriedKnown(s, k);
      }
    } else {
      InitialCarriesNothing(a.proc);
    }
  }

  lemma CarriedKnown(s: Sys, k: nat)
    requires CarriedOk(s) && k in s.procs
    ensures Carried(s.procs[k]).Some? ==> Carried(s.procs[k]).value.id in s.issued
  {
    hide Carried;
  }

  lemma CarriedKinds(p: Proc)
    ensures p.ReqInsert? ==> Carried(p) == Some(p.lease)
    ensures p.ReqLookup? || p.CollectLeases? ==> Carried(p).None?
  {
  }

  lemma InitialCarriesNothing(p: Proc)
    requires Initial(p)
    ensures Carried(p).None?
  {
  }

  lemma {:induction false} IssuedRun(c: Config, run: seq<Label>)
    requires Possible(c, Empty, run)
    ensures IssuedOk(After(c, Empty, run)) && CarriedOk(After(c, Empty, run))
    decreases |run|
  {
    hide Next, Enabled;
    if run != [] {
      hide IssuedOk, CarriedOk;
      IssuedRun(c, run[..|run| - 1]);
      IssuedStep(c, After(c, Empty, run[..|run| - 1]), run[|run| - 1]);
      CarriedStep(c, After(c, Empty, run[..|run| - 1]), run[|run| - 1]);
    }
  }

  // ---- Revocation and lifetime ----

  /** Issued, and revoked or collected since. */
  predicate Dead(s: Sys, id: LeaseId) {
    id in s.gone || (id in s.leases && s.leases[id].revoked)
  }

  lemma DeadStep(c: Config, s: Sys, a: Label, id: LeaseId)
    requires IssuedOk(s) && CarriedOk(s) && Enabled(s, a) && Dead(s, id)
    ensures Dead(Next(c, s, a), id)
  {
    if a.Go? {
      var p, ch := s.procs[a.pid], a.ch;
      var s' := Next(c, s, a);
      hide ProcAfter, ProcsAfter, LeasesAfter, SessionsAfter, IssuedAfter, Descends, Pristine;
      if id in s.leases && id in s'.leases {
        CarriedKinds(p);
        if !(p.ReqInsert? && p.lease.id == id) {
          LeaseFlow(s, p, ch, id);
        }
      } else if id in s.leases {
        LeaseLoss(s, p, ch, id);
      }
    }
  }

  lemma {:induction false} DeadForever(c: Config, pre: seq<Label>, post: seq<Label>, id: LeaseId)
    requires Possible(c, Empty, pre + post) && Possible(c, Empty, pre) && Dead(After(c, Empty, pre), id)
    ensures Dead(After(c, Empty, pre + post), id)
    decreases |post|
  {
    hide Next, Enabled, Dead;
    if post == [] {
      assert pre + post == pre;
    } else {
      var init := post[..|post| - 1];
      assert (pre + post)[..|pre + post| - 1] == pre + init;
      DeadForever(c, pre, init, id);
      IssuedRun(c, pre + init);
      DeadStep(c, After(c, Empty, pre + init), post[|post| - 1], id);
    }
  }

  /**
   * Revocation is final under every interleaving: after the step that revoked a lease, by
   * whichever operation, no access can count a use of it and no renewal can take effect.
   */
  lemma RevocationIsFinal(c: Config, pre: seq<Label>, post: seq<Label>, id: LeaseId, target: string, ext: int,
                          now: Time)
    requires Possible(c, Empty, pre + post) && Possible(c, Empty, pre)
    requires id in After(c, Empty, pre).leases && After(c, Empty, pre).leases[id].revoked
    ensures var s := After(c, Empty, pre + post);
      UseLease(s.leases, id, target, now).Err? && Renewable(s, id, ext, now).Err?
  {
    hide Next, Enabled, RenewalCapped, AnyMatches;
    DeadForever(c, pre, post, id);
    IssuedRun(c, pre + post);
  }

  /** What the terms a request carries and the leases made from them have to do with the policy. */
  ghost predicate TermsOk(c: Config, s: Sys) {
    && (forall id | id in s.issued :: AsGranted(c.policy, s.issued[id]))
    && (forall k | k in s.procs :: Terms(c.policy, s.procs[k]))
  }

  predicate Terms(policy: PolicyConfig, p: Proc) {
    p.ReqCap? || p.ReqLookup? ==> Evaluate(policy, p.agent, p.name, p.domain) == Ok(p.terms)
  }

  lemma TermsFlow(c: Config, s: Sys, p: Proc, ch: Choice)
    requires Terms(c.policy, p)
    ensures var q := ProcAfter(c, s, p, ch); q.Some? ==> Terms(c.policy, q.value)
    ensures IssuedAfter(s, p, ch) == s.issued ||
      exists l :: AsGranted(c.policy, l) && IssuedAfter(s, p, ch) == s.issued[ch.newId := l]
  {
    hide ActiveCount, FirstMatch, UseLease, Renewable, SessionCheck, Flipped;
    if p.ReqLookup? && ch.ok {
      assert AsGranted(c.policy, NewLease(ch.newId, p.agent, p.name, [p.domain], p.terms, ch.now));
    }
  }

  lemma TermsStep(c: Config, s: Sys, a: Label)
    requires TermsOk(c, s) && Enabled(s, a)
    ensures TermsOk(c, Next(c, s, a))
  {
    hide Evaluate;
    if a.Go? {
      hide ProcAfter, ProcsAfter, LeasesAfter, SessionsAfter, IssuedAfter, GoneAfter, LogOf, GuardsOf, Terms, AsGranted;
      var s' := Next(c, s, a);
      TermsFlow(c, s, s.procs[a.pid], a.ch);
      forall k | k in s'.procs ensures Terms(c.policy, s'.procs[k]) {
        ProcFlow(c, s, a.pid, a.ch, k);
      }
    }
  }

  lemma {:induction false} TermsRun(c: Config, run: seq<Label>)
    requires Possible(c, Empty, run)
    ensures TermsOk(c, After(c, Empty, run))
    decreases |run|
  {
    hide Next, Enabled;
    if run != [] {
      hide TermsOk;
      TermsRun(c, run[..|run| - 1]);
      TermsStep(c, After(c, Empty, run[..|run| - 1]), run[|run| - 1]);
    }
  }

  /**
   * Under every interleaving a lease expires no later than its issue plus the time the policy gives
   * it plus a day for each renewal, and it is never used more often than the policy allows.
   */
  lemma LifetimeAndUses(c: Config, run: seq<Label>, id: LeaseId)
    requires Possible(c, Empty, run) && id in After(c, Empty, run).leases
    ensures var s := After(c, Empty, run);
      && var l := s.leases[id];
      && |l.allowedDomains| == 1
      && var granted := Evaluate(c.policy, l.agent, l.secretName, l.allowedDomains[0]);
      && granted.Ok?
      && l.expiresAt <= l.issuedAt + granted.value.ttl + 86_400_000_000_000 * l.renewalCount
      && l.maxUses == granted.value.maxUses && (l.maxUses.Some? ==> l.useCount <= l.maxUses.value)
  {
    hide Next, Enabled, Evaluate;
    IssuedRun(c, run);
    TermsRun(c, run);
    assert AsGranted(c.policy, After(c, Empty, run).issued[id]);
  }

  // ---- Guards, audit entries and uses ----

  predicate IsAccess(e: AuditEntry, id: LeaseId) {
    e.event.SecretAccessed? && e.event.lease == id
  }

  function Accesses(log: seq<AuditEntry>, id: LeaseId): nat {
    if log == [] then 0 else Accesses(log[..|log| - 1], id) + Bit(IsAccess(log[|log| - 1], id))
  }

  function GuardsFor(guards: seq<LeaseId>, id: LeaseId): nat {
    if guards == [] then 0 else GuardsFor(guards[..|guards| - 1], id) + Bit(guards[|guards| - 1] == id)
  }

  /** An access that was counted and is not recorded yet. */
  function Accessing(id: LeaseId): Proc -> bool {
    (p: Proc) => (p.AccFetch? || p.AccAudit?) && p.id == id
  }

  /** Uses counted on the lease, whether it is still held or was collected. */
  function Uses(s: Sys, id: LeaseId): nat {
    if id in s.leases then s.leases[id].useCount else if id in s.gone then s.gone[id].useCount else 0
  }

  /** Entries other than accesses are what the remaining calls log. */
  ghost predicate LoggingOk(s: Sys) {
    forall k | k in s.procs && s.procs[k].Logging? :: !s.procs[k].entry.event.SecretAccessed?
  }

  ghost predicate UsesOk(s: Sys, id: LeaseId) {
    && GuardsFor(s.guards, id) == Accesses(s.audit, id)
    && Accesses(s.audit, id) + Count(s.procs, Accessing(id)) <= Uses(s, id)
  }

  lemma LoggingStep(c: Config, s: Sys, a: Label)
    requires LoggingOk(s) && Enabled(s, a)
    ensures LoggingOk(Next(c, s, a))
  {
    if a.Go? {
      hide LeasesAfter, SessionsAfter, ActiveCount, FirstMatch, UseLease, Renewable, SessionCheck, Flipped, ProcsAfter;
      forall k | k in Next(c, s, a).procs && Next(c, s, a).procs[k].Logging?
        ensures !Next(c, s, a).procs[k].entry.event.SecretAccessed?
      {
        ProcFlow(c, s, a.pid, a.ch, k);
      }
    }
  }

  lemma {:induction false} AccessesAppend(log: seq<AuditEntry>, more: seq<AuditEntry>, id: LeaseId)
    ensures Accesses(log + more, id) == Accesses(log, id) + Accesses(more, id)
    decreases |more|
  {
    if more == [] {
      assert log + more == log;
    } else {
      var init := more[..|more| - 1];
      AccessesAppend(log, init, id);
      assert (log + more)[..|log + more| - 1] == log + init;
    }
  }

  /** A bulk revocation records no accesses. */
  lemma {:induction false} EntriesNoAccess(leases: LeaseMap, sel: Selector, order: seq<LeaseId>, id: LeaseId)
    ensures Accesses(Entries(leases, sel, order), id) == 0
    decreases |order|
  {
    hide Visits;
    if order != [] && Visits(leases, sel, order) {
      var init := order[..|order| - 1];
      EntriesNoAccess(leases, sel, init, id);
      var all := Entries(leases, sel, order);
      assert all[..|all| - 1] == Entries(leases, sel, init);
    }
  }

  lemma AccessesOne(e: AuditEntry, id: LeaseId)
    ensures Accesses([e], id) == Bit(IsAccess(e, id))
  {
    assert [e][..0] == [];
  }

  lemma NoAccesses(id: LeaseId)
    ensures Accesses([], id) == 0
  {
  }

  lemma GuardsAppend(guards: seq<LeaseId>, more: seq<LeaseId>, id: LeaseId)
    requires |more| <= 1
    ensures GuardsFor(guards + more, id) == GuardsFor(guards, id) + (if more == [] then 0 else Bit(more[0] == id))
  {
    if more == [] {
      assert guards + more == guards;
    } else {
      assert (guards + more)[..|guards + more| - 1] == guards;
    }
  }

  /** Uses never go down, and a counted access adds one. */
  lemma UsesFlow(c: Config, s: Sys, pid: nat, ch: Choice, id: LeaseId)
    requires IssuedOk(s) && CarriedOk(s) && Enabled(s, Go(pid, ch))
    ensures var p := s.procs[pid];
      Uses(Next(c, s, Go(pid, ch)), id)
        >= Uses(s, id) + Bit(p.AccUse? && p.id == id && UseLease(s.leases, id, p.target, ch.now).Ok?)
  {
    var p, s' := s.procs[pid], Next(c, s, Go(pid, ch));
    if id !in LeasesAfter(s, p, ch) {
      CollectKeepsUses(s, p, ch, id);
    }
    hide ProcAfter, ProcsAfter, LeasesAfter, SessionsAfter, IssuedAfter, GoneAfter, Descends, Pristine;
    if id in s.leases && id in s'.leases {
      CarriedKinds(p);
      if !(p.ReqInsert? && p.lease.id == id) {
        LeaseFlow(s, p, ch, id);
      }
    } else if id in s'.leases {
      CarriedKinds(p);
      InsertedOnly(s, p, ch, id);
    }
  }

  lemma CollectKeepsUses(s: Sys, p: Proc, ch: Choice, id: LeaseId)
    requires id !in LeasesAfter(s, p, ch)
    ensures id in s.leases ==> id in GoneAfter(s, p, ch) && GoneAfter(s, p, ch)[id] == s.leases[id]
    ensures id in s.leases ==> !p.AccUse?
    ensures id !in s.leases && id in s.gone ==> id in GoneAfter(s, p, ch) && GoneAfter(s, p, ch)[id] == s.gone[id]
  {
    if id in s.leases {
      LeaseLoss(s, p, ch, id);
    }
    hide Kept, UseLease, Renewable;
  }

  /** The part of a step that concerns accesses: what it logs, hands out and starts. */
  lemma AccessFlow(c: Config, s: Sys, p: Proc, ch: Choice, id: LeaseId)
    requires p.Logging? ==> !p.entry.event.SecretAccessed?
    ensures |GuardsOf(p, ch)| <= 1
    ensures var logged := Accesses(LogOf(c, s, p, ch), id);
      && logged == (if GuardsOf(p, ch) == [] then 0 else Bit(GuardsOf(p, ch)[0] == id))
      && logged + CountOf(ProcAfter(c, s, p, ch), Accessing(id))
           <= Bit(Accessing(id)(p)) + Bit(p.AccUse? && p.id == id && UseLease(s.leases, id, p.target, ch.now).Ok?)
  {
    hide ActiveCount, FirstMatch, UseLease, Renewable, SessionCheck, Flipped, Accesses, Entries, Evaluate;
    var log := LogOf(c, s, p, ch);
    if p.BulkFlip? {
      EntriesNoAccess(s.leases, p.sel, ch.order, id);
    } else if p.SessCascade? {
      EntriesNoAccess(s.leases, BySession(p.session), ch.order, id);
    } else if log != [] {
      assert log == [log[0]];
      AccessesOne(log[0], id);
    } else {
      NoAccesses(id);
    }
  }

  lemma UsesStep(c: Config, s: Sys, a: Label, id: LeaseId)
    requires IssuedOk(s) && CarriedOk(s) && LoggingOk(s) && Enabled(s, a) && UsesOk(s, id)
    ensures UsesOk(Next(c, s, a), id)
  {
    hide ProcAfter, ProcsAfter, LeasesAfter, SessionsAfter, IssuedAfter, GoneAfter, IssuedOk, CarriedOk, LogOf,
      GuardsOf,
      Count, UseLease, Accesses, GuardsFor, IsAccess;
    match a
    case Spawn(pid, p) => CountUpdate(s.procs, pid, p, Accessing(id));
    case Go(pid, ch) =>
      var p := s.procs[pid];
      AccessFlow(c, s, p, ch, id);
      UsesFlow(c, s, pid, ch, id);
      ProcCount(c, s, pid, ch, Accessing(id));
      AccessesAppend(s.audit, LogOf(c, s, p, ch), id);
      GuardsAppend(s.guards, GuardsOf(p, ch), id);
  }

  /**
   * Use accounting under every interleaving: the guards handed out for a lease are exactly its
   * recorded accesses, and those never exceed the uses counted on it, which never exceed its
   * limit; this stays so after the lease was collected.
   */
  lemma {:induction false} UseAccounting(c: Config, run: seq<Label>, id: LeaseId)
    requires Possible(c, Empty, run)
    ensures var s := After(c, Empty, run);
      && GuardsFor(s.guards, id) == Accesses(s.audit, id) <= Uses(s, id)
      && (id in s.issued && s.issued[id].maxUses.Some? ==> Uses(s, id) <= s.issued[id].maxUses.value)
      && (id in s.leases && s.leases[id].maxUses.Some? ==>
            GrantOf(s.leases[id]).remainingUses == Some(s.leases[id].maxUses.value - s.leases[id].useCount))
  {
    hide Next, Enabled;
    UsesRun(c, run, id);
    IssuedRun(c, run);
  }

  lemma {:induction false} UsesRun(c: Config, run: seq<Label>, id: LeaseId)
    requires Possible(c, Empty, run)
    ensures UsesOk(After(c, Empty, run), id) && LoggingOk(After(c, Empty, run))
    decreases |run|
  {
    hide Next, Enabled;
    if run == [] {
      assert Where(Empty.procs, Accessing(id)) == {};
    } else {
      hide UsesOk, LoggingOk;
      var init := run[..|run| - 1];
      UsesRun(c, init, id);
      IssuedRun(c, init);
      UsesStep(c, After(c, Empty, init), run[|run| - 1], id);
      LoggingStep(c, After(c, Empty, init), run[|run| - 1]);
    }
  }

  // ---- Grants are audited before they take effect ----

  ghost predicate AuditedOk(s: Sys) {
    && (forall id | id in s.leases || id in s.gone :: id in s.issued && GrantEntry(s.issued[id]) in s.audit)
    && (forall k | k in s.procs && s.procs[k].ReqInsert? :: GrantEntry(s.procs[k].lease) in s.audit)
  }

  lemma InsertFlow(c: Config, s: Sys, p: Proc, ch: Choice)
    ensures var q := ProcAfter(c, s, p, ch);
      q.Some? && q.value.ReqInsert? ==>
          p.ReqAudit? && p.lease == q.value.lease && GrantEntry(p.lease) in LogOf(c, s, p, ch)
  {
    hide ActiveCount, FirstMatch, UseLease, Renewable, SessionCheck, Flipped;
  }

  lemma AuditedLease(c: Config, s: Sys, pid: nat, ch: Choice, id: LeaseId)
    requires IssuedOk(s) && CarriedOk(s) && AuditedOk(s) && Enabled(s, Go(pid, ch))
    requires var s' := Next(c, s, Go(pid, ch)); id in s'.leases || id in s'.gone
    ensures var s' := Next(c, s, Go(pid, ch)); id in s'.issued && GrantEntry(s'.issued[id]) in s'.audit
  {
    hide ProcAfter, ProcsAfter, LeasesAfter, SessionsAfter, IssuedAfter, GoneAfter, Descends, Pristine, LogOf,
      GrantEntry, Carried;
    var p, s' := s.procs[pid], Next(c, s, Go(pid, ch));
    CarryFlow(c, s, p, ch);
    CarriedKinds(p);
    if id in s'.leases && id !in s.leases {
      InsertedOnly(s, p, ch, id);
    } else if id in s'.gone {
      GoneFlow(s, p, ch, id);
    }
  }

  lemma AuditedProc(c: Config, s: Sys, pid: nat, ch: Choice, k: nat)
    requires AuditedOk(s) && Enabled(s, Go(pid, ch))
    requires var s' := Next(c, s, Go(pid, ch)); k in s'.procs && s'.procs[k].ReqInsert?
    ensures var s' := Next(c, s, Go(pid, ch)); GrantEntry(s'.procs[k].lease) in s'.audit
  {
    hide ProcAfter, ProcsAfter, LeasesAfter, SessionsAfter, IssuedAfter, GoneAfter, LogOf, GrantEntry;
    InsertFlow(c, s, s.procs[pid], ch);
    ProcFlow(c, s, pid, ch, k);
  }

  lemma AuditedStep(c: Config, s: Sys, a: Label)
    requires IssuedOk(s) && CarriedOk(s) && AuditedOk(s) && Enabled(s, a)
    ensures AuditedOk(Next(c, s, a))
  {
    if a.Go? {
      hide Next, Enabled, IssuedOk, CarriedOk, GrantEntry;
      var s' := Next(c, s, a);
      forall id | id in s'.leases || id in s'.gone ensures id in s'.issued && GrantEntry(s'.issued[id]) in s'.audit {
        AuditedLease(c, s, a.pid, a.ch, id);
      }
      forall k | k in s'.procs && s'.procs[k].ReqInsert? ensures GrantEntry(s'.procs[k].lease) in s'.audit {
        AuditedProc(c, s, a.pid, a.ch, k);
      }
    }
  }

  /** Every lease that ever entered the map was recorded as granted before it did. */
  lemma {:induction false} GrantsAudited(c: Config, run: seq<Label>)
    requires Possible(c, Empty, run)
    ensures AuditedOk(After(c, Empty, run))
    decreases |run|
  {
    hide Next, Enabled;
    if run != [] {
      hide AuditedOk;
      var init := run[..|run| - 1];
      GrantsAudited(c, init);
      IssuedRun(c, init);
      AuditedStep(c, After(c, Empty, init), run[|run| - 1]);
    }
  }
}
