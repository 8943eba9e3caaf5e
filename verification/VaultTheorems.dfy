/** What the invariant of `VaultRuns` says about whole runs. */
module VaultTheorems {
  import opened Types
  import opened Counting
  import opened Identity
  import opened Policy
  import opened Leases
  import opened Sessions
  import opened Crypto
  import opened Store
  import opened VaultModel
  import opened VaultRuns
  import Utf8

  /** The invariant holds at every point of every admissible run. */
  lemma {:induction false} RunInv(c: Config, w: World, ops: seq<Op>)
    requires LawfulCipher(c.cipher) && Start(c, w) && AdmissibleRun(c, w, ops)
    ensures Inv(c, Runs(c, w, ops))
  {
    hide LawfulCipher, Inv, Start, Admissible, Step;
    if ops == [] {
      StartInv(c, w);
    } else {
      RunInv(c, w, ops[..|ops| - 1]);
      StepInv(c, Runs(c, w, ops[..|ops| - 1]), ops[|ops| - 1]);
    }
  }

  /** A run splits at any point. */
  lemma {:induction false} RunsConcat(c: Config, w: World, pre: seq<Op>, post: seq<Op>)
    ensures Runs(c, w, pre + post) == Runs(c, Runs(c, w, pre), post)
    ensures AdmissibleRun(c, w, pre + post) <==> AdmissibleRun(c, w, pre) && AdmissibleRun(c, Runs(c, w, pre), post)
    decreases |post|
  {
    hide Step, Admissible;
    if post == [] {
      assert pre + post == pre;
    } else {
      var init := post[..|post| - 1];
      assert (pre + post)[..|pre + post| - 1] == pre + init;
      RunsConcat(c, w, pre, init);
    }
  }

  // ---- A lease, once granted, keeps its origin; once dead, stays dead ----

  predicate Gone(leases: map<LeaseId, Lease>, id: LeaseId) {
    id !in leases || leases[id].revoked
  }

  /** Granted once and no longer usable: revoked, or collected. */
  predicate Dead(w: World, id: LeaseId) {
    id in w.h.origin && Gone(w.s.leases, id)
  }

  lemma OriginStableStep(c: Config, w: World, op: Op, id: LeaseId)
    requires Admissible(c, w, op) && id in w.h.origin
    ensures id in Step(c, w, op).h.origin && Step(c, w, op).h.origin[id] == w.h.origin[id]
  {
    hide Apply;
  }

  lemma {:induction false} OriginStable(c: Config, w: World, ops: seq<Op>, id: LeaseId)
    requires AdmissibleRun(c, w, ops) && id in w.h.origin
    ensures id in Runs(c, w, ops).h.origin && Runs(c, w, ops).h.origin[id] == w.h.origin[id]
  {
    hide Step, Admissible;
    if ops != [] {
      OriginStable(c, w, ops[..|ops| - 1], id);
      OriginStableStep(c, Runs(c, w, ops[..|ops| - 1]), ops[|ops| - 1], id);
    }
  }

  /** A request only adds a lease under its own fresh id. */
  lemma GoneRequest(c: Config, s: State, agent: AgentId, name: SecretName, domain: DomainScope, newId: LeaseId,
                    env: Env,
                    token: Token, tool: string, id: LeaseId)
    requires Gone(s.leases, id) && id != newId
    ensures Gone(RequestLease(c, s, agent, name, domain, newId, env).0.leases, id)
    ensures Gone(RequestLeaseScoped(c, s, agent, name, domain, token, tool, newId, env).0.leases, id)
  {
    hide FirstMatch, ActiveCount, SessionCheck;
  }

  /** Uses and renewals refuse a revoked lease, so neither can revive one. */
  lemma GoneUse(c: Config, s: State, other: LeaseId, target: string, env: Env, id: LeaseId)
    requires Gone(s.leases, id)
    ensures Gone(AccessSecret(c, s, other, target, env).0.leases, id)
    ensures AccessSecret(c, s, id, target, env).1.Err?
  {
    hide OpenSecret, AnyMatches;
  }

  lemma GoneRenew(s: State, other: LeaseId, extensionSecs: int, env: Env, id: LeaseId)
    requires Gone(s.leases, id)
    ensures Gone(RenewLease(s, other, extensionSecs, env).0.leases, id)
    ensures RenewLease(s, id, extensionSecs, env).1.Err?
  {
    hide RenewalCapped;
  }

  lemma GoneBulk(s: State, sel: Selector, id: LeaseId)
    requires Gone(s.leases, id)
    ensures Gone(RevokeWhere(s.leases, sel), id)
  {
  }

  lemma GoneStep(c: Config, s: State, op: Op, id: LeaseId)
    requires Gone(s.leases, id)
    requires op.OpRequest? || op.OpRequestScoped? ==> op.id != id
    ensures Gone(Apply(c, s, op).leases, id)
  {
    hide RequestLease, RequestLeaseScoped, AccessSecret, RenewLease, RevokeWhere, Encrypt, CanReSealAll, ReSealAll;
    match op
    case OpRequest(agent, name, domain, newId, env) => GoneRequest(c, s, agent, name, domain, newId, env, 0, "", id);
    case OpRequestScoped(agent, name, domain, token, tool, newId, env) =>
      GoneRequest(c, s, agent, name, domain, newId, env, token, tool, id);
    case OpAccess(other, target, env) => GoneUse(c, s, other, target, env, id);
    case OpRenew(other, extensionSecs, env) => GoneRenew(s, other, extensionSecs, env, id);
    case OpRevokeAll(agent, env) => GoneBulk(s, ByAgent(agent), id);
    case OpDelete(name, env) => GoneBulk(s, BySecret(name), id);
    case OpRevokeSession(token, env) =>
      if token in s.sessions {
        GoneBulk(s, BySession(s.sessions[token].id), id);
      }
    case _ =>
  }

  /** A lease that was revoked or collected stays so through any run. */
  lemma {:induction false} DeadForever(c: Config, w: World, ops: seq<Op>, id: LeaseId)
    requires AdmissibleRun(c, w, ops) && Dead(w, id)
    ensures Dead(Runs(c, w, ops), id)
  {
    hide Gone, Apply, Track;
    if ops != [] {
      var mid := Runs(c, w, ops[..|ops| - 1]);
      var op := ops[|ops| - 1];
      DeadForever(c, w, ops[..|ops| - 1], id);
      OriginStableStep(c, mid, op, id);
      GoneStep(c, mid.s, op, id);
    }
  }

  // ---- Revocation ----

  /**
   * No access and no renewal succeeds on a lease after any operation that revoked it: once it
   * is revoked somewhere in a run, every later attempt in that run fails.
   */
  lemma RevocationIsFinal(c: Config, w: World, pre: seq<Op>, post: seq<Op>, id: LeaseId, target: string, ext: int,
                          env: Env)
    requires LawfulCipher(c.cipher) && Start(c, w) && AdmissibleRun(c, w, pre + post)
    requires id in Runs(c, w, pre).s.leases && Runs(c, w, pre).s.leases[id].revoked
    ensures var s := Runs(c, w, pre + post).s;
      AccessSecret(c, s, id, target, env).1.Err? && RenewLease(s, id, ext, env).1.Err?
  {
    hide LawfulCipher, Start, AccessSecret, RenewLease;
    RunsConcat(c, w, pre, post);
    RunInv(c, w, pre);
    DeadForever(c, Runs(c, w, pre), post, id);
    GoneUse(c, Runs(c, w, pre + post).s, id, target, env, id);
    GoneRenew(Runs(c, w, pre + post).s, id, ext, env, id);
  }

  /** The four operations that revoke do revoke what they name. */
  lemma RevokersRevoke(s: State, id: LeaseId, agent: AgentId, name: SecretName, token: Token,
                       reason: RevocationReason, env: Env)
    requires id in s.leases
    ensures Gone(RevokeLease(s, id, reason, env).0.leases, id)
    ensures s.leases[id].agent == agent ==> Gone(RevokeAllForAgent(s, agent, env).0.leases, id)
    ensures s.leases[id].secretName == name ==> Gone(DeleteSecret(s, name, env).0.leases, id)
    ensures token in s.sessions && s.leases[id].sessionId == Some(s.sessions[token].id) ==>
      Gone(RevokeSession(s, token, env).0.leases, id)
  {
    hide RevocationEntries;
  }

  /** The leases two maps over the same ids differ on. */
  function Changed(before: map<LeaseId, Lease>, after: map<LeaseId, Lease>): set<LeaseId> {
    set id | id in before && id in after && before[id] != after[id]
  }

  /**
   * `revoke_all_for_agent` reports exactly the leases it flipped, leaves none of the agent's
   * live, and changes no other lease.
   */
  lemma RevokeAllIsExact(s: State, agent: AgentId, env: Env)
    ensures var (s', r) := RevokeAllForAgent(s, agent, env);
      && s'.leases.Keys == s.leases.Keys
      && r == Ok(ActiveCount(s.leases, agent))
      && r == Ok(|Changed(s.leases, s'.leases)|)
      && ActiveCount(s'.leases, agent) == 0
      && (forall id | id in s.leases && s.leases[id].agent != agent :: s'.leases[id] == s.leases[id])
      && s'.sessions == s.sessions && s'.store == s.store && s'.dek == s.dek
  {
    hide RevocationEntries;
    var leases := RevokeWhere(s.leases, ByAgent(agent));
    assert Flipped(s.leases, ByAgent(agent)) == Where(s.leases, ActiveFor(agent));
    assert Flipped(s.leases, ByAgent(agent)) == Changed(s.leases, leases);
    assert Where(leases, ActiveFor(agent)) == {};
  }

  // ---- Meaning preserved ----

  /**
   * A live lease's secret is in the store, is the same stored secret as when the lease was
   * granted, and opens to the bytes in force then.
   */
  lemma LiveLeaseKeepsSecret(c: Config, w: World, ops: seq<Op>, id: LeaseId)
    requires LawfulCipher(c.cipher) && Start(c, w) && AdmissibleRun(c, w, ops)
    requires id in Runs(c, w, ops).s.leases && !Runs(c, w, ops).s.leases[id].revoked
    ensures var end := Runs(c, w, ops); var l := end.s.leases[id];
      && id in end.h.origin && l.secretName in end.s.store
      && end.s.store[l.secretName].id == end.h.origin[id].incarnation
      && Decrypt(c.cipher, end.s.store[l.secretName].sealed, end.s.persisted) == Ok(end.h.origin[id].plaintext)
  {
    RunInv(c, w, ops);
    hide LawfulCipher, Start, Step, Admissible, LeasesOk, CascadeOk, RenewalsOk, AgentCapOk, SessionCapOk, OriginsOk,
      SessionsOk;
  }

  /** Opened at the end of any run, the vault opens every stored secret that is text to what was written. */
  lemma InitializedOpens(c: Config, w: World, ops: seq<Op>, name: SecretName)
    requires LawfulCipher(c.cipher) && Start(c, w) && AdmissibleRun(c, w, ops) && name in Runs(c, w, ops).s.store
    ensures var end := Runs(c, w, ops); var s := Initialize(end.s);
      && name in end.h.written
      && OpenSecret(c.cipher, s.store[name], s.dek)
         == if Utf8.Valid(end.h.written[name]) then Ok(end.h.written[name]) else Err(DecryptionFailed)
  {
    hide LawfulCipher, Start, Step, Admissible, LeasePart, OriginsOk, SessionsOk;
    RunInv(c, w, ops);
  }

  /** The operation granted a lease under `id` on the secret `name`. */
  ghost predicate Grants(c: Config, s: State, op: Op, id: LeaseId, name: SecretName) {
    && (op.OpRequest? || op.OpRequestScoped?)
    && op.id == id && op.name == name && id !in s.leases && id in Apply(c, s, op).leases
  }

  /** What a grant puts on record: the secret as it stands at that moment. */
  lemma GrantRecords(c: Config, w: World, op: Op, id: LeaseId, name: SecretName)
    requires Inv(c, w) && Grants(c, w.s, op, id, name)
    ensures name in w.s.store && name in w.h.written
    ensures id in Step(c, w, op).h.origin
    ensures Step(c, w, op).h.origin[id].incarnation == w.s.store[name].id
    ensures Step(c, w, op).h.origin[id].issued.secretName == name
    ensures Ok(Step(c, w, op).h.origin[id].plaintext) == Decrypt(c.cipher, w.s.store[name].sealed, w.s.persisted)
  {
    hide LeasePart, OriginsOk, SessionsOk, SessionCheck, RequestLease;
    assert op.OpRequestScoped? ==> op.token in w.s.sessions by {
      RequestKeepsIds(c, w.s, op.agent, op.name, op.domain, id, op.env);
      if op.OpRequestScoped? {
        SessionCheckHeld(w.s, op.token, op.tool, op.name, op.domain, op.env.now);
      }
    }
    RequestKeepsIds(c, w.s, op.agent, op.name, op.domain, id, op.env);
  }

  lemma SessionCheckHeld(s: State, token: Token, tool: string, name: SecretName, domain: DomainScope, now: Time)
    requires SessionCheck(s.sessions, token, tool, name, domain, now).Ok?
    ensures token in s.sessions
        && s.sessions[token].id == SessionCheck(s.sessions, token, tool, name, domain, now).value
  {
  }

  /** A request adds its lease exactly when it succeeds, and then on a stored secret. */
  lemma RequestKeepsIds(c: Config, s: State, agent: AgentId, name: SecretName, domain: DomainScope, id: LeaseId,
                        env: Env)
    ensures var (s', r) := RequestLease(c, s, agent, name, domain, id, env);
      if r.Ok? then name in s.store && id in s'.leases && s'.leases[id].secretName == name && s'.store == s.store
                    && s'.sessions == s.sessions
      else s'.leases == s.leases
  {
    hide FirstMatch, ActiveCount;
  }

  /**
   * Whatever happens between the grant of a lease and an access through it, rotations of the
   * key, deletions and re-creations included, an access that succeeds returns exactly the bytes
   * the secret decrypted to when the lease was granted, read from the very same stored secret.
   */
  lemma AccessReadsGrantedSecret(c: Config, w: World, pre: seq<Op>, grant: Op, post: seq<Op>,
                                 id: LeaseId, name: SecretName, target: string, env: Env)
    requires LawfulCipher(c.cipher) && Start(c, w) && AdmissibleRun(c, w, pre + [grant] + post)
    requires Grants(c, Runs(c, w, pre).s, grant, id, name)
    requires AccessSecret(c, Runs(c, w, pre + [grant] + post).s, id, target, env).1.Ok?
    ensures name in Runs(c, w, pre).s.store && name in Runs(c, w, pre + [grant] + post).s.store
    ensures
      var before, after := Runs(c, w, pre).s, Runs(c, w, pre + [grant] + post).s;
      && Ok(AccessSecret(c, after, id, target, env).1.value.value)
          == Decrypt(c.cipher, before.store[name].sealed, before.persisted)
      && after.store[name].id == before.store[name].id
  {
    hide LawfulCipher, Start, Inv, Step, Admissible, Grants, AccessSecret;
    var mid := Runs(c, w, pre);
    var end := Runs(c, w, pre + [grant] + post);
    RunsConcat(c, w, pre + [grant], post);
    RunsConcat(c, w, pre, [grant]);
    OneStep(c, mid, grant);
    RunInv(c, w, pre);
    RunInv(c, w, pre + [grant] + post);
    GrantRecords(c, mid, grant, id, name);
    OriginStable(c, Step(c, mid, grant), post, id);
    AccessReadsOrigin(c, end, id, target, env);
  }

  lemma OneStep(c: Config, w: World, op: Op)
    ensures Runs(c, w, [op]) == Step(c, w, op)
    ensures AdmissibleRun(c, w, [op]) <==> Admissible(c, w, op)
  {
    hide Step, Admissible;
    assert [op][..0] == [];
    assert Runs(c, w, []) == w;
  }

  /** An access that succeeds reads what its lease was granted on. */
  lemma AccessReadsOrigin(c: Config, w: World, id: LeaseId, target: string, env: Env)
    requires Inv(c, w) && AccessSecret(c, w.s, id, target, env).1.Ok?
    ensures id in w.s.leases && id in w.h.origin
    ensures var l, o := w.s.leases[id], w.h.origin[id];
      && !l.revoked && l.secretName == o.issued.secretName && l.secretName in w.s.store
      && w.s.store[l.secretName].id == o.incarnation
      && AccessSecret(c, w.s, id, target, env).1.value == Guard(id, o.plaintext)
  {
    hide OriginsOk, SessionsOk, CascadeOk, RenewalsOk, AgentCapOk, SessionCapOk, AnyMatches;
  }

  /** A lease on a deleted secret is never read again, whatever is stored under the name later. */
  lemma DeletedNeverRead(c: Config, w: World, pre: seq<Op>, name: SecretName, env: Env, post: seq<Op>,
                         id: LeaseId, target: string, later: Env)
    requires LawfulCipher(c.cipher) && Start(c, w) && AdmissibleRun(c, w, pre + [OpDelete(name, env)] + post)
    requires id in Runs(c, w, pre).s.leases && Runs(c, w, pre).s.leases[id].secretName == name
    ensures AccessSecret(c, Runs(c, w, pre + [OpDelete(name, env)] + post).s, id, target, later).1.Err?
  {
    hide LawfulCipher, Start, Inv, AccessSecret, Apply;
    var mid := Runs(c, w, pre);
    var op := OpDelete(name, env);
    RunsConcat(c, w, pre + [op], post);
    RunsConcat(c, w, pre, [op]);
    OneStep(c, mid, op);
    RunInv(c, w, pre);
    KnownOrigin(c, mid, id);
    OriginStableStep(c, mid, op, id);
    DeleteRevokes(c, mid.s, name, env, id);
    DeadForever(c, Step(c, mid, op), post, id);
    GoneUse(c, Runs(c, w, pre + [op] + post).s, id, target, later, id);
  }

  lemma KnownOrigin(c: Config, w: World, id: LeaseId)
    requires Inv(c, w) && id in w.s.leases
    ensures id in w.h.origin
  {
  }

  lemma DeleteRevokes(c: Config, s: State, name: SecretName, env: Env, id: LeaseId)
    requires id in s.leases && s.leases[id].secretName == name
    ensures Gone(Apply(c, s, OpDelete(name, env)).leases, id)
  {
    hide RevocationEntries;
  }

  // ---- Delegation ----

  /**
   * Whenever an access to a target succeeds, a grant of the policy permits that agent that secret
   * for that target, and if the lease belongs to a session so does a binding of the tool it was
   * requested for.
   */
  lemma DelegationSound(c: Config, w: World, ops: seq<Op>, id: LeaseId, target: string, env: Env)
    requires LawfulCipher(c.cipher) && Start(c, w) && AdmissibleRun(c, w, ops)
    requires AccessSecret(c, Runs(c, w, ops).s, id, target, env).1.Ok?
    ensures var end := Runs(c, w, ops);
      && id in end.s.leases && id in end.h.origin
      && var l, o := end.s.leases[id], end.h.origin[id];
      && Evaluate(c.policy, l.agent, l.secretName, target).Ok?
      && (exists i: nat | i < |c.policy.grants| :: Permits(c.policy.grants[i], l.agent, l.secretName, target))
      && (l.sessionId.Some? ==>
            && o.binding.Some?
            && exists b | b in o.binding.value.0.toolBindings ::
                 && b.toolName == o.binding.value.1 && l.secretName in b.allowedSecrets
                 && exists d | d in b.allowedDomains :: Matches(d, target))
  {
    hide LawfulCipher, Start, Inv, Step, Admissible, AccessSecret, Evaluate, ToolAllowed;
    RunInv(c, w, ops);
    AccessWithinScope(c, Runs(c, w, ops), id, target, env);
    var l, o := Runs(c, w, ops).s.leases[id], Runs(c, w, ops).h.origin[id];
    PolicyMonotone(c.policy, l.agent, l.secretName, l.allowedDomains[0], target);
    EvaluateMeaning(c.policy, l.agent, l.secretName, target);
    if l.sessionId.Some? {
      ToolMonotone(o.binding.value.0, o.binding.value.1, l.secretName, l.allowedDomains[0], target);
      ToolMeaning(o.binding.value.0, o.binding.value.1, l.secretName, target);
    }
  }

  lemma AccessWithinScope(c: Config, w: World, id: LeaseId, target: string, env: Env)
    requires Inv(c, w) && AccessSecret(c, w.s, id, target, env).1.Ok?
    ensures id in w.s.leases && id in w.h.origin
    ensures var l, o := w.s.leases[id], w.h.origin[id];
      && |l.allowedDomains| == 1 && Matches(l.allowedDomains[0], target)
      && Evaluate(c.policy, l.agent, l.secretName, l.allowedDomains[0]).Ok?
      && (l.sessionId.Some? ==>
            o.binding.Some? && ToolAllowed(o.binding.value.0, o.binding.value.1, l.secretName, l.allowedDomains[0]))
  {
    hide Readable, LiveOk, SessionsOk, CascadeOk, RenewalsOk, AgentCapOk, SessionCapOk, OpenSecret, Evaluate,
      ToolAllowed, Matches, WithinLifetime;
    assert OriginOk(c.policy, w.h.origin[id]);
    var i :| 0 <= i < |w.s.leases[id].allowedDomains| && Matches(w.s.leases[id].allowedDomains[i], target);
  }

  // ---- Lifetime ----

  /**
   * Every successful access comes no later than the issue of the lease plus the time the policy
   * gives it plus a day for each renewal, and while the lease's session is held there are at most
   * as many renewals as it allows.
   */
  lemma LifetimeBounded(c: Config, w: World, ops: seq<Op>, id: LeaseId, target: string, env: Env, token: Token)
    requires LawfulCipher(c.cipher) && Start(c, w) && AdmissibleRun(c, w, ops)
    requires AccessSecret(c, Runs(c, w, ops).s, id, target, env).1.Ok?
    ensures var end := Runs(c, w, ops);
      && id in end.s.leases && id in end.h.origin
      && var l := end.s.leases[id];
      && |l.allowedDomains| == 1
      && var granted := Evaluate(c.policy, l.agent, l.secretName, l.allowedDomains[0]);
      && granted.Ok?
      && env.now <= l.expiresAt <= l.issuedAt + granted.value.ttl + 86_400_000_000_000 * l.renewalCount
      && (token in end.s.sessions && l.sessionId == Some(end.s.sessions[token].id) ==>
            && l.renewalCount <= end.s.sessions[token].policy.maxRenewalsPerLease
            && env.now <= l.issuedAt + granted.value.ttl
                          + 86_400_000_000_000 * end.s.sessions[token].policy.maxRenewalsPerLease)
  {
    hide LawfulCipher, Start, Step, Admissible;
    RunInv(c, w, ops);
    AccessInTime(c, Runs(c, w, ops).s, id, target, env);
    hide AccessSecret, Readable, LiveOk, SessionsOk, CascadeOk, AgentCapOk, SessionCapOk, Evaluate;
    var end := Runs(c, w, ops);
    assert OriginOk(c.policy, end.h.origin[id]);
    assert RenewalsFit(end.s.leases[id], end.s.sessions);
  }

  lemma AccessInTime(c: Config, s: State, id: LeaseId, target: string, env: Env)
    requires AccessSecret(c, s, id, target, env).1.Ok?
    ensures id in s.leases && env.now <= s.leases[id].expiresAt
  {
    hide OpenSecret, AnyMatches;
  }

  // ---- Sessions and caps ----

  /** No session that was ever revoked in a run has a live lease, even after the session was collected. */
  lemma RevokedSessionHasNoLiveLease(c: Config, w: World, ops: seq<Op>, id: LeaseId)
    requires LawfulCipher(c.cipher) && Start(c, w) && AdmissibleRun(c, w, ops)
    requires id in Runs(c, w, ops).s.leases && Runs(c, w, ops).s.leases[id].sessionId.Some?
    requires Runs(c, w, ops).s.leases[id].sessionId.value in Runs(c, w, ops).h.revokedSessions
    ensures Runs(c, w, ops).s.leases[id].revoked
  {
    hide LawfulCipher, Start, Step, Admissible, Readable, LeasesOk, LiveOk, SessionsOk, RenewalsOk, AgentCapOk,
      SessionCapOk, OriginsOk;
    RunInv(c, w, ops);
  }

  /**
   * Run one at a time, requests never exceed the caps: an agent never has more unrevoked leases
   * than the vault allows, nor a session more live leases than its policy does.
   */
  lemma CapsHold(c: Config, w: World, ops: seq<Op>, agent: AgentId, token: Token)
    requires LawfulCipher(c.cipher) && Start(c, w) && AdmissibleRun(c, w, ops)
    ensures ActiveCount(Runs(c, w, ops).s.leases, agent) <= c.maxLeasesPerAgent
    ensures var s := Runs(c, w, ops).s; token in s.sessions ==>
      Count(s.leases, LiveIn(s.sessions[token].id)) <= s.sessions[token].activeLeaseCount
        <= s.sessions[token].policy.maxConcurrentLeases
  {
    hide LawfulCipher, Start, Step, Admissible, Readable, LeasesOk, LiveOk, SessionsOk, RenewalsOk, CascadeOk,
      OriginsOk, ActiveCount;
    RunInv(c, w, ops);
    var s := Runs(c, w, ops).s;
    assert token in s.sessions ==> CounterOk(s.leases, s.sessions[token]);
  }

  // ---- Key rotation ----

  /**
   * A rotation that succeeds leaves every secret opening, under the key now in force, to what it
   * opened to before; each version rises by one and identity, kind, description and creation
   * time stay.  One that stops at or before the transactional batch, be it at a row that does not
   * open or does not seal again, changes nothing at all.
   */
  lemma RotationRefinesIdentity(c: Config, s: State, op: Op)
    requires LawfulCipher(c.cipher) && op.OpRotate? && NoncesFit(c, op.nonces)
    ensures var (s', ok) := RotateDek(c, s, op.newKey, op.nonces, op.faults, op.env);
      && (ok ==>
            && s.dek.Some? && s'.dek == Some(op.newKey) && s'.persisted == op.newKey
            && s'.store.Keys == s.store.Keys && s'.leases == s.leases && s'.sessions == s.sessions
            && forall n | n in s.store ::
                 && Decrypt(c.cipher, s'.store[n].sealed, op.newKey)
                     == Decrypt(c.cipher, s.store[n].sealed, s.dek.value)
                 && s'.store[n].version == s.store[n].version + 1
                 && s'.store[n].id == s.store[n].id && s'.store[n].kind == s.store[n].kind
                 && s'.store[n].description == s.store[n].description && s'.store[n].createdAt == s.store[n].createdAt)
      && (s.dek.None? || !op.env.storeOk || !FetchesAll(s.store, op.faults) || op.faults.batchFailsAt <= |s.store| ==>
            s' == s && !ok)
      && (s.dek.Some? && !CanReSealAll(c.cipher, s.store, s.dek.value, op.newKey, op.nonces) ==> s' == s && !ok)
      && (s.dek.Some? && (exists n :: n in s.store && Decrypt(c.cipher, s.store[n].sealed, s.dek.value).Err?) ==>
          s' == s && !ok)
  {
    if n :| s.dek.Some? && n in s.store && Decrypt(c.cipher, s.store[n].sealed, s.dek.value).Err? {
      assert ReSeal(c.cipher, s.store[n], s.dek.value, op.newKey, op.nonces(n), 0).Err?;
    }
    hide LawfulCipher, CanReSealAll, ReSealAll;
    if s.dek.Some? && CanReSealAll(c.cipher, s.store, s.dek.value, op.newKey, op.nonces) {
      ReSealAllEffect(c.cipher, s.store, s.dek.value, op.newKey, op.nonces, op.env.now);
    }
  }

  /**
   * With authenticated ciphers, a rotation to a fresh key keeps every secret readable under the
   * vault's key exactly when it is not stranded, that is, unless the batch went through and the
   * key source then refused the new key while there was something stored.
   */
  lemma RotationKeepsReadableIff(c: Config, w: World, op: Op)
    requires LawfulCipher(c.cipher) && AuthenticCipher(c.cipher)
    requires Inv(c, w) && op.OpRotate? && NoncesFit(c, op.nonces) && op.newKey != w.s.persisted
    ensures var s' := RotateDek(c, w.s, op.newKey, op.nonces, op.faults, op.env).0;
      Readable(c.cipher, s'.store, s'.persisted, w.h.written) <==> (w.s.store == map[] || !Stranded(c, w.s, op))
  {
    hide LeasePart, OriginsOk, SessionsOk, CanReSealAll;
    var s' := RotateDek(c, w.s, op.newKey, op.nonces, op.faults, op.env).0;
    if !Stranded(c, w.s, op) {
      RotateInv(c, w, op);
    } else if w.s.store != map[] {
      var n :| n in w.s.store;
      assert ReSeal(c.cipher, w.s.store[n], w.s.persisted, op.newKey, op.nonces(n), op.env.now).Ok? by {
        ReSealAnyTime(c.cipher, w.s.store, w.s.persisted, op.newKey, op.nonces, op.env.now, n);
      }
      assert Authentic(Backend(c.cipher, c.cipher.defaultAlgorithm));
      assert Decrypt(c.cipher, s'.store[n].sealed, w.s.persisted).Err?;
    }
  }

  lemma ReSealAnyTime(c: Cipher, t: Table, oldKey: Key, newKey: Key, nonces: SecretName -> Bytes, now: Time,
                      n: SecretName)
    requires CanReSealAll(c, t, oldKey, newKey, nonces) && n in t
    ensures ReSeal(c, t[n], oldKey, newKey, nonces(n), now).Ok?
  {
    assert ReSeal(c, t[n], oldKey, newKey, nonces(n), 0).Ok?;
  }
}
