/**
 * What a vault gives, over whole runs: when an access succeeds, how long a lease serves its domain,
 * and when the key is rotated.
 */
module Availability {
  import opened Types
  import opened Identity
  import opened Policy
  import opened Leases
  import opened Crypto
  import opened Store
  import opened VaultModel
  import opened VaultRuns
  import opened VaultTheorems
  import Utf8
  import GcRuns
  import M = VaultMeaning

  /**
   * At the end of any run an access succeeds exactly if the lease is held, not revoked, not past its
   * expiry and not used up, one of its domains matches the target, the vault is opened, store and log
   * answer, and what was written under the name is text.  It then hands out what was written.
   */
  lemma AccessSucceedsIff(c: Config, w: World, ops: seq<Op>, id: LeaseId, target: string, env: Env)
    requires LawfulCipher(c.cipher) && Start(c, w) && AdmissibleRun(c, w, ops)
    ensures var end := Runs(c, w, ops); var r := AccessSecret(c, end.s, id, target, env).1;
      && (r.Ok? <==>
            && id in end.s.leases && var l := end.s.leases[id];
            && !l.revoked && env.now <= l.expiresAt && (l.maxUses.None? || l.useCount < l.maxUses.value)
            && (exists d | d in l.allowedDomains :: Matches(d, target))
            && end.s.dek.Some? && env.storeOk && env.auditOk
            && l.secretName in end.h.written && Utf8.Valid(end.h.written[l.secretName]))
      && (r.Ok? ==> r.value == Guard(id, end.h.written[end.s.leases[id].secretName]))
  {
    RunInv(c, w, ops);
    var end := Runs(c, w, ops);
    hide Runs, AdmissibleRun, Start, LawfulCipher;
    AccessUnderInv(c, end, id, target, env);
  }

  lemma AccessUnderInv(c: Config, w: World, id: LeaseId, target: string, env: Env)
    requires Inv(c, w)
    ensures var r := AccessSecret(c, w.s, id, target, env).1;
      && (r.Ok? <==>
            && id in w.s.leases && var l := w.s.leases[id];
            && M.Usable(l, target, env.now) && w.s.dek.Some? && env.storeOk && env.auditOk
            && l.secretName in w.h.written && Utf8.Valid(w.h.written[l.secretName]))
      && (r.Ok? ==> r.value == Guard(id, w.h.written[w.s.leases[id].secretName]))
  {
    hide AccessSecret, OriginsOk, SessionsOk, LeasesOk, CascadeOk, RenewalsOk, AgentCapOk, SessionCapOk, M.Usable,
      Decrypt;
    if id in w.s.leases && M.Usable(w.s.leases[id], target, env.now) {
      M.AccessOutcome(c, w.s, id, target, env);
      assert !w.s.leases[id].revoked by { UsableLive(w.s.leases[id], target, env.now); }
    } else {
      M.AccessRefused(c, w.s, id, target, env);
    }
  }

  lemma UsableLive(l: Lease, target: string, now: Time)
    requires M.Usable(l, target, now)
    ensures !l.revoked
  {
  }

  // ---- How long a lease serves ----

  /** An operation that neither renews the lease nor collects leases in its last second or later. */
  predicate Spares(op: Op, id: LeaseId, expiry: Time) {
    (op.OpRenew? ==> op.id != id) && (op.OpGcLeases? ==> op.now + NANOS_PER_SECOND <= expiry)
  }

  /** The lease is held as it was issued, but for its uses and its session. */
  ghost predicate AsIssued(leases: LeaseMap, id: LeaseId, first: Lease) {
    id in leases && leases[id] == first.(useCount := leases[id].useCount, sessionId := leases[id].sessionId)
  }

  /** No operation has revoked it. */
  ghost predicate Unrevoked(leases: LeaseMap, id: LeaseId) {
    id in leases ==> !leases[id].revoked
  }

  /** What an operation may have done to a lease it spares. */
  ghost predicate Spared(before: LeaseMap, after: LeaseMap, id: LeaseId) {
    && id in before && id in after
    && (after[id].revoked
        || after[id] == before[id].(useCount := after[id].useCount, sessionId := after[id].sessionId))
  }

  lemma SparedStep(c: Config, s: State, op: Op, id: LeaseId, first: Lease)
    requires AsIssued(s.leases, id, first) && !first.revoked && Spares(op, id, first.expiresAt)
    requires (op.OpRequest? || op.OpRequestScoped?) ==> op.id != id
    requires Unrevoked(Apply(c, s, op).leases, id)
    ensures AsIssued(Apply(c, s, op).leases, id, first)
  {
    assert Spared(s.leases, Apply(c, s, op).leases, id) by {
      hide Spared, RequestLease, RequestLeaseScoped, AccessSecret, RevokeLease, RevokeAllForAgent, RenewLease, GcLeases,
        StoreSecret, DeleteSecret, RotateDek, CreateSession, RevokeSession;
      match op
      case OpRequest(agent, name, domain, i, env) => RequestSpares(c, s, agent, name, domain, i, env, id);
      case OpRequestScoped(agent, name, domain, token, tool, i, env) =>
        ScopedSpares(c, s, agent, name, domain, token, tool, i, env, id);
      case OpAccess(i, target, env) => AccessSpares(c, s, i, target, env, id);
      case OpRenew(i, ext, env) => RenewSpares(s, i, ext, env, id);
      case OpGcLeases(now) => GcSpares(s, now, id);
      case OpRevoke(i, reason, env) => RevokeSpares(s, i, reason, env, id);
      case OpRevokeAll(agent, env) => RevokeAllSpares(s, agent, env, id);
      case OpDelete(name, env) => DeleteSpares(s, name, env, id);
      case OpRevokeSession(token, env) => RevokeSessionSpares(s, token, env, id);
      case _ => OthersSpare(c, s, op, id);
    }
    hide Apply;
  }

  lemma OthersSpare(c: Config, s: State, op: Op, id: LeaseId)
    requires id in s.leases
    requires op.OpInitialize? || op.OpStore? || op.OpRotate? || op.OpCreateSession? || op.OpGcSessions?
    ensures Spared(s.leases, Apply(c, s, op).leases, id)
  {
    hide RotateDek, StoreSecret, NumSeconds;
    match op
    case OpStore(name, plaintext, kind, description, sid, nonce, env) =>
      StoreSpares(c, s, name, plaintext, kind, description, sid, nonce, env);
    case OpRotate(newKey, nonces, faults, env) => RotateSpares(c, s, newKey, nonces, faults, env);
    case _ =>
  }

  lemma StoreSpares(c: Config, s: State, name: SecretName, plaintext: Bytes, kind: SecretKind,
                    description: Option<string>, sid: SecretId, nonce: Bytes, env: Env)
    ensures StoreSecret(c, s, name, plaintext, kind, description, sid, nonce, env).0.leases == s.leases
  {
  }

  lemma RotateSpares(c: Config, s: State, newKey: Key, nonces: SecretName -> Bytes, faults: RotateFaults, env: Env)
    ensures RotateDek(c, s, newKey, nonces, faults, env).0.leases == s.leases
  {
    hide CanReSealAll, ReSealAll;
  }

  lemma GcSpares(s: State, now: Time, id: LeaseId)
    requires id in s.leases && !s.leases[id].revoked && now + NANOS_PER_SECOND <= s.leases[id].expiresAt
    ensures Spared(s.leases, GcLeases(s, now).leases, id)
  {
  }

  lemma RequestSpares(c: Config, s: State, agent: AgentId, name: SecretName, domain: DomainScope, i: LeaseId, env: Env,
                      id: LeaseId)
    requires id in s.leases && i != id
    ensures var leases := RequestLease(c, s, agent, name, domain, i, env).0.leases;
      id in leases && leases[id] == s.leases[id] && Spared(s.leases, leases, id)
  {
    hide Evaluate, ActiveCount;
  }

  lemma ScopedSpares(c: Config, s: State, agent: AgentId, name: SecretName, domain: DomainScope, token: Token,
                     tool: string, i: LeaseId, env: Env, id: LeaseId)
    requires id in s.leases && i != id
    ensures Spared(s.leases, RequestLeaseScoped(c, s, agent, name, domain, token, tool, i, env).0.leases, id)
  {
    hide RequestLease, SessionCheck;
    RequestSpares(c, s, agent, name, domain, i, env, id);
  }

  lemma AccessSpares(c: Config, s: State, i: LeaseId, target: string, env: Env, id: LeaseId)
    requires id in s.leases
    ensures Spared(s.leases, AccessSecret(c, s, i, target, env).0.leases, id)
  {
    hide Refusal, OpenSecret;
  }

  lemma RenewSpares(s: State, i: LeaseId, ext: int, env: Env, id: LeaseId)
    requires id in s.leases && i != id
    ensures Spared(s.leases, RenewLease(s, i, ext, env).0.leases, id)
  {
    hide RenewalCapped, RenewalLimit;
  }

  lemma RevokeSpares(s: State, i: LeaseId, reason: RevocationReason, env: Env, id: LeaseId)
    requires id in s.leases
    ensures Spared(s.leases, RevokeLease(s, i, reason, env).0.leases, id)
  {
  }

  lemma RevokeAllSpares(s: State, agent: AgentId, env: Env, id: LeaseId)
    requires id in s.leases
    ensures Spared(s.leases, RevokeAllForAgent(s, agent, env).0.leases, id)
  {
    hide RevocationEntries, Flipped;
  }

  lemma DeleteSpares(s: State, name: SecretName, env: Env, id: LeaseId)
    requires id in s.leases
    ensures Spared(s.leases, DeleteSecret(s, name, env).0.leases, id)
  {
    hide RevocationEntries, Flipped;
  }

  lemma RevokeSessionSpares(s: State, token: Token, env: Env, id: LeaseId)
    requires id in s.leases
    ensures Spared(s.leases, RevokeSession(s, token, env).0.leases, id)
  {
    hide RevocationEntries, Flipped;
  }

  /** At no point of the run is the lease revoked. */
  ghost predicate NeverRevoked(c: Config, w: World, ops: seq<Op>, id: LeaseId) {
    && Unrevoked(Runs(c, w, ops).s.leases, id)
    && (ops != [] ==> NeverRevoked(c, w, ops[..|ops| - 1], id))
  }

  lemma {:induction false} SparedRun(c: Config, w: World, ops: seq<Op>, id: LeaseId, first: Lease)
    requires AdmissibleRun(c, w, ops) && id in w.h.origin && AsIssued(w.s.leases, id, first) && !first.revoked
    requires (forall i | 0 <= i < |ops| :: Spares(ops[i], id, first.expiresAt)) && NeverRevoked(c, w, ops, id)
    ensures AsIssued(Runs(c, w, ops).s.leases, id, first)
    decreases |ops|
  {
    hide AsIssued, Apply, Spares, Unrevoked;
    if ops != [] {
      var init, op := ops[..|ops| - 1], ops[|ops| - 1];
      assert forall i | 0 <= i < |init| :: init[i] == ops[i];
      SparedRun(c, w, init, id, first);
      OriginStable(c, w, init, id);
      SparedStep(c, Runs(c, w, init).s, op, id, first);
    }
  }

  /** The lease as a grant leaves it. */
  lemma GrantLeaves(c: Config, w: World, grant: Op, id: LeaseId, name: SecretName)
    requires Inv(c, w) && Admissible(c, w, grant) && Grants(c, w.s, grant, id, name)
    ensures Evaluate(c.policy, grant.agent, name, grant.domain).Ok?
    ensures var terms := Evaluate(c.policy, grant.agent, name, grant.domain).value;
      AsIssued(Step(c, w, grant).s.leases, id,
               NewLease(id, grant.agent, name, [grant.domain], terms, grant.env.now))
  {
    hide Inv, Evaluate, ActiveCount, SessionCheck, Track;
  }

  /**
   * A lease serves every target inside its domain until its time is over: from the grant at `t` up
   * to `t` plus the time the policy gives it, unless it was revoked, used up, renewed to another
   * expiry, or collected in its last second.  Each access then hands out the bytes the secret
   * decrypted to when the lease was granted.
   */
  lemma ServesUntilExpiry(c: Config, w: World, pre: seq<Op>, grant: Op, post: seq<Op>, id: LeaseId, name: SecretName,
                          target: string, env: Env)
    requires LawfulCipher(c.cipher) && Start(c, w) && AdmissibleRun(c, w, pre + [grant] + post)
    requires Grants(c, Runs(c, w, pre).s, grant, id, name) && Matches(grant.domain, target)
    requires Evaluate(c.policy, grant.agent, name, grant.domain).Ok?
    requires var expiry := grant.env.now + Evaluate(c.policy, grant.agent, name, grant.domain).value.ttl;
      env.now <= expiry && forall i | 0 <= i < |post| :: Spares(post[i], id, expiry)
    requires NeverRevoked(c, Runs(c, w, pre + [grant]), post, id)
    requires var end := Runs(c, w, pre + [grant] + post);
      && (id in end.s.leases && end.s.leases[id].maxUses.Some? ==>
            end.s.leases[id].useCount < end.s.leases[id].maxUses.value)
      && (name in end.h.written ==> Utf8.Valid(end.h.written[name]))
      && end.s.dek.Some? && env.storeOk && env.auditOk
    ensures AccessSecret(c, Runs(c, w, pre + [grant] + post).s, id, target, env).1.Ok?
    ensures name in Runs(c, w, pre).s.store
    ensures var before := Runs(c, w, pre).s;
      Ok(AccessSecret(c, Runs(c, w, pre + [grant] + post).s, id, target, env).1.value.value)
        == Decrypt(c.cipher, before.store[name].sealed, before.persisted)
  {
    var mid, end := Runs(c, w, pre), Runs(c, w, pre + [grant] + post);
    GrantedRun(c, w, pre, grant, post, id, name);
    hide Runs, AdmissibleRun, NeverRevoked, Spares, Step, Inv, LawfulCipher, Start, Grants, AccessSecret, Decrypt,
      Track;
    var terms := Evaluate(c.policy, grant.agent, name, grant.domain).value;
    var first := NewLease(id, grant.agent, name, [grant.domain], terms, grant.env.now);
    SparedRun(c, Step(c, mid, grant), post, id, first);
    ServesNow(c, end, id, first, grant.domain, target, env);
    AccessReadsGrantedSecret(c, w, pre, grant, post, id, name, target, env);
  }

  lemma GrantedRun(c: Config, w: World, pre: seq<Op>, grant: Op, post: seq<Op>, id: LeaseId, name: SecretName)
    requires LawfulCipher(c.cipher) && Start(c, w) && AdmissibleRun(c, w, pre + [grant] + post)
    requires Grants(c, Runs(c, w, pre).s, grant, id, name)
    ensures var mid := Runs(c, w, pre); var next := Step(c, mid, grant);
      && Runs(c, w, pre + [grant]) == next && AdmissibleRun(c, next, post)
      && Runs(c, w, pre + [grant] + post) == Runs(c, next, post) && Inv(c, Runs(c, next, post))
      && id in next.h.origin && Evaluate(c.policy, grant.agent, name, grant.domain).Ok?
      && AsIssued(next.s.leases, id,
                  NewLease(id, grant.agent, name, [grant.domain],
                           Evaluate(c.policy, grant.agent, name, grant.domain).value, grant.env.now))
  {
    hide LawfulCipher, Start, Inv, Step, Admissible, Grants, AsIssued, Evaluate;
    var mid := Runs(c, w, pre);
    RunsConcat(c, w, pre + [grant], post);
    RunsConcat(c, w, pre, [grant]);
    OneStep(c, mid, grant);
    RunInv(c, w, pre);
    RunInv(c, w, pre + [grant] + post);
    GrantRecords(c, mid, grant, id, name);
    GrantLeaves(c, mid, grant, id, name);
  }

  lemma ServesNow(c: Config, w: World, id: LeaseId, first: Lease, domain: DomainScope, target: string, env: Env)
    requires Inv(c, w) && AsIssued(w.s.leases, id, first) && !first.revoked && env.now <= first.expiresAt
    requires first.allowedDomains == [domain] && Matches(domain, target)
    requires w.s.leases[id].maxUses.Some? ==> w.s.leases[id].useCount < w.s.leases[id].maxUses.value
    requires first.secretName in w.h.written ==> Utf8.Valid(w.h.written[first.secretName])
    requires w.s.dek.Some? && env.storeOk && env.auditOk
    ensures AccessSecret(c, w.s, id, target, env).1.Ok?
  {
    hide Matches, AccessSecret;
    AccessUnderInv(c, w, id, target, env);
    assert domain in w.s.leases[id].allowedDomains;
    hide OriginsOk, SessionsOk, LeasesOk, CascadeOk, RenewalsOk, AgentCapOk, SessionCapOk, Readable;
  }

  /**
   * A renewal can cut a lease short: one for a second at the time of the grant, and an access after
   * that second is refused, however long the policy had given the lease.
   */
  lemma RenewalCutsShort(c: Config, w: World, k: GcRuns.Case) returns (pre: seq<Op>)
    requires GcRuns.Granting(c, w, k) && GcRuns.Terms(c, w, k).renewable && GcRuns.Terms(c, w, k).ttl >= 0
    ensures AdmissibleRun(c, w, pre)
    ensures var s' := Apply(c, Runs(c, w, pre).s, OpRenew(0, 1, GcRuns.At(0)));
      forall target, env: Env | env.now > NANOS_PER_SECOND ::
        AccessSecret(c, s', 0, target, env).1 == Err(LeaseExpired(0))
  {
    hide Runs, AdmissibleRun, Start, Evaluate, RenewLease, AccessSecret;
    pre := GcRuns.Granted(c, w, k);
    var s := Runs(c, w, pre).s;
    M.RenewOutcome(s, 0, 1, GcRuns.At(0));
    var s' := RenewLease(s, 0, 1, GcRuns.At(0)).0;
    forall target, env: Env | env.now > NANOS_PER_SECOND
      ensures AccessSecret(c, s', 0, target, env).1 == Err(LeaseExpired(0))
    {
      M.AccessRefused(c, s', 0, target, env);
    }
  }

  /** And collection drops a lease up to a second early: an access at its very expiry finds it gone. */
  lemma CollectedEarly(c: Config, w: World, k: GcRuns.Case) returns (pre: seq<Op>, now: Time)
    requires GcRuns.Granting(c, w, k) && GcRuns.Terms(c, w, k).ttl >= NANOS_PER_SECOND
    ensures AdmissibleRun(c, w, pre) && 0 <= now < GcRuns.Terms(c, w, k).ttl
    ensures forall target, env: Env ::
      AccessSecret(c, Apply(c, Runs(c, w, pre).s, OpGcLeases(now)), 0, target, env).1 == Err(LeaseNotFound(0))
  {
    hide Runs, AdmissibleRun, Start, Evaluate, AccessSecret;
    pre := GcRuns.Granted(c, w, k);
    now := GcRuns.Terms(c, w, k).ttl - NANOS_PER_SECOND + 1;
    var s := Runs(c, w, pre).s;
    M.CollectOutcome(s, now);
    var s' := GcLeases(s, now);
    forall target, env: Env ensures AccessSecret(c, s', 0, target, env).1 == Err(LeaseNotFound(0)) {
      M.AccessRefused(c, s', 0, target, env);
    }
  }

  // ---- Rotations ----

  /**
   * At any point of a run, a rotation of an opened vault goes through if nothing fails: every secret
   * then opens, under the new key that is in force and persisted, to what was written.
   */
  lemma FaultFreeRotation(c: Config, w: World, ops: seq<Op>, op: Op)
    requires LawfulCipher(c.cipher) && Start(c, w) && AdmissibleRun(c, w, ops)
    requires op.OpRotate? && NoncesFit(c, op.nonces)
    requires var end := Runs(c, w, ops);
      && end.s.dek.Some? && op.env.storeOk && op.env.auditOk
      && op.faults.unreadable == {} && op.faults.batchFailsAt > |end.s.store| && op.faults.keySourceOk
      && forall n | n in end.h.written :: Encrypt(c.cipher, end.h.written[n], op.newKey, op.nonces(n)).Ok?
    ensures var end := Runs(c, w, ops);
      var (s', ok) := RotateDek(c, end.s, op.newKey, op.nonces, op.faults, op.env);
      && ok && s'.dek == Some(op.newKey) && s'.persisted == op.newKey && s'.store.Keys == end.h.written.Keys
      && forall n | n in s'.store :: Decrypt(c.cipher, s'.store[n].sealed, op.newKey) == Ok(end.h.written[n])
  {
    RunInv(c, w, ops);
    var end := Runs(c, w, ops);
    hide Runs, AdmissibleRun, Start;
    RotatesUnderInv(c, end, op);
  }

  lemma RotatesUnderInv(c: Config, w: World, op: Op)
    requires LawfulCipher(c.cipher) && Inv(c, w) && op.OpRotate? && NoncesFit(c, op.nonces)
    requires w.s.dek.Some? && op.env.storeOk && op.env.auditOk && op.faults.unreadable == {}
    requires op.faults.batchFailsAt > |w.s.store| && op.faults.keySourceOk
    requires forall n | n in w.h.written :: Encrypt(c.cipher, w.h.written[n], op.newKey, op.nonces(n)).Ok?
    ensures var (s', ok) := RotateDek(c, w.s, op.newKey, op.nonces, op.faults, op.env);
      && ok && s'.dek == Some(op.newKey) && s'.persisted == op.newKey && s'.store.Keys == w.h.written.Keys
      && forall n | n in s'.store :: Decrypt(c.cipher, s'.store[n].sealed, op.newKey) == Ok(w.h.written[n])
  {
    hide LeasePart, OriginsOk, SessionsOk, LawfulCipher, Decrypt, Encrypt, RotateDek;
    var s' := RotateDek(c, w.s, op.newKey, op.nonces, op.faults, op.env).0;
    M.RotationOutcome(c, w.s, op);
    assert M.ReSeals(c.cipher, w.s.store, w.s.dek.value, op);
    forall n | n in s'.store ensures Decrypt(c.cipher, s'.store[n].sealed, op.newKey) == Ok(w.h.written[n]) {
      DecryptEncrypt(c.cipher, c.cipher.defaultAlgorithm, w.h.written[n], op.newKey, op.nonces(n));
    }
  }
}
