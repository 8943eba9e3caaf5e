/**
 * The vault object: lease and session maps, data key and store, updated in place.
 *
 * Each method is proved to do what the function of the same name in `VaultModel` says.
 */
module VaultObject {
  import opened Types
  import opened Counting
  import opened Identity
  import opened Policy
  import opened Leases
  import opened Sessions
  import opened Crypto
  import opened Store
  import opened VaultModel

  /** Adding one more lease adds one more revocation entry. */
  lemma OneMoreEntry(leases: map<LeaseId, Lease>, ids: set<LeaseId>, id: LeaseId, reason: RevocationReason)
    requires ids <= leases.Keys && id in leases && id !in ids
    ensures RevocationEntries(leases, ids + {id}, reason)
         == RevocationEntries(leases, ids, reason) + multiset{AuditEntry(leases[id].agent, LeaseRevocation(id, reason))}
  {
    var f := set i | i in ids :: AuditEntry(leases[i].agent, LeaseRevocation(i, reason));
    var e := AuditEntry(leases[id].agent, LeaseRevocation(id, reason));
    assert (set i | i in ids + {id} :: AuditEntry(leases[i].agent, LeaseRevocation(i, reason))) == f + {e};
    assert e !in f;
  }

  /** The rotation loop's updates, applied as a batch, are the whole table sealed again. */
  lemma BatchIsReSealAll(c: Cipher, t: Table, names: seq<SecretName>, updates: seq<BatchUpdateItem>, oldKey: Key,
                         newKey: Key,
                         nonces: SecretName -> Bytes, now: Time)
    requires (forall n :: n in names <==> n in t) && Distinct(updates)
    requires |updates| == |names| && forall i | 0 <= i < |names| :: updates[i].name == names[i]
    requires CanReSealAll(c, t, oldKey, newKey, nonces) && ApplyBatch(t, updates, now).Some?
    requires forall i | 0 <= i < |names| ::
      ReSeal(c, t[names[i]], oldKey, newKey, nonces(names[i]), now)
          == Ok(Rewritten(t[names[i]], updates[i].sealed, now))
    ensures ApplyBatch(t, updates, now) == Some(ReSealAll(c, t, oldKey, newKey, nonces, now))
  {
    hide ReSeal, Rewritten, CanReSealAll, ApplyBatch, Distinct;
    ApplyBatchEffect(t, updates, now);
    var out := ApplyBatch(t, updates, now).value;
    forall n | n in t ensures out[n] == ReSealAll(c, t, oldKey, newKey, nonces, now)[n] {
      var i :| 0 <= i < |names| && names[i] == n;
      assert out[updates[i].name] == Rewritten(t[updates[i].name], updates[i].sealed, now);
    }
    assert out == ReSealAll(c, t, oldKey, newKey, nonces, now);
  }

  lemma DistinctLength(names: seq<SecretName>, s: set<SecretName>)
    requires forall n :: n in names <==> n in s
    requires forall i, j | 0 <= i < j < |names| :: names[i] != names[j]
    ensures |names| == |s|
  {
    if names == [] {
      assert s == {};
    } else {
      var last := names[|names| - 1];
      var init := names[..|names| - 1];
      assert forall n :: n in init <==> n in s - {last};
      DistinctLength(init, s - {last});
    }
  }

  // ---- The loops over the lease and session maps ----

  /** Visiting one more element. */
  lemma VisitOne<T>(all: set<T>, left: set<T>, x: T)
    requires x in left
    ensures x !in all - left
    ensures all - (left - {x}) == if x in all then all - left + {x} else all - left
  {
  }

  method CountActive(leases: map<LeaseId, Lease>, agent: AgentId) returns (n: nat)
    ensures n == ActiveCount(leases, agent)
  {
    var left := leases.Keys;
    ghost var all := Where(leases, ActiveFor(agent));
    n := 0;
    assert all - left == {};
    while left != {}
      invariant left <= leases.Keys
      invariant n == |all - left|
      decreases |left|
    {
      var id :| id in left;
      VisitOne(all, left, id);
      left := left - {id};
      if leases[id].agent == agent && !leases[id].revoked {
        n := n + 1;
      }
    }
    assert all - left == all;
  }

  /** Visits every lease, flips the selected live ones, and logs each unless the entry is lost. */
  method RevokeEach(before: map<LeaseId, Lease>, sel: Selector, lost: set<LeaseId>)
    returns (leases: map<LeaseId, Lease>, count: nat, entries: multiset<AuditEntry>)
    ensures leases == RevokeWhere(before, sel)
    ensures count == |Flipped(before, sel)|
    ensures entries == RevocationEntries(before, Flipped(before, sel) - lost, sel.Reason())
  {
    hide RevocationEntries, Flipped, RevokeWhere, PartlyRevoked;
    ghost var all := Flipped(before, sel);
    ghost var kept := all - lost;
    var left := before.Keys;
    leases, count, entries := before, 0, multiset{};
    RevokeNone(before, sel, all - left, kept - left);
    while left != {}
      invariant left <= before.Keys
      invariant leases == PartlyRevoked(before, all - left)
      invariant count == |all - left|
      invariant entries == RevocationEntries(before, kept - left, sel.Reason())
      decreases |left|
    {
      var id :| id in left;
      VisitOne(all, left, id);
      VisitOne(kept, left, id);
      RevokeOneMore(before, sel, all - left, id);
      var lease := leases[id];
      if sel.Selects(lease) && !lease.revoked {
        leases := leases[id := Revoke(lease)];
        count := count + 1;
        if id !in lost {
          OneMoreEntry(before, kept - left, id, sel.Reason());
          entries := entries + multiset{AuditEntry(lease.agent, LeaseRevocation(id, sel.Reason()))};
        }
      }
      left := left - {id};
    }
    assert all - left == all && kept - left == kept;
    RevokeAll(before, sel);
  }

  function PartlyRevoked(before: map<LeaseId, Lease>, ids: set<LeaseId>): map<LeaseId, Lease> {
    map id | id in before :: if id in ids then Revoke(before[id]) else before[id]
  }

  lemma RevokeNone(before: map<LeaseId, Lease>, sel: Selector, ids: set<LeaseId>, kept: set<LeaseId>)
    requires ids == Flipped(before, sel) - before.Keys && kept <= ids
    ensures ids == {} && PartlyRevoked(before, ids) == before
    ensures kept <= before.Keys && RevocationEntries(before, kept, sel.Reason()) == multiset{}
  {
  }

  lemma RevokeOneMore(before: map<LeaseId, Lease>, sel: Selector, ids: set<LeaseId>, id: LeaseId)
    requires id in before && id !in ids
    ensures id in PartlyRevoked(before, ids) && PartlyRevoked(before, ids)[id] == before[id]
    ensures PartlyRevoked(before, ids + {id}) == PartlyRevoked(before, ids)[id := Revoke(before[id])]
    ensures id in Flipped(before, sel) <==> sel.Selects(before[id]) && !before[id].revoked
    ensures Flipped(before, sel) <= before.Keys
  {
  }

  lemma RevokeAll(before: map<LeaseId, Lease>, sel: Selector)
    ensures PartlyRevoked(before, Flipped(before, sel)) == RevokeWhere(before, sel)
    ensures Flipped(before, sel) <= before.Keys
  {
  }

  method RetainLeases(before: map<LeaseId, Lease>, now: Time) returns (leases: map<LeaseId, Lease>, removed: nat)
    ensures leases == map id | id in before && Kept(before[id], now) :: before[id]
    ensures removed == |before| - |leases|
  {
    hide Kept;
    var left := before.Keys;
    leases := before;
    while left != {}
      invariant left <= leases.Keys <= before.Keys
      invariant forall id | id in leases :: leases[id] == before[id]
      invariant forall id | id in before && id !in left :: id in leases <==> Kept(before[id], now)
      decreases |left|
    {
      var id :| id in left;
      left := left - {id};
      if !Kept(leases[id], now) {
        leases := leases - {id};
      }
    }
    SubsetCard(leases.Keys, before.Keys);
    removed := |before| - |leases|;
  }

  method RetainSessions(before: map<Token, Session>, now: Time) returns (sessions: map<Token, Session>, removed: nat)
    ensures sessions == map t | t in before && Active(before[t], now) :: before[t]
    ensures removed == |before| - |sessions|
  {
    hide Active;
    var left := before.Keys;
    sessions := before;
    while left != {}
      invariant left <= sessions.Keys <= before.Keys
      invariant forall t | t in sessions :: sessions[t] == before[t]
      invariant forall t | t in before && t !in left :: t in sessions <==> Active(before[t], now)
      decreases |left|
    {
      var t :| t in left;
      left := left - {t};
      if !Active(sessions[t], now) {
        sessions := sessions - {t};
      }
    }
    SubsetCard(sessions.Keys, before.Keys);
    removed := |before| - |sessions|;
  }

  /** The names of all secrets, each once. */
  method ListNames(store: SecretStore, reachable: bool) returns (r: Result<seq<SecretName>>)
    ensures r.Ok? <==> reachable
    ensures r.Err? ==> r.error == Storage
    ensures r.Ok? ==> forall n :: n in r.value <==> n in store.table
    ensures r.Ok? ==> forall i, j | 0 <= i < j < |r.value| :: r.value[i] != r.value[j]
  {
    var list := store.List(reachable);
    if list.Err? {
      return Err(list.error);
    }
    var names := seq(|list.value|, i requires 0 <= i < |list.value| => list.value[i].name);
    forall n | n in store.table ensures n in names {
      var i :| 0 <= i < |list.value| && list.value[i] == MetadataOf(n, store.table[n]);
      assert names[i] == n;
    }
    return Ok(names);
  }

  /** Decrypts every secret under the old key and seals it again under the new one, collecting the updates. */
  method ReSealEach(c: Cipher, t: Table, names: seq<SecretName>, oldKey: Key, newKey: Key, nonces: SecretName -> Bytes,
                    faults: RotateFaults, now: Time) returns (r: Result<seq<BatchUpdateItem>>)
    requires forall n :: n in names <==> n in t
    requires forall i, j | 0 <= i < j < |names| :: names[i] != names[j]
    ensures r.Ok? <==> FetchesAll(t, faults) && CanReSealAll(c, t, oldKey, newKey, nonces)
    ensures r.Ok? ==> |r.value| == |t|
    ensures r.Err? ==> exists n | n in t :: RowError(c, t[n], n, oldKey, newKey, nonces, faults, r.error)
    ensures r.Ok? ==> ApplyBatch(t, r.value, now) == Some(ReSealAll(c, t, oldKey, newKey, nonces, now))
  {
    hide Decrypt, Encrypt, Rewritten;
    var updates: seq<BatchUpdateItem> := [];
    for i := 0 to |names|
      invariant |updates| == i
      invariant forall k | 0 <= k < i :: updates[k].name == names[k] && names[k] !in faults.unreadable
      invariant forall k | 0 <= k < i ::
        ReSeal(c, t[names[k]], oldKey, newKey, nonces(names[k]), now)
            == Ok(Rewritten(t[names[k]], updates[k].sealed, now))
    {
      var name := names[i];
      if name in faults.unreadable {
        assert RowError(c, t[name], name, oldKey, newKey, nonces, faults, Storage);
        return Err(Storage);
      }
      var plaintext := Decrypt(c, t[name].sealed, oldKey);
      if plaintext.Err? {
        assert RowError(c, t[name], name, oldKey, newKey, nonces, faults, plaintext.error);
        return Err(plaintext.error);
      }
      var sealed := Encrypt(c, plaintext.value, newKey, nonces(name));
      if sealed.Err? {
        assert RowError(c, t[name], name, oldKey, newKey, nonces, faults, sealed.error);
        return Err(sealed.error);
      }
      updates := updates + [BatchUpdateItem(name, sealed.value)];
    }
    AllReSeal(c, t, names, updates, oldKey, newKey, nonces, now);
    DistinctLength(names, t.Keys);
    BatchIsReSealAll(c, t, names, updates, oldKey, newKey, nonces, now);
    return Ok(updates);
  }

  lemma AllReSeal(c: Cipher, t: Table, names: seq<SecretName>, updates: seq<BatchUpdateItem>, oldKey: Key, newKey: Key,
                  nonces: SecretName -> Bytes, now: Time)
    requires |updates| == |names| && forall n :: n in names <==> n in t
    requires forall i | 0 <= i < |names| ::
      ReSeal(c, t[names[i]], oldKey, newKey, nonces(names[i]), now)
          == Ok(Rewritten(t[names[i]], updates[i].sealed, now))
    ensures CanReSealAll(c, t, oldKey, newKey, nonces)
  {
    hide Decrypt, Encrypt, Rewritten;
    forall n | n in t ensures ReSeal(c, t[n], oldKey, newKey, nonces(n), 0).Ok? {
      var k :| 0 <= k < |names| && names[k] == n;
    }
  }

  class Vault {
    const cfg: Config
    const store: SecretStore
    var leases: map<LeaseId, Lease>
    var sessions: map<Token, Session>
    var dek: Option<Key>
    var persisted: Key
    var audit: multiset<AuditEntry>

    ghost function View(): State
      reads this, store
    {
      State(leases, sessions, store.table, dek, persisted, audit)
    }

    /** Held sessions have distinct ids. */
    ghost predicate Valid()
      reads this
    {
      forall t, u | t in sessions && u in sessions && sessions[t].id == sessions[u].id :: t == u
    }

    constructor (cfg: Config, store: SecretStore, key: Key)
      ensures Valid() && this.cfg == cfg && this.store == store
      ensures View() == State(map[], map[], store.table, None, key, multiset{})
    {
      this.cfg, this.store := cfg, store;
      leases, sessions, dek, persisted, audit := map[], map[], None, key, multiset{};
    }

    method Initialize()
      requires Valid()
      modifies this
      ensures Valid() && View() == VaultModel.Initialize(old(View()))
    {
      dek := Some(persisted);
    }

    method Record(e: AuditEntry, ok: bool) returns (r: Result<()>)
      modifies this`audit
      ensures View() == Logged(old(View()), e, ok)
      ensures r == if ok then Ok(()) else Err(Storage)
    {
      if !ok {
        return Err(Storage);
      }
      audit := audit + multiset{e};
      return Ok(());
    }

    method RequestLease(agent: AgentId, name: SecretName, domain: DomainScope, id: LeaseId, env: Env)
      returns (r: Result<LeaseGrant>)
      requires Valid()
      modifies this
      ensures Valid() && (View(), r) == VaultModel.RequestLease(cfg, old(View()), agent, name, domain, id, env)
    {
      var terms := EvaluateLoop(cfg.policy, agent, name, domain);
      if terms.Err? {
        var logged := Record(AuditEntry(agent, AccessDenial(name, domain)), env.auditOk);
        return if logged.Ok? then Err(terms.error) else Err(logged.error);
      }
      var active := CountActive(leases, agent);
      if active >= cfg.maxLeasesPerAgent {
        return Err(InvalidConfig);
      }
      var stored := store.Get(name, env.storeOk);
      if stored.Err? {
        return Err(stored.error);
      }
      var lease := NewLease(id, agent, name, [domain], terms.value, env.now);
      var grant := GrantOf(lease);
      var entry := AuditEntry(agent, LeaseGranted(id, name, [domain], NumSeconds(terms.value.ttl)));
      var logged := Record(entry, env.auditOk);
      if logged.Err? {
        return Err(logged.error);
      }
      leases := leases[id := lease];
      return Ok(grant);
    }

    method AccessSecret(id: LeaseId, target: string, env: Env) returns (r: Result<Guard>)
      requires Valid()
      modifies this
      ensures Valid() && (View(), r) == VaultModel.AccessSecret(cfg, old(View()), id, target, env)
    {
      if id !in leases {
        return Err(LeaseNotFound(id));
      }
      var refusal := Refusal(leases[id], target, env.now);
      if refusal.Some? {
        return Err(refusal.value);
      }
      var used := RecordUse(leases[id]);
      if used.Err? {
        return Err(used.error);
      }
      leases := leases[id := used.value];
      var stored := store.Get(used.value.secretName, env.storeOk);
      if stored.Err? {
        return Err(stored.error);
      }
      var plaintext := OpenSecret(cfg.cipher, stored.value, dek);
      if plaintext.Err? {
        return Err(plaintext.error);
      }
      var entry := AuditEntry(used.value.agent, SecretAccessed(id, used.value.secretName, target));
      var logged := Record(entry, env.auditOk);
      if logged.Err? {
        return Err(logged.error);
      }
      return Ok(Guard(id, plaintext.value));
    }

    method RevokeLease(id: LeaseId, reason: RevocationReason, env: Env) returns (r: Result<()>)
      requires Valid()
      modifies this
      ensures Valid() && (View(), r) == VaultModel.RevokeLease(old(View()), id, reason, env)
    {
      if id !in leases {
        return Err(LeaseNotFound(id));
      }
      var agent := leases[id].agent;
      leases := leases[id := Revoke(leases[id])];
      r := Record(AuditEntry(agent, LeaseRevocation(id, reason)), env.auditOk);
    }

    method RevokeMatching(sel: Selector, lost: set<LeaseId>) returns (count: nat)
      modifies this`leases, this`audit
      ensures View() == BulkRevoke(old(View()), sel, lost)
      ensures count == |Flipped(old(leases), sel)|
    {
      var after, n, entries := RevokeEach(leases, sel, lost);
      leases, audit, count := after, audit + entries, n;
    }

    method RevokeAllForAgent(agent: AgentId, env: Env) returns (r: Result<nat>)
      requires Valid()
      modifies this
      ensures Valid() && (View(), r) == VaultModel.RevokeAllForAgent(old(View()), agent, env)
    {
      var count := RevokeMatching(ByAgent(agent), env.lost);
      return Ok(count);
    }

    method RenewLease(id: LeaseId, extensionSecs: int, env: Env) returns (r: Result<LeaseGrant>)
      requires Valid()
      modifies this
      ensures Valid() && (View(), r) == VaultModel.RenewLease(old(View()), id, extensionSecs, env)
    {
      if id !in leases {
        return Err(LeaseNotFound(id));
      }
      var lease := leases[id];
      if env.now > lease.expiresAt {
        return Err(LeaseExpired(id));
      }
      if extensionSecs <= 0 || extensionSecs > MAX_EXTENSION_SECS {
        return Err(InvalidConfig);
      }
      if lease.sessionId.Some? {
        var found := FindSession(lease.sessionId.value);
        if found.Some? && lease.renewalCount >= found.value.policy.maxRenewalsPerLease {
          return Err(RenewalLimitReached(id, found.value.policy.maxRenewalsPerLease));
        }
      }
      var renewed := Renew(lease, extensionSecs * NANOS_PER_SECOND, env.now);
      if renewed.Err? {
        return Err(renewed.error);
      }
      leases := leases[id := renewed.value];
      var logged := Record(AuditEntry(renewed.value.agent, LeaseRenewed(id, extensionSecs)), env.auditOk);
      return if logged.Ok? then Ok(GrantOf(renewed.value)) else Err(logged.error);
    }

    /** The held session with this id, found by looking through the values. */
    method FindSession(sid: SessionId) returns (r: Option<Session>)
      requires Valid()
      ensures r.Some? ==> exists t | t in sessions :: sessions[t] == r.value && r.value.id == sid
      ensures forall t | t in sessions && sessions[t].id == sid :: r == Some(sessions[t])
    {
      var left := sessions.Keys;
      while left != {}
        invariant left <= sessions.Keys
        invariant forall t | t in sessions && t !in left :: sessions[t].id != sid
        decreases |left|
      {
        var t :| t in left;
        if sessions[t].id == sid {
          return Some(sessions[t]);
        }
        left := left - {t};
      }
      return None;
    }

    method GcLeases(now: Time) returns (removed: nat)
      requires Valid()
      modifies this`leases
      ensures Valid() && View() == VaultModel.GcLeases(old(View()), now)
      ensures removed == |old(leases)| - |leases|
    {
      leases, removed := RetainLeases(leases, now);
    }

    method StoreSecret(name: SecretName, plaintext: Bytes, kind: SecretKind, description: Option<string>,
                       sid: SecretId, nonce: Bytes, env: Env) returns (r: Result<StoredSecret>)
      requires Valid()
      modifies this, store
      ensures Valid()
      ensures (View(), r)
           == VaultModel.StoreSecret(cfg, old(View()), name, plaintext, kind, description, sid, nonce, env)
    {
      if dek.None? {
        return Err(KeySourceUnavailable);
      }
      var sealed := Encrypt(cfg.cipher, plaintext, dek.value, nonce);
      if sealed.Err? {
        return Err(sealed.error);
      }
      var stored := store.Put(name, sealed.value, kind, description, sid, env.now, env.storeOk);
      if stored.Err? {
        return Err(stored.error);
      }
      var logged := Record(AuditEntry("admin", SecretStored(name)), env.auditOk);
      return if logged.Ok? then Ok(stored.value) else Err(logged.error);
    }

    method DeleteSecret(name: SecretName, env: Env) returns (r: Result<()>)
      requires Valid()
      modifies this, store
      ensures Valid() && (View(), r) == VaultModel.DeleteSecret(old(View()), name, env)
    {
      var _ := RevokeMatching(BySecret(name), env.lost);
      var deleted := store.Delete(name, env.storeOk);
      if deleted.Err? {
        return Err(deleted.error);
      }
      r := Record(AuditEntry("admin", SecretDeleted(name)), env.auditOk);
    }

    method RotateDek(newKey: Key, nonces: SecretName -> Bytes, faults: RotateFaults, env: Env) returns (r: Result<()>)
      requires Valid()
      modifies this, store
      ensures Valid() && (View(), r.Ok?) == VaultModel.RotateDek(cfg, old(View()), newKey, nonces, faults, env)
      ensures r.Err? ==> RotateError(cfg, old(View()), newKey, nonces, faults, env, r.error)
    {
      hide CanReSealAll, ReSealAll, ApplyBatch, FetchesAll, RowError;
      if dek.None? {
        return Err(KeySourceUnavailable);
      }
      var names := ListNames(store, env.storeOk);
      if names.Err? {
        return Err(names.error);
      }
      var updates := ReSealEach(cfg.cipher, store.table, names.value, dek.value, newKey, nonces, faults, env.now);
      if updates.Err? {
        return Err(updates.error);
      }
      var applied := store.BatchUpdate(updates.value, env.now, faults.batchFailsAt);
      if applied.Err? {
        return Err(applied.error);
      }
      if !faults.keySourceOk {
        return Err(KeySourceUnavailable);
      }
      persisted := newKey;
      dek := Some(newKey);
      r := Record(AuditEntry("admin", DekRotated), env.auditOk);
    }

    /** Session ids are fresh. */
    method CreateSession(user: string, channel: string, policy: SessionPolicy, token: Token, sid: SessionId, env: Env)
      returns (r: Result<(Token, SessionId)>)
      requires Valid() && forall t | t in sessions :: sessions[t].id != sid
      modifies this
      ensures Valid()
      ensures (View(), r) == VaultModel.CreateSession(old(View()), user, channel, policy, token, sid, env)
    {
      var session := NewSession(sid, user, channel, policy, env.now);
      var duration := NumSeconds(session.expiresAt - env.now);
      sessions := sessions[token := session];
      var logged := Record(AuditEntry(user, SessionCreated(sid, user, channel, duration)), env.auditOk);
      return if logged.Ok? then Ok((token, sid)) else Err(logged.error);
    }

    method ValidateSession(token: Token, now: Time) returns (r: Result<Session>)
      ensures r.Ok? <==> token in sessions && Active(sessions[token], now)
      ensures r.Ok? ==> r.value == sessions[token]
      ensures r.Err? ==> (r.error == SessionNotFound <==> token !in sessions)
      ensures r.Err? && token in sessions ==>
        r.error == if sessions[token].revoked then SessionRevoked(sessions[token].id)
                   else SessionExpired(sessions[token].id)
    {
      if token !in sessions {
        return Err(SessionNotFound);
      }
      var session := sessions[token];
      if session.revoked {
        return Err(SessionRevoked(session.id));
      }
      if Expired(session, now) {
        return Err(SessionExpired(session.id));
      }
      return Ok(session);
    }

    method RevokeSession(token: Token, env: Env) returns (r: Result<()>)
      requires Valid()
      modifies this
      ensures Valid() && (View(), r) == VaultModel.RevokeSession(old(View()), token, env)
    {
      if token !in sessions {
        return Err(SessionNotFound);
      }
      var sid := sessions[token].id;
      sessions := sessions[token := RevokeSessionRecord(sessions[token])];
      var n := RevokeMatching(BySession(sid), env.lost);
      r := Record(AuditEntry("session", SessionRevocationDone(sid, n)), env.auditOk);
    }

    method RequestLeaseScoped(agent: AgentId, name: SecretName, domain: DomainScope, token: Token, tool: string,
                              id: LeaseId, env: Env) returns (r: Result<LeaseGrant>)
      requires Valid()
      modifies this
      ensures Valid()
      ensures (View(), r) == VaultModel.RequestLeaseScoped(cfg, old(View()), agent, name, domain, token, tool, id, env)
    {
      hide VaultModel.RequestLease, ToolAllowed;
      if token !in sessions {
        return Err(SessionNotFound);
      }
      var session := sessions[token];
      if session.revoked {
        return Err(SessionRevoked(session.id));
      }
      if Expired(session, env.now) {
        return Err(SessionExpired(session.id));
      }
      var bound := CheckToolBinding(session.policy, tool, name, domain);
      if bound.Err? {
        var _ := Record(AuditEntry(agent, ToolBindingDenied(session.id, tool, name)), env.auditOk);
        return Err(AccessDenied(tool, name, domain));
      }
      if session.activeLeaseCount >= session.policy.maxConcurrentLeases {
        return Err(SessionLeaseLimitReached(session.id, session.policy.maxConcurrentLeases));
      }
      r := RequestLease(agent, name, domain, id, env);
      if r.Err? {
        return;
      }
      if id in leases {
        leases := leases[id := leases[id].(sessionId := Some(session.id))];
      }
      if token in sessions {
        sessions := sessions[token := sessions[token].(activeLeaseCount := sessions[token].activeLeaseCount + 1)];
      }
    }

    method GcSessions(now: Time) returns (removed: nat)
      requires Valid()
      modifies this`sessions
      ensures Valid() && View() == VaultModel.GcSessions(old(View()), now)
      ensures removed == |old(sessions)| - |sessions|
    {
      sessions, removed := RetainSessions(sessions, now);
    }
  }
}
