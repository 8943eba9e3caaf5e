/** Runs in which a lease reads a secret stored after the one it was granted on was deleted. */
module SecretRaceRun {
  import opened Types
  import opened Identity
  import opened Policy
  import opened Leases
  import opened VaultModel
  import opened Interleaving
  import opened SecretRace
  import T = Tightness

  lemma Add(c: Config, run: seq<Event>, e: Event) returns (longer: seq<Event>)
    requires Runs(c, START, run) && Able(Reached(c, START, run), e)
    ensures Runs(c, START, longer) && Reached(c, START, longer) == SecretRace.Moved(c, Reached(c, START, run), e)
  {
    hide SecretRace.Moved, Able;
    longer := run + [e];
    assert longer[..|longer| - 1] == run;
  }

  /** The parts of a state that the run is about. */
  ghost predicate Looks(r: Race, procs: map<nat, Proc>, leases: LeaseMap, store: map<SecretName, SecretId>) {
    r.s.procs == procs && r.s.leases == leases && r.store == store && r.due == map[]
  }

  /** A step that changes nothing of the steps' state but the process, or removes it. */
  lemma Quiet(c: Config, r: Race, pid: nat, ch: Choice, procs: map<nat, Proc>, leases: LeaseMap)
    requires Able(r, Base(Go(pid, ch))) && !r.s.procs[pid].BulkFlip? && !r.s.procs[pid].ReqLookup?
    requires Next(c, r.s, Go(pid, ch)).procs == procs && Next(c, r.s, Go(pid, ch)).leases == leases
    requires r.due == map[] && Next(c, r.s, Go(pid, ch)).issued == r.s.issued
    ensures var r' := SecretRace.Moved(c, r, Base(Go(pid, ch)));
      && Looks(r', procs, leases, r.store) && r'.found == r.found && r'.known == r.known && r'.removed == r.removed
      && r'.s.issued == r.s.issued
  {
    hide Next, ReadsAfter, InsertedAfter;
  }

  lemma SpawnLooks(c: Config, r: Race, pid: nat, p: Proc)
    requires Able(r, Base(Spawn(pid, p)))
    ensures var r' := SecretRace.Moved(c, r, Base(Spawn(pid, p)));
      && r'.s.procs == r.s.procs[pid := p] && r'.s.leases == r.s.leases && r'.s.issued == r.s.issued
      && r' == r.(s := r'.s, clock := r.clock + 1)
  {
  }

  /** The secret is stored as number 0, and a request finds it. */
  lemma Finds(c: Config, a: T.Ask) returns (run: seq<Event>)
    requires T.Granted(c, a)
    ensures Runs(c, START, run)
    ensures var r := Reached(c, START, run);
      && Looks(r, map[0 := ReqAudit(T.Made(a, 0), None)], map[], map[a.name := 0])
      && 0 in r.found && r.found[0].secret == 0 && r.found[0].at + 1 == r.clock && r.known == {0} && r.removed == map[]
  {
    hide Evaluate, ActiveCount, T.Made, Next;
    run := [];
    assert Reached(c, START, run) == START;
    run := Add(c, run, Put(a.name, 0));
    var p := ReqPolicy(a.agent, a.name, a.domain, None);
    SpawnLooks(c, Reached(c, START, run), 0, p);
    run := Add(c, run, Base(Spawn(0, p)));
    var r := Reached(c, START, run);
    T.PolicyStep(c, r.s, 0, a, None, T.Pick(0));
    Quiet(c, r, 0, T.Pick(0), map[0 := ReqCap(a.agent, a.name, a.domain, None, a.terms)], map[]);
    run := Add(c, run, Base(Go(0, T.Pick(0))));
    run := PassesAndFinds(c, run, a);
  }

  lemma PassesAndFinds(c: Config, run: seq<Event>, a: T.Ask) returns (longer: seq<Event>)
    requires T.Granted(c, a) && Runs(c, START, run)
    requires var r := Reached(c, START, run);
      && Looks(r, map[0 := ReqCap(a.agent, a.name, a.domain, None, a.terms)], map[], map[a.name := 0])
      && r.s.issued == map[] && r.known == {0} && r.removed == map[]
    ensures Runs(c, START, longer)
    ensures var r := Reached(c, START, longer);
      && Looks(r, map[0 := ReqAudit(T.Made(a, 0), None)], map[], map[a.name := 0])
      && 0 in r.found && r.found[0].secret == 0 && r.found[0].at + 1 == r.clock && r.known == {0} && r.removed == map[]
  {
    hide Evaluate, ActiveCount, T.Made, Next;
    var r := Reached(c, START, run);
    T.NoneActive(r.s, a.agent);
    T.CapPassed(c, r.s, 0, a, None, T.Pick(0));
    Quiet(c, r, 0, T.Pick(0), map[0 := ReqLookup(a.agent, a.name, a.domain, None, a.terms)], map[]);
    longer := Add(c, run, Base(Go(0, T.Pick(0))));
    r := Reached(c, START, longer);
    T.LookupStep(c, r.s, 0, a, None, 0);
    longer := Add(c, longer, Base(Go(0, T.Pick(0))));
  }

  lemma FlipStep(c: Config, s: Sys, name: SecretName)
    requires 1 in s.procs && s.procs[1] == BulkFlip(BySecret(name))
    ensures var s' := Next(c, s, Go(1, T.Pick(0)));
      && s'.leases == RevokeWhere(s.leases, BySecret(name)) && s'.issued == s.issued
      && s'.procs == s.procs[1 := Logging(AuditEntry("admin", SecretDeleted(name)))]
  {
    hide RevokeWhere, Flipped;
  }

  /** The secret is deleted by process 1, whatever else is in flight. */
  lemma Deletes(c: Config, run: seq<Event>, name: SecretName) returns (longer: seq<Event>)
    requires Runs(c, START, run)
    requires var r := Reached(c, START, run); 1 !in r.s.procs && r.store == map[name := 0] && r.due == map[]
    ensures Runs(c, START, longer)
    ensures var r, r' := Reached(c, START, run), Reached(c, START, longer);
      && r'.s.procs == r.s.procs[1 := Logging(AuditEntry("admin", SecretDeleted(name)))]
      && (r.s.leases == map[] ==> r'.s.leases == map[]) && r'.store == map[] && r'.due == map[]
      && 0 in r'.removed && r.clock < r'.removed[0].revokedAt < r'.clock
      && r'.found == r.found && r'.known == r.known && r'.insertedAt == r.insertedAt && r'.usedAt == r.usedAt
      && r'.seen == r.seen
  {
    hide Next, Runs, Reached, SecretRace.Moved, Able;
    var p := BulkFlip(BySecret(name));
    var r := Reached(c, START, run);
    assert Able(r, Base(Spawn(1, p))) by { SpawnAble(r, 1, p); }
    SpawnLooks(c, r, 1, p);
    longer := Add(c, run, Base(Spawn(1, p)));
    r := Reached(c, START, longer);
    FlipMoves(c, r, name);
    longer := Add(c, longer, Base(Go(1, T.Pick(0))));
    r := Reached(c, START, longer);
    RemoveMoves(c, r, name);
    longer := Add(c, longer, Remove(1, true));
  }

  lemma SpawnAble(r: Race, pid: nat, p: Proc)
    requires pid !in r.s.procs && Initial(p)
    ensures Able(r, Base(Spawn(pid, p)))
  {
  }

  lemma FlipMoves(c: Config, r: Race, name: SecretName)
    requires 1 in r.s.procs && r.s.procs[1] == BulkFlip(BySecret(name)) && r.due == map[]
    ensures Able(r, Base(Go(1, T.Pick(0))))
    ensures var r' := SecretRace.Moved(c, r, Base(Go(1, T.Pick(0))));
      && r'.s.leases == RevokeWhere(r.s.leases, BySecret(name))
      && r'.s.procs == r.s.procs[1 := Logging(AuditEntry("admin", SecretDeleted(name)))]
      && r' == r.(s := r'.s, clock := r.clock + 1, due := map[1 := Due(name, r.clock)])
  {
    hide Next, RevokeWhere, Flipped;
    FlipStep(c, r.s, name);
  }

  lemma RemoveMoves(c: Config, r: Race, name: SecretName)
    requires 1 in r.due && r.due == map[1 := r.due[1]] && r.due[1].name == name && r.store == map[name := 0]
    ensures Able(r, Remove(1, true))
    ensures SecretRace.Moved(c, r, Remove(1, true))
         == r.(clock := r.clock + 1, due := map[], store := map[],
               removed := r.removed[0 := Removal(r.due[1].at, r.clock)])
  {
    assert r.due - {1} == map[] && r.store - {name} == map[];
  }

  /** The name is stored anew. */
  lemma StoresAnew(c: Config, run: seq<Event>, name: SecretName) returns (longer: seq<Event>)
    requires Runs(c, START, run)
    requires var r := Reached(c, START, run); r.store == map[] && 1 !in r.known
    ensures Runs(c, START, longer)
    ensures var r, r' := Reached(c, START, run), Reached(c, START, longer);
      r' == r.(clock := r.clock + 1, store := map[name := 1], known := r'.known)
  {
    longer := Add(c, run, Put(name, 1));
  }

  /** The request goes on and inserts its lease. */
  lemma Inserts(c: Config, run: seq<Event>, a: T.Ask) returns (longer: seq<Event>)
    requires Runs(c, START, run)
    requires var r := Reached(c, START, run);
      0 in r.s.procs && r.s.procs[0] == ReqAudit(T.Made(a, 0), None) && r.s.leases == map[] && r.due == map[]
    ensures Runs(c, START, longer)
    ensures var r, r' := Reached(c, START, run), Reached(c, START, longer);
      && r'.s.procs == r.s.procs - {0} && r'.s.leases == map[0 := T.Made(a, 0)]
      && r'.store == r.store && r'.due == map[] && r'.found == r.found && r'.known == r.known
      && r'.removed == r.removed && 0 in r'.insertedAt && r.clock < r'.insertedAt[0] < r'.clock
  {
    hide Next, T.Made;
    var l, r := T.Made(a, 0), Reached(c, START, run);
    T.AuditStep(c, r.s, 0, l, None);
    Quiet(c, r, 0, T.Pick(0), r.s.procs[0 := ReqInsert(l, None)], map[]);
    longer := Add(c, run, Base(Go(0, T.Pick(0))));
    r := Reached(c, START, longer);
    T.InsertStep(c, r.s, 0, l, None);
    Quiet(c, r, 0, T.Pick(0), r.s.procs - {0}, map[0 := l]);
    longer := Add(c, longer, Base(Go(0, T.Pick(0))));
  }

  lemma UseStep(c: Config, s: Sys, l: Lease, target: string)
    requires 2 in s.procs && s.procs[2] == AccUse(0, target) && s.leases == map[0 := l]
    requires Refusal(l, target, 0).None? && l.id == 0
    ensures var s' := Next(c, s, Go(2, T.Pick(0)));
      s'.procs == s.procs[2 := AccFetch(0, l.agent, l.secretName, target)] && s'.issued == s.issued
  {
    hide AnyMatches;
  }

  /** An access through the lease passes its check. */
  lemma Uses(c: Config, run: seq<Event>, l: Lease, target: string) returns (longer: seq<Event>)
    requires Runs(c, START, run) && Refusal(l, target, 0).None? && l.id == 0
    requires var r := Reached(c, START, run); 2 !in r.s.procs && r.s.leases == map[0 := l] && r.due == map[]
    ensures Runs(c, START, longer)
    ensures var r, r' := Reached(c, START, run), Reached(c, START, longer);
      && r'.s.procs == r.s.procs[2 := AccFetch(0, l.agent, l.secretName, target)]
      && r'.store == r.store && r'.due == map[] && r'.found == r.found && r'.known == r.known
      && r'.removed == r.removed && r'.insertedAt == r.insertedAt && r'.seen == r.seen
      && 2 in r'.usedAt && r'.usedAt[2] < r'.clock && r.clock < r'.clock
  {
    hide Next, Refusal;
    SpawnLooks(c, Reached(c, START, run), 2, AccUse(0, target));
    longer := Add(c, run, Base(Spawn(2, AccUse(0, target))));
    UseStep(c, Reached(c, START, longer).s, l, target);
    longer := Add(c, longer, Base(Go(2, T.Pick(0))));
  }

  /** It reads what is stored now. */
  lemma Fetches(c: Config, run: seq<Event>, agent: AgentId, name: SecretName, target: string)
    returns (longer: seq<Event>)
    requires Runs(c, START, run)
    requires var r := Reached(c, START, run);
      && 2 in r.s.procs && r.s.procs[2] == AccFetch(0, agent, name, target)
      && name in r.store && r.due == map[] && 2 in r.usedAt
    ensures Runs(c, START, longer)
    ensures var r, r' := Reached(c, START, run), Reached(c, START, longer);
      && r'.found == r.found && r'.removed == r.removed && r'.insertedAt == r.insertedAt
      && r'.seen == r.seen + [Read(0, r.store[name], r.usedAt[2], r.clock)]
  {
    hide Next;
    longer := Add(c, run, Base(Go(2, T.Pick(0))));
  }

  /** The last access of the run read another secret than the one its lease was granted on. */
  ghost predicate ReadsAnother(r: Race) {
    && |r.seen| > 0
    && var x := r.seen[|r.seen| - 1];
    x.lease in r.found && x.secret != r.found[x.lease].secret && r.found[x.lease].secret in r.removed
  }

  /**
   * The first way `OnlyRacingReads` allows: a request that found the secret before its deletion
   * inserts its lease after it, and the lease then reads the secret stored anew under the name.
   */
  lemma NewSecretRead(c: Config, a: T.Ask) returns (run: seq<Event>)
    requires T.Granted(c, a) && a.terms.ttl >= 0 && a.terms.maxUses != Some(0)
    ensures Runs(c, START, run)
    ensures var r := Reached(c, START, run);
      && ReadsAnother(r) && var x := r.seen[|r.seen| - 1];
      && x.lease in r.insertedAt && r.removed[r.found[x.lease].secret].revokedAt < r.insertedAt[x.lease]
  {
    Usable(a);
    hide T.Made, Evaluate, Refusal, Able, SecretRace.Moved, Runs, Reached;
    run := LateLease(c, a);
    run := StoresAnew(c, run, a.name);
    run := Uses(c, run, T.Made(a, 0), a.domain);
    run := Fetches(c, run, T.Made(a, 0).agent, a.name, a.domain);
  }

  lemma LateLease(c: Config, a: T.Ask) returns (run: seq<Event>)
    requires T.Granted(c, a)
    ensures Runs(c, START, run)
    ensures var r := Reached(c, START, run);
      && 2 !in r.s.procs && r.s.leases == map[0 := T.Made(a, 0)] && r.store == map[] && r.due == map[]
      && 0 in r.found && r.found[0].secret == 0 && r.known == {0}
      && 0 in r.removed && 0 in r.insertedAt && r.removed[0].revokedAt < r.insertedAt[0]
  {
    hide T.Made, Evaluate, Able, SecretRace.Moved, Runs, Reached;
    run := Finds(c, a);
    run := Deletes(c, run, a.name);
    run := Inserts(c, run, a);
  }

  /**
   * The second way: an access that passed its check before the deletion revoked its lease reads
   * after the name was stored anew.
   */
  lemma NewSecretReadInFlight(c: Config, a: T.Ask) returns (run: seq<Event>)
    requires T.Granted(c, a) && a.terms.ttl >= 0 && a.terms.maxUses != Some(0)
    ensures Runs(c, START, run)
    ensures var r := Reached(c, START, run);
      && ReadsAnother(r) && var x := r.seen[|r.seen| - 1];
      && x.lease in r.insertedAt && r.insertedAt[x.lease] < r.removed[r.found[x.lease].secret].revokedAt
      && x.usedAt < r.removed[r.found[x.lease].secret].revokedAt
  {
    Usable(a);
    hide T.Made, Evaluate, Refusal, Able, SecretRace.Moved, Runs, Reached;
    run := InFlight(c, a);
    run := Deletes(c, run, a.name);
    run := StoresAnew(c, run, a.name);
    run := Fetches(c, run, T.Made(a, 0).agent, a.name, a.domain);
  }

  lemma InFlight(c: Config, a: T.Ask) returns (run: seq<Event>)
    requires T.Granted(c, a) && a.terms.ttl >= 0 && a.terms.maxUses != Some(0)
    ensures Runs(c, START, run)
    ensures var r := Reached(c, START, run);
      && 1 !in r.s.procs && 2 in r.s.procs && r.s.procs[2] == AccFetch(0, T.Made(a, 0).agent, a.name, a.domain)
      && r.store == map[a.name := 0] && r.due == map[] && 0 in r.found && r.found[0].secret == 0 && r.known == {0}
      && 0 in r.insertedAt && r.insertedAt[0] < r.clock && 2 in r.usedAt && r.usedAt[2] < r.clock
  {
    Usable(a);
    hide T.Made, Evaluate, Refusal, Able, SecretRace.Moved, Runs, Reached;
    run := Finds(c, a);
    run := Inserts(c, run, a);
    run := Uses(c, run, T.Made(a, 0), a.domain);
  }

  lemma Usable(a: T.Ask)
    requires a.terms.ttl >= 0 && a.terms.maxUses != Some(0)
    ensures Refusal(T.Made(a, 0), a.domain, 0).None? && T.Made(a, 0).secretName == a.name && T.Made(a, 0).id == 0
  {
    assert Matches(T.Made(a, 0).allowedDomains[0], a.domain);
  }
}
