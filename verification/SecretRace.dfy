/**
 * Which secret a lease reads when deleting and storing secrets interleave with requests and
 * accesses.
 *
 * The lock-scoped steps are run together with a store that says which secret, by its id, stands
 * under each name.  A deletion revokes the leases of a name in one scope and removes the row in a
 * later one.
 */
module SecretRace {
  import opened Types
  import opened Identity
  import opened Policy
  import opened Leases
  import opened VaultModel
  import opened Interleaving
  import opened Concurrency

  /** The secret that a request found, and when. */
  datatype Found = Found(secret: SecretId, at: nat)

  /** A deletion that has revoked the leases of its name and not yet removed the row. */
  datatype Due = Due(name: SecretName, at: nat)

  /** When the deletion of a secret revoked the leases of its name, and when it removed the row. */
  datatype Removal = Removal(revokedAt: nat, removedAt: nat)

  /** What an access read, when it had passed its check and when it read. */
  datatype Read = Read(lease: LeaseId, secret: SecretId, usedAt: nat, at: nat)

  datatype Race = Race(
    s: Sys,
    clock: nat,
    store: map<SecretName, SecretId>,
    known: set<SecretId>,                 // every secret id ever given out
    found: map<LeaseId, Found>,
    insertedAt: map<LeaseId, nat>,
    usedAt: map<nat, nat>,                // by process, for accesses in flight
    due: map<nat, Due>,                   // by process
    removed: map<SecretId, Removal>,
    seen: seq<Read>)

  const START: Race := Race(Empty, 0, map[], {}, map[], map[], map[], map[], map[], [])

  datatype Event = Base(a: Label) | Put(name: SecretName, secret: SecretId) | Remove(pid: nat, ok: bool)

  /** Lookups and fetches succeed on stored names only; a deletion removes its row before it logs. */
  predicate Able(r: Race, e: Event) {
    match e
    case Base(a) =>
      && Enabled(r.s, a)
      && (a.Go? ==>
            && a.pid !in r.due
            && (r.s.procs[a.pid].ReqLookup? && a.ch.ok ==> r.s.procs[a.pid].name in r.store)
            && (r.s.procs[a.pid].AccFetch? && a.ch.ok ==> r.s.procs[a.pid].name in r.store))
    case Put(name, secret) => name !in r.store && secret !in r.known
    case Remove(pid, _) => pid in r.due
  }

  function FoundAfter(r: Race, p: Proc, ch: Choice): map<LeaseId, Found> {
    if p.ReqLookup? && ch.ok && p.name in r.store then r.found[ch.newId := Found(r.store[p.name], r.clock)] else r.found
  }

  function UsedAfter(r: Race, pid: nat, p: Proc): map<nat, nat> {
    if p.AccUse? then r.usedAt[pid := r.clock] else r.usedAt
  }

  function ReadsAfter(r: Race, pid: nat, p: Proc, ch: Choice): seq<Read> {
    if p.AccFetch? && ch.ok && p.name in r.store && pid in r.usedAt
    then r.seen + [Read(p.id, r.store[p.name], r.usedAt[pid], r.clock)] else r.seen
  }

  function DueAfter(r: Race, pid: nat, p: Proc): map<nat, Due> {
    if p.BulkFlip? && p.sel.BySecret? then r.due[pid := Due(p.sel.name, r.clock)] else r.due
  }

  function InsertedAfter(r: Race, p: Proc): map<LeaseId, nat> {
    if p.ReqInsert? then r.insertedAt[p.lease.id := r.clock] else r.insertedAt
  }

  ghost function Moved(c: Config, r: Race, e: Event): Race
    requires Able(r, e)
  {
    match e
    case Base(Spawn(_, _)) => r.(s := Next(c, r.s, e.a), clock := r.clock + 1)
    case Base(Go(pid, ch)) =>
      var p := r.s.procs[pid];
      r.(s := Next(c, r.s, e.a), clock := r.clock + 1, found := FoundAfter(r, p, ch), insertedAt := InsertedAfter(r, p),
         usedAt := UsedAfter(r, pid, p), due := DueAfter(r, pid, p), seen := ReadsAfter(r, pid, p, ch))
    case Put(name, secret) =>
      r.(clock := r.clock + 1, store := r.store[name := secret], known := r.known + {secret})
    case Remove(pid, ok) =>
      var d := r.due[pid];
      var gone := r.(clock := r.clock + 1, due := r.due - {pid});
      if ok && d.name in r.store
      then gone.(store := r.store - {d.name}, removed := r.removed[r.store[d.name] := Removal(d.at, r.clock)])
      else gone
  }

  ghost predicate Runs(c: Config, r: Race, run: seq<Event>)
    decreases |run|, 0
  {
    run == [] || (Runs(c, r, run[..|run| - 1]) && Able(Reached(c, r, run[..|run| - 1]), run[|run| - 1]))
  }

  ghost function Reached(c: Config, r: Race, run: seq<Event>): Race
    requires Runs(c, r, run)
    decreases |run|, 1
  {
    if run == [] then r else Moved(c, Reached(c, r, run[..|run| - 1]), run[|run| - 1])
  }

  // ---- The invariant ----

  /** The secret the lease was granted on still stands under the name. */
  predicate Stands(r: Race, id: LeaseId, name: SecretName) {
    id in r.found && name in r.store && r.store[name] == r.found[id].secret
  }

  /** It was deleted, and its row went after the request had found it. */
  predicate Deleted(r: Race, id: LeaseId) {
    id in r.found && r.found[id].secret in r.removed && r.found[id].at < r.removed[r.found[id].secret].removedAt
  }

  /** The lease came in after the deletion had revoked the leases of the name. */
  predicate CameLate(r: Race, id: LeaseId) {
    Deleted(r, id) && id in r.insertedAt && r.removed[r.found[id].secret].revokedAt < r.insertedAt[id]
  }

  predicate LeaseFine(r: Race, id: LeaseId, l: Lease) {
    !l.revoked ==> Stands(r, id, l.secretName) || CameLate(r, id)
  }

  /** An access that passed its check: before the deletion revoked, or on a lease that came in late. */
  predicate AccessFine(r: Race, id: LeaseId, name: SecretName, usedAt: nat) {
    Stands(r, id, name) || CameLate(r, id)
    || (Deleted(r, id) && usedAt < r.removed[r.found[id].secret].revokedAt)
  }

  predicate ProcFine(r: Race, pid: nat, p: Proc) {
    match p
    case ReqAudit(l, _) => Stands(r, l.id, l.secretName) || Deleted(r, l.id)
    case ReqInsert(l, _) => Stands(r, l.id, l.secretName) || Deleted(r, l.id)
    case AccFetch(id, _, name, _) =>
      pid in r.usedAt && r.usedAt[pid] < r.clock && AccessFine(r, id, name, r.usedAt[pid])
    case _ => true
  }

  /** A pending deletion has no live lease of its name from before it, nor an access after it on one. */
  predicate DueFine(r: Race, d: Due) {
    && d.at < r.clock
    && (forall id | id in r.s.leases && !r.s.leases[id].revoked && r.s.leases[id].secretName == d.name ::
          id in r.insertedAt && d.at < r.insertedAt[id])
    && (forall k | k in r.s.procs && r.s.procs[k].AccFetch? && r.s.procs[k].name == d.name ::
          && k in r.usedAt
          && (r.usedAt[k] < d.at || (r.s.procs[k].id in r.insertedAt && d.at < r.insertedAt[r.s.procs[k].id])))
  }

  /** The secret the lease was granted on was removed before the read. */
  predicate GoneBefore(r: Race, x: Read) {
    && x.lease in r.found && r.found[x.lease].secret in r.removed
    && r.removed[r.found[x.lease].secret].removedAt < x.at
  }

  predicate ReadFine(r: Race, x: Read) {
    x.at < r.clock && ReadRight(r, x)
  }

  predicate ReadRight(r: Race, x: Read) {
    && x.lease in r.found
    && (x.secret != r.found[x.lease].secret <==> GoneBefore(r, x))
    && (GoneBefore(r, x) ==>
          CameLate(r, x.lease) || (Deleted(r, x.lease) && x.usedAt < r.removed[r.found[x.lease].secret].revokedAt))
  }

  ghost predicate StoreFine(r: Race) {
    && (forall n | n in r.store :: r.store[n] in r.known && r.store[n] !in r.removed)
    && (forall n, m | n in r.store && m in r.store && r.store[n] == r.store[m] :: n == m)
    && (forall x | x in r.removed :: x in r.known && r.removed[x].revokedAt < r.removed[x].removedAt < r.clock)
  }

  ghost predicate FoundFine(r: Race) {
    && (forall id | id in r.found :: id in r.s.issued && r.found[id].at < r.clock)
    && (forall id | id in r.insertedAt :: (id in r.s.leases || id in r.s.gone) && r.insertedAt[id] < r.clock)
    && (forall id | id in r.s.leases :: id in r.insertedAt)
  }

  ghost predicate LeasesFine(r: Race) {
    forall id | id in r.s.leases :: LeaseFine(r, id, r.s.leases[id])
  }

  ghost predicate ProcsFine(r: Race) {
    forall k | k in r.s.procs :: ProcFine(r, k, r.s.procs[k])
  }

  ghost predicate DuesFine(r: Race) {
    forall k | k in r.due :: DueFine(r, r.due[k])
  }

  ghost predicate ReadsFine(r: Race) {
    forall i | 0 <= i < |r.seen| :: ReadFine(r, r.seen[i])
  }

  ghost predicate Fine(r: Race) {
    StoreFine(r) && FoundFine(r) && LeasesFine(r) && ProcsFine(r) && DuesFine(r) && ReadsFine(r)
  }

  // ---- Every event keeps it ----

  /** Nothing on record is forgotten. */
  ghost predicate Extends(r: Race, r': Race) {
    && r.clock < r'.clock
    && (forall id | id in r.found :: id in r'.found && r'.found[id] == r.found[id])
    && (forall id | id in r.insertedAt :: id in r'.insertedAt && r'.insertedAt[id] == r.insertedAt[id])
    && (forall x | x in r.removed :: x in r'.removed && r'.removed[x] == r.removed[x])
    && (forall x | x in r'.removed && x !in r.removed :: r.clock <= r'.removed[x].removedAt)
  }

  lemma StillDeleted(r: Race, r': Race, id: LeaseId)
    requires Extends(r, r')
    ensures Deleted(r, id) ==> Deleted(r', id)
    ensures CameLate(r, id) ==> CameLate(r', id)
  {
  }

  lemma StillStands(r: Race, r': Race, id: LeaseId, name: SecretName)
    requires Extends(r, r') && (name in r.store ==> name in r'.store && r'.store[name] == r.store[name])
    ensures Stands(r, id, name) ==> Stands(r', id, name)
  {
  }

  /** Base invariants of the steps underneath. */
  ghost predicate Sound(s: Sys) {
    IssuedOk(s) && CarriedOk(s)
  }

  /** What a step of process `pid` makes of `r`. */
  ghost predicate Stepped(c: Config, r: Race, pid: nat, ch: Choice, r': Race) {
    && pid in r.s.procs && pid !in r.due
    && var p := r.s.procs[pid];
    && (p.ReqLookup? ==> ch.newId !in r.s.issued) && (p.ReqLookup? && ch.ok ==> p.name in r.store)
    && r'.s.leases == LeasesAfter(r.s, p, ch) && r'.s.procs == ProcsAfter(c, r.s, pid, ch)
    && r'.s.issued == IssuedAfter(r.s, p, ch) && r'.s.gone == GoneAfter(r.s, p, ch)
    && r'.clock == r.clock + 1 && r'.store == r.store && r'.removed == r.removed && r'.known == r.known
    && r'.found == FoundAfter(r, p, ch) && r'.insertedAt == InsertedAfter(r, p)
    && r'.usedAt == UsedAfter(r, pid, p) && r'.due == DueAfter(r, pid, p) && r'.seen == ReadsAfter(r, pid, p, ch)
  }

  lemma GoStepped(c: Config, r: Race, pid: nat, ch: Choice)
    requires Able(r, Base(Go(pid, ch)))
    ensures Stepped(c, r, pid, ch, Moved(c, r, Base(Go(pid, ch))))
  {
    hide LeasesAfter, ProcsAfter, SessionsAfter, IssuedAfter, GoneAfter, LogOf, GuardsOf, FoundAfter, InsertedAfter,
      UsedAfter, DueAfter, ReadsAfter;
  }

  lemma GoExtends(c: Config, r: Race, pid: nat, ch: Choice, r': Race)
    requires FoundFine(r) && CarriedOk(r.s) && Stepped(c, r, pid, ch, r')
    ensures Extends(r, r')
  {
    hide LeasesAfter, ProcsAfter, IssuedAfter, GoneAfter, UsedAfter, DueAfter, ReadsAfter;
    CarriedKinds(r.s.procs[pid]);
  }

  /** Where a moving request or access comes from. */
  lemma RaceFlow(c: Config, s: Sys, p: Proc, ch: Choice)
    ensures var q := ProcAfter(c, s, p, ch);
      q.Some? ==>
        && (q.value.ReqAudit? ==>
            p.ReqLookup? && ch.ok && q.value.lease.id == ch.newId && q.value.lease.secretName == p.name)
        && (q.value.ReqInsert? ==> p.ReqAudit? && p.lease == q.value.lease)
        && (q.value.AccFetch? ==>
              && p.AccUse? && q.value.id == p.id && p.id in s.leases && !s.leases[p.id].revoked
              && q.value.name == s.leases[p.id].secretName)
  {
    hide ActiveCount, FirstMatch, Renewable, SessionCheck, Flipped, AnyMatches;
  }

  lemma GoLease(c: Config, r: Race, pid: nat, ch: Choice, r': Race, id: LeaseId)
    requires StoreFine(r) && LeasesFine(r) && ProcsFine(r) && Stepped(c, r, pid, ch, r') && Extends(r, r')
    requires id in r'.s.leases
    ensures LeaseFine(r', id, r'.s.leases[id])
  {
    hide LeasesAfter, ProcsAfter, IssuedAfter, GoneAfter, FoundAfter, UsedAfter, DueAfter, ReadsAfter, Stands, Extends;
    var p := r.s.procs[pid];
    StillDeleted(r, r', id);
    if p.ReqInsert? && p.lease.id == id {
      assert ProcFine(r, pid, p);
      InsertedLease(r.s, p, ch);
      StillStands(r, r', id, p.lease.secretName);
    } else {
      LeaseFlow(r.s, p, ch, id);
      assert LeaseFine(r, id, r.s.leases[id]);
      StillStands(r, r', id, r.s.leases[id].secretName);
    }
  }

  lemma StillProcFine(r: Race, r': Race, k: nat, p: Proc)
    requires Extends(r, r') && r'.store == r.store && ProcFine(r, k, p)
    requires k in r.usedAt ==> k in r'.usedAt && r'.usedAt[k] == r.usedAt[k]
    ensures ProcFine(r', k, p)
  {
    match p
    case ReqAudit(l, _) =>
      StillDeleted(r, r', l.id);
      StillStands(r, r', l.id, l.secretName);
    case ReqInsert(l, _) =>
      StillDeleted(r, r', l.id);
      StillStands(r, r', l.id, l.secretName);
    case AccFetch(id, _, name, _) =>
      StillDeleted(r, r', id);
      StillStands(r, r', id, name);
    case _ =>
  }

  lemma GoProc(c: Config, r: Race, pid: nat, ch: Choice, r': Race, k: nat)
    requires LeasesFine(r) && ProcsFine(r) && Stepped(c, r, pid, ch, r') && Extends(r, r') && k in r'.s.procs
    ensures ProcFine(r', k, r'.s.procs[k])
  {
    var p := r.s.procs[pid];
    RaceFlow(c, r.s, p, ch);
    ProcFlow(c, r.s, pid, ch, k);
    hide ProcAfter, ProcsAfter, LeasesAfter, IssuedAfter, GoneAfter, ReadsAfter, InsertedAfter, DueAfter, Extends;
    if k != pid {
      StillProcFine(r, r', k, r.s.procs[k]);
    } else if r'.s.procs[k].ReqInsert? {
      assert ProcFine(r, pid, p);
      StillDeleted(r, r', p.lease.id);
      StillStands(r, r', p.lease.id, p.lease.secretName);
    } else if r'.s.procs[k].AccFetch? {
      assert LeaseFine(r, p.id, r.s.leases[p.id]);
      StillDeleted(r, r', p.id);
      StillStands(r, r', p.id, r'.s.procs[k].name);
    }
  }

  lemma GoDueNew(c: Config, r: Race, pid: nat, ch: Choice, r': Race)
    requires ProcsFine(r) && Stepped(c, r, pid, ch, r') && r.s.procs[pid].BulkFlip? && r.s.procs[pid].sel.BySecret?
    ensures DueFine(r', Due(r.s.procs[pid].sel.name, r.clock))
  {
    var p := r.s.procs[pid];
    RaceFlow(c, r.s, p, ch);
    FlipsAll(r.s, p, ch);
    hide ProcAfter, ProcsAfter, LeasesAfter, IssuedAfter, GoneAfter, FoundAfter, InsertedAfter, ReadsAfter, DueAfter,
      AccessFine;
    forall k | k in r'.s.procs && r'.s.procs[k].AccFetch? ensures k in r'.usedAt && r'.usedAt[k] < r.clock {
      ProcFlow(c, r.s, pid, ch, k);
      assert ProcFine(r, k, r.s.procs[k]);
    }
  }

  lemma FlipsAll(s: Sys, p: Proc, ch: Choice)
    requires p.BulkFlip? && p.sel.BySecret?
    ensures forall id | id in LeasesAfter(s, p, ch) && LeasesAfter(s, p, ch)[id].secretName == p.sel.name ::
      LeasesAfter(s, p, ch)[id].revoked
  {
  }

  lemma GoDueLease(c: Config, r: Race, pid: nat, ch: Choice, r': Race, d: Due, id: LeaseId)
    requires Stepped(c, r, pid, ch, r') && Extends(r, r') && DueFine(r, d)
    requires id in r'.s.leases && !r'.s.leases[id].revoked && r'.s.leases[id].secretName == d.name
    ensures id in r'.insertedAt && d.at < r'.insertedAt[id]
  {
    hide ProcsAfter, LeasesAfter, IssuedAfter, GoneAfter, ReadsAfter, FoundAfter, UsedAfter, DueAfter;
    var p := r.s.procs[pid];
    if !(p.ReqInsert? && p.lease.id == id) {
      LeaseFlow(r.s, p, ch, id);
    }
  }

  lemma GoDueAccess(c: Config, r: Race, pid: nat, ch: Choice, r': Race, d: Due, k: nat)
    requires Stepped(c, r, pid, ch, r') && Extends(r, r') && DueFine(r, d)
    requires k in r'.s.procs && r'.s.procs[k].AccFetch? && r'.s.procs[k].name == d.name
    ensures var id := r'.s.procs[k].id;
      k in r'.usedAt && (r'.usedAt[k] < d.at || (id in r'.insertedAt && d.at < r'.insertedAt[id]))
  {
    RaceFlow(c, r.s, r.s.procs[pid], ch);
    ProcFlow(c, r.s, pid, ch, k);
    hide ProcAfter, ProcsAfter, LeasesAfter, IssuedAfter, GoneAfter, ReadsAfter, FoundAfter, InsertedAfter, DueAfter;
  }

  lemma GoDueOld(c: Config, r: Race, pid: nat, ch: Choice, r': Race, d: Due)
    requires Stepped(c, r, pid, ch, r') && Extends(r, r') && DueFine(r, d)
    ensures DueFine(r', d)
  {
    forall id | id in r'.s.leases && !r'.s.leases[id].revoked && r'.s.leases[id].secretName == d.name
      ensures id in r'.insertedAt && d.at < r'.insertedAt[id]
    {
      GoDueLease(c, r, pid, ch, r', d, id);
    }
    forall j | j in r'.s.procs && r'.s.procs[j].AccFetch? && r'.s.procs[j].name == d.name
      ensures j in r'.usedAt
      ensures r'.usedAt[j] < d.at || (r'.s.procs[j].id in r'.insertedAt && d.at < r'.insertedAt[r'.s.procs[j].id])
    {
      GoDueAccess(c, r, pid, ch, r', d, j);
    }
    hide ProcsAfter, LeasesAfter, IssuedAfter, GoneAfter, ReadsAfter, FoundAfter, InsertedAfter, DueAfter, UsedAfter,
      Extends;
  }

  lemma GoDue(c: Config, r: Race, pid: nat, ch: Choice, r': Race, k: nat)
    requires ProcsFine(r) && DuesFine(r) && Stepped(c, r, pid, ch, r') && Extends(r, r') && k in r'.due
    ensures DueFine(r', r'.due[k])
  {
    var p := r.s.procs[pid];
    if k == pid && p.BulkFlip? && p.sel.BySecret? {
      hide DueFine, ProcsFine, Extends;
      GoDueNew(c, r, pid, ch, r');
    } else {
      assert k in r.due && r'.due[k] == r.due[k];
      assert DueFine(r, r.due[k]);
      hide DueFine, ProcsFine, Extends, Stepped;
      GoDueOld(c, r, pid, ch, r', r.due[k]);
    }
  }

  lemma StillReadFine(r: Race, r': Race, x: Read)
    requires Extends(r, r') && ReadFine(r, x)
    ensures ReadFine(r', x)
  {
    StillDeleted(r, r', x.lease);
  }

  lemma GoReads(c: Config, r: Race, pid: nat, ch: Choice, r': Race, i: nat)
    requires StoreFine(r) && ProcsFine(r) && ReadsFine(r) && Stepped(c, r, pid, ch, r') && Extends(r, r')
    requires i < |r'.seen|
    ensures ReadFine(r', r'.seen[i])
  {
    hide ProcsAfter, LeasesAfter, IssuedAfter, GoneAfter, Extends, InsertedAfter, UsedAfter, FoundAfter, DueAfter;
    if i < |r.seen| {
      assert ReadFine(r, r.seen[i]);
      hide ReadFine, ProcFine;
      StillReadFine(r, r', r'.seen[i]);
    } else {
      assert ProcFine(r, pid, r.s.procs[pid]);
      NewRead(r, pid, r'.seen[i]);
      assert r'.removed == r.removed && r'.clock == r.clock + 1;
      StillNewRead(r, r', r'.seen[i]);
    }
  }

  lemma NewRead(r: Race, pid: nat, x: Read)
    requires StoreFine(r) && pid in r.s.procs && r.s.procs[pid].AccFetch? && ProcFine(r, pid, r.s.procs[pid])
    requires var p := r.s.procs[pid]; p.name in r.store && x == Read(p.id, r.store[p.name], r.usedAt[pid], r.clock)
    ensures ReadRight(r, x)
  {
  }

  lemma StillNewRead(r: Race, r': Race, x: Read)
    requires Extends(r, r') && ReadRight(r, x) && x.at == r.clock && r'.removed == r.removed
    ensures ReadFine(r', x)
  {
    StillDeleted(r, r', x.lease);
  }

  lemma IssuedGrows(s: Sys, p: Proc, ch: Choice)
    ensures p.ReqLookup? && ch.ok ==> ch.newId in IssuedAfter(s, p, ch)
    ensures forall id | id in s.issued :: id in IssuedAfter(s, p, ch)
    ensures forall id | id in s.gone :: id in GoneAfter(s, p, ch)
  {
  }

  /** A lease that leaves the map was collected. */
  lemma LeasesStay(s: Sys, p: Proc, ch: Choice, id: LeaseId)
    requires id in s.leases
    ensures id in LeasesAfter(s, p, ch) || id in GoneAfter(s, p, ch)
  {
    if id !in LeasesAfter(s, p, ch) {
      LeaseLoss(s, p, ch, id);
    }
    hide LeasesAfter, Kept;
  }

  lemma GoFound(c: Config, r: Race, pid: nat, ch: Choice, r': Race)
    requires FoundFine(r) && Stepped(c, r, pid, ch, r')
    ensures FoundFine(r')
  {
    var p := r.s.procs[pid];
    IssuedGrows(r.s, p, ch);
    hide ProcsAfter, LeasesAfter, IssuedAfter, GoneAfter, ReadsAfter, UsedAfter, DueAfter;
    forall id | id in r'.s.leases ensures id in r'.insertedAt {
      if id !in r.s.leases {
        InsertedOnly(r.s, p, ch, id);
      }
    }
    forall id | id in r'.insertedAt ensures (id in r'.s.leases || id in r'.s.gone) && r'.insertedAt[id] < r'.clock {
      if p.ReqInsert? && id == p.lease.id {
        InsertedLease(r.s, p, ch);
      } else if id in r.s.leases {
        LeasesStay(r.s, p, ch, id);
      }
    }
  }

  lemma GoStore(c: Config, r: Race, pid: nat, ch: Choice, r': Race)
    requires StoreFine(r) && Stepped(c, r, pid, ch, r')
    ensures StoreFine(r')
  {
    hide ProcsAfter, LeasesAfter, IssuedAfter, GoneAfter, ReadsAfter, UsedAfter, DueAfter, FoundAfter, InsertedAfter;
  }

  lemma GoFine(c: Config, r: Race, pid: nat, ch: Choice)
    requires Fine(r) && Sound(r.s) && Able(r, Base(Go(pid, ch)))
    ensures Fine(Moved(c, r, Base(Go(pid, ch))))
  {
    hide Moved, Stepped, LeaseFine, ProcFine, StoreFine, FoundFine, ReadFine, DueFine, Able, Extends, IssuedOk,
      CarriedOk;
    var r' := Moved(c, r, Base(Go(pid, ch)));
    GoStepped(c, r, pid, ch);
    GoExtends(c, r, pid, ch, r');
    GoFound(c, r, pid, ch, r');
    GoStore(c, r, pid, ch, r');
    forall id | id in r'.s.leases ensures LeaseFine(r', id, r'.s.leases[id]) {
      GoLease(c, r, pid, ch, r', id);
    }
    forall k | k in r'.s.procs ensures ProcFine(r', k, r'.s.procs[k]) {
      GoProc(c, r, pid, ch, r', k);
    }
    forall k | k in r'.due ensures DueFine(r', r'.due[k]) {
      GoDue(c, r, pid, ch, r', k);
    }
    forall i | 0 <= i < |r'.seen| ensures ReadFine(r', r'.seen[i]) {
      GoReads(c, r, pid, ch, r', i);
    }
  }

  ghost predicate Spawned(r: Race, pid: nat, p: Proc, r': Race) {
    && pid !in r.s.procs && Initial(p)
    && r'.s.leases == r.s.leases && r'.s.issued == r.s.issued && r'.s.gone == r.s.gone
    && r'.s.procs == r.s.procs[pid := p]
    && r' == r.(s := r'.s, clock := r.clock + 1)
  }

  lemma SpawnDue(r: Race, pid: nat, p: Proc, r': Race, d: Due)
    requires Spawned(r, pid, p, r') && DueFine(r, d)
    ensures DueFine(r', d)
  {
  }

  lemma SpawnLease(r: Race, pid: nat, p: Proc, r': Race, id: LeaseId)
    requires Spawned(r, pid, p, r') && id in r.s.leases && LeaseFine(r, id, r.s.leases[id])
    ensures LeaseFine(r', id, r'.s.leases[id])
  {
  }

  lemma SpawnProc(r: Race, pid: nat, p: Proc, r': Race, k: nat)
    requires Spawned(r, pid, p, r') && ProcsFine(r) && k in r'.s.procs
    ensures ProcFine(r', k, r'.s.procs[k])
  {
    if k != pid {
      assert ProcFine(r, k, r.s.procs[k]);
      assert Extends(r, r');
      hide ProcsFine, ProcFine, Extends;
      StillProcFine(r, r', k, r.s.procs[k]);
    }
  }

  lemma SpawnRest(r: Race, pid: nat, p: Proc, r': Race)
    requires Spawned(r, pid, p, r') && StoreFine(r) && FoundFine(r)
    ensures StoreFine(r') && FoundFine(r') && Extends(r, r')
  {
  }

  lemma SpawnFine(c: Config, r: Race, pid: nat, p: Proc)
    requires Fine(r) && Able(r, Base(Spawn(pid, p)))
    ensures Fine(Moved(c, r, Base(Spawn(pid, p))))
  {
    var r' := Moved(c, r, Base(Spawn(pid, p)));
    assert Spawned(r, pid, p, r') by { hide Fine; }
    assert r'.s.leases == r.s.leases && r'.due == r.due && r'.seen == r.seen by { hide Fine; }
    hide Moved, Able, Spawned, StoreFine, FoundFine, LeaseFine, ProcFine, DueFine, ReadFine, Extends;
    SpawnRest(r, pid, p, r');
    forall id | id in r'.s.leases ensures LeaseFine(r', id, r'.s.leases[id]) {
      SpawnLease(r, pid, p, r', id);
    }
    forall k | k in r'.s.procs ensures ProcFine(r', k, r'.s.procs[k]) {
      SpawnProc(r, pid, p, r', k);
    }
    forall k | k in r'.due ensures DueFine(r', r'.due[k]) {
      SpawnDue(r, pid, p, r', r.due[k]);
    }
    forall i | 0 <= i < |r'.seen| ensures ReadFine(r', r'.seen[i]) {
      StillReadFine(r, r', r.seen[i]);
    }
  }

  /** An event outside the steps, which leaves what stood standing except under one name. */
  ghost predicate Outside(r: Race, r': Race, name: Option<SecretName>) {
    && Extends(r, r') && r'.s == r.s && r'.usedAt == r.usedAt && r'.seen == r.seen
    && r'.found == r.found && r'.insertedAt == r.insertedAt
    && (forall k | k in r'.due :: k in r.due && r'.due[k] == r.due[k])
    && (forall n | n in r.store && Some(n) != name :: n in r'.store && r'.store[n] == r.store[n])
  }

  lemma OutsideLease(r: Race, r': Race, name: Option<SecretName>, id: LeaseId)
    requires Outside(r, r', name) && id in r.s.leases && LeaseFine(r, id, r.s.leases[id])
    requires Some(r.s.leases[id].secretName) != name
    ensures LeaseFine(r', id, r.s.leases[id])
  {
    StillDeleted(r, r', id);
    StillStands(r, r', id, r.s.leases[id].secretName);
  }

  lemma OutsideDue(r: Race, r': Race, name: Option<SecretName>, d: Due)
    requires Outside(r, r', name) && DueFine(r, d)
    ensures DueFine(r', d)
  {
  }

  lemma OutsideFound(r: Race, r': Race, name: Option<SecretName>)
    requires Outside(r, r', name) && FoundFine(r)
    ensures FoundFine(r')
  {
  }

  lemma OutsideFine(r: Race, r': Race, name: Option<SecretName>)
    requires Fine(r) && Outside(r, r', name) && StoreFine(r')
    requires forall id | id in r.s.leases && Some(r.s.leases[id].secretName) == name ::
        LeaseFine(r', id, r.s.leases[id])
    requires forall k | k in r.s.procs && OfName(r.s.procs[k], name) :: ProcFine(r', k, r.s.procs[k])
    ensures Fine(r')
  {
    hide StoreFine, FoundFine, LeaseFine, ProcFine, DueFine, ReadFine, Extends, OfName;
    OutsideFound(r, r', name);
    forall id | id in r'.s.leases ensures LeaseFine(r', id, r'.s.leases[id]) {
      if Some(r.s.leases[id].secretName) != name {
        OutsideLease(r, r', name, id);
      }
    }
    forall k | k in r'.s.procs ensures ProcFine(r', k, r'.s.procs[k]) {
      if !OfName(r.s.procs[k], name) {
        OtherProc(r, r', k, r.s.procs[k], name);
      }
    }
    forall k | k in r'.due ensures DueFine(r', r'.due[k]) {
      OutsideDue(r, r', name, r.due[k]);
    }
    forall i | 0 <= i < |r'.seen| ensures ReadFine(r', r'.seen[i]) {
      StillReadFine(r, r', r.seen[i]);
    }
  }

  /** The process depends on the secret under that name. */
  predicate OfName(p: Proc, name: Option<SecretName>) {
    match p
    case ReqAudit(l, _) => name == Some(l.secretName)
    case ReqInsert(l, _) => name == Some(l.secretName)
    case AccFetch(_, _, n, _) => name == Some(n)
    case _ => false
  }

  lemma OtherProc(r: Race, r': Race, k: nat, p: Proc, name: Option<SecretName>)
    requires Extends(r, r') && ProcFine(r, k, p) && !OfName(p, name) && r'.usedAt == r.usedAt
    requires forall n | n in r.store && Some(n) != name :: n in r'.store && r'.store[n] == r.store[n]
    ensures ProcFine(r', k, p)
  {
    match p
    case ReqAudit(l, _) =>
      StillDeleted(r, r', l.id);
      StillStands(r, r', l.id, l.secretName);
    case ReqInsert(l, _) =>
      StillDeleted(r, r', l.id);
      StillStands(r, r', l.id, l.secretName);
    case AccFetch(id, _, n, _) =>
      StillDeleted(r, r', id);
      StillStands(r, r', id, n);
    case _ =>
  }

  lemma PutOutside(c: Config, r: Race, name: SecretName, secret: SecretId)
    requires StoreFine(r) && Able(r, Put(name, secret))
    ensures var r' := Moved(c, r, Put(name, secret)); StoreFine(r') && Outside(r, r', None)
  {
  }

  lemma PutFine(c: Config, r: Race, name: SecretName, secret: SecretId)
    requires Fine(r) && Able(r, Put(name, secret))
    ensures Fine(Moved(c, r, Put(name, secret)))
  {
    PutOutside(c, r, name, secret);
    NoName(r, Moved(c, r, Put(name, secret)));
    hide Moved, Able, LeasesFine, ProcsFine, DuesFine, ReadsFine, StoreFine, FoundFine, Outside;
    OutsideFine(r, Moved(c, r, Put(name, secret)), None);
  }

  lemma NoName(r: Race, r': Race)
    ensures forall k | k in r.s.procs :: !OfName(r.s.procs[k], None)
  {
  }

  /** The row of a due deletion goes. */
  ghost predicate Removes(r: Race, pid: nat, r': Race) {
    && pid in r.due && r.due[pid].name in r.store
    && var d := r.due[pid];
    r' == r.(clock := r.clock + 1, due := r.due - {pid}, store := r.store - {d.name},
             removed := r.removed[r.store[d.name] := Removal(d.at, r.clock)])
  }

  lemma RemoveStore(r: Race, pid: nat, r': Race)
    requires StoreFine(r) && Removes(r, pid, r') && r.due[pid].at < r.clock
    ensures StoreFine(r')
  {
  }

  lemma RemoveKeeps(r: Race, pid: nat, r': Race)
    requires StoreFine(r) && Removes(r, pid, r')
    ensures Outside(r, r', Some(r.due[pid].name))
  {
    assert r.store[r.due[pid].name] !in r.removed;
    hide StoreFine;
  }

  lemma RemoveOutside(r: Race, pid: nat, r': Race)
    requires StoreFine(r) && Removes(r, pid, r') && DueFine(r, r.due[pid])
    ensures StoreFine(r') && Outside(r, r', Some(r.due[pid].name))
  {
    hide StoreFine, Outside;
    RemoveStore(r, pid, r');
    RemoveKeeps(r, pid, r');
  }

  /** What stood under the name is deleted now, as far as anything that had found it is concerned. */
  lemma NowDeleted(r: Race, pid: nat, r': Race, id: LeaseId)
    requires FoundFine(r) && Removes(r, pid, r') && Stands(r, id, r.due[pid].name)
    ensures Deleted(r', id)
    ensures id in r.insertedAt && r.due[pid].at < r.insertedAt[id] ==> CameLate(r', id)
    ensures r'.removed[r'.found[id].secret].revokedAt == r.due[pid].at
  {
  }

  lemma RemovedLease(r: Race, pid: nat, r': Race, id: LeaseId)
    requires FoundFine(r) && Removes(r, pid, r') && Extends(r, r') && DueFine(r, r.due[pid])
    requires id in r.s.leases && r.s.leases[id].secretName == r.due[pid].name && LeaseFine(r, id, r.s.leases[id])
    ensures LeaseFine(r', id, r.s.leases[id])
  {
    hide Extends, FoundFine, CameLate, Stands;
    StillDeleted(r, r', id);
    if Stands(r, id, r.due[pid].name) {
      NowDeleted(r, pid, r', id);
    }
  }

  lemma RemovedProc(r: Race, pid: nat, r': Race, k: nat)
    requires FoundFine(r) && Removes(r, pid, r') && Extends(r, r') && DueFine(r, r.due[pid])
    requires k in r.s.procs && OfName(r.s.procs[k], Some(r.due[pid].name)) && ProcFine(r, k, r.s.procs[k])
    ensures ProcFine(r', k, r.s.procs[k])
  {
    hide Extends, FoundFine, CameLate, Stands;
    var p := r.s.procs[k];
    var id := if p.AccFetch? then p.id else p.lease.id;
    StillDeleted(r, r', id);
    if Stands(r, id, r.due[pid].name) {
      NowDeleted(r, pid, r', id);
    } else {
      StillRevoked(r, r', id);
    }
  }

  lemma StillRevoked(r: Race, r': Race, id: LeaseId)
    requires Extends(r, r')
    ensures Deleted(r, id) ==> Deleted(r', id) && r'.removed[r'.found[id].secret] == r.removed[r.found[id].secret]
  {
  }

  lemma RemoveFine(c: Config, r: Race, pid: nat, ok: bool)
    requires Fine(r) && Able(r, Remove(pid, ok))
    ensures Fine(Moved(c, r, Remove(pid, ok)))
  {
    hide LeaseFine, ProcFine, DueFine, ReadFine, FoundFine;
    var r', d := Moved(c, r, Remove(pid, ok)), r.due[pid];
    if ok && d.name in r.store {
      assert Removes(r, pid, r');
      hide Moved, Able, OfName, StoreFine;
      RemoveOutside(r, pid, r');
      hide Removes;
      forall id | id in r.s.leases && Some(r.s.leases[id].secretName) == Some(d.name)
        ensures LeaseFine(r', id, r.s.leases[id])
      {
        RemovedLease(r, pid, r', id);
      }
      forall k | k in r.s.procs && OfName(r.s.procs[k], Some(d.name)) ensures ProcFine(r', k, r.s.procs[k]) {
        RemovedProc(r, pid, r', k);
      }
      hide LeasesFine, ProcsFine, DuesFine, ReadsFine, Outside;
      OutsideFine(r, r', Some(d.name));
    } else {
      NoRow(r, pid, r');
      NoName(r, r');
      hide Moved, Able, StoreFine, LeasesFine, ProcsFine, DuesFine, ReadsFine, Outside;
      OutsideFine(r, r', None);
    }
  }

  lemma NoRow(r: Race, pid: nat, r': Race)
    requires StoreFine(r) && r' == r.(clock := r.clock + 1, due := r.due - {pid})
    ensures StoreFine(r') && Outside(r, r', None)
  {
  }

  lemma EventFine(c: Config, r: Race, e: Event)
    requires Fine(r) && Sound(r.s) && Able(r, e)
    ensures Fine(Moved(c, r, e)) && Sound(Moved(c, r, e).s)
  {
    BaseSound(c, r, e);
    hide Fine, Sound, Moved, Able;
    match e
    case Base(Spawn(pid, p)) => SpawnFine(c, r, pid, p);
    case Base(Go(pid, ch)) => GoFine(c, r, pid, ch);
    case Put(name, secret) => PutFine(c, r, name, secret);
    case Remove(pid, ok) => RemoveFine(c, r, pid, ok);
  }

  lemma BaseSound(c: Config, r: Race, e: Event)
    requires Sound(r.s) && Able(r, e)
    ensures Sound(Moved(c, r, e).s)
  {
    hide IssuedOk, CarriedOk, Next, Enabled;
    if e.Base? {
      IssuedStep(c, r.s, e.a);
      CarriedStep(c, r.s, e.a);
    }
  }

  lemma {:induction false} FineRun(c: Config, run: seq<Event>)
    requires Runs(c, START, run)
    ensures Fine(Reached(c, START, run)) && Sound(Reached(c, START, run).s)
    decreases |run|
  {
    hide Able, Moved;
    if run != [] {
      hide Fine, Sound;
      FineRun(c, run[..|run| - 1]);
      EventFine(c, Reached(c, START, run[..|run| - 1]), run[|run| - 1]);
    }
  }

  /**
   * What an access reads under every interleaving: another secret than the one its lease was
   * granted on exactly if that one was removed before the read.  Then either the lease came in
   * after the deletion had revoked the leases of the name, or the access had passed its check
   * before.
   */
  lemma OnlyRacingReads(c: Config, run: seq<Event>, i: nat)
    requires Runs(c, START, run) && i < |Reached(c, START, run).seen|
    ensures var r := Reached(c, START, run); var x := r.seen[i];
      && x.lease in r.found
      && (x.secret != r.found[x.lease].secret <==>
            r.found[x.lease].secret in r.removed && r.removed[r.found[x.lease].secret].removedAt < x.at)
      && (x.secret != r.found[x.lease].secret ==>
            && var gone := r.removed[r.found[x.lease].secret];
            && r.found[x.lease].at < gone.removedAt
            && (x.usedAt < gone.revokedAt || (x.lease in r.insertedAt && gone.revokedAt < r.insertedAt[x.lease])))
  {
    hide Able, Moved;
    FineRun(c, run);
    assert ReadFine(Reached(c, START, run), Reached(c, START, run).seen[i]);
  }
}
