# Verified model of the zerolease vault

Zerolease is a credential vault: agents ask for short leases on secrets, present a lease to read
the secret for one target domain, and lose it on expiry, use, revocation, or when the session or
the secret behind it goes away. This project models the vault and the algorithms around it in
Dafny and proves what they promise over every input, every run and every interleaving.

The vault is modelled at two granularities.

* **Atomic methods.** `VaultModel.dfy` gives the effect of each operation as a function of the
  state, `Vault.dfy` is the object with its maps, key and store updated in place, and each of its
  methods is proved to do what the function says. `VaultMeaning.dfy` says what that is, field by
  field: exactly when an operation succeeds, which error comes first, and that nothing else changes.
  `VaultRuns.dfy` carries a history along a run and proves an invariant that every operation keeps;
  `VaultTheorems.dfy` and `Availability.dfy` read the theorems about whole runs off it, what an access
  never gives and what it always gives; `Gc.dfy` and `SessionGc.dfy` run a collecting and a
  non-collecting vault side by side. `GcRuns.dfy` and `Stranding.dfy` build the runs in which
  collecting shows and in which a rotation loses a secret.
* **Lock-scoped steps.** `Interleaving.dfy` makes every lock scope one step of a process, with any
  number of calls in flight. `Concurrency.dfy`, `SessionCascade.dfy`, `RenewalLimits.dfy` and
  `Delegation.dfy` prove what holds under every interleaving, `SecretRace.dfy` adds a store to see
  which secret an access reads, `Tightness.dfy` and `SecretRaceRun.dfy` build the runs that reach the
  bounds, and `Sequential.dfy` ties the two granularities together: a call whose scopes run without
  interference leaves what the atomic method leaves and answers what it answers. `Locks.dfy` models
  the locks themselves, with fair queues, and proves deadlock freedom and that every call finishes;
  `LockScopes.dfy` ties its lock scopes to the steps and proves that a step touches only what its
  scopes cover.

Around the vault: the domain patterns (`Identity.dfy`) and first-match policy (`Policy.dfy`), leases
and sessions (`Leases.dfy`, `Sessions.dfy`), sealed secrets and the transactional table
(`Crypto.dfy`, `Store.dfy`), the hash-chained audit table, what it hashes and how it is read back
(`AuditChain.dfy`, `AuditHash.dfy`, `AuditReadings.dfy`), the ClientHello parser and its grammar
(`Sni.dfy`, `SniGrammar.dfy`), wire frames (`Frames.dfy`), the shell-quoted environment file
(`EnvFile.dfy`) and the connection handler with its role checks (`Server.dfy`).

What comes from outside is an argument: the clock, fresh identifiers and nonces, whether the
database, the audit log, the key source and the socket answer, and the order in which the database
returns rows. The two ciphers and the hash are function values; a theorem that needs a law of theirs
(what is sealed opens again, no other key opens it, digests have 64 characters, no collision among
the texts actually hashed) states it as a hypothesis.

Where a promise does not hold of the code as it stands, the exact condition is proved, or for the
interleaved limits a bound, and an input or a run that fails or reaches the bound is given:

* the agent cap is exceeded by at most the number of concurrent requests minus one (`AgentCap`,
  `AgentCapReached`), and likewise the session limit (`SessionLimit`, `SessionLimitReached`);
* a lease outlives a session cascade only if its request had passed the session check before the
  revocation mark (`OnlyEarlierPassesSurvive`, `CascadeOutrun`), and its renewals are capped only
  from its link on (`RenewalsAfterLink`, `RenewalLimitPassed`);
* a lease reads another secret than the one it was granted on exactly if that one was removed before
  the read, which takes a deletion that overtook its request or its access (`OnlyRacingReads`,
  `NewSecretRead`, `NewSecretReadInFlight`);
* a lease serves its domain up to the time the policy gives it, unless revoked, used up, cut short by a
  renewal or collected in its last second (`ServesUntilExpiry`, `RenewalCutsShort`, `CollectedEarly`);
* a rotation leaves secrets unreadable exactly when the key source refuses the new key after the
  batch while something is stored (`RotationKeepsReadableIff`, `StrandedRotation`);
* collecting leases and sessions is invisible exactly under the conditions of `LeaseGcRefines` and
  `LeasesAlikeIff` (`CollectingMakesRoom`, `RevokingCollectedSession`,
  `RenewingAgainstCollectedSession`);
* the audit chain verifies in every reading exactly when the timestamps of appended rows strictly
  increase and no row from before the migration falls among them (`CompleteIff`, `TiedUnverified`),
  and a rewritten row goes unnoticed exactly when its hashed text is unchanged (`RewriteDetectedIff`,
  `ShiftUnnoticed`);
* the extension walk leaves the hello exactly on the records of `OutOfBoundsIff`, and never when the
  declared block fits (`OutOfBoundsExample`, `InBounds`);
* a value put between quotes unescaped reads back exactly when it has no quote in it (`RawReadsIff`,
  `RawQuoteLost`), and a file of variables exactly when their names are names to a shell (`FileReads`,
  `BadNameLost`).

## Model

| member | source | states |
|---|---|---|
| Identity.MatchesIff | crates/zerolease-types/src/identity.rs:148-166 | a scope matches the host it names, and a wildcard every host at least as long that ends in its dot and suffix, and nothing else |
| Identity.MatchesPartialOrder | crates/zerolease-types/src/identity.rs:148-166 | matching is reflexive, antisymmetric and transitive |
| Identity.AnyMatchesTransitive | src/policy/mod.rs:172 | a list of patterns that covers a domain covers every target inside it |
| Identity.WildcardMeaning | crates/zerolease-types/src/identity.rs:157-163 | a wildcard's suffix test holds exactly when the host puts labels in front of the suffix's labels |
| Policy.EvaluateLoop | src/policy/mod.rs:164-204 | the loop returns the terms of the first grant that covers the request, or a denial if none does |
| Policy.EvaluateMeaning | src/policy/mod.rs:57-205 | terms are granted exactly by the first grant whose patterns permit agent, secret and host, its own terms or else the default ones; otherwise the denial names all three |
| Policy.GrantedIff | src/policy/mod.rs:57-88 | the same with the patterns spelled out: any, the very name, or a prefix of it, and a scope around the host |
| Policy.PolicyMonotone | src/policy/mod.rs:164-204 | what the policy grants for a domain it grants for every target inside that domain |
| Leases.RenewWithinLifetime | src/vault.rs:365-389 | one renewal moves the expiry by at most a day past the previous bound |
| Sessions.CheckToolBinding | src/session.rs:85-107 | the search succeeds exactly when some binding allows tool, secret and domain, and names the tool when it fails |
| Sessions.ToolMeaning | src/session.rs:85-107 | a tool is allowed exactly if a binding of its name lists the secret and a scope around the host |
| Sessions.ToolMonotone | src/session.rs:85-107 | a tool allowed a domain is allowed every target inside it |
| Crypto.DecryptEncrypt | src/crypto.rs:47-69 | a sealed value opens to its plaintext under the sealing key, whatever the default algorithm is by then |
| Crypto.DecryptIff | src/crypto.rs:62-107 | a sealed value opens exactly if its nonce has the length of its algorithm and that algorithm opens it |
| Store.ApplyBatchEffect | crates/zerolease-store-rusqlite/src/store.rs:170-203 | a batch on distinct names rewrites exactly those rows, each once, and keeps the rest |
| Store.SecretStore.Put | crates/zerolease-store-rusqlite/src/store.rs:49-96 | inserts version 1 of a new name, refuses a taken name, otherwise changes nothing |
| Store.SecretStore.Get | crates/zerolease-store-rusqlite/src/store.rs:98-123 | the row of the name, or which error |
| Store.SecretStore.Delete | crates/zerolease-store-rusqlite/src/store.rs:205-223 | removes exactly the name, or says why not and changes nothing |
| Store.SecretStore.List | crates/zerolease-store-rusqlite/src/store.rs:225-250 | the metadata of every stored secret exactly once |
| Store.MetadataDescribes | crates/zerolease-types/src/store.rs:82-90 | metadata is the row without its ciphertext |
| Store.SecretStore.BatchUpdate | crates/zerolease-store-rusqlite/src/store.rs:170-203 | all updates or, failing at any statement or the commit, none |
| VaultObject.CountActive | src/vault.rs:153-163 | the filter-and-count loop yields the number of unrevoked leases of the agent |
| VaultObject.RevokeEach | src/vault.rs:276-306 | the bulk loop revokes exactly the selected leases, counts those it flipped and logs each unless the entry is lost |
| VaultObject.RetainLeases | src/vault.rs:522-531 | retaining keeps exactly the leases that are live with a second or more left |
| VaultObject.RetainSessions | src/vault.rs:736-745 | retaining keeps exactly the active sessions |
| VaultObject.ReSealEach | src/vault.rs:471-494 | the re-encryption loop succeeds exactly when every row is fetched, opens and seals again, and then its updates applied as a batch are the table under the new key; otherwise the error is that of a row that stops it |
| VaultObject.BatchIsReSealAll | src/vault.rs:471-498 | those updates applied as a batch are the whole table sealed again under the new key |
| VaultObject.Vault.RequestLease | src/vault.rs:124-200 | the method leaves the state and answer the specification gives, denials, cap, missing secret and failed audit included |
| VaultObject.Vault.AccessSecret | src/vault.rs:209-249 | likewise for an access: a use is counted before the secret is fetched, and stays counted if a later step fails |
| VaultObject.Vault.RevokeLease | src/vault.rs:252-272 | likewise for a single revocation |
| VaultObject.Vault.RevokeAllForAgent | src/vault.rs:276-306 | likewise for revoking all leases of an agent |
| VaultObject.Vault.RenewLease | src/vault.rs:355-405 | likewise for a renewal, with the error for each reason to refuse it |
| VaultObject.Vault.StoreSecret | src/vault.rs:312-344 | likewise for storing a secret |
| VaultObject.Vault.DeleteSecret | src/vault.rs:408-444 | likewise for deleting a secret: its leases are revoked even if the store then fails |
| VaultObject.Vault.RotateDek | src/vault.rs:455-518 | likewise for a key rotation, including every place it can stop and the error it then reports |
| VaultObject.Vault.GcLeases | src/vault.rs:522-531 | likewise for collecting leases, with the number removed |
| VaultObject.Vault.CreateSession | src/vault.rs:540-579 | likewise for creating a session |
| VaultObject.Vault.RevokeSession | src/vault.rs:597-649 | likewise for revoking a session and its leases |
| VaultObject.Vault.RequestLeaseScoped | src/vault.rs:656-732 | likewise for a scoped request: check, grant, link, count |
| VaultObject.Vault.GcSessions | src/vault.rs:736-745 | likewise for collecting sessions, with the number removed |
| VaultMeaning.RequestOutcome | src/vault.rs:124-200 | a lease is granted exactly if the first permitting grant exists, the agent has fewer unrevoked leases than the cap, the store has the secret and the log answers; the lease, the entry and the answer field by field, the error of the first failing condition, and nothing else changed |
| VaultMeaning.GrantDescribes | src/lease.rs:132-143 | a grant carries the lease's id, secret, domains, expiry and renewability, and the uses it has left |
| VaultMeaning.SessionRefuses | src/vault.rs:665-707 | which error a session gives that is missing, revoked, over, without a binding or at its limit, in that order, and that only the denial is logged |
| VaultMeaning.ScopedOutcome | src/vault.rs:656-732 | otherwise the request is the plain one, and a granted lease is linked and counted, with nothing else changed |
| VaultMeaning.AccessRefused | src/lease.rs:69-95 | an access through a lease that is missing, revoked, past its expiry, used up or for another domain changes nothing and gives the error of the first of these |
| VaultMeaning.AccessOutcome | src/vault.rs:209-249 | any other access counts its use, whatever comes after, and gives the bytes or the error of the first thing that fails |
| VaultMeaning.RenewOutcome | src/vault.rs:355-405 | a renewal takes effect exactly if the lease is held, in time, unrevoked and renewable, the extension at most a day and no session limit reached; the expiry is then the extension from now |
| VaultMeaning.RevokeOutcome | src/vault.rs:252-272 | exactly the one lease is revoked, and logged |
| VaultMeaning.RevokeAllOutcome | src/vault.rs:276-306 | exactly the unrevoked leases of the agent are revoked, counted and logged |
| VaultMeaning.DeleteOutcome | src/vault.rs:408-447 | exactly the unrevoked leases of the secret are revoked and logged, even if the deletion then fails; the row goes exactly if the store answers, and no other does |
| VaultMeaning.RevokeSessionOutcome | src/vault.rs:597-649 | exactly the unrevoked leases of the session are revoked and logged, and the entry counts them |
| VaultMeaning.StoreOutcome | src/vault.rs:312-344 | a secret is stored exactly if the vault is opened, it can be sealed and the name is free; the row field by field, which opens to what was given |
| VaultMeaning.RotationOutcome | src/vault.rs:455-518 | the batch goes through exactly if the key is loaded, every row is fetched, opens and is sealed again and no statement fails; the new key is in force exactly if also the key source takes it, and the call succeeds exactly if also the log answers |
| VaultMeaning.CreateOutcome | src/vault.rs:540-579 | the new session field by field, and nothing else changed |
| VaultMeaning.CollectOutcome | src/vault.rs:522-531 | exactly the leases revoked or with less than a second left go, and exactly the sessions revoked or over |
| VaultRuns.StepInv | src/vault.rs:124-745 | every admissible operation keeps the run invariant: readability, origins, caps, cascade, renewals |
| VaultRuns.ReSealAllEffect | src/vault.rs:471-504 | resealing keeps every plaintext, id, kind, description and creation time and raises each version by one |
| VaultTheorems.RunInv | src/vault.rs:124-745 | the invariant holds after every admissible run |
| VaultTheorems.LiveLeaseKeepsSecret | src/vault.rs:167-188 | in every run a live lease's secret is stored, is the one it was granted on, and opens to what was written |
| VaultTheorems.InitializedOpens | src/vault.rs:105-113 | opened at the end of any run, the vault opens every stored secret that is text to exactly what was written |
| VaultTheorems.GrantRecords | src/vault.rs:167-188 | a grant is recorded against the secret and plaintext in force when it was made |
| VaultTheorems.AccessReadsGrantedSecret | src/vault.rs:209-249 | whatever happens between grant and access, rotations included, a successful access yields exactly the bytes stored when the lease was granted |
| VaultTheorems.DeletedNeverRead | src/vault.rs:408-431 | after a secret is deleted, no lease granted before ever reads a secret again, also not one stored anew under the name |
| VaultTheorems.DelegationSound | src/vault.rs:209-222 | whenever an access is accepted for a target, a grant of the policy permits that agent, secret and target by its patterns, and for a session lease so does a binding of the tool |
| Availability.AccessSucceedsIff | src/vault.rs:209-249 | after every run an access succeeds exactly if the lease is held, unrevoked, in time, not used up and for the target, the vault is opened, store and log answer, and what was written is text; it hands out what was written |
| Availability.ServesUntilExpiry | src/lease.rs:45-95 | from its grant up to the time the policy gives it, a lease serves every target inside its domain, unless revoked, used up, renewed to another expiry or collected in its last second |
| Availability.RenewalCutsShort | src/lease.rs:108-119 | a run in which a renewal for a second ends a lease earlier |
| Availability.CollectedEarly | src/vault.rs:522-531 | a run in which a lease is collected before its expiry |
| VaultTheorems.LifetimeBounded | src/vault.rs:365-389 | every successful access comes by issue time plus the ttl the policy grants plus a day per renewal, and while the session is held renewals stay within its limit |
| VaultTheorems.RevocationIsFinal | src/lease.rs:70-124 | after a lease is revoked no access and no renewal of it ever succeeds |
| VaultTheorems.RevokersRevoke | src/vault.rs:252-306 | each of the four revoking operations revokes the leases it is about |
| VaultTheorems.RevokeAllIsExact | src/vault.rs:276-306 | the count returned is exactly the number of leases changed, none of the agent's is left live, no other lease changes |
| VaultTheorems.RevokedSessionHasNoLiveLease | src/vault.rs:597-627 | run atomically, no session ever revoked has a live lease, even after it was collected |
| VaultTheorems.CapsHold | src/vault.rs:153-188 | run atomically, the agent cap holds, and live leases of a session are at most its counter, which is at most its limit |
| VaultTheorems.RotationRefinesIdentity | src/vault.rs:455-518 | a successful rotation keeps every plaintext under the new key and raises versions by one; one that stops up to the batch, also at a row that does not open or seal again, changes nothing |
| VaultTheorems.RotationKeepsReadableIff | src/vault.rs:498-504 | secrets stay readable exactly unless the key source refuses the key after the batch |
| Availability.FaultFreeRotation | src/vault.rs:455-518 | after every run a rotation of an opened vault in which nothing fails goes through, and every secret opens under the new key to what was written |
| Stranding.StrandedRotation | src/vault.rs:498-504 | a run, with ciphers that meet every assumption, whose rotation is refused by the key source and leaves a stored secret unreadable for good |
| Gc.GcDropsExactly | src/vault.rs:522-531 | a lease is dropped exactly when it is revoked or has less than one second left |
| Gc.LeaseGcRefines | src/vault.rs:522-531 | after any run, an access or renewal that succeeds in the collecting vault succeeds identically in one that never collects, exactly if that one held or granted the lease too |
| GcRuns.CollectingMakesRoom | src/vault.rs:153-163 | from every opened vault that has a granted secret, a run in which only the collecting vault grants, because an expired lease that was dropped freed room under the cap |
| Gc.SessionGcRefines | src/vault.rs:736-745 | under a clock that never runs back, collecting sessions at any points changes no later session verdict |
| SessionGc.LeasesAlikeIff | src/vault.rs:736-745 | under a clock that never runs back, a vault that collects sessions holds the same leases throughout as one that keeps them exactly if no operation revokes a collected session with live leases or renews against a collected session's limit |
| SessionGc.ScopedRequestsAlike | src/vault.rs:656-732 | after every run without such operations a scoped request succeeds in both vaults or in neither, with the same grant |
| GcRuns.RevokingCollectedSession | src/vault.rs:597-627 | from every such vault, a run that revokes a session that ran out and was collected, after which only the keeping vault grants a scoped request |
| GcRuns.RenewingAgainstCollectedSession | src/vault.rs:377-387 | likewise a run that renews a lease against the limit of a session that ran out and was collected |
| Locks.CallsNested | src/vault.rs:133-147 | every call takes nested locks in one fixed order, whatever its branches and loop counts |
| Locks.NestedIsOrdered | src/vault.rs:277-296 | calls nested that way only ever acquire a lock ranked above all they hold |
| Locks.DeadlockFree | src/vault.rs:362-387 | in every reachable state with an unfinished call, some call can step |
| Locks.EveryCallFinishes | src/vault.rs:124-745 | without new calls every schedule has boundedly many steps, and one that cannot go on has finished every call |
| Locks.MutualExclusion | src/vault.rs:277-296 | a lock held for writing is held by nobody else |
| Locks.TakesIff | src/vault.rs:62-65 | the head of a lock's queue gets it exactly if nobody holds it, or it wants to read and only readers do |
| LockScopes.StartsWith | src/vault.rs:124-745 | every call starts with exactly the lock scopes ahead of it that deadlock freedom is proved for |
| LockScopes.StepTakesScope | src/vault.rs:124-745 | and every step takes the scopes it runs under off the front |
| LockScopes.WritesCovered | src/vault.rs:124-745 | a step changes leases or sessions, or adds to the log, only under that lock held for writing |
| LockScopes.LeasesReadCovered | src/vault.rs:124-745 | a step without the leases lock goes the same way whatever the leases are |
| LockScopes.SessionsReadCovered | src/vault.rs:124-745 | a step without the sessions lock goes the same way whatever the sessions are |
| LockScopes.PolicyReadCovered | src/vault.rs:128-150 | a step without the policy lock goes the same way whatever the policy is |
| Interleaving.AgentCap | src/vault.rs:153-188 | with at most n requests of an agent in flight, its live leases plus requests past the check never exceed the cap plus n - 1 |
| Concurrency.SessionLimit | src/vault.rs:703-729 | the same bound for a session's counter and its scoped requests |
| Concurrency.IssuedRun | src/lease.rs:50-66 | in every interleaving each lease, held or collected, descends from the record made when it was granted |
| Concurrency.RevocationIsFinal | src/vault.rs:209-222 | no use and no renewal linearises after a revocation |
| Concurrency.LifetimeAndUses | src/lease.rs:97-119 | under every interleaving a lease expires by issue time plus the policy's ttl plus a day per renewal, and uses stay within the policy's limit |
| Concurrency.UseAccounting | src/vault.rs:216-248 | guards handed out equal recorded accesses, which are at most the uses, which are at most the limit; the remaining uses reported never saturate |
| Concurrency.GrantsAudited | src/vault.rs:173-188 | every lease in the map was recorded as granted before it was inserted |
| SessionCascade.CascadeRun | src/vault.rs:597-627 | the marks, passes and cascades of all sessions stay consistent in every interleaving |
| SessionCascade.OnlyEarlierPassesSurvive | src/vault.rs:597-729 | a live lease of a session whose cascade has completed was linked after it, by a request that passed the check before the mark |
| RenewalLimits.RenewalsAfterLink | src/vault.rs:377-387 | under every interleaving, while its session is held a lease was renewed at most up to the session's limit, or not at all since it was linked |
| Delegation.DelegationSound | src/vault.rs:656-722 | under every interleaving, whenever the check of an access passes for a target, a grant of the policy permits that agent, secret and target, and for a linked lease so does a binding of the tool in its session's policy, as it stood when the request passed its check and stands while the session is held |
| SecretRace.OnlyRacingReads | src/vault.rs:408-431 | under every interleaving with deletions and stores, an access reads another secret than the one its lease was granted on exactly if that one was removed before the read; then either the lease came in after the deletion's revocation or the access had passed its check before it |
| SecretRaceRun.NewSecretRead | src/vault.rs:167-188 | a run in which a lease that came in late reads a secret stored after the one it was granted on was deleted |
| SecretRaceRun.NewSecretReadInFlight | src/vault.rs:209-249 | a run in which an access that passed its check before the deletion does |
| Tightness.AgentCapReached | src/vault.rs:153-188 | for every granting policy a run with n requests in flight ends with exactly the cap plus n - 1 live leases |
| Tightness.SessionLimitReached | src/vault.rs:703-729 | likewise a run whose session counter ends at the limit plus n - 1 |
| Tightness.CascadeOutrun | src/vault.rs:597-729 | a run in which a lease stays live and linked to a session that was revoked and cascaded |
| Tightness.RenewalLimitPassed | src/vault.rs:377-387 | for every number a run in which a lease was renewed that often before it was linked, whatever the session's limit |
| Sequential.RequestAlone | src/vault.rs:124-200 | the scopes of a request, run without interference, leave the leases, sessions and audit log of the atomic request and give its answer, which describes the lease they leave |
| Sequential.ScopedAlone | src/vault.rs:656-732 | likewise for a scoped request |
| Sequential.AccessAlone | src/vault.rs:209-249 | likewise for an access, with the same bytes or error and a guard handed out exactly when the operation returns one |
| Sequential.RevokeAlone | src/vault.rs:252-272 | likewise, state and answer, for a revocation |
| Sequential.RenewAlone | src/vault.rs:355-405 | likewise for a renewal, whose grant describes the renewed lease |
| Sequential.BulkAlone | src/vault.rs:276-431 | likewise for revoking an agent's leases, with the count, and for deleting a secret |
| Sequential.RevokeSessionAlone | src/vault.rs:597-649 | likewise for revoking a session |
| Sequential.CreateSessionAlone | src/vault.rs:540-579 | likewise for creating a session |
| Sequential.CollectAlone | src/vault.rs:522-531 | likewise for both collectors |
| TextOrder.Transitive | crates/zerolease-store-rusqlite/src/audit.rs:139 | the order of timestamps as text is transitive |
| TextOrder.Total | crates/zerolease-store-rusqlite/src/audit.rs:139 | and total |
| AuditChain.Verify | crates/zerolease-store-rusqlite/src/audit.rs:131-190 | the loop reports all rows, exactly the intact hashed ones, and the earliest row whose link or hash fails; valid means none fails and there is a row |
| AuditHash.BrokenMeaning | crates/zerolease-store-rusqlite/src/audit.rs:150-186 | a row is in order exactly if, having both hashes, it hashes its columns in order and links to its predecessor, or to the seed if that has none or there is none |
| AuditHash.SeedText | crates/zerolease-store-rusqlite/src/audit.rs:64-71 | the text that seeds the chain |
| AuditHash.ComputeEntryHash | crates/zerolease-store-rusqlite/src/audit.rs:73-89 | the hash of the six columns one after the other is the one a written row carries |
| AuditChain.AuditLog.Record | crates/zerolease-store-rusqlite/src/audit.rs:249-290 | appends one row chained to the hash the query found, or to the seed; a duplicate key or failed insert changes nothing; what was a written log stays one |
| AuditChain.AuditLog.VerifyAuditChain | crates/zerolease-store-rusqlite/src/audit.rs:131-196 | the same report for any order the database may read the table in |
| AuditChain.Commitment | crates/zerolease-store-rusqlite/src/audit.rs:64-89 | two gap-free logs that verify and end in the same hash have the same length and hash the same text row by row |
| AuditChain.HashesDistinct | crates/zerolease-store-rusqlite/src/audit.rs:147-186 | no two rows of a verified chain have the same hash |
| AuditChain.EditShows | crates/zerolease-store-rusqlite/src/audit.rs:73-89 | changing any one column changes the hashed text, or the stored hash |
| AuditChain.EditDetected | crates/zerolease-store-rusqlite/src/audit.rs:164-186 | an edited row is broken in whatever order the table is then read |
| AuditChain.EditLocated | crates/zerolease-store-rusqlite/src/audit.rs:164-186 | if it stays in place it is the first row reported |
| AuditChain.RewriteDetectedIff | crates/zerolease-store-rusqlite/src/audit.rs:73-89 | rewriting several columns goes unnoticed exactly when the concatenated text is unchanged |
| AuditChain.ShiftUnnoticed | crates/zerolease-store-rusqlite/src/audit.rs:73-89 | in any log that verifies, moving text from the end of a row's agent column to the next column gives a different row with the same hashed text, and the log still verifies |
| AuditChain.NullingLocated | crates/zerolease-store-rusqlite/src/audit.rs:164-167 | clearing a hash in any log that verifies is reported at exactly the next row, and not at all if that row is missing or has no hashes |
| AuditChain.DeletionDetected | crates/zerolease-store-rusqlite/src/audit.rs:150-186 | deletions from a log that verifies, with rows without hashes anywhere, go unnoticed exactly when some row is left and every hashed row left still follows its predecessor or still starts a chain |
| AuditChain.DeletionLocated | crates/zerolease-store-rusqlite/src/audit.rs:150-186 | otherwise the first row reported is the first that does not |
| AuditChain.MigratedDeletion | crates/zerolease-store-rusqlite/src/audit.rs:164-186 | in a log that begins with rows from before the migration, exactly the cuts within those rows and at the tail that leave some row go unnoticed |
| AuditChain.MigratedDeletionLocated | crates/zerolease-store-rusqlite/src/audit.rs:164-186 | otherwise the first hashed row out of place is reported |
| AuditReadings.Complete | crates/zerolease-store-rusqlite/src/audit.rs:249-290 | a log written with strictly increasing timestamps, after any rows without hashes, verifies in every reading, with every appended row verified |
| AuditReadings.CompleteIff | crates/zerolease-store-rusqlite/src/audit.rs:130-290 | a log written onto any rows without hashes is valid in every reading exactly when it is not empty, the timestamps of appended rows strictly increase, and no row without hashes is dated within their span if there are two or more of them |
| AuditReadings.TiedUnverified | crates/zerolease-store-rusqlite/src/audit.rs:139 | a written log of two entries with one timestamp verifies in one reading and not in the other |
| Sni.ParseServerName | crates/zerolease-agent/src/proxy/sni.rs:180-204 | the cursor loop over the name list computes the walk on the remaining bytes |
| Sni.WalkLoop | crates/zerolease-agent/src/proxy/sni.rs:160-176 | the cursor loop over the extensions computes the walk, indexing past the hello included |
| Sni.HelloLoop | crates/zerolease-agent/src/proxy/sni.rs:136-176 | so do the fields before them |
| Sni.ExtractSni | crates/zerolease-agent/src/proxy/sni.rs:112-177 | so does the whole extraction from a record |
| SniGrammar.RoundTrip | crates/zerolease-agent/src/proxy/sni.rs:112-204 | an encoded host name is extracted whatever session id, ciphers, compression, other extensions and other names surround it |
| SniGrammar.Sound | crates/zerolease-agent/src/proxy/sni.rs:112-204 | nothing else is ever extracted: the bytes were a hello carrying that name |
| SniGrammar.ExtractIff | crates/zerolease-agent/src/proxy/sni.rs:112-204 | both together: a host name is returned exactly when the bytes print a hello that carries it |
| SniGrammar.BuildClientHello | crates/zerolease-agent/src/proxy/sni.rs:219-266 | the small encoder, with its truncating casts; its host name is extracted again exactly if it is text and the record's lengths hold it |
| SniGrammar.InBounds | crates/zerolease-agent/src/proxy/sni.rs:160-165 | when the declared block fits the hello no index leaves it |
| SniGrammar.OutOfBoundsIff | crates/zerolease-agent/src/proxy/sni.rs:160-165 | exactly which records make the parser index past the hello: whole other extensions lead to a header or successor beyond it that the declared length still allows |
| SniGrammar.OutOfBoundsExample | crates/zerolease-agent/src/proxy/sni.rs:160-165 | such a record |
| Frames.Reader.ReadFrame | src/protocol/frame.rs:24-52 | reads one frame or reports end of stream in length or payload, or a length over the maximum, and leaves the rest |
| Frames.Writer.WriteFrame | src/protocol/frame.rs:58-80 | appends the encoded frame, or refuses an oversized payload and writes nothing |
| Frames.DecodeMeaning | src/protocol/frame.rs:24-52 | what the four length bytes, highest first, and the length of the stream decide: the payload or which error, and what is left |
| Frames.RoundTrip | src/protocol/frame.rs:24-80 | a concatenation of frames decodes to exactly the payload list, then end of stream |
| Frames.ReadsOnlyFrames | src/protocol/frame.rs:24-52 | whatever is decoded from any stream was encoded at its front |
| Frames.Truncation | src/protocol/frame.rs:24-52 | a stream cut anywhere yields exactly the whole frames before the cut, then the end-of-stream error of the part that was cut |
| Frames.WholeFrames | src/protocol/frame.rs:24-52 | every cut before the end falls into some frame of the list, so the truncation result applies to it |
| EnvFile.QuoteReads | crates/zerolease-agent/src/provision.rs:187-192 | for every secret a POSIX shell reads the quoted text back as the secret |
| EnvFile.RawReadsIff | crates/zerolease-agent/src/provision.rs:102-124 | a value put between quotes unescaped reads back exactly when it contains no single quote |
| EnvFile.RawQuoteLost | crates/zerolease-agent/src/provision.rs:102-124 | a value with a quote in it that does not |
| EnvFile.FileReads | crates/zerolease-agent/src/provision.rs:104-110 | a file of export lines reads back as exactly the variables and values written if and only if every variable is a name to a shell |
| EnvFile.BadNameLost | crates/zerolease-agent/src/provision.rs:187-192 | a file with a variable that is not one |
| EnvFile.CredentialLines | crates/zerolease-agent/src/provision.rs:187-203 | the inner loop appends one line for every variable asked for |
| EnvFile.AskedExactly | crates/zerolease-agent/src/provision.rs:153-203 | the variables written are exactly those that credentials are to be injected as, with their secrets |
| EnvFile.EnvLines | crates/zerolease-agent/src/provision.rs:153-213 | the lines of all credentials read back as what they asked for if and only if every variable is a name to a shell |
| Server.Dispatch | src/server.rs:246-412 | each of the eight wire names, with its own parameters, is carried out as its vault operation for the bound or named agent and answered with its result; reserved names from anybody but an administrator are denied without a change; any other name or parameters are invalid |
| Server.DispatchMeaning | src/server.rs:244-412 | the same of the specification that whole connections are stated with |
| Server.ServeRequests | src/server.rs:181-214 | the loop carries out the operations of the frames in order, with one answer each under the request's id, until the stream ends, an oversized frame is refused with a last answer, or an answer cannot be written; nobody but an administrator is ever shown metadata |
| Server.HandleConnection | src/server.rs:106-215 | a caller is served exactly if its first frame named "zerolease" with a version of at most 1, the greeting could be written and the caller was authenticated; then the requests are served in order |
| Server.OpsConfined | src/server.rs:257-282 | whatever frames are sent, every operation stays within the caller's role and bound agent |
| Server.RoleConfinement | src/server.rs:244-282 | a whole connection of a non-administrator leaves secrets, keys and sessions unchanged, and every lease it adds carries the bound agent id |

## Left out

- Transports, sockets, the async runtime, proxy tunnelling and name resolution: input and output only.
- AES-GCM, XChaCha20-Poly1305, SHA-256, base64, JSON and UUID internals: function values or parsed data here.
- Key sources: one persisted key that may refuse to rotate; creating a missing key is not modelled.
- The Postgres and AWS stores: the SQLite table stands for the transactional store.
- Zeroization, debug redaction, logging and error texts; a response carries the vault's error, and the code it is given for it is left out.
- Client, provider, manifest, config writer, git credential helper, proxy lease file and audit queries: thin or single-branch code.
- Aliasing of leases and sessions: they are values in maps, since the source owns each in exactly one map.
- Machine integers: use, renewal and session counters are unbounded here and 32-bit in the source, and time arithmetic does not overflow.
- The clock within one lock scope: the source may read it more than once in a scope, or once per updated row; the model reads it once per scope or call.
- Peer identity and outcome of audit entries are not modelled, and the atomic log is a multiset because bulk revocations are logged in hash-map order.
- VaultTheorems.RunInv: admissible runs have new lease and session ids, tokens not in use, nonces of the cipher's length, and no rotation refused by the key source after its batch; that case is the subject of RotationKeepsReadableIff.
- Sequential.CollectAlone: the number of entries a collector reports is not compared; the methods GcLeases and GcSessions state it.
- Interleaved key rotation: rotating is atomic here, and only SecretRace interleaves storing a secret, so a store during a rotation is not covered.
- Interleaving.AgentCap: the interleaved steps are the lease, session, access, deletion and collection calls; opening the vault, listing and rotating are not among them.
- Gc.LeaseGcRefines: requests are assumed to get new lease ids.
- Locks.DeadlockFree: locks are fair queues, as the runtime's are; the database connections behind the store and the audit log are one exclusive lock each.
- AuditReadings.CompleteIff: assumes distinct 36-character event ids, which are the table's primary key; the printing of timestamps to text is not modelled.
- AuditChain.DeletionDetected: with rows without hashes in the middle it assumes distinct 36-character event ids, which are the table's primary key; a log as the writer leaves it needs no such assumption.
- EnvFile.QuoteReads: double quotes and expansions are outside the reader, which refuses them unquoted.
- Server.RoleConfinement: the operations of one connection in sequence; other connections act on the same vault between them, and the source does not tie access, renewal or single revocation by lease id to the bound agent.
