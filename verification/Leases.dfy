/** The server-side lease record. */
module Leases {
  import opened Types
  import opened Identity
  import opened Policy

  /** Longest extension one renewal may ask for: a day. */
  const MAX_EXTENSION_SECS: int := 86400

  datatype Lease = Lease(
    id: LeaseId,
    agent: AgentId,
    secretName: SecretName,
    allowedDomains: seq<DomainScope>,
    issuedAt: Time,
    expiresAt: Time,
    renewable: bool,
    maxUses: Option<nat>,
    useCount: nat,
    revoked: bool,
    sessionId: Option<SessionId>,
    renewalCount: nat)

  datatype LeaseGrant = LeaseGrant(
    leaseId: LeaseId,
    secretName: SecretName,
    allowedDomains: seq<DomainScope>,
    expiresAt: Time,
    renewable: bool,
    remainingUses: Option<nat>)

  function NewLease(id: LeaseId, agent: AgentId, secret: SecretName, domains: seq<DomainScope>,
                    terms: LeaseTerms, now: Time): Lease {
    Lease(id, agent, secret, domains, now, now + terms.ttl, terms.renewable, terms.maxUses, 0, false, None, 0)
  }

  predicate Exhausted(l: Lease) {
    l.maxUses.Some? && l.useCount >= l.maxUses.value
  }

  /** Why the lease may not be used for `target` at `now`, if it may not. */
  function Refusal(l: Lease, target: string, now: Time): Option<Error> {
    if l.revoked then Some(LeaseRevoked(l.id))
    else if now > l.expiresAt then Some(LeaseExpired(l.id))
    else if Exhausted(l) then Some(LeaseExpired(l.id))
    else if !AnyMatches(l.allowedDomains, target) then Some(AccessDenied(l.agent, l.secretName, target))
    else None
  }

  function RecordUse(l: Lease): Result<Lease> {
    if Exhausted(l) then Err(LeaseExpired(l.id)) else Ok(l.(useCount := l.useCount + 1))
  }

  function Renew(l: Lease, extension: Time, now: Time): Result<Lease> {
    if l.revoked then Err(LeaseRevoked(l.id))
    else if !l.renewable then Err(InvalidConfig)
    else Ok(l.(expiresAt := now + extension, renewalCount := l.renewalCount + 1))
  }

  function Revoke(l: Lease): Lease {
    l.(revoked := true)
  }

  function TimeRemaining(l: Lease, now: Time): Time {
    l.expiresAt - now
  }

  function SaturatingSub(a: nat, b: nat): nat {
    if a >= b then a - b else 0
  }

  function GrantOf(l: Lease): LeaseGrant {
    LeaseGrant(l.id, l.secretName, l.allowedDomains, l.expiresAt, l.renewable,
               match l.maxUses case Some(max) => Some(SaturatingSub(max, l.useCount)) case None => None)
  }

  /** What the garbage collector keeps. */
  predicate Kept(l: Lease, now: Time) {
    !l.revoked && NumSeconds(TimeRemaining(l, now)) > 0
  }

  /** The fields that no operation ever changes. */
  predicate SameTerms(a: Lease, b: Lease) {
    && a.id == b.id && a.agent == b.agent && a.secretName == b.secretName
    && a.allowedDomains == b.allowedDomains && a.issuedAt == b.issuedAt
    && a.renewable == b.renewable && a.maxUses == b.maxUses
  }

  /** The policy grants the lease's request, on exactly the terms the lease has. */
  predicate AsGranted(policy: PolicyConfig, l: Lease) {
    && |l.allowedDomains| == 1
    && var granted := Evaluate(policy, l.agent, l.secretName, l.allowedDomains[0]);
    && granted.Ok? && l.expiresAt == l.issuedAt + granted.value.ttl
    && l.renewable == granted.value.renewable && l.maxUses == granted.value.maxUses
  }

  /** Upper bound on the expiry of a lease that started as `base`: one day a renewal. */
  predicate WithinLifetime(base: Lease, l: Lease) {
    l.expiresAt <= base.expiresAt + 86_400_000_000_000 * l.renewalCount
  }

  /** A renewal made before expiry keeps the lease inside its lifetime bound. */
  lemma RenewWithinLifetime(base: Lease, l: Lease, extensionSecs: int, now: Time)
    requires WithinLifetime(base, l) && now <= l.expiresAt && extensionSecs <= MAX_EXTENSION_SECS
    requires Renew(l, extensionSecs * NANOS_PER_SECOND, now).Ok?
    ensures WithinLifetime(base, Renew(l, extensionSecs * NANOS_PER_SECOND, now).value)
  {
    assert MAX_EXTENSION_SECS * NANOS_PER_SECOND == 86_400_000_000_000;
  }
}
