/** Sessions: trust contexts that scope lease requests. */
module Sessions {
  import opened Types
  import opened Identity

  datatype ToolBinding = ToolBinding(
    toolName: string,
    allowedSecrets: seq<SecretName>,
    allowedDomains: seq<DomainScope>)

  datatype SessionPolicy = SessionPolicy(
    maxDuration: Time,
    maxConcurrentLeases: nat,
    maxRenewalsPerLease: nat,
    toolBindings: seq<ToolBinding>)

  datatype Session = Session(
    id: SessionId,
    user: string,
    channel: string,
    createdAt: Time,
    expiresAt: Time,
    policy: SessionPolicy,
    activeLeaseCount: nat,
    revoked: bool)

  function NewSession(id: SessionId, user: string, channel: string, policy: SessionPolicy, now: Time): Session {
    Session(id, user, channel, now, now + policy.maxDuration, policy, 0, false)
  }

  predicate Expired(s: Session, now: Time) {
    now > s.expiresAt
  }

  predicate Active(s: Session, now: Time) {
    !s.revoked && !Expired(s, now)
  }

  function RevokeSessionRecord(s: Session): Session {
    s.(revoked := true)
  }

  predicate Allows(b: ToolBinding, tool: string, secret: SecretName, domain: string) {
    b.toolName == tool && secret in b.allowedSecrets && AnyMatches(b.allowedDomains, domain)
  }

  predicate ToolAllowed(policy: SessionPolicy, tool: string, secret: SecretName, domain: string) {
    exists i | 0 <= i < |policy.toolBindings| :: Allows(policy.toolBindings[i], tool, secret, domain)
  }

  /** A tool may use a secret for a host exactly if a binding of it lists the secret and a scope around the host. */
  lemma ToolMeaning(policy: SessionPolicy, tool: string, secret: SecretName, host: string)
    ensures ToolAllowed(policy, tool, secret, host) <==>
      exists b | b in policy.toolBindings ::
        b.toolName == tool && secret in b.allowedSecrets && exists d | d in b.allowedDomains :: Matches(d, host)
  {
    hide Matches;
    forall b | b in policy.toolBindings && b.toolName == tool && secret in b.allowedSecrets
      ensures (exists d | d in b.allowedDomains :: Matches(d, host)) ==> ToolAllowed(policy, tool, secret, host)
    {
      if d :| d in b.allowedDomains && Matches(d, host) {
        var i :| 0 <= i < |b.allowedDomains| && b.allowedDomains[i] == d;
        assert Matches(b.allowedDomains[i], host);
        var k :| 0 <= k < |policy.toolBindings| && policy.toolBindings[k] == b;
        assert Allows(policy.toolBindings[k], tool, secret, host);
      }
    }
  }

  /** The binding search loop: first a tool-name filter, then two membership searches. */
  method CheckToolBinding(policy: SessionPolicy, tool: string, secret: SecretName, domain: DomainScope)
    returns (r: Result<()>)
    ensures r.Ok? <==> ToolAllowed(policy, tool, secret, domain)
    ensures r.Ok? <==>
      exists b | b in policy.toolBindings ::
        b.toolName == tool && secret in b.allowedSecrets && exists d | d in b.allowedDomains :: Matches(d, domain)
    ensures r.Err? ==> r.error == AccessDenied(tool, secret, domain)
  {
    ToolMeaning(policy, tool, secret, domain);
    for i := 0 to |policy.toolBindings|
      invariant forall j | 0 <= j < i :: !Allows(policy.toolBindings[j], tool, secret, domain)
    {
      var binding := policy.toolBindings[i];
      if binding.toolName != tool {
        continue;
      }
      var secretOk := false;
      for k := 0 to |binding.allowedSecrets|
        invariant secretOk <==> secret in binding.allowedSecrets[..k]
      {
        secretOk := secretOk || binding.allowedSecrets[k] == secret;
      }
      var domainOk := false;
      for k := 0 to |binding.allowedDomains|
        invariant domainOk <==> exists d | 0 <= d < k :: Matches(binding.allowedDomains[d], domain)
      {
        domainOk := domainOk || Matches(binding.allowedDomains[k], domain);
      }
      if secretOk && domainOk {
        assert Allows(binding, tool, secret, domain);
        return Ok(());
      }
    }
    return Err(AccessDenied(tool, secret, domain));
  }

  /** A tool that may use a secret for a domain may use it for every target inside it. */
  lemma ToolMonotone(policy: SessionPolicy, tool: string, secret: SecretName, domain: DomainScope, target: string)
    requires ToolAllowed(policy, tool, secret, domain) && Matches(domain, target)
    ensures ToolAllowed(policy, tool, secret, target)
  {
    var i :| 0 <= i < |policy.toolBindings| && Allows(policy.toolBindings[i], tool, secret, domain);
    AnyMatchesTransitive(policy.toolBindings[i].allowedDomains, domain, target);
    assert Allows(policy.toolBindings[i], tool, secret, target);
  }
}
