/** The deny-by-default, first-match policy engine. */
module Policy {
  import opened Types
  import opened Identity

  datatype LeaseTerms = LeaseTerms(ttl: Time, renewable: bool, maxUses: Option<nat>)

  /** Used both for agent ids and for secret names. */
  datatype Pattern = Exact(name: string) | Prefix(prefix: string) | Any {
    predicate Accepts(s: string) {
      match this
      case Exact(n) => n == s
      case Prefix(p) => p <= s
      case Any => true
    }
  }

  datatype PolicyGrant = PolicyGrant(
    agent: Pattern,
    secret: Pattern,
    allowedDomains: seq<DomainScope>,
    leaseTerms: Option<LeaseTerms>)

  datatype PolicyConfig = PolicyConfig(defaultTerms: LeaseTerms, grants: seq<PolicyGrant>)

  predicate Covers(g: PolicyGrant, agent: AgentId, secret: SecretName, domain: string) {
    g.agent.Accepts(agent) && g.secret.Accepts(secret) && AnyMatches(g.allowedDomains, domain)
  }

  /** Index of the first grant that covers the request, or the number of grants if none does. */
  function FirstMatch(grants: seq<PolicyGrant>, agent: AgentId, secret: SecretName, domain: string): (i: nat)
    ensures i <= |grants|
    ensures i < |grants| ==> Covers(grants[i], agent, secret, domain)
    ensures forall j | 0 <= j < i :: !Covers(grants[j], agent, secret, domain)
  {
    if grants == [] then 0
    else if Covers(grants[0], agent, secret, domain) then 0
    else 1 + FirstMatch(grants[1..], agent, secret, domain)
  }

  function TermsOf(config: PolicyConfig, g: PolicyGrant): LeaseTerms {
    match g.leaseTerms case Some(t) => t case None => config.defaultTerms
  }

  function Evaluate(config: PolicyConfig, agent: AgentId, secret: SecretName, domain: string): Result<LeaseTerms> {
    var i := FirstMatch(config.grants, agent, secret, domain);
    if i < |config.grants| then Ok(TermsOf(config, config.grants[i])) else Err(AccessDenied(agent, secret, domain))
  }

  /** What a grant says, pattern by pattern. */
  ghost predicate Permits(g: PolicyGrant, agent: AgentId, secret: SecretName, host: string) {
    && (g.agent == Any || g.agent == Exact(agent) || (g.agent.Prefix? && g.agent.prefix <= agent))
    && (g.secret == Any || g.secret == Exact(secret) || (g.secret.Prefix? && g.secret.prefix <= secret))
    && exists d | d in g.allowedDomains :: Matches(d, host)
  }

  lemma CoversPermits(g: PolicyGrant, agent: AgentId, secret: SecretName, host: string)
    ensures Covers(g, agent, secret, host) <==> Permits(g, agent, secret, host)
  {
    hide Matches;
    if exists d | d in g.allowedDomains :: Matches(d, host) {
      var d :| d in g.allowedDomains && Matches(d, host);
      var i :| 0 <= i < |g.allowedDomains| && g.allowedDomains[i] == d;
      assert Matches(g.allowedDomains[i], host);
    }
  }

  /** Grant `i` is the first whose patterns permit the request. */
  ghost predicate Decides(config: PolicyConfig, i: nat, agent: AgentId, secret: SecretName, host: string) {
    && i < |config.grants| && Permits(config.grants[i], agent, secret, host)
    && forall j | 0 <= j < i :: !Permits(config.grants[j], agent, secret, host)
  }

  /**
   * Terms are granted exactly by the first grant whose patterns permit the request: its own terms if
   * it has some, and the default terms if not.  If none does, the denial names the request.
   */
  lemma EvaluateMeaning(config: PolicyConfig, agent: AgentId, secret: SecretName, host: string)
    ensures var r := Evaluate(config, agent, secret, host);
      && (r.Ok? <==> exists i: nat :: Decides(config, i, agent, secret, host))
      && (forall i: nat | Decides(config, i, agent, secret, host) ::
            var own := config.grants[i].leaseTerms;
            (own.Some? ==> r == Ok(own.value)) && (own.None? ==> r == Ok(config.defaultTerms)))
      && (r.Err? ==> r.error == AccessDenied(agent, secret, host))
  {
    hide Covers, Permits;
    forall i | 0 <= i < |config.grants|
      ensures Covers(config.grants[i], agent, secret, host) <==> Permits(config.grants[i], agent, secret, host)
    {
      CoversPermits(config.grants[i], agent, secret, host);
    }
    var k := FirstMatch(config.grants, agent, secret, host);
    assert k < |config.grants| ==> Decides(config, k, agent, secret, host);
    assert forall i: nat | Decides(config, i, agent, secret, host) :: i == k;
  }

  /** A request is granted exactly if the patterns of some grant take in its agent, its secret and its host. */
  lemma GrantedIff(config: PolicyConfig, agent: AgentId, secret: SecretName, host: string)
    ensures Evaluate(config, agent, secret, host).Ok? <==>
      exists i | 0 <= i < |config.grants| ::
        var g := config.grants[i];
        && (g.agent == Any || g.agent == Exact(agent) || (g.agent.Prefix? && g.agent.prefix <= agent))
        && (g.secret == Any || g.secret == Exact(secret) || (g.secret.Prefix? && g.secret.prefix <= secret))
        && exists d | d in g.allowedDomains :: Matches(d, host)
  {
    EvaluateMeaning(config, agent, secret, host);
    hide Evaluate, Matches;
    if i: nat :| i < |config.grants| && Permits(config.grants[i], agent, secret, host) {
      FirstPermitted(config, agent, secret, host, i);
    }
  }

  lemma {:induction false} FirstPermitted(config: PolicyConfig, agent: AgentId, secret: SecretName, host: string,
                                          i: nat)
    requires i < |config.grants| && Permits(config.grants[i], agent, secret, host)
    ensures exists k: nat :: Decides(config, k, agent, secret, host)
  {
    hide Permits;
    if j: nat :| j < i && Permits(config.grants[j], agent, secret, host) {
      FirstPermitted(config, agent, secret, host, j);
    } else {
      assert Decides(config, i, agent, secret, host);
    }
  }

  /** The search loop of the engine. */
  method EvaluateLoop(config: PolicyConfig, agent: AgentId, secret: SecretName, domain: DomainScope)
    returns (r: Result<LeaseTerms>)
    ensures r == Evaluate(config, agent, secret, domain)
    ensures r.Ok? <==> exists i | 0 <= i < |config.grants| :: Covers(config.grants[i], agent, secret, domain)
  {
    for i := 0 to |config.grants|
      invariant forall j | 0 <= j < i :: !Covers(config.grants[j], agent, secret, domain)
    {
      var grant := config.grants[i];
      if !grant.agent.Accepts(agent) {
        continue;
      }
      if !grant.secret.Accepts(secret) {
        continue;
      }
      var hit := false;
      for d := 0 to |grant.allowedDomains|
        invariant hit <==> AnyMatches(grant.allowedDomains[..d], domain)
      {
        assert grant.allowedDomains[..d + 1] == grant.allowedDomains[..d] + [grant.allowedDomains[d]];
        hit := hit || Matches(grant.allowedDomains[d], domain);
      }
      assert grant.allowedDomains[..|grant.allowedDomains|] == grant.allowedDomains;
      if hit {
        assert Covers(grant, agent, secret, domain);
        return Ok(match grant.leaseTerms case Some(t) => t case None => config.defaultTerms);
      }
    }
    return Err(AccessDenied(agent, secret, domain));
  }

  /**
   * A policy that grants a domain grants every target inside that domain, and by a grant that
   * stands no later in the list.  (The grant may be an earlier one, so the terms can differ.)
   */
  lemma PolicyMonotone(config: PolicyConfig, agent: AgentId, secret: SecretName, domain: DomainScope, target: string)
    requires Evaluate(config, agent, secret, domain).Ok?
    requires Matches(domain, target)
    ensures Evaluate(config, agent, secret, target).Ok?
    ensures FirstMatch(config.grants, agent, secret, target) <= FirstMatch(config.grants, agent, secret, domain)
  {
    var i := FirstMatch(config.grants, agent, secret, domain);
    AnyMatchesTransitive(config.grants[i].allowedDomains, domain, target);
  }
}
