/** Identifiers, errors and small wrappers shared by every part of the vault model. */
module Types {

  datatype Option<+T> = None | Some(value: T)

  datatype Result<+T> = Ok(value: T) | Err(error: Error)

  // UUIDs and random tokens are opaque; only their equality is ever used.
  type LeaseId = nat
  type SecretId = nat
  type SessionId = nat
  type Token = nat

  type AgentId = string
  type SecretName = string

  type Byte = n: nat | n < 256
  type Bytes = seq<Byte>

  /** Instants and durations, in nanoseconds. */
  type Time = int

  const NANOS_PER_SECOND: int := 1_000_000_000

  datatype Error =
    | LeaseExpired(lease: LeaseId)
    | LeaseRevoked(lease: LeaseId)
    | LeaseNotFound(lease: LeaseId)
    | AccessDenied(agent: AgentId, secret: SecretName, domain: string)
    | SessionNotFound
    | SessionExpired(session: SessionId)
    | SessionRevoked(session: SessionId)
    | SessionLeaseLimitReached(session: SessionId, limit: nat)
    | RenewalLimitReached(lease: LeaseId, limit: nat)
    | SecretNotFound(secret: SecretName)
    | SecretAlreadyExists(secret: SecretName)
    | EncryptionFailed
    | DecryptionFailed
    | KeySourceUnavailable
    | Storage
    | InvalidConfig

  /** Whole seconds of a duration, truncated toward zero. */
  function NumSeconds(d: Time): (n: int)
    ensures n > 0 <==> d >= NANOS_PER_SECOND
    ensures d >= 0 ==> 0 <= d - n * NANOS_PER_SECOND < NANOS_PER_SECOND
    ensures d < 0 ==> 0 <= n * NANOS_PER_SECOND - d < NANOS_PER_SECOND
  {
    if d >= 0 then d / NANOS_PER_SECOND else -((-d) / NANOS_PER_SECOND)
  }
}

/** Counting the entries of a finite map that satisfy a predicate. */
module Counting {

  function Where<K, V>(m: map<K, V>, p: V -> bool): set<K> {
    set k | k in m && p(m[k])
  }

  function Count<K, V>(m: map<K, V>, p: V -> bool): nat {
    |Where(m, p)|
  }

  function Bit(b: bool): nat {
    if b then 1 else 0
  }

  lemma CardWithout<T>(a: set<T>, x: T)
    ensures |a| == |a - {x}| + Bit(x in a)
  {
    if x !in a {
      assert a - {x} == a;
    }
  }

  lemma WhereUpdate<K, V>(m: map<K, V>, k: K, v: V, p: V -> bool)
    ensures Where(m[k := v], p) - {k} == Where(m, p) - {k}
    ensures k in Where(m[k := v], p) <==> p(v)
    ensures k in Where(m, p) <==> k in m && p(m[k])
  {
  }

  /** Writing one entry moves the count by exactly what that entry contributes. */
  lemma CountUpdate<K, V>(m: map<K, V>, k: K, v: V, p: V -> bool)
    ensures Count(m[k := v], p) == Count(m, p) - Bit(k in m && p(m[k])) + Bit(p(v))
  {
    hide Where;
    WhereUpdate(m, k, v, p);
    CardWithout(Where(m, p), k);
    CardWithout(Where(m[k := v], p), k);
  }

  /** A map whose satisfying entries all satisfied the predicate before counts no more. */
  lemma CountMonotone<K, V>(small: map<K, V>, big: map<K, V>, p: V -> bool)
    requires forall k | k in small && p(small[k]) :: k in big && p(big[k])
    ensures Count(small, p) <= Count(big, p)
  {
    SubsetCard(Where(small, p), Where(big, p));
  }

  /** Two predicates, the first implying the second, count in that order. */
  lemma CountImplies<K, V>(m: map<K, V>, p: V -> bool, q: V -> bool)
    requires forall k | k in m && p(m[k]) :: q(m[k])
    ensures Count(m, p) <= Count(m, q)
  {
    SubsetCard(Where(m, p), Where(m, q));
  }

  lemma SubsetCard<T>(a: set<T>, b: set<T>)
    requires a <= b
    ensures |a| <= |b|
  {
    assert b == a + (b - a);
  }
}
