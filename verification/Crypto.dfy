/** Authenticated encryption of secrets at rest, with the two ciphers left abstract. */
module Crypto {
  import opened Types

  type Key = Bytes

  datatype Algorithm = Aes256Gcm | XChaCha20Poly1305

  datatype Sealed = Sealed(ciphertext: Bytes, nonce: Bytes, algorithm: Algorithm)

  /** One cipher: both directions take key, nonce and payload, and may fail. */
  datatype Aead = Aead(
    encrypt: (Key, Bytes, Bytes) -> Option<Bytes>,
    decrypt: (Key, Bytes, Bytes) -> Option<Bytes>)

  datatype Cipher = Cipher(aes: Aead, xchacha: Aead, defaultAlgorithm: Algorithm)

  function NonceLength(a: Algorithm): nat {
    match a case Aes256Gcm => 12 case XChaCha20Poly1305 => 24
  }

  function Backend(c: Cipher, a: Algorithm): Aead {
    match a case Aes256Gcm => c.aes case XChaCha20Poly1305 => c.xchacha
  }

  /** Seals under the default algorithm; the nonce is the generator's output. */
  function Encrypt(c: Cipher, plaintext: Bytes, key: Key, nonce: Bytes): Result<Sealed> {
    match Backend(c, c.defaultAlgorithm).encrypt(key, nonce, plaintext)
    case Some(ct) => Ok(Sealed(ct, nonce, c.defaultAlgorithm))
    case None => Err(EncryptionFailed)
  }

  /** Opens under the algorithm recorded in the sealed value, not the default one. */
  function Decrypt(c: Cipher, s: Sealed, key: Key): Result<Bytes> {
    if |s.nonce| != NonceLength(s.algorithm) then Err(DecryptionFailed)
    else match Backend(c, s.algorithm).decrypt(key, s.nonce, s.ciphertext)
      case Some(p) => Ok(p)
      case None => Err(DecryptionFailed)
  }

  /** Whatever a cipher seals it opens again, under the same key and nonce. */
  ghost predicate Lawful(a: Aead) {
    forall k, n, p :: a.encrypt(k, n, p).Some? ==> a.decrypt(k, n, a.encrypt(k, n, p).value) == Some(p)
  }

  ghost predicate LawfulCipher(c: Cipher) {
    Lawful(c.aes) && Lawful(c.xchacha)
  }

  /** Authentication: what one key sealed no other key opens. */
  ghost predicate Authentic(a: Aead) {
    forall k, k', n, p :: a.encrypt(k, n, p).Some? && k != k' ==> a.decrypt(k', n, a.encrypt(k, n, p).value).None?
  }

  ghost predicate AuthenticCipher(c: Cipher) {
    Authentic(c.aes) && Authentic(c.xchacha)
  }

  /**
   * A sealed value opens to its plaintext under the key that sealed it, whichever default
   * algorithm the opening cipher was configured with.
   */
  lemma DecryptEncrypt(c: Cipher, later: Algorithm, plaintext: Bytes, key: Key, nonce: Bytes)
    requires LawfulCipher(c) && |nonce| == NonceLength(c.defaultAlgorithm)
    requires Encrypt(c, plaintext, key, nonce).Ok?
    ensures Decrypt(c.(defaultAlgorithm := later), Encrypt(c, plaintext, key, nonce).value, key) == Ok(plaintext)
  {
    var b := Backend(c, c.defaultAlgorithm);
    assert Lawful(b);
  }

  /** A sealed value opens exactly if its nonce has the length of its algorithm and that algorithm opens it. */
  lemma DecryptIff(c: Cipher, s: Sealed, key: Key, plaintext: Bytes)
    ensures Decrypt(c, s, key) == Ok(plaintext) <==>
      if s.algorithm == Aes256Gcm then |s.nonce| == 12 && c.aes.decrypt(key, s.nonce, s.ciphertext) == Some(plaintext)
      else |s.nonce| == 24 && c.xchacha.decrypt(key, s.nonce, s.ciphertext) == Some(plaintext)
    ensures Decrypt(c, s, key).Err? ==> Decrypt(c, s, key).error == DecryptionFailed
  {
  }
}

/** The UTF-8 well-formedness that `String::from_utf8` demands. */
module Utf8 {
  import opened Types

  predicate Continuation(b: Byte) {
    0x80 <= b <= 0xBF
  }

  /** Length of the well-formed sequence at the front of `s`, or 0 if there is none. */
  function LeadLength(s: Bytes): (n: nat)
    ensures n <= |s|
    ensures n <= 4
  {
    if |s| >= 1 && s[0] <= 0x7F then 1
    else if |s| >= 2 && 0xC2 <= s[0] <= 0xDF && Continuation(s[1]) then 2
    else if |s| >= 3 && 0xE0 <= s[0] <= 0xEF && Continuation(s[1]) && Continuation(s[2])
            && (s[0] == 0xE0 ==> s[1] >= 0xA0) && (s[0] == 0xED ==> s[1] <= 0x9F) then 3
    else if |s| >= 4 && 0xF0 <= s[0] <= 0xF4 && Continuation(s[1]) && Continuation(s[2]) && Continuation(s[3])
            && (s[0] == 0xF0 ==> s[1] >= 0x90) && (s[0] == 0xF4 ==> s[1] <= 0x8F) then 4
    else 0
  }

  predicate Valid(s: Bytes) {
    s == [] || (LeadLength(s) > 0 && Valid(s[LeadLength(s)..]))
  }
}
