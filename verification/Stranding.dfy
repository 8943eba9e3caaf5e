/**
 * A rotation that is stranded: its batch went through and the key source then refused the new
 * key.  A run that gets there, with ciphers that meet every assumption made of them.
 */
module Stranding {
  import opened Types
  import opened Policy
  import opened Crypto
  import opened Store
  import opened VaultModel
  import opened VaultRuns
  import Utf8

  /** A cipher that keeps the key in front of the plaintext: useless, but lawful and authentic. */
  function Seal(key: Key, nonce: Bytes, p: Bytes): Option<Bytes> {
    if |key| == 32 then Some(key + p) else None
  }

  function Open(key: Key, nonce: Bytes, ct: Bytes): Option<Bytes> {
    if |key| == 32 <= |ct| && ct[..32] == key then Some(ct[32..]) else None
  }

  const BOX := Aead(Seal, Open)
  const CONFIG := Config(PolicyConfig(LeaseTerms(0, false, None), []), 1, Cipher(BOX, BOX, Aes256Gcm))

  lemma BoxLaws()
    ensures LawfulCipher(CONFIG.cipher) && AuthenticCipher(CONFIG.cipher)
  {
    forall k, n, p | BOX.encrypt(k, n, p).Some?
      ensures BOX.decrypt(k, n, BOX.encrypt(k, n, p).value) == Some(p)
    {
      assert (k + p)[..32] == k && (k + p)[32..] == p;
    }
    forall k, k', n, p | BOX.encrypt(k, n, p).Some? && k != k'
      ensures BOX.decrypt(k', n, BOX.encrypt(k, n, p).value).None?
    {
      assert (k + p)[..32] == k;
    }
  }

  function Zeros(n: nat): Bytes {
    seq(n, _ => 0)
  }

  const OLD_KEY: Key := Zeros(32)
  const NEW_KEY: Key := seq(32, _ => 1)

  const FRESH := World(State(map[], map[], map[], None, OLD_KEY, multiset{}), History(map[], map[], {}, {}))
  const CALM := Env(0, true, true, {})
  const STORE_X := OpStore("x", [104, 105], ApiKey, None, 1, Zeros(12), CALM)
  const ROTATE := OpRotate(NEW_KEY, (_: SecretName) => Zeros(12), RotateFaults({}, 2, false), CALM)

  /** The vault opened, one secret stored. */
  ghost function Stored(): World {
    Runs(CONFIG, FRESH, [OpInitialize, STORE_X])
  }

  lemma StoredState()
    ensures Start(CONFIG, FRESH) && AdmissibleRun(CONFIG, FRESH, [OpInitialize, STORE_X])
    ensures var s := Stored().s;
      && s.dek == Some(OLD_KEY) && s.persisted == OLD_KEY && s.store.Keys == {"x"}
      && s.store["x"].sealed == Sealed(OLD_KEY + [104, 105], Zeros(12), Aes256Gcm)
  {
    var first, both := [OpInitialize], [OpInitialize, STORE_X];
    assert first[..0] == [] && both[..1] == first;
    assert Runs(CONFIG, FRESH, []) == FRESH;
    assert Runs(CONFIG, FRESH, first) == Step(CONFIG, FRESH, OpInitialize);
    assert AdmissibleRun(CONFIG, FRESH, []) && AdmissibleRun(CONFIG, FRESH, first);
  }

  /**
   * The secret opens before the rotation, and no longer after it, also not when the vault is
   * opened anew.
   */
  lemma StrandedRotation()
    ensures LawfulCipher(CONFIG.cipher) && AuthenticCipher(CONFIG.cipher)
    ensures Start(CONFIG, FRESH) && AdmissibleRun(CONFIG, FRESH, [OpInitialize, STORE_X])
    ensures var s := Stored().s; var s' := Apply(CONFIG, s, ROTATE);
      && Stranded(CONFIG, s, ROTATE) && "x" in s.store && "x" in s'.store
      && OpenSecret(CONFIG.cipher, s.store["x"], s.dek) == Ok([104, 105])
      && OpenSecret(CONFIG.cipher, s'.store["x"], s'.dek).Err?
      && OpenSecret(CONFIG.cipher, s'.store["x"], Initialize(s').dek).Err?
  {
    BoxLaws();
    StoredState();
    hide Stored;
    var s := Stored().s;
    var s' := Apply(CONFIG, s, ROTATE);
    assert (OLD_KEY + [104, 105])[..32] == OLD_KEY && (OLD_KEY + [104, 105])[32..] == [104, 105];
    assert (NEW_KEY + [104, 105])[..32] == NEW_KEY;
    assert OLD_KEY[0] != NEW_KEY[0];
    assert ReSeal(CONFIG.cipher, s.store["x"], OLD_KEY, NEW_KEY, Zeros(12), 0).Ok?;
    assert s'.store["x"].sealed == Sealed(NEW_KEY + [104, 105], Zeros(12), Aes256Gcm);
    assert Utf8.Valid([104, 105]);
  }
}
