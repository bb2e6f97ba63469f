/** The hybrid KEM + AEAD encryptor of `crypto/hybrid.py` (class `HybridEncryptor`). SHA-256,
    AES-GCM, base64 and the liboqs Kyber512 binding are abstract; `os.urandom` draws are
    parameters. */
module Hybrid {
  import opened Bytes
  import opened Hashing

  const SeedLength: nat := 32
  const NonceLength: nat := 12
  const AesKeyLength: nat := 32

  /** A 32-byte `os.urandom(32)` draw: a simulated private key or an encapsulation seed. */
  type Seed = s: Bytes | |s| == 32 witness seq(32, _ => 0 as byte)

  /** A 12-byte `os.urandom(12)` draw: an AES-GCM nonce. */
  type Nonce = s: Bytes | |s| == 12 witness seq(12, _ => 0 as byte)

  /** The tag on blobs the simulated KEM produced. */
  const SimulatedMethod: string := "Simulated-Kyber512+AES256GCM"

  /** The tag on blobs the real Kyber512 KEM produced. */
  const RealMethod: string := "Kyber512+AES256GCM"

  /** The metadata dictionary: base64 text fields and the method tag. */
  type Metadata = map<string, string>

  /** `AESGCM(key).encrypt(nonce, pt, None)` and `AESGCM(key).decrypt(nonce, ct, None)`;
      `open` is None when the library raises (`InvalidTag`, an unusable nonce). */
  datatype Aead = Aead(seal: (Bytes, Bytes, Bytes) -> Bytes, open: (Bytes, Bytes, Bytes) -> Option<Bytes>)

  /** The key sizes `AESGCM(key)` accepts; any other length raises `ValueError`. */
  predicate ValidAesKey(key: Bytes)
  {
    |key| == 16 || |key| == 24 || |key| == 32
  }

  /** Opening what was sealed under the same key and nonce gives the plaintext back. */
  ghost predicate AeadSound(a: Aead)
  {
    forall key, nonce, pt {:trigger a.seal(key, nonce, pt)} ::
      ValidAesKey(key) && |nonce| == NonceLength ==> a.open(key, nonce, a.seal(key, nonce, pt)) == Some(pt)
  }

  /** `base64.b64encode(b).decode()` and `base64.b64decode(s)`, None when decoding raises. */
  datatype Base64 = Base64(encode: Bytes -> string, decode: string -> Option<Bytes>)

  ghost predicate Base64Sound(b: Base64)
  {
    forall bytes :: b.decode(b.encode(bytes)) == Some(bytes)
  }

  /** The library calls the encryptor makes on either path. */
  datatype Libraries = Libraries(sha256: Hash, aes: Aead, b64: Base64)

  ghost predicate LibrariesSound(lib: Libraries)
  {
    AeadSound(lib.aes) && Base64Sound(lib.b64)
  }

  /** The liboqs `KeyEncapsulation("Kyber512")` operations, each None when it raises:
      `keygen(coins)` gives (public key, secret key), `encap(pub, coins)` gives
      (KEM ciphertext, shared secret), `decap(priv, kemCiphertext)` gives the shared secret. */
  datatype Liboqs = Liboqs(
    keygen: Bytes -> Option<(Bytes, Bytes)>,
    encap: (Bytes, Bytes) -> Option<(Bytes, Bytes)>,
    decap: (Bytes, Bytes) -> Option<Bytes>)

  /** KEM correctness: decapsulating with the secret key recovers the encapsulated secret. */
  ghost predicate KemCorrect(q: Liboqs)
  {
    forall kc, ec {:trigger q.encap(q.keygen(kc).value.0, ec)} ::
      q.keygen(kc).Some? && q.encap(q.keygen(kc).value.0, ec).Some? ==>
        q.decap(q.keygen(kc).value.1, q.encap(q.keygen(kc).value.0, ec).value.0)
          == Some(q.encap(q.keygen(kc).value.0, ec).value.1)
  }

  /** Why `decrypt` raised. */
  datatype DecryptError =
    | MissingField(name: string)      // KeyError on the metadata dictionary
    | InvalidBase64(name: string)     // binascii.Error from b64decode
    | AeadFailure                     // InvalidTag: wrong key or tampered blob

  /** The metadata `encrypt` returns beside the blob. */
  function MakeMetadata(lib: Libraries, kemCiphertext: Bytes, nonce: Bytes, tag: string): (m: Metadata)
    ensures m.Keys == {"kem_ciphertext", "nonce", "method"}
    ensures m["method"] == tag
    ensures Base64Sound(lib.b64) ==>
      lib.b64.decode(m["kem_ciphertext"]) == Some(kemCiphertext) && lib.b64.decode(m["nonce"]) == Some(nonce)
  {
    map["kem_ciphertext" := lib.b64.encode(kemCiphertext),
        "nonce" := lib.b64.encode(nonce),
        "method" := tag]
  }

  /** A base64 field of the metadata, with the errors reading it can raise. */
  function Field(lib: Libraries, meta: Metadata, name: string): (r: Result<Bytes, DecryptError>)
    ensures r.Ok? <==> name in meta && lib.b64.decode(meta[name]).Some?
    ensures r.Ok? ==> Some(r.value) == lib.b64.decode(meta[name])
    ensures name !in meta ==> r == Err(MissingField(name))
  {
    if name !in meta then Err(MissingField(name))
    else match lib.b64.decode(meta[name])
      case None => Err(InvalidBase64(name))
      case Some(b) => Ok(b)
  }

  // ---------------------------------------------------------------------------------------------
  // The simulated KEM

  /** `_simulated_kyber_keygen`: the private key is the seed, the public key its digest. */
  function SimKeygen(lib: Libraries, seed: Seed): (kp: (Bytes, Bytes))
    ensures |kp.1| == SeedLength && kp.1 == seed
    ensures kp.0 == lib.sha256(kp.1)
  {
    (lib.sha256(seed), seed)
  }

  /** The AES key the simulated KEM derives: the first 32 bytes of SHA-256(public key ‖ seed). */
  function SimKey(lib: Libraries, pub: Bytes, seed: Bytes): (key: Bytes)
    ensures |key| == AesKeyLength && ValidAesKey(key)
    ensures key == lib.sha256(pub + seed)
  {
    Take(lib.sha256(pub + seed), AesKeyLength)
  }

  /** `_simulated_kyber_encrypt`: blob = nonce ‖ AES-GCM ciphertext, metadata holding the seed in
      place of a KEM ciphertext, the nonce and the simulated tag. */
  function SimEncrypt(lib: Libraries, pt: Bytes, pub: Bytes, seed: Seed, nonce: Nonce)
    : (r: (Bytes, Metadata))
    ensures Take(r.0, NonceLength) == nonce
    ensures Drop(r.0, NonceLength) == lib.aes.seal(SimKey(lib, pub, seed), nonce, pt)
    ensures r.1.Keys == {"kem_ciphertext", "nonce", "method"} && r.1["method"] == SimulatedMethod
    ensures Base64Sound(lib.b64) ==>
      lib.b64.decode(r.1["kem_ciphertext"]) == Some(seed) && lib.b64.decode(r.1["nonce"]) == Some(nonce)
  {
    var key := SimKey(lib, pub, seed);
    var ciphertext := lib.aes.seal(key, nonce, pt);
    (nonce + ciphertext, MakeMetadata(lib, seed, nonce, SimulatedMethod))
  }

  /** `_simulated_kyber_decrypt`: recompute the public key as SHA-256 of the private key, rederive
      the AES key with the stored seed, and open `blob[12:]` under the stored nonce. A plaintext
      comes back only when AES-GCM authenticated it; the method tag is never read. */
  function SimDecrypt(lib: Libraries, blob: Bytes, meta: Metadata, priv: Bytes)
    : (r: Result<Bytes, DecryptError>)
    ensures r.Ok? <==>
      && Field(lib, meta, "kem_ciphertext").Ok? && Field(lib, meta, "nonce").Ok?
      && lib.aes.open(SimKey(lib, lib.sha256(priv), Field(lib, meta, "kem_ciphertext").value),
                      Field(lib, meta, "nonce").value, Drop(blob, NonceLength)).Some?
    ensures r.Ok? ==>
      Some(r.value) == lib.aes.open(SimKey(lib, lib.sha256(priv), Field(lib, meta, "kem_ciphertext").value),
                                    Field(lib, meta, "nonce").value, Drop(blob, NonceLength))
  {
    match Field(lib, meta, "kem_ciphertext")
    case Err(e) => Err(e)
    case Ok(seed) =>
      match Field(lib, meta, "nonce")
      case Err(e) => Err(e)
      case Ok(nonce) =>
        var recoveredPub := lib.sha256(priv);
        var key := SimKey(lib, recoveredPub, seed);
        match lib.aes.open(key, nonce, Drop(blob, NonceLength))
        case None => Err(AeadFailure)
        case Some(pt) => Ok(pt)
  }

  // ---------------------------------------------------------------------------------------------
  // The real KEM (liboqs), each None when its `try` block raises

  /** The body of `_real_kyber_encrypt`'s `try`: encapsulate, use the first 32 bytes of the shared
      secret as the AES key, seal, and tag the metadata as real. */
  function RealEncrypt(q: Liboqs, lib: Libraries, pt: Bytes, pub: Bytes, coins: Bytes, nonce: Nonce)
    : (r: Option<(Bytes, Metadata)>)
    ensures r.Some? ==> Take(r.value.0, NonceLength) == nonce
    ensures r.Some? ==> r.value.1.Keys == {"kem_ciphertext", "nonce", "method"} && r.value.1["method"] == RealMethod
  {
    match q.encap(pub, coins)
    case None => None
    case Some(encapsulated) =>
      var (kemCiphertext, sharedSecret) := encapsulated;
      var key := Take(sharedSecret, AesKeyLength);
      if !ValidAesKey(key) then None
      else Some((nonce + lib.aes.seal(key, nonce, pt), MakeMetadata(lib, kemCiphertext, nonce, RealMethod)))
  }

  /** The body of `_real_kyber_decrypt`'s `try`: decapsulate the stored KEM ciphertext and open
      `blob[12:]` under the stored nonce. */
  function RealDecrypt(q: Liboqs, lib: Libraries, blob: Bytes, meta: Metadata, priv: Bytes): (r: Option<Bytes>)
    ensures r.Some? ==> Field(lib, meta, "kem_ciphertext").Ok? && Field(lib, meta, "nonce").Ok?
  {
    match Field(lib, meta, "kem_ciphertext")
    case Err(_) => None
    case Ok(kemCiphertext) =>
      match Field(lib, meta, "nonce")
      case Err(_) => None
      case Ok(nonce) =>
        match q.decap(priv, kemCiphertext)
        case None => None
        case Some(sharedSecret) =>
          var key := Take(sharedSecret, AesKeyLength);
          if !ValidAesKey(key) then None else lib.aes.open(key, nonce, Drop(blob, NonceLength))
  }

  // ---------------------------------------------------------------------------------------------
  // The encryptor

  /** `HybridEncryptor`: the capability flag is resolved once, in the constructor, and every
      operation dispatches on it alone. */
  class HybridEncryptor {
    const useRealKyber: bool
    const kyberAvailable: bool
    /** The imported liboqs module; absent unless the import was attempted and succeeded. */
    const liboqs: Option<Liboqs>

    /** The flag is set exactly when the module is held, and only when its use was asked for. */
    ghost predicate Valid()
    {
      (kyberAvailable <==> liboqs.Some?) && (kyberAvailable ==> useRealKyber)
    }

    /** `probe` is the outcome of `import liboqs`: the module, or None for an `ImportError`. */
    constructor (probe: Option<Liboqs>, useRealKyber: bool := true)
      ensures this.useRealKyber == useRealKyber
      ensures kyberAvailable <==> useRealKyber && probe.Some?
      ensures liboqs == if kyberAvailable then probe else None
      ensures Valid()
    {
      this.useRealKyber := useRealKyber;
      if useRealKyber && probe.Some? {
        this.liboqs := probe;
        this.kyberAvailable := true;
      } else {
        this.liboqs := None;
        this.kyberAvailable := false;
      }
    }

    /** `_real_kyber_keygen`: liboqs keygen, or the simulated keypair when it raises. */
    method RealKyberKeygen(lib: Libraries, coins: Bytes, seed: Seed) returns (pub: Bytes, priv: Bytes)
      ensures liboqs.Some? && liboqs.value.keygen(coins).Some? ==> (pub, priv) == liboqs.value.keygen(coins).value
      ensures !(liboqs.Some? && liboqs.value.keygen(coins).Some?) ==> (pub, priv) == SimKeygen(lib, seed)
    {
      if liboqs.Some? && liboqs.value.keygen(coins).Some? {
        pub, priv := liboqs.value.keygen(coins).value.0, liboqs.value.keygen(coins).value.1;
      } else {
        pub, priv := SimKeygen(lib, seed).0, SimKeygen(lib, seed).1;
      }
    }

    /** `generate_kem_keypair`. */
    method GenerateKemKeypair(lib: Libraries, coins: Bytes, seed: Seed) returns (pub: Bytes, priv: Bytes)
      requires Valid()
      ensures !kyberAvailable ==> (pub, priv) == SimKeygen(lib, seed)
      ensures kyberAvailable ==>
        (pub, priv) == (match liboqs.value.keygen(coins) case Some(kp) => kp case None => SimKeygen(lib, seed))
      ensures (pub, priv) == SimKeygen(lib, seed) || kyberAvailable
    {
      if kyberAvailable {
        pub, priv := RealKyberKeygen(lib, coins, seed);
      } else {
        pub, priv := SimKeygen(lib, seed).0, SimKeygen(lib, seed).1;
      }
    }

    /** `_real_kyber_encrypt`: the real encryption, or the simulated one when it raises. */
    method RealKyberEncrypt(lib: Libraries, pt: Bytes, pub: Bytes, coins: Bytes, seed: Seed, nonce: Nonce)
      returns (blob: Bytes, meta: Metadata)
      ensures liboqs.Some? && RealEncrypt(liboqs.value, lib, pt, pub, coins, nonce).Some? ==>
        (blob, meta) == RealEncrypt(liboqs.value, lib, pt, pub, coins, nonce).value
      ensures !(liboqs.Some? && RealEncrypt(liboqs.value, lib, pt, pub, coins, nonce).Some?) ==>
        (blob, meta) == SimEncrypt(lib, pt, pub, seed, nonce)
    {
      var attempt := if liboqs.Some? then RealEncrypt(liboqs.value, lib, pt, pub, coins, nonce) else None;
      match attempt
      case Some(r) => blob, meta := r.0, r.1;
      case None => blob, meta := SimEncrypt(lib, pt, pub, seed, nonce).0, SimEncrypt(lib, pt, pub, seed, nonce).1;
    }

    /** `encrypt`: whichever path ran is named by the metadata's method tag, and the blob always
      starts with the nonce the metadata's nonce field encodes. */
    method Encrypt(lib: Libraries, pt: Bytes, pub: Bytes, coins: Bytes, seed: Seed, nonce: Nonce)
      returns (blob: Bytes, meta: Metadata)
      requires Valid()
      ensures !kyberAvailable ==> (blob, meta) == SimEncrypt(lib, pt, pub, seed, nonce)
      ensures kyberAvailable ==>
        (blob, meta) == (match RealEncrypt(liboqs.value, lib, pt, pub, coins, nonce)
                         case Some(r) => r case None => SimEncrypt(lib, pt, pub, seed, nonce))
      ensures meta.Keys == {"kem_ciphertext", "nonce", "method"}
      ensures meta["method"] == SimulatedMethod || meta["method"] == RealMethod
      ensures meta["method"] == RealMethod ==> kyberAvailable
      ensures Take(blob, NonceLength) == nonce
      ensures Base64Sound(lib.b64) ==> lib.b64.decode(meta["nonce"]) == Some(Take(blob, NonceLength))
    {
      if kyberAvailable {
        blob, meta := RealKyberEncrypt(lib, pt, pub, coins, seed, nonce);
      } else {
        blob, meta := SimEncrypt(lib, pt, pub, seed, nonce).0, SimEncrypt(lib, pt, pub, seed, nonce).1;
      }
      assert meta["nonce"] == lib.b64.encode(nonce);
    }

    /** `_real_kyber_decrypt`: the real decryption, or the simulated one when it raises. */
    method RealKyberDecrypt(lib: Libraries, blob: Bytes, meta: Metadata, priv: Bytes)
      returns (r: Result<Bytes, DecryptError>)
      ensures liboqs.Some? && RealDecrypt(liboqs.value, lib, blob, meta, priv).Some? ==>
        r == Ok(RealDecrypt(liboqs.value, lib, blob, meta, priv).value)
      ensures !(liboqs.Some? && RealDecrypt(liboqs.value, lib, blob, meta, priv).Some?) ==>
        r == SimDecrypt(lib, blob, meta, priv)
    {
      var attempt := if liboqs.Some? then RealDecrypt(liboqs.value, lib, blob, meta, priv) else None;
      match attempt
      case Some(pt) => r := Ok(pt);
      case None => r := SimDecrypt(lib, blob, meta, priv);
    }

    /** `decrypt`: dispatches on the instance flag, not on the metadata's method tag. */
    method Decrypt(lib: Libraries, blob: Bytes, meta: Metadata, priv: Bytes)
      returns (r: Result<Bytes, DecryptError>)
      requires Valid()
      ensures !kyberAvailable ==> r == SimDecrypt(lib, blob, meta, priv)
      ensures kyberAvailable ==>
        r == (match RealDecrypt(liboqs.value, lib, blob, meta, priv)
              case Some(pt) => Ok(pt) case None => SimDecrypt(lib, blob, meta, priv))
    {
      if kyberAvailable {
        r := RealKyberDecrypt(lib, blob, meta, priv);
      } else {
        r := SimDecrypt(lib, blob, meta, priv);
      }
    }
  }

  // ---------------------------------------------------------------------------------------------
  // Properties

  /** Simulated round trip: whoever holds a private key whose digest is the public key recovers
      the plaintext, because decryption rederives SHA-256(SHA-256(priv) ‖ seed). */
  lemma SimRoundTrip(lib: Libraries, priv: Bytes, pt: Bytes, seed: Seed, nonce: Nonce)
    requires LibrariesSound(lib)
    ensures var (blob, meta) := SimEncrypt(lib, pt, lib.sha256(priv), seed, nonce);
      SimDecrypt(lib, blob, meta, priv) == Ok(pt)
  {
    var pub := lib.sha256(priv);
    var (blob, meta) := SimEncrypt(lib, pt, pub, seed, nonce);
    var key := SimKey(lib, pub, seed);
    assert Field(lib, meta, "kem_ciphertext") == Ok(seed);
    assert Field(lib, meta, "nonce") == Ok(nonce);
    assert lib.aes.open(key, nonce, lib.aes.seal(key, nonce, pt)) == Some(pt);
  }

  /** The simulated keypair and the simulated encryption fit together. */
  lemma SimKeypairRoundTrip(lib: Libraries, keySeed: Seed, pt: Bytes, seed: Seed, nonce: Nonce)
    requires LibrariesSound(lib)
    ensures var (pub, priv) := SimKeygen(lib, keySeed);
      var (blob, meta) := SimEncrypt(lib, pt, pub, seed, nonce);
      SimDecrypt(lib, blob, meta, priv) == Ok(pt)
  {
    SimRoundTrip(lib, keySeed, pt, seed, nonce);
  }

  /** Real round trip, given only that liboqs is a correct KEM: when keygen and the real
      encryption both succeed, the real decryption recovers the plaintext. */
  lemma RealRoundTrip(q: Liboqs, lib: Libraries, kc: Bytes, ec: Bytes, pt: Bytes, nonce: Nonce)
    requires KemCorrect(q) && LibrariesSound(lib)
    requires q.keygen(kc).Some?
    requires RealEncrypt(q, lib, pt, q.keygen(kc).value.0, ec, nonce).Some?
    ensures var (blob, meta) := RealEncrypt(q, lib, pt, q.keygen(kc).value.0, ec, nonce).value;
      RealDecrypt(q, lib, blob, meta, q.keygen(kc).value.1) == Some(pt)
  {
    var (pub, priv) := q.keygen(kc).value;
    var (kemCiphertext, sharedSecret) := q.encap(pub, ec).value;
    var (blob, meta) := RealEncrypt(q, lib, pt, pub, ec, nonce).value;
    assert q.decap(priv, kemCiphertext) == Some(sharedSecret);
    var key := Take(sharedSecret, AesKeyLength);
    assert meta == MakeMetadata(lib, kemCiphertext, nonce, RealMethod);
    assert Field(lib, meta, "kem_ciphertext") == Ok(kemCiphertext);
    assert Field(lib, meta, "nonce") == Ok(nonce);
    assert Drop(blob, NonceLength) == lib.aes.seal(key, nonce, pt);
  }

  /** Both decryptions ignore the method tag: rewriting it changes nothing. */
  lemma DecryptIgnoresMethodTag(q: Liboqs, lib: Libraries, blob: Bytes, meta: Metadata, priv: Bytes, tag: string)
    ensures SimDecrypt(lib, blob, meta["method" := tag], priv) == SimDecrypt(lib, blob, meta, priv)
    ensures RealDecrypt(q, lib, blob, meta["method" := tag], priv) == RealDecrypt(q, lib, blob, meta, priv)
  {
    assert Field(lib, meta["method" := tag], "kem_ciphertext") == Field(lib, meta, "kem_ciphertext");
    assert Field(lib, meta["method" := tag], "nonce") == Field(lib, meta, "nonce");
  }

  /** The blob layout an honest pair has: the nonce the metadata records is the blob's first 12
      bytes, and what follows is the AES-GCM output decryption reads. */
  lemma HonestNonceIsBlobPrefix(lib: Libraries, pt: Bytes, pub: Bytes, seed: Seed, nonce: Nonce)
    requires Base64Sound(lib.b64)
    ensures var (blob, meta) := SimEncrypt(lib, pt, pub, seed, nonce);
      && |blob| >= NonceLength
      && Field(lib, meta, "nonce") == Ok(blob[..NonceLength])
      && blob[NonceLength..] == lib.aes.seal(SimKey(lib, pub, seed), nonce, pt)
  {
    var (blob, meta) := SimEncrypt(lib, pt, pub, seed, nonce);
    assert blob[..NonceLength] == Take(blob, NonceLength);
    assert blob[NonceLength..] == Drop(blob, NonceLength);
  }

  /** The smoke test's round trip on one encryptor: keypair, encrypt, decrypt. It recovers the
      plaintext on an encryptor without Kyber, and on one with Kyber when each real call succeeds
      and liboqs is a correct KEM. */
  method KeypairEncryptDecrypt(
    e: HybridEncryptor, lib: Libraries, pt: Bytes,
    keyCoins: Bytes, keySeed: Seed, encCoins: Bytes, seed: Seed, nonce: Nonce)
    returns (recovered: Result<Bytes, DecryptError>)
    requires e.Valid() && LibrariesSound(lib)
    requires e.kyberAvailable ==>
      var q := e.liboqs.value;
      && KemCorrect(q) && q.keygen(keyCoins).Some?
      && RealEncrypt(q, lib, pt, q.keygen(keyCoins).value.0, encCoins, nonce).Some?
    ensures recovered == Ok(pt)
  {
    var pub, priv := e.GenerateKemKeypair(lib, keyCoins, keySeed);
    var blob, meta := e.Encrypt(lib, pt, pub, encCoins, seed, nonce);
    recovered := e.Decrypt(lib, blob, meta, priv);
    if e.kyberAvailable {
      RealRoundTrip(e.liboqs.value, lib, keyCoins, encCoins, pt, nonce);
    } else {
      SimRoundTrip(lib, priv, pt, seed, nonce);
    }
  }
}
