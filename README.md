# pq-cloud-migration data-protection core, modelled in Dafny

This project models the three stages the pq-cloud-migration pipeline applies to a payload before
it is stored, and proves properties of that model:

- **Compression** (`compression.dfy`, `crypto/compression.py`): the sensitivity policy
  `low → 9`, `medium → 6`, `high → 1` in front of zlib. An unknown label is rejected before anything
  is compressed. The module also has the compression-ratio report with its zero-size guard.
- **Batch hash-commitment proof** (`batch_proof.dfy`, `crypto/zkp.py`): the callers cut the payload
  into 1024-byte chunks. Each chunk gets a SHA-256 hex commitment. A proof stores a root over the
  joined commitments, the count and the first three commitments. `verify` recomputes all three and
  fails closed: it returns false instead of raising.
- **Hybrid KEM + AEAD encryptor** (`hybrid.dfy`, `crypto/hybrid.py`): the class
  `HybridEncryptor`. Its availability flag is resolved once, in the constructor. It has a
  simulated KEM (public key = SHA-256(private key), AES key = SHA-256(pub ‖ seed)) and the liboqs
  Kyber512 path. Each real call falls back to the simulated path when it raises.

Support modules:

- `bytes.dfy`: bytes, Python slicing (`Take`, `Drop`), `"".join` and Option/Result.
- `hashing.dfy`: SHA-256 as an arbitrary function into 32-byte digests. It also writes out
  `hexdigest()` and `str.encode()` (UTF-8), with injectivity lemmas.
- `json.dfy`: JSON values and `json` as an abstract codec.

The foreign libraries are function-valued parameters: SHA-256, AES-GCM, zlib, json, base64 and
liboqs. A theorem holds for every library that meets the stated assumptions:

- `ZlibSound`: decompress inverts compress.
- `JsonSound`: `loads(dumps(v)) == Some(v)`, and the empty document does not parse.
- `AeadSound`: open-after-seal returns the plaintext.
- `Base64Sound`: decode-after-encode returns the bytes.
- `KemCorrect`: decapsulation recovers the encapsulated secret.

Nothing is assumed about SHA-256. Tamper detection is stated as "a different chunk list that
still verifies yields a SHA-256 collision". `os.urandom` draws are method parameters.

Where the code and the design disagree, the model follows the code:

- `decrypt` picks its path from the instance flag `kyber_available`, not from the metadata's
  `method` tag (the design asks for the tag).
- The real decryption path falls back to the simulated one on any exception.
- In `verify`, Python compares `len(commitments)` to the stored count with `==`. That makes a
  stored JSON `true` equal to a count of 1 (`Json.IntEquals`), and the model keeps this.

## Model

| member | source | states |
|---|---|---|
| `Compression.Compress` | pq-cloud-migration/crypto/compression.py:23-39 | fails with `InvalidSensitivity` exactly when the label is not one of `low`/`medium`/`high`; otherwise compresses at the policy level; under a sound codec the output decompresses back to the input |
| `Compression.Decompress` | pq-cloud-migration/crypto/compression.py:41-51 | fails with `CorruptData` exactly when the codec rejects the stream |
| `Compression.CompressionRatio` | pq-cloud-migration/crypto/compression.py:53-57 | 0 for original size 0; otherwise negative iff the output grew, 0 iff equal, positive iff it shrank, never clamped; 100 for empty output |
| `Compression.PolicyTable` | pq-cloud-migration/crypto/compression.py:17-21 | the accepted labels are exactly the three; levels strictly decrease as sensitivity rises; the default `medium` maps to 6; all levels are in 1..9 |
| `Compression.CompressRoundTrip` | pq-cloud-migration/crypto/compression.py:23-51 | for every accepted label, including the default, decompress(compress(d, s)) == d |
| `BatchProof.Chunks` | pq-cloud-migration/tests/smoke_test.py:28 | the caller-side slicing yields ceil(len/1024) slices, the k-th being `c[1024k : 1024k+1024]` |
| `BatchProof.ChunksTile` | pq-cloud-migration/tests/smoke_test.py:28 | the chunks join back to the input; each is non-empty and at most 1024 bytes; all but the last are exactly 1024; there are chunks iff the input is non-empty |
| `BatchProof.CommitmentList` | pq-cloud-migration/crypto/zkp.py:28-42 | one commitment per chunk, the i-th being the SHA-256 hex digest of chunk i |
| `BatchProof.Commitments` | pq-cloud-migration/crypto/zkp.py:38-42 | the append loop returns exactly the per-chunk digests, in order |
| `BatchProof.MakeProof` | pq-cloud-migration/crypto/zkp.py:44-77 | empty bytes for no commitments; otherwise a non-empty artifact that parses back to the record holding the root over the joined commitments, the count and the first min(3, n) commitments |
| `BatchProof.HonestRecord` | pq-cloud-migration/crypto/zkp.py:61-71 | the record's root is the digest of the joined commitments, its count their number, its prefix the first min(3, n) of them in order, and its tag `compressed_batch_merkle_lwesim` |
| `BatchProof.Verify` | pq-cloud-migration/crypto/zkp.py:79-120 | true iff the chunks and the proof are non-empty, the proof parses to an object and its root, `num_commitments` and `commitment_hashes` all match the recomputed ones; any exception is false |
| `BatchProof.VerifyComplete` | pq-cloud-migration/crypto/zkp.py:99-117 | a proof made from a non-empty chunk list's own commitments verifies against that list |
| `BatchProof.HonestFieldsMatch` | pq-cloud-migration/crypto/zkp.py:105-115 | the honest record's root, count and prefix fields match a candidate commitment list exactly when the root, the length and the first three commitments agree |
| `BatchProof.VerifyHonestProof` | pq-cloud-migration/crypto/zkp.py:99-117 | against the proof made from commitments `cs`, a candidate chunk list verifies if and only if it is non-empty and has the same root, the same length and the same first three commitments |
| `BatchProof.RootCollision` | pq-cloud-migration/crypto/zkp.py:99-103 | two different chunk lists of the same length with the same root yield two different messages with the same SHA-256 digest |
| `BatchProof.TamperYieldsCollision` | pq-cloud-migration/crypto/zkp.py:99-111 | a chunk list different from the committed one that still verifies exhibits two different messages with the same SHA-256 digest |
| `BatchProof.BatchCommit` | pq-cloud-migration/crypto/zkp.py:122-135 | returns the per-chunk digests in order and the proof made from them |
| `BatchProof.BatchCommitVerifies` | pq-cloud-migration/crypto/zkp.py:133-135 | the proof `batch_commit` returns verifies against the same chunks iff there is at least one, and is empty iff there is none |
| `BatchProof.ProofSizeInfo` | pq-cloud-migration/crypto/zkp.py:137-158 | always reports the proof's byte length; an unparsable proof gives the degraded length-only report |
| `BatchProof.ProofSizeInfoOfHonestProof` | pq-cloud-migration/crypto/zkp.py:147-158 | an honest proof's report carries its count and tag; the empty proof's report is the degraded one |
| `BatchProof.ChunkedPayloadVerifies` | pq-cloud-migration/tests/smoke_test.py:27-45 | chunk, commit, prove: the chunks rebuild the payload, the proof verifies iff the payload is non-empty, and it counts ceil(len/1024) commitments |
| `Hybrid.HybridEncryptor.constructor` | pq-cloud-migration/crypto/hybrid.py:20-40 | the flag is set iff real Kyber was asked for and the import succeeded; the module is held exactly then |
| `Hybrid.HybridEncryptor.GenerateKemKeypair` | pq-cloud-migration/crypto/hybrid.py:42-52 | without the flag, the simulated keypair; with it, liboqs's keypair or, when that raises, the simulated one |
| `Hybrid.HybridEncryptor.RealKyberKeygen` | pq-cloud-migration/crypto/hybrid.py:54-63 | liboqs's keypair when it succeeds, the simulated keypair otherwise |
| `Hybrid.SimKeygen` | pq-cloud-migration/crypto/hybrid.py:65-74 | the private key is the 32-byte seed and the public key is its SHA-256 digest |
| `Hybrid.HybridEncryptor.Encrypt` | pq-cloud-migration/crypto/hybrid.py:76-90 | dispatches on the flag alone; the metadata has exactly the keys `kem_ciphertext`, `nonce`, `method`; the tag is the simulated or the real one, the real one only with the flag; the blob starts with the nonce the metadata encodes |
| `Hybrid.HybridEncryptor.RealKyberEncrypt` | pq-cloud-migration/crypto/hybrid.py:92-114 | the real encryption when it succeeds, the simulated one otherwise |
| `Hybrid.RealEncrypt` | pq-cloud-migration/crypto/hybrid.py:94-111 | when it succeeds: the blob starts with the nonce and the metadata has the three keys with the tag `Kyber512+AES256GCM` |
| `Hybrid.MakeMetadata` | pq-cloud-migration/crypto/hybrid.py:134-138 | exactly the keys `kem_ciphertext`, `nonce`, `method`; the two base64 fields decode back to the KEM material and the nonce |
| `Hybrid.SimKey` | pq-cloud-migration/crypto/hybrid.py:122-127 | the simulated AES key is the 32-byte SHA-256 of public key ‖ seed, a valid AES-256 key |
| `Hybrid.SimEncrypt` | pq-cloud-migration/crypto/hybrid.py:116-139 | blob = nonce ‖ AES-GCM(SHA-256(pub ‖ seed), nonce, pt); metadata has the three keys, the simulated tag, and fields that decode to the seed and the nonce |
| `Hybrid.HybridEncryptor.Decrypt` | pq-cloud-migration/crypto/hybrid.py:141-156 | dispatches on the flag, not on the metadata tag; with the flag, the real result, or the simulated one when the real path raises |
| `Hybrid.HybridEncryptor.RealKyberDecrypt` | pq-cloud-migration/crypto/hybrid.py:158-177 | the real decryption when it succeeds, the simulated one otherwise |
| `Hybrid.RealDecrypt` | pq-cloud-migration/crypto/hybrid.py:160-174 | succeeds only when both metadata fields are present and decode |
| `Hybrid.Field` | pq-cloud-migration/crypto/hybrid.py:184-185 | a missing key is `MissingField`; a present key succeeds iff its base64 decodes, giving the decoded bytes |
| `Hybrid.SimDecrypt` | pq-cloud-migration/crypto/hybrid.py:179-199 | returns a plaintext iff both fields decode and AES-GCM opens `blob[12:]` under SHA-256(SHA-256(priv) ‖ seed) and the stored nonce, and then exactly what AES-GCM returned |
| `Hybrid.SimRoundTrip` | pq-cloud-migration/crypto/hybrid.py:184-199 | if the public key is SHA-256 of the private key, simulated decryption of a simulated encryption returns the plaintext |
| `Hybrid.SimKeypairRoundTrip` | pq-cloud-migration/crypto/hybrid.py:65-139 | a simulated keypair and a simulated encryption under its public key decrypt back to the plaintext |
| `Hybrid.RealRoundTrip` | pq-cloud-migration/crypto/hybrid.py:92-174 | with a correct KEM, a successful real keygen and real encryption decrypt back to the plaintext on the real path |
| `Hybrid.DecryptIgnoresMethodTag` | pq-cloud-migration/crypto/hybrid.py:141-199 | rewriting the metadata's `method` changes neither the simulated nor the real decryption |
| `Hybrid.HonestNonceIsBlobPrefix` | pq-cloud-migration/crypto/hybrid.py:131-139 | for an honest pair, the metadata nonce is `blob[:12]` and `blob[12:]` is the AES-GCM output |
| `Hybrid.KeypairEncryptDecrypt` | pq-cloud-migration/tests/smoke_test.py:33-40 | keypair, encrypt, decrypt on one encryptor recovers the plaintext: always without the flag, and with it when every real call succeeds under a correct KEM |

## Left out

- SHA-256, AES-GCM, zlib, `json`, base64 and liboqs are foreign library code. They are
  abstract functions with only the assumptions above. `hexdigest()` and `str.encode()` are
  written out.
- The real Kyber512 path: only its dispatch, its fallback and its metadata shape are modelled.
  What liboqs computes and why it raises are not.
- `os.urandom`: the keygen seed, the encapsulation seed, the nonce and liboqs's randomness are
  parameters. When a real encryption falls back after drawing its nonce, the model reuses that
  nonce for the simulated path, where the source draws a fresh one. That nonce is never seen.
- `print` logging is output only.
- `BatchProof.ProofSizeInfo`: omits the `compression_ratio` float of the full report. Whether that
  division would raise still decides between the full and the degraded report.
- `Compression.CompressionRatio`: computed over exact reals, not IEEE doubles.
- `Json.Json`: has no floating-point numbers, and no `NaN` or `Infinity`. So a stored count of
  `1.0`, which Python treats as equal to 1, is outside the model.
- `Hybrid.AeadSound`: only assumes round trips for 12-byte nonces and valid key lengths. It
  assumes nothing about integrity. So a tampered blob is shown to fail only in this form: no
  plaintext comes back unless AES-GCM returned one (`Hybrid.SimDecrypt`).
- The AES-GCM `ValueError` for an unusable nonce is folded into `AeadFailure`, with `InvalidTag`.
- The HTTP and Streamlit front-ends, the benchmark harnesses and the plotting scripts only call
  this core. They are not part of this model.
