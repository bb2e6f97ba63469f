/** The batch hash-commitment proof of `crypto/zkp.py` (class `BatchZKP`), with the 1024-byte
    chunking every caller applies before it. SHA-256 and `json` are abstract. */
module BatchProof {
  import opened Bytes
  import opened Hashing
  import opened Json

  /** `BatchZKP.CHUNK_SIZE`, and the width of the slices the callers cut. */
  const ChunkSize: nat := 1024

  /** How many commitments a proof discloses in clear. */
  const PrefixLength: nat := 3

  /** The `proof_type` tag written into every proof. */
  const ProofType: string := "compressed_batch_merkle_lwesim"

  // ---------------------------------------------------------------------------------------------
  // Chunking

  /** The k-th slice the callers cut, `c[i:i+1024]` for `i = 1024 * k`. */
  function ChunkAt(c: Bytes, k: nat): (r: Bytes)
    ensures |r| <= ChunkSize
  {
    Take(Drop(c, k * ChunkSize), ChunkSize)
  }

  /** `[c[i:i+1024] for i in range(0, len(c), 1024)]`. */
  function Chunks(c: Bytes): (r: seq<Bytes>)
    ensures |r| == (|c| + ChunkSize - 1) / ChunkSize
    ensures forall k :: 0 <= k < |r| ==> r[k] == ChunkAt(c, k)
  {
    seq((|c| + ChunkSize - 1) / ChunkSize, k requires 0 <= k => ChunkAt(c, k))
  }

  /** Cutting off the first chunk leaves the chunks of the rest. */
  lemma ChunksUnfold(c: Bytes)
    requires |c| > ChunkSize
    ensures Chunks(c) == [c[..ChunkSize]] + Chunks(c[ChunkSize..])
  {
    var rest := c[ChunkSize..];
    var n := |Chunks(rest)|;
    assert |Chunks(c)| == n + 1;
    forall k | 0 <= k < n
      ensures Chunks(c)[k + 1] == Chunks(rest)[k]
    {
      var i := k * ChunkSize;
      assert (k + 1) * ChunkSize == ChunkSize + i;
      if ChunkSize + i <= |c| {
        assert c[ChunkSize + i..] == rest[i..];
      }
      assert Drop(rest, i) == Drop(c, (k + 1) * ChunkSize);
    }
    assert Chunks(c)[0] == c[..ChunkSize];
  }

  /** The chunks tile the input: nothing lost, nothing reordered, every chunk non-empty and at
      most 1024 bytes, every chunk but the last exactly 1024 bytes, and ceil(|c| / 1024) of them. */
  lemma {:induction false} ChunksTile(c: Bytes)
    ensures Join(Chunks(c)) == c
    ensures |Chunks(c)| == (|c| + ChunkSize - 1) / ChunkSize
    ensures forall k :: 0 <= k < |Chunks(c)| ==> 0 < |Chunks(c)[k]| <= ChunkSize
    ensures forall k :: 0 <= k < |Chunks(c)| - 1 ==> |Chunks(c)[k]| == ChunkSize
    ensures c != [] <==> Chunks(c) != []
    decreases |c|
  {
    if |c| == 0 {
      assert Chunks(c) == [];
    } else if |c| <= ChunkSize {
      assert ChunkAt(c, 0) == c;
      assert Chunks(c) == [c];
    } else {
      var rest := c[ChunkSize..];
      ChunksUnfold(c);
      ChunksTile(rest);
      assert Chunks(c)[1..] == Chunks(rest);
      assert forall k :: 1 <= k < |Chunks(c)| ==> Chunks(c)[k] == Chunks(rest)[k - 1];
      assert c == c[..ChunkSize] + rest;
    }
  }

  // ---------------------------------------------------------------------------------------------
  // Commitments

  /** The commitment to one chunk: its SHA-256 hex digest. */
  function Commitment(h: Hash, chunk: Bytes): (r: string)
    ensures |r| == 64 && IsAscii(r)
  {
    HexDigest(h, chunk)
  }

  /** What `BatchZKP.commitments` returns: one digest per chunk, in chunk order. */
  function CommitmentList(h: Hash, chunks: seq<Bytes>): (r: seq<string>)
    ensures |r| == |chunks|
    ensures forall i :: 0 <= i < |chunks| ==> r[i] == Commitment(h, chunks[i])
  {
    if chunks == [] then []
    else CommitmentList(h, chunks[..|chunks| - 1]) + [Commitment(h, chunks[|chunks| - 1])]
  }

  /** `BatchZKP.commitments`: the loop that appends one digest per chunk. */
  method Commitments(h: Hash, chunks: seq<Bytes>) returns (cs: seq<string>)
    ensures cs == CommitmentList(h, chunks)
  {
    cs := [];
    for i := 0 to |chunks|
      invariant cs == CommitmentList(h, chunks[..i])
    {
      assert chunks[..i + 1][..i] == chunks[..i];
      cs := cs + [Commitment(h, chunks[i])];
    }
    assert chunks[..|chunks|] == chunks;
  }

  // ---------------------------------------------------------------------------------------------
  // The proof artifact

  /** The record `make_proof` serialises. */
  datatype ProofRecord = ProofRecord(
    root: string,
    numCommitments: int,
    commitmentHashes: seq<string>,
    proofType: string)

  /** The record as the JSON object `json.dumps` is given. */
  function ToJson(p: ProofRecord): (v: Json)
    ensures v.JObj? && v.fields.Keys == {"root", "num_commitments", "commitment_hashes", "proof_type"}
    ensures v.fields["root"] == JStr(p.root)
    ensures v.fields["num_commitments"] == JInt(p.numCommitments)
    ensures v.fields["commitment_hashes"] == JArr(Strings(p.commitmentHashes))
    ensures v.fields["proof_type"] == JStr(p.proofType)
  {
    JObj(map[
      "root" := JStr(p.root),
      "num_commitments" := JInt(p.numCommitments),
      "commitment_hashes" := JArr(Strings(p.commitmentHashes)),
      "proof_type" := JStr(p.proofType)])
  }

  /** The aggregate root: the hex digest of the UTF-8 bytes of all commitments joined in order. */
  function Root(h: Hash, cs: seq<string>): (r: string)
    ensures |r| == 64
  {
    HexDigest(h, Utf8(Join(cs)))
  }

  /** The record an honest proof of `cs` holds. */
  function HonestRecord(h: Hash, cs: seq<string>): (p: ProofRecord)
    ensures p.root == Root(h, cs) && p.numCommitments == |cs| && p.proofType == ProofType
    ensures |p.commitmentHashes| == if |cs| < PrefixLength then |cs| else PrefixLength
    ensures forall i :: 0 <= i < |p.commitmentHashes| ==> p.commitmentHashes[i] == cs[i]
  {
    ProofRecord(Root(h, cs), |cs|, Take(cs, PrefixLength), ProofType)
  }

  /** `BatchZKP.make_proof`: empty for no commitments, otherwise the serialised honest record. */
  function MakeProof(h: Hash, j: JsonCodec, cs: seq<string>): (proof: Bytes)
    ensures cs == [] ==> proof == []
    ensures JsonSound(j) && cs != [] ==> proof != [] && j.loads(proof) == Some(ToJson(HonestRecord(h, cs)))
  {
    if cs == [] then [] else j.dumps(ToJson(HonestRecord(h, cs)))
  }

  // ---------------------------------------------------------------------------------------------
  // Verification

  /** How the `try` block of `verify` ends: a `return`, or an exception. */
  datatype Outcome = Returned(b: bool) | Raised

  /** The `try` block of `BatchZKP.verify`, check by check, with the exceptions Python would raise:
      an undecodable or unparsable proof, a document that is not an object, a missing key. */
  function VerifyTry(h: Hash, j: JsonCodec, chunks: seq<Bytes>, proof: Bytes): Outcome
  {
    match j.loads(proof)
    case None => Raised
    case Some(data) =>
      var cs := CommitmentList(h, chunks);
      var recomputedRoot := Root(h, cs);
      if !data.JObj? then Raised
      else if "root" !in data.fields then Raised
      else if data.fields["root"] != JStr(recomputedRoot) then Returned(false)
      else if "num_commitments" !in data.fields then Raised
      else if !IntEquals(|cs|, data.fields["num_commitments"]) then Returned(false)
      else if Get(data.fields, "commitment_hashes", JArr([])) != JArr(Strings(Take(cs, PrefixLength))) then
        Returned(false)
      else Returned(true)
  }

  /** The three stored fields a parsed proof must agree with: root, count and disclosed prefix. */
  predicate FieldsMatch(h: Hash, data: Json, cs: seq<string>)
  {
    && data.JObj?
    && "root" in data.fields && data.fields["root"] == JStr(Root(h, cs))
    && "num_commitments" in data.fields && IntEquals(|cs|, data.fields["num_commitments"])
    && "commitment_hashes" in data.fields
    && data.fields["commitment_hashes"] == JArr(Strings(Take(cs, PrefixLength)))
  }

  /** `BatchZKP.verify`: false for an empty proof or no chunks, false on any exception, and
      otherwise true exactly when root, count and prefix all match the recomputed commitments. */
  function Verify(h: Hash, j: JsonCodec, chunks: seq<Bytes>, proof: Bytes): (ok: bool)
    ensures ok <==>
      && chunks != [] && proof != []
      && j.loads(proof).Some? && FieldsMatch(h, j.loads(proof).value, CommitmentList(h, chunks))
  {
    if proof == [] || chunks == [] then false
    else
      var outcome := VerifyTry(h, j, chunks, proof);
      assert |Strings(Take(CommitmentList(h, chunks), PrefixLength))| > 0;
      match outcome
      case Raised => false
      case Returned(b) => b
  }

  /** Completeness: the proof made from a non-empty chunk list's own commitments verifies. */
  lemma VerifyComplete(h: Hash, j: JsonCodec, chunks: seq<Bytes>)
    requires JsonSound(j)
    requires chunks != []
    ensures Verify(h, j, chunks, MakeProof(h, j, CommitmentList(h, chunks)))
  {
    var cs := CommitmentList(h, chunks);
    var v := ToJson(HonestRecord(h, cs));
    assert Take(cs, PrefixLength) == HonestRecord(h, cs).commitmentHashes;
    assert FieldsMatch(h, v, cs);
  }

  /** The honest record's fields match a candidate list of commitments exactly when its root,
      its length and its first three entries agree with the committed ones. */
  lemma HonestFieldsMatch(h: Hash, cs: seq<string>, fs: seq<string>)
    ensures FieldsMatch(h, ToJson(HonestRecord(h, cs)), fs) <==>
      && Root(h, fs) == Root(h, cs)
      && |fs| == |cs|
      && Take(fs, PrefixLength) == Take(cs, PrefixLength)
  {
    var v := ToJson(HonestRecord(h, cs));
    assert v.fields["root"] == JStr(Root(h, cs));
    assert v.fields["num_commitments"] == JInt(|cs|);
    assert v.fields["commitment_hashes"] == JArr(Strings(Take(cs, PrefixLength)));
    if Strings(Take(fs, PrefixLength)) == Strings(Take(cs, PrefixLength)) {
      StringsInjective(Take(fs, PrefixLength), Take(cs, PrefixLength));
    }
  }

  /** Against the proof made from commitments `cs`, `verify` checks exactly three equalities
      between the candidate chunks' commitments and `cs`: the root, the count and the first three. */
  lemma VerifyHonestProof(h: Hash, j: JsonCodec, cs: seq<string>, candidate: seq<Bytes>)
    requires JsonSound(j)
    requires cs != []
    ensures Verify(h, j, candidate, MakeProof(h, j, cs)) <==>
      && candidate != []
      && Root(h, CommitmentList(h, candidate)) == Root(h, cs)
      && |candidate| == |cs|
      && Take(CommitmentList(h, candidate), PrefixLength) == Take(cs, PrefixLength)
  {
    var proof := MakeProof(h, j, cs);
    var v := ToJson(HonestRecord(h, cs));
    assert proof != [] && j.loads(proof) == Some(v);
    HonestFieldsMatch(h, cs, CommitmentList(h, candidate));
  }

  lemma StringsInjective(xs: seq<string>, ys: seq<string>)
    requires Strings(xs) == Strings(ys)
    ensures xs == ys
  {
    assert |xs| == |ys|;
    assert forall i :: 0 <= i < |xs| ==> JStr(xs[i]) == Strings(xs)[i] == Strings(ys)[i] == JStr(ys[i]);
  }

  /** Binding of the root: two different chunk lists of the same length with the same root give a
      SHA-256 collision, either between the joined commitments or between two chunks. */
  lemma RootCollision(h: Hash, chunks: seq<Bytes>, forged: seq<Bytes>) returns (a: Bytes, b: Bytes)
    requires forged != chunks
    requires |forged| == |chunks|
    requires Root(h, CommitmentList(h, forged)) == Root(h, CommitmentList(h, chunks))
    ensures IsCollision(h, a, b)
  {
    var cs, fs := CommitmentList(h, chunks), CommitmentList(h, forged);
    var mc, mf := Utf8(Join(cs)), Utf8(Join(fs));
    HexInjective(h(mf), h(mc));
    if mf != mc {
      return mf, mc;
    }
    JoinAscii(cs);
    JoinAscii(fs);
    Utf8InjectiveOnAscii(Join(fs), Join(cs));
    JoinInjective(fs, cs, 64);
    var i :| 0 <= i < |chunks| && forged[i] != chunks[i];
    assert Commitment(h, forged[i]) == fs[i] == cs[i] == Commitment(h, chunks[i]);
    HexInjective(h(forged[i]), h(chunks[i]));
    return forged[i], chunks[i];
  }

  /** Tamper detection: a chunk list other than the committed one that still verifies against
      the committed proof exhibits a SHA-256 collision. */
  lemma TamperYieldsCollision(h: Hash, j: JsonCodec, chunks: seq<Bytes>, forged: seq<Bytes>)
    returns (a: Bytes, b: Bytes)
    requires JsonSound(j)
    requires chunks != []
    requires forged != chunks
    requires Verify(h, j, forged, MakeProof(h, j, CommitmentList(h, chunks)))
    ensures IsCollision(h, a, b)
  {
    VerifyHonestProof(h, j, CommitmentList(h, chunks), forged);
    a, b := RootCollision(h, chunks, forged);
  }

  /** `BatchZKP.batch_commit`: the chunks' commitments, in order, and the proof made from them. */
  function BatchCommit(h: Hash, j: JsonCodec, chunks: seq<Bytes>): (r: (seq<string>, Bytes))
    ensures |r.0| == |chunks|
    ensures forall i :: 0 <= i < |chunks| ==> r.0[i] == Commitment(h, chunks[i])
    ensures r.1 == MakeProof(h, j, r.0)
  {
    var cs := CommitmentList(h, chunks);
    (cs, MakeProof(h, j, cs))
  }

  /** What `batch_commit` hands out verifies against the same chunks whenever there is one;
      for no chunks it is the empty proof, which never verifies. */
  lemma BatchCommitVerifies(h: Hash, j: JsonCodec, chunks: seq<Bytes>)
    requires JsonSound(j)
    ensures Verify(h, j, chunks, BatchCommit(h, j, chunks).1) <==> chunks != []
    ensures BatchCommit(h, j, chunks).1 == [] <==> chunks == []
  {
    if chunks != [] {
      VerifyComplete(h, j, chunks);
    }
  }

  // ---------------------------------------------------------------------------------------------
  // Size report

  /** What `get_proof_size_info` reports. The `compression_ratio` float of the full report is not
      modelled; its computation still decides which of the two reports comes back. */
  datatype SizeInfo =
    | Degraded(proofBytes: nat)
    | Detailed(proofBytes: nat, numCommitments: Json, proofType: Json)

  /** Whether `len(proof) / (32 * n)` raises for the parsed `num_commitments` value `n`:
      a zero divisor, or a value that does not multiply into a number. */
  predicate RatioRaises(n: Json)
  {
    match n
    case JInt(i) => i == 0
    case JBool(b) => !b
    case _ => true
  }

  /** `BatchZKP.get_proof_size_info`. */
  function ProofSizeInfo(j: JsonCodec, proof: Bytes): (r: SizeInfo)
    ensures r.proofBytes == |proof|
    ensures j.loads(proof).None? ==> r == Degraded(|proof|)
    ensures r.Detailed? ==> j.loads(proof).Some? && j.loads(proof).value.JObj?
  {
    match j.loads(proof)
    case None => Degraded(|proof|)
    case Some(data) =>
      if !data.JObj? then Degraded(|proof|)
      else
        var count := Get(data.fields, "num_commitments", JInt(0));
        var kind := Get(data.fields, "proof_type", JStr("unknown"));
        if RatioRaises(Get(data.fields, "num_commitments", JInt(1))) then Degraded(|proof|)
        else Detailed(|proof|, count, kind)
  }

  /** The size report of an honest proof carries its count and tag; that of the empty proof is
      the degraded one. */
  lemma ProofSizeInfoOfHonestProof(h: Hash, j: JsonCodec, cs: seq<string>)
    requires JsonSound(j)
    ensures cs != [] ==>
      var proof := MakeProof(h, j, cs);
      ProofSizeInfo(j, proof) == Detailed(|proof|, JInt(|cs|), JStr(ProofType))
    ensures cs == [] ==> ProofSizeInfo(j, MakeProof(h, j, cs)) == Degraded(0)
  {
  }

  /** The pipeline's use of this module: cut a payload into chunks, commit, prove, and verify.
      The proof counts ceil(|payload| / 1024) commitments and verifies exactly when the payload is
      non-empty. */
  lemma ChunkedPayloadVerifies(h: Hash, j: JsonCodec, payload: Bytes)
    requires JsonSound(j)
    ensures var chunks := Chunks(payload);
      var proof := MakeProof(h, j, CommitmentList(h, chunks));
      && Join(chunks) == payload
      && (Verify(h, j, chunks, proof) <==> payload != [])
      && (payload != [] ==>
            ProofSizeInfo(j, proof).numCommitments == JInt((|payload| + ChunkSize - 1) / ChunkSize))
  {
    var chunks := Chunks(payload);
    ChunksTile(payload);
    if payload != [] {
      VerifyComplete(h, j, chunks);
      ProofSizeInfoOfHonestProof(h, j, CommitmentList(h, chunks));
    }
  }
}
