/** The sensitivity-adaptive compressor of `crypto/compression.py`: a fixed label-to-level policy
    in front of zlib, with zlib itself abstract. */
module Compression {
  import opened Bytes

  /** `zlib.compress(data, level=l)` and `zlib.decompress(data)`; `decompress` is None when zlib
      raises `zlib.error` on a malformed or truncated stream. */
  datatype Zlib = Zlib(compress: (Bytes, int) -> Bytes, decompress: Bytes -> Option<Bytes>)

  /** The one property of zlib the model relies on: at every legal level, decompression inverts
      compression exactly. */
  ghost predicate ZlibSound(z: Zlib)
  {
    forall data, level {:trigger z.compress(data, level)} ::
      -1 <= level <= 9 ==> z.decompress(z.compress(data, level)) == Some(data)
  }

  /** The policy: lower sensitivity, harder compression. */
  const SensitivityLevels: map<string, int> := map["low" := 9, "medium" := 6, "high" := 1]

  /** The label `compress` uses when the caller gives none. */
  const DefaultSensitivity: string := "medium"

  /** `ValueError` for an unknown label. */
  datatype CompressError = InvalidSensitivity(given: string)

  /** `zlib.error` for a stream that does not decode. */
  datatype DecompressError = CorruptData

  /** How sensitive a label says the data is, for stating the policy's order. */
  function Rank(name: string): (r: nat)
    requires name in SensitivityLevels
    ensures r < 3
  {
    if name == "low" then 0 else if name == "medium" then 1 else 2
  }

  /** `Compressor.compress`: reject an unknown label before touching the data, otherwise compress
      at the policy's level. */
  function Compress(z: Zlib, data: Bytes, sensitivity: string := DefaultSensitivity)
    : (r: Result<Bytes, CompressError>)
    ensures r.Err? <==> !(sensitivity == "low" || sensitivity == "medium" || sensitivity == "high")
    ensures r.Err? ==> r.error == InvalidSensitivity(sensitivity)
    ensures r.Ok? ==> r.value == z.compress(data, SensitivityLevels[sensitivity])
    ensures ZlibSound(z) && r.Ok? ==> Decompress(z, r.value) == Ok(data)
  {
    if sensitivity !in SensitivityLevels then Err(InvalidSensitivity(sensitivity))
    else
      var level := SensitivityLevels[sensitivity];
      Ok(z.compress(data, level))
  }

  /** `Compressor.decompress`. */
  function Decompress(z: Zlib, compressed: Bytes): (r: Result<Bytes, DecompressError>)
    ensures r.Err? <==> z.decompress(compressed).None?
  {
    match z.decompress(compressed)
    case None => Err(CorruptData)
    case Some(d) => Ok(d)
  }

  /** `Compressor.get_compression_ratio`, over the reals: the percentage saved, 0 for an empty
      original, and negative (not clamped) when the output grew. */
  function CompressionRatio(originalSize: int, compressedSize: int): (r: real)
    ensures originalSize == 0 ==> r == 0.0
    ensures originalSize > 0 ==> (r < 0.0 <==> compressedSize > originalSize)
    ensures originalSize > 0 ==> (r == 0.0 <==> compressedSize == originalSize)
    ensures originalSize > 0 ==> (r > 0.0 <==> compressedSize < originalSize)
    ensures originalSize > 0 && compressedSize >= 0 ==> r <= 100.0
    ensures originalSize > 0 && compressedSize == 0 ==> r == 100.0
  {
    if originalSize == 0 then 0.0
    else
      var o, c := originalSize as real, compressedSize as real;
      var q := c / o;
      RatioFacts(o, c, q);
      (1.0 - q) * 100.0
  }

  lemma RatioFacts(o: real, c: real, q: real)
    requires o != 0.0 && q == c / o
    ensures o > 0.0 ==> (q > 1.0 <==> c > o) && (q == 1.0 <==> c == o) && (q < 1.0 <==> c < o)
    ensures o > 0.0 && c == 0.0 ==> q == 0.0
  {
    assert q * o == c;
  }

  /** The policy table is exactly the three labels, strictly decreasing in level as sensitivity
      rises, with the default label at level 6. */
  lemma PolicyTable()
    ensures SensitivityLevels.Keys == {"low", "medium", "high"}
    ensures forall a, b :: a in SensitivityLevels && b in SensitivityLevels && Rank(a) < Rank(b) ==>
      SensitivityLevels[a] > SensitivityLevels[b]
    ensures DefaultSensitivity in SensitivityLevels && SensitivityLevels[DefaultSensitivity] == 6
    ensures forall name :: name in SensitivityLevels ==> 1 <= SensitivityLevels[name] <= 9
  {
  }

  /** Round trip for every accepted label, including the default one. */
  lemma CompressRoundTrip(z: Zlib, data: Bytes, sensitivity: string)
    requires ZlibSound(z)
    requires sensitivity in SensitivityLevels
    ensures Compress(z, data, sensitivity).Ok?
    ensures Decompress(z, Compress(z, data, sensitivity).value) == Ok(data)
    ensures Compress(z, data) == Compress(z, data, "medium")
  {
  }
}
