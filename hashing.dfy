/** SHA-256 as an uninterpreted function, with the two stdlib encodings the source wraps around
    it written out: `hexdigest()` (lowercase hex) and `str.encode()` (UTF-8). */
module Hashing {
  import opened Bytes

  /** A SHA-256 digest: exactly 32 bytes. */
  type Digest = s: Bytes | |s| == 32 witness seq(32, _ => 0 as byte)

  /** `hashlib.sha256(m).digest()`; nothing about its internals is assumed. */
  type Hash = Bytes -> Digest

  /** Two different messages with the same digest. */
  ghost predicate IsCollision(h: Hash, a: Bytes, b: Bytes)
  {
    a != b && h(a) == h(b)
  }

  function HexChar(v: int): (c: char)
    requires 0 <= v < 16
    ensures c as int < 0x80
  {
    if v < 10 then ('0' as int + v) as char else ('a' as int + v - 10) as char
  }

  function HexByte(b: byte): (r: string)
    ensures |r| == 2
  {
    [HexChar(b as int / 16), HexChar(b as int % 16)]
  }

  /** Lowercase hexadecimal, two characters per byte, as `bytes.hex()` and `hexdigest()` write it. */
  function Hex(s: Bytes): (r: string)
    ensures |r| == 2 * |s|
  {
    if s == [] then [] else HexByte(s[0]) + Hex(s[1..])
  }

  /** `hashlib.sha256(m).hexdigest()`. */
  function HexDigest(h: Hash, m: Bytes): (r: string)
    ensures |r| == 64
    ensures IsAscii(r)
  {
    HexAscii(h(m));
    Hex(h(m))
  }

  lemma HexByteInjective(a: byte, b: byte)
    requires HexByte(a) == HexByte(b)
    ensures a == b
  {
    assert HexByte(a)[0] == HexByte(b)[0] && HexByte(a)[1] == HexByte(b)[1];
    assert a as int == (a as int / 16) * 16 + a as int % 16;
    assert b as int == (b as int / 16) * 16 + b as int % 16;
  }

  /** Hex encoding loses nothing: equal hex strings come from equal bytes. */
  lemma {:induction false} HexInjective(a: Bytes, b: Bytes)
    requires Hex(a) == Hex(b)
    ensures a == b
  {
    if a != [] {
      assert |b| == |a|;
      assert HexByte(a[0]) == Hex(a)[..2] == Hex(b)[..2] == HexByte(b[0]);
      HexByteInjective(a[0], b[0]);
      assert Hex(a[1..]) == Hex(a)[2..] == Hex(b)[2..] == Hex(b[1..]);
      HexInjective(a[1..], b[1..]);
      assert a == [a[0]] + a[1..] && b == [b[0]] + b[1..];
    }
  }

  lemma {:induction false} HexAscii(s: Bytes)
    ensures IsAscii(Hex(s))
  {
    if s != [] {
      HexAscii(s[1..]);
      assert Hex(s) == HexByte(s[0]) + Hex(s[1..]);
    }
  }

  /** Every character is a single UTF-8 byte. */
  predicate IsAscii(s: string)
  {
    forall i :: 0 <= i < |s| ==> s[i] as int < 0x80
  }

  /** The UTF-8 encoding of one Unicode scalar value. */
  function Utf8Char(c: char): (r: Bytes)
    ensures 1 <= |r| <= 4
  {
    var n := c as int;
    if n < 0x80 then [n as byte]
    else if n < 0x800 then [(0xC0 + n / 0x40) as byte, (0x80 + n % 0x40) as byte]
    else if n < 0x1_0000 then
      [(0xE0 + n / 0x1000) as byte, (0x80 + n / 0x40 % 0x40) as byte, (0x80 + n % 0x40) as byte]
    else
      [(0xF0 + n / 0x4_0000) as byte, (0x80 + n / 0x1000 % 0x40) as byte,
       (0x80 + n / 0x40 % 0x40) as byte, (0x80 + n % 0x40) as byte]
  }

  /** `s.encode()`: Python's default encoding, UTF-8. */
  function Utf8(s: string): (r: Bytes)
  {
    if s == [] then [] else Utf8Char(s[0]) + Utf8(s[1..])
  }

  /** On ASCII text UTF-8 is one byte per character, each the character's code. */
  lemma {:induction false} Utf8OfAscii(s: string)
    requires IsAscii(s)
    ensures |Utf8(s)| == |s|
    ensures forall i :: 0 <= i < |s| ==> Utf8(s)[i] as int == s[i] as int
  {
    if s != [] {
      assert s[0] as int < 0x80;
      Utf8OfAscii(s[1..]);
      assert forall i :: 1 <= i < |s| ==> s[1..][i - 1] == s[i];
    }
  }

  lemma Utf8InjectiveOnAscii(a: string, b: string)
    requires IsAscii(a) && IsAscii(b)
    requires Utf8(a) == Utf8(b)
    ensures a == b
  {
    Utf8OfAscii(a);
    Utf8OfAscii(b);
    assert forall i :: 0 <= i < |a| ==> a[i] as int == Utf8(a)[i] as int == b[i] as int;
  }

  lemma {:induction false} JoinAscii(xs: seq<string>)
    requires forall i :: 0 <= i < |xs| ==> IsAscii(xs[i])
    ensures IsAscii(Join(xs))
  {
    if xs != [] {
      JoinAscii(xs[1..]);
      assert IsAscii(xs[0]);
    }
  }
}
