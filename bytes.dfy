/** Byte strings, Python-style slicing and the failure wrappers the rest of the model uses. */
module Bytes {

  newtype byte = x: int | 0 <= x < 256

  type Bytes = seq<byte>

  /** The conventional Some/None datatype. */
  datatype Option<+T> = None | Some(value: T)

  /** A value or the exception the source would raise instead. */
  datatype Result<+T, +E> = Ok(value: T) | Err(error: E)

  /** Python's `s[:n]` for n >= 0: the first n elements, or all of s when it is shorter. */
  function Take<T>(s: seq<T>, n: nat): (r: seq<T>)
    ensures |r| == if n <= |s| then n else |s|
    ensures r <= s
  {
    if n <= |s| then s[..n] else s
  }

  /** Python's `s[n:]` for n >= 0: everything after the first n elements, or empty when s is shorter. */
  function Drop<T>(s: seq<T>, n: nat): (r: seq<T>)
    ensures |r| == if n <= |s| then |s| - n else 0
    ensures n <= |s| ==> Take(s, n) + r == s
  {
    if n <= |s| then s[n..] else []
  }

  /** The concatenation of a list of strings, Python's `"".join(xs)` or `b"".join(xs)`. */
  function Join<T>(xs: seq<seq<T>>): (r: seq<T>)
  {
    if xs == [] then [] else xs[0] + Join(xs[1..])
  }

  lemma {:induction false} JoinAppend<T>(xs: seq<seq<T>>, ys: seq<seq<T>>)
    ensures Join(xs + ys) == Join(xs) + Join(ys)
  {
    if xs == [] {
      assert xs + ys == ys;
    } else {
      assert (xs + ys)[1..] == xs[1..] + ys;
      JoinAppend(xs[1..], ys);
    }
  }

  /** Joining pieces of one common width loses nothing: equal joins of equally many pieces
      of width w are piece-by-piece equal. */
  lemma {:induction false} JoinInjective<T>(xs: seq<seq<T>>, ys: seq<seq<T>>, w: nat)
    requires |xs| == |ys|
    requires forall i :: 0 <= i < |xs| ==> |xs[i]| == w
    requires forall i :: 0 <= i < |ys| ==> |ys[i]| == w
    requires Join(xs) == Join(ys)
    ensures xs == ys
  {
    if xs != [] {
      var a, b := Join(xs[1..]), Join(ys[1..]);
      assert xs[0] + a == ys[0] + b;
      assert xs[0] == (xs[0] + a)[..w];
      assert ys[0] == (ys[0] + b)[..w];
      assert a == (xs[0] + a)[w..];
      assert b == (ys[0] + b)[w..];
      JoinInjective(xs[1..], ys[1..], w);
      assert xs == [xs[0]] + xs[1..];
      assert ys == [ys[0]] + ys[1..];
    }
  }
}
