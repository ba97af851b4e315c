/** Constants and C arithmetic shared by the whole model. */
module Prelude {
  datatype Option<+T> = None | Some(value: T)

  const INBUFSIZE: nat := 1024
  const PACKAGE_SIZE: nat := 10240
  const MAX_CONNECTIONS: nat := 1024
  const FILE_HASH_SEED: int := 898
  const INT_MAX: int := 0x7fff_ffff
  /** Number of values of a 64-bit `size_t`. */
  const SIZE_SPAN: int := 0x1_0000_0000_0000_0000
  /** First length that a 64-bit `off_t` cannot express. */
  const OFF_SPAN: int := 0x8000_0000_0000_0000

  type Byte = x: int | 0 <= x < 256
  type Bytes = seq<Byte>
  type Size = x: int | 0 <= x < SIZE_SPAN
  type Positive = x: int | 0 < x witness 1
  type Int32 = x: int | -0x8000_0000 <= x < 0x8000_0000

  /** Conversion of a mathematical integer to `size_t`. */
  function ToSize(x: int): Size {
    x % SIZE_SPAN
  }

  lemma CounterFits(x: int)
    requires 0 <= x < SIZE_SPAN
    ensures ToSize(x) == x
  {
  }

  lemma ToSizeAbsorbs(a: int, b: int)
    ensures ToSize(a + ToSize(b)) == ToSize(a + b)
  {
  }

  lemma ToSizeCancels(a: int, b: Size)
    ensures ToSize(a + ToSize(b - a)) == b
  {
  }

  /** Two balances in a row make one. */
  lemma ToSizeChains(total: Size, first: int, middle: Size, second: int, last: int)
    requires ToSize(first + middle) == total && ToSize(second + last) == middle
    ensures ToSize(first + second + last) == total
  {
    ToSizeAbsorbs(first, second + last);
  }

  /** Conversion of a mathematical integer to a 32-bit `int`. */
  function ToInt32(x: int): Int32 {
    (x + 0x8000_0000) % 0x1_0000_0000 - 0x8000_0000
  }

  function Min(a: int, b: int): int {
    if a < b then a else b
  }

  /** At most the first `n` elements of `s`. */
  function Take<T>(s: seq<T>, n: nat): (r: seq<T>)
    ensures |r| == Min(|s|, n)
  {
    if |s| <= n then s else s[..n]
  }

  lemma TakeTwice<T>(c: seq<T>, from: nat, n: nat, m: nat)
    requires from <= |c|
    ensures var d := Take(Take(c[from..], n), m);
            |d| <= n && from + |d| <= |c| && d == c[from..from + |d|]
  {
  }

  /** A prefix of `a + h + t` that covers `a` and `h`. */
  lemma PrefixParts<T>(c: seq<T>, a: seq<T>, h: seq<T>, t: seq<T>)
    requires c <= a + h + t && |a| + |h| <= |c|
    ensures c[..|a|] == a && c[|a|..|a| + |h|] == h
    ensures c[|a| + |h|..] == t[..|c| - |a| - |h|]
    ensures a + h + t == c + t[|c| - |a| - |h|..]
  {
    var s := a + h + t;
    assert forall k | 0 <= k < |c| :: c[k] == s[k];
  }

  lemma Regroup<T>(a: seq<T>, h: seq<T>, b: seq<T>, t: seq<T>)
    ensures a + (h + b + t) == a + h + (b + t)
  {
  }

  lemma CutInside<T>(a: seq<T>, b: seq<T>, n: nat, t: seq<T>)
    requires n <= |b|
    ensures a + (b + t) == (a + b[..n]) + (b[n..] + t)
  {
    assert b == b[..n] + b[n..];
  }

  function Flatten<T>(ss: seq<seq<T>>): seq<T> {
    if ss == [] then [] else ss[0] + Flatten(ss[1..])
  }

  lemma {:induction false} FlattenSnoc<T>(ss: seq<seq<T>>, s: seq<T>)
    ensures Flatten(ss + [s]) == Flatten(ss) + s
  {
    if ss == [] {
      assert ss + [s] == [s] && [s][1..] == [];
    } else {
      FlattenSnoc(ss[1..], s);
      assert (ss + [s])[1..] == ss[1..] + [s];
    }
  }
}
