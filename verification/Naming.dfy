/** How a 32-bit file hash becomes a path below the storage folder. */
module Naming {
  import opened Prelude

  function HexDigit(d: int): char
    requires 0 <= d < 16
  {
    "0123456789abcdef"[d]
  }

  function HexValue(c: char): int {
    if '0' <= c <= '9' then c as int - '0' as int
    else if 'a' <= c <= 'f' then c as int - 'a' as int + 10
    else 0
  }

  function Pow16(k: nat): nat {
    if k == 0 then 1 else 16 * Pow16(k - 1)
  }

  /** The last `k` hexadecimal digits of `n`, as `%0kx` prints a number of at most `k` digits. */
  function Hex(n: nat, k: nat): (s: string)
    ensures |s| == k
  {
    if k == 0 then "" else Hex(n / 16, k - 1) + [HexDigit(n % 16)]
  }

  function ParseHex(s: string): int {
    if s == "" then 0 else 16 * ParseHex(s[..|s| - 1]) + HexValue(s[|s| - 1])
  }

  /** The bits of an `int32_t` read as unsigned, which is what `%x` prints. */
  function Unsigned(h: Int32): nat {
    h % 0x1_0000_0000
  }

  /** Number of digits that `%08x` prints for a 32-bit value. */
  const DIGITS: nat := 8

  function DirOf(h: Int32): string {
    Hex(Unsigned(h), DIGITS)[..2]
  }

  function FileOf(h: Int32): string {
    Hex(Unsigned(h), DIGITS)[2..]
  }

  function PathOf(h: Int32): string {
    "./storage/" + DirOf(h) + "/" + FileOf(h)
  }

  lemma {:induction false} HexParses(n: nat, k: nat)
    requires n < Pow16(k)
    ensures ParseHex(Hex(n, k)) == n
  {
    if k > 0 {
      HexParses(n / 16, k - 1);
      var s := Hex(n, k);
      assert s[..|s| - 1] == Hex(n / 16, k - 1);
      assert HexValue(HexDigit(n % 16)) == n % 16;
    }
  }

  lemma EightDigits()
    ensures Pow16(DIGITS) == 0x1_0000_0000
  {
    assert Pow16(8) == 0x1_0000_0000;
  }

  lemma UnsignedRoundTrip(h: Int32)
    ensures Unsigned(h) < 0x1_0000_0000 && ToInt32(Unsigned(h)) == h
  {
  }

  lemma NamesSplit(h: Int32)
    ensures |DirOf(h)| == 2 && |FileOf(h)| == 6
    ensures DirOf(h) + FileOf(h) == Hex(Unsigned(h), DIGITS)
  {
  }

  /** Hexadecimal parsing of directory and file name recovers the hash: no two hashes share a name pair. */
  lemma NamesDetermineHash(h: Int32)
    ensures |DirOf(h)| == 2 && |FileOf(h)| == 6
    ensures ToInt32(ParseHex(DirOf(h) + FileOf(h))) == h
  {
    EightDigits();
    UnsignedRoundTrip(h);
    NamesSplit(h);
    HexParses(Unsigned(h), DIGITS);
  }

  lemma PathInjective(g: Int32, h: Int32)
    ensures PathOf(g) == PathOf(h) <==> g == h
  {
    NamesDetermineHash(g);
    NamesDetermineHash(h);
    if PathOf(g) == PathOf(h) {
      assert DirOf(g) == PathOf(g)[10..12] && FileOf(g) == PathOf(g)[13..19];
      assert DirOf(h) == PathOf(h)[10..12] && FileOf(h) == PathOf(h)[13..19];
    }
  }
}
