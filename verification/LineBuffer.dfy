/** The line buffer of a session: cutting one line off the front of a fixed array. */
module LineBuffer {
  import opened Prelude

  const NUL: char := '\0'

  /** `strchr`: index of the first `c` before any NUL, or -1. */
  function StrChr(s: string, c: char): (i: int)
    ensures -1 <= i < |s|
  {
    if s == "" || (s[0] == NUL && c != NUL) then -1
    else if s[0] == c then 0
    else
      var j := StrChr(s[1..], c);
      if j < 0 then -1 else j + 1
  }

  /** The part of `s` that C string functions see. */
  function CStr(s: string): string {
    if s == "" || s[0] == NUL then "" else [s[0]] + CStr(s[1..])
  }

  predicate NoNul(s: string) {
    NUL !in s
  }

  lemma {:induction false} CStrWhole(s: string)
    requires NoNul(s)
    ensures CStr(s) == s
  {
    if s != "" {
      CStrWhole(s[1..]);
    }
  }

  /** `StrChr` stops at the first index that holds `c` or a NUL. */
  lemma {:induction false} StrChrAt(s: string, c: char, i: nat)
    requires i <= |s| && c != NUL
    requires forall k | 0 <= k < i :: s[k] != c && s[k] != NUL
    requires i < |s| ==> s[i] == c || s[i] == NUL
    ensures StrChr(s, c) == if i < |s| && s[i] == c then i else -1
  {
    if i > 0 {
      StrChrAt(s[1..], c, i - 1);
    }
  }

  lemma {:induction false} StrChrFinds(s: string, c: char)
    requires c != NUL && NoNul(s)
    ensures var i := StrChr(s, c);
            && (i >= 0 ==> s[i] == c && c !in s[..i])
            && (i < 0 ==> c !in s)
  {
    if s != "" && s[0] != c {
      StrChrFinds(s[1..], c);
      var j := StrChr(s[1..], c);
      assert s == [s[0]] + s[1..];
      if j >= 0 {
        assert s[..j + 1] == [s[0]] + s[1..][..j];
      }
    }
  }

  // ----- one extraction -----

  /** The characters that one extraction removes from the buffer. */
  function Raw(s: string): string {
    var p := StrChr(s, '\n');
    if p < 0 then s else s[..p + 1]
  }

  /** A line that ends in CR LF loses the CR. */
  function Chomp(raw: string): string {
    var n := |raw|;
    if n >= 2 && raw[n - 1] == '\n' && raw[n - 2] == '\r' then raw[..n - 2] + "\n" else raw
  }

  /** The line handed out. */
  function LineOf(s: string): string {
    Chomp(CStr(Raw(s)))
  }

  /** What stays in the buffer. */
  function Rest(s: string): string {
    s[|Raw(s)|..]
  }

  lemma {:induction false} CStrPrefix(s: string, n: nat)
    requires n <= |s| && NUL !in s[..n] && (n < |s| ==> s[n] == NUL)
    ensures CStr(s) == s[..n]
  {
    if n > 0 {
      assert s[0] == s[..n][0];
      assert s[1..][..n - 1] == s[..n][1..];
      CStrPrefix(s[1..], n - 1);
    }
  }

  lemma LineAt(s: string, i: nat)
    requires i < |s| && StrChr(s, '\n') == i && s[i] == '\n' && NUL !in s[..i]
    ensures LineOf(s) == Chomp(s[..i + 1]) && Rest(s) == s[i + 1..]
  {
    assert s[..i + 1] == s[..i] + "\n";
    CStrWhole(s[..i + 1]);
  }

  lemma LineWithout(s: string, i: nat)
    requires i <= |s| && StrChr(s, '\n') < 0 && (i < |s| ==> s[i] == NUL)
    requires NUL !in s[..i] && '\n' !in s[..i]
    ensures LineOf(s) == s[..i] && Rest(s) == ""
  {
    CStrPrefix(s, i);
  }

  /** The search for the end of the line: stops at a newline or at a NUL. */
  method FindLineEnd(buf: array<char>, used: nat) returns (i: nat)
    requires used < buf.Length && buf[used] == NUL
    ensures i <= used && (buf[i] == '\n' || buf[i] == NUL)
    ensures '\n' !in buf[..i] && NUL !in buf[..i]
    ensures StrChr(buf[..used], '\n') == if buf[i] == '\n' then i else -1
  {
    i := 0;
    while buf[i] != '\n' && buf[i] != NUL
      invariant i <= used
      invariant forall k | 0 <= k < i :: buf[k] != '\n' && buf[k] != NUL
      decreases used - i
    {
      i := i + 1;
    }
    StrChrAt(buf[..used], '\n', i);
  }

  /** Move `buf[from..used]` to the front. */
  method ShiftDown(buf: array<char>, from: nat, used: nat)
    requires from <= used <= buf.Length
    modifies buf
    ensures buf[..used - from] == old(buf[from..used])
  {
    forall k | 0 <= k < used - from {
      buf[k] := buf[from + k];
    }
  }

  /** `query_extract_from_buf_2`: cut one line off `buf[..used]` and shift the remainder to the front. */
  method ExtractFromBuf(buf: array<char>, used: nat) returns (line: Option<string>, left: nat)
    requires used < buf.Length && (used > 0 ==> buf[used] == NUL)
    modifies buf
    ensures left <= used && (used > 0 ==> left < used) && (left > 0 ==> buf[left] == NUL)
    ensures used == 0 ==> line == None && buf[..] == old(buf[..])
    ensures used > 0 ==> line == Some(LineOf(old(buf[..used]))) && buf[..left] == Rest(old(buf[..used]))
  {
    if used == 0 {
      return None, 0;
    }
    ghost var s := buf[..used];
    var i := FindLineEnd(buf, used);
    assert buf[..i] == s[..i];
    if buf[i] != '\n' {
      LineWithout(s, i);
      line, left := Some(buf[..i]), 0;
    } else {
      LineAt(s, i);
      var pos := i + 1;
      var text := buf[..pos];
      assert text == s[..pos];
      if pos >= 2 && text[pos - 2] == '\r' {
        text := text[..pos - 2] + [text[pos - 1]];
      }
      assert text == LineOf(s);
      left := used - pos;
      assert buf[pos..used] == s[pos..];
      ShiftDown(buf, pos, used);
      buf[left] := NUL;
      line := Some(text);
    }
  }

  /** What a `read` into the free part of the buffer returns. */
  function Fits(buf: string, text: string): (r: string)
    requires |buf| <= INBUFSIZE
    ensures |buf| + |r| <= INBUFSIZE
  {
    Take(text, INBUFSIZE - |buf|)
  }

  /** The buffer of a session: `INBUFSIZE` characters, a spare cell for the terminator, and a fill count. */
  class Buffer {
    const cells: array<char>
    var used: nat
    ghost var owner: object?

    ghost predicate Valid()
      reads this, cells
    {
      && cells.Length == INBUFSIZE + 1
      && used < INBUFSIZE
      && (used > 0 ==> cells[used] == NUL)
    }

    ghost function Text(): (s: string)
      requires Valid()
      reads this, cells
      ensures |s| == used
    {
      cells[..used]
    }

    constructor ()
      ensures Valid() && fresh(cells) && Text() == ""
    {
      cells, used := new char[INBUFSIZE + 1], 0;
    }

    /** `query_extract_from_buf` */
    method Extract() returns (line: Option<string>)
      requires Valid()
      modifies this`used, cells
      ensures Valid() && (old(used) > 0 ==> used < old(used))
      ensures old(Text()) == "" ==> line == None && Text() == ""
      ensures old(Text()) != "" ==> line == Some(LineOf(old(Text()))) && Text() == Rest(old(Text()))
    {
      line, used := ExtractFromBuf(cells, used);
    }

    /** The reading half of `session_do_read`: take what fits, then cut the first line off. */
    method Fill(text: string) returns (line: Option<string>)
      requires Valid()
      modifies this`used, cells
      ensures Valid()
      ensures var got := Fits(old(Text()), text);
              if got == "" then line == None && Text() == old(Text())
              else line == Some(LineOf(old(Text()) + got)) && Text() == Rest(old(Text()) + got)
    {
      ghost var before := cells[..used];
      var got := Fits(cells[..used], text);
      var n := used + |got|;
      forall k | 0 <= k < |got| {
        cells[used + k] := got[k];
      }
      cells[n] := NUL;
      assert cells[..used] == before;
      if got == [] {
        return None;
      }
      assert cells[..n] == before + got;
      line, used := ExtractFromBuf(cells, n);
    }
  }

  // ----- runs of reads and extractions -----

  /** A read from the socket is followed by an extraction; the description collector also extracts on its own. */
  datatype Op = Read(text: string) | Extract

  /** The buffer, the raw pieces cut off it so far, the lines handed out for them, and everything received. */
  datatype Trace = Trace(buf: string, raws: seq<string>, lines: seq<string>, received: string)

  function CutOne(t: Trace): Trace {
    if t.buf == "" then t
    else t.(buf := Rest(t.buf), raws := t.raws + [Raw(t.buf)], lines := t.lines + [LineOf(t.buf)])
  }

  function Step(t: Trace, op: Op): (t': Trace)
    requires |t.buf| < INBUFSIZE
    ensures |t'.buf| < INBUFSIZE
  {
    match op
    case Read(text) =>
      var got := Fits(t.buf, text);
      if got == "" then t else CutOne(t.(buf := t.buf + got, received := t.received + got))
    case Extract => CutOne(t)
  }

  function Steps(t: Trace, ops: seq<Op>): Trace
    requires |t.buf| < INBUFSIZE
    decreases |ops|
  {
    if ops == [] then t else Steps(Step(t, ops[0]), ops[1..])
  }

  /** At most one newline, only at the end. */
  predicate OneLine(s: string) {
    s != "" && '\n' !in s[..|s| - 1]
  }

  ghost predicate Conserved(t: Trace) {
    && Flatten(t.raws) + t.buf == t.received
    && |t.lines| == |t.raws|
    && forall k | 0 <= k < |t.raws| :: OneLine(t.raws[k]) && t.lines[k] == Chomp(t.raws[k])
  }

  lemma RawIsOneLine(s: string)
    requires s != "" && NoNul(s)
    ensures s == Raw(s) + Rest(s) && OneLine(Raw(s)) && NoNul(Rest(s))
  {
    StrChrFinds(s, '\n');
  }

  /** The line handed out is the piece cut off, but for a CR before the LF. */
  lemma LineIsChomped(s: string)
    requires NoNul(s)
    ensures LineOf(s) == Chomp(Raw(s))
  {
    CStrWhole(Raw(s));
  }

  lemma CutConserves(t: Trace)
    requires Conserved(t) && NoNul(t.buf)
    ensures Conserved(CutOne(t)) && NoNul(CutOne(t).buf)
  {
    if t.buf != "" {
      RawIsOneLine(t.buf);
      LineIsChomped(t.buf);
      var raw := Raw(t.buf);
      FlattenSnoc(t.raws, raw);
      assert Flatten(t.raws) + raw + Rest(t.buf) == Flatten(t.raws) + (raw + Rest(t.buf));
    }
  }

  /** Nothing received is lost, duplicated or reordered: the lines handed out, with the CRs that were dropped put back,
      and the buffer are all of it; and the buffer never fills up. */
  lemma {:induction false} LinesConserved(t: Trace, ops: seq<Op>)
    requires |t.buf| < INBUFSIZE && Conserved(t) && NoNul(t.buf)
    requires forall op <- ops :: op.Read? ==> NoNul(op.text)
    ensures Conserved(Steps(t, ops)) && |Steps(t, ops).buf| < INBUFSIZE
    decreases |ops|
  {
    if ops != [] {
      var op := ops[0];
      if op.Read? {
        var got := Fits(t.buf, op.text);
        var t1 := t.(buf := t.buf + got, received := t.received + got);
        assert Flatten(t.raws) + t1.buf == t1.received;
        if got != "" {
          CutConserves(t1);
        }
      } else {
        CutConserves(t);
      }
      LinesConserved(Step(t, op), ops[1..]);
    }
  }

  // ----- draining -----

  /** The lines that repeated extraction takes out of a buffer. */
  function Drain(s: string): seq<string>
    decreases |s|
  {
    if s == "" then [] else [LineOf(s)] + Drain(Rest(s))
  }

  /** The text with every CR that stands before a LF removed. */
  function CrLf(s: string): string {
    if s == "" then ""
    else if |s| >= 2 && s[0] == '\r' && s[1] == '\n' then CrLf(s[1..])
    else [s[0]] + CrLf(s[1..])
  }

  lemma {:induction false} CrLfNoNewline(s: string)
    requires '\n' !in s
    ensures CrLf(s) == s
  {
    if s != "" {
      CrLfNoNewline(s[1..]);
    }
  }

  lemma CrLfCons(c: char, t: string)
    ensures CrLf([c] + t) == if c == '\r' && t != "" && t[0] == '\n' then CrLf(t) else [c] + CrLf(t)
  {
    assert ([c] + t)[1..] == t;
  }

  lemma ChompCons(c: char, line: string)
    requires |line| >= 2
    ensures Chomp([c] + line) == [c] + Chomp(line)
  {
    var n := |line|;
    assert ([c] + line)[..n - 1] == [c] + line[..n - 2];
  }

  lemma ChompShort(c: char)
    ensures Chomp([c, '\n']) == if c == '\r' then "\n" else [c, '\n']
  {
  }

  lemma Associate(a: string, b: string, c: string)
    ensures a + (b + c) == (a + b) + c
  {
  }

  lemma CrLfGrows(c: char, t: string, line: string, later: string)
    requires t != "" && t[0] != '\n' && |line| >= 2 && CrLf(t) == Chomp(line) + later
    ensures CrLf([c] + t) == Chomp([c] + line) + later
  {
    CrLfCons(c, t);
    ChompCons(c, line);
    Associate([c], Chomp(line), later);
  }

  lemma CrLfShort(c: char, rest: string)
    ensures CrLf([c] + ("\n" + rest)) == Chomp([c, '\n']) + CrLf(rest)
  {
    CrLfCons(c, "\n" + rest);
    CrLfCons('\n', rest);
    ChompShort(c);
    Associate([c], "\n", CrLf(rest));
  }

  lemma {:induction false} CrLfHead(s: string, rest: string)
    requires '\n' !in s
    ensures CrLf(s + ("\n" + rest)) == Chomp(s + "\n") + CrLf(rest)
  {
    if s == "" {
      assert "" + ("\n" + rest) == "\n" + rest && "" + "\n" == "\n";
      CrLfCons('\n', rest);
    } else if |s| == 1 {
      assert s == [s[0]] && s + "\n" == [s[0], '\n'];
      CrLfShort(s[0], rest);
    } else {
      var c, tail := s[0], s[1..];
      assert s == [c] + tail && tail[0] in s;
      Associate([c], tail, "\n" + rest);
      Associate([c], tail, "\n");
      CrLfHead(tail, rest);
      CrLfGrows(c, tail + ("\n" + rest), tail + "\n", CrLf(rest));
    }
  }

  lemma CutAt(s: string, p: nat)
    requires p < |s| && StrChr(s, '\n') == p && s[p] == '\n'
    ensures Raw(s) == s[..p] + "\n" && s == s[..p] + ("\n" + Rest(s))
  {
  }

  lemma CrLfSplits(s: string)
    requires s != "" && NoNul(s)
    ensures CrLf(s) == LineOf(s) + CrLf(Rest(s))
  {
    StrChrFinds(s, '\n');
    CStrWhole(Raw(s));
    var p := StrChr(s, '\n');
    if p < 0 {
      CrLfNoNewline(s);
    } else {
      CutAt(s, p);
      CrLfHead(s[..p], Rest(s));
    }
  }

  /** Draining yields the CRLF-normalised content of the buffer. */
  lemma {:induction false} DrainNormalises(s: string)
    requires NoNul(s)
    ensures Flatten(Drain(s)) == CrLf(s)
    decreases |s|
  {
    if s != "" {
      CrLfSplits(s);
      RawIsOneLine(s);
      DrainNormalises(Rest(s));
      assert Drain(s)[1..] == Drain(Rest(s));
    }
  }
}
