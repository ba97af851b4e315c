/** The text commands: how a line is taken apart, and that taking apart undoes putting together. */
module Commands {
  import opened Prelude

  // ----- the parts of sscanf that the server uses -----

  predicate IsSpace(c: char) {
    c == ' ' || '\t' <= c <= '\r'
  }

  predicate IsDigit(c: char) {
    '0' <= c <= '9'
  }

  function SkipSpace(s: string): string {
    if s != "" && IsSpace(s[0]) then SkipSpace(s[1..]) else s
  }

  function TakeWord(s: string): (w: string)
    ensures |w| <= |s|
  {
    if s == "" || IsSpace(s[0]) then "" else [s[0]] + TakeWord(s[1..])
  }

  function TakeDigits(s: string): (ds: string)
    ensures |ds| <= |s| && forall d <- ds :: IsDigit(d)
  {
    if s == "" || !IsDigit(s[0]) then "" else [s[0]] + TakeDigits(s[1..])
  }

  datatype Scanned<+T> = Missing | Scanned(value: T, tail: string)

  /** `%s` */
  function ScanWord(s: string): Scanned<string> {
    var t := SkipSpace(s);
    if t == "" then Missing else Scanned(TakeWord(t), t[|TakeWord(t)|..])
  }

  function Value(ds: string): nat
    requires forall d <- ds :: IsDigit(d)
  {
    if ds == "" then 0
    else
      assert IsDigit(ds[|ds| - 1]);
      10 * Value(ds[..|ds| - 1]) + (ds[|ds| - 1] as int - '0' as int)
  }

  /** `%d` and `%zd` before conversion to the width of the target. */
  function ScanInt(s: string): Scanned<int> {
    var t := SkipSpace(s);
    var signed := t != "" && (t[0] == '-' || t[0] == '+');
    var u := if signed then t[1..] else t;
    var ds := TakeDigits(u);
    var magnitude: int := Value(ds);
    if ds == "" then Missing
    else Scanned(ClampLong(if signed && t[0] == '-' then -magnitude else magnitude), u[|ds|..])
  }

  /** Out-of-range digits saturate at the limits of a 64-bit `long`. */
  function ClampLong(x: int): int {
    if x >= OFF_SPAN then OFF_SPAN - 1 else if x < -OFF_SPAN then -OFF_SPAN else x
  }

  predicate StartsWith(s: string, p: string) {
    p <= s
  }

  function IndexOf(s: string, c: char): (i: int)
    ensures -1 <= i < |s|
    ensures i >= 0 ==> s[i] == c
  {
    if s == "" then -1
    else if s[0] == c then 0
    else
      var j := IndexOf(s[1..], c);
      if j < 0 then -1 else j + 1
  }

  function LastIndexOf(s: string, c: char): (i: int)
    ensures -1 <= i < |s|
    ensures i >= 0 ==> s[i] == c
  {
    if s == "" then -1
    else if s[|s| - 1] == c then |s| - 1
    else LastIndexOf(s[..|s| - 1], c)
  }

  // ----- the commands -----

  datatype Command = Help | List | Upload | Download | Search | Exit | Nothing

  /** `stale` is what the two uninitialised word buffers hold when the line has no words. */
  function ParseCommand(line: string, stale: (string, string)): Command {
    var w1 := ScanWord(line);
    var w2 := if w1.Scanned? then ScanWord(w1.tail) else Missing;
    var arg1 := if w1.Scanned? then w1.value else stale.0;
    var arg2 := if w2.Scanned? then w2.value else stale.1;
    if w1.Scanned? && w2.Missing? && arg1 == "file" then Help
    else if arg1 == "file" && arg2 == "list" then List
    else if arg1 == "file" && arg2 == "upload" then Upload
    else if arg1 == "file" && arg2 == "download" then Download
    else if arg1 == "file" && arg2 == "search" then Search
    else if line == "exit" then Exit
    else Nothing
  }

  datatype UploadRequest = NoOpeningQuote | NoClosingQuote | NoName
    | UploadRequest(name: string, size: Size, perm: Option<Int32>)

  function ParseUpload(line: string): UploadRequest {
    var open := IndexOf(line, '"');
    if open < 0 then NoOpeningQuote
    else
      var after := line[open + 1..];
      var close := LastIndexOf(after, '"');
      if close < 0 then NoClosingQuote
      else if close == 0 then NoName
      else
        var size := ScanInt(after[close + 1..]);
        var perm := if size.Scanned? then ScanInt(size.tail) else Missing;
        UploadRequest(after[..close], if size.Scanned? then ToSize(size.value) else 0,
                      if perm.Scanned? then Some(ToInt32(perm.value)) else None)
  }

  /** Longest name that fits the lookup argument. */
  const NAME_LIMIT: nat := 64

  datatype DownloadRequest = NoOpeningBracket | NoClosingBracket | EmptyName | Malformed | DownloadRequest(name: string)

  function ParseDownload(line: string): DownloadRequest {
    var open, close := IndexOf(line, '['), LastIndexOf(line, ']');
    if open < 0 then NoOpeningBracket
    else if close < 0 then NoClosingBracket
    else if close == open + 1 then EmptyName
    else if close < open + 1 || close - open - 1 > NAME_LIMIT then Malformed
    else DownloadRequest(line[open + 1..close])
  }

  datatype Confirmation = Continue(credit: Size) | Cancel | Noise

  /** "continue N" grants N bytes, PACKAGE_SIZE when N is missing; the `int` is converted to `size_t`. */
  function ParseConfirmation(line: string): Confirmation {
    if StartsWith(line, "continue") then
      var n := ScanInt(line[8..]);
      Continue(ToSize(if n.Scanned? then ToInt32(n.value) else PACKAGE_SIZE))
    else if StartsWith(line, "cancel") then Cancel
    else Noise
  }

  // ----- printing -----

  function Decimal(n: nat): (s: string)
    ensures s != "" && forall d <- s :: IsDigit(d)
  {
    var last := ["0123456789"[n % 10]];
    if n < 10 then last else Decimal(n / 10) + last
  }

  lemma {:induction false} DecimalValue(n: nat)
    ensures Value(Decimal(n)) == n
  {
    var s := Decimal(n);
    assert s[|s| - 1] as int - '0' as int == n % 10;
    if n >= 10 {
      assert s[..|s| - 1] == Decimal(n / 10);
      DecimalValue(n / 10);
    } else {
      assert s[..|s| - 1] == "";
    }
  }

  lemma {:induction false} DigitsTaken(ds: string, tail: string)
    requires forall d <- ds :: IsDigit(d)
    requires tail == "" || !IsDigit(tail[0])
    ensures TakeDigits(ds + tail) == ds
  {
    if ds != "" {
      assert (ds + tail)[1..] == ds[1..] + tail;
      DigitsTaken(ds[1..], tail);
    } else {
      assert ds + tail == tail;
    }
  }

  lemma {:induction false} WordTaken(w: string, tail: string)
    requires forall c <- w :: !IsSpace(c)
    requires tail == "" || IsSpace(tail[0])
    ensures TakeWord(w + tail) == w
  {
    if w != "" {
      assert (w + tail)[1..] == w[1..] + tail;
      WordTaken(w[1..], tail);
    } else {
      assert w + tail == tail;
    }
  }

  /** Scanning a printed number after a blank reads it back. */
  lemma ScanPrinted(n: nat, tail: string)
    requires n < OFF_SPAN
    requires tail == "" || !IsDigit(tail[0])
    ensures ScanInt(" " + Decimal(n) + tail) == Scanned(n, tail)
  {
    var t := Decimal(n) + tail;
    assert (" " + Decimal(n) + tail)[1..] == t;
    assert t[0] == Decimal(n)[0] && IsDigit(Decimal(n)[0]);
    assert SkipSpace(" " + Decimal(n) + tail) == t;
    DigitsTaken(Decimal(n), tail);
    DecimalValue(n);
    assert t[|Decimal(n)|..] == tail;
  }

  lemma {:induction false} IndexAfter(s: string, c: char, t: string)
    requires c !in s
    ensures IndexOf(s + [c] + t, c) == |s|
  {
    if s != "" {
      assert (s + [c] + t)[1..] == s[1..] + [c] + t;
      IndexAfter(s[1..], c, t);
    }
  }

  lemma {:induction false} LastIndexBefore(s: string, c: char, t: string)
    requires c !in t
    ensures LastIndexOf(s + [c] + t, c) == |s|
  {
    if t != "" {
      var u := s + [c] + t;
      assert u[|u| - 1] == t[|t| - 1];
      assert u[..|u| - 1] == s + [c] + t[..|t| - 1];
      LastIndexBefore(s, c, t[..|t| - 1]);
    }
  }

  /** The first opening and the last closing bracket. */
  predicate Outermost(line: string, i: nat, j: nat) {
    && i < |line| && j < |line| && line[i] == '[' && line[j] == ']'
    && (forall k | 0 <= k < i :: line[k] != '[') && forall k | j < k < |line| :: line[k] != ']'
  }

  /** Brackets that hold no name: none opens, or none closes, or they stand side by side. */
  lemma DownloadUnnamedIff(line: string)
    ensures ParseDownload(line) == NoOpeningBracket <==> '[' !in line
    ensures ParseDownload(line) == NoClosingBracket <==> '[' in line && ']' !in line
    ensures ParseDownload(line) == EmptyName
            <==> exists i: nat, j: nat :: j == i + 1 && Outermost(line, i, j)
  {
    var open, close := IndexOf(line, '['), LastIndexOf(line, ']');
    forall k | 0 <= k < |line|
      ensures open < 0 || k < open ==> line[k] != '['
      ensures k > close ==> line[k] != ']'
    {
      if open < 0 || k < open {
        FirstIndex(line, '[', k);
      }
      if k > close {
        LastIndex(line, ']', k);
      }
    }
    assert open >= 0 && close >= 0 ==> Outermost(line, open, close);
  }

  /** What may follow the last argument of a command. */
  predicate LineEnd(e: string) {
    e == "" || e == "\n"
  }

  const UPLOAD_VERB := "file upload "

  function PrintUpload(name: string, size: nat, perm: nat, end: string): string {
    UPLOAD_VERB + "\"" + (name + "\"" + (" " + Decimal(size) + (" " + Decimal(perm) + end)))
  }

  function PrintDownload(name: string, end: string): string {
    "file download [" + name + "]" + end
  }

  lemma WordScanned(w: string, tail: string)
    requires w != "" && (forall c <- w :: !IsSpace(c)) && (tail == "" || IsSpace(tail[0]))
    ensures ScanWord(w + tail) == Scanned(w, tail)
  {
    WordTaken(w, tail);
    assert (w + tail)[0] == w[0];
    assert (w + tail)[|w|..] == tail;
  }

  lemma BlankThenWord(w: string, tail: string)
    requires w != "" && (forall c <- w :: !IsSpace(c)) && (tail == "" || IsSpace(tail[0]))
    ensures ScanWord(" " + (w + tail)) == Scanned(w, tail)
  {
    WordScanned(w, tail);
    assert (" " + (w + tail))[1..] == w + tail && (w + tail)[0] == w[0];
  }

  lemma TwoWords(verb: string, tail: string, stale: (string, string))
    requires verb != "" && forall c <- verb :: !IsSpace(c)
    ensures ParseCommand("file " + verb + " " + tail, stale)
            == (if verb == "list" then List else if verb == "upload" then Upload
                else if verb == "download" then Download else if verb == "search" then Search
                else Nothing)
  {
    var line := "file " + verb + " " + tail;
    var t := " " + (verb + (" " + tail));
    assert line == "file" + t;
    WordScanned("file", t);
    assert SkipSpace(line) == line;
    BlankThenWord(verb, " " + tail);
    assert line != "exit" by {
      assert line[0] == 'f';
    }
  }

  /** Whatever the name holds, it reaches from the first quote to the last one. */
  lemma UploadScanned(verb: string, name: string, args: string)
    requires '"' !in verb && '"' !in args && name != ""
    ensures var size := ScanInt(args);
            ParseUpload(verb + "\"" + (name + "\"" + args))
            == if size.Missing? then UploadRequest(name, 0, None)
               else UploadRequest(name, ToSize(size.value),
                                  var perm := ScanInt(size.tail);
                                  if perm.Missing? then None else Some(ToInt32(perm.value)))
  {
    var after := name + "\"" + args;
    var line := verb + "\"" + after;
    IndexAfter(verb, '"', after);
    assert line[|verb| + 1..] == after;
    LastIndexBefore(name, '"', args);
    assert after[|name| + 1..] == args && after[..|name|] == name;
  }

  lemma UploadShape(verb: string, name: string, args: string, size: nat, tail: string, perm: nat, end: string)
    requires '"' !in verb && '"' !in args && name != "" && size < OFF_SPAN && perm <= 127
    requires ScanInt(args) == Scanned(size, tail) && ScanInt(tail) == Scanned(perm, end)
    ensures ParseUpload(verb + "\"" + (name + "\"" + args)) == UploadRequest(name, size, Some(perm))
  {
    UploadScanned(verb, name, args);
    CounterFits(size);
    assert ToInt32(perm) == perm;
  }

  /** Nothing before the first index, or nowhere. */
  lemma {:induction false} FirstIndex(s: string, c: char, k: nat)
    requires k < |s| && (IndexOf(s, c) < 0 || k < IndexOf(s, c))
    ensures s[k] != c
  {
    if k > 0 {
      FirstIndex(s[1..], c, k - 1);
    }
  }

  lemma {:induction false} LastIndex(s: string, c: char, k: nat)
    requires LastIndexOf(s, c) < k < |s|
    ensures s[k] != c
  {
    if k < |s| - 1 {
      LastIndex(s[..|s| - 1], c, k);
    }
  }

  /** An upload request is one in which two quotes have something between them. */
  lemma UploadNamedIff(line: string)
    ensures ParseUpload(line).UploadRequest?
            <==> exists i, j | 0 <= i && i + 1 < j < |line| :: line[i] == '"' && line[j] == '"'
  {
    var open := IndexOf(line, '"');
    var after := if open >= 0 then line[open + 1..] else "";
    var close := LastIndexOf(after, '"');
    if close > 0 {
      assert line[open] == '"' && line[open + 1 + close] == '"';
    }
    forall i: nat, j: nat | i + 1 < j < |line| && line[i] == '"' && line[j] == '"'
      ensures open >= 0 && close > 0
    {
      if open < 0 || i < open {
        FirstIndex(line, '"', i);
      } else if close < j - open - 1 {
        LastIndex(after, '"', j - open - 1);
      }
    }
  }

  lemma DigitsHoldNo(c: char, n: nat)
    requires !IsDigit(c)
    ensures c !in Decimal(n)
  {
  }

  /** A request without a number asks for an empty file, and one with a single number leaves the permissions open. */
  lemma UploadWithoutNumbers(verb: string, name: string, size: nat, tail: string)
    requires '"' !in verb && '"' !in tail && name != "" && (forall c <- tail :: !IsDigit(c)) && size < OFF_SPAN
    ensures ParseUpload(verb + "\"" + (name + "\"" + tail)) == UploadRequest(name, 0, None)
    ensures ParseUpload(verb + "\"" + (name + "\"" + (" " + Decimal(size) + tail))) == UploadRequest(name, size, None)
  {
    NoDigits(tail);
    ScanPrinted(size, tail);
    DigitsHoldNo('"', size);
    UploadScanned(verb, name, tail);
    UploadScanned(verb, name, " " + Decimal(size) + tail);
    CounterFits(size);
  }

  lemma UploadVerb(rest: string, stale: (string, string))
    ensures ParseCommand(UPLOAD_VERB + "\"" + rest, stale) == Upload
  {
    assert UPLOAD_VERB + "\"" + rest == "file " + "upload" + " " + ("\"" + rest);
    TwoWords("upload", "\"" + rest, stale);
  }

  /** An upload request with any non-empty name, quotes included, is read back as it was written. */
  lemma UploadRoundTrip(name: string, size: nat, perm: nat, end: string, stale: (string, string))
    requires name != "" && size < OFF_SPAN && perm <= 127 && LineEnd(end)
    ensures ParseCommand(PrintUpload(name, size, perm, end), stale) == Upload
    ensures ParseUpload(PrintUpload(name, size, perm, end)) == UploadRequest(name, size, Some(perm))
  {
    var tail := " " + Decimal(perm) + end;
    ScanPrinted(perm, end);
    ScanPrinted(size, tail);
    DigitsHoldNo('"', size);
    DigitsHoldNo('"', perm);
    UploadShape(UPLOAD_VERB, name, " " + Decimal(size) + tail, size, tail, perm, end);
    UploadVerb(name + "\"" + (" " + Decimal(size) + tail), stale);
  }

  lemma DownloadShape(verb: string, name: string, end: string)
    requires '[' !in verb && ']' !in end && 0 < |name| <= NAME_LIMIT
    ensures ParseDownload(verb + "[" + name + "]" + end) == DownloadRequest(name)
  {
    var line := verb + "[" + name + "]" + end;
    assert line == verb + "[" + (name + "]" + end);
    IndexAfter(verb, '[', name + "]" + end);
    LastIndexBefore(verb + "[" + name, ']', end);
    assert line[|verb| + 1..|verb| + 1 + |name|] == name;
  }

  /** A download request with any name of 1 to 64 characters, brackets included, is read back as it was written. */
  lemma DownloadRoundTrip(name: string, end: string, stale: (string, string))
    requires 0 < |name| <= NAME_LIMIT && LineEnd(end)
    ensures ParseCommand(PrintDownload(name, end), stale) == Download
    ensures ParseDownload(PrintDownload(name, end)) == DownloadRequest(name)
  {
    var rest := name + "]" + end;
    DownloadShape("file download ", name, end);
    assert PrintDownload(name, end) == "file download " + "[" + name + "]" + end;
    DownloadVerb(rest, stale);
    assert PrintDownload(name, end) == "file download [" + rest;
  }

  lemma DownloadVerb(rest: string, stale: (string, string))
    ensures ParseCommand("file download [" + rest, stale) == Download
  {
    assert "file download [" + rest == "file " + "download" + " " + ("[" + rest);
    TwoWords("download", "[" + rest, stale);
  }

  lemma {:induction false} NoDigits(s: string)
    requires forall c <- s :: !IsDigit(c)
    ensures ScanInt(s).Missing?
    decreases |s|
  {
    if s != "" && IsSpace(s[0]) {
      assert forall c <- s[1..] :: c in s;
      NoDigits(s[1..]);
    } else if |s| > 1 {
      assert s[1] in s && s[1..][0] == s[1];
    }
  }

  /** "continue" without a number grants a whole package. */
  lemma ContinueWithoutNumber(args: string)
    requires forall c <- args :: !IsDigit(c)
    ensures ParseConfirmation("continue" + args) == Confirmation.Continue(PACKAGE_SIZE)
  {
    NoDigits(args);
    assert ("continue" + args)[8..] == args;
    CounterFits(PACKAGE_SIZE);
  }

  lemma SkipBlank(t: string)
    requires t != "" && !IsSpace(t[0])
    ensures SkipSpace(" " + t) == t
  {
    assert (" " + t)[1..] == t;
  }

  lemma NegatedScan(s: string, ds: string, tail: string)
    requires ds != "" && (forall d <- ds :: IsDigit(d)) && (tail == "" || !IsDigit(tail[0])) && Value(ds) < OFF_SPAN
    requires SkipSpace(s) == "-" + (ds + tail)
    ensures ScanInt(s) == Scanned(0 - Value(ds), tail)
  {
    DigitsTaken(ds, tail);
    assert ("-" + (ds + tail))[1..] == ds + tail && (ds + tail)[|ds|..] == tail;
  }

  /** A negative number is read back, too. */
  lemma ScanNegative(n: nat, tail: string)
    requires n < OFF_SPAN && (tail == "" || !IsDigit(tail[0]))
    ensures ScanInt(" " + ("-" + (Decimal(n) + tail))) == Scanned(0 - n, tail)
  {
    SkipBlank("-" + (Decimal(n) + tail));
    DecimalValue(n);
    NegatedScan(" " + ("-" + (Decimal(n) + tail)), Decimal(n), tail);
  }

  /** A negative number is taken for a credit near 2^64. */
  lemma ContinueNegative(n: nat)
    requires 0 < n <= INT_MAX + 1
    ensures ParseConfirmation("continue" + (" " + ("-" + (Decimal(n) + "\n")))) == Confirmation.Continue(SIZE_SPAN - n)
  {
    var args := " " + ("-" + (Decimal(n) + "\n"));
    ScanNegative(n, "\n");
    assert ("continue" + args)[8..] == args;
    assert ToSize(0 - n) == SIZE_SPAN - n;
  }

  function PrintContinue(n: nat): string {
    "continue" + (" " + Decimal(n) + "\n")
  }

  lemma ContinueShape(args: string, n: nat, tail: string)
    requires ScanInt(args) == Scanned(n, tail) && n <= INT_MAX
    ensures ParseConfirmation("continue" + args) == Confirmation.Continue(n)
  {
    assert ("continue" + args)[8..] == args;
  }

  lemma ContinueRoundTrip(n: nat)
    requires n <= INT_MAX
    ensures ParseConfirmation(PrintContinue(n)) == Confirmation.Continue(n)
  {
    ScanPrinted(n, "\n");
    ContinueShape(" " + Decimal(n) + "\n", n, "\n");
  }

  /** A line that carries its newline never asks to leave: only the four bare characters do. */
  lemma ExitNeedsBareLine(line: string, stale: (string, string))
    ensures ParseCommand(line, stale) == Exit <==> line == "exit"
  {
    if line == "exit" {
      WordTaken("exit", "");
      assert "exit" + "" == "exit";
      assert "exit"[4..] == "";
    }
  }
}
