/** The description of an upload, however its lines are grouped into reads. */
module Descriptions {
  import opened Prelude
  import opened LineBuffer
  import opened SessionSpec
  import opened ServerSpec
  import Environment

  type Answers = Environment.Answers

  /** A whole line as the client sends it. */
  predicate Whole(raw: string) {
    raw != "" && NoNul(raw) && raw[|raw| - 1] == '\n' && '\n' !in raw[..|raw| - 1]
  }

  predicate AllWhole(lines: seq<string>) {
    forall raw <- lines :: Whole(raw)
  }

  /** The line holds the end marker, once a CR before the LF is gone. */
  predicate Final(raw: string) {
    EndsDescription(Chomp(raw))
  }

  predicate HasFinal(lines: seq<string>) {
    exists k | 0 <= k < |lines| :: Final(lines[k])
  }

  /** The normalised lines through the first final one. */
  function Told(lines: seq<string>): string {
    if lines == [] then ""
    else if Final(lines[0]) then Chomp(lines[0])
    else Chomp(lines[0]) + Told(lines[1..])
  }

  /** The lines behind the first final one. */
  function Behind(lines: seq<string>): seq<string> {
    if lines == [] then [] else if Final(lines[0]) then lines[1..] else Behind(lines[1..])
  }

  function TextOf(description: Option<string>): string {
    if description.Some? then description.value else ""
  }

  // ----- one read -----

  /** Extraction takes one whole line. */
  lemma ExtractsWhole(raw: string, rest: string)
    requires Whole(raw)
    ensures LineOf(raw + rest) == Chomp(raw) && Rest(raw + rest) == rest
  {
    var text, n := raw + rest, |raw| - 1;
    assert text[..n] == raw[..n] && text[..n + 1] == raw;
    assert forall k | 0 <= k < n :: text[k] == raw[..n][k];
    assert forall k | 0 <= k < n :: text[k] in raw;
    StrChrAt(text, '\n', n);
    LineAt(text, n);
  }

  lemma FinalLater(lines: seq<string>)
    requires lines != [] && !Final(lines[0])
    ensures HasFinal(lines) <==> HasFinal(lines[1..])
  {
    assert forall k | 0 <= k < |lines| - 1 :: lines[1..][k] == lines[k + 1];
    assert forall k | 0 < k < |lines| :: lines[k] == lines[1..][k - 1];
  }

  /** What one call of the collector makes of the lines of one read. */
  function Gathered(d: string, lines: seq<string>): Collected {
    if HasFinal(lines) then Collected(CutEnd(d + Told(lines)), Flatten(Behind(lines)), true)
    else Collected(d + Told(lines), "", false)
  }

  lemma GatheredLater(d: string, lines: seq<string>)
    requires lines != [] && !Final(lines[0])
    ensures Gathered(d, lines) == Gathered(d + Chomp(lines[0]), lines[1..])
  {
    FinalLater(lines);
    Associate(d, Chomp(lines[0]), Told(lines[1..]));
  }

  lemma GatheredLast(d: string, raw: string, more: seq<string>)
    ensures Final(raw) ==> Gathered(d, [raw] + more) == Collected(CutEnd(d + Chomp(raw)), Flatten(more), true)
    ensures !Final(raw) ==> Gathered(d, [raw]) == Collected(d + Chomp(raw), "", false)
  {
    assert ([raw] + more)[0] == raw && ([raw] + more)[1..] == more;
    assert [raw][1..] == [] && Told([]) == "";
    assert Told([raw]) == Chomp(raw);
  }

  /** One call of the collector takes the lines of one read up to the final one. */
  lemma {:induction false} CollectTakesLines(d: Option<string>, lines: seq<string>)
    requires lines != [] && AllWhole(lines)
    ensures Collect(d, LineOf(Flatten(lines)), Rest(Flatten(lines))) == Gathered(TextOf(d), lines)
    decreases |lines|
  {
    var raw, more := lines[0], lines[1..];
    assert lines == [raw] + more;
    ExtractsWhole(raw, Flatten(more));
    GatheredLast(TextOf(d), raw, more);
    if Final(raw) {
    } else if more == [] {
      assert lines == [raw];
      assert Flatten(more) == "";
    } else {
      assert Whole(more[0]);
      CollectTakesLines(Some(TextOf(d) + Chomp(raw)), more);
      GatheredLater(TextOf(d), lines);
    }
  }

  /** The number of lines before the first with the end marker. */
  function FirstEnd(lines: seq<string>): (k: nat)
    ensures k <= |lines|
  {
    if lines == [] || EndsDescription(lines[0]) then 0 else 1 + FirstEnd(lines[1..])
  }

  /** The buffer after `k` extractions. */
  function Extracted(text: string, k: nat): string {
    if k == 0 || text == "" then text else Extracted(Rest(text), k - 1)
  }

  /** What the collector makes of lines: those through the first with the marker, cut, or all of them. */
  function Through(d: string, lines: seq<string>, text: string): Collected {
    var k := FirstEnd(lines);
    if k < |lines| then Collected(CutEnd(d + Flatten(lines[..k + 1])), Extracted(text, k), true)
    else Collected(d + Flatten(lines), "", false)
  }

  lemma ThroughLater(d: string, line: string, lines: seq<string>, text: string)
    requires !EndsDescription(line) && text != ""
    ensures Through(d, [line] + lines, text) == Through(d + line, lines, Rest(text))
  {
    var all, k := [line] + lines, FirstEnd(lines);
    assert all[1..] == lines;
    Associate(d, line, Flatten(lines));
    if k < |lines| {
      assert all[..k + 2][1..] == lines[..k + 1];
      Associate(d, line, Flatten(lines[..k + 1]));
    }
  }

  lemma ThroughOne(d: string, line: string, lines: seq<string>, text: string)
    ensures EndsDescription(line) ==> Through(d, [line] + lines, text) == Collected(CutEnd(d + line), text, true)
    ensures !EndsDescription(line) ==> Through(d, [line], text) == Collected(d + line, "", false)
  {
    assert ([line] + lines)[..1] == [line] && Flatten([line]) == line;
    assert [line][1..] == [];
  }

  /** One call of the collector, whatever the buffer holds: it takes the line and the lines that extraction finds, with
      or without newlines, through the first with the end marker. */
  lemma {:induction false} CollectTakesAll(d: Option<string>, line: string, text: string)
    ensures Collect(d, line, text) == Through(TextOf(d), [line] + Drain(text), text)
    decreases |text|
  {
    ThroughOne(TextOf(d), line, Drain(text), text);
    if EndsDescription(line) {
    } else if text == "" {
      assert [line] + Drain(text) == [line];
    } else {
      CollectTakesAll(Some(TextOf(d) + line), LineOf(text), Rest(text));
      ThroughLater(TextOf(d), line, Drain(text), text);
    }
  }

  // ----- several reads -----

  /** The session once the description has been extended to `d` and `text` is left in the buffer. */
  function Extended(t: Turn, d: string, text: string): Turn
    requires t.s.file.Some?
  {
    t.(s := t.s.(file := Some(t.s.file.value.(description := Some(d))), text := text))
  }

  /** Reads that bring whole lines: read `n` brings the lines `groups[n]`, and they fit into the buffer. */
  ghost predicate BringsLines(a: Answers, group: seq<string>) {
    group != [] && AllWhole(group) && a.text == Flatten(group) && |a.text| <= INBUFSIZE
  }

  ghost predicate BringLines(answers: seq<Answers>, groups: seq<seq<string>>) {
    |answers| == |groups| && forall n | 0 <= n < |answers| :: BringsLines(answers[n], groups[n])
  }

  /** What the first of the lines and the buffer behind it lead to. */
  lemma LinesTaken(t: Turn, text: string, a: Answers, group: seq<string>)
    requires t.s.file.Some? && group != [] && AllWhole(group) && text == Rest(Flatten(group))
    ensures var c := Gathered(TextOf(t.s.file.value.description), group);
            var t1 := Extended(t, c.description, c.text);
            DescriptionTurn(t.(s := t.s.(text := text)), LineOf(Flatten(group)), a)
            == if HasFinal(group) then Save(t1, a) else t1
  {
    CollectTakesLines(t.s.file.value.description, group);
  }

  lemma SaveWaits(t: Turn, a: Answers)
    requires t.s.file.Some?
    ensures Save(t, a).s.mode == Wait
  {
  }

  lemma DescriptionRead(t: Turn, i: int, a: Answers, h: Hash, line: string, rest: string)
    requires Sound(t.s) && t.s.mode == Description && ReadLine(t.s, a) == (t.s.(text := rest), Some(line))
    requires DescriptionTurn(t.(s := t.s.(text := rest)), line, a).s.mode != Err
    ensures RequestTurn(t, i, a, h) == Going(DescriptionTurn(t.(s := t.s.(text := rest)), line, a))
  {
  }

  /** A turn in the description state that reads whole lines. */
  lemma WholeLinesTurn(t: Turn, i: int, a: Answers, h: Hash, group: seq<string>)
    requires Sound(t.s) && t.s.mode == Description && t.s.text == "" && BringsLines(a, group)
    ensures var c := Gathered(TextOf(t.s.file.value.description), group);
            var t1 := Extended(t, c.description, c.text);
            RequestTurn(t, i, a, h) == Going(if HasFinal(group) then Save(t1, a) else t1)
  {
    assert Whole(group[0]);
    assert a.text != "";
    AllOfItFits(t.s, a);
    LinesTaken(t, Rest(a.text), a, group);
    var c := Gathered(TextOf(t.s.file.value.description), group);
    SaveWaits(Extended(t, c.description, c.text), a);
    DescriptionRead(t, i, a, h, LineOf(a.text), Rest(a.text));
  }

  /** Turns of a session until it has left the description state, and their number. */
  datatype Described = Described(t: Turn, calls: nat)

  function Describe(t: Turn, i: int, answers: seq<Answers>, h: Hash): Described
    requires Sound(t.s)
    decreases |answers|
  {
    if t.s.mode != Description || answers == [] then Described(t, 0)
    else
      var after := RequestTurn(t, i, answers[0], h);
      SlotTurnSound(t, i, {i}, answers[0], h);
      if after.s.None? then Described(t.(m := after.m), 1)
      else
        var d := Describe(Turn(after.s.value, after.m), i, answers[1..], h);
        d.(calls := d.calls + 1)
  }

  lemma FinalEither(group: seq<string>, later: seq<string>)
    ensures HasFinal(group + later) <==> HasFinal(group) || HasFinal(later)
  {
    var lines := group + later;
    assert forall k | 0 <= k < |group| :: lines[k] == group[k];
    assert forall k | |group| <= k < |lines| :: lines[k] == later[k - |group|];
    if HasFinal(later) {
      var k :| 0 <= k < |later| && Final(later[k]);
      assert lines[|group| + k] == later[k];
    }
  }

  lemma {:induction false} ToldAppend(group: seq<string>, later: seq<string>)
    ensures HasFinal(group) ==> Told(group + later) == Told(group)
    ensures !HasFinal(group) ==> Told(group + later) == Told(group) + Told(later)
  {
    if group == [] {
      assert group + later == later;
    } else {
      var line, tail := Chomp(group[0]), group[1..];
      assert (group + later)[1..] == tail + later;
      if !Final(group[0]) {
        FinalLater(group);
        ToldAppend(tail, later);
        Associate(line, Told(tail), Told(later));
      }
    }
  }

  lemma Associate(a: string, b: string, c: string)
    ensures a + (b + c) == (a + b) + c
  {
  }

  lemma DescribeUnfolds(t: Turn, i: int, answers: seq<Answers>, h: Hash, t1: Turn)
    requires Sound(t.s) && t.s.mode == Description && answers != []
    requires RequestTurn(t, i, answers[0], h) == Going(t1) && Sound(t1.s)
    ensures var later := Describe(t1, i, answers[1..], h);
            Describe(t, i, answers, h) == Described(later.t, later.calls + 1)
  {
  }

  lemma DescribeDone(t: Turn, i: int, answers: seq<Answers>, h: Hash)
    requires Sound(t.s) && t.s.mode != Description
    ensures Describe(t, i, answers, h) == Described(t, 0)
  {
  }

  /** The first call of a session that collects a description. */
  lemma DescribeStep(t: Turn, i: int, answers: seq<Answers>, group: seq<string>, h: Hash)
    requires Sound(t.s) && t.s.mode == Description && t.s.text == ""
    requires answers != [] && BringsLines(answers[0], group)
    ensures var d := TextOf(t.s.file.value.description) + Told(group);
            Describe(t, i, answers, h) ==
              if HasFinal(group) then Described(Save(Extended(t, CutEnd(d), Flatten(Behind(group))), answers[0]), 1)
              else
                var later := Describe(Extended(t, d, ""), i, answers[1..], h);
                Described(later.t, later.calls + 1)
  {
    var c := Gathered(TextOf(t.s.file.value.description), group);
    var t1 := Extended(t, c.description, c.text);
    var t2 := if HasFinal(group) then Save(t1, answers[0]) else t1;
    WholeLinesTurn(t, i, answers[0], h, group);
    SlotTurnSound(t, i, {i}, answers[0], h);
    DescribeUnfolds(t, i, answers, h, t2);
    if HasFinal(group) {
      SaveWaits(t1, answers[0]);
      DescribeDone(t2, i, answers[1..], h);
    }
  }

  /** `text`, cut, is the description saved in the first call that reaches a final line; the lines behind that line
      stay in the buffer. */
  ghost predicate EndsWith(d: Described, t: Turn, answers: seq<Answers>, groups: seq<seq<string>>, text: string)
    requires t.s.file.Some? && |answers| == |groups|
  {
    && 0 < d.calls <= |groups|
    && HasFinal(groups[d.calls - 1])
    && (forall n | 0 <= n < d.calls - 1 :: !HasFinal(groups[n]))
    && d.t == Save(Extended(t, CutEnd(text), Flatten(Behind(groups[d.calls - 1]))), answers[d.calls - 1])
  }

  lemma EndsLater(d: Described, t: Turn, d1: string, answers: seq<Answers>, groups: seq<seq<string>>, text: string)
    requires t.s.file.Some? && |answers| == |groups| > 0 && !HasFinal(groups[0])
    requires EndsWith(d, Extended(t, d1, ""), answers[1..], groups[1..], text)
    ensures EndsWith(Described(d.t, d.calls + 1), t, answers, groups, text)
  {
    assert groups[1..][d.calls - 1] == groups[d.calls] && answers[1..][d.calls - 1] == answers[d.calls];
    forall n | 0 <= n < d.calls
      ensures !HasFinal(groups[n])
    {
      assert n > 0 ==> groups[n] == groups[1..][n - 1];
    }
  }

  lemma EndsNow(t: Turn, i: int, answers: seq<Answers>, groups: seq<seq<string>>, h: Hash)
    requires Sound(t.s) && t.s.mode == Description && t.s.text == ""
    requires |answers| == |groups| > 0 && BringsLines(answers[0], groups[0]) && HasFinal(groups[0])
    ensures EndsWith(Describe(t, i, answers, h), t, answers, groups,
                     TextOf(t.s.file.value.description) + Told(groups[0]))
  {
    DescribeStep(t, i, answers, groups[0], h);
  }

  lemma EndsInLaterCall(t: Turn, i: int, answers: seq<Answers>, groups: seq<seq<string>>, h: Hash,
                        d1: string, text: string)
    requires Sound(t.s) && t.s.mode == Description && t.s.text == ""
    requires |answers| == |groups| > 0 && BringsLines(answers[0], groups[0]) && !HasFinal(groups[0])
    requires d1 == TextOf(t.s.file.value.description) + Told(groups[0])
    requires EndsWith(Describe(Extended(t, d1, ""), i, answers[1..], h), Extended(t, d1, ""),
                      answers[1..], groups[1..], text)
    ensures EndsWith(Describe(t, i, answers, h), t, answers, groups, text)
  {
    DescribeStep(t, i, answers, groups[0], h);
    EndsLater(Describe(Extended(t, d1, ""), i, answers[1..], h), t, d1, answers, groups, text);
  }

  /** What is to be saved does not change when a read without a final line is consumed. */
  lemma ToldLater(d: string, groups: seq<seq<string>>)
    requires groups != [] && HasFinal(Flatten(groups))
    ensures HasFinal(groups[0]) ==> Told(Flatten(groups)) == Told(groups[0])
    ensures !HasFinal(groups[0]) ==>
      HasFinal(Flatten(groups[1..])) && d + Told(Flatten(groups)) == d + Told(groups[0]) + Told(Flatten(groups[1..]))
  {
    Associate(d, Told(groups[0]), Told(Flatten(groups[1..])));
    ToldAppend(groups[0], Flatten(groups[1..]));
    FinalEither(groups[0], Flatten(groups[1..]));
  }

  /** The description is the concatenation of the normalised lines through the first final one, cut; it ends in the call
      that reaches this line and not before. */
  lemma {:induction false} DescriptionCollected(t: Turn, i: int, answers: seq<Answers>, groups: seq<seq<string>>,
                                                h: Hash, text: string)
    requires Sound(t.s) && t.s.mode == Description && t.s.text == ""
    requires BringLines(answers, groups) && HasFinal(Flatten(groups))
    requires text == TextOf(t.s.file.value.description) + Told(Flatten(groups))
    ensures EndsWith(Describe(t, i, answers, h), t, answers, groups, text)
    decreases |groups|
  {
    var d0 := TextOf(t.s.file.value.description);
    ToldLater(d0, groups);
    if HasFinal(groups[0]) {
      EndsNow(t, i, answers, groups, h);
    } else {
      var d1 := d0 + Told(groups[0]);
      DescriptionCollected(Extended(t, d1, ""), i, answers[1..], groups[1..], h, text);
      EndsInLaterCall(t, i, answers, groups, h, d1, text);
    }
  }

  /** What a successful insertion records. */
  lemma SaveRecords(t: Turn, a: Answers)
    requires t.s.file.Some? && a.saved.Inserted?
    ensures var f, m' := t.s.file.value, Save(t, a).m;
            && m'.records == t.m.records
               + [Environment.Record(f.name, f.size, f.hash, TextOf(f.description), f.permissions, t.s.uid)]
            && m'.files == t.m.files
    ensures Save(t, a).s.mode == Wait
  {
  }

  /** The save step closes the descriptor, whatever the database says. */
  lemma SaveReleases(t: Turn, a: Answers)
    requires t.s.file.Some? && t.s.fd >= 0
    ensures Save(t, a).m.handles == t.m.handles - {t.s.fd}
    ensures Save(t, a).s.file == None && Save(t, a).s.fd == -1 && Save(t, a).s.mode == Wait
  {
    assert Save(t, a).m.handles == t.m.handles - {t.s.fd};
  }

  /** The descriptor is closed. If the insertion has succeeded, the file is recorded under its name, with its size, hash
      and permissions, this description, and the number of the user who uploaded it; and it stays as it was stored. */
  ghost predicate RecordsText(d: Described, t: Turn, answers: seq<Answers>, text: string)
    requires t.s.file.Some?
  {
    && 0 < d.calls <= |answers|
    && (t.s.fd >= 0 ==> d.t.m.handles == t.m.handles - {t.s.fd})
    && (answers[d.calls - 1].saved.Inserted? ==>
         && var f := t.s.file.value;
         d.t.m.records == t.m.records + [Environment.Record(f.name, f.size, f.hash, text, f.permissions, t.s.uid)]
         && d.t.m.files == t.m.files && d.t.s.mode == Wait)
  }

  lemma RecordsAtEnd(d: Described, t: Turn, answers: seq<Answers>, groups: seq<seq<string>>, text: string)
    requires t.s.file.Some? && |answers| == |groups| && EndsWith(d, t, answers, groups, text)
    ensures RecordsText(d, t, answers, CutEnd(text))
  {
    var a, t1 := answers[d.calls - 1], Extended(t, CutEnd(text), Flatten(Behind(groups[d.calls - 1])));
    if t.s.fd >= 0 {
      SaveReleases(t1, a);
    }
    if a.saved.Inserted? {
      SaveRecords(t1, a);
    }
  }

  /** However the lines are grouped, the description in the record is the one collected, cut. */
  lemma DescriptionRecorded(t: Turn, i: int, answers: seq<Answers>, groups: seq<seq<string>>, h: Hash)
    requires Sound(t.s) && t.s.mode == Description && t.s.text == ""
    requires BringLines(answers, groups) && HasFinal(Flatten(groups))
    ensures RecordsText(Describe(t, i, answers, h), t, answers,
                        CutEnd(TextOf(t.s.file.value.description) + Told(Flatten(groups))))
  {
    var text := TextOf(t.s.file.value.description) + Told(Flatten(groups));
    DescriptionCollected(t, i, answers, groups, h, text);
    RecordsAtEnd(Describe(t, i, answers, h), t, answers, groups, text);
  }

  /** The normalised lines, one after the other. */
  function Normalised(lines: seq<string>): string {
    if lines == [] then "" else Chomp(lines[0]) + Normalised(lines[1..])
  }

  lemma {:induction false} ToldThrough(lines: seq<string>, k: nat)
    requires k < |lines| && Final(lines[k]) && forall j | 0 <= j < k :: !Final(lines[j])
    ensures Told(lines) == Normalised(lines[..k]) + Chomp(lines[k])
    decreases k
  {
    if k > 0 {
      assert lines[..k][1..] == lines[1..][..k - 1];
      ToldThrough(lines[1..], k - 1);
    }
  }

  lemma CutsMarker(a: string, b: string, c: string)
    ensures CutEnd(a + (b + (c + ":END:\n"))) == a + b + c
  {
    assert a + (b + (c + ":END:\n")) == (a + b + c) + ":END:\n";
  }

  /** A final line that ends in the marker loses exactly the marker: the lines before it stay whole. */
  lemma MarkerCut(d: string, lines: seq<string>, k: nat, last: string)
    requires k < |lines| && Final(lines[k]) && forall j | 0 <= j < k :: !Final(lines[j])
    requires Chomp(lines[k]) == last + ":END:\n"
    ensures CutEnd(d + Told(lines)) == d + Normalised(lines[..k]) + last
  {
    ToldThrough(lines, k);
    CutsMarker(d, Normalised(lines[..k]), last);
  }

  lemma SavedAlike(t: Turn, d: string, text: string, a: Answers, text': string, a': Answers)
    requires t.s.file.Some? && a.saved == a'.saved
    ensures Save(Extended(t, d, text), a).m == Save(Extended(t, d, text'), a').m
  {
  }

  lemma MachinesAlike(t: Turn, answers: seq<Answers>, groups: seq<seq<string>>, d: Described,
                   answers': seq<Answers>, groups': seq<seq<string>>, d': Described, text: string)
    requires t.s.file.Some? && |answers| == |groups| && |answers'| == |groups'|
    requires EndsWith(d, t, answers, groups, text) && EndsWith(d', t, answers', groups', text)
    requires answers[d.calls - 1].saved == answers'[d'.calls - 1].saved
    ensures d.t.m == d'.t.m
  {
    SavedAlike(t, CutEnd(text), Flatten(Behind(groups[d.calls - 1])), answers[d.calls - 1],
               Flatten(Behind(groups'[d'.calls - 1])), answers'[d'.calls - 1]);
  }

  /** Two ways to group the same lines lead to the same saved record. */
  lemma GroupingIrrelevant(t: Turn, i: int, answers: seq<Answers>, groups: seq<seq<string>>,
                           answers': seq<Answers>, groups': seq<seq<string>>, h: Hash)
    requires Sound(t.s) && t.s.mode == Description && t.s.text == ""
    requires BringLines(answers, groups) && BringLines(answers', groups')
    requires Flatten(groups) == Flatten(groups') && HasFinal(Flatten(groups))
    requires forall a <- answers + answers' :: a.saved == answers[0].saved
    ensures Describe(t, i, answers, h).t.m == Describe(t, i, answers', h).t.m
  {
    var text := TextOf(t.s.file.value.description) + Told(Flatten(groups));
    DescriptionCollected(t, i, answers, groups, h, text);
    DescriptionCollected(t, i, answers', groups', h, text);
    var d, d' := Describe(t, i, answers, h), Describe(t, i, answers', h);
    assert answers[d.calls - 1] in answers + answers' && answers'[d'.calls - 1] in answers + answers';
    MachinesAlike(t, answers, groups, d, answers', groups', d', text);
  }
}
