/** Requests on their way from the client through the line buffer to the parser. */
module Requests {
  import opened Prelude
  import opened LineBuffer
  import opened Commands
  import opened SessionSpec
  import opened Environment
  import Descriptions

  /** A name that a line can carry. */
  predicate Speakable(name: string) {
    name != "" && NoNul(name) && '\n' !in name
  }

  /** The read line is the first of the text, and the rest stays in the buffer. */
  predicate Arrives(s: Session, a: Answers, line: string, rest: string)
    requires |s.text| <= INBUFSIZE
  {
    ReadLine(s, a) == (s.(text := rest), Some(line))
  }

  lemma WholeLineArrives(s: Session, a: Answers, line: string, rest: string)
    requires s.text == "" && a.text == line + rest && |a.text| <= INBUFSIZE
    requires Descriptions.Whole(line) && Chomp(line) == line
    ensures Arrives(s, a, line, rest)
  {
    Descriptions.ExtractsWhole(line, rest);
    assert |a.text| >= |line| > 0;
    AllOfItFits(s, a);
  }

  /** What a read makes of the buffer: all the text there is room for comes behind what is left, and one line is cut off
      the front, up to its newline or, if there is none, to the end. */
  ghost predicate Cut(s: Session, a: Answers, raw: string) {
    var n := Min(|a.text|, INBUFSIZE - |s.text|);
    && 0 <= n <= |a.text| && OneLine(raw)
    && raw <= s.text + a.text[..n]
    && (raw[|raw| - 1] == '\n' || raw == s.text + a.text[..n])
    && Arrives(s, a, Chomp(raw), (s.text + a.text[..n])[|raw|..])
  }

  /** A read loses nothing: whatever the buffer holds already, and however much comes. */
  lemma ReadCutsLine(s: Session, a: Answers)
    requires |s.text| < INBUFSIZE && NoNul(s.text) && NoNul(a.text)
    ensures if a.text == "" then ReadLine(s, a) == (s.(mode := Err), None)
            else exists raw :: Cut(s, a, raw)
  {
    if a.text != "" {
      var text := s.text + Fits(s.text, a.text);
      assert a.text[..|a.text|] == a.text;
      RawIsOneLine(text);
      LineIsChomped(text);
      StrChrFinds(text, '\n');
      assert Cut(s, a, Raw(text));
    }
  }

  lemma PrintedUpload(name: string, size: nat, perm: nat)
    requires Speakable(name)
    ensures var line := PrintUpload(name, size, perm, "\n");
            Descriptions.Whole(line) && Chomp(line) == line
  {
    var line := PrintUpload(name, size, perm, "\n");
    var digits := Decimal(perm);
    var front := UPLOAD_VERB + "\"" + (name + "\"" + (" " + Decimal(size) + (" " + digits)));
    assert line == front + "\n" && line[..|line| - 1] == front;
    assert front[|front| - 1] == digits[|digits| - 1] && IsDigit(digits[|digits| - 1]);
    DigitsHoldNo('\n', size);
    DigitsHoldNo('\n', perm);
    DigitsHoldNo(NUL, size);
    DigitsHoldNo(NUL, perm);
  }

  lemma PrintedDownload(name: string)
    requires Speakable(name)
    ensures var line := PrintDownload(name, "\n");
            Descriptions.Whole(line) && Chomp(line) == line
  {
    var line, front := PrintDownload(name, "\n"), "file download [" + name + "]";
    assert line == front + "\n" && line[..|line| - 1] == front;
  }

  /** The upload request that a client prints reaches the parser whole, and is read back as it was written. */
  lemma UploadRequestArrives(s: Session, a: Answers, name: string, size: nat, perm: nat, rest: string)
    requires s.text == "" && a.text == PrintUpload(name, size, perm, "\n") + rest && |a.text| <= INBUFSIZE
    requires Speakable(name) && size < OFF_SPAN && perm <= 127
    ensures var line := PrintUpload(name, size, perm, "\n");
            && Arrives(s, a, line, rest)
            && ParseCommand(line, a.staleWords) == Command.Upload
            && ParseUpload(line) == UploadRequest(name, size, Some(perm))
  {
    PrintedUpload(name, size, perm);
    WholeLineArrives(s, a, PrintUpload(name, size, perm, "\n"), rest);
    UploadRoundTrip(name, size, perm, "\n", a.staleWords);
  }

  /** So does a download request. */
  lemma DownloadRequestArrives(s: Session, a: Answers, name: string, rest: string)
    requires s.text == "" && a.text == PrintDownload(name, "\n") + rest && |a.text| <= INBUFSIZE
    requires Speakable(name) && |name| <= NAME_LIMIT
    ensures var line := PrintDownload(name, "\n");
            && Arrives(s, a, line, rest)
            && ParseCommand(line, a.staleWords) == Command.Download
            && ParseDownload(line) == DownloadRequest(name)
  {
    PrintedDownload(name);
    WholeLineArrives(s, a, PrintDownload(name, "\n"), rest);
    DownloadRoundTrip(name, "\n", a.staleWords);
  }
}
