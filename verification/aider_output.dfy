/**
 The message shown to the user after an Aider run (`create_user_output` in
 aider_runner.py). When files changed, Aider's captured stdout is passed on
 untouched. Otherwise the answer is dug out of the transcript: Aider's banner,
 its "Added … to the chat." notices and blank lines are dropped, every other
 line is stripped, the scan stops at the first "Tokens:" report, and the
 survivors are joined with newlines; if nothing survives, a fixed greeting is
 returned instead.
 */
module AiderOutput {
  import opened Wrappers
  import opened Seqs
  import opened Text

  /** The reply used when the transcript holds no answer. */
  const Greeting := "Hello! How can I help you with your landing page today?"

  /** Aider's "Added <file> to the chat." notice, matched against the stripped line. */
  predicate IsAddedNotice(stripped: string) {
    StartsWith(stripped, "Added ") && EndsWith(stripped, " to the chat.")
  }

  /** Aider's start-up banner, matched against the line as printed (not stripped):
      horizontal rules drawn with U+2500 and the version/model/repository lines. */
  predicate IsBanner(line: string) {
    || StartsWith(line, "\U{2500}")
    || StartsWith(line, "Aider v")
    || StartsWith(line, "Main model:")
    || StartsWith(line, "Weak model:")
    || StartsWith(line, "Git repo:")
    || StartsWith(line, "Repo-map:")
  }

  /** A line the filter skips over. */
  predicate Dropped(line: string) {
    IsAddedNotice(Strip(line)) || Strip(line) == "" || IsBanner(line)
  }

  /** The line that ends the scan: a surviving line reporting token usage. */
  predicate IsStop(line: string) {
    !Dropped(line) && StartsWith(Strip(line), "Tokens:")
  }

  /** What the filter makes of one line: nothing, or its stripped form. */
  function KeepLine(line: string): (r: Option<string>)
    ensures r.Some? ==> r.value != "" && IsStripped(r.value) && !IsAddedNotice(r.value)
  {
    if Dropped(line) then None else Some(Strip(line))
  }

  lemma KeepLineKeepsStripped()
    ensures forall line :: KeepLine(line).Some? ==> KeepLine(line).value == Strip(line)
  {
  }

  /** A line that can appear in the answer: non-empty, stripped, neither a
      notice nor a token report. */
  predicate IsAnswerLine(s: string) {
    s != "" && IsStripped(s) && !IsAddedNotice(s) && !StartsWith(s, "Tokens:")
  }

  /** Position of the first stop line, or `|lines|` when there is none. */
  function StopIndex(lines: seq<string>): nat {
    FirstIndex(IsStop, lines)
  }

  /** The answer lines of a transcript: the kept lines before the first stop
      line, stripped, in their original order. */
  function ResponseLines(lines: seq<string>): (r: seq<string>)
    ensures |r| <= StopIndex(lines) <= |lines|
    ensures forall i :: 0 <= i < |r| ==> IsAnswerLine(r[i])
  {
    var k := StopIndex(lines);
    KeptBeforeStopAreAnswers(lines[..k]);
    FilterMap(KeepLine, lines[..k])
  }

  /** Kept lines of a stretch without token reports are all answer lines. */
  lemma {:induction false} KeptBeforeStopAreAnswers(lines: seq<string>)
    requires forall i :: 0 <= i < |lines| ==> !IsStop(lines[i])
    ensures forall i :: 0 <= i < |FilterMap(KeepLine, lines)| ==> IsAnswerLine(FilterMap(KeepLine, lines)[i])
    decreases |lines|
  {
    if |lines| > 0 {
      KeptBeforeStopAreAnswers(lines[1..]);
    }
  }

  /** The text handed back to the user. With `fileChanged` it is Aider's output
      verbatim; otherwise it is never empty: the answer lines joined by
      newlines (already free of surrounding whitespace, so the final `strip()`
      changes nothing), or the greeting exactly when there are none. */
  function CreateUserOutput(aiderOutput: string, fileChanged: bool): (r: string)
    ensures fileChanged ==> r == aiderOutput
    ensures !fileChanged ==> r != ""
    ensures !fileChanged && ResponseLines(Split(aiderOutput, '\n')) == [] ==> r == Greeting
    ensures !fileChanged && ResponseLines(Split(aiderOutput, '\n')) != [] ==>
              r == Join(ResponseLines(Split(aiderOutput, '\n')), "\n")
  {
    if fileChanged then aiderOutput
    else
      var responseLines := ResponseLines(Split(aiderOutput, '\n'));
      JoinOfStrippedLines(responseLines, "\n");
      var response := Strip(Join(responseLines, "\n"));
      if response != "" then response else Greeting
  }

  /** The scan over the transcript lines as the script performs it: skip
      notices, skip blank and banner lines, stop at "Tokens:", collect the
      rest stripped. It computes `ResponseLines`. */
  method CollectResponseLines(lines: seq<string>) returns (responseLines: seq<string>)
    ensures responseLines == ResponseLines(lines)
  {
    responseLines := [];
    var i := 0;
    while i < |lines|
      invariant i <= StopIndex(lines)
      invariant responseLines == FilterMap(KeepLine, lines[..i])
    {
      var line := lines[i];
      var stripped := Strip(line);
      LineClassification(line);
      ScanStep(lines, i);
      if IsAddedNotice(stripped) {
      } else if stripped != "" && !IsBanner(line) {
        if StartsWith(stripped, "Tokens:") {
          break;
        }
        responseLines := responseLines + [stripped];
      }
      i := i + 1;
    }
  }

  /** One step of the scan: a stop line at `i` is the first one, and any other
      line extends the kept prefix by its own image. */
  lemma ScanStep(lines: seq<string>, i: nat)
    requires i < |lines| && i <= StopIndex(lines)
    ensures IsStop(lines[i]) ==> StopIndex(lines) == i
    ensures !IsStop(lines[i]) ==>
              i + 1 <= StopIndex(lines)
              && FilterMap(KeepLine, lines[..i + 1])
                 == FilterMap(KeepLine, lines[..i]) + (match KeepLine(lines[i]) case Some(y) => [y] case None => [])
  {
    FilterMapAppend(KeepLine, lines[..i], lines[i]);
    assert lines[..i + 1] == lines[..i] + [lines[i]];
  }

  /** The filter in Python's own terms: a line is skipped exactly when its
      stripped form is an "Added … to the chat." notice, it consists of
      whitespace only (`not line.strip()`), or it is a banner line. */
  lemma DroppedMeaning(line: string)
    ensures Dropped(line) <==> IsAddedNotice(Strip(line)) || AllSpace(line) || IsBanner(line)
  {
    StripEmptyIffAllSpace(line);
  }

  /** The script's three-way test on a line, in terms of `KeepLine` and `IsStop`. */
  lemma LineClassification(line: string)
    ensures IsAddedNotice(Strip(line)) ==> KeepLine(line) == None && !IsStop(line)
    ensures !IsAddedNotice(Strip(line)) && !(Strip(line) != "" && !IsBanner(line)) ==>
              KeepLine(line) == None && !IsStop(line)
    ensures !IsAddedNotice(Strip(line)) && Strip(line) != "" && !IsBanner(line) ==>
              KeepLine(line) == Some(Strip(line)) && (IsStop(line) <==> StartsWith(Strip(line), "Tokens:"))
  {
  }

  /** The answer lines are a subsequence of the stripped transcript lines:
      nothing is invented and the original order is kept. */
  lemma ResponseLinesSubsequence(lines: seq<string>)
    ensures IsSubsequence(ResponseLines(lines), Map(Strip, lines))
  {
    var k := StopIndex(lines);
    KeepLineKeepsStripped();
    FilterMapSubsequence(KeepLine, Strip, lines[..k]);
    MapConcat(Strip, lines[..k], lines[k..]);
    assert lines[..k] + lines[k..] == lines;
    SubsequenceExtend(FilterMap(KeepLine, lines[..k]), Map(Strip, lines[..k]), Map(Strip, lines[k..]));
  }

  /** A string is an answer line exactly when some line before the first
      "Tokens:" report survives the filter and strips to it. */
  lemma ResponseLinesMembership(lines: seq<string>, x: string)
    ensures x in ResponseLines(lines) <==>
            exists i :: 0 <= i < StopIndex(lines) && !Dropped(lines[i]) && Strip(lines[i]) == x
  {
    var k := StopIndex(lines);
    var prefix := lines[..k];
    FilterMapMembership(KeepLine, prefix, x);
    if x in ResponseLines(lines) {
      var i :| 0 <= i < k && KeepLine(prefix[i]) == Some(x);
      assert prefix[i] == lines[i];
    } else {
      forall i | 0 <= i < k ensures Dropped(lines[i]) || Strip(lines[i]) != x {
        assert prefix[i] == lines[i];
      }
    }
  }

  /** Once a stop line has been seen, nothing after it matters: appending more
      lines to the transcript leaves the answer lines unchanged. */
  lemma ResponseLinesIgnoreAfterStop(lines: seq<string>, more: seq<string>)
    requires StopIndex(lines) < |lines|
    ensures ResponseLines(lines + more) == ResponseLines(lines)
  {
    var k := StopIndex(lines);
    FirstIndexAppend(IsStop, lines, more);
    assert (lines + more)[..k] == lines[..k];
  }

  /** A dropped line in front of the transcript does not change the answer:
      this covers the banner and the "Added … to the chat." notices. */
  lemma DroppedLineIgnored(line: string, lines: seq<string>)
    requires Dropped(line)
    ensures ResponseLines([line] + lines) == ResponseLines(lines)
  {
    var all := [line] + lines;
    var k := StopIndex(lines);
    FirstIndexCons(IsStop, line, lines);
    assert all[..1 + k] == [line] + lines[..k];
    FilterMapConcat(KeepLine, [line], lines[..k]);
    assert FilterMap(KeepLine, [line]) == [];
  }

  /** A transcript without a "Tokens:" report contributes every kept line. */
  lemma ResponseLinesWithoutStop(lines: seq<string>)
    requires forall i :: 0 <= i < |lines| ==> !IsStop(lines[i])
    ensures ResponseLines(lines) == FilterMap(KeepLine, lines)
  {
    assert lines[..StopIndex(lines)] == lines;
  }

  /** A transcript made only of banner, notice and blank lines (the empty
      output included) yields the greeting. */
  lemma OnlyDroppedLinesGiveGreeting(aiderOutput: string)
    requires forall i :: 0 <= i < |Split(aiderOutput, '\n')| ==> Dropped(Split(aiderOutput, '\n')[i])
    ensures CreateUserOutput(aiderOutput, false) == Greeting
  {
    var lines := Split(aiderOutput, '\n');
    if ResponseLines(lines) != [] {
      ResponseLinesMembership(lines, ResponseLines(lines)[0]);
    }
  }

  /** The empty transcript yields the greeting. */
  lemma EmptyOutputGivesGreeting()
    ensures CreateUserOutput("", false) == Greeting
  {
    assert Split("", '\n') == [""];
    OnlyDroppedLinesGiveGreeting("");
  }
}
