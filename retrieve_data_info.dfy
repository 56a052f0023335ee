/** The string logic of the script that summarises cluster runs: the number of evaluations
    read from a .tdat file, the batch number read from a job's out file, and the status the
    rest of that out file reports. */
module RetrieveDataInfo {
  import opened Common
  import opened Text

  /** A line of a .tdat file must be longer than this to hold an evaluation count. */
  const ValidLineLength: nat := 10

  /** The ValueError int() raises. */
  datatype ReadError = NotAnInteger(text: string)

  /** int() of a text. */
  function ReadInt(text: string): (r: Result<int, ReadError>)
    ensures r.Ok? <==> PyInt(text).Some?
    ensures r.Ok? ==> r.value == PyInt(text).value
    ensures r.Err? ==> r.error == NotAnInteger(text)
  {
    match PyInt(text)
    case Some(n) => Ok(n)
    case None => Err(NotAnInteger(text))
  }

  /** int(line.split(' ')[0]): the text before the first space of a line.  Only TypeError is
      caught, which int() of a text never raises, so a first token that is not an integer
      stops the script instead of counting as 0. */
  function FirstTokenValue(line: string): Result<int, ReadError> {
    ReadInt(Split(line, ' ')[0])
  }

  /** get_evaluation_num over the lines readlines() returns: the lines from the last one on,
      the first long one read; 0 when no line is long enough. */
  method GetEvaluationNum(lines: seq<string>) returns (r: Result<int, ReadError>)
    ensures (forall k :: 0 <= k < |lines| ==> |lines[k]| <= ValidLineLength) ==> r == Ok(0)
    ensures forall k :: LastLongLine(lines, k) ==> r == FirstTokenValue(lines[k])
  {
    var i := |lines|;
    while i > 0
      invariant 0 <= i <= |lines|
      invariant forall j :: i <= j < |lines| ==> |lines[j]| <= ValidLineLength
      decreases i
    {
      i := i - 1;
      if |lines[i]| > ValidLineLength {
        assert forall k :: LastLongLine(lines, k) ==> k == i;
        return FirstTokenValue(lines[i]);
      }
    }
    return Ok(0);
  }

  /** Line k is longer than a valid line and no line after it is. */
  predicate LastLongLine(lines: seq<string>, k: int) {
    0 <= k < |lines| && |lines[k]| > ValidLineLength &&
    forall j :: k < j < |lines| ==> |lines[j]| <= ValidLineLength
  }

  /** A line the batch search stops at: a `Job, batch ID:` line, or a line of one word
      without a `/`. */
  predicate IsBatchLine(line: string) {
    Contains(line, "Job, batch ID:") || (|SplitWhitespace(line)| == 1 && '/' !in line)
  }

  /** Line k is a batch line and no line before it is. */
  predicate FirstBatchLine(lines: seq<string>, k: int) {
    0 <= k < |lines| && IsBatchLine(lines[k]) && forall j :: 0 <= j < k ==> !IsBatchLine(lines[j])
  }

  /** The batch a batch line gives: the last space-separated token of a job line, the whole
      line otherwise. */
  function BatchOfLine(line: string): Result<int, ReadError> {
    if Contains(line, "Job, batch ID:") then
      var tokens := Split(line, ' ');
      ReadInt(tokens[|tokens| - 1])
    else ReadInt(line)
  }

  /** The batch search over the out file: the first batch line decides, -1 when there is
      none; `consumed` is how many lines the iteration has taken from the file. */
  method FindBatch(lines: seq<string>) returns (r: Result<int, ReadError>, consumed: nat)
    ensures consumed <= |lines|
    ensures (forall k :: 0 <= k < |lines| ==> !IsBatchLine(lines[k])) ==> r == Ok(-1) && consumed == |lines|
    ensures forall k :: FirstBatchLine(lines, k) ==> r == BatchOfLine(lines[k]) && consumed == k + 1
  {
    for i := 0 to |lines|
      invariant forall j :: 0 <= j < i ==> !IsBatchLine(lines[j])
    {
      if IsBatchLine(lines[i]) {
        assert forall k :: FirstBatchLine(lines, k) ==> k == i;
        return BatchOfLine(lines[i]), i + 1;
      }
    }
    return Ok(-1), |lines|;
  }

  /** f.read() after the search: the text of the lines it has not taken. */
  function Concat(lines: seq<string>): string
    decreases |lines|
  {
    if lines == [] then "" else lines[0] + Concat(lines[1..])
  }

  const TimeLimit: string := "TIME LIMIT"
  const Cancelled: string := "Cancelled due to time limit"
  const ServerStopped: string := "Stopped socket sever on port"
  const Success: string := "Success"

  /** How far an error message reaches at most. */
  const MessageLimit: nat := 200

  /** The first position of `error` in the lower-cased contents, or -1. */
  function ErrorLoc(contents: string): int {
    Find(Lower(contents), "error")
  }

  /** The text with both kinds of quotes removed. */
  function Unquoted(t: string): (u: string)
    ensures '"' !in u && '\'' !in u && |u| <= |t|
  {
    RemoveChar(RemoveChar(t, '"'), '\'')
  }

  /** Python's s[a:b] for 0 <= a <= |s| and b <= |s|: empty when b <= a. */
  function PySlice(s: string, a: nat, b: int): (t: string)
    requires a <= |s| && b <= |s|
  {
    if b <= a then "" else s[a..b]
  }

  /** The status of an out file as written: the end of the error message is the nearest of
      200 characters on, the newline after it, and the end of the contents, where `find`
      returns -1 when no newline follows. */
  function StatusAsWritten(contents: string): (r: Option<string>)
    ensures Contains(contents, TimeLimit) ==> r == Some(Cancelled)
    ensures r.None? <==> !Contains(contents, TimeLimit) && ErrorLoc(contents) <= 0 && !Contains(contents, ServerStopped)
  {
    var errorLoc := ErrorLoc(contents);
    if Contains(contents, TimeLimit) then Some(Cancelled)
    else if errorLoc > 0 then
      var eolLoc := Find(contents[errorLoc..], "\n");
      var errorLocMax := Min(Min(errorLoc + MessageLimit, errorLoc + eolLoc), |contents|);
      Some(Unquoted(PySlice(contents, errorLoc, errorLocMax)))
    else if Contains(contents, ServerStopped) then Some(Success)
    else None
  }

  function Min(a: int, b: int): int {
    if a <= b then a else b
  }

  /** Where the error message ends, as intended: at 200 characters, at the next newline or at
      the end of the contents, whichever comes first. */
  function MessageEnd(contents: string, errorLoc: nat): (e: nat)
    requires errorLoc <= |contents|
    ensures errorLoc <= e <= |contents| && e <= errorLoc + MessageLimit
  {
    var eolLoc := Find(contents[errorLoc..], "\n");
    var newline := if eolLoc >= 0 then errorLoc + eolLoc else |contents|;
    Min(Min(errorLoc + MessageLimit, newline), |contents|)
  }

  /** The status of an out file, with the message running to the end of the contents when no
      newline follows it. */
  function Status(contents: string): (r: Option<string>)
    ensures Contains(contents, TimeLimit) ==> r == Some(Cancelled)
    ensures r.None? <==> !Contains(contents, TimeLimit) && ErrorLoc(contents) <= 0 && !Contains(contents, ServerStopped)
  {
    var errorLoc := ErrorLoc(contents);
    if Contains(contents, TimeLimit) then Some(Cancelled)
    else if errorLoc > 0 then Some(Unquoted(contents[errorLoc..MessageEnd(contents, errorLoc)]))
    else if Contains(contents, ServerStopped) then Some(Success)
    else None
  }

  /** The two agree whenever a newline follows the error. */
  lemma {:induction false} StatusAgreesWithNewline(contents: string)
    requires ErrorLoc(contents) > 0 ==> Find(contents[ErrorLoc(contents)..], "\n") >= 0
    ensures StatusAsWritten(contents) == Status(contents)
  {
  }

  /** An error message with no newline after it is reported as written with an empty
      status; the intended status is never empty. */
  lemma {:induction false} ErrorAtEndAsWritten(contents: string)
    requires !Contains(contents, TimeLimit) && ErrorLoc(contents) > 0
    requires '\n' !in contents[ErrorLoc(contents)..]
    ensures StatusAsWritten(contents) == Some("")
    ensures Status(contents).Some? && Status(contents).value != ""
  {
    var errorLoc := ErrorLoc(contents);
    var rest := contents[errorLoc..];
    var eolLoc := Find(rest, "\n");
    if eolLoc >= 0 {
      NewlineAt(rest, eolLoc);
      assert false;
    }
    ErrorMessageStarts(contents);
  }

  /** sub occurs at k for a one-character sub: that character is at k. */
  lemma {:induction false} NewlineAt(s: string, k: int)
    requires 0 <= k && OccursAt(s, "\n", k)
    ensures k < |s| && s[k] == '\n'
  {
    assert s[k..k + 1][0] == s[k];
  }

  /** No character before the first newline Find reports is a newline. */
  lemma {:induction false} BeforeNewline(s: string, i: int)
    requires 0 <= i < |s| && (Find(s, "\n") < 0 || i < Find(s, "\n"))
    ensures s[i] != '\n'
  {
    assert !OccursAt(s, "\n", i);
    assert s[i..i + 1] == [s[i]];
  }

  /** The intended message starts with the `error` found, so it is not empty. */
  lemma {:induction false} ErrorMessageStarts(contents: string)
    requires ErrorLoc(contents) > 0
    ensures var e := ErrorLoc(contents);
            MessageEnd(contents, e) >= e + 5 &&
            Lower(contents[e..MessageEnd(contents, e)])[..5] == "error"
    ensures Unquoted(contents[ErrorLoc(contents)..MessageEnd(contents, ErrorLoc(contents))]) != ""
  {
    var e := ErrorLoc(contents);
    var low := Lower(contents);
    assert OccursAt(low, "error", e);
    assert low[e..e + 5] == "error";
    forall j | e <= j < e + 5
      ensures contents[j] != '\n' && contents[j] != '"' && contents[j] != '\''
    {
      assert low[j] == "error"[j - e];
    }
    var rest := contents[e..];
    var eolLoc := Find(rest, "\n");
    if eolLoc >= 0 {
      NewlineAt(rest, eolLoc);
      assert rest[eolLoc] == contents[e + eolLoc];
    }
    var m := contents[e..MessageEnd(contents, e)];
    assert Lower(m)[..5] == low[e..e + 5];
    assert m[0] == contents[e] && m[0] != '"' && m[0] != '\'';
    var once := RemoveChar(m, '"');
    assert m[0] in m;
    assert m[0] in once;
  }

  /** A reported error message: the text from the first `error` (in any case) up to the
      newline after it, 200 characters or the end of the contents, without quotes; it holds no
      newline and is never empty. */
  lemma {:induction false} ErrorStatus(contents: string)
    requires !Contains(contents, TimeLimit) && ErrorLoc(contents) > 0
    ensures var e := ErrorLoc(contents);
            var end := MessageEnd(contents, e);
            Status(contents) == Some(Unquoted(contents[e..end])) &&
            (end == e + MessageLimit || end == |contents| || contents[end] == '\n') &&
            (forall j :: e <= j < end ==> contents[j] != '\n') &&
            '\n' !in Status(contents).value && |Status(contents).value| <= MessageLimit &&
            Status(contents).value != ""
  {
    var e := ErrorLoc(contents);
    var end := MessageEnd(contents, e);
    MessageLine(contents, e);
    var m := contents[e..end];
    forall j | 0 <= j < |m|
      ensures m[j] != '\n'
    {
      assert m[j] == contents[e + j];
    }
    NoNewlineUnquoted(m);
    ErrorMessageStarts(contents);
  }

  /** The intended message ends at 200 characters, at the end of the contents or at a newline,
      and holds no newline before that. */
  lemma {:induction false} MessageLine(contents: string, e: nat)
    requires e <= |contents|
    ensures var end := MessageEnd(contents, e);
            (end == e + MessageLimit || end == |contents| || contents[end] == '\n') &&
            forall j :: e <= j < end ==> contents[j] != '\n'
  {
    var rest := contents[e..];
    var eolLoc := Find(rest, "\n");
    if eolLoc >= 0 {
      NewlineAt(rest, eolLoc);
      assert rest[eolLoc] == contents[e + eolLoc];
    }
    var end := MessageEnd(contents, e);
    forall j | e <= j < end
      ensures contents[j] != '\n'
    {
      BeforeNewline(rest, j - e);
    }
  }

  /** Removing quotes adds no newline. */
  lemma {:induction false} NoNewlineUnquoted(m: string)
    requires forall j :: 0 <= j < |m| ==> m[j] != '\n'
    ensures '\n' !in Unquoted(m)
  {
    assert '\n' !in m;
    assert '\n' !in RemoveChar(m, '"');
  }

  /** A time limit is reported whatever else the out file says. */
  lemma {:induction false} TimeLimitFirst(contents: string, before: string, after: string)
    requires contents == before + TimeLimit + after
    ensures Status(contents) == Some(Cancelled)
  {
    assert (before + TimeLimit + after)[|before|..|before| + |TimeLimit|] == TimeLimit;
    assert OccursAt(contents, TimeLimit, |before|);
  }

  /** An out file that starts with `error` in any case reports no error at all, not even a
      later one: only a stopped server still counts as success. */
  lemma {:induction false} ErrorAtStartHidden(contents: string)
    requires !Contains(contents, TimeLimit)
    requires |contents| >= 5 && Lower(contents[..5]) == "error"
    ensures Status(contents) == (if Contains(contents, ServerStopped) then Some(Success) else None)
  {
    var low := Lower(contents);
    assert low[..5] == Lower(contents[..5]);
    assert OccursAt(low, "error", 0);
  }

  /** What the script learns from one out file: the batch from its first batch line, and the
      status from what follows that line (unused when the batch cannot be read, since the
      script then stops). */
  method ReadOutFile(lines: seq<string>) returns (batch: Result<int, ReadError>, status: Option<string>)
    ensures (forall k :: 0 <= k < |lines| ==> !IsBatchLine(lines[k])) ==> batch == Ok(-1) && status == Status("")
    ensures forall k :: FirstBatchLine(lines, k) ==>
                          batch == BatchOfLine(lines[k]) && status == Status(Concat(lines[k + 1..]))
  {
    var consumed;
    batch, consumed := FindBatch(lines);
    status := Status(Concat(lines[consumed..]));
    if consumed == |lines| {
      assert lines[consumed..] == [];
    }
  }
}
