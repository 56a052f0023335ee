/** The client side of the socket protocol: the request a problem sends for one evaluation,
    the reading of the evaluator's response, and the per-suite data that caches the last
    message and response of each evaluation kind. */
module SocketCommunication {
  import opened Common
  import opened Text
  import opened Numerals
  import opened Scanf

  const Host: string := "127.0.0.1"
  const DefaultPrecisionX: nat := 8
  const Objectives: string := "objectives"
  const Constraints: string := "constraints"
  const Reset: string := "RESET"

  /** The fields of a request before the decision values. */
  datatype RequestHeader = RequestHeader(
    suiteName: string,
    evaluationType: string,
    numberOfValues: nat,
    functionNumber: nat,
    instance: nat,
    dimension: nat)

  /** `s <suite> t <type> r <values> f <function> i <instance> d <dimension> x`, one token each. */
  function HeaderTokens(h: RequestHeader): (ts: seq<string>)
    ensures |ts| == 13
  {
    ["s", h.suiteName, "t", h.evaluationType, "r", NatToString(h.numberOfValues),
     "f", NatToString(h.functionNumber), "i", NatToString(h.instance),
     "d", NatToString(h.dimension), "x"]
  }

  /** A request: the header tokens and then the value tokens, each followed by one space. */
  function RequestText(h: RequestHeader, values: seq<string>): string {
    Spaced(HeaderTokens(h) + values)
  }

  /** The problem fields a request is built from. */
  datatype SocketProblem = SocketProblem(
    suiteName: string,
    suiteDepFunction: nat,
    suiteDepInstance: nat,
    numberOfVariables: nat,
    numberOfIntegerVariables: nat,
    numberOfObjectives: nat,
    numberOfConstraints: nat)

  function Header(problem: SocketProblem, kind: string, count: nat): RequestHeader {
    RequestHeader(problem.suiteName, kind, count, problem.suiteDepFunction,
                  problem.suiteDepInstance, problem.numberOfVariables)
  }

  /** Options the suite was given; None where the option is absent. */
  datatype ClientOptions = ClientOptions(hostName: Option<string>, port: Option<nat>, precisionX: Option<int>)

  /** precision_x: the option when it lies in 1..32, the default 8 otherwise. */
  function PrecisionX(option: Option<int>): (p: nat)
    ensures 1 <= p <= 32
    ensures option.Some? && 1 <= option.value <= 32 ==> p == option.value
    ensures p != DefaultPrecisionX ==> option == Some(p as int)
  {
    if option.Some? && 1 <= option.value <= 32 then option.value else DefaultPrecisionX
  }

  /** The last message of one evaluation kind and the response it got. */
  datatype Slot = Slot(message: string, response: string)

  /** The bytes the client writes for a message: the text and its terminating NUL. */
  function Wire(message: string): string {
    message + "\0"
  }

  /** What the client keeps of the server's reply: the C string at the start of the bytes read. */
  function ResponseTo(server: string -> string, message: string): string {
    CutAtNul(server(Wire(message)))
  }

  /** The slot after an evaluation that built `message`, and the bytes written to the socket:
      the server is asked only when the message differs from the stored one. */
  function Lookup(slot: Slot, message: string, server: string -> string): (r: (Slot, seq<string>))
    ensures r.0.message == message
  {
    if message == slot.message then (slot, [])
    else (Slot(message, ResponseTo(server, message)), [Wire(message)])
  }

  lemma {:induction false} LookupRoundTrip(slot: Slot, message: string, server: string -> string)
    ensures Lookup(slot, message, server).1 != [] <==> message != slot.message
    ensures message != slot.message ==>
      Lookup(slot, message, server).1 == [Wire(message)] &&
      Lookup(slot, message, server).0.response == ResponseTo(server, message)
    ensures message == slot.message ==> Lookup(slot, message, server).0 == slot
  {
  }

  /** Two evaluations in a row with the same message ask the server at most once, and the
      second one reads the response the first one stored. */
  lemma {:induction false} LookupTwice(slot: Slot, message: string, server: string -> string)
    ensures var (first, sent1) := Lookup(slot, message, server);
            var (second, sent2) := Lookup(first, message, server);
            sent2 == [] && second == first && |sent1| + |sent2| <= 1
  {
    var (first, sent1) := Lookup(slot, message, server);
    assert first.message == message;
  }

  /** The first evaluation after initialisation always asks the server: requests are never empty. */
  lemma {:induction false} FirstLookupAsks(h: RequestHeader, values: seq<string>, server: string -> string)
    ensures Lookup(Slot("", ""), RequestText(h, values), server).1 == [Wire(RequestText(h, values))]
  {
    assert |RequestText(h, values)| > 0;
  }

  lemma {:induction false} SpacedSnoc(ts: seq<string>, t: string)
    ensures Spaced(ts + [t]) == Spaced(ts) + t + " "
  {
    SpacedAppend(ts, [t]);
    assert Spaced([t]) == t + " " + Spaced([]);
  }

  /** Header fields contain no space when the suite name and the evaluation type do not. */
  lemma {:induction false} HeaderTokensNoSpace(h: RequestHeader)
    requires ' ' !in h.suiteName && ' ' !in h.evaluationType
    ensures forall k :: 0 <= k < 13 ==> ' ' !in HeaderTokens(h)[k]
  {
    var ts := HeaderTokens(h);
    forall k | 0 <= k < 13 ensures ' ' !in ts[k] {
      if k == 5 || k == 7 || k == 9 || k == 11 {
        assert AllDigits(ts[k]);
      }
    }
  }

  /** The token %d writes for an integer variable and %.*e for a continuous one. */
  function ValueToken(isInteger: bool, precision: nat, doubleToInt: real -> int, v: real): string {
    if isInteger then IntToString(doubleToInt(v)) else FormatE(precision, v)
  }

  /** The number a value token writes: the converted integer, or v rounded to `precision`
      digits after the point. */
  function ValueNumber(isInteger: bool, precision: nat, doubleToInt: real -> int, v: real): (n: Number)
    ensures ValidNumber(n) && NumberText(n) == ValueToken(isInteger, precision, doubleToInt, v)
    ensures isInteger ==> NumberValue(n) == doubleToInt(v) as real
    ensures !isInteger ==> NumberValue(n) == SciValue(ToSci(precision, v))
  {
    if isInteger then IntNumber(doubleToInt(v)) else SciNumber(ToSci(precision, v))
  }

  /** Value tokens contain no space: an integer token is digits and a sign, a %e token a numeral. */
  lemma {:induction false} ValueTokenNoSpace(isInteger: bool, precision: nat, doubleToInt: real -> int, v: real)
    ensures ' ' !in ValueToken(isInteger, precision, doubleToInt, v)
    ensures ValueToken(isInteger, precision, doubleToInt, v) != []
  {
    var t := ValueToken(isInteger, precision, doubleToInt, v);
    if isInteger {
      IntToStringChars(doubleToInt(v));
    } else {
      NumeralHasNoSpace(t);
    }
  }

  /** Every number of a request reads back with Python's int() or float(): an integer variable
      as the integer it was converted to, a continuous one as its rounded %e value. */
  lemma {:induction false} ValueTokenReadsBack(isInteger: bool, precision: nat, doubleToInt: real -> int, v: real)
    ensures isInteger ==> PyInt(ValueToken(isInteger, precision, doubleToInt, v)) == Some(doubleToInt(v))
    ensures !isInteger ==> PyFloat(ValueToken(isInteger, precision, doubleToInt, v)) == Some(SciValue(ToSci(precision, v)))
  {
    if isInteger {
      PyIntOfIntToString(doubleToInt(v));
    } else {
      PyFloatRenderSci(ToSci(precision, v));
    }
  }

  /** A request's text splits at ' ' into the 13 header tokens, the value tokens and one empty
      part: it has 14 + d tokens separated by single spaces and ends with a space. */
  lemma {:induction false} RequestTokens(h: RequestHeader, values: seq<string>)
    requires ' ' !in h.suiteName && ' ' !in h.evaluationType
    requires forall k :: 0 <= k < |values| ==> ' ' !in values[k]
    ensures Split(RequestText(h, values), ' ') == HeaderTokens(h) + values + [""]
    ensures |RequestText(h, values)| > 0 && RequestText(h, values)[|RequestText(h, values)| - 1] == ' '
  {
    var ts := HeaderTokens(h) + values;
    HeaderTokensNoSpace(h);
    assert forall k :: 0 <= k < |ts| ==> ' ' !in ts[k] by {
      forall k | 0 <= k < |ts| ensures ' ' !in ts[k] {
        if k >= 13 {
          assert ts[k] == values[k - 13];
        }
      }
    }
    SplitSpaced(ts);
    SpacedEndsWithSpace(ts);
  }

  // ----- Reading a response -----

  /** One sscanf(text, "%lf%*c%n", ...) that returns 1: %lf skips white space and reads a
      number, %*c reads the one character after it, and %n then stores the count of characters
      read.  None when no number is read (sscanf returns 0 or EOF); the count is None when the
      input ends right after the number, so that %*c fails and %n stores nothing. */
  function ReadValue(s: string): (r: Option<(Decimal, Option<nat>)>)
    ensures r.Some? && r.value.1.Some? ==> r.value.1.value <= |s|
  {
    var t := SkipBlank(s);
    if t == [] then None
    else
      match ScanDecimal(t)
      case None => None
      case Some((d, rest)) => Some((d, if rest == [] then None else Some(|s| - |rest| + 1)))
  }

  lemma {:induction false} ReadValueOf(s: string, d: Decimal, rest: string, c: char, t: string)
    requires s != [] && !IsSpace(s[0])
    requires ScanDecimal(s) == Some((d, rest))
    requires rest == [c] + t
    ensures |t| < |s|
    ensures ReadValue(s) == Some((d, Some(|s| - |t|)))
  {
    assert SkipBlank(s) == s;
  }

  lemma {:induction false} ReadValueAtEnd(s: string, d: Decimal)
    requires s != [] && !IsSpace(s[0])
    requires ScanDecimal(s) == Some((d, ""))
    ensures ReadValue(s) == Some((d, None))
  {
    assert SkipBlank(s) == s;
  }

  datatype DecodeError =
    | UnreadableValue(at: string)   // sscanf did not return 1: the program exits
    | IndeterminateCount            // the offset is advanced by a count no sscanf has stored
    | PastTheEnd                    // the offset is moved beyond the end of the string
    | MissingDelimiter              // a value is not followed by a delimiter

  function Cons(v: real, r: Result<seq<real>, DecodeError>): Result<seq<real>, DecodeError> {
    if r.Ok? then Ok([v] + r.value) else r
  }

  /** The loop "read %lf%*c%n at offset, advance offset by the count" for n values, as written:
      when the input ends right after a number, %n stores nothing and the offset advances by
      the count an earlier call stored (`stale`). */
  function ReadValues(rest: string, stale: Option<nat>, n: nat): (r: Result<seq<real>, DecodeError>)
    ensures r.Ok? ==> |r.value| == n
    decreases n
  {
    if n == 0 then Ok([])
    else
      match ReadValue(rest)
      case None => Err(UnreadableValue(rest))
      case Some((d, c)) =>
        var count := if c.Some? then c else stale;
        if n == 1 then Ok([DecimalValue(d)])
        else if count.None? then Err(IndeterminateCount)
        else if count.value > |rest| then Err(PastTheEnd)
        else Cons(DecimalValue(d), ReadValues(rest[count.value..], count, n - 1))
  }

  /** The reading the format and the comments describe: n numbers, each followed by one
      delimiter character. */
  function DecodeResponse(rest: string, n: nat): (r: Result<seq<real>, DecodeError>)
    ensures r.Ok? ==> |r.value| == n
    decreases n
  {
    if n == 0 then Ok([])
    else
      match ReadValue(rest)
      case None => Err(UnreadableValue(rest))
      case Some((d, c)) =>
        if c.None? || c.value > |rest| then Err(MissingDelimiter)
        else Cons(DecimalValue(d), DecodeResponse(rest[c.value..], n - 1))
  }

  /** Where the intended reading succeeds, the loop as written reads the same values. */
  lemma {:induction false} ReadValuesAgrees(rest: string, stale: Option<nat>, n: nat)
    requires DecodeResponse(rest, n).Ok?
    ensures ReadValues(rest, stale, n) == DecodeResponse(rest, n)
    decreases n
  {
    if n > 0 {
      var (d, c) := ReadValue(rest).value;
      var t := rest[c.value..];
      DecodeStep(rest, n, d, c.value, t, n - 1);
      if n > 1 {
        ReadValuesAgrees(t, c, n - 1);
        ReadValuesStep(rest, stale, n, d, c, c.value, t, n - 1);
      } else {
        assert [DecimalValue(d)] + [] == [DecimalValue(d)];
      }
    }
  }

  lemma {:induction false} DecodeStep(s: string, n: nat, d: Decimal, c: nat, t: string, m: nat)
    requires n > 0 && m == n - 1
    requires ReadValue(s) == Some((d, Some(c)))
    requires c <= |s| && t == s[c..]
    ensures DecodeResponse(s, n) == Cons(DecimalValue(d), DecodeResponse(t, m))
  {
    DecodeSucc(s, m, d, c, t);
  }

  /** DecodeStep with the count written as a successor. */
  lemma {:induction false} DecodeSucc(s: string, m: nat, d: Decimal, c: nat, t: string)
    requires ReadValue(s) == Some((d, Some(c)))
    requires c <= |s| && t == s[c..]
    ensures DecodeResponse(s, m + 1) == Cons(DecimalValue(d), DecodeResponse(t, m))
  {
  }

  lemma {:induction false} DecodeUnreadable(s: string, n: nat)
    requires n > 0 && ReadValue(s) == None
    ensures DecodeResponse(s, n) == Err(UnreadableValue(s))
  {
  }

  /** One step of the loop as written, with the count it advances by. */
  lemma {:induction false} ReadValuesStep(s: string, stale: Option<nat>, n: nat, d: Decimal, c: Option<nat>, count: nat, t: string, m: nat)
    requires n > 1 && m == n - 1
    requires ReadValue(s) == Some((d, c))
    requires (if c.Some? then c else stale) == Some(count)
    requires count <= |s| && t == s[count..]
    ensures ReadValues(s, stale, n) == Cons(DecimalValue(d), ReadValues(t, Some(count), m))
  {
    ReadValuesSucc(s, stale, m, d, c, count, t);
  }

  /** ReadValuesStep with the count written as a successor. */
  lemma {:induction false} ReadValuesSucc(s: string, stale: Option<nat>, m: nat, d: Decimal, c: Option<nat>, count: nat, t: string)
    requires m > 0
    requires ReadValue(s) == Some((d, c))
    requires (if c.Some? then c else stale) == Some(count)
    requires count <= |s| && t == s[count..]
    ensures ReadValues(s, stale, m + 1) == Cons(DecimalValue(d), ReadValues(t, Some(count), m))
  {
  }

  lemma {:induction false} ReadValuesLast(s: string, stale: Option<nat>, d: Decimal, c: Option<nat>)
    requires ReadValue(s) == Some((d, c))
    ensures ReadValues(s, stale, 1) == Ok([DecimalValue(d)])
  {
  }

  /** Reading a number token followed by a space and more text. */
  lemma {:induction false} ReadToken(s: string, x: Number, r: string, tail: string)
    requires ValidNumber(x) && r == NumberText(x)
    requires s == r + " " + tail
    ensures ReadValue(s) == Some((NumberDecimal(x), Some(|r| + 1)))
    ensures |r| + 1 <= |s| && s[|r| + 1..] == tail
    ensures DecimalValue(NumberDecimal(x)) == NumberValue(x)
  {
    var rest := " " + tail;
    Associate(s, r, " ", tail);
    ScanNumber(x, rest);
    NumberTextPlain(x);
    ReadWord(s, NumberDecimal(x), r, rest, tail);
  }

  /** A word strtod reads whole, then a space: the count is the word and the space. */
  lemma {:induction false} ReadWord(s: string, d: Decimal, r: string, rest: string, tail: string)
    requires r != [] && !IsSpace(r[0]) && s == r + rest && rest == " " + tail
    requires ScanDecimal(s) == Some((d, rest))
    ensures ReadValue(s) == Some((d, Some(|r| + 1)))
    ensures |r| + 1 <= |s| && s[|r| + 1..] == tail
  {
    assert s[0] == r[0];
    ReadValueOf(s, d, rest, ' ', tail);
    assert s[|r| + 1..] == tail;
  }

  /** Decoding from a number token followed by a space: its value, then the rest. */
  lemma {:induction false} DecodeToken(s: string, x: Number, r: string, t: string, n: nat, m: nat)
    requires ValidNumber(x) && r == NumberText(x)
    requires s == r + " " + t
    requires n > 0 && m == n - 1
    ensures DecodeResponse(s, n) == Cons(NumberValue(x), DecodeResponse(t, m))
  {
    ReadToken(s, x, r, t);
    DecodeStep(s, n, NumberDecimal(x), |r| + 1, t, m);
  }

  lemma {:induction false} Associate(s: string, a: string, b: string, c: string)
    requires s == a + b + c
    ensures s == a + (b + c)
  {
  }

  /** ts are the texts of the numbers xs and vs their values. */
  predicate RendersAs(ts: seq<string>, xs: seq<Number>, vs: seq<real>)
    decreases |ts|
  {
    |ts| == |xs| == |vs| &&
    (ts != [] ==>
      ValidNumber(xs[0]) && ts[0] == NumberText(xs[0]) && vs[0] == NumberValue(xs[0]) &&
      RendersAs(ts[1..], xs[1..], vs[1..]))
  }

  /** RendersAs, position by position. */
  lemma {:induction false} RendersAsEach(ts: seq<string>, xs: seq<Number>, vs: seq<real>)
    requires |ts| == |xs| == |vs|
    requires forall k :: 0 <= k < |ts| ==> ValidNumber(xs[k]) && ts[k] == NumberText(xs[k]) && vs[k] == NumberValue(xs[k])
    ensures RendersAs(ts, xs, vs)
    decreases |ts|
  {
    if ts != [] {
      var ts1, xs1, vs1 := ts[1..], xs[1..], vs[1..];
      forall k | 0 <= k < |ts1|
        ensures ValidNumber(xs1[k]) && ts1[k] == NumberText(xs1[k]) && vs1[k] == NumberValue(xs1[k])
      {
        assert ts1[k] == ts[k + 1] && xs1[k] == xs[k + 1] && vs1[k] == vs[k + 1];
      }
      RendersAsEach(ts1, xs1, vs1);
    }
  }

  /** The loop as written reads n rendered numbers back as well, whatever count it starts with. */
  lemma {:induction false} ReadValuesRendered(ts: seq<string>, xs: seq<Number>, vs: seq<real>, stale: Option<nat>, n: nat)
    requires RendersAs(ts, xs, vs) && n <= |ts|
    ensures ReadValues(Spaced(ts), stale, n) == Ok(vs[..n])
  {
    DecodeRendered(ts, xs, vs, n);
    ReadValuesAgrees(Spaced(ts), stale, n);
  }

  /** Reading n values from a response of at least n number tokens gives their values, in order. */
  lemma {:induction false} DecodeRendered(ts: seq<string>, xs: seq<Number>, vs: seq<real>, n: nat)
    requires RendersAs(ts, xs, vs) && n <= |ts|
    ensures DecodeResponse(Spaced(ts), n) == Ok(vs[..n])
    decreases n
  {
    if n > 0 {
      var ts1, xs1, vs1, m := ts[1..], xs[1..], vs[1..], n - 1;
      DecodeRendered(ts1, xs1, vs1, m);
      DecodeHeadOk(ts, ts1, xs[0], n, m, vs1[..m]);
      PrefixSplit(vs, vs1, NumberValue(xs[0]), n, m);
    } else {
      assert vs[..0] == [];
    }
  }

  /** A response with fewer tokens than expected is a failure. */
  lemma {:induction false} DecodeTooFew(ts: seq<string>, xs: seq<Number>, vs: seq<real>, n: nat)
    requires RendersAs(ts, xs, vs) && |ts| < n
    ensures DecodeResponse(Spaced(ts), n).Err?
    decreases n
  {
    if ts == [] {
      DecodeNothing(ts, n);
    } else {
      var ts1, xs1, vs1, m := ts[1..], xs[1..], vs[1..], n - 1;
      DecodeTooFew(ts1, xs1, vs1, m);
      DecodeHeadErr(ts, ts1, xs[0], n, m);
    }
  }

  lemma {:induction false} DecodeNothing(ts: seq<string>, n: nat)
    requires ts == [] && n > 0
    ensures DecodeResponse(Spaced(ts), n) == Err(UnreadableValue(""))
  {
    var s := Spaced(ts);
    assert s == [];
    assert ReadValue(s) == None;
    DecodeUnreadable(s, n);
  }

  /** The first token of a spaced response read as x's value, followed by the rest. */
  lemma {:induction false} DecodeHead(ts: seq<string>, ts1: seq<string>, x: Number, n: nat, m: nat)
    requires ts != [] && ts1 == ts[1..] && ValidNumber(x) && ts[0] == NumberText(x) && n > 0 && m == n - 1
    ensures DecodeResponse(Spaced(ts), n) == Cons(NumberValue(x), DecodeResponse(Spaced(ts1), m))
  {
    var s, t := Spaced(ts), Spaced(ts1);
    assert s == ts[0] + " " + t;
    DecodeToken(s, x, ts[0], t, n, m);
  }

  lemma {:induction false} DecodeHeadOk(ts: seq<string>, ts1: seq<string>, x: Number, n: nat, m: nat, w: seq<real>)
    requires ts != [] && ts1 == ts[1..] && ValidNumber(x) && ts[0] == NumberText(x) && n > 0 && m == n - 1
    requires DecodeResponse(Spaced(ts1), m) == Ok(w)
    ensures DecodeResponse(Spaced(ts), n) == Ok([NumberValue(x)] + w)
  {
    DecodeHead(ts, ts1, x, n, m);
  }

  lemma {:induction false} DecodeHeadErr(ts: seq<string>, ts1: seq<string>, x: Number, n: nat, m: nat)
    requires ts != [] && ts1 == ts[1..] && ValidNumber(x) && ts[0] == NumberText(x) && n > 0 && m == n - 1
    requires DecodeResponse(Spaced(ts1), m).Err?
    ensures DecodeResponse(Spaced(ts), n).Err?
  {
    DecodeHead(ts, ts1, x, n, m);
  }

  lemma {:induction false} PrefixSplit(vs: seq<real>, vs1: seq<real>, v: real, n: nat, m: nat)
    requires 0 < n <= |vs| && vs1 == vs[1..] && v == vs[0] && m == n - 1
    ensures [v] + vs1[..m] == vs[..n]
  {
  }

  /** The sscanf calls of the C loop on "1 234" for three values: the second number ends the
      text, so %n stores nothing and the offset moves on by the 2 the first call stored, into
      the middle of "234", where a third number is found. */
  lemma {:induction false} ShortResponseReadsThree()
    ensures ReadValues("1 234", None, 3) == Ok([1.0, 234.0, 4.0])
    ensures DecodeResponse("1 234", 3).Err?
  {
    var s, s2, s3 := "1 234", "234", "4";
    var d1, d2, d3 := IntDecimal(1), IntDecimal(234), IntDecimal(4);
    ShortFirst(s, d1, s2);
    ShortDigits();
    ShortLast(s2, d2, 234);
    ShortLast(s3, d3, 4);
    assert s2[2..] == s3;
    StaleChain(s, s2, s3, d1, d2, d3);
    MissingSecond(s, s2, d1, d2);
  }

  /** The intended reading stops at the second number, which no delimiter follows. */
  lemma {:induction false} MissingSecond(s: string, s2: string, d1: Decimal, d2: Decimal)
    requires ReadValue(s) == Some((d1, Some(2))) && 2 <= |s| && s2 == s[2..]
    requires ReadValue(s2) == Some((d2, None))
    ensures DecodeResponse(s, 3).Err?
  {
    DecodeStep(s, 3, d1, 2, s2, 2);
    DecodeMissing(s2, 2, d2);
  }

  lemma {:induction false} ShortFirst(s: string, d: Decimal, t: string)
    requires s == "1 234" && d == IntDecimal(1) && t == "234"
    ensures ReadValue(s) == Some((d, Some(2))) && s[2..] == t && DecimalValue(d) == 1.0
  {
    ScanIntToString(1, " 234");
    assert IntToString(1) + " 234" == s;
    ReadValueOf(s, d, " 234", ' ', t);
    assert s[2..] == t;
  }

  lemma {:induction false} ShortLast(s: string, d: Decimal, k: nat)
    requires s == NatToString(k) && d == IntDecimal(k)
    ensures ReadValue(s) == Some((d, None)) && |s| >= 1 && DecimalValue(d) == k as real
  {
    ScanIntToString(k, "");
    assert IntToString(k) + "" == s;
    ReadValueAtEnd(s, d);
  }

  lemma {:induction false} ShortDigits()
    ensures NatToString(234) == "234" && NatToString(4) == "4"
  {
  }

  /** Three values read with the count 2 carried over from the first call. */
  lemma {:induction false} StaleChain(s: string, s2: string, s3: string, d1: Decimal, d2: Decimal, d3: Decimal)
    requires ReadValue(s) == Some((d1, Some(2))) && 2 <= |s| && s2 == s[2..]
    requires ReadValue(s2) == Some((d2, None)) && 2 <= |s2| && s3 == s2[2..]
    requires ReadValue(s3).Some? && ReadValue(s3).value.0 == d3
    ensures ReadValues(s, None, 3) == Ok([DecimalValue(d1), DecimalValue(d2), DecimalValue(d3)])
  {
    StaleTail(s2, s3, d2, d3);
    ReadValuesStep(s, None, 3, d1, Some(2), 2, s2, 2);
    assert [DecimalValue(d1)] + [DecimalValue(d2), DecimalValue(d3)] == [DecimalValue(d1), DecimalValue(d2), DecimalValue(d3)];
  }

  lemma {:induction false} StaleTail(s2: string, s3: string, d2: Decimal, d3: Decimal)
    requires ReadValue(s2) == Some((d2, None)) && 2 <= |s2| && s3 == s2[2..]
    requires ReadValue(s3).Some? && ReadValue(s3).value.0 == d3
    ensures ReadValues(s2, Some(2), 2) == Ok([DecimalValue(d2), DecimalValue(d3)])
  {
    ReadValuesLast(s3, Some(2), d3, ReadValue(s3).value.1);
    ReadValuesStep(s2, Some(2), 2, d2, None, 2, s3, 1);
    assert [DecimalValue(d2)] + [DecimalValue(d3)] == [DecimalValue(d2), DecimalValue(d3)];
  }

  lemma {:induction false} DecodeMissing(s: string, n: nat, d: Decimal)
    requires n > 0 && ReadValue(s) == Some((d, None))
    ensures DecodeResponse(s, n) == Err(MissingDelimiter)
  {
  }

  /** The values read so far in front of what the rest of the loop reads. */
  function Prepend(done: seq<real>, r: Result<seq<real>, DecodeError>): Result<seq<real>, DecodeError> {
    if r.Ok? then Ok(done + r.value) else r
  }

  /** The outcome of a reading with the values dropped: what the evaluation reports. */
  function Settle(r: Result<seq<real>, DecodeError>): Result<(), DecodeError> {
    if r.Ok? then Ok(()) else Err(r.error)
  }

  lemma {:induction false} PrependNil(total: Result<seq<real>, DecodeError>)
    ensures Prepend([], total) == total
  {
    if total.Ok? {
      assert [] + total.value == total.value;
    }
  }

  /** Appending one token to a message built from the first i tokens. */
  lemma {:induction false} MessageStep(head: string, tokens: seq<string>, i: nat, message: string, token: string)
    requires i < |tokens| && token == tokens[i] && message == head + Spaced(tokens[..i])
    ensures message + token + " " == head + Spaced(tokens[..i + 1])
  {
    assert tokens[..i + 1] == tokens[..i] + [token];
    SpacedSnoc(tokens[..i], token);
  }

  /** The loop of socket_communication_save_response with the unread text `rest` (response +
      offset), `left` values to go and `done` read: what remains to be read completes the
      reading of the whole response. */
  ghost predicate Reading(rest: string, stale: Option<nat>, left: nat, done: seq<real>,
                          total: Result<seq<real>, DecodeError>) {
    Prepend(done, ReadValues(rest, stale, left)) == total
  }

  /** A turn of the loop that finds no number: the reading stops there. */
  lemma {:induction false} ReadingUnreadable(rest: string, stale: Option<nat>, left: nat, done: seq<real>,
                    total: Result<seq<real>, DecodeError>)
    requires left > 0 && Reading(rest, stale, left, done, total)
    requires ReadValue(rest).None?
    ensures total == Err(UnreadableValue(rest))
  {
  }

  /** A turn of the loop that reads d and moves on by count: the reading one value further on. */
  lemma {:induction false} ReadingStep(rest: string, stale: Option<nat>, left: nat, done: seq<real>,
                    total: Result<seq<real>, DecodeError>, d: Decimal, c: Option<nat>, count: nat, t: string, m: nat)
    requires Reading(rest, stale, left, done, total) && left > 1 && m == left - 1
    requires ReadValue(rest) == Some((d, c)) && (if c.Some? then c else stale) == Some(count)
    requires count <= |rest| && t == rest[count..]
    ensures Reading(t, Some(count), m, done + [DecimalValue(d)], total)
  {
    ReadValuesStep(rest, stale, left, d, c, count, t, m);
    var r := ReadValues(t, Some(count), m);
    if r.Ok? {
      assert done + ([DecimalValue(d)] + r.value) == done + [DecimalValue(d)] + r.value;
    }
  }

  /** The turn that reads the last value: the reading is complete. */
  lemma {:induction false} ReadingLast(rest: string, stale: Option<nat>, done: seq<real>,
                    total: Result<seq<real>, DecodeError>, d: Decimal, c: Option<nat>, next: Option<nat>)
    requires Reading(rest, stale, 1, done, total)
    requires ReadValue(rest) == Some((d, c))
    ensures Reading(rest, next, 0, done + [DecimalValue(d)], total)
  {
    ReadValuesLast(rest, stale, d, c);
    assert done + [DecimalValue(d)] + [] == done + [DecimalValue(d)];
  }

  /** A turn that is not the last and has no count to move on by. */
  lemma {:induction false} ReadingIndeterminate(rest: string, stale: Option<nat>, left: nat, done: seq<real>,
                    total: Result<seq<real>, DecodeError>, d: Decimal)
    requires Reading(rest, stale, left, done, total) && left > 1
    requires ReadValue(rest) == Some((d, None)) && stale.None?
    ensures total == Err(IndeterminateCount)
  {
  }

  /** A turn that is not the last and whose count moves past the end of the text. */
  lemma {:induction false} ReadingPastTheEnd(rest: string, stale: Option<nat>, left: nat, done: seq<real>,
                    total: Result<seq<real>, DecodeError>, d: Decimal, c: Option<nat>, count: nat)
    requires Reading(rest, stale, left, done, total) && left > 1
    requires ReadValue(rest) == Some((d, c)) && (if c.Some? then c else stale) == Some(count)
    requires count > |rest|
    ensures total == Err(PastTheEnd)
  {
  }

  lemma {:induction false} ReadingDone(rest: string, stale: Option<nat>, done: seq<real>,
                    total: Result<seq<real>, DecodeError>)
    requires Reading(rest, stale, 0, done, total)
    ensures total == Ok(done)
  {
    assert done + [] == done;
  }

  /** The loop "read %lf%*c%n at offset, advance offset by the count" run over text for n
      values, with `stale` the count stored before the loop: the values read into `values`, or
      the reason the loop stops. */
  method ReadValuesInto(text: string, stale: Option<nat>, n: nat, values: array<real>) returns (status: Result<(), DecodeError>)
    requires values.Length >= n
    modifies values
    ensures status == Settle(ReadValues(text, stale, n))
    ensures status.Ok? ==> values[..n] == ReadValues(text, stale, n).value
  {
    ghost var total := ReadValues(text, stale, n);
    var rest := text;  // text + offset
    var readCount: Option<nat> := stale;
    var i: nat := 0;
    ghost var left, done := n, [];
    PrependNil(total);
    status := Ok(());
    while i < n
      invariant i <= n && left == n - i && status.Ok? && values[..i] == done
      invariant Reading(rest, readCount, left, done, total)
    {
      ghost var next := left - 1;
      var read := ReadValue(rest);
      if read.None? {
        ReadingUnreadable(rest, readCount, left, done, total);
        status := Err(UnreadableValue(rest));
        break;
      }
      var (d, c) := read.value;
      values[i] := DecimalValue(d);
      ghost var before := readCount;
      if c.Some? {
        readCount := c;
      }
      if i + 1 < n {
        if readCount.None? {
          ReadingIndeterminate(rest, before, left, done, total, d);
          status := Err(IndeterminateCount);
          break;
        }
        if readCount.value > |rest| {
          ReadingPastTheEnd(rest, before, left, done, total, d, c, readCount.value);
          status := Err(PastTheEnd);
          break;
        }
        ReadingStep(rest, before, left, done, total, d, c, readCount.value, rest[readCount.value..], next);
        rest := rest[readCount.value..];
      } else {
        ReadingLast(rest, before, done, total, d, c, readCount);
      }
      done := done + [DecimalValue(d)];
      i, left := i + 1, next;
    }
    if status.Ok? {
      ReadingDone(rest, readCount, done, total);
    }
  }

  /** One client of the socket evaluator, as the suite's data. */
  class SocketCommunicationData {
    const port: nat
    const hostName: string
    const precisionX: nat
    /** coco_double_to_int, which the model takes as given. */
    const doubleToInt: real -> int
    var prevMessageObj: string
    var prevResponseObj: string
    var prevMessageCon: string
    var prevResponseCon: string
    /** Every byte string written to the socket, in order. */
    ghost var sent: seq<string>

    /** socket_communication_data_initialize: the options or their defaults, empty slots. */
    constructor (options: ClientOptions, defaultPort: nat, doubleToInt: real -> int)
      requires defaultPort < 0x1_0000
      requires options.port.Some? ==> options.port.value < 0x1_0000
      ensures hostName == (if options.hostName.Some? then options.hostName.value else Host)
      ensures port == (if options.port.Some? then options.port.value else defaultPort)
      ensures precisionX == PrecisionX(options.precisionX)
      ensures this.doubleToInt == doubleToInt
      ensures prevMessageObj == "" && prevResponseObj == "" && prevMessageCon == "" && prevResponseCon == ""
      ensures sent == []
    {
      hostName := if options.hostName.Some? then options.hostName.value else Host;
      port := if options.port.Some? then options.port.value else defaultPort;
      var p := DefaultPrecisionX;
      if options.precisionX.Some? {
        p := options.precisionX.value;
        if p < 1 || p > 32 {
          p := DefaultPrecisionX;
        }
      }
      precisionX := p;
      this.doubleToInt := doubleToInt;
      prevMessageObj, prevResponseObj := "", "";
      prevMessageCon, prevResponseCon := "", "";
      sent := [];
    }

    function ValueTokens(problem: SocketProblem, x: seq<real>): (ts: seq<string>)
      ensures |ts| == |x|
    {
      seq(|x|, k requires 0 <= k < |x| =>
        ValueToken(k < problem.numberOfIntegerVariables, precisionX, doubleToInt, x[k]))
    }

    /** The numbers the value tokens of x write. */
    function ValueNumbers(problem: SocketProblem, x: seq<real>): (ns: seq<Number>)
      ensures |ns| == |x|
    {
      seq(|x|, k requires 0 <= k < |x| =>
        ValueNumber(k < problem.numberOfIntegerVariables, precisionX, doubleToInt, x[k]))
    }

    /** The values a reader of the request gets back for x: the first
        numberOfIntegerVariables as converted integers, the others rounded by %.*e. */
    function ValuesSent(problem: SocketProblem, x: seq<real>): (vs: seq<real>)
      ensures |vs| == |x|
      ensures forall k :: 0 <= k < problem.numberOfIntegerVariables && k < |x| ==> vs[k] == doubleToInt(x[k]) as real
      ensures forall k :: problem.numberOfIntegerVariables <= k < |x| ==> vs[k] == SciValue(ToSci(precisionX, x[k]))
    {
      seq(|x|, k requires 0 <= k < |x| => NumberValue(ValueNumbers(problem, x)[k]))
    }

    /** The value tokens are the texts of the value numbers. */
    lemma {:induction false} ValueTokensRender(problem: SocketProblem, x: seq<real>)
      ensures RendersAs(ValueTokens(problem, x), ValueNumbers(problem, x), ValuesSent(problem, x))
    {
      RendersAsEach(ValueTokens(problem, x), ValueNumbers(problem, x), ValuesSent(problem, x));
    }

    /** The request this client sends for x. */
    function Message(kind: string, count: nat, problem: SocketProblem, x: seq<real>): string {
      RequestText(Header(problem, kind, count), ValueTokens(problem, x))
    }

    /** socket_communication_create_message: the header, then one token per variable. */
    method CreateMessage(kind: string, count: nat, problem: SocketProblem, x: seq<real>) returns (message: string)
      requires |x| == problem.numberOfVariables
      ensures message == Message(kind, count, problem, x)
    {
      var header := Header(problem, kind, count);
      ghost var tokens := ValueTokens(problem, x);
      var head := Spaced(HeaderTokens(header));
      message := head;
      for i := 0 to |x|
        invariant message == head + Spaced(tokens[..i])
      {
        var token: string;
        if i < problem.numberOfIntegerVariables {
          token := IntToString(doubleToInt(x[i]));
        } else {
          token := FormatE(precisionX, x[i]);
        }
        MessageStep(head, tokens, i, message, token);
        message := message + token + " ";
      }
      assert tokens[..|x|] == tokens;
      SpacedAppend(HeaderTokens(header), tokens);
    }

    /** socket_communication_save_response: expected values read into `values`, or the reason
        the loop as written stops. */
    static method SaveResponse(response: string, expected: nat, values: array<real>) returns (status: Result<(), DecodeError>)
      requires values.Length >= expected
      modifies values
      ensures status == Settle(ReadValues(response, None, expected))
      ensures status.Ok? ==> values[..expected] == ReadValues(response, None, expected).value
    {
      status := ReadValuesInto(response, None, expected, values);
    }

    /** socket_evaluate_function: the objectives message, the server asked only when it differs
        from the previous one, and the stored response read into y. */
    method EvaluateFunction(problem: SocketProblem, x: seq<real>, y: array<real>, server: string -> string)
      returns (status: Result<(), DecodeError>)
      requires |x| == problem.numberOfVariables && y.Length >= problem.numberOfObjectives
      modifies this, y
      ensures var (slot, wrote) := Lookup(old(Slot(prevMessageObj, prevResponseObj)),
                                          Message(Objectives, problem.numberOfObjectives, problem, x), server);
              prevMessageObj == slot.message && prevResponseObj == slot.response && sent == old(sent) + wrote
      ensures prevMessageCon == old(prevMessageCon) && prevResponseCon == old(prevResponseCon)
      ensures status == Settle(ReadValues(prevResponseObj, None, problem.numberOfObjectives))
      ensures status.Ok? ==> y[..problem.numberOfObjectives] == ReadValues(prevResponseObj, None, problem.numberOfObjectives).value
    {
      var message := CreateMessage(Objectives, problem.numberOfObjectives, problem, x);
      if message != prevMessageObj {
        prevMessageObj := message;
        prevResponseObj := ResponseTo(server, message);
        sent := sent + [Wire(message)];
      }
      status := SaveResponse(prevResponseObj, problem.numberOfObjectives, y);
    }

    /** socket_evaluate_constraint: as for the objectives, with the constraints slot. */
    method EvaluateConstraint(problem: SocketProblem, x: seq<real>, y: array<real>, server: string -> string)
      returns (status: Result<(), DecodeError>)
      requires |x| == problem.numberOfVariables && y.Length >= problem.numberOfConstraints
      modifies this, y
      ensures var (slot, wrote) := Lookup(old(Slot(prevMessageCon, prevResponseCon)),
                                          Message(Constraints, problem.numberOfConstraints, problem, x), server);
              prevMessageCon == slot.message && prevResponseCon == slot.response && sent == old(sent) + wrote
      ensures prevMessageObj == old(prevMessageObj) && prevResponseObj == old(prevResponseObj)
      ensures status == Settle(ReadValues(prevResponseCon, None, problem.numberOfConstraints))
      ensures status.Ok? ==> y[..problem.numberOfConstraints] == ReadValues(prevResponseCon, None, problem.numberOfConstraints).value
    {
      var message := CreateMessage(Constraints, problem.numberOfConstraints, problem, x);
      if message != prevMessageCon {
        prevMessageCon := message;
        prevResponseCon := ResponseTo(server, message);
        sent := sent + [Wire(message)];
      }
      status := SaveResponse(prevResponseCon, problem.numberOfConstraints, y);
    }

    /** socket_communication_data_finalize: the server is told to reset. */
    method Finalize()
      modifies this
      ensures sent == old(sent) + [Wire(Reset)]
      ensures prevMessageObj == old(prevMessageObj) && prevResponseObj == old(prevResponseObj)
      ensures prevMessageCon == old(prevMessageCon) && prevResponseCon == old(prevResponseCon)
    {
      sent := sent + [Wire(Reset)];
    }
  }
}
