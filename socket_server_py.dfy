/** The Python socket server: it looks every field of a request up by its tag, dispatches to
    the Python toy evaluator, builds the response, and serves its clients until it is told to
    shut down. */
module SocketServerPy {
  import opened Common
  import opened Text
  import opened Numerals
  import opened SocketCommunication
  import Toy = ToySocketEvaluatorPy
  import ToyC = ToySocketEvaluatorC
  import C = SocketServerC

  /** The exception evaluate_message raises. */
  datatype PyServerError =
    | TagMissing(tag: string)                        // list.index raises ValueError
    | ValueMissing(tag: string)                      // the tag is the last token: IndexError
    | NotAnInteger(token: string)                    // int() raises ValueError
    | NotAFloat(token: string)                       // float() raises ValueError
    | DimensionMismatch(count: nat, dimension: int)  // len(x) differs from d
    | SuiteNotSupported(suite: string)               // no evaluator for the suite
    | TypeNotSupported(kind: string)                 // neither "objectives" nor "constraints"
    | EvaluatorFailed(failure: Toy.PyError)          // the evaluator raises
    | CountMismatch(count: nat, expected: int)       // len(values) differs from r

  // ----- Parsing: msg = message.split(' ') and a lookup per tag -----

  /** msg.index(tag): the position of the first occurrence of the token, or |ts| when there
      is none. */
  function TokenIndex(ts: seq<string>, tag: string): (k: nat)
    ensures k <= |ts|
    ensures k < |ts| ==> ts[k] == tag
    ensures tag !in ts <==> k == |ts|
    decreases |ts|
  {
    if ts == [] then 0 else if ts[0] == tag then 0 else 1 + TokenIndex(ts[1..], tag)
  }

  /** The index is the first occurrence: the tag does not occur before it. */
  lemma {:induction false} TokenIndexFirst(ts: seq<string>, tag: string, j: nat)
    requires j < TokenIndex(ts, tag)
    ensures ts[j] != tag
    decreases |ts|
  {
    if j > 0 {
      assert ts[1..][j - 1] == ts[j];
      TokenIndexFirst(ts[1..], tag, j - 1);
    }
  }

  /** msg[msg.index(tag) + 1]: the token after the first occurrence of the tag. */
  function FieldAfter(ts: seq<string>, tag: string): (r: Result<string, PyServerError>)
    ensures tag !in ts <==> r == Err(TagMissing(tag))
    ensures r.Ok? ==> TokenIndex(ts, tag) + 1 < |ts| && ts[TokenIndex(ts, tag)] == tag &&
                      r.value == ts[TokenIndex(ts, tag) + 1]
  {
    var k := TokenIndex(ts, tag);
    if k == |ts| then Err(TagMissing(tag))
    else if k + 1 == |ts| then Err(ValueMissing(tag))
    else Ok(ts[k + 1])
  }

  /** int(msg[msg.index(tag) + 1]). */
  function IntAfter(ts: seq<string>, tag: string): (r: Result<int, PyServerError>)
    ensures r.Ok? ==> FieldAfter(ts, tag).Ok? && PyInt(FieldAfter(ts, tag).value) == Some(r.value)
    ensures FieldAfter(ts, tag).Err? ==> r == Err(FieldAfter(ts, tag).error)
  {
    var t :- FieldAfter(ts, tag);
    match PyInt(t)
    case None => Err(NotAnInteger(t))
    case Some(n) => Ok(n)
  }

  /** [float(m) for m in ts if m != '']: the first token float() cannot read raises. */
  function Floats(ts: seq<string>): (r: Result<seq<real>, PyServerError>)
    ensures r.Ok? ==> |r.value| <= |ts|
    decreases |ts|
  {
    if ts == [] then Ok([])
    else if ts[0] == "" then Floats(ts[1..])
    else match PyFloat(ts[0])
      case None => Err(NotAFloat(ts[0]))
      case Some(v) =>
        var more :- Floats(ts[1..]);
        Ok([v] + more)
  }

  /** msg[msg.index('x') + 1:]: x needs its tag, and a slice past the end is empty. */
  function XValues(ts: seq<string>): (r: Result<seq<real>, PyServerError>)
    ensures "x" !in ts ==> r == Err(TagMissing("x"))
  {
    var k := TokenIndex(ts, "x");
    if k == |ts| then Err(TagMissing("x")) else Floats(ts[k + 1..])
  }

  /** The fields evaluate_message reads. */
  datatype PyRequest = PyRequest(suite: string, kind: string, numValues: int, func: int,
                                 dimension: int, instance: int, x: seq<real>)

  /** The parse part of evaluate_message, in its order: s, t, r, f, d, i, x, then the check
      that x has d values. */
  function ParseMessage(message: string): (r: Result<PyRequest, PyServerError>)
    ensures r.Ok? ==> |r.value.x| == r.value.dimension
  {
    var ts := Split(message, ' ');
    var suite :- FieldAfter(ts, "s");
    var kind :- FieldAfter(ts, "t");
    var numValues :- IntAfter(ts, "r");
    var func :- IntAfter(ts, "f");
    var dimension :- IntAfter(ts, "d");
    var instance :- IntAfter(ts, "i");
    var x :- XValues(ts);
    if |x| != dimension then Err(DimensionMismatch(|x|, dimension))
    else Ok(PyRequest(suite, kind, numValues, func, dimension, instance, x))
  }

  // ----- Dispatch -----

  /** A failure of the evaluator, as the server reports it. */
  function Evaluated(r: Result<seq<real>, Toy.PyError>): (l: Result<seq<real>, PyServerError>)
    ensures l.Ok? <==> r.Ok?
    ensures r.Ok? ==> l.value == r.value
    ensures r.Err? ==> l.error == EvaluatorFailed(r.error)
  {
    if r.Ok? then Ok(r.value) else Err(EvaluatorFailed(r.error))
  }

  /** Every suite whose name contains "toy-socket" goes to the toy evaluators; the evaluation
      type chooses which; the result must have r values. */
  function Evaluate(req: PyRequest): (r: Result<seq<real>, PyServerError>)
    ensures r.Ok? ==> |r.value| == req.numValues
    ensures !Contains(req.suite, ToyC.ToySocket) ==> r == Err(SuiteNotSupported(req.suite))
  {
    if !Contains(req.suite, ToyC.ToySocket) then Err(SuiteNotSupported(req.suite))
    else
      var values :-
        if req.kind == Objectives then Evaluated(Toy.Objectives(req.suite, req.func, req.instance, req.x))
        else if req.kind == Constraints then Evaluated(Toy.Constraints(req.suite, req.func, req.instance, req.x))
        else Err(TypeNotSupported(req.kind));
      if |values| != req.numValues then Err(CountMismatch(|values|, req.numValues)) else Ok(values)
  }

  /** The answer to a message: the response text (RESULT_PRECISION is 16 here as in the C
      server, and '{:.16e}' writes what %.16e does), or the exception raised. */
  function Reply(message: string): (r: Result<string, PyServerError>)
    ensures r.Ok? ==> ParseMessage(message).Ok? && Evaluate(ParseMessage(message).value).Ok?
    ensures ParseMessage(message).Err? ==> r == Err(ParseMessage(message).error)
  {
    var req :- ParseMessage(message);
    var values :- Evaluate(req);
    Ok(C.ResponseText(values))
  }

  /** evaluate_message: the request parsed and evaluated, and the response accumulated value
      by value. */
  method EvaluateMessage(message: string) returns (r: Result<string, PyServerError>)
    ensures r == Reply(message)
  {
    var parsed := ParseMessage(message);
    if parsed.Err? {
      return Err(parsed.error);
    }
    var evaluated := Evaluate(parsed.value);
    if evaluated.Err? {
      return Err(evaluated.error);
    }
    var response := BuildResponse(evaluated.value);
    return Ok(response);
  }

  /** The loop "response += '{:.{p}e} '.format(value, p=RESULT_PRECISION)". */
  method BuildResponse(values: seq<real>) returns (response: string)
    ensures response == C.ResponseText(values)
  {
    ghost var tokens := C.ResponseTokens(values);
    response := "";
    for i := 0 to |values|
      invariant response == Spaced(tokens[..i])
    {
      var token := FormatE(C.ResultPrecision, values[i]);
      assert response == "" + Spaced(tokens[..i]);
      MessageStep("", tokens, i, response, token);
      response := response + token + " ";
    }
    assert tokens[..|values|] == tokens;
  }

  // ----- Lookup by tag -----

  lemma {:induction false} TokenIndexAt(ts: seq<string>, tag: string, k: nat)
    requires k < |ts| && ts[k] == tag
    requires forall j :: 0 <= j < k ==> ts[j] != tag
    ensures TokenIndex(ts, tag) == k
    decreases k
  {
    if k > 0 {
      assert ts[0] != tag;
      var ts1 := ts[1..];
      assert forall j :: 0 <= j < k - 1 ==> ts1[j] == ts[j + 1];
      TokenIndexAt(ts1, tag, k - 1);
    }
  }

  lemma {:induction false} FieldAt(ts: seq<string>, tag: string, k: nat)
    requires k + 1 < |ts| && ts[k] == tag
    requires forall j :: 0 <= j < k ==> ts[j] != tag
    ensures FieldAfter(ts, tag) == Ok(ts[k + 1])
  {
    TokenIndexAt(ts, tag, k);
  }

  /** A field is the token after its tag's first occurrence, wherever in the message that is:
      whatever comes before (without the tag) or after does not change it. */
  lemma {:induction false} FieldOfFirstTag(before: seq<string>, tag: string, value: string, after: seq<string>)
    requires tag !in before
    ensures FieldAfter(before + [tag, value] + after, tag) == Ok(value)
  {
    var ts := before + [tag, value] + after;
    assert forall j :: 0 <= j < |before| ==> ts[j] == before[j];
    FieldAt(ts, tag, |before|);
  }

  /** A tag that is the last token has no value, whichever tag it is and whatever precedes it. */
  lemma {:induction false} TagAtEnd(before: seq<string>, tag: string)
    requires tag !in before
    ensures FieldAfter(before + [tag], tag) == Err(ValueMissing(tag))
  {
    var ts := before + [tag];
    assert forall j :: 0 <= j < |before| ==> ts[j] == before[j];
    TokenIndexAt(ts, tag, |before|);
  }

  // ----- The x values -----

  /** Empty tokens among the x values are skipped: a trailing ' ' (which every client message
      has) adds nothing. */
  lemma {:induction false} TrailingSpaceIgnored(ts: seq<string>)
    ensures Floats(ts + [""]) == Floats(ts)
    decreases |ts|
  {
    if ts == [] {
      assert [""][1..] == [];
    } else {
      assert (ts + [""])[0] == ts[0];
      assert (ts + [""])[1..] == ts[1..] + [""];
      TrailingSpaceIgnored(ts[1..]);
    }
  }

  /** float() reads every number a client writes back as that number. */
  lemma {:induction false} PyFloatNumber(n: Number)
    requires ValidNumber(n)
    ensures PyFloat(NumberText(n)) == Some(NumberValue(n))
    ensures NumberText(n) != "" && ' ' !in NumberText(n)
  {
    if n.IntNumber? {
      PyFloatIntToString(n.i);
      IntToStringChars(n.i);
    } else {
      PyFloatRenderSci(n.x);
      RenderSciIsNumeral(n.x);
      NumeralHasNoSpace(RenderSci(n.x));
    }
  }

  /** The value tokens of a client message read back as the numbers they render. */
  lemma {:induction false} FloatsRendered(ts: seq<string>, xs: seq<Number>, vs: seq<real>)
    requires RendersAs(ts, xs, vs)
    ensures Floats(ts) == Ok(vs)
    decreases |ts|
  {
    if ts != [] {
      PyFloatNumber(xs[0]);
      FloatsRendered(ts[1..], xs[1..], vs[1..]);
      FloatsStep(ts, vs[0], vs[1..]);
      assert vs == [vs[0]] + vs[1..];
    }
  }

  /** One token that float() reads, in front of tokens that all read. */
  lemma {:induction false} FloatsStep(ts: seq<string>, v: real, more: seq<real>)
    requires ts != [] && ts[0] != "" && PyFloat(ts[0]) == Some(v) && Floats(ts[1..]) == Ok(more)
    ensures Floats(ts) == Ok([v] + more)
  {
  }

  /** The value tokens of a client message hold no space. */
  lemma {:induction false} RenderedNoSpace(ts: seq<string>, xs: seq<Number>, vs: seq<real>)
    requires RendersAs(ts, xs, vs)
    ensures forall k :: 0 <= k < |ts| ==> ' ' !in ts[k]
    decreases |ts|
  {
    if ts != [] {
      PyFloatNumber(xs[0]);
      RenderedNoSpace(ts[1..], xs[1..], vs[1..]);
      assert forall k :: 1 <= k < |ts| ==> ts[k] == ts[1..][k - 1];
    }
  }

  // ----- A client's request, as this server reads it -----

  /** The tags evaluate_message looks up. */
  predicate IsTag(t: string) {
    t == "s" || t == "t" || t == "r" || t == "f" || t == "i" || t == "d" || t == "x"
  }

  /** A suite name and an evaluation type this server reads back: single words that are not
      a tag themselves (a tag in the suite field would be found before the real one). */
  predicate PyReadable(h: RequestHeader) {
    ' ' !in h.suiteName && ' ' !in h.evaluationType && !IsTag(h.suiteName) && !IsTag(h.evaluationType)
  }

  /** The request evaluate_message reads from a client's header and values. */
  function RequestOf(h: RequestHeader, vs: seq<real>): PyRequest {
    PyRequest(h.suiteName, h.evaluationType, h.numberOfValues, h.functionNumber, h.dimension, h.instance, vs)
  }

  /** A decimal number is none of the tags. */
  lemma {:induction false} NumberIsNoTag(n: nat)
    ensures !IsTag(NatToString(n)) && PyInt(NatToString(n)) == Some(n)
  {
    var s := NatToString(n);
    assert IsDigit(s[0]);
    PyIntOfIntToString(n);
  }

  /** A lookup passes over a field with another tag. */
  lemma {:induction false} SkipField(ts: seq<string>, tag: string)
    requires |ts| >= 2 && ts[0] != tag && ts[1] != tag
    ensures TokenIndex(ts, tag) == 2 + TokenIndex(ts[2..], tag)
    ensures FieldAfter(ts, tag) == FieldAfter(ts[2..], tag)
  {
    assert ts[1..][0] == ts[1] && ts[1..][1..] == ts[2..];
  }

  /** A lookup stops at its tag. */
  lemma {:induction false} FoundField(ts: seq<string>, tag: string)
    requires |ts| >= 2 && ts[0] == tag
    ensures FieldAfter(ts, tag) == Ok(ts[1])
  {
  }

  /** The lookups on the tokens of a client message. */
  lemma {:induction false} HeaderLookups(h: RequestHeader, ts: seq<string>, all: seq<string>)
    requires PyReadable(h) && all == HeaderTokens(h) + ts + [""]
    ensures FieldAfter(all, "s") == Ok(h.suiteName)
    ensures FieldAfter(all, "t") == Ok(h.evaluationType)
    ensures IntAfter(all, "r") == Ok(h.numberOfValues as int)
    ensures IntAfter(all, "f") == Ok(h.functionNumber as int)
    ensures IntAfter(all, "i") == Ok(h.instance as int)
    ensures IntAfter(all, "d") == Ok(h.dimension as int)
    ensures XValues(all) == Floats(ts + [""])
  {
    var r, f, i, d := NatToString(h.numberOfValues), NatToString(h.functionNumber),
                      NatToString(h.instance), NatToString(h.dimension);
    NumberIsNoTag(h.numberOfValues);
    NumberIsNoTag(h.functionNumber);
    NumberIsNoTag(h.instance);
    NumberIsNoTag(h.dimension);
    HeaderAt(h, ts, all);
    TagLookups(all, h.suiteName, h.evaluationType, r, f, i, d);
  }

  /** The tokens of a client message, position by position. */
  lemma {:induction false} HeaderAt(h: RequestHeader, ts: seq<string>, all: seq<string>)
    requires all == HeaderTokens(h) + ts + [""]
    ensures |all| >= 13 && all[13..] == ts + [""]
    ensures all[0] == "s" && all[1] == h.suiteName && all[2] == "t" && all[3] == h.evaluationType
    ensures all[4] == "r" && all[5] == NatToString(h.numberOfValues)
    ensures all[6] == "f" && all[7] == NatToString(h.functionNumber)
    ensures all[8] == "i" && all[9] == NatToString(h.instance)
    ensures all[10] == "d" && all[11] == NatToString(h.dimension) && all[12] == "x"
  {
    var head := HeaderTokens(h);
    assert all[..13] == head && all[13..] == ts + [""];
  }

  /** The lookups on a message that starts with the six tagged fields and the x tag. */
  lemma {:induction false} TagLookups(all: seq<string>, s: string, t: string, r: string, f: string, i: string, d: string)
    requires |all| >= 13
    requires all[0] == "s" && all[1] == s && all[2] == "t" && all[3] == t && all[4] == "r" && all[5] == r
    requires all[6] == "f" && all[7] == f && all[8] == "i" && all[9] == i && all[10] == "d" && all[11] == d
    requires all[12] == "x"
    requires !IsTag(s) && !IsTag(t) && !IsTag(r) && !IsTag(f) && !IsTag(i) && !IsTag(d)
    ensures FieldAfter(all, "s") == Ok(s) && FieldAfter(all, "t") == Ok(t)
    ensures FieldAfter(all, "r") == Ok(r) && FieldAfter(all, "f") == Ok(f)
    ensures FieldAfter(all, "i") == Ok(i) && FieldAfter(all, "d") == Ok(d)
    ensures XValues(all) == Floats(all[13..])
  {
    FoundField(all, "s");
    LookupT(all, s);
    LookupR(all, s, t);
    LookupF(all, s, t, r);
    LookupI(all, s, t, r, f);
    LookupD(all, s, t, r, f, i);
    LookupX(all, s, t, r, f, i, d);
  }

  lemma {:induction false} LookupT(all: seq<string>, s: string)
    requires |all| >= 4
    requires all[0] == "s" && all[1] == s
    requires all[2] == "t"
    requires !IsTag(s)
    ensures FieldAfter(all, "t") == Ok(all[3])
  {
    SkipField(all, "t");
    FoundField(all[2..], "t");
  }

  lemma {:induction false} LookupR(all: seq<string>, s: string, t: string)
    requires |all| >= 6
    requires all[0] == "s" && all[1] == s && all[2] == "t" && all[3] == t
    requires all[4] == "r"
    requires !IsTag(s) && !IsTag(t)
    ensures FieldAfter(all, "r") == Ok(all[5])
  {
    SkipField(all, "r");
    SkipField(all[2..], "r");
    assert all[2..][2..] == all[4..];
    FoundField(all[4..], "r");
  }

  lemma {:induction false} LookupF(all: seq<string>, s: string, t: string, r: string)
    requires |all| >= 8
    requires all[0] == "s" && all[1] == s && all[2] == "t" && all[3] == t && all[4] == "r" && all[5] == r
    requires all[6] == "f"
    requires !IsTag(s) && !IsTag(t) && !IsTag(r)
    ensures FieldAfter(all, "f") == Ok(all[7])
  {
    SkipField(all, "f");
    SkipField(all[2..], "f");
    assert all[2..][2..] == all[4..];
    SkipField(all[4..], "f");
    assert all[4..][2..] == all[6..];
    FoundField(all[6..], "f");
  }

  lemma {:induction false} LookupI(all: seq<string>, s: string, t: string, r: string, f: string)
    requires |all| >= 10
    requires all[0] == "s" && all[1] == s && all[2] == "t" && all[3] == t && all[4] == "r" && all[5] == r && all[6] == "f" && all[7] == f
    requires all[8] == "i"
    requires !IsTag(s) && !IsTag(t) && !IsTag(r) && !IsTag(f)
    ensures FieldAfter(all, "i") == Ok(all[9])
  {
    SkipField(all, "i");
    SkipField(all[2..], "i");
    assert all[2..][2..] == all[4..];
    SkipField(all[4..], "i");
    assert all[4..][2..] == all[6..];
    SkipField(all[6..], "i");
    assert all[6..][2..] == all[8..];
    FoundField(all[8..], "i");
  }

  lemma {:induction false} LookupD(all: seq<string>, s: string, t: string, r: string, f: string, i: string)
    requires |all| >= 12
    requires all[0] == "s" && all[1] == s && all[2] == "t" && all[3] == t && all[4] == "r" && all[5] == r && all[6] == "f" && all[7] == f && all[8] == "i" && all[9] == i
    requires all[10] == "d"
    requires !IsTag(s) && !IsTag(t) && !IsTag(r) && !IsTag(f) && !IsTag(i)
    ensures FieldAfter(all, "d") == Ok(all[11])
  {
    SkipField(all, "d");
    SkipField(all[2..], "d");
    assert all[2..][2..] == all[4..];
    SkipField(all[4..], "d");
    assert all[4..][2..] == all[6..];
    SkipField(all[6..], "d");
    assert all[6..][2..] == all[8..];
    SkipField(all[8..], "d");
    assert all[8..][2..] == all[10..];
    FoundField(all[10..], "d");
  }

  lemma {:induction false} LookupX(all: seq<string>, s: string, t: string, r: string, f: string, i: string, d: string)
    requires |all| >= 13
    requires all[0] == "s" && all[1] == s && all[2] == "t" && all[3] == t && all[4] == "r" && all[5] == r && all[6] == "f" && all[7] == f && all[8] == "i" && all[9] == i && all[10] == "d" && all[11] == d
    requires all[12] == "x"
    requires !IsTag(s) && !IsTag(t) && !IsTag(r) && !IsTag(f) && !IsTag(i) && !IsTag(d)
    ensures TokenIndex(all, "x") == 12
  {
    SkipField(all, "x");
    SkipField(all[2..], "x");
    assert all[2..][2..] == all[4..];
    SkipField(all[4..], "x");
    assert all[4..][2..] == all[6..];
    SkipField(all[6..], "x");
    assert all[6..][2..] == all[8..];
    SkipField(all[8..], "x");
    assert all[8..][2..] == all[10..];
    SkipField(all[10..], "x");
    assert all[10..][2..] == all[12..];
    assert TokenIndex(all[12..], "x") == 0;
  }

  /** The Python server reads a client's request back: the header fields it was built from and
      the values its tokens render, whatever order the lookups go in. */
  lemma {:induction false} ParseRequest(h: RequestHeader, ts: seq<string>, xs: seq<Number>, vs: seq<real>, m: string)
    requires PyReadable(h) && RendersAs(ts, xs, vs) && h.dimension == |ts| && m == RequestText(h, ts)
    ensures ParseMessage(m) == Ok(RequestOf(h, vs))
  {
    FloatsRendered(ts, xs, vs);
    RenderedNoSpace(ts, xs, vs);
    RequestTokens(h, ts);
    var all := Split(m, ' ');
    HeaderLookups(h, ts, all);
    TrailingSpaceIgnored(ts);
    ParseOfLookups(m, all, h, vs);
  }

  /** The parse, once every lookup is known. */
  lemma {:induction false} ParseOfLookups(m: string, all: seq<string>, h: RequestHeader, vs: seq<real>)
    requires all == Split(m, ' ') && |vs| == h.dimension
    requires FieldAfter(all, "s") == Ok(h.suiteName) && FieldAfter(all, "t") == Ok(h.evaluationType)
    requires IntAfter(all, "r") == Ok(h.numberOfValues as int) && IntAfter(all, "f") == Ok(h.functionNumber as int)
    requires IntAfter(all, "i") == Ok(h.instance as int) && IntAfter(all, "d") == Ok(h.dimension as int)
    requires XValues(all) == Ok(vs)
    ensures ParseMessage(m) == Ok(RequestOf(h, vs))
  {
  }


  /** The response to a request: the evaluation of exactly the values the client sent. */
  lemma {:induction false} ServesRequest(h: RequestHeader, ts: seq<string>, xs: seq<Number>, vs: seq<real>, m: string)
    requires PyReadable(h) && RendersAs(ts, xs, vs) && h.dimension == |ts| && m == RequestText(h, ts)
    ensures var e := Evaluate(RequestOf(h, vs));
            Reply(m) == if e.Ok? then Ok(C.ResponseText(e.value)) else Err(e.error)
  {
    ParseRequest(h, ts, xs, vs, m);
  }

  /** The suite test is a substring test: a name that merely contains "toy-socket" passes it
      and is refused by the evaluator instead. */
  lemma {:induction false} ContainingNameReachesEvaluator(suffix: string, func: int, instance: int, x: seq<real>)
    requires suffix != "" && suffix != "-biobj"
    ensures var req := PyRequest(ToyC.ToySocket + suffix, Objectives, 1, func, |x|, instance, x);
            Evaluate(req) == Err(EvaluatorFailed(Toy.SuiteNotSupported(ToyC.ToySocket + suffix)))
  {
    var name := ToyC.ToySocket + suffix;
    assert name[..|ToyC.ToySocket|] == ToyC.ToySocket;
    ContainsPrefix(name, ToyC.ToySocket);
    Toy.LongerNameRejected(suffix, func, instance, x);
  }

  // ----- socket_server_start -----

  /** How the server leaves a connection: a RESET closes it and the server accepts the next,
      a SHUTDOWN stops it, an exception propagates out of it, and a client with no more
      messages leaves it waiting in recv. */
  datatype PyEnd = Closed | Stopped | Raised(error: PyServerError) | Waiting

  /** The responses sent on a connection and how the server leaves it. */
  datatype PyServed = PyServed(sent: seq<string>, end: PyEnd)

  /** The way the server answers a message: the response, or the exception raised. */
  type PyAnswerer = string -> Result<string, PyServerError>

  /** The responses sent earlier in front of what follows. */
  function After(done: seq<string>, r: PyServed): PyServed {
    PyServed(done + r.sent, r.end)
  }

  /** The inner loop over what recv returns on one connection (a client that closes its end
      makes recv return the empty string): the text up to the first NUL is compared with
      'RESET' and 'SHUTDOWN' exactly, and every other message is answered, with no NUL. */
  function Session(messages: seq<string>, answer: PyAnswerer): (r: PyServed)
    ensures |r.sent| <= |messages|
    decreases |messages|
  {
    if messages == [] then PyServed([], Waiting)
    else
      var message := CutAtNul(messages[0]);
      if message == Reset then PyServed([], Closed)
      else if message == C.ShutdownRequest then PyServed([], Stopped)
      else match answer(message)
        case Err(e) => PyServed([], Raised(e))
        case Ok(response) => After([response], Session(messages[1..], answer))
  }

  /** The outer loop: after a RESET the server accepts the next connection. */
  function Serve(connections: seq<seq<string>>, answer: PyAnswerer): (r: PyServed)
    ensures r.end != Closed
    decreases |connections|, 0
  {
    if connections == [] then PyServed([], Waiting)
    else Continue(Session(connections[0], answer), connections[1..], answer)
  }

  /** What a connection's session leads to, given the connections accepted after it. */
  function Continue(session: PyServed, later: seq<seq<string>>, answer: PyAnswerer): (r: PyServed)
    ensures r.end != Closed
    decreases |later|, 1
  {
    if session.end == Closed then After(session.sent, Serve(later, answer)) else session
  }

  /** socket_server_start over the connections it accepts, each given as the strings recv
      returns on it: the responses sent, and how the server stops. */
  method SocketServerStart(connections: seq<seq<string>>) returns (sent: seq<string>, end: PyEnd)
    ensures PyServed(sent, end) == Serve(connections, Reply)
  {
    sent := [];
    var i := 0;
    assert connections[0..] == connections;
    while i < |connections|
      invariant i <= |connections|
      invariant Serve(connections, Reply) == After(sent, Serve(connections[i..], Reply))
    {
      ServeNext(connections, i, Reply);
      var more, e := ServeConnection(connections[i]);
      AfterAssociates(sent, more, Serve(connections[i + 1..], Reply));
      sent := sent + more;
      if e != Closed {
        return sent, e;
      }
      i := i + 1;
    }
    return sent, Waiting;
  }

  /** The inner loop of socket_server_start on one connection. */
  method ServeConnection(messages: seq<string>) returns (sent: seq<string>, end: PyEnd)
    ensures PyServed(sent, end) == Session(messages, Reply)
  {
    sent := [];
    var j := 0;
    assert messages[0..] == messages;
    while j < |messages|
      invariant j <= |messages|
      invariant Session(messages, Reply) == After(sent, Session(messages[j..], Reply))
    {
      var message := CutAtNul(messages[j]);
      SessionStep(messages, j, Reply);
      if message == Reset {
        return sent, Closed;
      }
      if message == C.ShutdownRequest {
        return sent, Stopped;
      }
      var response := EvaluateMessage(message);
      if response.Err? {
        return sent, Raised(response.error);
      }
      AfterAssociates(sent, [response.value], Session(messages[j + 1..], Reply));
      sent := sent + [response.value];
      j := j + 1;
    }
    assert messages[j..] == [] && sent + [] == sent;
    end := Waiting;
  }

  /** The outer loop's step: the session on connection i, then the connections after it. */
  lemma {:induction false} ServeNext(connections: seq<seq<string>>, i: nat, answer: PyAnswerer)
    requires i < |connections|
    ensures Serve(connections[i..], answer) == Continue(Session(connections[i], answer), connections[i + 1..], answer)
  {
    assert connections[i..][1..] == connections[i + 1..];
  }

  /** The inner loop's step on message j. */
  lemma {:induction false} SessionStep(messages: seq<string>, j: nat, answer: PyAnswerer)
    requires j < |messages|
    ensures var message := CutAtNul(messages[j]);
            Session(messages[j..], answer) ==
              if message == Reset then PyServed([], Closed)
              else if message == C.ShutdownRequest then PyServed([], Stopped)
              else if answer(message).Err? then PyServed([], Raised(answer(message).error))
              else After([answer(message).value], Session(messages[j + 1..], answer))
  {
    assert messages[j..][0] == messages[j];
    assert messages[j..][1..] == messages[j + 1..];
  }

  lemma {:induction false} AfterAssociates(done: seq<string>, more: seq<string>, r: PyServed)
    ensures After(done, After(more, r)) == After(done + more, r)
  {
    assert done + (more + r.sent) == done + more + r.sent;
  }

  /** A RESET closes the connection: the messages after it on that connection are never read,
      and the server goes on with the next connection. */
  lemma {:induction false} ResetSkipsConnection(rest: seq<string>, later: seq<seq<string>>, answer: PyAnswerer)
    ensures Serve([[Reset] + rest] + later, answer) == Serve(later, answer)
  {
    var cs := [[Reset] + rest] + later;
    assert cs[0] == [Reset] + rest && cs[1..] == later;
    assert ([Reset] + rest)[0] == Reset;
    var more := Serve(later, answer);
    assert [] + more.sent == more.sent;
  }

  /** A SHUTDOWN stops the server: nothing after it, on any connection, is read or answered. */
  lemma {:induction false} ShutdownStopsServer(rest: seq<string>, later: seq<seq<string>>, answer: PyAnswerer)
    ensures Serve([[C.ShutdownRequest] + rest] + later, answer) == PyServed([], Stopped)
  {
    var cs := [[C.ShutdownRequest] + rest] + later;
    assert cs[0] == [C.ShutdownRequest] + rest;
    assert ([C.ShutdownRequest] + rest)[0] == C.ShutdownRequest;
  }

  /** Unlike the C server's prefix test, only the exact words are commands here: "RESET now"
      is parsed as a request, has no "s" tag and ends the server; the C server closes the
      connection on it. */
  lemma {:induction false} ResetMustBeExact(rest: seq<string>)
    ensures Session(["RESET now"] + rest, Reply) == PyServed([], Raised(TagMissing("s")))
    ensures C.Session(["RESET now"] + rest, C.Reply).end == C.Closed
  {
    PyResetNow(rest);
    CResetNow(rest);
  }

  lemma {:induction false} PyResetNow(rest: seq<string>)
    ensures Session(["RESET now"] + rest, Reply) == PyServed([], Raised(TagMissing("s")))
  {
    var m := "RESET now";
    assert m != Reset && m != C.ShutdownRequest;
    assert '\0' !in m;
    ReplyResetNow();
    assert Reply(m).Err?;
    FirstFails(m, rest, Reply);
  }

  lemma {:induction false} ReplyResetNow()
    ensures Reply("RESET now") == Err(TagMissing("s"))
  {
    ResetNowTokens();
    assert TokenIndex(["RESET", "now"], "s") == 2;
  }

  /** A first message that is no command and cannot be answered ends the session. */
  lemma {:induction false} FirstFails(m: string, rest: seq<string>, answer: PyAnswerer)
    requires '\0' !in m && m != Reset && m != C.ShutdownRequest && answer(m).Err?
    ensures Session([m] + rest, answer) == PyServed([], Raised(answer(m).error))
  {
    assert ([m] + rest)[0] == m;
  }

  lemma {:induction false} CResetNow(rest: seq<string>)
    ensures C.Session(["RESET now"] + rest, C.Reply).end == C.Closed
  {
    var m := "RESET now";
    assert StartsWith(m, Reset) by {
      assert m[..5] == Reset;
    }
    CFirstResets(m, rest, C.Reply);
  }

  lemma {:induction false} CFirstResets(m: string, rest: seq<string>, answer: C.Answerer)
    requires '\0' !in m && StartsWith(m, Reset)
    ensures C.Session([m] + rest, answer).end == C.Closed
  {
    assert ([m] + rest)[0] == m;
  }

  lemma {:induction false} ResetNowTokens()
    ensures Split("RESET now", ' ') == ["RESET", "now"]
  {
    var m := "RESET now";
    assert m[5] == ' ';
    assert IndexOf(m, ' ') == 5;
    assert m[..5] == "RESET" && m[6..] == "now";
    assert IndexOf("now", ' ') == 3;
  }

  /** A client that closes its end makes recv return '', which is not a command: the server
      parses it, finds no "s" tag and stops with that exception. */
  lemma {:induction false} ClosedPeerEndsServer(rest: seq<string>)
    ensures Session([""] + rest, Reply) == PyServed([], Raised(TagMissing("s")))
  {
    assert Split("", ' ') == [""] by {
      assert IndexOf("", ' ') == 0;
    }
    assert TokenIndex([""], "s") == 1;
    assert Reply("") == Err(TagMissing("s"));
    FirstFails("", rest, Reply);
  }


  /** A message the server cannot answer raises, and the exception ends the server with
      nothing sent. */
  lemma {:induction false} FailureEndsServer(first: string, rest: seq<string>, later: seq<seq<string>>, answer: PyAnswerer)
    requires CutAtNul(first) != Reset && CutAtNul(first) != C.ShutdownRequest
    requires answer(CutAtNul(first)).Err?
    ensures Serve([[first] + rest] + later, answer) == PyServed([], Raised(answer(CutAtNul(first)).error))
  {
    var cs := [[first] + rest] + later;
    assert cs[0] == [first] + rest;
    assert ([first] + rest)[0] == first;
  }

  // ----- __main__ -----

  /** Why the script stops before it serves: the wrong number of options (exit(-1)), or a port
      int() cannot read (the ValueError propagates). */
  datatype StartError = Usage | PortNotAnInteger(argument: string)

  /** The port and the silent flag the server is started with. */
  datatype PyInvocation = PyInvocation(port: int, silent: bool)

  /** The handling of sys.argv (the script name first): one or two options, the port and
      "silent"; any other option in second place is ignored. */
  function ParseArguments(argv: seq<string>): (r: Result<PyInvocation, StartError>)
    ensures !(2 <= |argv| <= 3) <==> r == Err(Usage)
    ensures 2 <= |argv| <= 3 ==> (r.Ok? <==> PyInt(argv[1]).Some?)
    ensures r.Ok? ==> r.value.port == PyInt(argv[1]).value &&
                      (r.value.silent <==> |argv| == 3 && argv[2] == "silent")
  {
    if 2 <= |argv| <= 3 then
      match PyInt(argv[1])
      case None => Err(PortNotAnInteger(argv[1]))
      case Some(port) => Ok(PyInvocation(port, |argv| == 3 && argv[2] == "silent"))
    else Err(Usage)
  }

  /** Any decimal port is read as itself: int() has no width, unlike the C server's
      conversion to an unsigned short. */
  lemma {:induction false} PortOfDecimal(n: nat)
    ensures ParseArguments(["socket_server.py", NatToString(n)]) == Ok(PyInvocation(n, false))
    ensures n >= C.UShortModulus && n <= C.LongMax ==>
      C.ParseArguments(["socket_server", NatToString(n)]).value.port != n
  {
    NumberIsNoTag(n);
    if n <= C.LongMax {
      C.PortOfDecimal(n);
    }
  }
}
