/** The C socket server: it parses a request, dispatches it to the toy evaluator, builds the
    response, and serves the requests of its clients until it is told to shut down. */
module SocketServerC {
  import opened Common
  import opened Text
  import opened Numerals
  import opened Scanf
  import opened SocketCommunication
  import Toy = ToySocketEvaluatorC

  /** RESULT_PRECISION: the digits after the point of every value in a response. */
  const ResultPrecision: nat := 16

  // ----- The header "s %s t %s r %lu f %lu i %lu d %lu x%*c%n" -----

  /** One "<tag> %s " or "<tag> %lu " of the header format: an ordinary character, white
      space, a conversion, white space. */
  datatype HeaderField = HeaderField(tag: char, numeric: bool)

  /** The six fields of the header format, in order. */
  const HeaderFields: seq<HeaderField> :=
    [HeaderField('s', false), HeaderField('t', false), HeaderField('r', true),
     HeaderField('f', true), HeaderField('i', true), HeaderField('d', true)]

  /** What a field conversion stores: a word for %s, an unsigned long for %lu. */
  datatype FieldValue = StrField(w: string) | ULongField(n: nat)

  /** A field either stops the scan or stores its value and leaves the rest of the input. */
  datatype FieldRead = Halted(stop: Stop) | Read(value: FieldValue, rest: string)

  /** One field applied to the unread input s.  The white space between the tag and the
      conversion needs no step of its own: %s and %lu skip white space themselves. */
  function ReadField(f: HeaderField, s: string): (r: FieldRead)
    ensures r.Read? ==> r.value.ULongField? == f.numeric && |r.rest| < |s|
    ensures r.Read? ==> r.rest == [] || !IsSpace(r.rest[0])
    ensures r.Halted? ==> r.stop != Completed
  {
    if s == [] then Halted(InputFailure)
    else if s[0] != f.tag then Halted(MatchingFailure)
    else if f.numeric then
      match ULongConversion(s[1..])
      case Failed(stop) => Halted(stop)
      case Converted(n, t) => Read(ULongField(n), SkipBlank(t))
    else
      match StrConversion(s[1..])
      case Failed(stop) => Halted(stop)
      case Converted(w, t) => Read(StrField(w), SkipBlank(t))
  }

  /** How the fields of a scan ended, the values stored, and the input left after them. */
  datatype FieldsRead = FieldsRead(stop: Stop, values: seq<FieldValue>, rest: string)

  /** The fields fs applied one after the other; scanning stops at the first that fails. */
  function ScanFields(fs: seq<HeaderField>, s: string): (r: FieldsRead)
    ensures |r.values| <= |fs|
    ensures forall j :: 0 <= j < |r.values| ==> r.values[j].ULongField? == fs[j].numeric
    ensures r.stop == Completed <==> |r.values| == |fs|
    ensures r.stop == Completed ==> r.rest == [] || |r.rest| < |s| || fs == []
    decreases |fs|
  {
    if fs == [] then FieldsRead(Completed, [], s)
    else
      match ReadField(fs[0], s)
      case Halted(stop) => FieldsRead(stop, [], s)
      case Read(v, t) =>
        var r := ScanFields(fs[1..], t);
        FieldsRead(r.stop, [v] + r.values, r.rest)
  }

  /** sscanf with the header format: its return value, the fields it stored, and the count %n
      stored, which is None when the scan stops before %n. */
  datatype HeaderScan = HeaderScan(count: int, values: seq<FieldValue>, charCount: Option<nat>)

  /** The return value is EOF (-1) when the input runs out before the first field is stored
      and the number of fields stored otherwise; "x%*c" then needs an 'x' and one more
      character before %n stores the number of characters read. */
  function ScanHeader(message: string): (r: HeaderScan)
    ensures r.count == -1 || r.count == |r.values|
    ensures |r.values| <= 6
    ensures forall j :: 0 <= j < |r.values| ==> r.values[j].ULongField? == (j >= 2)
    ensures r.charCount.Some? ==> r.count == 6 && r.charCount.value <= |message|
  {
    var fields := ScanFields(HeaderFields, message);
    var n := |fields.values|;
    var count := if fields.stop == InputFailure && n == 0 then -1 else n;
    var t := fields.rest;
    if fields.stop == Completed && |t| >= 2 && t[0] == 'x' then
      HeaderScan(count, fields.values, Some(|message| - |t| + 2))
    else
      HeaderScan(count, fields.values, None)
  }

  /** The request header the six stored fields give. */
  function HeaderOf(values: seq<FieldValue>): RequestHeader
    requires |values| == 6 && forall j :: 0 <= j < 6 ==> values[j].ULongField? == (j >= 2)
  {
    RequestHeader(values[0].w, values[1].w, values[2].n, values[3].n, values[4].n, values[5].n)
  }

  /** Why the server exits instead of answering. */
  datatype ServerError =
    | HeaderUnreadable(count: int)          // the header sscanf did not return 6
    | ValuesUnreadable(reason: DecodeError) // reading the decision values failed
    | SuiteNotSupported(suite: string)      // no evaluator for the suite
    | TypeNotSupported(kind: string)        // neither "objectives" nor "constraints"
    | EvaluatorFailed(failure: Toy.ToyError) // the evaluator exits

  /** The header check as written: the message is accepted when sscanf returns 6, which it
      also does when the scan stops before "x", so that %n stores nothing. */
  function ReadHeader(message: string): (r: Result<(RequestHeader, Option<nat>), ServerError>)
    ensures r.Ok? <==> ScanHeader(message).count == 6
    ensures r.Ok? ==> r.value.1 == ScanHeader(message).charCount
    ensures r.Err? ==> r.error == HeaderUnreadable(ScanHeader(message).count)
  {
    var scanned := ScanHeader(message);
    if scanned.count != 6 then Err(HeaderUnreadable(scanned.count))
    else Ok((HeaderOf(scanned.values), scanned.charCount))
  }

  /** The header check the format evidently intends: all six fields, then "x" and a
      delimiter, so that %n stores where the decision values start. */
  function ReadHeaderChecked(message: string): (r: Result<(RequestHeader, nat), ServerError>)
    ensures r.Ok? <==> ReadHeader(message).Ok? && ReadHeader(message).value.1.Some?
    ensures r.Ok? ==> ReadHeader(message) == Ok((r.value.0, Some(r.value.1))) && r.value.1 <= |message|
    ensures r.Err? ==> r.error == HeaderUnreadable(ScanHeader(message).count)
  {
    var scanned := ScanHeader(message);
    if scanned.count != 6 || scanned.charCount.None? then Err(HeaderUnreadable(scanned.count))
    else Ok((HeaderOf(scanned.values), scanned.charCount.value))
  }

  // ----- Reading back the header a client writes -----

  /** The text the client writes for a field value. */
  function FieldToken(v: FieldValue): string {
    match v
    case StrField(w) => w
    case ULongField(n) => NatToString(n)
  }

  /** A word %s reads whole: not empty and without white space. */
  predicate IsToken(w: string) {
    w != [] && forall j :: 0 <= j < |w| ==> !IsSpace(w[j])
  }

  /** A value its field reads back: a token for %s, a number that fits an unsigned long for %lu. */
  predicate Fits(f: HeaderField, v: FieldValue) {
    !IsSpace(f.tag) &&
    match v
    case StrField(w) => !f.numeric && IsToken(w)
    case ULongField(n) => f.numeric && n <= ULongMax
  }

  /** Every value fits its field. */
  predicate AllFit(fs: seq<HeaderField>, vs: seq<FieldValue>) {
    |fs| == |vs| && forall j :: 0 <= j < |fs| ==> Fits(fs[j], vs[j])
  }

  /** The fields with these values, "<tag> <value> " each, in front of rest. */
  function FieldsText(fs: seq<HeaderField>, vs: seq<FieldValue>, rest: string): (m: string)
    requires |fs| == |vs|
    decreases |vs|
  {
    if vs == [] then rest else [fs[0].tag] + " " + FieldToken(vs[0]) + " " + FieldsText(fs[1..], vs[1..], rest)
  }

  /** The tokens the client writes for the fields, tag and value each. */
  function FieldTokens(fs: seq<HeaderField>, vs: seq<FieldValue>): (ts: seq<string>)
    requires |fs| == |vs|
    decreases |vs|
  {
    if vs == [] then [] else [[fs[0].tag], FieldToken(vs[0])] + FieldTokens(fs[1..], vs[1..])
  }

  /** The header fields of a request, in the order the client writes them. */
  function HeaderValues(h: RequestHeader): seq<FieldValue> {
    [StrField(h.suiteName), StrField(h.evaluationType), ULongField(h.numberOfValues),
     ULongField(h.functionNumber), ULongField(h.instance), ULongField(h.dimension)]
  }

  /** A header sscanf can read back: the strings are tokens and the numbers fit an unsigned long. */
  predicate Readable(h: RequestHeader) {
    IsToken(h.suiteName) && IsToken(h.evaluationType) &&
    h.numberOfValues <= ULongMax && h.functionNumber <= ULongMax &&
    h.instance <= ULongMax && h.dimension <= ULongMax
  }

  /** %s reads back a token in front of " " and more input. */
  lemma {:induction false} ReadStrToken(w: string, rest: string)
    requires IsToken(w) && (rest == [] || !IsSpace(rest[0]))
    ensures StrConversion(" " + w + " " + rest) == Converted(w, " " + rest)
  {
    var t := " " + rest;
    var s := " " + (w + t);
    assert " " + w + " " + rest == s;
    SkipBlankOf(" ", w + t);
    assert SkipBlank(s) == SkipBlank(w + t);
    StrConversionOf(w, t);
  }

  /** %lu reads back a number in front of " " and more input. */
  lemma {:induction false} ReadULongToken(n: nat, rest: string)
    requires n <= ULongMax
    ensures ULongConversion(" " + NatToString(n) + " " + rest) == Converted(n, " " + rest)
  {
    var t := " " + rest;
    var s := " " + (NatToString(n) + t);
    assert " " + NatToString(n) + " " + rest == s;
    SkipBlankOf(" ", NatToString(n) + t);
    assert SkipBlank(s) == SkipBlank(NatToString(n) + t);
    ULongConversionOf(n, t);
  }

  /** A field reads back the value written in front of rest, and the blank after it. */
  lemma {:induction false} ReadFieldOf(f: HeaderField, v: FieldValue, rest: string)
    requires Fits(f, v) && (rest == [] || !IsSpace(rest[0]))
    ensures ReadField(f, [f.tag] + " " + FieldToken(v) + " " + rest) == Read(v, rest)
  {
    var s := [f.tag] + " " + FieldToken(v) + " " + rest;
    var u := " " + FieldToken(v) + " " + rest;
    assert s[0] == f.tag && s[1..] == u;
    SkipBlankOf(" ", rest);
    assert " " + rest == " " + rest;
    if v.StrField? {
      ReadStrToken(v.w, rest);
    } else {
      ReadULongToken(v.n, rest);
    }
  }

  /** A fields text starts with its first tag, or is the rest when there is no field. */
  lemma {:induction false} FieldsTextStart(fs: seq<HeaderField>, vs: seq<FieldValue>, rest: string)
    requires AllFit(fs, vs) && (rest == [] || !IsSpace(rest[0]))
    ensures var m := FieldsText(fs, vs, rest); m == [] || !IsSpace(m[0])
  {
    if vs != [] {
      assert Fits(fs[0], vs[0]);
      assert FieldsText(fs, vs, rest)[0] == fs[0].tag;
    }
  }

  /** Fields read back, one after the other, the values written for them. */
  lemma {:induction false} ScanFieldsText(fs: seq<HeaderField>, vs: seq<FieldValue>, rest: string)
    requires AllFit(fs, vs) && (rest == [] || !IsSpace(rest[0]))
    ensures ScanFields(fs, FieldsText(fs, vs, rest)) == FieldsRead(Completed, vs, rest)
    decreases |vs|
  {
    if vs != [] {
      var fs1, vs1 := fs[1..], vs[1..];
      assert AllFit(fs1, vs1) by {
        forall j | 0 <= j < |fs1| ensures Fits(fs1[j], vs1[j]) {
          assert fs1[j] == fs[j + 1] && vs1[j] == vs[j + 1];
        }
      }
      assert Fits(fs[0], vs[0]);
      var m := FieldsText(fs1, vs1, rest);
      FieldsTextStart(fs1, vs1, rest);
      ReadFieldOf(fs[0], vs[0], m);
      ScanFieldsText(fs1, vs1, rest);
      assert [vs[0]] + vs1 == vs;
    }
  }

  /** The tokens of the fields, each followed by a space, are the fields text. */
  lemma {:induction false} SpacedFieldTokens(fs: seq<HeaderField>, vs: seq<FieldValue>, us: seq<string>)
    requires |fs| == |vs|
    ensures Spaced(FieldTokens(fs, vs) + us) == FieldsText(fs, vs, Spaced(us))
    decreases |vs|
  {
    if vs == [] {
      assert FieldTokens(fs, vs) + us == us;
    } else {
      var tag, token := [fs[0].tag], FieldToken(vs[0]);
      var more := FieldTokens(fs[1..], vs[1..]) + us;
      assert FieldTokens(fs, vs) + us == [tag] + ([token] + more);
      SpacedFieldTokens(fs[1..], vs[1..], us);
      assert ([token] + more)[1..] == more;
      assert ([tag] + ([token] + more))[1..] == [token] + more;
    }
  }

  lemma {:induction false} HeaderFieldTokens(h: RequestHeader)
    ensures HeaderTokens(h) == FieldTokens(HeaderFields, HeaderValues(h)) + ["x"]
  {
    var fs, vs := HeaderFields, HeaderValues(h);
    assert FieldTokens(fs[6..], vs[6..]) == [];
    assert FieldTokens(fs[5..], vs[5..]) == ["d", NatToString(h.dimension)] by {
      assert fs[5..][1..] == fs[6..] && vs[5..][1..] == vs[6..];
    }
    assert FieldTokens(fs[4..], vs[4..]) == ["i", NatToString(h.instance)] + FieldTokens(fs[5..], vs[5..]) by {
      assert fs[4..][1..] == fs[5..] && vs[4..][1..] == vs[5..];
    }
    assert FieldTokens(fs[3..], vs[3..]) == ["f", NatToString(h.functionNumber)] + FieldTokens(fs[4..], vs[4..]) by {
      assert fs[3..][1..] == fs[4..] && vs[3..][1..] == vs[4..];
    }
    assert FieldTokens(fs[2..], vs[2..]) == ["r", NatToString(h.numberOfValues)] + FieldTokens(fs[3..], vs[3..]) by {
      assert fs[2..][1..] == fs[3..] && vs[2..][1..] == vs[3..];
    }
    assert FieldTokens(fs[1..], vs[1..]) == ["t", h.evaluationType] + FieldTokens(fs[2..], vs[2..]) by {
      assert fs[1..][1..] == fs[2..] && vs[1..][1..] == vs[2..];
    }
    assert FieldTokens(fs, vs) == ["s", h.suiteName] + FieldTokens(fs[1..], vs[1..]);
  }

  /** A request is its six header fields in front of "x " and the value tokens. */
  lemma {:induction false} RequestTextFields(h: RequestHeader, ts: seq<string>)
    ensures RequestText(h, ts) == FieldsText(HeaderFields, HeaderValues(h), "x " + Spaced(ts))
  {
    HeaderFieldTokens(h);
    var fts := FieldTokens(HeaderFields, HeaderValues(h));
    assert HeaderTokens(h) + ts == fts + (["x"] + ts);
    SpacedFieldTokens(HeaderFields, HeaderValues(h), ["x"] + ts);
    assert (["x"] + ts)[0] == "x" && (["x"] + ts)[1..] == ts;
    assert Spaced(["x"] + ts) == "x " + Spaced(ts);
  }

  lemma {:induction false} HeaderFits(h: RequestHeader)
    requires Readable(h)
    ensures AllFit(HeaderFields, HeaderValues(h))
  {
    var fs, vs := HeaderFields, HeaderValues(h);
    forall j | 0 <= j < 6 ensures Fits(fs[j], vs[j]) {
      if j >= 2 {
        assert vs[j].ULongField? && fs[j].numeric;
      }
    }
  }

  /** The six header fields of a request read back the client's header, up to "x " and the
      value tokens. */
  lemma {:induction false} RequestFieldsScan(h: RequestHeader, ts: seq<string>, m: string, tail: string)
    requires Readable(h) && m == RequestText(h, ts) && tail == "x " + Spaced(ts)
    ensures ScanFields(HeaderFields, m) == FieldsRead(Completed, HeaderValues(h), tail)
    ensures |m| >= |tail| && m[|m| - |tail|..] == tail
  {
    RequestTextFields(h, ts);
    HeaderFits(h);
    ScanFieldsText(HeaderFields, HeaderValues(h), tail);
    TailOfFields(HeaderFields, HeaderValues(h), tail);
  }

  /** The server reads back every readable header a client writes, and the count %n stores
      is where the client's value tokens start. */
  lemma {:induction false} ReadRequestHeader(h: RequestHeader, ts: seq<string>)
    requires Readable(h)
    ensures var m, c := RequestText(h, ts), |RequestText(h, ts)| - |Spaced(ts)|;
            0 <= c <= |m| && ReadHeaderChecked(m) == Ok((h, c)) && m[c..] == Spaced(ts)
  {
    var sp := Spaced(ts);
    var tail := "x " + sp;
    var m := RequestText(h, ts);
    RequestFieldsScan(h, ts, m, tail);
    HeaderReadBack(h, m, tail, sp);
  }

  /** The header read back, and where the value tokens start, from the six fields scanned. */
  lemma {:induction false} HeaderReadBack(h: RequestHeader, m: string, tail: string, sp: string)
    requires ScanFields(HeaderFields, m) == FieldsRead(Completed, HeaderValues(h), tail)
    requires |m| >= |tail| && m[|m| - |tail|..] == tail && tail == "x " + sp
    ensures var c := |m| - |sp|; 0 <= c <= |m| && ReadHeaderChecked(m) == Ok((h, c)) && m[c..] == sp
  {
    CheckedOfFields(m, h, tail);
    assert m[|m| - |sp|..] == tail[2..] == sp;
  }

  /** Six fields, then an 'x' and one more character: the header is accepted, and %n stores
      the count of characters read. */
  lemma {:induction false} CheckedOfFields(m: string, h: RequestHeader, tail: string)
    requires ScanFields(HeaderFields, m) == FieldsRead(Completed, HeaderValues(h), tail)
    requires |tail| >= 2 && tail[0] == 'x'
    ensures ReadHeaderChecked(m) == Ok((h, |m| - |tail| + 2))
  {
    ScanHeaderCounted(m, HeaderValues(h), tail);
    ReadHeaderCheckedOf(m, h, |m| - |tail| + 2);
  }

  lemma {:induction false} ReadHeaderCheckedOf(m: string, h: RequestHeader, c: nat)
    requires ScanHeader(m) == HeaderScan(6, HeaderValues(h), Some(c))
    ensures ReadHeaderChecked(m) == Ok((h, c))
  {
    HeaderOfValues(h);
  }

  /** Six fields, then an 'x' and one more character: %n stores the count of characters read. */
  lemma {:induction false} ScanHeaderCounted(m: string, vs: seq<FieldValue>, tail: string)
    requires ScanFields(HeaderFields, m) == FieldsRead(Completed, vs, tail)
    requires |tail| >= 2 && tail[0] == 'x'
    ensures ScanHeader(m) == HeaderScan(6, vs, Some(|m| - |tail| + 2))
  {
  }

  /** Six fields and no "x": sscanf returns 6 all the same, and %n stores nothing. */
  lemma {:induction false} ScanHeaderUncounted(m: string, vs: seq<FieldValue>)
    requires ScanFields(HeaderFields, m) == FieldsRead(Completed, vs, "")
    ensures ScanHeader(m) == HeaderScan(6, vs, None)
  {
  }

  lemma {:induction false} HeaderOfValues(h: RequestHeader)
    ensures HeaderOf(HeaderValues(h)) == h
  {
  }

  /** The rest of a fields text is its suffix. */
  lemma {:induction false} TailOfFields(fs: seq<HeaderField>, vs: seq<FieldValue>, rest: string)
    requires |fs| == |vs|
    ensures var m := FieldsText(fs, vs, rest); |m| >= |rest| && m[|m| - |rest|..] == rest
    decreases |vs|
  {
    if vs != [] {
      TailOfFields(fs[1..], vs[1..], rest);
    }
  }

  /** The readable header without "x" passes the check as written, but no count is stored. */
  lemma {:induction false} HeaderWithoutX(h: RequestHeader)
    requires Readable(h)
    ensures var m := FieldsText(HeaderFields, HeaderValues(h), "");
            ReadHeader(m) == Ok((h, None)) && ReadHeaderChecked(m).Err?
  {
    HeaderFits(h);
    ScanFieldsText(HeaderFields, HeaderValues(h), "");
    ScanHeaderUncounted(FieldsText(HeaderFields, HeaderValues(h), ""), HeaderValues(h));
    HeaderOfValues(h);
  }

  // ----- evaluate_message -----

  /** The x loop after the header: `dimension` values read from where the header's %n points,
      with that count as the one a value without delimiter moves on by.  When the header's %n
      stored nothing the offset reads an uninitialised variable, which the model reports. */
  function DecisionValues(message: string, charCount: Option<nat>, dimension: nat): (r: Result<seq<real>, ServerError>)
    ensures r.Ok? ==> |r.value| == dimension
    ensures dimension == 0 ==> r == Ok([])
    ensures dimension > 0 && charCount.None? ==> r == Err(ValuesUnreadable(IndeterminateCount))
    ensures dimension > 0 && charCount.Some? && charCount.value <= |message| ==>
      r == Lift(ReadValues(message[charCount.value..], charCount, dimension))
  {
    if dimension == 0 then Ok([])
    else if charCount.None? then Err(ValuesUnreadable(IndeterminateCount))
    else if charCount.value > |message| then Err(ValuesUnreadable(PastTheEnd))
    else Lift(ReadValues(message[charCount.value..], charCount, dimension))
  }

  /** A failure to read the values, as the server reports it. */
  function Lift(r: Result<seq<real>, DecodeError>): (l: Result<seq<real>, ServerError>)
    ensures l.Ok? <==> r.Ok?
    ensures r.Ok? ==> l.value == r.value
    ensures r.Err? ==> l.error == ValuesUnreadable(r.error)
  {
    if r.Ok? then Ok(r.value) else Err(ValuesUnreadable(r.error))
  }

  /** A failure of the evaluator, as the server reports it. */
  function Evaluated(r: Result<seq<real>, Toy.ToyError>): (l: Result<seq<real>, ServerError>)
    ensures l.Ok? <==> r.Ok?
    ensures r.Ok? ==> l.value == r.value
    ensures r.Err? ==> l.error == EvaluatorFailed(r.error)
  {
    if r.Ok? then Ok(r.value) else Err(EvaluatorFailed(r.error))
  }

  /** The suite chooses the evaluators, and the evaluation type the one applied to x: the
      first numberOfValues objectives or constraint violations. */
  function Evaluate(h: RequestHeader, x: seq<real>): (r: Result<seq<real>, ServerError>)
    ensures r.Ok? ==> |r.value| == h.numberOfValues
    ensures h.suiteName != Toy.ToySocket && h.suiteName != Toy.ToySocketBiobj ==>
      r == Err(SuiteNotSupported(h.suiteName))
    ensures (h.suiteName == Toy.ToySocket || h.suiteName == Toy.ToySocketBiobj) ==>
      (h.evaluationType == Objectives ==>
         r == Evaluated(Toy.Objectives(h.suiteName, h.numberOfValues, h.functionNumber, h.instance, x))) &&
      (h.evaluationType == Constraints ==>
         r == Evaluated(Toy.Constraints(h.suiteName, h.numberOfValues, h.functionNumber, h.instance, x))) &&
      (h.evaluationType != Objectives && h.evaluationType != Constraints ==>
         r == Err(TypeNotSupported(h.evaluationType)))
  {
    if h.suiteName != Toy.ToySocket && h.suiteName != Toy.ToySocketBiobj then
      Err(SuiteNotSupported(h.suiteName))
    else if h.evaluationType == Objectives then
      Evaluated(Toy.Objectives(h.suiteName, h.numberOfValues, h.functionNumber, h.instance, x))
    else if h.evaluationType == Constraints then
      Evaluated(Toy.Constraints(h.suiteName, h.numberOfValues, h.functionNumber, h.instance, x))
    else Err(TypeNotSupported(h.evaluationType))
  }

  /** "%.*e " at RESULT_PRECISION for every value: the tokens of a response. */
  function ResponseTokens(values: seq<real>): (ts: seq<string>)
    ensures |ts| == |values|
    ensures forall k :: 0 <= k < |values| ==> ts[k] == FormatE(ResultPrecision, values[k])
  {
    seq(|values|, k requires 0 <= k < |values| => FormatE(ResultPrecision, values[k]))
  }

  function ResponseText(values: seq<real>): string {
    Spaced(ResponseTokens(values))
  }

  /** The answer to a message, with the header check the format intends: the response, or
      the reason the server exits. */
  function Reply(message: string): (r: Result<string, ServerError>)
    ensures r.Ok? ==> ReadHeaderChecked(message).Ok?
    ensures ReadHeaderChecked(message).Err? ==> r == Err(ReadHeaderChecked(message).error)
  {
    var (h, count) :- ReadHeaderChecked(message);
    ReplyFrom(message, h, Some(count))
  }

  /** The answer to a message with the header check as written. */
  function ReplyAsWritten(message: string): (r: Result<string, ServerError>)
    ensures r.Ok? ==> ReadHeader(message).Ok?
    ensures ReadHeader(message).Err? ==> r == Err(ReadHeader(message).error)
  {
    var (h, count) :- ReadHeader(message);
    ReplyFrom(message, h, count)
  }

  /** The answer once the header is read: the values read from where %n points, evaluated. */
  function ReplyFrom(message: string, h: RequestHeader, count: Option<nat>): (r: Result<string, ServerError>) {
    var x :- DecisionValues(message, count, h.dimension);
    var values :- Evaluate(h, x);
    Ok(ResponseText(values))
  }

  /** evaluate_message: the response to a message, or the reason the server exits. */
  method EvaluateMessage(message: string) returns (r: Result<string, ServerError>)
    ensures r == Reply(message)
  {
    var header := ReadHeaderChecked(message);
    if header.Err? {
      return Err(header.error);
    }
    var (h, charCount) := header.value;
    r := EvaluateRequest(message, h, charCount);
  }

  /** evaluate_message after the header: the values read into x, the evaluator the suite and
      the evaluation type choose applied to them, and the response built. */
  method EvaluateRequest(message: string, h: RequestHeader, charCount: nat) returns (r: Result<string, ServerError>)
    requires charCount <= |message|
    ensures r == ReplyFrom(message, h, Some(charCount))
  {
    var x := new real[h.dimension];
    var read := ReadValuesInto(message[charCount..], Some(charCount), h.dimension, x);
    if read.Err? {
      return Err(ValuesUnreadable(read.error));
    }
    assert x[..] == x[..h.dimension];
    ghost var xs := x[..];
    assert DecisionValues(message, Some(charCount), h.dimension) == Ok(xs);
    if h.suiteName != Toy.ToySocket && h.suiteName != Toy.ToySocketBiobj {
      return Err(SuiteNotSupported(h.suiteName));
    }
    var values := new real[h.numberOfValues];
    var status: Result<(), Toy.ToyError>;
    if h.evaluationType == Objectives {
      status := Toy.EvaluateObjectives(h.suiteName, h.numberOfValues, h.functionNumber, h.instance, h.dimension, x, values);
    } else if h.evaluationType == Constraints {
      status := Toy.EvaluateConstraints(h.suiteName, h.numberOfValues, h.functionNumber, h.instance, h.dimension, x, values);
    } else {
      return Err(TypeNotSupported(h.evaluationType));
    }
    if status.Err? {
      return Err(EvaluatorFailed(status.error));
    }
    assert values[..] == values[..h.numberOfValues];
    assert Evaluate(h, xs) == Ok(values[..]);
    var response := WriteResponse(values);
    return Ok(response);
  }

  /** The loop that writes "%.*e " at RESULT_PRECISION for every value. */
  method WriteResponse(values: array<real>) returns (response: string)
    ensures response == ResponseText(values[..])
  {
    ghost var tokens := ResponseTokens(values[..]);
    response := "";
    for i := 0 to values.Length
      invariant response == Spaced(tokens[..i])
    {
      var token := FormatE(ResultPrecision, values[i]);
      assert response == "" + Spaced(tokens[..i]);
      MessageStep("", tokens, i, response, token);
      response := response + token + " ";
    }
    assert tokens[..values.Length] == tokens;
  }

  /** The result of an evaluation as Reply answers it. */
  function Answer(r: Result<seq<real>, ServerError>): Result<string, ServerError> {
    if r.Ok? then Ok(ResponseText(r.value)) else Err(r.error)
  }

  /** Both header checks answer alike wherever the intended one accepts the header or the one
      as written rejects it. */
  lemma {:induction false} ReplyAgrees(message: string)
    requires ReadHeaderChecked(message).Ok? || ReadHeader(message).Err?
    ensures ReplyAsWritten(message) == Reply(message)
  {
  }

  /** A header without "x" and a dimension of 0: the check as written answers with the
      evaluation of no values, while the intended check rejects the message. */
  lemma {:induction false} ReplyWithoutX(h: RequestHeader)
    requires Readable(h) && h.dimension == 0
    ensures var m := FieldsText(HeaderFields, HeaderValues(h), "");
            ReplyAsWritten(m) == Answer(Evaluate(h, [])) && Reply(m) == Err(HeaderUnreadable(6))
  {
    HeaderWithoutX(h);
    var m := FieldsText(HeaderFields, HeaderValues(h), "");
    assert ScanHeader(m).count == 6;
  }

  /** The server answers a request a client writes for a readable header and rendered values
      with the evaluation of exactly those values. */
  lemma {:induction false} ServesRequest(h: RequestHeader, ts: seq<string>, xs: seq<Number>, vs: seq<real>, m: string)
    requires Readable(h) && RendersAs(ts, xs, vs) && h.dimension == |ts| && m == RequestText(h, ts)
    ensures Reply(m) == Answer(Evaluate(h, vs))
  {
    var c := |m| - |Spaced(ts)|;
    RequestHeaderAt(h, ts, m, c);
    RenderedValues(ts, xs, vs, c);
    RequestValues(m, h, c, ts, vs);
  }

  lemma {:induction false} RequestHeaderAt(h: RequestHeader, ts: seq<string>, m: string, c: int)
    requires Readable(h) && m == RequestText(h, ts) && c == |m| - |Spaced(ts)|
    ensures 0 <= c <= |m| && ReadHeaderChecked(m) == Ok((h, c)) && m[c..] == Spaced(ts)
  {
    ReadRequestHeader(h, ts);
  }

  lemma {:induction false} RenderedValues(ts: seq<string>, xs: seq<Number>, vs: seq<real>, c: nat)
    requires RendersAs(ts, xs, vs)
    ensures ReadValues(Spaced(ts), Some(c), |vs|) == Ok(vs)
  {
    ReadValuesRendered(ts, xs, vs, Some(c), |ts|);
    assert vs[..|ts|] == vs;
  }

  lemma {:induction false} RequestValues(m: string, h: RequestHeader, c: nat, ts: seq<string>, vs: seq<real>)
    requires ReadHeaderChecked(m) == Ok((h, c)) && c <= |m| && m[c..] == Spaced(ts)
    requires h.dimension == |vs| && ReadValues(Spaced(ts), Some(c), |vs|) == Ok(vs)
    ensures Reply(m) == Answer(Evaluate(h, vs))
  {
    assert DecisionValues(m, Some(c), h.dimension) == Ok(vs);
  }

  /** The numbers a response writes: every value rounded to RESULT_PRECISION digits after the point. */
  function ResponseNumbers(values: seq<real>): (xs: seq<Number>)
    ensures |xs| == |values|
  {
    seq(|values|, k requires 0 <= k < |values| => SciNumber(ToSci(ResultPrecision, values[k])))
  }

  /** The values a client reads from a response. */
  function Rounded(values: seq<real>): (vs: seq<real>)
    ensures |vs| == |values|
    ensures forall k :: 0 <= k < |values| ==> vs[k] == SciValue(ToSci(ResultPrecision, values[k]))
  {
    seq(|values|, k requires 0 <= k < |values| => SciValue(ToSci(ResultPrecision, values[k])))
  }

  /** The client reads every value of a response back, rounded to RESULT_PRECISION digits. */
  lemma {:induction false} ResponseReadsBack(values: seq<real>)
    ensures ReadValues(ResponseText(values), None, |values|) == Ok(Rounded(values))
  {
    var ts, xs, vs := ResponseTokens(values), ResponseNumbers(values), Rounded(values);
    forall k | 0 <= k < |ts|
      ensures ValidNumber(xs[k]) && ts[k] == NumberText(xs[k]) && vs[k] == NumberValue(xs[k])
    {
      assert xs[k] == SciNumber(ToSci(ResultPrecision, values[k]));
    }
    RendersAsEach(ts, xs, vs);
    ReadValuesRendered(ts, xs, vs, None, |values|);
    assert vs[..|values|] == vs;
  }

  // ----- socket_server_start -----

  const ShutdownRequest: string := "SHUTDOWN"

  /** How the server leaves a connection: a RESET closes it and the server accepts the next,
      a SHUTDOWN stops the server, a message it cannot answer makes it exit, and a client
      with no more messages leaves it waiting to read. */
  datatype End = Closed | Stopped | Exited(error: ServerError) | Waiting

  /** The responses sent on a connection and how the server leaves it. */
  datatype Served = Served(sent: seq<string>, end: End)

  /** The text of a received message: the C string the buffer holds. */
  function Received(bytes: string): string {
    CutAtNul(bytes)
  }

  /** The way the server answers a message: the response, or the reason it exits. */
  type Answerer = string -> Result<string, ServerError>

  /** The inner loop of socket_server_start over the messages read on one connection: RESET
      is checked before SHUTDOWN, by prefix, and every other message is answered with its
      response and the terminating NUL. */
  function Session(messages: seq<string>, answer: Answerer): (r: Served)
    ensures |r.sent| <= |messages|
    decreases |messages|
  {
    if messages == [] then Served([], Waiting)
    else
      var message := Received(messages[0]);
      if StartsWith(message, Reset) then Served([], Closed)
      else if StartsWith(message, ShutdownRequest) then Served([], Stopped)
      else match answer(message)
        case Err(e) => Served([], Exited(e))
        case Ok(response) => After([Wire(response)], Session(messages[1..], answer))
  }

  /** The outer loop: after a RESET the server accepts the next connection. */
  function Serve(connections: seq<seq<string>>, answer: Answerer): (r: Served)
    ensures r.end != Closed
    decreases |connections|, 0
  {
    if connections == [] then Served([], Waiting)
    else Continue(Session(connections[0], answer), connections[1..], answer)
  }

  /** What a connection's session leads to, given the connections accepted after it. */
  function Continue(session: Served, later: seq<seq<string>>, answer: Answerer): (r: Served)
    ensures r.end != Closed
    decreases |later|, 1
  {
    if session.end == Closed then After(session.sent, Serve(later, answer)) else session
  }

  /** The responses sent earlier in front of what follows. */
  function After(done: seq<string>, r: Served): Served {
    Served(done + r.sent, r.end)
  }

  /** socket_server_start over the connections it accepts, each given as the byte strings
      read on it: the byte strings sent back, and how the server stops. */
  method SocketServerStart(connections: seq<seq<string>>) returns (sent: seq<string>, end: End)
    ensures Served(sent, end) == Serve(connections, Reply)
  {
    sent := [];
    var i := 0;
    assert connections[0..] == connections;
    while i < |connections|
      invariant i <= |connections|
      invariant Serve(connections, Reply) == After(sent, Serve(connections[i..], Reply))
    {
      ServeNext(connections, i, Reply);
      var more, e := ServeConnection(connections[i]);
      AfterAssociates(sent, more, Serve(connections[i + 1..], Reply));
      sent := sent + more;
      if e != Closed {
        return sent, e;
      }
      i := i + 1;
    }
    return sent, Waiting;
  }

  /** The inner loop of socket_server_start on one connection. */
  method ServeConnection(messages: seq<string>) returns (sent: seq<string>, end: End)
    ensures Served(sent, end) == Session(messages, Reply)
  {
    sent := [];
    var j := 0;
    assert messages[0..] == messages;
    while j < |messages|
      invariant j <= |messages|
      invariant Session(messages, Reply) == After(sent, Session(messages[j..], Reply))
    {
      var message := Received(messages[j]);
      if StartsWith(message, Reset) {
        SessionEnds(messages, j, Reply);
        return sent, Closed;
      }
      if StartsWith(message, ShutdownRequest) {
        SessionEnds(messages, j, Reply);
        return sent, Stopped;
      }
      var response := EvaluateMessage(message);
      SessionEnds(messages, j, Reply);
      if response.Err? {
        return sent, Exited(response.error);
      }
      AfterAssociates(sent, [Wire(response.value)], Session(messages[j + 1..], Reply));
      sent := sent + [Wire(response.value)];
      j := j + 1;
    }
    assert messages[j..] == [] && sent + [] == sent;
    end := Waiting;
  }

  /** The outer loop's step: the session on connection i, then the connections after it. */
  lemma {:induction false} ServeNext(connections: seq<seq<string>>, i: nat, answer: Answerer)
    requires i < |connections|
    ensures Serve(connections[i..], answer) == Continue(Session(connections[i], answer), connections[i + 1..], answer)
  {
    assert connections[i..][1..] == connections[i + 1..];
  }

  /** The inner loop's step on message j. */
  lemma {:induction false} SessionEnds(messages: seq<string>, j: nat, answer: Answerer)
    requires j < |messages|
    ensures var message := Received(messages[j]);
            Session(messages[j..], answer) ==
              if StartsWith(message, Reset) then Served([], Closed)
              else if StartsWith(message, ShutdownRequest) then Served([], Stopped)
              else if answer(message).Err? then Served([], Exited(answer(message).error))
              else After([Wire(answer(message).value)], Session(messages[j + 1..], answer))
  {
    assert messages[j..][0] == messages[j];
    assert messages[j..][1..] == messages[j + 1..];
  }

  lemma {:induction false} AfterAssociates(done: seq<string>, more: seq<string>, r: Served)
    ensures After(done, After(more, r)) == After(done + more, r)
  {
    assert done + (more + r.sent) == done + more + r.sent;
  }

  /** A RESET closes the connection: the messages after it on that connection are never read,
      and the server goes on with the next connection. */
  lemma {:induction false} ResetSkipsConnection(first: string, rest: seq<string>, later: seq<seq<string>>, answer: Answerer)
    requires StartsWith(Received(first), Reset)
    ensures Serve([[first] + rest] + later, answer) == Serve(later, answer)
  {
    var cs := [[first] + rest] + later;
    assert cs[0] == [first] + rest && cs[1..] == later;
    assert ([first] + rest)[0] == first;
    var more := Serve(later, answer);
    assert [] + more.sent == more.sent;
  }

  /** A SHUTDOWN stops the server: nothing after it, on any connection, is read or answered. */
  lemma {:induction false} ShutdownStopsServer(first: string, rest: seq<string>, later: seq<seq<string>>, answer: Answerer)
    requires StartsWith(Received(first), ShutdownRequest)
    ensures Serve([[first] + rest] + later, answer) == Served([], Stopped)
  {
    var cs := [[first] + rest] + later;
    assert cs[0] == [first] + rest;
    assert ([first] + rest)[0] == first;
    assert Received(first)[0] == 'S';
  }

  /** A message the server cannot answer ends the server with its error, nothing sent. */
  lemma {:induction false} FailureEndsServer(first: string, rest: seq<string>, later: seq<seq<string>>, answer: Answerer)
    requires !StartsWith(Received(first), Reset) && !StartsWith(Received(first), ShutdownRequest)
    requires answer(Received(first)).Err?
    ensures Serve([[first] + rest] + later, answer) == Served([], Exited(answer(Received(first)).error))
  {
    var cs := [[first] + rest] + later;
    assert cs[0] == [first] + rest;
    assert ([first] + rest)[0] == first;
  }

  /** The answers on a connection whose every message is answered. */
  function Answers(messages: seq<string>, answer: Answerer): (ws: seq<string>)
    requires forall k :: 0 <= k < |messages| ==> answer(Received(messages[k])).Ok?
  {
    seq(|messages|, k requires 0 <= k < |messages| => Wire(answer(Received(messages[k])).value))
  }

  /** A connection whose messages are all answered gets one response per message, in order,
      each with its terminating NUL, and the server goes on reading. */
  lemma {:induction false} SessionAnswersAll(messages: seq<string>, answer: Answerer)
    requires forall k :: 0 <= k < |messages| ==>
      !StartsWith(Received(messages[k]), Reset) && !StartsWith(Received(messages[k]), ShutdownRequest)
    requires forall k :: 0 <= k < |messages| ==> answer(Received(messages[k])).Ok?
    ensures Session(messages, answer) == Served(Answers(messages, answer), Waiting)
    decreases |messages|
  {
    if messages != [] {
      var ms := messages[1..];
      assert forall k :: 0 <= k < |ms| ==> ms[k] == messages[k + 1];
      SessionAnswersAll(ms, answer);
      assert Answers(messages, answer) == [Wire(answer(Received(messages[0])).value)] + Answers(ms, answer);
    }
  }

  // ----- main -----

  const LongMin: int := -0x8000_0000_0000_0000
  const LongMax: int := 0x7FFF_FFFF_FFFF_FFFF
  const UShortModulus: nat := 0x1_0000

  /** strtol(s, NULL, 10): white space, an optional sign and the longest run of digits, 0 when
      there is no digit, clamped to the range of a long. */
  function Strtol(s: string): (n: int)
    ensures LongMin <= n <= LongMax
  {
    var (negative, u) := ScanSign(SkipBlank(s));
    var m := DigitsValue(u[..DigitRun(u)]);
    var v := if negative then 0 - m as int else m as int;
    if v < LongMin then LongMin else if v > LongMax then LongMax else v
  }

  /** The conversion of the long to an unsigned short: the value modulo 2^16. */
  function PortOf(argument: string): (port: nat)
    ensures port < UShortModulus
  {
    Strtol(argument) % UShortModulus
  }

  /** The port and the silent flag the server is started with. */
  datatype Invocation = Invocation(port: nat, silent: bool)

  /** main's handling of argv (the program name first): one or two options, the port and
      "silent"; any other option in second place is ignored.  None when main returns -1. */
  function ParseArguments(argv: seq<string>): (r: Option<Invocation>)
    ensures r.Some? <==> 2 <= |argv| <= 3
    ensures r.Some? ==> r.value.port == PortOf(argv[1]) && (r.value.silent <==> |argv| == 3 && argv[2] == "silent")
  {
    if 2 <= |argv| <= 3 then Some(Invocation(PortOf(argv[1]), |argv| == 3 && argv[2] == "silent"))
    else None
  }

  /** A decimal port number reads back modulo 2^16: a port below 2^16 as itself. */
  lemma {:induction false} PortOfDecimal(n: nat)
    requires n <= LongMax
    ensures PortOf(NatToString(n)) == n % UShortModulus
  {
    var s := NatToString(n);
    assert s[0] != ' ' && !IsSpace(s[0]);
    assert SkipBlank(s) == s;
    assert ScanSign(s) == (false, s);
    DigitRunOfDigitsThen(s, "");
    assert s + "" == s;
    assert s[..|s|] == s;
    NatToStringValue(n);
  }
}
