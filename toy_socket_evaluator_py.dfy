/** The toy evaluator the Python socket server is built with.  Its formulas are those of the C
    evaluator; it differs in what it is given (no objective count, a signed function and
    instance number, x as long as the message says) and in how it fails. */
module ToySocketEvaluatorPy {
  import opened Common
  import C = ToySocketEvaluatorC

  /** The exception the evaluator raises. */
  datatype PyError =
    | NoSuchFunction(suite: string, func: int)   // ValueError: the suite has no such function
    | SuiteNotSupported(suite: string)           // ValueError: not one of the two toy suites
    | NoConstraints(suite: string, func: int)    // ValueError: the function has no constraints
    | ZeroDivision                               // ZeroDivisionError: the average of an empty x

  /** evaluate_toy_socket_objectives: a fresh list of objective values. */
  function Objectives(suite: string, func: int, instance: int, x: seq<real>): (r: Result<seq<real>, PyError>)
    ensures r.Ok? <==> (suite == C.ToySocket || suite == C.ToySocketBiobj) && (func == 1 || func == 2)
    ensures r.Ok? ==> |r.value| == (if suite == C.ToySocket then 1 else 2)
    ensures r.Ok? ==> forall k :: 0 <= k < |r.value| ==> r.value[k] >= C.InstanceOffset(instance)
    ensures suite != C.ToySocket && suite != C.ToySocketBiobj ==> r == Err(SuiteNotSupported(suite))
  {
    var y0 := C.InstanceOffset(instance);
    if suite == C.ToySocket then
      if func == 1 then Ok([y0 + C.SumAbs(x)])
      else if func == 2 then Ok([y0 + C.SumSquares(x)])
      else Err(NoSuchFunction(suite, func))
    else if suite == C.ToySocketBiobj then
      if func == 1 || func == 2 then Ok([y0 + C.SumAbs(x), y0 + C.SumSquares(x)])
      else Err(NoSuchFunction(suite, func))
    else Err(SuiteNotSupported(suite))
  }

  /** evaluate_toy_socket_constraints: a fresh list of violations.  The average is computed
      before the suite is looked at, so an empty x fails with a division by zero first. */
  function Constraints(suite: string, func: int, instance: int, x: seq<real>): (r: Result<seq<real>, PyError>)
    ensures r.Ok? <==> |x| > 0 && ((suite == C.ToySocket && func == 1) || (suite == C.ToySocketBiobj && func == 2))
    ensures |x| == 0 ==> r == Err(ZeroDivision)
    ensures r.Ok? ==> |r.value| == (if suite == C.ToySocket then 2 else 1)
    ensures r.Ok? ==> forall k :: 0 <= k < |r.value| ==> r.value[k] >= 0.0
  {
    if |x| == 0 then Err(ZeroDivision)
    else
      var average := (C.InstanceOffset(instance) + C.SumAbs(x)) / (|x| as real);
      if suite == C.ToySocket && func == 1 then
        Ok([if average < 0.2 then 0.2 - average else 0.0, if average > 0.5 then average - 0.5 else 0.0])
      else if suite == C.ToySocketBiobj && func == 2 then
        Ok([if average > 0.5 then average - 0.5 else 0.0])
      else Err(NoConstraints(suite, func))
  }

  /** Both evaluators compute the same objectives: whatever the C evaluator accepts the Python
      one returns unchanged, and a Python result of the requested length is the C result. */
  lemma {:induction false} ObjectivesAgree(suite: string, count: nat, func: nat, instance: nat, x: seq<real>)
    ensures var c, p := C.Objectives(suite, count, func, instance, x), Objectives(suite, func, instance, x);
            (c.Ok? ==> p == Ok(c.value)) && (p.Ok? && |p.value| == count ==> c == Ok(p.value))
  {
  }

  /** Both evaluators compute the same violations from the same average once x is not empty,
      over the same accepted (suite, function) pairs. */
  lemma {:induction false} ConstraintsAgree(suite: string, count: nat, func: nat, instance: nat, x: seq<real>)
    requires |x| > 0
    ensures var c, p := C.Constraints(suite, count, func, instance, x), Constraints(suite, func, instance, x);
            (c.Ok? ==> p == Ok(c.value)) && (p.Ok? && |p.value| == count ==> c == Ok(p.value))
  {
  }

  /** A suite name that merely starts with "toy-socket" is rejected by both evaluators (the
      one longer name they accept is "toy-socket-biobj"). */
  lemma {:induction false} LongerNameRejected(suffix: string, func: int, instance: int, x: seq<real>)
    requires suffix != [] && suffix != "-biobj"
    ensures Objectives(C.ToySocket + suffix, func, instance, x) == Err(SuiteNotSupported(C.ToySocket + suffix))
    ensures Constraints(C.ToySocket + suffix, func, instance, x).Err?
  {
    assert (C.ToySocket + suffix)[10..] == suffix;
    assert C.ToySocketBiobj[10..] == "-biobj";
  }
}
