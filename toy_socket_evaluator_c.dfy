/** The toy evaluator the C socket server is built with: the objectives and the constraint
    violations of the problems of the toy-socket suites, over exact reals. */
module ToySocketEvaluatorC {
  import opened Common

  const ToySocket: string := "toy-socket"
  const ToySocketBiobj: string := "toy-socket-biobj"

  /** 1e-5, the weight of the instance number in every value. */
  const InstanceWeight: real := 0.00001

  function Abs(v: real): (a: real)
    ensures a >= 0.0 && (a == v || a == -v)
  {
    if v < 0.0 then -v else v
  }

  /** The sum of |x_k|, accumulated from the left. */
  function SumAbs(x: seq<real>): (s: real)
    ensures s >= 0.0
    decreases |x|
  {
    if x == [] then 0.0 else SumAbs(x[..|x| - 1]) + Abs(x[|x| - 1])
  }

  /** The sum of x_k * x_k, accumulated from the left. */
  function SumSquares(x: seq<real>): (s: real)
    ensures s >= 0.0
    decreases |x|
  {
    if x == [] then 0.0 else SumSquares(x[..|x| - 1]) + x[|x| - 1] * x[|x| - 1]
  }

  /** The part of every value that comes from the instance number. */
  function InstanceOffset(instance: int): real {
    InstanceWeight * instance as real
  }

  /** Why an evaluator exits with a failure. */
  datatype ToyError =
    | NoSuchFunction(suite: string, functionNumber: nat)                // the suite has no such function
    | WrongObjectiveCount(suite: string, count: nat)                    // the suite cannot have that many objectives
    | NoSuchConstraints(suite: string, functionNumber: nat, count: nat) // the function has not that many constraints
    | EmptyDimension                                                    // assert(dimension > 0) fails

  /** What evaluate_toy_socket_objectives writes into the first `count` objectives for x. */
  function Objectives(suite: string, count: nat, functionNumber: nat, instance: nat, x: seq<real>): (r: Result<seq<real>, ToyError>)
    ensures r.Ok? <==> (suite == ToySocket && count == 1 && 1 <= functionNumber <= 2) ||
                       (suite == ToySocketBiobj && count == 2 && 1 <= functionNumber <= 2)
    ensures r.Ok? ==> |r.value| == count
    ensures r.Ok? ==> forall k :: 0 <= k < count ==> r.value[k] >= InstanceOffset(instance)
    ensures r.Err? && !(suite == ToySocket && count == 1) && !(suite == ToySocketBiobj && count == 2) ==>
      r.error == WrongObjectiveCount(suite, count)
  {
    var y0 := InstanceOffset(instance);
    if suite == ToySocket && count == 1 then
      if functionNumber == 1 then Ok([y0 + SumAbs(x)])
      else if functionNumber == 2 then Ok([y0 + SumSquares(x)])
      else Err(NoSuchFunction(suite, functionNumber))
    else if suite == ToySocketBiobj && count == 2 then
      if functionNumber == 1 || functionNumber == 2 then Ok([y0 + SumAbs(x), y0 + SumSquares(x)])
      else Err(NoSuchFunction(suite, functionNumber))
    else Err(WrongObjectiveCount(suite, count))
  }

  /** The average the constraints are computed from: the instance part plus the sum of |x_k|,
      divided by the dimension. */
  function Average(instance: nat, x: seq<real>): (a: real)
    requires |x| > 0
    ensures a >= 0.0
  {
    (InstanceOffset(instance) + SumAbs(x)) / (|x| as real)
  }

  /** Violation of "the average is at least 0.2". */
  function BelowViolation(a: real): (v: real)
    ensures v >= 0.0 && (v > 0.0 <==> a < 0.2)
  {
    if a < 0.2 then 0.2 - a else 0.0
  }

  /** Violation of "the average is at most 0.5". */
  function AboveViolation(a: real): (v: real)
    ensures v >= 0.0 && (v > 0.0 <==> a > 0.5)
  {
    if a > 0.5 then a - 0.5 else 0.0
  }

  /** What evaluate_toy_socket_constraints writes into the first `count` constraints for x. */
  function Constraints(suite: string, count: nat, functionNumber: nat, instance: nat, x: seq<real>): (r: Result<seq<real>, ToyError>)
    ensures r.Ok? <==> |x| > 0 && ((suite == ToySocket && functionNumber == 1 && count == 2) ||
                                   (suite == ToySocketBiobj && functionNumber == 2 && count == 1))
    ensures |x| == 0 ==> r == Err(EmptyDimension)
    ensures r.Ok? ==> |r.value| == count && forall k :: 0 <= k < count ==> r.value[k] >= 0.0
    ensures r.Ok? && suite == ToySocket ==> !(r.value[0] > 0.0 && r.value[1] > 0.0)
  {
    if |x| == 0 then Err(EmptyDimension)
    else
      var a := Average(instance, x);
      if suite == ToySocket && functionNumber == 1 && count == 2 then
        Ok([BelowViolation(a), AboveViolation(a)])
      else if suite == ToySocketBiobj && functionNumber == 2 && count == 1 then
        Ok([AboveViolation(a)])
      else Err(NoSuchConstraints(suite, functionNumber, count))
  }

  /** start plus |x_0| + ... + |x_(n-1)|, added one at a time. */
  method AddAbs(start: real, x: array<real>, n: nat) returns (value: real)
    requires n <= x.Length
    ensures value == start + SumAbs(x[..n])
  {
    value := start;
    for i := 0 to n
      invariant value == start + SumAbs(x[..i])
    {
      assert x[..i + 1][..i] == x[..i];
      value := value + Abs(x[i]);
    }
  }

  /** start plus x_0 * x_0 + ... + x_(n-1) * x_(n-1), added one at a time. */
  method AddSquares(start: real, x: array<real>, n: nat) returns (value: real)
    requires n <= x.Length
    ensures value == start + SumSquares(x[..n])
  {
    value := start;
    for i := 0 to n
      invariant value == start + SumSquares(x[..i])
    {
      assert x[..i + 1][..i] == x[..i];
      value := value + x[i] * x[i];
    }
  }

  /** evaluate_toy_socket_objectives: the objectives written into `objectives`, or the reason
      the evaluator exits, in which case nothing is written. */
  method EvaluateObjectives(suite: string, count: nat, functionNumber: nat, instance: nat, dimension: nat,
                            x: array<real>, objectives: array<real>) returns (status: Result<(), ToyError>)
    requires dimension <= x.Length && count <= objectives.Length && x != objectives
    modifies objectives
    ensures var r := Objectives(suite, count, functionNumber, instance, x[..dimension]);
            (status.Ok? <==> r.Ok?) && (r.Err? ==> status.error == r.error) &&
            (r.Ok? ==> objectives[..count] == r.value)
    ensures objectives[count..] == old(objectives[count..])
    ensures status.Err? ==> objectives[..] == old(objectives[..])
  {
    status := Ok(());
    var value: real;
    if suite == ToySocket && count == 1 {
      value := InstanceOffset(instance);
      if functionNumber == 1 {
        value := AddAbs(value, x, dimension);
        objectives[0] := value;
      } else if functionNumber == 2 {
        value := AddSquares(value, x, dimension);
        objectives[0] := value;
      } else {
        status := Err(NoSuchFunction(suite, functionNumber));
      }
    } else if suite == ToySocketBiobj && count == 2 {
      if functionNumber == 1 || functionNumber == 2 {
        value := InstanceOffset(instance);
        value := AddAbs(value, x, dimension);
        objectives[0] := value;
        value := InstanceOffset(instance);
        value := AddSquares(value, x, dimension);
        objectives[1] := value;
      } else {
        status := Err(NoSuchFunction(suite, functionNumber));
      }
    } else {
      status := Err(WrongObjectiveCount(suite, count));
    }
  }

  /** evaluate_toy_socket_constraints: the violations written into `constraints`, or the
      reason the evaluator stops, in which case nothing is written. */
  method EvaluateConstraints(suite: string, count: nat, functionNumber: nat, instance: nat, dimension: nat,
                             x: array<real>, constraints: array<real>) returns (status: Result<(), ToyError>)
    requires dimension <= x.Length && count <= constraints.Length && x != constraints
    modifies constraints
    ensures var r := Constraints(suite, count, functionNumber, instance, x[..dimension]);
            (status.Ok? <==> r.Ok?) && (r.Err? ==> status.error == r.error) &&
            (r.Ok? ==> constraints[..count] == r.value)
    ensures constraints[count..] == old(constraints[count..])
    ensures status.Err? ==> constraints[..] == old(constraints[..])
  {
    if dimension == 0 {
      return Err(EmptyDimension);
    }
    var average := AddAbs(InstanceOffset(instance), x, dimension);
    average := average / (dimension as real);
    assert average == Average(instance, x[..dimension]);
    status := Ok(());
    if suite == ToySocket && functionNumber == 1 && count == 2 {
      constraints[0] := if average < 0.2 then 0.2 - average else 0.0;
      constraints[1] := if average > 0.5 then average - 0.5 else 0.0;
    } else if suite == ToySocketBiobj && functionNumber == 2 && count == 1 {
      constraints[0] := if average > 0.5 then average - 0.5 else 0.0;
    } else {
      status := Err(NoSuchConstraints(suite, functionNumber, count));
    }
  }
}
