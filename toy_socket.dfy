/** The toy-socket problem: a box [-1, 1]^n whose objectives and constraints are computed by
    the external evaluator through the socket client. */
module ToySocketProblem {
  import opened Common
  import opened Coco

  const ProblemType: string := "toy_socket"

  /** The reference values: 0 for one objective; the ideal point (0, 0) and the nadir
      point (15, 15) for two. */
  function BestValue(objectives: nat): (b: seq<real>)
    ensures |b| == objectives
  {
    if objectives == 2 then [0.0, 0.0] else Constant(objectives, 0.0)
  }

  function NadirValue(objectives: nat): (n: seq<real>)
    ensures |n| == objectives
  {
    if objectives == 2 then [15.0, 15.0] else Constant(objectives, 0.0)
  }

  /** What toy_socket_problem_allocate returns for a supported number of objectives. */
  function ToySocketData(objectives: nat, constraints: nat, dimension: nat): ProblemData {
    ProblemData(dimension, objectives, constraints, Constant(dimension, -1.0), Constant(dimension, 1.0), 0,
                true, true, ProblemType, false, false, BestValue(objectives), NadirValue(objectives), 0, 0)
  }

  /** toy_socket_problem_allocate: one or two objectives, or coco_error. */
  method ToySocketProblemAllocate(objectives: nat, constraints: nat, dimension: nat)
    returns (r: Result<Problem, CocoError>)
    ensures r.Err? <==> objectives != 1 && objectives != 2
    ensures r.Err? ==> r.error == ObjectivesNotSupported(objectives)
    ensures r.Ok? ==> fresh(r.value) && r.value.Valid() && r.value.Data() == ToySocketData(objectives, constraints, dimension)
  {
    if objectives != 1 && objectives != 2 {
      return Err(ObjectivesNotSupported(objectives));
    }
    var problem := new Problem(dimension, objectives, constraints);
    problem.FillRegion(-1.0, 1.0);
    problem.numberOfIntegerVariables := 0;
    problem.socketFunction := true;
    problem.socketConstraint := true;
    problem.problemType := ProblemType;
    if objectives == 1 {
      problem.isOptKnown := false;
      problem.hasBestParameter := false;
      problem.bestValue[0] := 0.0;
      assert problem.bestValue[..] == [0.0];
    } else {
      problem.SetReference([0.0, 0.0], [15.0, 15.0]);
    }
    return Ok(problem);
  }

  /** The region of interest is the whole box: every variable lies between -1 and 1, and
      the ideal point of two objectives dominates the nadir point. */
  lemma {:induction false} ToySocketRegion(objectives: nat, constraints: nat, dimension: nat)
    requires objectives == 1 || objectives == 2
    ensures var d := ToySocketData(objectives, constraints, dimension);
            |d.smallestValuesOfInterest| == |d.largestValuesOfInterest| == dimension &&
            (forall k :: 0 <= k < dimension ==>
               d.smallestValuesOfInterest[k] == -1.0 && d.largestValuesOfInterest[k] == 1.0) &&
            |d.bestValue| == |d.nadirValue| == objectives &&
            (forall k :: 0 <= k < objectives ==> d.bestValue[k] == 0.0) &&
            (objectives == 2 ==> forall k :: 0 <= k < 2 ==> d.bestValue[k] < d.nadirValue[k])
  {
    var d := ToySocketData(objectives, constraints, dimension);
    if objectives == 2 {
      assert d.bestValue == [0.0, 0.0] && d.nadirValue == [15.0, 15.0];
    }
  }
}
