/** The single-objective toy-socket suite: two functions in dimensions 2 and 30, one
    instance, the first function with two constraints. */
module SuiteToySocket {
  import opened Common
  import opened Coco
  import opened SocketCommunication
  import ToySocketProblem
  import ToyC = ToySocketEvaluatorC
  import C = SocketServerC

  const Name: string := "toy-socket"
  const NumberOfFunctions: nat := 2
  const Dimensions: seq<nat> := [2, 30]
  const DefaultInstances: string := "instances: 1"
  const DefaultPort: nat := 7000

  /** suite_toy_socket_initialize: the suite, and the socket client on port 7000 unless the
      options name another; `instances` are the ones COCO selects for it. */
  method Initialize(options: ClientOptions, doubleToInt: real -> int, instances: seq<nat>) returns (suite: Suite)
    requires options.port.Some? ==> options.port.value < 0x1_0000
    ensures fresh(suite) && suite.name == Name && suite.functions == Functions(NumberOfFunctions)
    ensures suite.dimensions == Dimensions && suite.defaultInstances == DefaultInstances && !suite.knownOptima
    ensures suite.instances == instances
    ensures suite.data != null && fresh(suite.data)
    ensures suite.data.port == (if options.port.Some? then options.port.value else DefaultPort)
    ensures suite.data.hostName == (if options.hostName.Some? then options.hostName.value else Host)
    ensures suite.data.precisionX == PrecisionX(options.precisionX) && suite.data.sent == []
  {
    suite := new Suite(Name, NumberOfFunctions, Dimensions, DefaultInstances, false, instances);
    suite.data := new SocketCommunicationData(options, DefaultPort, doubleToInt);
  }

  /** suite_toy_socket_get_instances_by_year: only year 0 has instances. */
  function InstancesByYear(year: int): (r: Result<string, CocoError>)
    ensures r.Ok? <==> year == 0
    ensures r.Ok? ==> DefaultInstances == "instances: " + r.value
    ensures r.Err? ==> r.error == YearNotDefined(year)
  {
    if year == 0 then Ok("1") else Err(YearNotDefined(year))
  }

  /** Only the first function has constraints, two of them. */
  function NumberOfConstraints(func: nat): nat {
    if func == 1 then 2 else 0
  }

  /** The problem the suite returns for a function, a dimension and an instance. */
  function ProblemOf(func: nat, dimension: nat, instance: nat): ProblemData {
    ToySocketProblem.ToySocketData(1, NumberOfConstraints(func), dimension)
      .(suiteDepFunction := func, suiteDepInstance := instance)
  }

  /** suite_toy_socket_get_problem. */
  method GetProblem(suite: Suite, functionIdx: nat, dimensionIdx: nat, instanceIdx: nat) returns (problem: Problem)
    requires functionIdx < |suite.functions| && dimensionIdx < |suite.dimensions| && instanceIdx < |suite.instances|
    ensures fresh(problem) && problem.Valid()
    ensures problem.Data() == ProblemOf(suite.functions[functionIdx], suite.dimensions[dimensionIdx],
                                        suite.instances[instanceIdx])
  {
    var func := suite.functions[functionIdx];
    var dimension := suite.dimensions[dimensionIdx];
    var instance := suite.instances[instanceIdx];
    var r := ToySocketProblem.ToySocketProblemAllocate(1, NumberOfConstraints(func), dimension);
    problem := r.value;
    problem.suiteDepFunction := func;
    problem.suiteDepInstance := instance;
  }

  /** The request header the client sends for a problem of this suite. */
  function RequestFor(func: nat, dimension: nat, instance: nat, kind: string, count: nat): RequestHeader {
    Header(SocketProblemOf(Name, ProblemOf(func, dimension, instance)), kind, count)
  }

  /** The suite and the evaluator agree: for every function and dimension of the suite, the
      evaluator computes objectives exactly for the one objective the problem has, and
      constraints exactly for the number of constraints the problem has when it has any. */
  lemma {:induction false} EvaluatorServesSuite(func: nat, dimension: nat, instance: nat, count: nat, x: seq<real>)
    requires 1 <= func <= NumberOfFunctions && dimension in Dimensions && |x| == dimension
    ensures var d := ProblemOf(func, dimension, instance);
            (C.Evaluate(RequestFor(func, dimension, instance, Objectives, count), x).Ok? <==>
               count == d.numberOfObjectives) &&
            (C.Evaluate(RequestFor(func, dimension, instance, Constraints, count), x).Ok? <==>
               count == d.numberOfConstraints && count > 0)
  {
    assert Name == ToyC.ToySocket;
    assert |x| > 0;
  }
}
