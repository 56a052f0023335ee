/** The bi-objective rw-mario-gan suite: ten functions in dimensions 10 to 40, seven
    instances, served on port 7200. */
module SuiteRwMarioGanBiobj {
  import opened Common
  import opened Coco
  import opened SocketCommunication
  import opened RwMarioGan

  const Name: string := "rw-mario-gan-biobj"
  const NumberOfFunctions: nat := 10
  const Dimensions: seq<nat> := [10, 20, 30, 40]
  const DefaultInstances: string := "instances: 1-7"
  const DefaultPort: nat := 7200

  /** suite_rw_mario_gan_biobj_initialize: the suite, and the socket client on port 7200
      unless the options name another; `instances` are the ones COCO selects for it. */
  method Initialize(options: ClientOptions, doubleToInt: real -> int, instances: seq<nat>) returns (suite: Suite)
    requires options.port.Some? ==> options.port.value < 0x1_0000
    ensures fresh(suite) && suite.name == Name && suite.functions == Functions(NumberOfFunctions)
    ensures suite.dimensions == Dimensions && suite.defaultInstances == DefaultInstances && !suite.knownOptima
    ensures suite.instances == instances
    ensures suite.data != null && fresh(suite.data)
    ensures suite.data.port == (if options.port.Some? then options.port.value else DefaultPort)
    ensures suite.data.hostName == (if options.hostName.Some? then options.hostName.value else Host)
    ensures suite.data.precisionX == PrecisionX(options.precisionX) && suite.data.sent == []
  {
    suite := new Suite(Name, NumberOfFunctions, Dimensions, DefaultInstances, false, instances);
    suite.data := new SocketCommunicationData(options, DefaultPort, doubleToInt);
  }

  /** suite_rw_mario_gan_biobj_get_instances_by_year: only year 0 has instances. */
  function InstancesByYear(year: int): (r: Result<string, CocoError>)
    ensures r.Ok? <==> year == 0
    ensures r.Ok? ==> r.value == "1"
    ensures r.Err? ==> r.error == YearNotDefined(year)
  {
    if year == 0 then Ok("1") else Err(YearNotDefined(year))
  }

  /** The problem the suite returns for a function, a dimension and an instance. */
  function ProblemOf(func: nat, dimension: nat, instance: nat): ProblemData {
    MarioGanData(2, func, dimension).(suiteDepFunction := func, suiteDepInstance := instance)
  }

  /** suite_rw_mario_gan_biobj_get_problem. */
  method GetProblem(suite: Suite, functionIdx: nat, dimensionIdx: nat, instanceIdx: nat) returns (problem: Problem)
    requires functionIdx < |suite.functions| && dimensionIdx < |suite.dimensions| && instanceIdx < |suite.instances|
    ensures fresh(problem) && problem.Valid()
    ensures problem.Data() == ProblemOf(suite.functions[functionIdx], suite.dimensions[dimensionIdx],
                                        suite.instances[instanceIdx])
  {
    var func := suite.functions[functionIdx];
    var dimension := suite.dimensions[dimensionIdx];
    var instance := suite.instances[instanceIdx];
    var r := MarioGanProblemAllocate(2, func, dimension);
    problem := r.value;
    problem.suiteDepFunction := func;
    problem.suiteDepInstance := instance;
  }

  /** Every function of the suite belongs to a group, two functions to each of the five
      groups; the problems have no constraints and no constraint evaluator. */
  lemma {:induction false} ProblemsGrouped(func: nat, dimension: nat, instance: nat)
    requires 1 <= func <= NumberOfFunctions
    ensures var d := ProblemOf(func, dimension, instance);
            d.problemType != "" && d.numberOfConstraints == 0 && !d.socketConstraint &&
            (func % 2 == 1 ==> ProblemOf(func + 1, dimension, instance).problemType == d.problemType) &&
            (func + 2 <= NumberOfFunctions ==> ProblemOf(func + 2, dimension, instance).problemType != d.problemType)
  {
    BiObjectiveTypes(func);
    BiObjectiveTypes(func + 1);
    BiObjectiveTypes(func + 2);
  }
}
