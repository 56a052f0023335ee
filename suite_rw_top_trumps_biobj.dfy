/** The bi-objective rw-top-trumps suite: three functions, decks of 22, 32, 42 and 52 cards
    of four attributes, fifteen instances. */
module SuiteRwTopTrumpsBiobj {
  import opened Common
  import opened Coco
  import opened SocketCommunication
  import opened RwTopTrumps

  const Name: string := "rw-top-trumps-biobj"
  const NumberOfFunctions: nat := 3
  const Dimensions: seq<nat> := [88, 128, 168, 208]
  const DefaultInstances: string := "instances: 1-15"
  const DefaultPort: nat := 7000

  /** suite_rw_top_trumps_biobj_initialize: the suite, and the socket client on port 7000
      unless the options name another; `instances` are the ones COCO selects for it. */
  method Initialize(options: ClientOptions, doubleToInt: real -> int, instances: seq<nat>) returns (suite: Suite)
    requires options.port.Some? ==> options.port.value < 0x1_0000
    ensures fresh(suite) && suite.name == Name && suite.functions == Functions(NumberOfFunctions)
    ensures suite.dimensions == Dimensions && suite.defaultInstances == DefaultInstances && !suite.knownOptima
    ensures suite.instances == instances
    ensures suite.data != null && fresh(suite.data)
    ensures suite.data.port == (if options.port.Some? then options.port.value else DefaultPort)
    ensures suite.data.hostName == (if options.hostName.Some? then options.hostName.value else Host)
    ensures suite.data.precisionX == PrecisionX(options.precisionX) && suite.data.sent == []
  {
    suite := new Suite(Name, NumberOfFunctions, Dimensions, DefaultInstances, false, instances);
    suite.data := new SocketCommunicationData(options, DefaultPort, doubleToInt);
  }

  /** suite_rw_top_trumps_biobj_get_instances_by_year: only year 0 has instances, and its
      one instance is among the default ones. */
  function InstancesByYear(year: int): (r: Result<string, CocoError>)
    ensures r.Ok? <==> year == 0
    ensures r.Ok? ==> r.value == "1" && Supported(1)
    ensures r.Err? ==> r.error == YearNotDefined(year)
  {
    if year == 0 then Ok("1") else Err(YearNotDefined(year))
  }

  /** The problem the suite returns for a function, a dimension and an instance with a row
      in the tables. */
  function ProblemOf(func: nat, dimension: nat, instance: nat): ProblemData
    requires Supported(instance)
  {
    TopTrumpsData(2, func, dimension, instance).(suiteDepFunction := func, suiteDepInstance := instance)
  }

  /** suite_rw_top_trumps_biobj_get_problem: the problem, or coco_error for an instance the
      tables have no row for (COCO accepts any instance numbers in the suite options). */
  method GetProblem(suite: Suite, functionIdx: nat, dimensionIdx: nat, instanceIdx: nat)
    returns (r: Result<Problem, CocoError>)
    requires functionIdx < |suite.functions| && dimensionIdx < |suite.dimensions| && instanceIdx < |suite.instances|
    ensures var instance := suite.instances[instanceIdx];
            (r.Err? <==> !Supported(instance)) && (r.Err? ==> r.error == InstanceNotSupported(instance))
    ensures r.Ok? ==> fresh(r.value) && r.value.Valid() &&
                      r.value.Data() == ProblemOf(suite.functions[functionIdx], suite.dimensions[dimensionIdx],
                                                  suite.instances[instanceIdx])
  {
    var func := suite.functions[functionIdx];
    var dimension := suite.dimensions[dimensionIdx];
    var instance := suite.instances[instanceIdx];
    r := TopTrumpsProblemAllocate(2, func, dimension, instance);
    if r.Ok? {
      var problem := r.value;
      problem.suiteDepFunction := func;
      problem.suiteDepInstance := instance;
    }
  }

  /** Every problem of the suite is a whole deck: its region is the instance's attribute
      ranges once per card, every variable is an integer, there are no constraints, and
      function 1 is the one direct function. */
  lemma {:induction false} ProblemsAreDecks(func: nat, dimension: nat, instance: nat)
    requires 1 <= func <= NumberOfFunctions && dimension in Dimensions && Supported(instance)
    ensures var d := ProblemOf(func, dimension, instance);
            d.smallestValuesOfInterest == Repeat(LowBound[instance - 1], dimension / 4) &&
            d.largestValuesOfInterest == Repeat(HighBound[instance - 1], dimension / 4) &&
            d.numberOfIntegerVariables == d.numberOfVariables == dimension && d.numberOfConstraints == 0 &&
            (d.problemType == Direct <==> func == 1)
  {
    assert dimension % 4 == 0;
    RegionOfWholeCards(LowBound[instance - 1], dimension / 4, dimension);
    RegionOfWholeCards(HighBound[instance - 1], dimension / 4, dimension);
  }
}
