/** The parts of COCO's problem and suite objects that the socket problems and suites fill in.
    coco_problem_allocate and coco_suite_allocate are not part of this model: the constructors
    here stand for them, as far as the socket problems and suites rely on them. */
module Coco {
  import opened Common
  import SocketCommunication

  /** Why building a problem or a suite stops with coco_error. */
  datatype CocoError =
    | ObjectivesNotSupported(count: nat)   // only 1 or 2 objectives
    | InstanceNotSupported(instance: nat)  // no row of a bounds table
    | YearNotDefined(year: int)            // no instances for the year

  /** What a problem holds once it is built, as a value. */
  datatype ProblemData = ProblemData(
    numberOfVariables: nat,
    numberOfObjectives: nat,
    numberOfConstraints: nat,
    smallestValuesOfInterest: seq<real>,
    largestValuesOfInterest: seq<real>,
    numberOfIntegerVariables: nat,
    socketFunction: bool,      // evaluate_function is socket_evaluate_function
    socketConstraint: bool,    // evaluate_constraint is socket_evaluate_constraint
    problemType: string,       // "" while no type is set
    isOptKnown: bool,
    hasBestParameter: bool,
    bestValue: seq<real>,
    nadirValue: seq<real>,
    suiteDepFunction: nat,
    suiteDepInstance: nat)

  /** n copies of v. */
  function Constant(n: nat, v: real): (s: seq<real>)
    ensures |s| == n && forall k :: 0 <= k < n ==> s[k] == v
  {
    seq(n, k => v)
  }

  /** The problem coco_problem_allocate returns, in this model: every vector of its size and
      at 0, a best parameter, no evaluator, no type, no suite fields. */
  function Allocated(dimension: nat, objectives: nat, constraints: nat): (d: ProblemData)
    ensures d.numberOfVariables == dimension && d.numberOfObjectives == objectives
    ensures d.numberOfConstraints == constraints
    ensures |d.smallestValuesOfInterest| == |d.largestValuesOfInterest| == dimension
    ensures |d.bestValue| == |d.nadirValue| == objectives
  {
    ProblemData(dimension, objectives, constraints, Constant(dimension, 0.0), Constant(dimension, 0.0), 0,
                false, false, "", true, true, Constant(objectives, 0.0), Constant(objectives, 0.0), 0, 0)
  }

  /** The fields of a problem the socket client builds its requests from. */
  function SocketProblemOf(suiteName: string, d: ProblemData): (p: SocketCommunication.SocketProblem)
    ensures p.suiteName == suiteName && p.suiteDepFunction == d.suiteDepFunction
    ensures p.suiteDepInstance == d.suiteDepInstance && p.numberOfVariables == d.numberOfVariables
    ensures p.numberOfIntegerVariables == d.numberOfIntegerVariables
    ensures p.numberOfObjectives == d.numberOfObjectives && p.numberOfConstraints == d.numberOfConstraints
  {
    SocketCommunication.SocketProblem(suiteName, d.suiteDepFunction, d.suiteDepInstance, d.numberOfVariables,
                                      d.numberOfIntegerVariables, d.numberOfObjectives, d.numberOfConstraints)
  }

  /** A COCO problem: the sizes are fixed when it is allocated, the vectors are written in
      place and the other fields are assigned one by one. */
  class Problem {
    const numberOfVariables: nat
    const numberOfObjectives: nat
    const numberOfConstraints: nat
    const smallestValuesOfInterest: array<real>
    const largestValuesOfInterest: array<real>
    const bestValue: array<real>
    const nadirValue: array<real>
    var numberOfIntegerVariables: nat
    var socketFunction: bool
    var socketConstraint: bool
    var problemType: string
    var isOptKnown: bool
    var hasBestParameter: bool
    var suiteDepFunction: nat
    var suiteDepInstance: nat

    /** Every vector has its size, and no two of them are the same array. */
    ghost predicate Valid()
      reads this
    {
      smallestValuesOfInterest.Length == numberOfVariables &&
      largestValuesOfInterest.Length == numberOfVariables &&
      bestValue.Length == numberOfObjectives && nadirValue.Length == numberOfObjectives &&
      smallestValuesOfInterest != largestValuesOfInterest && bestValue != nadirValue &&
      smallestValuesOfInterest != bestValue && smallestValuesOfInterest != nadirValue &&
      largestValuesOfInterest != bestValue && largestValuesOfInterest != nadirValue
    }

    /** The problem as a value. */
    function Data(): ProblemData
      reads this, smallestValuesOfInterest, largestValuesOfInterest, bestValue, nadirValue
    {
      ProblemData(numberOfVariables, numberOfObjectives, numberOfConstraints,
                  smallestValuesOfInterest[..], largestValuesOfInterest[..], numberOfIntegerVariables,
                  socketFunction, socketConstraint, problemType, isOptKnown, hasBestParameter,
                  bestValue[..], nadirValue[..], suiteDepFunction, suiteDepInstance)
    }

    /** coco_problem_allocate, as this model takes it. */
    constructor (dimension: nat, objectives: nat, constraints: nat)
      ensures Valid() && Data() == Allocated(dimension, objectives, constraints)
      ensures fresh(smallestValuesOfInterest) && fresh(largestValuesOfInterest)
      ensures fresh(bestValue) && fresh(nadirValue)
    {
      numberOfVariables, numberOfObjectives, numberOfConstraints := dimension, objectives, constraints;
      smallestValuesOfInterest := new real[dimension](k => 0.0);
      largestValuesOfInterest := new real[dimension](k => 0.0);
      bestValue := new real[objectives](k => 0.0);
      nadirValue := new real[objectives](k => 0.0);
      numberOfIntegerVariables := 0;
      socketFunction, socketConstraint := false, false;
      problemType := "";
      isOptKnown, hasBestParameter := true, true;
      suiteDepFunction, suiteDepInstance := 0, 0;
    }

    /** The loop that gives every variable the same region of interest [low, high]. */
    method FillRegion(low: real, high: real)
      requires Valid()
      modifies smallestValuesOfInterest, largestValuesOfInterest
      ensures smallestValuesOfInterest[..] == Constant(numberOfVariables, low)
      ensures largestValuesOfInterest[..] == Constant(numberOfVariables, high)
      ensures bestValue[..] == old(bestValue[..]) && nadirValue[..] == old(nadirValue[..])
    {
      for i := 0 to numberOfVariables
        invariant smallestValuesOfInterest[..i] == Constant(i, low)
        invariant largestValuesOfInterest[..i] == Constant(i, high)
      {
        smallestValuesOfInterest[i] := low;
        largestValuesOfInterest[i] := high;
      }
      assert smallestValuesOfInterest[..] == smallestValuesOfInterest[..numberOfVariables];
      assert largestValuesOfInterest[..] == largestValuesOfInterest[..numberOfVariables];
    }

    /** The common tail of every socket problem: the optimum unknown, the best parameter
        freed, and the reference values the problem file gives. */
    method SetReference(best: seq<real>, nadir: seq<real>)
      requires Valid() && |best| == |nadir| == numberOfObjectives
      modifies this, bestValue, nadirValue
      ensures !isOptKnown && !hasBestParameter
      ensures bestValue[..] == best && nadirValue[..] == nadir
      ensures smallestValuesOfInterest[..] == old(smallestValuesOfInterest[..])
      ensures largestValuesOfInterest[..] == old(largestValuesOfInterest[..])
      ensures numberOfIntegerVariables == old(numberOfIntegerVariables) && problemType == old(problemType)
      ensures socketFunction == old(socketFunction) && socketConstraint == old(socketConstraint)
      ensures suiteDepFunction == old(suiteDepFunction) && suiteDepInstance == old(suiteDepInstance)
    {
      for k := 0 to numberOfObjectives
        invariant bestValue[..k] == best[..k] && nadirValue[..k] == nadir[..k]
        invariant unchanged(this)
      {
        bestValue[k] := best[k];
        nadirValue[k] := nadir[k];
      }
      isOptKnown := false;
      hasBestParameter := false;
      assert bestValue[..] == bestValue[..numberOfObjectives];
      assert nadirValue[..] == nadirValue[..numberOfObjectives];
    }
  }

  /** The functions coco_suite_allocate numbers a suite with: 1 to n. */
  function Functions(n: nat): (fs: seq<nat>)
    ensures |fs| == n && forall k :: 0 <= k < n ==> fs[k] == k + 1
  {
    seq(n, k => k + 1)
  }

  /** A COCO suite with the socket client's data attached. */
  class Suite {
    const name: string
    const functions: seq<nat>
    const dimensions: seq<nat>
    /** The instances COCO selects from the default instances text (that parse is not part of
        this model). */
    const instances: seq<nat>
    const defaultInstances: string
    const knownOptima: bool
    var data: SocketCommunication.SocketCommunicationData?

    /** coco_suite_allocate, as this model takes it. */
    constructor (name: string, numberOfFunctions: nat, dimensions: seq<nat>, defaultInstances: string,
                 knownOptima: bool, instances: seq<nat>)
      ensures this.name == name && functions == Functions(numberOfFunctions) && this.dimensions == dimensions
      ensures this.defaultInstances == defaultInstances && this.knownOptima == knownOptima
      ensures this.instances == instances && data == null
    {
      this.name := name;
      functions := Functions(numberOfFunctions);
      this.dimensions := dimensions;
      this.defaultInstances := defaultInstances;
      this.knownOptima := knownOptima;
      this.instances := instances;
      data := null;
    }
  }
}
