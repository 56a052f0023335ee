/** The rw-top-trumps problem: integer variables, the value ranges of the four card
    attributes repeated along the deck, one pair of ranges per instance. */
module RwTopTrumps {
  import opened Common
  import opened Coco

  /** The lowest value of each of the four attributes, one row per instance 1..15. */
  const LowBound: seq<seq<real>> := [
    [39.0, 78.0, 20.0, 34.0],
    [70.0,  9.0, 35.0,  7.0],
    [22.0, 39.0, 14.0, 56.0],
    [13.0, 19.0, 21.0, 42.0],
    [ 5.0,  8.0,  8.0, 28.0],
    [14.0, 40.0,  9.0, 25.0],
    [49.0, 21.0,  1.0,  3.0],
    [35.0,  4.0, 25.0, 84.0],
    [21.0, 20.0, 46.0, 63.0],
    [57.0, 18.0, 18.0, 42.0],
    [53.0, 31.0, 41.0, 22.0],
    [44.0, 12.0, 13.0, 31.0],
    [34.0, 13.0, 33.0, 16.0],
    [26.0, 22.0,  5.0,  3.0],
    [35.0, 28.0, 78.0, 39.0]]

  /** The highest value of each of the four attributes, one row per instance 1..15. */
  const HighBound: seq<seq<real>> := [
    [ 84.0, 80.0, 91.0,  77.0],
    [ 81.0, 12.0, 42.0,  70.0],
    [ 56.0, 44.0, 29.0,  86.0],
    [ 92.0, 26.0, 36.0,  65.0],
    [ 27.0, 99.0, 15.0,  45.0],
    [ 96.0, 80.0, 81.0,  65.0],
    [ 87.0, 59.0, 51.0, 100.0],
    [ 79.0, 91.0, 95.0,  87.0],
    [ 70.0, 36.0, 88.0,  72.0],
    [ 61.0, 51.0, 82.0,  58.0],
    [ 93.0, 50.0, 75.0,  45.0],
    [ 79.0, 82.0, 69.0,  52.0],
    [ 63.0, 90.0, 61.0,  79.0],
    [100.0, 46.0, 57.0,  60.0],
    [ 67.0, 52.0, 98.0,  39.0]]

  const ProblemType: string := "rw-top-trumps"
  const Direct: string := "direct"
  const Simulated: string := "simulated"

  /** size_t arithmetic wraps modulo 2^64. */
  const SizeModulus: nat := 0x1_0000_0000_0000_0000

  /** The instances the tables have a row for. */
  predicate Supported(instance: nat) {
    1 <= instance <= 15
  }

  /** The guard rw_top_trumps_set_bounds applies as written: instance - 1, computed in
      size_t, greater than 15. */
  predicate RejectedAsWritten(instance: nat) {
    (instance as int - 1) % SizeModulus > 15
  }

  /** The guard as written lets instance 16 through, and instance 16 has no row in either
      table: the bounds are then read from outside the arrays. */
  lemma {:induction false} Instance16PassesGuard()
    ensures !RejectedAsWritten(16) && !Supported(16)
    ensures 16 - 1 == |LowBound| == |HighBound|
  {
  }

  /** Everywhere else the guard as written rejects exactly the instances without a row. */
  lemma {:induction false} GuardAsWrittenElsewhere(instance: nat)
    requires instance < SizeModulus && instance != 16
    ensures RejectedAsWritten(instance) <==> !Supported(instance)
  {
    if instance == 0 {
      assert (instance as int - 1) % SizeModulus == SizeModulus - 1;
    } else {
      assert (instance as int - 1) % SizeModulus == instance - 1;
    }
  }

  /** Every variable's range: the attribute of its position in the card, i % 4. */
  function Region(row: seq<real>, n: nat): (r: seq<real>)
    requires |row| == 4
    ensures |r| == n && forall i :: 0 <= i < n ==> r[i] == row[i % 4]
  {
    seq(n, i => row[i % 4])
  }

  /** A row repeated m times: the ranges of a deck of m cards. */
  function Repeat(row: seq<real>, m: nat): (r: seq<real>)
    requires |row| == 4
    ensures |r| == 4 * m
  {
    if m == 0 then [] else Repeat(row, m - 1) + row
  }

  /** A region of n = 4m variables is the attribute ranges of m whole cards. */
  lemma {:induction false} RegionOfWholeCards(row: seq<real>, m: nat, n: nat)
    requires |row| == 4 && n == 4 * m
    ensures Region(row, n) == Repeat(row, m)
  {
    if m > 0 {
      var k := n - 4;
      RegionOfWholeCards(row, m - 1, k);
      var r, p := Region(row, n), Region(row, k);
      assert r[..k] == p;
      forall i | 0 <= i < 4
        ensures r[k + i] == row[i]
      {
        assert (k + i) % 4 == i;
      }
      assert r == p + row;
    }
  }

  /** Every range of every instance is non-empty; the fourth attribute of instance 15 is the
      one range that is a single value. */
  lemma {:induction false} RangesOrdered(instance: nat, n: nat)
    requires Supported(instance)
    ensures var low, high := Region(LowBound[instance - 1], n), Region(HighBound[instance - 1], n);
            forall i :: 0 <= i < n ==> low[i] <= high[i]
    ensures LowBound[14][3] == HighBound[14][3]
    ensures forall r, c :: 0 <= r < 15 && 0 <= c < 4 && !(r == 14 && c == 3) ==> LowBound[r][c] < HighBound[r][c]
  {
    var low, high := LowBound[instance - 1], HighBound[instance - 1];
    assert forall c :: 0 <= c < 4 ==> low[c] <= high[c];
  }

  /** The grouping type: the direct functions are 1 and 2 with one objective, 1 with two. */
  function TypeOf(objectives: nat, func: nat): (t: string)
    ensures t == Direct || t == Simulated
  {
    if objectives == 1 then (if func <= 2 then Direct else Simulated)
    else (if func == 1 then Direct else Simulated)
  }

  /** The reference values: 0 for one objective; (0, 0) and (1, 1) for two. */
  function BestValue(objectives: nat): (b: seq<real>)
    ensures |b| == objectives
  {
    if objectives == 2 then [0.0, 0.0] else Constant(objectives, 0.0)
  }

  function NadirValue(objectives: nat): (n: seq<real>)
    ensures |n| == objectives
  {
    if objectives == 2 then [1.0, 1.0] else Constant(objectives, 0.0)
  }

  /** What rw_top_trumps_problem_allocate returns for a supported number of objectives and
      instance: every variable an integer. */
  function TopTrumpsData(objectives: nat, func: nat, dimension: nat, instance: nat): ProblemData
    requires Supported(instance)
  {
    ProblemData(dimension, objectives, 0, Region(LowBound[instance - 1], dimension),
                Region(HighBound[instance - 1], dimension), dimension, true, true, TypeOf(objectives, func),
                false, false, BestValue(objectives), NadirValue(objectives), 0, 0)
  }

  /** rw_top_trumps_set_bounds, with the guard intended: an instance without a row in the
      tables is rejected. */
  method SetBounds(problem: Problem, instance: nat) returns (r: Result<(), CocoError>)
    requires problem.Valid()
    modifies problem.smallestValuesOfInterest, problem.largestValuesOfInterest
    ensures r.Err? <==> !Supported(instance)
    ensures r.Err? ==> r.error == InstanceNotSupported(instance)
    ensures r.Ok? ==> problem.smallestValuesOfInterest[..] == Region(LowBound[instance - 1], problem.numberOfVariables)
    ensures r.Ok? ==> problem.largestValuesOfInterest[..] == Region(HighBound[instance - 1], problem.numberOfVariables)
    ensures problem.bestValue[..] == old(problem.bestValue[..]) && problem.nadirValue[..] == old(problem.nadirValue[..])
  {
    if !Supported(instance) {
      return Err(InstanceNotSupported(instance));
    }
    var low, high := LowBound[instance - 1], HighBound[instance - 1];
    for i := 0 to problem.numberOfVariables
      invariant problem.smallestValuesOfInterest[..i] == Region(low, i)
      invariant problem.largestValuesOfInterest[..i] == Region(high, i)
      invariant problem.bestValue[..] == old(problem.bestValue[..]) && problem.nadirValue[..] == old(problem.nadirValue[..])
    {
      problem.smallestValuesOfInterest[i] := low[i % 4];
      problem.largestValuesOfInterest[i] := high[i % 4];
    }
    assert problem.smallestValuesOfInterest[..] == problem.smallestValuesOfInterest[..problem.numberOfVariables];
    assert problem.largestValuesOfInterest[..] == problem.largestValuesOfInterest[..problem.numberOfVariables];
    return Ok(());
  }

  /** rw_top_trumps_problem_allocate: one or two objectives and an instance with a row in the
      tables, or coco_error. */
  method TopTrumpsProblemAllocate(objectives: nat, func: nat, dimension: nat, instance: nat)
    returns (r: Result<Problem, CocoError>)
    ensures r.Err? <==> (objectives != 1 && objectives != 2) || !Supported(instance)
    ensures objectives != 1 && objectives != 2 ==> r == Err(ObjectivesNotSupported(objectives))
    ensures (objectives == 1 || objectives == 2) && !Supported(instance) ==> r == Err(InstanceNotSupported(instance))
    ensures r.Ok? ==> fresh(r.value) && r.value.Valid() &&
                      r.value.Data() == TopTrumpsData(objectives, func, dimension, instance)
  {
    if objectives != 1 && objectives != 2 {
      return Err(ObjectivesNotSupported(objectives));
    }
    var problem := new Problem(dimension, objectives, 0);
    var bounds := SetBounds(problem, instance);
    if bounds.Err? {
      return Err(bounds.error);
    }
    problem.numberOfIntegerVariables := dimension;
    problem.socketFunction := true;
    problem.socketConstraint := true;
    problem.problemType := ProblemType;
    problem.problemType := TypeOf(objectives, func);  // the grouping type replaces the first
    if objectives == 1 {
      problem.isOptKnown := false;
      problem.hasBestParameter := false;
      problem.bestValue[0] := 0.0;
      assert problem.bestValue[..] == [0.0];
    } else {
      problem.SetReference([0.0, 0.0], [1.0, 1.0]);
    }
    return Ok(problem);
  }
}
