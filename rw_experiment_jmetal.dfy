/** The jMetalPy experiment on the socket suites: its command line, which includes an
    algorithm name and is read from argv[0] on, and the algorithm it configures for every
    problem of its batch. */
module RwExperimentJmetal {
  import opened Common
  import opened Text
  import opened Numerals
  import opened StringFacts
  import Ex = RwExampleExperiment

  /** The command-line settings, before the port is chosen. */
  datatype Settings = Settings(
    algorithmName: string,
    suiteName: string,
    suiteOptions: string,
    observerName: string,
    observerOptions: string,
    budgetMultiplier: real,
    batches: int,
    currentBatch: int,
    startPort: int)

  const Defaults: Settings := Settings("RS", "rw-top-trumps-biobj", "", "bbob-biobj", "", 1.0, 1, 1, 7000)

  /** What parse_arguments returns. */
  datatype Parameters = Parameters(
    algorithmName: string,
    suiteName: string,
    suiteOptions: string,
    observerName: string,
    observerOptions: string,
    budgetMultiplier: real,
    batches: int,
    currentBatch: int,
    port: int)

  /** The port is chosen by the same mapping as in the example experiment. */
  function ParametersOf(s: Settings): Parameters {
    Parameters(s.algorithmName, s.suiteName, s.suiteOptions, s.observerName, s.observerOptions,
               s.budgetMultiplier, s.batches, s.currentBatch, Ex.SocketPort(s.suiteName, s.startPort, s.currentBatch))
  }

  /** One argument: the first key it starts with sets its setting, algorithm= last; an
      argument with no key is ignored. */
  function Apply(s: Settings, arg: string): (r: Result<Settings, Ex.ArgumentError>)
    ensures !Ex.Recognised(arg) && !StartsWith(arg, "algorithm=") ==> r == Ok(s)
    ensures r.Err? ==> Ex.NumericKey(arg)
  {
    if StartsWith(arg, "suite=") then Ok(s.(suiteName := arg[6..]))
    else if StartsWith(arg, "suite_options=") then Ok(s.(suiteOptions := arg[14..]))
    else if StartsWith(arg, "observer=") then Ok(s.(observerName := arg[9..]))
    else if StartsWith(arg, "observer_options=") then Ok(s.(observerOptions := arg[17..]))
    else if StartsWith(arg, "budget_multiplier=") then
      match PyFloat(arg[18..])
      case Some(v) => Ok(s.(budgetMultiplier := v))
      case None => Err(Ex.NotAFloat(arg[18..]))
    else if StartsWith(arg, "batches=") then
      match PyInt(arg[8..])
      case Some(n) => Ok(s.(batches := n))
      case None => Err(Ex.NotAnInteger(arg[8..]))
    else if StartsWith(arg, "batch=") then
      match PyInt(arg[6..])
      case Some(n) => Ok(s.(currentBatch := n))
      case None => Err(Ex.NotAnInteger(arg[6..]))
    else if StartsWith(arg, "start_port=") then
      match PyInt(arg[11..])
      case Some(n) => Ok(s.(startPort := n))
      case None => Err(Ex.NotAnInteger(arg[11..]))
    else if StartsWith(arg, "algorithm=") then Ok(s.(algorithmName := arg[10..]))
    else Ok(s)
  }

  /** The arguments from left to right; the first one that cannot be read stops the parse. */
  function ApplyAll(s: Settings, args: seq<string>): (r: Result<Settings, Ex.ArgumentError>)
    decreases |args|
  {
    if args == [] then Ok(s)
    else
      var t :- Apply(s, args[0]);
      ApplyAll(t, args[1..])
  }

  /** parse_arguments as a function: every element of argv, the script name included. */
  function Parse(argv: seq<string>): (r: Result<Parameters, Ex.ArgumentError>)
    ensures argv == [] ==> r == Ok(ParametersOf(Defaults))
  {
    var s :- ApplyAll(Defaults, argv);
    Ok(ParametersOf(s))
  }

  /** parse_arguments: the loop over argv. */
  method ParseArguments(argv: seq<string>) returns (r: Result<Parameters, Ex.ArgumentError>)
    ensures r == Parse(argv)
  {
    var s := Defaults;
    for i := 0 to |argv|
      invariant ApplyAll(s, argv[i..]) == ApplyAll(Defaults, argv)
    {
      var arg := argv[i];
      assert argv[i..][1..] == argv[i + 1..];
      if StartsWith(arg, "suite=") {
        s := s.(suiteName := arg[6..]);
      } else if StartsWith(arg, "suite_options=") {
        s := s.(suiteOptions := arg[14..]);
      } else if StartsWith(arg, "observer=") {
        s := s.(observerName := arg[9..]);
      } else if StartsWith(arg, "observer_options=") {
        s := s.(observerOptions := arg[17..]);
      } else if StartsWith(arg, "budget_multiplier=") {
        var v := PyFloat(arg[18..]);
        if v.None? {
          return Err(Ex.NotAFloat(arg[18..]));
        }
        s := s.(budgetMultiplier := v.value);
      } else if StartsWith(arg, "batches=") {
        var n := PyInt(arg[8..]);
        if n.None? {
          return Err(Ex.NotAnInteger(arg[8..]));
        }
        s := s.(batches := n.value);
      } else if StartsWith(arg, "batch=") {
        var n := PyInt(arg[6..]);
        if n.None? {
          return Err(Ex.NotAnInteger(arg[6..]));
        }
        s := s.(currentBatch := n.value);
      } else if StartsWith(arg, "start_port=") {
        var n := PyInt(arg[11..]);
        if n.None? {
          return Err(Ex.NotAnInteger(arg[11..]));
        }
        s := s.(startPort := n.value);
      } else if StartsWith(arg, "algorithm=") {
        s := s.(algorithmName := arg[10..]);
      }
    }
    assert argv[|argv|..] == [];
    return Ok(ParametersOf(s));
  }

  /** Parsing a concatenation is parsing the first part and going on from its settings. */
  lemma {:induction false} ApplyAllAppend(s: Settings, a: seq<string>, b: seq<string>)
    ensures ApplyAll(s, a + b) == match ApplyAll(s, a)
                                  case Ok(t) => ApplyAll(t, b)
                                  case Err(e) => Err(e)
    decreases |a|
  {
    if a == [] {
      assert a + b == b;
    } else {
      assert (a + b)[0] == a[0];
      assert (a + b)[1..] == a[1..] + b;
      match Apply(s, a[0])
      case Ok(t) => ApplyAllAppend(t, a[1..], b);
      case Err(_) =>
    }
  }

  /** An algorithm= argument sets the algorithm name to the text after the key. */
  lemma {:induction false} ApplyAlgorithm(s: Settings, name: string, arg: string)
    requires arg == "algorithm=" + name
    ensures Apply(s, arg) == Ok(s.(algorithmName := name))
  {
    assert arg[..10] == "algorithm=" && arg[10..] == name;
    DiffersAt(arg, "suite=", 0);
    DiffersAt(arg, "suite_options=", 0);
    DiffersAt(arg, "observer=", 0);
    DiffersAt(arg, "observer_options=", 0);
    DiffersAt(arg, "budget_multiplier=", 0);
    DiffersAt(arg, "batches=", 0);
    DiffersAt(arg, "batch=", 0);
    DiffersAt(arg, "start_port=", 0);
  }

  /** An argument without the algorithm= key leaves the algorithm as it is. */
  lemma {:induction false} ApplyAllKeepsAlgorithm(s: Settings, args: seq<string>)
    requires forall k :: 0 <= k < |args| ==> !StartsWith(args[k], "algorithm=")
    requires ApplyAll(s, args).Ok?
    ensures ApplyAll(s, args).value.algorithmName == s.algorithmName
    decreases |args|
  {
    if args != [] {
      ApplyAllKeepsAlgorithm(Apply(s, args[0]).value, args[1..]);
    }
  }

  /** The last algorithm= argument names the algorithm, whatever comes before it. */
  lemma {:induction false} LastAlgorithmWins(before: seq<string>, name: string, after: seq<string>)
    requires forall k :: 0 <= k < |after| ==> !StartsWith(after[k], "algorithm=")
    requires Parse(before + ["algorithm=" + name] + after).Ok?
    ensures Parse(before + ["algorithm=" + name] + after).value.algorithmName == name
  {
    var arg := "algorithm=" + name;
    ApplyAllAppend(Defaults, before + [arg], after);
    ApplyAllAppend(Defaults, before, [arg]);
    var s := ApplyAll(Defaults, before).value;
    assert ApplyAll(s, [arg]) == Apply(s, arg);
    ApplyAlgorithm(s, name, arg);
    ApplyAllKeepsAlgorithm(s.(algorithmName := name), after);
  }

  /** A batch= argument sets the batch to the integer after the key. */
  lemma {:induction false} ApplyBatch(s: Settings, text: string, arg: string)
    requires arg == "batch=" + text && PyInt(text).Some?
    ensures Apply(s, arg) == Ok(s.(currentBatch := PyInt(text).value))
  {
    assert arg[..6] == "batch=" && arg[6..] == text;
    DiffersAt(arg, "suite=", 0);
    DiffersAt(arg, "suite_options=", 0);
    DiffersAt(arg, "observer=", 0);
    DiffersAt(arg, "observer_options=", 0);
    DiffersAt(arg, "budget_multiplier=", 1);
    DiffersAt(arg, "batches=", 5);
  }

  /** Unlike the example experiment, this script reads its own argv[0] as an argument: a
      one-element argv `batch=N` selects batch N here and leaves the example at batch 1. */
  lemma {:induction false} ScriptNameIsRead(text: string)
    requires PyInt(text).Some?
    ensures Parse(["batch=" + text]).Ok? && Parse(["batch=" + text]).value.currentBatch == PyInt(text).value
    ensures Ex.Parse(["batch=" + text]) == Ok(Ex.ParametersOf(Ex.Defaults))
  {
    var argv := ["batch=" + text];
    ApplyBatch(Defaults, text, argv[0]);
    assert argv[1..] == [];
    assert ApplyAll(Defaults, argv) == ApplyAll(Defaults.(currentBatch := PyInt(text).value), []);
  }

  /** The algorithm of a run, with the settings the script gives it; every one stops after
      budget_multiplier * dimension evaluations. */
  datatype Algorithm =
    | NsgaII(populationSize: nat, offspringPopulationSize: nat, mutationProbability: real,
             mutationDistributionIndex: nat, crossoverProbability: real, crossoverDistributionIndex: nat,
             maxEvaluations: real)
    | Gde3(populationSize: nat, cr: real, f: real, maxEvaluations: real)
    | RandomSearch(maxEvaluations: real)

  predicate IsNsgaIIName(name: string) {
    name == "NSGA-II" || name == "NSGAII"
  }

  /** The names the dispatch knows. */
  predicate Supported(name: string) {
    IsNsgaIIName(name) || name == "GDE3" || name == "RS"
  }

  /** The if/elif dispatch on the algorithm name for one problem; the polynomial mutation of
      NSGA-II divides by the dimension. */
  function Configure(name: string, budgetMultiplier: real, dimension: nat): (r: Result<Algorithm, Ex.RunError>)
    ensures r.Ok? <==> Supported(name) && (IsNsgaIIName(name) ==> dimension > 0)
    ensures !Supported(name) ==> r == Err(Ex.AlgorithmNotSupported(name))
    ensures r.Ok? ==> r.value.maxEvaluations == budgetMultiplier * dimension as real
    ensures r.Ok? ==> (r.value.NsgaII? <==> IsNsgaIIName(name)) && (r.value.Gde3? <==> name == "GDE3") &&
                      (r.value.RandomSearch? <==> name == "RS")
    ensures r.Ok? && r.value.NsgaII? ==> r.value.mutationProbability * dimension as real == 1.0
  {
    var budget := budgetMultiplier * dimension as real;
    if IsNsgaIIName(name) then
      if dimension == 0 then Err(Ex.ZeroDimension)
      else Ok(NsgaII(20, 20, 1.0 / dimension as real, 20, 1.0, 20, budget))
    else if name == "GDE3" then Ok(Gde3(20, 0.5, 0.5, budget))
    else if name == "RS" then Ok(RandomSearch(budget))
    else Err(Ex.AlgorithmNotSupported(name))
  }

  /** random.seed(69) before every run. */
  const Seed: nat := 69

  /** One run of the experiment: the problem's index, the seed, the algorithm. */
  datatype Run = Run(index: nat, seed: nat, algorithm: Algorithm)

  /** The runs of the experiment for a suite whose problems have the given dimensions, in
      order; the first exception ends it. */
  function Plan(p: Parameters, dimensions: seq<nat>): (r: Result<seq<Run>, Ex.RunError>)
    ensures r.Ok? ==> |r.value| <= |dimensions|
    ensures r.Ok? ==> forall k :: 0 <= k < |r.value| ==> r.value[k].index < |dimensions| && r.value[k].seed == Seed
    decreases |dimensions|
  {
    if dimensions == [] then Ok([])
    else
      var index := |dimensions| - 1;
      var earlier :- Plan(p, dimensions[..index]);
      if p.batches == 0 then Err(Ex.ZeroBatches)
      else if !Ex.InBatch(index, p.currentBatch, p.batches) then Ok(earlier)
      else
        var algorithm :- Configure(p.algorithmName, p.budgetMultiplier, dimensions[index]);
        Ok(earlier + [Run(index, Seed, algorithm)])
  }

  /** The runs are exactly the problems of the batch, in order, each seeded with 69 and run
      with the algorithm the name selects for its dimension. */
  lemma {:induction false} PlanRunsBatch(p: Parameters, dimensions: seq<nat>)
    requires Plan(p, dimensions).Ok?
    ensures var runs := Plan(p, dimensions).value;
            dimensions != [] ==> p.batches != 0
    ensures var runs := Plan(p, dimensions).value;
            p.batches != 0 ==>
              |runs| == |Ex.Selection(|dimensions|, p.currentBatch, p.batches).value| &&
              forall k :: 0 <= k < |runs| ==>
                runs[k].index == Ex.Selection(|dimensions|, p.currentBatch, p.batches).value[k] &&
                runs[k].index < |dimensions| && runs[k].seed == Seed &&
                Configure(p.algorithmName, p.budgetMultiplier, dimensions[runs[k].index]) == Ok(runs[k].algorithm)
    decreases |dimensions|
  {
    if dimensions != [] {
      var index := |dimensions| - 1;
      PlanRunsBatch(p, dimensions[..index]);
    }
  }

  /** An unknown algorithm name fails exactly when the batch has a problem to run (or the
      batch test itself fails); otherwise the experiment ends without running anything. */
  lemma {:induction false} UnsupportedFailsIffSelected(p: Parameters, dimensions: seq<nat>)
    requires !Supported(p.algorithmName) && p.batches != 0
    ensures Plan(p, dimensions).Err? <==> Ex.Selection(|dimensions|, p.currentBatch, p.batches).value != []
    ensures Plan(p, dimensions).Err? ==> Plan(p, dimensions).error == Ex.AlgorithmNotSupported(p.algorithmName)
    ensures Plan(p, dimensions).Ok? ==> Plan(p, dimensions).value == []
    decreases |dimensions|
  {
    if dimensions != [] {
      var index := |dimensions| - 1;
      UnsupportedFailsIffSelected(p, dimensions[..index]);
    }
  }

  /** The first exception ends the experiment: a prefix of the suite that fails decides the
      outcome for the whole suite. */
  lemma {:induction false} PlanFailureFinal(p: Parameters, dimensions: seq<nat>, n: nat)
    requires n <= |dimensions| && Plan(p, dimensions[..n]).Err?
    ensures Plan(p, dimensions) == Plan(p, dimensions[..n])
    decreases |dimensions|
  {
    if n == |dimensions| {
      assert dimensions[..n] == dimensions;
    } else {
      var shorter := dimensions[..|dimensions| - 1];
      assert shorter[..n] == dimensions[..n];
      PlanFailureFinal(p, shorter, n);
    }
  }

  /** run_experiment after the parse: the loop over the suite's problems. */
  method RunExperiment(p: Parameters, dimensions: seq<nat>) returns (r: Result<seq<Run>, Ex.RunError>)
    ensures r == Plan(p, dimensions)
  {
    var runs: seq<Run> := [];
    for index := 0 to |dimensions|
      invariant Plan(p, dimensions[..index]) == Ok(runs)
    {
      assert dimensions[..index + 1][..index] == dimensions[..index];
      if p.batches == 0 {
        PlanFailureFinal(p, dimensions, index + 1);
        return Err(Ex.ZeroBatches);
      }
      if Ex.InBatch(index, p.currentBatch, p.batches) {
        var algorithm := Configure(p.algorithmName, p.budgetMultiplier, dimensions[index]);
        if algorithm.Err? {
          PlanFailureFinal(p, dimensions, index + 1);
          return Err(algorithm.error);
        }
        runs := runs + [Run(index, Seed, algorithm.value)];
      }
    }
    assert dimensions[..|dimensions|] == dimensions;
    return Ok(runs);
  }
}
