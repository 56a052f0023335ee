/** The example experiment on the socket suites: its command line, the port it tells the
    suite to use, the problems of its batch, and the bounds it hands a continuous solver. */
module RwExampleExperiment {
  import opened Common
  import opened Text
  import opened Numerals
  import opened StringFacts
  import Coco
  import SuiteToySocket
  import SuiteToySocketBiobj
  import SuiteRwTopTrumpsBiobj
  import SuiteRwMarioGanBiobj

  /** How far the ports of the Python evaluators lie above those of the C evaluators. */
  const PortPyIncrement: int := 200

  /** _get_socket_port: suites served by a C evaluator use start_port + batch, the Mario
      suites, served by a Python evaluator, 200 ports higher; other suites no port (0). */
  function SocketPort(suiteName: string, startPort: int, currentBatch: int): (port: int)
    ensures port != 0 ==> port - currentBatch == startPort || port - currentBatch == startPort + PortPyIncrement
  {
    if Contains(suiteName, "toy-socket") || Contains(suiteName, "rw-top-trumps") then startPort + currentBatch
    else if Contains(suiteName, "rw-mario-gan") then startPort + PortPyIncrement + currentBatch
    else 0
  }

  /** The evaluator family a suite name selects: 0 for none, 1 for C, 2 for Python. */
  function Family(suiteName: string): (f: nat)
    ensures f <= 2
  {
    if Contains(suiteName, "toy-socket") || Contains(suiteName, "rw-top-trumps") then 1
    else if Contains(suiteName, "rw-mario-gan") then 2
    else 0
  }

  /** Two runs with batches below 200 never share a port unless they use the same evaluator
      family and the same batch. */
  lemma {:induction false} PortsSeparateRuns(name1: string, batch1: int, name2: string, batch2: int, startPort: int)
    requires Family(name1) != 0 && Family(name2) != 0
    requires 0 <= batch1 < PortPyIncrement && 0 <= batch2 < PortPyIncrement
    ensures SocketPort(name1, startPort, batch1) == SocketPort(name2, startPort, batch2) <==>
            Family(name1) == Family(name2) && batch1 == batch2
  {
  }

  /** With the default start port, batch b of every socket suite uses the suite's own default
      port moved up by b. */
  lemma {:induction false} SuitePortsOffsetByBatch(b: int)
    ensures SocketPort(SuiteToySocket.Name, 7000, b) == SuiteToySocket.DefaultPort + b
    ensures SocketPort(SuiteToySocketBiobj.Name, 7000, b) == SuiteToySocketBiobj.DefaultPort + b
    ensures SocketPort(SuiteRwTopTrumpsBiobj.Name, 7000, b) == SuiteRwTopTrumpsBiobj.DefaultPort + b
    ensures SocketPort(SuiteRwMarioGanBiobj.Name, 7000, b) == SuiteRwMarioGanBiobj.DefaultPort + b
  {
    ContainsPrefix(SuiteToySocket.Name, "toy-socket");
    ContainsPrefix(SuiteToySocketBiobj.Name, "toy-socket");
    TopTrumpsPort(b);
    MarioGanPort(b);
  }

  lemma {:induction false} TopTrumpsPort(b: int)
    ensures SocketPort(SuiteRwTopTrumpsBiobj.Name, 7000, b) == SuiteRwTopTrumpsBiobj.DefaultPort + b
  {
    MissingChar(SuiteRwTopTrumpsBiobj.Name, "toy-socket", 'y');
    ContainsPrefix(SuiteRwTopTrumpsBiobj.Name, "rw-top-trumps");
  }

  lemma {:induction false} MarioGanPort(b: int)
    ensures SocketPort(SuiteRwMarioGanBiobj.Name, 7000, b) == SuiteRwMarioGanBiobj.DefaultPort + b
  {
    MarioGanName();
    PythonPort(SuiteRwMarioGanBiobj.Name, b);
  }

  lemma {:induction false} MarioGanName()
    ensures var name := SuiteRwMarioGanBiobj.Name;
            !Contains(name, "toy-socket") && !Contains(name, "rw-top-trumps") && Contains(name, "rw-mario-gan")
  {
    var name := SuiteRwMarioGanBiobj.Name;
    MissingChar(name, "toy-socket", 'y');
    MissingChar(name, "rw-top-trumps", 'p');
    ContainsPrefix(name, "rw-mario-gan");
  }

  lemma {:induction false} PythonPort(name: string, b: int)
    requires !Contains(name, "toy-socket") && !Contains(name, "rw-top-trumps") && Contains(name, "rw-mario-gan")
    ensures SocketPort(name, 7000, b) == 7000 + PortPyIncrement + b
  {
  }

  /** The command-line settings, before the port is chosen. */
  datatype Settings = Settings(
    suiteName: string,
    suiteOptions: string,
    observerName: string,
    observerOptions: string,
    budgetMultiplier: real,
    batches: int,
    currentBatch: int,
    startPort: int)

  const Defaults: Settings := Settings("toy-socket", "", "bbob", "", 2.0, 1, 1, 7000)

  /** What parse_arguments returns. */
  datatype Parameters = Parameters(
    suiteName: string,
    suiteOptions: string,
    observerName: string,
    observerOptions: string,
    budgetMultiplier: real,
    batches: int,
    currentBatch: int,
    port: int)

  function ParametersOf(s: Settings): Parameters {
    Parameters(s.suiteName, s.suiteOptions, s.observerName, s.observerOptions, s.budgetMultiplier,
               s.batches, s.currentBatch, SocketPort(s.suiteName, s.startPort, s.currentBatch))
  }

  /** The ValueError float() or int() raises. */
  datatype ArgumentError = NotAFloat(text: string) | NotAnInteger(text: string)

  /** One argument: the first key it starts with sets its setting; an argument with no key
      is ignored. */
  function Apply(s: Settings, arg: string): (r: Result<Settings, ArgumentError>)
    ensures !Recognised(arg) ==> r == Ok(s)
    ensures r.Err? ==> NumericKey(arg)
  {
    if StartsWith(arg, "suite=") then Ok(s.(suiteName := arg[6..]))
    else if StartsWith(arg, "suite_options=") then Ok(s.(suiteOptions := arg[14..]))
    else if StartsWith(arg, "observer=") then Ok(s.(observerName := arg[9..]))
    else if StartsWith(arg, "observer_options=") then Ok(s.(observerOptions := arg[17..]))
    else if StartsWith(arg, "budget_multiplier=") then
      match PyFloat(arg[18..])
      case Some(v) => Ok(s.(budgetMultiplier := v))
      case None => Err(NotAFloat(arg[18..]))
    else if StartsWith(arg, "batches=") then
      match PyInt(arg[8..])
      case Some(n) => Ok(s.(batches := n))
      case None => Err(NotAnInteger(arg[8..]))
    else if StartsWith(arg, "batch=") then
      match PyInt(arg[6..])
      case Some(n) => Ok(s.(currentBatch := n))
      case None => Err(NotAnInteger(arg[6..]))
    else if StartsWith(arg, "start_port=") then
      match PyInt(arg[11..])
      case Some(n) => Ok(s.(startPort := n))
      case None => Err(NotAnInteger(arg[11..]))
    else Ok(s)
  }

  /** The keys whose value is read by float() or int(), and so can raise. */
  predicate NumericKey(arg: string) {
    StartsWith(arg, "budget_multiplier=") || StartsWith(arg, "batches=") ||
    StartsWith(arg, "batch=") || StartsWith(arg, "start_port=")
  }

  /** The arguments parse_arguments recognises. */
  predicate Recognised(arg: string) {
    StartsWith(arg, "suite=") || StartsWith(arg, "suite_options=") || StartsWith(arg, "observer=") ||
    StartsWith(arg, "observer_options=") || NumericKey(arg)
  }

  /** The arguments from left to right; the first one that cannot be read stops the parse. */
  function ApplyAll(s: Settings, args: seq<string>): (r: Result<Settings, ArgumentError>)
    decreases |args|
  {
    if args == [] then Ok(s)
    else
      var t :- Apply(s, args[0]);
      ApplyAll(t, args[1..])
  }

  /** parse_arguments as a function: the arguments after the script name, then the port. */
  function Parse(argv: seq<string>): (r: Result<Parameters, ArgumentError>)
    ensures |argv| <= 1 ==> r == Ok(ParametersOf(Defaults))
  {
    var s :- ApplyAll(Defaults, if argv == [] then [] else argv[1..]);
    Ok(ParametersOf(s))
  }

  /** parse_arguments: the loop over argv[1:]. */
  method ParseArguments(argv: seq<string>) returns (r: Result<Parameters, ArgumentError>)
    ensures r == Parse(argv)
  {
    var args := if argv == [] then [] else argv[1..];
    var s := Defaults;
    for i := 0 to |args|
      invariant ApplyAll(s, args[i..]) == ApplyAll(Defaults, args)
    {
      var arg := args[i];
      assert args[i..][1..] == args[i + 1..];
      if StartsWith(arg, "suite=") {
        s := s.(suiteName := arg[6..]);
      } else if StartsWith(arg, "suite_options=") {
        s := s.(suiteOptions := arg[14..]);
      } else if StartsWith(arg, "observer=") {
        s := s.(observerName := arg[9..]);
      } else if StartsWith(arg, "observer_options=") {
        s := s.(observerOptions := arg[17..]);
      } else if StartsWith(arg, "budget_multiplier=") {
        var v := PyFloat(arg[18..]);
        if v.None? {
          return Err(NotAFloat(arg[18..]));
        }
        s := s.(budgetMultiplier := v.value);
      } else if StartsWith(arg, "batches=") {
        var n := PyInt(arg[8..]);
        if n.None? {
          return Err(NotAnInteger(arg[8..]));
        }
        s := s.(batches := n.value);
      } else if StartsWith(arg, "batch=") {
        var n := PyInt(arg[6..]);
        if n.None? {
          return Err(NotAnInteger(arg[6..]));
        }
        s := s.(currentBatch := n.value);
      } else if StartsWith(arg, "start_port=") {
        var n := PyInt(arg[11..]);
        if n.None? {
          return Err(NotAnInteger(arg[11..]));
        }
        s := s.(startPort := n.value);
      }
    }
    assert args[|args|..] == [];
    return Ok(ParametersOf(s));
  }

  /** Parsing a concatenation is parsing the first part and going on from its settings. */
  lemma {:induction false} ApplyAllAppend(s: Settings, a: seq<string>, b: seq<string>)
    ensures ApplyAll(s, a + b) == match ApplyAll(s, a)
                                  case Ok(t) => ApplyAll(t, b)
                                  case Err(e) => Err(e)
    decreases |a|
  {
    if a == [] {
      assert a + b == b;
    } else {
      assert (a + b)[0] == a[0];
      assert (a + b)[1..] == a[1..] + b;
      match Apply(s, a[0])
      case Ok(t) => ApplyAllAppend(t, a[1..], b);
      case Err(_) =>
    }
  }

  /** An argument without the batch= key leaves the batch as it is. */
  lemma {:induction false} ApplyKeepsBatch(s: Settings, arg: string)
    requires !StartsWith(arg, "batch=") && Apply(s, arg).Ok?
    ensures Apply(s, arg).value.currentBatch == s.currentBatch
  {
  }

  lemma {:induction false} ApplyAllKeepsBatch(s: Settings, args: seq<string>)
    requires forall k :: 0 <= k < |args| ==> !StartsWith(args[k], "batch=")
    requires ApplyAll(s, args).Ok?
    ensures ApplyAll(s, args).value.currentBatch == s.currentBatch
    decreases |args|
  {
    if args != [] {
      ApplyKeepsBatch(s, args[0]);
      ApplyAllKeepsBatch(Apply(s, args[0]).value, args[1..]);
    }
  }

  /** A batch= argument sets the batch to the integer after the key. */
  lemma {:induction false} ApplyBatch(s: Settings, text: string, arg: string)
    requires arg == "batch=" + text
    ensures Apply(s, arg) == match PyInt(text)
                             case Some(n) => Ok(s.(currentBatch := n))
                             case None => Err(NotAnInteger(text))
  {
    assert arg[..6] == "batch=" && arg[6..] == text;
    DiffersAt(arg, "suite=", 0);
    DiffersAt(arg, "suite_options=", 0);
    DiffersAt(arg, "observer=", 0);
    DiffersAt(arg, "observer_options=", 0);
    DiffersAt(arg, "budget_multiplier=", 1);
    DiffersAt(arg, "batches=", 5);
  }

  /** The last batch= argument decides the batch, whatever comes before it. */
  lemma {:induction false} LastBatchWins(before: seq<string>, text: string, after: seq<string>)
    requires forall k :: 0 <= k < |after| ==> !StartsWith(after[k], "batch=")
    requires ApplyAll(Defaults, before + ["batch=" + text] + after).Ok?
    ensures PyInt(text).Some?
    ensures ApplyAll(Defaults, before + ["batch=" + text] + after).value.currentBatch == PyInt(text).value
  {
    var arg := "batch=" + text;
    ApplyAllAppend(Defaults, before + [arg], after);
    ApplyAllAppend(Defaults, before, [arg]);
    var s := ApplyAll(Defaults, before).value;
    assert ApplyAll(s, [arg]) == Apply(s, arg);
    ApplyBatch(s, text, arg);
    ApplyAllKeepsBatch(Apply(s, arg).value, after);
  }

  /** d n >= n for d >= 1 and n > 0. */
  lemma {:induction false} MulAtLeast(d: int, n: int)
    requires d >= 1 && n > 0
    ensures d * n >= n
    decreases d
  {
    if d > 1 {
      MulAtLeast(d - 1, n);
      assert d * n == (d - 1) * n + n;
    }
  }

  /** d n <= -n for d <= -1 and n > 0. */
  lemma {:induction false} MulAtMost(d: int, n: int)
    requires d <= -1 && n > 0
    ensures d * n <= -n
    decreases -d
  {
    if d < -1 {
      MulAtMost(d + 1, n);
      assert d * n == (d + 1) * n - n;
    }
  }

  /** The only multiple of n strictly between -n and n is 0. */
  lemma {:induction false} ZeroMultiple(d: int, n: int)
    requires n > 0 && -n < d * n < n
    ensures d == 0
  {
    if d >= 1 {
      MulAtLeast(d, n);
    } else if d <= -1 {
      MulAtMost(d, n);
    }
  }

  /** The remainder is the r of any a = q n + r with 0 <= r < n. */
  lemma {:induction false} ModUnique(a: int, n: int, q: int, r: int)
    requires n > 0 && 0 <= r < n && a == q * n + r
    ensures a % n == r
  {
    var q', r' := a / n, a % n;
    assert a == q' * n + r';
    assert (q - q') * n == q * n - q' * n;
    ZeroMultiple(q - q', n);
  }

  /** Python's `(problem_index + current_batch - 1) % batches` is 0: the problem belongs to
      the batch.  (On a non-zero divisor Python's remainder is 0 exactly when Dafny's is.) */
  predicate InBatch(index: nat, currentBatch: int, batches: int)
    requires batches != 0
  {
    (index + currentBatch - 1) % batches == 0
  }

  /** The batch in 1..batches a problem belongs to. */
  function BatchOf(index: nat, batches: int): (b: int)
    requires batches > 0
    ensures 1 <= b <= batches
  {
    (batches - index % batches) % batches + 1
  }

  /** The batches 1..batches partition the problems: each belongs to exactly one. */
  lemma {:induction false} BatchesPartition(index: nat, b: int, batches: int)
    requires batches > 0 && 1 <= b <= batches
    ensures InBatch(index, b, batches) <==> b == BatchOf(index, batches)
  {
    var q, r := index / batches, index % batches;
    assert index == q * batches + r;
    if r == 0 {
      ModUnique(batches, batches, 1, 0);
      assert BatchOf(index, batches) == 1;
    } else {
      ModUnique(batches - r, batches, 0, batches - r);
      assert BatchOf(index, batches) == batches - r + 1;
    }
    if r + b - 1 < batches {
      ModUnique(index + b - 1, batches, q, r + b - 1);
    } else {
      assert index + b - 1 == (q + 1) * batches + (r + b - 1 - batches);
      ModUnique(index + b - 1, batches, q + 1, r + b - 1 - batches);
    }
  }

  /** A batch number a multiple of batches away selects the same problems. */
  lemma {:induction false} BatchPeriodic(index: nat, b: int, batches: int)
    requires batches > 0
    ensures InBatch(index, b + batches, batches) == InBatch(index, b, batches)
  {
    var a := index + b - 1;
    assert a == (a / batches) * batches + a % batches;
    assert a + batches == (a / batches + 1) * batches + a % batches;
    ModUnique(a + batches, batches, a / batches + 1, a % batches);
    assert index + (b + batches) - 1 == a + batches;
  }

  /** Why an experiment loop stops with an exception: the ZeroDivisionError of the batch test
      or of a mutation probability, or the ValueError for an unknown algorithm. */
  datatype RunError = ZeroBatches | ZeroDimension | AlgorithmNotSupported(name: string)

  /** The indices of the problems the loop runs for, in order; the first remainder raises
      ZeroDivisionError when batches is 0. */
  function Selection(count: nat, currentBatch: int, batches: int): (r: Result<seq<nat>, RunError>)
    ensures batches == 0 ==> (r.Err? <==> count > 0)
    ensures batches != 0 ==> r.Ok?
    ensures r.Ok? ==> forall k :: 0 <= k < |r.value| ==> r.value[k] < count
  {
    if count == 0 then Ok([])
    else if batches == 0 then Err(ZeroBatches)
    else
      var earlier := Selection(count - 1, currentBatch, batches).value;
      Ok(earlier + if InBatch(count - 1, currentBatch, batches) then [count - 1] else [])
  }

  /** A problem is run exactly when it is in the batch, and in increasing order. */
  lemma {:induction false} SelectionMembers(count: nat, currentBatch: int, batches: int, index: nat)
    requires batches != 0
    ensures Selection(count, currentBatch, batches).Ok?
    ensures var s := Selection(count, currentBatch, batches).value;
            (index in s <==> index < count && InBatch(index, currentBatch, batches)) &&
            forall j, k :: 0 <= j < k < |s| ==> s[j] < s[k]
    decreases count
  {
    if count > 0 {
      SelectionMembers(count - 1, currentBatch, batches, index);
    }
  }

  /** The loop of the experiment over the suite's problems: those of other batches skipped. */
  method SelectProblems(count: nat, currentBatch: int, batches: int) returns (r: Result<seq<nat>, RunError>)
    ensures r == Selection(count, currentBatch, batches)
  {
    var selected: seq<nat> := [];
    for index := 0 to count
      invariant index > 0 ==> batches != 0
      invariant Selection(index, currentBatch, batches) == Ok(selected)
    {
      if batches == 0 {
        return Err(ZeroBatches);
      }
      var added: seq<nat> := if InBatch(index, currentBatch, batches) then [index] else [];
      assert Selection(index + 1, currentBatch, batches) == Ok(selected + added);
      selected := selected + added;
    }
    return Ok(selected);
  }

  /** lb[:num_int] -= 0.5 and ub[:num_int] += 0.5: the bounds of the integer variables
      widened by half a unit, so that a continuous solver covers every integer value. */
  function Widened(bounds: seq<real>, numberOfIntegerVariables: nat, delta: real): (w: seq<real>)
    ensures |w| == |bounds|
    ensures forall k :: 0 <= k < |bounds| && k < numberOfIntegerVariables ==> w[k] == bounds[k] + delta
    ensures forall k :: numberOfIntegerVariables <= k < |bounds| ==> w[k] == bounds[k]
  {
    seq(|bounds|, k requires 0 <= k < |bounds| => if k < numberOfIntegerVariables then bounds[k] + delta else bounds[k])
  }

  /** The box the solver searches for a problem. */
  function SolverBox(p: Coco.ProblemData): (seq<real>, seq<real>) {
    (Widened(p.smallestValuesOfInterest, p.numberOfIntegerVariables, -0.5),
     Widened(p.largestValuesOfInterest, p.numberOfIntegerVariables, 0.5))
  }

  /** Every integer variable's box is one unit wider than its range, centred on it; the
      continuous variables keep their range. */
  lemma {:induction false} SolverBoxWidens(p: Coco.ProblemData, k: nat)
    requires k < |p.smallestValuesOfInterest| == |p.largestValuesOfInterest|
    ensures var (lb, ub) := SolverBox(p);
            (k < p.numberOfIntegerVariables ==>
               ub[k] - lb[k] == p.largestValuesOfInterest[k] - p.smallestValuesOfInterest[k] + 1.0 &&
               lb[k] + ub[k] == p.smallestValuesOfInterest[k] + p.largestValuesOfInterest[k]) &&
            (k >= p.numberOfIntegerVariables ==>
               lb[k] == p.smallestValuesOfInterest[k] && ub[k] == p.largestValuesOfInterest[k])
  {
  }

  /** The documented example `suite_name=rw-top-trumps batches=4 batch=1` uses a key the
      parser does not know: the suite stays toy-socket, on port 7001. */
  lemma {:induction false} DocumentedSuiteKeyIgnored()
    ensures Parse(["rw_example_experiment.py", "suite_name=rw-top-trumps", "batches=4", "batch=1"]) ==
            Ok(Parameters("toy-socket", "", "bbob", "", 2.0, 4, 1, 7001))
  {
    var argv := ["rw_example_experiment.py", "suite_name=rw-top-trumps", "batches=4", "batch=1"];
    var s1 := Defaults.(batches := 4);
    var s2 := s1.(currentBatch := 1);
    UnknownKeyIgnored(Defaults, argv[1]);
    BatchesFour(Defaults, argv[2]);
    BatchOne(s1, argv[3]);
    assert ApplyAll(s2, []) == Ok(s2);
    assert ApplyAll(s1, [argv[3]]) == Ok(s2);
    assert ApplyAll(Defaults, [argv[2], argv[3]]) == Ok(s2);
    assert argv[1..] == [argv[1], argv[2], argv[3]];
    assert ApplyAll(Defaults, argv[1..]) == Ok(s2);
    ContainsPrefix("toy-socket", "toy-socket");
  }

  lemma {:induction false} UnknownKeyIgnored(s: Settings, arg: string)
    requires arg == "suite_name=rw-top-trumps"
    ensures Apply(s, arg) == Ok(s)
  {
    DiffersAt(arg, "suite=", 5);
    DiffersAt(arg, "suite_options=", 6);
    DiffersAt(arg, "observer=", 0);
    DiffersAt(arg, "observer_options=", 0);
    DiffersAt(arg, "budget_multiplier=", 0);
    DiffersAt(arg, "batches=", 0);
    DiffersAt(arg, "batch=", 0);
    DiffersAt(arg, "start_port=", 1);
  }

  lemma {:induction false} BatchOne(s: Settings, arg: string)
    requires arg == "batch=1"
    ensures Apply(s, arg) == Ok(s.(currentBatch := 1))
  {
    ApplyBatch(s, "1", arg);
    assert PyInt("1") == Some(1);
  }

  lemma {:induction false} BatchesFour(s: Settings, arg: string)
    requires arg == "batches=4"
    ensures Apply(s, arg) == Ok(s.(batches := 4))
  {
    assert arg[..8] == "batches=" && arg[8..] == "4";
    DiffersAt(arg, "suite=", 0);
    DiffersAt(arg, "suite_options=", 0);
    DiffersAt(arg, "observer=", 0);
    DiffersAt(arg, "observer_options=", 0);
    DiffersAt(arg, "budget_multiplier=", 1);
    assert PyInt("4") == Some(4);
  }
}
