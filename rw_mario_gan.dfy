/** The rw-mario-gan problem: a latent vector in [-1, 1]^n that a GAN turns into a Mario
    level, evaluated by the external evaluator; the function number selects the level kind
    and the objective, which the problem type groups. */
module RwMarioGan {
  import opened Common
  import opened Coco

  /** Where a level is played. */
  datatype Terrain = Underground | Overworld

  /** A simulated level: a single level or several concatenated. */
  datatype Level = Single | Concatenated

  /** The grouping type the problem file assigns; "" where it assigns none. */
  function TypeOf(objectives: nat, func: nat): string {
    if objectives == 1 then
      if func <= 10 then
        if func % 2 == 0 then "direct-underground" else "direct-overworld"
      else if func == 11 || func == 15 || func == 17 || func == 21 || func == 23 || func == 27 then
        "simulated-overworld-single"
      else if func == 12 || func == 16 || func == 18 || func == 22 || func == 24 || func == 28 then
        "simulated-underground-single"
      else if func == 13 || func == 19 || func == 25 then "simulated-overworld-concatenated"
      else if func == 14 || func == 20 || func == 26 then "simulated-underground-concatenated"
      else ""
    else if objectives == 2 then
      if func <= 2 then "direct-underground"
      else if func <= 4 then "simulated-overworld-single"
      else if func <= 6 then "simulated-underground-single"
      else if func <= 8 then "simulated-overworld-concatenated"
      else if func <= 10 then "simulated-underground-concatenated"
      else ""
    else ""
  }

  /** The terrain of a single-objective function: even functions play underground. */
  function TerrainOf(func: nat): Terrain {
    if func % 2 == 0 then Underground else Overworld
  }

  /** The level of a simulated single-objective function: in every run of six functions
      from 13 on, the first two play concatenated levels. */
  function LevelOf(func: nat): Level {
    if func % 6 == 1 || func % 6 == 2 then Concatenated else Single
  }

  /** The type names of the grouping. */
  function DirectName(t: Terrain): string {
    match t
    case Underground => "direct-underground"
    case Overworld => "direct-overworld"
  }

  function SimulatedName(t: Terrain, l: Level): string {
    match (t, l)
    case (Overworld, Single) => "simulated-overworld-single"
    case (Underground, Single) => "simulated-underground-single"
    case (Overworld, Concatenated) => "simulated-overworld-concatenated"
    case (Underground, Concatenated) => "simulated-underground-concatenated"
  }

  /** The single-objective types follow one pattern: functions 1 to 10 are direct, 11 to 28
      simulated, even ones underground, the level as LevelOf says; no other function gets a
      type. */
  lemma {:induction false} SingleObjectiveTypes(func: nat)
    ensures 1 <= func <= 10 ==> TypeOf(1, func) == DirectName(TerrainOf(func))
    ensures 11 <= func <= 28 ==> TypeOf(1, func) == SimulatedName(TerrainOf(func), LevelOf(func))
    ensures func > 28 ==> TypeOf(1, func) == ""
  {
    if 11 <= func <= 28 {
      if TerrainOf(func) == Overworld && LevelOf(func) == Single {
        assert func == 11 || func == 15 || func == 17 || func == 21 || func == 23 || func == 27;
      } else if TerrainOf(func) == Underground && LevelOf(func) == Single {
        assert func == 12 || func == 16 || func == 18 || func == 22 || func == 24 || func == 28;
      } else if TerrainOf(func) == Overworld {
        assert func == 13 || func == 19 || func == 25;
      } else {
        assert func == 14 || func == 20 || func == 26;
      }
    }
  }

  /** The bi-objective functions come in pairs: the k-th pair is direct and underground for
      k = 1, then simulated, alternating overworld and underground, single for k <= 3 and
      concatenated after; no function after 10 gets a type. */
  lemma {:induction false} BiObjectiveTypes(func: nat)
    ensures var k := (func + 1) / 2;
            1 <= func <= 10 ==>
              TypeOf(2, func) == if k == 1 then DirectName(Underground)
                                 else SimulatedName(if k % 2 == 0 then Overworld else Underground,
                                                    if k <= 3 then Single else Concatenated)
    ensures func > 10 ==> TypeOf(2, func) == ""
  {
  }

  /** The reference values: 0 for one objective; (0, 0) and (1, 1) for two. */
  function BestValue(objectives: nat): (b: seq<real>)
    ensures |b| == objectives
  {
    if objectives == 2 then [0.0, 0.0] else Constant(objectives, 0.0)
  }

  function NadirValue(objectives: nat): (n: seq<real>)
    ensures |n| == objectives
  {
    if objectives == 2 then [1.0, 1.0] else Constant(objectives, 0.0)
  }

  /** What rw_mario_gan_problem_allocate returns for a supported number of objectives: only
      the objectives are evaluated through the socket. */
  function MarioGanData(objectives: nat, func: nat, dimension: nat): ProblemData {
    ProblemData(dimension, objectives, 0, Constant(dimension, -1.0), Constant(dimension, 1.0), 0,
                true, false, TypeOf(objectives, func), false, false, BestValue(objectives), NadirValue(objectives), 0, 0)
  }

  /** rw_mario_gan_problem_allocate: one or two objectives, or coco_error. */
  method MarioGanProblemAllocate(objectives: nat, func: nat, dimension: nat) returns (r: Result<Problem, CocoError>)
    ensures r.Err? <==> objectives != 1 && objectives != 2
    ensures r.Err? ==> r.error == ObjectivesNotSupported(objectives)
    ensures r.Ok? ==> fresh(r.value) && r.value.Valid() && r.value.Data() == MarioGanData(objectives, func, dimension)
  {
    if objectives != 1 && objectives != 2 {
      return Err(ObjectivesNotSupported(objectives));
    }
    var problem := new Problem(dimension, objectives, 0);
    problem.FillRegion(-1.0, 1.0);
    problem.numberOfIntegerVariables := 0;
    problem.socketFunction := true;
    problem.problemType := TypeOf(objectives, func);
    if objectives == 1 {
      problem.isOptKnown := false;
      problem.hasBestParameter := false;
      problem.bestValue[0] := 0.0;
      assert problem.bestValue[..] == [0.0];
    } else {
      problem.SetReference([0.0, 0.0], [1.0, 1.0]);
    }
    return Ok(problem);
  }
}
