/** The per-socket simulation session (backend/controllers/simulationController.js):
    the engine, the two robots and the learner it sets up, the start and stop
    handlers, and the body of the interval that runs one step per tick and
    counts steps, episodes and winners. Sockets, the timer and the emitted
    payloads are not modelled; each call of Tick is one firing of the interval. */
module SimulationLoop {
  import opened JsRuntime
  import opened Physics
  import opened Robots
  import opened Learning

  /** The statistics object of startSimulation; winHistory counts wins of
      robot 0, wins of robot 1 and draws. */
  datatype Stats = Stats(
    currentEpisode: nat,
    currentStep: nat,
    rewards: (real, real),
    winHistory: seq<nat>,
    explorationRate: real)

  /** What one firing of the interval did. */
  datatype TickOutcome =
    | Cleared             // not running: the interval clears itself, nothing else happens
    | Continued           // a step ran and the episode goes on
    | EpisodeAdvanced(winner: nat)  // the episode ended and a new one was set up
    | Ended(winner: nat)  // the episode ended and so did the simulation

  /** The winner index: the robot with the larger reward of the last step, 2 on a tie. */
  function Winner(rewards: (real, real)): (w: nat)
    ensures w < 3
    ensures w == 0 <==> rewards.0 > rewards.1
    ensures w == 1 <==> rewards.1 > rewards.0
    ensures w == 2 <==> rewards.0 == rewards.1
  {
    if rewards.0 > rewards.1 then 0 else if rewards.1 > rewards.0 then 1 else 2
  }

  /** `stepCount >= parameters.maxSteps`: false when maxSteps is missing. */
  predicate ReachedMaxSteps(stepCount: nat, maxSteps: Option<real>) {
    maxSteps.Some? && stepCount as real >= maxSteps.value
  }

  /** The episode-end test of the tick. */
  predicate EpisodeOver(done: bool, stepCount: nat, maxSteps: Option<real>) {
    done || ReachedMaxSteps(stepCount, maxSteps)
  }

  /** `isTraining && currentEpisode < numEpisodes - 1`: false when numEpisodes is
      missing, since undefined - 1 is NaN. */
  predicate StartsNextEpisode(isTraining: bool, currentEpisode: nat, numEpisodes: Option<real>) {
    isTraining && numEpisodes.Some? && (currentEpisode as real) < numEpisodes.value - 1.0
  }

  /** Evaluation never starts another episode. */
  lemma EvaluationRunsOneEpisode(currentEpisode: nat, numEpisodes: Option<real>)
    ensures !StartsNextEpisode(false, currentEpisode, numEpisodes)
  {
  }

  /** Training starts no new episode once the episode index reaches numEpisodes - 1. */
  lemma TrainingStopsAtLastEpisode(currentEpisode: nat, n: real)
    requires (currentEpisode as real) >= n - 1.0
    ensures !StartsNextEpisode(true, currentEpisode, Some(n))
  {
  }

  function Sum(s: seq<nat>): nat {
    if |s| == 0 then 0 else Sum(s[..|s| - 1]) + s[|s| - 1]
  }

  /** The fresh winHistory counts nothing. */
  lemma NoWinsYet()
    ensures Sum([0, 0, 0]) == 0
  {
    assert [0, 0, 0][..2] == [0, 0];
    assert [0, 0][..1] == [0];
    assert [0][..0] == [];
  }

  /** `winHistory[w]++` adds exactly one to the total. */
  lemma {:induction false} SumIncrement(s: seq<nat>, w: nat)
    requires w < |s|
    ensures Sum(s[w := s[w] + 1]) == Sum(s) + 1
    decreases |s|
  {
    var t := s[w := s[w] + 1];
    if w == |s| - 1 {
      assert t[..|t| - 1] == s[..|s| - 1];
    } else {
      assert t[..|t| - 1] == s[..|s| - 1][w := s[w] + 1];
      SumIncrement(s[..|s| - 1], w);
    }
  }

  /** Both robots at their reset positions are 4 apart, out of reach of a kick. */
  lemma ResetPositionsOutOfReach(f0: Fighter, f1: Fighter)
    requires f0.position == ResetPosition(0) && f1.position == ResetPosition(1)
    ensures !InRange(f0, f1, KickRange)
    ensures PlanarDistanceSquared(f0, f1) == 16.0
  {
    assert (-4.0) * (-4.0) == 16.0;
  }

  class Simulation {
    const physics: PhysicsEngine
    const robot0: Robot
    const robot1: Robot
    const rl: QLearning

    var isRunning: bool
    /** Whether the interval is still installed. */
    var ticking: bool
    var stepCount: nat
    /** startSimulation's `mode === 'train'`. */
    var isTraining: bool
    var parameters: Parameters
    var stats: Stats

    /** The learner owns this session's robots and engine; three result counters;
        while running, the body table is empty (reset() emptied it and nothing
        adds to it), both robots stand at their reset positions and are unhurt,
        and every finished episode has been counted exactly once. */
    ghost predicate Valid()
      reads this, rl, robot0, robot1, physics
    {
      rl.robot0 == robot0 && rl.robot1 == robot1 && rl.physics == physics &&
      robot0.id == 0 && robot1.id == 1 &&
      rl.Valid() &&
      |stats.winHistory| == 3 &&
      stats.currentEpisode <= Sum(stats.winHistory) <= stats.currentEpisode + 1 &&
      (isRunning ==>
        ticking && isTraining == rl.isTraining &&
        Sum(stats.winHistory) == stats.currentEpisode &&
        physics.objects == [] &&
        robot0.position == ResetPosition(0) && robot1.position == ResetPosition(1) &&
        robot0.health == 100 && robot1.health == 100)
    }

    /** The set-up of simulationHandler: an engine, robots 0 and 1 registered
        with it, and a learner over them, not running. */
    constructor ()
      ensures Valid() && !isRunning && !ticking
      ensures fresh(physics) && fresh(robot0) && fresh(robot1) && fresh(rl)
      ensures physics.objects == [InitialBody(0), InitialBody(1)]
      ensures robot0.State() == Initial(0) && robot1.State() == Initial(1)
      ensures rl.Snapshot() == Learner(DefaultRates, true, false, [map[], map[]])
    {
      var engine := new PhysicsEngine();
      var r0 := new Robot(0, engine);
      var r1 := new Robot(1, engine);
      var learner := new QLearning(r0, r1, engine);
      physics := engine;
      robot0 := r0;
      robot1 := r1;
      rl := learner;
      isRunning := false;
      ticking := false;
      stepCount := 0;
      isTraining := true;
      parameters := Parameters(None, None, None, None, None, None, None, None);
      stats := Stats(0, 0, (0.0, 0.0), [0, 0, 0], DefaultExplorationRate);
      NoWinsYet();
    }

    /** physics.reset() and then reset() of both robots: the table is emptied
        first, so the robots' writes to their slots change nothing. */
    method ResetArena()
      requires robot0 != robot1 && robot0.physics == physics && robot1.physics == physics
      modifies physics, robot0, robot1
      ensures physics.objects == [] && physics.collisions == [] && physics.time == 0.0
      ensures robot0.State() == Initial(robot0.id).(isBlocking := old(robot0.isBlocking))
      ensures robot1.State() == Initial(robot1.id).(isBlocking := old(robot1.isBlocking))
      ensures robot0.Valid() && robot1.Valid()
    {
      physics.Reset();
      robot0.Reset();
      robot1.Reset();
    }

    /** startSimulation: configure, reset, choose the mode, fresh statistics, run. */
    method StartSimulation(p: Parameters, mode: string)
      requires Valid()
      modifies this, rl, robot0, robot1, physics
      ensures Valid() && isRunning && ticking && stepCount == 0 && parameters == p
      ensures isTraining == (mode == "train") && rl.isTraining == isTraining
      ensures stats == Stats(0, 0, (0.0, 0.0), [0, 0, 0], OrDefault(p.explorationRate, 1.0))
      ensures rl.qTables == old(rl.qTables) && rl.simpleMode
      ensures rl.CurrentRates() == RatesOf(p).(explorationRate := rl.explorationRate)
      ensures rl.explorationRate == if isTraining then RatesOf(p).explorationRate else RatesOf(p).minExplorationRate
      ensures physics.objects == []
      ensures robot0.State() == Initial(0).(isBlocking := old(robot0.isBlocking))
      ensures robot1.State() == Initial(1).(isBlocking := old(robot1.isBlocking))
    {
      rl.Configure(p);
      ResetArena();
      isTraining := mode == "train";
      rl.SetTrainingMode(isTraining);
      stats := Stats(0, 0, (0.0, 0.0), [0, 0, 0], OrDefault(p.explorationRate, 1.0));
      NoWinsYet();
      isRunning := true;
      stepCount := 0;
      ticking := true;
      parameters := p;
    }

    /** stopSimulation: no tick after this one runs a step. */
    method StopSimulation()
      modifies this
      ensures !isRunning && !ticking
      ensures stats == old(stats) && stepCount == old(stepCount) && parameters == old(parameters)
      ensures isTraining == old(isTraining)
      ensures old(Valid()) ==> Valid()
    {
      isRunning := false;
      ticking := false;
    }

    /** One firing of the interval. Not running: it clears itself and nothing
        else changes. Running: one learner step, the step counter up by one,
        and at the end of an episode the winner counted once, then either the
        next episode (training with episodes left) or the end. While running
        the robots never come within reach of each other, so `done` is always
        false and an episode ends exactly when maxSteps is reached. */
    method Tick(m: MathLib, d: Draws) returns (outcome: TickOutcome)
      requires Valid() && DrawInRange(d.first) && DrawInRange(d.second)
      modifies this, rl, robot0, robot1, physics
      ensures Valid()
      ensures !old(isRunning) ==>
        outcome == Cleared && !ticking && !isRunning &&
        stats == old(stats) && stepCount == old(stepCount) &&
        rl.Snapshot() == old(rl.Snapshot()) && robot0.State() == old(robot0.State()) &&
        robot1.State() == old(robot1.State()) && physics.objects == old(physics.objects)
      ensures old(isRunning) ==>
        !outcome.Cleared? &&
        (outcome.Continued? <==> !ReachedMaxSteps(old(stepCount) + 1, parameters.maxSteps)) &&
        stats.currentStep == old(stepCount) + 1
      ensures outcome.Continued? ==>
        isRunning && stepCount == old(stepCount) + 1 && stats.winHistory == old(stats.winHistory) &&
        stats.currentEpisode == old(stats.currentEpisode)
      ensures outcome.EpisodeAdvanced? || outcome.Ended? ==>
        outcome.winner == Winner(stats.rewards) &&
        stats.winHistory == old(stats.winHistory)[outcome.winner := old(stats.winHistory)[outcome.winner] + 1] &&
        Sum(stats.winHistory) == Sum(old(stats.winHistory)) + 1
      ensures outcome.EpisodeAdvanced? ==>
        isRunning && StartsNextEpisode(isTraining, old(stats.currentEpisode), parameters.numEpisodes) &&
        stepCount == 0 && stats.currentEpisode == old(stats.currentEpisode) + 1 &&
        stats.explorationRate == rl.explorationRate
      ensures outcome.Ended? ==>
        !isRunning && !ticking && !StartsNextEpisode(isTraining, old(stats.currentEpisode), parameters.numEpisodes) &&
        stats.currentEpisode == old(stats.currentEpisode)
      ensures isTraining == old(isTraining) && parameters == old(parameters)
    {
      if !isRunning {
        ticking := false;
        return Cleared;
      }
      var step := RunStep(m, d);
      stepCount := stepCount + 1;
      stats := stats.(currentStep := stepCount, rewards := step.rewards);
      if EpisodeOver(step.done, stepCount, parameters.maxSteps) {
        outcome := EndEpisode();
      } else {
        outcome := Continued;
      }
    }

    /** The end of an episode: the winner of the last step's rewards counted,
        then the next episode or the end of the simulation. */
    method EndEpisode() returns (outcome: TickOutcome)
      requires Valid() && isRunning
      modifies this, robot0, robot1, physics
      ensures Valid() && (outcome.EpisodeAdvanced? || outcome.Ended?)
      ensures outcome.winner == Winner(stats.rewards) && stats.rewards == old(stats.rewards)
      ensures stats.currentStep == old(stats.currentStep)
      ensures stats.winHistory == old(stats.winHistory)[outcome.winner := old(stats.winHistory)[outcome.winner] + 1]
      ensures Sum(stats.winHistory) == Sum(old(stats.winHistory)) + 1
      ensures outcome.EpisodeAdvanced? <==> StartsNextEpisode(isTraining, old(stats.currentEpisode), parameters.numEpisodes)
      ensures outcome.EpisodeAdvanced? ==>
        isRunning && stepCount == 0 && stats.currentEpisode == old(stats.currentEpisode) + 1 &&
        stats.explorationRate == rl.explorationRate
      ensures outcome.Ended? ==>
        !isRunning && !ticking && stats.currentEpisode == old(stats.currentEpisode)
      ensures isTraining == old(isTraining) && parameters == old(parameters)
    {
      var winner := Winner(stats.rewards);
      SumIncrement(stats.winHistory, winner);
      stats := stats.(winHistory := stats.winHistory[winner := stats.winHistory[winner] + 1]);
      if StartsNextEpisode(isTraining, stats.currentEpisode, parameters.numEpisodes) {
        stats := stats.(currentEpisode := stats.currentEpisode + 1);
        stepCount := 0;
        stats := stats.(explorationRate := rl.explorationRate);
        ResetArena();
        outcome := EpisodeAdvanced(winner);
      } else {
        isRunning := false;
        ticking := false;
        outcome := Ended(winner);
      }
    }

    /** rl.step() while running: it never throws, `done` is false, and the arena
        is as it was (empty table, robots in place and unhurt). */
    method RunStep(m: MathLib, d: Draws) returns (r: StepResult)
      requires Valid() && isRunning && DrawInRange(d.first) && DrawInRange(d.second)
      modifies rl, robot0, robot1, physics
      ensures Valid()
      ensures r.Stepped? && !r.done
      ensures rl.isTraining == old(rl.isTraining)
    {
      ResetPositionsOutOfReach(robot0.State(), robot1.State());
      r := rl.Step(m, d);
      assert r.Stepped?;
    }
  }
}
