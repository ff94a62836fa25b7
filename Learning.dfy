/** The tabular Q-learner that drives both robots (backend/rl/QLearning.js):
    one table per robot from discretised observations to eight action values,
    epsilon-greedy choice, the one-step update and the exploration schedule. */
module Learning {
  import opened JsRuntime
  import opened Physics
  import opened Robots

  const NumActions: nat := 8

  const DefaultLearningRate: real := 0.1
  const DefaultDiscountFactor: real := 0.95
  const DefaultExplorationRate: real := 1.0
  const DefaultExplorationDecay: real := 0.995
  const DefaultMinExplorationRate: real := 0.01

  // ---------------------------------------------------------------------------
  // State keys

  /** One comma-separated field of a state key: a number, or NaN where the
      observation has no entry at the index read. A key is the list of its
      fields; distinct lists join to distinct strings. */
  datatype KeyPart = Num(value: real) | NaN

  type StateKey = seq<KeyPart>

  /** Math.round(v * steps) / steps: v on a grid of 1/steps. */
  function Quantize(v: real, steps: real): real
    requires steps > 0.0
  {
    Round(v * steps) as real / steps
  }

  /** The grid point is the nearest one, ties upward. */
  lemma QuantizeNearest(v: real, steps: real)
    requires steps > 0.0
    ensures v - 0.5 / steps < Quantize(v, steps) <= v + 0.5 / steps
  {
    var k := Round(v * steps) as real;
    assert v * steps - 0.5 < k <= v * steps + 0.5;
    assert k / steps == Quantize(v, steps);
    DivideBounds(v * steps - 0.5, k, v * steps + 0.5, steps);
    assert (v * steps - 0.5) / steps == v - 0.5 / steps;
    assert (v * steps + 0.5) / steps == v + 0.5 / steps;
  }

  lemma DivideBounds(lo: real, x: real, hi: real, d: real)
    requires d > 0.0 && lo < x <= hi
    ensures lo / d < x / d <= hi / d
  {
    assert x / d - lo / d == (x - lo) / d;
    assert hi / d - x / d == (hi - x) / d;
  }

  /** A grid point is its own rounding. */
  lemma QuantizeIdempotent(v: real, steps: real)
    requires steps > 0.0
    ensures Quantize(Quantize(v, steps), steps) == Quantize(v, steps)
  {
    GridPointIsFixed(Round(v * steps), steps);
  }

  lemma GridPointIsFixed(k: int, steps: real)
    requires steps > 0.0
    ensures Quantize(k as real / steps, steps) == k as real / steps
  {
    var x := k as real / steps;
    QuantizeUnfold(x, steps);
    assert x * steps == k as real;
    assert Round(k as real) == k;
  }

  lemma QuantizeUnfold(v: real, steps: real)
    requires steps > 0.0
    ensures Quantize(v, steps) == Round(v * steps) as real / steps
  {
  }

  /** A field read from index i of the observation, on a grid of 1/steps. */
  function Slot(obs: seq<real>, i: nat, steps: real): KeyPart
    requires steps > 0.0
  {
    if i < |obs| then Num(Quantize(obs[i], steps)) else NaN
  }

  /** getStateKey. In simple mode: entries 19, 20, 21 and 22 to halves, then
      entries 6 and 15 to fifths; otherwise every entry to fifths. */
  function KeyOf(obs: seq<real>, simple: bool): (k: StateKey)
    ensures simple ==> |k| == 6
    ensures !simple ==> |k| == |obs| && forall i :: 0 <= i < |obs| ==> k[i] == Num(Quantize(obs[i], 5.0))
  {
    if simple then
      [Slot(obs, 19, 2.0), Slot(obs, 20, 2.0), Slot(obs, 21, 2.0), Slot(obs, 22, 2.0),
       Slot(obs, 6, 5.0), Slot(obs, 15, 5.0)]
    else
      seq(|obs|, i requires 0 <= i < |obs| => Num(Quantize(obs[i], 5.0)))
  }

  /** On a getObservation vector the simple key holds, in order: the z offset,
      the distance and the ring margin to halves, a NaN field (index 22 is one
      past the end), and the two health fractions to fifths. */
  lemma SimpleKeyOfObservation(me: Fighter, opp: Fighter, m: MathLib)
    ensures var obs := Observe(me, opp, m);
      var k := KeyOf(obs, true);
      k[3] == NaN &&
      k[0] == Num(Quantize((opp.position.z - me.position.z) / 10.0, 2.0)) &&
      k[1] == Num(Quantize(obs[20], 2.0)) && k[2] == Num(Quantize(obs[21], 2.0)) &&
      k[4] == Num(Quantize(me.health as real / 100.0, 5.0)) &&
      k[5] == Num(Quantize(opp.health as real / 100.0, 5.0))
  {
    var obs := Observe(me, opp, m);
    assert obs[19] * 10.0 == opp.position.z - me.position.z;
    assert obs[19] == (opp.position.z - me.position.z) / 10.0;
  }

  /** Discretising is stable: the key of an observation already on the grid of
      its key is the same key. */
  lemma {:induction false} FullKeyIsStable(obs: seq<real>)
    ensures var grid := seq(|obs|, i requires 0 <= i < |obs| => Quantize(obs[i], 5.0));
      KeyOf(grid, false) == KeyOf(obs, false)
  {
    var grid := seq(|obs|, i requires 0 <= i < |obs| => Quantize(obs[i], 5.0));
    forall i | 0 <= i < |obs|
      ensures KeyOf(grid, false)[i] == KeyOf(obs, false)[i]
    {
      QuantizeIdempotent(obs[i], 5.0);
    }
  }

  // ---------------------------------------------------------------------------
  // Rows and tables

  type Row = seq<real>
  type QTable = map<StateKey, Row>

  /** Array(numActions).fill(0). */
  function ZeroRow(): (r: Row)
    ensures |r| == NumActions && forall i :: 0 <= i < |r| ==> r[i] == 0.0
  {
    seq(NumActions, _ => 0.0)
  }

  /** Every row has one value per action. */
  ghost predicate WellFormed(t: QTable) {
    forall k :: k in t ==> |t[k]| == NumActions
  }

  /** The lazy initialisation: a missing row is created as zeros; an existing
      row is kept, whatever it holds. */
  function EnsureRow(t: QTable, k: StateKey): (r: QTable)
    ensures k in r && r.Keys == t.Keys + {k}
    ensures forall j :: j in t ==> r[j] == t[j]
    ensures k !in t ==> r[k] == ZeroRow()
    ensures WellFormed(t) ==> WellFormed(r)
  {
    if k in t then t else t[k := ZeroRow()]
  }

  /** Math.max(...row), folded from the left. */
  function MaxOf(row: Row): (v: real)
    requires |row| > 0
    ensures exists i :: 0 <= i < |row| && row[i] == v
    ensures forall i :: 0 <= i < |row| ==> row[i] <= v
  {
    if |row| == 1 then row[0]
    else MaxReal(MaxOf(row[..|row| - 1]), row[|row| - 1])
  }

  /** row.indexOf(v): the first index holding v, or -1. */
  function IndexOf(row: Row, v: real): (i: int)
    ensures -1 <= i < |row|
    ensures i >= 0 ==> row[i] == v && forall j :: 0 <= j < i ==> row[j] != v
    ensures i == -1 <==> forall j :: 0 <= j < |row| ==> row[j] != v
  {
    if |row| == 0 then -1
    else if row[0] == v then 0
    else
      var j := IndexOf(row[1..], v);
      if j < 0 then -1 else j + 1
  }

  /** qValues.indexOf(Math.max(...qValues)): the lowest index of a maximal value. */
  function Greedy(row: Row): (a: nat)
    requires |row| > 0
    ensures a < |row|
    ensures forall j :: 0 <= j < |row| ==> row[j] <= row[a]
    ensures forall j :: 0 <= j < a ==> row[j] < row[a]
  {
    var i := IndexOf(row, MaxOf(row));
    assert i >= 0;
    i
  }

  /** The two Math.random() values one chooseAction call may read: the first is
      always drawn, the second only when exploring. Both lie in [0, 1). */
  datatype Draw = Draw(explore: real, pick: real)

  predicate DrawInRange(d: Draw) {
    0.0 <= d.explore < 1.0 && 0.0 <= d.pick < 1.0
  }

  /** Epsilon-greedy: a uniform action when the first draw is below the rate
      and training is on, the greedy action otherwise. */
  function Choice(row: Row, rate: real, training: bool, d: Draw): (a: nat)
    requires |row| == NumActions && DrawInRange(d)
    ensures a < NumActions
  {
    if d.explore < rate && training then
      assert 0.0 <= d.pick * 8.0 < 8.0;
      (d.pick * 8.0).Floor
    else Greedy(row)
  }

  /** Exploiting, and always when not training, the choice is the lowest index
      of a maximal value, whatever the draws. */
  lemma ChoiceWhenExploiting(row: Row, rate: real, training: bool, d: Draw)
    requires |row| == NumActions && DrawInRange(d)
    requires !training || d.explore >= rate
    ensures var a := Choice(row, rate, training, d);
      (forall j :: 0 <= j < NumActions ==> row[j] <= row[a]) &&
      (forall j :: 0 <= j < a ==> row[j] < row[a])
  {
  }

  /** In evaluation mode the draws do not matter. */
  lemma EvaluationIsDeterministic(row: Row, rate: real, d1: Draw, d2: Draw)
    requires |row| == NumActions && DrawInRange(d1) && DrawInRange(d2)
    ensures Choice(row, rate, false, d1) == Choice(row, rate, false, d2)
  {
  }

  /** A fresh row is all zeros, so the greedy choice on it is action 0. */
  lemma GreedyOnZeroRow()
    ensures Greedy(ZeroRow()) == 0
  {
    assert ZeroRow()[0] == 0.0;
  }

  /** q + lr * (reward + gamma * nextMax - q). */
  function Bellman(q: real, lr: real, reward: real, gamma: real, nextMax: real): real {
    q + lr * (reward + gamma * nextMax - q)
  }

  /** With a learning rate in [0, 1] the new value lies between the old value
      and the target reward + gamma * nextMax; rate 1 moves all the way, rate 0 not at all. */
  lemma BellmanMovesTowardTarget(q: real, lr: real, reward: real, gamma: real, nextMax: real)
    requires 0.0 <= lr <= 1.0
    ensures var target, v := reward + gamma * nextMax, Bellman(q, lr, reward, gamma, nextMax);
      (q <= target ==> q <= v <= target) && (target <= q ==> target <= v <= q) &&
      (lr == 1.0 ==> v == target) && (lr == 0.0 ==> v == q)
  {
    var target := reward + gamma * nextMax;
    var gap := target - q;
    var step := lr * gap;
    assert Bellman(q, lr, reward, gamma, nextMax) == q + step;
    if 0.0 <= gap {
      FractionOfGap(lr, gap);
    } else {
      FractionOfGap(lr, -gap);
      assert step == -(lr * -gap);
    }
  }

  /** A fraction in [0, 1] of a non-negative gap is at most the gap. */
  lemma FractionOfGap(lr: real, gap: real)
    requires 0.0 <= lr <= 1.0 && 0.0 <= gap
    ensures 0.0 <= lr * gap <= gap
  {
    assert gap - lr * gap == (1.0 - lr) * gap;
  }

  /** The table after updateQValue while training: the next state's row is
      created if missing, then only Q[s][a] is replaced by the Bellman value. */
  function Learned(t: QTable, s: StateKey, a: nat, reward: real, s2: StateKey, lr: real, gamma: real): QTable
    requires WellFormed(t) && a < NumActions
    requires s in t || s == s2
  {
    var t1 := EnsureRow(t, s2);
    var row := t1[s];
    t1[s := row[a := Bellman(row[a], lr, reward, gamma, MaxOf(t1[s2]))]]
  }

  /** Learned touches one entry of one row, apart from creating the next row. */
  lemma LearnedChangesOneEntry(t: QTable, s: StateKey, a: nat, reward: real, s2: StateKey, lr: real, gamma: real)
    requires WellFormed(t) && a < NumActions
    requires s in t || s == s2
    ensures var r, t1 := Learned(t, s, a, reward, s2, lr, gamma), EnsureRow(t, s2);
      WellFormed(r) && r.Keys == t.Keys + {s2} &&
      (forall k :: k in t && k != s ==> r[k] == t[k]) &&
      (s2 !in t && s2 != s ==> r[s2] == ZeroRow()) &&
      (forall j :: 0 <= j < NumActions && j != a ==> r[s][j] == t1[s][j]) &&
      r[s][a] == Bellman(t1[s][a], lr, reward, gamma, MaxOf(t1[s2]))
  {
  }

  /** max(minRate, rate * decay). */
  function Decayed(rate: real, decay: real, minRate: real): (r: real)
    ensures r >= minRate
  {
    MaxReal(minRate, rate * decay)
  }

  /** The decay never goes below the floor and, from a non-negative rate at or
      above the floor and a factor at most 1, never increases the rate. */
  lemma DecayIsNonIncreasing(rate: real, decay: real, minRate: real)
    requires 0.0 <= rate && minRate <= rate && decay <= 1.0
    ensures minRate <= Decayed(rate, decay, minRate) <= rate
  {
    MulMonotone(decay, 1.0, rate);
  }

  /** A decay of nonzero numbers never reaches 0, so a decayed rate is never
      replaced by its default when loaded back. */
  lemma DecayedIsNonZero(rate: real, decay: real, minRate: real)
    requires rate != 0.0 && decay != 0.0 && minRate != 0.0
    ensures Decayed(rate, decay, minRate) != 0.0
  {
  }

  // ---------------------------------------------------------------------------
  // Parameters, configure, export and import

  /** The rates of the learner. */
  datatype Rates = Rates(
    learningRate: real,
    discountFactor: real,
    explorationRate: real,
    explorationDecay: real,
    minExplorationRate: real)

  const DefaultRates: Rates := Rates(DefaultLearningRate, DefaultDiscountFactor, DefaultExplorationRate,
                                     DefaultExplorationDecay, DefaultMinExplorationRate)

  /** A parameters object as clients send it; a missing field is None. */
  datatype Parameters = Parameters(
    numEpisodes: Option<real>,
    maxSteps: Option<real>,
    learningRate: Option<real>,
    discountFactor: Option<real>,
    explorationRate: Option<real>,
    explorationDecay: Option<real>,
    minExplorationRate: Option<real>,
    simpleMode: Option<bool>)

  /** `v || d` on a number: a missing value and 0 are both falsy. */
  function OrDefault(v: Option<real>, d: real): (r: real)
    ensures v.Some? && v.value != 0.0 ==> r == v.value
    ensures v.None? || v.value == 0.0 ==> r == d
  {
    if v.Some? && v.value != 0.0 then v.value else d
  }

  /** No rate is zero. */
  predicate NonZero(r: Rates) {
    r.learningRate != 0.0 && r.discountFactor != 0.0 && r.explorationRate != 0.0 &&
    r.explorationDecay != 0.0 && r.minExplorationRate != 0.0
  }

  /** configure's five rates. */
  function RatesOf(p: Parameters): (r: Rates)
    ensures NonZero(r)
  {
    Rates(OrDefault(p.learningRate, DefaultLearningRate),
          OrDefault(p.discountFactor, DefaultDiscountFactor),
          OrDefault(p.explorationRate, DefaultExplorationRate),
          OrDefault(p.explorationDecay, DefaultExplorationDecay),
          OrDefault(p.minExplorationRate, DefaultMinExplorationRate))
  }

  /** An explicit 0 is treated as missing: configuring a zero exploration rate
      (or any zero rate) gives the default instead. */
  lemma ConfigureReplacesZero(p: Parameters)
    requires p.explorationRate == Some(0.0)
    ensures RatesOf(p).explorationRate == DefaultExplorationRate
  {
  }

  /** A learner's state as one value: what configure, setTrainingMode,
      getModelData and loadModelData read and write. */
  datatype Learner = Learner(rates: Rates, isTraining: bool, simpleMode: bool, qTables: seq<QTable>)

  /** What getModelData and loadModelData exchange; a missing member is None. */
  datatype ModelData = ModelData(qTables: Option<seq<QTable>>, parameters: Option<Parameters>)

  /** configure on a learner: the rates from the parameters, and simpleMode
      set to `parameters.simpleMode || true`, which is true whatever was given. */
  function ConfigureLearner(l: Learner, p: Parameters): (r: Learner)
    ensures r.simpleMode && r.rates == RatesOf(p)
    ensures r.isTraining == l.isTraining && r.qTables == l.qTables
  {
    l.(rates := RatesOf(p), simpleMode := true)
  }

  /** getModelData: the tables and the five rates with simpleMode. */
  function Export(l: Learner): (d: ModelData)
    ensures d.qTables == Some(l.qTables) && d.parameters.Some?
    ensures d.parameters.value.numEpisodes.None? && d.parameters.value.maxSteps.None?
    ensures d.parameters.value.simpleMode == Some(l.simpleMode)
    ensures NonZero(l.rates) ==> RatesOf(d.parameters.value) == l.rates
  {
    ModelData(Some(l.qTables),
      Some(Parameters(None, None, Some(l.rates.learningRate), Some(l.rates.discountFactor),
                      Some(l.rates.explorationRate), Some(l.rates.explorationDecay),
                      Some(l.rates.minExplorationRate), Some(l.simpleMode))))
  }

  /** loadModelData: tables replaced only when given, configure only when parameters are given. */
  function Load(l: Learner, d: ModelData): (r: Learner)
    ensures d.qTables.None? ==> r.qTables == l.qTables
    ensures d.qTables.Some? ==> r.qTables == d.qTables.value
    ensures d.parameters.None? ==> r.rates == l.rates && r.simpleMode == l.simpleMode
    ensures r.isTraining == l.isTraining
  {
    var withTables := if d.qTables.Some? then l.(qTables := d.qTables.value) else l;
    if d.parameters.Some? then ConfigureLearner(withTables, d.parameters.value) else withTables
  }

  /** Loading what getModelData exported restores the tables and, since no rate
      of a running learner is ever 0, every rate; simpleMode comes back true. */
  lemma ExportLoadRoundTrip(l: Learner, into: Learner)
    requires NonZero(l.rates)
    ensures Load(into, Export(l)) == into.(rates := l.rates, simpleMode := true, qTables := l.qTables)
  {
  }

  /** Loading an export twice is loading it once. */
  lemma LoadIsIdempotent(l: Learner, d: ModelData)
    ensures Load(Load(l, d), d) == Load(l, d)
  {
  }

  /** A learner whose exploration rate was 0 reloads at 1.0: the export does not survive the `||` default. */
  lemma ZeroRateDoesNotRoundTrip(l: Learner)
    requires l.rates.explorationRate == 0.0
    ensures Load(l, Export(l)).rates.explorationRate == DefaultExplorationRate
  {
  }

  // ---------------------------------------------------------------------------
  // The learner object

  /** The distance between two robots depends on their positions only. */
  lemma SamePlacesSameDistance(a: Fighter, b: Fighter, a2: Fighter, b2: Fighter)
    requires a.position == a2.position && b.position == b2.position
    ensures PlanarDistanceSquared(a, b) == PlanarDistanceSquared(a2, b2)
  {
  }

  /** Every row of t is in u, unchanged: nothing was learned, rows were only added. */
  ghost predicate KeepsRows(t: QTable, u: QTable) {
    forall k :: k in t ==> k in u && u[k] == t[k]
  }

  /** KeepsRows for the tables of both robots. */
  ghost predicate KeepsTables(t: seq<QTable>, u: seq<QTable>) {
    |t| == |u| == 2 && KeepsRows(t[0], u[0]) && KeepsRows(t[1], u[1])
  }

  /** What step() returns, or the ReferenceError physics.update() throws. */
  datatype StepResult =
    | Stepped(done: bool, rewards: (real, real), robotStates: (RobotView, RobotView))
    | PhysicsError(objectA: nat, objectB: nat)

  /** The draws of both chooseAction calls of one step, robot 0's first. */
  datatype Draws = Draws(first: Draw, second: Draw)

  class QLearning {
    const robot0: Robot
    const robot1: Robot
    const physics: PhysicsEngine

    var learningRate: real
    var discountFactor: real
    var explorationRate: real
    var explorationDecay: real
    var minExplorationRate: real
    var isTraining: bool
    /** undefined, so false, until the first configure. */
    var simpleMode: bool
    var qTables: seq<QTable>

    function CurrentRates(): Rates
      reads this
    {
      Rates(learningRate, discountFactor, explorationRate, explorationDecay, minExplorationRate)
    }

    function Snapshot(): Learner
      reads this
    {
      Learner(CurrentRates(), isTraining, simpleMode, qTables)
    }

    /** Two tables of well-formed rows, no zero rate, two distinct valid robots on this engine. */
    ghost predicate Valid()
      reads this, robot0, robot1
    {
      robot0 != robot1 && robot0.physics == physics && robot1.physics == physics &&
      robot0.Valid() && robot1.Valid() &&
      |qTables| == 2 && WellFormed(qTables[0]) && WellFormed(qTables[1]) &&
      NonZero(CurrentRates())
    }

    constructor (robot0: Robot, robot1: Robot, physics: PhysicsEngine)
      ensures this.robot0 == robot0 && this.robot1 == robot1 && this.physics == physics
      ensures Snapshot() == Learner(DefaultRates, true, false, [map[], map[]])
    {
      this.robot0 := robot0;
      this.robot1 := robot1;
      this.physics := physics;
      learningRate := DefaultLearningRate;
      discountFactor := DefaultDiscountFactor;
      explorationRate := DefaultExplorationRate;
      explorationDecay := DefaultExplorationDecay;
      minExplorationRate := DefaultMinExplorationRate;
      isTraining := true;
      simpleMode := false;  // the source leaves simpleMode undefined; false stands for it
      qTables := [map[], map[]];
    }

    method Configure(p: Parameters)
      modifies this
      ensures Snapshot() == ConfigureLearner(old(Snapshot()), p)
    {
      learningRate := OrDefault(p.learningRate, DefaultLearningRate);
      discountFactor := OrDefault(p.discountFactor, DefaultDiscountFactor);
      explorationRate := OrDefault(p.explorationRate, DefaultExplorationRate);
      explorationDecay := OrDefault(p.explorationDecay, DefaultExplorationDecay);
      minExplorationRate := OrDefault(p.minExplorationRate, DefaultMinExplorationRate);
      simpleMode := p.simpleMode == Some(true) || true;
    }

    /** Evaluation drops the exploration rate to its floor. */
    method SetTrainingMode(training: bool)
      modifies this
      ensures isTraining == training
      ensures explorationRate == if training then old(explorationRate) else minExplorationRate
      ensures Snapshot() == old(Snapshot()).(isTraining := training, rates := CurrentRates())
      ensures CurrentRates() == old(CurrentRates()).(explorationRate := explorationRate)
    {
      isTraining := training;
      if !training {
        explorationRate := minExplorationRate;
      }
    }

    /** Creates the row of the observation's key if missing, then chooses. */
    method ChooseAction(robotIndex: nat, obs: seq<real>, d: Draw) returns (action: nat)
      requires robotIndex < |qTables| && WellFormed(qTables[robotIndex]) && DrawInRange(d)
      modifies this
      ensures var key := KeyOf(obs, simpleMode);
        qTables == old(qTables)[robotIndex := EnsureRow(old(qTables)[robotIndex], key)] &&
        action == Choice(qTables[robotIndex][key], explorationRate, isTraining, d)
      ensures KeepsRows(old(qTables)[robotIndex], qTables[robotIndex])
      ensures Snapshot() == old(Snapshot()).(qTables := qTables)
    {
      var stateKey := KeyOf(obs, simpleMode);
      if stateKey !in qTables[robotIndex] {
        qTables := qTables[robotIndex := qTables[robotIndex][stateKey := ZeroRow()]];
      }
      var qValues := qTables[robotIndex][stateKey];
      if d.explore < explorationRate && isTraining {
        assert 0.0 <= d.pick * 8.0 < 8.0;
        action := (d.pick * 8.0).Floor;
      } else {
        action := IndexOf(qValues, MaxOf(qValues));
      }
    }

    /** A no-op in evaluation; while training, the table becomes Learned. */
    method UpdateQValue(robotIndex: nat, stateKey: StateKey, action: nat, reward: real, nextStateKey: StateKey)
      requires robotIndex < |qTables| && WellFormed(qTables[robotIndex]) && action < NumActions
      requires stateKey in qTables[robotIndex] || stateKey == nextStateKey
      modifies this
      ensures !isTraining ==> qTables == old(qTables)
      ensures isTraining ==> qTables == old(qTables)[robotIndex :=
        Learned(old(qTables)[robotIndex], stateKey, action, reward, nextStateKey, learningRate, discountFactor)]
      ensures Snapshot() == old(Snapshot()).(qTables := qTables)
    {
      if !isTraining {
        return;
      }
      if nextStateKey !in qTables[robotIndex] {
        qTables := qTables[robotIndex := qTables[robotIndex][nextStateKey := ZeroRow()]];
      }
      assert qTables[robotIndex] == EnsureRow(old(qTables)[robotIndex], nextStateKey);
      var qValue := qTables[robotIndex][stateKey][action];
      var nextMaxQ := MaxOf(qTables[robotIndex][nextStateKey]);
      var newQValue := Bellman(qValue, learningRate, reward, discountFactor, nextMaxQ);
      var row := qTables[robotIndex][stateKey];
      qTables := qTables[robotIndex := qTables[robotIndex][stateKey := row[action := newQValue]]];
      assert qTables[robotIndex] == Learned(old(qTables)[robotIndex], stateKey, action, reward, nextStateKey, learningRate, discountFactor);
    }

    method LoadModelData(d: ModelData)
      requires d.qTables.Some? ==> |d.qTables.value| == 2 && WellFormed(d.qTables.value[0]) && WellFormed(d.qTables.value[1])
      modifies this
      ensures Snapshot() == Load(old(Snapshot()), d)
    {
      if d.qTables.Some? {
        qTables := d.qTables.value;
      }
      if d.parameters.Some? {
        Configure(d.parameters.value);
      }
    }

    /** One step of both robots. The ReferenceError of a collision aborts the
        step right after the physics update, before anything is learned. */
    method Step(m: MathLib, d: Draws) returns (r: StepResult)
      requires Valid() && DrawInRange(d.first) && DrawInRange(d.second)
      modifies this, robot0, robot1, physics
      ensures Valid()
      ensures isTraining == old(isTraining) && simpleMode == old(simpleMode)
      ensures CurrentRates() == old(CurrentRates()).(explorationRate := explorationRate)
      ensures explorationRate == if r.Stepped? && isTraining
        then Decayed(old(explorationRate), explorationDecay, minExplorationRate) else old(explorationRate)
      ensures r.Stepped? ==> r.done == (robot0.health <= 0 || robot1.health <= 0)
      ensures r.Stepped? ==> r.robotStates == (robot0.GetState(), robot1.GetState())
      ensures r.PhysicsError? ==> FirstCollision(physics.objects, r.objectA, r.objectB)
      ensures r.Stepped? <==> CollisionFree(physics.objects)
      ensures !isTraining ==> KeepsTables(old(qTables), qTables)
      ensures old(physics.objects) == [] ==>
        (r.Stepped? && physics.objects == [] &&
         robot0.position == old(robot0.position) && robot1.position == old(robot1.position))
      ensures old(physics.objects) == [] && !InRange(old(robot0.State()), old(robot1.State()), KickRange) ==>
        (robot0.health == old(robot0.health) && robot1.health == old(robot1.health))
    {
      var key0, key1, action0, action1, reward0, reward1, update := Advance(m, d);
      if update.ReferenceError? {
        return PhysicsError(update.objectA, update.objectB);
      }
      r := Conclude(m, key0, key1, action0, action1, reward0, reward1);
    }

    /** Step up to and including the physics update. */
    method Advance(m: MathLib, d: Draws)
      returns (key0: StateKey, key1: StateKey, action0: nat, action1: nat, reward0: real, reward1: real, update: UpdateResult)
      requires Valid() && DrawInRange(d.first) && DrawInRange(d.second)
      modifies this, robot0, robot1, physics
      ensures Valid() && Snapshot() == old(Snapshot()).(qTables := qTables)
      ensures KeepsTables(old(qTables), qTables)
      ensures key0 in qTables[0] && key1 in qTables[1] && action0 < NumActions && action1 < NumActions
      ensures update.ReferenceError? ==> FirstCollision(physics.objects, update.objectA, update.objectB)
      ensures update.Collisions? <==> CollisionFree(physics.objects)
      ensures old(physics.objects) == [] ==>
        (update.Collisions? && physics.objects == [] &&
         robot0.position == old(robot0.position) && robot1.position == old(robot1.position))
      ensures old(physics.objects) == [] && !InRange(old(robot0.State()), old(robot1.State()), KickRange) ==>
        (robot0.health == old(robot0.health) && robot1.health == old(robot1.health))
    {
      SyncRobots();
      key0, key1, action0, action1 := Choose(m, d);
      reward0, reward1 := Act(m, action0, action1);
      update := physics.Update(m);
    }

    /** Step after a physics update that did not throw. */
    method Conclude(m: MathLib, key0: StateKey, key1: StateKey, action0: nat, action1: nat, reward0: real, reward1: real)
      returns (r: StepResult)
      requires Valid() && key0 in qTables[0] && key1 in qTables[1]
      requires action0 < NumActions && action1 < NumActions
      modifies this, robot0, robot1
      ensures Valid() && r.Stepped?
      ensures isTraining == old(isTraining) && simpleMode == old(simpleMode)
      ensures CurrentRates() == old(CurrentRates()).(explorationRate := explorationRate)
      ensures explorationRate == if isTraining
        then Decayed(old(explorationRate), explorationDecay, minExplorationRate) else old(explorationRate)
      ensures r.done == (robot0.health <= 0 || robot1.health <= 0)
      ensures r.rewards == (reward0, reward1)
      ensures r.robotStates == (robot0.GetState(), robot1.GetState())
      ensures !isTraining ==> qTables == old(qTables)
      ensures robot0.health == old(robot0.health) && robot1.health == old(robot1.health)
      ensures physics.objects == [] ==>
        (robot0.position == old(robot0.position) && robot1.position == old(robot1.position))
    {
      SyncRobots();
      Learn(m, key0, key1, action0, action1, reward0, reward1);
      if isTraining {
        DecayedIsNonZero(explorationRate, explorationDecay, minExplorationRate);
        explorationRate := Decayed(explorationRate, explorationDecay, minExplorationRate);
      }
      var done := robot0.health <= 0 || robot1.health <= 0;
      return Stepped(done, (reward0, reward1), (robot0.GetState(), robot1.GetState()));
    }

    /** updateFromPhysics for both robots: only positions, velocities and ground flags change. */
    method SyncRobots()
      requires Valid()
      modifies robot0, robot1
      ensures Valid()
      ensures robot0.health == old(robot0.health) && robot1.health == old(robot1.health)
      ensures physics.objects == [] ==> robot0.State() == old(robot0.State()) && robot1.State() == old(robot1.State())
    {
      robot0.UpdateFromPhysics();
      robot1.UpdateFromPhysics();
    }

    /** The observations, their keys and chooseAction for both robots. */
    method Choose(m: MathLib, d: Draws) returns (key0: StateKey, key1: StateKey, action0: nat, action1: nat)
      requires Valid() && DrawInRange(d.first) && DrawInRange(d.second)
      modifies this
      ensures Valid() && Snapshot() == old(Snapshot()).(qTables := qTables)
      ensures key0 in qTables[0] && key1 in qTables[1]
      ensures KeepsTables(old(qTables), qTables)
      ensures action0 < NumActions && action1 < NumActions
    {
      var obs0 := Observe(robot0.State(), robot1.State(), m);
      var obs1 := Observe(robot1.State(), robot0.State(), m);
      key0 := KeyOf(obs0, simpleMode);
      key1 := KeyOf(obs1, simpleMode);
      action0 := ChooseAction(0, obs0, d.first);
      action1 := ChooseAction(1, obs1, d.second);
    }

    /** The two updateQValue calls, from the keys before the step to the keys after it. */
    method Learn(m: MathLib, key0: StateKey, key1: StateKey, action0: nat, action1: nat, reward0: real, reward1: real)
      requires Valid() && key0 in qTables[0] && key1 in qTables[1]
      requires action0 < NumActions && action1 < NumActions
      modifies this
      ensures Valid() && Snapshot() == old(Snapshot()).(qTables := qTables)
      ensures !isTraining ==> qTables == old(qTables)
    {
      var next0 := KeyOf(Observe(robot0.State(), robot1.State(), m), simpleMode);
      var next1 := KeyOf(Observe(robot1.State(), robot0.State(), m), simpleMode);
      UpdateQValue(0, key0, action0, reward0, next0);
      LearnedChangesOneEntry(old(qTables[0]), key0, action0, reward0, next0, learningRate, discountFactor);
      UpdateQValue(1, key1, action1, reward1, next1);
      LearnedChangesOneEntry(old(qTables[1]), key1, action1, reward1, next1, learningRate, discountFactor);
    }

    /** performAction for robot 0 and then robot 1, each seeing the other's latest state. */
    method Act(m: MathLib, action0: nat, action1: nat) returns (reward0: real, reward1: real)
      requires Valid() && action0 < NumActions && action1 < NumActions
      modifies robot0, robot1, physics
      ensures Valid()
      ensures old(physics.objects) == [] ==>
        (physics.objects == [] && robot0.position == old(robot0.position) && robot1.position == old(robot1.position))
      ensures old(physics.objects) == [] && !InRange(old(robot0.State()), old(robot1.State()), KickRange) ==>
        (robot0.health == old(robot0.health) && robot1.health == old(robot1.health))
    {
      ghost var s0, s1 := robot0.State(), robot1.State();
      ghost var out0 := physics.IsOutOfRing(robot0.physicsId);
      reward0 := robot0.PerformAction(action0, robot1, m);
      ActPreservesValid(s0, s1, ActionAt(action0), out0, m);
      ActKeepsPositions(s0, s1, ActionAt(action0), out0, m);
      ActRingOut(s0, s1, ActionAt(action0), out0, m);
      ghost var t1, t0 := robot1.State(), robot0.State();
      ghost var out1 := physics.IsOutOfRing(robot1.physicsId);
      reward1 := robot1.PerformAction(action1, robot0, m);
      ActPreservesValid(t1, t0, ActionAt(action1), out1, m);
      ActKeepsPositions(t1, t0, ActionAt(action1), out1, m);
      ActRingOut(t1, t0, ActionAt(action1), out1, m);
      if old(physics.objects) == [] && !InRange(s0, s1, KickRange) {
        OutOfReachOpponentUntouched(s0, s1, ActionAt(action0), out0, m);
        InRangeProperties(s0, s1, KickRange, KickRange);
        SamePlacesSameDistance(s1, s0, t1, t0);
        OutOfReachOpponentUntouched(t1, t0, ActionAt(action1), out1, m);
      }
    }
  }
}
