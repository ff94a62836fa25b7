# Robot wrestling: a verified model of the simulation, learner and record keeping

The backend being modelled simulates two wrestling robots in a circular ring
and trains each robot's policy online, using tabular Q-learning. Each tick of
a simulation session does the following:

1. Both robots read their bodies back from the physics engine.
2. Each robot picks one of eight actions by an epsilon-greedy choice over its
   Q-table.
3. The actions apply energy costs, velocity changes, strikes and guards.
4. The engine advances one fixed time step.
5. Both tables learn from the transition, and the exploration rate decays.

Episodes end on a knock-out or after `maxSteps` steps. The winner of each
episode goes into a three-counter tally. Around the simulation, HTTP
controllers keep saved models (with per-user ratings and download counts) and
user accounts (with favourite models).

The Dafny project models:

- `Physics` (`backend/physics/PhysicsEngine.js`): the body table, `update()`
  and the accessors.
- `Robots` (`backend/simulation/RobotModel.js`): actions, rewards, the
  observation and robot state.
- `Learning` (`backend/rl/QLearning.js`): state keys, action choice, the
  update rule, decay, configuration and export/import, and `step()`.
- `SimulationLoop` (`backend/controllers/simulationController.js`): the
  session state machine.
- `ModelDocs` (`backend/models/Model.js`): document defaults and the average
  rating.
- `ModelController` (`backend/controllers/modelController.js`): access rules,
  the update merge, rating and downloads.
- `UserController` (`backend/controllers/userController.js`): registration,
  the profile merge and favourites.
- `JsRuntime` and `Express`: the small pieces of JavaScript and HTTP these
  modules share (`undefined`, `Math`, truthiness, status codes).

Objects whose fields the source updates in place are classes with `modifies`
clauses: the engine, the robots, the learner, the session and the two
document stores. Each method states its new state through a function on
values, and the properties are proved about those functions.

Numbers are Dafny reals: IEEE behaviour is not modelled. `Math.sqrt`, `sin`,
`cos` and `atan2` are an oracle (`JsRuntime.MathLib`) passed in by callers.
Every comparison against a square root is stated on squares, which is exact
for reals. Both `Math.random()` draws of `chooseAction` and the ring test of
the engine are parameters.

The code behaves as follows in places a reader might not expect, and the
model follows it:

- The observation has 22 entries, indices 0 to 21. The coarse state key reads entries
  19, 20, 21 and 22. That is the z offset, the distance, the ring margin and
  a missing entry, which rounds to NaN. It does not read the x offset at
  entry 18.
- `configure` sets `simpleMode` to `parameters.simpleMode || true`, so after
  configuration the coarse key is always used. Any explicit 0 rate is replaced
  by its default, and nothing is rejected.
- Pairwise collisions are never resolved. The first colliding pair makes
  `update()` throw: the collision record at `PhysicsEngine.js:102` reads the
  block-scoped `j` declared at line 124 before its declaration. A zero
  distance counts as a collision.
- `startSimulation` and the episode reset call `physics.reset()` before the
  robots' `reset()`. The body table is therefore empty during every run, and
  the robots' writes to their slots change nothing. The model proves what
  follows from this:
  - the robots never move from their reset positions, 4 apart;
  - no strike lands, and health stays 100;
  - `done` is never true, and no collision is ever found;
  - for a positive integer `maxSteps`, every episode lasts exactly
    `maxSteps` steps; without one, an episode never ends.
- Health has no lower clamp: a strike can take it below 0. The ring test uses
  the position stored before the physics update.
- `stopSimulation` clears the running flag and the interval.

## Model

| member | source | states |
|---|---|---|
| JsRuntime.Round | backend/rl/QLearning.js:52-57 | Math.round gives the integer within half of its argument, with halves going up |
| Physics.PhysicsEngine.constructor | backend/physics/PhysicsEngine.js:2-16 | a new engine has no bodies, no collisions and time 0 |
| Physics.PhysicsEngine.Reset | backend/physics/PhysicsEngine.js:12-16 | reset empties the body table and the collisions and sets time to 0 |
| Physics.PhysicsEngine.AddObject | backend/physics/PhysicsEngine.js:19-22 | the body is appended, and its index is the old table length |
| Physics.PhysicsEngine.GetObjectState | backend/physics/PhysicsEngine.js:163-168 | a body exists exactly for an index inside the table, and it is that slot's body |
| Physics.PhysicsEngine.SetObjectState | backend/physics/PhysicsEngine.js:171-175 | only an in-range slot changes; the fields supplied overwrite, the others stay |
| Physics.Merge | backend/physics/PhysicsEngine.js:173 | every field the patch leaves out keeps the body's value |
| Physics.MergeIdempotent | backend/physics/PhysicsEngine.js:173 | applying a patch twice equals applying it once, and the empty patch changes nothing |
| Physics.Patched | backend/physics/PhysicsEngine.js:171-175 | the other slots and the table length are kept; an out-of-range index changes nothing |
| Physics.OutsideRingIsSqrtTest | backend/physics/PhysicsEngine.js:178-188 | the squared test of isOutOfRing agrees with the Math.sqrt test against radius 5 |
| Physics.GroundClamp | backend/physics/PhysicsEngine.js:51-58 | a body below the floor is set on it with zero vertical speed; isGrounded holds exactly then; nothing else changes |
| Physics.StepBody | backend/physics/PhysicsEngine.js:30-84 | a stepped body never sinks below the floor and keeps its mass, size and static flag; grounding follows the integrated height |
| Physics.StaticBodyMovesOnlyByClamps | backend/physics/PhysicsEngine.js:34-49 | a static body gets no gravity and no integration, only friction and the two clamps |
| Physics.FrictionOnGround | backend/physics/PhysicsEngine.js:38-42 | on the floor, horizontal velocity is scaled by 0.97 before integration |
| Physics.RingClampWithinRing | backend/physics/PhysicsEngine.js:60-83 | after the boundary clamp, a body lies within ringRadius - radius of the centre |
| Physics.StepBodyWithinRing | backend/physics/PhysicsEngine.js:30-84 | after a whole step, a body lies within ringRadius - radius of the centre |
| Physics.StepAll | backend/physics/PhysicsEngine.js:30-84 | the table keeps its length, and every body ends on or above the floor |
| Physics.CollidingIsSqrtTest | backend/physics/PhysicsEngine.js:92-100 | the squared collision test agrees with Math.sqrt(distance) < sum of radii |
| Physics.FindFirstCollision | backend/physics/PhysicsEngine.js:86-102 | the pair loops find no pair exactly when no pair collides, and otherwise the first colliding pair in loop order |
| Physics.PhysicsEngine.Update | backend/physics/PhysicsEngine.js:25-160 | time advances by 0.1 and every body is stepped; the result is the empty collision list exactly when no pair collides, else the ReferenceError for the first colliding pair |
| Robots.ActionIndexRoundTrip | backend/simulation/RobotModel.js:24-33 | the indices 0..7 and the eight actions correspond one to one |
| Robots.Initial | backend/simulation/RobotModel.js:14-21 | a robot starts valid with health 100, energy 100 and no stun |
| Robots.ResetPatchRestoresInitialBody | backend/simulation/RobotModel.js:58-62 | the reset patch turns a robot's body back into the body it was registered with |
| Robots.InRangeIsSqrtTest | backend/simulation/RobotModel.js:285-290 | the squared range test agrees with Math.sqrt(dx*dx + dz*dz) <= range |
| Robots.InRangeProperties | backend/simulation/RobotModel.js:285-290 | being in range is symmetric, and a longer reach covers whatever a shorter one does |
| Robots.WrapDownSpec | backend/simulation/RobotModel.js:304 | the first loop ends at or below PI, subtracts whole turns only, and leaves an angle at or below PI alone |
| Robots.WrapUpSpec | backend/simulation/RobotModel.js:305 | the second loop ends at or above -PI, adds whole turns only, and leaves an angle at or above -PI alone |
| Robots.NormalizeAngleSpec | backend/simulation/RobotModel.js:301-305 | the normalised angle is in [-PI, PI], differs from the input by whole turns, and leaves angles already in range alone |
| Robots.InFrontIgnoresWholeTurns | backend/simulation/RobotModel.js:293-309 | turning a robot by whole turns does not change what is in front of it |
| Robots.SteerChangesSpeedByImpulse | backend/simulation/RobotModel.js:166-194 | a move changes the horizontal velocity by a vector of length 2, 1.4 or 1.6, and never the vertical one |
| Robots.StrikeDependsOnStance | backend/simulation/RobotModel.js:196-235 | a strike depends on the striker only through its position and orientation |
| Robots.StrikeDamage | backend/simulation/RobotModel.js:196-235 | a missed punch or kick leaves the opponent alone and costs 2 or 5; a landed one takes 5 or 10 from a blocker and earns that much; against an open opponent it takes 10 or 20, stuns for 2 or 3, a kick also adds 5 along the kicker's facing to the opponent's horizontal velocity, and it earns 15 or 25; nothing else of the opponent changes; the reward is positive exactly when the strike lands |
| Robots.ActWhenActive | backend/simulation/RobotModel.js:140-281 | an unstunned robot pays energy, steers, strikes, blocks exactly on Block, and is knocked out when out of the ring; the reward is the strike, the ring penalty and the shaping terms |
| Robots.StunnedRobotSkipsItsTurn | backend/simulation/RobotModel.js:134-138 | a stunned robot only counts its stun down, earns 0 and leaves the opponent alone |
| Robots.ActEnergy | backend/simulation/RobotModel.js:158-164 | energy stays in [0, 100]: the cost is paid down to 0 at the least, idling gives 2 back up to 100, and a stunned robot's energy is unchanged |
| Robots.ActBlocking | backend/simulation/RobotModel.js:237-254 | an acting robot blocks exactly when it chose Block; a stunned one keeps its guard |
| Robots.ActRingOut | backend/simulation/RobotModel.js:256-260 | the acting robot's own health changes only to 0, when out of the ring |
| Robots.OutOfReachOpponentUntouched | backend/simulation/RobotModel.js:196-235 | an opponent beyond kick reach is never affected, whatever the action |
| Robots.ActKeepsPositions | backend/simulation/RobotModel.js:133-282 | no action changes either robot's position or orientation |
| Robots.ActPreservesValid | backend/simulation/RobotModel.js:133-282 | energy in [0, 100], a non-negative stun and health at most 100 are kept for both robots |
| Robots.Observe | backend/simulation/RobotModel.js:90-130 | 22 entries: both robots' nine-entry descriptions, the offset (times 10 it is the coordinate difference), the distance (times 10 it is the planar distance) and the ring margin (times 5 it is 5 minus the distance from the centre) |
| Robots.ObservationsMirror | backend/simulation/RobotModel.js:90-130 | the two robots' observations swap descriptions, negate the offset and share the distance |
| Robots.Robot.constructor | backend/simulation/RobotModel.js:2-45 | a new robot is in its initial state and has appended its body to the engine, remembering that slot's index |
| Robots.Robot.Reset | backend/simulation/RobotModel.js:48-63 | the robot returns to its initial state (keeping its guard), and the same fields are written into its physics slot |
| Robots.Robot.UpdateFromPhysics | backend/simulation/RobotModel.js:66-73 | position, velocity and ground flag are copied from the robot's slot, and nothing changes without a slot |
| Robots.Robot.GetState | backend/simulation/RobotModel.js:76-87 | the snapshot lists position and velocity as three numbers each and reports stunned exactly when the timer is positive |
| Robots.Robot.IsOpponentInFront | backend/simulation/RobotModel.js:293-309 | the two normalisation loops and the 90-degree test decide InFront |
| Robots.Robot.StrikeOpponent | backend/simulation/RobotModel.js:196-235 | the opponent's new state and the reward are those of Strike |
| Robots.Robot.PerformAction | backend/simulation/RobotModel.js:133-282 | both robots' new states and the reward are those of Act; an acting robot's new velocity is written into its slot |
| Robots.Robot.TakeAction | backend/simulation/RobotModel.js:140-281 | the unstunned path: energy, steering, guard, ring-out health, the opponent's state and the reward, field by field |
| Robots.Robot.Exert | backend/simulation/RobotModel.js:158-244 | the energy, velocity, guard and strike results before the physics write |
| Robots.Robot.PayEnergy | backend/simulation/RobotModel.js:158-164 | the energy is the action's cost paid down to 0, plus 2 up to 100 when idling |
| Robots.Robot.CheckRing | backend/simulation/RobotModel.js:256-260 | out of the ring, health becomes 0 and the reward loses 50; otherwise nothing changes |
| Robots.Robot.ShapingReward | backend/simulation/RobotModel.js:262-279 | the four shaping terms of the reward |
| Learning.QuantizeNearest | backend/rl/QLearning.js:52-57 | a discretised value is the nearest grid point, within half a grid step |
| Learning.QuantizeIdempotent | backend/rl/QLearning.js:63 | discretising a grid point gives back the same point |
| Learning.KeyOf | backend/rl/QLearning.js:48-66 | the coarse key has six fields; the full key has one field per entry, each discretised to fifths |
| Learning.SimpleKeyOfObservation | backend/rl/QLearning.js:49-59 | on an observation the coarse key reads the z offset, distance and ring margin, a NaN from the missing index 22, and both health fractions |
| Learning.FullKeyIsStable | backend/rl/QLearning.js:60-65 | an observation already on the grid of its full key has the same key |
| Learning.ZeroRow | backend/rl/QLearning.js:74 | a new row has one zero per action |
| Learning.EnsureRow | backend/rl/QLearning.js:73-75 | the key gets a row of zeros when it has none; existing rows survive and the rows stay well formed |
| Learning.MaxOf | backend/rl/QLearning.js:102 | Math.max of a row is an entry of the row and at least every entry |
| Learning.IndexOf | backend/rl/QLearning.js:84 | indexOf gives the first index holding the value, or -1 exactly when no entry holds it |
| Learning.Greedy | backend/rl/QLearning.js:82-84 | the greedy action has a maximal value, and every lower index has a smaller value |
| Learning.Choice | backend/rl/QLearning.js:77-85 | the epsilon-greedy choice is always one of the eight actions |
| Learning.ChoiceWhenExploiting | backend/rl/QLearning.js:82-85 | when exploiting, and always in evaluation, the choice is the lowest index of a maximal value |
| Learning.EvaluationIsDeterministic | backend/rl/QLearning.js:78 | in evaluation the random draws do not matter |
| Learning.GreedyOnZeroRow | backend/rl/QLearning.js:74 | on a fresh row the greedy action is action 0 |
| Learning.BellmanMovesTowardTarget | backend/rl/QLearning.js:105-107 | with a learning rate in [0, 1] the new value lies between the old value and the target; rate 1 reaches the target and rate 0 stays put |
| Learning.LearnedChangesOneEntry | backend/rl/QLearning.js:89-111 | an update adds only the next state's row (zero if new) and changes only Q[s][a], to the Bellman value |
| Learning.Decayed | backend/rl/QLearning.js:165-170 | the decayed rate is never below the floor |
| Learning.DecayIsNonIncreasing | backend/rl/QLearning.js:165-170 | with a factor of at most 1, decay never raises a rate that is at or above the floor |
| Learning.DecayedIsNonZero | backend/rl/QLearning.js:166-169 | decaying nonzero numbers never gives 0 |
| Learning.OrDefault | backend/rl/QLearning.js:24-28 | `v \|\| d` keeps a nonzero given value and gives the default for a missing value or 0 |
| Learning.RatesOf | backend/rl/QLearning.js:23-28 | the configured rates are never 0 |
| Learning.ConfigureReplacesZero | backend/rl/QLearning.js:26 | an explicit exploration rate of 0 becomes the default 1.0 |
| Learning.ConfigureLearner | backend/rl/QLearning.js:23-30 | configure sets the rates from the parameters and always sets simpleMode to true; the tables and the mode are kept |
| Learning.Export | backend/rl/QLearning.js:189-201 | the export carries the tables and simpleMode, and its parameters configure back to the same nonzero rates |
| Learning.Load | backend/rl/QLearning.js:204-212 | the tables are replaced only when given, the rates only when parameters are given; the mode is kept |
| Learning.ExportLoadRoundTrip | backend/rl/QLearning.js:189-212 | loading an export restores the tables and all rates of a learner whose rates are nonzero, with simpleMode true |
| Learning.LoadIsIdempotent | backend/rl/QLearning.js:204-212 | loading the same data twice equals loading it once |
| Learning.ZeroRateDoesNotRoundTrip | backend/rl/QLearning.js:26 | an exploration rate of 0 comes back as 1.0 after export and load |
| Learning.QLearning.constructor | backend/rl/QLearning.js:2-20 | a new learner has the default rates, is training, uses the full key and has two empty tables |
| Learning.QLearning.Configure | backend/rl/QLearning.js:23-30 | the learner's state becomes ConfigureLearner of the old state |
| Learning.QLearning.SetTrainingMode | backend/rl/QLearning.js:33-40 | the mode is set, and evaluation drops the exploration rate to its floor; nothing else changes |
| Learning.QLearning.ChooseAction | backend/rl/QLearning.js:69-86 | the observation's row is created if missing, no row is changed, and the action is Choice on that row |
| Learning.QLearning.UpdateQValue | backend/rl/QLearning.js:89-111 | no change in evaluation; while training, the robot's table becomes Learned |
| Learning.QLearning.LoadModelData | backend/rl/QLearning.js:204-212 | the learner's state becomes Load of the old state |
| Learning.QLearning.Step | backend/rl/QLearning.js:114-186 | done is a health of 0 or less; the states reported; decay only when training; the step completes exactly when the table has no colliding pair, and an abort names the first colliding pair; no learning in evaluation; with an empty table nothing moves, and out of reach nobody is hurt |
| Learning.QLearning.Advance | backend/rl/QLearning.js:114-143 | up to the physics update: the chosen actions are valid, rows are only added, and the update reports a collision exactly when some pair collides, naming the first such pair |
| Learning.QLearning.Conclude | backend/rl/QLearning.js:145-185 | after the physics update: learning, decay, done and the reported states |
| Learning.QLearning.SyncRobots | backend/rl/QLearning.js:116 | both robots copy their bodies from the engine |
| Learning.QLearning.Choose | backend/rl/QLearning.js:119-134 | both robots get a valid action, and no existing row changes |
| Learning.QLearning.Learn | backend/rl/QLearning.js:160-162 | both tables stay well formed and are unchanged in evaluation |
| Learning.QLearning.Act | backend/rl/QLearning.js:137-140 | robot 0 acts, then robot 1; both stay valid, with an empty table nobody moves, and out of kick reach nobody is hurt |
| SimulationLoop.Winner | backend/controllers/simulationController.js:75 | 0 exactly when robot 0's last reward is larger, 1 when robot 1's is, 2 on a tie |
| SimulationLoop.EvaluationRunsOneEpisode | backend/controllers/simulationController.js:79 | evaluation never starts another episode |
| SimulationLoop.TrainingStopsAtLastEpisode | backend/controllers/simulationController.js:79 | once the episode index reaches numEpisodes - 1, training ends |
| SimulationLoop.NoWinsYet | backend/controllers/simulationController.js:43 | the fresh tally counts nothing |
| SimulationLoop.SumIncrement | backend/controllers/simulationController.js:76 | counting a winner adds exactly one to the tally's total |
| SimulationLoop.ResetPositionsOutOfReach | backend/simulation/RobotModel.js:49 | robots at their reset positions are 4 apart, beyond kick range |
| SimulationLoop.Simulation.constructor | backend/controllers/simulationController.js:13-21 | a session has a new engine holding robots 0 and 1 and a default learner, and is not running |
| SimulationLoop.Simulation.ResetArena | backend/controllers/simulationController.js:31-32 | the table is emptied and both robots are back in their initial state |
| SimulationLoop.Simulation.StartSimulation | backend/controllers/simulationController.js:24-49 | configured learner, training exactly for mode "train", fresh statistics, empty table, robots reset, running |
| SimulationLoop.Simulation.StopSimulation | backend/controllers/simulationController.js:109-119 | the session stops running and nothing else changes |
| SimulationLoop.Simulation.Tick | backend/controllers/simulationController.js:51-105 | idle ticks change nothing; a running tick steps once and ends the episode exactly at maxSteps, counting its winner once, then continues or ends |
| SimulationLoop.Simulation.EndEpisode | backend/controllers/simulationController.js:72-104 | the last step's winner counted once; the next episode exactly when training has episodes left, else the end |
| SimulationLoop.Simulation.RunStep | backend/controllers/simulationController.js:57-58 | while running, a step never throws and never reports done |
| ModelDocs.StoredParameters | backend/models/Model.js:27-56 | every declared parameter is filled, a given value is kept, and explorationRate is dropped |
| ModelDocs.StoredParametersExploreFromDefault | backend/models/Model.js:27-56 | parameters stored through the schema always configure exploration at 1.0, and storing twice equals storing once |
| ModelDocs.NewModel | backend/models/Model.js:19-85 | a new model is private unless made public, with no downloads, no ratings and rating 0 |
| ModelDocs.CalculateRating | backend/models/Model.js:103-111 | 0 without ratings; otherwise the rating times the count is the sum of the values |
| ModelDocs.SumValuesBounds | backend/models/Model.js:109 | the sum of n values in [1, 5] lies in [n, 5n] |
| ModelDocs.RatingWithinBounds | backend/models/Model.js:76-111 | with every value in [1, 5], so is the average |
| ModelDocs.SumValuesReplace | backend/models/Model.js:109 | replacing one value changes the sum by the difference |
| ModelDocs.SumValuesAppend | backend/models/Model.js:109 | appending a rating adds its value to the sum |
| ModelController.RatingAcceptedIsRange | backend/controllers/modelController.js:168-170 | a rating is accepted exactly when it is given and in [1, 5] |
| ModelController.AccessRules | backend/controllers/modelController.js:88-148 | an updater may also view and delete; an admin may delete anything; only the owner sees a private model |
| ModelController.FindRating | backend/controllers/modelController.js:185-187 | the first rating by the user, or -1 exactly when the user has none |
| ModelController.UpsertProperties | backend/controllers/modelController.js:184-198 | an existing rating is replaced in place and the count kept; a new one is appended; the others are untouched; no user appears twice |
| ModelController.UpsertKeepsRatingsValid | backend/controllers/modelController.js:184-201 | after an accepted rating all values stay in [1, 5], and so does the average |
| ModelController.UpsertSum | backend/controllers/modelController.js:189-201 | the new sum is the old one less the replaced value plus the new one, or plus the new one |
| ModelController.MergeUpdate | backend/controllers/modelController.js:117-123 | the name changes only when truthy, description and isPublic whenever given, the rest when present; given parameters are stored through the schema, without explorationRate; owner, downloads and ratings are kept |
| ModelController.MergeUpdateLaws | backend/controllers/modelController.js:117-123 | an empty update changes nothing, and applying an update twice equals applying it once |
| ModelController.NewModelIsConsistent | backend/models/Model.js:67-85 | a new model satisfies the store's rating and parameter invariant |
| ModelController.MergeUpdateKeepsConsistent | backend/controllers/modelController.js:117-126 | an update keeps the rating invariant and stores its parameters as the schema does |
| ModelController.StoredModelExploresFromDefault | backend/models/Model.js:27-56 | no stored model, created or updated, carries an exploration rate, so configuring from it explores at 1.0 |
| ModelController.ModelStore.GetModelById | backend/controllers/modelController.js:76-97 | 404 for an unknown id; the model exactly when the requester may view it, else 403 |
| ModelController.ModelStore.UpdateModel | backend/controllers/modelController.js:100-133 | 404, 403 for someone other than the owner, else the merge is stored; the rating invariant is kept |
| ModelController.ModelStore.DeleteModel | backend/controllers/modelController.js:136-160 | 404, 403 unless owner or admin, else the model is removed |
| ModelController.ModelStore.RateModel | backend/controllers/modelController.js:163-211 | 400 exactly for a rejected rating (before the lookup), 404, 403 for a private model; an accepted rating of an existing public model always succeeds, storing the upsert with the recomputed average in [1, 5] |
| ModelController.ModelStore.IncrementDownloads | backend/controllers/modelController.js:214-234 | 404 for an unknown id, else the downloads go up by one and the new count is returned |
| UserController.RemoveAll | backend/controllers/userController.js:182-184 | the filter keeps exactly the other ids and never grows the list |
| UserController.RemoveAllAppend | backend/controllers/userController.js:182-184 | the filter distributes over concatenation, so it keeps order |
| UserController.RemoveAllAbsent | backend/controllers/userController.js:182-184 | removing an id that is not a favourite leaves the list as it is |
| UserController.RemoveAllNoDuplicates | backend/controllers/userController.js:182-184 | removal keeps the favourites free of repeats |
| UserController.AddThenRemove | backend/controllers/userController.js:154-184 | adding a new favourite and then removing it restores the list |
| UserController.AppendNoDuplicates | backend/controllers/userController.js:154-159 | appending an id that is absent keeps the favourites free of repeats |
| UserController.MergeProfile | backend/controllers/userController.js:118-121 | each field changes only when the request gives a non-empty value; admin flag and favourites are kept |
| UserController.MergeProfileLaws | backend/controllers/userController.js:118-121 | empty requests change nothing, and applying a request twice equals applying it once |
| UserController.UserStore.Register | backend/controllers/userController.js:7-49 | 400 when the email or username is taken; 500 when the schema rejects the fields; else a new user under a fresh id; no two users ever share a username or email |
| UserController.UserStore.UpdateProfile | backend/controllers/userController.js:107-139 | 404; the merge is stored exactly when it meets the schema and clashes with no other user, else 500 |
| UserController.UserStore.AddToFavorites | backend/controllers/userController.js:142-167 | 404; 400 when already a favourite; else the id is appended; favourites never repeat |
| UserController.UserStore.RemoveFromFavorites | backend/controllers/userController.js:170-193 | 404, else every occurrence of the id is filtered out |

## Left out

- Floating point: reals replace IEEE doubles, so NaN arithmetic, rounding error and `Infinity` are not modelled. NaN appears only as the state-key field for a missing observation index.
- Math.sqrt, sin, cos and atan2 are not defined. They come from an oracle, and only the laws of square roots and of the unit circle are assumed, by the lemmas that need them.
- Sockets and emitted payloads: the socket.io events, the payloads of `simulationUpdate`, `episodeComplete` and `simulationEnded`, and the `saveModel`/`loadModel` handlers are not modelled. Those handlers only call getModelData and loadModelData.
- The 100 ms interval timer is not modelled: each call of Tick is one firing. A second `startSimulation` while running, which in the source installs a second interval, is not modelled.
- Pairwise collision response (impulse, restitution, positional correction) is left out because the source never executes it: the throw comes first. The uncaught ReferenceError, which ends the process in the source, becomes an error result.
- Mongoose, MongoDB, bcrypt and JWT are left out. Queries, `populate`, sorting, ObjectId casting and timestamps are not modelled. So are password hashing, login and token generation, and the HTTP routes and auth middleware. The stores are in-memory maps.
- The listing handlers (getUserModels, getPublicModels, getFavoriteModels, searchModels) and createModel are not modelled. The defaults of a new document are modelled by `ModelDocs.NewModel`.
- Schema details: trimming or lowercasing of strings, `required` on model names and payloads, and the 500 replies for database failures are not modelled. For users, the schema check and the unique-index clash are modelled, as the 500 their save produces.
- JSON values of unexpected types (null parameters, strings where numbers are expected) are not modelled. Request fields are options of their expected type.
- Learning.QLearning.LoadModelData: requires two well-formed tables when tables are given. The source accepts any object, and later steps would fail on a malformed one.
- Robots.Robot.PerformAction: requires an action index below 8. The source would look up `undefined` and produce NaN energy for a larger index; the learner only ever chooses indices below 8.
- Learning.QLearning.Step: does not state the reward values. They are stated by `Robots.Act` through `Learning.QLearning.Act`, and Step states the decay, done, the reported states, the error case and the arena facts.
- Learning.QLearning.Choose: does not state which keys it returns, only that they have rows and that both actions are valid.
- Learning.QLearning.Learn: does not restate the two updates. Each is stated by `Learning.QLearning.UpdateQValue`, whose result `Learning.LearnedChangesOneEntry` describes; Learn states only well-formedness and the evaluation case.
- Learning.QLearning.Act: does not state the two rewards. Each is stated by `Robots.Robot.PerformAction`, as the reward of `Robots.Act`.
- Learning.Export: getModelData hands out the live tables, not a copy. Later mutation through that reference is not modelled.
- ModelController.MergeUpdate: the parameter fields an update leaves out take their schema defaults at once. The database fills them in when the document is next read, which is not modelled.
- Learning.QLearning.constructor: the source leaves `simpleMode` undefined until `configure`. Here it is false, so exporting an unconfigured learner reports false where the source reports undefined. Both select the full state key.
