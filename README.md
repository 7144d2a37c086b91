# FireRescue simulation core in Dafny

This project models the discrete rules of the FireRescue rescue simulation,
a Unity scene in which robots put out fires and carry survivors to a safe
zone. It covers the two classes that hold those rules:

- **WorldBuilder** (`Assets/Scripts/WorldBuilder.cs`)
  - the world registry `id2obj`, and `entityRoom`, the map from each entity to its room;
  - how a parsed world document is registered (`BuildFromSpec`);
  - the command dispatcher `Execute`;
  - the collision-aware step `ClampStep`;
  - the dynamics controller: the periodic fire-spread loop, brief pauses, step-coupled random events, fire spawning, obstacle nudging and reconfiguration.
- **RobotAgent** (`Assets/Scripts/RobotAgent.cs`)
  - a robot's action state: the extinguisher flag, the held id and the movement target;
  - field-of-view perception and the reveal scan;
  - the actions: move, go to, pick, drop, deliver, extinguish and rescue.

## Structure

| module | file | contents |
|---|---|---|
| `Options` | options.dfy | the Option datatype |
| `Geometry` | geometry.dfy | positions as triples of reals; magnitude tests done on squares, with lemmas justifying them |
| `Registry` | registry.dfy | one registry entry (`Entity`: position, active flag, Fire component, destroyed or not, carrying robot); id prefixes; fire names |
| `Collision` | collision.dfy | what `ClampStep` computes, and its properties |
| `Commands` | commands.dfy | `Execute`'s action vocabulary, robot-id resolution, `MoveDir`'s direction table |
| `Observation` | observation.dfy | `IsInFov` and the functions the three registry scans compute (reveal, extinguish, nearest survivor), with the lemmas tying each loop's fold to them |
| `Ingest` | ingest.dfy | what `BuildFromSpec`'s registration loops write, as a fold of placements that stops at the first room lookup that fails |
| `Simulation` | simulation.dfy | the `WorldBuilder` and `RobotAgent` classes, whose methods update the registry and their own fields as the C# does |

### Modelling choices

- **The registry.** `WorldBuilder.id2obj` is a `map<string, Entity>`. `keys` lists its ids in insertion order, which is the order in which a `Dictionary` that never loses a key enumerates them.
- **Destroyed objects.** Unity's `Destroy` sets `live` to false. The dictionary keeps the dead Transform, and so does the model. A Transform compared with `null` counts as null once destroyed, so "missing" in the model means absent or not live.
- **Hidden objects reappear.** Deliver and the rescue drop deactivate the object they release. The next reveal scan of any robot that sees it, live, activates it again (`Observation.RevealOnlyActivates`). The scene's design describes such objects as staying hidden; the model does what the C# does.
- **Robot position.** The position of a robot in the current robot list is its own registry entry, since the robot's Transform is what `id2obj` holds under its id. This holds until a later document overwrites the id; robots that a reload drops from the list are not modelled (see "## Left out").
- **References by id.** The safe zone (`WorldBuilder.safeZone`) and a followed movement target (`Target.Follow`) are held as registry ids and resolved in the registry when they are used (see "## Left out").
- **Exceptions.** A C# lookup that throws ends the operation at that point, and the state written so far persists. Such a lookup is a room id not in the registry, or a destroyed Transform whose position is read. The registration loops and SpawnFire report this as `ok == false`. A spread loop whose SpawnFire threw has ended. Pick, Drop, Deliver and the rescue report it as `threw`, which Perform and Execute pass on; ExecuteWithFeedback then skips its tick, as the C# coroutine ends before it.
- **Engine services.** `Vector3.Angle` and `Physics.OverlapBox` are given as a `Physics` value. `Vector3.MoveTowards` and `Quaternion.LookRotation` enter `RobotAgent.Update` as a progress fraction and a heading.
- **Randomness.** `Random.Range` draws are nondeterministic choices (`:|`) within the same bounds. The offsets drawn while registering a document are returned as a ghost `EntityOffsets`. `Random.value` draws are parameters.
- **Coroutines.** Coroutines become explicit state and events:
  - `spread` is the live spread loop, holding the length of its wait;
  - `pauses` is the pending `_PauseDyn` coroutines, each with the flag it captured;
  - `SpreadWaitElapsed`, `PauseElapsed` and `DestroyWhenClose` are the moments their waits end.
- **Loops and their specifications.** Every loop of the source is a Dafny loop proved against a specification function:
  - the registration loops against `Ingest.PlaceAll`, and the whole of BuildFromSpec's registration against PlaceAll of `Simulation.WorldPlacements`;
  - the robots' reveal scans after loading against `Simulation.RevealFold`;
  - `RevealInFov` against `Observation.Revealed`;
  - the extinguishing sweep against `Observation.Doused`;
  - the rescue search against `Observation.Nearest`;
  - `ClampStep` against `Collision.StepEnd`.
- **Outcomes.** What each robot action does is a two-state predicate (`MoveDirOutcome`, `GoToOutcome`, `ExtinguishOutcome`, `PickOutcome`, `DropOutcome`, `DeliverOutcome`, `RescueOutcome`). Each takes the registry that results as a parameter, so an outcome can be stated against a registry that later steps change; the action method ensures its predicate of `builder.id2obj`. `RobotAgent.ActionOutcome` picks the predicate for a parsed command; `RobotAgent.Perform` (the switch) ensures it, `Execute` does for the robot it resolves, and `ExecuteWithFeedback` does of the registry Execute leaves, before its tick. The dynamics' effects are value predicates: `SpawnEffect`, `Nudged` and `TickEffect`.

## Model

| member | source | states |
|---|---|---|
| Geometry.Clamp | Assets/Scripts/WorldBuilder.cs:413-414 | Mathf.Clamp: the result lies in [lo, hi]; it is v when v is inside, lo below, hi above |
| Geometry.ExceedsIff | Assets/Scripts/RobotAgent.cs:67 | for every magnitude m ≥ 0, the squared test agrees with `m > limit` (used for the range test and the 1.5 interaction radius) |
| Geometry.BelowIff | Assets/Scripts/RobotAgent.cs:29 | for every magnitude m ≥ 0, the squared test agrees with `m < limit` (arrival within 0.3, ghost despawn distances) |
| Geometry.CloserIff | Assets/Scripts/RobotAgent.cs:209-210 | comparing two distances by their squares keeps the strict order the rescue search uses |
| Registry.FireName | Assets/Scripts/WorldBuilder.cs:366 | a spawned fire's name is "Fire" followed by three decimal digits that spell the number drawn, and never carries the Room, Human or Obstacle prefix |
| Registry.FireNamesDistinct | Assets/Scripts/WorldBuilder.cs:366 | two different numbers drawn give two different fire names, so a fire name is overwritten only when the same number is drawn again |
| Collision.Desired | Assets/Scripts/WorldBuilder.cs:412-414 | the destination has x and z in [-20, 20], equal to start + delta wherever that is inside, and the y of start + delta unclamped |
| Collision.BlockedStaysPut | Assets/Scripts/WorldBuilder.cs:420-423 | any obstacle-tagged hit makes the step return start unchanged |
| Collision.OtherHitsNeverBlock | Assets/Scripts/WorldBuilder.cs:420-426 | inserting destroyed, floor-tagged or otherwise-tagged colliders anywhere among the hits never changes the outcome |
| Collision.UnblockedMoves | Assets/Scripts/WorldBuilder.cs:420-426 | with no obstacle among the hits the step returns the clamped destination |
| Simulation.WorldBuilder.ClampStep | Assets/Scripts/WorldBuilder.cs:410-427 | the early-return loop over the hits returns exactly StepEnd: start when an obstacle is hit, the clamped destination otherwise |
| Commands.ParseAction | Assets/Scripts/WorldBuilder.cs:274-293 | an action name is Unknown exactly when it is not one of the twelve names; the four move names map to their direction |
| Commands.ExtinguishAlias | Assets/Scripts/WorldBuilder.cs:282-283 | "extinguish_fire" and "extinguish_all_fov" are the extinguish command, and no other name is |
| Commands.ResolveRobotId | Assets/Scripts/WorldBuilder.cs:271 | a non-empty robot id is kept; an empty one becomes the selected robot's id, or "robot1" when none is selected |
| Simulation.FindRobot | Assets/Scripts/WorldBuilder.cs:271 | List.Find: None exactly when no robot has the id; otherwise the first robot with it |
| Simulation.WorldBuilder.Execute | Assets/Scripts/WorldBuilder.cs:269-294 | for the robot the id resolves to, `RobotAgent.ActionOutcome` of the command ParseAction makes of the name; an unknown robot or action changes nothing and does not throw; `threw` is the action's; other robots, the ids and the robot list are unchanged |
| Simulation.RobotAgent.Perform | Assets/Scripts/WorldBuilder.cs:274-293 | ActionOutcome: the outcome predicate of the action the command routes to (move_* MoveDirOutcome with the step length, both extinguish names ExtinguishOutcome, move GoToOutcome, pick PickOutcome, and so on); the heading is unchanged; dynamics are touched only by extinguishing; `threw` only from pick, drop, deliver and rescue, as their outcomes state; an unknown command changes nothing |
| Simulation.WorldBuilder.ExecuteWithFeedback | Assets/Scripts/WorldBuilder.cs:260-267 | the resolved robot's `ActionOutcome` holds with `executed` as the resulting registry and `threw` as the action's exception, and survives the tick; an unknown robot or action leaves `executed`, the dynamics flag and the pauses as they were, and does not throw; then, exactly when onStepChanges is set and the action did not throw, TickEffect from `executed`; otherwise nothing after Execute changes; other robots are unchanged |
| Simulation.WorldBuilder.TickIfCoupled | Assets/Scripts/WorldBuilder.cs:266 | TickEffect from the current state exactly when onStepChanges is set; otherwise the registry, ids and entity rooms are unchanged |
| Commands.Right | Assets/Scripts/RobotAgent.cs:44-45 | transform.right is up × forward in Unity's left-handed frame: level, perpendicular to forward, as long as forward's level part, and turned clockwise from it seen from above |
| Commands.RightDetermined | Assets/Scripts/RobotAgent.cs:44-45 | for a forward with a nonzero level part, Right's level, perpendicular and clockwise-orientation properties leave no other vector than Right(forward), so they state transform.right completely |
| Commands.DirVector | Assets/Scripts/RobotAgent.cs:39-46 | an unrecognised direction gives zero displacement; right is Right(forward) and left its negation, oriented clockwise and anticlockwise of forward; for a level unit forward each named direction is a level unit vector and back is -forward |
| Simulation.SpreadWait | Assets/Scripts/WorldBuilder.cs:328 | Mathf.Max(1, fireSpreadSeconds): at least 1 and at least the setting, equal to the setting when that is 1 or more |
| Simulation.WorldBuilder.RestartSpreadLoop | Assets/Scripts/WorldBuilder.cs:318-322 | afterwards exactly one loop is live (waiting max(1, fireSpreadSeconds)) when dynamics are enabled, and none otherwise |
| Simulation.WorldBuilder.SpreadWaitElapsed | Assets/Scripts/WorldBuilder.cs:324-332 | with dynamics disabled when the wait ends the loop stops and nothing spawns; otherwise the SpawnFire outcome (SpawnEffect), then the next wait of max(1, fireSpreadSeconds), or no loop when the spawn threw |
| Simulation.WorldBuilder.DynamicTickOnStep | Assets/Scripts/WorldBuilder.cs:334-339 | TickEffect: nothing while disabled; a spawn roll below 0.40 has the SpawnFire outcome; a nudge roll below 0.20 then has the NudgeRandomObstacle outcome unless the spawn threw; rolls at or above the thresholds change nothing |
| Simulation.WorldBuilder.PauseDynamicsBriefly | Assets/Scripts/WorldBuilder.cs:342-350 | dynamics are off during the pause, which records the flag it captured and its length |
| Simulation.WorldBuilder.PauseElapsed | Assets/Scripts/WorldBuilder.cs:350-352 | when a pause's wait ends the enabled flag is the one that pause captured, the pause is gone, and the spread loop is restarted |
| Simulation.SinglePause | Assets/Scripts/WorldBuilder.cs:346-353 | for any builder, one pause switches dynamics off while it lasts and then gives back the flag it took, leaving the pending pauses as they were and the loop running exactly when that flag is on |
| Simulation.OverlappingPauses | Assets/Scripts/WorldBuilder.cs:346-353 | for any builder, two overlapping pauses that end in the order they began leave dynamics off and no loop running, whatever the flag was before |
| Simulation.WorldBuilder.SpawnFire | Assets/Scripts/WorldBuilder.cs:356-374 | SpawnEffect: no "Room"-prefixed id: nothing changes; a destroyed room drawn: it throws and nothing changes; otherwise one entry "Fire"+3 digits (FireSpawned) is written, active, a fire, alive, mapped to the live room drawn, 0.5 above and within 3 on x and z of it, and nothing else changes; with room ids all live a fire is always spawned |
| Simulation.WorldBuilder.NudgeRandomObstacle | Assets/Scripts/WorldBuilder.cs:376-385 | Nudged: at most one live "Obstacle"-prefixed entry moves, by at most 0.5 on x and z with y unchanged, and nothing else changes; no obstacle id: nothing changes |
| Simulation.WorldBuilder.SetupDynamics | Assets/Scripts/WorldBuilder.cs:387-397 | with a payload each absent field keeps its value and each present one replaces it; no payload changes no setting; the loop is restarted either way |
| Simulation.WorldBuilder.SetupDynamicsWith | Assets/Scripts/WorldBuilder.cs:400-406 | the raw overload replaces all three settings and restarts the loop |
| Simulation.WorldBuilder.constructor | Assets/Scripts/WorldBuilder.cs:28-55 | an empty registry with the Inspector defaults: tags "Obstacle" and "Floor", step 2.0, FOVs 120/10 and 140/14, dynamics and on-step changes on, 45 seconds |
| Simulation.WorldBuilder.Put | Assets/Scripts/WorldBuilder.cs:85 | a dictionary write overwrites in place or appends a new id to the enumeration order, keeping every id listed once |
| Simulation.WorldBuilder.Place | Assets/Scripts/WorldBuilder.cs:111-115 | one registration (PlaceStep): the entry written at its room's position plus offset and mapped to the room, or failure when the room is unknown or destroyed |
| Simulation.WorldBuilder.PlaceEach | Assets/Scripts/WorldBuilder.cs:103-116 | a registration loop computes PlaceAll; on success exactly its ids are added; it succeeds whenever every room it refers to is registered and live beforehand |
| Ingest.PlaceAllKeys | Assets/Scripts/WorldBuilder.cs:121-139 | a loop only adds ids; once failed it writes nothing more (and did not start from a failed state); a completed loop adds exactly its placements' ids |
| Ingest.PlaceStepLive | Assets/Scripts/WorldBuilder.cs:125-138 | one iteration destroys nothing, and a successful one leaves exactly its own id newly live |
| Ingest.PlaceAllLive | Assets/Scripts/WorldBuilder.cs:121-139 | a loop destroys nothing, and a completed loop leaves exactly its placements' ids newly live |
| Ingest.PlaceAllAppend | Assets/Scripts/WorldBuilder.cs:142-145 | running one loop after another is running their concatenation, which is how the consecutive loops of BuildFromSpec compose |
| Ingest.PlaceAllStuck | Assets/Scripts/WorldBuilder.cs:125 | after the first failed room lookup the remaining iterations change nothing |
| Ingest.PlaceAllOk | Assets/Scripts/WorldBuilder.cs:125 | a loop completes exactly when each room lookup finds an id live before the loop or written earlier in it |
| Ingest.PlaceAllKnown | Assets/Scripts/WorldBuilder.cs:125 | a loop whose rooms are all registered and live beforehand completes |
| Ingest.PlaceAllElsewhere | Assets/Scripts/WorldBuilder.cs:138 | an id no placement writes keeps its entry and its room |
| Ingest.PlaceAllLast | Assets/Scripts/WorldBuilder.cs:128-138 | after a completed loop the last placement under each id determines its flags, room and position relative to where its room stood |
| Simulation.RobotsKnown | Assets/Scripts/WorldBuilder.cs:149-168 | the robots loop keeps every id and completes when every robot's room is registered and live beforehand |
| Simulation.ObstacleRegistered | Assets/Scripts/WorldBuilder.cs:105-115 | an obstacle is registered inactive, not a fire, mapped to its room, at its room plus its box's x/z centre and 0.5 up |
| Simulation.SpawnRegistered | Assets/Scripts/WorldBuilder.cs:121-138 | a listed entity is registered inactive, a fire exactly for the fires list, mapped to its room, 0.5 up and within 3 on x and z of its room |
| Simulation.RobotRegistered | Assets/Scripts/WorldBuilder.cs:151-167 | a robot is registered active, mapped to its room, 0.5 above the room's origin |
| Simulation.EntitiesComplete | Assets/Scripts/WorldBuilder.cs:142-145 | the four entity lists complete when every room they name is registered and live beforehand |
| Simulation.AfterRooms | Assets/Scripts/WorldBuilder.cs:76-87 | the rooms loop always completes and leaves its rooms live, so what follows may refer to them |
| Simulation.MapCompletes | Assets/Scripts/WorldBuilder.cs:76-116 | the map completes when every obstacle's room is live beforehand or a room of the document |
| Simulation.WorldCompletes | Assets/Scripts/WorldBuilder.cs:76-168 | the whole registration completes when every room the document refers to is live beforehand or one of its rooms (RoomsResolve) |
| Simulation.WorldBuilder.RegisterRooms | Assets/Scripts/WorldBuilder.cs:77-87 | the rooms loop always completes, computes PlaceAll of the room placements and adds exactly the rooms' ids |
| Simulation.WorldBuilder.SafeZoneSpot | Assets/Scripts/WorldBuilder.cs:92-94 | the safe zone is at (0, 0.5, min room z − 6), or at (0, 0.5, −12) without rooms |
| Simulation.WorldBuilder.RegisterObstacles | Assets/Scripts/WorldBuilder.cs:103-116 | the obstacles loop computes PlaceAll of the obstacle placements and completes when every obstacle's room is registered and live |
| Simulation.WorldBuilder.SpawnList | Assets/Scripts/WorldBuilder.cs:119-140 | one entity list computes PlaceAll of its placements for the offsets drawn, each within ±3, and completes when every room is registered and live |
| Simulation.WorldBuilder.SpawnEntities | Assets/Scripts/WorldBuilder.cs:142-145 | the four lists in order compute PlaceAll of EntityPlacements for the offsets drawn; they complete when every room they name is registered and live |
| Simulation.WorldBuilder.AddRobot | Assets/Scripts/WorldBuilder.cs:151-167 | one robot: a new agent with robot1's view for "robot1" and robot2's otherwise, registered and appended |
| Simulation.WorldBuilder.RobotStep | Assets/Scripts/WorldBuilder.cs:150-167 | one iteration of the robots loop as PlaceStep describes; when it succeeds exactly one fresh agent for the entry is appended, otherwise the robot list is unchanged |
| Simulation.WorldBuilder.RegisterRobots | Assets/Scripts/WorldBuilder.cs:148-168 | RobotsLeft: the robot list is replaced by a fresh agent per entry, in order, each registered as PlaceAll describes, and holds the agents made so far when a room lookup throws; it completes when every robot's room is registered and live |
| Simulation.WorldBuilder.RegisterMap | Assets/Scripts/WorldBuilder.cs:76-116 | PlaceAll of MapPlacements: rooms, then, exactly when there is no live safe zone, a new one at the SafeZoneSpot position registered as "SafeZone" (active, absolute) and remembered, then obstacles |
| Simulation.WorldBuilder.RegisterWorld | Assets/Scripts/WorldBuilder.cs:76-168 | the whole registration is PlaceAll of WorldPlacements (map, entities, robots) for the offsets drawn, with the safe zone as RegisterMap states; it completes whenever RoomsResolve holds; RobotsLeft: a failure in the map or the entities leaves the old robot list, otherwise the list holds one fresh agent per robot entry the loop got through, all of them on success |
| Simulation.RevealFoldOnlyActivates | Assets/Scripts/WorldBuilder.cs:170 | the robots' reveal scans keep every id and every field but the active flag, and never hide what was shown |
| Simulation.WorldBuilder.RevealAllRobots | Assets/Scripts/WorldBuilder.cs:170 | every robot's reveal scan in list order, each from its pose as the scans before it left the registry (RevealFold) |
| Simulation.WorldBuilder.BuildFromSpec | Assets/Scripts/WorldBuilder.cs:60-175 | the registry and room map are PlaceAll of WorldPlacements, followed on success by RevealFold over the new robots; the safe zone as RegisterMap states; after a completed registration the first robot is selected and the spread loop restarted; a failed one stops before the scans and both; the robot list as RegisterWorld states |
| Simulation.WorldBuilder.StartWorld | Assets/Scripts/WorldBuilder.cs:170-174 | the registry becomes RevealFold of the robots' scans in list order; the first robot is selected when there is one; the spread loop is running exactly when dynamics are enabled |
| Observation.IsInFov | Assets/Scripts/RobotAgent.cs:63-70 | a destroyed object is never seen; one farther than the range horizontally is not seen; otherwise seen exactly when the angle is at most half the field of view |
| Observation.FovBoundaries | Assets/Scripts/RobotAgent.cs:67-69 | both limits are inclusive: at exactly the range and exactly half the angle the object is seen; any farther it is not |
| Observation.RevealOnlyActivates | Assets/Scripts/RobotAgent.cs:72-81 | the reveal scan keeps every id and every field but the active flag, never deactivates, and activates exactly the live entries that are rooms, the floor, the robot itself or in view |
| Observation.RevealNeverHides | Assets/Scripts/RobotAgent.cs:72-81 | an entry shown once stays shown through any number of later reveal scans from any poses |
| Observation.RevealScanIsRevealed | Assets/Scripts/RobotAgent.cs:75-80 | visiting each registry id once, in enumeration order, computes Revealed |
| Simulation.RobotAgent.constructor | Assets/Scripts/RobotAgent.cs:7-14 | a new agent has the id, builder and field of view the robots loop gives it, no extinguisher, nothing held, no target, and faces +z |
| Simulation.RobotAgent.TargetPoint | Assets/Scripts/RobotAgent.cs:22-25 | the target's position: a ghost's point, or a followed object's position while it is registered and not destroyed; none otherwise |
| Simulation.RobotAgent.RevealInFov | Assets/Scripts/RobotAgent.cs:72-81 | the loop over the registry leaves it as Revealed from the robot's pose |
| Simulation.RobotAgent.MoveDir | Assets/Scripts/RobotAgent.cs:37-54 | MoveDirOutcome: the target becomes a waypoint ghost (despawn 0.35) at the ClampStep result along the direction, kept at the robot's height; nothing else changes |
| Simulation.RobotAgent.GoTo | Assets/Scripts/RobotAgent.cs:56-60 | GoToOutcome: a registered id becomes the target; an unknown id leaves the target unchanged; nothing else changes |
| Simulation.RobotAgent.Update | Assets/Scripts/RobotAgent.cs:19-34 | without a live target only the reveal scan runs; with one the robot moves along the line to it at its own height, turns to face along that line when the offset is not tiny, clears the target within 0.3, then reveals from its new pose |
| Simulation.RobotAgent.DestroyWhenClose | Assets/Scripts/RobotAgent.cs:219-227 | a waypoint ghost within its despawn distance is destroyed, so the target lapses; anything else is unchanged |
| Simulation.RobotAgent.PickExtinguisher | Assets/Scripts/RobotAgent.cs:122 | the robot is equipped, whatever the argument |
| Observation.Doused | Assets/Scripts/RobotAgent.cs:129-141 | exactly the live, active fires in view are destroyed, and every other entry is untouched |
| Observation.DouseScanIsDoused | Assets/Scripts/RobotAgent.cs:131-141 | visiting each registry id once computes Doused, and the targets met are exactly DousedIds |
| Simulation.RobotAgent.SweepFires | Assets/Scripts/RobotAgent.cs:129-142 | the sweep leaves the registry as Doused and its count is the number of fires destroyed |
| Simulation.RobotAgent.ExtinguishAllInFov | Assets/Scripts/RobotAgent.cs:125-145 | ExtinguishOutcome: the robot is equipped, exactly the active fires in view are destroyed, and a 1.0 pause has begun; the count is their number |
| Simulation.RobotAgent.Pick | Assets/Scripts/RobotAgent.cs:148-157 | PickOutcome: an empty, unknown or destroyed id changes nothing, and only the destroyed one throws; beyond 1.5 the target becomes that object and the held id is kept; otherwise it is held, carried at (0, 1, 0.6) from the robot and parented to it |
| Simulation.RobotAgent.Drop | Assets/Scripts/RobotAgent.cs:159-166 | DropOutcome: nothing held, or a held id unknown or destroyed (which throws): nothing changes; otherwise the object is unparented 0.6 in front of the robot and the held id cleared |
| Simulation.RobotAgent.Deliver | Assets/Scripts/RobotAgent.cs:168-178 | DeliverOutcome: no held object or no live target: nothing, throwing for a destroyed target; beyond 1.5: GoTo with the held object kept; within it: the carried object is deactivated and the held id cleared, or a throw when it is unknown or destroyed |
| Observation.Nearest | Assets/Scripts/RobotAgent.cs:203-211 | the search result is one of the visited ids and an active, live, in-view "Human" entry |
| Simulation.RobotAgent.NearestHumanInFov | Assets/Scripts/RobotAgent.cs:202-211 | the scan's result is Nearest over the registry keys in order from the robot's current eye (so, by Observation.NearestIsFirstClosest, the first closest live, active, in-view "Human"); a result is a live registry entry |
| Observation.NearestIsFirstClosest | Assets/Scripts/RobotAgent.cs:203-212 | None exactly when no candidate is visited; otherwise a candidate no farther than any other and strictly closer than every candidate before it (first wins a tie) |
| Simulation.RobotAgent.RescueNearestInFov | Assets/Scripts/RobotAgent.cs:181-216 | RescueOutcome: no live safe zone: nothing; holding a "Human": head for where the safe zone stands and put the survivor there within 0.3 on x and z, deactivated and let go of, throwing after setting off when the survivor is unknown or destroyed; otherwise Pick on the Nearest candidate, or nothing without one |

## Left out

- Rendering, UI and input. This covers materials, scales, FOV cones, `SetupActionUI`, `AddQuick`, buttons, the HUD, the EventSystem and canvas, and keyboard polling in `WorldBuilder.Update`. None of it changes the simulation's rules; `SelectRobot` is reduced to assigning `selected`.
- The Floor GameObject and the tag helpers. BuildFromSpec creates the floor by scene lookup and never registers it. Tags are an editor concern; the obstacle and floor tags are constants.
- JSON parsing (`JObject`, `ToVec3`). `BuildFromSpec` and `SetupDynamics` take already-parsed records. A document missing its rooms, entities or robots keys, which makes the C# throw, is not modelled.
- `Assets/Scripts/FireRescueBridge.cs` is not part of this model: it is network I/O and dispatch.
- Floating point. Positions are reals, so rounding and the `1e-4` float threshold are exact.
- Time. `Time.deltaTime`, `Vector3.MoveTowards` and `Quaternion.LookRotation` are inputs to `Update`. Wall-clock ordering of coroutines is left to the caller of the event methods.
- Debug logging. Logs have no effect on state.
- Null builder guards. `builder` is a non-null constant of every robot, as the robots loop always sets it, so `builder == null` branches do not arise.
- `Simulation.RobotAgent.MoveDir`: Unity's `normalized` is omitted. The direction is exact for a unit heading, which the constructor creates and `Update` keeps; `Valid` does not record it.
- `Simulation.RobotAgent.Update` takes the heading as a parameter and requires it to be the unit level direction of travel; it does not compute Quaternion.LookRotation.
- Child transforms following their parent. A carried object's registry position is where Pick put it, and does not move with the robot afterwards.
- `Simulation.RobotAgent.RescueNearestInFov` resolves the safe zone by its id "SafeZone" in the registry, where the C# holds its Transform. If a later document registers another object under "SafeZone", the model follows the new entry, while the C# keeps the original object. `Simulation.WorldBuilder.RegisterMap` tests for a live safe zone before the rooms loop, which cannot destroy anything, for the same reason.
- `Simulation.RobotAgent.GoTo`, Pick and Deliver store a followed target as an id, where the C# stores the Transform; `Simulation.RobotAgent.TargetPoint` and `Simulation.RobotAgent.Update` resolve it each frame. If its id is later overwritten, the model follows the new object, while the C# follows the old one.
- `Simulation.RobotAgent.ExtinguishAllInFov`:
  - The C# iterates over every Fire component in the scene; the model iterates over the registry entries with the fire flag. A fire whose registry entry was overwritten (for example a second "Fire" name drawn with the same number) stays in the scene, and the C# can still destroy it; the model no longer sees it.
  - `activeInHierarchy` is modelled as the object's own active flag.
  - The returned count is what the C# only logs.
- `Simulation.WorldBuilder.RegisterWorld` and `Simulation.WorldBuilder.BuildFromSpec` compute the registration exactly (PlaceAll of WorldPlacements). RoomsResolve is the sufficient condition for completing that they state. `Ingest.PlaceAllOk`, applied to WorldPlacements, is the exact one: it also lets an entity refer to an object registered earlier in the same document.
- `Simulation.WorldBuilder.ExecuteWithFeedback` runs the step-coupled tick straight after Execute. The C# first waits 0.2 s (WorldBuilder.cs:264), and during that wait every robot's `Update` still moves it and reveals what it sees. The model does not interleave those frames into the wait; a caller can run `Update` steps between its own calls.
- `Simulation.RobotAgent.Update` and `Simulation.RobotAgent.RevealInFov` require the robot to be in its builder's current robot list. A later document runs BuildFromSpec again, which clears the list (WorldBuilder.cs:148) without destroying the old agents. In the C# those agents keep running Update and RevealInFov, moving their own Transforms, which are no longer registry entries, and activating the new world's entries. The model does not represent such orphaned agents. The same holds within one document that lists two robots with the same id: the later robot's Transform overwrites the entry (WorldBuilder.cs:167), while `List.Find` (WorldBuilder.cs:271) returns the earlier agent, which in the C# moves and sees from its own Transform. The model's MoveDir, Update, RevealInFov and the extinguish and rescue scans of that earlier agent read and write the later robot's entry instead.
- String comparisons. The id-prefix tests `Registry.IsRoomId`, `Registry.IsHumanId` and `Registry.IsObstacleId` are ordinal sequence-prefix tests. The C#'s `StartsWith(string)` (RobotAgent.cs:78, 186, 206; WorldBuilder.cs:359, 379) compares with the current culture, which can ignore or fold some characters (a soft hyphen, say) in an id. That culture-specific collation is not modelled.
- `Simulation.WorldBuilder.SpawnFire` and `Simulation.WorldBuilder.NudgeRandomObstacle`: the random index into the key list is a nondeterministic choice of a key, so the particular pseudo-random sequence is not modelled.
