/**
 * The world builder and the robots. WorldBuilder owns the registry
 * (`id2obj`, enumerated in the order of `keys`), the room map, the robot
 * list, the safe zone and the dynamics controls; RobotAgent holds one
 * robot's action state and reaches the registry through its builder. A
 * robot's position is its own registry entry, as both names denote one
 * Transform in Unity.
 *
 * Unity's coroutines become explicit events: `spread` is the periodic
 * fire-spread loop (the length of the wait it is in, when one is live),
 * `pauses` the pending dynamics pauses with the flag each captured, and
 * SpreadWaitElapsed / PauseElapsed are the moments their waits end.
 * Physics.OverlapBox and Vector3.Angle come in as a `Physics` value;
 * random draws are nondeterministic choices within Random.Range's bounds,
 * or parameters for Random.value.
 */
module Simulation {
  import opened Options
  import opened Geometry
  import opened Registry
  import opened Collision
  import opened Observation
  import opened Commands
  import opened Ingest

  /** The engine services the model takes as given: Vector3.Angle and Physics.OverlapBox at a centre. */
  datatype Physics = Physics(angle: AngleFn, overlapBox: Vec3 -> seq<Hit>)

  /** A running _PauseDyn: the enabled flag it captured and its length. */
  datatype PauseTask = PauseTask(captured: bool, seconds: real)

  /** The optional fields of the dynamics JSON payload. */
  datatype DynamicsConfig = DynamicsConfig(enabled: Option<bool>, onStep: Option<bool>, fireSpreadSeconds: Option<int>)

  /** A movement target: a waypoint ghost destroyed once the robot is within `despawn` of it, or a registry object. */
  datatype Target = Ghost(at: Vec3, despawn: real) | Follow(id: string)

  // The world document, already parsed.
  datatype RoomSpec = RoomSpec(id: string, pos: Vec3)
  datatype ObstacleSpec = ObstacleSpec(id: string, room: string, min: Vec3, max: Vec3)
  datatype PlacedSpec = PlacedSpec(id: string, room: string)
  datatype WorldSpec = WorldSpec(
    rooms: seq<RoomSpec>, obstacles: seq<ObstacleSpec>,
    fires: seq<PlacedSpec>, kits: seq<PlacedSpec>, survivors: seq<PlacedSpec>, extinguishers: seq<PlacedSpec>,
    robots: seq<PlacedSpec>)

  const InteractRadius := 1.5
  const ArriveRadius := 0.3
  const StepGhostRadius := 0.35
  const SafeZoneGhostRadius := 0.6
  const SpawnSpread := 3.0
  const NudgeSpread := 0.5
  const RescueJitter := 0.3
  const CarryHeight := 1.0
  const CarryReach := 0.6

  /** Mathf.Max(1, fireSpreadSeconds): the length of one wait of the spread loop. */
  function SpreadWait(seconds: int): (w: int)
    ensures w >= 1 && w >= seconds
    ensures seconds >= 1 ==> w == seconds
    ensures seconds < 1 ==> w == 1
  {
    if seconds < 1 then 1 else seconds
  }

  /** The first robot in rs with the given id (List.Find). */
  function FindRobot(rs: seq<RobotAgent>, name: string): (r: Option<RobotAgent>)
    ensures r.None? <==> forall i :: 0 <= i < |rs| ==> rs[i].id != name
    ensures r.Some? ==> exists i :: 0 <= i < |rs| && rs[i] == r.value && r.value.id == name
                                  && forall j :: 0 <= j < i ==> rs[j].id != name
  {
    if rs == [] then None
    else if rs[0].id == name then Some(rs[0])
    else
      var r := FindRobot(rs[1..], name);
      assert r.Some? ==> exists i :: 1 <= i < |rs| && rs[i] == r.value && r.value.id == name
                                  && forall j :: 0 <= j < i ==> rs[j].id != name by {
        if r.Some? {
          var i :| 0 <= i < |rs[1..]| && rs[1..][i] == r.value && r.value.id == name
                   && forall j :: 0 <= j < i ==> rs[1..][j].id != name;
          assert forall j :: 1 <= j < i + 1 ==> rs[j] == rs[1..][j - 1];
        }
      }
      r
  }

  /** An object lies within `spread` of origin on x and z and half a unit above it. */
  predicate PlacedNear(p: Vec3, origin: Vec3, spread: real)
  {
    origin.x - spread <= p.x <= origin.x + spread
    && p.y == origin.y + 0.5
    && origin.z - spread <= p.z <= origin.z + spread
  }

  /** Where the safe zone goes: 6 units below the smallest room z, or (0, 0.5, -12) without rooms. */
  predicate SafeZoneFits(p: Vec3, rooms: seq<RoomSpec>)
  {
    p.x == 0.0 && p.y == 0.5
    && (rooms == [] ==> p.z == -12.0)
    && (rooms != [] ==>
          (exists i :: 0 <= i < |rooms| && rooms[i].pos.z == p.z + 6.0)
          && forall i :: 0 <= i < |rooms| ==> rooms[i].pos.z >= p.z + 6.0)
  }

  /** Rooms are placed absolutely, active. */
  function RoomPlacements(rooms: seq<RoomSpec>): seq<Placement>
  {
    seq(|rooms|, i requires 0 <= i < |rooms| => Placement(rooms[i].id, None, rooms[i].pos, true, false))
  }

  /** An obstacle sits on its box's x and z centre relative to its room, 0.5 up, inactive. */
  function ObstaclePlacements(obs: seq<ObstacleSpec>): seq<Placement>
  {
    seq(|obs|, i requires 0 <= i < |obs| =>
      Placement(obs[i].id, Some(obs[i].room), Vec3((obs[i].min.x + obs[i].max.x) / 2.0, 0.5, (obs[i].min.z + obs[i].max.z) / 2.0), false, false))
  }

  /** A listed entity sits at a drawn x and z offset from its room, 0.5 up, inactive; Fire when the list is the fires. */
  function SpawnPlacements(list: seq<PlacedSpec>, offsets: seq<(real, real)>, isFire: bool): seq<Placement>
    requires |offsets| == |list|
  {
    seq(|list|, i requires 0 <= i < |list| =>
      Placement(list[i].id, Some(list[i].room), Vec3(offsets[i].0, 0.5, offsets[i].1), false, isFire))
  }

  /** A robot stands 0.5 above its room's origin, active. */
  function RobotPlacement(p: PlacedSpec): Placement
  {
    Placement(p.id, Some(p.room), Vec3(0.0, 0.5, 0.0), true, false)
  }

  function RobotPlacements(list: seq<PlacedSpec>): seq<Placement>
  {
    seq(|list|, i requires 0 <= i < |list| => RobotPlacement(list[i]))
  }

  /** The safe zone: placed absolutely, active. */
  function SafeZonePlacement(p: Vec3): Placement
  {
    Placement("SafeZone", None, p, true, false)
  }

  /** The safe zone's placement when one is created. */
  function SafeZonePart(spot: Option<Vec3>): seq<Placement>
  {
    if spot.Some? then [SafeZonePlacement(spot.value)] else []
  }

  /** The offsets the four entity lists draw, one per entry. */
  datatype EntityOffsets = EntityOffsets(fires: seq<(real, real)>, kits: seq<(real, real)>,
                                         survivors: seq<(real, real)>, extinguishers: seq<(real, real)>)

  predicate OffsetsFit(w: WorldSpec, o: EntityOffsets)
  {
    |o.fires| == |w.fires| && WithinSpread(o.fires, SpawnSpread)
    && |o.kits| == |w.kits| && WithinSpread(o.kits, SpawnSpread)
    && |o.survivors| == |w.survivors| && WithinSpread(o.survivors, SpawnSpread)
    && |o.extinguishers| == |w.extinguishers| && WithinSpread(o.extinguishers, SpawnSpread)
  }

  function Zeros(n: nat): (z: seq<(real, real)>)
    ensures |z| == n && WithinSpread(z, SpawnSpread)
  {
    seq(n, _ => (0.0, 0.0))
  }

  /** Offsets for lists a failed registration never reaches. */
  function NoOffsets(w: WorldSpec): (o: EntityOffsets)
    ensures OffsetsFit(w, o)
  {
    EntityOffsets(Zeros(|w.fires|), Zeros(|w.kits|), Zeros(|w.survivors|), Zeros(|w.extinguishers|))
  }

  /** The four entity lists, in the order fires, first-aid kits, survivors, extinguishers. */
  function EntityPlacements(w: WorldSpec, o: EntityOffsets): seq<Placement>
    requires OffsetsFit(w, o)
  {
    SpawnPlacements(w.fires, o.fires, true) + SpawnPlacements(w.kits, o.kits, false)
    + SpawnPlacements(w.survivors, o.survivors, false) + SpawnPlacements(w.extinguishers, o.extinguishers, false)
  }

  /** Rooms, then the safe zone when one is created, then obstacles. */
  function MapPlacements(w: WorldSpec, spot: Option<Vec3>): seq<Placement>
  {
    RoomPlacements(w.rooms) + SafeZonePart(spot) + ObstaclePlacements(w.obstacles)
  }

  /** Everything BuildFromSpec registers, as one loop. */
  function WorldPlacements(w: WorldSpec, spot: Option<Vec3>, o: EntityOffsets): seq<Placement>
    requires OffsetsFit(w, o)
  {
    MapPlacements(w, spot) + EntityPlacements(w, o) + RobotPlacements(w.robots)
  }

  lemma RoomsAbsolute(rooms: seq<RoomSpec>, known: set<string>)
    ensures RoomsIn(RoomPlacements(rooms), known)
  {
  }

  lemma ObstacleRoomsIn(obs: seq<ObstacleSpec>, known: set<string>)
    ensures ObstacleRoomsKnown(obs, known) ==> RoomsIn(ObstaclePlacements(obs), known)
  {
  }

  lemma SpawnRoomsIn(list: seq<PlacedSpec>, offsets: seq<(real, real)>, isFire: bool, known: set<string>)
    requires |offsets| == |list|
    ensures PlacedRoomsKnown(list, known) ==> RoomsIn(SpawnPlacements(list, offsets, isFire), known)
  {
  }

  lemma RobotRoomsIn(list: seq<PlacedSpec>, known: set<string>)
    ensures PlacedRoomsKnown(list, known) ==> RoomsIn(RobotPlacements(list), known)
  {
  }

  lemma EntityRoomsIn(w: WorldSpec, o: EntityOffsets, known: set<string>)
    requires OffsetsFit(w, o)
    ensures EntitiesKnown(w, known) ==> RoomsIn(EntityPlacements(w, o), known)
  {
    if EntitiesKnown(w, known) {
      var f, k := SpawnPlacements(w.fires, o.fires, true), SpawnPlacements(w.kits, o.kits, false);
      var s, e := SpawnPlacements(w.survivors, o.survivors, false), SpawnPlacements(w.extinguishers, o.extinguishers, false);
      SpawnRoomsIn(w.fires, o.fires, true, known);
      SpawnRoomsIn(w.kits, o.kits, false, known);
      SpawnRoomsIn(w.survivors, o.survivors, false, known);
      SpawnRoomsIn(w.extinguishers, o.extinguishers, false, known);
      RoomsInAppend(f, k, known);
      RoomsInAppend(f + k, s, known);
      RoomsInAppend(f + k + s, e, known);
    }
  }

  /** The robots loop keeps every id, and completes when every robot's room is registered and live beforehand. */
  lemma RobotsKnown(s: Staged, list: seq<PlacedSpec>)
    ensures s.objects.Keys <= PlaceAll(s, RobotPlacements(list)).objects.Keys
    ensures s.ok && PlacedRoomsKnown(list, LiveIds(s.objects)) ==> PlaceAll(s, RobotPlacements(list)).ok
  {
    PlaceAllKeys(s, RobotPlacements(list));
    RobotRoomsIn(list, LiveIds(s.objects));
    PlaceAllKnown(s, RobotPlacements(list));
  }

  /** The four entity loops run one after the other. */
  lemma EntityChain(s: Staged, w: WorldSpec, o: EntityOffsets)
    requires OffsetsFit(w, o)
    ensures PlaceAll(s, EntityPlacements(w, o))
              == PlaceAll(PlaceAll(PlaceAll(PlaceAll(s, SpawnPlacements(w.fires, o.fires, true)),
                                            SpawnPlacements(w.kits, o.kits, false)),
                                   SpawnPlacements(w.survivors, o.survivors, false)),
                          SpawnPlacements(w.extinguishers, o.extinguishers, false))
  {
    var f, k := SpawnPlacements(w.fires, o.fires, true), SpawnPlacements(w.kits, o.kits, false);
    var v, e := SpawnPlacements(w.survivors, o.survivors, false), SpawnPlacements(w.extinguishers, o.extinguishers, false);
    PlaceAllAppend(s, f + k + v, e);
    PlaceAllAppend(s, f + k, v);
    PlaceAllAppend(s, f, k);
  }

  /** The map loops run one after the other. */
  lemma MapChain(s: Staged, w: WorldSpec, spot: Option<Vec3>)
    ensures PlaceAll(s, MapPlacements(w, spot))
              == PlaceAll(PlaceAll(PlaceAll(s, RoomPlacements(w.rooms)), SafeZonePart(spot)), ObstaclePlacements(w.obstacles))
  {
    PlaceAllAppend(s, RoomPlacements(w.rooms) + SafeZonePart(spot), ObstaclePlacements(w.obstacles));
    PlaceAllAppend(s, RoomPlacements(w.rooms), SafeZonePart(spot));
  }

  /** The map, the entities and the robots run one after the other. */
  lemma WorldChain(s: Staged, w: WorldSpec, spot: Option<Vec3>, o: EntityOffsets)
    requires OffsetsFit(w, o)
    ensures PlaceAll(s, WorldPlacements(w, spot, o))
              == PlaceAll(PlaceAll(PlaceAll(s, MapPlacements(w, spot)), EntityPlacements(w, o)), RobotPlacements(w.robots))
  {
    PlaceAllAppend(s, MapPlacements(w, spot) + EntityPlacements(w, o), RobotPlacements(w.robots));
    PlaceAllAppend(s, MapPlacements(w, spot), EntityPlacements(w, o));
  }

  /** The entity lists complete when every room they name is registered and live beforehand. */
  lemma EntitiesComplete(s: Staged, w: WorldSpec, o: EntityOffsets)
    requires OffsetsFit(w, o)
    ensures s.ok && EntitiesKnown(w, LiveIds(s.objects)) ==> PlaceAll(s, EntityPlacements(w, o)).ok
  {
    EntityRoomsIn(w, o, LiveIds(s.objects));
    PlaceAllKnown(s, EntityPlacements(w, o));
  }

  /**
   * The rooms are registered first and are live, so the rest of a loop may
   * refer to them: rest completes when its rooms are among the live ids
   * before plus the document's rooms.
   */
  lemma AfterRooms(s: Staged, rooms: seq<RoomSpec>, rest: seq<Placement>)
    requires s.ok && RoomsIn(rest, LiveIds(s.objects) + Ids(RoomPlacements(rooms)))
    ensures PlaceAll(s, RoomPlacements(rooms) + rest).ok
  {
    var r := RoomPlacements(rooms);
    RoomsAbsolute(rooms, LiveIds(s.objects));
    PlaceAllKnown(s, r);
    PlaceAllKeys(s, r);
    PlaceAllLive(s, r);
    PlaceAllKnown(PlaceAll(s, r), rest);
    PlaceAllAppend(s, r, rest);
  }

  /** The map completes when every obstacle's room is live beforehand or a room of the document. */
  lemma MapCompletes(s: Staged, w: WorldSpec, spot: Option<Vec3>)
    ensures s.ok && ObstacleRoomsKnown(w.obstacles, LiveIds(s.objects) + Ids(RoomPlacements(w.rooms))) ==>
              PlaceAll(s, MapPlacements(w, spot)).ok
  {
    var known := LiveIds(s.objects) + Ids(RoomPlacements(w.rooms));
    if s.ok && ObstacleRoomsKnown(w.obstacles, known) {
      var z, obs := SafeZonePart(spot), ObstaclePlacements(w.obstacles);
      ObstacleRoomsIn(w.obstacles, known);
      RoomsInAppend(z, obs, known);
      assert MapPlacements(w, spot) == RoomPlacements(w.rooms) + (z + obs);
      AfterRooms(s, w.rooms, z + obs);
    }
  }

  /** WorldPlacements' rooms first, then everything placed relative to them. */
  lemma Regroup<T>(a: seq<T>, b: seq<T>, c: seq<T>, d: seq<T>, e: seq<T>)
    ensures a + b + c + d + e == a + (b + c + d + e)
  {
  }

  /** The whole registration completes when every room reference resolves (RoomsResolve). */
  lemma WorldCompletes(s: Staged, w: WorldSpec, spot: Option<Vec3>, o: EntityOffsets)
    requires OffsetsFit(w, o)
    ensures s.ok && RoomsResolve(w, LiveIds(s.objects)) ==> PlaceAll(s, WorldPlacements(w, spot, o)).ok
  {
    var known := LiveIds(s.objects) + Ids(RoomPlacements(w.rooms));
    if s.ok && RoomsResolve(w, LiveIds(s.objects)) {
      var z, obs := SafeZonePart(spot), ObstaclePlacements(w.obstacles);
      var e, rs := EntityPlacements(w, o), RobotPlacements(w.robots);
      ObstacleRoomsIn(w.obstacles, known);
      EntityRoomsIn(w, o, known);
      RobotRoomsIn(w.robots, known);
      RoomsInAppend(z, obs, known);
      RoomsInAppend(z + obs, e, known);
      RoomsInAppend(z + obs + e, rs, known);
      Regroup(RoomPlacements(w.rooms), z, obs, e, rs);
      AfterRooms(s, w.rooms, z + obs + e + rs);
    }
  }

  /**
   * After a completed obstacles loop, the last obstacle under an id is
   * registered inactive, not a fire, mapped to its room, and centred on its
   * box's x and z, 0.5 above where its room stood (unless the loop itself
   * overwrote that room).
   */
  lemma ObstacleRegistered(s: Staged, obs: seq<ObstacleSpec>, i: int)
    requires 0 <= i < |obs| && PlaceAll(s, ObstaclePlacements(obs)).ok
    requires forall j :: i < j < |obs| ==> obs[j].id != obs[i].id
    ensures var r := PlaceAll(s, ObstaclePlacements(obs));
            obs[i].id in r.objects && obs[i].id in r.rooms && r.rooms[obs[i].id] == obs[i].room
            && !r.objects[obs[i].id].active && !r.objects[obs[i].id].fire && r.objects[obs[i].id].live
    ensures obs[i].room in s.objects && obs[i].room !in Ids(ObstaclePlacements(obs)) ==>
              PlaceAll(s, ObstaclePlacements(obs)).objects[obs[i].id].pos
                == Add(s.objects[obs[i].room].pos, Vec3((obs[i].min.x + obs[i].max.x) / 2.0, 0.5, (obs[i].min.z + obs[i].max.z) / 2.0))
  {
    var ps := ObstaclePlacements(obs);
    assert LastOf(ps, i);
    PlaceAllLast(s, ps, i);
  }

  /**
   * After a completed SpawnList loop, the last entity under an id is
   * registered inactive, a fire exactly when the list is the fires, mapped
   * to its room, and within 3 on x and z and 0.5 above where its room stood
   * (unless the loop itself overwrote that room).
   */
  lemma SpawnRegistered(s: Staged, list: seq<PlacedSpec>, offsets: seq<(real, real)>, isFire: bool, i: int)
    requires |offsets| == |list| && WithinSpread(offsets, SpawnSpread)
    requires 0 <= i < |list| && PlaceAll(s, SpawnPlacements(list, offsets, isFire)).ok
    requires forall j :: i < j < |list| ==> list[j].id != list[i].id
    ensures var r := PlaceAll(s, SpawnPlacements(list, offsets, isFire));
            list[i].id in r.objects && list[i].id in r.rooms && r.rooms[list[i].id] == list[i].room
            && !r.objects[list[i].id].active && r.objects[list[i].id].fire == isFire && r.objects[list[i].id].live
    ensures list[i].room in s.objects && list[i].room !in Ids(SpawnPlacements(list, offsets, isFire)) ==>
              PlacedNear(PlaceAll(s, SpawnPlacements(list, offsets, isFire)).objects[list[i].id].pos,
                         s.objects[list[i].room].pos, SpawnSpread)
  {
    var ps := SpawnPlacements(list, offsets, isFire);
    assert LastOf(ps, i);
    PlaceAllLast(s, ps, i);
  }

  /**
   * After a completed robots loop, the last robot under an id is registered
   * active, mapped to its room, and 0.5 above where its room stood (unless
   * the loop itself overwrote that room).
   */
  lemma RobotRegistered(s: Staged, list: seq<PlacedSpec>, i: int)
    requires 0 <= i < |list| && PlaceAll(s, RobotPlacements(list)).ok
    requires forall j :: i < j < |list| ==> list[j].id != list[i].id
    ensures var r := PlaceAll(s, RobotPlacements(list));
            list[i].id in r.objects && list[i].id in r.rooms && r.rooms[list[i].id] == list[i].room
            && r.objects[list[i].id].active && r.objects[list[i].id].live
    ensures list[i].room in s.objects && list[i].room !in Ids(RobotPlacements(list)) ==>
              PlaceAll(s, RobotPlacements(list)).objects[list[i].id].pos == Add(s.objects[list[i].room].pos, Vec3(0.0, 0.5, 0.0))
  {
    var ps := RobotPlacements(list);
    assert LastOf(ps, i);
    PlaceAllLast(s, ps, i);
  }

  /** A level heading (x, 0, z) of unit length. */
  predicate UnitHeading(x: real, z: real)
  {
    x * x + z * z == 1.0
  }

  /** Random.Range(-spread, spread) for both offsets of every draw. */
  predicate WithinSpread(offsets: seq<(real, real)>, spread: real)
  {
    forall i :: 0 <= i < |offsets| ==> -spread <= offsets[i].0 <= spread && -spread <= offsets[i].1 <= spread
  }

  predicate PlacedRoomsKnown(list: seq<PlacedSpec>, known: set<string>)
  {
    forall i :: 0 <= i < |list| ==> list[i].room in known
  }

  predicate ObstacleRoomsKnown(obs: seq<ObstacleSpec>, known: set<string>)
  {
    forall i :: 0 <= i < |obs| ==> obs[i].room in known
  }

  predicate EntitiesKnown(w: WorldSpec, known: set<string>)
  {
    PlacedRoomsKnown(w.fires, known) && PlacedRoomsKnown(w.kits, known)
    && PlacedRoomsKnown(w.survivors, known) && PlacedRoomsKnown(w.extinguishers, known)
  }

  /** Every room the document refers to is a room of the document or was registered before. */
  predicate RoomsResolve(w: WorldSpec, known: set<string>)
  {
    var all := known + Ids(RoomPlacements(w.rooms));
    ObstacleRoomsKnown(w.obstacles, all) && EntitiesKnown(w, all) && PlacedRoomsKnown(w.robots, all)
  }

  /** A unit level heading that points along the level direction flat (Quaternion.LookRotation(flat)). */
  predicate LooksAlong(heading: (real, real), flat: Vec3)
  {
    UnitHeading(heading.0, heading.1)
    && heading.0 * flat.z == heading.1 * flat.x
    && heading.0 * flat.x + heading.1 * flat.z > 0.0
  }

  /**
   * A new active fire was written under `name`, near the live
   * "Room"-prefixed room `room`, and nothing else changed (registry m,
   * enumeration order k and entity-to-room map r, before and after).
   */
  predicate FireSpawned(m0: map<string, Entity>, k0: seq<string>, r0: map<string, string>,
                        m1: map<string, Entity>, k1: seq<string>, r1: map<string, string>,
                        name: string, room: string)
  {
    room in m0 && IsRoomId(room) && m0[room].live
    && |name| == 7 && name[..4] == "Fire" && (forall i :: 4 <= i < 7 ==> '0' <= name[i] <= '9')
    && 100 <= Value3(name[4..]) < 999
    && name in m1 && m1 == m0[name := m1[name]]
    && k1 == (if name in m0 then k0 else k0 + [name])
    && r1 == r0[name := room]
    && var e := m1[name];
       e.active && e.fire && e.live && e.parent == None && PlacedNear(e.pos, m0[room].pos, SpawnSpread)
  }

  /**
   * What SpawnFire does: without a "Room"-prefixed id nothing; when the room
   * drawn is destroyed the lookup throws (`ok` false) and nothing changes;
   * else a fire is spawned in it (`spawned` names the fire and the room).
   */
  predicate SpawnEffect(m0: map<string, Entity>, k0: seq<string>, r0: map<string, string>,
                        ok: bool, spawned: Option<(string, string)>,
                        m1: map<string, Entity>, k1: seq<string>, r1: map<string, string>)
  {
    if !ok then
      spawned == None && m1 == m0 && k1 == k0 && r1 == r0
      && exists k :: k in m0 && IsRoomId(k) && !m0[k].live
    else if spawned.None? then
      m1 == m0 && k1 == k0 && r1 == r0 && forall k :: k in m0 ==> !IsRoomId(k)
    else
      FireSpawned(m0, k0, r0, m1, k1, r1, spawned.value.0, spawned.value.1)
  }

  /** Live obstacle `id` moved by at most 0.5 on x and z, at the same height, and nothing else changed. */
  predicate ObstacleNudgedFrom(m0: map<string, Entity>, m1: map<string, Entity>, id: string)
  {
    id in m0 && IsObstacleId(id) && m0[id].live && id in m1
    && m1 == m0[id := m1[id]]
    && var p, q := m0[id].pos, m1[id].pos;
       m1[id] == m0[id].(pos := q)
       && p.x - NudgeSpread <= q.x <= p.x + NudgeSpread && q.y == p.y && p.z - NudgeSpread <= q.z <= p.z + NudgeSpread
  }

  /** What NudgeRandomObstacle does: at most one obstacle nudged, none without "Obstacle"-prefixed ids. */
  predicate Nudged(m0: map<string, Entity>, m1: map<string, Entity>)
  {
    (m1 == m0 || exists id :: id in m0 && ObstacleNudgedFrom(m0, m1, id))
    && ((forall k :: k in m0 ==> !IsObstacleId(k)) ==> m1 == m0)
  }

  /**
   * What DynamicTickOnStep does with the two Random.value rolls: nothing
   * while disabled; a spawn (SpawnEffect, reaching registry `mid`) on a
   * spawn roll below 0.40; then, unless the spawn threw, a nudge on a nudge
   * roll below 0.20.
   */
  predicate TickEffect(m0: map<string, Entity>, k0: seq<string>, r0: map<string, string>,
                       enabled: bool, spawnRoll: real, nudgeRoll: real,
                       ok: bool, spawned: Option<(string, string)>, mid: map<string, Entity>,
                       m1: map<string, Entity>, k1: seq<string>, r1: map<string, string>)
  {
    if !enabled || spawnRoll >= 0.40 then
      ok && spawned == None && mid == m0 && k1 == k0 && r1 == r0
      && (!enabled || nudgeRoll >= 0.20 ==> m1 == m0)
      && (enabled && nudgeRoll < 0.20 ==> Nudged(m0, m1))
    else
      SpawnEffect(m0, k0, r0, ok, spawned, mid, k1, r1)
      && (!ok || nudgeRoll >= 0.20 ==> m1 == mid)
      && (ok && nudgeRoll < 0.20 ==> Nudged(mid, m1))
  }

  /** Every robot's reveal scan in list order, each from its pose in the registry as the scans before it left it. */
  function RevealFold(m: map<string, Entity>, rs: seq<RobotAgent>, angle: AngleFn): map<string, Entity>
    reads rs
    decreases |rs|
  {
    if rs == [] then m
    else
      var prev := RevealFold(m, rs[..|rs| - 1], angle);
      var r := rs[|rs| - 1];
      if r.id in prev then Revealed(prev, r.id, Eye(prev[r.id].pos, r.Forward(), r.fovDeg, r.range), angle) else prev
  }

  /**
   * The reveal scans of the robots keep every id and every entry except its
   * active flag, and only switch entries on: nothing visible before is
   * hidden by them.
   */
  lemma {:induction false} RevealFoldOnlyActivates(m: map<string, Entity>, rs: seq<RobotAgent>, angle: AngleFn)
    ensures RevealFold(m, rs, angle).Keys == m.Keys
    ensures forall k :: k in m ==> RevealFold(m, rs, angle)[k] == m[k].(active := RevealFold(m, rs, angle)[k].active)
    ensures forall k :: k in m && m[k].active ==> RevealFold(m, rs, angle)[k].active
    decreases |rs|
  {
    if rs != [] {
      var prev := RevealFold(m, rs[..|rs| - 1], angle);
      var r := rs[|rs| - 1];
      RevealFoldOnlyActivates(m, rs[..|rs| - 1], angle);
      if r.id in prev {
        RevealOnlyActivates(prev, r.id, Eye(prev[r.id].pos, r.Forward(), r.fovDeg, r.range), angle);
      }
    }
  }

  class WorldBuilder {
    var id2obj: map<string, Entity>
    var keys: seq<string>
    var entityRoom: map<string, string>
    var robots: seq<RobotAgent>
    var selected: RobotAgent?
    /** The registry id of the safe zone, once one has been created. */
    var safeZone: Option<string>

    const obstacleTag: string
    const floorTag: string
    const keyStepMeters: real
    const robot1FovDeg: real
    const robot1Range: real
    const robot2FovDeg: real
    const robot2Range: real

    var dynamicsEnabled: bool
    var onStepChanges: bool
    var fireSpreadSeconds: int
    var spread: Option<int>
    var pauses: seq<PauseTask>

    /** `keys` lists the registry's ids once each, in insertion order. */
    ghost predicate KeysValid()
      reads this`keys, this`id2obj
    {
      (forall i, j :: 0 <= i < j < |keys| ==> keys[i] != keys[j])
      && (forall k :: k in id2obj <==> k in keys)
    }

    /** Every robot belongs to this builder and has a registry entry. */
    ghost predicate Valid()
      reads this`keys, this`id2obj, this`robots
    {
      KeysValid()
      && forall r :: r in robots ==> r.builder == this && r.id in id2obj
    }

    /** A builder with the Inspector defaults and an empty world. */
    constructor ()
      ensures Valid()
      ensures id2obj == map[] && keys == [] && entityRoom == map[] && robots == [] && selected == null && safeZone == None
      ensures obstacleTag == "Obstacle" && floorTag == "Floor" && keyStepMeters == 2.0
      ensures robot1FovDeg == 120.0 && robot1Range == 10.0 && robot2FovDeg == 140.0 && robot2Range == 14.0
      ensures dynamicsEnabled && onStepChanges && fireSpreadSeconds == 45 && spread == None && pauses == []
    {
      id2obj, keys, entityRoom, robots, selected, safeZone := map[], [], map[], [], null, None;
      obstacleTag, floorTag, keyStepMeters := "Obstacle", "Floor", 2.0;
      robot1FovDeg, robot1Range, robot2FovDeg, robot2Range := 120.0, 10.0, 140.0, 14.0;
      dynamicsEnabled, onStepChanges, fireSpreadSeconds := true, true, 45;
      spread, pauses := None, [];
    }

    /** The selected robot's id, if one is selected. */
    function SelectedId(): Option<string>
      reads this
    {
      if selected == null then None else Some(selected.id)
    }

    /** `safeZone != null` in Unity's sense: set, and its object not destroyed. */
    predicate SafeZoneLive()
      reads this`safeZone, this`id2obj
    {
      safeZone.Some? && safeZone.value in id2obj && id2obj[safeZone.value].live
    }

    /** `id2obj[id] = e`: overwrites in place, or appends a new id to the enumeration order. */
    method Put(id: string, e: Entity)
      requires Valid()
      modifies this`id2obj, this`keys
      ensures Valid()
      ensures id2obj == old(id2obj)[id := e]
      ensures keys == if id in old(id2obj) then old(keys) else old(keys) + [id]
    {
      if id !in id2obj {
        keys := keys + [id];
      }
      id2obj := id2obj[id := e];
    }

    // ------------------------------------------------------------ ingestion

    /** The registry and the entity-to-room map, as one value. */
    function Stage(): Staged
      reads this
    {
      Staged(id2obj, entityRoom, true)
    }

    /** One iteration of a registration loop (see Ingest.PlaceStep). */
    method Place(p: Placement) returns (ok: bool)
      requires Valid()
      modifies this`id2obj, this`keys, this`entityRoom
      ensures Valid()
      ensures Staged(id2obj, entityRoom, ok) == PlaceStep(old(Stage()), p)
      ensures old(id2obj).Keys <= id2obj.Keys
    {
      if p.room.None? {
        Put(p.id, Fresh(p.offset, p.active, p.fire));
        return true;
      }
      var room := p.room.value;
      if room !in id2obj || !id2obj[room].live {
        return false;
      }
      var origin := id2obj[room].pos;
      Put(p.id, Fresh(Add(origin, p.offset), p.active, p.fire));
      entityRoom := entityRoom[p.id := room];
      return true;
    }

    /**
     * A registration loop: the placements in order, stopping at the first
     * room that does not resolve (the C# throws there).
     */
    method PlaceEach(ps: seq<Placement>) returns (ok: bool)
      requires Valid()
      modifies this`id2obj, this`keys, this`entityRoom
      ensures Valid()
      ensures Staged(id2obj, entityRoom, ok) == PlaceAll(old(Stage()), ps)
      ensures old(id2obj).Keys <= id2obj.Keys
      ensures ok ==> id2obj.Keys == old(id2obj).Keys + Ids(ps)
      ensures RoomsIn(ps, LiveIds(old(id2obj))) ==> ok
    {
      ghost var s0 := Stage();
      PlaceAllKeys(s0, ps);
      PlaceAllKnown(s0, ps);
      for n := 0 to |ps|
        invariant Valid()
        invariant Stage() == PlaceAll(s0, ps[..n])
      {
        assert ps[..n + 1][..n] == ps[..n];
        ok := Place(ps[n]);
        if !ok {
          PlaceAllStuck(s0, ps, n + 1);
          return;
        }
      }
      assert ps[..|ps|] == ps;
      return true;
    }

    /** The rooms loop: every room is registered. */
    method RegisterRooms(rooms: seq<RoomSpec>)
      requires Valid()
      modifies this`id2obj, this`keys, this`entityRoom
      ensures Valid()
      ensures Stage() == PlaceAll(old(Stage()), RoomPlacements(rooms))
      ensures id2obj.Keys == old(id2obj).Keys + Ids(RoomPlacements(rooms))
    {
      RoomsAbsolute(rooms, LiveIds(id2obj));
      var ok := PlaceEach(RoomPlacements(rooms));
    }

    /** The loop that finds the smallest room z and places the safe zone 6 units beyond it. */
    method SafeZoneSpot(rooms: seq<RoomSpec>) returns (p: Vec3)
      ensures SafeZoneFits(p, rooms)
    {
      var minZ := 0.0;
      var found := false;
      for n := 0 to |rooms|
        invariant found <==> n > 0
        invariant n > 0 ==> exists i :: 0 <= i < n && rooms[i].pos.z == minZ
        invariant forall i :: 0 <= i < n ==> rooms[i].pos.z >= minZ
      {
        if !found {
          minZ := rooms[n].pos.z;
          found := true;
        } else if rooms[n].pos.z < minZ {
          minZ := rooms[n].pos.z;
        }
      }
      p := if found then Vec3(0.0, 0.5, minZ - 6.0) else Vec3(0.0, 0.5, -12.0);
    }

    /** The obstacles loop. */
    method RegisterObstacles(obs: seq<ObstacleSpec>) returns (ok: bool)
      requires Valid()
      modifies this`id2obj, this`keys, this`entityRoom
      ensures Valid()
      ensures Staged(id2obj, entityRoom, ok) == PlaceAll(old(Stage()), ObstaclePlacements(obs))
      ensures old(id2obj).Keys <= id2obj.Keys
      ensures ObstacleRoomsKnown(obs, LiveIds(old(id2obj))) ==> ok
    {
      ObstacleRoomsIn(obs, LiveIds(id2obj));
      ok := PlaceEach(ObstaclePlacements(obs));
    }

    /** SpawnList: one entity list, each at its own random offset (`offsets`) from its room. */
    method SpawnList(list: seq<PlacedSpec>, isFire: bool) returns (ok: bool, ghost offsets: seq<(real, real)>)
      requires Valid()
      modifies this`id2obj, this`keys, this`entityRoom
      ensures Valid()
      ensures |offsets| == |list| && WithinSpread(offsets, SpawnSpread)
      ensures Staged(id2obj, entityRoom, ok) == PlaceAll(old(Stage()), SpawnPlacements(list, offsets, isFire))
      ensures old(id2obj).Keys <= id2obj.Keys
      ensures PlacedRoomsKnown(list, LiveIds(old(id2obj))) ==> ok
    {
      ghost var none := Zeros(|list|);
      var drawn: seq<(real, real)> :| |drawn| == |list| && WithinSpread(drawn, SpawnSpread);
      SpawnRoomsIn(list, drawn, isFire, LiveIds(id2obj));
      ok := PlaceEach(SpawnPlacements(list, drawn, isFire));
      offsets := drawn;
    }

    /** The four entity lists, in the order fires, first-aid kits, survivors, extinguishers. */
    method SpawnEntities(w: WorldSpec) returns (ok: bool, ghost offs: EntityOffsets)
      requires Valid()
      modifies this`id2obj, this`keys, this`entityRoom
      ensures Valid()
      ensures OffsetsFit(w, offs)
      ensures Staged(id2obj, entityRoom, ok) == PlaceAll(old(Stage()), EntityPlacements(w, offs))
      ensures EntitiesKnown(w, LiveIds(old(id2obj))) ==> ok
    {
      ghost var s0 := Stage();
      offs := NoOffsets(w);
      ghost var fo, ko, so, eo := offs.fires, offs.kits, offs.survivors, offs.extinguishers;
      ok, fo := SpawnList(w.fires, true);
      ghost var t1 := Staged(id2obj, entityRoom, ok);
      if ok {
        ok, ko := SpawnList(w.kits, false);
      } else {
        PlaceAllKeys(t1, SpawnPlacements(w.kits, ko, false));
      }
      ghost var t2 := Staged(id2obj, entityRoom, ok);
      assert t2 == PlaceAll(t1, SpawnPlacements(w.kits, ko, false));
      if ok {
        ok, so := SpawnList(w.survivors, false);
      } else {
        PlaceAllKeys(t2, SpawnPlacements(w.survivors, so, false));
      }
      ghost var t3 := Staged(id2obj, entityRoom, ok);
      assert t3 == PlaceAll(t2, SpawnPlacements(w.survivors, so, false));
      if ok {
        ok, eo := SpawnList(w.extinguishers, false);
      } else {
        PlaceAllKeys(t3, SpawnPlacements(w.extinguishers, eo, false));
      }
      offs := EntityOffsets(fo, ko, so, eo);
      EntityChain(s0, w, offs);
      EntitiesComplete(s0, w, offs);
    }

    /**
     * The robot list a registration leaves: the old list, and no success,
     * when it stopped before the robots loop (`started` false); otherwise a
     * fresh agent for each entry the loop got through, which is every entry
     * when it succeeded (`ok`).
     */
    twostate predicate RobotsLeft(list: seq<PlacedSpec>, started: bool, ok: bool)
      reads this`robots
    {
      (!started ==> robots == old(robots) && !ok)
      && (started ==> |robots| <= |list| && (ok ==> |robots| == |list|)
                      && forall i :: 0 <= i < |robots| ==> fresh(robots[i]) && NewAgent(robots[i], list[i]))
    }

    /** An agent as the robots loop creates it for entry p (its initial action state is the constructor's). */
    predicate NewAgent(r: RobotAgent, p: PlacedSpec)
    {
      r.id == p.id && r.builder == this && r.fovDeg == FovFor(p.id) && r.range == RangeFor(p.id)
    }

    /** robot1's field of view for the id "robot1", robot2's for any other. */
    function FovFor(id: string): real
    {
      if id == "robot1" then robot1FovDeg else robot2FovDeg
    }

    /** robot1's view range for the id "robot1", robot2's for any other. */
    function RangeFor(id: string): real
    {
      if id == "robot1" then robot1Range else robot2Range
    }

    /** One iteration of the robots loop whose room resolves: a new agent, registered and listed. */
    method AddRobot(p: PlacedSpec) returns (agent: RobotAgent)
      requires Valid() && p.room in id2obj && id2obj[p.room].live
      modifies this`id2obj, this`keys, this`entityRoom, this`robots
      ensures Valid()
      ensures Stage() == PlaceStep(old(Stage()), RobotPlacement(p))
      ensures fresh(agent) && NewAgent(agent, p) && robots == old(robots) + [agent]
    {
      if p.id == "robot1" {
        agent := new RobotAgent(p.id, this, robot1FovDeg, robot1Range);
      } else {
        agent := new RobotAgent(p.id, this, robot2FovDeg, robot2Range);
      }
      var ok := Place(RobotPlacement(p));
      robots := robots + [agent];
    }

    /**
     * The robots loop: the robot list is replaced by a fresh agent per
     * entry, with robot1's field of view for the id "robot1" and robot2's
     * for any other id, each registered as it is created.
     */
    method RegisterRobots(list: seq<PlacedSpec>) returns (ok: bool)
      requires Valid()
      modifies this`id2obj, this`keys, this`entityRoom, this`robots
      ensures Valid()
      ensures Staged(id2obj, entityRoom, ok) == PlaceAll(old(Stage()), RobotPlacements(list))
      ensures RobotsLeft(list, true, ok)
      ensures old(id2obj).Keys <= id2obj.Keys
      ensures PlacedRoomsKnown(list, LiveIds(old(id2obj))) ==> ok
    {
      ghost var s0 := Stage();
      var ps := RobotPlacements(list);
      robots := [];
      for n := 0 to |list|
        invariant Valid()
        invariant Stage() == PlaceAll(s0, ps[..n])
        invariant |robots| == n
        invariant RobotsLeft(list, true, false)
      {
        assert ps[..n + 1][..n] == ps[..n];
        assert ps[n] == RobotPlacement(list[n]);
        ghost var before := robots;
        ok := RobotStep(list[n]);
        if !ok {
          PlaceAllStuck(s0, ps, n + 1);
          RobotsKnown(s0, list);
          return;
        }
        forall i | 0 <= i < n + 1
          ensures fresh(robots[i]) && NewAgent(robots[i], list[i])
        {
          if i < n {
            assert robots[i] == before[i];
          }
        }
      }
      assert ps[..|ps|] == ps;
      RobotsKnown(s0, list);
      return true;
    }

    /** One iteration of the robots loop: a new agent when the room lookup resolves (see AddRobot), else the lookup throws. */
    method RobotStep(p: PlacedSpec) returns (ok: bool)
      requires Valid()
      modifies this`id2obj, this`keys, this`entityRoom, this`robots
      ensures Valid()
      ensures Staged(id2obj, entityRoom, ok) == PlaceStep(old(Stage()), RobotPlacement(p))
      ensures ok ==> |robots| == |old(robots)| + 1 && robots[..|old(robots)|] == old(robots)
                     && fresh(robots[|old(robots)|]) && NewAgent(robots[|old(robots)|], p)
      ensures !ok ==> robots == old(robots)
    {
      if p.room !in id2obj || !id2obj[p.room].live {
        ok := Place(RobotPlacement(p));
        return;
      }
      var agent := AddRobot(p);
      return true;
    }

    /**
     * The map part of BuildFromSpec: rooms, then the safe zone when there is
     * none (`spot` is where it was created), then obstacles.
     */
    method RegisterMap(w: WorldSpec) returns (ok: bool, ghost spot: Option<Vec3>)
      requires Valid()
      modifies this`id2obj, this`keys, this`entityRoom, this`safeZone
      ensures Valid()
      ensures spot.Some? <==> !old(SafeZoneLive())
      ensures spot.Some? ==> SafeZoneFits(spot.value, w.rooms) && safeZone == Some("SafeZone")
      ensures spot.None? ==> safeZone == old(safeZone)
      ensures Staged(id2obj, entityRoom, ok) == PlaceAll(old(Stage()), MapPlacements(w, spot))
      ensures ObstacleRoomsKnown(w.obstacles, LiveIds(old(id2obj)) + Ids(RoomPlacements(w.rooms))) ==> ok
    {
      ghost var s0 := Stage();
      var missing := !SafeZoneLive();
      RegisterRooms(w.rooms);
      ghost var s1 := Stage();
      spot := None;
      if missing {
        var p := SafeZoneSpot(w.rooms);
        var _ := Place(SafeZonePlacement(p));
        safeZone := Some("SafeZone");
        spot := Some(p);
        assert SafeZonePart(spot)[..0] == [];
      }
      assert Stage() == PlaceAll(s1, SafeZonePart(spot));
      ok := RegisterObstacles(w.obstacles);
      MapChain(s0, w, spot);
      MapCompletes(s0, w, spot);
    }

    /**
     * The registration part of BuildFromSpec: the map, the four entity lists
     * and the robots, as the one loop WorldPlacements. A room reference that
     * does not resolve stops it where it occurs, with `ok` false.
     */
    method RegisterWorld(w: WorldSpec) returns (ok: bool, ghost spot: Option<Vec3>, ghost offs: EntityOffsets)
      requires Valid()
      modifies this`id2obj, this`keys, this`entityRoom, this`robots, this`safeZone
      ensures Valid()
      ensures spot.Some? <==> !old(SafeZoneLive())
      ensures spot.Some? ==> SafeZoneFits(spot.value, w.rooms) && safeZone == Some("SafeZone")
      ensures spot.None? ==> safeZone == old(safeZone)
      ensures OffsetsFit(w, offs)
      ensures Staged(id2obj, entityRoom, ok) == PlaceAll(old(Stage()), WorldPlacements(w, spot, offs))
      ensures RoomsResolve(w, LiveIds(old(id2obj))) ==> ok
      ensures RobotsLeft(w.robots, PlaceAll(PlaceAll(old(Stage()), MapPlacements(w, spot)), EntityPlacements(w, offs)).ok, ok)
    {
      ghost var s0 := Stage();
      offs := NoOffsets(w);
      ok, spot := RegisterMap(w);
      ghost var t1 := Staged(id2obj, entityRoom, ok);
      if ok {
        ok, offs := SpawnEntities(w);
      } else {
        PlaceAllKeys(t1, EntityPlacements(w, offs));
      }
      ghost var t2 := Staged(id2obj, entityRoom, ok);
      assert t2 == PlaceAll(t1, EntityPlacements(w, offs));
      if ok {
        ok := RegisterRobots(w.robots);
      } else {
        PlaceAllKeys(t2, RobotPlacements(w.robots));
      }
      WorldChain(s0, w, spot, offs);
      WorldCompletes(s0, w, spot, offs);
    }

    /**
     * BuildFromSpec over a parsed document: the registration, then every
     * robot's reveal scan, the first robot selected and the spread loop
     * restarted.
     */
    method BuildFromSpec(w: WorldSpec, phys: Physics) returns (ok: bool, ghost spot: Option<Vec3>, ghost offs: EntityOffsets)
      requires Valid()
      modifies this`id2obj, this`keys, this`entityRoom, this`robots, this`selected, this`safeZone, this`spread
      ensures Valid()
      ensures spot.Some? <==> !old(SafeZoneLive())
      ensures spot.Some? ==> SafeZoneFits(spot.value, w.rooms) && safeZone == Some("SafeZone")
      ensures spot.None? ==> safeZone == old(safeZone)
      ensures OffsetsFit(w, offs)
      ensures var r := PlaceAll(old(Stage()), WorldPlacements(w, spot, offs));
              ok == r.ok && entityRoom == r.rooms
              && id2obj == if ok then RevealFold(r.objects, robots, phys.angle) else r.objects
      ensures RoomsResolve(w, LiveIds(old(id2obj))) ==> ok
      ensures RobotsLeft(w.robots, PlaceAll(PlaceAll(old(Stage()), MapPlacements(w, spot)), EntityPlacements(w, offs)).ok, ok)
      ensures ok ==> selected == (if robots == [] then old(selected) else robots[0])
      ensures ok ==> spread == (if dynamicsEnabled then Some(SpreadWait(fireSpreadSeconds)) else None)
      ensures !ok ==> selected == old(selected) && spread == old(spread)
    {
      ok, spot, offs := RegisterWorld(w);
      if ok {
        StartWorld(phys);
      }
    }

    /** The end of BuildFromSpec: every robot's reveal scan, the first robot selected, the spread loop restarted. */
    method StartWorld(phys: Physics)
      requires Valid()
      modifies this`id2obj, this`selected, this`spread
      ensures Valid()
      ensures id2obj == RevealFold(old(id2obj), robots, phys.angle)
      ensures selected == (if robots == [] then old(selected) else robots[0])
      ensures spread == (if dynamicsEnabled then Some(SpreadWait(fireSpreadSeconds)) else None)
    {
      RevealAllRobots(phys);
      if |robots| > 0 {
        selected := robots[0];
      }
      RestartSpreadLoop();
    }

    /** Every robot's reveal scan, in list order (see RevealFold). */
    method RevealAllRobots(phys: Physics)
      requires Valid()
      modifies this`id2obj
      ensures Valid()
      ensures id2obj == RevealFold(old(id2obj), robots, phys.angle)
    {
      ghost var m0 := id2obj;
      for n := 0 to |robots|
        invariant Valid()
        invariant id2obj == RevealFold(m0, robots[..n], phys.angle)
      {
        assert robots[..n + 1][..n] == robots[..n];
        robots[n].RevealInFov(phys);
      }
      assert robots[..|robots|] == robots;
    }

    // ------------------------------------------------------------- commands

    /**
     * Execute: resolves the robot id, then has the robot perform the command
     * ParseAction makes of the action name (see RobotAgent.ActionOutcome).
     * An unknown robot or action changes nothing. `threw` reports that the
     * action ended in an exception, which in the C# also ends the caller.
     */
    method Execute(robot: string, action: string, target: string, phys: Physics) returns (threw: bool)
      requires Valid()
      modifies this`id2obj, this`dynamicsEnabled, this`pauses, robots
      ensures Valid()
      ensures robots == old(robots) && keys == old(keys)
      ensures var agent := FindRobot(robots, ResolveRobotId(robot, old(SelectedId())));
              agent.None? || ParseAction(action).Unknown? ==>
                id2obj == old(id2obj) && dynamicsEnabled == old(dynamicsEnabled) && pauses == old(pauses)
                && !threw && forall r :: r in robots ==> unchanged(r)
      ensures var agent := FindRobot(robots, ResolveRobotId(robot, old(SelectedId())));
              forall r :: r in robots && Some(r) != agent ==> unchanged(r)
      ensures var agent := FindRobot(robots, ResolveRobotId(robot, old(SelectedId())));
              agent.Some? ==> agent.value.ActionOutcome(ParseAction(action), target, keyStepMeters, phys, id2obj, threw)
    {
      var agent := FindRobot(robots, ResolveRobotId(robot, SelectedId()));
      if agent.None? {
        return false;
      }
      threw := agent.value.Perform(ParseAction(action), target, keyStepMeters, phys);
    }

    /**
     * What a candidate-action button does once its colour feedback is
     * stripped: Execute (leaving the registry `executed`, in which the
     * acting robot's outcome holds), then one step-coupled dynamics tick
     * when that is switched on and the action did not throw (an exception
     * ends the coroutine before the tick). The tick changes neither the
     * robots nor the pause state, so the action's outcome survives it.
     */
    method ExecuteWithFeedback(robot: string, action: string, target: string, phys: Physics, spawnRoll: real, nudgeRoll: real)
      returns (threw: bool, ghost executed: map<string, Entity>, ghost ok: bool, ghost spawned: Option<(string, string)>, ghost mid: map<string, Entity>)
      requires Valid()
      modifies this`id2obj, this`keys, this`entityRoom, this`dynamicsEnabled, this`pauses, robots
      ensures Valid()
      ensures robots == old(robots)
      ensures var agent := FindRobot(robots, ResolveRobotId(robot, old(SelectedId())));
              forall r :: r in robots && Some(r) != agent ==> unchanged(r)
      ensures var agent := FindRobot(robots, ResolveRobotId(robot, old(SelectedId())));
              agent.None? || ParseAction(action).Unknown? ==>
                executed == old(id2obj) && dynamicsEnabled == old(dynamicsEnabled) && pauses == old(pauses) && !threw
      ensures var agent := FindRobot(robots, ResolveRobotId(robot, old(SelectedId())));
              agent.Some? ==> agent.value.ActionOutcome(ParseAction(action), target, keyStepMeters, phys, executed, threw)
      ensures threw || !onStepChanges ==> id2obj == executed && keys == old(keys) && entityRoom == old(entityRoom)
      ensures !threw && onStepChanges ==>
                TickEffect(executed, old(keys), old(entityRoom), dynamicsEnabled, spawnRoll, nudgeRoll,
                           ok, spawned, mid, id2obj, keys, entityRoom)
    {
      threw := Execute(robot, action, target, phys);
      executed := id2obj;
      if threw {
        ok, spawned, mid := true, None, id2obj;
        return;
      }
      ok, spawned, mid := TickIfCoupled(spawnRoll, nudgeRoll);
    }

    /** The tail of ExecuteWithFeedback: the dynamic tick, when onStepChanges couples it to executed actions. */
    method TickIfCoupled(spawnRoll: real, nudgeRoll: real) returns (ghost ok: bool, ghost spawned: Option<(string, string)>, ghost mid: map<string, Entity>)
      requires Valid()
      modifies this`id2obj, this`keys, this`entityRoom
      ensures Valid()
      ensures !onStepChanges ==> id2obj == old(id2obj) && keys == old(keys) && entityRoom == old(entityRoom)
      ensures onStepChanges ==>
                TickEffect(old(id2obj), old(keys), old(entityRoom), dynamicsEnabled, spawnRoll, nudgeRoll,
                           ok, spawned, mid, id2obj, keys, entityRoom)
    {
      if onStepChanges {
        ok, spawned, mid := DynamicTickOnStep(spawnRoll, nudgeRoll);
      } else {
        ok, spawned, mid := true, None, id2obj;
      }
    }

    /** The collision-aware step: the clamped destination, or start when an obstacle is hit there. */
    method ClampStep(start: Vec3, delta: Vec3, phys: Physics) returns (r: Vec3)
      ensures r == StepEnd(start, delta, phys.overlapBox(Desired(start, delta)), obstacleTag)
    {
      var desired := Desired(start, delta);
      var hits := phys.overlapBox(desired);
      for i := 0 to |hits|
        invariant forall j :: 0 <= j < i ==> !Blocks(hits[j], obstacleTag)
      {
        var h := hits[i];
        if h.Gone? {
          continue;
        }
        if h.tag == obstacleTag {
          return start;
        }
        if h.tag == floorTag {
          continue;
        }
      }
      return desired;
    }

    // ------------------------------------------------------------- dynamics

    /** Stops the live spread loop, if any, and starts a fresh one only while dynamics are enabled. */
    method RestartSpreadLoop()
      modifies this`spread
      ensures spread == if dynamicsEnabled then Some(SpreadWait(fireSpreadSeconds)) else None
    {
      spread := None;
      if dynamicsEnabled {
        spread := Some(SpreadWait(fireSpreadSeconds));
      }
    }

    /**
     * The end of one wait of PeriodicFireSpread: with dynamics disabled the
     * loop ends and nothing spawns; otherwise one fire spawns (SpawnEffect)
     * and the next wait of max(1, fireSpreadSeconds) begins, unless the
     * spawn threw, which ends the loop.
     */
    method SpreadWaitElapsed() returns (ok: bool, ghost spawned: Option<(string, string)>)
      requires Valid() && spread.Some?
      modifies this`id2obj, this`keys, this`entityRoom, this`spread
      ensures Valid()
      ensures !dynamicsEnabled ==>
                ok && spawned == None && spread == None
                && id2obj == old(id2obj) && keys == old(keys) && entityRoom == old(entityRoom)
      ensures dynamicsEnabled ==>
                SpawnEffect(old(id2obj), old(keys), old(entityRoom), ok, spawned, id2obj, keys, entityRoom)
                && spread == if ok then Some(SpreadWait(fireSpreadSeconds)) else None
    {
      if !dynamicsEnabled {
        spread := None;
        return true, None;
      }
      ok, spawned := SpawnFire();
      spread := if ok then Some(SpreadWait(fireSpreadSeconds)) else None;
    }

    /**
     * The step-coupled tick (see TickEffect): nothing while disabled; else a
     * fire on a roll below 0.40 and a nudge on one below 0.20, the nudge
     * skipped when the spawn threw.
     */
    method DynamicTickOnStep(spawnRoll: real, nudgeRoll: real) returns (ok: bool, ghost spawned: Option<(string, string)>, ghost mid: map<string, Entity>)
      requires Valid()
      modifies this`id2obj, this`keys, this`entityRoom
      ensures Valid()
      ensures TickEffect(old(id2obj), old(keys), old(entityRoom), dynamicsEnabled, spawnRoll, nudgeRoll,
                         ok, spawned, mid, id2obj, keys, entityRoom)
    {
      ok, spawned, mid := true, None, id2obj;
      if !dynamicsEnabled {
        return;
      }
      if spawnRoll < 0.40 {
        ok, spawned := SpawnFire();
        mid := id2obj;
        if !ok {
          return;
        }
      }
      if nudgeRoll < 0.20 {
        NudgeRandomObstacle();
      }
    }

    /** _PauseDyn up to its wait: captures the enabled flag and switches dynamics off. */
    method PauseDynamicsBriefly(seconds: real)
      modifies this`dynamicsEnabled, this`pauses
      ensures !dynamicsEnabled
      ensures pauses == old(pauses) + [PauseTask(old(dynamicsEnabled), seconds)]
    {
      pauses := pauses + [PauseTask(dynamicsEnabled, seconds)];
      dynamicsEnabled := false;
    }

    /** The end of pause i's wait: the flag it captured is restored and the spread loop restarted. */
    method PauseElapsed(i: nat)
      requires i < |pauses|
      modifies this`dynamicsEnabled, this`pauses, this`spread
      ensures dynamicsEnabled == old(pauses[i].captured)
      ensures pauses == old(pauses[..i] + pauses[i + 1..])
      ensures spread == if dynamicsEnabled then Some(SpreadWait(fireSpreadSeconds)) else None
    {
      dynamicsEnabled := pauses[i].captured;
      pauses := pauses[..i] + pauses[i + 1..];
      RestartSpreadLoop();
    }

    /**
     * SpawnFire (see SpawnEffect): a random "Room"-prefixed id; reading the
     * position of a destroyed room throws, and `ok` is then false.
     */
    method SpawnFire() returns (ok: bool, ghost spawned: Option<(string, string)>)
      requires Valid()
      modifies this`id2obj, this`keys, this`entityRoom
      ensures Valid()
      ensures SpawnEffect(old(id2obj), old(keys), old(entityRoom), ok, spawned, id2obj, keys, entityRoom)
      ensures (forall k :: k in old(id2obj) && IsRoomId(k) ==> old(id2obj)[k].live) && (exists k :: k in old(id2obj) && IsRoomId(k)) ==>
                ok && spawned.Some?
    {
      var rooms := set k | k in id2obj && IsRoomId(k);
      if rooms == {} {
        assert forall k :: k in id2obj && IsRoomId(k) ==> k in rooms;
        return true, None;
      }
      var room :| room in rooms;
      if !id2obj[room].live {
        return false, None;
      }
      var n: int :| 100 <= n < 999;
      var dx: real :| -SpawnSpread <= dx <= SpawnSpread;
      var dz: real :| -SpawnSpread <= dz <= SpawnSpread;
      var origin := id2obj[room].pos;
      var name := FireName(n);
      Put(name, Fresh(Add(origin, Vec3(dx, 0.5, dz)), true, true));
      entityRoom := entityRoom[name := room];
      return true, Some((name, room));
    }

    /** NudgeRandomObstacle (see Nudged): a random "Obstacle"-prefixed id; a destroyed one is skipped. */
    method NudgeRandomObstacle()
      requires Valid()
      modifies this`id2obj
      ensures Valid()
      ensures id2obj.Keys == old(id2obj).Keys
      ensures Nudged(old(id2obj), id2obj)
    {
      var obstacles := set k | k in id2obj && IsObstacleId(k);
      if obstacles == {} {
        assert forall k :: k in id2obj && IsObstacleId(k) ==> k in obstacles;
        return;
      }
      var id :| id in obstacles;
      var e := id2obj[id];
      if !e.live {
        return;
      }
      var dx: real :| -NudgeSpread <= dx <= NudgeSpread;
      var dz: real :| -NudgeSpread <= dz <= NudgeSpread;
      ghost var m0 := id2obj;
      id2obj := id2obj[id := e.(pos := Add(e.pos, Vec3(dx, 0.0, dz)))];
      assert ObstacleNudgedFrom(m0, id2obj, id);
    }

    /** SetupDynamics with a payload: absent fields keep their values; no payload only restarts the loop. */
    method SetupDynamics(dyn: Option<DynamicsConfig>)
      modifies this`dynamicsEnabled, this`onStepChanges, this`fireSpreadSeconds, this`spread
      ensures dyn.None? ==> dynamicsEnabled == old(dynamicsEnabled) && onStepChanges == old(onStepChanges)
                            && fireSpreadSeconds == old(fireSpreadSeconds)
      ensures dyn.Some? ==> dynamicsEnabled == dyn.value.enabled.GetOr(old(dynamicsEnabled))
                            && onStepChanges == dyn.value.onStep.GetOr(old(onStepChanges))
                            && fireSpreadSeconds == dyn.value.fireSpreadSeconds.GetOr(old(fireSpreadSeconds))
      ensures spread == if dynamicsEnabled then Some(SpreadWait(fireSpreadSeconds)) else None
    {
      if dyn.None? {
        RestartSpreadLoop();
        return;
      }
      var d := dyn.value;
      dynamicsEnabled := d.enabled.GetOr(dynamicsEnabled);
      onStepChanges := d.onStep.GetOr(onStepChanges);
      fireSpreadSeconds := d.fireSpreadSeconds.GetOr(fireSpreadSeconds);
      RestartSpreadLoop();
    }

    /** The raw-values overload of SetupDynamics: all three values replaced, then the loop restarted. */
    method SetupDynamicsWith(enabled: bool, onStep: bool, spreadSeconds: int)
      modifies this`dynamicsEnabled, this`onStepChanges, this`fireSpreadSeconds, this`spread
      ensures dynamicsEnabled == enabled && onStepChanges == onStep && fireSpreadSeconds == spreadSeconds
      ensures spread == if enabled then Some(SpreadWait(spreadSeconds)) else None
    {
      dynamicsEnabled, onStepChanges, fireSpreadSeconds := enabled, onStep, spreadSeconds;
      RestartSpreadLoop();
    }
  }

  class RobotAgent {
    const id: string
    const builder: WorldBuilder
    const fovDeg: real
    const range: real

    var hasExtinguisher: bool
    var holdingId: Option<string>
    var target: Option<Target>
    /** The level heading (transform.forward is (hx, 0, hz)). */
    var hx: real
    var hz: real

    /** An agent as the robots loop sets it up: the given id, builder and field of view, nothing held, facing +z. */
    constructor (id: string, builder: WorldBuilder, fovDeg: real, range: real)
      ensures this.id == id && this.builder == builder && this.fovDeg == fovDeg && this.range == range
      ensures !hasExtinguisher && holdingId == None && target == None
      ensures hx == 0.0 && hz == 1.0
    {
      this.id, this.builder, this.fovDeg, this.range := id, builder, fovDeg, range;
      hasExtinguisher, holdingId, target := false, None, None;
      hx, hz := 0.0, 1.0;
    }

    function Forward(): Vec3
      reads this
    {
      Vec3(hx, 0.0, hz)
    }

    /** The robot's position: its own registry entry. */
    function Position(): Vec3
      reads builder
      requires id in builder.id2obj
    {
      builder.id2obj[id].pos
    }

    function CurrentEye(): Eye
      reads this, builder
      requires id in builder.id2obj
    {
      Eye(Position(), Forward(), fovDeg, range)
    }

    /** Where the robot carries an object: localPosition (0, 1, 0.6) under the robot. */
    function CarryPoint(): Vec3
      reads this, builder
      requires id in builder.id2obj
    {
      Add(Add(Position(), Vec3(0.0, CarryHeight, 0.0)), Scale(Forward(), CarryReach))
    }

    /** The position of the movement target; a followed object that is gone or destroyed is no target. */
    function TargetPoint(): (p: Option<Vec3>)
      reads this, builder
      ensures target.None? ==> p.None?
      ensures target.Some? && target.value.Ghost? ==> p == Some(target.value.at)
      ensures target.Some? && target.value.Follow? ==>
                (p.Some? <==> target.value.id in builder.id2obj && builder.id2obj[target.value.id].live)
                && (p.Some? ==> p.value == builder.id2obj[target.value.id].pos)
    {
      match target
      case None => None
      case Some(Ghost(at, _)) => Some(at)
      case Some(Follow(t)) => if t in builder.id2obj && builder.id2obj[t].live then Some(builder.id2obj[t].pos) else None
    }

    /** From the robot to its target, levelled at the robot's height: the way Update moves. */
    function TravelOffset(): Vec3
      reads this, builder
      requires id in builder.id2obj && TargetPoint().Some?
    {
      var p, t := Position(), TargetPoint().value;
      Sub(Vec3(t.x, p.y, t.z), p)
    }

    // ------------------------------------------------------------- movement

    /** What MoveDir does: a waypoint ghost at the collision-checked step along dir, at the robot's height. */
    twostate predicate MoveDirOutcome(dir: string, stepMeters: real, phys: Physics, m1: map<string, Entity>)
      reads this
    {
      id in old(builder.id2obj)
      && (var p := old(builder.id2obj)[id].pos;
          var delta := Scale(DirVector(dir, old(Forward())), stepMeters);
          var dest := StepEnd(p, delta, phys.overlapBox(Desired(p, delta)), builder.obstacleTag);
          target == Some(Ghost(Vec3(dest.x, p.y, dest.z), StepGhostRadius)))
      && hasExtinguisher == old(hasExtinguisher) && holdingId == old(holdingId)
      && m1 == old(builder.id2obj)
    }

    /** MoveDir (see MoveDirOutcome). */
    method MoveDir(dir: string, stepMeters: real, phys: Physics)
      requires builder.Valid() && this in builder.robots
      modifies this`target
      ensures MoveDirOutcome(dir, stepMeters, phys, builder.id2obj)
    {
      var delta := Scale(DirVector(dir, Forward()), stepMeters);
      var dest := builder.ClampStep(Position(), delta, phys);
      target := Some(Ghost(Vec3(dest.x, Position().y, dest.z), StepGhostRadius));
    }

    /** What GoTo does: follow a registered object; an unknown id leaves the target as it was. */
    twostate predicate GoToOutcome(objId: string, m1: map<string, Entity>)
      reads this
    {
      target == (if objId in old(builder.id2obj) then Some(Follow(objId)) else old(target))
      && hasExtinguisher == old(hasExtinguisher) && holdingId == old(holdingId)
      && m1 == old(builder.id2obj)
    }

    /** GoTo (see GoToOutcome). */
    method GoTo(objId: string)
      modifies this`target
      ensures GoToOutcome(objId, builder.id2obj)
    {
      if objId in builder.id2obj {
        target := Some(Follow(objId));
      }
    }

    /**
     * One frame of Update. `progress` is how far along the straight line to
     * the (levelled) target Vector3.MoveTowards got, and `heading` is what
     * Quaternion.LookRotation made of the direction of travel. The target
     * is cleared once the robot is within 0.3 of it; then the reveal scan
     * runs from the new pose.
     */
    method Update(progress: real, heading: (real, real), phys: Physics)
      requires builder.Valid() && this in builder.robots
      requires 0.0 <= progress <= 1.0
      requires TargetPoint().Some? && SqMag(TravelOffset()) > 0.0001 ==> LooksAlong(heading, TravelOffset())
      modifies this`hx, this`hz, this`target, builder`id2obj
      ensures builder.Valid()
      ensures old(TargetPoint()).None? ==>
                hx == old(hx) && hz == old(hz) && target == old(target)
                && builder.id2obj == Revealed(old(builder.id2obj), id, old(CurrentEye()), phys.angle)
      ensures old(TargetPoint()).Some? ==>
                var p0 := old(Position());
                var goal := Vec3(old(TargetPoint()).value.x, p0.y, old(TargetPoint()).value.z);
                var p1 := Add(p0, Scale(Sub(goal, p0), progress));
                (if SqMag(Sub(goal, p0)) > 0.0001 then hx == heading.0 && hz == heading.1 else hx == old(hx) && hz == old(hz))
                && target == (if Below(SqDist(p1, goal), ArriveRadius) then None else old(target))
                && builder.id2obj == Revealed(old(builder.id2obj)[id := old(builder.id2obj)[id].(pos := p1)], id,
                                              Eye(p1, Forward(), fovDeg, range), phys.angle)
      ensures old(TargetPoint()).Some? && SqMag(old(TravelOffset())) > 0.0001 ==> LooksAlong((hx, hz), old(TravelOffset()))
    {
      var tp := TargetPoint();
      if tp.Some? {
        var p0 := Position();
        var goal := Vec3(tp.value.x, p0.y, tp.value.z);
        var p1 := Add(p0, Scale(Sub(goal, p0), progress));
        builder.id2obj := builder.id2obj[id := builder.id2obj[id].(pos := p1)];
        if SqMag(Sub(goal, p0)) > 0.0001 {
          hx, hz := heading.0, heading.1;
        }
        if Below(SqDist(p1, goal), ArriveRadius) {
          target := None;
        }
      }
      RevealInFov(phys);
    }

    /** The target is a waypoint ghost and the robot is within its despawn distance. */
    predicate GhostReached()
      reads this, builder
      requires id in builder.id2obj
    {
      target.Some? && target.value.Ghost? && Below(SqDist(Position(), target.value.at), target.value.despawn)
    }

    /** DestroyWhenClose: a waypoint ghost within its despawn distance is destroyed, so the target lapses. */
    method DestroyWhenClose()
      requires id in builder.id2obj
      modifies this`target
      ensures target == if old(GhostReached()) then None else old(target)
    {
      match target
      case Some(Ghost(at, despawn)) =>
        if Below(SqDist(Position(), at), despawn) {
          target := None;
        }
      case _ =>
    }

    // ------------------------------------------------------- observability

    /** RevealInFov: one pass over the registry that only switches entries on (see Observation.Revealed). */
    method RevealInFov(phys: Physics)
      requires builder.Valid() && this in builder.robots
      modifies builder`id2obj
      ensures builder.Valid()
      ensures builder.id2obj == Revealed(old(builder.id2obj), id, old(CurrentEye()), phys.angle)
    {
      var eye := CurrentEye();
      var ks := builder.keys;
      ghost var m0 := builder.id2obj;
      for i := 0 to |ks|
        invariant builder.id2obj == RevealScan(m0, ks[..i], id, eye, phys.angle)
      {
        var k := ks[i];
        assert k !in ks[..i];
        RevealScanAhead(m0, ks[..i], id, eye, phys.angle, k);
        RevealScanStep(m0, ks, i, id, eye, phys.angle);
        var e := builder.id2obj[k];
        if !e.live {
          continue;
        }
        if AlwaysShown(k, id) {
          builder.id2obj := builder.id2obj[k := e.(active := true)];
          continue;
        }
        if Observation.IsInFov(eye, e, phys.angle) {
          builder.id2obj := builder.id2obj[k := e.(active := true)];
        }
      }
      assert ks[..|ks|] == ks;
      RevealScanIsRevealed(m0, ks, id, eye, phys.angle);
    }

    // -------------------------------------------------------------- actions

    /** PickExtinguisher: equips the robot; the argument is ignored. */
    method PickExtinguisher(ignored: string)
      modifies this`hasExtinguisher
      ensures hasExtinguisher
    {
      hasExtinguisher := true;
    }

    /**
     * The sweep of ExtinguishAllInFov: destroys exactly the active fires in
     * view from eye, and counts them.
     */
    method SweepFires(eye: Eye, phys: Physics) returns (count: nat)
      requires builder.Valid()
      modifies builder`id2obj
      ensures builder.Valid()
      ensures builder.id2obj == Doused(old(builder.id2obj), eye, phys.angle)
      ensures count == |DousedIds(old(builder.id2obj), eye, phys.angle)|
    {
      var ks := builder.keys;
      ghost var m0 := builder.id2obj;
      count := 0;
      for i := 0 to |ks|
        invariant builder.id2obj == DouseScan(m0, ks[..i], eye, phys.angle)
        invariant count == |DousedAmong(ks[..i], m0, eye, phys.angle)|
      {
        var k := ks[i];
        assert k !in ks[..i];
        DousedAmongStep(ks, i, m0, eye, phys.angle);
        DouseScanAhead(m0, ks[..i], eye, phys.angle, k);
        DouseScanStep(m0, ks, i, eye, phys.angle);
        var e := builder.id2obj[k];
        if !DouseTarget(e, eye, phys.angle) {
          continue;
        }
        count := count + 1;
        builder.id2obj := builder.id2obj[k := e.(live := false)];
      }
      assert ks[..|ks|] == ks;
      DouseScanIsDoused(m0, ks, eye, phys.angle);
    }

    /** What ExtinguishAllInFov does: equips, destroys exactly the active fires in view, pauses dynamics for 1.0. */
    twostate predicate ExtinguishOutcome(phys: Physics, m1: map<string, Entity>)
      reads this, builder`dynamicsEnabled, builder`pauses
    {
      id in old(builder.id2obj)
      && hasExtinguisher && holdingId == old(holdingId) && target == old(target)
      && m1 == Doused(old(builder.id2obj), old(CurrentEye()), phys.angle)
      && !builder.dynamicsEnabled
      && builder.pauses == old(builder.pauses) + [PauseTask(old(builder.dynamicsEnabled), 1.0)]
    }

    /** ExtinguishAllInFov (see ExtinguishOutcome), reporting how many fires it destroyed. */
    method ExtinguishAllInFov(phys: Physics) returns (count: nat)
      requires builder.Valid() && this in builder.robots
      modifies this`hasExtinguisher, builder`id2obj, builder`dynamicsEnabled, builder`pauses
      ensures builder.Valid()
      ensures ExtinguishOutcome(phys, builder.id2obj)
      ensures count == |DousedIds(old(builder.id2obj), old(CurrentEye()), phys.angle)|
    {
      if !hasExtinguisher {
        hasExtinguisher := true;
      }
      var eye := CurrentEye();
      count := SweepFires(eye, phys);
      builder.PauseDynamicsBriefly(1.0);
    }

    /**
     * What Pick does: nothing for an empty, unknown or destroyed id (the
     * last throws, `threw`); move toward it beyond 1.5; else carry it.
     */
    twostate predicate PickOutcome(targetId: string, m1: map<string, Entity>, threw: bool)
      reads this
    {
      var m := old(builder.id2obj);
      id in m && hasExtinguisher == old(hasExtinguisher)
      && (threw <==> targetId != "" && targetId in m && !m[targetId].live) &&
      if targetId == "" || targetId !in m || !m[targetId].live then
        holdingId == old(holdingId) && target == old(target) && m1 == m
      else if Exceeds(SqDist(m[id].pos, m[targetId].pos), InteractRadius) then
        target == Some(Follow(targetId)) && holdingId == old(holdingId) && m1 == m
      else
        holdingId == Some(targetId) && target == old(target)
        && m1 == m[targetId := m[targetId].(pos := Add(Add(m[id].pos, Vec3(0.0, CarryHeight, 0.0)), Scale(Vec3(old(hx), 0.0, old(hz)), CarryReach)),
                                                         parent := Some(id))]
    }

    /** Pick (see PickOutcome). */
    method Pick(targetId: string) returns (threw: bool)
      requires builder.Valid() && this in builder.robots
      modifies this`holdingId, this`target, builder`id2obj
      ensures builder.Valid()
      ensures PickOutcome(targetId, builder.id2obj, threw)
    {
      if targetId == "" || targetId !in builder.id2obj {
        return false;
      }
      var tr := builder.id2obj[targetId];
      if !tr.live {
        return true;
      }
      if Exceeds(SqDist(Position(), tr.pos), InteractRadius) {
        GoTo(targetId);
        return false;
      }
      holdingId := Some(targetId);
      builder.id2obj := builder.id2obj[targetId := tr.(pos := CarryPoint(), parent := Some(id))];
      threw := false;
    }

    /**
     * What Drop does: releases the held object 0.6 in front of the robot;
     * nothing when nothing is held, and nothing but `threw` when the held
     * id is unknown or destroyed.
     */
    twostate predicate DropOutcome(m1: map<string, Entity>, threw: bool)
      reads this
    {
      var m, h := old(builder.id2obj), old(holdingId);
      id in m && hasExtinguisher == old(hasExtinguisher) && target == old(target)
      && (threw <==> h.Some? && !(h.value in m && m[h.value].live)) &&
      if h.Some? && h.value in m && m[h.value].live then
        holdingId == None
        && m1 == m[h.value := m[h.value].(parent := None, pos := Add(m[id].pos, Scale(Vec3(old(hx), 0.0, old(hz)), CarryReach)))]
      else
        holdingId == h && m1 == m
    }

    /** Drop (see DropOutcome); the argument is ignored. */
    method Drop(ignored: string) returns (threw: bool)
      requires builder.Valid() && this in builder.robots
      modifies this`holdingId, builder`id2obj
      ensures builder.Valid()
      ensures DropOutcome(builder.id2obj, threw)
    {
      if holdingId.None? {
        return false;
      }
      var h := holdingId.value;
      if h !in builder.id2obj || !builder.id2obj[h].live {
        return true;
      }
      var tr := builder.id2obj[h];
      builder.id2obj := builder.id2obj[h := tr.(parent := None, pos := Add(Position(), Scale(Forward(), CarryReach)))];
      holdingId := None;
      threw := false;
    }

    /**
     * What Deliver does: nothing without a held object or a known, live
     * target id; beyond 1.5 of the target it becomes GoTo and the held object
     * stays held; within it the held object is switched off and let go of.
     * A destroyed target, or a held id that is unknown or destroyed when it
     * is reached, throws (`threw`) with nothing changed.
     */
    twostate predicate DeliverOutcome(targetId: string, m1: map<string, Entity>, threw: bool)
      reads this
    {
      var m, h := old(builder.id2obj), old(holdingId);
      hasExtinguisher == old(hasExtinguisher)
      && (threw <==> h.Some? && targetId != "" && targetId in m
                     && (!m[targetId].live
                         || (id in m && !Exceeds(SqDist(m[id].pos, m[targetId].pos), InteractRadius)
                             && !(h.value in m && m[h.value].live)))) &&
      if h.None? || targetId == "" || targetId !in m || !m[targetId].live then
        holdingId == h && target == old(target) && m1 == m
      else if id !in m || Exceeds(SqDist(m[id].pos, m[targetId].pos), InteractRadius) then
        id in m && target == Some(Follow(targetId)) && holdingId == h && m1 == m
      else if h.value in m && m[h.value].live then
        holdingId == None && target == old(target) && m1 == m[h.value := m[h.value].(active := false)]
      else
        holdingId == h && target == old(target) && m1 == m
    }

    /** Deliver (see DeliverOutcome). */
    method Deliver(targetId: string) returns (threw: bool)
      requires builder.Valid() && this in builder.robots
      modifies this`holdingId, this`target, builder`id2obj
      ensures builder.Valid()
      ensures DeliverOutcome(targetId, builder.id2obj, threw)
    {
      if holdingId.None? || targetId == "" || targetId !in builder.id2obj {
        return false;
      }
      var t := builder.id2obj[targetId];
      if !t.live {
        return true;
      }
      if Exceeds(SqDist(Position(), t.pos), InteractRadius) {
        GoTo(targetId);
        return false;
      }
      var h := holdingId.value;
      if h !in builder.id2obj || !builder.id2obj[h].live {
        return true;
      }
      builder.id2obj := builder.id2obj[h := builder.id2obj[h].(active := false)];
      holdingId := None;
      threw := false;
    }

    /** Holding a non-empty, "Human"-prefixed id. */
    predicate HoldingHuman()
      reads this
    {
      holdingId.Some? && holdingId.value != "" && IsHumanId(holdingId.value)
    }

    /**
     * What RescueNearestInFov does. Without a live safe zone nothing.
     * Holding a survivor: heads for where the safe zone stands and puts the
     * survivor there (within 0.3 on x and z), switched off and let go of.
     * Otherwise it picks the survivor Observation.Nearest chooses, if any.
     * It throws (`threw`) only when the survivor it holds is unknown or
     * destroyed, after it has set off for the safe zone.
     */
    twostate predicate RescueOutcome(phys: Physics, m1: map<string, Entity>, threw: bool)
      reads this
    {
      id in old(builder.id2obj) && hasExtinguisher == old(hasExtinguisher)
      && (threw <==> old(builder.SafeZoneLive()) && old(HoldingHuman())
                     && !(old(holdingId).value in old(builder.id2obj) && old(builder.id2obj)[old(holdingId).value].live))
      && (!old(builder.SafeZoneLive()) ==>
            holdingId == old(holdingId) && target == old(target) && m1 == old(builder.id2obj))
      && (old(builder.SafeZoneLive()) && old(HoldingHuman()) ==>
            var sz, h, m := old(builder.id2obj[builder.safeZone.value].pos), old(holdingId).value, old(builder.id2obj);
            target == Some(Ghost(sz, SafeZoneGhostRadius))
            && if h in m && m[h].live then
                 holdingId == None && h in m1
                 && m1 == m[h := m1[h]]
                 && m1[h] == m[h].(parent := None, active := false, pos := m1[h].pos)
                 && PlacedNear(m1[h].pos, Vec3(sz.x, sz.y - 0.5, sz.z), RescueJitter)
               else
                 holdingId == old(holdingId) && m1 == m)
      && (old(builder.SafeZoneLive()) && !old(HoldingHuman()) ==>
            var best := Nearest(old(builder.keys), old(builder.id2obj), old(CurrentEye()), phys.angle);
            (best.None? ==> holdingId == old(holdingId) && target == old(target) && m1 == old(builder.id2obj))
            && (best.Some? ==> PickOutcome(best.value, m1, threw)))
    }

    /** RescueNearestInFov's scan: the nearest live, active human the eye sees, first in key order on ties. */
    method NearestHumanInFov(phys: Physics) returns (best: Option<string>)
      requires builder.Valid() && this in builder.robots
      ensures best == Nearest(builder.keys, builder.id2obj, CurrentEye(), phys.angle)
      ensures best.Some? ==> best.value in builder.id2obj && builder.id2obj[best.value].live
    {
      var eye := CurrentEye();
      var ks := builder.keys;
      var m := builder.id2obj;
      var bestSq := 0.0;
      best := None;
      for i := 0 to |ks|
        invariant best == Nearest(ks[..i], m, eye, phys.angle)
        invariant best.Some? ==> best.value in m && m[best.value].live && bestSq == SqDist(eye.pos, m[best.value].pos)
      {
        var k := ks[i];
        assert ks[..i + 1][..i] == ks[..i];
        if !IsHumanId(k) {
          continue;
        }
        var e := m[k];
        if !e.live || !e.active {
          continue;
        }
        if !Observation.IsInFov(eye, e, phys.angle) {
          continue;
        }
        var d := SqDist(eye.pos, e.pos);
        if best.None? || d < bestSq {
          best, bestSq := Some(k), d;
        }
      }
      assert ks[..|ks|] == ks;
    }

    /** RescueNearestInFov (see RescueOutcome). */
    method RescueNearestInFov(phys: Physics) returns (threw: bool)
      requires builder.Valid() && this in builder.robots
      modifies this`holdingId, this`target, builder`id2obj
      ensures builder.Valid()
      ensures RescueOutcome(phys, builder.id2obj, threw)
    {
      if !builder.SafeZoneLive() {
        return false;
      }
      var sz := builder.id2obj[builder.safeZone.value].pos;
      if HoldingHuman() {
        target := Some(Ghost(sz, SafeZoneGhostRadius));
        var h := holdingId.value;
        if h !in builder.id2obj || !builder.id2obj[h].live {
          return true;
        }
        var tr := builder.id2obj[h];
        var jx: real :| -RescueJitter <= jx <= RescueJitter;
        var jz: real :| -RescueJitter <= jz <= RescueJitter;
        builder.id2obj := builder.id2obj[h := tr.(parent := None, pos := Add(sz, Vec3(jx, 0.0, jz)), active := false)];
        holdingId := None;
        return false;
      }
      var best := NearestHumanInFov(phys);
      if best.None? {
        return false;
      }
      threw := Pick(best.value);
    }

    /**
     * What Execute's switch has the robot do for command c (arg is the
     * target argument): the outcome of the matching action, the heading
     * kept, and dynamics touched only by extinguishing. `threw` is set
     * exactly when the action's C# would throw, which only Pick, Drop,
     * Deliver and the rescue do, on an unknown or destroyed object.
     */
    twostate predicate ActionOutcome(c: Command, arg: string, stepMeters: real, phys: Physics, m1: map<string, Entity>, threw: bool)
      reads this, builder`dynamicsEnabled, builder`pauses
    {
      hx == old(hx) && hz == old(hz)
      && (!(c.Pick? || c.Drop? || c.Deliver? || c.RescueNearestInFov?) ==> !threw)
      && (!c.ExtinguishAllInFov? ==> builder.dynamicsEnabled == old(builder.dynamicsEnabled) && builder.pauses == old(builder.pauses))
      && match c
         case MoveDir(dir) => MoveDirOutcome(dir, stepMeters, phys, m1)
         case PickExtinguisher =>
           hasExtinguisher && holdingId == old(holdingId) && target == old(target) && m1 == old(builder.id2obj)
         case ExtinguishAllInFov => ExtinguishOutcome(phys, m1)
         case RescueNearestInFov => RescueOutcome(phys, m1, threw)
         case GoTo => GoToOutcome(arg, m1)
         case Pick => PickOutcome(arg, m1, threw)
         case Drop => DropOutcome(m1, threw)
         case Deliver => DeliverOutcome(arg, m1, threw)
         case Unknown =>
           hasExtinguisher == old(hasExtinguisher) && holdingId == old(holdingId) && target == old(target)
           && m1 == old(builder.id2obj)
    }

    /** Execute's switch, for a resolved robot (see ActionOutcome). */
    method Perform(c: Command, arg: string, stepMeters: real, phys: Physics) returns (threw: bool)
      requires builder.Valid() && this in builder.robots
      modifies this`hasExtinguisher, this`holdingId, this`target, builder`id2obj, builder`dynamicsEnabled, builder`pauses
      ensures builder.Valid()
      ensures ActionOutcome(c, arg, stepMeters, phys, builder.id2obj, threw)
      ensures c.Unknown? ==> unchanged(this) && unchanged(builder)
    {
      threw := false;
      match c
      case MoveDir(dir) => MoveDir(dir, stepMeters, phys);
      case PickExtinguisher => PickExtinguisher(arg);
      case ExtinguishAllInFov => var _ := ExtinguishAllInFov(phys);
      case RescueNearestInFov => threw := RescueNearestInFov(phys);
      case GoTo => GoTo(arg);
      case Pick => threw := Pick(arg);
      case Drop => threw := Drop(arg);
      case Deliver => threw := Deliver(arg);
      case Unknown =>
    }
  }

  /**
   * Two brief pauses that overlap (two ExtinguishAllInFov calls within a
   * second) and end in the order they began leave dynamics switched off
   * and the spread loop stopped, whatever the flag was before: the second
   * pause captured the false the first one had set.
   */
  method OverlappingPauses(w: WorldBuilder)
    modifies w
    ensures !w.dynamicsEnabled && w.spread == None
    ensures w.pauses == old(w.pauses)
  {
    var n := |w.pauses|;
    w.PauseDynamicsBriefly(1.0);
    w.PauseDynamicsBriefly(1.0);
    w.PauseElapsed(n);
    w.PauseElapsed(n);
  }

  /** A single pause, by contrast, switches dynamics off while it lasts and then gives back the flag it took. */
  method SinglePause(w: WorldBuilder) returns (during: bool)
    modifies w
    ensures !during
    ensures w.dynamicsEnabled == old(w.dynamicsEnabled) && w.pauses == old(w.pauses)
    ensures w.spread == if old(w.dynamicsEnabled) then Some(SpreadWait(w.fireSpreadSeconds)) else None
  {
    var n := |w.pauses|;
    w.PauseDynamicsBriefly(1.0);
    during := w.dynamicsEnabled;
    w.PauseElapsed(n);
  }
}
