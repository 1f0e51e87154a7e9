/** The spawners of `Systems.cpp` and the two loaders built on them.  Each
    spawner creates entities and emplaces components; it never fails, and
    what it attaches depends only on whether the asset it looks up was found.
    The records a spawner produces are given by functions, and each method's
    postcondition says the registry afterwards is the registry before with
    exactly those records spawned at the next ids, in creation order. */
module Spawners {
  import opened Wrappers
  import opened Timers
  import opened Components
  import opened AssetRecords
  import opened EntityRegistry
  import AssetStore

  type Assets = AssetStore.Assets

  function MountOffset(m: Mount): Vec2
  {
    Vec2(m.x, m.y)
  }

  // ---- The records each spawner produces ----

  function BackgroundRecord(am: Assets, key: string, layer: int): EntityRecord
    requires am.Valid()
  {
    Bare.(background := true, transform := Some(DefaultTransform),
          renderable := Some(am.GetTexture(key)), renderOrder := Some(layer))
  }

  function ObjectRecord(am: Assets, key: string, position: Vec2, layer: int): EntityRecord
    requires am.Valid()
  {
    Bare.(transform := Some(TransformAt(position)), renderable := Some(am.GetTexture(key)),
          renderOrder := Some(layer))
  }

  /** The bullet fired from a weapon standing at `t`, carried by a ship
      moving with `ph`.  `heading(deg)` stands for (sin, -cos) of the
      angle in degrees. */
  function BulletRecord(am: Assets, t: Transform, ph: Physics, w: Weapon, affiliation: nat,
                        heading: real -> Vec2): EntityRecord
    requires am.Valid()
  {
    Bare.(affiliation := Some(affiliation),
          physics := Some(Physics(w.shotSpeed, 2000000.0, Add(ph.velocity, Scale(heading(t.rotation), w.shotSpeed)),
                                  DefaultPhysics.rotation)),
          transform := Some(Transform(t.position, Vec2(5.0, 5.0), t.rotation)),
          bullet := Some(Bullet(50.0, w.lifetime, StartedWith(NewTimerFor(w.lifetime), w.lifetime))),
          renderable := Some(am.GetTexture(w.munition)),
          renderOrder := Some(10000),
          collider := Some(BulletCollider(w.radius)))
  }

  /** A child entity: placed at the origin, offset from its parent. */
  function ChildRecord(offset: Vec2, parent: Entity): EntityRecord
  {
    Bare.(transform := Some(TransformAt(Origin)), relative := Some(RelativeTransformAt(offset)), parent := Some(parent))
  }

  function EngineRecord(am: Assets, key: string, offset: Vec2, parent: Entity): EntityRecord
    requires am.Valid()
  {
    match am.GetEngine(key)
    case Failure(_) => ChildRecord(offset, parent)
    case Success(d) =>
      ChildRecord(offset, parent).(engine := Some(Engine(d.thrust)), renderable := Some(am.GetTexture(d.texture)),
                                   renderOrder := Some(999), shouldNotRender := true)
  }

  function WeaponRecord(am: Assets, key: string, offset: Vec2, parent: Entity, playerOwned: bool): EntityRecord
  {
    ChildRecord(offset, parent).(weapon := Some(TriggerCooldown(NewWeapon(am.GetWeapon(key)))), playerWeapon := playerOwned)
  }

  /** One weapon entity per mount, in order. */
  function WeaponRecords(am: Assets, ms: seq<Mount>, parent: Entity, playerOwned: bool): (rs: seq<EntityRecord>)
    ensures |rs| == |ms|
    decreases |ms|
  {
    if ms == [] then []
    else
      var last := ms[|ms| - 1];
      WeaponRecords(am, ms[..|ms| - 1], parent, playerOwned) + [WeaponRecord(am, last.kind, MountOffset(last), parent, playerOwned)]
  }

  /** One engine entity per mount, found or not, in order. */
  function EngineRecords(am: Assets, ms: seq<Mount>, parent: Entity): (rs: seq<EntityRecord>)
    requires am.Valid()
    ensures |rs| == |ms|
    decreases |ms|
  {
    if ms == [] then []
    else
      var last := ms[|ms| - 1];
      EngineRecords(am, ms[..|ms| - 1], parent) + [EngineRecord(am, last.kind, MountOffset(last), parent)]
  }

  /** The i-th weapon entity comes from the i-th mount. */
  lemma {:induction false} WeaponRecordsAt(am: Assets, ms: seq<Mount>, parent: Entity, playerOwned: bool, i: nat)
    requires i < |ms|
    ensures WeaponRecords(am, ms, parent, playerOwned)[i] == WeaponRecord(am, ms[i].kind, MountOffset(ms[i]), parent, playerOwned)
    decreases |ms|
  {
    if i < |ms| - 1 {
      WeaponRecordsAt(am, ms[..|ms| - 1], parent, playerOwned, i);
    }
  }

  /** The j-th engine entity comes from the j-th mount. */
  lemma {:induction false} EngineRecordsAt(am: Assets, ms: seq<Mount>, parent: Entity, j: nat)
    requires am.Valid() && j < |ms|
    ensures EngineRecords(am, ms, parent)[j] == EngineRecord(am, ms[j].kind, MountOffset(ms[j]), parent)
    decreases |ms|
  {
    if j < |ms| - 1 {
      EngineRecordsAt(am, ms[..|ms| - 1], parent, j);
    }
  }

  /** The thrusts, and the turn rates, of the mounted engines that were
      found, in mount order. */
  function Thrusts(am: Assets, ms: seq<Mount>): seq<real>
    decreases |ms|
  {
    if ms == [] then []
    else
      var last := ms[|ms| - 1];
      Thrusts(am, ms[..|ms| - 1]) +
        (match am.GetEngine(last.kind) case Success(d) => [d.thrust] case Failure(_) => [])
  }

  function Turns(am: Assets, ms: seq<Mount>): seq<real>
    decreases |ms|
  {
    if ms == [] then []
    else
      var last := ms[|ms| - 1];
      Turns(am, ms[..|ms| - 1]) +
        (match am.GetEngine(last.kind) case Success(d) => [d.rotation] case Failure(_) => [])
  }

  function MinimalShip(position: Vec2): EntityRecord
  {
    Bare.(transform := Some(TransformAt(position)), physics := Some(DefaultPhysics))
  }

  function ShipRecord(am: Assets, s: ShipData, position: Vec2, affiliation: nat): EntityRecord
    requires am.Valid()
  {
    MinimalShip(position).(renderable := Some(am.GetTexture(s.texture)), renderOrder := Some(0),
                           collider := Some(ShipCollider(s.radius)), affiliation := Some(affiliation),
                           thrusting := Some(false))
  }

  /** `spawn_ship` with the ship at id `id`: the hull, then its weapons. */
  function ShipRecords(am: Assets, key: string, position: Vec2, affiliation: nat, id: Entity): seq<EntityRecord>
    requires am.Valid()
  {
    match am.GetShip(key)
    case Failure(_) => [MinimalShip(position)]
    case Success(s) => [ShipRecord(am, s, position, affiliation)] + WeaponRecords(am, s.weapons, id, false)
  }

  function MinimalPlayer(position: Vec2): EntityRecord
  {
    Bare.(player := true, transform := Some(TransformAt(position)))
  }

  /** The player hull before its Thrusting and Physics are emplaced. */
  function PlayerHull(am: Assets, s: ShipData, position: Vec2): EntityRecord
    requires am.Valid()
  {
    MinimalPlayer(position).(renderable := Some(am.GetTexture(s.texture)), renderOrder := Some(1000),
      collider := Some(ShipCollider(s.radius)),
      affiliation := match am.GetFactionId("Player") case Success(id) => Some(id) case Failure(_) => None)
  }

  function PlayerPhysics(am: Assets, s: ShipData): Physics
  {
    DefaultPhysics.(maxSpeed := s.maxSpeed, acceleration := Sum(Thrusts(am, s.engines)),
                    rotation := Sum(Turns(am, s.engines)))
  }

  function PlayerShipRecord(am: Assets, s: ShipData, position: Vec2): EntityRecord
    requires am.Valid()
  {
    PlayerHull(am, s, position).(thrusting := Some(false), physics := Some(PlayerPhysics(am, s)))
  }

  /** `spawn_player_ship` with the ship at id `id`: the hull, its weapons,
      then one engine entity per listed engine. */
  function PlayerShipRecords(am: Assets, key: string, position: Vec2, id: Entity): seq<EntityRecord>
    requires am.Valid()
  {
    match am.GetShip(key)
    case Failure(_) => [MinimalPlayer(position)]
    case Success(s) =>
      [PlayerShipRecord(am, s, position)] + WeaponRecords(am, s.weapons, id, true) + EngineRecords(am, s.engines, id)
  }

  function BackgroundRecords(am: Assets, bs: seq<BackgroundData>): (rs: seq<EntityRecord>)
    requires am.Valid()
    ensures |rs| == |bs|
    decreases |bs|
  {
    if bs == [] then []
    else BackgroundRecords(am, bs[..|bs| - 1]) + [BackgroundRecord(am, bs[|bs| - 1].image, bs[|bs| - 1].layer)]
  }

  function ObjectRecords(am: Assets, os: seq<MapObject>): (rs: seq<EntityRecord>)
    requires am.Valid()
    ensures |rs| == |os|
    decreases |os|
  {
    if os == [] then []
    else
      var o := os[|os| - 1];
      ObjectRecords(am, os[..|os| - 1]) + [ObjectRecord(am, o.texture, Vec2(o.x, o.y), o.layer)]
  }

  /** The map ships spawned from id `base` on, in order; a ship whose
      faction has no id is skipped. */
  function FleetRecords(am: Assets, ships: seq<MapShip>, base: Entity): seq<EntityRecord>
    requires am.Valid()
  {
    FleetFrom(am, ships, 0, base)
  }

  /** The ships from index `i` on, the first of them spawned at `base`. */
  function FleetFrom(am: Assets, ships: seq<MapShip>, i: nat, base: Entity): seq<EntityRecord>
    requires am.Valid()
    decreases |ships| - i
  {
    if i >= |ships| then []
    else
      var first := FleetShip(am, ships[i], base);
      first + FleetFrom(am, ships, i + 1, base + |first|)
  }

  /** One map ship spawned at id `id`, or nothing when its faction has no id. */
  function FleetShip(am: Assets, s: MapShip, id: Entity): seq<EntityRecord>
    requires am.Valid()
  {
    match am.GetFactionId(s.affiliation)
    case Failure(_) => []
    case Success(faction) => ShipRecords(am, s.shipType, Vec2(s.x, s.y), faction, id)
  }

  /** `load_map` of a found map from id `base` on: backgrounds, ships, objects. */
  function MapRecords(am: Assets, d: MapData, base: Entity): seq<EntityRecord>
    requires am.Valid()
  {
    var backgrounds := BackgroundRecords(am, d.backgrounds);
    var fleet := FleetRecords(am, d.ships, base + |backgrounds|);
    backgrounds + fleet + ObjectRecords(am, d.objects)
  }

  function MapLoad(am: Assets, key: string, base: Entity): seq<EntityRecord>
    requires am.Valid()
  {
    match am.GetMap(key)
    case Failure(_) => []
    case Success(d) => MapRecords(am, d, base)
  }

  /** `load_start`: the start's map, then the player ship. */
  function StartLoad(am: Assets, key: string, base: Entity): seq<EntityRecord>
    requires am.Valid()
  {
    match am.GetStart(key)
    case Failure(_) => []
    case Success(s) =>
      var mapped := MapLoad(am, s.initialMap, base);
      mapped + PlayerShipRecords(am, s.player.shipType, Vec2(s.player.x, s.player.y), base + |mapped|)
  }

  // ---- What the records hold ----

  /** A bullet: seven components, a ship-hitting collider, and a despawn
      timer running for the weapon's lifetime. */
  lemma BulletHolds(am: Assets, t: Transform, ph: Physics, w: Weapon, affiliation: nat, heading: real -> Vec2)
    requires am.Valid()
    ensures var r := BulletRecord(am, t, ph, w, affiliation, heading);
      Holds(r) == {AffiliationKind, PhysicsKind, TransformKind, BulletKind, RenderableKind, RenderOrderKind, ColliderKind} &&
      r.collider == Some(Collider(w.radius, 2, 1)) && r.renderOrder == Some(10000) &&
      r.bullet.value.damage == 50.0 &&
      r.bullet.value.despawnTimer == TimerState(w.lifetime, 0.0, true) &&
      r.physics.value.velocity == Vec2(ph.velocity.x + heading(t.rotation).x * w.shotSpeed,
                                       ph.velocity.y + heading(t.rotation).y * w.shotSpeed)
  {}

  /** A found engine is drawn at layer 999 and starts hidden; a missing one
      is only a child placeholder.  Either way it follows its ship. */
  lemma EngineHolds(am: Assets, key: string, offset: Vec2, parent: Entity)
    requires am.Valid()
    ensures var r := EngineRecord(am, key, offset, parent);
      r.parent == Some(parent) && r.relative == Some(RelativeTransform(offset, 1.0, 0.0)) &&
      (key in am.engines ==>
        Holds(r) == {EngineKind, RenderableKind, RenderOrderKind, ShouldNotRenderKind, TransformKind, RelativeTransformKind, ParentKind} &&
        r.engine == Some(Engine(am.engines[key].thrust)) && r.renderOrder == Some(999)) &&
      (key !in am.engines ==> Holds(r) == {TransformKind, RelativeTransformKind, ParentKind})
  {}

  /** A weapon entity starts with its cooldown running. */
  lemma WeaponHolds(am: Assets, key: string, offset: Vec2, parent: Entity, playerOwned: bool)
    ensures var r := WeaponRecord(am, key, offset, parent, playerOwned);
      Holds(r) == {TransformKind, RelativeTransformKind, ParentKind, WeaponKind} + (if playerOwned then {PlayerWeaponKind} else {}) &&
      r.parent == Some(parent) &&
      r.weapon.value.fireTimer == TimerState(r.weapon.value.cooldown, 0.0, true) &&
      (key in am.weapons ==> r.weapon.value.cooldown == am.weapons[key].cooldown) &&
      (key !in am.weapons ==> r.weapon.value.cooldown == 2000000.0)
  {}

  /** `spawn_ship`: with a known key the hull holds exactly Transform,
      Physics, Renderable, RenderOrder 0, a ship Collider, Affiliation and an
      inactive Thrusting, followed by one weapon per mount and no engine;
      with an unknown key only Transform and Physics. */
  lemma ShipHolds(am: Assets, key: string, position: Vec2, affiliation: nat, id: Entity)
    requires am.Valid()
    ensures var rs := ShipRecords(am, key, position, affiliation, id);
      |rs| >= 1 &&
      (forall i :: 0 <= i < |rs| ==> rs[i].engine.None?) &&
      (key in am.ships ==>
        |rs| == 1 + |am.ships[key].weapons| &&
        Holds(rs[0]) == {TransformKind, PhysicsKind, RenderableKind, RenderOrderKind, ColliderKind, AffiliationKind, ThrustingKind} &&
        rs[0].renderOrder == Some(0) && rs[0].collider == Some(Collider(am.ships[key].radius, 1, 2)) &&
        rs[0].affiliation == Some(affiliation) && rs[0].thrusting == Some(false) &&
        (forall i :: 1 <= i < |rs| ==> rs[i].parent == Some(id) && rs[i].weapon.Some? && !rs[i].playerWeapon)) &&
      (key !in am.ships ==>
        |rs| == 1 && Holds(rs[0]) == {TransformKind, PhysicsKind} && rs[0].physics == Some(DefaultPhysics))
  {
    var rs := ShipRecords(am, key, position, affiliation, id);
    if key in am.ships {
      var ws := am.ships[key].weapons;
      forall i | 1 <= i < |rs|
        ensures rs[i].parent == Some(id) && rs[i].weapon.Some? && !rs[i].playerWeapon && rs[i].engine.None?
      {
        assert rs[i] == WeaponRecords(am, ws, id, false)[i - 1];
        WeaponRecordsAt(am, ws, id, false, i - 1);
      }
    }
  }

  /** `spawn_player_ship`: with a known key one hull, one player weapon per
      weapon mount and one engine entity per engine mount, found or not; the
      hull's acceleration and turn rate sum over the engines found.  With an
      unknown key only Player and Transform. */
  lemma PlayerShipHolds(am: Assets, key: string, position: Vec2, id: Entity)
    requires am.Valid()
    ensures var rs := PlayerShipRecords(am, key, position, id);
      (key in am.ships ==>
        var s := am.ships[key];
        |rs| == 1 + |s.weapons| + |s.engines| &&
        rs[0].player && rs[0].renderOrder == Some(1000) && rs[0].collider == Some(Collider(s.radius, 1, 2)) &&
        rs[0].thrusting == Some(false) &&
        rs[0].physics == Some(Physics(Sum(Thrusts(am, s.engines)), s.maxSpeed, Origin, Sum(Turns(am, s.engines)))) &&
        (rs[0].affiliation.Some? <==> "Player" in am.factionNameToId)) &&
      (key !in am.ships ==> rs == [MinimalPlayer(position)] && Holds(rs[0]) == {PlayerKind, TransformKind})
  {
    if key in am.ships {
      var s := am.ships[key];
      assert PlayerShipRecords(am, key, position, id)[0] == PlayerShipRecord(am, s, position);
    }
  }

  /** The rest of a found player ship: its weapons hang off the hull and
      are player weapons, and its engines follow them in mount order. */
  lemma PlayerShipPartsHold(am: Assets, key: string, position: Vec2, id: Entity)
    requires am.Valid() && key in am.ships
    ensures var rs := PlayerShipRecords(am, key, position, id); var s := am.ships[key];
      (forall i :: 1 <= i <= |s.weapons| ==> rs[i].parent == Some(id) && rs[i].playerWeapon) &&
      (forall j :: 0 <= j < |s.engines| ==>
        rs[1 + |s.weapons| + j] == EngineRecord(am, s.engines[j].kind, MountOffset(s.engines[j]), id))
  {
    var s := am.ships[key];
    var h := PlayerShipRecord(am, s, position);
    var ws := WeaponRecords(am, s.weapons, id, true);
    var es := EngineRecords(am, s.engines, id);
    var rs := PlayerShipRecords(am, key, position, id);
    PlayerShipFound(am, key, position, id);
    assert rs == [h] + (ws + es);
    forall i | 1 <= i <= |s.weapons| ensures rs[i].parent == Some(id) && rs[i].playerWeapon {
      assert rs[i] == ws[i - 1];
      WeaponRecordsAt(am, s.weapons, id, true, i - 1);
    }
    forall j | 0 <= j < |s.engines|
      ensures rs[1 + |s.weapons| + j] == EngineRecord(am, s.engines[j].kind, MountOffset(s.engines[j]), id)
    {
      assert rs[1 + |s.weapons| + j] == es[j];
      EngineRecordsAt(am, s.engines, id, j);
    }
  }

  /** The found engines' thrusts, one per found mount: an unfound engine adds
      nothing, a found one adds its thrust and its turn rate. */
  lemma ThrustsStep(am: Assets, ms: seq<Mount>, m: Mount)
    ensures Sum(Thrusts(am, ms + [m])) == Sum(Thrusts(am, ms)) + (if m.kind in am.engines then am.engines[m.kind].thrust else 0.0)
    ensures Sum(Turns(am, ms + [m])) == Sum(Turns(am, ms)) + (if m.kind in am.engines then am.engines[m.kind].rotation else 0.0)
  {
    assert (ms + [m])[..|ms|] == ms;
    if m.kind in am.engines {
      SumSnoc(Thrusts(am, ms), am.engines[m.kind].thrust);
      SumSnoc(Turns(am, ms), am.engines[m.kind].rotation);
    } else {
      assert Thrusts(am, ms) + [] == Thrusts(am, ms);
      assert Turns(am, ms) + [] == Turns(am, ms);
    }
  }

  /** With none of the listed engines found, the player ship neither
      accelerates nor turns. */
  lemma {:induction false} NoEngineNoThrust(am: Assets, ms: seq<Mount>)
    requires forall i :: 0 <= i < |ms| ==> ms[i].kind !in am.engines
    ensures Sum(Thrusts(am, ms)) == 0.0 && Sum(Turns(am, ms)) == 0.0
    decreases |ms|
  {
    if ms != [] {
      var init := ms[..|ms| - 1];
      assert ms == init + [ms[|ms| - 1]];
      NoEngineNoThrust(am, init);
      ThrustsStep(am, init, ms[|ms| - 1]);
    }
  }

  /** `load_map` skips a ship whose faction has no id: it spawns nothing and
      the ships after it keep the ids they would have had. */
  lemma FleetSkipsUnknownFaction(am: Assets, ships: seq<MapShip>, i: nat, base: Entity)
    requires am.Valid() && i < |ships| && ships[i].affiliation !in am.factionNameToId
    ensures FleetFrom(am, ships, i, base) == FleetFrom(am, ships, i + 1, base)
  {
    assert FleetShip(am, ships[i], base) == [];
  }

  /** An unknown map key, or an unknown start key, spawns nothing. */
  lemma UnknownKeysSpawnNothing(am: Assets, key: string, base: Entity)
    requires am.Valid()
    ensures key !in am.maps ==> MapLoad(am, key, base) == []
    ensures key !in am.starts ==> StartLoad(am, key, base) == []
  {}

  /** `load_start` spawns the start's map first and the player ship after
      every map entity; the first entity of the player ship holds Player. */
  lemma StartEndsWithPlayer(am: Assets, key: string, base: Entity)
    requires am.Valid() && key in am.starts
    ensures var s := am.starts[key];
      var mapped := MapLoad(am, s.initialMap, base);
      var ps := PlayerShipRecords(am, s.player.shipType, Vec2(s.player.x, s.player.y), base + |mapped|);
      StartLoad(am, key, base) == mapped + ps && |ps| >= 1 && ps[0].player
  {
    var s := am.starts[key];
    StartLoadSplits(am, key, base);
    PlayerShipFirst(am, s.player.shipType, Vec2(s.player.x, s.player.y), base + |MapLoad(am, s.initialMap, base)|);
  }

  lemma StartLoadSplits(am: Assets, key: string, base: Entity)
    requires am.Valid() && key in am.starts
    ensures var s := am.starts[key];
      var mapped := MapLoad(am, s.initialMap, base);
      StartLoad(am, key, base) == mapped + PlayerShipRecords(am, s.player.shipType, Vec2(s.player.x, s.player.y), base + |mapped|)
  {
    var s := am.starts[key];
    assert am.GetStart(key) == Success(s);
  }

  /** The player ship's first entity is the hull, which holds Player. */
  lemma PlayerShipFirst(am: Assets, key: string, position: Vec2, id: Entity)
    requires am.Valid()
    ensures var ps := PlayerShipRecords(am, key, position, id); |ps| >= 1 && ps[0].player
  {}

  // ---- The spawners ----

  method SpawnOne(reg: Registry, r: EntityRecord) returns (e: Entity)
    requires reg.Valid()
    modifies reg
    ensures reg.Valid() && e == old(reg.next)
    ensures reg.State() == Spawned(old(reg.State()), [r])
  {
    e := reg.Create();
    reg.Put(e, r);
    SpawnedOne(old(reg.State()), r);
  }

  method SpawnBackground(reg: Registry, am: Assets, key: string, layer: int) returns (e: Entity)
    requires reg.Valid() && am.Valid()
    modifies reg
    ensures reg.Valid() && e == old(reg.next)
    ensures reg.State() == Spawned(old(reg.State()), [BackgroundRecord(am, key, layer)])
  {
    var r := Bare.(background := true);
    r := r.(transform := Some(DefaultTransform));
    r := r.(renderable := Some(am.GetTexture(key)));
    r := r.(renderOrder := Some(layer));
    e := SpawnOne(reg, r);
  }

  method SpawnObject(reg: Registry, am: Assets, key: string, position: Vec2, layer: int) returns (e: Entity)
    requires reg.Valid() && am.Valid()
    modifies reg
    ensures reg.Valid() && e == old(reg.next)
    ensures reg.State() == Spawned(old(reg.State()), [ObjectRecord(am, key, position, layer)])
  {
    var r := Bare.(transform := Some(TransformAt(position)));
    r := r.(renderable := Some(am.GetTexture(key)));
    r := r.(renderOrder := Some(layer));
    e := SpawnOne(reg, r);
  }

  method SpawnBullet(reg: Registry, am: Assets, t: Transform, ph: Physics, w: Weapon, affiliation: nat,
                     heading: real -> Vec2) returns (e: Entity)
    requires reg.Valid() && am.Valid()
    modifies reg
    ensures reg.Valid() && e == old(reg.next)
    ensures reg.State() == Spawned(old(reg.State()), [BulletRecord(am, t, ph, w, affiliation, heading)])
  {
    var r := Bare.(affiliation := Some(affiliation));
    var direction := heading(t.rotation);
    var velocity := Add(ph.velocity, Scale(direction, w.shotSpeed));
    r := r.(physics := Some(Physics(w.shotSpeed, 2000000.0, velocity, DefaultPhysics.rotation)));
    r := r.(transform := Some(Transform(t.position, Vec2(5.0, 5.0), t.rotation)));
    var timer := NewTimerFor(w.lifetime);
    r := r.(bullet := Some(Bullet(50.0, w.lifetime, StartedWith(timer, w.lifetime))));
    r := r.(renderable := Some(am.GetTexture(w.munition)));
    r := r.(renderOrder := Some(10000));
    r := r.(collider := Some(Collider(w.radius, 2, 1)));
    e := SpawnOne(reg, r);
  }

  method SpawnEngine(reg: Registry, am: Assets, key: string, offset: Vec2, parent: Entity) returns (e: Entity)
    requires reg.Valid() && am.Valid()
    modifies reg
    ensures reg.Valid() && e == old(reg.next)
    ensures reg.State() == Spawned(old(reg.State()), [EngineRecord(am, key, offset, parent)])
  {
    var r := Bare;
    var engine := am.GetEngine(key);
    if engine.Success? {
      r := r.(engine := Some(Engine(engine.value.thrust)));
      r := r.(renderable := Some(am.GetTexture(engine.value.texture)));
      r := r.(renderOrder := Some(999));
      r := r.(shouldNotRender := true);
    }
    r := r.(transform := Some(TransformAt(Origin)));
    r := r.(relative := Some(RelativeTransformAt(offset)));
    r := r.(parent := Some(parent));
    e := SpawnOne(reg, r);
  }

  method SpawnWeapon(reg: Registry, am: Assets, key: string, offset: Vec2, parent: Entity) returns (e: Entity)
    requires reg.Valid()
    modifies reg
    ensures reg.Valid() && e == old(reg.next)
    ensures reg.State() == Spawned(old(reg.State()), [WeaponRecord(am, key, offset, parent, false)])
  {
    var r := Bare.(transform := Some(TransformAt(Origin)));
    r := r.(relative := Some(RelativeTransformAt(offset)));
    r := r.(parent := Some(parent));
    var weapon := NewWeapon(am.GetWeapon(key));
    r := r.(weapon := Some(TriggerCooldown(weapon)));
    e := SpawnOne(reg, r);
  }

  method SpawnPlayerWeapon(reg: Registry, am: Assets, key: string, offset: Vec2, parent: Entity) returns (e: Entity)
    requires reg.Valid()
    modifies reg
    ensures reg.Valid() && e == old(reg.next)
    ensures reg.State() == Spawned(old(reg.State()), [WeaponRecord(am, key, offset, parent, true)])
  {
    e := SpawnWeapon(reg, am, key, offset, parent);
    SpawnedOne(old(reg.State()), WeaponRecord(am, key, offset, parent, false));
    reg.Put(e, reg.entities[e].(playerWeapon := true));
    SpawnedOne(old(reg.State()), WeaponRecord(am, key, offset, parent, true));
  }

  /** One more mount adds one weapon record at the end. */
  lemma WeaponRecordsPrefix(am: Assets, ms: seq<Mount>, i: nat, parent: Entity, playerOwned: bool)
    requires i < |ms|
    ensures WeaponRecords(am, ms[..i + 1], parent, playerOwned) ==
      WeaponRecords(am, ms[..i], parent, playerOwned) + [WeaponRecord(am, ms[i].kind, MountOffset(ms[i]), parent, playerOwned)]
  {
    assert ms[..i + 1][..i] == ms[..i];
  }

  lemma EngineRecordsPrefix(am: Assets, ms: seq<Mount>, i: nat, parent: Entity)
    requires am.Valid() && i < |ms|
    ensures EngineRecords(am, ms[..i + 1], parent) ==
      EngineRecords(am, ms[..i], parent) + [EngineRecord(am, ms[i].kind, MountOffset(ms[i]), parent)]
  {
    assert ms[..i + 1][..i] == ms[..i];
  }

  lemma BackgroundRecordsPrefix(am: Assets, bs: seq<BackgroundData>, i: nat)
    requires am.Valid() && i < |bs|
    ensures BackgroundRecords(am, bs[..i + 1]) == BackgroundRecords(am, bs[..i]) + [BackgroundRecord(am, bs[i].image, bs[i].layer)]
  {
    assert bs[..i + 1][..i] == bs[..i];
  }

  lemma ObjectRecordsPrefix(am: Assets, os: seq<MapObject>, i: nat)
    requires am.Valid() && i < |os|
    ensures var o := os[i];
      ObjectRecords(am, os[..i + 1]) == ObjectRecords(am, os[..i]) + [ObjectRecord(am, o.texture, Vec2(o.x, o.y), o.layer)]
  {
    assert os[..i + 1][..i] == os[..i];
  }

  /** The weapon loop of both ship spawners: one weapon entity per mount,
      parented to `parent`. */
  method SpawnWeapons(reg: Registry, am: Assets, ms: seq<Mount>, parent: Entity, playerOwned: bool)
    requires reg.Valid()
    modifies reg
    ensures reg.Valid()
    ensures reg.State() == Spawned(old(reg.State()), WeaponRecords(am, ms, parent, playerOwned))
  {
    ghost var w0 := reg.State();
    var i := 0;
    while i < |ms|
      invariant 0 <= i <= |ms|
      invariant reg.Valid()
      invariant reg.State() == Spawned(w0, WeaponRecords(am, ms[..i], parent, playerOwned))
    {
      ghost var w1 := reg.State();
      var e;
      if playerOwned {
        e := SpawnPlayerWeapon(reg, am, ms[i].kind, MountOffset(ms[i]), parent);
      } else {
        e := SpawnWeapon(reg, am, ms[i].kind, MountOffset(ms[i]), parent);
      }
      WeaponRecordsPrefix(am, ms, i, parent, playerOwned);
      SpawnedChain(w0, w1, reg.State(), WeaponRecords(am, ms[..i], parent, playerOwned),
                   [WeaponRecord(am, ms[i].kind, MountOffset(ms[i]), parent, playerOwned)],
                   WeaponRecords(am, ms[..i + 1], parent, playerOwned));
      i := i + 1;
    }
    assert ms[..i] == ms;
  }

  method SpawnShip(reg: Registry, am: Assets, key: string, position: Vec2, affiliation: nat) returns (e: Entity)
    requires reg.Valid() && am.Valid()
    modifies reg
    ensures reg.Valid() && e == old(reg.next)
    ensures reg.State() == Spawned(old(reg.State()), ShipRecords(am, key, position, affiliation, e))
  {
    ghost var w0 := reg.State();
    var ship := am.GetShip(key);
    var r := Bare.(transform := Some(TransformAt(position)));
    r := r.(physics := Some(DefaultPhysics));
    if ship.Failure? {
      e := SpawnOne(reg, r);
      return;
    }
    var s := ship.value;
    r := r.(renderable := Some(am.GetTexture(s.texture)));
    r := r.(renderOrder := Some(0));
    r := r.(collider := Some(Collider(s.radius, 1, 2)));
    r := r.(affiliation := Some(affiliation));
    r := r.(thrusting := Some(false));
    e := SpawnOne(reg, r);
    SpawnWeapons(reg, am, s.weapons, e, false);
    SpawnedConcat(w0, [r], WeaponRecords(am, s.weapons, e, false));
  }

  /** The engine loop of `spawn_player_ship`: one engine entity per mount,
      and the thrusts and turn rates of the engines found. */
  method SpawnEngines(reg: Registry, am: Assets, ms: seq<Mount>, parent: Entity)
    returns (thrusts: seq<real>, turns: seq<real>)
    requires reg.Valid() && am.Valid()
    modifies reg
    ensures reg.Valid()
    ensures reg.State() == Spawned(old(reg.State()), EngineRecords(am, ms, parent))
    ensures thrusts == Thrusts(am, ms) && turns == Turns(am, ms)
  {
    ghost var w0 := reg.State();
    thrusts, turns := [], [];
    var i := 0;
    while i < |ms|
      invariant 0 <= i <= |ms|
      invariant reg.Valid()
      invariant reg.State() == Spawned(w0, EngineRecords(am, ms[..i], parent))
      invariant thrusts == Thrusts(am, ms[..i]) && turns == Turns(am, ms[..i])
    {
      ghost var w1 := reg.State();
      var _ := SpawnEngine(reg, am, ms[i].kind, MountOffset(ms[i]), parent);
      EngineRecordsPrefix(am, ms, i, parent);
      SpawnedChain(w0, w1, reg.State(), EngineRecords(am, ms[..i], parent),
                   [EngineRecord(am, ms[i].kind, MountOffset(ms[i]), parent)], EngineRecords(am, ms[..i + 1], parent));
      var found := am.GetEngine(ms[i].kind);
      if found.Success? {
        thrusts := thrusts + [found.value.thrust];
        turns := turns + [found.value.rotation];
      }
      assert ms[..i + 1][..i] == ms[..i];
      i := i + 1;
    }
    assert ms[..i] == ms;
  }

  /** A running total, as the two summing loops keep it. */
  method Total(xs: seq<real>) returns (total: real)
    ensures total == Sum(xs)
  {
    total := 0.0;
    var i := 0;
    while i < |xs|
      invariant 0 <= i <= |xs|
      invariant total == Sum(xs[..i])
    {
      SumSnoc(xs[..i], xs[i]);
      assert xs[..i + 1] == xs[..i] + [xs[i]];
      total := total + xs[i];
      i := i + 1;
    }
    assert xs[..i] == xs;
  }

  /** How `spawn_player_ship` lays out its entities when the ship is found. */
  lemma PlayerShipFound(am: Assets, key: string, position: Vec2, id: Entity)
    requires am.Valid() && key in am.ships
    ensures var s := am.ships[key];
      PlayerShipRecords(am, key, position, id) ==
        [PlayerShipRecord(am, s, position)] + (WeaponRecords(am, s.weapons, id, true) + EngineRecords(am, s.engines, id))
  {
    var s := am.ships[key];
    var w := WeaponRecords(am, s.weapons, id, true);
    var e := EngineRecords(am, s.engines, id);
    assert [PlayerShipRecord(am, s, position)] + w + e == [PlayerShipRecord(am, s, position)] + (w + e);
  }

  method SpawnPlayerShip(reg: Registry, am: Assets, key: string, position: Vec2) returns (e: Entity)
    requires reg.Valid() && am.Valid()
    modifies reg
    ensures reg.Valid() && e == old(reg.next)
    ensures reg.State() == Spawned(old(reg.State()), PlayerShipRecords(am, key, position, e))
  {
    var ship := am.GetShip(key);
    if ship.Failure? {
      var r := Bare.(player := true);
      r := r.(transform := Some(TransformAt(position)));
      e := SpawnOne(reg, r);
      return;
    }
    e := SpawnFoundPlayerShip(reg, am, ship.value, position);
    PlayerShipFound(am, key, position, e);
  }

  /** `spawn_player_ship` past the lookup: the hull, its weapons and
      engines, then the hull's Physics from the engines found. */
  method SpawnFoundPlayerShip(reg: Registry, am: Assets, s: ShipData, position: Vec2) returns (e: Entity)
    requires reg.Valid() && am.Valid()
    modifies reg
    ensures reg.Valid() && e == old(reg.next)
    ensures reg.State() == Spawned(old(reg.State()), [PlayerShipRecord(am, s, position)] +
      (WeaponRecords(am, s.weapons, e, true) + EngineRecords(am, s.engines, e)))
  {
    ghost var w0 := reg.State();
    var r := Bare.(player := true);
    r := r.(transform := Some(TransformAt(position)));
    r := r.(renderable := Some(am.GetTexture(s.texture)));
    r := r.(renderOrder := Some(1000));
    r := r.(collider := Some(Collider(s.radius, 1, 2)));
    var faction := am.GetFactionId("Player");
    if faction.Success? {
      r := r.(affiliation := Some(faction.value));
    }
    ghost var hull := r;
    assert hull == PlayerHull(am, s, position);
    e := SpawnOne(reg, r);
    var physics := SpawnPlayerParts(reg, am, s, e);
    ghost var rest := WeaponRecords(am, s.weapons, e, true) + EngineRecords(am, s.engines, e);
    SpawnedThreeRuns(w0, [hull], WeaponRecords(am, s.weapons, e, true), EngineRecords(am, s.engines, e));
    r := r.(thrusting := Some(false));
    r := r.(physics := Some(physics));
    reg.Put(e, r);
    SpawnedReplaceFirst(w0, hull, r, rest);
  }

  /** The player ship's weapons and engines, and the Physics the hull gets
      from the engines found. */
  method SpawnPlayerParts(reg: Registry, am: Assets, s: ShipData, e: Entity) returns (physics: Physics)
    requires reg.Valid() && am.Valid()
    modifies reg
    ensures reg.Valid() && reg.next == old(reg.next) + |s.weapons| + |s.engines|
    ensures reg.State() == Spawned(Spawned(old(reg.State()), WeaponRecords(am, s.weapons, e, true)),
                                   EngineRecords(am, s.engines, e))
    ensures physics == PlayerPhysics(am, s)
  {
    SpawnWeapons(reg, am, s.weapons, e, true);
    physics := DefaultPhysics.(maxSpeed := s.maxSpeed);
    var thrusts, turns := SpawnEngines(reg, am, s.engines, e);
    var thrustSum := Total(thrusts);
    physics := physics.(acceleration := thrustSum);
    var turnSum := Total(turns);
    physics := physics.(rotation := turnSum);
  }

  // ---- The loaders ----

  method SpawnBackgrounds(reg: Registry, am: Assets, bs: seq<BackgroundData>)
    requires reg.Valid() && am.Valid()
    modifies reg
    ensures reg.Valid()
    ensures reg.State() == Spawned(old(reg.State()), BackgroundRecords(am, bs))
  {
    ghost var w0 := reg.State();
    var i := 0;
    while i < |bs|
      invariant 0 <= i <= |bs|
      invariant reg.Valid()
      invariant reg.State() == Spawned(w0, BackgroundRecords(am, bs[..i]))
    {
      ghost var w1 := reg.State();
      var _ := SpawnBackground(reg, am, bs[i].image, bs[i].layer);
      BackgroundRecordsPrefix(am, bs, i);
      SpawnedChain(w0, w1, reg.State(), BackgroundRecords(am, bs[..i]),
                   [BackgroundRecord(am, bs[i].image, bs[i].layer)], BackgroundRecords(am, bs[..i + 1]));
      i := i + 1;
    }
    assert bs[..i] == bs;
  }

  method SpawnObjects(reg: Registry, am: Assets, os: seq<MapObject>)
    requires reg.Valid() && am.Valid()
    modifies reg
    ensures reg.Valid()
    ensures reg.State() == Spawned(old(reg.State()), ObjectRecords(am, os))
  {
    ghost var w0 := reg.State();
    var i := 0;
    while i < |os|
      invariant 0 <= i <= |os|
      invariant reg.Valid()
      invariant reg.State() == Spawned(w0, ObjectRecords(am, os[..i]))
    {
      ghost var w1 := reg.State();
      var o := os[i];
      var _ := SpawnObject(reg, am, o.texture, Vec2(o.x, o.y), o.layer);
      ObjectRecordsPrefix(am, os, i);
      SpawnedChain(w0, w1, reg.State(), ObjectRecords(am, os[..i]),
                   [ObjectRecord(am, o.texture, Vec2(o.x, o.y), o.layer)], ObjectRecords(am, os[..i + 1]));
      i := i + 1;
    }
    assert os[..i] == os;
  }

  /** One map ship: spawned with its faction's id, or skipped. */
  method SpawnMapShip(reg: Registry, am: Assets, s: MapShip)
    requires reg.Valid() && am.Valid()
    modifies reg
    ensures reg.Valid()
    ensures reg.State() == old(Spawned(reg.State(), FleetShip(am, s, reg.next)))
  {
    var faction := am.GetFactionId(s.affiliation);
    if faction.Success? {
      var e := SpawnShip(reg, am, s.shipType, Vec2(s.x, s.y), faction.value);
    } else {
      SpawnedNone(reg.State());
    }
  }

  method SpawnFleet(reg: Registry, am: Assets, ships: seq<MapShip>)
    requires reg.Valid() && am.Valid()
    modifies reg
    ensures reg.Valid()
    ensures reg.State() == Spawned(old(reg.State()), FleetRecords(am, ships, old(reg.next)))
  {
    ghost var w0 := reg.State();
    ghost var done: seq<EntityRecord> := [];
    var i := 0;
    while i < |ships|
      invariant 0 <= i <= |ships|
      invariant reg.Valid()
      invariant reg.State() == Spawned(w0, done)
      invariant done + FleetFrom(am, ships, i, reg.next) == FleetRecords(am, ships, w0.next)
    {
      done := SpawnFleetShip(reg, am, ships, i, w0, done);
      i := i + 1;
    }
    assert done == done + FleetFrom(am, ships, i, reg.next);
  }

  /** One turn of the `load_map` ship loop: ship `i` spawned after the ships
      before it. */
  method SpawnFleetShip(reg: Registry, am: Assets, ships: seq<MapShip>, i: nat, ghost w0: World,
                        ghost done: seq<EntityRecord>) returns (ghost done': seq<EntityRecord>)
    requires reg.Valid() && am.Valid() && i < |ships|
    requires reg.State() == Spawned(w0, done)
    requires done + FleetFrom(am, ships, i, reg.next) == FleetRecords(am, ships, w0.next)
    modifies reg
    ensures reg.Valid()
    ensures reg.State() == Spawned(w0, done')
    ensures done' + FleetFrom(am, ships, i + 1, reg.next) == FleetRecords(am, ships, w0.next)
  {
    ghost var added := FleetShip(am, ships[i], reg.next);
    ghost var rest := FleetFrom(am, ships, i + 1, reg.next + |added|);
    assert FleetFrom(am, ships, i, reg.next) == added + rest;
    AppendAssoc(done, added, rest);
    SpawnMapShip(reg, am, ships[i]);
    SpawnedConcat(w0, done, added);
    done' := done + added;
  }

  lemma AppendAssoc<T>(a: seq<T>, b: seq<T>, c: seq<T>)
    ensures (a + b) + c == a + (b + c)
  {}

  method LoadMap(reg: Registry, am: Assets, key: string)
    requires reg.Valid() && am.Valid()
    modifies reg
    ensures reg.Valid()
    ensures reg.State() == Spawned(old(reg.State()), MapLoad(am, key, old(reg.next)))
  {
    var found := am.GetMap(key);
    if found.Failure? {
      SpawnedNone(reg.State());
      return;
    }
    var d := found.value;
    ghost var w0 := reg.State();
    ghost var bgs := BackgroundRecords(am, d.backgrounds);
    ghost var fleet := FleetRecords(am, d.ships, w0.next + |bgs|);
    ghost var objs := ObjectRecords(am, d.objects);
    assert MapLoad(am, key, w0.next) == bgs + fleet + objs;
    SpawnedInTurn(w0, bgs, fleet, objs);
    SpawnBackgrounds(reg, am, d.backgrounds);
    SpawnFleet(reg, am, d.ships);
    SpawnObjects(reg, am, d.objects);
  }

  method LoadStart(reg: Registry, am: Assets, key: string)
    requires reg.Valid() && am.Valid()
    modifies reg
    ensures reg.Valid()
    ensures reg.State() == Spawned(old(reg.State()), StartLoad(am, key, old(reg.next)))
  {
    var found := am.GetStart(key);
    if found.Failure? {
      SpawnedNone(reg.State());
      return;
    }
    var s := found.value;
    ghost var w0 := reg.State();
    assert s == am.starts[key];
    ghost var mapped := MapLoad(am, s.initialMap, w0.next);
    StartLoadSplits(am, key, w0.next);
    LoadMap(reg, am, s.initialMap);
    ghost var w1 := reg.State();
    assert w1 == Spawned(w0, mapped);
    assert reg.next == w0.next + |mapped|;
    var e := SpawnPlayerShip(reg, am, s.player.shipType, Vec2(s.player.x, s.player.y));
    ghost var ps := PlayerShipRecords(am, s.player.shipType, Vec2(s.player.x, s.player.y), e);
    assert StartLoad(am, key, w0.next) == mapped + ps;
    SpawnedChain(w0, w1, reg.State(), mapped, ps, StartLoad(am, key, w0.next));
  }
}
