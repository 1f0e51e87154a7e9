/** `Game::init` and `Game::update` of `Game.cpp`.  One frame is the systems
    run one after the other in a fixed order; `camera_to_player` only moves
    the camera and is not part of this model.  Between frames the registry
    is settled: no entity carries a DespawnMarker, and every child hangs off
    a live parent that holds a Transform and is neither a child nor a
    bullet.  Start-up leaves the registry settled, and so does every frame. */
module Game {
  import opened Wrappers
  import opened Components
  import opened EntityRegistry
  import opened Systems
  import opened Spawners
  import opened PlayerControl
  import opened AssetRecords
  import AssetStore

  // ---- What a frame keeps ----

  /** What the systems never change about an entity before the marking
      pass: whether it is a child and of whom, whether it holds a Transform
      and a Bullet, and whether it is marked. */
  predicate SameShape(r: EntityRecord, s: EntityRecord)
  {
    Child(r) == Child(s) && r.parent == s.parent && r.transform.Some? == s.transform.Some? &&
    r.bullet.Some? == s.bullet.Some? && r.despawnMarker == s.despawnMarker
  }

  /** `m'` keeps every entity of `m` with its shape, and the entities it adds
      are unmarked and not children. */
  ghost predicate ShapeKept(m: map<Entity, EntityRecord>, m': map<Entity, EntityRecord>)
  {
    (forall e :: e in m ==> e in m' && SameShape(m[e], m'[e])) &&
    (forall e :: e in m' && e !in m ==> !Child(m'[e]) && !m'[e].despawnMarker)
  }

  ghost predicate Unmarked(m: map<Entity, EntityRecord>)
  {
    forall e :: e in m ==> !m[e].despawnMarker
  }

  /** No live child has a bullet for a parent. */
  ghost predicate BulletsParentNothing(m: map<Entity, EntityRecord>)
  {
    forall e :: e in m && Child(m[e]) && m[e].parent.value in m ==> m[m[e].parent.value].bullet.None?
  }

  /** The registry between two frames. */
  ghost predicate Settled(m: map<Entity, EntityRecord>)
  {
    Unmarked(m) && ChildrenAttached(m) && BulletsParentNothing(m)
  }

  /** A settled registry stays settled under a change that keeps shapes. */
  lemma ShapeKeptSettled(m: map<Entity, EntityRecord>, m': map<Entity, EntityRecord>)
    requires ShapeKept(m, m') && Settled(m)
    ensures Settled(m')
  {
    forall e | e in m'
      ensures AttachedAt(m', e)
    {
      if e in m && Child(m[e]) {
        assert AttachedAt(m, e);
      }
    }
  }

  lemma ShapeKeptTrans(m1: map<Entity, EntityRecord>, m2: map<Entity, EntityRecord>, m3: map<Entity, EntityRecord>)
    requires ShapeKept(m1, m2) && ShapeKept(m2, m3)
    ensures ShapeKept(m1, m3)
  {}

  /** The timer, physics, hierarchy, background and visibility systems each
      keep every entity and its shape, and add none. */
  lemma WeaponTimersKeepShape(m: map<Entity, EntityRecord>, dt: real)
    ensures ShapeKept(m, WeaponTimersAdvanced(m, dt))
  {
    forall e | e in m ensures SameShape(m[e], AdvanceWeapon(m[e], dt)) {}
  }

  lemma BulletTimersKeepShape(m: map<Entity, EntityRecord>, dt: real)
    ensures ShapeKept(m, BulletTimersAdvanced(m, dt))
  {
    forall e | e in m ensures SameShape(m[e], AdvanceBullet(m[e], dt)) {}
  }

  lemma IntegratedKeepsShape(m: map<Entity, EntityRecord>, dt: real)
    ensures ShapeKept(m, Integrated(m, dt))
  {
    forall e | e in m ensures SameShape(m[e], Integrate(m[e], dt)) {}
  }

  lemma AttachedKeepsShape(m: map<Entity, EntityRecord>, rotate: (Vec2, real) -> Vec2)
    ensures ShapeKept(m, Attached(m, rotate))
  {
    forall e | e in m ensures SameShape(m[e], Attach(m, m[e], rotate)) {}
  }

  lemma SnappedKeepsShape(m: map<Entity, EntityRecord>, pos: Vec2)
    ensures ShapeKept(m, Snapped(m, pos))
  {
    forall e | e in m ensures SameShape(m[e], SnapTo(m[e], pos)) {}
  }

  lemma VisibilityKeepsShape(m: map<Entity, EntityRecord>)
    ensures ShapeKept(m, Visibility(m))
  {
    forall e | e in m ensures SameShape(m[e], Shown(m, m[e])) {}
  }

  /** Records that are neither marked nor children. */
  ghost predicate Loose(rs: seq<EntityRecord>)
  {
    forall k :: 0 <= k < |rs| ==> !Child(rs[k]) && !rs[k].despawnMarker
  }

  /** The bullets of a volley are neither marked nor children. */
  lemma {:induction false} ShellsShape(m: map<Entity, EntityRecord>, order: seq<Entity>, am: Assets, ph: Physics, affiliation: nat, c: Controls)
    requires am.Valid()
    ensures Loose(Shells(m, order, am, ph, affiliation, c))
    decreases |order|
  {
    if |order| > 0 {
      var o, e := order[..|order| - 1], order[|order| - 1];
      ShellsShape(m, o, am, ph, affiliation, c);
      var pre := Shells(m, o, am, ph, affiliation, c);
      var bs := Shells(m, order, am, ph, affiliation, c);
      if e in m && Ready(m[e]) {
        var b := Shell(am, m[e], ph, affiliation, c);
        assert bs == pre + [b];
        assert !Child(b);
        assert !b.despawnMarker;
        forall k | 0 <= k < |bs| ensures !Child(bs[k]) && !bs[k].despawnMarker {
          if k < |pre| {
            assert bs[k] == pre[k];
          } else {
            assert bs[k] == b;
          }
        }
      } else {
        assert bs == pre;
      }
    }
  }

  /** Cooling the weapons that fired keeps shapes. */
  lemma CooledKeepsShape(m: map<Entity, EntityRecord>, order: seq<Entity>)
    ensures ShapeKept(m, Cooled(m, order))
  {
    forall e | e in m && e in order && Ready(m[e]) ensures SameShape(m[e], Cool(m[e])) {}
  }

  /** Spawning records that are unmarked and not children keeps shapes. */
  lemma SpawnKeepsShape(w: World, bs: seq<EntityRecord>)
    requires Fresh(w)
    requires Loose(bs)
    ensures ShapeKept(w.entities, Spawned(w, bs).entities)
  {
    var m' := Spawned(w, bs).entities;
    forall e | e in m'
      ensures e in w.entities ==> m'[e] == w.entities[e]
      ensures e !in w.entities ==> !Child(m'[e]) && !m'[e].despawnMarker
    {
      SpawnedAt(w, bs, e);
    }
  }

  /** A player's turn keeps shapes: steering and cooling change no shape, and
      the bullets it adds are unmarked and not children. */
  lemma TurnKeepsShape(w: World, p: Entity, c: Controls, order: seq<Entity>, am: Assets, w': World)
    requires am.Valid() && Fresh(w) && TurnTaken(w, p, c, order, am, w')
    ensures Fresh(w') && ShapeKept(w.entities, w'.entities)
  {
    var s := Steer(w.entities[p], c);
    var steered := World(w.entities[p := s], w.next);
    SteerExactly(w.entities[p], c);
    assert ShapeKept(w.entities, steered.entities);
    if c.keys.tab {
      var ph, aff := s.physics.value, s.affiliation.value;
      VolleyExactly(steered, order, am, ph, aff, c);
      var base := World(Cooled(steered.entities, order), w.next);
      CooledKeepsShape(steered.entities, order);
      ShellsShape(steered.entities, order, am, ph, aff, c);
      SpawnKeepsShape(base, Shells(steered.entities, order, am, ph, aff, c));
      ShapeKeptTrans(w.entities, steered.entities, base.entities);
      ShapeKeptTrans(w.entities, base.entities, w'.entities);
    }
  }

  /** The turns of `player_movement`, one after another. */
  ghost predicate Turns(c: Controls, am: Assets, players: seq<Entity>, volleys: seq<seq<Entity>>, states: seq<World>)
    requires am.Valid()
  {
    |volleys| == |players| && |states| == |players| + 1 &&
    forall i :: 0 <= i < |players| ==> TurnTaken(states[i], players[i], c, volleys[i], am, states[i + 1])
  }

  /** All of `player_movement` keeps shapes. */
  lemma {:induction false} TurnsKeepShape(c: Controls, am: Assets, players: seq<Entity>, volleys: seq<seq<Entity>>, states: seq<World>, n: nat)
    requires am.Valid() && Turns(c, am, players, volleys, states) && Fresh(states[0]) && n <= |players|
    ensures Fresh(states[n]) && ShapeKept(states[0].entities, states[n].entities)
    decreases n
  {
    if n > 0 {
      TurnsKeepShape(c, am, players, volleys, states, n - 1);
      TurnKeepsShape(states[n - 1], players[n - 1], c, volleys[n - 1], am, states[n]);
      ShapeKeptTrans(states[0].entities, states[n - 1].entities, states[n].entities);
    }
  }

  /** No bullet past its lifetime is left. */
  ghost predicate NoneExpired(m: map<Entity, EntityRecord>)
  {
    forall e :: e in m ==> !Expired(m[e])
  }

  /** Marking then sweeping a settled registry: no bullet is marked twice,
      and what remains is settled again, because the parents of the
      surviving children are not bullets and so are not swept. */
  lemma SweepSettles(m: map<Entity, EntityRecord>)
    requires Settled(m)
    ensures NoExpiredBulletMarked(m)
    ensures Settled(Despawned(MarkedForDespawn(m)))
    ensures NoneExpired(Despawned(MarkedForDespawn(m)))
  {
    var d := Despawned(MarkedForDespawn(m));
    forall e | e in m
      ensures e in d <==> !Expired(m[e])
      ensures e in d ==> d[e] == m[e]
    {
      MarkThenDespawn(m, e);
    }
    forall e | e in d
      ensures AttachedAt(d, e) && !Expired(d[e])
    {
      MarkThenDespawn(m, e);
      if Child(d[e]) {
        assert AttachedAt(m, e);
        var p := m[e].parent.value;
        assert !Expired(m[p]);
      }
    }
  }

  // ---- Start-up ----

  /** `p` is one of the records `rs` spawned from id `base` on, and it can
      carry children: it holds a Transform and is neither a child nor a
      bullet. */
  ghost predicate HeldParent(base: Entity, rs: seq<EntityRecord>, p: Entity)
  {
    base <= p < base + |rs| && rs[p - base].transform.Some? && !Child(rs[p - base]) && rs[p - base].bullet.None?
  }

  /** Records to be spawned from id `base` on that keep a registry settled:
      none is marked, and each child among them hangs off one of them. */
  ghost predicate SettledRun(base: Entity, rs: seq<EntityRecord>)
  {
    forall k :: 0 <= k < |rs| ==> !rs[k].despawnMarker && (Child(rs[k]) ==> HeldParent(base, rs, rs[k].parent.value))
  }

  /** Spawning a settled run into a settled registry leaves it settled. */
  lemma SpawnSettles(w: World, rs: seq<EntityRecord>)
    requires Fresh(w) && Settled(w.entities) && SettledRun(w.next, rs)
    ensures Settled(Spawned(w, rs).entities)
  {
    var m' := Spawned(w, rs).entities;
    forall e | e in m'
      ensures !m'[e].despawnMarker && AttachedAt(m', e)
      ensures Child(m'[e]) && m'[e].parent.value in m' ==> m'[m'[e].parent.value].bullet.None?
    {
      SpawnedAt(w, rs, e);
      if Child(m'[e]) {
        SpawnedAt(w, rs, m'[e].parent.value);
        if e in w.entities {
          assert AttachedAt(w.entities, e);
        }
      }
    }
  }

  /** Two settled runs, one after the other, are a settled run. */
  lemma SettledRunAppend(base: Entity, a: seq<EntityRecord>, b: seq<EntityRecord>)
    requires SettledRun(base, a) && SettledRun(base + |a|, b)
    ensures SettledRun(base, a + b)
  {
    var ab := a + b;
    forall k | 0 <= k < |ab|
      ensures !ab[k].despawnMarker && (Child(ab[k]) ==> HeldParent(base, ab, ab[k].parent.value))
    {
      if k < |a| {
        assert ab[k] == a[k];
        if Child(a[k]) {
          var p := a[k].parent.value;
          assert HeldParent(base, a, p);
          assert ab[p - base] == a[p - base];
        }
      } else {
        assert ab[k] == b[k - |a|];
        if Child(b[k - |a|]) {
          var p := b[k - |a|].parent.value;
          assert HeldParent(base + |a|, b, p);
          assert ab[p - base] == b[p - base - |a|];
        }
      }
    }
  }

  /** Records that are neither marked nor children are a settled run from
      any id. */
  lemma LooseRun(base: Entity, rs: seq<EntityRecord>)
    requires Loose(rs)
    ensures SettledRun(base, rs)
  {}

  /** Unmarked records whose parent is `id`. */
  ghost predicate HangOff(parts: seq<EntityRecord>, id: Entity)
  {
    forall k :: 0 <= k < |parts| ==> parts[k].parent == Some(id) && !parts[k].despawnMarker
  }

  /** A hull spawned at `id`, then parts hanging off it. */
  lemma HullRun(hull: EntityRecord, parts: seq<EntityRecord>, id: Entity)
    requires hull.transform.Some? && !Child(hull) && hull.bullet.None? && !hull.despawnMarker
    requires HangOff(parts, id)
    ensures SettledRun(id, [hull] + parts)
  {
    var rs := [hull] + parts;
    forall k | 0 <= k < |rs|
      ensures !rs[k].despawnMarker && (Child(rs[k]) ==> HeldParent(id, rs, rs[k].parent.value))
    {
      if k > 0 {
        assert rs[k] == parts[k - 1];
      }
    }
  }

  lemma WeaponsHangOff(am: Assets, ms: seq<Mount>, id: Entity, playerOwned: bool)
    ensures HangOff(WeaponRecords(am, ms, id, playerOwned), id)
  {
    forall k | 0 <= k < |ms| {
      WeaponRecordsAt(am, ms, id, playerOwned, k);
    }
  }

  lemma EnginesHangOff(am: Assets, ms: seq<Mount>, id: Entity)
    requires am.Valid()
    ensures HangOff(EngineRecords(am, ms, id), id)
  {
    forall k | 0 <= k < |ms| {
      EngineRecordsAt(am, ms, id, k);
    }
  }

  /** `spawn_ship` spawns a settled run. */
  lemma ShipSettles(am: Assets, key: string, position: Vec2, affiliation: nat, id: Entity)
    requires am.Valid()
    ensures SettledRun(id, ShipRecords(am, key, position, affiliation, id))
  {
    match am.GetShip(key)
    case Failure(_) =>
      HullRun(MinimalShip(position), [], id);
      assert [MinimalShip(position)] + [] == [MinimalShip(position)];
    case Success(s) =>
      WeaponsHangOff(am, s.weapons, id, false);
      HullRun(ShipRecord(am, s, position, affiliation), WeaponRecords(am, s.weapons, id, false), id);
  }

  /** `spawn_player_ship` spawns a settled run. */
  lemma PlayerShipSettles(am: Assets, key: string, position: Vec2, id: Entity)
    requires am.Valid()
    ensures SettledRun(id, PlayerShipRecords(am, key, position, id))
  {
    if key in am.ships {
      var s := am.ships[key];
      var w := WeaponRecords(am, s.weapons, id, true);
      var g := EngineRecords(am, s.engines, id);
      var parts: seq<EntityRecord> := w + g;
      WeaponsHangOff(am, s.weapons, id, true);
      EnginesHangOff(am, s.engines, id);
      assert HangOff(parts, id) by {
        forall k | 0 <= k < |parts| ensures parts[k].parent == Some(id) && !parts[k].despawnMarker {
          if k < |w| { assert parts[k] == w[k]; } else { assert parts[k] == g[k - |w|]; }
        }
      }
      HullRun(PlayerShipRecord(am, s, position), parts, id);
      PlayerShipFound(am, key, position, id);
    } else {
      HullRun(MinimalPlayer(position), [], id);
      assert [MinimalPlayer(position)] + [] == [MinimalPlayer(position)];
    }
  }

  lemma {:induction false} BackgroundsLoose(am: Assets, bs: seq<BackgroundData>)
    requires am.Valid()
    ensures Loose(BackgroundRecords(am, bs))
    decreases |bs|
  {
    if bs != [] {
      var pre := BackgroundRecords(am, bs[..|bs| - 1]);
      BackgroundsLoose(am, bs[..|bs| - 1]);
      var rs := BackgroundRecords(am, bs);
      forall k | 0 <= k < |rs| ensures !Child(rs[k]) && !rs[k].despawnMarker {
        if k < |pre| { assert rs[k] == pre[k]; }
      }
    }
  }

  lemma {:induction false} ObjectsLoose(am: Assets, os: seq<MapObject>)
    requires am.Valid()
    ensures Loose(ObjectRecords(am, os))
    decreases |os|
  {
    if os != [] {
      var pre := ObjectRecords(am, os[..|os| - 1]);
      ObjectsLoose(am, os[..|os| - 1]);
      var rs := ObjectRecords(am, os);
      forall k | 0 <= k < |rs| ensures !Child(rs[k]) && !rs[k].despawnMarker {
        if k < |pre| { assert rs[k] == pre[k]; }
      }
    }
  }

  /** The map's ships, each spawned at the id it gets, are a settled run. */
  lemma {:induction false} FleetSettles(am: Assets, ships: seq<MapShip>, i: nat, base: Entity)
    requires am.Valid()
    ensures SettledRun(base, FleetFrom(am, ships, i, base))
    decreases |ships| - i
  {
    if i < |ships| {
      var first := FleetShip(am, ships[i], base);
      var faction := am.GetFactionId(ships[i].affiliation);
      if faction.Success? {
        ShipSettles(am, ships[i].shipType, Vec2(ships[i].x, ships[i].y), faction.value, base);
      }
      FleetSettles(am, ships, i + 1, base + |first|);
      SettledRunAppend(base, first, FleetFrom(am, ships, i + 1, base + |first|));
    }
  }

  /** `load_map` spawns a settled run. */
  lemma MapSettles(am: Assets, key: string, base: Entity)
    requires am.Valid()
    ensures SettledRun(base, MapLoad(am, key, base))
  {
    if key in am.maps {
      var d := am.maps[key];
      var bgs := BackgroundRecords(am, d.backgrounds);
      var fleet := FleetRecords(am, d.ships, base + |bgs|);
      var objs := ObjectRecords(am, d.objects);
      BackgroundsLoose(am, d.backgrounds);
      LooseRun(base, bgs);
      FleetSettles(am, d.ships, 0, base + |bgs|);
      ObjectsLoose(am, d.objects);
      LooseRun(base + |bgs| + |fleet|, objs);
      SettledRunAppend(base, bgs, fleet);
      SettledRunAppend(base, bgs + fleet, objs);
      assert MapLoad(am, key, base) == bgs + fleet + objs;
    }
  }

  /** `load_start` spawns a settled run. */
  lemma StartSettles(am: Assets, key: string, base: Entity)
    requires am.Valid()
    ensures SettledRun(base, StartLoad(am, key, base))
  {
    match am.GetStart(key)
    case Failure(_) =>
    case Success(s) =>
      var mapped := MapLoad(am, s.initialMap, base);
      MapSettles(am, s.initialMap, base);
      PlayerShipSettles(am, s.player.shipType, Vec2(s.player.x, s.player.y), base + |mapped|);
      SettledRunAppend(base, mapped, PlayerShipRecords(am, s.player.shipType, Vec2(s.player.x, s.player.y), base + |mapped|));
  }

  /** The spawning half of `Game::init`, with the assets loaded: `load_start`
      spawns the records `started`, then `spawn_player_ship` spawns a player
      ship of kind `ship` at `position`, whose hull is `player`. */
  method Populate(reg: Registry, am: Assets, start: string, ship: string, position: Vec2)
      returns (player: Entity, ghost started: seq<EntityRecord>)
    requires reg.Valid() && am.Valid() && Settled(reg.entities)
    modifies reg
    ensures reg.Valid() && Settled(reg.entities)
    ensures started == StartLoad(am, start, old(reg.next)) && player == old(reg.next) + |started|
    ensures reg.State() == Spawned(Spawned(old(reg.State()), started), PlayerShipRecords(am, ship, position, player))
  {
    ghost var w0 := reg.State();
    started := StartLoad(am, start, w0.next);
    LoadStart(reg, am, start);
    ghost var w1 := reg.State();
    player := SpawnPlayerShip(reg, am, ship, position);
    PopulateSettles(am, start, ship, position, w0, w1, reg.State(), player);
  }

  /** A start loaded, then a player ship spawned at the next id: the two
      spawns, one after the other, leave a settled registry settled. */
  lemma PopulateSettles(am: Assets, start: string, ship: string, position: Vec2, w0: World, w1: World, w2: World, e: Entity)
    requires am.Valid() && Fresh(w0) && Settled(w0.entities)
    requires w1 == Spawned(w0, StartLoad(am, start, w0.next))
    requires e == w1.next && w2 == Spawned(w1, PlayerShipRecords(am, ship, position, e))
    ensures w2 == Spawned(Spawned(w0, StartLoad(am, start, w0.next)), PlayerShipRecords(am, ship, position, e))
    ensures e == w0.next + |StartLoad(am, start, w0.next)|
    ensures Settled(w2.entities)
  {
    StartSettles(am, start, w0.next);
    SpawnSettles(w0, StartLoad(am, start, w0.next));
    PlayerShipSettles(am, ship, position, e);
    SpawnSettles(w1, PlayerShipRecords(am, ship, position, e));
  }

  /** The start `Game::init` asks for; no start of the shipped assets has
      this name. */
  const StartKey := "Multi-start unsupported still. Harass Luna if this is limiting you"

  /** Where `Game::init` puts the player's ship of kind "example". */
  const PlayerStart := Vec2(200.0, 200.0)

  /** `Game::init` on a settled registry: the assets are loaded from the
      walked directory `root`; a failed load throws out of `init`, which
      here is the failed outcome with the registry untouched.  Otherwise the
      start `StartKey` is loaded and an "example" player ship spawned at
      `PlayerStart` (the ghost results are the player's hull and the records
      the start spawns), and the registry is settled for the first frame. */
  method Init(reg: Registry, mgr: AssetStore.AssetManager, root: Option<seq<AssetStore.DirEntry>>)
      returns (outcome: Outcome<string>, ghost player: Entity, ghost started: seq<EntityRecord>)
    requires reg.Valid() && mgr.Valid() && Settled(reg.entities)
    modifies reg, mgr
    ensures mgr.Valid() && reg.Valid() && Settled(reg.entities)
    ensures root.None? ==> outcome.Fail?
    ensures outcome.Fail? ==> reg.State() == old(reg.State())
    ensures outcome.Pass? ==>
      started == StartLoad(mgr.View(), StartKey, old(reg.next)) && player == old(reg.next) + |started| &&
      reg.State() == Spawned(Spawned(old(reg.State()), started), PlayerShipRecords(mgr.View(), "example", PlayerStart, player))
  {
    outcome := mgr.LoadAssets(root);
    if outcome.Fail? {
      player, started := reg.next, [];
      return;
    }
    var am := mgr.View();
    player, started := Populate(reg, am, StartKey, "example", PlayerStart);
    assert mgr.View() == am;
  }


  // ---- The frame ----

  /** Where `update_background_position` may leave the backgrounds. */
  ghost predicate BackdropAt(m: map<Entity, EntityRecord>, pos: Option<Vec2>)
  {
    (pos.None? <==> PlayerPositions(m) == {}) && (pos.Some? ==> pos.value in PlayerPositions(m))
  }

  function SnappedTo(m: map<Entity, EntityRecord>, pos: Option<Vec2>): map<Entity, EntityRecord>
  {
    if pos.Some? then Snapped(m, pos.value) else m
  }

  /** Everything after `player_movement`: physics, the hierarchy, the
      backgrounds, engine visibility, then marking and sweeping. */
  function Rest(moved: map<Entity, EntityRecord>, dt: real, rotate: (Vec2, real) -> Vec2, pos: Option<Vec2>): map<Entity, EntityRecord>
  {
    Despawned(MarkedForDespawn(Visibility(SnappedTo(Attached(Integrated(moved, dt), rotate), pos))))
  }

  /** `Game::update(dt)`: the systems in frame order.  The ghost results are
      the order in which `player_movement` visited players and weapons, the
      registry between its turns, and where the backgrounds went.  A settled
      registry is settled again after the frame, and no bullet past its
      lifetime survives it. */
  method Update(reg: Registry, am: Assets, c: Controls, rotate: (Vec2, real) -> Vec2)
      returns (ghost players: seq<Entity>, ghost volleys: seq<seq<Entity>>, ghost states: seq<World>, ghost pos: Option<Vec2>)
    requires reg.Valid() && am.Valid() && Settled(reg.entities)
    modifies reg
    ensures Turns(c, am, players, volleys, states)
    ensures states[0] == World(BulletTimersAdvanced(WeaponTimersAdvanced(old(reg.entities), c.dt), c.dt), old(reg.next))
    ensures Enumerates(players, Pilots(states[0].entities))
    ensures BackdropAt(Attached(Integrated(states[|players|].entities, c.dt), rotate), pos)
    ensures reg.entities == Rest(states[|players|].entities, c.dt, rotate, pos) && reg.next == states[|players|].next
    ensures reg.Valid() && Settled(reg.entities) && NoneExpired(reg.entities)
  {
    ghost var m0 := reg.entities;
    UpdateWeaponTimers(reg, c.dt);
    WeaponTimersKeepShape(m0, c.dt);
    ghost var m1 := reg.entities;
    UpdateBulletTimers(reg, c.dt);
    BulletTimersKeepShape(m1, c.dt);
    ShapeKeptTrans(m0, m1, reg.entities);
    ghost var m2 := reg.entities;

    players, volleys, states := PlayerMovement(reg, am, c);
    assert Turns(c, am, players, volleys, states);
    TurnsKeepShape(c, am, players, volleys, states, |players|);
    ShapeKeptTrans(m0, m2, reg.entities);
    ghost var moved := reg.entities;

    UpdatePhysicsTransforms(reg, c.dt);
    IntegratedKeepsShape(moved, c.dt);
    ShapeKeptTrans(m0, moved, reg.entities);
    ShapeKeptSettled(m0, reg.entities);
    ghost var m3 := reg.entities;

    UpdateLocalTransforms(reg, rotate);
    AttachedKeepsShape(m3, rotate);
    ShapeKeptTrans(m0, m3, reg.entities);
    ghost var m4 := reg.entities;

    pos := UpdateBackgroundPosition(reg);
    if pos.Some? {
      SnappedKeepsShape(m4, pos.value);
      ShapeKeptTrans(m0, m4, reg.entities);
    }
    ghost var m5 := reg.entities;

    EngineVisibility(reg);
    VisibilityKeepsShape(m5);
    ShapeKeptTrans(m0, m5, reg.entities);
    ShapeKeptSettled(m0, reg.entities);
    SweepSettles(reg.entities);

    MarkBulletsForDespawn(reg);
    DespawnEntities(reg);
  }
}
