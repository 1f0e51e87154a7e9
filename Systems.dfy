/** The per-frame systems of `Systems.cpp` that read and write only the
    registry.  Each one is a loop over the entities of a view, and each is
    specified by a function on the entity map: the method's postcondition ties
    the new map to that function of the old one, and the lemmas below say what
    the function means. */
module Systems {
  import opened Wrappers
  import opened Timers
  import opened Components
  import opened EntityRegistry

  // ---- The shape of `view.each` ----

  /** Visits the entities whose record is in the view, in an unspecified
      order, and replaces each record by `f` of it.  No update here changes
      view membership, so the view is taken once, before the loop. */
  method UpdateEach(reg: Registry, inView: EntityRecord -> bool, f: EntityRecord -> EntityRecord)
    requires reg.Valid()
    modifies reg
    ensures reg.Valid() && reg.next == old(reg.next)
    ensures reg.entities.Keys == old(reg.entities).Keys
    ensures forall e :: e in old(reg.entities) ==>
      reg.entities[e] == (if inView(old(reg.entities)[e]) then f(old(reg.entities)[e]) else old(reg.entities)[e])
  {
    ghost var m := reg.entities;
    var todo: set<Entity> := set e | e in reg.entities && inView(reg.entities[e]);
    while todo != {}
      invariant reg.Valid() && reg.next == old(reg.next)
      invariant reg.entities.Keys == m.Keys
      invariant forall e :: e in todo ==> e in m && inView(m[e])
      invariant forall e :: e in m ==>
        reg.entities[e] == (if inView(m[e]) && e !in todo then f(m[e]) else m[e])
      decreases |todo|
    {
      var e :| e in todo;
      reg.Put(e, f(reg.entities[e]));
      todo := todo - {e};
    }
  }

  // ---- despawn_entities ----

  /** The entities without a DespawnMarker, untouched. */
  function Despawned(m: map<Entity, EntityRecord>): map<Entity, EntityRecord>
  {
    map e | e in m && !m[e].despawnMarker :: m[e]
  }

  /** Exactly the marked entities are destroyed; every other entity keeps
      every component. */
  lemma DespawnedExactly(m: map<Entity, EntityRecord>, e: Entity)
    ensures e in Despawned(m) <==> e in m && !m[e].despawnMarker
    ensures e in Despawned(m) ==> Despawned(m)[e] == m[e]
  {}

  /** No entity left carries the marker, so a second sweep destroys nothing. */
  lemma DespawnIdempotent(m: map<Entity, EntityRecord>)
    ensures Despawned(Despawned(m)) == Despawned(m)
  {
    var d := Despawned(m);
    assert forall e :: e in d ==> !d[e].despawnMarker;
  }

  /** Collects the marked entities into a vector, then destroys them. */
  method DespawnEntities(reg: Registry)
    requires reg.Valid()
    modifies reg
    ensures reg.Valid() && reg.next == old(reg.next)
    ensures reg.entities == Despawned(old(reg.entities))
  {
    ghost var m := reg.entities;
    var view := set e | e in reg.entities && reg.entities[e].despawnMarker;
    var toDestroy := ViewOrder(view);
    var i := 0;
    while i < |toDestroy|
      invariant 0 <= i <= |toDestroy|
      invariant reg.Valid() && reg.next == old(reg.next)
      invariant reg.entities == map e | e in m && e !in toDestroy[..i] :: m[e]
    {
      assert toDestroy[i] !in toDestroy[..i];
      reg.Destroy(toDestroy[i]);
      assert toDestroy[..i + 1] == toDestroy[..i] + [toDestroy[i]];
      i := i + 1;
    }
    assert toDestroy[..i] == toDestroy;
  }

  // ---- mark_bullets_for_despawn ----

  predicate Expired(r: EntityRecord)
  {
    r.bullet.Some? && IsDone(r.bullet.value.despawnTimer)
  }

  function Mark(r: EntityRecord): EntityRecord
  {
    if Expired(r) then r.(despawnMarker := true) else r
  }

  function MarkedForDespawn(m: map<Entity, EntityRecord>): map<Entity, EntityRecord>
  {
    map e | e in m :: Mark(m[e])
  }

  /** `emplace` of a component the entity already holds is not allowed, so no
      expired bullet may carry the marker yet. */
  ghost predicate NoExpiredBulletMarked(m: map<Entity, EntityRecord>)
  {
    forall e :: e in m && Expired(m[e]) ==> !m[e].despawnMarker
  }

  /** The marker is added to exactly the bullets whose despawn timer is done;
      nothing else changes. */
  lemma MarkedExactly(m: map<Entity, EntityRecord>, e: Entity)
    requires e in m
    ensures e in MarkedForDespawn(m)
    ensures MarkedForDespawn(m)[e].despawnMarker <==> m[e].despawnMarker || Expired(m[e])
    ensures MarkedForDespawn(m)[e] == m[e].(despawnMarker := MarkedForDespawn(m)[e].despawnMarker)
  {}

  /** Marking then sweeping removes the expired bullets and the entities
      marked before, and keeps everything else. */
  lemma MarkThenDespawn(m: map<Entity, EntityRecord>, e: Entity)
    ensures e in Despawned(MarkedForDespawn(m)) <==> e in m && !m[e].despawnMarker && !Expired(m[e])
    ensures e in Despawned(MarkedForDespawn(m)) ==> Despawned(MarkedForDespawn(m))[e] == m[e]
  {}

  method MarkBulletsForDespawn(reg: Registry)
    requires reg.Valid() && NoExpiredBulletMarked(reg.entities)
    modifies reg
    ensures reg.Valid() && reg.next == old(reg.next)
    ensures reg.entities == MarkedForDespawn(old(reg.entities))
  {
    UpdateEach(reg, (r: EntityRecord) => r.bullet.Some?, Mark);
  }

  // ---- update_bullet_timers, update_weapon_timers ----

  function AdvanceBullet(r: EntityRecord, dt: real): EntityRecord
  {
    match r.bullet
    case None => r
    case Some(b) => r.(bullet := Some(b.(despawnTimer := Updated(b.despawnTimer, dt))))
  }

  function AdvanceWeapon(r: EntityRecord, dt: real): EntityRecord
  {
    match r.weapon
    case None => r
    case Some(w) => r.(weapon := Some(w.(fireTimer := Updated(w.fireTimer, dt))))
  }

  function BulletTimersAdvanced(m: map<Entity, EntityRecord>, dt: real): map<Entity, EntityRecord>
  {
    map e | e in m :: AdvanceBullet(m[e], dt)
  }

  function WeaponTimersAdvanced(m: map<Entity, EntityRecord>, dt: real): map<Entity, EntityRecord>
  {
    map e | e in m :: AdvanceWeapon(m[e], dt)
  }

  /** A record after one timer advance per frame, over several frames. */
  function AdvanceBulletAll(r: EntityRecord, deltas: seq<real>): EntityRecord
    decreases |deltas|
  {
    if deltas == [] then r else AdvanceBulletAll(AdvanceBullet(r, deltas[0]), deltas[1..])
  }

  lemma {:induction false} AdvanceBulletAllTimer(r: EntityRecord, deltas: seq<real>)
    requires r.bullet.Some?
    ensures AdvanceBulletAll(r, deltas) == r.(bullet := Some(r.bullet.value.(despawnTimer := UpdatedAll(r.bullet.value.despawnTimer, deltas))))
    decreases |deltas|
  {
    if deltas != [] {
      AdvanceBulletAllTimer(AdvanceBullet(r, deltas[0]), deltas[1..]);
    }
  }

  /** A bullet whose despawn timer was started with its lifetime expires once
      the frame times add up to that lifetime: it is then marked. */
  lemma BulletExpiresAfterLifetime(r: EntityRecord, deltas: seq<real>)
    requires r.bullet.Some? && r.bullet.value.despawnTimer == StartedWith(NewTimerFor(r.bullet.value.lifetime), r.bullet.value.lifetime)
    requires Sum(deltas) >= r.bullet.value.lifetime
    ensures Expired(AdvanceBulletAll(r, deltas))
    ensures Mark(AdvanceBulletAll(r, deltas)).despawnMarker
  {
    AdvanceBulletAllTimer(r, deltas);
    StartThenUpdatesIsDone(NewTimerFor(r.bullet.value.lifetime), r.bullet.value.lifetime, deltas);
  }

  /** Only timers move: the bullet's damage and lifetime and all other
      components are left as they were. */
  lemma TimersOnlyMoveTimers(m: map<Entity, EntityRecord>, dt: real, e: Entity)
    requires e in m
    ensures e in BulletTimersAdvanced(m, dt) && e in WeaponTimersAdvanced(m, dt)
    ensures var r := BulletTimersAdvanced(m, dt)[e];
      r.bullet.Some? == m[e].bullet.Some? &&
      r == m[e].(bullet := r.bullet) &&
      (r.bullet.Some? ==> r.bullet.value == m[e].bullet.value.(despawnTimer := Updated(m[e].bullet.value.despawnTimer, dt)))
    ensures var r := WeaponTimersAdvanced(m, dt)[e];
      r.weapon.Some? == m[e].weapon.Some? &&
      r == m[e].(weapon := r.weapon) &&
      (r.weapon.Some? ==> r.weapon.value == m[e].weapon.value.(fireTimer := Updated(m[e].weapon.value.fireTimer, dt)))
  {}

  method UpdateBulletTimers(reg: Registry, dt: real)
    requires reg.Valid()
    modifies reg
    ensures reg.Valid() && reg.next == old(reg.next)
    ensures reg.entities == BulletTimersAdvanced(old(reg.entities), dt)
  {
    UpdateEach(reg, (r: EntityRecord) => r.bullet.Some?, r => AdvanceBullet(r, dt));
  }

  method UpdateWeaponTimers(reg: Registry, dt: real)
    requires reg.Valid()
    modifies reg
    ensures reg.Valid() && reg.next == old(reg.next)
    ensures reg.entities == WeaponTimersAdvanced(old(reg.entities), dt)
  {
    UpdateEach(reg, (r: EntityRecord) => r.weapon.Some?, r => AdvanceWeapon(r, dt));
  }

  // ---- update_physics_transforms ----

  function Integrate(r: EntityRecord, dt: real): EntityRecord
  {
    match (r.transform, r.physics)
    case (Some(t), Some(p)) => r.(transform := Some(t.(position := Add(t.position, Scale(p.velocity, dt)))))
    case _ => r
  }

  function Integrated(m: map<Entity, EntityRecord>, dt: real): map<Entity, EntityRecord>
  {
    map e | e in m :: Integrate(m[e], dt)
  }

  /** An entity with Transform and Physics moves by velocity times `dt`;
      nothing else about it, and nothing about any other entity, changes. */
  lemma IntegratedMoves(m: map<Entity, EntityRecord>, dt: real, e: Entity)
    requires e in m
    ensures e in Integrated(m, dt)
    ensures m[e].transform.Some? && m[e].physics.Some? ==>
      Integrated(m, dt)[e] == m[e].(transform := Some(m[e].transform.value.(position :=
        Vec2(m[e].transform.value.position.x + m[e].physics.value.velocity.x * dt,
             m[e].transform.value.position.y + m[e].physics.value.velocity.y * dt))))
    ensures !(m[e].transform.Some? && m[e].physics.Some?) ==> Integrated(m, dt)[e] == m[e]
  {
    assert Integrated(m, dt)[e] == Integrate(m[e], dt);
  }

  /** Velocity is constant within the system, so two steps are one step over
      the summed time. */
  lemma IntegrateAdditive(m: map<Entity, EntityRecord>, dt1: real, dt2: real)
    ensures Integrated(Integrated(m, dt1), dt2) == Integrated(m, dt1 + dt2)
  {
    forall e | e in m
      ensures Integrate(Integrate(m[e], dt1), dt2) == Integrate(m[e], dt1 + dt2)
    {
      var r := m[e];
      if r.transform.Some? && r.physics.Some? {
        var v := r.physics.value.velocity;
        assert v.x * dt1 + v.x * dt2 == v.x * (dt1 + dt2);
        assert v.y * dt1 + v.y * dt2 == v.y * (dt1 + dt2);
      }
    }
  }

  method UpdatePhysicsTransforms(reg: Registry, dt: real)
    requires reg.Valid()
    modifies reg
    ensures reg.Valid() && reg.next == old(reg.next)
    ensures reg.entities == Integrated(old(reg.entities), dt)
  {
    UpdateEach(reg, (r: EntityRecord) => r.transform.Some? && r.physics.Some?, r => Integrate(r, dt));
  }

  // ---- engine_visibility ----

  predicate EngineChild(r: EntityRecord)
  {
    r.engine.Some? && r.parent.Some?
  }

  /** The parent holds Thrusting and it is active.  A parent that is no
      longer in the registry counts as not thrusting. */
  predicate ParentThrusting(m: map<Entity, EntityRecord>, p: Entity)
  {
    p in m && m[p].thrusting == Some(true)
  }

  function Shown(m: map<Entity, EntityRecord>, r: EntityRecord): EntityRecord
  {
    if EngineChild(r) then r.(shouldNotRender := !ParentThrusting(m, r.parent.value)) else r
  }

  function Visibility(m: map<Entity, EntityRecord>): map<Entity, EntityRecord>
  {
    map e | e in m :: Shown(m, m[e])
  }

  /** An engine child is hidden iff its parent is not thrusting; no other
      component and no other entity changes. */
  lemma VisibilityExactly(m: map<Entity, EntityRecord>, e: Entity)
    requires e in m
    ensures e in Visibility(m)
    ensures EngineChild(m[e]) ==>
      (Visibility(m)[e].shouldNotRender <==>
        !(m[e].parent.value in m && m[m[e].parent.value].thrusting.Some? && m[m[e].parent.value].thrusting.value))
    ensures Visibility(m)[e] == m[e].(shouldNotRender := Visibility(m)[e].shouldNotRender)
    ensures !EngineChild(m[e]) ==> Visibility(m)[e] == m[e]
  {}

  /** Running the system twice is running it once. */
  lemma VisibilityIdempotent(m: map<Entity, EntityRecord>)
    ensures Visibility(Visibility(m)) == Visibility(m)
  {
    var v := Visibility(m);
    assert forall p :: ParentThrusting(v, p) == ParentThrusting(m, p);
    forall e | e in v
      ensures Shown(v, v[e]) == v[e]
    {
      if EngineChild(m[e]) {
        assert ParentThrusting(v, m[e].parent.value) == ParentThrusting(m, m[e].parent.value);
      }
    }
  }

  method EngineVisibility(reg: Registry)
    requires reg.Valid()
    modifies reg
    ensures reg.Valid() && reg.next == old(reg.next)
    ensures reg.entities == Visibility(old(reg.entities))
  {
    // Only ShouldNotRender changes and Thrusting is read, so reading the
    // parents from the registry as it was before the pass is the same.
    var before := reg.entities;
    UpdateEach(reg, EngineChild, (r: EntityRecord) => Shown(before, r));
  }

  // ---- update_local_transforms ----

  predicate Child(r: EntityRecord)
  {
    r.transform.Some? && r.relative.Some? && r.parent.Some?
  }

  /** What `registry.get<Transform>(parent)` needs, plus a one-level
      hierarchy: every child's parent is live, holds a Transform, and is not
      itself a child. */
  ghost predicate ChildrenAttached(m: map<Entity, EntityRecord>)
  {
    forall e :: e in m ==> AttachedAt(m, e)
  }

  ghost predicate AttachedAt(m: map<Entity, EntityRecord>, e: Entity)
    requires e in m
  {
    Child(m[e]) ==>
      m[e].parent.value in m && m[m[e].parent.value].transform.Some? && !Child(m[m[e].parent.value])
  }

  /** The child placed at its parent's position plus the offset rotated by
      the parent's rotation (`rotate` stands for `Vector2Rotate` with the
      angle in degrees), and turned by the parent's rotation plus its own. */
  function Attach(m: map<Entity, EntityRecord>, r: EntityRecord, rotate: (Vec2, real) -> Vec2): EntityRecord
  {
    if Child(r) && r.parent.value in m && m[r.parent.value].transform.Some? then
      var pt := m[r.parent.value].transform.value;
      var rel := r.relative.value;
      r.(transform := Some(r.transform.value.(
        position := Add(pt.position, rotate(rel.offset, pt.rotation)),
        rotation := pt.rotation + rel.rotation)))
    else r
  }

  function Attached(m: map<Entity, EntityRecord>, rotate: (Vec2, real) -> Vec2): map<Entity, EntityRecord>
  {
    map e | e in m :: Attach(m, m[e], rotate)
  }

  /** A child ends up where its parent is plus the rotated offset, turned
      like its parent plus its own relative rotation, with its size kept. */
  lemma AttachedFollowsParent(m: map<Entity, EntityRecord>, rotate: (Vec2, real) -> Vec2, e: Entity)
    requires ChildrenAttached(m) && e in m && Child(m[e])
    ensures e in Attached(m, rotate)
    ensures var pt := m[m[e].parent.value].transform.value;
      var t := Attached(m, rotate)[e].transform.value;
      t.position == Add(pt.position, rotate(m[e].relative.value.offset, pt.rotation)) &&
      t.rotation == pt.rotation + m[e].relative.value.rotation &&
      t.size == m[e].transform.value.size
  {}

  /** Parents do not move, so the hierarchy stays well formed and a second
      pass changes nothing. */
  lemma AttachedIdempotent(m: map<Entity, EntityRecord>, rotate: (Vec2, real) -> Vec2)
    requires ChildrenAttached(m)
    ensures ChildrenAttached(Attached(m, rotate))
    ensures Attached(Attached(m, rotate), rotate) == Attached(m, rotate)
  {
    var a := Attached(m, rotate);
    assert forall e :: e in m && !Child(m[e]) ==> a[e] == m[e];
    forall e | e in a
      ensures Attach(a, a[e], rotate) == a[e]
    {
      if Child(m[e]) {
        assert a[m[e].parent.value] == m[m[e].parent.value];
      }
    }
  }

  /** Parents are never in the view, so a parent's Transform read during
      the loop is the one it had before the loop. */
  method UpdateLocalTransforms(reg: Registry, rotate: (Vec2, real) -> Vec2)
    requires reg.Valid() && ChildrenAttached(reg.entities)
    modifies reg
    ensures reg.Valid() && reg.next == old(reg.next)
    ensures reg.entities == Attached(old(reg.entities), rotate)
  {
    var before := reg.entities;
    UpdateEach(reg, Child, (r: EntityRecord) => Attach(before, r, rotate));
    assert forall e :: e in before && !Child(before[e]) ==> Attach(before, before[e], rotate) == before[e];
  }

  // ---- update_background_position ----

  predicate PlacedPlayer(r: EntityRecord)
  {
    r.player && r.transform.Some?
  }

  predicate PlacedBackground(r: EntityRecord)
  {
    r.background && r.transform.Some?
  }

  function SnapTo(r: EntityRecord, pos: Vec2): EntityRecord
  {
    if PlacedBackground(r) then r.(transform := Some(r.transform.value.(position := pos))) else r
  }

  /** Every background moved to `pos`. */
  function Snapped(m: map<Entity, EntityRecord>, pos: Vec2): map<Entity, EntityRecord>
  {
    map e | e in m :: SnapTo(m[e], pos)
  }

  /** Where the players with a Transform stand. */
  function PlayerPositions(m: map<Entity, EntityRecord>): set<Vec2>
  {
    set e | e in m && PlacedPlayer(m[e]) :: m[e].transform.value.position
  }

  /** A later snap overrides an earlier one. */
  lemma SnapLastWins(m: map<Entity, EntityRecord>, a: Vec2, b: Vec2)
    ensures Snapped(Snapped(m, a), b) == Snapped(m, b)
  {
    var s := Snapped(m, a);
    assert forall e :: e in m ==> SnapTo(s[e], b) == SnapTo(m[e], b);
  }

  /** Snapping changes only background positions. */
  lemma SnappedExactly(m: map<Entity, EntityRecord>, pos: Vec2, e: Entity)
    requires e in m
    ensures e in Snapped(m, pos)
    ensures PlacedBackground(m[e]) ==>
      Snapped(m, pos)[e] == m[e].(transform := Some(m[e].transform.value.(position := pos)))
    ensures !PlacedBackground(m[e]) ==> Snapped(m, pos)[e] == m[e]
  {}

  /** After the first snap to a player's position, every player still stands
      where some player stood before. */
  lemma SnapKeepsPlayerPositions(m: map<Entity, EntityRecord>, c: Vec2, p: Entity)
    requires c in PlayerPositions(m)
    requires p in m && PlacedPlayer(m[p])
    ensures p in Snapped(m, c) && PlacedPlayer(Snapped(m, c)[p])
    ensures Snapped(m, c)[p].transform.value.position in PlayerPositions(m)
  {
    assert m[p].transform.value.position in PlayerPositions(m);
  }

  method SnapBackgrounds(reg: Registry, pos: Vec2)
    requires reg.Valid()
    modifies reg
    ensures reg.Valid() && reg.next == old(reg.next)
    ensures reg.entities == Snapped(old(reg.entities), pos)
  {
    UpdateEach(reg, PlacedBackground, r => SnapTo(r, pos));
  }

  /** `update_background_position`: for each player in turn, every background
      is moved onto it.  With several players the last one visited wins; the
      ghost result `pos` is where the backgrounds ended up, and it is the
      position of one of the players.  With no player nothing changes. */
  method UpdateBackgroundPosition(reg: Registry) returns (ghost pos: Option<Vec2>)
    requires reg.Valid()
    modifies reg
    ensures reg.Valid() && reg.next == old(reg.next)
    ensures pos.None? <==> PlayerPositions(old(reg.entities)) == {}
    ensures pos.None? ==> reg.entities == old(reg.entities)
    ensures pos.Some? ==>
      pos.value in PlayerPositions(old(reg.entities)) && reg.entities == Snapped(old(reg.entities), pos.value)
  {
    ghost var m := reg.entities;
    var players: set<Entity> := set e | e in reg.entities && PlacedPlayer(reg.entities[e]);
    ghost var all := players;
    pos := None;
    while players != {}
      invariant reg.Valid() && reg.next == old(reg.next)
      invariant players <= all
      invariant forall e :: e in all <==> e in m && PlacedPlayer(m[e])
      invariant pos.None? <==> players == all
      invariant pos.None? ==> reg.entities == m
      invariant pos.Some? ==> pos.value in PlayerPositions(m) && reg.entities == Snapped(m, pos.value)
      decreases |players|
    {
      var p :| p in players;
      ghost var before := reg.entities;
      if pos.Some? {
        SnapKeepsPlayerPositions(m, pos.value, p);
      } else {
        assert m[p].transform.value.position in PlayerPositions(m);
      }
      var at := reg.entities[p].transform.value.position;
      SnapBackgrounds(reg, at);
      if pos.Some? {
        SnapLastWins(m, pos.value, at);
      }
      pos := Some(at);
      players := players - {p};
    }
    if pos.None? {
      assert all == {};
      assert forall e :: e in m && PlacedPlayer(m[e]) ==> e in all;
      assert PlayerPositions(m) == {};
    }
  }

  /** With a single player, the backgrounds move onto it. */
  lemma SinglePlayerSnaps(m: map<Entity, EntityRecord>, p: Entity, pos: Vec2)
    requires p in m && PlacedPlayer(m[p])
    requires forall e :: e in m && PlacedPlayer(m[e]) ==> e == p
    requires pos in PlayerPositions(m)
    ensures pos == m[p].transform.value.position
  {}
}
