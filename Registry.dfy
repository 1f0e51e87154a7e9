/** The entity registry: a finite map from entity id to the record of the
    components that entity holds, plus the id the next `create` hands out.
    Each `Option` field is one component storage; a `bool` field is a tag
    component (an empty struct). */
module EntityRegistry {
  import opened Wrappers
  import opened Components
  import opened AssetRecords

  type Entity = nat

  datatype EntityRecord = EntityRecord(
    transform: Option<Transform>,
    relative: Option<RelativeTransform>,
    parent: Option<Entity>,
    physics: Option<Physics>,
    collider: Option<Collider>,
    affiliation: Option<nat>,
    weapon: Option<Weapon>,
    bullet: Option<Bullet>,
    engine: Option<Engine>,
    thrusting: Option<bool>,
    renderable: Option<Texture>,
    renderOrder: Option<int>,
    despawnMarker: bool,
    shouldNotRender: bool,
    player: bool,
    playerWeapon: bool,
    background: bool)

  /** A freshly created entity holds no component. */
  const Bare := EntityRecord(None, None, None, None, None, None, None, None, None, None, None, None,
                             false, false, false, false, false)

  /** The component storages, by name, for stating which ones an entity uses. */
  datatype ComponentKind =
    | TransformKind | RelativeTransformKind | ParentKind | PhysicsKind | ColliderKind | AffiliationKind
    | WeaponKind | BulletKind | EngineKind | ThrustingKind | RenderableKind | RenderOrderKind
    | DespawnMarkerKind | ShouldNotRenderKind | PlayerKind | PlayerWeaponKind | BackgroundKind

  /** The components an entity holds. */
  function Holds(r: EntityRecord): set<ComponentKind>
  {
    (if r.transform.Some? then {TransformKind} else {}) +
    (if r.relative.Some? then {RelativeTransformKind} else {}) +
    (if r.parent.Some? then {ParentKind} else {}) +
    (if r.physics.Some? then {PhysicsKind} else {}) +
    (if r.collider.Some? then {ColliderKind} else {}) +
    (if r.affiliation.Some? then {AffiliationKind} else {}) +
    (if r.weapon.Some? then {WeaponKind} else {}) +
    (if r.bullet.Some? then {BulletKind} else {}) +
    (if r.engine.Some? then {EngineKind} else {}) +
    (if r.thrusting.Some? then {ThrustingKind} else {}) +
    (if r.renderable.Some? then {RenderableKind} else {}) +
    (if r.renderOrder.Some? then {RenderOrderKind} else {}) +
    (if r.despawnMarker then {DespawnMarkerKind} else {}) +
    (if r.shouldNotRender then {ShouldNotRenderKind} else {}) +
    (if r.player then {PlayerKind} else {}) +
    (if r.playerWeapon then {PlayerWeaponKind} else {}) +
    (if r.background then {BackgroundKind} else {})
  }

  /** A freshly created entity holds nothing. */
  lemma BareHoldsNothing()
    ensures Holds(Bare) == {}
  {}

  /** The records `rs` at the consecutive ids `base`, `base + 1`, ... */
  function Run(base: Entity, rs: seq<EntityRecord>): map<Entity, EntityRecord>
  {
    map e: Entity | base <= e < base + |rs| :: rs[Offset(e, base)]
  }

  /** The position of id `e` in a run starting at `base`. */
  function Offset(e: Entity, base: Entity): int
  {
    e - base
  }

  /** The registry as a value: the live records and the next id. */
  datatype World = World(entities: map<Entity, EntityRecord>, next: Entity)

  /** Every live id was handed out before `next`. */
  ghost predicate Fresh(w: World)
  {
    forall e :: e in w.entities ==> e < w.next
  }

  /** `rs` spawned in order: each gets the next id. */
  function Spawned(w: World, rs: seq<EntityRecord>): (r: World)
    ensures r.next == w.next + |rs|
    ensures Fresh(w) ==> Fresh(r)
  {
    World(w.entities + Run(w.next, rs), w.next + |rs|)
  }

  /** What a spawn holds: the new ids carry the records in order, and every
      older id keeps its record. */
  lemma SpawnedAt(w: World, rs: seq<EntityRecord>, e: Entity)
    requires Fresh(w)
    ensures e in Spawned(w, rs).entities <==> e in w.entities || w.next <= e < w.next + |rs|
    ensures w.next <= e < w.next + |rs| ==> Spawned(w, rs).entities[e] == rs[e - w.next]
    ensures e in w.entities ==> Spawned(w, rs).entities[e] == w.entities[e]
  {}

  lemma SpawnedNone(w: World)
    ensures Spawned(w, []) == w
  {
    assert Run(w.next, []) == map[];
  }

  lemma SpawnedOne(w: World, r: EntityRecord)
    ensures Spawned(w, [r]) == World(w.entities[w.next := r], w.next + 1)
  {
    assert Run(w.next, [r]) == map[w.next := r];
  }

  /** Replacing the record of the first entity of a run after the run was
      spawned is spawning the run with the new record. */
  lemma SpawnedReplaceFirst(w: World, r: EntityRecord, r': EntityRecord, rest: seq<EntityRecord>)
    ensures World(Spawned(w, [r] + rest).entities[w.next := r'], w.next + 1 + |rest|) == Spawned(w, [r'] + rest)
  {
    var a := Spawned(w, [r] + rest).entities[w.next := r'];
    var b := Spawned(w, [r'] + rest).entities;
    forall e: Entity | e in a
      ensures e in b && a[e] == b[e]
    {
      if w.next < e < w.next + 1 + |rest| {
        assert ([r] + rest)[e - w.next] == ([r'] + rest)[e - w.next];
      }
    }
    assert a == b;
  }

  /** Three runs spawned one after the other; the first id of the first run
      is live afterwards. */
  lemma SpawnedThreeRuns(w: World, a: seq<EntityRecord>, b: seq<EntityRecord>, c: seq<EntityRecord>)
    requires |a| > 0
    ensures Spawned(Spawned(Spawned(w, a), b), c) == Spawned(w, a + (b + c))
    ensures w.next in Spawned(w, a + (b + c)).entities
  {
    var abc := a + (b + c);
    assert a + b + c == abc;
    SpawnedInTurn(w, a, b, c);
    assert w.next in Run(w.next, abc);
  }

  /** Three runs spawned one after the other are their concatenation. */
  lemma SpawnedInTurn(w: World, a: seq<EntityRecord>, b: seq<EntityRecord>, c: seq<EntityRecord>)
    ensures Spawned(Spawned(Spawned(w, a), b), c) == Spawned(w, a + b + c)
  {
    SpawnedConcat(w, a, b);
    SpawnedConcat(w, a + b, c);
  }

  /** Replacing the record of an entity that was live before a spawn
      commutes with the spawn. */
  lemma SpawnedUpdate(w: World, rs: seq<EntityRecord>, e: Entity, r: EntityRecord)
    requires e < w.next
    ensures World(Spawned(w, rs).entities[e := r], w.next + |rs|) == Spawned(World(w.entities[e := r], w.next), rs)
  {
    assert e !in Run(w.next, rs);
  }

  /** `SpawnedConcat` for worlds and runs named by the caller. */
  lemma SpawnedChain(w0: World, w1: World, w2: World, a: seq<EntityRecord>, b: seq<EntityRecord>, all: seq<EntityRecord>)
    requires w1 == Spawned(w0, a) && w2 == Spawned(w1, b) && all == a + b
    ensures w2 == Spawned(w0, all)
  {
    SpawnedConcat(w0, a, b);
  }

  /** Spawning two runs one after the other is spawning their concatenation. */
  lemma SpawnedConcat(w: World, rs: seq<EntityRecord>, ts: seq<EntityRecord>)
    ensures Spawned(Spawned(w, rs), ts) == Spawned(w, rs + ts)
  {
    var a := Spawned(Spawned(w, rs), ts).entities;
    var b := Spawned(w, rs + ts).entities;
    forall e: Entity | e in a
      ensures e in b && a[e] == b[e]
    {
      if w.next + |rs| <= e < w.next + |rs| + |ts| {
        assert ts[e - (w.next + |rs|)] == (rs + ts)[e - w.next];
      } else if w.next <= e < w.next + |rs| {
        assert rs[e - w.next] == (rs + ts)[e - w.next];
      }
    }
    assert a == b;
  }

  // ---- Iteration order of a view ----

  /** No entity is listed twice. */
  ghost predicate Distinct(order: seq<Entity>)
  {
    forall i, j :: 0 <= i < j < |order| ==> order[i] != order[j]
  }

  /** `order` lists every entity of `s` exactly once. */
  ghost predicate Enumerates(order: seq<Entity>, s: set<Entity>)
  {
    Distinct(order) && (forall i :: 0 <= i < |order| ==> order[i] in s) && (forall e :: e in s ==> e in order)
  }

  /** The view's iteration order: its entities one after another, in an
      order the model leaves open. */
  method ViewOrder(s: set<Entity>) returns (order: seq<Entity>)
    ensures Enumerates(order, s)
  {
    order := [];
    var rest := s;
    while rest != {}
      invariant rest <= s
      invariant Distinct(order)
      invariant forall i :: 0 <= i < |order| ==> order[i] in s && order[i] !in rest
      invariant forall e :: e in s ==> e in rest || e in order
      decreases |rest|
    {
      var e :| e in rest;
      order := order + [e];
      rest := rest - {e};
    }
  }

  class Registry {
    var entities: map<Entity, EntityRecord>
    var next: Entity

    /** Every live id was handed out before `next`. */
    ghost predicate Valid()
      reads this
    {
      Fresh(State())
    }

    function State(): World
      reads this
    {
      World(entities, next)
    }

    constructor ()
      ensures Valid() && entities == map[] && next == 0
    {
      entities := map[];
      next := 0;
    }

    /** `registry.create()`: a new id holding no component. */
    method Create() returns (e: Entity)
      requires Valid()
      modifies this
      ensures Valid()
      ensures e == old(next) && e !in old(entities)
      ensures entities == old(entities)[e := Bare] && next == old(next) + 1
    {
      e := next;
      entities := entities[e := Bare];
      next := next + 1;
    }

    /** `registry.destroy(e)` for a live entity: it and all its components go. */
    method Destroy(e: Entity)
      requires Valid() && e in entities
      modifies this
      ensures Valid()
      ensures entities == old(entities) - {e} && next == old(next)
    {
      entities := entities - {e};
    }

    /** Replaces the record of a live entity (the `emplace` calls of a spawner). */
    method Put(e: Entity, r: EntityRecord)
      requires Valid() && e in entities
      modifies this
      ensures Valid()
      ensures entities == old(entities)[e := r] && next == old(next)
    {
      entities := entities[e := r];
    }
  }
}
