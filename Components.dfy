/** The component records of `Components.hpp` with their default member
    initialisers, and the three `Weapon` operations of `Components.cpp`.
    Components are values held by the registry, so a weapon's fire timer is a
    `TimerState` value and `trigger_cooldown` returns the updated weapon. */
module Components {
  import opened Wrappers
  import opened Timers
  import opened AssetRecords

  datatype Vec2 = Vec2(x: real, y: real)

  function Add(a: Vec2, b: Vec2): Vec2 { Vec2(a.x + b.x, a.y + b.y) }
  function Sub(a: Vec2, b: Vec2): Vec2 { Vec2(a.x - b.x, a.y - b.y) }
  function Scale(a: Vec2, k: real): Vec2 { Vec2(a.x * k, a.y * k) }

  const Origin := Vec2(0.0, 0.0)

  datatype Transform = Transform(position: Vec2, size: Vec2, rotation: real)
  datatype RelativeTransform = RelativeTransform(offset: Vec2, size: real, rotation: real)
  /** `rotation` is the turn rate in degrees per second. */
  datatype Physics = Physics(acceleration: real, maxSpeed: real, velocity: Vec2, rotation: real)
  datatype Collider = Collider(radius: real, category: bv32, collidesWith: bv32)
  datatype Bullet = Bullet(damage: real, lifetime: real, despawnTimer: TimerState)
  datatype Engine = Engine(thrust: real)
  datatype Weapon = Weapon(munition: string, damage: real, lifetime: real, cooldown: real,
                           radius: real, shotSpeed: real, fireTimer: TimerState)

  // ---- Default member initialisers ----

  /** `Transform{}`; `Transform{p}` is `TransformAt(p)`. */
  const DefaultTransform := Transform(Origin, Vec2(1.0, 1.0), 0.0)
  function TransformAt(p: Vec2): (t: Transform)
    ensures t.position == p && t.size == DefaultTransform.size && t.rotation == DefaultTransform.rotation
  {
    DefaultTransform.(position := p)
  }

  /** `RelativeTransform{}`; `RelativeTransform{o}` is `RelativeTransformAt(o)`. */
  const DefaultRelativeTransform := RelativeTransform(Origin, 1.0, 0.0)
  function RelativeTransformAt(o: Vec2): (t: RelativeTransform)
    ensures t.offset == o && t.size == 1.0 && t.rotation == 0.0
  {
    DefaultRelativeTransform.(offset := o)
  }

  const DefaultPhysics := Physics(20.0, 400.0, Origin, 180.0)
  const DefaultCollider := Collider(0.0, 0, 0)
  const DefaultBullet := Bullet(0.0, 0.0, NewTimer())
  const DefaultEngine := Engine(20.0)
  const DefaultThrusting := false
  const DefaultLayer := 0
  const DefaultWeapon := Weapon("", 0.0, 0.01, 2000000.0, 0.0, 100.0, NewTimer())

  // ---- Collision masks ----

  /** Ships are category 1 and collide with category 2; bullets the reverse. */
  const ShipCategory: bv32 := 1
  const BulletCategory: bv32 := 2

  function ShipCollider(radius: real): Collider { Collider(radius, ShipCategory, BulletCategory) }
  function BulletCollider(radius: real): Collider { Collider(radius, BulletCategory, ShipCategory) }

  /** The mask filter of `update_collision`: either side collides with the
      other's category. */
  predicate MasksMatch(a: Collider, b: Collider)
  {
    a.collidesWith & b.category != 0 || b.collidesWith & a.category != 0
  }

  /** The filter is symmetric. */
  lemma MasksMatchSymmetric(a: Collider, b: Collider)
    ensures MasksMatch(a, b) <==> MasksMatch(b, a)
  {}

  /** A default collider has zero masks and never passes the filter. */
  lemma DefaultColliderNeverMatches(c: Collider)
    ensures !MasksMatch(DefaultCollider, c) && !MasksMatch(c, DefaultCollider)
  {}

  /** With the masks the spawners use, only ship-bullet pairs pass the filter. */
  lemma OnlyShipBulletPairsMatch(r1: real, r2: real)
    ensures MasksMatch(ShipCollider(r1), BulletCollider(r2))
    ensures MasksMatch(BulletCollider(r1), ShipCollider(r2))
    ensures !MasksMatch(ShipCollider(r1), ShipCollider(r2))
    ensures !MasksMatch(BulletCollider(r1), BulletCollider(r2))
  {}

  // ---- Weapon (Components.cpp) ----

  /** `Weapon(key, asset_manager)`, given the result of `get_weapon(key)`.  An
      unknown key gives the default weapon with lifetime 0 (the constructor's
      initialiser list overrides the member default 0.01); the constructor
      never fails.  Radius and shot speed are never taken from the asset. */
  function NewWeapon(lookup: Result<WeaponData, string>): (w: Weapon)
    ensures lookup.Failure? ==> w == Weapon("", 0.0, 0.0, 2000000.0, 0.0, 100.0, NewTimer())
    ensures lookup.Success? ==>
      w.munition == lookup.value.munition && w.damage == lookup.value.damage &&
      w.lifetime == lookup.value.lifetime && w.cooldown == lookup.value.cooldown
    ensures w.radius == DefaultWeapon.radius && w.shotSpeed == DefaultWeapon.shotSpeed
    ensures w.fireTimer == NewTimer()
  {
    var base := DefaultWeapon.(damage := 0.0, lifetime := 0.0, cooldown := 2000000.0);
    match lookup
    case Failure(_) => base
    case Success(data) =>
      base.(munition := data.munition, damage := data.damage, lifetime := data.lifetime, cooldown := data.cooldown)
  }

  /** The asset's radius does not reach the weapon component. */
  lemma WeaponIgnoresAssetRadius(data: WeaponData)
    requires data.radius != 0.0
    ensures NewWeapon(Success(data)).radius != data.radius
  {}

  /** `can_fire`: the fire timer is inactive, or done. */
  predicate CanFire(w: Weapon)
  {
    !w.fireTimer.active || IsDone(w.fireTimer)
  }

  /** `trigger_cooldown`: the fire timer restarts with the weapon's cooldown. */
  function TriggerCooldown(w: Weapon): (r: Weapon)
    ensures r.fireTimer == TimerState(w.cooldown, 0.0, true)
    ensures r == w.(fireTimer := r.fireTimer)
  {
    w.(fireTimer := StartedWith(w.fireTimer, w.cooldown))
  }

  /** Right after `trigger_cooldown` the weapon can fire iff its cooldown is
      not positive. */
  lemma TriggeredCanFire(w: Weapon)
    ensures CanFire(TriggerCooldown(w)) <==> w.cooldown <= 0.0
  {}

  /** A weapon that has not fired yet can fire, whatever its asset. */
  lemma NewWeaponCanFire(lookup: Result<WeaponData, string>)
    ensures CanFire(NewWeapon(lookup))
  {}

  /** Once the cooldown has elapsed in full, the weapon can fire again. */
  lemma CooldownElapses(w: Weapon, deltas: seq<real>)
    requires Sum(deltas) >= w.cooldown
    ensures CanFire(w.(fireTimer := UpdatedAll(TriggerCooldown(w).fireTimer, deltas)))
  {
    StartThenUpdatesIsDone(w.fireTimer, w.cooldown, deltas);
  }
}
