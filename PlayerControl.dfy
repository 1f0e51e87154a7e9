/** `player_movement` of `Systems.cpp`: each player entity turns, thrusts
    and fires its player weapons according to the keys held this frame.  The
    keyboard, the frame time, the trigonometry (`(sin, -cos)` of an angle in
    degrees) and `Vector2::Normalize` come in as the `Controls` value. */
module PlayerControl {
  import opened Wrappers
  import opened Timers
  import opened Components
  import opened EntityRegistry
  import opened Spawners

  /** The four keys the system polls. */
  datatype Keys = Keys(right: bool, left: bool, up: bool, tab: bool)

  /** What the frame brings from outside the registry. */
  datatype Controls = Controls(keys: Keys, dt: real, heading: real -> Vec2, normalize: Vec2 -> Vec2)

  function LengthSqr(v: Vec2): real
  {
    v.x * v.x + v.y * v.y
  }

  // ---- Steering ----

  /** In `view<Transform, Physics, Thrusting, Player, Affiliation>()`. */
  predicate Pilot(r: EntityRecord)
  {
    r.transform.Some? && r.physics.Some? && r.thrusting.Some? && r.player && r.affiliation.Some?
  }

  /** RIGHT adds the turn for this frame, LEFT subtracts it, and then the
      angle is corrected by at most one turn of 360 degrees each way. */
  function Turned(rotation: real, rate: real, k: Keys, dt: real): real
  {
    var r1 := if k.right then rotation + rate * dt else rotation;
    var r2 := if k.left then r1 - rate * dt else r1;
    var r3 := if r2 >= 360.0 then r2 - 360.0 else r2;
    if r3 < 0.0 then r3 + 360.0 else r3
  }

  /** The net turn the keys ask for. */
  function Steering(rate: real, k: Keys, dt: real): real
  {
    (if k.right then rate * dt else 0.0) - (if k.left then rate * dt else 0.0)
  }

  /** UP: the thrust along the heading is added, then a velocity longer than
      the top speed is rescaled to it. */
  function Pushed(ph: Physics, rotation: real, c: Controls): Physics
  {
    var v := Add(ph.velocity, Thrust(ph, rotation, c));
    if LengthSqr(v) > ph.maxSpeed * ph.maxSpeed then ph.(velocity := Rescaled(v, ph.maxSpeed, c))
    else ph.(velocity := v)
  }

  /** This frame's thrust along the heading. */
  function Thrust(ph: Physics, rotation: real, c: Controls): Vec2
  {
    Scale(c.heading(rotation), ph.acceleration * c.dt)
  }

  /** `v.Normalize() * length`. */
  function Rescaled(v: Vec2, length: real, c: Controls): Vec2
  {
    Scale(c.normalize(v), length)
  }

  /** A player's record after the frame's keys: the new heading is the one
      the thrust uses, and the Thrusting flag is whether UP is held. */
  function Steer(r: EntityRecord, c: Controls): EntityRecord
    requires Pilot(r)
  {
    var t := r.transform.value;
    var ph := r.physics.value;
    var t' := t.(rotation := Turned(t.rotation, ph.rotation, c.keys, c.dt));
    var ph' := if c.keys.up then Pushed(ph, t'.rotation, c) else ph;
    r.(transform := Some(t'), physics := Some(ph'), thrusting := Some(c.keys.up))
  }

  /** The turned angle is the old one plus the net turn, up to one full turn. */
  lemma TurnedIsSteering(rotation: real, rate: real, k: Keys, dt: real)
    ensures Turned(rotation, rate, k, dt) - (rotation + Steering(rate, k, dt)) in {-360.0, 0.0, 360.0}
  {}

  /** An angle in `[0, 360)` stays there when the turn is less than a full
      turn; holding both keys cancels out. */
  lemma TurnedInRange(rotation: real, rate: real, k: Keys, dt: real)
    requires 0.0 <= rotation < 360.0
    requires -360.0 < rate * dt < 360.0
    ensures 0.0 <= Turned(rotation, rate, k, dt) < 360.0
    ensures k.right && k.left ==> Turned(rotation, rate, k, dt) == rotation
    ensures !k.right && !k.left ==> Turned(rotation, rate, k, dt) == rotation
  {}

  /** Only one correction is applied: an angle two turns too far stays out
      of range. */
  lemma TurnedCorrectsOnce(rotation: real, rate: real, k: Keys, dt: real)
    requires rotation + Steering(rate, k, dt) >= 720.0
    ensures Turned(rotation, rate, k, dt) >= 360.0
  {}

  /** Scaling a vector scales its squared length by the square. */
  lemma ScaledLengthSqr(n: Vec2, k: real)
    ensures LengthSqr(Scale(n, k)) == LengthSqr(n) * (k * k)
  {
    assert (n.x * k) * (n.x * k) == (n.x * n.x) * (k * k);
    assert (n.y * k) * (n.y * k) == (n.y * n.y) * (k * k);
  }

  /** After UP the velocity is the thrusted one if that is within the top
      speed; otherwise, when `normalize` returns a unit vector, its length is
      exactly the top speed. */
  lemma PushedClamps(ph: Physics, rotation: real, c: Controls)
    ensures var v := Add(ph.velocity, Thrust(ph, rotation, c));
      var p := Pushed(ph, rotation, c);
      p == ph.(velocity := p.velocity) &&
      (LengthSqr(v) <= ph.maxSpeed * ph.maxSpeed ==> p.velocity == v) &&
      (LengthSqr(v) > ph.maxSpeed * ph.maxSpeed && LengthSqr(c.normalize(v)) == 1.0 ==>
        LengthSqr(p.velocity) == ph.maxSpeed * ph.maxSpeed)
  {
    var v := Add(ph.velocity, Thrust(ph, rotation, c));
    var k := ph.maxSpeed;
    if LengthSqr(v) > k * k {
      var n := c.normalize(v);
      assert Pushed(ph, rotation, c).velocity == Scale(n, k);
      ScaledLengthSqr(n, k);
      if LengthSqr(n) == 1.0 {
        assert LengthSqr(n) * (k * k) == k * k;
      }
    }
  }

  /** Steering changes only the heading, the velocity and the Thrusting
      flag, and keeps the entity a player; without UP the physics is left
      alone. */
  lemma SteerExactly(r: EntityRecord, c: Controls)
    requires Pilot(r)
    ensures var s := Steer(r, c);
      Pilot(s) &&
      s.thrusting == Some(c.keys.up) &&
      s.transform.value == r.transform.value.(rotation := Turned(r.transform.value.rotation, r.physics.value.rotation, c.keys, c.dt)) &&
      s.physics.value == r.physics.value.(velocity := s.physics.value.velocity) &&
      (!c.keys.up ==> s.physics == r.physics) &&
      (c.keys.up ==> s.physics == Some(Pushed(r.physics.value, s.transform.value.rotation, c))) &&
      s == r.(transform := s.transform, physics := s.physics, thrusting := s.thrusting)
  {}

  // ---- Firing ----

  /** In `view<Weapon, Transform, PlayerWeapon>()`. */
  predicate Mounted(r: EntityRecord)
  {
    r.weapon.Some? && r.transform.Some? && r.playerWeapon
  }

  /** A mounted weapon whose fire timer is done. */
  predicate Ready(r: EntityRecord)
  {
    Mounted(r) && IsDone(r.weapon.value.fireTimer)
  }

  function MountedWeapons(m: map<Entity, EntityRecord>): set<Entity>
  {
    set e | e in m && Mounted(m[e])
  }

  /** The weapon after firing: its fire timer restarts with its cooldown. */
  function Cool(r: EntityRecord): EntityRecord
    requires r.weapon.Some?
  {
    r.(weapon := Some(TriggerCooldown(r.weapon.value)))
  }

  /** The weapon's fire timer after the updates `deltas`. */
  function Waited(r: EntityRecord, deltas: seq<real>): EntityRecord
    requires r.weapon.Some?
  {
    r.(weapon := Some(r.weapon.value.(fireTimer := UpdatedAll(r.weapon.value.fireTimer, deltas))))
  }

  /** A weapon that just fired is ready at once only with a cooldown that is
      not positive, and again once updates adding up to its cooldown have
      passed. */
  lemma CoolThenReady(r: EntityRecord, deltas: seq<real>)
    requires Mounted(r)
    ensures Mounted(Cool(r))
    ensures Ready(Cool(r)) <==> r.weapon.value.cooldown <= 0.0
    ensures Sum(deltas) >= r.weapon.value.cooldown ==> Ready(Waited(Cool(r), deltas))
  {
    var w := r.weapon.value;
    StartFacts(w.fireTimer, w.cooldown);
    if Sum(deltas) >= w.cooldown {
      StartThenUpdatesIsDone(w.fireTimer, w.cooldown, deltas);
    }
  }

  /** The bullet a ready weapon fires for a ship moving with `ph`. */
  function Shell(am: Assets, r: EntityRecord, ph: Physics, affiliation: nat, c: Controls): EntityRecord
    requires am.Valid() && Mounted(r)
  {
    BulletRecord(am, r.transform.value, ph, r.weapon.value, affiliation, c.heading)
  }

  /** Visiting weapon `e`: if it is ready, a bullet is spawned at the next
      id and then the weapon cools down. */
  function Shot(w: World, e: Entity, am: Assets, ph: Physics, affiliation: nat, c: Controls): World
    requires am.Valid()
  {
    if e in w.entities && Ready(w.entities[e]) then
      var r := w.entities[e];
      var s := Spawned(w, [Shell(am, r, ph, affiliation, c)]);
      World(s.entities[e := Cool(r)], s.next)
    else w
  }

  /** The weapons visited in `order`, one shot after another. */
  function Volley(w: World, order: seq<Entity>, am: Assets, ph: Physics, affiliation: nat, c: Controls): World
    requires am.Valid()
    decreases |order|
  {
    if |order| == 0 then w
    else Shot(Volley(w, order[..|order| - 1], am, ph, affiliation, c), order[|order| - 1], am, ph, affiliation, c)
  }

  /** Reference definition of a volley, weapon records first: every ready
      weapon of `order` cools down... */
  function Cooled(m: map<Entity, EntityRecord>, order: seq<Entity>): map<Entity, EntityRecord>
  {
    map e | e in m :: if e in order && Ready(m[e]) then Cool(m[e]) else m[e]
  }

  /** ... and one bullet per ready weapon, in visiting order. */
  function Shells(m: map<Entity, EntityRecord>, order: seq<Entity>, am: Assets, ph: Physics, affiliation: nat, c: Controls): seq<EntityRecord>
    requires am.Valid()
    decreases |order|
  {
    if |order| == 0 then []
    else
      var e := order[|order| - 1];
      Shells(m, order[..|order| - 1], am, ph, affiliation, c) +
      (if e in m && Ready(m[e]) then [Shell(am, m[e], ph, affiliation, c)] else [])
  }

  /** One step of the reference definition. */
  lemma CooledSnoc(m: map<Entity, EntityRecord>, order: seq<Entity>, e: Entity)
    requires e in m && e !in order
    ensures Cooled(m, order + [e]) == (if Ready(m[e]) then Cooled(m, order)[e := Cool(m[e])] else Cooled(m, order))
  {
    var a := Cooled(m, order + [e]);
    var b := if Ready(m[e]) then Cooled(m, order)[e := Cool(m[e])] else Cooled(m, order);
    forall x | x in m
      ensures a[x] == b[x]
    {
      assert x in order + [e] <==> x in order || x == e;
    }
    assert a == b;
  }

  /** A shot fired after a run of bullets was spawned: the weapon, live
      before the run, keeps its place, and its bullet joins the end of the run. */
  lemma ShotOnSpawned(base: World, bs: seq<EntityRecord>, e: Entity, am: Assets, ph: Physics, affiliation: nat, c: Controls)
    requires am.Valid() && Fresh(base) && e in base.entities
    ensures var r := base.entities[e];
      Shot(Spawned(base, bs), e, am, ph, affiliation, c) ==
        if Ready(r) then Spawned(World(base.entities[e := Cool(r)], base.next), bs + [Shell(am, r, ph, affiliation, c)])
        else Spawned(base, bs)
  {
    var r := base.entities[e];
    SpawnedAt(base, bs, e);
    if Ready(r) {
      var b := Shell(am, r, ph, affiliation, c);
      SpawnedConcat(base, bs, [b]);
      SpawnedUpdate(base, bs + [b], e, Cool(r));
    }
  }

  /** A volley over distinct live weapons is the reference definition: the
      ready ones cool down, and their bullets are spawned at the next ids in
      the order the weapons were visited. */
  lemma {:induction false} VolleyExactly(w: World, order: seq<Entity>, am: Assets, ph: Physics, affiliation: nat, c: Controls)
    requires am.Valid() && Fresh(w) && Distinct(order)
    requires forall i :: 0 <= i < |order| ==> order[i] in w.entities
    ensures Volley(w, order, am, ph, affiliation, c) ==
      Spawned(World(Cooled(w.entities, order), w.next), Shells(w.entities, order, am, ph, affiliation, c))
    decreases |order|
  {
    var m := w.entities;
    if |order| == 0 {
      assert Cooled(m, order) == m;
      SpawnedNone(w);
    } else {
      var o := order[..|order| - 1];
      var e := order[|order| - 1];
      assert order == o + [e];
      assert e !in o by {
        forall i | 0 <= i < |o| ensures o[i] != e { assert o[i] == order[i]; }
      }
      VolleyExactly(w, o, am, ph, affiliation, c);
      var base := World(Cooled(m, o), w.next);
      var bs := Shells(m, o, am, ph, affiliation, c);
      assert Volley(w, order, am, ph, affiliation, c) == Shot(Spawned(base, bs), e, am, ph, affiliation, c);
      assert Cooled(m, o).Keys == m.Keys;
      assert base.entities[e] == m[e];
      ShotOnSpawned(base, bs, e, am, ph, affiliation, c);
      CooledSnoc(m, o, e);
      assert Shells(m, order, am, ph, affiliation, c) ==
        bs + (if Ready(m[e]) then [Shell(am, m[e], ph, affiliation, c)] else []);
      if !Ready(m[e]) {
        assert bs + [] == bs;
      }
    }
  }

  /** The ready weapons among those visited. */
  function ReadyAmong(m: map<Entity, EntityRecord>, order: seq<Entity>): set<Entity>
  {
    set e | e in m && e in order && Ready(m[e])
  }

  /** Visiting one more weapon adds it to the ready ones if it is ready. */
  lemma ReadyAmongSnoc(m: map<Entity, EntityRecord>, order: seq<Entity>, e: Entity)
    ensures ReadyAmong(m, order + [e]) == ReadyAmong(m, order) + (if e in m && Ready(m[e]) then {e} else {})
  {
    forall x ensures x in order + [e] <==> x in order || x == e {}
  }

  /** The ordering of the visit only decides the bullets' ids: one bullet per
      ready weapon. */
  lemma {:induction false} ShellsCount(m: map<Entity, EntityRecord>, order: seq<Entity>, am: Assets, ph: Physics, affiliation: nat, c: Controls)
    requires am.Valid() && Distinct(order)
    ensures |Shells(m, order, am, ph, affiliation, c)| == |ReadyAmong(m, order)|
    decreases |order|
  {
    if |order| > 0 {
      var o := order[..|order| - 1];
      var e := order[|order| - 1];
      assert order == o + [e];
      assert e !in o by {
        forall i | 0 <= i < |o| ensures o[i] != e { assert o[i] == order[i]; }
      }
      ShellsCount(m, o, am, ph, affiliation, c);
      ReadyAmongSnoc(m, o, e);
      assert e !in ReadyAmong(m, o);
      assert |Shells(m, order, am, ph, affiliation, c)| ==
        |Shells(m, o, am, ph, affiliation, c)| + (if e in m && Ready(m[e]) then 1 else 0);
    } else {
      assert ReadyAmong(m, order) == {};
    }
  }

  /** `Volley` one weapon further. */
  lemma VolleyPrefix(w: World, order: seq<Entity>, i: nat, am: Assets, ph: Physics, affiliation: nat, c: Controls)
    requires am.Valid() && i < |order|
    ensures Volley(w, order[..i + 1], am, ph, affiliation, c) ==
      Shot(Volley(w, order[..i], am, ph, affiliation, c), order[i], am, ph, affiliation, c)
  {
    assert order[..i + 1][..i] == order[..i];
  }

  /** The loop body of the `TAB` branch for weapon `e`: if its fire timer
      is done, a bullet is spawned and the timer restarts with the weapon's
      cooldown.  Every other live entity keeps its record. */
  method FireAt(reg: Registry, am: Assets, e: Entity, ph: Physics, affiliation: nat, c: Controls)
    requires reg.Valid() && am.Valid() && e in reg.entities && Mounted(reg.entities[e])
    modifies reg
    ensures reg.Valid() && reg.State() == Shot(old(reg.State()), e, am, ph, affiliation, c)
    ensures forall x :: x in old(reg.entities) && x != e ==> x in reg.entities && reg.entities[x] == old(reg.entities)[x]
  {
    ghost var before := reg.State();
    var r := reg.entities[e];
    var weapon := r.weapon.value;
    if IsDone(weapon.fireTimer) {
      var _ := SpawnBullet(reg, am, r.transform.value, ph, weapon, affiliation, c.heading);
      forall x | x in before.entities
        ensures x in reg.entities && reg.entities[x] == before.entities[x]
      {
        SpawnedAt(before, [Shell(am, r, ph, affiliation, c)], x);
      }
      reg.Put(e, r.(weapon := Some(weapon.(fireTimer := StartedWith(weapon.fireTimer, weapon.cooldown)))));
    }
  }

  /** The `TAB` branch: every weapon of the view is visited once, and a ready
      one fires a bullet and restarts its fire timer with its cooldown. */
  method FireWeapons(reg: Registry, am: Assets, ph: Physics, affiliation: nat, c: Controls) returns (ghost order: seq<Entity>)
    requires reg.Valid() && am.Valid()
    modifies reg
    ensures Enumerates(order, MountedWeapons(old(reg.entities)))
    ensures reg.Valid() && reg.State() == Volley(old(reg.State()), order, am, ph, affiliation, c)
  {
    var mounted := set e | e in reg.entities && Mounted(reg.entities[e]);
    var ord := ViewOrder(mounted);
    order := ord;
    ghost var w0 := reg.State();
    var i := 0;
    while i < |ord|
      invariant 0 <= i <= |ord|
      invariant reg.Valid() && reg.State() == Volley(w0, ord[..i], am, ph, affiliation, c)
      invariant forall j :: i <= j < |ord| ==> ord[j] in reg.entities && reg.entities[ord[j]] == w0.entities[ord[j]]
    {
      assert ord[i] in mounted;
      FireAt(reg, am, ord[i], ph, affiliation, c);
      VolleyPrefix(w0, ord, i, am, ph, affiliation, c);
      i := i + 1;
    }
    assert ord[..|ord|] == ord;
  }

  // ---- The whole system ----

  function Pilots(m: map<Entity, EntityRecord>): set<Entity>
  {
    set e | e in m && Pilot(m[e])
  }

  /** The frame's update of player `p`: it steers, and with TAB the weapons
      in `order` fire with its new physics and its affiliation. */
  function Turn(w: World, p: Entity, c: Controls, order: seq<Entity>, am: Assets): World
    requires am.Valid()
  {
    if p in w.entities && Pilot(w.entities[p]) then
      var s := Steer(w.entities[p], c);
      var steered := World(w.entities[p := s], w.next);
      if c.keys.tab then Volley(steered, order, am, s.physics.value, s.affiliation.value, c) else steered
    else w
  }

  /** `w'` is `w` after player `p`'s turn, with the weapons visited in
      `order`: all the mounted weapons once each if TAB is held, none
      otherwise. */
  ghost predicate TurnTaken(w: World, p: Entity, c: Controls, order: seq<Entity>, am: Assets, w': World)
    requires am.Valid()
  {
    p in w.entities && Pilot(w.entities[p]) &&
    (c.keys.tab ==> Enumerates(order, MountedWeapons(w.entities[p := Steer(w.entities[p], c)]))) &&
    (!c.keys.tab ==> order == []) &&
    w' == Turn(w, p, c, order, am)
  }

  /** The steering half of a player's turn, on the player's record: turn,
      normalise the angle, and thrust with UP. */
  method SteerPlayer(r: EntityRecord, c: Controls) returns (s: EntityRecord)
    requires Pilot(r)
    ensures s == Steer(r, c)
  {
    var t := r.transform.value;
    var ph := r.physics.value;
    var rotation := t.rotation;
    if c.keys.right {
      rotation := rotation + ph.rotation * c.dt;
    }
    if c.keys.left {
      rotation := rotation - ph.rotation * c.dt;
    }
    if rotation >= 360.0 {
      rotation := rotation - 360.0;
    }
    if rotation < 0.0 {
      rotation := rotation + 360.0;
    }
    assert rotation == Turned(t.rotation, ph.rotation, c.keys, c.dt);
    var thrusting := false;
    if c.keys.up {
      var thrust := Thrust(ph, rotation, c);
      var velocity := Add(ph.velocity, thrust);
      if LengthSqr(velocity) > ph.maxSpeed * ph.maxSpeed {
        velocity := Rescaled(velocity, ph.maxSpeed, c);
      }
      ph := ph.(velocity := velocity);
      assert ph == Pushed(r.physics.value, rotation, c);
      thrusting := true;
    }
    s := r.(transform := Some(t.(rotation := rotation)), physics := Some(ph), thrusting := Some(thrusting));
  }

  /** One player's turn. */
  method MovePlayer(reg: Registry, am: Assets, p: Entity, c: Controls) returns (ghost order: seq<Entity>)
    requires reg.Valid() && am.Valid() && p in reg.entities && Pilot(reg.entities[p])
    modifies reg
    ensures reg.Valid() && TurnTaken(old(reg.State()), p, c, order, am, reg.State())
  {
    var s := SteerPlayer(reg.entities[p], c);
    reg.Put(p, s);
    order := [];
    if c.keys.tab {
      order := FireWeapons(reg, am, s.physics.value, s.affiliation.value, c);
    }
  }

  /** A turn keeps every live player live and a player. */
  lemma TurnKeepsPilots(w: World, p: Entity, c: Controls, order: seq<Entity>, am: Assets, w': World, x: Entity)
    requires am.Valid() && Fresh(w) && TurnTaken(w, p, c, order, am, w')
    requires x in w.entities && Pilot(w.entities[x])
    ensures Fresh(w') && x in w'.entities && Pilot(w'.entities[x])
  {
    var s := Steer(w.entities[p], c);
    var steered := World(w.entities[p := s], w.next);
    SteerExactly(w.entities[p], c);
    if c.keys.tab {
      VolleyExactly(steered, order, am, s.physics.value, s.affiliation.value, c);
      var bs := Shells(steered.entities, order, am, s.physics.value, s.affiliation.value, c);
      SpawnedAt(World(Cooled(steered.entities, order), w.next), bs, x);
    }
  }

  /** `player_movement`: every player of the view, in an order the model
      leaves open, takes its turn; `states` are the registry before the
      first turn, between turns, and after the last. */
  method PlayerMovement(reg: Registry, am: Assets, c: Controls)
      returns (ghost players: seq<Entity>, ghost volleys: seq<seq<Entity>>, ghost states: seq<World>)
    requires reg.Valid() && am.Valid()
    modifies reg
    ensures Enumerates(players, Pilots(old(reg.entities)))
    ensures |volleys| == |players| && |states| == |players| + 1
    ensures states[0] == old(reg.State()) && states[|players|] == reg.State() && reg.Valid()
    ensures forall i :: 0 <= i < |players| ==> TurnTaken(states[i], players[i], c, volleys[i], am, states[i + 1])
  {
    var view := set e | e in reg.entities && Pilot(reg.entities[e]);
    var ps := ViewOrder(view);
    players := ps;
    volleys := [];
    states := [reg.State()];
    var i := 0;
    while i < |ps|
      invariant 0 <= i <= |players|
      invariant |volleys| == i && |states| == i + 1
      invariant states[0] == old(reg.State()) && states[i] == reg.State() && reg.Valid()
      invariant forall k :: 0 <= k < i ==> TurnTaken(states[k], players[k], c, volleys[k], am, states[k + 1])
      invariant forall j :: i <= j < |players| ==> players[j] in reg.entities && Pilot(reg.entities[players[j]])
    {
      assert players[i] in view;
      ghost var before := reg.State();
      ghost var order := MovePlayer(reg, am, ps[i], c);
      forall j | i < j < |players|
        ensures players[j] in reg.entities && Pilot(reg.entities[players[j]])
      {
        TurnKeepsPilots(before, players[i], c, order, am, reg.State(), players[j]);
      }
      volleys := volleys + [order];
      states := states + [reg.State()];
      i := i + 1;
    }
  }
}
