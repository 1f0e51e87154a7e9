/** `update_collision` and `on_collision` of `Systems.cpp`.  The dispatcher's
    queue is the sequence of events `update_collision` returns; the order in
    which the view hands out its entities is the ghost result `order`. */
module Collisions {
  import opened Wrappers
  import opened Components
  import opened EntityRegistry
  import opened AssetStore
  import opened Logging

  /** `Events::Collision`: the two entities, in the order the pair was visited. */
  datatype CollisionEvent = CollisionEvent(a: Entity, b: Entity)

  // ---- The pair test ----

  /** The entity is in `registry.view<Transform, Collider>()`. */
  predicate Collidable(r: EntityRecord)
  {
    r.transform.Some? && r.collider.Some?
  }

  /** The masks match in some direction and the squared distance is at most
      the squared sum of the radii. */
  predicate Touching(ta: Transform, ca: Collider, tb: Transform, cb: Collider)
  {
    MasksMatch(ca, cb) &&
    var delta := Sub(tb.position, ta.position);
    delta.x * delta.x + delta.y * delta.y <= (ca.radius + cb.radius) * (ca.radius + cb.radius)
  }

  predicate Collide(x: EntityRecord, y: EntityRecord)
    requires Collidable(x) && Collidable(y)
  {
    Touching(x.transform.value, x.collider.value, y.transform.value, y.collider.value)
  }

  /** The test does not depend on which entity comes first. */
  lemma TouchingSymmetric(ta: Transform, ca: Collider, tb: Transform, cb: Collider)
    ensures Touching(ta, ca, tb, cb) <==> Touching(tb, cb, ta, ca)
  {
    MasksMatchSymmetric(ca, cb);
    var d := Sub(tb.position, ta.position);
    var d' := Sub(ta.position, tb.position);
    assert d'.x * d'.x == d.x * d.x && d'.y * d'.y == d.y * d.y;
    assert (ca.radius + cb.radius) * (ca.radius + cb.radius) == (cb.radius + ca.radius) * (cb.radius + ca.radius);
  }

  /** An entity with a default Collider never collides with anything. */
  lemma DefaultColliderNeverTouches(ta: Transform, tb: Transform, cb: Collider)
    ensures !Touching(ta, DefaultCollider, tb, cb) && !Touching(tb, cb, ta, DefaultCollider)
  {
    DefaultColliderNeverMatches(cb);
  }

  // ---- The view and its order ----

  function ViewOf(m: map<Entity, EntityRecord>): set<Entity>
  {
    set e | e in m && Collidable(m[e])
  }

  /** Every listed entity is in the view. */
  ghost predicate InView(m: map<Entity, EntityRecord>, order: seq<Entity>)
  {
    forall i :: 0 <= i < |order| ==> order[i] in m && Collidable(m[order[i]])
  }

  // ---- update_collision ----

  /** The pair test of the loop body, on the registry snapshot `m`. */
  function Hits(m: map<Entity, EntityRecord>): (Entity, Entity) -> bool
  {
    (x: Entity, y: Entity) => x in m && y in m && Collidable(m[x]) && Collidable(m[y]) && Collide(m[x], m[y])
  }

  lemma HitsAt(m: map<Entity, EntityRecord>, x: Entity, y: Entity)
    requires x in m && y in m && Collidable(m[x]) && Collidable(m[y])
    ensures Hits(m)(x, y) == Collide(m[x], m[y])
  {}

  /** The events of row `i` of the double loop, for the columns `i < q < j`,
      under the pair test `hit`. */
  function Row(hit: (Entity, Entity) -> bool, order: seq<Entity>, i: nat, j: nat): seq<CollisionEvent>
    requires i < j <= |order|
    decreases j
  {
    if j == i + 1 then []
    else
      var x := order[i];
      var y := order[j - 1];
      Row(hit, order, i, j - 1) + (if hit(x, y) then [CollisionEvent(x, y)] else [])
  }

  /** The events of the first `n` rows. */
  function Rows(hit: (Entity, Entity) -> bool, order: seq<Entity>, n: nat): seq<CollisionEvent>
    requires n <= |order|
    decreases n
  {
    if n == 0 then [] else Rows(hit, order, n - 1) + Row(hit, order, n - 1, |order|)
  }

  /** Everything one pass over the view enqueues. */
  function Collisions(m: map<Entity, EntityRecord>, order: seq<Entity>): seq<CollisionEvent>
  {
    Rows(Hits(m), order, |order|)
  }

  /** `update_collision`: every pair `(order[i], order[j])` with `i < j` is
      tested once, and the pairs that touch are enqueued in loop order.  The
      registry is only read. */
  method UpdateCollision(reg: Registry) returns (events: seq<CollisionEvent>, ghost order: seq<Entity>)
    requires reg.Valid()
    ensures Enumerates(order, ViewOf(reg.entities)) && InView(reg.entities, order)
    ensures events == Collisions(reg.entities, order)
    ensures forall x, y :: Reported(events, x, y) <==>
      x != y && x in ViewOf(reg.entities) && y in ViewOf(reg.entities) && Collide(reg.entities[x], reg.entities[y])
    ensures forall k, l :: 0 <= k < l < |events| ==> !SamePair(events[k], events[l])
  {
    var m := reg.entities;
    var view := set e | e in m && Collidable(m[e]);
    var ord := ViewOrder(view);
    assert InView(m, ord) by {
      forall k | 0 <= k < |ord| ensures ord[k] in m && Collidable(m[ord[k]]) { assert ord[k] in view; }
    }
    order := ord;
    events := [];
    var i := 0;
    while i < |ord|
      invariant 0 <= i <= |ord|
      invariant events == Rows(Hits(m), ord, i)
    {
      var row := ScanRow(m, ord, i);
      events := events + row;
      i := i + 1;
    }
    forall x, y
      ensures Reported(events, x, y) <==>
        x != y && x in ViewOf(m) && y in ViewOf(m) && Collide(m[x], m[y])
    {
      CollisionsExactly(m, ord, x, y);
    }
    CollisionsOnce(m, ord);
  }

  /** The inner loop of `update_collision`: `order[i]` against every entity
      listed after it. */
  method ScanRow(m: map<Entity, EntityRecord>, order: seq<Entity>, i: nat) returns (row: seq<CollisionEvent>)
    requires InView(m, order) && i < |order|
    ensures row == Row(Hits(m), order, i, |order|)
  {
    var a := order[i];
    row := [];
    var j := i + 1;
    while j < |order|
      invariant i + 1 <= j <= |order|
      invariant row == Row(Hits(m), order, i, j)
    {
      var b := order[j];
      HitsAt(m, a, b);
      if Touching(m[a].transform.value, m[a].collider.value, m[b].transform.value, m[b].collider.value) {
        row := row + [CollisionEvent(a, b)];
      }
      j := j + 1;
    }
  }

  // ---- What the events are ----

  /** `x` is listed at a position in `[lo, hi)`. */
  ghost predicate ListedIn(order: seq<Entity>, x: Entity, lo: int, hi: int)
  {
    exists q :: lo <= q < hi && 0 <= q < |order| && order[q] == x
  }

  /** Every event of row `i` pairs `order[i]` with an entity listed after it,
      before column `j`. */
  lemma {:induction false} RowShape(hit: (Entity, Entity) -> bool, order: seq<Entity>, i: nat, j: nat)
    requires i < j <= |order|
    ensures forall ev :: ev in Row(hit, order, i, j) ==> ev.a == order[i] && ListedIn(order, ev.b, i + 1, j)
    decreases j
  {
    if j > i + 1 {
      RowShape(hit, order, i, j - 1);
    }
  }

  /** Row `i` holds no pair that starts with another entity. */
  lemma RowOthers(hit: (Entity, Entity) -> bool, order: seq<Entity>, i: nat, j: nat, x: Entity, y: Entity)
    requires i < j <= |order| && x != order[i]
    ensures CollisionEvent(x, y) !in Row(hit, order, i, j)
  {
    RowShape(hit, order, i, j);
  }

  /** Row `i` holds the touching pairs of `order[i]` with the entities listed
      after it, before column `j`. */
  lemma {:induction false} RowMembers(hit: (Entity, Entity) -> bool, order: seq<Entity>, i: nat, j: nat, q: nat)
    requires Distinct(order) && i < j <= |order| && q < |order|
    ensures CollisionEvent(order[i], order[q]) in Row(hit, order, i, j) <==> i < q < j && hit(order[i], order[q])
    decreases j
  {
    if j > i + 1 {
      RowMembers(hit, order, i, j - 1, q);
    }
  }

  /** Every event of the first `n` rows starts with one of the first `n`
      entities and pairs two different entities. */
  lemma {:induction false} RowsShape(hit: (Entity, Entity) -> bool, order: seq<Entity>, n: nat)
    requires Distinct(order) && n <= |order|
    ensures forall ev :: ev in Rows(hit, order, n) ==> ListedIn(order, ev.a, 0, n) && ev.a != ev.b
    decreases n
  {
    if n > 0 {
      RowsShape(hit, order, n - 1);
      RowShape(hit, order, n - 1, |order|);
    }
  }

  /** The first `n` rows hold the touching pairs `(order[p], order[q])` with
      `p < q` and `p < n`. */
  lemma {:induction false} RowsMembers(hit: (Entity, Entity) -> bool, order: seq<Entity>, n: nat, p: nat, q: nat)
    requires Distinct(order) && n <= |order| && p < |order| && q < |order|
    ensures CollisionEvent(order[p], order[q]) in Rows(hit, order, n) <==> p < n && p < q && hit(order[p], order[q])
    decreases n
  {
    if n > 0 {
      var ev := CollisionEvent(order[p], order[q]);
      var row := Row(hit, order, n - 1, |order|);
      RowsMembers(hit, order, n - 1, p, q);
      assert ev in row <==> p == n - 1 && p < q && hit(order[p], order[q]) by {
        if p == n - 1 {
          RowMembers(hit, order, n - 1, |order|, q);
        } else {
          assert order[p] != order[n - 1];
          RowOthers(hit, order, n - 1, |order|, order[p], order[q]);
        }
      }
    }
  }

  /** The pair was enqueued, in one order or the other. */
  predicate Reported(evs: seq<CollisionEvent>, x: Entity, y: Entity)
  {
    CollisionEvent(x, y) in evs || CollisionEvent(y, x) in evs
  }

  /** A pair is enqueued iff it is two different entities of the view that
      touch. */
  lemma CollisionsExactly(m: map<Entity, EntityRecord>, order: seq<Entity>, x: Entity, y: Entity)
    requires Enumerates(order, ViewOf(m))
    ensures Reported(Collisions(m, order), x, y) <==>
      x != y && x in ViewOf(m) && y in ViewOf(m) && Collide(m[x], m[y])
  {
    var hit := Hits(m);
    var evs := Collisions(m, order);
    RowsShape(hit, order, |order|);
    if x in order && y in order {
      var p :| 0 <= p < |order| && order[p] == x;
      var q :| 0 <= q < |order| && order[q] == y;
      assert x in ViewOf(m) && y in ViewOf(m);
      assert hit(x, y) == Collide(m[x], m[y]) && hit(y, x) == Collide(m[y], m[x]);
      RowsMembers(hit, order, |order|, p, q);
      RowsMembers(hit, order, |order|, q, p);
      TouchingSymmetric(m[x].transform.value, m[x].collider.value, m[y].transform.value, m[y].collider.value);
    } else {
      assert !Reported(evs, x, y) by {
        RowsInOrder(hit, order, |order|);
      }
    }
  }

  /** Only listed entities appear in events. */
  lemma {:induction false} RowsInOrder(hit: (Entity, Entity) -> bool, order: seq<Entity>, n: nat)
    requires n <= |order|
    ensures forall ev :: ev in Rows(hit, order, n) ==> ev.a in order && ev.b in order
    decreases n
  {
    if n > 0 {
      RowsInOrder(hit, order, n - 1);
      RowShape(hit, order, n - 1, |order|);
    }
  }

  /** Two events name the same unordered pair. */
  predicate SamePair(e: CollisionEvent, f: CollisionEvent)
  {
    (e.a == f.a && e.b == f.b) || (e.a == f.b && e.b == f.a)
  }

  ghost predicate OncePerPair(evs: seq<CollisionEvent>)
  {
    forall k, l :: 0 <= k < l < |evs| ==> !SamePair(evs[k], evs[l])
  }

  lemma {:induction false} RowOnce(hit: (Entity, Entity) -> bool, order: seq<Entity>, i: nat, j: nat)
    requires Distinct(order) && i < j <= |order|
    ensures OncePerPair(Row(hit, order, i, j))
    decreases j
  {
    if j > i + 1 {
      var r := Row(hit, order, i, j - 1);
      var x, y := order[i], order[j - 1];
      var tail := if hit(x, y) then [CollisionEvent(x, y)] else [];
      RowOnce(hit, order, i, j - 1);
      RowShape(hit, order, i, j - 1);
      forall e, f | e in r && f in tail ensures !SamePair(e, f) {
        var q :| i + 1 <= q < j - 1 && 0 <= q < |order| && order[q] == e.b;
        assert order[q] != y && x != y;
      }
      OnceAppend(r, tail);
    }
  }

  lemma {:induction false} RowsOnce(hit: (Entity, Entity) -> bool, order: seq<Entity>, n: nat)
    requires Distinct(order) && n <= |order|
    ensures OncePerPair(Rows(hit, order, n))
    decreases n
  {
    if n > 0 {
      var a := Rows(hit, order, n - 1);
      var b := Row(hit, order, n - 1, |order|);
      RowsOnce(hit, order, n - 1);
      RowOnce(hit, order, n - 1, |order|);
      RowsCross(hit, order, n - 1);
      OnceAppend(a, b);
    }
  }

  /** No event of the rows before `i` names a pair of row `i`. */
  lemma RowsCross(hit: (Entity, Entity) -> bool, order: seq<Entity>, i: nat)
    requires Distinct(order) && i < |order|
    ensures forall e, f :: e in Rows(hit, order, i) && f in Row(hit, order, i, |order|) ==> !SamePair(e, f)
  {
    RowsShape(hit, order, i);
    RowShape(hit, order, i, |order|);
    forall e, f | e in Rows(hit, order, i) && f in Row(hit, order, i, |order|)
      ensures !SamePair(e, f)
    {
      CrossPairDiffers(order, i, e, f);
    }
  }

  /** Two runs with no pair in common join into one with no pair twice. */
  lemma OnceAppend(a: seq<CollisionEvent>, b: seq<CollisionEvent>)
    requires OncePerPair(a) && OncePerPair(b)
    requires forall e, f :: e in a && f in b ==> !SamePair(e, f)
    ensures OncePerPair(a + b)
  {
    forall k, l | 0 <= k < l < |a + b|
      ensures !SamePair((a + b)[k], (a + b)[l])
    {
      if l < |a| {
        assert (a + b)[k] == a[k] && (a + b)[l] == a[l];
      } else if k >= |a| {
        assert (a + b)[k] == b[k - |a|] && (a + b)[l] == b[l - |a|];
      } else {
        assert (a + b)[k] == a[k] && a[k] in a;
        assert (a + b)[l] == b[l - |a|] && b[l - |a|] in b;
      }
    }
  }

  /** An event of an earlier row and one of row `i` never name the same pair. */
  lemma CrossPairDiffers(order: seq<Entity>, i: nat, e: CollisionEvent, f: CollisionEvent)
    requires Distinct(order) && i < |order|
    requires ListedIn(order, e.a, 0, i) && e.a != e.b
    requires f.a == order[i] && ListedIn(order, f.b, i + 1, |order|)
    ensures !SamePair(e, f)
  {
    var p :| 0 <= p < i && order[p] == e.a;
    var q :| i + 1 <= q < |order| && order[q] == f.b;
    assert order[p] != order[i] && order[p] != order[q];
  }

  /** No event pairs an entity with itself, and each unordered pair is
      enqueued at most once. */
  lemma CollisionsOnce(m: map<Entity, EntityRecord>, order: seq<Entity>)
    requires Enumerates(order, ViewOf(m))
    ensures var evs := Collisions(m, order);
      (forall k :: 0 <= k < |evs| ==> evs[k].a != evs[k].b) &&
      (forall k, l :: 0 <= k < l < |evs| ==> !SamePair(evs[k], evs[l]))
  {
    var evs := Collisions(m, order);
    RowsShape(Hits(m), order, |order|);
    RowsOnce(Hits(m), order, |order|);
    assert forall k :: 0 <= k < |evs| ==> evs[k] in evs;
  }

  // ---- on_collision ----

  /** What `on_collision` makes of an event. */
  datatype CollisionOutcome =
    | Unaffiliated                              // a side has no Affiliation: nothing happens
    | LookupFailed(error: string)               // a relation lookup failed: a warning
    | Relations(forward: int, backward: int)    // both relations found

  /** Both relations were found and at least one is negative: the pair is
      hostile, and `on_collision` reports it. */
  predicate Hostile(o: CollisionOutcome)
  {
    o.Relations? && (o.forward < 0 || o.backward < 0)
  }

  /** An entity that is not in the registry holds no Affiliation. */
  function AffiliationOf(m: map<Entity, EntityRecord>, e: Entity): Option<nat>
  {
    if e in m then m[e].affiliation else None
  }

  function OnCollision(m: map<Entity, EntityRecord>, am: Assets, ev: CollisionEvent): CollisionOutcome
  {
    match (AffiliationOf(m, ev.a), AffiliationOf(m, ev.b))
    case (Some(fa), Some(fb)) =>
      (match am.GetRelation(fa, fb)
       case Failure(error) => LookupFailed(error)
       case Success(forward) =>
         match am.GetRelation(fb, fa)
         case Failure(error) => LookupFailed(error)
         case Success(backward) => Relations(forward, backward))
    case _ => Unaffiliated
  }

  /** Hostility needs both affiliations, both directed lookups to succeed, and
      one of the two values to be negative. */
  lemma HostileExactly(m: map<Entity, EntityRecord>, am: Assets, ev: CollisionEvent)
    ensures var t := am.relationTable;
      Hostile(OnCollision(m, am, ev)) <==>
        ev.a in m && ev.b in m && m[ev.a].affiliation.Some? && m[ev.b].affiliation.Some? &&
        (var fa, fb := m[ev.a].affiliation.value, m[ev.b].affiliation.value;
         fa < |t| && fb < |t[fa]| && fb < |t| && fa < |t[fb]| && (t[fa][fb] < 0 || t[fb][fa] < 0))
  {}

  /** The decision does not depend on which side came first. */
  lemma OnCollisionSymmetric(m: map<Entity, EntityRecord>, am: Assets, x: Entity, y: Entity)
    ensures Hostile(OnCollision(m, am, CollisionEvent(x, y))) <==> Hostile(OnCollision(m, am, CollisionEvent(y, x)))
  {
    HostileExactly(m, am, CollisionEvent(x, y));
    HostileExactly(m, am, CollisionEvent(y, x));
  }

  function IntToString(n: int): string
  {
    if n < 0 then "-" + NatToString(-n) else NatToString(n)
  }

  /** The line `on_collision` logs for an outcome, if any. */
  function Report(o: CollisionOutcome): Option<(LogLevel, string)>
  {
    match o
    case Unaffiliated => None
    case LookupFailed(error) => Some((Warning, error))
    case Relations(forward, backward) =>
      if forward < 0 || backward < 0 then
        Some((Info, "With values of (" + IntToString(forward) + "," + IntToString(backward) + ")"))
      else None
  }

  /** A hostile pair is logged at Info level; a failed lookup at Warning
      level, with the lookup's error; anything else is silent. */
  lemma ReportExactly(o: CollisionOutcome)
    ensures Report(o).Some? && Report(o).value.0 == Info <==> Hostile(o)
    ensures Report(o).Some? && Report(o).value.0 == Warning <==> o.LookupFailed?
    ensures o.LookupFailed? ==> Report(o).value.1 == o.error
  {}

  /** `on_collision` with its logging, through the `Collision` context. */
  method HandleCollision(reg: Registry, am: Assets, logger: Logger, ev: CollisionEvent) returns (outcome: CollisionOutcome)
    requires reg.Valid()
    modifies logger
    ensures outcome == OnCollision(reg.entities, am, ev)
    ensures logger.level == old(logger.level) && |logger.sinks| == |old(logger.sinks)|
    ensures forall i :: 0 <= i < |logger.sinks| ==>
      logger.sinks[i] == old(logger.sinks)[i] +
        (if Report(outcome).Some? && AtLeast(Report(outcome).value.0, old(logger.level))
         then [Format(Report(outcome).value.0, "Collision", Report(outcome).value.1)] else [])
  {
    outcome := OnCollision(reg.entities, am, ev);
    var line := Report(outcome);
    if line.Some? {
      var _ := logger.HLog(line.value.0, "Collision", line.value.1);
    }
  }
}
