/** The ordering half of `render_sprites` in `Systems.cpp`: the drawable
    entities are collected into a vector in view order, and the vector is
    sorted by render layer before drawing. */
module Rendering {
  import opened Wrappers
  import opened EntityRegistry

  /** In `view<Transform, Renderable, RenderOrder>(exclude<ShouldNotRender>)`. */
  predicate Drawable(r: EntityRecord)
  {
    r.transform.Some? && r.renderable.Some? && r.renderOrder.Some? && !r.shouldNotRender
  }

  function DrawableIn(m: map<Entity, EntityRecord>): set<Entity>
  {
    set e | e in m && Drawable(m[e])
  }

  /** The sort key: `registry.get<RenderOrder>(e).layer`.  Only entities of
      the view are ever compared, and they all hold a RenderOrder; the default
      layer stands in for any other id. */
  function LayerOf(m: map<Entity, EntityRecord>, e: Entity): int
  {
    if e in m && m[e].renderOrder.Some? then m[e].renderOrder.value else 0
  }

  /** The keys never decrease along `s`. */
  ghost predicate SortedBy(key: Entity -> int, s: seq<Entity>)
  {
    forall p, q :: 0 <= p < q < |s| ==> key(s[p]) <= key(s[q])
  }

  /** The layers never decrease along `s`. */
  ghost predicate SortedByLayer(m: map<Entity, EntityRecord>, s: seq<Entity>)
  {
    forall p, q :: 0 <= p < q < |s| ==> LayerOf(m, s[p]) <= LayerOf(m, s[q])
  }

  /** `x` placed before the first element of the sorted `s` whose key is
      not smaller. */
  function Insert(key: Entity -> int, s: seq<Entity>, x: Entity): seq<Entity>
    decreases |s|
  {
    if |s| == 0 then [x]
    else if key(x) <= key(s[0]) then [x] + s
    else [s[0]] + Insert(key, s[1..], x)
  }

  /** `std::ranges::sort` with the comparator `key(a) < key(b)`.  The library
      sort is not stable; the lemmas below promise only what it promises,
      sorted and a permutation. */
  function SortBy(key: Entity -> int, s: seq<Entity>): seq<Entity>
    decreases |s|
  {
    if |s| == 0 then [] else Insert(key, SortBy(key, s[..|s| - 1]), s[|s| - 1])
  }

  /** Insertion adds `x` and keeps everything else. */
  lemma {:induction false} InsertPermutes(key: Entity -> int, s: seq<Entity>, x: Entity)
    ensures multiset(Insert(key, s, x)) == multiset(s) + multiset{x}
    decreases |s|
  {
    if |s| > 0 && key(x) > key(s[0]) {
      InsertPermutes(key, s[1..], x);
      assert s == [s[0]] + s[1..];
    }
  }

  /** A key no larger than every key of a sorted sequence can go in front. */
  lemma SortedCons(key: Entity -> int, h: Entity, r: seq<Entity>)
    requires SortedBy(key, r)
    requires forall k :: 0 <= k < |r| ==> key(h) <= key(r[k])
    ensures SortedBy(key, [h] + r)
  {
    var t := [h] + r;
    forall p, q | 0 <= p < q < |t| ensures key(t[p]) <= key(t[q]) {
      assert t[q] == r[q - 1];
      if p > 0 {
        assert t[p] == r[p - 1];
      }
    }
  }

  /** Insertion into a sorted sequence keeps it sorted. */
  lemma {:induction false} InsertSorted(key: Entity -> int, s: seq<Entity>, x: Entity)
    requires SortedBy(key, s)
    ensures SortedBy(key, Insert(key, s, x))
    decreases |s|
  {
    if |s| == 0 {
    } else if key(x) <= key(s[0]) {
      SortedCons(key, x, s);
    } else {
      var t := s[1..];
      InsertSorted(key, t, x);
      InsertPermutes(key, t, x);
      var r := Insert(key, t, x);
      forall k | 0 <= k < |r| ensures key(s[0]) <= key(r[k]) {
        assert r[k] in multiset(r);
        if r[k] != x {
          assert r[k] in multiset(t);
          var q :| 0 <= q < |t| && t[q] == r[k];
          assert s[q + 1] == r[k];
        }
      }
      SortedCons(key, s[0], r);
    }
  }

  /** The sort's result is sorted and a permutation of its input. */
  lemma {:induction false} SortBySorted(key: Entity -> int, s: seq<Entity>)
    ensures SortedBy(key, SortBy(key, s))
    ensures multiset(SortBy(key, s)) == multiset(s)
    decreases |s|
  {
    if |s| > 0 {
      var o := s[..|s| - 1];
      SortBySorted(key, o);
      InsertSorted(key, SortBy(key, o), s[|s| - 1]);
      InsertPermutes(key, SortBy(key, o), s[|s| - 1]);
      assert s == o + [s[|s| - 1]];
    }
  }

  /** A list of distinct entities holds each entity of the set it
      enumerates exactly once. */
  lemma {:induction false} EnumeratesOnce(order: seq<Entity>, s: set<Entity>)
    requires Enumerates(order, s)
    ensures multiset(order) == multiset(s)
    decreases |order|
  {
    if |order| == 0 {
      assert forall e :: e in s ==> e in order;
      assert s == {};
    } else {
      var o := order[..|order| - 1];
      var x := order[|order| - 1];
      assert order == o + [x];
      assert x !in o by {
        forall i | 0 <= i < |o| ensures o[i] != x { assert o[i] == order[i]; }
      }
      assert Enumerates(o, s - {x}) by {
        forall i | 0 <= i < |o| ensures o[i] in s - {x} { assert o[i] == order[i]; }
        forall e | e in s - {x} ensures e in o {
          assert e in order;
          var k :| 0 <= k < |order| && order[k] == e;
          assert k < |o|;
          assert o[k] == e;
        }
      }
      EnumeratesOnce(o, s - {x});
      assert s == (s - {x}) + {x};
      assert multiset(s) == multiset(s - {x}) + multiset{x};
    }
  }

  /** `render_sprites` up to the draw calls: the queue it draws, front to
      back.  The registry is only read. */
  method RenderQueue(reg: Registry) returns (queue: seq<Entity>)
    ensures multiset(queue) == multiset(DrawableIn(reg.entities))
    ensures SortedByLayer(reg.entities, queue)
  {
    var m := reg.entities;
    var view := set e | e in m && Drawable(m[e]);
    var collected := ViewOrder(view);
    EnumeratesOnce(collected, view);
    var layer := (e: Entity) => LayerOf(m, e);
    queue := SortBy(layer, collected);
    SortBySorted(layer, collected);
  }

  /** Each drawable entity is drawn once, and nothing else is drawn. */
  lemma QueueDrawsEachOnce(m: map<Entity, EntityRecord>, queue: seq<Entity>, e: Entity)
    requires multiset(queue) == multiset(DrawableIn(m))
    ensures multiset(queue)[e] == if e in m && Drawable(m[e]) then 1 else 0
    ensures e in queue <==> e in m && Drawable(m[e])
  {
    assert e in queue <==> e in multiset(queue);
  }

  /** An entity on a lower layer is drawn before one on a higher layer, and
      so ends up underneath it. */
  lemma LowerLayerFirst(m: map<Entity, EntityRecord>, queue: seq<Entity>, p: nat, q: nat)
    requires SortedByLayer(m, queue) && p < |queue| && q < |queue|
    requires LayerOf(m, queue[p]) < LayerOf(m, queue[q])
    ensures p < q
  {}
}
