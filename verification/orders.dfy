/** Orderings against a relation: when every order of some items has an edge that does not point back. */
module Orders {
  import opened Seqs

  /** Some item is related to itself or to a later one. */
  ghost predicate PointsForward<T(!new)>(edge: (T, T) -> bool, order: seq<T>) {
    exists i, k :: 0 <= i <= k < |order| && edge(order[i], order[k])
  }

  predicate IsWalk<T>(edge: (T, T) -> bool, w: seq<T>) { forall i :: 0 <= i < |w| - 1 ==> edge(w[i], w[i + 1]) }

  predicate Among<T(==)>(w: seq<T>, items: seq<T>) { forall i :: 0 <= i < |w| ==> w[i] in items }

  /** A walk among the items that ends where it began; a single edge from an item to itself is one. */
  predicate IsCycle<T(==)>(edge: (T, T) -> bool, w: seq<T>, items: seq<T>) {
    |w| >= 2 && w[0] == w[|w| - 1] && IsWalk(edge, w) && Among(w, items)
  }

  ghost predicate HasCycle<T(!new)>(edge: (T, T) -> bool, items: seq<T>) { exists w :: IsCycle(edge, w, items) }

  ghost predicate EveryOrderPointsForward<T(!new)>(edge: (T, T) -> bool, items: seq<T>) {
    forall order :: multiset(order) == multiset(items) ==> PointsForward(edge, order)
  }

  // ---- a cycle cannot be laid out backwards ----

  /** Where all edges point back, a walk only moves back. */
  lemma {:induction false} WalksMoveBack<T(!new)>(edge: (T, T) -> bool, order: seq<T>, w: seq<T>, from: nat, to: nat)
    requires !PointsForward(edge, order) && |w| >= 2 && IsWalk(edge, w) && Among(w, order)
    requires from < |order| && order[from] == w[0] && to < |order| && order[to] == w[|w| - 1]
    ensures to < from
    decreases |w|
  {
    var n := |w| - 1;
    assert edge(w[n - 1], w[n]);
    if n > 1 {
      assert w[n - 1] in order;
      var mid: nat :| mid < |order| && order[mid] == w[n - 1];
      WalksMoveBack(edge, order, w[..n], from, mid);
      assert edge(order[mid], order[to]);
    } else {
      assert edge(order[from], order[to]);
    }
  }

  lemma CycleForces<T(!new)>(edge: (T, T) -> bool, items: seq<T>, order: seq<T>)
    requires HasCycle(edge, items) && multiset(order) == multiset(items)
    ensures PointsForward(edge, order)
  {
    if !PointsForward(edge, order) {
      var w :| IsCycle(edge, w, items);
      assert Among(w, order) by {
        forall i | 0 <= i < |w| ensures w[i] in order { assert w[i] in multiset(items); }
      }
      var at: nat :| at < |order| && order[at] == w[0];
      WalksMoveBack(edge, order, w, at, at);
    }
  }

  // ---- without one, such a layout exists ----

  /** Nothing is related to by x among the items. */
  predicate IsSink<T(==)>(edge: (T, T) -> bool, items: seq<T>, x: T) { forall k :: 0 <= k < |items| ==> !edge(x, items[k]) }

  ghost predicate NoSink<T(!new)>(edge: (T, T) -> bool, items: seq<T>) { forall x :: x in items ==> !IsSink(edge, items, x) }

  lemma WalkOn<T(!new)>(edge: (T, T) -> bool, items: seq<T>, x: T) returns (y: T)
    requires NoSink(edge, items) && x in items
    ensures y in items && edge(x, y)
  {
    var k :| 0 <= k < |items| && edge(x, items[k]);
    y := items[k];
  }

  lemma {:induction false} LongWalk<T(!new)>(edge: (T, T) -> bool, items: seq<T>, n: nat) returns (w: seq<T>)
    requires items != [] && NoSink(edge, items)
    ensures |w| == n + 1 && IsWalk(edge, w) && Among(w, items)
    decreases n
  {
    hide NoSink;
    if n == 0 {
      w := [items[0]];
    } else {
      var before := LongWalk(edge, items, n - 1);
      var y := WalkOn(edge, items, before[n - 1]);
      w := before + [y];
    }
  }

  predicate Repeats<T(==)>(w: seq<T>) { exists i, j :: 0 <= i < j < |w| && w[i] == w[j] }

  lemma {:induction false} Pigeonhole<T>(w: seq<T>, items: seq<T>)
    requires Among(w, items) && !Repeats(w)
    ensures |w| <= |items|
    decreases |w|
  {
    if w != [] {
      var n := |w| - 1;
      assert w[n] in items;
      var at :| 0 <= at < |items| && items[at] == w[n];
      var less := Without(items, at);
      forall i | 0 <= i < n ensures w[..n][i] in less {
        assert w[i] in items && w[i] != w[n];
        var k :| 0 <= k < |items| && items[k] == w[i];
        assert less[if k < at then k else k - 1] == w[i];
      }
      Pigeonhole(w[..n], less);
    }
  }

  lemma ComesRound<T(!new)>(edge: (T, T) -> bool, items: seq<T>, w: seq<T>, i: nat, j: nat)
    requires IsWalk(edge, w) && Among(w, items) && i < j < |w| && w[i] == w[j]
    ensures HasCycle(edge, items)
  {
    assert IsCycle(edge, w[i..j + 1], items);
  }

  /** If every item is related to one of them, following the edges comes round. */
  lemma NoSinkHasCycle<T(!new)>(edge: (T, T) -> bool, items: seq<T>)
    requires items != [] && NoSink(edge, items)
    ensures HasCycle(edge, items)
  {
    hide NoSink, HasCycle, IsWalk;
    var w := LongWalk(edge, items, |items|);
    if !Repeats(w) { Pigeonhole(w, items); }
    var i, j :| 0 <= i < j < |w| && w[i] == w[j];
    ComesRound(edge, items, w, i, j);
  }

  lemma FewerHaveNoCycle<T(!new)>(edge: (T, T) -> bool, items: seq<T>, at: nat)
    requires at < |items| && !HasCycle(edge, items)
    ensures !HasCycle(edge, Without(items, at))
  {
    if HasCycle(edge, Without(items, at)) {
      var w :| IsCycle(edge, w, Without(items, at));
      assert IsCycle(edge, w, items);
    }
  }

  lemma SomeSink<T(!new)>(edge: (T, T) -> bool, items: seq<T>) returns (x: T)
    requires items != [] && !HasCycle(edge, items)
    ensures x in items && IsSink(edge, items, x)
  {
    hide HasCycle;
    if NoSink(edge, items) { NoSinkHasCycle(edge, items); }
    x :| x in items && IsSink(edge, items, x);
  }

  /** Sinks first: every edge points back. */
  lemma {:induction false} BackwardOrder<T(!new)>(edge: (T, T) -> bool, items: seq<T>) returns (order: seq<T>)
    requires !HasCycle(edge, items)
    ensures multiset(order) == multiset(items) && !PointsForward(edge, order)
    decreases |items|
  {
    order := [];
    if items != [] {
      var x := SomeSink(edge, items);
      var at :| 0 <= at < |items| && items[at] == x;
      FewerHaveNoCycle(edge, items, at);
      var rest := BackwardOrder(edge, Without(items, at));
      WithoutMultiset(items, at);
      order := [x] + rest;
      SinkFirst(edge, items, x, rest);
    }
  }

  lemma SinkFirst<T(!new)>(edge: (T, T) -> bool, items: seq<T>, x: T, rest: seq<T>)
    requires IsSink(edge, items, x) && multiset([x] + rest) <= multiset(items) && !PointsForward(edge, rest)
    ensures !PointsForward(edge, [x] + rest)
  {
    var order := [x] + rest;
    forall i, k | 0 <= i <= k < |order| ensures !edge(order[i], order[k]) {
      if i == 0 {
        assert order[k] in multiset(order);
        assert order[k] in multiset(items);
        var m :| 0 <= m < |items| && items[m] == order[k];
      } else {
        assert order[i] == rest[i - 1] && order[k] == rest[k - 1];
      }
    }
  }

  /** Every order has an edge that does not point back exactly when the edges go round somewhere. */
  lemma ForwardIffCycle<T(!new)>(edge: (T, T) -> bool, items: seq<T>)
    ensures EveryOrderPointsForward(edge, items) <==> HasCycle(edge, items)
  {
    if HasCycle(edge, items) {
      forall order | multiset(order) == multiset(items) ensures PointsForward(edge, order) { CycleForces(edge, items, order); }
    } else {
      var order := BackwardOrder(edge, items);
    }
  }

  /** Any edge points forward in some order. */
  lemma WithInFront<T(!new)>(edge: (T, T) -> bool, items: seq<T>, a: T, b: T) returns (order: seq<T>)
    requires a in items && b in items && edge(a, b)
    ensures multiset(order) == multiset(items) && PointsForward(edge, order)
  {
    var i :| 0 <= i < |items| && items[i] == a;
    var k :| 0 <= k < |items| && items[k] == b;
    order := if i <= k then items else items[i := b][k := a];
    if i <= k { assert edge(order[i], order[k]); } else { assert edge(order[k], order[i]); }
  }
}
