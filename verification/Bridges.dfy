/** Distances in the foreign-key graph,
    and the tables that others need as a bridge. */
module Bridges {
  import opened Wrappers
  import opened Sorting
  import opened Ids

  type Neighbors = map<int, seq<int>>

  // ----- Building the neighbor lists -----

  ghost predicate Joined(keys: seq<(int, int)>, a: int, b: int) {
    (a, b) in keys || (b, a) in keys
  }

  /** The neighbors that the foreign keys give t, each once, in order of first appearance. */
  function NeighborsOf(keys: seq<(int, int)>, t: int): seq<int> {
    if keys == [] then []
    else
      var (source, target) := keys[|keys| - 1];
      var earlier := NeighborsOf(keys[..|keys| - 1], t);
      var withTarget := if source == t && target !in earlier then earlier + [target] else earlier;
      if target == t && source !in withTarget then withTarget + [source] else withTarget
  }

  lemma {:induction false} NeighborsJoined(keys: seq<(int, int)>, t: int)
    ensures forall n :: n in NeighborsOf(keys, t) <==> Joined(keys, t, n)
  {
    if keys != [] {
      NeighborsJoined(keys[..|keys| - 1], t);
      assert keys == keys[..|keys| - 1] + [keys[|keys| - 1]];
      forall n ensures n in NeighborsOf(keys, t) <==> Joined(keys, t, n) {
        var earlier, last := keys[..|keys| - 1], keys[|keys| - 1];
        assert Joined(keys, t, n) <==> Joined(earlier, t, n) || last == (t, n) || last == (n, t);
      }
    }
  }

  /** What every graph built from foreign keys over tables satisfies. */
  ghost predicate GraphOver(g: Neighbors, tables: set<int>, keys: seq<(int, int)>) {
    && g.Keys == tables
    && (forall key | key in keys :: key.0 in tables && key.1 in tables)
    && (forall t, n | t in g :: n in g[t] <==> Joined(keys, t, n))
  }

  datatype RerankError = RerankError

  /** The neighbor lists, each in increasing order. */
  function NeighborGraph(tables: set<int>, keys: seq<(int, int)>): Neighbors {
    map t | t in tables :: Sort(IntLeq(), NeighborsOf(keys, t))
  }

  lemma {:induction false} NeighborGraphOver(tables: set<int>, keys: seq<(int, int)>)
    requires forall key | key in keys :: key.0 in tables && key.1 in tables
    ensures GraphOver(NeighborGraph(tables, keys), tables, keys)
    ensures forall t | t in tables :: Ordered(IntLeq(), NeighborGraph(tables, keys)[t])
  {
    var g := NeighborGraph(tables, keys);
    forall t | t in g
      ensures Ordered(IntLeq(), g[t])
      ensures forall n :: n in g[t] <==> Joined(keys, t, n)
    {
      SortOrdered(IntLeq(), NeighborsOf(keys, t));
      SortMembers(IntLeq(), NeighborsOf(keys, t));
      NeighborsJoined(keys, t);
    }
  }

  method BuildNeighbors(tables: set<int>, keys: seq<(int, int)>) returns (r: Result<Neighbors, RerankError>)
    ensures r.Ok? <==> forall key | key in keys :: key.0 in tables && key.1 in tables
    ensures r.Ok? ==> r.value == NeighborGraph(tables, keys) && GraphOver(r.value, tables, keys)
  {
    for i := 0 to |keys|
      invariant forall j | 0 <= j < i :: keys[j].0 in tables && keys[j].1 in tables
    {
      if keys[i].0 !in tables || keys[i].1 !in tables {
        assert keys[i] in keys;
        return Err(RerankError);
      }
    }
    NeighborGraphOver(tables, keys);
    return Ok(NeighborGraph(tables, keys));
  }

  // ----- Walks -----

  ghost predicate IsWalk(g: Neighbors, from: int, to: int, p: seq<int>) {
    && |p| > 0 && p[0] == from && p[|p| - 1] == to
    && forall i | 0 <= i < |p| - 1 :: Adjacent(g, p[i], p[i + 1])
  }

  ghost predicate Adjacent(g: Neighbors, a: int, b: int) {
    a in g && b in g[a]
  }

  ghost predicate Avoids(p: seq<int>, blocked: Option<int>) {
    blocked.Some? ==> blocked.value !in p
  }

  ghost predicate Reachable(g: Neighbors, blocked: Option<int>, from: int, to: int) {
    exists p :: IsWalk(g, from, to, p) && Avoids(p, blocked)
  }

  /** d gives exactly the tables reachable from start around blocked, and the length of a shortest
      such walk. */
  ghost predicate IsDistances(g: Neighbors, start: int, blocked: Option<int>, d: map<int, int>) {
    && (forall v | v in d :: exists p :: IsWalk(g, start, v, p) && Avoids(p, blocked) && |p| - 1 == d[v])
    && (forall v, p | IsWalk(g, start, v, p) && Avoids(p, blocked) :: v in d && d[v] <= |p| - 1)
  }

  // ----- Breadth-first distances -----

  /** Every neighbor of u that is not blocked has a distance, at most one more than that of u. */
  ghost predicate Relaxed(g: Neighbors, blocked: Option<int>, d: map<int, int>, u: int) {
    u in d && u in g && forall w | w in g[u] && Some(w) != blocked :: w in d && d[w] <= d[u] + 1
  }

  lemma {:induction false} WalkBound(g: Neighbors, blocked: Option<int>, start: int, d: map<int, int>, v: int,
                                     p: seq<int>)
    requires start in d && d[start] == 0
    requires forall u {:trigger Relaxed(g, blocked, d, u)} | u in d :: Relaxed(g, blocked, d, u)
    requires IsWalk(g, start, v, p) && Avoids(p, blocked)
    ensures v in d && d[v] <= |p| - 1
    decreases |p|
  {
    if |p| > 1 {
      var q := p[..|p| - 1];
      WalkBound(g, blocked, start, d, q[|q| - 1], q);
      assert Relaxed(g, blocked, d, q[|q| - 1]);
      assert Adjacent(g, p[|p| - 2], p[|p| - 1]);
      assert v in p;
    }
  }

  /** A walk around the blocked table, of this many steps. */
  ghost predicate IsShortWalk(g: Neighbors, start: int, v: int, blocked: Option<int>, walk: seq<int>, steps: int) {
    IsWalk(g, start, v, walk) && Avoids(walk, blocked) && |walk| - 1 == steps
  }

  /** The queue holds the tables with a distance, in order of distance; those before next have been
      relaxed, and no distance exceeds that of the next one by more than one. */
  ghost predicate DistanceQueue(g: Neighbors, start: int, blocked: Option<int>, queue: seq<int>, d: map<int, int>,
                                walks: map<int, seq<int>>, next: int) {
    && start in d && d[start] == 0
    && (forall v | v in d :: v in g)
    && (forall v {:trigger Listed(queue, v)} | v in d :: Listed(queue, v))
    && (forall k | 0 <= k < |queue| :: queue[k] in d && queue[k] in walks)
    && |queue| == |d|
    && (forall v | v in d :: v in walks && IsShortWalk(g, start, v, blocked, walks[v], d[v]))
    && (forall j, k | 0 <= j < k < |queue| :: d[queue[j]] <= d[queue[k]])
    && (0 <= next < |queue| ==> forall v | v in d :: d[v] <= d[queue[next]] + 1)
    && (forall k | 0 <= k < next && k < |queue| :: Relaxed(g, blocked, d, queue[k]))
  }

  ghost predicate Listed(queue: seq<int>, v: int) {
    v in queue
  }

  lemma {:induction false} Discover(g: Neighbors, start: int, blocked: Option<int>, queue: seq<int>, d: map<int, int>,
                 walks: map<int, seq<int>>, next: int, w: int)
    requires DistanceQueue(g, start, blocked, queue, d, walks, next) && 0 <= next < |queue|
    requires Adjacent(g, queue[next], w) && w in g && w !in d && Some(w) != blocked
    ensures DistanceQueue(g, start, blocked, queue + [w], d[w := d[queue[next]] + 1],
                          walks[w := walks[queue[next]] + [w]], next)
  {
    DiscoverWalk(g, start, blocked, d, walks, queue[next], w);
    DiscoverOrder(queue, d, next, w);
    DiscoverRelaxed(g, blocked, queue, d, next, w, d[queue[next]] + 1);
    DiscoverListed(queue, d, w, d[queue[next]] + 1);
  }

  lemma {:induction false} DiscoverRelaxed(g: Neighbors, blocked: Option<int>, queue: seq<int>, d: map<int, int>,
                                           next: int, w: int, steps: int)
    requires 0 <= next <= |queue| && w !in d
    requires forall k | 0 <= k < next && k < |queue| :: Relaxed(g, blocked, d, queue[k])
    ensures var queue', d' := queue + [w], d[w := steps];
            forall k | 0 <= k < next && k < |queue'| :: Relaxed(g, blocked, d', queue'[k])
  {
    var queue', d' := queue + [w], d[w := steps];
    forall k | 0 <= k < next ensures Relaxed(g, blocked, d', queue'[k]) {
      assert Relaxed(g, blocked, d, queue[k]);
    }
  }

  lemma {:induction false} DiscoverListed(queue: seq<int>, d: map<int, int>, w: int, steps: int)
    requires forall v {:trigger Listed(queue, v)} | v in d :: Listed(queue, v)
    ensures var queue', d' := queue + [w], d[w := steps];
            forall v {:trigger Listed(queue', v)} | v in d' :: Listed(queue', v)
  {
    var queue', d' := queue + [w], d[w := steps];
    forall v | v in d' ensures Listed(queue', v) {
      if v == w {
        assert queue'[|queue|] == w;
      } else {
        assert Listed(queue, v);
      }
    }
  }

  lemma {:induction false} DiscoverWalk(g: Neighbors, start: int, blocked: Option<int>, d: map<int, int>,
                                        walks: map<int, seq<int>>, u: int, w: int)
    requires forall v | v in d :: v in walks && IsShortWalk(g, start, v, blocked, walks[v], d[v])
    requires u in d && Adjacent(g, u, w) && Some(w) != blocked
    ensures var d', walks' := d[w := d[u] + 1], walks[w := walks[u] + [w]];
            forall v | v in d' :: v in walks' && IsShortWalk(g, start, v, blocked, walks'[v], d'[v])
  {
    LongerWalk(g, start, blocked, walks[u], u, w);
  }

  lemma {:induction false} DiscoverOrder(queue: seq<int>, d: map<int, int>, next: int, w: int)
    requires 0 <= next < |queue| && w !in d && forall k | 0 <= k < |queue| :: queue[k] in d
    requires forall j, k | 0 <= j < k < |queue| :: d[queue[j]] <= d[queue[k]]
    requires forall v | v in d :: d[v] <= d[queue[next]] + 1
    ensures var queue', d' := queue + [w], d[w := d[queue[next]] + 1];
            && (forall k | 0 <= k < |queue'| :: queue'[k] in d')
            && (forall j, k | 0 <= j < k < |queue'| :: d'[queue'[j]] <= d'[queue'[k]])
            && (forall v | v in d' :: d'[v] <= d'[queue'[next]] + 1)
  {
    assert forall k | 0 <= k < |queue| :: queue[k] != w;
  }

  lemma {:induction false} LongerWalk(g: Neighbors, start: int, blocked: Option<int>, walk: seq<int>, u: int, w: int)
    requires IsWalk(g, start, u, walk) && Avoids(walk, blocked) && Adjacent(g, u, w) && Some(w) != blocked
    ensures IsWalk(g, start, w, walk + [w]) && Avoids(walk + [w], blocked)
  {
    var longer := walk + [w];
    forall i | 0 <= i < |longer| - 1 ensures Adjacent(g, longer[i], longer[i + 1]) {
      assert i < |walk| - 1 ==> Adjacent(g, walk[i], walk[i + 1]);
    }
    if blocked.Some? {
      assert blocked.value != w;
    }
  }

  lemma {:induction false} AdvanceQueue(g: Neighbors, start: int, blocked: Option<int>, queue: seq<int>,
                                        d: map<int, int>, walks: map<int, seq<int>>, next: int)
    requires DistanceQueue(g, start, blocked, queue, d, walks, next) && 0 <= next < |queue|
    requires Relaxed(g, blocked, d, queue[next])
    ensures DistanceQueue(g, start, blocked, queue, d, walks, next + 1)
  {
  }

  /** The inner loop of _distances: gives every neighbor of queue0[next] a distance. */
  method Relax(g: Neighbors, start: int, blocked: Option<int>, queue0: seq<int>, d0: map<int, int>,
               ghost walks0: map<int, seq<int>>, next: int)
    returns (queue: seq<int>, d: map<int, int>, ghost walks: map<int, seq<int>>)
    requires forall t, n | t in g && n in g[t] :: n in g
    requires DistanceQueue(g, start, blocked, queue0, d0, walks0, next) && 0 <= next < |queue0|
    ensures DistanceQueue(g, start, blocked, queue, d, walks, next + 1) && next < |queue|
  {
    queue, d, walks := queue0, d0, walks0;
    var current := queue[next];
    for i := 0 to |g[current]|
      invariant next < |queue| && queue[next] == current
      invariant DistanceQueue(g, start, blocked, queue, d, walks, next)
      invariant forall j | 0 <= j < i ::
                  Some(g[current][j]) == blocked || (g[current][j] in d && d[g[current][j]] <= d[current] + 1)
    {
      var w := g[current][i];
      if Some(w) != blocked && w !in d {
        assert Adjacent(g, current, w);
        Discover(g, start, blocked, queue, d, walks, next, w);
        walks := walks[w := walks[current] + [w]];
        d := d[w := d[current] + 1];
        queue := queue + [w];
      }
    }
    assert Relaxed(g, blocked, d, current);
    AdvanceQueue(g, start, blocked, queue, d, walks, next);
  }

  lemma {:induction false} NothingAround(g: Neighbors, start: int)
    ensures IsDistances(g, start, Some(start), map[])
  {
    forall v, p | IsWalk(g, start, v, p) ensures start in p {
      assert p[0] in p;
    }
  }

  lemma {:induction false} StartQueue(g: Neighbors, start: int, blocked: Option<int>)
    requires start in g && Some(start) != blocked
    ensures DistanceQueue(g, start, blocked, [start], map[start := 0], map[start := [start]], 0)
  {
    assert blocked.Some? ==> blocked.value != start;
    assert IsWalk(g, start, start, [start]) && Avoids([start], blocked);
  }

  /** _distances. */
  method Distances(g: Neighbors, start: int, blocked: Option<int>) returns (d: map<int, int>)
    requires start in g && forall t, n | t in g && n in g[t] :: n in g
    ensures IsDistances(g, start, blocked, d)
  {
    if Some(start) == blocked {
      NothingAround(g, start);
      return map[];
    }
    d := map[start := 0];
    var queue := [start];
    ghost var walks: map<int, seq<int>> := map[start := [start]];
    var next := 0;
    StartQueue(g, start, blocked);
    while next < |queue|
      invariant 0 <= next <= |queue|
      invariant DistanceQueue(g, start, blocked, queue, d, walks, next)
      decreases |g| - next
    {
      QueueFits(g, d);
      queue, d, walks := Relax(g, start, blocked, queue, d, walks, next);
      next := next + 1;
    }
    DistancesFound(g, start, blocked, queue, d, walks);
  }

  lemma {:induction false} QueueFits(g: Neighbors, d: map<int, int>)
    requires forall v | v in d :: v in g
    ensures |d| <= |g|
  {
    forall v | v in d.Keys ensures v in g.Keys {
    }
    assert g.Keys == d.Keys + (g.Keys - d.Keys);
    assert |g.Keys| == |g| && |d.Keys| == |d|;
  }

  lemma {:induction false} DistancesFound(g: Neighbors, start: int, blocked: Option<int>, queue: seq<int>,
                                          d: map<int, int>, walks: map<int, seq<int>>)
    requires DistanceQueue(g, start, blocked, queue, d, walks, |queue|)
    ensures IsDistances(g, start, blocked, d)
  {
    forall u | u in d ensures Relaxed(g, blocked, d, u) {
      assert Listed(queue, u);
      var k :| 0 <= k < |queue| && queue[k] == u;
    }
    forall v, p | IsWalk(g, start, v, p) && Avoids(p, blocked) ensures v in d && d[v] <= |p| - 1 {
      WalkBound(g, blocked, start, d, v, p);
    }
  }

  // ----- Required bridges -----

  /** Every walk from l to r passes through c, and there is one. */
  ghost predicate Separates(g: Neighbors, c: int, l: int, r: int) {
    && Reachable(g, None, l, r)
    && forall p | IsWalk(g, l, r, p) :: c in p
  }

  /** Distances from every table, without a blocked one. */
  ghost predicate AllDistances(g: Neighbors, all: map<int, map<int, int>>) {
    && (forall t :: t in all <==> t in g)
    && (forall t {:trigger Measured(g, all, t)} | t in g :: Measured(g, all, t))
  }

  ghost predicate Measured(g: Neighbors, all: map<int, map<int, int>>, t: int) {
    t in all && IsDistances(g, t, None, all[t])
  }

  ghost predicate NeighborsClosed(g: Neighbors) {
    forall t, n | t in g && n in g[t] :: n in g
  }

  method DistancesFromAll(g: Neighbors, tables: seq<int>) returns (all: map<int, map<int, int>>)
    requires NeighborsClosed(g) && forall t :: t in tables <==> t in g
    ensures AllDistances(g, all)
  {
    all := map[];
    for i := 0 to |tables|
      invariant forall t :: t in all <==> t in tables[..i]
      invariant forall t | t in all :: t in g && Measured(g, all, t)
    {
      var d := Distances(g, tables[i], None);
      forall t | t in all ensures Measured(g, all[tables[i] := d], t) {
        assert Measured(g, all, t);
      }
      all := all[tables[i] := d];
    }
    assert tables[..|tables|] == tables;
  }

  /** _required_bridge: candidate separates some pair that does not contain it. */
  method RequiredBridge(candidate: int, pairs: seq<(int, int)>, g: Neighbors, all: map<int, map<int, int>>)
      returns (required: bool)
    requires NeighborsClosed(g) && AllDistances(g, all)
    requires forall pair | pair in pairs :: pair.0 in g
    ensures required <==> exists pair :: pair in pairs && candidate != pair.0 && candidate != pair.1
                                         && Separates(g, candidate, pair.0, pair.1)
  {
    for i := 0 to |pairs|
      invariant forall j | 0 <= j < i && candidate != pairs[j].0 && candidate != pairs[j].1 ::
                  !Separates(g, candidate, pairs[j].0, pairs[j].1)
    {
      assert pairs[i] in pairs;
      var (left, right) := pairs[i];
      if candidate == left || candidate == right {
        continue;
      }
      assert Measured(g, all, left);
      UnblockedReach(g, all[left], left, right);
      if right !in all[left] {
        continue;
      }
      var around := Distances(g, left, Some(candidate));
      BlockedReach(g, around, candidate, left, right);
      if right !in around {
        return true;
      }
    }
    return false;
  }

  lemma {:induction false} UnblockedReach(g: Neighbors, d: map<int, int>, l: int, r: int)
    requires IsDistances(g, l, None, d)
    ensures r in d <==> Reachable(g, None, l, r)
  {
  }

  lemma {:induction false} BlockedReach(g: Neighbors, around: map<int, int>, c: int, l: int, r: int)
    requires IsDistances(g, l, Some(c), around)
    ensures r in around <==> Reachable(g, Some(c), l, r)
    ensures Reachable(g, None, l, r) ==> (r !in around <==> Separates(g, c, l, r))
  {
  }

  // ----- A bridge lies on the shortest walks -----

  lemma {:induction false} WalkParts(g: Neighbors, l: int, r: int, p: seq<int>, i: int)
    requires IsWalk(g, l, r, p) && 0 <= i < |p|
    ensures IsWalk(g, l, p[i], p[..i + 1]) && IsWalk(g, p[i], r, p[i..])
  {
    forall j | 0 <= j < |p[i..]| - 1 ensures Adjacent(g, p[i..][j], p[i..][j + 1]) {
      assert Adjacent(g, p[i + j], p[i + j + 1]);
    }
  }

  lemma {:induction false} WalkJoin(g: Neighbors, l: int, c: int, r: int, p: seq<int>, q: seq<int>)
    requires IsWalk(g, l, c, p) && IsWalk(g, c, r, q)
    ensures IsWalk(g, l, r, p + q[1..])
  {
    var w := p + q[1..];
    forall i | 0 <= i < |w| - 1 ensures Adjacent(g, w[i], w[i + 1]) {
      if i < |p| - 1 {
        assert Adjacent(g, p[i], p[i + 1]);
      } else {
        assert Adjacent(g, q[i - |p| + 1], q[i - |p| + 2]);
      }
    }
  }

  /** A table that separates l from r is joined to both, and lies on a shortest walk between them. */
  lemma {:induction false} BridgeOnShortestWalk(g: Neighbors, all: map<int, map<int, int>>, c: int, l: int, r: int)
    requires AllDistances(g, all) && l in g && c in g && Separates(g, c, l, r)
    ensures r in all[l] && c in all[l] && r in all[c]
    ensures all[l][c] + all[c][r] == all[l][r]
  {
    assert Measured(g, all, l) && Measured(g, all, c);
    var walk :| IsWalk(g, l, r, walk) && Avoids(walk, None);
    assert r in all[l];
    var p :| IsWalk(g, l, r, p) && Avoids(p, None) && |p| - 1 == all[l][r];
    var i :| 0 <= i < |p| && p[i] == c;
    WalkParts(g, l, r, p, i);
    assert Avoids(p[..i + 1], None) && Avoids(p[i..], None);
    var a :| IsWalk(g, l, c, a) && Avoids(a, None) && |a| - 1 == all[l][c];
    var b :| IsWalk(g, c, r, b) && Avoids(b, None) && |b| - 1 == all[c][r];
    WalkJoin(g, l, c, r, a, b);
    assert Avoids(a + b[1..], None);
  }
}
