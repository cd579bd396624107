/** The foreign-key graph and the search for join paths. */
module GraphSearch {
  // Table and constraint names are integers; the order of strings is the order of integers.

  import opened Wrappers
  import opened Orders
  import opened Sorting

  datatype JoinEdge = JoinEdge(constraintName: int, sourceTable: int, sourceColumns: seq<int>,
                               targetTable: int, targetColumns: seq<int>)

  datatype GraphStep = GraphStep(neighbor: int, edge: JoinEdge)

  datatype JoinPath = JoinPath(tables: seq<int>, edges: seq<JoinEdge>)

  type Graph = map<int, seq<GraphStep>>

  // ----- Building the graph -----

  function StepKey(s: GraphStep): seq<int> {
    [s.neighbor, s.edge.constraintName, s.edge.sourceTable, s.edge.targetTable]
  }

  function StepLeq(): (GraphStep, GraphStep) -> bool {
    (a, b) => LexLeq(StepKey(a), StepKey(b))
  }

  /** The steps that the foreign keys give table t, in the order they are appended. */
  function StepsAt(keys: seq<JoinEdge>, t: int): seq<GraphStep> {
    if keys == [] then []
    else
      var key := keys[|keys| - 1];
      StepsAt(keys[..|keys| - 1], t)
      + (if key.sourceTable == t then [GraphStep(key.targetTable, key)] else [])
      + (if key.targetTable == t then [GraphStep(key.sourceTable, key)] else [])
  }

  ghost predicate Connects(keys: seq<JoinEdge>, t: int, s: GraphStep) {
    && s.edge in keys
    && ((t == s.edge.sourceTable && s.neighbor == s.edge.targetTable)
        || (t == s.edge.targetTable && s.neighbor == s.edge.sourceTable))
  }

  lemma {:induction false} StepsConnect(keys: seq<JoinEdge>, t: int)
    ensures forall s :: s in StepsAt(keys, t) <==> Connects(keys, t, s)
  {
    if keys != [] {
      StepsConnect(keys[..|keys| - 1], t);
      assert keys == keys[..|keys| - 1] + [keys[|keys| - 1]];
    }
  }

  ghost predicate Closed(g: Graph) {
    forall t, s | t in g && s in g[t] :: s.neighbor in g
  }

  ghost predicate Symmetric(g: Graph) {
    forall t, s | t in g && s in g[t] :: s.neighbor in g && GraphStep(t, s.edge) in g[s.neighbor]
  }

  ghost predicate StepsOrdered(g: Graph) {
    forall t | t in g :: Ordered(StepLeq(), g[t])
  }

  /** What every graph built from foreign keys satisfies. */
  ghost predicate ForeignKeyGraph(g: Graph) {
    Closed(g) && Symmetric(g) && StepsOrdered(g)
  }

  lemma {:induction false} StepLeqTotal()
    ensures TotalPreorder(StepLeq())
  {
    var leq := StepLeq();
    forall x, y ensures leq(x, y) || leq(y, x) {
      LexTotal(StepKey(x), StepKey(y));
    }
    forall x, y, z ensures Chains(leq, x, y, z) {
      if LexLess(StepKey(x), StepKey(y)) && LexLess(StepKey(y), StepKey(z)) {
        LexTransitive(StepKey(x), StepKey(y), StepKey(z));
      }
    }
  }

  lemma {:induction false} BuiltSteps(keys: seq<JoinEdge>, t: int)
    ensures var steps := Sort(StepLeq(), StepsAt(keys, t));
      Ordered(StepLeq(), steps) && forall s :: s in steps <==> Connects(keys, t, s)
  {
    StepLeqTotal();
    SortOrdered(StepLeq(), StepsAt(keys, t));
    SortMembers(StepLeq(), StepsAt(keys, t));
    StepsConnect(keys, t);
  }

  /** A key connects its two tables in both directions. */
  lemma {:induction false} ConnectsBack(tables: set<int>, keys: seq<JoinEdge>, t: int, s: GraphStep)
    requires forall key | key in keys :: key.sourceTable in tables && key.targetTable in tables
    requires Connects(keys, t, s)
    ensures s.neighbor in tables && Connects(keys, s.neighbor, GraphStep(t, s.edge))
  {
  }

  lemma {:induction false} BuiltGraph(tables: set<int>, keys: seq<JoinEdge>, g: Graph)
    requires forall key | key in keys :: key.sourceTable in tables && key.targetTable in tables
    requires g.Keys == tables && forall t | t in g :: g[t] == Sort(StepLeq(), StepsAt(keys, t))
    ensures ForeignKeyGraph(g)
    ensures forall t, s | t in g :: s in g[t] <==> Connects(keys, t, s)
  {
    forall t | t in g ensures Ordered(StepLeq(), g[t]) {
      BuiltSteps(keys, t);
    }
    forall t, s | t in g ensures s in g[t] <==> Connects(keys, t, s) {
      BuiltSteps(keys, t);
    }
    forall t, s | t in g && s in g[t] ensures s.neighbor in g && GraphStep(t, s.edge) in g[s.neighbor] {
      ConnectsBack(tables, keys, t, s);
    }
  }

  /** _foreign_key_graph; a key on an unknown table is a KeyError. */
  method BuildGraph(tables: seq<int>, keys: seq<JoinEdge>) returns (r: Result<Graph, int>)
    ensures r.Ok? <==> forall key | key in keys :: key.sourceTable in tables && key.targetTable in tables
    ensures r.Ok? ==> r.value.Keys == (set t | t in tables) && ForeignKeyGraph(r.value)
    ensures r.Ok? ==> forall t, s | t in r.value :: s in r.value[t] <==> Connects(keys, t, s)
    ensures r.Err? ==> r.error !in tables
  {
    var adjacency: Graph := map t | t in tables :: [];
    for i := 0 to |keys|
      invariant adjacency.Keys == set t | t in tables
      invariant forall j | 0 <= j < i :: keys[j].sourceTable in tables && keys[j].targetTable in tables
      invariant forall t | t in adjacency :: adjacency[t] == StepsAt(keys[..i], t)
    {
      var key := keys[i];
      assert keys[..i + 1][..i] == keys[..i];
      if key.sourceTable !in adjacency {
        return Err(key.sourceTable);
      }
      adjacency := adjacency[key.sourceTable := adjacency[key.sourceTable] + [GraphStep(key.targetTable, key)]];
      if key.targetTable !in adjacency {
        return Err(key.targetTable);
      }
      adjacency := adjacency[key.targetTable := adjacency[key.targetTable] + [GraphStep(key.sourceTable, key)]];
    }
    assert keys[..|keys|] == keys;
    var g: Graph := map t | t in adjacency :: Sort(StepLeq(), adjacency[t]);
    BuiltGraph(g.Keys, keys, g);
    return Ok(g);
  }

  // ----- Paths -----

  function Last(p: JoinPath): int
    requires |p.tables| > 0
  {
    p.tables[|p.tables| - 1]
  }

  ghost predicate Allowed(allowed: Option<set<int>>, t: int) {
    allowed.Some? ==> t in allowed.value
  }

  ghost predicate IsStep(g: Graph, allowed: Option<set<int>>, from: int, edge: JoinEdge, to: int) {
    from in g && GraphStep(to, edge) in g[from] && Allowed(allowed, to)
  }

  /** p follows edges of g from start; every later table is allowed. */
  ghost predicate IsPath(g: Graph, allowed: Option<set<int>>, start: int, p: JoinPath) {
    && |p.tables| == |p.edges| + 1
    && p.tables[0] == start
    && forall i | 0 <= i < |p.edges| :: IsStep(g, allowed, p.tables[i], p.edges[i], p.tables[i + 1])
  }

  function Front(p: JoinPath): JoinPath
    requires |p.tables| == |p.edges| + 1 > 1
  {
    JoinPath(p.tables[..|p.tables| - 1], p.edges[..|p.edges| - 1])
  }

  function Extend(p: JoinPath, s: GraphStep): JoinPath {
    JoinPath(p.tables + [s.neighbor], p.edges + [s.edge])
  }

  function ConstraintNames(edges: seq<JoinEdge>): (names: seq<int>)
    ensures |names| == |edges|
  {
    seq(|edges|, i requires 0 <= i < |edges| => edges[i].constraintName)
  }

  /** Strictly before in _path_order: length, then tables, then constraint names. */
  predicate PathLess(p: JoinPath, q: JoinPath) {
    || |p.edges| < |q.edges|
    || (|p.edges| == |q.edges|
        && (LexLess(p.tables, q.tables)
            || (p.tables == q.tables && LexLess(ConstraintNames(p.edges), ConstraintNames(q.edges)))))
  }

  predicate PathLeq(p: JoinPath, q: JoinPath) {
    PathLess(p, q) || (p.tables == q.tables && ConstraintNames(p.edges) == ConstraintNames(q.edges))
  }

  /** No path from start to the end of p comes before p. */
  ghost predicate Least(g: Graph, allowed: Option<set<int>>, start: int, p: JoinPath)
    requires |p.tables| > 0
  {
    forall q | IsPath(g, allowed, start, q) && Last(q) == Last(p) :: PathLeq(p, q)
  }

  ghost predicate Simple(p: JoinPath) {
    forall i, j | 0 <= i < j < |p.tables| :: p.tables[i] != p.tables[j]
  }

  /** p is the least of all paths from start to target, and visits no table twice. */
  ghost predicate IsShortest(g: Graph, allowed: Option<set<int>>, start: int, target: int, p: JoinPath) {
    IsPath(g, allowed, start, p) && Last(p) == target && Simple(p) && Least(g, allowed, start, p)
  }

  // ----- The breadth-first search -----

  /** Facts about one discovered path. */
  ghost predicate Good(g: Graph, allowed: Option<set<int>>, start: int, p: JoinPath, visited: set<int>) {
    && IsPath(g, allowed, start, p) && Simple(p) && Least(g, allowed, start, p)
    && forall t | t in p.tables :: t in visited
  }

  /** found lists the discovered paths in queue order: shorter ones first, equally long ones by
      their tables; at gives every visited table its position. */
  ghost predicate Queue(g: Graph, allowed: Option<set<int>>, start: int, found: seq<JoinPath>,
                        visited: set<int>, at: map<int, int>) {
    && (forall k | 0 <= k < |found| :: Good(g, allowed, start, found[k], visited))
    && (forall k | 0 <= k < |found| :: Last(found[k]) in at && at[Last(found[k])] == k)
    && (forall v | v in visited :: v in at && 0 <= at[v] < |found| && Last(found[at[v]]) == v)
    && (forall j, k | 0 <= j < k < |found| :: Before(found[j], found[k]))
  }

  predicate Before(p: JoinPath, q: JoinPath) {
    |p.edges| < |q.edges| || (|p.edges| == |q.edges| && LexLess(p.tables, q.tables))
  }

  /** Every allowed neighbor in steps has been visited. */
  ghost predicate Expanded(allowed: Option<set<int>>, steps: seq<GraphStep>, visited: set<int>) {
    forall s | s in steps && Allowed(allowed, s.neighbor) :: s.neighbor in visited
  }

  ghost predicate Processed(g: Graph, allowed: Option<set<int>>, found: seq<JoinPath>, visited: set<int>, next: int) {
    forall k | 0 <= k < next && k < |found| ::
      |found[k].tables| > 0 && Last(found[k]) in g && Expanded(allowed, g[Last(found[k])], visited)
  }

  lemma {:induction false} FrontIsPath(g: Graph, allowed: Option<set<int>>, start: int, q: JoinPath)
    requires IsPath(g, allowed, start, q) && |q.edges| > 0
    ensures IsPath(g, allowed, start, Front(q))
    ensures IsStep(g, allowed, Last(Front(q)), q.edges[|q.edges| - 1], Last(q))
  {
    var f := Front(q);
    forall i | 0 <= i < |f.edges| ensures IsStep(g, allowed, f.tables[i], f.edges[i], f.tables[i + 1]) {
      assert IsStep(g, allowed, q.tables[i], q.edges[i], q.tables[i + 1]);
    }
    assert IsStep(g, allowed, q.tables[|q.edges| - 1], q.edges[|q.edges| - 1], q.tables[|q.edges|]);
  }

  lemma {:induction false} ExtendIsPath(g: Graph, allowed: Option<set<int>>, start: int, p: JoinPath, s: GraphStep)
    requires IsPath(g, allowed, start, p) && IsStep(g, allowed, Last(p), s.edge, s.neighbor)
    ensures IsPath(g, allowed, start, Extend(p, s)) && Last(Extend(p, s)) == s.neighbor
  {
    var e := Extend(p, s);
    forall i | 0 <= i < |e.edges| ensures IsStep(g, allowed, e.tables[i], e.edges[i], e.tables[i + 1]) {
      assert i < |p.edges| ==> IsStep(g, allowed, p.tables[i], p.edges[i], p.tables[i + 1]);
    }
  }

  /** A table is visited once some path to it is no longer than the path being expanded. */
  lemma {:induction false} NearIsVisited(g: Graph, allowed: Option<set<int>>, start: int, found: seq<JoinPath>,
                                         visited: set<int>, at: map<int, int>, next: int, q: JoinPath)
    requires Queue(g, allowed, start, found, visited, at) && Processed(g, allowed, found, visited, next)
    requires 0 <= next <= |found| && start in visited
    requires IsPath(g, allowed, start, q)
    requires next < |found| ==> |q.edges| <= |found[next].edges|
    ensures Last(q) in visited
    decreases |q.edges|
  {
    if |q.edges| > 0 {
      FrontIsPath(g, allowed, start, q);
      var f := Front(q);
      NearIsVisited(g, allowed, start, found, visited, at, next, f);
      var k := at[Last(f)];
      assert PathLeq(found[k], f);
      assert next < k ==> Before(found[next], found[k]);
      assert GraphStep(Last(q), q.edges[|q.edges| - 1]) in g[Last(f)];
    }
  }

  /** The paths one step longer than the one being expanded were extended from paths at or before
      it; done are the steps of the current table that have been taken. */
  ghost predicate Level(found: seq<JoinPath>, next: int, done: seq<GraphStep>) {
    0 <= next < |found| ==>
      forall k | 0 <= k < |found| :: Below(found[k], found[next], done)
  }

  ghost predicate Below(p: JoinPath, current: JoinPath, done: seq<GraphStep>) {
    && |p.tables| == |p.edges| + 1
    && |p.edges| <= |current.edges| + 1
    && (|p.edges| == |current.edges| + 1 ==>
          || LexLess(Front(p).tables, current.tables)
          || (Front(p).tables == current.tables && exists s :: s in done && s.neighbor == Last(p)))
  }

  /** The step about to be taken: the first one to an allowed table not visited yet. */
  ghost predicate Fresh(g: Graph, allowed: Option<set<int>>, current: int, done: seq<GraphStep>, s: GraphStep,
                        rest: seq<GraphStep>, visited: set<int>) {
    && current in g && g[current] == done + [s] + rest
    && Allowed(allowed, s.neighbor) && s.neighbor !in visited
    && Expanded(allowed, done, visited)
  }

  /** A step to the neighbor of s cannot come before s among the steps of the current table. */
  lemma {:induction false} StepNotEarlier(g: Graph, allowed: Option<set<int>>, current: int, done: seq<GraphStep>,
                                          s: GraphStep, rest: seq<GraphStep>, visited: set<int>, other: GraphStep)
    requires StepsOrdered(g) && Fresh(g, allowed, current, done, s, rest, visited)
    requires other in g[current] && other.neighbor == s.neighbor
    ensures s.edge.constraintName <= other.edge.constraintName
  {
    var j :| 0 <= j < |g[current]| && g[current][j] == other;
    assert g[current][|done|] == s;
    if |done| < j {
      assert StepLeq()(s, other);
      var a, b := StepKey(s), StepKey(other);
      assert a[1] == s.edge.constraintName && b[1] == other.edge.constraintName;
      assert a == b || LexLess(a[1..], b[1..]);
    }
  }

  lemma {:induction false} ExtendBoth(p: JoinPath, s: GraphStep, q: JoinPath)
    requires |p.tables| == |p.edges| + 1 && |q.tables| == |q.edges| + 1 == |p.tables| + 1
    requires s.neighbor == Last(q)
    requires PathLeq(p, Front(q))
    requires p.tables == Front(q).tables ==> s.edge.constraintName <= q.edges[|q.edges| - 1].constraintName
    ensures PathLeq(Extend(p, s), q)
  {
    var e, f, n := Extend(p, s), Front(q), |q.edges| - 1;
    assert q.tables == f.tables + [Last(q)];
    if LexLess(p.tables, f.tables) {
      LexExtend(p.tables, f.tables, s.neighbor, Last(q));
    } else {
      assert ConstraintNames(e.edges) == ConstraintNames(p.edges) + [s.edge.constraintName];
      assert ConstraintNames(q.edges) == ConstraintNames(f.edges) + [q.edges[n].constraintName];
      if LexLess(ConstraintNames(p.edges), ConstraintNames(f.edges)) {
        LexExtend(ConstraintNames(p.edges), ConstraintNames(f.edges), s.edge.constraintName, q.edges[n].constraintName);
      } else if s.edge.constraintName < q.edges[n].constraintName {
        LexAppend(ConstraintNames(p.edges), s.edge.constraintName, q.edges[n].constraintName);
      }
    }
  }

  /** The heart of the search: the first path that reaches a new table is the least one. */
  lemma {:induction false} NewIsLeast(g: Graph, allowed: Option<set<int>>, start: int, found: seq<JoinPath>,
                   visited: set<int>, at: map<int, int>, next: int,
                   done: seq<GraphStep>, s: GraphStep, rest: seq<GraphStep>, q: JoinPath)
    requires StepsOrdered(g) && Queue(g, allowed, start, found, visited, at)
      && Processed(g, allowed, found, visited, next)
    requires 0 <= next < |found| && start in visited
    requires Fresh(g, allowed, Last(found[next]), done, s, rest, visited)
    requires IsPath(g, allowed, start, q) && Last(q) == s.neighbor
    ensures PathLeq(Extend(found[next], s), q)
  {
    var p := found[next];
    if |q.edges| <= |p.edges| + 1 {
      assert |q.edges| > 0;
      FrontIsPath(g, allowed, start, q);
      var f := Front(q);
      NearIsVisited(g, allowed, start, found, visited, at, next, f);
      var k := at[Last(f)];
      assert PathLeq(found[k], f);
      assert GraphStep(Last(q), q.edges[|q.edges| - 1]) in g[Last(f)];
      assert next <= k;
      if next < k {
        assert Before(p, found[k]);
        LexOrEqual(p.tables, found[k].tables, f.tables);
      } else {
        StepNotEarlier(g, allowed, Last(p), done, s, rest, visited, GraphStep(Last(q), q.edges[|q.edges| - 1]));
      }
      ExtendBoth(p, s, q);
    }
  }

  lemma {:induction false} LexOrEqual(a: seq<int>, b: seq<int>, c: seq<int>)
    requires LexLess(a, b) && LexLeq(b, c)
    ensures LexLess(a, c) && a != c
  {
    if b != c {
      LexTransitive(a, b, c);
    }
    LexIrreflexive(c);
  }

  // ----- Keeping the queue -----

  /** A newly reached path goes behind everything in the queue. */
  lemma {:induction false} NewComesLast(g: Graph, allowed: Option<set<int>>, start: int, found: seq<JoinPath>,
                     visited: set<int>, at: map<int, int>, next: int,
                     done: seq<GraphStep>, s: GraphStep, rest: seq<GraphStep>, k: int)
    requires StepsOrdered(g) && Queue(g, allowed, start, found, visited, at)
    requires 0 <= next < |found| && 0 <= k < |found| && Level(found, next, done)
    requires Fresh(g, allowed, Last(found[next]), done, s, rest, visited)
    ensures Before(found[k], Extend(found[next], s))
  {
    var p, q := found[next], found[k];
    assert Below(q, p, done);
    if |q.edges| == |p.edges| + 1 {
      assert q.tables == Front(q).tables + [Last(q)];
      if LexLess(Front(q).tables, p.tables) {
        LexExtend(Front(q).tables, p.tables, Last(q), s.neighbor);
      } else {
        var d :| d in done && d.neighbor == Last(q);
        assert Last(q) in q.tables;
        StepsAscend(g, Last(p), done, s, rest, d);
        LexAppend(p.tables, d.neighbor, s.neighbor);
      }
    }
  }

  lemma {:induction false} StepsAscend(g: Graph, current: int, done: seq<GraphStep>, s: GraphStep, rest: seq<GraphStep>,
                                       d: GraphStep)
    requires StepsOrdered(g) && current in g && g[current] == done + [s] + rest && d in done
    ensures d.neighbor <= s.neighbor
  {
    var j :| 0 <= j < |done| && done[j] == d;
    assert g[current][j] == d && g[current][|done|] == s;
    assert StepLeq()(d, s);
    assert StepKey(d)[0] == d.neighbor && StepKey(s)[0] == s.neighbor;
  }

  lemma {:induction false} Push(g: Graph, allowed: Option<set<int>>, start: int, found: seq<JoinPath>,
             visited: set<int>, at: map<int, int>, next: int,
             done: seq<GraphStep>, s: GraphStep, rest: seq<GraphStep>)
    requires StepsOrdered(g) && Queue(g, allowed, start, found, visited, at)
      && Processed(g, allowed, found, visited, next)
    requires 0 <= next < |found| && start in visited && Level(found, next, done)
    requires Fresh(g, allowed, Last(found[next]), done, s, rest, visited)
    ensures var p := Extend(found[next], s);
            && Good(g, allowed, start, p, visited + {s.neighbor})
            && Last(p) == s.neighbor
            && Queue(g, allowed, start, found + [p], visited + {s.neighbor}, at[s.neighbor := |found|])
  {
    var p, visited', at' := Extend(found[next], s), visited + {s.neighbor}, at[s.neighbor := |found|];
    var found' := found + [p];
    ExtendIsPath(g, allowed, start, found[next], s);
    forall q | IsPath(g, allowed, start, q) && Last(q) == Last(p) ensures PathLeq(p, q) {
      NewIsLeast(g, allowed, start, found, visited, at, next, done, s, rest, q);
    }
    assert Good(g, allowed, start, p, visited');
    forall k | 0 <= k < |found'|
      ensures Good(g, allowed, start, found'[k], visited') && Last(found'[k]) in at' && at'[Last(found'[k])] == k
    {
      if k < |found| {
        assert Last(found[k]) in found[k].tables;
      }
    }
    forall j, k | 0 <= j < k < |found'| ensures Before(found'[j], found'[k]) {
      if k == |found| {
        NewComesLast(g, allowed, start, found, visited, at, next, done, s, rest, j);
      }
    }
  }

  lemma {:induction false} PushLevel(found: seq<JoinPath>, next: int, done: seq<GraphStep>, s: GraphStep)
    requires 0 <= next < |found| && Level(found, next, done)
    requires |found[next].tables| == |found[next].edges| + 1
    ensures Level(found + [Extend(found[next], s)], next, done + [s])
  {
    var p := Extend(found[next], s);
    var found' := found + [p];
    forall k | 0 <= k < |found'| ensures Below(found'[k], found'[next], done + [s]) {
      if k < |found| {
        assert Below(found[k], found[next], done);
      } else {
        assert Front(p) == found[next] && s in done + [s];
      }
    }
  }

  lemma {:induction false} NextLevel(g: Graph, allowed: Option<set<int>>, start: int, found: seq<JoinPath>,
                  visited: set<int>, at: map<int, int>, next: int, done: seq<GraphStep>)
    requires Queue(g, allowed, start, found, visited, at)
    requires 0 <= next && next + 1 < |found| && Level(found, next, done)
    ensures Level(found, next + 1, [])
  {
    var p, p' := found[next], found[next + 1];
    assert Before(p, p');
    forall k | 0 <= k < |found| ensures Below(found[k], p', []) {
      assert Below(found[k], p, done);
      if |found[k].edges| == |p'.edges| + 1 {
        if LexLess(Front(found[k]).tables, p.tables) {
          LexTransitive(Front(found[k]).tables, p.tables, p'.tables);
        }
      }
    }
  }

  // ----- The search -----

  /** What holds between two steps of the search. */
  ghost predicate Searching(g: Graph, allowed: Option<set<int>>, start: int, target: int, found: seq<JoinPath>,
                            visited: set<int>, at: map<int, int>, next: int, done: seq<GraphStep>) {
    && Queue(g, allowed, start, found, visited, at)
    && Processed(g, allowed, found, visited, next)
    && Level(found, next, done)
    && start in visited && target !in visited
    && (forall v | v in visited :: v in g)
  }

  /** One step of the table that found0[next] ends in. */
  method TakeStep(g: Graph, allowed: Option<set<int>>, start: int, target: int, found0: seq<JoinPath>,
                  visited0: set<int>, ghost at0: map<int, int>, next: int,
                  ghost done: seq<GraphStep>, s: GraphStep, ghost rest: seq<GraphStep>)
    returns (found: seq<JoinPath>, visited: set<int>, ghost at: map<int, int>, hit: Option<JoinPath>)
    requires ForeignKeyGraph(g) && 0 <= next < |found0|
    requires Searching(g, allowed, start, target, found0, visited0, at0, next, done)
    requires Last(found0[next]) in g && g[Last(found0[next])] == done + [s] + rest && Expanded(allowed, done, visited0)
    ensures hit.Some? ==> IsShortest(g, allowed, start, target, hit.value)
    ensures hit.None? ==> Searching(g, allowed, start, target, found, visited, at, next, done + [s])
    ensures hit.None? ==> Expanded(allowed, done + [s], visited)
    ensures found0 <= found && |found| - |visited| == |found0| - |visited0|
  {
    found, visited, at, hit := found0, visited0, at0, None;
    if s.neighbor in visited || (allowed.Some? && s.neighbor !in allowed.value) {
      WeakenLevel(found, next, done, s);
      return;
    }
    assert Fresh(g, allowed, Last(found[next]), done, s, rest, visited);
    Push(g, allowed, start, found, visited, at, next, done, s, rest);
    var path := Extend(found[next], s);
    if s.neighbor == target {
      hit := Some(path);
      return;
    }
    PushLevel(found, next, done, s);
    PushProcessed(g, allowed, found, visited, next, path, s.neighbor);
    assert s in g[Last(found[next])];
    visited, at, found := visited + {s.neighbor}, at[s.neighbor := |found|], found + [path];
  }

  lemma {:induction false} SplitAt(steps: seq<GraphStep>, i: int)
    requires 0 <= i < |steps|
    ensures steps[..i + 1] == steps[..i] + [steps[i]] && steps == steps[..i] + [steps[i]] + steps[i + 1..]
  {
  }

  /** The inner loop: takes the steps of the table that found0[next] ends in. */
  method Expand(g: Graph, allowed: Option<set<int>>, start: int, target: int, found0: seq<JoinPath>,
                visited0: set<int>, ghost at0: map<int, int>, next: int)
    returns (found: seq<JoinPath>, visited: set<int>, ghost at: map<int, int>, hit: Option<JoinPath>)
    requires ForeignKeyGraph(g) && 0 <= next < |found0|
    requires Searching(g, allowed, start, target, found0, visited0, at0, next, [])
    ensures hit.Some? ==> IsShortest(g, allowed, start, target, hit.value)
    ensures hit.None? ==> next < |found| && Searching(g, allowed, start, target, found, visited, at, next + 1, [])
    ensures |found| - |visited| == |found0| - |visited0|
  {
    found, visited, at, hit := found0, visited0, at0, None;
    var current := Last(found[next]);
    assert current in found[next].tables;
    var steps := g[current];
    var i := 0;
    while i < |steps|
      invariant 0 <= i <= |steps|
      invariant hit.None? && next < |found| && found[next] == found0[next]
      invariant Searching(g, allowed, start, target, found, visited, at, next, steps[..i])
      invariant Expanded(allowed, steps[..i], visited)
      invariant |found| - |visited| == |found0| - |visited0|
    {
      SplitAt(steps, i);
      found, visited, at, hit :=
        TakeStep(g, allowed, start, target, found, visited, at, next, steps[..i], steps[i], steps[i + 1..]);
      if hit.Some? {
        return;
      }
      i := i + 1;
    }
    assert steps[..|steps|] == steps;
    Advance(g, allowed, start, target, found, visited, at, next);
  }

  lemma {:induction false} Advance(g: Graph, allowed: Option<set<int>>, start: int, target: int, found: seq<JoinPath>,
                visited: set<int>, at: map<int, int>, next: int)
    requires 0 <= next < |found| && |found[next].tables| > 0 && Last(found[next]) in g
    requires Searching(g, allowed, start, target, found, visited, at, next, g[Last(found[next])])
    requires Expanded(allowed, g[Last(found[next])], visited)
    ensures Searching(g, allowed, start, target, found, visited, at, next + 1, [])
  {
    if next + 1 < |found| {
      NextLevel(g, allowed, start, found, visited, at, next, g[Last(found[next])]);
    }
  }

  lemma {:induction false} WeakenLevel(found: seq<JoinPath>, next: int, done: seq<GraphStep>, s: GraphStep)
    requires Level(found, next, done)
    ensures Level(found, next, done + [s])
  {
    if 0 <= next < |found| {
      forall k | 0 <= k < |found| ensures Below(found[k], found[next], done + [s]) {
        assert Below(found[k], found[next], done);
      }
    }
  }

  lemma {:induction false} PushProcessed(g: Graph, allowed: Option<set<int>>, found: seq<JoinPath>, visited: set<int>,
                                         next: int, path: JoinPath, t: int)
    requires Processed(g, allowed, found, visited, next) && next <= |found|
    ensures Processed(g, allowed, found + [path], visited + {t}, next)
  {
  }

  /** _shortest_path. */
  method ShortestPath(g: Graph, start: int, target: int, allowed: Option<set<int>>) returns (r: Option<JoinPath>)
    requires ForeignKeyGraph(g)
    ensures r.None? ==> forall q | IsPath(g, allowed, start, q) :: Last(q) != target
    ensures r.Some? ==> IsShortest(g, allowed, start, target, r.value)
  {
    if start == target {
      TrivialIsLeast(g, allowed, start);
      return Some(JoinPath([start], []));
    }
    if start !in g || target !in g {
      NoPathOutside(g, allowed, start, target);
      return None;
    }
    r := Search(g, start, target, allowed);
  }

  lemma {:induction false} NoPathOutside(g: Graph, allowed: Option<set<int>>, start: int, target: int)
    requires Closed(g) && start != target && (start !in g || target !in g)
    ensures forall q | IsPath(g, allowed, start, q) :: Last(q) != target
  {
    forall q | IsPath(g, allowed, start, q) ensures Last(q) != target {
      PathStaysIn(g, allowed, start, q);
    }
  }

  method Search(g: Graph, start: int, target: int, allowed: Option<set<int>>) returns (r: Option<JoinPath>)
    requires ForeignKeyGraph(g) && start in g && target in g && start != target
    ensures r.None? ==> forall q | IsPath(g, allowed, start, q) :: Last(q) != target
    ensures r.Some? ==> IsShortest(g, allowed, start, target, r.value)
  {
    var found, next, visited := [JoinPath([start], [])], 0, {start};
    ghost var at: map<int, int> := map[start := 0];
    StartSearching(g, allowed, start, target);
    while next < |found|
      invariant 0 <= next <= |found|
      invariant Searching(g, allowed, start, target, found, visited, at, next, [])
      invariant |found| == |visited|
      decreases |g| - next
    {
      VisitedFits(g, visited);
      var hit;
      found, visited, at, hit := Expand(g, allowed, start, target, found, visited, at, next);
      if hit.Some? {
        return hit;
      }
      next := next + 1;
    }
    NothingFound(g, allowed, start, target, found, visited, at);
    return None;
  }

  lemma {:induction false} StartSearching(g: Graph, allowed: Option<set<int>>, start: int, target: int)
    requires start in g && start != target
    ensures Searching(g, allowed, start, target, [JoinPath([start], [])], {start}, map[start := 0], 0, [])
  {
    TrivialIsLeast(g, allowed, start);
  }

  lemma {:induction false} NothingFound(g: Graph, allowed: Option<set<int>>, start: int, target: int,
                                        found: seq<JoinPath>, visited: set<int>, at: map<int, int>)
    requires Searching(g, allowed, start, target, found, visited, at, |found|, [])
    ensures forall q | IsPath(g, allowed, start, q) :: Last(q) != target
  {
    forall q | IsPath(g, allowed, start, q) ensures Last(q) != target {
      NearIsVisited(g, allowed, start, found, visited, at, |found|, q);
    }
  }

  lemma {:induction false} VisitedFits(g: Graph, visited: set<int>)
    requires forall v | v in visited :: v in g
    ensures |visited| <= |g|
  {
    forall v | v in visited ensures v in g.Keys {
    }
    assert g.Keys == visited + (g.Keys - visited);
    assert |g.Keys| == |g|;
  }

  lemma {:induction false} TrivialIsLeast(g: Graph, allowed: Option<set<int>>, start: int)
    ensures Good(g, allowed, start, JoinPath([start], []), {start})
  {
    var p := JoinPath([start], []);
    forall q | IsPath(g, allowed, start, q) && Last(q) == Last(p) ensures PathLeq(p, q) {
      if |q.edges| == 0 {
        assert q.tables == [start] && q.edges == [];
      }
    }
  }

  lemma {:induction false} PathStaysIn(g: Graph, allowed: Option<set<int>>, start: int, q: JoinPath)
    requires Closed(g) && IsPath(g, allowed, start, q)
    ensures |q.edges| > 0 ==> start in g && Last(q) in g
  {
    if |q.edges| > 0 {
      assert IsStep(g, allowed, q.tables[0], q.edges[0], q.tables[1]);
      FrontIsPath(g, allowed, start, q);
    }
  }
}
