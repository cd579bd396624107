/** Choosing tables under a budget, and joining them. */
module TableSelection {
  import opened Wrappers
  import opened Orders
  import opened Sorting
  import opened Ids
  import opened GraphSearch

  // ----- Connection -----

  ghost predicate Connected(g: Graph, allowed: Option<set<int>>, a: int, b: int) {
    exists q :: IsPath(g, allowed, a, q) && Last(q) == b
  }

  lemma {:induction false} ConnectedSelf(g: Graph, allowed: Option<set<int>>, a: int)
    ensures Connected(g, allowed, a, a)
  {
    assert IsPath(g, allowed, a, JoinPath([a], []));
  }

  lemma {:induction false} ConnectedTrans(g: Graph, allowed: Option<set<int>>, a: int, b: int, c: int)
    requires Connected(g, allowed, a, b) && Connected(g, allowed, b, c)
    ensures Connected(g, allowed, a, c)
  {
    var p :| IsPath(g, allowed, a, p) && Last(p) == b;
    var q :| IsPath(g, allowed, b, q) && Last(q) == c;
    var r := JoinPath(p.tables + q.tables[1..], p.edges + q.edges);
    forall i | 0 <= i < |r.edges| ensures IsStep(g, allowed, r.tables[i], r.edges[i], r.tables[i + 1]) {
      if i < |p.edges| {
        assert IsStep(g, allowed, p.tables[i], p.edges[i], p.tables[i + 1]);
      } else {
        var j := i - |p.edges|;
        assert IsStep(g, allowed, q.tables[j], q.edges[j], q.tables[j + 1]);
      }
    }
    assert IsPath(g, allowed, a, r);
  }

  lemma {:induction false} ConnectedSym(g: Graph, allowed: Option<set<int>>, a: int, b: int)
    requires Symmetric(g) && Allowed(allowed, a) && Connected(g, allowed, a, b)
    ensures Connected(g, allowed, b, a)
  {
    var p :| IsPath(g, allowed, a, p) && Last(p) == b;
    var n := |p.edges|;
    var r := JoinPath(seq(n + 1, i requires 0 <= i <= n => p.tables[n - i]),
                      seq(n, i requires 0 <= i < n => p.edges[n - 1 - i]));
    forall i | 0 <= i < n ensures IsStep(g, allowed, r.tables[i], r.edges[i], r.tables[i + 1]) {
      var j := n - 1 - i;
      assert IsStep(g, allowed, p.tables[j], p.edges[j], p.tables[j + 1]);
      assert j > 0 ==> IsStep(g, allowed, p.tables[j - 1], p.edges[j - 1], p.tables[j]);
    }
    assert IsPath(g, allowed, b, r);
  }

  lemma {:induction false} ConnectedInMore(g: Graph, inside: set<int>, allowed: Option<set<int>>, a: int, b: int)
    requires Connected(g, Some(inside), a, b)
    requires allowed.Some? ==> inside <= allowed.value
    ensures Connected(g, allowed, a, b)
  {
    var p :| IsPath(g, Some(inside), a, p) && Last(p) == b;
    forall i | 0 <= i < |p.edges| ensures IsStep(g, allowed, p.tables[i], p.edges[i], p.tables[i + 1]) {
      assert IsStep(g, Some(inside), p.tables[i], p.edges[i], p.tables[i + 1]);
    }
    assert IsPath(g, allowed, a, p);
  }

  /** Tables of chosen that the graph connects are connected inside chosen. */
  ghost predicate KeepsConnections(g: Graph, chosen: set<int>) {
    forall a, b | a in chosen && b in chosen && Connected(g, None, a, b) :: Connected(g, Some(chosen), a, b)
  }

  /** Every table of a path inside chosen is connected inside chosen to the end of the path. */
  lemma {:induction false} TableReachesEnd(g: Graph, start: int, p: JoinPath, chosen: set<int>, i: int)
    requires IsPath(g, None, start, p) && 0 <= i < |p.tables|
    requires forall t | t in p.tables :: t in chosen
    ensures Connected(g, Some(chosen), p.tables[i], Last(p))
  {
    var q := JoinPath(p.tables[i..], p.edges[i..]);
    forall j | 0 <= j < |q.edges| ensures IsStep(g, Some(chosen), q.tables[j], q.edges[j], q.tables[j + 1]) {
      assert IsStep(g, None, p.tables[i + j], p.edges[i + j], p.tables[i + j + 1]);
      assert p.tables[i + j + 1] in p.tables;
    }
    assert IsPath(g, Some(chosen), p.tables[i], q);
  }

  /** a is connected, inside wider, to a table of chosen. */
  ghost predicate Anchored(g: Graph, chosen: set<int>, wider: set<int>, a: int) {
    exists x :: x in chosen && Connected(g, Some(wider), a, x)
  }

  lemma {:induction false} ThroughAnchors(g: Graph, chosen: set<int>, wider: set<int>, a: int, b: int, x: int, y: int)
    requires Symmetric(g) && chosen <= wider && a in wider && b in wider
    requires Connected(g, None, a, b)
    requires Connected(g, Some(wider), a, x) && Connected(g, Some(wider), b, y)
    requires Connected(g, None, x, y) ==> Connected(g, Some(chosen), x, y)
    ensures Connected(g, Some(wider), a, b)
  {
    ConnectedInMore(g, wider, None, a, x);
    ConnectedInMore(g, wider, None, b, y);
    ConnectedSym(g, None, a, x);
    ConnectedTrans(g, None, x, a, b);
    ConnectedTrans(g, None, x, b, y);
    ConnectedInMore(g, chosen, Some(wider), x, y);
    ConnectedSym(g, Some(wider), b, y);
    ConnectedTrans(g, Some(wider), a, x, y);
    ConnectedTrans(g, Some(wider), a, y, b);
  }

  lemma {:induction false} AnchoredKeeps(g: Graph, chosen: set<int>, wider: set<int>)
    requires Symmetric(g) && KeepsConnections(g, chosen) && chosen <= wider
    requires forall a {:trigger Anchored(g, chosen, wider, a)} | a in wider :: Anchored(g, chosen, wider, a)
    ensures KeepsConnections(g, wider)
  {
    forall a, b | a in wider && b in wider && Connected(g, None, a, b) ensures Connected(g, Some(wider), a, b) {
      assert Anchored(g, chosen, wider, a) && Anchored(g, chosen, wider, b);
      var x :| x in chosen && Connected(g, Some(wider), a, x);
      var y :| y in chosen && Connected(g, Some(wider), b, y);
      ThroughAnchors(g, chosen, wider, a, b, x, y);
    }
  }

  /** Adding all tables of a path that ends in chosen keeps connections. */
  lemma {:induction false} AddPath(g: Graph, chosen: set<int>, start: int, p: JoinPath, wider: set<int>)
    requires Symmetric(g) && KeepsConnections(g, chosen)
    requires IsPath(g, None, start, p) && Last(p) in chosen
    requires wider == chosen + set t | t in p.tables
    ensures KeepsConnections(g, wider)
  {
    forall a | a in wider ensures Anchored(g, chosen, wider, a) {
      if a in chosen {
        ConnectedSelf(g, Some(wider), a);
      } else {
        var i :| 0 <= i < |p.tables| && p.tables[i] == a;
        TableReachesEnd(g, start, p, wider, i);
      }
    }
    AnchoredKeeps(g, chosen, wider);
  }

  /** Adding a table connected to no chosen table keeps connections. */
  lemma {:induction false} AddIsolated(g: Graph, chosen: set<int>, c: int)
    requires Symmetric(g) && KeepsConnections(g, chosen)
    requires forall t | t in chosen :: !Connected(g, None, c, t)
    ensures KeepsConnections(g, chosen + {c})
  {
    var wider := chosen + {c};
    forall a, b | a in wider && b in wider && Connected(g, None, a, b) ensures Connected(g, Some(wider), a, b) {
      if a == b {
        ConnectedSelf(g, Some(wider), a);
      } else {
        ConnectedSym(g, None, a, b);
        ConnectedInMore(g, chosen, Some(wider), a, b);
      }
    }
  }

  // ----- Selection -----

  /** best is the least of all paths from candidate to a table of selected. */
  ghost predicate IsBestConnection(g: Graph, candidate: int, selected: seq<int>, best: JoinPath) {
    && IsPath(g, None, candidate, best) && Last(best) in selected && Simple(best)
    && forall q | IsPath(g, None, candidate, q) && Last(q) in selected :: PathLeq(best, q)
  }

  lemma {:induction false} PathLeqTrans(p: JoinPath, q: JoinPath, r: JoinPath)
    requires PathLeq(p, q) && PathLeq(q, r)
    ensures PathLeq(p, r)
  {
    if LexLess(p.tables, q.tables) && LexLess(q.tables, r.tables) {
      LexTransitive(p.tables, q.tables, r.tables);
    }
    var a, b, c := ConstraintNames(p.edges), ConstraintNames(q.edges), ConstraintNames(r.edges);
    if LexLess(a, b) && LexLess(b, c) {
      LexTransitive(a, b, c);
    }
  }

  lemma {:induction false} PathLeqTotal(p: JoinPath, q: JoinPath)
    requires |p.tables| == |p.edges| + 1 && |q.tables| == |q.edges| + 1
    ensures PathLeq(p, q) || PathLess(q, p)
  {
    LexTotal(p.tables, q.tables);
    LexTotal(ConstraintNames(p.edges), ConstraintNames(q.edges));
  }

  /** The least connection so far and the least path to one more table give the next least one. */
  lemma {:induction false} BestOfMore(g: Graph, candidate: int, selected: seq<int>, t: int, best: Option<JoinPath>,
                                      path: JoinPath)
    requires IsShortest(g, None, candidate, t, path)
    requires best.Some? ==> IsBestConnection(g, candidate, selected, best.value)
    requires best.None? ==> forall q | IsPath(g, None, candidate, q) :: Last(q) !in selected
    ensures IsBestConnection(g, candidate, selected + [t],
                             if best.None? || PathLess(path, best.value) then path else best.value)
  {
    var winner := if best.None? || PathLess(path, best.value) then path else best.value;
    forall q | IsPath(g, None, candidate, q) && Last(q) in selected + [t] ensures PathLeq(winner, q) {
      if best.Some? {
        PathLeqTotal(best.value, path);
        if Last(q) == t {
          PathLeqTrans(winner, path, q);
        } else {
          PathLeqTrans(winner, best.value, q);
        }
      }
    }
  }

  /** The first least path from candidate to a selected table, if there is one. */
  method BestConnection(g: Graph, candidate: int, selected: seq<int>) returns (best: Option<JoinPath>)
    requires ForeignKeyGraph(g)
    ensures best.None? ==> forall q | IsPath(g, None, candidate, q) :: Last(q) !in selected
    ensures best.Some? ==> IsBestConnection(g, candidate, selected, best.value)
  {
    best := None;
    for i := 0 to |selected|
      invariant best.None? ==> forall q | IsPath(g, None, candidate, q) :: Last(q) !in selected[..i]
      invariant best.Some? ==> IsBestConnection(g, candidate, selected[..i], best.value)
    {
      assert selected[..i + 1] == selected[..i] + [selected[i]];
      var path := ShortestPath(g, candidate, selected[i], None);
      if path.Some? {
        BestOfMore(g, candidate, selected[..i], selected[i], best, path.value);
        if best.None? || PathLess(path.value, best.value) {
          best := path;
        }
      }
    }
    assert selected[..|selected|] == selected;
  }

  function NewTables(tables: seq<int>, chosen: set<int>): (r: seq<int>)
    ensures forall t :: t in r <==> t in tables && t !in chosen
  {
    if tables == [] then []
    else
      var rest := NewTables(tables[..|tables| - 1], chosen);
      var t := tables[|tables| - 1];
      assert tables == tables[..|tables| - 1] + [t];
      if t in chosen then rest else rest + [t]
  }

  lemma {:induction false} PathTables(g: Graph, start: int, p: JoinPath, t: int)
    requires Closed(g) && IsPath(g, None, start, p) && t in p.tables
    ensures t == start || t in g
  {
    var i :| 0 <= i < |p.tables| && p.tables[i] == t;
    if i > 0 {
      assert IsStep(g, None, p.tables[i - 1], p.edges[i - 1], p.tables[i]);
    }
  }

  /** The tables of the best connection; every best connection has the same ones. */
  ghost function BestTables(g: Graph, candidate: int, selected: seq<int>): Option<seq<int>> {
    if exists p :: IsBestConnection(g, candidate, selected, p) then
      var p :| IsBestConnection(g, candidate, selected, p);
      Some(p.tables)
    else None
  }

  lemma {:induction false} BestTablesOf(g: Graph, candidate: int, selected: seq<int>, p: JoinPath)
    requires IsBestConnection(g, candidate, selected, p)
    ensures BestTables(g, candidate, selected) == Some(p.tables)
  {
    forall q | IsBestConnection(g, candidate, selected, q) ensures q.tables == p.tables {
      if LexLess(p.tables, q.tables) && LexLess(q.tables, p.tables) {
        LexTransitive(p.tables, q.tables, p.tables);
        LexIrreflexive(p.tables);
      }
    }
  }

  /** The ids selected so far, and whether some id was taken without the tables that join it. */
  datatype Pick = Pick(selected: seq<int>, overflowed: bool)

  /** The tables that join candidate to the selection, or candidate alone if nothing does. */
  ghost function Additions(g: Graph, candidate: int, selected: seq<int>): seq<int> {
    match BestTables(g, candidate, selected)
    case Some(tables) => NewTables(tables, Elements(selected))
    case None => [candidate]
  }

  /** One candidate of _select_table_ids. */
  ghost function Consider(g: Graph, topK: int, pick: Pick, candidate: int): Pick {
    if candidate in pick.selected then pick
    else if pick.selected == [] then pick.(selected := [candidate])
    else
      var additions := Additions(g, candidate, pick.selected);
      var size := |Elements(pick.selected)|;
      if size + |additions| <= topK then pick.(selected := pick.selected + additions)
      else if size < topK then Pick(pick.selected + [candidate], true)
      else pick
  }

  /** The selection after all of ranked, without the early exit. */
  ghost function Selection(g: Graph, ranked: seq<int>, topK: int): Pick {
    if ranked == [] then Pick([], false)
    else Consider(g, topK, Selection(g, ranked[..|ranked| - 1], topK), ranked[|ranked| - 1])
  }

  lemma {:induction false} AdditionsKeep(g: Graph, candidate: int, selected: seq<int>)
    requires ForeignKeyGraph(g) && candidate !in selected
    requires BestTables(g, candidate, selected).None? ==> forall t | t in selected :: !Connected(g, None, candidate, t)
    ensures candidate in Additions(g, candidate, selected)
    ensures forall t | t in Additions(g, candidate, selected) :: t == candidate || t in g
    ensures KeepsConnections(g, Elements(selected)) ==>
              KeepsConnections(g, Elements(selected + Additions(g, candidate, selected)))
  {
    var chosen, additions := Elements(selected), Additions(g, candidate, selected);
    if BestTables(g, candidate, selected).Some? {
      var p :| IsBestConnection(g, candidate, selected, p);
      BestTablesOf(g, candidate, selected, p);
      assert p.tables[0] in p.tables;
      forall t | t in additions ensures t == candidate || t in g {
        PathTables(g, candidate, p, t);
      }
      assert Elements(selected + additions) == chosen + set t | t in p.tables;
      if KeepsConnections(g, chosen) {
        AddPath(g, chosen, candidate, p, Elements(selected + additions));
      }
    } else {
      assert Elements(selected + additions) == chosen + {candidate};
      if KeepsConnections(g, chosen) {
        AddIsolated(g, chosen, candidate);
      }
    }
  }

  /** What the selection loop keeps about the ids selected from ranked. */
  ghost predicate Selecting(g: Graph, ranked: seq<int>, topK: int, pick: Pick) {
    && |Elements(pick.selected)| <= topK
    && (forall t | t in pick.selected :: t in ranked || t in g)
    && (|Elements(pick.selected)| == topK || forall t | t in ranked :: t in pick.selected)
    && (!pick.overflowed ==> KeepsConnections(g, Elements(pick.selected)))
  }

  lemma {:induction false} SelectMore(g: Graph, ranked: seq<int>, topK: int, pick: Pick, candidate: int, more: seq<int>,
                                      overflowed: bool)
    requires Selecting(g, ranked, topK, pick)
    requires |Elements(pick.selected)| < topK && |Elements(pick.selected)| + |more| <= topK
    requires candidate in more && forall t | t in more :: t == candidate || t in g
    requires !overflowed ==> KeepsConnections(g, Elements(pick.selected + more))
    ensures Selecting(g, ranked + [candidate], topK, Pick(pick.selected + more, overflowed))
  {
    JoinedSize(pick.selected, more);
  }

  lemma {:induction false} ConsiderKeeps(g: Graph, ranked: seq<int>, topK: int, pick: Pick, candidate: int)
    requires ForeignKeyGraph(g) && 0 < topK
    requires |Elements(pick.selected)| < topK && Selecting(g, ranked, topK, pick)
    requires (pick.selected != [] && candidate !in pick.selected && BestTables(g, candidate, pick.selected).None?) ==>
               forall t | t in pick.selected :: !Connected(g, None, candidate, t)
    ensures Selecting(g, ranked + [candidate], topK, Consider(g, topK, pick, candidate))
  {
    if candidate in pick.selected {
    } else if pick.selected == [] {
      assert Elements([candidate]) == {candidate};
      ConnectedSelf(g, Some({candidate}), candidate);
      assert pick.selected + [candidate] == [candidate];
      SelectMore(g, ranked, topK, pick, candidate, [candidate], pick.overflowed);
    } else {
      AdditionsKeep(g, candidate, pick.selected);
      var additions := Additions(g, candidate, pick.selected);
      if |Elements(pick.selected)| + |additions| <= topK {
        SelectMore(g, ranked, topK, pick, candidate, additions, pick.overflowed);
      } else {
        SelectMore(g, ranked, topK, pick, candidate, [candidate], true);
      }
    }
  }

  lemma {:induction false} ConsiderFull(g: Graph, topK: int, pick: Pick, candidate: int)
    requires 0 < topK && |Elements(pick.selected)| == topK
    ensures Consider(g, topK, pick, candidate) == pick
  {
    assert Elements([]) == {};
    if pick.selected != [] {
      assert pick.selected + [] == pick.selected;
    }
  }

  /** A full selection no longer changes, which is why the loop may stop early. */
  lemma {:induction false} FullStays(g: Graph, ranked: seq<int>, i: int, topK: int)
    requires 0 <= i <= |ranked| && 0 < topK
    requires |Elements(Selection(g, ranked[..i], topK).selected)| == topK
    ensures Selection(g, ranked, topK) == Selection(g, ranked[..i], topK)
    decreases |ranked|
  {
    if i < |ranked| {
      var n := |ranked| - 1;
      assert ranked[..n][..i] == ranked[..i];
      FullStays(g, ranked[..n], i, topK);
      ConsiderFull(g, topK, Selection(g, ranked[..n], topK), ranked[n]);
    } else {
      assert ranked[..i] == ranked;
    }
  }

  // ----- The whole selection -----

  /** The ranked ids that were chosen, in ranked order. */
  function Chosen(ranked: seq<int>, chosen: set<int>): (r: seq<int>) {
    Filter(t => t in chosen, ranked)
  }

  lemma {:induction false} ChosenMembers(ranked: seq<int>, chosen: set<int>)
    ensures forall t :: t in Chosen(ranked, chosen) <==> t in ranked && t in chosen
  {
    FilterMembers(t => t in chosen, ranked);
  }

  lemma {:induction false} ChosenNoRepeats(ranked: seq<int>, chosen: set<int>)
    requires NoRepeats(ranked)
    ensures NoRepeats(Chosen(ranked, chosen))
  {
    if ranked != [] {
      ChosenNoRepeats(ranked[1..], chosen);
      FilterMembers(t => t in chosen, ranked[1..]);
      assert ranked[0] !in ranked[1..];
    }
  }

  lemma {:induction false} ChosenAll(ranked: seq<int>, chosen: set<int>, topK: int)
    requires NoRepeats(ranked) && |chosen| <= topK
    requires forall t | t in chosen :: t in ranked
    requires forall t | t in ranked :: |chosen| == topK || t in chosen
    ensures Elements(Chosen(ranked, chosen)) == chosen
    ensures |Chosen(ranked, chosen)| == Min(topK, |ranked|)
  {
    var r := Chosen(ranked, chosen);
    forall t ensures t in Elements(r) <==> t in chosen {
      ChosenMembers(ranked, chosen);
      assert t in r <==> t in ranked && t in chosen;
    }
    ChosenNoRepeats(ranked, chosen);
    NoRepeatsSize(r);
    NoRepeatsSize(ranked);
    SubsetSize(Elements(r), Elements(ranked));
    if |chosen| != topK {
      assert Elements(ranked) == chosen;
    }
  }

  ghost function Min(a: int, b: int): int {
    if a <= b then a else b
  }

  /** The loop body of _select_table_ids. */
  method SelectNext(g: Graph, topK: int, selected: seq<int>, candidate: int, ghost ranked: seq<int>, ghost pick: Pick)
    returns (selected': seq<int>)
    requires ForeignKeyGraph(g) && 0 < topK
    requires selected == pick.selected && |Elements(selected)| < topK && Selecting(g, ranked, topK, pick)
    ensures selected' == Consider(g, topK, pick, candidate).selected
    ensures Selecting(g, ranked + [candidate], topK, Consider(g, topK, pick, candidate))
  {
    selected' := selected;
    if candidate !in selected {
      if selected == [] {
        selected' := [candidate];
      } else {
        var best := BestConnection(g, candidate, selected);
        NoBestConnection(g, candidate, selected, best);
        var additions := if best.Some? then NewTables(best.value.tables, Elements(selected)) else [candidate];
        if |Elements(selected)| + |additions| <= topK {
          selected' := selected + additions;
        } else {
          selected' := selected + [candidate];
        }
      }
    }
    ConsiderKeeps(g, ranked, topK, pick, candidate);
  }

  // What one candidate does to the selection, and when something overflows

  /** The ids selected from the first i of ranked. */
  ghost function SelectedBefore(g: Graph, ranked: seq<int>, topK: int, i: int): seq<int>
    requires 0 <= i <= |ranked|
  {
    Selection(g, ranked[..i], topK).selected
  }

  /** ranked[i] is new, and p joins it to the ids selected before it as briefly as any path. */
  ghost predicate JoinsNext(g: Graph, ranked: seq<int>, topK: int, i: int, p: JoinPath) {
    && 0 <= i < |ranked| && ranked[i] !in SelectedBefore(g, ranked, topK, i)
    && IsBestConnection(g, ranked[i], SelectedBefore(g, ranked, topK, i), p)
  }

  /** The ids selected before ranked[i] and the tables of p. */
  ghost function Together(g: Graph, ranked: seq<int>, topK: int, i: int, p: JoinPath): set<int>
    requires 0 <= i <= |ranked|
  {
    Elements(SelectedBefore(g, ranked, topK, i)) + Elements(p.tables)
  }

  /** Some candidate is left without the tables that join it: they exceed the budget, and a place is free. */
  ghost predicate Overflows(g: Graph, ranked: seq<int>, topK: int) {
    exists i, p :: OverflowsAt(g, ranked, topK, i, p)
  }

  ghost predicate OverflowsAt(g: Graph, ranked: seq<int>, topK: int, i: int, p: JoinPath) {
    JoinsNext(g, ranked, topK, i, p)
    && |Elements(SelectedBefore(g, ranked, topK, i))| < topK < |Together(g, ranked, topK, i, p)|
  }

  lemma {:induction false} OneMoreTable(tables: seq<int>, chosen: set<int>)
    requires NoRepeats(tables) && tables != []
    ensures
      var front, t := tables[..|tables| - 1], tables[|tables| - 1];
      |chosen + Elements(tables)| == |chosen + Elements(front)| + if t in chosen then 0 else 1
  {
    var front, t := tables[..|tables| - 1], tables[|tables| - 1];
    assert tables == front + [t] && t !in Elements(front);
    assert chosen + Elements(tables) == chosen + Elements(front) + {t};
  }

  lemma {:induction false} NewTablesSize(tables: seq<int>, chosen: set<int>)
    requires NoRepeats(tables)
    ensures |chosen + Elements(tables)| == |chosen| + |NewTables(tables, chosen)|
  {
    if tables == [] {
      assert chosen + Elements(tables) == chosen;
    } else {
      OneMoreTable(tables, chosen);
      NewTablesSize(tables[..|tables| - 1], chosen);
    }
  }

  /** Every table of a best connection, if they fit; else the candidate alone, if there is a place. */
  lemma {:induction false} NextIsDecided(g: Graph, ranked: seq<int>, topK: int, i: int, p: JoinPath)
    requires JoinsNext(g, ranked, topK, i, p)
    ensures
      var before, after := SelectedBefore(g, ranked, topK, i), Selection(g, ranked[..i + 1], topK);
      var together := Together(g, ranked, topK, i, p);
      && (|together| <= topK ==> Elements(after.selected) == together)
      && (|Elements(before)| < topK < |together| ==> after.selected == before + [ranked[i]])
      && (|Elements(before)| >= topK && |together| > topK ==> after.selected == before)
      && (after.overflowed <==> Selection(g, ranked[..i], topK).overflowed
                                || |Elements(before)| < topK < |together|)
  {
    var before := SelectedBefore(g, ranked, topK, i);
    SelectionNext(g, ranked, i, topK);
    BestTablesOf(g, ranked[i], before, p);
    NewTablesSize(p.tables, Elements(before));
    assert Elements(before + NewTables(p.tables, Elements(before))) == Together(g, ranked, topK, i, p);
  }

  /** A candidate that nothing joins is taken while there is a place. */
  lemma {:induction false} UnjoinedIsDecided(g: Graph, ranked: seq<int>, topK: int, i: int)
    requires 0 <= i < |ranked| && ranked[i] !in SelectedBefore(g, ranked, topK, i) && 0 < topK
    requires forall p :: !JoinsNext(g, ranked, topK, i, p)
    ensures
      var before, after := SelectedBefore(g, ranked, topK, i), Selection(g, ranked[..i + 1], topK);
      && after.selected == (if |Elements(before)| < topK then before + [ranked[i]] else before)
      && after.overflowed == Selection(g, ranked[..i], topK).overflowed
  {
    var before := SelectedBefore(g, ranked, topK, i);
    SelectionNext(g, ranked, i, topK);
    if p :| IsBestConnection(g, ranked[i], before, p) {
      assert JoinsNext(g, ranked, topK, i, p);
    }
    assert Elements([]) == {} && [] + [ranked[i]] == [ranked[i]];
    assert before == [] ==> Elements(before) == {};
  }

  lemma {:induction false} SelectionGrows(g: Graph, ranked: seq<int>, topK: int, i: int)
    requires 0 <= i <= |ranked|
    ensures forall t | t in SelectedBefore(g, ranked, topK, i) :: t in Selection(g, ranked, topK).selected
    decreases |ranked|
  {
    if i < |ranked| {
      var n := |ranked| - 1;
      assert ranked[..n][..i] == ranked[..i];
      SelectionGrows(g, ranked[..n], topK, i);
    } else {
      assert ranked[..i] == ranked;
    }
  }

  /** Whenever a candidate and the tables that join it fit, all of them are selected in the end. */
  lemma {:induction false} FittingJoinIsSelected(g: Graph, ranked: seq<int>, topK: int, i: int, p: JoinPath, t: int)
    requires JoinsNext(g, ranked, topK, i, p) && |Together(g, ranked, topK, i, p)| <= topK && t in p.tables
    ensures t in Selection(g, ranked, topK).selected
  {
    NextIsDecided(g, ranked, topK, i, p);
    assert t in Elements(Selection(g, ranked[..i + 1], topK).selected);
    SelectionGrows(g, ranked, topK, i + 1);
  }

  lemma {:induction false} AllFittingJoins(g: Graph, ranked: seq<int>, topK: int)
    ensures forall i, p | JoinsNext(g, ranked, topK, i, p) && |Together(g, ranked, topK, i, p)| <= topK ::
              forall t | t in p.tables :: t in Selection(g, ranked, topK).selected
  {
    forall i, p, t | JoinsNext(g, ranked, topK, i, p) && |Together(g, ranked, topK, i, p)| <= topK && t in p.tables
      ensures t in Selection(g, ranked, topK).selected
    {
      FittingJoinIsSelected(g, ranked, topK, i, p, t);
    }
  }

  lemma {:induction false} EarlierCandidates(g: Graph, ranked: seq<int>, topK: int, n: int)
    requires 0 <= n <= |ranked| && Overflows(g, ranked[..n], topK)
    ensures Overflows(g, ranked, topK)
  {
    var i, p :| OverflowsAt(g, ranked[..n], topK, i, p);
    assert ranked[..n][..i] == ranked[..i];
    assert OverflowsAt(g, ranked, topK, i, p);
  }

  /** An overflow of ranked is one of its front, or one of its last candidate. */
  lemma {:induction false} LastCandidate(g: Graph, ranked: seq<int>, topK: int, i: int, p: JoinPath)
    requires OverflowsAt(g, ranked, topK, i, p) && i < |ranked| - 1
    ensures Overflows(g, ranked[..|ranked| - 1], topK)
  {
    var front := ranked[..|ranked| - 1];
    assert front[..i] == ranked[..i];
    assert OverflowsAt(g, front, topK, i, p);
  }

  lemma {:induction false} OverflowIsMarked(g: Graph, ranked: seq<int>, topK: int)
    requires Overflows(g, ranked, topK)
    ensures Selection(g, ranked, topK).overflowed
  {
    var n := |ranked| - 1;
    var i, p :| OverflowsAt(g, ranked, topK, i, p);
    if i < n {
      LastCandidate(g, ranked, topK, i, p);
      OverflowIsMarked(g, ranked[..n], topK);
      OverflowStays(g, ranked, topK);
    } else {
      NextIsDecided(g, ranked, topK, n, p);
      assert ranked[..n + 1] == ranked;
    }
  }

  lemma {:induction false} MarkedIsOverflow(g: Graph, ranked: seq<int>, topK: int)
    requires 0 < topK && Selection(g, ranked, topK).overflowed
    ensures Overflows(g, ranked, topK)
  {
    var n := |ranked| - 1;
    if Selection(g, ranked[..n], topK).overflowed {
      MarkedIsOverflow(g, ranked[..n], topK);
      EarlierCandidates(g, ranked, topK, n);
    } else {
      NewlyMarked(g, ranked, topK);
    }
  }

  lemma {:induction false} NewlyMarked(g: Graph, ranked: seq<int>, topK: int)
    requires 0 < topK && ranked != [] && Selection(g, ranked, topK).overflowed
    requires !Selection(g, ranked[..|ranked| - 1], topK).overflowed
    ensures Overflows(g, ranked, topK)
  {
    var n := |ranked| - 1;
    assert ranked[..n + 1] == ranked;
    if p :| JoinsNext(g, ranked, topK, n, p) {
      NextIsDecided(g, ranked, topK, n, p);
      assert OverflowsAt(g, ranked, topK, n, p);
    } else if ranked[n] !in SelectedBefore(g, ranked, topK, n) {
      UnjoinedIsDecided(g, ranked, topK, n);
    }
  }

  /** The selection is marked exactly when some candidate really had to be taken without its tables. */
  lemma {:induction false} MarkedExactly(g: Graph, ranked: seq<int>, topK: int)
    requires 0 < topK
    ensures Selection(g, ranked, topK).overflowed <==> Overflows(g, ranked, topK)
  {
    if Overflows(g, ranked, topK) {
      OverflowIsMarked(g, ranked, topK);
    }
    if Selection(g, ranked, topK).overflowed {
      MarkedIsOverflow(g, ranked, topK);
    }
  }

  lemma {:induction false} OverflowStays(g: Graph, ranked: seq<int>, topK: int)
    requires ranked != [] && Selection(g, ranked[..|ranked| - 1], topK).overflowed
    ensures Selection(g, ranked, topK).overflowed
  {
  }

  /** a is ranked before b. */
  ghost predicate InOrder(ranked: seq<int>, a: int, b: int) {
    exists k, l :: 0 <= k < l < |ranked| && ranked[k] == a && ranked[l] == b
  }

  /** The chosen ids keep their order. */
  lemma {:induction false} ChosenInOrder(ranked: seq<int>, chosen: set<int>, i: int, j: int)
    requires 0 <= i < j < |Chosen(ranked, chosen)|
    ensures InOrder(ranked, Chosen(ranked, chosen)[i], Chosen(ranked, chosen)[j])
  {
    var r := Chosen(ranked, chosen);
    if ranked[0] in chosen {
      assert r == [ranked[0]] + Chosen(ranked[1..], chosen);
      if i == 0 {
        ChosenMembers(ranked[1..], chosen);
        assert r[j] in Chosen(ranked[1..], chosen);
        var l :| 0 <= l < |ranked[1..]| && ranked[1..][l] == r[j];
        assert ranked[0] == r[i] && ranked[l + 1] == r[j];
      } else {
        ChosenInOrder(ranked[1..], chosen, i - 1, j - 1);
        var k, l :| 0 <= k < l < |ranked[1..]| && ranked[1..][k] == r[i] && ranked[1..][l] == r[j];
        assert ranked[k + 1] == r[i] && ranked[l + 1] == r[j];
      }
    } else {
      ChosenInOrder(ranked[1..], chosen, i, j);
      var k, l :| 0 <= k < l < |ranked[1..]| && ranked[1..][k] == r[i] && ranked[1..][l] == r[j];
      assert ranked[k + 1] == r[i] && ranked[l + 1] == r[j];
    }
  }

  /** _select_table_ids. */
  method SelectTableIds(ranked: seq<int>, g: Graph, topK: int) returns (r: seq<int>)
    requires ForeignKeyGraph(g) && 0 < topK
    ensures r == Chosen(ranked, Elements(Selection(g, ranked, topK).selected))
    ensures forall i, j | 0 <= i < j < |r| :: InOrder(ranked, r[i], r[j])
    ensures NoRepeats(ranked) && (forall t | t in g :: t in ranked) ==>
              |r| == Min(topK, |ranked|) && Elements(r) == Elements(Selection(g, ranked, topK).selected)
    ensures !Overflows(g, ranked, topK) ==> KeepsConnections(g, Elements(Selection(g, ranked, topK).selected))
    ensures forall i, p | JoinsNext(g, ranked, topK, i, p) && |Together(g, ranked, topK, i, p)| <= topK ::
              forall t | t in p.tables :: t in Selection(g, ranked, topK).selected
  {
    var selected: seq<int> := [];
    ghost var pick := Pick([], false);
    var i := 0;
    assert Elements([]) == {};
    while i < |ranked| && |Elements(selected)| != topK
      invariant 0 <= i <= |ranked|
      invariant pick == Selection(g, ranked[..i], topK) && selected == pick.selected
      invariant Selecting(g, ranked[..i], topK, pick)
    {
      SelectionNext(g, ranked, i, topK);
      selected := SelectNext(g, topK, selected, ranked[i], ranked[..i], pick);
      pick := Consider(g, topK, pick, ranked[i]);
      i := i + 1;
    }
    FinalPick(g, ranked, topK, i, pick);
    MarkedExactly(g, ranked, topK);
    AllFittingJoins(g, ranked, topK);
    r := Chosen(ranked, Elements(selected));
    forall i, j | 0 <= i < j < |r| ensures InOrder(ranked, r[i], r[j]) {
      ChosenInOrder(ranked, Elements(selected), i, j);
    }
    if NoRepeats(ranked) && forall t | t in g :: t in ranked {
      FinalSize(g, ranked, topK, pick);
    }
  }

  lemma {:induction false} SelectionNext(g: Graph, ranked: seq<int>, i: int, topK: int)
    requires 0 <= i < |ranked|
    ensures ranked[..i + 1] == ranked[..i] + [ranked[i]]
    ensures Selection(g, ranked[..i + 1], topK) == Consider(g, topK, Selection(g, ranked[..i], topK), ranked[i])
  {
    assert ranked[..i + 1][..i] == ranked[..i];
  }

  lemma {:induction false} FinalPick(g: Graph, ranked: seq<int>, topK: int, i: int, pick: Pick)
    requires 0 < topK && 0 <= i <= |ranked| && pick == Selection(g, ranked[..i], topK)
    requires i == |ranked| || |Elements(pick.selected)| == topK
    requires Selecting(g, ranked[..i], topK, pick)
    ensures pick == Selection(g, ranked, topK) && Selecting(g, ranked, topK, pick)
  {
    if i < |ranked| {
      FullStays(g, ranked, i, topK);
      forall t | t in ranked[..i] ensures t in ranked {
      }
    } else {
      assert ranked[..i] == ranked;
    }
  }

  lemma {:induction false} FinalSize(g: Graph, ranked: seq<int>, topK: int, pick: Pick)
    requires Selecting(g, ranked, topK, pick) && NoRepeats(ranked) && forall t | t in g :: t in ranked
    ensures Elements(Chosen(ranked, Elements(pick.selected))) == Elements(pick.selected)
    ensures |Chosen(ranked, Elements(pick.selected))| == Min(topK, |ranked|)
  {
    ChosenAll(ranked, Elements(pick.selected), topK);
  }

  /** What the search for the best connection reports, in terms of BestTables. */
  lemma {:induction false} NoBestConnection(g: Graph, candidate: int, selected: seq<int>, best: Option<JoinPath>)
    requires best.None? ==> forall q | IsPath(g, None, candidate, q) :: Last(q) !in selected
    requires best.Some? ==> IsBestConnection(g, candidate, selected, best.value)
    ensures best.None? ==> BestTables(g, candidate, selected).None?
    ensures best.None? ==> forall t | t in selected :: !Connected(g, None, candidate, t)
    ensures best.Some? ==> BestTables(g, candidate, selected) == Some(best.value.tables)
  {
    if best.Some? {
      BestTablesOf(g, candidate, selected, best.value);
    }
  }

  // ----- Join paths -----

  ghost predicate EndsBefore(p: JoinPath, q: JoinPath) {
    && |p.tables| > 0 && |q.tables| > 0
    && (p.tables[0] < q.tables[0] || (p.tables[0] == q.tables[0] && Last(p) < Last(q)))
  }

  /** paths holds the least path inside chosen for each of the pairs that chosen connects, in the
      order of the pairs, and nothing else. */
  ghost predicate JoinsPairs(g: Graph, chosen: set<int>, pairs: set<(int, int)>, paths: seq<JoinPath>) {
    && (forall k | 0 <= k < |paths| :: Joins(g, chosen, pairs, paths[k]))
    && (forall j, k | 0 <= j < k < |paths| :: EndsBefore(paths[j], paths[k]))
    && (forall pair | pair in pairs && Connected(g, Some(chosen), pair.0, pair.1) :: JoinedBy(paths, pair.0, pair.1))
  }

  ghost predicate Joins(g: Graph, chosen: set<int>, pairs: set<(int, int)>, p: JoinPath) {
    |p.tables| > 0 && (p.tables[0], Last(p)) in pairs && IsShortest(g, Some(chosen), p.tables[0], Last(p), p)
  }

  ghost predicate JoinedBy(paths: seq<JoinPath>, s: int, t: int) {
    exists k :: 0 <= k < |paths| && |paths[k].tables| > 0 && paths[k].tables[0] == s && Last(paths[k]) == t
  }

  ghost predicate PairBefore(pair: (int, int), s: int, t: int) {
    pair.0 < s || (pair.0 == s && pair.1 < t)
  }

  lemma {:induction false} JoinOneMore(g: Graph, chosen: set<int>, pairs: set<(int, int)>, paths: seq<JoinPath>, s: int,
                                       t: int, path: Option<JoinPath>)
    requires JoinsPairs(g, chosen, pairs, paths)
    requires forall pair | pair in pairs :: PairBefore(pair, s, t)
    requires path.None? ==> !Connected(g, Some(chosen), s, t)
    requires path.Some? ==> IsShortest(g, Some(chosen), s, t, path.value)
    ensures JoinsPairs(g, chosen, pairs + {(s, t)}, if path.Some? then paths + [path.value] else paths)
  {
    var paths', pairs' := if path.Some? then paths + [path.value] else paths, pairs + {(s, t)};
    forall k | 0 <= k < |paths'| ensures Joins(g, chosen, pairs', paths'[k]) {
      assert k < |paths| ==> Joins(g, chosen, pairs, paths[k]);
    }
    forall j, k | 0 <= j < k < |paths'| ensures EndsBefore(paths'[j], paths'[k]) {
      assert Joins(g, chosen, pairs, paths[j]);
      assert PairBefore((paths[j].tables[0], Last(paths[j])), s, t) || k < |paths|;
    }
    forall pair | pair in pairs' && Connected(g, Some(chosen), pair.0, pair.1)
      ensures JoinedBy(paths', pair.0, pair.1)
    {
      if pair in pairs {
        var k :| 0 <= k < |paths| && |paths[k].tables| > 0 && paths[k].tables[0] == pair.0 && Last(paths[k]) == pair.1;
        assert paths'[k] == paths[k];
      } else {
        assert paths'[|paths|] == path.value;
      }
    }
  }

  ghost function AllPairs(ids: set<int>): set<(int, int)> {
    set s, t | s in ids && t in ids && s < t :: (s, t)
  }

  /** The pairs taken before the pair of positions i and j. */
  ghost function PairsUpTo(ids: seq<int>, i: int, j: int): set<(int, int)> {
    set a, b | 0 <= a < b < |ids| && (a < i || (a == i && b < j)) :: (ids[a], ids[b])
  }

  lemma {:induction false} NextPair(ids: seq<int>, i: int, j: int)
    requires 0 <= i < j < |ids| && forall a, b | 0 <= a < b < |ids| :: ids[a] < ids[b]
    ensures PairsUpTo(ids, i, j + 1) == PairsUpTo(ids, i, j) + {(ids[i], ids[j])}
    ensures forall pair | pair in PairsUpTo(ids, i, j) :: PairBefore(pair, ids[i], ids[j])
  {
    forall pair | pair in PairsUpTo(ids, i, j + 1) ensures pair in PairsUpTo(ids, i, j) + {(ids[i], ids[j])} {
      var a, b :| 0 <= a < b < |ids| && (a < i || (a == i && b < j + 1)) && pair == (ids[a], ids[b]);
    }
  }

  lemma {:induction false} NextRow(ids: seq<int>, i: int)
    requires 0 <= i < |ids|
    ensures PairsUpTo(ids, i, |ids|) == PairsUpTo(ids, i + 1, i + 2)
  {
  }

  lemma {:induction false} EveryPair(ids: seq<int>, chosen: set<int>)
    requires forall a, b | 0 <= a < b < |ids| :: ids[a] < ids[b]
    requires forall t :: t in ids <==> t in chosen
    ensures PairsUpTo(ids, |ids|, |ids| + 1) == AllPairs(chosen)
  {
    forall pair | pair in AllPairs(chosen) ensures pair in PairsUpTo(ids, |ids|, |ids| + 1) {
      var a :| 0 <= a < |ids| && ids[a] == pair.0;
      var b :| 0 <= b < |ids| && ids[b] == pair.1;
    }
  }

  /** The pairs of one table with the later ones. */
  method JoinRow(g: Graph, chosen: set<int>, ids: seq<int>, i: int, before: seq<JoinPath>)
      returns (paths: seq<JoinPath>)
    requires ForeignKeyGraph(g) && 0 <= i < |ids| && forall a, b | 0 <= a < b < |ids| :: ids[a] < ids[b]
    requires JoinsPairs(g, chosen, PairsUpTo(ids, i, i + 1), before)
    ensures JoinsPairs(g, chosen, PairsUpTo(ids, i + 1, i + 2), paths)
  {
    paths := before;
    for j := i + 1 to |ids|
      invariant JoinsPairs(g, chosen, PairsUpTo(ids, i, j), paths)
    {
      var path := ShortestPath(g, ids[i], ids[j], Some(chosen));
      NextPair(ids, i, j);
      JoinOneMore(g, chosen, PairsUpTo(ids, i, j), paths, ids[i], ids[j], path);
      if path.Some? {
        paths := paths + [path.value];
      }
    }
    NextRow(ids, i);
  }

  lemma {:induction false} NothingJoined(g: Graph, chosen: set<int>, ids: seq<int>)
    ensures JoinsPairs(g, chosen, PairsUpTo(ids, 0, 1), [])
  {
    assert PairsUpTo(ids, 0, 1) == {};
  }

  /** _join_paths. */
  method JoinPaths(selectedIds: seq<int>, g: Graph) returns (paths: seq<JoinPath>)
    requires ForeignKeyGraph(g)
    ensures JoinsPairs(g, Elements(selectedIds), AllPairs(Elements(selectedIds)), paths)
  {
    var selectedSet := Elements(selectedIds);
    var ids := Ascending(selectedIds);
    AscendingIds(selectedIds);
    paths := [];
    NothingJoined(g, selectedSet, ids);
    for i := 0 to |ids|
      invariant JoinsPairs(g, selectedSet, PairsUpTo(ids, i, i + 1), paths)
    {
      paths := JoinRow(g, selectedSet, ids, i, paths);
    }
    EveryPair(ids, selectedSet);
  }

  /** If the selection keeps connections, exactly the pairs that the whole graph connects are joined. */
  lemma {:induction false} JoinedExactlyWhenConnected(g: Graph, chosen: set<int>, paths: seq<JoinPath>, s: int, t: int)
    requires KeepsConnections(g, chosen) && JoinsPairs(g, chosen, AllPairs(chosen), paths)
    requires s in chosen && t in chosen && s < t
    ensures JoinedBy(paths, s, t) <==> Connected(g, None, s, t)
  {
    assert (s, t) in AllPairs(chosen);
    if JoinedBy(paths, s, t) {
      var k :| 0 <= k < |paths| && |paths[k].tables| > 0 && paths[k].tables[0] == s && Last(paths[k]) == t;
      assert Joins(g, chosen, AllPairs(chosen), paths[k]);
      ConnectedInMore(g, chosen, None, s, t);
    }
  }
}
