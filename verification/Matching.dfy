/** Pairing of predicted rows with gold rows: _unordered_rows_equal. */
module Matching {
  // Row equality is an arbitrary relation here: under a numeric tolerance it is neither transitive nor
  // symmetric, so neither sorting nor counting can decide the question.

  import opened Wrappers
  import opened Ids

  // ----- What the comparison is about -----

  /** f assigns to every predicted row a gold row of its own that equals it. */
  ghost predicate IsPairing<Row>(eq: (Row, Row) -> bool, predicted: seq<Row>, gold: seq<Row>, f: seq<nat>) {
    && |f| == |predicted|
    && (forall p | 0 <= p < |f| :: f[p] < |gold| && eq(predicted[p], gold[f[p]]))
    && (forall p, q | 0 <= p < q < |f| :: f[p] != f[q])
  }

  ghost predicate PairsUp<Row>(eq: (Row, Row) -> bool, predicted: seq<Row>, gold: seq<Row>) {
    exists f :: IsPairing(eq, predicted, gold, f)
  }

  /** The gold rows that equal at least one of the predicted rows in s. */
  ghost function GoldOf<Row>(eq: (Row, Row) -> bool, predicted: seq<Row>, gold: seq<Row>, s: set<nat>): set<nat>
    requires forall p | p in s :: p < |predicted|
  {
    set g: nat | g < |gold| && exists p :: p in s && eq(predicted[p], gold[g])
  }

  /** s is short of exactly one gold row: the obstruction the search ends with. */
  ghost predicate ShortByOne<Row>(eq: (Row, Row) -> bool, predicted: seq<Row>, gold: seq<Row>, s: set<nat>) {
    && (forall p | p in s :: p < |predicted|)
    && |s| == |GoldOf(eq, predicted, gold, s)| + 1
  }

  // ----- Pigeonhole -----

  lemma {:induction false} InjectiveImage(f: seq<nat>, s: set<nat>, t: set<nat>)
    requires forall p | p in s :: p < |f| && f[p] in t
    requires forall p, q | p in s && q in s && p != q :: f[p] != f[q]
    ensures |s| <= |t|
    decreases s
  {
    if s != {} {
      var p :| p in s;
      InjectiveImage(f, s - {p}, t - {f[p]});
    }
  }

  ghost function Below(n: nat): (s: set<int>)
    ensures |s| == n
    ensures forall i: int :: i in s <==> 0 <= i < n
  {
    if n == 0 then {} else Below(n - 1) + {n - 1}
  }

  /** A set of predicted rows that is short of gold rows rules out every pairing. */
  lemma {:induction false} ShortageRefutesPairing<Row>(eq: (Row, Row) -> bool, predicted: seq<Row>, gold: seq<Row>,
                                                       s: set<nat>)
    requires ShortByOne(eq, predicted, gold, s)
    ensures !PairsUp(eq, predicted, gold)
  {
    if PairsUp(eq, predicted, gold) {
      var f :| IsPairing(eq, predicted, gold, f);
      InjectiveImage(f, s, GoldOf(eq, predicted, gold, s));
    }
  }

  // ----- Compatibility lists -----

  /** Indices of the gold rows equal to row, in increasing order. */
  function CompatibleGold<Row>(eq: (Row, Row) -> bool, row: Row, gold: seq<Row>, upTo: int): (r: seq<int>)
    requires 0 <= upTo <= |gold|
    ensures forall g: int :: g in r <==> 0 <= g < upTo && eq(row, gold[g])
    ensures forall i | 0 <= i < |r| :: 0 <= r[i] < upTo
    ensures forall i, j | 0 <= i < j < |r| :: r[i] < r[j]
  {
    if upTo == 0 then []
    else
      var earlier := CompatibleGold(eq, row, gold, upTo - 1);
      if eq(row, gold[upTo - 1]) then earlier + [upTo - 1] else earlier
  }

  function Adjacency<Row>(eq: (Row, Row) -> bool, predicted: seq<Row>, gold: seq<Row>): seq<seq<int>> {
    seq(|predicted|, p requires 0 <= p < |predicted| => CompatibleGold(eq, predicted[p], gold, |gold|))
  }

  ghost predicate Within(adj: seq<seq<int>>, golds: int) {
    forall p, g | 0 <= p < |adj| && g in adj[p] :: 0 <= g < golds
  }

  // ----- The matching while it is being built -----

  /** Apart from hole, m pairs exactly the predicted rows below n, each with the compatible gold
      row that of gives; m[g] is the owner of gold row g. */
  ghost predicate Matched(adj: seq<seq<int>>, m: seq<Option<int>>, n: int, of: seq<int>, hole: int) {
    && 0 <= |of| == n <= |adj|
    && (forall p | 0 <= p < n :: 0 <= of[p] < |m| && of[p] != hole && m[of[p]] == Some(p) && of[p] in adj[p])
    && (forall g | 0 <= g < |m| && g != hole && m[g].Some? :: 0 <= m[g].value < n && of[m[g].value] == g)
  }

  /** Giving the hole to an owner cp below n moves the hole to the gold row cp owned before. */
  lemma {:induction false} Shift(adj: seq<seq<int>>, m: seq<Option<int>>, n: int, of: seq<int>, cp: int, cg: int)
    requires Matched(adj, m, n, of, cg) && 0 <= cg < |m|
    requires 0 <= cp < n && cg in adj[cp]
    ensures Matched(adj, m[cg := Some(cp)], n, of[cp := cg], of[cp])
  {
  }

  /** Giving the hole to the next row closes it. */
  lemma {:induction false} Close(adj: seq<seq<int>>, m: seq<Option<int>>, n: int, of: seq<int>, cg: int)
    requires Matched(adj, m, n, of, cg) && 0 <= cg < |m|
    requires n < |adj| && cg in adj[n]
    ensures Matched(adj, m[cg := Some(n)], n + 1, of + [cg], -1)
  {
  }

  // ----- The alternating tree -----

  /** The state of one search: the queue of predicted rows, the rows seen on both sides, and for
      every predicted row but the root the row and the gold row it was reached by. */
  datatype Frontier = Frontier(pending: seq<int>, seenPrediction: set<int>, seenGold: set<int>,
                               parent: map<int, int>, incoming: map<int, int>)

  /** The rows seen form a tree with root start; rank falls towards the root. */
  ghost predicate Tree(adj: seq<seq<int>>, start: int, f: Frontier, rank: map<int, int>) {
    && start in f.seenPrediction && 0 <= start < |adj|
    && (forall p :: p in f.incoming <==> p in f.seenPrediction && p != start)
    && (forall p | p in f.seenPrediction :: 0 <= p <= start && p in rank && 0 <= rank[p])
    && (forall p {:trigger Link(adj, f, rank, p)} | p in f.incoming :: Link(adj, f, rank, p))
  }

  ghost predicate Link(adj: seq<seq<int>>, f: Frontier, rank: map<int, int>, p: int) {
    && p in f.parent && p in f.incoming && p in rank
    && f.parent[p] in f.seenPrediction && f.parent[p] in rank && rank[f.parent[p]] < rank[p]
    && 0 <= f.parent[p] < |adj| && f.incoming[p] in adj[f.parent[p]]
  }

  /** Up to rank bound, the rows below the root own the gold row they were reached by. */
  ghost predicate Owning(of: seq<int>, f: Frontier, rank: map<int, int>, bound: int) {
    forall p | p in f.incoming && p in rank && rank[p] <= bound :: 0 <= p < |of| && f.incoming[p] == of[p]
  }

  /** The gold rows seen are those owned by the rows of the tree, the root owning none. */
  ghost predicate Counted(m: seq<Option<int>>, of: seq<int>, f: Frontier) {
    && |f.seenGold| + 1 == |f.seenPrediction|
    && (forall p | p in f.incoming :: 0 <= p < |of| && f.incoming[p] == of[p] && of[p] in f.seenGold)
    && (forall g | g in f.seenGold :: 0 <= g < |m| && m[g].Some? && m[g].value in f.incoming)
  }

  ghost predicate Queued(f: Frontier) {
    && |f.pending| == |f.seenPrediction|
    && (forall p | p in f.seenPrediction :: p in f.pending)
    && (forall k | 0 <= k < |f.pending| :: f.pending[k] in f.seenPrediction)
  }

  ghost predicate Growing(adj: seq<seq<int>>, m: seq<Option<int>>, start: int, of: seq<int>,
                          f: Frontier, rank: map<int, int>) {
    Tree(adj, start, f, rank) && Counted(m, of, f) && Queued(f)
  }

  ghost predicate Covered(adj: seq<seq<int>>, p: int, seen: set<int>) {
    0 <= p < |adj| && forall g | g in adj[p] :: g in seen
  }

  /** Every compatible gold row of the first i rows of the queue has been seen. */
  ghost predicate Explored(adj: seq<seq<int>>, f: Frontier, i: int) {
    forall k | 0 <= k < i && k < |f.pending| :: Covered(adj, f.pending[k], f.seenGold)
  }

  function Reach(f: Frontier, from: int, owner: int, g: int): Frontier {
    Frontier(f.pending + [owner], f.seenPrediction + {owner}, f.seenGold + {g},
             f.parent[owner := from], f.incoming[owner := g])
  }

  /** The owner of an unseen gold row is itself unseen: the root owns nothing, and any other
      row of the tree owns the gold row it was reached by. */
  lemma {:induction false} OwnerIsNew(adj: seq<seq<int>>, m: seq<Option<int>>, start: int, of: seq<int>,
                                      f: Frontier, rank: map<int, int>, g: int)
    requires Matched(adj, m, start, of, -1) && Tree(adj, start, f, rank) && Counted(m, of, f)
    requires 0 <= g < |m| && m[g].Some? && g !in f.seenGold
    ensures 0 <= m[g].value < start && m[g].value !in f.seenPrediction
  {
    assert of[m[g].value] == g;
  }

  lemma {:induction false} GrowTree(adj: seq<seq<int>>, start: int, f: Frontier, rank: map<int, int>,
                                    from: int, owner: int, g: int)
    requires Tree(adj, start, f, rank) && from in f.seenPrediction
    requires 0 <= from < |adj| && g in adj[from] && 0 <= owner < start && owner !in f.seenPrediction
    ensures Tree(adj, start, Reach(f, from, owner, g), rank[owner := rank[from] + 1])
  {
    var f', rank' := Reach(f, from, owner, g), rank[owner := rank[from] + 1];
    forall p | p in f'.incoming ensures Link(adj, f', rank', p) {
      if p != owner {
        assert Link(adj, f, rank, p);
      }
    }
  }

  lemma {:induction false} GrowQueue(f: Frontier, from: int, owner: int, g: int)
    requires Queued(f) && owner !in f.seenPrediction
    ensures Queued(Reach(f, from, owner, g))
  {
    var f' := Reach(f, from, owner, g);
    assert f'.pending[|f.pending|] == owner;
    forall p | p in f'.seenPrediction ensures p in f'.pending {
      if p != owner {
        assert p in f.pending;
      }
    }
  }

  lemma {:induction false} Grow(adj: seq<seq<int>>, m: seq<Option<int>>, start: int, of: seq<int>,
                                f: Frontier, rank: map<int, int>, from: int, g: int)
      returns (rank': map<int, int>)
    requires Matched(adj, m, start, of, -1) && Growing(adj, m, start, of, f, rank)
    requires from in f.seenPrediction && 0 <= from < |adj| && g in adj[from]
    requires 0 <= g < |m| && m[g].Some? && g !in f.seenGold
    ensures m[g].value !in f.seenPrediction
    ensures Growing(adj, m, start, of, Reach(f, from, m[g].value, g), rank')
  {
    OwnerIsNew(adj, m, start, of, f, rank, g);
    GrowTree(adj, start, f, rank, from, m[g].value, g);
    GrowQueue(f, from, m[g].value, g);
    rank' := rank[m[g].value := rank[from] + 1];
  }

  /** A fully explored tree has one row more than the gold rows it can use. */
  ghost predicate Stuck(adj: seq<seq<int>>, f: Frontier) {
    && |f.seenGold| + 1 == |f.seenPrediction|
    && (forall p | p in f.seenPrediction :: Covered(adj, p, f.seenGold))
    && (forall g | g in f.seenGold :: exists p :: p in f.seenPrediction && 0 <= p < |adj| && g in adj[p])
  }

  lemma {:induction false} ExploredIsStuck(adj: seq<seq<int>>, m: seq<Option<int>>, start: int, of: seq<int>,
                                           f: Frontier, rank: map<int, int>)
    requires Matched(adj, m, start, of, -1) && Growing(adj, m, start, of, f, rank)
    requires Explored(adj, f, |f.pending|)
    ensures Stuck(adj, f)
  {
    forall g | g in f.seenGold ensures exists p :: p in f.seenPrediction && 0 <= p < |adj| && g in adj[p] {
      var owner := m[g].value;
      assert Link(adj, f, rank, owner) && f.incoming[owner] == g && g in adj[f.parent[owner]];
    }
    forall p | p in f.seenPrediction ensures Covered(adj, p, f.seenGold) {
      assert p in f.pending;
    }
  }

  /** A free gold row, compatible with the row last of the tree. */
  datatype Trail = Trail(last: int, free: int)

  ghost predicate Reaches(adj: seq<seq<int>>, m: seq<Option<int>>, f: Frontier, t: Trail) {
    && t.last in f.seenPrediction && 0 <= t.last < |adj|
    && 0 <= t.free < |m| && m[t.free].None? && t.free in adj[t.last]
  }

  // ----- The search -----

  method FreeOption(options: seq<int>, m: seq<Option<int>>) returns (direct: Option<int>)
    requires forall g | g in options :: 0 <= g < |m|
    ensures direct.Some? ==> direct.value in options && m[direct.value].None?
    ensures direct.None? ==> forall g | g in options :: m[g].Some?
  {
    for i := 0 to |options|
      invariant forall j | 0 <= j < i :: 0 <= options[j] < |m| && m[options[j]].Some?
    {
      assert options[i] in options;
      if m[options[i]].None? {
        return Some(options[i]);
      }
    }
    return None;
  }

  /** One gold row g compatible with the row current of the tree: seen before, free, or owned by
      a row that joins the tree. */
  method Meet(adj: seq<seq<int>>, m: seq<Option<int>>, start: int, ghost of: seq<int>,
              f: Frontier, ghost rank: map<int, int>, current: int, g: int)
    returns (f': Frontier, ghost rank': map<int, int>, free: bool)
    requires Matched(adj, m, start, of, -1) && Growing(adj, m, start, of, f, rank)
    requires current in f.seenPrediction && 0 <= current < |adj| && g in adj[current] && 0 <= g < |m|
    ensures Growing(adj, m, start, of, f', rank')
    ensures f.pending <= f'.pending && f.seenPrediction <= f'.seenPrediction
    ensures free ==> f' == f && m[g].None?
    ensures !free ==> f'.seenGold == f.seenGold + {g}
  {
    f', rank', free := f, rank, false;
    if g !in f.seenGold {
      if m[g].None? {
        free := true;
      } else {
        var owner := m[g].value;
        rank' := Grow(adj, m, start, of, f, rank, current, g);
        if owner !in f.seenPrediction {
          f' := Reach(f, current, owner, g);
        }
      }
    }
  }

  /** The inner loop of the search: walks the compatible gold rows of pending[next]. */
  method Visit(adj: seq<seq<int>>, m: seq<Option<int>>, start: int, ghost of: seq<int>,
               f0: Frontier, ghost rank0: map<int, int>, next: int)
    returns (f: Frontier, ghost rank: map<int, int>, found: Option<Trail>)
    requires Within(adj, |m|) && Matched(adj, m, start, of, -1)
    requires Growing(adj, m, start, of, f0, rank0) && Explored(adj, f0, next) && 0 <= next < |f0.pending|
    ensures Growing(adj, m, start, of, f, rank) && next < |f.pending|
    ensures found.Some? ==> Reaches(adj, m, f, found.value)
    ensures found.None? ==> Explored(adj, f, next + 1)
  {
    var current := f0.pending[next];
    f, rank, found := f0, rank0, None;
    var i := 0;
    while i < |adj[current]| && found.None?
      invariant 0 <= i <= |adj[current]|
      invariant Growing(adj, m, start, of, f, rank) && Explored(adj, f, next)
      invariant next < |f.pending| && f.pending[next] == current && current in f.seenPrediction
      invariant forall j | 0 <= j < i :: adj[current][j] in f.seenGold || found.Some?
      invariant found.Some? ==> Reaches(adj, m, f, found.value)
    {
      var g := adj[current][i];
      assert g in adj[current];
      var free;
      f, rank, free := Meet(adj, m, start, of, f, rank, current, g);
      found := if free then Some(Trail(current, g)) else None;
      i := i + 1;
    }
    assert found.None? ==> Covered(adj, current, f.seenGold);
  }

  method Search(adj: seq<seq<int>>, m: seq<Option<int>>, start: int, ghost of: seq<int>)
    returns (f: Frontier, ghost rank: map<int, int>, found: Option<Trail>)
    requires 0 <= start < |adj| && Within(adj, |m|)
    requires Matched(adj, m, start, of, -1)
    ensures Growing(adj, m, start, of, f, rank)
    ensures found.Some? ==> Reaches(adj, m, f, found.value)
    ensures found.None? ==> Stuck(adj, f)
  {
    f, rank, found := Frontier([start], {start}, {}, map[], map[]), map[start := 0], None;
    var next := 0;
    while next < |f.pending| && found.None?
      invariant 0 <= next <= |f.pending|
      invariant Growing(adj, m, start, of, f, rank)
      invariant found.None? ==> Explored(adj, f, next)
      invariant found.Some? ==> Reaches(adj, m, f, found.value)
      decreases start + 1 - next
    {
      SubsetSize(f.seenPrediction, Below(start + 1));
      f, rank, found := Visit(adj, m, start, of, f, rank, next);
      next := next + 1;
    }
    if found.None? {
      ExploredIsStuck(adj, m, start, of, f, rank);
    }
  }

  // ----- Augmentation -----

  /** Flips the pairs along the branch of the tree from last to the root. */
  method Augment(adj: seq<seq<int>>, matched: array<Option<int>>, start: int, ghost of: seq<int>,
                 f: Frontier, ghost rank: map<int, int>, t: Trail)
    returns (ghost of': seq<int>)
    requires 0 <= start < |adj| && Within(adj, matched.Length)
    requires Matched(adj, matched[..], start, of, -1)
    requires Growing(adj, matched[..], start, of, f, rank) && Reaches(adj, matched[..], f, t)
    modifies matched
    ensures Matched(adj, matched[..], start + 1, of', -1)
  {
    var cp, cg := t.last, t.free;
    of' := of;
    while true
      invariant cp in f.seenPrediction && 0 <= cg < matched.Length && cg in adj[cp]
      invariant Matched(adj, matched[..], start, of', cg)
      invariant Owning(of', f, rank, rank[cp])
      decreases rank[cp]
    {
      ghost var before := matched[..];
      matched[cg] := Some(cp);
      assert matched[..] == before[cg := Some(cp)];
      if cp == start {
        Close(adj, before, start, of', cg);
        of' := of' + [cg];
        return;
      }
      assert Link(adj, f, rank, cp);
      Shift(adj, before, start, of', cp, cg);
      of' := of'[cp := cg];
      cg := f.incoming[cp];
      cp := f.parent[cp];
    }
  }

  // ----- The comparison -----

  lemma {:induction false} StuckIsShort<Row>(eq: (Row, Row) -> bool, predicted: seq<Row>, gold: seq<Row>, f: Frontier)
    requires Stuck(Adjacency(eq, predicted, gold), f)
    ensures ShortByOne(eq, predicted, gold, f.seenPrediction)
  {
    var adj := Adjacency(eq, predicted, gold);
    forall g | g in f.seenGold ensures g in GoldOf(eq, predicted, gold, f.seenPrediction) {
      var p :| p in f.seenPrediction && 0 <= p < |adj| && g in adj[p];
    }
    forall g | g in GoldOf(eq, predicted, gold, f.seenPrediction) ensures g in f.seenGold {
      var p :| p in f.seenPrediction && eq(predicted[p], gold[g]);
      assert Covered(adj, p, f.seenGold) && g in adj[p];
    }
    assert GoldOf(eq, predicted, gold, f.seenPrediction) == f.seenGold;
  }

  /** Gives the row start a gold row: a free one, or one that the search frees. */
  method Place(adj: seq<seq<int>>, matched: array<Option<int>>, start: int, ghost of: seq<int>)
    returns (placed: bool, ghost of': seq<int>, ghost f: Frontier)
    requires 0 <= start < |adj| && Within(adj, matched.Length)
    requires Matched(adj, matched[..], start, of, -1)
    modifies matched
    ensures placed ==> Matched(adj, matched[..], start + 1, of', -1)
    ensures !placed ==> Stuck(adj, f)
  {
    f, of' := Frontier([], {}, {}, map[], map[]), of;
    var direct := FreeOption(adj[start], matched[..]);
    if direct.Some? {
      ghost var before := matched[..];
      matched[direct.value] := Some(start);
      assert matched[..] == before[direct.value := Some(start)];
      Close(adj, before, start, of, direct.value);
      return true, of + [direct.value], f;
    }
    var frontier;
    ghost var rank;
    var found;
    frontier, rank, found := Search(adj, matched[..], start, of);
    if found.None? {
      return false, of, frontier;
    }
    of' := Augment(adj, matched, start, of, frontier, rank, found.value);
    placed := true;
  }

  /** evaluation/comparator.py, _unordered_rows_equal. */
  method UnorderedRowsEqual<Row>(eq: (Row, Row) -> bool, predicted: seq<Row>, gold: seq<Row>) returns (ok: bool)
    ensures ok <==> PairsUp(eq, predicted, gold)
    ensures !ok ==> exists s :: ShortByOne(eq, predicted, gold, s)
  {
    var adj := Adjacency(eq, predicted, gold);
    var matched := new Option<int>[|gold|](_ => None);
    ghost var of: seq<int> := [];
    for start := 0 to |adj|
      invariant Matched(adj, matched[..], start, of, -1)
    {
      var placed;
      ghost var f;
      placed, of, f := Place(adj, matched, start, of);
      if !placed {
        StuckIsShort(eq, predicted, gold, f);
        ShortageRefutesPairing(eq, predicted, gold, f.seenPrediction);
        return false;
      }
    }
    assert IsPairing(eq, predicted, gold, of);
    return true;
  }
}
