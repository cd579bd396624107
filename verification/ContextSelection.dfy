/** Which candidate fields go into the prompt under a token budget. */
module ContextSelection {
  import opened Ids
  import opened Prompt
  import opened Sorting
  import opened Wrappers

  /** Retrieval evidence for a field. */
  datatype Evidence = Evidence(id: int, embeddingRank: Option<int>, similarity: Option<real>, fusionRank: Option<int>)

  datatype Selection = Selection(
    fieldIds: seq<int>, required: int, selected: int, pruned: int, estimated: int, usable: int)

  datatype SelectionError =
    | LimitsInvalid
    | ContextInvalid
    | RequiredOverflow(candidates: int, required: int, estimated: int, usable: int)

  // The order of the fields

  function Score(fields: seq<Field>, id: int): real {
    if fields == [] then 0.0 else if fields[0].id == id then fields[0].score else Score(fields[1..], id)
  }

  function TableOf(fields: seq<Field>, id: int): int {
    if fields == [] then 0 else if fields[0].id == id then fields[0].table else TableOf(fields[1..], id)
  }

  predicate Matched(fields: seq<Field>, id: int) {
    fields != [] && (if fields[0].id == id then fields[0].matched else Matched(fields[1..], id))
  }

  function Rank(tables: seq<int>, table: int): int {
    if tables == [] || tables[0] == table then 0 else 1 + Rank(tables[1..], table)
  }

  /** Higher score, then earlier table, then smaller id. */
  predicate FieldBefore(c: Context, a: int, b: int) {
    var x, y := Score(c.fields, a), Score(c.fields, b);
    var i, j := Rank(c.tables, TableOf(c.fields, a)), Rank(c.tables, TableOf(c.fields, b));
    x > y || (x == y && (i < j || (i == j && a <= b)))
  }

  function FieldOrder(c: Context): (int, int) -> bool {
    (a, b) => FieldBefore(c, a, b)
  }

  lemma {:induction false} FieldOrderIsTotal(c: Context)
    ensures TotalPreorder(FieldOrder(c))
  {
    forall x, y, z ensures Chains(FieldOrder(c), x, y, z) {
    }
  }

  /** What is said of an id is said of the field that has it. */
  lemma {:induction false} FieldTells(fields: seq<Field>, i: int)
    requires 0 <= i < |fields| && NoRepeats(FieldIds(fields))
    ensures Score(fields, fields[i].id) == fields[i].score && TableOf(fields, fields[i].id) == fields[i].table
    ensures Matched(fields, fields[i].id) <==> fields[i].matched
  {
    FieldIdsIndexed(fields);
    if i > 0 {
      assert FieldIds(fields)[1..] == FieldIds(fields[1..]);
      FieldTells(fields[1..], i - 1);
      assert FieldIds(fields)[0] != FieldIds(fields)[i];
    }
  }

  lemma {:induction false} RankTells(tables: seq<int>, m: int)
    requires 0 <= m < |tables| && NoRepeats(tables)
    ensures Rank(tables, tables[m]) == m
  {
    if m > 0 {
      RankTells(tables[1..], m - 1);
    }
  }

  /** One field of the tables at m and n before another: higher score, then earlier table, then smaller id. */
  lemma {:induction false} FieldOrderTells(c: Context, i: int, j: int, m: int, n: int)
    requires NoRepeats(FieldIds(c.fields)) && NoRepeats(c.tables)
    requires 0 <= i < |c.fields| && 0 <= j < |c.fields| && 0 <= m < |c.tables| && 0 <= n < |c.tables|
    requires c.fields[i].table == c.tables[m] && c.fields[j].table == c.tables[n]
    ensures
      var a, b := c.fields[i], c.fields[j];
      FieldOrder(c)(a.id, b.id) <==>
        (a.score > b.score || (a.score == b.score && (m < n || (m == n && a.id <= b.id))))
  {
    FieldTells(c.fields, i);
    FieldTells(c.fields, j);
    RankTells(c.tables, m);
    RankTells(c.tables, n);
  }

  /** Usable embedding evidence: ranked and positively similar. */
  predicate Embeds(e: Evidence) {
    e.embeddingRank.Some? && e.similarity.Some? && e.similarity.value > 0.0
  }

  /** The last usable evidence for an id, as later entries of a dictionary replace earlier ones. */
  function EvidenceFor(evidence: seq<Evidence>, id: int): Option<Evidence> {
    if evidence == [] then None
    else
      var later := EvidenceFor(evidence[1..], id);
      if later.Some? then later else if evidence[0].id == id && Embeds(evidence[0]) then Some(evidence[0]) else None
  }

  /** Ranked, and similar to the question: evidence that counts for an id. */
  predicate Counts(e: Evidence, id: int) {
    e.id == id && e.embeddingRank.Some? && e.similarity.Some? && e.similarity.value > 0.0
  }

  /** The last evidence that counts, if any does. */
  lemma {:induction false} EvidenceTells(evidence: seq<Evidence>, id: int) returns (k: int)
    ensures EvidenceFor(evidence, id).None? ==> forall i | 0 <= i < |evidence| :: !Counts(evidence[i], id)
    ensures EvidenceFor(evidence, id).Some? ==>
      && 0 <= k < |evidence| && Counts(evidence[k], id) && EvidenceFor(evidence, id).value == evidence[k]
      && forall i | k < i < |evidence| :: !Counts(evidence[i], id)
  {
    k := 0;
    if evidence != [] {
      k := EvidenceTells(evidence[1..], id);
      k := if EvidenceFor(evidence[1..], id).Some? then k + 1 else 0;
    }
  }

  function FusionRank(c: Context, evidence: seq<Evidence>, id: int): int {
    match EvidenceFor(evidence, id)
    case None => 0
    case Some(e) => if e.fusionRank.Some? then e.fusionRank.value else |c.fields| + 1
  }

  function EmbeddingRank(evidence: seq<Evidence>, id: int): int {
    match EvidenceFor(evidence, id)
    case None => 0
    case Some(e) => if e.embeddingRank.Some? then e.embeddingRank.value else 0
  }

  predicate EvidenceBefore(c: Context, evidence: seq<Evidence>, a: int, b: int) {
    var i, j := FusionRank(c, evidence, a), FusionRank(c, evidence, b);
    var k, l := EmbeddingRank(evidence, a), EmbeddingRank(evidence, b);
    var m, n := Rank(c.tables, TableOf(c.fields, a)), Rank(c.tables, TableOf(c.fields, b));
    i < j || (i == j && (k < l || (k == l && (m < n || (m == n && a <= b)))))
  }

  function EvidenceOrder(c: Context, evidence: seq<Evidence>): (int, int) -> bool {
    (a, b) => EvidenceBefore(c, evidence, a, b)
  }

  lemma {:induction false} EvidenceOrderIsTotal(c: Context, evidence: seq<Evidence>)
    ensures TotalPreorder(EvidenceOrder(c, evidence))
  {
    forall x, y, z ensures Chains(EvidenceOrder(c, evidence), x, y, z) {
    }
  }

  /** A missing fusion rank comes after all others. */
  function FusionPlace(c: Context, e: Evidence): int {
    if e.fusionRank.Some? then e.fusionRank.value else |c.fields| + 1
  }

  /** Fields with the evidence e and f: fusion rank, then embedding rank, then earlier table, then smaller id. */
  lemma {:induction false} EvidenceOrderTells(c: Context, evidence: seq<Evidence>, i: int, j: int, m: int, n: int,
                                              e: Evidence, f: Evidence)
    requires NoRepeats(FieldIds(c.fields)) && NoRepeats(c.tables)
    requires 0 <= i < |c.fields| && 0 <= j < |c.fields| && 0 <= m < |c.tables| && 0 <= n < |c.tables|
    requires c.fields[i].table == c.tables[m] && c.fields[j].table == c.tables[n]
    requires EvidenceFor(evidence, c.fields[i].id) == Some(e) && EvidenceFor(evidence, c.fields[j].id) == Some(f)
    ensures e.embeddingRank.Some? && f.embeddingRank.Some?
    ensures
      var a, b := c.fields[i].id, c.fields[j].id;
      var x, y := e.embeddingRank.value, f.embeddingRank.value;
      EvidenceOrder(c, evidence)(a, b) <==>
        || FusionPlace(c, e) < FusionPlace(c, f)
        || (FusionPlace(c, e) == FusionPlace(c, f) && x < y)
        || (FusionPlace(c, e) == FusionPlace(c, f) && x == y && (m < n || (m == n && a <= b)))
  {
    FieldTells(c.fields, i);
    FieldTells(c.fields, j);
    RankTells(c.tables, m);
    RankTells(c.tables, n);
    var k := EvidenceTells(evidence, c.fields[i].id);
    k := EvidenceTells(evidence, c.fields[j].id);
  }

  // Required and optional fields

  /** The columns of the edges in the order in which they are visited. */
  function EdgeColumns(edges: seq<Edge>): seq<int> {
    if edges == [] then [] else edges[0].sourceColumns + edges[0].targetColumns + EdgeColumns(edges[1..])
  }

  function PathColumns(paths: seq<Path>): seq<int> {
    if paths == [] then [] else EdgeColumns(paths[0].edges) + PathColumns(paths[1..])
  }

  lemma {:induction false} EdgeColumnsNext(edges: seq<Edge>, i: int)
    requires 0 <= i < |edges|
    ensures EdgeColumns(edges[..i + 1]) == EdgeColumns(edges[..i]) + edges[i].sourceColumns + edges[i].targetColumns
  {
    if i == 0 {
      assert edges[..1][1..] == [] && EdgeColumns(edges[..0]) == [];
    } else {
      assert edges[..i + 1][1..] == edges[1..][..i] && edges[..i][1..] == edges[1..][..i - 1];
      EdgeColumnsNext(edges[1..], i - 1);
    }
  }

  lemma {:induction false} PathColumnsNext(paths: seq<Path>, i: int)
    requires 0 <= i < |paths|
    ensures PathColumns(paths[..i + 1]) == PathColumns(paths[..i]) + EdgeColumns(paths[i].edges)
  {
    if i == 0 {
      assert paths[..1][1..] == [] && PathColumns(paths[..0]) == [];
    } else {
      assert paths[..i + 1][1..] == paths[1..][..i] && paths[..i][1..] == paths[1..][..i - 1];
      PathColumnsNext(paths[1..], i - 1);
    }
  }

  /** Among these ids and not among those. */
  function Fresh(ids: seq<int>, direct: seq<int>): int -> bool {
    id => id in ids && id !in direct
  }

  lemma {:induction false} UniqueNext(p: int -> bool, done: seq<int>, id: int)
    ensures var u := Unique(Filter(p, done));
            Unique(Filter(p, done + [id])) == if p(id) && id !in u then u + [id] else u
  {
    FilterJoin(p, done, [id]);
    var f := Filter(p, done);
    assert [id][1..] == [] && Filter(p, [id]) == if p(id) then [id] else [];
    assert f + [] == f && (f + [id])[..|f + [id]| - 1] == f;
  }

  lemma {:induction false} NextColumn(p: int -> bool, done: seq<int>, columns: seq<int>, i: int)
    requires 0 <= i < |columns|
    ensures var u := Unique(Filter(p, done + columns[..i]));
            Unique(Filter(p, done + columns[..i + 1]))
            == if p(columns[i]) && columns[i] !in u then u + [columns[i]] else u
  {
    UniqueNext(p, done + columns[..i], columns[i]);
    assert done + columns[..i + 1] == done + columns[..i] + [columns[i]];
  }

  /** What has been collected from the columns done; seen has also the direct ids. */
  ghost predicate Collected(ids: seq<int>, direct: seq<int>, done: seq<int>, seen: set<int>, joins: seq<int>) {
    joins == Unique(Filter(Fresh(ids, direct), done)) && forall t :: t in seen <==> t in direct || t in joins
  }

  /** Appends the columns that are candidates and not seen yet. */
  method AddColumns(columns: seq<int>, ids: seq<int>, direct: seq<int>, seen: set<int>, joins: seq<int>,
                    ghost done: seq<int>)
      returns (nowSeen: set<int>, more: seq<int>)
    requires Collected(ids, direct, done, seen, joins)
    ensures Collected(ids, direct, done + columns, nowSeen, more)
  {
    nowSeen, more := seen, joins;
    assert done + columns[..0] == done;
    for i := 0 to |columns|
      invariant Collected(ids, direct, done + columns[..i], nowSeen, more)
    {
      var id := columns[i];
      NextColumn(Fresh(ids, direct), done, columns, i);
      if id in ids && id !in nowSeen {
        more, nowSeen := more + [id], nowSeen + {id};
      }
    }
    assert done + columns[..|columns|] == done + columns;
  }

  lemma {:induction false} NextEdge(done: seq<int>, edges: seq<Edge>, j: int)
    requires 0 <= j < |edges|
    ensures done + EdgeColumns(edges[..j]) + edges[j].sourceColumns + edges[j].targetColumns
      == done + EdgeColumns(edges[..j + 1])
  {
    EdgeColumnsNext(edges, j);
  }

  method AddPath(edges: seq<Edge>, ids: seq<int>, direct: seq<int>, seen: set<int>, joins: seq<int>,
                 ghost done: seq<int>)
      returns (nowSeen: set<int>, more: seq<int>)
    requires Collected(ids, direct, done, seen, joins)
    ensures Collected(ids, direct, done + EdgeColumns(edges), nowSeen, more)
  {
    nowSeen, more := seen, joins;
    assert done + EdgeColumns(edges[..0]) == done;
    for j := 0 to |edges|
      invariant Collected(ids, direct, done + EdgeColumns(edges[..j]), nowSeen, more)
    {
      ghost var now := done + EdgeColumns(edges[..j]);
      nowSeen, more := AddColumns(edges[j].sourceColumns, ids, direct, nowSeen, more, now);
      nowSeen, more := AddColumns(edges[j].targetColumns, ids, direct, nowSeen, more, now + edges[j].sourceColumns);
      NextEdge(done, edges, j);
    }
    assert edges[..|edges|] == edges;
  }

  /** The join columns that are candidates and not direct, each where it first occurs. */
  method JoinIds(c: Context, ids: seq<int>, direct: seq<int>) returns (joins: seq<int>)
    ensures joins == Unique(Filter(Fresh(ids, direct), PathColumns(c.paths)))
  {
    var seen: set<int> := Elements(direct);
    joins := [];
    for i := 0 to |c.paths|
      invariant Collected(ids, direct, PathColumns(c.paths[..i]), seen, joins)
    {
      seen, joins := AddPath(c.paths[i].edges, ids, direct, seen, joins, PathColumns(c.paths[..i]));
      PathColumnsNext(c.paths, i);
    }
    assert c.paths[..|c.paths|] == c.paths;
  }

  /** The groups of required fields, in their order of precedence. */
  datatype Groups = Groups(direct: seq<int>, joins: seq<int>, positive: seq<int>, embedded: seq<int>) {
    function All(): seq<int> {
      direct + joins + positive + embedded
    }
  }

  predicate IsDirect(c: Context, id: int) {
    id in FieldIds(c.fields) && Matched(c.fields, id)
  }

  predicate IsJoin(c: Context, id: int) {
    id in FieldIds(c.fields) && !IsDirect(c, id) && id in PathColumns(c.paths)
  }

  predicate IsPositive(c: Context, id: int) {
    id in FieldIds(c.fields) && !IsDirect(c, id) && !IsJoin(c, id) && Score(c.fields, id) > 0.0
  }

  predicate IsEmbedded(c: Context, evidence: seq<Evidence>, id: int) {
    && id in FieldIds(c.fields) && !IsDirect(c, id) && !IsJoin(c, id) && !IsPositive(c, id)
    && EvidenceFor(evidence, id).Some?
  }

  /** Matched by the question, a join column, positively scored, or similar to the question. */
  predicate IsRequired(c: Context, evidence: seq<Evidence>, id: int) {
    && id in FieldIds(c.fields)
    && (Matched(c.fields, id) || id in PathColumns(c.paths)
        || Score(c.fields, id) > 0.0 || EvidenceFor(evidence, id).Some?)
  }

  /** The edge joins by this column. */
  predicate Uses(edge: Edge, id: int) {
    id in edge.sourceColumns || id in edge.targetColumns
  }

  ghost predicate OnPath(c: Context, id: int) {
    exists i, j :: 0 <= i < |c.paths| && 0 <= j < |c.paths[i].edges| && Uses(c.paths[i].edges[j], id)
  }

  lemma {:induction false} EdgeColumnsTell(edges: seq<Edge>, id: int)
    ensures id in EdgeColumns(edges) <==> exists j :: 0 <= j < |edges| && Uses(edges[j], id)
  {
    if edges != [] {
      EdgeColumnsTell(edges[1..], id);
      assert edges == [edges[0]] + edges[1..];
      if Uses(edges[0], id) {
      } else if j :| 0 <= j < |edges[1..]| && Uses(edges[1..][j], id) {
        assert edges[j + 1] == edges[1..][j];
      }
    }
  }

  lemma {:induction false} PathColumnsTell(paths: seq<Path>, id: int)
    ensures id in PathColumns(paths)
      <==> exists i, j :: 0 <= i < |paths| && 0 <= j < |paths[i].edges| && Uses(paths[i].edges[j], id)
  {
    if paths != [] {
      EdgeColumnsTell(paths[0].edges, id);
      PathColumnsTell(paths[1..], id);
      assert paths == [paths[0]] + paths[1..];
      if i, j :| 0 <= i < |paths[1..]| && 0 <= j < |paths[1..][i].edges| && Uses(paths[1..][i].edges[j], id) {
        assert paths[i + 1] == paths[1..][i];
      }
    }
  }

  /** A candidate is required exactly when matched, scored, on a join path, or with evidence that counts. */
  lemma {:induction false} RequiredTells(c: Context, evidence: seq<Evidence>, i: int)
    requires NoRepeats(FieldIds(c.fields)) && 0 <= i < |c.fields|
    ensures
      var f := c.fields[i];
      IsRequired(c, evidence, f.id) <==>
        f.matched || f.score > 0.0 || OnPath(c, f.id) || exists k :: 0 <= k < |evidence| && Counts(evidence[k], f.id)
  {
    FieldIdsIndexed(c.fields);
    assert FieldIds(c.fields)[i] == c.fields[i].id;
    FieldTells(c.fields, i);
    PathColumnsTell(c.paths, c.fields[i].id);
    var k := EvidenceTells(evidence, c.fields[i].id);
  }

  ghost predicate Grouped(c: Context, evidence: seq<Evidence>, g: Groups) {
    && (forall id :: id in g.direct <==> IsDirect(c, id)) && Ordered(FieldOrder(c), g.direct)
    && (forall id :: id in g.joins <==> IsJoin(c, id))
    && g.joins == Unique(Filter(Fresh(FieldIds(c.fields), g.direct), PathColumns(c.paths)))
    && (forall id :: id in g.positive <==> IsPositive(c, id)) && Ordered(FieldOrder(c), g.positive)
    && (forall id :: id in g.embedded <==> IsEmbedded(c, evidence, id))
    && Ordered(EvidenceOrder(c, evidence), g.embedded)
  }

  lemma {:induction false} FilterNoRepeats(p: int -> bool, s: seq<int>)
    requires NoRepeats(s)
    ensures NoRepeats(Filter(p, s))
  {
    if s != [] {
      FilterNoRepeats(p, s[1..]);
      FilterMembers(p, s[1..]);
      assert s[0] !in s[1..];
    }
  }

  /** The members that pass, sorted, without repeats. */
  method SortedPart(leq: (int, int) -> bool, p: int -> bool, ids: seq<int>) returns (r: seq<int>)
    requires NoRepeats(ids) && TotalPreorder(leq)
    ensures NoRepeats(r) && Ordered(leq, r) && forall id :: id in r <==> id in ids && p(id)
  {
    var f := Filter(p, ids);
    r := Sort(leq, f);
    FilterNoRepeats(p, ids);
    FilterMembers(p, ids);
    SortOrdered(leq, f);
    SortMembers(leq, f);
    SortPermutes(leq, f);
    RearrangedNoRepeats(f, r);
  }

  lemma {:induction false} JoinNoRepeats(a: seq<int>, b: seq<int>)
    requires NoRepeats(a) && NoRepeats(b) && forall t :: t in a ==> t !in b
    ensures NoRepeats(a + b)
    ensures forall t :: t in a + b <==> t in a || t in b
  {
    forall i, j | 0 <= i < j < |a + b| ensures (a + b)[i] != (a + b)[j] {
      if i < |a| {
        assert (a + b)[i] in a;
      }
    }
  }

  lemma {:induction false} GroupsDisjoint(c: Context, evidence: seq<Evidence>, g: Groups)
    requires Grouped(c, evidence, g)
    requires NoRepeats(g.direct) && NoRepeats(g.joins) && NoRepeats(g.positive) && NoRepeats(g.embedded)
    ensures NoRepeats(g.All())
    ensures forall id :: id in g.All() <==> IsRequired(c, evidence, id)
  {
    JoinNoRepeats(g.direct, g.joins);
    JoinNoRepeats(g.direct + g.joins, g.positive);
    JoinNoRepeats(g.direct + g.joins + g.positive, g.embedded);
  }

  /** Each group is filtered from the ids that the groups before it leave. */
  ghost predicate Sifted(c: Context, evidence: seq<Evidence>, ids: seq<int>, g: Groups) {
    && (forall id :: id in g.direct <==> id in ids && Matched(c.fields, id))
    && g.joins == Unique(Filter(Fresh(ids, g.direct), PathColumns(c.paths)))
    && (forall id :: id in g.positive <==>
          id in ids && Score(c.fields, id) > 0.0 && id !in g.direct && id !in g.joins)
    && (forall id :: id in g.embedded <==>
          && id in ids && EvidenceFor(evidence, id).Some?
          && id !in g.direct && id !in g.joins && id !in g.positive)
  }

  lemma {:induction false} SiftedJoins(c: Context, evidence: seq<Evidence>, g: Groups)
    requires Sifted(c, evidence, FieldIds(c.fields), g)
    ensures NoRepeats(g.joins) && forall id :: id in g.joins <==> IsJoin(c, id)
  {
    UniqueElements(Filter(Fresh(FieldIds(c.fields), g.direct), PathColumns(c.paths)));
    FilterMembers(Fresh(FieldIds(c.fields), g.direct), PathColumns(c.paths));
  }

  lemma {:induction false} SiftedIsGrouped(c: Context, evidence: seq<Evidence>, g: Groups)
    requires Sifted(c, evidence, FieldIds(c.fields), g)
    requires Ordered(FieldOrder(c), g.direct) && Ordered(FieldOrder(c), g.positive)
    requires Ordered(EvidenceOrder(c, evidence), g.embedded)
    ensures Grouped(c, evidence, g)
  {
    SiftedJoins(c, evidence, g);
    assert forall id :: id in g.direct <==> IsDirect(c, id);
    assert forall id :: id in g.positive <==> IsPositive(c, id);
  }

  /** Of the ids not seen, the positively scored ones and then the similar ones. */
  method ScoredGroups(c: Context, evidence: seq<Evidence>, ids: seq<int>, before: set<int>)
      returns (positive: seq<int>, embedded: seq<int>)
    requires NoRepeats(ids)
    ensures NoRepeats(positive) && Ordered(FieldOrder(c), positive)
    ensures forall id :: id in positive <==> id in ids && Score(c.fields, id) > 0.0 && id !in before
    ensures NoRepeats(embedded) && Ordered(EvidenceOrder(c, evidence), embedded)
    ensures forall id :: id in embedded <==>
      id in ids && EvidenceFor(evidence, id).Some? && id !in before && id !in positive
  {
    FieldOrderIsTotal(c);
    EvidenceOrderIsTotal(c, evidence);
    positive := SortedPart(FieldOrder(c), id => Score(c.fields, id) > 0.0 && id !in before, ids);
    var seen: set<int> := before + Elements(positive);
    embedded := SortedPart(EvidenceOrder(c, evidence), id => EvidenceFor(evidence, id).Some? && id !in seen, ids);
  }

  method RequiredGroups(c: Context, evidence: seq<Evidence>) returns (g: Groups)
    requires NoRepeats(FieldIds(c.fields))
    ensures Grouped(c, evidence, g) && NoRepeats(g.All())
    ensures forall id :: id in g.All() <==> IsRequired(c, evidence, id)
  {
    var ids := FieldIds(c.fields);
    FieldOrderIsTotal(c);
    var direct := SortedPart(FieldOrder(c), id => Matched(c.fields, id), ids);
    var joins := JoinIds(c, ids, direct);
    var positive, embedded := ScoredGroups(c, evidence, ids, Elements(direct) + Elements(joins));
    g := Groups(direct, joins, positive, embedded);
    SiftedJoins(c, evidence, g);
    SiftedIsGrouped(c, evidence, g);
    GroupsDisjoint(c, evidence, g);
  }

  /** Required and optional ids together are the candidates, each once. */
  method OrderedFieldIds(c: Context, evidence: seq<Evidence>)
      returns (required: seq<int>, optional: seq<int>, ghost groups: Groups)
    requires NoRepeats(FieldIds(c.fields))
    ensures required == groups.All() && Grouped(c, evidence, groups)
    ensures NoRepeats(required + optional) && multiset(required + optional) == multiset(FieldIds(c.fields))
    ensures forall id :: id in required <==> IsRequired(c, evidence, id)
    ensures Ordered(FieldOrder(c), optional)
  {
    var ids := FieldIds(c.fields);
    var g := RequiredGroups(c, evidence);
    groups := g;
    required := g.All();
    var seen: set<int> := Elements(required);
    FieldOrderIsTotal(c);
    optional := SortedPart(FieldOrder(c), id => id !in seen, ids);
    JoinNoRepeats(required, optional);
    forall x ensures x in required + optional <==> x in ids {
      assert x in seen <==> x in required;
    }
    SameElements(required + optional, ids);
  }

  // Selection

  predicate LimitsOk(maxInput: int, maxOutput: int) {
    0 < maxOutput < maxInput
  }

  function Usable(maxInput: int, maxOutput: int): int {
    maxInput * 4 / 5 - maxOutput
  }

  /** Prompt and output together take at most four fifths of the input limit. */
  predicate Within(tokens: int, maxInput: int, maxOutput: int) {
    5 * (tokens + maxOutput) <= 4 * maxInput
  }

  lemma {:induction false} UsableTells(maxInput: int, maxOutput: int, tokens: int)
    ensures tokens <= Usable(maxInput, maxOutput) <==> Within(tokens, maxInput, maxOutput)
  {
  }

  /** Holds at most the usable tokens, and holding any field more would exceed them. */
  ghost predicate Maximal(c: Context, selected: seq<int>, usable: int) {
    && Estimate(c, selected) <= usable
    && forall more | Extends(c, selected, more) :: Exceeds(c, more, usable)
  }

  /** Candidate fields, among them the selected ones and at least one more. */
  ghost predicate Extends(c: Context, selected: seq<int>, more: seq<int>) {
    NoRepeats(more) && Elements(more) <= Elements(FieldIds(c.fields)) && Elements(selected) < Elements(more)
  }

  predicate Exceeds(c: Context, selected: seq<int>, usable: int) {
    Estimate(c, selected) > usable
  }

  /** A field was passed over because it did not fit then; it fits less into what is selected at the end. */
  predicate Rejected(c: Context, selected: seq<int>, id: int, usable: int) {
    id in selected || Exceeds(c, selected + [id], usable)
  }

  lemma {:induction false} RejectedStays(c: Context, before: seq<int>, after: seq<int>, id: int, usable: int)
    requires Rejected(c, before, id, usable)
    requires NoRepeats(before) && NoRepeats(after) && Elements(before) <= Elements(after)
    ensures Rejected(c, after, id, usable)
  {
    if id !in after {
      assert id in before ==> id in Elements(before);
      JoinNoRepeats(before, [id]);
      JoinNoRepeats(after, [id]);
      assert Elements(before + [id]) <= Elements(after + [id]) by {
        forall t | t in Elements(before + [id]) ensures t in Elements(after + [id]) {
          assert t in before ==> t in Elements(before);
        }
      }
      EstimateGrows(c, before + [id], after + [id]);
    }
  }

  lemma {:induction false} RejectionsMakeMaximal(c: Context, selected: seq<int>, usable: int)
    requires NoRepeats(selected) && Estimate(c, selected) <= usable
    requires forall id | id in FieldIds(c.fields) :: Rejected(c, selected, id, usable)
    ensures Maximal(c, selected, usable)
  {
    forall more | Extends(c, selected, more) ensures Exceeds(c, more, usable) {
      var id := NewMember(Elements(selected), Elements(more));
      assert id in Elements(FieldIds(c.fields)) && id !in selected;
      assert Rejected(c, selected, id, usable);
      JoinNoRepeats(selected, [id]);
      assert Elements(selected + [id]) <= Elements(more) by {
        forall t | t in Elements(selected + [id]) ensures t in Elements(more) {
          assert t in selected ==> t in Elements(selected);
        }
      }
      EstimateGrows(c, selected + [id], more);
    }
  }

  /** Takes each field in turn unless it exceeds the budget together with those taken so far. */
  ghost function Greedy(c: Context, taken: seq<int>, rest: seq<int>, usable: int): seq<int>
    decreases |rest|
  {
    if rest == [] then taken
    else Greedy(c, if Exceeds(c, taken + [rest[0]], usable) then taken else taken + [rest[0]], rest[1..], usable)
  }

  function Of(ids: seq<int>): int -> bool {
    id => id in ids
  }

  /** Those taken, followed by those of the others that were selected. */
  function SoFar(taken: seq<int>, others: seq<int>, selected: seq<int>): seq<int> {
    taken + Filter(Of(selected), others)
  }

  lemma {:induction false} SoFarNext(taken: seq<int>, first: int, others: seq<int>, selected: seq<int>)
    ensures SoFar(taken, [first] + others, selected)
         == SoFar(if first in selected then taken + [first] else taken, others, selected)
  {
    FilterCons(Of(selected), first, others);
  }

  lemma {:induction false} GreedySoFar(c: Context, taken: seq<int>, rest: seq<int>, usable: int)
    requires NoRepeats(taken + rest)
    ensures var s := Greedy(c, taken, rest, usable); s == SoFar(taken, rest, s)
    ensures rest != [] ==> (rest[0] in Greedy(c, taken, rest, usable) <==> !Exceeds(c, taken + [rest[0]], usable))
    decreases |rest|
  {
    if rest != [] {
      var first, others := rest[0], rest[1..];
      var more := if Exceeds(c, taken + [first], usable) then taken else taken + [first];
      var s := Greedy(c, taken, rest, usable);
      NotYet(taken, rest, 0);
      assert taken + rest == taken + [first] + others;
      DropMiddle(taken, first, others);
      GreedySoFar(c, more, others, usable);
      FilterMembers(Of(s), others);
      assert first in s <==> first in more;
      SoFarNext(taken, first, others, s);
      assert rest == [first] + others;
    }
  }

  lemma {:induction false} DropMiddle(before: seq<int>, id: int, after: seq<int>)
    requires NoRepeats(before + [id] + after)
    ensures NoRepeats(before + after) && id !in after
  {
    var all, less := before + [id] + after, before + after;
    assert forall i | 0 <= i < |less| :: less[i] == all[if i < |before| then i else i + 1];
    forall i | 0 <= i < |after| ensures after[i] != id {
      assert all[|before|] == id && all[|before| + 1 + i] == after[i];
    }
  }

  /** An optional field is selected exactly when it still fits, together with all selected before it. */
  lemma {:induction false} SelectedIfItFits(c: Context, taken: seq<int>, rest: seq<int>, usable: int, i: int)
    requires NoRepeats(taken + rest) && 0 <= i < |rest|
    ensures var s := Greedy(c, taken, rest, usable);
      rest[i] in s <==> !Exceeds(c, SoFar(taken, rest[..i], s) + [rest[i]], usable)
    decreases |rest|
  {
    GreedySoFar(c, taken, rest, usable);
    var s := Greedy(c, taken, rest, usable);
    if i == 0 {
      assert SoFar(taken, rest[..0], s) == taken;
    } else {
      var first, others := rest[0], rest[1..];
      var more := if Exceeds(c, taken + [first], usable) then taken else taken + [first];
      assert taken + rest == taken + [first] + others;
      DropMiddle(taken, first, others);
      SelectedIfItFits(c, more, others, usable, i - 1);
      SoFarNext(taken, first, others[..i - 1], s);
      assert rest[..i] == [first] + others[..i - 1];
    }
  }

  /** All required fields, in their order, and then as many others as fit, in theirs. */
  ghost predicate Selects(c: Context, required: seq<int>, optional: seq<int>, usable: int, s: Selection) {
    && s.fieldIds == Greedy(c, required, optional, usable)
    && required <= s.fieldIds && ValidSelection(c, s.fieldIds) && Maximal(c, s.fieldIds, usable)
    && s.estimated == Estimate(c, s.fieldIds) && s.usable == usable
    && s.required == |required| && s.selected == |s.fieldIds| && s.selected + s.pruned == |c.fields|
  }

  lemma {:induction false} SelectsWithin(c: Context, required: seq<int>, optional: seq<int>, maxInput: int,
                                         maxOutput: int, s: Selection)
    requires Selects(c, required, optional, Usable(maxInput, maxOutput), s)
    ensures Within(Estimate(c, s.fieldIds), maxInput, maxOutput)
    ensures forall more | Extends(c, s.fieldIds, more) :: !Within(Estimate(c, more), maxInput, maxOutput)
  {
    UsableTells(maxInput, maxOutput, Estimate(c, s.fieldIds));
    forall more | Extends(c, s.fieldIds, more) ensures !Within(Estimate(c, more), maxInput, maxOutput) {
      assert Exceeds(c, more, Usable(maxInput, maxOutput));
      UsableTells(maxInput, maxOutput, Estimate(c, more));
    }
  }

  /** Required fields that do not fit, or a selection that does and cannot be extended. */
  ghost predicate Decided(c: Context, evidence: seq<Evidence>, maxInput: int, maxOutput: int,
                          r: Result<Selection, SelectionError>, required: seq<int>, optional: seq<int>,
                          groups: Groups) {
    && required == groups.All() && Grouped(c, evidence, groups)
    && (forall id :: id in required <==> IsRequired(c, evidence, id))
    && multiset(required + optional) == multiset(FieldIds(c.fields)) && Ordered(FieldOrder(c), optional)
    && (r.Ok? <==> Within(Estimate(c, required), maxInput, maxOutput))
    && match r
       case Err(e) =>
         e == RequiredOverflow(|c.fields|, |required|, Estimate(c, required), Usable(maxInput, maxOutput))
       case Ok(s) =>
         && Selects(c, required, optional, Usable(maxInput, maxOutput), s)
         && Within(Estimate(c, s.fieldIds), maxInput, maxOutput)
         && forall more | Extends(c, s.fieldIds, more) :: !Within(Estimate(c, more), maxInput, maxOutput)
  }

  /** Fails exactly on bad limits, a bad context, or required fields that do not fit. */
  method SelectGenerationContext(c: Context, evidence: seq<Evidence>, maxInput: int, maxOutput: int)
      returns (r: Result<Selection, SelectionError>, ghost required: seq<int>, ghost optional: seq<int>,
               ghost groups: Groups)
    ensures r == Err(LimitsInvalid) <==> maxOutput <= 0 || maxInput <= maxOutput
    ensures r == Err(ContextInvalid) <==> 0 < maxOutput < maxInput && !ValidContext(c)
    ensures 0 < maxOutput < maxInput && ValidContext(c) ==>
              Decided(c, evidence, maxInput, maxOutput, r, required, optional, groups)
  {
    required, optional, groups := [], [], Groups([], [], [], []);
    if !LimitsOk(maxInput, maxOutput) {
      return Err(LimitsInvalid), required, optional, groups;
    }
    var usable := maxInput * 4 / 5 - maxOutput;
    var ok := ValidateContext(c, []);
    if !ok {
      return Err(ContextInvalid), required, optional, groups;
    }
    r, required, optional, groups := SelectFields(c, evidence, usable, maxInput, maxOutput);
  }

  method SelectFields(c: Context, evidence: seq<Evidence>, usable: int, ghost maxInput: int, ghost maxOutput: int)
      returns (r: Result<Selection, SelectionError>, ghost required: seq<int>, ghost optional: seq<int>,
               ghost groups: Groups)
    requires ValidContext(c) && usable == Usable(maxInput, maxOutput)
    ensures Decided(c, evidence, maxInput, maxOutput, r, required, optional, groups)
  {
    var requiredIds, optionalIds, parts := OrderedFieldIds(c, evidence);
    required, optional, groups := requiredIds, optionalIds, parts;
    var estimated := Estimate(c, requiredIds);
    UsableTells(maxInput, maxOutput, estimated);
    if estimated > usable {
      r := Err(RequiredOverflow(|c.fields|, |requiredIds|, estimated, usable));
    } else {
      var s := SelectWithin(c, requiredIds, optionalIds, usable);
      SelectsWithin(c, required, optional, maxInput, maxOutput, s);
      r := Ok(s);
    }
  }

  lemma {:induction false} CandidatesSplit(c: Context, all: seq<int>)
    requires multiset(all) == multiset(FieldIds(c.fields))
    ensures forall id :: id in all <==> id in FieldIds(c.fields)
  {
    forall id ensures id in all <==> id in FieldIds(c.fields) {
      assert id in all <==> id in multiset(all);
    }
  }

  method SelectWithin(c: Context, required: seq<int>, optional: seq<int>, usable: int) returns (s: Selection)
    requires NoRepeats(required + optional) && multiset(required + optional) == multiset(FieldIds(c.fields))
    requires Estimate(c, required) <= usable
    ensures Selects(c, required, optional, usable, s)
  {
    FieldIdsIndexed(c.fields);
    var selected, estimated := AddOptional(c, required, optional, usable);
    CandidatesSplit(c, required + optional);
    RejectionsMakeMaximal(c, selected, usable);
    s := Selection(selected, |required|, |selected|, |c.fields| - |selected|, estimated, usable);
  }

  method AddOptional(c: Context, required: seq<int>, optional: seq<int>, usable: int)
      returns (selected: seq<int>, estimated: int)
    requires NoRepeats(required + optional) && Estimate(c, required) <= usable
    ensures NoRepeats(selected) && required <= selected
    ensures forall id | id in selected :: id in required + optional
    ensures estimated == Estimate(c, selected) <= usable
    ensures forall id | id in required + optional :: Rejected(c, selected, id, usable)
    ensures selected == Greedy(c, required, optional, usable)
  {
    selected, estimated := required, Estimate(c, required);
    assert optional[0..] == optional;
    assert NoRepeats(required) by {
      assert forall i | 0 <= i < |required| :: required[i] == (required + optional)[i];
    }
    for i := 0 to |optional|
      invariant NoRepeats(selected) && required <= selected
      invariant forall id | id in selected :: id in required || id in optional[..i]
      invariant estimated == Estimate(c, selected) <= usable
      invariant forall id | id in required || id in optional[..i] :: Rejected(c, selected, id, usable)
      invariant Greedy(c, selected, optional[i..], usable) == Greedy(c, required, optional, usable)
    {
      var id := optional[i];
      GreedyNext(c, selected, optional, i, usable);
      NotYet(required, optional, i);
      JoinNoRepeats(selected, [id]);
      ghost var before := selected;
      var candidate := selected + [id];
      var tokens := Estimate(c, candidate);
      if tokens <= usable {
        selected, estimated := candidate, tokens;
      }
      assert Elements(before) <= Elements(selected);
      forall t | t in required || t in optional[..i + 1] ensures Rejected(c, selected, t, usable) {
        if t != id {
          assert optional[..i + 1] == optional[..i] + [id];
          RejectedStays(c, before, selected, t, usable);
        }
      }
      assert optional[..i + 1] == optional[..i] + [id];
    }
    assert optional[..|optional|] == optional && optional[|optional|..] == [];
  }

  lemma {:induction false} GreedyNext(c: Context, taken: seq<int>, optional: seq<int>, i: int, usable: int)
    requires 0 <= i < |optional|
    ensures
      var more := if Exceeds(c, taken + [optional[i]], usable) then taken else taken + [optional[i]];
      Greedy(c, taken, optional[i..], usable) == Greedy(c, more, optional[i + 1..], usable)
  {
    assert optional[i..][1..] == optional[i + 1..];
  }

  lemma {:induction false} NotYet(required: seq<int>, optional: seq<int>, i: int)
    requires NoRepeats(required + optional) && 0 <= i < |optional|
    ensures optional[i] !in required && optional[i] !in optional[..i]
  {
    var all := required + optional;
    assert all[|required| + i] == optional[i];
    assert forall j | 0 <= j < |required| :: required[j] == all[j];
    assert forall j | 0 <= j < i :: optional[..i][j] == all[|required| + j];
  }

  // Join paths

  lemma {:induction false} EdgeColumnsIn(edges: seq<Edge>, i: int, id: int)
    requires 0 <= i < |edges| && (id in edges[i].sourceColumns || id in edges[i].targetColumns)
    ensures id in EdgeColumns(edges)
  {
    if i > 0 {
      EdgeColumnsIn(edges[1..], i - 1, id);
    }
  }

  lemma {:induction false} PathColumnsIn(paths: seq<Path>, i: int, id: int)
    requires 0 <= i < |paths| && id in EdgeColumns(paths[i].edges)
    ensures id in PathColumns(paths)
  {
    if i > 0 {
      PathColumnsIn(paths[1..], i - 1, id);
    }
  }

  /** A join path all of whose columns are candidates is shown in the final prompt. */
  lemma {:induction false} CandidatePathsAreShown(c: Context, evidence: seq<Evidence>, selected: seq<int>, i: int)
    requires forall id | IsRequired(c, evidence, id) :: id in selected
    requires 0 <= i < |c.paths| && forall id | id in EdgeColumns(c.paths[i].edges) :: id in FieldIds(c.fields)
    ensures PathShown(Elements(selected), c.paths[i]) && c.paths[i].json in PathsJson(Elements(selected), c.paths)
  {
    var path := c.paths[i];
    forall j | 0 <= j < |path.edges|
      ensures Covers(Elements(selected), path.edges[j].sourceColumns)
      ensures Covers(Elements(selected), path.edges[j].targetColumns)
    {
      forall id | id in path.edges[j].sourceColumns || id in path.edges[j].targetColumns ensures id in selected {
        EdgeColumnsIn(path.edges, j, id);
        PathColumnsIn(c.paths, i, id);
        assert IsRequired(c, evidence, id);
      }
    }
    ShownPathIn(Elements(selected), c.paths, i);
  }

  lemma {:induction false} ShownPathIn(selected: set<int>, paths: seq<Path>, i: int)
    requires 0 <= i < |paths| && PathShown(selected, paths[i])
    ensures paths[i].json in PathsJson(selected, paths)
  {
    if i > 0 {
      ShownPathIn(selected, paths[1..], i - 1);
    }
  }
}
