/** Ranking of tables and fields by the similarity of their documents
    to a query, both as vectors of length one; a table takes the best
    of its own document and those of its fields. */
module EmbeddingRanks {
  import opened Ids
  import opened Sorting
  import opened Wrappers

  datatype Kind = TableDoc | FieldDoc | KeyDoc

  /** A document of the index. */
  datatype Heading = Heading(id: int, kind: Kind, tables: seq<int>, text: int)

  /** unit: the stored vector can be scaled to length one; similarity is its product with the query. */
  datatype Document = Document(id: int, kind: Kind, tables: seq<int>, unit: bool, similarity: real)

  /** norm stands for the Euclidean length. */
  datatype Space = Space(norm: seq<real> -> real, dimension: int)

  predicate CanScale(space: Space, v: seq<real>) {
    |v| == space.dimension && space.norm(v) != 0.0
  }

  function Unit(space: Space, v: seq<real>): (r: seq<real>)
    requires CanScale(space, v)
    ensures |r| == space.dimension
  {
    seq(|v|, i requires 0 <= i < |v| => v[i] / space.norm(v))
  }

  function Dot(a: seq<real>, b: seq<real>): real
    requires |a| == |b|
  {
    if a == [] then 0.0 else Dot(a[..|a| - 1], b[..|b| - 1]) + a[|a| - 1] * b[|b| - 1]
  }

  /** The document as the query sees it. */
  function Judge(space: Space, query: seq<real>, h: Heading, vector: seq<real>): Document
    requires CanScale(space, query)
  {
    if CanScale(space, vector)
    then Document(h.id, h.kind, h.tables, true, Dot(Unit(space, query), Unit(space, vector)))
    else Document(h.id, h.kind, h.tables, false, 0.0)
  }

  function Products(a: seq<real>, b: seq<real>): seq<real>
    requires |a| == |b|
  {
    seq(|a|, i requires 0 <= i < |a| => a[i] * b[i])
  }

  function Sum(xs: seq<real>): real {
    if xs == [] then 0.0 else xs[0] + Sum(xs[1..])
  }

  lemma {:induction false} SumNext(xs: seq<real>, x: real)
    ensures Sum(xs + [x]) == Sum(xs) + x
  {
    if xs == [] {
      assert [x][1..] == [];
    } else {
      assert (xs + [x])[1..] == xs[1..] + [x];
      SumNext(xs[1..], x);
    }
  }

  lemma {:induction false} DotIsSum(a: seq<real>, b: seq<real>)
    requires |a| == |b|
    ensures Dot(a, b) == Sum(Products(a, b))
  {
    if a != [] {
      var n := |a| - 1;
      DotIsSum(a[..n], b[..n]);
      forall i | 0 <= i < n ensures Products(a, b)[i] == Products(a[..n], b[..n])[i] {
        assert a[..n][i] == a[i] && b[..n][i] == b[i];
      }
      assert Products(a, b)[n] == a[n] * b[n];
      assert Products(a, b) == Products(a[..n], b[..n]) + [Products(a, b)[n]];
      SumNext(Products(a[..n], b[..n]), a[n] * b[n]);
    }
  }

  function Divided(v: seq<real>, x: real): (r: seq<real>)
    requires x != 0.0
    ensures |r| == |v|
  {
    seq(|v|, i requires 0 <= i < |v| => v[i] / x)
  }

  lemma {:induction false} Regrouped(p: real, q: real, x: real, y: real)
    ensures p * q * (x * y) == (p * x) * (q * y)
  {
    var pq := p * q;
    assert pq * (x * y) == pq * x * y;
    assert pq * x == p * x * q;
    var px := p * x;
    assert px * q * y == px * (q * y);
  }

  lemma {:induction false} Quotients(a: real, b: real, x: real, y: real)
    requires x != 0.0 && y != 0.0
    ensures (a / x) * (b / y) * (x * y) == a * b
  {
    Regrouped(a / x, b / y, x, y);
  }

  lemma {:induction false} Distributes(a: real, b: real, z: real)
    ensures (a + b) * z == a * z + b * z
  {
  }

  lemma {:induction false} DotNext(a: seq<real>, b: seq<real>, x: real, y: real)
    requires |a| == |b| && a != [] && x != 0.0 && y != 0.0
    ensures var n := |a| - 1;
      Dot(Divided(a, x), Divided(b, y)) == Dot(Divided(a[..n], x), Divided(b[..n], y)) + (a[n] / x) * (b[n] / y)
  {
    var n := |a| - 1;
    assert Divided(a, x)[..n] == Divided(a[..n], x) && Divided(b, y)[..n] == Divided(b[..n], y);
  }

  lemma {:induction false} DotOfDivided(a: seq<real>, b: seq<real>, x: real, y: real, z: real)
    requires |a| == |b| && x != 0.0 && y != 0.0 && z == x * y
    ensures Dot(Divided(a, x), Divided(b, y)) * z == Dot(a, b)
  {
    if a == [] {
      assert Dot(Divided(a, x), Divided(b, y)) == 0.0;
    } else {
      var n := |a| - 1;
      var before, last := Dot(Divided(a[..n], x), Divided(b[..n], y)), (a[n] / x) * (b[n] / y);
      DotOfDivided(a[..n], b[..n], x, y, z);
      DotNext(a, b, x, y);
      Quotients(a[n], b[n], x, y);
      Distributes(before, last, z);
    }
  }

  /** A document that scales is as similar as the product of the vectors, measured by both lengths. */
  lemma {:induction false} JudgeTells(space: Space, query: seq<real>, h: Heading, vector: seq<real>)
    requires |query| == space.dimension && space.norm(query) != 0.0
    ensures
      var d := Judge(space, query, h, vector);
      && d.id == h.id && d.kind == h.kind && d.tables == h.tables
      && (d.unit <==> |vector| == space.dimension && space.norm(vector) != 0.0)
      && (d.unit ==> d.similarity * (space.norm(query) * space.norm(vector)) == Sum(Products(query, vector)))
  {
    if CanScale(space, vector) {
      var x, y := space.norm(query), space.norm(vector);
      assert Unit(space, query) == Divided(query, x) && Unit(space, vector) == Divided(vector, y);
      DotOfDivided(query, vector, x, y, x * y);
      DotIsSum(query, vector);
    }
  }

  function JudgeAll(space: Space, query: seq<real>, headings: seq<Heading>, vectors: seq<seq<real>>)
      : (docs: seq<Document>)
    requires CanScale(space, query) && |headings| == |vectors|
    ensures |docs| == |headings|
    ensures forall i | 0 <= i < |docs| :: docs[i] == Judge(space, query, headings[i], vectors[i])
  {
    seq(|headings|, i requires 0 <= i < |headings| => Judge(space, query, headings[i], vectors[i]))
  }

  /** The authorized tables, and the table of each field. */
  datatype Catalog = Catalog(tables: set<int>, fieldTable: map<int, int>)

  // The documents of a snapshot

  /** fields: their ids and texts. */
  datatype TableEntry = TableEntry(id: int, text: int, fields: seq<(int, int)>)

  datatype FieldEntry = FieldEntry(id: int, text: int, table: int)

  datatype KeyEntry = KeyEntry(id: int, text: int, tables: seq<int>)

  /** The authorized metadata, each list in the order in which the documents are built. */
  datatype Snapshot = Snapshot(tables: seq<TableEntry>, primaryKeys: seq<KeyEntry>, foreignKeys: seq<KeyEntry>)

  function TableHeadings(tables: seq<TableEntry>): (r: seq<Heading>)
    ensures |r| == |tables|
    ensures forall i | 0 <= i < |r| :: r[i] == Heading(tables[i].id, TableDoc, [tables[i].id], tables[i].text)
  {
    seq(|tables|, i requires 0 <= i < |tables| => Heading(tables[i].id, TableDoc, [tables[i].id], tables[i].text))
  }

  /** The fields of all tables, table by table. */
  function AllFields(tables: seq<TableEntry>): (r: seq<FieldEntry>) {
    if tables == [] then []
    else AllFields(tables[..|tables| - 1]) + Owned(tables[|tables| - 1].fields, tables[|tables| - 1].id)
  }

  function Owned(fields: seq<(int, int)>, table: int): (r: seq<FieldEntry>)
    ensures |r| == |fields| && forall i | 0 <= i < |r| :: r[i] == FieldEntry(fields[i].0, fields[i].1, table)
  {
    seq(|fields|, i requires 0 <= i < |fields| => FieldEntry(fields[i].0, fields[i].1, table))
  }

  function FieldHeadings(fields: seq<FieldEntry>): (r: seq<Heading>)
    ensures |r| == |fields|
    ensures forall i | 0 <= i < |r| :: r[i] == Heading(fields[i].id, FieldDoc, [fields[i].table], fields[i].text)
  {
    seq(|fields|, i requires 0 <= i < |fields| => Heading(fields[i].id, FieldDoc, [fields[i].table], fields[i].text))
  }

  /** Of keys with the same id the first one is kept. */
  function KeyHeadings(keys: seq<KeyEntry>): (r: seq<Heading>)
    ensures forall i | 0 <= i < |r| :: r[i].kind.KeyDoc?
  {
    if keys == [] then []
    else
      var earlier, last := KeyHeadings(keys[..|keys| - 1]), keys[|keys| - 1];
      if exists i :: 0 <= i < |earlier| && earlier[i].id == last.id then earlier
      else earlier + [Heading(last.id, KeyDoc, last.tables, last.text)]
  }

  function BuildDocuments(s: Snapshot): seq<Heading> {
    TableHeadings(s.tables) + FieldHeadings(AllFields(s.tables))
    + KeyHeadings(s.primaryKeys) + KeyHeadings(s.foreignKeys)
  }

  /** A key whose id no earlier one has. */
  predicate IsFirst(keys: seq<KeyEntry>, i: int) {
    0 <= i < |keys| && forall j | 0 <= j < i :: keys[j].id != keys[i].id
  }

  predicate OfTable(s: Snapshot, i: int, h: Heading) {
    0 <= i < |s.tables| && h == Heading(s.tables[i].id, TableDoc, [s.tables[i].id], s.tables[i].text)
  }

  predicate OfField(tables: seq<TableEntry>, i: int, k: int, h: Heading) {
    && 0 <= i < |tables| && 0 <= k < |tables[i].fields|
    && h == Heading(tables[i].fields[k].0, FieldDoc, [tables[i].id], tables[i].fields[k].1)
  }

  predicate OfKey(keys: seq<KeyEntry>, i: int, h: Heading) {
    IsFirst(keys, i) && h == Heading(keys[i].id, KeyDoc, keys[i].tables, keys[i].text)
  }

  lemma {:induction false} FieldsTell(tables: seq<TableEntry>, h: Heading)
    ensures h in FieldHeadings(AllFields(tables)) <==> exists i, k :: OfField(tables, i, k, h)
  {
    if tables != [] {
      var n := |tables| - 1;
      var one, other := AllFields(tables[..n]), Owned(tables[n].fields, tables[n].id);
      FieldsTell(tables[..n], h);
      assert FieldHeadings(one + other) == FieldHeadings(one) + FieldHeadings(other);
      if i, k :| OfField(tables[..n], i, k, h) {
        assert OfField(tables, i, k, h);
      }
      if i, k :| OfField(tables, i, k, h) {
        if i < n {
          assert OfField(tables[..n], i, k, h);
        } else {
          assert FieldHeadings(other)[k] == h;
        }
      }
      if h in FieldHeadings(other) {
        var k :| 0 <= k < |other| && FieldHeadings(other)[k] == h;
        assert OfField(tables, n, k, h);
      }
    }
  }

  lemma {:induction false} KeysTell(keys: seq<KeyEntry>, h: Heading)
    ensures h in KeyHeadings(keys) <==> exists i :: OfKey(keys, i, h)
  {
    if keys != [] {
      var n, last := |keys| - 1, keys[|keys| - 1];
      KeysTell(keys[..n], h);
      KeyIdsTell(keys[..n], last.id);
      if i :| OfKey(keys[..n], i, h) {
        assert OfKey(keys, i, h);
      }
      if i :| OfKey(keys, i, h) {
        assert i < n ==> OfKey(keys[..n], i, h);
      }
      assert IsFirst(keys, n) ==> OfKey(keys, n, Heading(last.id, KeyDoc, last.tables, last.text));
    }
  }

  lemma {:induction false} KeyIdsTell(keys: seq<KeyEntry>, id: int)
    ensures (exists i :: 0 <= i < |KeyHeadings(keys)| && KeyHeadings(keys)[i].id == id)
      <==> exists i :: 0 <= i < |keys| && keys[i].id == id
  {
    if keys != [] {
      var n := |keys| - 1;
      var earlier, now := KeyHeadings(keys[..n]), KeyHeadings(keys);
      KeyIdsTell(keys[..n], id);
      KeyIdsTell(keys[..n], keys[n].id);
      assert now == earlier || (now == earlier + [now[|earlier|]] && now[|earlier|].id == keys[n].id);
      if i :| 0 <= i < |earlier| && earlier[i].id == id {
        assert now[i].id == id;
      }
    }
  }

  /** The documents are those of the tables, of their fields, and of the first keys of each id. */
  lemma {:induction false} DocumentsTell(s: Snapshot, h: Heading)
    ensures h in BuildDocuments(s) <==>
      || (exists i :: OfTable(s, i, h)) || (exists i, k :: OfField(s.tables, i, k, h))
      || (exists i :: OfKey(s.primaryKeys, i, h)) || (exists i :: OfKey(s.foreignKeys, i, h))
  {
    FieldsTell(s.tables, h);
    KeysTell(s.primaryKeys, h);
    KeysTell(s.foreignKeys, h);
    if i :| OfTable(s, i, h) {
      assert TableHeadings(s.tables)[i] == h;
    }
    if h in TableHeadings(s.tables) {
      var i :| 0 <= i < |s.tables| && TableHeadings(s.tables)[i] == h;
      assert OfTable(s, i, h);
    }
  }

  /** The table of a field: the last that has it, as in a dictionary filled in order. */
  function TableOf(fields: seq<FieldEntry>, id: int): Option<int> {
    if fields == [] then None
    else if fields[|fields| - 1].id == id then Some(fields[|fields| - 1].table)
    else TableOf(fields[..|fields| - 1], id)
  }

  function CatalogOf(s: Snapshot): Catalog {
    var fields := AllFields(s.tables);
    Catalog(set i | 0 <= i < |s.tables| :: s.tables[i].id,
            map id | id in (set i | 0 <= i < |fields| :: fields[i].id) && TableOf(fields, id).Some?
              :: TableOf(fields, id).value)
  }

  predicate DistinctIds(headings: seq<Heading>) {
    forall i, j | 0 <= i < j < |headings| :: headings[i].id != headings[j].id
  }

  /** No two documents share an id, and keys are between authorized tables. */
  predicate WellNamed(s: Snapshot) {
    var headings, c := BuildDocuments(s), CatalogOf(s);
    DistinctIds(headings) && forall i | 0 <= i < |headings| :: TablesKnown(c, headings[i].tables)
  }

  predicate TablesKnown(c: Catalog, tables: seq<int>) {
    forall i | 0 <= i < |tables| :: tables[i] in c.tables
  }

  lemma {:induction false} TableOfKnown(fields: seq<FieldEntry>, i: int)
    requires 0 <= i < |fields|
    ensures TableOf(fields, fields[i].id).Some?
    ensures (forall j | 0 <= j < |fields| && j != i :: fields[j].id != fields[i].id) ==>
      TableOf(fields, fields[i].id) == Some(fields[i].table)
  {
    if i < |fields| - 1 {
      TableOfKnown(fields[..|fields| - 1], i);
    }
  }

  lemma {:induction false} FieldsHaveTables(tables: seq<TableEntry>, i: int)
    requires 0 <= i < |AllFields(tables)|
    ensures exists j :: 0 <= j < |tables| && tables[j].id == AllFields(tables)[i].table
  {
    var earlier := AllFields(tables[..|tables| - 1]);
    if i < |earlier| {
      FieldsHaveTables(tables[..|tables| - 1], i);
    } else {
      assert AllFields(tables)[i].table == tables[|tables| - 1].id;
    }
  }

  /** The builder's documents are of their kind as long as no two share an id. */
  lemma {:induction false} BuiltKindOk(s: Snapshot, i: int, d: Document)
    requires DistinctIds(BuildDocuments(s)) && 0 <= i < |BuildDocuments(s)|
    requires var h := BuildDocuments(s)[i]; d.id == h.id && d.kind == h.kind && d.tables == h.tables
    ensures KindOk(CatalogOf(s), d)
  {
    var docs, c, fields := BuildDocuments(s), CatalogOf(s), AllFields(s.tables);
    var tables := TableHeadings(s.tables);
    if i < |tables| {
      assert docs[i] == tables[i];
    } else if i < |tables| + |fields| {
      var k := i - |tables|;
      assert docs[i] == FieldHeadings(fields)[k];
      forall j | 0 <= j < |fields| && j != k ensures fields[j].id != fields[k].id {
        assert docs[|tables| + j] == FieldHeadings(fields)[j];
      }
      TableOfKnown(fields, k);
    } else {
      BuiltKeys(s, i);
    }
  }

  lemma {:induction false} BuiltKeys(s: Snapshot, i: int)
    requires |s.tables| + |AllFields(s.tables)| <= i < |BuildDocuments(s)|
    ensures BuildDocuments(s)[i].kind.KeyDoc?
  {
    var front := TableHeadings(s.tables) + FieldHeadings(AllFields(s.tables));
    var one, other := KeyHeadings(s.primaryKeys), KeyHeadings(s.foreignKeys);
    if i < |front| + |one| {
      assert BuildDocuments(s)[i] == one[i - |front|];
    } else {
      assert BuildDocuments(s)[i] == other[i - |front| - |one|];
    }
  }

  /** Every authorized table and field has a document. */
  lemma {:induction false} BuiltComplete(s: Snapshot, id: int)
    requires id in CatalogOf(s).tables || id in CatalogOf(s).fieldTable
    ensures exists i :: 0 <= i < |BuildDocuments(s)| && BuildDocuments(s)[i].id == id
  {
    var docs, fields := BuildDocuments(s), AllFields(s.tables);
    if id in CatalogOf(s).tables {
      var i :| 0 <= i < |s.tables| && s.tables[i].id == id;
      assert docs[i] == TableHeadings(s.tables)[i];
    } else {
      var i :| 0 <= i < |fields| && fields[i].id == id;
      assert docs[|s.tables| + i] == FieldHeadings(fields)[i];
    }
  }

  /** Every vector of the index can be scaled to length one. */
  predicate AllScale(space: Space, vectors: seq<seq<real>>) {
    forall i | 0 <= i < |vectors| :: CanScale(space, vectors[i])
  }

  /** For the builder's documents the checks of the loop come down to their vectors and their names. */
  lemma {:induction false} BuiltAreChecked(s: Snapshot, space: Space, query: seq<real>, vectors: seq<seq<real>>)
    requires CanScale(space, query) && |vectors| == |BuildDocuments(s)|
    ensures
      var docs, c := JudgeAll(space, query, BuildDocuments(s), vectors), CatalogOf(s);
      DocumentsOk(c, docs) && Complete(c, docs) <==> AllScale(space, vectors) && WellNamed(s)
  {
    var h := BuildDocuments(s);
    var docs, c := JudgeAll(space, query, h, vectors), CatalogOf(s);
    if DocumentsOk(c, docs) {
      forall i | 0 <= i < |h| ensures CanScale(space, vectors[i]) && TablesKnown(c, h[i].tables) {
        assert DocumentOk(c, docs[i]);
      }
      forall i, j | 0 <= i < j < |h| ensures h[i].id != h[j].id {
        assert docs[i].id != docs[j].id;
      }
    }
    if AllScale(space, vectors) && WellNamed(s) {
      forall i | 0 <= i < |docs| ensures DocumentOk(c, docs[i]) {
        BuiltKindOk(s, i, docs[i]);
        assert TablesKnown(c, h[i].tables);
      }
      forall i, j | 0 <= i < j < |docs| ensures docs[i].id != docs[j].id {
        assert h[i].id != h[j].id;
      }
      forall id ensures id in c.tables || id in c.fieldTable ==> Mentions(docs, id) {
        if id in c.tables || id in c.fieldTable {
          BuiltComplete(s, id);
          var i :| 0 <= i < |h| && h[i].id == id;
          assert docs[i].id == id;
        }
      }
    }
  }

  // Ranking

  datatype Evidence = Evidence(id: int, similarity: real, rank: int, source: int)

  datatype Ranking = Ranking(tables: seq<Evidence>, fields: seq<Evidence>)

  datatype IndexError = IndexInvalid

  predicate KindOk(c: Catalog, d: Document) {
    match d.kind
    case TableDoc => d.id in c.tables && d.tables == [d.id]
    case FieldDoc => d.id in c.fieldTable && d.tables == [c.fieldTable[d.id]]
    case KeyDoc => true
  }

  predicate DocumentOk(c: Catalog, d: Document) {
    d.unit && KindOk(c, d) && forall i | 0 <= i < |d.tables| :: d.tables[i] in c.tables
  }

  ghost predicate DocumentsOk(c: Catalog, docs: seq<Document>) {
    && (forall i | 0 <= i < |docs| :: DocumentOk(c, docs[i]))
    && (forall i, j | 0 <= i < j < |docs| :: docs[i].id != docs[j].id)
  }

  predicate Speaks(c: Catalog, d: Document, table: int) {
    !d.kind.KeyDoc? && d.tables != [] && d.tables[0] == table
  }

  /** More similar, or equally similar with the smaller id. */
  predicate Beats(similarity: real, id: int, other: Document) {
    similarity > other.similarity || (similarity == other.similarity && id <= other.id)
  }

  /** (similarity, source) is the best of the table's own document and those of its fields. */
  ghost predicate IsBest(c: Catalog, docs: seq<Document>, table: int, similarity: real, source: int) {
    && (exists i :: 0 <= i < |docs| && Speaks(c, docs[i], table)
                    && docs[i].similarity == similarity && docs[i].id == source)
    && (forall i | 0 <= i < |docs| && Speaks(c, docs[i], table) :: Beats(similarity, source, docs[i]))
  }

  ghost predicate BestAt(c: Catalog, docs: seq<Document>, best: map<int, (real, int)>, table: int) {
    && (table in best ==> IsBest(c, docs, table, best[table].0, best[table].1))
    && (table !in best ==> forall i | 0 <= i < |docs| :: !Speaks(c, docs[i], table))
  }

  ghost predicate FieldAt(docs: seq<Document>, scores: map<int, (real, int)>, field: int) {
    && (field in scores <==> exists i :: 0 <= i < |docs| && docs[i].kind.FieldDoc? && docs[i].id == field)
    && (forall i | 0 <= i < |docs| && docs[i].kind.FieldDoc? && docs[i].id == field ::
          scores[field] == (docs[i].similarity, field))
  }

  /** The document replaces the best so far of a table, or is its first. */
  predicate TakesOver(best: map<int, (real, int)>, table: int, d: Document) {
    table !in best || d.similarity > best[table].0 || (d.similarity == best[table].0 && d.id < best[table].1)
  }

  lemma {:induction false} BestNext(c: Catalog, docs: seq<Document>, i: int,
                                    best: map<int, (real, int)>, more: map<int, (real, int)>, table: int)
    requires 0 <= i < |docs| && BestAt(c, docs[..i], best, table)
    requires more ==
             if docs[i].kind.KeyDoc? || docs[i].tables == [] then best
             else
               var t := docs[i].tables[0];
               if TakesOver(best, t, docs[i]) then best[t := (docs[i].similarity, docs[i].id)] else best
    ensures BestAt(c, docs[..i + 1], more, table)
  {
    var so, now, d := docs[..i], docs[..i + 1], docs[i];
    assert now == so + [d];
    assert now[i] == d;
    if Speaks(c, d, table) && table in more && more[table] == (d.similarity, d.id) {
      assert Speaks(c, now[i], table) && now[i].similarity == more[table].0 && now[i].id == more[table].1;
    } else if table in best {
      var k :| 0 <= k < |so| && Speaks(c, so[k], table)
               && so[k].similarity == best[table].0 && so[k].id == best[table].1;
      assert now[k] == so[k];
    }
  }

  /** sameVersion: the index was built for the schema version of the snapshot. */
  method RankEmbeddingIndex(snapshot: Snapshot, space: Space, query: seq<real>, headings: seq<Heading>,
                            vectors: seq<seq<real>>, sameVersion: bool, limit: int)
      returns (r: Result<Ranking, IndexError>)
    ensures r.Ok? <==>
      && 1 <= limit <= 20 && sameVersion && |headings| == |vectors| && headings == BuildDocuments(snapshot)
      && CanScale(space, query) && AllScale(space, vectors) && WellNamed(snapshot)
    ensures r.Ok? ==>
      var docs := JudgeAll(space, query, headings, vectors);
      RanksTables(CatalogOf(snapshot), docs, limit, r.value.tables) && RanksFields(docs, limit, r.value.fields)
  {
    if limit < 1 || limit > 20 || !sameVersion || |headings| != |vectors| || headings != BuildDocuments(snapshot) {
      return Err(IndexInvalid);
    }
    if !CanScale(space, query) {
      return Err(IndexInvalid);
    }
    BuiltAreChecked(snapshot, space, query, vectors);
    r := RankDocuments(CatalogOf(snapshot), space, query, headings, vectors, limit);
  }

  method RankDocuments(c: Catalog, space: Space, query: seq<real>, headings: seq<Heading>, vectors: seq<seq<real>>,
                       limit: int)
      returns (r: Result<Ranking, IndexError>)
    requires CanScale(space, query) && |headings| == |vectors| && limit >= 1
    ensures
      var docs := JudgeAll(space, query, headings, vectors);
      && (r.Ok? <==> DocumentsOk(c, docs) && Complete(c, docs))
      && (r.Ok? ==> RanksTables(c, docs, limit, r.value.tables) && RanksFields(docs, limit, r.value.fields))
  {
    ghost var docs := JudgeAll(space, query, headings, vectors);
    var observed: set<int>, best: map<int, (real, int)>, fields: map<int, (real, int)> := {}, map[], map[];
    for i := 0 to |headings|
      invariant DocumentsOk(c, docs[..i]) && forall t :: t in observed <==> Mentions(docs[..i], t)
      invariant forall t :: BestAt(c, docs[..i], best, t)
      invariant forall t :: FieldAt(docs[..i], fields, t)
    {
      var d := Judge(space, query, headings[i], vectors[i]);
      DocumentsNext(c, docs, i);
      if d.id in observed || !DocumentOk(c, d) {
        return Err(IndexInvalid);
      }
      ghost var before, fieldsBefore := best, fields;
      observed := observed + {d.id};
      if !d.kind.KeyDoc? {
        var parent := d.tables[0];
        if d.kind.FieldDoc? {
          fields := fields[d.id := (d.similarity, d.id)];
        }
        if TakesOver(best, parent, d) {
          best := best[parent := (d.similarity, d.id)];
        }
      }
      ghost var so, now := docs[..i], docs[..i + 1];
      forall t ensures BestAt(c, now, best, t) {
        assert BestAt(c, so, before, t);
        BestNext(c, docs, i, before, best, t);
      }
      forall t ensures FieldAt(now, fields, t) {
        assert FieldAt(so, fieldsBefore, t);
        FieldNext(docs, i, fieldsBefore, t);
      }
    }
    assert docs[..|docs|] == docs;
    var expected := c.tables + c.fieldTable.Keys;
    if !(expected <= observed) {
      ghost var missing := NewMember(observed, expected);
      assert !Mentions(docs, missing);
      return Err(IndexInvalid);
    }
    var tables := TopEntries(best, limit);
    var ranked := TopEntries(fields, limit);
    r := Ok(Ranking(tables, ranked));
  }

  ghost predicate Mentions(docs: seq<Document>, id: int) {
    exists i :: 0 <= i < |docs| && docs[i].id == id
  }

  /** Each authorized table and field has a document. */
  ghost predicate Complete(c: Catalog, docs: seq<Document>) {
    forall t :: t in c.tables || t in c.fieldTable ==> Mentions(docs, t)
  }

  lemma {:induction false} DocumentsNext(c: Catalog, docs: seq<Document>, i: int)
    requires 0 <= i < |docs|
    ensures DocumentsOk(c, docs[..i + 1])
      <==> DocumentsOk(c, docs[..i]) && DocumentOk(c, docs[i]) && !Mentions(docs[..i], docs[i].id)
    ensures DocumentsOk(c, docs) ==> DocumentsOk(c, docs[..i + 1])
    ensures forall t :: Mentions(docs[..i + 1], t) <==> Mentions(docs[..i], t) || t == docs[i].id
  {
    var so, now := docs[..i], docs[..i + 1];
    assert now == so + [docs[i]];
    if DocumentsOk(c, now) {
      assert DocumentOk(c, now[i]);
      forall j | 0 <= j < |so| ensures DocumentOk(c, so[j]) && so[j].id != docs[i].id {
        assert now[j] == so[j] && now[i] == docs[i];
      }
      forall j, k | 0 <= j < k < |so| ensures so[j].id != so[k].id {
        assert now[j] == so[j] && now[k] == so[k];
      }
    }
    forall t ensures Mentions(now, t) <==> Mentions(so, t) || t == docs[i].id {
      if Mentions(so, t) {
        var j :| 0 <= j < |so| && so[j].id == t;
        assert now[j].id == t;
      }
      assert now[i].id == docs[i].id;
    }
  }

  lemma {:induction false} FieldNext(docs: seq<Document>, i: int, scores: map<int, (real, int)>, field: int)
    requires 0 <= i < |docs| && FieldAt(docs[..i], scores, field) && !Mentions(docs[..i], docs[i].id)
    ensures
      var d := docs[i];
      FieldAt(docs[..i + 1], if d.kind.FieldDoc? then scores[d.id := (d.similarity, d.id)] else scores, field)
  {
    var so, now := docs[..i], docs[..i + 1];
    assert now == so + [docs[i]] && now[i] == docs[i];
    if j :| 0 <= j < |so| && so[j].kind.FieldDoc? && so[j].id == field {
      assert now[j] == so[j] && Mentions(so, field);
    }
  }

  // The first entries of a score table

  predicate Earlier(a: Evidence, b: Evidence) {
    a.similarity > b.similarity || (a.similarity == b.similarity && a.id <= b.id)
  }

  function ByScore(): (Evidence, Evidence) -> bool {
    (a, b) => Earlier(a, b)
  }

  lemma {:induction false} ByScoreIsTotal()
    ensures TotalPreorder(ByScore())
  {
    forall x, y, z ensures Chains(ByScore(), x, y, z) {
    }
  }

  /** A higher score, or the same with a smaller id. */
  predicate Outranks(similarity: real, id: int, other: real, otherId: int) {
    similarity > other || (similarity == other && id < otherId)
  }

  /** A positive score that is left out comes after a full list of better ones. */
  predicate LeftOut(scores: map<int, (real, int)>, limit: int, r: seq<Evidence>, id: int) {
    id in scores && scores[id].0 > 0.0 ==>
      (exists i :: 0 <= i < |r| && r[i].id == id)
      || (|r| == limit && forall i | 0 <= i < |r| :: Outranks(r[i].similarity, r[i].id, scores[id].0, id))
  }

  /** The positive scores, best first, ties by id, numbered from 1, at most limit of them. */
  ghost predicate IsTop(scores: map<int, (real, int)>, limit: int, r: seq<Evidence>) {
    && |r| <= limit
    && (forall i | 0 <= i < |r| ::
          && r[i].rank == i + 1 && r[i].id in scores && scores[r[i].id] == (r[i].similarity, r[i].source)
          && r[i].similarity > 0.0)
    && (forall i, j | 0 <= i < j < |r| :: Outranks(r[i].similarity, r[i].id, r[j].similarity, r[j].id))
    && (forall id :: LeftOut(scores, limit, r, id))
  }

  predicate EntryOf(scores: map<int, (real, int)>, e: Evidence) {
    e.id in scores && e == Evidence(e.id, scores[e.id].0, 0, scores[e.id].1) && e.similarity > 0.0
  }

  method Entries(scores: map<int, (real, int)>) returns (entries: seq<Evidence>)
    ensures forall e :: e in entries <==> EntryOf(scores, e)
    ensures NoRepeats(entries)
  {
    entries := [];
    var ids := SortedSet(scores.Keys);
    for i := 0 to |ids|
      invariant forall e :: e in entries <==> EntryOf(scores, e) && e.id in ids[..i]
      invariant NoRepeats(entries)
    {
      var id := ids[i];
      assert id !in ids[..i] && id in scores;
      if scores[id].0 > 0.0 {
        entries := entries + [Evidence(id, scores[id].0, 0, scores[id].1)];
      }
      assert ids[..i + 1] == ids[..i] + [id];
    }
    assert ids[..|ids|] == ids;
  }

  method TopEntries(scores: map<int, (real, int)>, limit: int) returns (r: seq<Evidence>)
    requires limit >= 1
    ensures IsTop(scores, limit, r)
  {
    var entries := Entries(scores);
    var sorted := Sort(ByScore(), entries);
    ByScoreIsTotal();
    SortOrdered(ByScore(), entries);
    SortMembers(ByScore(), entries);
    SortPermutes(ByScore(), entries);
    RearrangedNoRepeats(entries, sorted);
    var n := if |sorted| < limit then |sorted| else limit;
    r := [];
    for i := 0 to n
      invariant |r| == i && forall j | 0 <= j < i :: r[j] == sorted[j].(rank := j + 1)
    {
      r := r + [sorted[i].(rank := i + 1)];
    }
    TopIsTop(scores, limit, sorted, r);
  }

  lemma {:induction false} TopIsTop(scores: map<int, (real, int)>, limit: int, sorted: seq<Evidence>, r: seq<Evidence>)
    requires 1 <= limit && NoRepeats(sorted) && Ordered(ByScore(), sorted)
    requires forall e :: e in sorted <==> EntryOf(scores, e)
    requires |r| == (if |sorted| < limit then |sorted| else limit)
    requires forall j | 0 <= j < |r| :: r[j] == sorted[j].(rank := j + 1)
    ensures IsTop(scores, limit, r)
  {
    forall i | 0 <= i < |sorted| ensures EntryOf(scores, sorted[i]) {
      assert sorted[i] in sorted;
    }
    forall i, j | 0 <= i < j < |r| ensures Outranks(r[i].similarity, r[i].id, r[j].similarity, r[j].id) {
      assert ByScore()(sorted[i], sorted[j]) && sorted[i] != sorted[j];
      assert EntryOf(scores, sorted[i]) && EntryOf(scores, sorted[j]);
    }
    forall id ensures LeftOut(scores, limit, r, id) {
      if id in scores && scores[id].0 > 0.0 {
        var e := Evidence(id, scores[id].0, 0, scores[id].1);
        assert EntryOf(scores, e);
        var k :| 0 <= k < |sorted| && sorted[k] == e;
        if k < |r| {
          assert r[k].id == id;
        } else {
          forall i | 0 <= i < |r| ensures Outranks(r[i].similarity, r[i].id, e.similarity, id) {
            assert ByScore()(sorted[i], sorted[k]) && sorted[i] != sorted[k];
            assert EntryOf(scores, sorted[i]) && EntryOf(scores, sorted[k]);
          }
        }
      }
    }
  }

  /** The ranked tables are scored by their best document; no table left out has a better one. */
  ghost predicate RanksTables(c: Catalog, docs: seq<Document>, limit: int, r: seq<Evidence>) {
    exists best :: IsTop(best, limit, r) && forall t :: BestAt(c, docs, best, t)
  }

  ghost predicate RanksFields(docs: seq<Document>, limit: int, r: seq<Evidence>) {
    exists scores :: IsTop(scores, limit, r) && forall t :: FieldAt(docs, scores, t)
  }
}
