/** Laws of authorization: composition, canonical form, visible keys. */
module AuthorizationLaws {
  import opened Authorization
  import opened Ids
  import opened Sorting
  import opened Wrappers

  // Sorting by keys

  lemma {:induction false} SortTwice<T(!new)>(key: T -> seq<Name>, s: seq<T>)
    ensures Sort(ByKey(key), Sort(ByKey(key), s)) == Sort(ByKey(key), s)
  {
    ByKeyIsTotal(key);
    SortOrdered(ByKey(key), s);
    SortOfOrdered(ByKey(key), Sort(ByKey(key), s));
  }

  lemma {:induction false} FilterTwice<T(!new)>(p: T -> bool, q: T -> bool, both: T -> bool, s: seq<T>)
    requires forall x :: both(x) <==> p(x) && q(x)
    ensures Filter(q, Filter(p, s)) == Filter(both, s)
  {
    if s != [] {
      FilterTwice(p, q, both, s[1..]);
      FilterCons(q, s[0], Filter(p, s[1..]));
    }
  }

  /** Filtering a sorted filtered sequence and sorting again is filtering by both and sorting once. */
  lemma {:induction false} SortedFilters<T(!new)>(key: T -> seq<Name>, p: T -> bool, q: T -> bool, both: T -> bool,
                                                  s: seq<T>)
    requires forall x :: both(x) <==> p(x) && q(x)
    ensures Sort(ByKey(key), Filter(q, Sort(ByKey(key), Filter(p, s)))) == Sort(ByKey(key), Filter(both, s))
  {
    ByKeyIsTotal(key);
    FilterSort(ByKey(key), q, Filter(p, s));
    SortTwice(key, Filter(q, Filter(p, s)));
    FilterTwice(p, q, both, s);
  }

  // Canonical tables

  lemma {:induction false} CanonicalTwice(s: seq<Table>)
    ensures CanonicalTables(CanonicalTables(s)) == CanonicalTables(s)
  {
    if s != [] {
      CanonicalTwice(s[1..]);
      SortTwice(ColumnKey(), s[0].columns);
    }
  }

  lemma {:induction false} CanonicalCons(t: Table, s: seq<Table>)
    ensures CanonicalTables([t] + s) == [CanonicalTable(t)] + CanonicalTables(s)
  {
    assert ([t] + s)[1..] == s;
  }

  lemma {:induction false} CanonicalInsert(t: Table, s: seq<Table>)
    ensures Insert(ByKey(TableKey()), CanonicalTable(t), CanonicalTables(s))
      == CanonicalTables(Insert(ByKey(TableKey()), t, s))
  {
    CanonicalCons(t, s);
    if s != [] {
      CanonicalInsert(t, s[1..]);
      CanonicalCons(s[0], Insert(ByKey(TableKey()), t, s[1..]));
      assert CanonicalTables(s)[1..] == CanonicalTables(s[1..]);
    }
  }

  lemma {:induction false} CanonicalSort(s: seq<Table>)
    ensures Sort(ByKey(TableKey()), CanonicalTables(s)) == CanonicalTables(Sort(ByKey(TableKey()), s))
  {
    if s != [] {
      CanonicalSort(s[1..]);
      CanonicalInsert(s[0], Sort(ByKey(TableKey()), s[1..]));
      assert CanonicalTables(s)[1..] == CanonicalTables(s[1..]);
    }
  }

  lemma {:induction false} CanonicalFilter(pairs: set<Pair>, s: seq<Table>)
    ensures Filter(InScope(pairs), CanonicalTables(s)) == CanonicalTables(Filter(InScope(pairs), s))
  {
    if s != [] {
      CanonicalFilter(pairs, s[1..]);
      FilterCons(InScope(pairs), CanonicalTable(s[0]), CanonicalTables(s[1..]));
      CanonicalCons(s[0], Filter(InScope(pairs), s[1..]));
    }
  }

  function Tables(s: seq<Table>): seq<Table> {
    CanonicalTables(Sort(ByKey(TableKey()), s))
  }

  lemma {:induction false} TablesTwice(s: seq<Table>)
    ensures Tables(Tables(s)) == Tables(s)
  {
    CanonicalSort(Sort(ByKey(TableKey()), s));
    SortTwice(TableKey(), s);
    CanonicalTwice(Sort(ByKey(TableKey()), s));
  }

  lemma {:induction false} TablesCompose(one: set<Pair>, two: set<Pair>, s: seq<Table>)
    ensures Tables(Filter(InScope(two), Tables(Filter(InScope(one), s)))) == Tables(Filter(InScope(one * two), s))
  {
    var first := Filter(InScope(one), s);
    CanonicalFilter(two, Sort(ByKey(TableKey()), first));
    ByKeyIsTotal(TableKey());
    FilterSort(ByKey(TableKey()), InScope(two), first);
    FilterTwice(InScope(one), InScope(two), InScope(one * two), s);
    TablesTwice(Filter(InScope(one * two), s));
  }

  // Which columns a table has

  function Named(name: Pair): Table -> bool {
    (t: Table) => t.name == name
  }

  lemma {:induction false} ColumnsOfJoin(s: seq<Table>, t: seq<Table>, name: Pair)
    ensures ColumnsOf(s + t, name) == if ColumnsOf(t, name).Some? then ColumnsOf(t, name) else ColumnsOf(s, name)
  {
    if t == [] {
      assert s + t == s;
    } else {
      assert (s + t)[..|s + t| - 1] == s + t[..|t| - 1];
      ColumnsOfJoin(s, t[..|t| - 1], name);
    }
  }

  lemma {:induction false} ColumnsOfCons(t: Table, s: seq<Table>, name: Pair)
    ensures ColumnsOf([t] + s, name) ==
            if ColumnsOf(s, name).Some? then ColumnsOf(s, name) else if t.name == name then Some(t.columns) else None
  {
    ColumnsOfJoin([t], s, name);
    assert [t][..0] == [];
  }

  lemma {:induction false} ColumnsOfFiltered(p: Table -> bool, s: seq<Table>, name: Pair)
    requires forall t: Table, u: Table | t.name == u.name :: p(t) == p(u)
    ensures ColumnsOf(Filter(p, s), name) == if p(Table(name, 0, [])) then ColumnsOf(s, name) else None
  {
    if s != [] {
      ColumnsOfFiltered(p, s[1..], name);
      ColumnsOfCons(s[0], s[1..], name);
      ColumnsOfCons(s[0], Filter(p, s[1..]), name);
      assert s == [s[0]] + s[1..];
      assert s[0].name == name ==> p(s[0]) == p(Table(name, 0, []));
    }
  }

  lemma {:induction false} ColumnsOfScoped(pairs: set<Pair>, s: seq<Table>, name: Pair)
    ensures ColumnsOf(Filter(InScope(pairs), s), name) == if name in pairs then ColumnsOf(s, name) else None
  {
    ColumnsOfFiltered(InScope(pairs), s, name);
  }

  /** Sorting is stable, so the last entry for a name stays the last. */
  lemma {:induction false} ColumnsOfSorted(s: seq<Table>, name: Pair)
    ensures ColumnsOf(Sort(ByKey(TableKey()), s), name) == ColumnsOf(s, name)
  {
    var same := Filter(Named(name), s);
    ByKeyIsTotal(TableKey());
    FilterSort(ByKey(TableKey()), Named(name), s);
    FilterMembers(Named(name), s);
    forall i, j | 0 <= i < j < |same| ensures ByKey(TableKey())(same[i], same[j]) {
      assert same[i] in same && same[j] in same;
    }
    SortOfOrdered(ByKey(TableKey()), same);
    ColumnsOfFiltered(Named(name), s, name);
    ColumnsOfFiltered(Named(name), Sort(ByKey(TableKey()), s), name);
  }

  lemma {:induction false} ColumnsOfCanonical(s: seq<Table>, name: Pair)
    ensures ColumnsOf(CanonicalTables(s), name) ==
            if ColumnsOf(s, name).None? then None else Some(Sort(ByKey(ColumnKey()), ColumnsOf(s, name).value))
  {
    if s != [] {
      ColumnsOfCanonical(s[1..], name);
      ColumnsOfCons(s[0], s[1..], name);
      ColumnsOfCons(CanonicalTable(s[0]), CanonicalTables(s[1..]), name);
      assert s == [s[0]] + s[1..];
    }
  }

  lemma {:induction false} VisibleCanonical(s: seq<Table>, name: Pair, columns: seq<Name>)
    ensures ColumnsVisible(Tables(s), name, columns) <==> ColumnsVisible(s, name, columns)
  {
    ColumnsOfSorted(s, name);
    ColumnsOfCanonical(Sort(ByKey(TableKey()), s), name);
    var found := ColumnsOf(s, name);
    if found.Some? {
      var sorted := Sort(ByKey(ColumnKey()), found.value);
      SortMembers(ByKey(ColumnKey()), found.value);
      forall n ensures HasColumn(sorted, n) <==> HasColumn(found.value, n) {
        SameColumns(sorted, found.value, n);
        SameColumns(found.value, sorted, n);
      }
    }
  }

  lemma {:induction false} SameColumns(a: seq<Column>, b: seq<Column>, n: Name)
    requires forall c | c in a :: c in b
    ensures HasColumn(a, n) ==> HasColumn(b, n)
  {
    if HasColumn(a, n) {
      var i :| 0 <= i < |a| && a[i].name == n;
      assert a[i] in b;
    }
  }

  lemma {:induction false} VisibleScoped(pairs: set<Pair>, s: seq<Table>, name: Pair, columns: seq<Name>)
    ensures ColumnsVisible(Filter(InScope(pairs), s), name, columns)
      <==> name in pairs && ColumnsVisible(s, name, columns)
  {
    ColumnsOfScoped(pairs, s, name);
  }

  // Composition

  lemma {:induction false} VisibleCompose(one: set<Pair>, two: set<Pair>, s: seq<Table>, name: Pair, columns: seq<Name>)
    ensures
      var first := Filter(InScope(one), s);
      ColumnsVisible(Filter(InScope(one * two), s), name, columns) <==>
      ColumnsVisible(first, name, columns) && ColumnsVisible(Filter(InScope(two), Tables(first)), name, columns)
  {
    var first := Filter(InScope(one), s);
    VisibleScoped(one, s, name, columns);
    VisibleScoped(two, Tables(first), name, columns);
    VisibleCanonical(first, name, columns);
    VisibleScoped(one * two, s, name, columns);
  }

  lemma {:induction false} KeysCompose(one: set<Pair>, two: set<Pair>, s: seq<Table>, keys: seq<Key>)
    ensures
      var first := Filter(InScope(one), s);
      var second := Filter(InScope(two), Tables(first));
      Sort(ByKey(KeyKey()), Filter(KeyVisible(second), Sort(ByKey(KeyKey()), Filter(KeyVisible(first), keys))))
      == Sort(ByKey(KeyKey()), Filter(KeyVisible(Filter(InScope(one * two), s)), keys))
  {
    var first := Filter(InScope(one), s);
    var second := Filter(InScope(two), Tables(first));
    var both := KeyVisible(Filter(InScope(one * two), s));
    forall k ensures both(k) <==> KeyVisible(first)(k) && KeyVisible(second)(k) {
      VisibleCompose(one, two, s, k.table, k.columns);
    }
    SortedFilters(KeyKey(), KeyVisible(first), KeyVisible(second), both, keys);
  }

  lemma {:induction false} ForeignKeysCompose(one: set<Pair>, two: set<Pair>, s: seq<Table>, keys: seq<ForeignKey>)
    ensures
      var first := Filter(InScope(one), s);
      var second := Filter(InScope(two), Tables(first));
      var kept := Sort(ByKey(ForeignKeyKey()), Filter(ForeignKeyVisible(first), keys));
      Sort(ByKey(ForeignKeyKey()), Filter(ForeignKeyVisible(second), kept))
      == Sort(ByKey(ForeignKeyKey()), Filter(ForeignKeyVisible(Filter(InScope(one * two), s)), keys))
  {
    var first := Filter(InScope(one), s);
    var second := Filter(InScope(two), Tables(first));
    var both := ForeignKeyVisible(Filter(InScope(one * two), s));
    forall k ensures both(k) <==> ForeignKeyVisible(first)(k) && ForeignKeyVisible(second)(k) {
      VisibleCompose(one, two, s, k.source, k.sourceColumns);
      VisibleCompose(one, two, s, k.target, k.targetColumns);
    }
    SortedFilters(ForeignKeyKey(), ForeignKeyVisible(first), ForeignKeyVisible(second), both, keys);
  }

  /** Authorizing by one scope and then another is authorizing once by what they share. */
  lemma {:induction false} AuthorizeComposes(one: set<Pair>, two: set<Pair>, s: Snapshot)
    ensures Authorize(two, Authorize(one, s)) == Authorize(one * two, s)
  {
    TablesCompose(one, two, s.parts.tables);
    KeysCompose(one, two, s.parts.tables, s.parts.primaryKeys);
    ForeignKeysCompose(one, two, s.parts.tables, s.parts.foreignKeys);
    KeysCompose(one, two, s.parts.tables, s.parts.uniqueConstraints);
    KeysCompose(one, two, s.parts.tables, s.parts.uniqueIndexes);
  }

  /** Building again from what was built changes nothing. */
  lemma {:induction false} SnapshotIsCanonical(p: Parts)
    ensures BuildSnapshot(BuildSnapshot(p).parts) == BuildSnapshot(p)
  {
    TablesTwice(p.tables);
    SortTwice(KeyKey(), p.primaryKeys);
    SortTwice(ForeignKeyKey(), p.foreignKeys);
    SortTwice(KeyKey(), p.uniqueConstraints);
    SortTwice(KeyKey(), p.uniqueIndexes);
  }

  // What a snapshot holds, and in which order

  /** The same table with its columns by position. */
  predicate Tidied(t: Table, u: Table) {
    && u.name == t.name && u.data == t.data && multiset(u.columns) == multiset(t.columns)
    && forall i, j | 0 <= i < j < |u.columns| :: u.columns[i].ordinal <= u.columns[j].ordinal
  }

  predicate Precedes(a: seq<Name>, b: seq<Name>) {
    a == b || KeyLess(a, b)
  }

  predicate TablesInOrder(tables: seq<Table>) {
    forall i, j | 0 <= i < j < |tables| ::
      Precedes([tables[i].name.schema, tables[i].name.table], [tables[j].name.schema, tables[j].name.table])
  }

  predicate KeysInOrder(keys: seq<Key>) {
    forall i, j | 0 <= i < j < |keys| ::
      Precedes([keys[i].table.schema, keys[i].table.table, keys[i].name],
               [keys[j].table.schema, keys[j].table.table, keys[j].name])
  }

  predicate ForeignKeysInOrder(keys: seq<ForeignKey>) {
    forall i, j | 0 <= i < j < |keys| ::
      Precedes([keys[i].source.schema, keys[i].source.table, keys[i].name, keys[i].target.schema, keys[i].target.table],
               [keys[j].source.schema, keys[j].source.table, keys[j].name, keys[j].target.schema, keys[j].target.table])
  }

  lemma {:induction false} TidiedColumns(t: Table)
    ensures Tidied(t, CanonicalTable(t))
  {
    var u := CanonicalTable(t);
    ByKeyIsTotal(ColumnKey());
    SortOrdered(ByKey(ColumnKey()), t.columns);
    SortPermutes(ByKey(ColumnKey()), t.columns);
    forall i, j | 0 <= i < j < |u.columns| ensures u.columns[i].ordinal <= u.columns[j].ordinal {
      assert ByKey(ColumnKey())(u.columns[i], u.columns[j]);
    }
  }

  lemma {:induction false} TidiedTables(s: seq<Table>)
    ensures |CanonicalTables(s)| == |s| && forall i | 0 <= i < |s| :: Tidied(s[i], CanonicalTables(s)[i])
  {
    if s != [] {
      TidiedColumns(s[0]);
      TidiedTables(s[1..]);
    }
  }

  /** The tables are the ones given, each with its columns by position, by schema and name. */
  lemma {:induction false} SnapshotTables(p: Parts) returns (ordered: seq<Table>)
    ensures
      var tables := BuildSnapshot(p).parts.tables;
      && multiset(ordered) == multiset(p.tables) && |tables| == |ordered| && TablesInOrder(tables)
      && forall i | 0 <= i < |tables| :: Tidied(ordered[i], tables[i])
  {
    var leq := ByKey(TableKey());
    ordered := Sort(leq, p.tables);
    ByKeyIsTotal(TableKey());
    SortOrdered(leq, p.tables);
    SortPermutes(leq, p.tables);
    TidiedTables(ordered);
    forall i, j | 0 <= i < j < |ordered|
      ensures Precedes([ordered[i].name.schema, ordered[i].name.table], [ordered[j].name.schema, ordered[j].name.table])
    {
      assert leq(ordered[i], ordered[j]);
    }
  }

  lemma {:induction false} SortedKeys(keys: seq<Key>)
    ensures var sorted := Sort(ByKey(KeyKey()), keys); multiset(sorted) == multiset(keys) && KeysInOrder(sorted)
  {
    var leq := ByKey(KeyKey());
    var sorted := Sort(leq, keys);
    ByKeyIsTotal(KeyKey());
    SortOrdered(leq, keys);
    SortPermutes(leq, keys);
    forall i, j | 0 <= i < j < |sorted| ensures leq(sorted[i], sorted[j]) {
    }
  }

  /** The keys of each list are the ones given, by schema, table and name. */
  lemma {:induction false} SnapshotKeys(p: Parts)
    ensures
      var q := BuildSnapshot(p).parts;
      && multiset(q.primaryKeys) == multiset(p.primaryKeys) && KeysInOrder(q.primaryKeys)
      && multiset(q.uniqueConstraints) == multiset(p.uniqueConstraints) && KeysInOrder(q.uniqueConstraints)
      && multiset(q.uniqueIndexes) == multiset(p.uniqueIndexes) && KeysInOrder(q.uniqueIndexes)
      && multiset(q.foreignKeys) == multiset(p.foreignKeys) && ForeignKeysInOrder(q.foreignKeys)
  {
    SortedKeys(p.primaryKeys);
    SortedKeys(p.uniqueConstraints);
    SortedKeys(p.uniqueIndexes);
    var leq := ByKey(ForeignKeyKey());
    ByKeyIsTotal(ForeignKeyKey());
    SortOrdered(leq, p.foreignKeys);
    SortPermutes(leq, p.foreignKeys);
    var sorted := Sort(leq, p.foreignKeys);
    forall i, j | 0 <= i < j < |sorted| ensures leq(sorted[i], sorted[j]) {
    }
  }

  lemma {:induction false} SchemaNamesTell(s: seq<Table>)
    ensures NoRepeats(SchemaNames(s))
    ensures forall n :: n in SchemaNames(s) <==> exists i :: 0 <= i < |s| && s[i].name.schema == n
  {
    if s != [] {
      SchemaNamesTell(s[..|s| - 1]);
      forall n ensures n in SchemaNames(s) <==> exists i :: 0 <= i < |s| && s[i].name.schema == n {
        if n in SchemaNames(s[..|s| - 1]) {
          var i :| 0 <= i < |s[..|s| - 1]| && s[..|s| - 1][i].name.schema == n;
          assert s[i].name.schema == n;
        }
        if i :| 0 <= i < |s| && s[i].name.schema == n {
          assert i < |s| - 1 ==> s[..|s| - 1][i].name.schema == n;
        }
      }
    }
  }

  /** The schemas are those of the tables, each once, in increasing order. */
  lemma {:induction false} SnapshotSchemas(p: Parts)
    ensures
      var r := BuildSnapshot(p);
      && (forall i, j | 0 <= i < j < |r.schemas| :: KeyLess([r.schemas[i]], [r.schemas[j]]))
      && (forall n :: n in r.schemas <==>
            exists i :: 0 <= i < |r.parts.tables| && r.parts.tables[i].name.schema == n)
  {
    var leq, r := ByKey(NameKey()), BuildSnapshot(p);
    var names := SchemaNames(r.parts.tables);
    SchemaNamesTell(r.parts.tables);
    ByKeyIsTotal(NameKey());
    SortOrdered(leq, names);
    SortMembers(leq, names);
    SortPermutes(leq, names);
    RearrangedNoRepeats(names, r.schemas);
    forall i, j | 0 <= i < j < |r.schemas| ensures KeyLess([r.schemas[i]], [r.schemas[j]]) {
      assert leq(r.schemas[i], r.schemas[j]) && r.schemas[i] != r.schemas[j];
      assert [r.schemas[i]][0] != [r.schemas[j]][0];
    }
  }

  /** The tables in scope are kept, each with all its columns, and no others. */
  lemma {:induction false} KeptTables(pairs: set<Pair>, s: Snapshot) returns (kept: seq<Table>)
    ensures forall t :: multiset(kept)[t] == if t.name in pairs then multiset(s.parts.tables)[t] else 0
    ensures
      var tables := Authorize(pairs, s).parts.tables;
      |tables| == |kept| && TablesInOrder(tables) && forall i | 0 <= i < |tables| :: Tidied(kept[i], tables[i])
  {
    kept := SnapshotTables(Restrict(pairs, s.parts));
    forall t ensures multiset(kept)[t] == if t.name in pairs then multiset(s.parts.tables)[t] else 0 {
      FilterCounts(InScope(pairs), s.parts.tables, t);
    }
  }

  // Keys and visible columns

  datatype KeyList = PrimaryKeys | UniqueConstraints | UniqueIndexes

  function KeysIn(p: Parts, which: KeyList): seq<Key> {
    match which
    case PrimaryKeys => p.primaryKeys
    case UniqueConstraints => p.uniqueConstraints
    case UniqueIndexes => p.uniqueIndexes
  }

  /**
   * In each of its lists a key is kept, as often as it was there, exactly when all its columns are visible, and
   * then they are columns of a kept table.
   */
  lemma {:induction false} KeptKeysAreVisible(pairs: set<Pair>, s: Snapshot, which: KeyList, k: Key)
    ensures multiset(KeysIn(Authorize(pairs, s).parts, which))[k] ==
            if k.table in pairs && ColumnsVisible(s.parts.tables, k.table, k.columns)
            then multiset(KeysIn(s.parts, which))[k] else 0
    ensures k in KeysIn(Authorize(pairs, s).parts, which) ==>
      ColumnsVisible(Authorize(pairs, s).parts.tables, k.table, k.columns)
  {
    var tables := Filter(InScope(pairs), s.parts.tables);
    SortPermutes(ByKey(KeyKey()), Filter(KeyVisible(tables), KeysIn(s.parts, which)));
    FilterCounts(KeyVisible(tables), KeysIn(s.parts, which), k);
    VisibleScoped(pairs, s.parts.tables, k.table, k.columns);
    VisibleCanonical(tables, k.table, k.columns);
    var kept := KeysIn(Authorize(pairs, s).parts, which);
    assert k in kept <==> k in multiset(kept);
  }

  lemma {:induction false} KeptForeignKeysAreVisible(pairs: set<Pair>, s: Snapshot, k: ForeignKey)
    ensures multiset(Authorize(pairs, s).parts.foreignKeys)[k] ==
            if && k.source in pairs && k.target in pairs
               && ColumnsVisible(s.parts.tables, k.source, k.sourceColumns)
               && ColumnsVisible(s.parts.tables, k.target, k.targetColumns)
            then multiset(s.parts.foreignKeys)[k] else 0
    ensures k in Authorize(pairs, s).parts.foreignKeys ==>
              ColumnsVisible(Authorize(pairs, s).parts.tables, k.source, k.sourceColumns)
              && ColumnsVisible(Authorize(pairs, s).parts.tables, k.target, k.targetColumns)
  {
    var tables := Filter(InScope(pairs), s.parts.tables);
    SortPermutes(ByKey(ForeignKeyKey()), Filter(ForeignKeyVisible(tables), s.parts.foreignKeys));
    FilterCounts(ForeignKeyVisible(tables), s.parts.foreignKeys, k);
    VisibleScoped(pairs, s.parts.tables, k.source, k.sourceColumns);
    VisibleScoped(pairs, s.parts.tables, k.target, k.targetColumns);
    VisibleCanonical(tables, k.source, k.sourceColumns);
    VisibleCanonical(tables, k.target, k.targetColumns);
    var kept := Authorize(pairs, s).parts.foreignKeys;
    assert k in kept <==> k in multiset(kept);
  }

  /** The entry of a table that decides which columns it has. */
  predicate IsLast(tables: seq<Table>, i: int, name: Pair) {
    0 <= i < |tables| && tables[i].name == name && forall j | i < j < |tables| :: tables[j].name != name
  }

  /** Columns are visible exactly when the last entry of the table has them all. */
  lemma {:induction false} VisibleTells(tables: seq<Table>, i: int, name: Pair, columns: seq<Name>)
    requires IsLast(tables, i, name)
    ensures ColumnsVisible(tables, name, columns) <==>
      forall k | 0 <= k < |columns| :: HasColumn(tables[i].columns, columns[k])
  {
    if i < |tables| - 1 {
      VisibleTells(tables[..|tables| - 1], i, name, columns);
    }
  }

  lemma {:induction false} NotVisible(tables: seq<Table>, name: Pair, columns: seq<Name>)
    requires forall j | 0 <= j < |tables| :: tables[j].name != name
    ensures !ColumnsVisible(tables, name, columns)
  {
    if tables != [] {
      NotVisible(tables[..|tables| - 1], name, columns);
    }
  }
}
