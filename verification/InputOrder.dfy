/** Exactly when the order in which metadata arrives does not matter. */
module InputOrder {
  import opened Authorization
  import opened AuthorizationLaws
  import opened Sorting

  // Where the order does not matter

  ghost predicate UniqueKeys<T(!new)>(key: T -> seq<Name>, s: seq<T>) {
    forall x, y | x in s && y in s && key(x) == key(y) :: x == y
  }

  ghost predicate KeysRearranged(a: Parts, b: Parts) {
    && multiset(a.primaryKeys) == multiset(b.primaryKeys) && multiset(a.foreignKeys) == multiset(b.foreignKeys)
    && multiset(a.uniqueConstraints) == multiset(b.uniqueConstraints)
    && multiset(a.uniqueIndexes) == multiset(b.uniqueIndexes)
  }

  /** t with its columns in another order. */
  predicate IsTwin(t: Table, u: Table) {
    t.name == u.name && t.data == u.data && multiset(t.columns) == multiset(u.columns)
  }

  /** The same tables one by one, with their columns in any order. */
  ghost predicate Twins(a: seq<Table>, b: seq<Table>) {
    |a| == |b| && forall i | 0 <= i < |a| :: IsTwin(a[i], b[i])
  }

  /** Tables in any order, the columns of each table in any order. */
  ghost predicate TablesRearranged(a: seq<Table>, b: seq<Table>) {
    exists c :: multiset(c) == multiset(a) && Twins(c, b)
  }

  ghost predicate PartsRearranged(a: Parts, b: Parts) {
    TablesRearranged(a.tables, b.tables) && KeysRearranged(a, b)
  }

  ghost predicate KeysUnique(p: Parts) {
    && UniqueKeys(KeyKey(), p.primaryKeys) && UniqueKeys(ForeignKeyKey(), p.foreignKeys)
    && UniqueKeys(KeyKey(), p.uniqueConstraints) && UniqueKeys(KeyKey(), p.uniqueIndexes)
  }

  /** No two different columns of a table share their position, and tables of one name are the same. */
  ghost predicate TablesUnique(s: seq<Table>) {
    (forall t | t in s :: UniqueKeys(ColumnKey(), t.columns)) && UniqueKeys(TableKey(), CanonicalTables(s))
  }

  lemma {:induction false} KeyIrreflexive(a: seq<Name>)
    ensures !KeyLess(a, a)
  {
    if a != [] {
      KeyIrreflexive(a[1..]);
    }
  }

  lemma {:induction false} SameSort<T(!new)>(key: T -> seq<Name>, a: seq<T>, b: seq<T>)
    requires multiset(a) == multiset(b) && UniqueKeys(key, a)
    ensures Sort(ByKey(key), a) == Sort(ByKey(key), b)
  {
    ByKeyIsTotal(key);
    SortOrdered(ByKey(key), a);
    SortOrdered(ByKey(key), b);
    SortPermutes(ByKey(key), a);
    SortPermutes(ByKey(key), b);
    SortMembers(ByKey(key), a);
    forall x, y | x in Sort(ByKey(key), a) && y in Sort(ByKey(key), a) && ByKey(key)(x, y) && ByKey(key)(y, x)
      ensures x == y
    {
      if key(x) != key(y) {
        KeyTransitive(key(x), key(y), key(x));
        KeyIrreflexive(key(x));
      }
    }
    OrderedUnique(ByKey(key), Sort(ByKey(key), a), Sort(ByKey(key), b));
  }

  lemma {:induction false} FilterCounts<T(!new)>(p: T -> bool, s: seq<T>, x: T)
    ensures multiset(Filter(p, s))[x] == if p(x) then multiset(s)[x] else 0
  {
    if s != [] {
      FilterCounts(p, s[1..], x);
      assert s == [s[0]] + s[1..];
    }
  }

  lemma {:induction false} FilterRearranged<T(!new)>(p: T -> bool, q: T -> bool, a: seq<T>, b: seq<T>)
    requires multiset(a) == multiset(b) && forall x :: p(x) <==> q(x)
    ensures multiset(Filter(p, a)) == multiset(Filter(q, b))
  {
    forall x ensures multiset(Filter(p, a))[x] == multiset(Filter(q, b))[x] {
      FilterCounts(p, a, x);
      FilterCounts(q, b, x);
    }
  }

  /** What is kept of a list whose kept entries share no sort key. */
  lemma {:induction false} KeptSame<T(!new)>(key: T -> seq<Name>, p: T -> bool, q: T -> bool, a: seq<T>, b: seq<T>)
    requires multiset(a) == multiset(b) && (forall x :: p(x) <==> q(x)) && UniqueKeys(key, Filter(p, a))
    ensures Sort(ByKey(key), Filter(p, a)) == Sort(ByKey(key), Filter(q, b))
  {
    FilterRearranged(p, q, a, b);
    SameSort(key, Filter(p, a), Filter(q, b));
  }

  lemma {:induction false} TwinsCanonical(a: seq<Table>, b: seq<Table>)
    requires Twins(a, b) && forall t | t in a :: UniqueKeys(ColumnKey(), t.columns)
    ensures CanonicalTables(a) == CanonicalTables(b)
  {
    if a != [] {
      assert a[0] in a;
      SameSort(ColumnKey(), a[0].columns, b[0].columns);
      TwinsCanonical(a[1..], b[1..]);
    }
  }

  lemma {:induction false} FilterTwins(pairs: set<Pair>, a: seq<Table>, b: seq<Table>)
    requires Twins(a, b)
    ensures Twins(Filter(InScope(pairs), a), Filter(InScope(pairs), b))
  {
    if a != [] {
      assert Twins(a[1..], b[1..]);
      FilterTwins(pairs, a[1..], b[1..]);
    }
  }

  lemma {:induction false} CanonicalCounts(s: seq<Table>, x: Table)
    ensures multiset(CanonicalTables(s))[x] == |Filter((t: Table) => CanonicalTable(t) == x, s)|
  {
    if s != [] {
      CanonicalCounts(s[1..], x);
    }
  }

  lemma {:induction false} CanonicalPermutes(a: seq<Table>, b: seq<Table>)
    requires multiset(a) == multiset(b)
    ensures multiset(CanonicalTables(a)) == multiset(CanonicalTables(b))
  {
    forall x ensures multiset(CanonicalTables(a))[x] == multiset(CanonicalTables(b))[x] {
      var p := (t: Table) => CanonicalTable(t) == x;
      CanonicalCounts(a, x);
      CanonicalCounts(b, x);
      FilterRearranged(p, p, a, b);
      SameLength(Filter(p, a), Filter(p, b));
    }
  }

  lemma {:induction false} KeptTablesSame(pairs: set<Pair>, a: seq<Table>, b: seq<Table>)
    requires TablesRearranged(a, b) && TablesUnique(Filter(InScope(pairs), a))
    ensures Tables(Filter(InScope(pairs), a)) == Tables(Filter(InScope(pairs), b))
  {
    var c: seq<Table> :| multiset(c) == multiset(a) && Twins(c, b);
    var x, y, z := Filter(InScope(pairs), a), Filter(InScope(pairs), c), Filter(InScope(pairs), b);
    FilterRearranged(InScope(pairs), InScope(pairs), a, c);
    FilterTwins(pairs, c, b);
    forall t: Table | t in y ensures UniqueKeys(ColumnKey(), t.columns) {
      assert t in multiset(y);
      assert t in x;
    }
    TwinsCanonical(y, z);
    CanonicalPermutes(x, y);
    SameSort(TableKey(), CanonicalTables(x), CanonicalTables(y));
    CanonicalSort(x);
    CanonicalSort(z);
  }

  lemma {:induction false} SameVisible(a: seq<Table>, b: seq<Table>, name: Pair, columns: seq<Name>)
    requires Tables(a) == Tables(b)
    ensures ColumnsVisible(a, name, columns) <==> ColumnsVisible(b, name, columns)
  {
    VisibleCanonical(a, name, columns);
    VisibleCanonical(b, name, columns);
  }

  lemma {:induction false} UniqueIsEnough(pairs: set<Pair>, a: Snapshot, b: Parts)
    requires PartsRearranged(a.parts, b)
    requires KeysUnique(Restrict(pairs, a.parts)) && TablesUnique(Restrict(pairs, a.parts).tables)
    ensures Authorize(pairs, a.(parts := b)) == Authorize(pairs, a)
  {
    var p := a.parts;
    var s, t := Filter(InScope(pairs), p.tables), Filter(InScope(pairs), b.tables);
    KeptTablesSame(pairs, p.tables, b.tables);
    forall k ensures KeyVisible(s)(k) <==> KeyVisible(t)(k) {
      SameVisible(s, t, k.table, k.columns);
    }
    forall k ensures ForeignKeyVisible(s)(k) <==> ForeignKeyVisible(t)(k) {
      SameVisible(s, t, k.source, k.sourceColumns);
      SameVisible(s, t, k.target, k.targetColumns);
    }
    KeptSame(KeyKey(), KeyVisible(s), KeyVisible(t), p.primaryKeys, b.primaryKeys);
    KeptSame(ForeignKeyKey(), ForeignKeyVisible(s), ForeignKeyVisible(t), p.foreignKeys, b.foreignKeys);
    KeptSame(KeyKey(), KeyVisible(s), KeyVisible(t), p.uniqueConstraints, b.uniqueConstraints);
    KeptSame(KeyKey(), KeyVisible(s), KeyVisible(t), p.uniqueIndexes, b.uniqueIndexes);
  }

  // Where the order matters

  function Ties<T>(key: T -> seq<Name>, k: seq<Name>): T -> bool {
    x => key(x) == k
  }

  /** Sorting is stable: entries that share their sort key stay in their order. */
  lemma {:induction false} SortKeepsTies<T(!new)>(key: T -> seq<Name>, k: seq<Name>, s: seq<T>)
    ensures Filter(Ties(key, k), Sort(ByKey(key), s)) == Filter(Ties(key, k), s)
  {
    var same := Filter(Ties(key, k), s);
    ByKeyIsTotal(key);
    FilterSort(ByKey(key), Ties(key, k), s);
    FilterMembers(Ties(key, k), s);
    forall i, j | 0 <= i < j < |same| ensures ByKey(key)(same[i], same[j]) {
      assert same[i] in same && same[j] in same;
    }
    SortOfOrdered(ByKey(key), same);
  }

  lemma {:induction false} FilterFront<T(!new)>(p: T -> bool, x: T, s: seq<T>)
    requires p(x)
    ensures Filter(p, [x] + s) != [] && Filter(p, [x] + s)[0] == x
  {
    FilterCons(p, x, s);
  }

  /** Of two entries with one sort key, the one that arrives first comes first. */
  lemma {:induction false} FirstStaysFirst<T(!new)>(key: T -> seq<Name>, x: T, y: T, rest: seq<T>)
    requires key(x) == key(y) && x != y
    ensures Sort(ByKey(key), [x, y] + rest) != Sort(ByKey(key), [y, x] + rest)
  {
    var p := Ties(key, key(x));
    SortKeepsTies(key, key(x), [x, y] + rest);
    SortKeepsTies(key, key(x), [y, x] + rest);
    assert [x, y] + rest == [x] + ([y] + rest) && [y, x] + rest == [y] + ([x] + rest);
    FilterFront(p, x, [y] + rest);
    FilterFront(p, y, [x] + rest);
  }

  lemma {:induction false} TakeOut<T>(s: seq<T>, x: T) returns (rest: seq<T>)
    requires x in s
    ensures multiset([x] + rest) == multiset(s)
  {
    var i :| 0 <= i < |s| && s[i] == x;
    rest := s[..i] + s[i + 1..];
    assert s == s[..i] + [x] + s[i + 1..];
  }

  /** Two entries in front, in either order, and the others after them. */
  lemma {:induction false} TakeTwo<T>(s: seq<T>, x: T, y: T) returns (rest: seq<T>)
    requires x in s && y in s && x != y
    ensures multiset([x, y] + rest) == multiset(s) && multiset([y, x] + rest) == multiset(s)
  {
    var others := TakeOut(s, x);
    assert y in multiset([x] + others);
    assert y in [x] + others;
    rest := TakeOut(others, y);
    assert [x, y] + rest == [x] + ([y] + rest) && [y, x] + rest == [y] + ([x] + rest);
    assert multiset([y] + rest) == multiset(others);
  }

  ghost predicate ListOrderIsIrrelevant<T(!new)>(key: T -> seq<Name>, p: T -> bool, s: seq<T>) {
    forall t | multiset(t) == multiset(s) :: SameKept(key, p, t, s)
  }

  predicate SameKept<T(==)>(key: T -> seq<Name>, p: T -> bool, s: seq<T>, t: seq<T>) {
    Sort(ByKey(key), Filter(p, s)) == Sort(ByKey(key), Filter(p, t))
  }

  lemma {:induction false} PairShows<T(!new)>(key: T -> seq<Name>, p: T -> bool, x: T, y: T, rest: seq<T>)
    requires p(x) && p(y) && key(x) == key(y) && x != y
    ensures !SameKept(key, p, [x, y] + rest, [y, x] + rest)
  {
    FilterPair(p, x, y, rest);
    FilterPair(p, y, x, rest);
    FirstStaysFirst(key, x, y, Filter(p, rest));
  }

  lemma {:induction false} SharedKeyShows<T(!new)>(key: T -> seq<Name>, p: T -> bool, s: seq<T>, x: T, y: T)
    requires ListOrderIsIrrelevant(key, p, s)
    requires x in s && y in s && p(x) && p(y) && key(x) == key(y)
    ensures x == y
  {
    if x != y {
      var rest := TakeTwo(s, x, y);
      assert SameKept(key, p, [x, y] + rest, s) && SameKept(key, p, [y, x] + rest, s);
      PairShows(key, p, x, y, rest);
    }
  }

  /** The order of a list matters exactly when two different kept entries share a sort key. */
  lemma {:induction false} ListOrderMatters<T(!new)>(key: T -> seq<Name>, p: T -> bool, s: seq<T>)
    ensures ListOrderIsIrrelevant(key, p, s) <==> UniqueKeys(key, Filter(p, s))
  {
    if UniqueKeys(key, Filter(p, s)) {
      forall t | multiset(t) == multiset(s) ensures SameKept(key, p, t, s) {
        KeptSame(key, p, p, s, t);
      }
    }
    if ListOrderIsIrrelevant(key, p, s) {
      FilterMembers(p, s);
      forall x, y | x in Filter(p, s) && y in Filter(p, s) && key(x) == key(y) ensures x == y {
        SharedKeyShows(key, p, s, x, y);
      }
    }
  }

  lemma {:induction false} FilterPair<T(!new)>(p: T -> bool, x: T, y: T, rest: seq<T>)
    requires p(x) && p(y)
    ensures Filter(p, [x, y] + rest) == [x, y] + Filter(p, rest)
  {
    assert [x, y] + rest == [x] + ([y] + rest);
    FilterCons(p, x, [y] + rest);
    FilterCons(p, y, rest);
  }

  lemma {:induction false} FilterNamedCanonical(name: Pair, s: seq<Table>)
    ensures Filter(Named(name), CanonicalTables(s)) == CanonicalTables(Filter(Named(name), s))
  {
    if s != [] {
      FilterNamedCanonical(name, s[1..]);
      FilterCons(Named(name), CanonicalTable(s[0]), CanonicalTables(s[1..]));
      CanonicalCons(s[0], Filter(Named(name), s[1..]));
    }
  }

  /** The first table of a name that arrives is the first of that name in the result. */
  lemma {:induction false} FirstTableStaysFirst(pairs: set<Pair>, t: Table, rest: seq<Table>)
    requires t.name in pairs
    ensures
      var named := Filter(Named(t.name), Tables(Filter(InScope(pairs), [t] + rest)));
      named != [] && named[0] == CanonicalTable(t)
  {
    var kept := Filter(InScope(pairs), rest);
    FilterCons(InScope(pairs), t, rest);
    var l := [t] + kept;
    FilterNamedCanonical(t.name, Sort(ByKey(TableKey()), l));
    SortKeepsTies(TableKey(), TableKey()(t), l);
    TiesAreNames(t, l);
    TiesAreNames(t, Sort(ByKey(TableKey()), l));
    FilterFront(Named(t.name), t, kept);
  }

  lemma {:induction false} FilterSame<T(!new)>(p: T -> bool, q: T -> bool, s: seq<T>)
    requires forall x :: p(x) <==> q(x)
    ensures Filter(p, s) == Filter(q, s)
  {
    if s != [] {
      FilterSame(p, q, s[1..]);
    }
  }

  lemma {:induction false} TiesAreNames(t: Table, s: seq<Table>)
    ensures Filter(Ties(TableKey(), TableKey()(t)), s) == Filter(Named(t.name), s)
  {
    forall u: Table ensures Ties(TableKey(), TableKey()(t))(u) <==> Named(t.name)(u) {
      assert TableKey()(u)[0] == u.name.schema && TableKey()(u)[1] == u.name.table;
    }
    FilterSame(Ties(TableKey(), TableKey()(t)), Named(t.name), s);
  }

  ghost predicate TablesOrderIsIrrelevant(pairs: set<Pair>, s: seq<Table>) {
    forall t | TablesRearranged(s, t) :: Tables(Filter(InScope(pairs), t)) == Tables(Filter(InScope(pairs), s))
  }

  lemma {:induction false} SameNameSameTable(pairs: set<Pair>, s: seq<Table>, t: Table, u: Table)
    requires TablesOrderIsIrrelevant(pairs, s) && t in s && u in s && t.name == u.name && t.name in pairs
    ensures CanonicalTable(t) == CanonicalTable(u)
  {
    if t != u {
      var rest := TakeTwo(s, t, u);
      assert [t, u] + rest == [t] + ([u] + rest) && [u, t] + rest == [u] + ([t] + rest);
      assert Twins([t, u] + rest, [t, u] + rest) && Twins([u, t] + rest, [u, t] + rest);
      assert TablesRearranged(s, [t, u] + rest) && TablesRearranged(s, [u, t] + rest);
      FirstTableStaysFirst(pairs, t, [u] + rest);
      FirstTableStaysFirst(pairs, u, [t] + rest);
    }
  }

  lemma {:induction false} TwinInFront(s: seq<Table>, t: Table, rest: seq<Table>, u: Table)
    requires multiset([t] + rest) == multiset(s) && IsTwin(t, u)
    ensures TablesRearranged(s, [u] + rest)
  {
    var c, b := [t] + rest, [u] + rest;
    forall i | 0 <= i < |c| ensures IsTwin(c[i], b[i]) {
      if i > 0 {
        assert c[i] == rest[i - 1] == b[i];
      }
    }
    assert Twins(c, b);
  }

  lemma {:induction false} TwinsSameCanonical(pairs: set<Pair>, s: seq<Table>, t: Table, u: Table, v: Table)
    requires TablesOrderIsIrrelevant(pairs, s) && t in s && t.name in pairs && IsTwin(t, u) && IsTwin(t, v)
    ensures CanonicalTable(u) == CanonicalTable(v)
  {
    var rest := TakeOut(s, t);
    TwinInFront(s, t, rest, u);
    TwinInFront(s, t, rest, v);
    FirstTableStaysFirst(pairs, u, rest);
    FirstTableStaysFirst(pairs, v, rest);
  }

  lemma {:induction false} SamePositionSameColumn(pairs: set<Pair>, s: seq<Table>, t: Table, x: Column, y: Column)
    requires TablesOrderIsIrrelevant(pairs, s) && t in s && t.name in pairs
    requires x in t.columns && y in t.columns && ColumnKey()(x) == ColumnKey()(y)
    ensures x == y
  {
    if x != y {
      var columns := TakeTwo(t.columns, x, y);
      var one, other := t.(columns := [x, y] + columns), t.(columns := [y, x] + columns);
      TwinsSameCanonical(pairs, s, t, one, other);
      FirstStaysFirst(ColumnKey(), x, y, columns);
    }
  }

  lemma {:induction false} CanonicalMember(s: seq<Table>, x: Table) returns (t: Table)
    requires x in CanonicalTables(s)
    ensures t in s && CanonicalTable(t) == x
  {
    if CanonicalTable(s[0]) == x {
      t := s[0];
    } else {
      t := CanonicalMember(s[1..], x);
    }
  }

  lemma {:induction false} TablesMustBeUnique(pairs: set<Pair>, s: seq<Table>)
    requires TablesOrderIsIrrelevant(pairs, s)
    ensures TablesUnique(Filter(InScope(pairs), s))
  {
    var kept := Filter(InScope(pairs), s);
    FilterMembers(InScope(pairs), s);
    forall t, x, y | t in kept && x in t.columns && y in t.columns && ColumnKey()(x) == ColumnKey()(y)
      ensures x == y
    {
      SamePositionSameColumn(pairs, s, t, x, y);
    }
    forall x, y | x in CanonicalTables(kept) && y in CanonicalTables(kept) && TableKey()(x) == TableKey()(y)
      ensures x == y
    {
      var t := CanonicalMember(kept, x);
      var u := CanonicalMember(kept, y);
      assert TableKey()(x)[0] == t.name.schema && TableKey()(x)[1] == t.name.table;
      assert TableKey()(y)[0] == u.name.schema && TableKey()(y)[1] == u.name.table;
      SameNameSameTable(pairs, s, t, u);
    }
  }

  ghost predicate OrderIsIrrelevant(pairs: set<Pair>, a: Snapshot) {
    forall b | PartsRearranged(a.parts, b) :: Authorize(pairs, a.(parts := b)) == Authorize(pairs, a)
  }

  lemma {:induction false} TablesAlone(pairs: set<Pair>, a: Snapshot)
    requires OrderIsIrrelevant(pairs, a)
    ensures TablesOrderIsIrrelevant(pairs, a.parts.tables)
  {
    forall t | TablesRearranged(a.parts.tables, t)
      ensures Tables(Filter(InScope(pairs), t)) == Tables(Filter(InScope(pairs), a.parts.tables))
    {
      var b := a.parts.(tables := t);
      assert PartsRearranged(a.parts, b);
      assert Authorize(pairs, a.(parts := b)).parts.tables == Authorize(pairs, a).parts.tables;
    }
  }

  lemma {:induction false} KeysMustBeUnique(pairs: set<Pair>, a: Snapshot)
    requires OrderIsIrrelevant(pairs, a)
    ensures KeysUnique(Restrict(pairs, a.parts))
  {
    var p, s := a.parts, Filter(InScope(pairs), a.parts.tables);
    assert Twins(p.tables, p.tables) && TablesRearranged(p.tables, p.tables);
    forall t | multiset(t) == multiset(p.primaryKeys) ensures SameKept(KeyKey(), KeyVisible(s), t, p.primaryKeys) {
      var b := p.(primaryKeys := t);
      assert PartsRearranged(p, b);
      assert Authorize(pairs, a.(parts := b)).parts.primaryKeys == Authorize(pairs, a).parts.primaryKeys;
    }
    ListOrderMatters(KeyKey(), KeyVisible(s), p.primaryKeys);
    forall t | multiset(t) == multiset(p.foreignKeys)
      ensures SameKept(ForeignKeyKey(), ForeignKeyVisible(s), t, p.foreignKeys)
    {
      var b := p.(foreignKeys := t);
      assert PartsRearranged(p, b);
      assert Authorize(pairs, a.(parts := b)).parts.foreignKeys == Authorize(pairs, a).parts.foreignKeys;
    }
    ListOrderMatters(ForeignKeyKey(), ForeignKeyVisible(s), p.foreignKeys);
    ConstraintsMustBeUnique(pairs, a);
  }

  lemma {:induction false} ConstraintsMustBeUnique(pairs: set<Pair>, a: Snapshot)
    requires OrderIsIrrelevant(pairs, a) && TablesRearranged(a.parts.tables, a.parts.tables)
    ensures UniqueKeys(KeyKey(), Restrict(pairs, a.parts).uniqueConstraints)
    ensures UniqueKeys(KeyKey(), Restrict(pairs, a.parts).uniqueIndexes)
  {
    var p, s := a.parts, Filter(InScope(pairs), a.parts.tables);
    forall t | multiset(t) == multiset(p.uniqueConstraints)
      ensures SameKept(KeyKey(), KeyVisible(s), t, p.uniqueConstraints)
    {
      var b := p.(uniqueConstraints := t);
      assert PartsRearranged(p, b);
      assert Authorize(pairs, a.(parts := b)).parts.uniqueConstraints
        == Authorize(pairs, a).parts.uniqueConstraints;
    }
    ListOrderMatters(KeyKey(), KeyVisible(s), p.uniqueConstraints);
    forall t | multiset(t) == multiset(p.uniqueIndexes) ensures SameKept(KeyKey(), KeyVisible(s), t, p.uniqueIndexes) {
      var b := p.(uniqueIndexes := t);
      assert PartsRearranged(p, b);
      assert Authorize(pairs, a.(parts := b)).parts.uniqueIndexes == Authorize(pairs, a).parts.uniqueIndexes;
    }
    ListOrderMatters(KeyKey(), KeyVisible(s), p.uniqueIndexes);
  }

  /**
   * The order in which entries and columns arrive does not matter exactly when no two different kept entries of a
   * list share a sort key, nor two different columns of a kept table their position; tables of one name must be
   * the same table.
   */
  lemma {:induction false} OrderIsIrrelevantExactly(pairs: set<Pair>, a: Snapshot)
    ensures OrderIsIrrelevant(pairs, a)
      <==> KeysUnique(Restrict(pairs, a.parts)) && TablesUnique(Restrict(pairs, a.parts).tables)
  {
    if KeysUnique(Restrict(pairs, a.parts)) && TablesUnique(Restrict(pairs, a.parts).tables) {
      forall b | PartsRearranged(a.parts, b) ensures Authorize(pairs, a.(parts := b)) == Authorize(pairs, a) {
        UniqueIsEnough(pairs, a, b);
      }
    }
    if OrderIsIrrelevant(pairs, a) {
      KeysMustBeUnique(pairs, a);
      TablesAlone(pairs, a);
      TablesMustBeUnique(pairs, a.parts.tables);
    }
  }
}
