/** Metadata scopes, canonical schema snapshots,
    and the restriction of one to the other. */
module Authorization {
  import opened Ids
  import opened Orders
  import opened Sorting
  import opened Texts
  import opened Wrappers

  type Name = Text

  // Keys that are tuples of names, in Python's order

  predicate KeyLess(a: seq<Name>, b: seq<Name>) {
    b != [] && (a == [] || if a[0] == b[0] then KeyLess(a[1..], b[1..]) else LexLess(a[0], b[0]))
  }

  predicate KeyLeq(a: seq<Name>, b: seq<Name>) {
    a == b || KeyLess(a, b)
  }

  lemma {:induction false} KeyTransitive(a: seq<Name>, b: seq<Name>, c: seq<Name>)
    requires KeyLess(a, b) && KeyLess(b, c)
    ensures KeyLess(a, c)
  {
    if a != [] {
      if a[0] == b[0] == c[0] {
        KeyTransitive(a[1..], b[1..], c[1..]);
      } else if a[0] != b[0] && b[0] != c[0] {
        LexTransitive(a[0], b[0], c[0]);
        LexIrreflexive(a[0]);
      }
    }
  }

  lemma {:induction false} KeyTotal(a: seq<Name>, b: seq<Name>)
    ensures KeyLess(a, b) || a == b || KeyLess(b, a)
  {
    if a != [] && b != [] {
      LexTotal(a[0], b[0]);
      if a[0] == b[0] {
        KeyTotal(a[1..], b[1..]);
        assert a == [a[0]] + a[1..] && b == [b[0]] + b[1..];
      }
    }
  }

  /** The first different component decides, and a proper prefix comes first. */
  lemma {:induction false} KeyTells(prefix: seq<Name>, x: Name, y: Name, a: seq<Name>, b: seq<Name>)
    requires LexLess(x, y)
    ensures KeyLess(prefix + [x] + a, prefix + [y] + b) && KeyLess(prefix, prefix + [x] + a)
  {
    if prefix == [] {
      LexIrreflexive(x);
      assert prefix + [x] + a == [x] + a && prefix + [y] + b == [y] + b;
    } else {
      KeyTells(prefix[1..], x, y, a, b);
      assert (prefix + [x] + a)[1..] == prefix[1..] + [x] + a && (prefix + [y] + b)[1..] == prefix[1..] + [y] + b;
    }
  }

  function ByKey<T>(key: T -> seq<Name>): (T, T) -> bool {
    (x, y) => KeyLeq(key(x), key(y))
  }

  lemma {:induction false} ByKeyIsTotal<T(!new)>(key: T -> seq<Name>)
    ensures TotalPreorder(ByKey(key))
  {
    forall x, y ensures ByKey(key)(x, y) || ByKey(key)(y, x) {
      KeyTotal(key(x), key(y));
    }
    forall x, y, z ensures Chains(ByKey(key), x, y, z) {
      if KeyLess(key(x), key(y)) && KeyLess(key(y), key(z)) {
        KeyTransitive(key(x), key(y), key(z));
      }
    }
  }

  // Scopes

  const DOT := 46

  function FirstDot(s: Name): (r: int)
    ensures 0 <= r <= |s| && (r < |s| ==> s[r] == DOT)
    ensures forall i | 0 <= i < r :: s[i] != DOT
  {
    if s == [] || s[0] == DOT then 0 else 1 + FirstDot(s[1..])
  }

  lemma {:induction false} FirstDotIs(before: Name, after: Name)
    requires DOT !in before
    ensures FirstDot(before + [DOT] + after) == |before|
  {
    if before != [] {
      assert (before + [DOT] + after)[1..] == before[1..] + [DOT] + after;
      FirstDotIs(before[1..], after);
    }
  }

  datatype Pair = Pair(schema: Name, table: Name)

  datatype Scope = Scope(schemas: seq<Name>, pairs: seq<Pair>)

  datatype ScopeError = EmptyIdentifier | Unqualified

  function PairKey(): Pair -> seq<Name> {
    (p: Pair) => [p.schema, p.table]
  }

  function NameKey(): Name -> seq<Name> {
    (n: Name) => [n]
  }

  /** One entry of the allowed tables: its schema and table, split at the first dot. */
  function Parse(text: Name): Result<Pair, ScopeError> {
    if Blank(text) then Err(EmptyIdentifier)
    else if DOT !in text then Err(Unqualified)
    else
      var dot := FirstDot(text);
      if dot == |text| then Err(Unqualified)
      else if Blank(text[..dot]) || Blank(text[dot + 1..]) then Err(EmptyIdentifier)
      else Ok(Pair(text[..dot], text[dot + 1..]))
  }

  /** What parses is a schema without dots, a dot and a table, both not blank; and why anything else does not. */
  lemma {:induction false} ParseTells(text: Name)
    ensures
      match Parse(text)
      case Ok(p) => text == p.schema + [DOT] + p.table && DOT !in p.schema && !Blank(p.schema) && !Blank(p.table)
      case Err(Unqualified) => !Blank(text) && DOT !in text
      case Err(EmptyIdentifier) =>
        Blank(text) || (DOT in text && (Blank(text[..FirstDot(text)]) || Blank(text[FirstDot(text)..][1..])))
  {
    var dot := FirstDot(text);
    if DOT in text {
      assert dot < |text|;
      assert text == text[..dot] + [DOT] + text[dot + 1..] && text[dot..][1..] == text[dot + 1..];
    }
  }

  /** The qualified name, and back: the table part may hold further dots, the schema part none. */
  lemma {:induction false} ParseRoundTrip(p: Pair)
    requires !Blank(p.schema) && !Blank(p.table) && DOT !in p.schema
    ensures Parse(p.schema + [DOT] + p.table) == Ok(p)
  {
    var text := p.schema + [DOT] + p.table;
    var i :| 0 <= i < |p.schema| && !IsSpace(p.schema[i]);
    assert text[i] == p.schema[i] && text[|p.schema|] == DOT;
    FirstDotIs(p.schema, p.table);
    assert text[..|p.schema|] == p.schema && text[|p.schema| + 1..] == p.table;
  }

  /** Adds x unless it is there. */
  function With<T(==)>(s: seq<T>, x: T): seq<T> {
    if x in s then s else s + [x]
  }

  ghost predicate IsScope(schemas: seq<Name>, tables: seq<Name>, scope: Scope) {
    && NoRepeats(scope.schemas) && Ordered(ByKey(NameKey()), scope.schemas)
    && (forall n :: n in scope.schemas <==> n in schemas)
    && NoRepeats(scope.pairs) && Ordered(ByKey(PairKey()), scope.pairs)
    && (forall p :: p in scope.pairs <==>
          p.schema in schemas && exists i :: 0 <= i < |tables| && Parse(tables[i]) == Ok(p))
  }

  method SortedDistinct<T(==, !new)>(s: seq<T>, key: T -> seq<Name>) returns (r: seq<T>)
    ensures NoRepeats(r) && Ordered(ByKey(key), r) && forall x :: x in r <==> x in s
  {
    var distinct: seq<T> := [];
    for i := 0 to |s|
      invariant NoRepeats(distinct) && forall x :: x in distinct <==> x in s[..i]
    {
      distinct := With(distinct, s[i]);
      assert s[..i + 1] == s[..i] + [s[i]];
    }
    assert s[..|s|] == s;
    r := Sort(ByKey(key), distinct);
    ByKeyIsTotal(key);
    SortOrdered(ByKey(key), distinct);
    SortMembers(ByKey(key), distinct);
    SortPermutes(ByKey(key), distinct);
    RearrangedNoRepeats(distinct, r);
  }

  ghost predicate HasBlank(schemas: seq<Name>) {
    exists i :: 0 <= i < |schemas| && Blank(schemas[i])
  }

  predicate FirstToFail(tables: seq<Name>, i: int) {
    0 <= i < |tables| && Parse(tables[i]).Err? && forall j | 0 <= j < i :: Parse(tables[j]).Ok?
  }

  /** No error, or the one that decides. With no schema the tables are not looked at. */
  ghost predicate Fails(schemas: seq<Name>, tables: seq<Name>, error: ScopeError) {
    if HasBlank(schemas) then error == EmptyIdentifier
    else schemas != [] && exists i :: FirstToFail(tables, i) && Parse(tables[i]) == Err(error)
  }

  ghost predicate Normalizes(schemas: seq<Name>, tables: seq<Name>) {
    forall error :: !Fails(schemas, tables, error)
  }

  /** The documented errors: an empty identifier, or a table that is not qualified. */
  ghost predicate DocumentedError(schemas: seq<Name>, tables: seq<Name>) {
    HasBlank(schemas) || exists i :: 0 <= i < |tables| && Parse(tables[i]).Err?
  }

  lemma {:induction false} SomeFirst(tables: seq<Name>, i: int) returns (j: int)
    requires 0 <= i < |tables| && Parse(tables[i]).Err?
    ensures FirstToFail(tables, j)
  {
    j := i;
    if k :| 0 <= k < i && Parse(tables[k]).Err? {
      j := SomeFirst(tables, k);
    }
  }

  lemma {:induction false} NormalizesExactly(schemas: seq<Name>, tables: seq<Name>)
    ensures Normalizes(schemas, tables) <==>
      !HasBlank(schemas) && (schemas == [] || forall i | 0 <= i < |tables| :: Parse(tables[i]).Ok?)
  {
    if HasBlank(schemas) {
      assert Fails(schemas, tables, EmptyIdentifier);
    } else if schemas != [] {
      if i :| 0 <= i < |tables| && Parse(tables[i]).Err? {
        var j := SomeFirst(tables, i);
        assert Fails(schemas, tables, Parse(tables[j]).error);
      }
    }
  }

  /** The documented errors are the ones raised, whatever the tables, exactly when some schema is allowed. */
  lemma {:induction false} ErrorsAreAsDocumented(schemas: seq<Name>)
    ensures (forall tables :: Normalizes(schemas, tables) <==> !DocumentedError(schemas, tables)) <==> schemas != []
  {
    if schemas == [] {
      var unqualified := [[DOT + 1]];
      NormalizesExactly(schemas, unqualified);
      assert unqualified[0][0] == DOT + 1 && DOT !in unqualified[0];
      assert !Blank(unqualified[0]) by {
        assert !IsSpace(unqualified[0][0]);
      }
      assert Parse(unqualified[0]) == Err(Unqualified);
      assert Normalizes(schemas, unqualified) && DocumentedError(schemas, unqualified);
    } else {
      forall tables ensures Normalizes(schemas, tables) <==> !DocumentedError(schemas, tables) {
        NormalizesExactly(schemas, tables);
      }
    }
  }

  /**
   * A blank schema fails first. With no schema allowed the tables are not looked at; otherwise the first entry
   * that does not parse decides the error.
   */
  method NormalizeMetadataScope(schemas: seq<Name>, tables: seq<Name>) returns (r: Result<Scope, ScopeError>)
    ensures r.Ok? <==> Normalizes(schemas, tables)
    ensures r.Err? ==> Fails(schemas, tables, r.error)
    ensures r.Ok? ==> IsScope(schemas, tables, r.value)
  {
    NormalizesExactly(schemas, tables);
    for i := 0 to |schemas|
      invariant forall j | 0 <= j < i :: !Blank(schemas[j])
    {
      if Blank(schemas[i]) {
        return Err(EmptyIdentifier);
      }
    }
    var sorted := SortedDistinct(schemas, NameKey());
    if schemas == [] || tables == [] {
      return Ok(Scope(sorted, []));
    }
    var pairs := PairsWithin(sorted, tables);
    if pairs.Err? {
      return Err(pairs.error);
    }
    var sortedPairs := SortedDistinct(pairs.value, PairKey());
    r := Ok(Scope(sorted, sortedPairs));
  }

  /** Those of the tables whose schema is among these; the first that does not parse ends it. */
  method PairsWithin(schemas: seq<Name>, tables: seq<Name>) returns (r: Result<seq<Pair>, ScopeError>)
    ensures r.Ok? <==> forall i | 0 <= i < |tables| :: Parse(tables[i]).Ok?
    ensures r.Err? ==> exists i :: FirstToFail(tables, i) && Parse(tables[i]) == Err(r.error)
    ensures r.Ok? ==> forall p :: p in r.value <==>
              p.schema in schemas && exists j :: 0 <= j < |tables| && Parse(tables[j]) == Ok(p)
  {
    var pairs: seq<Pair> := [];
    for i := 0 to |tables|
      invariant forall j | 0 <= j < i :: Parse(tables[j]).Ok?
      invariant forall p :: p in pairs <==> p.schema in schemas && exists j :: 0 <= j < i && Parse(tables[j]) == Ok(p)
    {
      var parsed := Parse(tables[i]);
      if parsed.Err? {
        assert FirstToFail(tables, i);
        return Err(parsed.error);
      }
      if parsed.value.schema in schemas {
        pairs := pairs + [parsed.value];
      }
    }
    r := Ok(pairs);
  }

  // Snapshots

  datatype Column = Column(name: Name, ordinal: int, data: int)

  datatype Table = Table(name: Pair, data: int, columns: seq<Column>)

  /** Primary key, unique constraint or unique index. */
  datatype Key = Key(table: Pair, name: Name, columns: seq<Name>, data: int)

  datatype ForeignKey = ForeignKey(
    name: Name, source: Pair, sourceColumns: seq<Name>, target: Pair, targetColumns: seq<Name>)

  datatype Parts = Parts(tables: seq<Table>, primaryKeys: seq<Key>, foreignKeys: seq<ForeignKey>,
                         uniqueConstraints: seq<Key>, uniqueIndexes: seq<Key>)

  /** The version is a digest of the other fields and is left out. */
  datatype Snapshot = Snapshot(schemas: seq<Name>, parts: Parts)

  function ColumnKey(): Column -> seq<Name> {
    (c: Column) => [[c.ordinal]]
  }

  function TableKey(): Table -> seq<Name> {
    (t: Table) => [t.name.schema, t.name.table]
  }

  function KeyKey(): Key -> seq<Name> {
    (k: Key) => [k.table.schema, k.table.table, k.name]
  }

  function ForeignKeyKey(): ForeignKey -> seq<Name> {
    (k: ForeignKey) => [k.source.schema, k.source.table, k.name, k.target.schema, k.target.table]
  }

  function CanonicalTable(t: Table): Table {
    t.(columns := Sort(ByKey(ColumnKey()), t.columns))
  }

  function CanonicalTables(s: seq<Table>): seq<Table> {
    if s == [] then [] else [CanonicalTable(s[0])] + CanonicalTables(s[1..])
  }

  function SchemaNames(s: seq<Table>): seq<Name> {
    if s == [] then [] else With(SchemaNames(s[..|s| - 1]), s[|s| - 1].name.schema)
  }

  function BuildSnapshot(p: Parts): Snapshot {
    var tables := CanonicalTables(Sort(ByKey(TableKey()), p.tables));
    Snapshot(
      Sort(ByKey(NameKey()), SchemaNames(tables)),
      Parts(tables, Sort(ByKey(KeyKey()), p.primaryKeys), Sort(ByKey(ForeignKeyKey()), p.foreignKeys),
            Sort(ByKey(KeyKey()), p.uniqueConstraints), Sort(ByKey(KeyKey()), p.uniqueIndexes)))
  }

  // Restriction to a scope

  /** The columns of a table: those of its last entry, as in a dictionary filled in order. */
  function ColumnsOf(tables: seq<Table>, name: Pair): Option<seq<Column>> {
    if tables == [] then None
    else if tables[|tables| - 1].name == name then Some(tables[|tables| - 1].columns)
    else ColumnsOf(tables[..|tables| - 1], name)
  }

  predicate HasColumn(columns: seq<Column>, name: Name) {
    exists i :: 0 <= i < |columns| && columns[i].name == name
  }

  predicate ColumnsVisible(tables: seq<Table>, name: Pair, columns: seq<Name>) {
    var found := ColumnsOf(tables, name);
    found.Some? && forall i | 0 <= i < |columns| :: HasColumn(found.value, columns[i])
  }

  function InScope(pairs: set<Pair>): Table -> bool {
    (t: Table) => t.name in pairs
  }

  function KeyVisible(tables: seq<Table>): Key -> bool {
    (k: Key) => ColumnsVisible(tables, k.table, k.columns)
  }

  function ForeignKeyVisible(tables: seq<Table>): ForeignKey -> bool {
    (k: ForeignKey) =>
      ColumnsVisible(tables, k.source, k.sourceColumns) && ColumnsVisible(tables, k.target, k.targetColumns)
  }

  /** What is left of the parts when only these tables may be seen. */
  function Restrict(pairs: set<Pair>, p: Parts): Parts {
    var tables := Filter(InScope(pairs), p.tables);
    Parts(tables, Filter(KeyVisible(tables), p.primaryKeys), Filter(ForeignKeyVisible(tables), p.foreignKeys),
          Filter(KeyVisible(tables), p.uniqueConstraints), Filter(KeyVisible(tables), p.uniqueIndexes))
  }

  function Authorize(pairs: set<Pair>, s: Snapshot): Snapshot {
    BuildSnapshot(Restrict(pairs, s.parts))
  }

  /** Every error of the scope is reported as the same one. */
  datatype AuthorizationError = ContextInvalid

  method AuthorizeSchemaSnapshot(schemas: seq<Name>, tables: seq<Name>, s: Snapshot)
      returns (r: Result<Snapshot, AuthorizationError>, ghost scope: Scope)
    ensures r.Ok? <==> Normalizes(schemas, tables)
    ensures r.Ok? ==> IsScope(schemas, tables, scope) && r.value == Authorize((set p | p in scope.pairs), s)
  {
    var normalized := NormalizeMetadataScope(schemas, tables);
    match normalized {
      case Err(_) => scope, r := Scope([], []), Err(ContextInvalid);
      case Ok(found) => scope, r := found, Ok(Authorize((set p | p in found.pairs), s));
    }
  }
}
