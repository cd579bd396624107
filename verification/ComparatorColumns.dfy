/** Columns are compared by their names, wherever they stand. */
module ComparatorColumns {
  import opened Comparator
  import opened ComparatorLaws
  import opened Ids
  import opened Matching

  // ----- Matching columns -----

  /** Distinct names, and every row as wide as the header. */
  predicate WellFormed(lib: Library, r: ExecutionResult) {
    NoRepeats(Names(lib, r.columns)) && forall row | row in r.rows :: |row| == |r.columns|
  }

  /** Predicted column j is the one to compare with gold column i. */
  predicate Twins(lib: Library, predicted: ExecutionResult, gold: ExecutionResult, j: int, i: int) {
    && 0 <= j < |predicted.columns| && 0 <= i < |gold.columns|
    && lib.columnName(predicted.columns[j].name) == lib.columnName(gold.columns[i].name)
  }

  ghost predicate HasTwin(lib: Library, predicted: ExecutionResult, gold: ExecutionResult, i: int) {
    exists j :: Twins(lib, predicted, gold, j, i)
                && TypesMatch(predicted.columns[j].oid, gold.columns[i].oid)
  }

  lemma {:induction false} IndexIs(names: seq<string>, j: nat)
    requires NoRepeats(names) && j < |names|
    ensures IndexOf(names, names[j]) == j
  {
  }

  lemma {:induction false} TwinIs(lib: Library, predicted: ExecutionResult, gold: ExecutionResult, j: nat, i: nat)
    requires NoRepeats(Names(lib, predicted.columns)) && Twins(lib, predicted, gold, j, i)
    ensures
      var p, g := Names(lib, predicted.columns), Names(lib, gold.columns);
      g[i] in p && IndexOf(p, g[i]) == j
  {
    var p, g := Names(lib, predicted.columns), Names(lib, gold.columns);
    assert p[j] == g[i];
    IndexIs(p, j);
  }

  /** The columns match exactly when both results are well formed and the columns come in twins of one type. */
  lemma {:induction false} MatchingColumns(lib: Library, predicted: ExecutionResult, gold: ExecutionResult)
    ensures ColumnsMatch(lib, predicted, gold) <==>
      && WellFormed(lib, predicted) && WellFormed(lib, gold) && |predicted.columns| == |gold.columns|
      && forall i | 0 <= i < |gold.columns| :: HasTwin(lib, predicted, gold, i)
  {
    var p, g := Names(lib, predicted.columns), Names(lib, gold.columns);
    if ColumnsMatch(lib, predicted, gold) {
      forall i | 0 <= i < |g| ensures HasTwin(lib, predicted, gold, i) {
        assert g[i] in g;
        assert Twins(lib, predicted, gold, IndexOf(p, g[i]), i);
      }
    } else if NoRepeats(p) && forall i | 0 <= i < |g| :: HasTwin(lib, predicted, gold, i) {
      forall i | 0 <= i < |g|
        ensures g[i] in p && TypesMatch(predicted.columns[IndexOf(p, g[i])].oid, gold.columns[i].oid)
      {
        assert HasTwin(lib, predicted, gold, i);
        var j :| Twins(lib, predicted, gold, j, i) && TypesMatch(predicted.columns[j].oid, gold.columns[i].oid);
        TwinIs(lib, predicted, gold, j, i);
      }
    }
  }

  /** An aligned row holds, at each gold column, the predicted value of the column of the same name. */
  lemma {:induction false} AlignedByName(lib: Library, predicted: ExecutionResult, gold: ExecutionResult, r: nat,
                                         j: nat, i: nat)
    requires ColumnsMatch(lib, predicted, gold) && r < |predicted.rows| && Twins(lib, predicted, gold, j, i)
    ensures
      var row := AlignedRows(lib, predicted, gold)[r];
      |row| == |gold.columns| && |predicted.rows[r]| == |predicted.columns| && row[i] == predicted.rows[r][j]
  {
    assert predicted.rows[r] in predicted.rows;
    TwinIs(lib, predicted, gold, j, i);
  }

  /** The values of the twin columns j and i are equal, under the tolerance of the column's name. */
  ghost predicate AgreeAt(lib: Library, predicted: ExecutionResult, gold: ExecutionResult,
                          tolerances: seq<(string, Tolerance)>, r: int, g: int, j: int, i: int)
    requires ColumnsMatch(lib, predicted, gold) && 0 <= r < |predicted.rows| && 0 <= g < |gold.rows|
    requires Twins(lib, predicted, gold, j, i)
  {
    assert predicted.rows[r] in predicted.rows && gold.rows[g] in gold.rows;
    Equals(lib, predicted.rows[r][j], gold.rows[g][i], gold.columns[i].oid,
           ToleranceFor(lib, tolerances, lib.columnName(gold.columns[i].name)))
  }

  /** Two rows are equal exactly when their values agree under each name. */
  lemma {:induction false} RowsTell(lib: Library, predicted: ExecutionResult, gold: ExecutionResult,
                                    tolerances: seq<(string, Tolerance)>, r: nat, g: nat)
    requires ColumnsMatch(lib, predicted, gold) && r < |predicted.rows| && g < |gold.rows|
    ensures RowRelation(ColumnsOf(lib, gold, tolerances))(AlignedRows(lib, predicted, gold)[r], gold.rows[g]) <==>
      forall j, i | Twins(lib, predicted, gold, j, i) :: AgreeAt(lib, predicted, gold, tolerances, r, g, j, i)
  {
    var row, c := AlignedRows(lib, predicted, gold)[r], ColumnsOf(lib, gold, tolerances);
    MatchingColumns(lib, predicted, gold);
    assert gold.rows[g] in gold.rows;
    forall j, i | Twins(lib, predicted, gold, j, i)
      ensures |row| == |c.oids| && row[i] == predicted.rows[r][j]
      ensures ValueEqual(lib, row[i], gold.rows[g][i], c.oids[i], c.tolerances[i])
        <==> AgreeAt(lib, predicted, gold, tolerances, r, g, j, i)
    {
      AlignedByName(lib, predicted, gold, r, j, i);
      ValuesTell(lib, row[i], gold.rows[g][i], c.oids[i], c.tolerances[i]);
    }
    assert |row| == |c.oids|;
    assert forall i | 0 <= i < |c.oids| :: HasTwin(lib, predicted, gold, i);
  }

  /** The key at place k names gold column i. */
  predicate KeyAt(lib: Library, gold: ExecutionResult, request: Request, k: int, i: int) {
    && 0 <= k < |request.keyColumns| && 0 <= i < |gold.columns|
    && lib.columnName(request.keyColumns[k]) == lib.columnName(gold.columns[i].name)
  }

  ghost predicate IsKey(lib: Library, gold: ExecutionResult, request: Request, i: int) {
    exists k :: KeyAt(lib, gold, request, k, i)
  }

  ghost predicate IsPlaced(lib: Library, gold: ExecutionResult, request: Request, k: int) {
    exists i :: KeyAt(lib, gold, request, k, i)
  }

  predicate SameKeyName(lib: Library, request: Request, k: int, l: int) {
    && 0 <= k < |request.keyColumns| && 0 <= l < |request.keyColumns|
    && lib.columnName(request.keyColumns[k]) == lib.columnName(request.keyColumns[l])
  }

  /** Keys are some, of distinct names, each that of a gold column. */
  lemma {:induction false} KeysAreValid(lib: Library, gold: ExecutionResult, request: Request)
    ensures ValidKeys(lib, gold, request) <==>
      && |request.keyColumns| > 0
      && (forall k, l | SameKeyName(lib, request, k, l) :: k == l)
      && (forall k | 0 <= k < |request.keyColumns| :: IsPlaced(lib, gold, request, k))
  {
    var names, g := KeyNames(lib, request), Names(lib, gold.columns);
    forall k | 0 <= k < |names| ensures names[k] in g <==> IsPlaced(lib, gold, request, k) {
      if names[k] in g {
        var i :| 0 <= i < |g| && g[i] == names[k];
        assert KeyAt(lib, gold, request, k, i);
      }
      if IsPlaced(lib, gold, request, k) {
        var i :| KeyAt(lib, gold, request, k, i);
        assert g[i] == names[k];
      }
    }
    forall k, l | 0 <= k < |names| && 0 <= l < |names|
      ensures SameKeyName(lib, request, k, l) <==> names[k] == names[l]
    {
    }
  }

  ghost predicate EqualAt(lib: Library, gold: ExecutionResult, tolerances: seq<(string, Tolerance)>,
                          a: Row, b: Row, i: int)
    requires 0 <= i < |gold.columns| == |a| == |b|
  {
    Equals(lib, a[i], b[i], gold.columns[i].oid,
           ToleranceFor(lib, tolerances, lib.columnName(gold.columns[i].name)))
  }

  /** The key columns are where their names are. */
  lemma {:induction false} KeysByName(lib: Library, gold: ExecutionResult, request: Request)
    requires ValidKeys(lib, gold, request)
    ensures |KeyIndices(lib, gold, request)| == |request.keyColumns|
    ensures forall k | 0 <= k < |request.keyColumns| ::
      var i := KeyIndices(lib, gold, request)[k];
      && i < |gold.columns|
      && lib.columnName(gold.columns[i].name) == lib.columnName(request.keyColumns[k])
  {
    var names := KeyNames(lib, request);
    forall k | 0 <= k < |names| ensures names[k] in Names(lib, gold.columns) {
      assert names[k] in names;
    }
  }

  lemma {:induction false} KeyPlaces(lib: Library, gold: ExecutionResult, request: Request, i: int)
    requires ValidKeys(lib, gold, request) && NoRepeats(Names(lib, gold.columns))
    ensures i in KeyIndices(lib, gold, request) <==> IsKey(lib, gold, request, i)
  {
    var keys, names := KeyIndices(lib, gold, request), Names(lib, gold.columns);
    KeysByName(lib, gold, request);
    if i in keys {
      var k :| 0 <= k < |keys| && keys[k] == i;
      assert KeyAt(lib, gold, request, k, i);
    }
    if IsKey(lib, gold, request, i) {
      var k :| KeyAt(lib, gold, request, k, i);
      assert names[keys[k]] == names[i] && keys[k] in keys;
    }
  }

  /** Two aligned rows have the same key exactly when their values agree in every key column. */
  lemma {:induction false} KeysTell(lib: Library, gold: ExecutionResult, request: Request, a: Row, b: Row)
    requires ValidKeys(lib, gold, request) && NoRepeats(Names(lib, gold.columns)) && |a| == |b| == |gold.columns|
    ensures KeyRelation(ColumnsOf(lib, gold, request.tolerances), KeyIndices(lib, gold, request))(a, b) <==>
      forall i | IsKey(lib, gold, request, i) :: EqualAt(lib, gold, request.tolerances, a, b, i)
  {
    var c, keys := ColumnsOf(lib, gold, request.tolerances), KeyIndices(lib, gold, request);
    forall i | 0 <= i < |gold.columns|
      ensures i in keys <==> IsKey(lib, gold, request, i)
      ensures ValueEqual(lib, a[i], b[i], c.oids[i], c.tolerances[i])
        <==> EqualAt(lib, gold, request.tolerances, a, b, i)
    {
      KeyPlaces(lib, gold, request, i);
      ValuesTell(lib, a[i], b[i], c.oids[i], c.tolerances[i]);
    }
    KeysByName(lib, gold, request);
  }

  // ----- The order of the columns is irrelevant -----

  /** A row with its values in the order of its columns; one of another width stays as it is. */
  function Reordered(row: Row, p: seq<nat>): (r: Row)
    requires forall i | 0 <= i < |p| :: p[i] < |p|
    ensures |r| == |row|
  {
    if |row| == |p| then Permuted(row, p) else row
  }

  /** The result with its columns, and the values of every row, in another order. */
  function WithColumns(r: ExecutionResult, p: seq<nat>): (s: ExecutionResult)
    requires |p| == |r.columns| && forall i | 0 <= i < |p| :: p[i] < |p|
    ensures |s.columns| == |r.columns| && |s.rows| == |r.rows| && s.truncated == r.truncated
  {
    r.(columns := Permuted(r.columns, p),
       rows := seq(|r.rows|, k requires 0 <= k < |r.rows| => Reordered(r.rows[k], p)))
  }

  lemma {:induction false} ReorderedBack(r: ExecutionResult, p: seq<nat>, back: seq<nat>)
    requires Reorders(p, back, |r.columns|)
    ensures WithColumns(WithColumns(r, p), back) == r
  {
    var s := WithColumns(WithColumns(r, p), back);
    assert s.columns == r.columns;
    forall k | 0 <= k < |r.rows| ensures s.rows[k] == r.rows[k] {
    }
    assert s.rows == r.rows;
  }

  lemma {:induction false} WellFormedReordered(lib: Library, r: ExecutionResult, p: seq<nat>, back: seq<nat>)
    requires Reorders(p, back, |r.columns|) && WellFormed(lib, r)
    ensures WellFormed(lib, WithColumns(r, p))
  {
    var s := WithColumns(r, p);
    var names, names' := Names(lib, r.columns), Names(lib, s.columns);
    forall i, j | 0 <= i < j < |names'| ensures names'[i] != names'[j] {
      assert names'[i] == names[p[i]] && names'[j] == names[p[j]];
      assert back[p[i]] != back[p[j]];
    }
    forall row | row in s.rows ensures |row| == |s.columns| {
      var k :| 0 <= k < |s.rows| && s.rows[k] == row;
      assert r.rows[k] in r.rows;
    }
  }

  lemma {:induction false} MatchReordered(lib: Library, predicted: ExecutionResult, gold: ExecutionResult,
                                          p: seq<nat>, p': seq<nat>, q: seq<nat>, q': seq<nat>)
    requires Reorders(p, p', |predicted.columns|) && Reorders(q, q', |gold.columns|)
    requires ColumnsMatch(lib, predicted, gold)
    ensures ColumnsMatch(lib, WithColumns(predicted, p), WithColumns(gold, q))
  {
    var predicted', gold' := WithColumns(predicted, p), WithColumns(gold, q);
    MatchingColumns(lib, predicted, gold);
    MatchingColumns(lib, predicted', gold');
    WellFormedReordered(lib, predicted, p, p');
    WellFormedReordered(lib, gold, q, q');
    forall i | 0 <= i < |gold'.columns| ensures HasTwin(lib, predicted', gold', i) {
      assert HasTwin(lib, predicted, gold, q[i]);
      var j :| Twins(lib, predicted, gold, j, q[i])
               && TypesMatch(predicted.columns[j].oid, gold.columns[q[i]].oid);
      assert Twins(lib, predicted', gold', p'[j], i);
    }
  }

  lemma {:induction false} MatchesAlike(lib: Library, predicted: ExecutionResult, gold: ExecutionResult,
                                        p: seq<nat>, p': seq<nat>, q: seq<nat>, q': seq<nat>)
    requires Reorders(p, p', |predicted.columns|) && Reorders(q, q', |gold.columns|)
    ensures ColumnsMatch(lib, WithColumns(predicted, p), WithColumns(gold, q)) <==>
            ColumnsMatch(lib, predicted, gold)
  {
    if ColumnsMatch(lib, predicted, gold) {
      MatchReordered(lib, predicted, gold, p, p', q, q');
    }
    if ColumnsMatch(lib, WithColumns(predicted, p), WithColumns(gold, q)) {
      MatchReordered(lib, WithColumns(predicted, p), WithColumns(gold, q), p', p, q', q);
      ReorderedBack(predicted, p, p');
      ReorderedBack(gold, q, q');
    }
  }

  /** Aligned rows follow the gold columns, and do not depend on the order of the predicted ones. */
  lemma {:induction false} AlignedAlike(lib: Library, predicted: ExecutionResult, gold: ExecutionResult,
                                        p: seq<nat>, p': seq<nat>, q: seq<nat>, q': seq<nat>, r: nat)
    requires Reorders(p, p', |predicted.columns|) && Reorders(q, q', |gold.columns|)
    requires ColumnsMatch(lib, predicted, gold) && r < |predicted.rows|
    requires ColumnsMatch(lib, WithColumns(predicted, p), WithColumns(gold, q))
    ensures |AlignedRows(lib, predicted, gold)[r]| == |q|
    ensures AlignedRows(lib, WithColumns(predicted, p), WithColumns(gold, q))[r]
         == Permuted(AlignedRows(lib, predicted, gold)[r], q)
  {
    var predicted', gold' := WithColumns(predicted, p), WithColumns(gold, q);
    var row := AlignedRows(lib, predicted, gold)[r];
    var row' := AlignedRows(lib, predicted', gold')[r];
    MatchingColumns(lib, predicted, gold);
    forall i | 0 <= i < |q| ensures row'[i] == row[q[i]] {
      assert HasTwin(lib, predicted, gold, q[i]);
      var j :| Twins(lib, predicted, gold, j, q[i]);
      AlignedByName(lib, predicted, gold, r, j, q[i]);
      AlignedByName(lib, predicted', gold', r, p'[j], i);
    }
    assert row' == Permuted(row, q);
  }

  function Turned(c: Columns, q: seq<nat>): Columns
    requires |c.tolerances| == |c.oids| == |q| && forall i | 0 <= i < |q| :: q[i] < |q|
  {
    c.(oids := Permuted(c.oids, q), tolerances := Permuted(c.tolerances, q))
  }

  lemma {:induction false} ColumnsAlike(lib: Library, gold: ExecutionResult, q: seq<nat>, q': seq<nat>,
                                        tolerances: seq<(string, Tolerance)>)
    requires Reorders(q, q', |gold.columns|)
    ensures
      && ColumnsOf(lib, WithColumns(gold, q), tolerances) == Turned(ColumnsOf(lib, gold, tolerances), q)
      && Names(lib, WithColumns(gold, q).columns) == Permuted(Names(lib, gold.columns), q)
  {
    var c, d := ColumnsOf(lib, gold, tolerances), ColumnsOf(lib, WithColumns(gold, q), tolerances);
    assert Names(lib, WithColumns(gold, q).columns) == Permuted(Names(lib, gold.columns), q);
    assert d.oids == Permuted(c.oids, q);
    assert d.tolerances == Permuted(c.tolerances, q);
  }

  lemma {:induction false} PrecheckAlike(lib: Library, predicted: ExecutionResult, gold: ExecutionResult,
                                         request: Request, p: seq<nat>, p': seq<nat>, q: seq<nat>, q': seq<nat>)
    requires Reorders(p, p', |predicted.columns|) && Reorders(q, q', |gold.columns|)
    ensures Precheck(lib, WithColumns(predicted, p), WithColumns(gold, q), request)
         == Precheck(lib, predicted, gold, request)
  {
    var predicted', gold' := WithColumns(predicted, p), WithColumns(gold, q);
    MatchesAlike(lib, predicted, gold, p, p', q, q');
    ColumnsAlike(lib, gold, q, q', request.tolerances);
    PermutedMembers(Names(lib, gold.columns), q, q');
    var c, d := ColumnsOf(lib, gold, request.tolerances), ColumnsOf(lib, gold', request.tolerances);
    forall i | 0 <= i < |c.oids| ensures d.oids[q'[i]] == c.oids[i] && d.tolerances[q'[i]] == c.tolerances[i] {
    }
  }

  /** Rows of both widths are related as their reordered ones are. */
  lemma {:induction false} RowsAlike(c: Columns, a: Row, b: Row, q: seq<nat>, q': seq<nat>)
    requires Reorders(q, q', |c.oids|) && |c.tolerances| == |c.oids| && |a| == |b| == |c.oids|
    ensures RowRelation(Turned(c, q))(Permuted(a, q), Permuted(b, q)) <==> RowRelation(c)(a, b)
  {
    var d := Turned(c, q);
    forall i | 0 <= i < |q|
      ensures ValueEqual(c.lib, a[i], b[i], c.oids[i], c.tolerances[i])
        <==> ValueEqual(d.lib, Permuted(a, q)[q'[i]], Permuted(b, q)[q'[i]], d.oids[q'[i]], d.tolerances[q'[i]])
    {
    }
  }

  lemma {:induction false} KeysAlike(lib: Library, gold: ExecutionResult, request: Request, q: seq<nat>, q': seq<nat>)
    requires Reorders(q, q', |gold.columns|) && NoRepeats(Names(lib, gold.columns))
    ensures ValidKeys(lib, WithColumns(gold, q), request) <==> ValidKeys(lib, gold, request)
    ensures ValidKeys(lib, gold, request) ==>
      var keys, keys' := KeyIndices(lib, gold, request), KeyIndices(lib, WithColumns(gold, q), request);
      |keys| == |keys'| && forall k | 0 <= k < |keys| :: keys'[k] < |q| && q[keys'[k]] == keys[k]
  {
    ColumnsAlike(lib, gold, q, q', []);
    var names := Names(lib, gold.columns);
    PermutedMembers(names, q, q');
    if ValidKeys(lib, gold, request) {
      var keys, keys' := KeyIndices(lib, gold, request), KeyIndices(lib, WithColumns(gold, q), request);
      KeysByName(lib, gold, request);
      KeysByName(lib, WithColumns(gold, q), request);
      forall k | 0 <= k < |keys| ensures q[keys'[k]] == keys[k] {
        assert names[q[keys'[k]]] == names[keys[k]];
      }
    }
  }

  lemma {:induction false} KeyedAlike(c: Columns, keys: seq<nat>, keys': seq<nat>, a: Row, b: Row,
                                      q: seq<nat>, q': seq<nat>)
    requires Reorders(q, q', |c.oids|) && |c.tolerances| == |c.oids| && |a| == |b| == |c.oids|
    requires |keys| == |keys'| && forall k | 0 <= k < |keys| :: keys'[k] < |q| && q[keys'[k]] == keys[k]
    ensures KeyRelation(Turned(c, q), keys')(Permuted(a, q), Permuted(b, q)) <==> KeyRelation(c, keys)(a, b)
  {
    var d := Turned(c, q);
    forall k | 0 <= k < |keys|
      ensures ValueEqual(c.lib, a[keys[k]], b[keys[k]], c.oids[keys[k]], c.tolerances[keys[k]])
        <==> ValueEqual(d.lib, Permuted(a, q)[keys'[k]], Permuted(b, q)[keys'[k]], d.oids[keys'[k]],
                        d.tolerances[keys'[k]])
      ensures keys[k] in keys && keys'[k] in keys'
    {
    }
  }

  // ----- Relations that agree row by row -----

  ghost predicate Alike<T>(eq: (T, T) -> bool, eq': (T, T) -> bool, rows: seq<T>, rows': seq<T>, others: seq<T>,
                           others': seq<T>) {
    && |rows| == |rows'| && |others| == |others'|
    && forall i, j | 0 <= i < |rows| && 0 <= j < |others| :: eq(rows[i], others[j]) <==> eq'(rows'[i], others'[j])
  }

  lemma {:induction false} PairingsAlike<T>(eq: (T, T) -> bool, eq': (T, T) -> bool, rows: seq<T>, rows': seq<T>,
                                            others: seq<T>, others': seq<T>)
    requires Alike(eq, eq', rows, rows', others, others')
    ensures RowsEqualInOrder(eq, rows, others) <==> RowsEqualInOrder(eq', rows', others')
    ensures PairsUp(eq, rows, others) <==> PairsUp(eq', rows', others')
  {
    forall f ensures IsPairing(eq, rows, others, f) <==> IsPairing(eq', rows', others', f) {
    }
  }

  lemma {:induction false} KeyedPairingsAlike<T>(
      eq: (T, T) -> bool, eq': (T, T) -> bool, keyEq: (T, T) -> bool, keyEq': (T, T) -> bool,
      rows: seq<T>, rows': seq<T>, others: seq<T>, others': seq<T>)
    requires Alike(eq, eq', rows, rows', others, others') && Alike(keyEq, keyEq', rows, rows', others, others')
    ensures KeyedMatch(eq, keyEq, rows, others) <==> KeyedMatch(eq', keyEq', rows', others')
  {
    forall f ensures IsKeyedPairing(eq, keyEq, rows, others, f) <==> IsKeyedPairing(eq', keyEq', rows', others', f) {
      assert IsPairing(eq, rows, others, f) <==> IsPairing(eq', rows', others', f);
    }
  }

  lemma {:induction false} DuplicatesAlike<T>(keyEq: (T, T) -> bool, keyEq': (T, T) -> bool, rows: seq<T>,
                                              rows': seq<T>)
    requires Alike(keyEq, keyEq', rows, rows', rows, rows')
    ensures HasDuplicateKey(keyEq, rows) <==> HasDuplicateKey(keyEq', rows')
  {
  }

  /** How the rows of both results look in the other order of the columns. */
  ghost predicate Seen(width: nat, rows: seq<Row>, rows': seq<Row>, q: seq<nat>)
    requires |q| == width && forall i | 0 <= i < |q| :: q[i] < |q|
  {
    && |rows'| == |rows|
    && forall r | 0 <= r < |rows| :: |rows[r]| == width && rows'[r] == Permuted(rows[r], q)
  }

  lemma {:induction false} SeenAlike(c: Columns, rows: seq<Row>, rows': seq<Row>, others: seq<Row>, others': seq<Row>,
                                     q: seq<nat>, q': seq<nat>)
    requires Reorders(q, q', |c.oids|) && |c.tolerances| == |c.oids|
    requires Seen(|c.oids|, rows, rows', q) && Seen(|c.oids|, others, others', q)
    ensures Alike(RowRelation(c), RowRelation(Turned(c, q)), rows, rows', others, others')
  {
    forall i, j | 0 <= i < |rows| && 0 <= j < |others|
      ensures RowRelation(c)(rows[i], others[j]) <==> RowRelation(Turned(c, q))(rows'[i], others'[j])
    {
      RowsAlike(c, rows[i], others[j], q, q');
    }
  }

  lemma {:induction false} KeysSeenAlike(c: Columns, keys: seq<nat>, keys': seq<nat>, rows: seq<Row>, rows': seq<Row>,
                                         others: seq<Row>, others': seq<Row>, q: seq<nat>, q': seq<nat>)
    requires Reorders(q, q', |c.oids|) && |c.tolerances| == |c.oids|
    requires Seen(|c.oids|, rows, rows', q) && Seen(|c.oids|, others, others', q)
    requires |keys| == |keys'| && forall k | 0 <= k < |keys| :: keys'[k] < |q| && q[keys'[k]] == keys[k]
    ensures Alike(KeyRelation(c, keys), KeyRelation(Turned(c, q), keys'), rows, rows', others, others')
  {
    var d := Turned(c, q);
    forall i, j | 0 <= i < |rows| && 0 <= j < |others|
      ensures KeyRelation(c, keys)(rows[i], others[j]) <==> KeyRelation(d, keys')(rows'[i], others'[j])
    {
      KeyedAlike(c, keys, keys', rows[i], others[j], q, q');
    }
  }

  lemma {:induction false} RowsSeen(lib: Library, predicted: ExecutionResult, gold: ExecutionResult,
                                    p: seq<nat>, p': seq<nat>, q: seq<nat>, q': seq<nat>)
    requires Reorders(p, p', |predicted.columns|) && Reorders(q, q', |gold.columns|)
    requires ColumnsMatch(lib, predicted, gold)
    requires ColumnsMatch(lib, WithColumns(predicted, p), WithColumns(gold, q))
    ensures Seen(|q|, AlignedRows(lib, predicted, gold),
                 AlignedRows(lib, WithColumns(predicted, p), WithColumns(gold, q)), q)
    ensures Seen(|q|, gold.rows, WithColumns(gold, q).rows, q)
  {
    forall r | 0 <= r < |predicted.rows|
      ensures |AlignedRows(lib, predicted, gold)[r]| == |q|
      ensures AlignedRows(lib, WithColumns(predicted, p), WithColumns(gold, q))[r]
        == Permuted(AlignedRows(lib, predicted, gold)[r], q)
    {
      AlignedAlike(lib, predicted, gold, p, p', q, q', r);
    }
    forall r | 0 <= r < |gold.rows| ensures |gold.rows[r]| == |q| {
      assert gold.rows[r] in gold.rows;
    }
  }

  lemma {:induction false} KeyedVerdictAlike(c: Columns, keys: seq<nat>, keys': seq<nat>, rows: seq<Row>,
                                             rows': seq<Row>, others: seq<Row>, others': seq<Row>,
                                             q: seq<nat>, q': seq<nat>)
    requires Reorders(q, q', |c.oids|) && |c.tolerances| == |c.oids|
    requires Seen(|c.oids|, rows, rows', q) && Seen(|c.oids|, others, others', q)
    requires |keys| == |keys'| && forall k | 0 <= k < |keys| :: keys'[k] < |q| && q[keys'[k]] == keys[k]
    ensures
      var eq, eq', keyEq, keyEq' :=
        RowRelation(c), RowRelation(Turned(c, q)), KeyRelation(c, keys), KeyRelation(Turned(c, q), keys');
      && (HasDuplicateKey(keyEq, rows) <==> HasDuplicateKey(keyEq', rows'))
      && (HasDuplicateKey(keyEq, others) <==> HasDuplicateKey(keyEq', others'))
      && (KeyedMatch(eq, keyEq, rows, others) <==> KeyedMatch(eq', keyEq', rows', others'))
  {
    var eq, eq', keyEq, keyEq' :=
      RowRelation(c), RowRelation(Turned(c, q)), KeyRelation(c, keys), KeyRelation(Turned(c, q), keys');
    SeenAlike(c, rows, rows', others, others', q, q');
    KeysSeenAlike(c, keys, keys', rows, rows', rows, rows', q, q');
    KeysSeenAlike(c, keys, keys', others, others', others, others', q, q');
    KeysSeenAlike(c, keys, keys', rows, rows', others, others', q, q');
    DuplicatesAlike(keyEq, keyEq', rows, rows');
    DuplicatesAlike(keyEq, keyEq', others, others');
    KeyedPairingsAlike(eq, eq', keyEq, keyEq', rows, rows', others, others');
  }

  /** What the verdict is once the checks are passed. */
  ghost predicate Decided(lib: Library, eq: (Row, Row) -> bool, rows: seq<Row>, gold: ExecutionResult,
                          request: Request, code: Code) {
    if request.orderSensitive || request.mode.ExactMode? then
      code == if RowsEqualInOrder(eq, rows, gold.rows) then Match else RowMismatch
    else if request.mode.MultisetMode? then code == if PairsUp(eq, rows, gold.rows) then Match else RowMismatch
    else if !ValidKeys(lib, gold, request) then code == InvalidKey
    else
      var keyEq := KeyRelation(ColumnsOf(lib, gold, request.tolerances), KeyIndices(lib, gold, request));
      code == if HasDuplicateKey(keyEq, rows) || HasDuplicateKey(keyEq, gold.rows) then DuplicateKey
              else if KeyedMatch(eq, keyEq, rows, gold.rows) then Match else RowMismatch
  }

  lemma {:induction false} VerdictDecides(lib: Library, predicted: ExecutionResult, gold: ExecutionResult,
                                          request: Request)
    requires Prechecked(lib, predicted, gold, request)
    ensures Decided(lib, RowRelation(ColumnsOf(lib, gold, request.tolerances)), AlignedRows(lib, predicted, gold),
                    gold, request, Verdict(lib, predicted, gold, request))
  {
  }

  lemma {:induction false} DecidedAlike(lib: Library, rows: seq<Row>, rows': seq<Row>, gold: ExecutionResult,
                                        request: Request, q: seq<nat>, q': seq<nat>, code: Code, code': Code)
    requires Reorders(q, q', |gold.columns|) && NoRepeats(Names(lib, gold.columns))
    requires Seen(|q|, rows, rows', q) && Seen(|q|, gold.rows, WithColumns(gold, q).rows, q)
    requires Decided(lib, RowRelation(ColumnsOf(lib, gold, request.tolerances)), rows, gold, request, code)
    requires Decided(lib, RowRelation(ColumnsOf(lib, WithColumns(gold, q), request.tolerances)), rows',
                     WithColumns(gold, q), request, code')
    ensures code == code'
  {
    var c, gold' := ColumnsOf(lib, gold, request.tolerances), WithColumns(gold, q);
    ColumnsAlike(lib, gold, q, q', request.tolerances);
    SeenAlike(c, rows, rows', gold.rows, gold'.rows, q, q');
    PairingsAlike(RowRelation(c), RowRelation(Turned(c, q)), rows, rows', gold.rows, gold'.rows);
    KeysAlike(lib, gold, request, q, q');
    if ValidKeys(lib, gold, request) {
      KeyedVerdictAlike(c, KeyIndices(lib, gold, request), KeyIndices(lib, gold', request), rows, rows', gold.rows,
                        gold'.rows, q, q');
    }
  }

  /**
   * The verdict of every comparison, in each mode, is the same when the columns of either result, with the values
   * of all rows, stand in another order.
   */
  lemma {:induction false} VerdictIgnoresColumnOrder(
      lib: Library, predicted: ExecutionResult, gold: ExecutionResult, request: Request,
      p: seq<nat>, p': seq<nat>, q: seq<nat>, q': seq<nat>)
    requires Reorders(p, p', |predicted.columns|) && Reorders(q, q', |gold.columns|)
    ensures Verdict(lib, WithColumns(predicted, p), WithColumns(gold, q), request)
         == Verdict(lib, predicted, gold, request)
  {
    var predicted', gold' := WithColumns(predicted, p), WithColumns(gold, q);
    PrecheckAlike(lib, predicted, gold, request, p, p', q, q');
    if Prechecked(lib, predicted, gold, request) {
      MatchesAlike(lib, predicted, gold, p, p', q, q');
      RowsSeen(lib, predicted, gold, p, p', q, q');
      VerdictDecides(lib, predicted, gold, request);
      VerdictDecides(lib, predicted', gold', request);
      DecidedAlike(lib, AlignedRows(lib, predicted, gold), AlignedRows(lib, predicted', gold'), gold, request, q, q',
                   Verdict(lib, predicted, gold, request), Verdict(lib, predicted', gold', request));
    }
  }
}
