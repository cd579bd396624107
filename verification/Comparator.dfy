/** Comparison of a predicted result with a gold result. */
module Comparator {
  import opened Ids
  import opened Wrappers
  import opened Matching
  import Texts

  // ----- Values -----

  datatype Value =
    | Null
    | Bool(b: bool)
    | Int(i: int)
    | Float(x: real)
    | Str(s: string)
    | List(items: seq<Value>)
    | Dict(entries: map<string, Value>)

  datatype Tolerance = Tolerance(absolute: real, relative: real)

  /** The library calls the comparison relies on: strip and casefold of a column name, reading a
      finite decimal, and reading a timestamp with a time zone as an instant. */
  datatype Library = Library(columnName: string -> string,
                             decimal: string -> Option<real>,
                             instant: string -> Option<int>)

  const TIMESTAMPTZ_OID := 1184
  const STRING_OIDS := {25, 1042, 1043}
  const FLOAT_OIDS := {700, 701}
  const NUMERIC_OIDS := {20, 21, 23, 700, 701, 1700}

  predicate IsSpace(c: char) {
    Texts.IsSpace(c as int)
  }

  function RStrip(s: string): string {
    if |s| > 0 && IsSpace(s[|s| - 1]) then RStrip(s[..|s| - 1]) else s
  }

  function NormalizeString(v: Value): Value {
    if v.Str? then Str(RStrip(v.s)) else v
  }

  predicate StrictEqual(left: Value, right: Value) {
    match (left, right)
    case (Null, Null) => true
    case (Bool(a), Bool(b)) => a == b
    case (Int(a), Int(b)) => a == b
    case (Float(a), Float(b)) => a == b
    case (Str(a), Str(b)) => RStrip(a) == RStrip(b)
    case (List(a), List(b)) => |a| == |b| && forall i | 0 <= i < |a| :: StrictEqual(a[i], b[i])
    case (Dict(a), Dict(b)) => a.Keys == b.Keys && forall k | k in a.Keys :: StrictEqual(a[k], b[k])
    case _ => false
  }

  function Number(lib: Library, v: Value): Option<real> {
    match v
    case Int(i) => Some(i as real)
    case Float(x) => Some(x)
    case Str(s) => lib.decimal(s)
    case _ => None
  }

  function Abs(x: real): real {
    if x < 0.0 then -x else x
  }

  predicate DecimalEqual(lib: Library, predicted: Value, gold: Value, tolerance: Tolerance) {
    var p, g := Number(lib, predicted), Number(lib, gold);
    p.Some? && g.Some? &&
    (Abs(p.value - g.value) <= tolerance.absolute || Abs(p.value - g.value) <= tolerance.relative * Abs(g.value))
  }

  function Instant(lib: Library, v: Value): Option<int> {
    if v.Str? then lib.instant(v.s) else None
  }

  predicate ValueEqual(lib: Library, predicted: Value, gold: Value, oid: int, tolerance: Option<Tolerance>) {
    var p, g := NormalizeString(predicted), NormalizeString(gold);
    if p.Null? || g.Null? then p.Null? && g.Null?
    else if tolerance.Some? then DecimalEqual(lib, p, g, tolerance.value)
    else if oid == TIMESTAMPTZ_OID && Instant(lib, p).Some? && Instant(lib, g).Some? then
      Instant(lib, p) == Instant(lib, g)
    else StrictEqual(p, g)
  }

  // ----- Rows -----

  type Row = seq<Value>

  datatype Columns = Columns(lib: Library, oids: seq<int>, tolerances: seq<Option<Tolerance>>)

  predicate RowEqual(c: Columns, predicted: Row, gold: Row)
    requires |c.oids| == |c.tolerances|
  {
    && |predicted| == |c.oids|
    && |gold| == |c.oids|
    && forall i | 0 <= i < |c.oids| :: ValueEqual(c.lib, predicted[i], gold[i], c.oids[i], c.tolerances[i])
  }

  predicate KeysEqual(c: Columns, keys: seq<nat>, left: Row, right: Row)
    requires |c.oids| == |c.tolerances|
  {
    forall k | k in keys ::
      k < |c.oids| && k < |left| && k < |right| && ValueEqual(c.lib, left[k], right[k], c.oids[k], c.tolerances[k])
  }

  function RowRelation(c: Columns): (Row, Row) -> bool {
    (p, g) => |c.oids| == |c.tolerances| && RowEqual(c, p, g)
  }

  function KeyRelation(c: Columns, keys: seq<nat>): (Row, Row) -> bool {
    (p, g) => |c.oids| == |c.tolerances| && KeysEqual(c, keys, p, g)
  }

  // ----- Exact comparison -----

  ghost predicate RowsEqualInOrder<T>(eq: (T, T) -> bool, predicted: seq<T>, gold: seq<T>) {
    |predicted| == |gold| && forall i | 0 <= i < |gold| :: eq(predicted[i], gold[i])
  }

  // ----- Keyed comparison -----

  ghost predicate HasDuplicateKey<T>(keyEq: (T, T) -> bool, rows: seq<T>) {
    exists i, j :: 0 <= i < j < |rows| && keyEq(rows[i], rows[j])
  }

  /** Every predicted row has exactly one gold row with its key; it equals that row, no two
      predicted rows share it, and no gold row is left over. */
  ghost predicate IsKeyedPairing<T>(eq: (T, T) -> bool, keyEq: (T, T) -> bool, predicted: seq<T>, gold: seq<T>,
                                    f: seq<nat>) {
    && IsPairing(eq, predicted, gold, f)
    && |predicted| == |gold|
    && forall p, g | 0 <= p < |predicted| && 0 <= g < |gold| :: keyEq(predicted[p], gold[g]) <==> g == f[p]
  }

  ghost predicate KeyedMatch<T>(eq: (T, T) -> bool, keyEq: (T, T) -> bool, predicted: seq<T>, gold: seq<T>) {
    exists f :: IsKeyedPairing(eq, keyEq, predicted, gold, f)
  }

  method FindDuplicateKey<T>(keyEq: (T, T) -> bool, rows: seq<T>) returns (found: bool)
    ensures found <==> HasDuplicateKey(keyEq, rows)
  {
    for i := 0 to |rows|
      invariant forall k, j | 0 <= k < i && k < j < |rows| :: !keyEq(rows[k], rows[j])
    {
      for j := i + 1 to |rows|
        invariant forall l | i < l < j :: !keyEq(rows[i], rows[l])
      {
        if keyEq(rows[i], rows[j]) {
          return true;
        }
      }
    }
    return false;
  }

  /** The keyed pairing of the first predicted rows: each has one gold row with its key, and equals it. */
  ghost predicate KeyedSoFar<T>(eq: (T, T) -> bool, keyEq: (T, T) -> bool, predicted: seq<T>, gold: seq<T>,
                                f: seq<nat>) {
    && |f| <= |predicted| && IsPairing(eq, predicted[..|f|], gold, f)
    && forall q | 0 <= q < |f| :: OnlyKey(keyEq, predicted[q], gold, f[q])
  }

  ghost predicate OnlyKey<T>(keyEq: (T, T) -> bool, row: T, gold: seq<T>, g: nat) {
    forall h | 0 <= h < |gold| :: keyEq(row, gold[h]) <==> h == g
  }

  /** In a keyed match the rows paired so far leave exactly one, unused and equal, gold row for the next. */
  lemma {:induction false} NextKeyedRow<T>(eq: (T, T) -> bool, keyEq: (T, T) -> bool, predicted: seq<T>, gold: seq<T>,
                                           f: seq<nat>, matches: seq<int>)
    requires KeyedMatch(eq, keyEq, predicted, gold) && KeyedSoFar(eq, keyEq, predicted, gold, f)
    requires |f| < |predicted| && matches == CompatibleGold(keyEq, predicted[|f|], gold, |gold|)
    ensures |matches| == 1 && matches[0] !in f && eq(predicted[|f|], gold[matches[0]])
  {
    var h :| IsKeyedPairing(eq, keyEq, predicted, gold, h);
    assert h[|f|] in matches;
    assert |matches| > 1 ==> matches[0] < matches[1];
    forall i | 0 <= i < |matches| ensures matches[i] == h[|f|] {
      assert matches[i] in matches;
    }
    forall q | 0 <= q < |f| ensures f[q] == h[q] {
      assert OnlyKey(keyEq, predicted[q], gold, f[q]) && keyEq(predicted[q], gold[h[q]]);
    }
  }

  lemma {:induction false} KeyedOneMore<T>(eq: (T, T) -> bool, keyEq: (T, T) -> bool, predicted: seq<T>, gold: seq<T>,
                                           f: seq<nat>, matches: seq<int>)
    requires KeyedSoFar(eq, keyEq, predicted, gold, f) && |f| < |predicted|
    requires matches == CompatibleGold(keyEq, predicted[|f|], gold, |gold|)
    requires |matches| == 1 && matches[0] !in f && eq(predicted[|f|], gold[matches[0]])
    ensures KeyedSoFar(eq, keyEq, predicted, gold, f + [matches[0]])
  {
    assert predicted[..|f| + 1] == predicted[..|f|] + [predicted[|f|]];
    forall h | 0 <= h < |gold| ensures keyEq(predicted[|f|], gold[h]) <==> h == matches[0] {
      assert h in matches <==> keyEq(predicted[|f|], gold[h]);
    }
  }

  lemma {:induction false} KeyedAll<T>(eq: (T, T) -> bool, keyEq: (T, T) -> bool, predicted: seq<T>, gold: seq<T>,
                                       f: seq<nat>)
    requires KeyedSoFar(eq, keyEq, predicted, gold, f) && |f| == |predicted|
    ensures |predicted| == |gold| ==> KeyedMatch(eq, keyEq, predicted, gold)
  {
    assert predicted[..|f|] == predicted;
    if |predicted| == |gold| {
      assert forall q | 0 <= q < |f| :: OnlyKey(keyEq, predicted[q], gold, f[q]);
      assert IsKeyedPairing(eq, keyEq, predicted, gold, f);
    }
  }

  method KeyedRowsEqual<T>(eq: (T, T) -> bool, keyEq: (T, T) -> bool, predicted: seq<T>, gold: seq<T>)
    returns (matched: bool, duplicate: bool)
    ensures duplicate <==> HasDuplicateKey(keyEq, predicted) || HasDuplicateKey(keyEq, gold)
    ensures matched <==> !duplicate && KeyedMatch(eq, keyEq, predicted, gold)
  {
    duplicate := FindDuplicateKey(keyEq, predicted);
    if duplicate {
      return false, true;
    }
    duplicate := FindDuplicateKey(keyEq, gold);
    if duplicate {
      return false, true;
    }
    matched := KeyedMatching(eq, keyEq, predicted, gold);
  }

  method KeyedMatching<T>(eq: (T, T) -> bool, keyEq: (T, T) -> bool, predicted: seq<T>, gold: seq<T>)
    returns (matched: bool)
    ensures matched <==> KeyedMatch(eq, keyEq, predicted, gold)
  {
    var matchedGold: set<int> := {};
    ghost var f: seq<nat> := [];
    for p := 0 to |predicted|
      invariant |f| == p && KeyedSoFar(eq, keyEq, predicted, gold, f)
      invariant forall g :: g in matchedGold <==> g in f
      invariant |matchedGold| == p
    {
      var matches := CompatibleGold(keyEq, predicted[p], gold, |gold|);
      if KeyedMatch(eq, keyEq, predicted, gold) {
        NextKeyedRow(eq, keyEq, predicted, gold, f, matches);
      }
      if |matches| != 1 || matches[0] in matchedGold {
        return false;
      }
      matchedGold := matchedGold + {matches[0]};
      if !eq(predicted[p], gold[matches[0]]) {
        return false;
      }
      KeyedOneMore(eq, keyEq, predicted, gold, f, matches);
      f := f + [matches[0]];
    }
    matched := |matchedGold| == |gold|;
    KeyedAll(eq, keyEq, predicted, gold, f);
  }

  // ----- Comparing whole results -----

  datatype Column = Column(name: string, oid: int)

  datatype ExecutionResult = ExecutionResult(columns: seq<Column>, rows: seq<Row>, truncated: bool)

  datatype Mode = ExactMode | MultisetMode | KeyedMode | NoneMode

  datatype Code =
    | Match
    | NotApplicable
    | ColumnMismatch
    | GrainMismatch
    | RowMismatch
    | DuplicateKey
    | InvalidKey
    | InvalidTolerance
    | ToleranceRequired
    | TruncatedResult

  datatype Request = Request(
    mode: Mode, orderSensitive: bool, tolerances: seq<(string, Tolerance)>, keyColumns: seq<string>)

  function Names(lib: Library, columns: seq<Column>): (names: seq<string>)
    ensures |names| == |columns|
  {
    seq(|columns|, i requires 0 <= i < |columns| => lib.columnName(columns[i].name))
  }

  function IndexOf(names: seq<string>, name: string): (i: nat)
    requires name in names
    ensures i < |names| && names[i] == name
  {
    if names[0] == name then 0 else 1 + IndexOf(names[1..], name)
  }

  /** The columns of both results carry the same distinct names, with compatible types, and every
      row is as wide as its header. */
  predicate ColumnsMatch(lib: Library, predicted: ExecutionResult, gold: ExecutionResult) {
    var p, g := Names(lib, predicted.columns), Names(lib, gold.columns);
    && |p| == |g| && NoRepeats(p) && NoRepeats(g)
    && (forall row | row in predicted.rows :: |row| == |p|)
    && (forall row | row in gold.rows :: |row| == |g|)
    && (forall name | name in g :: name in p)
    && (forall i | 0 <= i < |g| :: TypesMatch(predicted.columns[IndexOf(p, g[i])].oid, gold.columns[i].oid))
  }

  predicate TypesMatch(left: int, right: int) {
    (left in STRING_OIDS && right in STRING_OIDS) || left == right
  }

  /** A predicted row with its columns in the order of the gold columns. */
  function AlignRow(p: seq<string>, g: seq<string>, row: Row): Row
    requires |row| == |p| && forall name | name in g :: name in p
  {
    seq(|g|, i requires 0 <= i < |g| => row[IndexOf(p, g[i])])
  }

  function AlignedRows(lib: Library, predicted: ExecutionResult, gold: ExecutionResult): (rows: seq<Row>)
    requires ColumnsMatch(lib, predicted, gold)
    ensures |rows| == |predicted.rows|
  {
    var p, g := Names(lib, predicted.columns), Names(lib, gold.columns);
    seq(|predicted.rows|, r requires 0 <= r < |predicted.rows| =>
      assert predicted.rows[r] in predicted.rows;
      AlignRow(p, g, predicted.rows[r]))
  }

  /** The last tolerance given under a name wins, as in a dictionary. */
  function ToleranceFor(lib: Library, tolerances: seq<(string, Tolerance)>, name: string): Option<Tolerance> {
    if tolerances == [] then None
    else
      var last := tolerances[|tolerances| - 1];
      if lib.columnName(last.0) == name then Some(last.1)
      else ToleranceFor(lib, tolerances[..|tolerances| - 1], name)
  }

  function ColumnsOf(lib: Library, gold: ExecutionResult, tolerances: seq<(string, Tolerance)>): (c: Columns)
    ensures |c.oids| == |c.tolerances| == |gold.columns|
  {
    var g := Names(lib, gold.columns);
    Columns(lib,
            seq(|g|, i requires 0 <= i < |g| => gold.columns[i].oid),
            seq(|g|, i requires 0 <= i < |g| => ToleranceFor(lib, tolerances, g[i])))
  }

  /** The checks before any row is compared. */
  function Precheck(lib: Library, predicted: ExecutionResult, gold: ExecutionResult, request: Request): Option<Code> {
    if request.mode.NoneMode? then Some(NotApplicable)
    else if predicted.truncated || gold.truncated then Some(TruncatedResult)
    else if !ColumnsMatch(lib, predicted, gold) then Some(ColumnMismatch)
    else
      var g := Names(lib, gold.columns);
      var c := ColumnsOf(lib, gold, request.tolerances);
      if exists t | t in request.tolerances :: lib.columnName(t.0) !in g then Some(ColumnMismatch)
      else if exists i | 0 <= i < |c.oids| :: c.tolerances[i].Some? && c.oids[i] !in NUMERIC_OIDS
      then Some(InvalidTolerance)
      else if (predicted.rows != [] || gold.rows != [])
              && exists i | 0 <= i < |c.oids| :: c.oids[i] in FLOAT_OIDS && c.tolerances[i].None?
      then Some(ToleranceRequired)
      else if |predicted.rows| != |gold.rows| then Some(GrainMismatch)
      else None
  }

  function KeyNames(lib: Library, request: Request): seq<string> {
    seq(|request.keyColumns|, i requires 0 <= i < |request.keyColumns| => lib.columnName(request.keyColumns[i]))
  }

  predicate ValidKeys(lib: Library, gold: ExecutionResult, request: Request) {
    var g := Names(lib, gold.columns);
    var k := KeyNames(lib, request);
    k != [] && NoRepeats(k) && forall name | name in k :: name in g
  }

  function KeyIndices(lib: Library, gold: ExecutionResult, request: Request): seq<nat>
    requires ValidKeys(lib, gold, request)
  {
    var g := Names(lib, gold.columns);
    var k := KeyNames(lib, request);
    seq(|k|, i requires 0 <= i < |k| => assert k[i] in k; IndexOf(g, k[i]))
  }

  /** What the comparison decides, in terms of pairings. */
  ghost function Verdict(lib: Library, predicted: ExecutionResult, gold: ExecutionResult, request: Request): Code {
    var failed := Precheck(lib, predicted, gold, request);
    if failed.Some? then failed.value
    else
      var eq := RowRelation(ColumnsOf(lib, gold, request.tolerances));
      var rows := AlignedRows(lib, predicted, gold);
      if request.orderSensitive || request.mode.ExactMode? then
        if RowsEqualInOrder(eq, rows, gold.rows) then Match else RowMismatch
      else if request.mode.MultisetMode? then
        if PairsUp(eq, rows, gold.rows) then Match else RowMismatch
      else if !ValidKeys(lib, gold, request) then InvalidKey
      else
        var keyEq := KeyRelation(ColumnsOf(lib, gold, request.tolerances), KeyIndices(lib, gold, request));
        if HasDuplicateKey(keyEq, rows) || HasDuplicateKey(keyEq, gold.rows) then DuplicateKey
        else if KeyedMatch(eq, keyEq, rows, gold.rows) then Match else RowMismatch
  }

  method CompareResults(lib: Library, predicted: ExecutionResult, gold: ExecutionResult, request: Request)
      returns (code: Code)
    ensures code == Verdict(lib, predicted, gold, request)
  {
    var failed := Precheck(lib, predicted, gold, request);
    if failed.Some? {
      return failed.value;
    }
    var columns := ColumnsOf(lib, gold, request.tolerances);
    var eq := RowRelation(columns);
    var rows := AlignedRows(lib, predicted, gold);
    if request.orderSensitive || request.mode.ExactMode? {
      for i := 0 to |rows|
        invariant forall j | 0 <= j < i :: eq(rows[j], gold.rows[j])
      {
        if !eq(rows[i], gold.rows[i]) {
          return RowMismatch;
        }
      }
      return Match;
    }
    if request.mode.MultisetMode? {
      var paired := UnorderedRowsEqual(eq, rows, gold.rows);
      return if paired then Match else RowMismatch;
    }
    if !ValidKeys(lib, gold, request) {
      return InvalidKey;
    }
    var keyEq := KeyRelation(columns, KeyIndices(lib, gold, request));
    var matched, duplicate := KeyedRowsEqual(eq, keyEq, rows, gold.rows);
    return if duplicate then DuplicateKey else if matched then Match else RowMismatch;
  }
}
