/** Laws that relate the comparison modes to each other and to plain multiset equality. */
module ComparatorLaws {
  import opened Wrappers
  import opened Matching
  import opened Comparator

  // ----- Exact and keyed matches are multiset matches -----

  ghost predicate Prechecked(lib: Library, predicted: ExecutionResult, gold: ExecutionResult, request: Request) {
    Precheck(lib, predicted, gold, request).None?
  }

  lemma {:induction false} InOrderPairsUp<T>(eq: (T, T) -> bool, predicted: seq<T>, gold: seq<T>)
    requires RowsEqualInOrder(eq, predicted, gold)
    ensures PairsUp(eq, predicted, gold)
  {
    var identity := seq(|gold|, i requires 0 <= i < |gold| => i as nat);
    assert IsPairing(eq, predicted, gold, identity);
  }

  lemma {:induction false} MatchPairsUp(lib: Library, predicted: ExecutionResult, gold: ExecutionResult,
                                        request: Request)
    requires Verdict(lib, predicted, gold, request) == Match
    ensures Prechecked(lib, predicted, gold, request)
    ensures PairsUp(RowRelation(ColumnsOf(lib, gold, request.tolerances)), AlignedRows(lib, predicted, gold), gold.rows)
  {
    var eq := RowRelation(ColumnsOf(lib, gold, request.tolerances));
    var rows := AlignedRows(lib, predicted, gold);
    if request.orderSensitive || request.mode.ExactMode? {
      InOrderPairsUp(eq, rows, gold.rows);
    } else if request.mode.KeyedMode? {
      var keyEq := KeyRelation(ColumnsOf(lib, gold, request.tolerances), KeyIndices(lib, gold, request));
      assert KeyedMatch(eq, keyEq, rows, gold.rows);
    }
  }

  /** A match of any mode, order sensitive or not, is a match as multisets. */
  lemma {:induction false} MatchImpliesMultisetMatch(lib: Library, predicted: ExecutionResult, gold: ExecutionResult,
                                                     request: Request)
    requires Verdict(lib, predicted, gold, request) == Match
    ensures Verdict(lib, predicted, gold, request.(mode := MultisetMode, orderSensitive := false)) == Match
  {
    MatchPairsUp(lib, predicted, gold, request);
    var request' := request.(mode := MultisetMode, orderSensitive := false);
    assert Precheck(lib, predicted, gold, request') == Precheck(lib, predicted, gold, request);
  }

  // ----- Row order is irrelevant to the multiset comparison -----

  /** p reorders the indices below n, and back undoes it. */
  ghost predicate Reorders(p: seq<nat>, back: seq<nat>, n: nat) {
    && |p| == |back| == n
    && (forall i | 0 <= i < n :: p[i] < n && back[p[i]] == i)
    && (forall i | 0 <= i < n :: back[i] < n && p[back[i]] == i)
  }

  function Permuted<T>(s: seq<T>, p: seq<nat>): (t: seq<T>)
    requires |p| == |s| && forall i | 0 <= i < |p| :: p[i] < |s|
    ensures |t| == |s|
  {
    seq(|s|, i requires 0 <= i < |s| => s[p[i]])
  }

  lemma {:induction false} PermutedPairsUp<T>(eq: (T, T) -> bool, predicted: seq<T>, gold: seq<T>,
                           p: seq<nat>, p': seq<nat>, q: seq<nat>, q': seq<nat>)
    requires Reorders(p, p', |predicted|) && Reorders(q, q', |gold|)
    requires PairsUp(eq, predicted, gold)
    ensures PairsUp(eq, Permuted(predicted, p), Permuted(gold, q))
  {
    var f :| IsPairing(eq, predicted, gold, f);
    var g := seq(|predicted|, i requires 0 <= i < |predicted| => q'[f[p[i]]]);
    forall i, j | 0 <= i < j < |g| ensures g[i] != g[j] {
      assert p'[p[i]] != p'[p[j]];
      assert q[g[i]] == f[p[i]] && q[g[j]] == f[p[j]];
    }
    assert IsPairing(eq, Permuted(predicted, p), Permuted(gold, q), g);
  }

  lemma {:induction false} PairsUpIgnoresOrder<T>(eq: (T, T) -> bool, predicted: seq<T>, gold: seq<T>,
                               p: seq<nat>, p': seq<nat>, q: seq<nat>, q': seq<nat>)
    requires Reorders(p, p', |predicted|) && Reorders(q, q', |gold|)
    ensures PairsUp(eq, Permuted(predicted, p), Permuted(gold, q)) <==> PairsUp(eq, predicted, gold)
  {
    if PairsUp(eq, predicted, gold) {
      PermutedPairsUp(eq, predicted, gold, p, p', q, q');
    }
    if PairsUp(eq, Permuted(predicted, p), Permuted(gold, q)) {
      PermutedPairsUp(eq, Permuted(predicted, p), Permuted(gold, q), p', p, q', q);
      assert Permuted(Permuted(predicted, p), p') == predicted;
      assert Permuted(Permuted(gold, q), q') == gold;
    }
  }

  function WithRows(r: ExecutionResult, p: seq<nat>): ExecutionResult
    requires |p| == |r.rows| && forall i | 0 <= i < |p| :: p[i] < |r.rows|
  {
    r.(rows := Permuted(r.rows, p))
  }

  lemma {:induction false} PermutedMembers<T>(s: seq<T>, p: seq<nat>, p': seq<nat>)
    requires Reorders(p, p', |s|)
    ensures forall x :: x in Permuted(s, p) <==> x in s
  {
    forall x | x in s ensures x in Permuted(s, p) {
      var v :| 0 <= v < |s| && s[v] == x;
      assert Permuted(s, p)[p'[v]] == x;
    }
  }

  /** Reordering the rows of either result never changes the verdict of the multiset comparison,
      whether it is a match, a mismatch or a failed check. */
  lemma {:induction false} MultisetVerdictIgnoresRowOrder(
      lib: Library, predicted: ExecutionResult, gold: ExecutionResult, request: Request,
      p: seq<nat>, p': seq<nat>, q: seq<nat>, q': seq<nat>)
    requires request.mode.MultisetMode? && !request.orderSensitive
    requires Reorders(p, p', |predicted.rows|) && Reorders(q, q', |gold.rows|)
    ensures Verdict(lib, WithRows(predicted, p), WithRows(gold, q), request) == Verdict(lib, predicted, gold, request)
  {
    var predicted', gold' := WithRows(predicted, p), WithRows(gold, q);
    PermutedMembers(predicted.rows, p, p');
    PermutedMembers(gold.rows, q, q');
    assert ColumnsMatch(lib, predicted', gold') <==> ColumnsMatch(lib, predicted, gold);
    assert ColumnsOf(lib, gold', request.tolerances) == ColumnsOf(lib, gold, request.tolerances);
    assert Precheck(lib, predicted', gold', request) == Precheck(lib, predicted, gold, request);
    if Prechecked(lib, predicted, gold, request) {
      var eq := RowRelation(ColumnsOf(lib, gold, request.tolerances));
      assert AlignedRows(lib, predicted', gold') == Permuted(AlignedRows(lib, predicted, gold), p);
      PairsUpIgnoresOrder(eq, AlignedRows(lib, predicted, gold), gold.rows, p, p', q, q');
    }
  }

  // ----- When row equality is an equivalence -----

  ghost predicate SymmetricTransitive<T(!new)>(eq: (T, T) -> bool) {
    && (forall a, b :: eq(a, b) ==> eq(b, a))
    && (forall a, b, c :: eq(a, b) && eq(b, c) ==> eq(a, c))
  }

  /** How many rows are equal to r. */
  function CountEqual<T>(eq: (T, T) -> bool, rows: seq<T>, r: T): nat {
    if rows == [] then 0 else (if eq(rows[0], r) then 1 else 0) + CountEqual(eq, rows[1..], r)
  }

  ghost predicate SameClassCounts<T(!new)>(eq: (T, T) -> bool, predicted: seq<T>, gold: seq<T>) {
    forall r :: CountEqual(eq, predicted, r) == CountEqual(eq, gold, r)
  }

  function Without<T>(s: seq<T>, g: nat): seq<T>
    requires g < |s|
  {
    s[..g] + s[g + 1..]
  }

  lemma {:induction false} CountWithout<T>(eq: (T, T) -> bool, s: seq<T>, g: nat, r: T)
    requires g < |s|
    ensures CountEqual(eq, s, r) == CountEqual(eq, Without(s, g), r) + if eq(s[g], r) then 1 else 0
  {
    if g == 0 {
      assert Without(s, g) == s[1..];
    } else {
      CountWithout(eq, s[1..], g - 1, r);
      assert Without(s, g) == [s[0]] + Without(s[1..], g - 1);
    }
  }

  lemma {:induction false} CountedRow<T>(eq: (T, T) -> bool, s: seq<T>, r: T) returns (g: nat)
    requires CountEqual(eq, s, r) > 0
    ensures g < |s| && eq(s[g], r)
  {
    if eq(s[0], r) {
      g := 0;
    } else {
      g := CountedRow(eq, s[1..], r);
      g := g + 1;
    }
  }

  lemma {:induction false} DropPair<T>(eq: (T, T) -> bool, predicted: seq<T>, gold: seq<T>, f: seq<nat>)
    requires IsPairing(eq, predicted, gold, f) && |predicted| > 0
    ensures PairsUp(eq, predicted[1..], Without(gold, f[0]))
  {
    var h := seq(|f| - 1, i requires 0 <= i < |f| - 1 =>
      if f[i + 1] < f[0] then f[i + 1] else (f[i + 1] - 1) as nat);
    assert IsPairing(eq, predicted[1..], Without(gold, f[0]), h);
  }

  lemma {:induction false} AddPair<T>(eq: (T, T) -> bool, predicted: seq<T>, gold: seq<T>, g: nat)
    requires |predicted| > 0 && g < |gold| && eq(predicted[0], gold[g])
    requires PairsUp(eq, predicted[1..], Without(gold, g))
    ensures PairsUp(eq, predicted, gold)
  {
    var h :| IsPairing(eq, predicted[1..], Without(gold, g), h);
    var f := [g] + seq(|h|, i requires 0 <= i < |h| => if h[i] < g then h[i] else h[i] + 1);
    forall i | 0 <= i < |predicted| ensures 0 <= f[i] < |gold| && eq(predicted[i], gold[f[i]]) {
      if i > 0 {
        assert eq(predicted[1..][i - 1], Without(gold, g)[h[i - 1]]);
      }
    }
    assert IsPairing(eq, predicted, gold, f);
  }

  /** A row in such a relation to another is in relation to itself. */
  lemma {:induction false} PairedEqualsItself<T(!new)>(eq: (T, T) -> bool, predicted: seq<T>, gold: seq<T>)
    requires SymmetricTransitive(eq) && PairsUp(eq, predicted, gold)
    ensures forall r | r in predicted :: eq(r, r)
  {
    var f :| IsPairing(eq, predicted, gold, f);
    forall r | r in predicted ensures eq(r, r) {
      var p :| 0 <= p < |predicted| && predicted[p] == r;
      assert eq(r, gold[f[p]]);
    }
  }

  /**
   * If row equality is symmetric and transitive, pairing the rows is having equally many rows in every class,
   * with no row that equals nothing.
   */
  lemma {:induction false} PairsUpIsClassEquality<T(!new)>(eq: (T, T) -> bool, predicted: seq<T>, gold: seq<T>)
    requires SymmetricTransitive(eq) && |predicted| == |gold|
    ensures PairsUp(eq, predicted, gold) <==>
      (forall r | r in predicted :: eq(r, r)) && SameClassCounts(eq, predicted, gold)
    decreases |predicted|
  {
    if predicted == [] {
      assert IsPairing(eq, predicted, gold, []);
    } else {
      if PairsUp(eq, predicted, gold) {
        PairedEqualsItself(eq, predicted, gold);
        var f :| IsPairing(eq, predicted, gold, f);
        DropPair(eq, predicted, gold, f);
        PairsUpIsClassEquality(eq, predicted[1..], Without(gold, f[0]));
        forall r ensures CountEqual(eq, predicted, r) == CountEqual(eq, gold, r) {
          CountWithout(eq, gold, f[0], r);
        }
      }
      if (forall r | r in predicted :: eq(r, r)) && SameClassCounts(eq, predicted, gold) {
        assert predicted[0] in predicted && CountEqual(eq, predicted, predicted[0]) > 0;
        var g := CountedRow(eq, gold, predicted[0]);
        forall r ensures CountEqual(eq, predicted[1..], r) == CountEqual(eq, Without(gold, g), r) {
          CountWithout(eq, gold, g, r);
        }
        PairsUpIsClassEquality(eq, predicted[1..], Without(gold, g));
        AddPair(eq, predicted, gold, g);
      }
    }
  }

  // ----- When first come, first served is enough -----

  /** The first compatible gold row, or |gold|. */
  function FirstCompatible<T>(eq: (T, T) -> bool, row: T, gold: seq<T>): (g: nat)
    ensures g <= |gold| && (g < |gold| ==> eq(row, gold[g]))
    ensures forall h | 0 <= h < g :: !eq(row, gold[h])
  {
    if gold == [] || eq(row, gold[0]) then 0 else 1 + FirstCompatible(eq, row, gold[1..])
  }

  /** Gives each predicted row in turn the first compatible gold row that is left. */
  predicate FirstCome<T>(eq: (T, T) -> bool, predicted: seq<T>, gold: seq<T>)
    decreases |predicted|
  {
    predicted == [] || (
      var g := FirstCompatible(eq, predicted[0], gold);
      g < |gold| && FirstCome(eq, predicted[1..], Without(gold, g)))
  }

  /** Rows with one compatible gold row in common have all of them in common. */
  ghost predicate Difunctional<T(!new)>(eq: (T, T) -> bool) {
    forall p, q, g, h :: eq(p, g) && eq(p, h) && eq(q, g) ==> eq(q, h)
  }

  /** Then the first row may have any compatible gold row: its owner takes the other. */
  lemma {:induction false} AnyIsGood<T(!new)>(eq: (T, T) -> bool, predicted: seq<T>, gold: seq<T>, g: nat)
    requires Difunctional(eq) && PairsUp(eq, predicted, gold)
    requires |predicted| > 0 && g < |gold| && eq(predicted[0], gold[g])
    ensures PairsUp(eq, predicted[1..], Without(gold, g))
  {
    var f :| IsPairing(eq, predicted, gold, f);
    var h := f[0 := g];
    if q :| 0 < q < |f| && f[q] == g {
      h := h[q := f[0]];
      assert eq(predicted[0], gold[f[0]]) && eq(predicted[q], gold[f[q]]);
    }
    assert IsPairing(eq, predicted, gold, h);
    DropPair(eq, predicted, gold, h);
  }

  lemma {:induction false} FirstComeFinds<T(!new)>(eq: (T, T) -> bool, predicted: seq<T>, gold: seq<T>)
    requires Difunctional(eq)
    ensures FirstCome(eq, predicted, gold) <==> PairsUp(eq, predicted, gold)
    decreases |predicted|
  {
    if predicted == [] {
      assert IsPairing(eq, predicted, gold, []);
    } else {
      var g := FirstCompatible(eq, predicted[0], gold);
      if g < |gold| {
        FirstComeFinds(eq, predicted[1..], Without(gold, g));
        if PairsUp(eq, predicted, gold) {
          AnyIsGood(eq, predicted, gold, g);
        } else if PairsUp(eq, predicted[1..], Without(gold, g)) {
          AddPair(eq, predicted, gold, g);
        }
      }
    }
  }

  ghost predicate FindsPairings<T(!new)>(eq: (T, T) -> bool) {
    forall predicted, gold | |predicted| == |gold| :: FirstCome(eq, predicted, gold) <==> PairsUp(eq, predicted, gold)
  }

  /** First come, first served finds every pairing exactly for these relations; any other needs the search. */
  lemma {:induction false} FirstComeIsEnough<T(!new)>(eq: (T, T) -> bool)
    ensures FindsPairings(eq) <==> Difunctional(eq)
  {
    if Difunctional(eq) {
      forall predicted, gold | |predicted| == |gold|
        ensures FirstCome(eq, predicted, gold) <==> PairsUp(eq, predicted, gold)
      {
        FirstComeFinds(eq, predicted, gold);
      }
    }
    if FindsPairings(eq) {
      forall p, q, g, h | eq(p, g) && eq(p, h) && eq(q, g) ensures eq(q, h) {
        assert IsPairing(eq, [p, q], [g, h], [1, 0]);
        assert FirstCome(eq, [p, q], [g, h]) && FirstCompatible(eq, p, [g, h]) == 0;
        assert [p, q][1..] == [q] && Without([g, h], 0) == [h];
        assert FirstCome(eq, [q], [h]);
      }
    }
  }

  // ----- Value equality without a tolerance, or with a zero one -----

  lemma {:induction false} RStripStable(s: string)
    ensures RStrip(RStrip(s)) == RStrip(s)
  {
    if |s| > 0 && IsSpace(s[|s| - 1]) {
      RStripStable(s[..|s| - 1]);
    }
  }

  lemma {:induction false} StrictReflexive(a: Value)
    ensures StrictEqual(a, a)
  {
    if a.List? {
      forall i | 0 <= i < |a.items| ensures StrictEqual(a.items[i], a.items[i]) {
        StrictReflexive(a.items[i]);
      }
    } else if a.Dict? {
      forall k | k in a.entries.Keys ensures StrictEqual(a.entries[k], a.entries[k]) {
        StrictReflexive(a.entries[k]);
      }
    }
  }

  lemma {:induction false} StrictSymmetric(a: Value, b: Value)
    requires StrictEqual(a, b)
    ensures StrictEqual(b, a)
  {
    if a.List? {
      forall i | 0 <= i < |a.items| ensures StrictEqual(b.items[i], a.items[i]) {
        StrictSymmetric(a.items[i], b.items[i]);
      }
    } else if a.Dict? {
      forall k | k in a.entries.Keys ensures StrictEqual(b.entries[k], a.entries[k]) {
        StrictSymmetric(a.entries[k], b.entries[k]);
      }
    }
  }

  lemma {:induction false} StrictTransitive(a: Value, b: Value, c: Value)
    requires StrictEqual(a, b) && StrictEqual(b, c)
    ensures StrictEqual(a, c)
  {
    if a.List? {
      forall i | 0 <= i < |a.items| ensures StrictEqual(a.items[i], c.items[i]) {
        StrictTransitive(a.items[i], b.items[i], c.items[i]);
      }
    } else if a.Dict? {
      forall k | k in a.entries.Keys ensures StrictEqual(a.entries[k], c.entries[k]) {
        StrictTransitive(a.entries[k], b.entries[k], c.entries[k]);
      }
    }
  }

  /** Strictly equal normalized strings are the same string, hence the same instant. */
  lemma {:induction false} StrictSameInstant(lib: Library, a: Value, b: Value)
    requires StrictEqual(NormalizeString(a), NormalizeString(b))
    ensures Instant(lib, NormalizeString(a)) == Instant(lib, NormalizeString(b))
  {
    if a.Str? {
      RStripStable(a.s);
    }
    if b.Str? {
      RStripStable(b.s);
    }
  }

  /** |x - y| against both parts of the tolerance. */
  predicate Near(x: real, y: real, tolerance: Tolerance) {
    Abs(x - y) <= tolerance.absolute || Abs(x - y) <= tolerance.relative * Abs(y)
  }

  /** The longest prefix that does not end in a space. */
  lemma {:induction false} RStripTells(s: string)
    ensures RStrip(s) <= s && (RStrip(s) != "" ==> !IsSpace(RStrip(s)[|RStrip(s)| - 1]))
    ensures forall i | |RStrip(s)| <= i < |s| :: IsSpace(s[i])
  {
    if |s| > 0 && IsSpace(s[|s| - 1]) {
      RStripTells(s[..|s| - 1]);
    }
  }

  /** The value with all strings in it stripped; names of members stay. */
  function Stripped(v: Value): Value {
    match v
    case Str(s) => Str(RStrip(s))
    case List(items) => List(seq(|items|, i requires 0 <= i < |items| => Stripped(items[i])))
    case Dict(entries) => Dict(map k | k in entries.Keys :: Stripped(entries[k]))
    case _ => v
  }

  /** Strict equality is identity after stripping; types are never mixed. */
  lemma {:induction false} StrictIsIdentity(a: Value, b: Value)
    ensures StrictEqual(a, b) <==> Stripped(a) == Stripped(b)
  {
    if a.List? && b.List? && |a.items| == |b.items| {
      forall i | 0 <= i < |a.items| ensures StrictEqual(a.items[i], b.items[i]) <==>
        Stripped(a).items[i] == Stripped(b).items[i]
      {
        StrictIsIdentity(a.items[i], b.items[i]);
      }
    } else if a.Dict? && b.Dict? {
      assert Stripped(a).entries.Keys == a.entries.Keys && Stripped(b).entries.Keys == b.entries.Keys;
      if a.entries.Keys == b.entries.Keys {
        forall k | k in a.entries.Keys
          ensures StrictEqual(a.entries[k], b.entries[k]) <==> Stripped(a).entries[k] == Stripped(b).entries[k]
        {
          StrictIsIdentity(a.entries[k], b.entries[k]);
        }
      }
    }
  }

  lemma {:induction false} StrictTells(p: Value, g: Value)
    ensures StrictEqual(NormalizeString(p), NormalizeString(g)) <==> Stripped(p) == Stripped(g)
  {
    if p.Str? {
      RStripStable(p.s);
    }
    if g.Str? {
      RStripStable(g.s);
    }
    StrictIsIdentity(NormalizeString(p), NormalizeString(g));
  }

  /** The value is this number, or a text of it. */
  predicate Reads(lib: Library, v: Value, x: real) {
    || (v.Int? && v.i as real == x) || (v.Float? && v.x == x)
    || (v.Str? && lib.decimal(RStrip(v.s)) == Some(x))
  }

  /** Both are numbers, or texts of such, and near. */
  ghost predicate NearNumbers(lib: Library, p: Value, g: Value, tolerance: Tolerance) {
    exists x, y :: Reads(lib, p, x) && Reads(lib, g, y) && Near(x, y, tolerance)
  }

  /** Texts of instants, once spaces at the end are gone. */
  predicate AreInstants(lib: Library, p: Value, g: Value) {
    p.Str? && g.Str? && lib.instant(RStrip(p.s)).Some? && lib.instant(RStrip(g.s)).Some?
  }

  lemma {:induction false} ReadsTells(lib: Library, v: Value, x: real)
    ensures Reads(lib, v, x) <==> Number(lib, NormalizeString(v)) == Some(x)
  {
  }

  lemma {:induction false} DecimalsTell(lib: Library, s: Value, t: Value, tolerance: Tolerance)
    ensures DecimalEqual(lib, s, t, tolerance) <==>
      && Number(lib, s).Some? && Number(lib, t).Some?
      && Near(Number(lib, s).value, Number(lib, t).value, tolerance)
  {
    var one, other := Number(lib, s), Number(lib, t);
    if one.Some? && other.Some? {
      assert DecimalEqual(lib, s, t, tolerance) <==> Near(one.value, other.value, tolerance);
    }
  }

  lemma {:induction false} NumbersTell(lib: Library, p: Value, g: Value, oid: int, tolerance: Tolerance)
    requires !p.Null? && !g.Null?
    ensures ValueEqual(lib, p, g, oid, Some(tolerance)) <==> NearNumbers(lib, p, g, tolerance)
  {
    var s, t := NormalizeString(p), NormalizeString(g);
    DecimalsTell(lib, s, t, tolerance);
    assert ValueEqual(lib, p, g, oid, Some(tolerance)) <==> DecimalEqual(lib, s, t, tolerance);
    var one, other := Number(lib, s), Number(lib, t);
    if one.Some? && other.Some? && Near(one.value, other.value, tolerance) {
      ReadsTells(lib, p, one.value);
      ReadsTells(lib, g, other.value);
    }
    if NearNumbers(lib, p, g, tolerance) {
      var x, y :| Reads(lib, p, x) && Reads(lib, g, y) && Near(x, y, tolerance);
      ReadsTells(lib, p, x);
      ReadsTells(lib, g, y);
    }
  }

  lemma {:induction false} InstantsTell(lib: Library, p: Value, g: Value)
    requires AreInstants(lib, p, g)
    ensures ValueEqual(lib, p, g, 1184, None) <==> lib.instant(RStrip(p.s)) == lib.instant(RStrip(g.s))
  {
  }

  lemma {:induction false} OthersTell(lib: Library, p: Value, g: Value, oid: int)
    requires !p.Null? && !g.Null? && !(oid == 1184 && AreInstants(lib, p, g))
    ensures ValueEqual(lib, p, g, oid, None) <==> Stripped(p) == Stripped(g)
  {
    StrictTells(p, g);
  }

  /** Null equals only null; numbers under a tolerance are near; instants are compared as such; else identity. */
  ghost predicate Equals(lib: Library, p: Value, g: Value, oid: int, tolerance: Option<Tolerance>) {
    if p.Null? || g.Null? then p == g
    else if tolerance.Some? then NearNumbers(lib, p, g, tolerance.value)
    else if oid == 1184 && AreInstants(lib, p, g) then lib.instant(RStrip(p.s)) == lib.instant(RStrip(g.s))
    else Stripped(p) == Stripped(g)
  }

  lemma {:induction false} ValuesTell(lib: Library, p: Value, g: Value, oid: int, tolerance: Option<Tolerance>)
    ensures ValueEqual(lib, p, g, oid, tolerance) <==> Equals(lib, p, g, oid, tolerance)
  {
    if p.Null? || g.Null? {
    } else if tolerance.Some? {
      NumbersTell(lib, p, g, oid, tolerance.value);
    } else if oid == 1184 && AreInstants(lib, p, g) {
      InstantsTell(lib, p, g);
    } else {
      OthersTell(lib, p, g, oid);
    }
  }

  // ----- The checks before the rows -----

  /** The tolerance at place t is for gold column i. */
  predicate IsFor(lib: Library, tolerances: seq<(string, Tolerance)>, t: int, gold: ExecutionResult, i: int) {
    && 0 <= t < |tolerances| && 0 <= i < |gold.columns|
    && lib.columnName(tolerances[t].0) == lib.columnName(gold.columns[i].name)
  }

  ghost predicate HasTolerance(lib: Library, tolerances: seq<(string, Tolerance)>, gold: ExecutionResult, i: int) {
    exists t :: IsFor(lib, tolerances, t, gold, i)
  }

  ghost predicate HasColumn(lib: Library, tolerances: seq<(string, Tolerance)>, gold: ExecutionResult, t: int) {
    exists i :: IsFor(lib, tolerances, t, gold, i)
  }

  /** The last tolerance under a name is the one that counts. */
  lemma {:induction false} LastToleranceWins(lib: Library, tolerances: seq<(string, Tolerance)>, name: string)
    returns (t: int)
    ensures ToleranceFor(lib, tolerances, name).None? ==>
      forall i | 0 <= i < |tolerances| :: lib.columnName(tolerances[i].0) != name
    ensures ToleranceFor(lib, tolerances, name).Some? ==>
      && 0 <= t < |tolerances| && lib.columnName(tolerances[t].0) == name
      && ToleranceFor(lib, tolerances, name) == Some(tolerances[t].1)
      && forall i | t < i < |tolerances| :: lib.columnName(tolerances[i].0) != name
  {
    t := |tolerances| - 1;
    if tolerances != [] && lib.columnName(tolerances[t].0) != name {
      t := LastToleranceWins(lib, tolerances[..|tolerances| - 1], name);
    }
  }

  lemma {:induction false} TolerancesOfColumns(lib: Library, gold: ExecutionResult,
                                               tolerances: seq<(string, Tolerance)>)
    ensures
      var c := ColumnsOf(lib, gold, tolerances);
      forall i | 0 <= i < |gold.columns| ::
        c.oids[i] == gold.columns[i].oid && (c.tolerances[i].Some? <==> HasTolerance(lib, tolerances, gold, i))
  {
    forall i | 0 <= i < |gold.columns|
      ensures ColumnsOf(lib, gold, tolerances).tolerances[i].Some? <==> HasTolerance(lib, tolerances, gold, i)
    {
      var t := LastToleranceWins(lib, tolerances, Names(lib, gold.columns)[i]);
      assert ColumnsOf(lib, gold, tolerances).tolerances[i].Some? ==> IsFor(lib, tolerances, t, gold, i);
    }
  }

  ghost predicate SomeWithoutColumn(lib: Library, gold: ExecutionResult, request: Request) {
    exists t :: 0 <= t < |request.tolerances| && !HasColumn(lib, request.tolerances, gold, t)
  }

  ghost predicate SomeNotNumeric(lib: Library, gold: ExecutionResult, request: Request) {
    exists i :: HasTolerance(lib, request.tolerances, gold, i) && gold.columns[i].oid !in {20, 21, 23, 700, 701, 1700}
  }

  ghost predicate SomeMissing(lib: Library, gold: ExecutionResult, request: Request) {
    exists i :: 0 <= i < |gold.columns| && gold.columns[i].oid in {700, 701}
                && !HasTolerance(lib, request.tolerances, gold, i)
  }

  /** The first of these to apply is the verdict; without one the rows decide. */
  ghost predicate FirstFault(lib: Library, predicted: ExecutionResult, gold: ExecutionResult, request: Request,
                             fault: Option<Code>) {
    if request.mode.NoneMode? then fault == Some(NotApplicable)
    else if predicted.truncated || gold.truncated then fault == Some(TruncatedResult)
    else if !ColumnsMatch(lib, predicted, gold) || SomeWithoutColumn(lib, gold, request)
    then fault == Some(ColumnMismatch)
    else if SomeNotNumeric(lib, gold, request) then fault == Some(InvalidTolerance)
    else if |predicted.rows| + |gold.rows| > 0 && SomeMissing(lib, gold, request)
    then fault == Some(ToleranceRequired)
    else if |predicted.rows| != |gold.rows| then fault == Some(GrainMismatch)
    else fault == None
  }

  lemma {:induction false} ColumnOfTolerance(lib: Library, gold: ExecutionResult, tolerances: seq<(string, Tolerance)>,
                                             t: nat)
    requires t < |tolerances|
    ensures lib.columnName(tolerances[t].0) in Names(lib, gold.columns) <==> HasColumn(lib, tolerances, gold, t)
  {
    var g, name := Names(lib, gold.columns), lib.columnName(tolerances[t].0);
    if name in g {
      var i :| 0 <= i < |g| && g[i] == name;
      assert IsFor(lib, tolerances, t, gold, i);
    }
    if HasColumn(lib, tolerances, gold, t) {
      var i :| IsFor(lib, tolerances, t, gold, i);
      assert g[i] == name;
    }
  }

  lemma {:induction false} TolerancesWithoutColumn(lib: Library, gold: ExecutionResult, request: Request)
    ensures SomeWithoutColumn(lib, gold, request) <==>
      exists t | t in request.tolerances :: lib.columnName(t.0) !in Names(lib, gold.columns)
  {
    forall t | 0 <= t < |request.tolerances|
      ensures lib.columnName(request.tolerances[t].0) in Names(lib, gold.columns)
        <==> HasColumn(lib, request.tolerances, gold, t)
    {
      ColumnOfTolerance(lib, gold, request.tolerances, t);
    }
  }

  lemma {:induction false} ColumnsAndTolerances(lib: Library, gold: ExecutionResult, request: Request)
    ensures
      var c := ColumnsOf(lib, gold, request.tolerances);
      && (SomeNotNumeric(lib, gold, request) <==>
            exists i | 0 <= i < |c.oids| :: c.tolerances[i].Some? && c.oids[i] !in NUMERIC_OIDS)
      && (SomeMissing(lib, gold, request) <==>
            exists i | 0 <= i < |c.oids| :: c.oids[i] in FLOAT_OIDS && c.tolerances[i].None?)
  {
    TolerancesOfColumns(lib, gold, request.tolerances);
  }

  lemma {:induction false} ChecksAreExact(lib: Library, predicted: ExecutionResult, gold: ExecutionResult,
                                          request: Request)
    ensures FirstFault(lib, predicted, gold, request, Precheck(lib, predicted, gold, request))
  {
    TolerancesWithoutColumn(lib, gold, request);
    ColumnsAndTolerances(lib, gold, request);
  }

  predicate IsZero(tolerance: Option<Tolerance>) {
    tolerance == None || tolerance == Some(Tolerance(0.0, 0.0))
  }

  /** Under no or a zero tolerance; a zero tolerance relates only numbers, and each to itself. */
  lemma {:induction false} ValueEquivalence(lib: Library, a: Value, b: Value, c: Value, oid: int,
                                            tolerance: Option<Tolerance>)
    requires IsZero(tolerance)
    ensures ValueEqual(lib, a, a, oid, tolerance) <==>
      tolerance.None? || a.Null? || Number(lib, NormalizeString(a)).Some?
    ensures ValueEqual(lib, a, b, oid, tolerance) ==> ValueEqual(lib, b, a, oid, tolerance)
    ensures ValueEqual(lib, a, b, oid, tolerance) && ValueEqual(lib, b, c, oid, tolerance) ==>
      ValueEqual(lib, a, c, oid, tolerance)
  {
    var p, q, r := NormalizeString(a), NormalizeString(b), NormalizeString(c);
    StrictReflexive(p);
    if StrictEqual(p, q) {
      StrictSymmetric(p, q);
      StrictSameInstant(lib, a, b);
    }
    if StrictEqual(q, r) {
      StrictSameInstant(lib, b, c);
    }
    if StrictEqual(p, q) && StrictEqual(q, r) {
      StrictTransitive(p, q, r);
    }
  }

  ghost predicate Exactly(c: Columns) {
    |c.oids| == |c.tolerances| && forall i | 0 <= i < |c.tolerances| :: IsZero(c.tolerances[i])
  }

  lemma {:induction false} RowEquivalence(c: Columns)
    requires Exactly(c)
    ensures SymmetricTransitive(RowRelation(c))
  {
    var eq := RowRelation(c);
    forall a, b | eq(a, b) ensures eq(b, a) {
      forall i | 0 <= i < |a| ensures ValueEqual(c.lib, b[i], a[i], c.oids[i], c.tolerances[i]) {
        ValueEquivalence(c.lib, a[i], b[i], a[i], c.oids[i], c.tolerances[i]);
      }
    }
    forall x, y, z | eq(x, y) && eq(y, z) ensures eq(x, z) {
      forall i | 0 <= i < |x| ensures ValueEqual(c.lib, x[i], z[i], c.oids[i], c.tolerances[i]) {
        ValueEquivalence(c.lib, x[i], y[i], z[i], c.oids[i], c.tolerances[i]);
      }
    }
  }

  ghost predicate AllZero(tolerances: seq<(string, Tolerance)>) {
    forall i | 0 <= i < |tolerances| :: tolerances[i].1 == Tolerance(0.0, 0.0)
  }

  lemma {:induction false} ZeroForAll(lib: Library, tolerances: seq<(string, Tolerance)>, name: string)
    requires AllZero(tolerances)
    ensures IsZero(ToleranceFor(lib, tolerances, name))
  {
    if tolerances != [] {
      ZeroForAll(lib, tolerances[..|tolerances| - 1], name);
    }
  }

  /**
   * With no tolerance but zero, as it is by default, the multiset comparison is equality of multisets of row
   * classes, and no row may hold under a tolerance what is not a number.
   */
  lemma {:induction false} MultisetWithZeroTolerances(lib: Library, predicted: ExecutionResult,
                                                      gold: ExecutionResult, request: Request)
    requires request.mode.MultisetMode? && !request.orderSensitive && AllZero(request.tolerances)
    requires Prechecked(lib, predicted, gold, request)
    ensures
      var eq := RowRelation(ColumnsOf(lib, gold, request.tolerances));
      var rows := AlignedRows(lib, predicted, gold);
      Verdict(lib, predicted, gold, request) == Match <==>
      (forall r | r in rows :: eq(r, r)) && SameClassCounts(eq, rows, gold.rows)
  {
    var c := ColumnsOf(lib, gold, request.tolerances);
    forall i | 0 <= i < |c.tolerances| ensures IsZero(c.tolerances[i]) {
      ZeroForAll(lib, request.tolerances, Names(lib, gold.columns)[i]);
    }
    RowEquivalence(c);
    PairsUpIsClassEquality(RowRelation(c), AlignedRows(lib, predicted, gold), gold.rows);
  }

  // ----- Under any other tolerance it is not -----

  function WithinTolerance(lib: Library, tolerance: Tolerance): (Value, Value) -> bool {
    (p, g) => DecimalEqual(lib, p, g, tolerance)
  }

  ghost predicate Symmetric<T(!new)>(eq: (T, T) -> bool) {
    forall a, b :: eq(a, b) ==> eq(b, a)
  }

  ghost predicate Transitive<T(!new)>(eq: (T, T) -> bool) {
    forall a, b, c :: eq(a, b) && eq(b, c) ==> eq(a, c)
  }

  /** Numbers related one way only. */
  lemma {:induction false} OneWay(tolerance: Tolerance) returns (x: real, y: real)
    requires tolerance.absolute >= 0.0 && tolerance.relative > 0.0
    ensures Near(x, y, tolerance) && !Near(y, x, tolerance)
  {
    var a, r := tolerance.absolute, tolerance.relative;
    if r < 1.0 {
      y := (a + 1.0) / r;
      x := y - (a + 1.0);
      assert r * y == a + 1.0;
      assert r * x == (a + 1.0) - r * (a + 1.0);
      assert r * (a + 1.0) <= a + 1.0 && r * (a + 1.0) > 0.0;
      assert Abs(x) == x && Abs(y) == y && Abs(x - y) == a + 1.0;
    } else {
      x, y := 0.0, a + 1.0;
      assert r * (a + 1.0) >= a + 1.0;
    }
  }

  /** Numbers each related to the next, but not the first to the last. */
  lemma {:induction false} Stretch(tolerance: Tolerance) returns (x: real, y: real, z: real)
    requires tolerance.absolute >= 0.0 && tolerance.relative >= 0.0 && tolerance != Tolerance(0.0, 0.0)
    ensures Near(z, y, tolerance) && Near(y, x, tolerance) && !Near(z, x, tolerance) && Near(y, y, tolerance)
  {
    var a, r := tolerance.absolute, tolerance.relative;
    if r == 0.0 {
      x, y, z := 0.0, a, 2.0 * a;
    } else {
      x := (a + 1.0) / r;
      assert r * x == a + 1.0;
      y := x + (a + 1.0);
      assert r * y == (a + 1.0) + r * (a + 1.0);
      z := y + r * y;
      assert r * (a + 1.0) >= 0.0;
      assert Abs(z - x) == z - x && z - x > a + 1.0;
    }
  }

  lemma {:induction false} WithoutRelativePart(lib: Library, tolerance: Tolerance)
    requires tolerance.relative == 0.0 && tolerance.absolute >= 0.0
    ensures Symmetric(WithinTolerance(lib, tolerance))
  {
    forall a, b | DecimalEqual(lib, a, b, tolerance) ensures DecimalEqual(lib, b, a, tolerance) {
      var x, y := Number(lib, a).value, Number(lib, b).value;
      assert Abs(x - y) == Abs(y - x);
    }
  }

  lemma {:induction false} ZeroIsEquality(lib: Library, p: Value, g: Value)
    ensures DecimalEqual(lib, p, g, Tolerance(0.0, 0.0)) <==>
      Number(lib, p).Some? && Number(lib, p) == Number(lib, g)
  {
  }

  lemma {:induction false} ZeroIsTransitive(lib: Library)
    ensures Transitive(WithinTolerance(lib, Tolerance(0.0, 0.0)))
    ensures Difunctional(WithinTolerance(lib, Tolerance(0.0, 0.0)))
  {
    var eq := WithinTolerance(lib, Tolerance(0.0, 0.0));
    forall p, g ensures eq(p, g) <==> Number(lib, p).Some? && Number(lib, p) == Number(lib, g) {
      ZeroIsEquality(lib, p, g);
    }
  }

  lemma {:induction false} FloatsNear(lib: Library, x: real, y: real, tolerance: Tolerance)
    ensures WithinTolerance(lib, tolerance)(Float(x), Float(y)) <==> Near(x, y, tolerance)
  {
  }

  lemma {:induction false} OtherIsNotTransitive(lib: Library, tolerance: Tolerance)
    requires tolerance.absolute >= 0.0 && tolerance.relative >= 0.0 && tolerance != Tolerance(0.0, 0.0)
    ensures !Transitive(WithinTolerance(lib, tolerance)) && !Difunctional(WithinTolerance(lib, tolerance))
  {
    var eq := WithinTolerance(lib, tolerance);
    var x, y, z := Stretch(tolerance);
    FloatsNear(lib, z, y, tolerance);
    FloatsNear(lib, y, x, tolerance);
    FloatsNear(lib, y, y, tolerance);
    FloatsNear(lib, z, x, tolerance);
    assert eq(Float(z), Float(y)) && eq(Float(y), Float(x)) && eq(Float(y), Float(y)) && !eq(Float(z), Float(x));
  }

  /**
   * The comparison under a tolerance is symmetric exactly without a relative part; it is transitive, and first
   * come, first served finds every pairing, exactly when both parts are zero.
   */
  lemma {:induction false} ToleranceLaws(lib: Library, tolerance: Tolerance)
    requires tolerance.absolute >= 0.0 && tolerance.relative >= 0.0
    ensures var eq := WithinTolerance(lib, tolerance);
      && (Symmetric(eq) <==> tolerance.relative == 0.0)
      && (Transitive(eq) <==> tolerance == Tolerance(0.0, 0.0))
      && (FindsPairings(eq) <==> tolerance == Tolerance(0.0, 0.0))
  {
    var eq := WithinTolerance(lib, tolerance);
    FirstComeIsEnough(eq);
    if tolerance.relative > 0.0 {
      var x, y := OneWay(tolerance);
      FloatsNear(lib, x, y, tolerance);
      FloatsNear(lib, y, x, tolerance);
      assert eq(Float(x), Float(y)) && !eq(Float(y), Float(x));
    } else {
      WithoutRelativePart(lib, tolerance);
    }
    if tolerance == Tolerance(0.0, 0.0) {
      ZeroIsTransitive(lib);
    } else {
      OtherIsNotTransitive(lib, tolerance);
    }
  }
}
