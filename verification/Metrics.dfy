/** Retrieval metrics: ranked ids, counts by stage, their sums,
    and interpolated percentiles. Ratios and percentiles are over
    the reals. */
module Metrics {
  import opened Ids
  import opened Sorting
  import opened Wrappers

  // Ranked ids

  /** proper: the id is a non-empty string. */
  datatype Item = Item(rank: Option<int>, id: int, proper: bool)

  datatype MetricError = EvidenceInvalid

  function RankedPairs(items: seq<Item>): seq<(int, int)> {
    if items == [] then []
    else
      var earlier, last := RankedPairs(items[..|items| - 1]), items[|items| - 1];
      if last.rank.None? then earlier else earlier + [(last.rank.value, last.id)]
  }

  /** Each ranked item gives its pair, at its place. */
  lemma {:induction false} RankedPairsTell(before: seq<Item>, item: Item, after: seq<Item>)
    ensures RankedPairs(before + [item] + after)
      == RankedPairs(before) + (if item.rank.Some? then [(item.rank.value, item.id)] else []) + RankedPairs(after)
    decreases |after|
  {
    var all := before + [item] + after;
    var n := |all| - 1;
    if after == [] {
      assert all[..n] == before && all[n] == item;
    } else {
      assert all[..n] == before + [item] + after[..|after| - 1] && all[n] == after[|after| - 1];
      RankedPairsTell(before, item, after[..|after| - 1]);
    }
  }

  predicate RankOk(item: Item) {
    item.rank.Some? ==> item.rank.value > 0 && item.proper
  }

  predicate PairBefore(a: (int, int), b: (int, int)) {
    a.0 < b.0 || (a.0 == b.0 && a.1 <= b.1)
  }

  function PairOrder(): ((int, int), (int, int)) -> bool {
    (a, b) => PairBefore(a, b)
  }

  lemma {:induction false} PairOrderIsTotal()
    ensures TotalPreorder(PairOrder())
  {
    forall x, y, z ensures Chains(PairOrder(), x, y, z) {
    }
  }

  /** The pairs give the ids of the list the ranks 1, 2, and so on, and ranks nothing else. */
  ghost predicate Numbers(pairs: seq<(int, int)>, ids: seq<int>) {
    && NoRepeats(ids) && |pairs| == |ids|
    && (forall i | 0 <= i < |pairs| :: 1 <= pairs[i].0 <= |ids| && ids[pairs[i].0 - 1] == pairs[i].1)
    && (forall k | 0 <= k < |ids| :: (k + 1, ids[k]) in pairs)
  }

  method OrderedRetrievalIds(items: seq<Item>) returns (r: Result<seq<int>, MetricError>)
    ensures r.Ok? ==> (forall i | 0 <= i < |items| :: RankOk(items[i])) && Numbers(RankedPairs(items), r.value)
    ensures r.Err? ==>
      (exists i :: 0 <= i < |items| && !RankOk(items[i])) || forall ids :: !Numbers(RankedPairs(items), ids)
  {
    var ranked: seq<(int, int)> := [];
    for i := 0 to |items|
      invariant ranked == RankedPairs(items[..i]) && forall j | 0 <= j < i :: RankOk(items[j])
    {
      assert items[..i + 1][..i] == items[..i];
      if items[i].rank.Some? {
        if items[i].rank.value <= 0 || !items[i].proper {
          assert !RankOk(items[i]);
          return Err(EvidenceInvalid);
        }
        ranked := ranked + [(items[i].rank.value, items[i].id)];
      }
    }
    assert items[..|items|] == items;
    r := IdsByRank(ranked);
  }

  /** The sorted pairs must be ranked 1, 2, and so on, with a new id each time. */
  method IdsByRank(ranked: seq<(int, int)>) returns (r: Result<seq<int>, MetricError>)
    ensures r.Ok? ==> Numbers(ranked, r.value)
    ensures r.Err? ==> forall ids :: !Numbers(ranked, ids)
  {
    var sorted := Sort(PairOrder(), ranked);
    SortPermutes(PairOrder(), ranked);
    var ids: seq<int> := [];
    for i := 0 to |sorted|
      invariant |ids| == i && forall j | 0 <= j < i :: sorted[j] == (j + 1, ids[j])
      invariant NoRepeats(ids)
    {
      if sorted[i].0 != i + 1 || sorted[i].1 in ids {
        NotNumbered(ranked, sorted, ids, i);
        return Err(EvidenceInvalid);
      }
      ids := ids + [sorted[i].1];
    }
    IsNumbered(ranked, ids);
    r := Ok(ids);
  }

  lemma {:induction false} IsNumbered(ranked: seq<(int, int)>, ids: seq<int>)
    requires |Sort(PairOrder(), ranked)| == |ids| == |ranked| && NoRepeats(ids)
    requires forall j | 0 <= j < |ids| :: Sort(PairOrder(), ranked)[j] == (j + 1, ids[j])
    ensures Numbers(ranked, ids)
  {
    var sorted := Sort(PairOrder(), ranked);
    SortMembers(PairOrder(), ranked);
    forall i | 0 <= i < |ranked| ensures 1 <= ranked[i].0 <= |ids| && ids[ranked[i].0 - 1] == ranked[i].1 {
      assert ranked[i] in sorted;
    }
    forall k | 0 <= k < |ids| ensures (k + 1, ids[k]) in ranked {
      assert sorted[k] in sorted;
    }
  }

  lemma {:induction false} NumberedPairsDiffer(pairs: seq<(int, int)>, ids: seq<int>)
    requires Numbers(pairs, ids)
    ensures multiset(pairs) == multiset(Listing(ids, |ids|))
  {
    var listing := Listing(ids, |ids|);
    ListingIs(ids, |ids|);
    forall x ensures x in listing ==> x in pairs {
      if x in listing {
        var k :| 0 <= k < |listing| && listing[k] == x;
        assert (k + 1, ids[k]) in pairs;
      }
    }
    CoveredIsRearranged(listing, pairs);
  }

  function Listing(ids: seq<int>, n: int): seq<(int, int)>
    requires 0 <= n <= |ids|
  {
    if n == 0 then [] else Listing(ids, n - 1) + [(n, ids[n - 1])]
  }

  lemma {:induction false} ListingIs(ids: seq<int>, n: int)
    requires 0 <= n <= |ids|
    ensures |Listing(ids, n)| == n && forall k | 0 <= k < n :: Listing(ids, n)[k] == (k + 1, ids[k])
  {
    if n > 0 {
      ListingIs(ids, n - 1);
    }
  }

  /** A sequence without repeats whose members all occur in one no longer is a rearrangement of it. */
  lemma {:induction false} CoveredIsRearranged<T(!new)>(a: seq<T>, b: seq<T>)
    requires NoRepeats(a) && |a| == |b| && forall x :: x in a ==> x in b
    ensures multiset(a) == multiset(b)
  {
    if a != [] {
      assert a[0] in b;
      var i :| 0 <= i < |b| && b[i] == a[0];
      var rest := b[..i] + b[i + 1..];
      assert b == b[..i] + [b[i]] + b[i + 1..] && a == [a[0]] + a[1..];
      forall x ensures x in a[1..] ==> x in rest {
        if x in a[1..] {
          assert x in a && x != a[0];
        }
      }
      CoveredIsRearranged(a[1..], rest);
    }
  }

  /** Sorted numbered pairs are the listing itself, so the first deviation shows that nothing numbers them. */
  lemma {:induction false} NotNumbered(ranked: seq<(int, int)>, sorted: seq<(int, int)>, prefix: seq<int>, i: int)
    requires sorted == Sort(PairOrder(), ranked) && 0 <= i < |sorted| && |prefix| == i
    requires forall j | 0 <= j < i :: sorted[j] == (j + 1, prefix[j])
    requires sorted[i].0 != i + 1 || sorted[i].1 in prefix
    ensures forall ids :: !Numbers(ranked, ids)
  {
    forall ids ensures !Numbers(ranked, ids) {
      if Numbers(ranked, ids) {
        SortedIsListing(ranked, ids);
        ListingIs(ids, |ids|);
      }
    }
  }

  lemma {:induction false} SortedIsListing(ranked: seq<(int, int)>, ids: seq<int>)
    requires Numbers(ranked, ids)
    ensures Sort(PairOrder(), ranked) == Listing(ids, |ids|)
  {
    var listing := Listing(ids, |ids|);
    PairOrderIsTotal();
    SortOrdered(PairOrder(), ranked);
    SortPermutes(PairOrder(), ranked);
    NumberedPairsDiffer(ranked, ids);
    ListingIs(ids, |ids|);
    OrderedUnique(PairOrder(), Sort(PairOrder(), ranked), listing);
  }

  // Counts by stage

  datatype Counts = Counts(expected: int, candidates: seq<int>, hits: seq<int>)

  const CUTOFFS := [5, 10, 20]

  function Cut(ids: seq<int>, k: int): seq<int> {
    if k <= 0 then [] else if |ids| < k then ids else ids[..k]
  }

  predicate Ascends(s: seq<int>) {
    forall i, j | 0 <= i < j < |s| :: s[i] <= s[j]
  }

  /** What the evidence model demands: fields are never reranked. */
  predicate StageValid(isField: bool, isRerank: bool, c: Counts) {
    && c.expected >= 1 && |c.candidates| == |c.hits| == |CUTOFFS|
    && (forall i | 0 <= i < |CUTOFFS| :: 0 <= c.candidates[i] <= CUTOFFS[i] && 0 <= c.hits[i])
    && !(isField && isRerank)
    && Ascends(c.candidates) && Ascends(c.hits)
    && forall i | 0 <= i < |CUTOFFS| :: c.hits[i] <= c.candidates[i] && c.hits[i] <= c.expected
  }

  predicate FoundWithin(ids: seq<int>, k: int, t: int) {
    exists j :: 0 <= j < |ids| && j < k && ids[j] == t
  }

  /** The expected ids among the first k of the ranking. */
  function Found(ids: seq<int>, expected: set<int>, k: int): set<int> {
    set t | t in expected && FoundWithin(ids, k, t)
  }

  /** At each cutoff: how many ids the ranking has by then, and how many of the expected ones are among them. */
  predicate CountsOf(ids: seq<int>, expected: set<int>, c: Counts) {
    && c.expected == |expected| && |c.candidates| == |c.hits| == |CUTOFFS|
    && forall i | 0 <= i < |CUTOFFS| :: CountsAt(ids, expected, CUTOFFS[i], c.candidates[i], c.hits[i])
  }

  predicate CountsAt(ids: seq<int>, expected: set<int>, k: int, candidates: int, hits: int) {
    && candidates == (if |ids| < k then |ids| else k)
    && hits == |Found(ids, expected, k)|
  }

  lemma {:induction false} PrefixFinds(ids: seq<int>, expected: set<int>, k: int)
    requires 0 < k
    ensures Elements(Cut(ids, k)) * expected == Found(ids, expected, k)
  {
    var prefix := Cut(ids, k);
    forall t ensures t in prefix <==> FoundWithin(ids, k, t) {
      if t in prefix {
        var j :| 0 <= j < |prefix| && prefix[j] == t;
        assert ids[j] == t;
      }
      if FoundWithin(ids, k, t) {
        var j :| 0 <= j < |ids| && j < k && ids[j] == t;
        assert prefix[j] == t;
      }
    }
  }

  lemma {:induction false} HitsBounded(ids: seq<int>, expected: set<int>, k: int)
    requires 0 < k
    ensures |Found(ids, expected, k)| <= |ids| && |Found(ids, expected, k)| <= k
    ensures |Found(ids, expected, k)| <= |expected|
  {
    PrefixFinds(ids, expected, k);
    ElementsSize(Cut(ids, k));
    SubsetSize(Found(ids, expected, k), Elements(Cut(ids, k)));
    SubsetSize(Found(ids, expected, k), expected);
  }

  lemma {:induction false} HitsGrow(ids: seq<int>, expected: set<int>, k: int, m: int)
    requires k <= m
    ensures |Found(ids, expected, k)| <= |Found(ids, expected, m)|
  {
    forall t | t in Found(ids, expected, k) ensures t in Found(ids, expected, m) {
      var j :| 0 <= j < |ids| && j < k && ids[j] == t;
    }
    SubsetSize(Found(ids, expected, k), Found(ids, expected, m));
  }

  /** The counts of any ranking pass, exactly when something is expected and the stage exists. */
  lemma {:induction false} StageCountsAreValid(ids: seq<int>, expected: set<int>, c: Counts,
                                               isField: bool, isRerank: bool)
    requires CountsOf(ids, expected, c)
    ensures StageValid(isField, isRerank, c) <==> expected != {} && !(isField && isRerank)
  {
    forall i | 0 <= i < |CUTOFFS|
      ensures 0 <= c.candidates[i] <= CUTOFFS[i] && 0 <= c.hits[i] <= c.candidates[i] && c.hits[i] <= c.expected
    {
      assert CountsAt(ids, expected, CUTOFFS[i], c.candidates[i], c.hits[i]);
      HitsBounded(ids, expected, CUTOFFS[i]);
    }
    forall i, j | 0 <= i < j < |CUTOFFS| ensures c.candidates[i] <= c.candidates[j] && c.hits[i] <= c.hits[j] {
      assert CountsAt(ids, expected, CUTOFFS[i], c.candidates[i], c.hits[i]);
      assert CountsAt(ids, expected, CUTOFFS[j], c.candidates[j], c.hits[j]);
      HitsGrow(ids, expected, CUTOFFS[i], CUTOFFS[j]);
    }
  }

  /** Counts one cutoff at a time, and then validates. */
  method StageCounts(ids: seq<int>, expected: set<int>, isField: bool, isRerank: bool)
      returns (r: Result<Counts, MetricError>)
    ensures r.Ok? <==> expected != {} && !(isField && isRerank)
    ensures r.Ok? ==> CountsOf(ids, expected, r.value) && StageValid(isField, isRerank, r.value)
  {
    var c := Counts(|expected|, [], []);
    for i := 0 to |CUTOFFS|
      invariant c.expected == |expected| && |c.candidates| == |c.hits| == i
      invariant forall j | 0 <= j < i :: CountsAt(ids, expected, CUTOFFS[j], c.candidates[j], c.hits[j])
    {
      var prefix := Cut(ids, CUTOFFS[i]);
      PrefixFinds(ids, expected, CUTOFFS[i]);
      c := c.(candidates := c.candidates + [|prefix|], hits := c.hits + [|Elements(prefix) * expected|]);
    }
    StageCountsAreValid(ids, expected, c, isField, isRerank);
    r := if StageValid(isField, isRerank, c) then Ok(c) else Err(EvidenceInvalid);
  }

  // Sums over cases

  datatype Bucket = Bucket(
    cases: int, hits: int, expected: int, candidates: int, recall: real, precision: real, mean: real)

  function Ratio(a: int, b: int): real {
    if b == 0 then 0.0 else a as real / b as real
  }

  predicate BucketValid(b: Bucket) {
    && 0 <= b.cases && 0 <= b.hits <= b.expected && b.hits <= b.candidates
    && (b.cases == 0 ==> b.hits == 0 && b.expected == 0 && b.candidates == 0)
    && b.recall == Ratio(b.hits, b.expected) && b.precision == Ratio(b.hits, b.candidates)
    && b.mean == Ratio(b.candidates, b.cases)
    && 0.0 <= b.recall <= 1.0 && 0.0 <= b.precision <= 1.0 && 0.0 <= b.mean
  }

  function Total(values: seq<int>): int {
    if values == [] then 0 else Total(values[..|values| - 1]) + values[|values| - 1]
  }

  function HitsAt(cases: seq<Counts>, i: int): seq<int>
    requires 0 <= i < |CUTOFFS| && forall j | 0 <= j < |cases| :: |cases[j].hits| == |CUTOFFS|
  {
    seq(|cases|, j requires 0 <= j < |cases| => cases[j].hits[i])
  }

  function CandidatesAt(cases: seq<Counts>, i: int): seq<int>
    requires 0 <= i < |CUTOFFS| && forall j | 0 <= j < |cases| :: |cases[j].candidates| == |CUTOFFS|
  {
    seq(|cases|, j requires 0 <= j < |cases| => cases[j].candidates[i])
  }

  function Expected(cases: seq<Counts>): seq<int> {
    seq(|cases|, j requires 0 <= j < |cases| => cases[j].expected)
  }

  predicate AllValid(cases: seq<Counts>) {
    forall j | 0 <= j < |cases| :: StageValid(false, false, cases[j])
  }

  function MakeBucket(cases: seq<Counts>, i: int): Bucket
    requires 0 <= i < |CUTOFFS| && AllValid(cases)
  {
    var hits, expected, candidates := Total(HitsAt(cases, i)), Total(Expected(cases)), Total(CandidatesAt(cases, i));
    Bucket(|cases|, hits, expected, candidates,
           Ratio(hits, expected), Ratio(hits, candidates), Ratio(candidates, |cases|))
  }

  lemma {:induction false} TotalJoins(a: seq<int>, b: seq<int>)
    ensures Total(a + b) == Total(a) + Total(b)
    decreases |b|
  {
    if b == [] {
      assert a + b == a;
    } else {
      assert (a + b)[..|a + b| - 1] == a + b[..|b| - 1];
      TotalJoins(a, b[..|b| - 1]);
    }
  }

  /** A bucket is the sum of its cases: of two groups of cases, and of a single one. */
  lemma {:induction false} BucketsAdd(a: seq<Counts>, one: Counts, b: seq<Counts>, i: int)
    requires 0 <= i < |CUTOFFS| && AllValid(a) && AllValid(b) && StageValid(false, false, one)
    ensures AllValid(a + [one] + b)
    ensures
      var x, y, all := MakeBucket(a, i), MakeBucket(b, i), MakeBucket(a + [one] + b, i);
      && all.cases == x.cases + 1 + y.cases && all.hits == x.hits + one.hits[i] + y.hits
      && all.expected == x.expected + one.expected + y.expected
      && all.candidates == x.candidates + one.candidates[i] + y.candidates
  {
    AllStayValid(a, one, b);
    HitsJoin(a, one, b, i);
    CandidatesJoin(a, one, b, i);
    assert Expected(a + [one] + b) == Expected(a) + [one.expected] + Expected(b);
    SumOfThree(Expected(a), one.expected, Expected(b));
  }

  lemma {:induction false} AllStayValid(a: seq<Counts>, one: Counts, b: seq<Counts>)
    requires AllValid(a) && AllValid(b) && StageValid(false, false, one)
    ensures AllValid(a + [one] + b)
  {
  }

  lemma {:induction false} HitsJoin(a: seq<Counts>, one: Counts, b: seq<Counts>, i: int)
    requires 0 <= i < |CUTOFFS| && AllValid(a) && AllValid(b) && StageValid(false, false, one)
    requires AllValid(a + [one] + b)
    ensures Total(HitsAt(a + [one] + b, i)) == Total(HitsAt(a, i)) + one.hits[i] + Total(HitsAt(b, i))
  {
    assert HitsAt(a + [one] + b, i) == HitsAt(a, i) + [one.hits[i]] + HitsAt(b, i);
    SumOfThree(HitsAt(a, i), one.hits[i], HitsAt(b, i));
  }

  lemma {:induction false} CandidatesJoin(a: seq<Counts>, one: Counts, b: seq<Counts>, i: int)
    requires 0 <= i < |CUTOFFS| && AllValid(a) && AllValid(b) && StageValid(false, false, one)
    requires AllValid(a + [one] + b)
    ensures Total(CandidatesAt(a + [one] + b, i))
      == Total(CandidatesAt(a, i)) + one.candidates[i] + Total(CandidatesAt(b, i))
  {
    assert CandidatesAt(a + [one] + b, i) == CandidatesAt(a, i) + [one.candidates[i]] + CandidatesAt(b, i);
    SumOfThree(CandidatesAt(a, i), one.candidates[i], CandidatesAt(b, i));
  }

  lemma {:induction false} SumOfThree(a: seq<int>, x: int, b: seq<int>)
    ensures Total(a + [x] + b) == Total(a) + x + Total(b)
  {
    TotalJoins(a + [x], b);
    TotalJoins(a, [x]);
    assert [x][..0] == [] && Total([x]) == x;
  }

  predicate IsRatio(r: real, a: int, b: int) {
    if b == 0 then r == 0.0 else r * b as real == a as real
  }

  lemma {:induction false} RatioTells(a: int, b: int)
    ensures IsRatio(Ratio(a, b), a, b)
  {
  }

  /** Recall is over the expected ids, precision over the candidates, the mean over the cases. */
  lemma {:induction false} BucketTells(cases: seq<Counts>, i: int)
    requires 0 <= i < |CUTOFFS| && AllValid(cases)
    ensures
      var b := MakeBucket(cases, i);
      && IsRatio(b.recall, b.hits, b.expected) && IsRatio(b.precision, b.hits, b.candidates)
      && IsRatio(b.mean, b.candidates, b.cases)
  {
    var b := MakeBucket(cases, i);
    RatioTells(b.hits, b.expected);
    RatioTells(b.hits, b.candidates);
    RatioTells(b.candidates, b.cases);
  }

  lemma {:induction false} TotalsCompare(a: seq<int>, b: seq<int>)
    requires |a| == |b| && forall i | 0 <= i < |a| :: 0 <= a[i] <= b[i]
    ensures 0 <= Total(a) <= Total(b)
  {
    if a != [] {
      TotalsCompare(a[..|a| - 1], b[..|b| - 1]);
    }
  }

  lemma {:induction false} RatioBounds(a: int, b: int)
    requires 0 <= a <= b
    ensures 0.0 <= Ratio(a, b) <= 1.0
  {
    if b > 0 {
      var x, y := a as real, b as real;
      assert x / y * y == x;
    }
  }

  lemma {:induction false} RatioGrows(a: int, b: int, c: int)
    requires 0 <= a <= b && 0 <= c
    ensures 0.0 <= Ratio(a, c) <= Ratio(b, c)
  {
    if c > 0 {
      var x, y, z := a as real, b as real, c as real;
      assert y / z - x / z == (y - x) / z;
    }
  }

  /** Summing valid counts gives a bucket that passes. */
  lemma {:induction false} BucketsAreValid(cases: seq<Counts>, i: int)
    requires 0 <= i < |CUTOFFS| && AllValid(cases)
    ensures BucketValid(MakeBucket(cases, i))
  {
    var hits, expected, candidates := HitsAt(cases, i), Expected(cases), CandidatesAt(cases, i);
    forall j | 0 <= j < |cases| ensures 0 <= hits[j] <= expected[j] && hits[j] <= candidates[j] {
      assert StageValid(false, false, cases[j]);
    }
    TotalsCompare(hits, expected);
    TotalsCompare(hits, candidates);
    RatioBounds(Total(hits), Total(expected));
    RatioBounds(Total(hits), Total(candidates));
    RatioGrows(0, Total(candidates), |cases|);
  }

  /** Looking further down the ranking never loses recall. */
  lemma {:induction false} RecallGrows(cases: seq<Counts>, i: int, j: int)
    requires 0 <= i <= j < |CUTOFFS| && AllValid(cases)
    ensures MakeBucket(cases, i).recall <= MakeBucket(cases, j).recall
  {
    var less, more := HitsAt(cases, i), HitsAt(cases, j);
    forall k | 0 <= k < |cases| ensures 0 <= less[k] <= more[k] {
      assert StageValid(false, false, cases[k]);
    }
    TotalsCompare(less, more);
    BucketsAreValid(cases, i);
    RatioGrows(Total(less), Total(more), Total(Expected(cases)));
  }

  // Percentiles

  function RealOrder(): (real, real) -> bool {
    (a, b) => a <= b
  }

  lemma {:induction false} RealOrderIsTotal()
    ensures TotalPreorder(RealOrder())
  {
    forall x, y, z ensures Chains(RealOrder(), x, y, z) {
    }
  }

  predicate Rising(s: seq<real>) {
    forall i, j | 0 <= i < j < |s| :: s[i] <= s[j]
  }

  function Times(a: real, b: real): real {
    a * b
  }

  lemma {:induction false} TimesPart(d: real, p: real)
    requires 0.0 <= d && 0.0 <= p <= 1.0
    ensures 0.0 <= Times(d, p) <= d
  {
    assert d - d * p == d * (1.0 - p);
  }

  lemma {:induction false} TimesRises(d: real, x: real, y: real)
    requires 0.0 <= d && x <= y
    ensures Times(d, x) <= Times(d, y)
  {
    assert d * y - d * x == d * (y - x);
  }

  function Above(s: seq<real>, lower: int): int {
    if lower + 1 < |s| - 1 then lower + 1 else |s| - 1
  }

  /** Between the entries of s, on a straight line. */
  function At(s: seq<real>, position: real): real
    requires s != [] && 0.0 <= position <= (|s| - 1) as real
  {
    var lower := position.Floor;
    s[lower] + Times(s[Above(s, lower)] - s[lower], position - lower as real)
  }

  function Position(n: int, percentile: real): (r: real)
    requires n >= 1 && 0.0 <= percentile <= 1.0
    ensures 0.0 <= r <= (n - 1) as real
  {
    TimesPart((n - 1) as real, percentile);
    Times((n - 1) as real, percentile)
  }

  function Percentile(values: seq<real>, percentile: real): Result<real, MetricError>
    requires 0.0 <= percentile <= 1.0
  {
    var ordered := Sort(RealOrder(), values);
    if ordered == [] then Err(EvidenceInvalid)
    else Ok(At(ordered, Position(|ordered|, percentile)))
  }

  /** The entry itself at a whole position, and the weighted mean of two neighbors between them. */
  lemma {:induction false} AtTells(s: seq<real>, k: int, part: real)
    requires 0 <= k < |s| && 0.0 <= part < 1.0 && (k == |s| - 1 ==> part == 0.0)
    ensures At(s, k as real + part)
      == if part == 0.0 then s[k] else Times(s[k], 1.0 - part) + Times(s[k + 1], part)
  {
    assert (k as real + part).Floor == k;
    if part != 0.0 {
      assert Above(s, k) == k + 1;
      Weighted(s[k], s[k + 1], part);
    }
  }

  lemma {:induction false} Weighted(a: real, b: real, part: real)
    ensures a + Times(b - a, part) == Times(a, 1.0 - part) + Times(b, part)
  {
    assert (b - a) * part == b * part - a * part;
    assert a * (1.0 - part) == a - a * part;
  }

  /** The percentile of n values is read at (n - 1) p in their sorted order. */
  lemma {:induction false} PercentileTells(values: seq<real>, p: real, k: int, part: real)
    requires 0.0 <= p <= 1.0 && 0 <= k < |values| && 0.0 <= part < 1.0
    requires k as real + part == Times((|values| - 1) as real, p)
    ensures var s := Sort(RealOrder(), values); multiset(s) == multiset(values) && Rising(s)
    ensures part > 0.0 ==> k < |values| - 1
    ensures |Sort(RealOrder(), values)| == |values|
    ensures
      var s := Sort(RealOrder(), values);
      Percentile(values, p) == Ok(if part == 0.0 then s[k] else Times(s[k], 1.0 - part) + Times(s[k + 1], part))
  {
    SortedReals(values);
    SortPermutes(RealOrder(), values);
    TimesPart((|values| - 1) as real, p);
    AtTells(Sort(RealOrder(), values), k, part);
  }

  lemma {:induction false} AtIsBetween(s: seq<real>, position: real)
    requires s != [] && Rising(s) && 0.0 <= position <= (|s| - 1) as real
    ensures s[position.Floor] <= At(s, position) <= s[Above(s, position.Floor)]
  {
    var lower := position.Floor;
    assert s[lower] <= s[Above(s, lower)];
    TimesPart(s[Above(s, lower)] - s[lower], position - lower as real);
  }

  lemma {:induction false} AtRises(s: seq<real>, x: real, y: real)
    requires s != [] && Rising(s) && 0.0 <= x <= y <= (|s| - 1) as real
    ensures At(s, x) <= At(s, y)
  {
    if x.Floor == y.Floor {
      var lower := x.Floor;
      assert s[lower] <= s[Above(s, lower)];
      TimesRises(s[Above(s, lower)] - s[lower], x - lower as real, y - lower as real);
    } else {
      AtIsBetween(s, x);
      AtIsBetween(s, y);
      assert Above(s, x.Floor) <= y.Floor;
    }
  }

  lemma {:induction false} SortedReals(values: seq<real>)
    ensures Rising(Sort(RealOrder(), values)) && |Sort(RealOrder(), values)| == |values|
    ensures forall v :: v in Sort(RealOrder(), values) <==> v in values
  {
    RealOrderIsTotal();
    SortOrdered(RealOrder(), values);
    SortPermutes(RealOrder(), values);
    SortMembers(RealOrder(), values);
    var s := Sort(RealOrder(), values);
    forall i, j | 0 <= i < j < |s| ensures s[i] <= s[j] {
      assert RealOrder()(s[i], s[j]);
    }
  }

  /** A percentile of a sample lies within its range. */
  lemma {:induction false} PercentileIsInRange(values: seq<real>, p: real, low: real, high: real)
    requires values != [] && 0.0 <= p <= 1.0 && forall v | v in values :: low <= v <= high
    ensures Percentile(values, p).Ok? && low <= Percentile(values, p).value <= high
  {
    SortedReals(values);
    var s := Sort(RealOrder(), values);
    forall i | 0 <= i < |s| ensures low <= s[i] <= high {
      assert s[i] in s;
    }
    AtIsBetween(s, Position(|s|, p));
  }

  /** A higher percentile is never smaller, so the 50th never exceeds the 95th. */
  lemma {:induction false} PercentilesRise(values: seq<real>, p: real, q: real)
    requires values != [] && 0.0 <= p <= q <= 1.0
    ensures Percentile(values, p).Ok? && Percentile(values, q).Ok?
    ensures Percentile(values, p).value <= Percentile(values, q).value
  {
    SortedReals(values);
    var s := Sort(RealOrder(), values);
    TimesRises((|s| - 1) as real, p, q);
    AtRises(s, Position(|s|, p), Position(|s|, q));
  }
}
