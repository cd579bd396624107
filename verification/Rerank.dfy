/** Structural reranking of candidate tables, with an explanation:
    the key of each table, the component that decides between two of them,
    and the reasons recorded for it. */
module Rerank {
  import opened Wrappers
  import opened Sorting
  import opened Ids
  import opened Bridges

  // ----- Features and their order -----

  datatype Features = Features(
    objectId: int,
    fusionRank: int,
    fusionScore: real,
    directFieldCount: int,
    approvedAliasCount: int,
    requiredBridge: bool,
    joinConnected: bool,
    relevantPathEdges: Option<int>,
    grainKeyCoverage: bool,
    hasDirectEvidence: bool)

  /** A component of a sort key: a number, or math.inf. */
  datatype KeyPart = Finite(x: real) | Infinite

  const KEY_LENGTH := 8

  function Flag(b: bool): KeyPart {
    if b then Finite(0.0) else Finite(1.0)
  }

  function SortKey(f: Features): (key: seq<KeyPart>)
    ensures |key| == KEY_LENGTH
  {
    [ Flag(f.requiredBridge),
      Finite(-(f.directFieldCount as real)),
      Finite(-(f.approvedAliasCount as real)),
      Flag(f.joinConnected),
      if f.relevantPathEdges.Some? then Finite(f.relevantPathEdges.value as real) else Infinite,
      Flag(f.grainKeyCoverage),
      Finite(-f.fusionScore),
      Finite(f.objectId as real) ]
  }

  predicate PartLess(a: KeyPart, b: KeyPart) {
    a.Finite? && (b.Infinite? || a.x < b.x)
  }

  /** Index of the first component in which the keys differ. */
  function FirstDifference(a: seq<KeyPart>, b: seq<KeyPart>): (d: Option<int>)
    requires |a| == |b|
    ensures d.Some? ==> 0 <= d.value < |a|
  {
    if a == [] then None
    else if a[0] != b[0] then Some(0)
    else
      var d := FirstDifference(a[1..], b[1..]);
      if d.None? then None else Some(d.value + 1)
  }

  /** Keys agree before their first difference and differ there. */
  lemma {:induction false} FirstDifferenceShows(a: seq<KeyPart>, b: seq<KeyPart>)
    requires |a| == |b|
    ensures FirstDifference(a, b).None? <==> a == b
    ensures var d := FirstDifference(a, b); d.Some? ==> a[d.value] != b[d.value] && a[..d.value] == b[..d.value]
  {
    if a != [] && a[0] == b[0] {
      FirstDifferenceShows(a[1..], b[1..]);
      assert a == [a[0]] + a[1..] && b == [b[0]] + b[1..];
      var d := FirstDifference(a[1..], b[1..]);
      if d.Some? {
        assert a[..d.value + 1] == [a[0]] + a[1..][..d.value] && b[..d.value + 1] == [b[0]] + b[1..][..d.value];
      }
    }
  }

  predicate KeyLess(a: seq<KeyPart>, b: seq<KeyPart>)
    requires |a| == |b|
  {
    var d := FirstDifference(a, b);
    d.Some? && PartLess(a[d.value], b[d.value])
  }

  function FeatureLeq(): (Features, Features) -> bool {
    (f, g) => SortKey(f) == SortKey(g) || KeyLess(SortKey(f), SortKey(g))
  }

  /** The first difference is the only index of its kind. */
  lemma {:induction false} FirstDifferenceIs(a: seq<KeyPart>, b: seq<KeyPart>, i: int)
    requires |a| == |b| && 0 <= i < |a| && a[i] != b[i] && a[..i] == b[..i]
    ensures FirstDifference(a, b) == Some(i)
  {
    if i > 0 {
      assert a[0] == a[..i][0] && b[0] == b[..i][0];
      assert a[1..][..i - 1] == a[..i][1..] && b[1..][..i - 1] == b[..i][1..];
      FirstDifferenceIs(a[1..], b[1..], i - 1);
    }
  }

  /** Along an ordered chain of keys the first difference of the ends is the smaller of the two. */
  lemma {:induction false} DifferenceOfChain(a: seq<KeyPart>, b: seq<KeyPart>, c: seq<KeyPart>)
    requires |a| == |b| == |c| && KeyLess(a, b) && KeyLess(b, c)
    ensures KeyLess(a, c)
    ensures FirstDifference(a, c) == Some(if FirstDifference(a, b).value <= FirstDifference(b, c).value
                                          then FirstDifference(a, b).value else FirstDifference(b, c).value)
  {
    var m, n := FirstDifference(a, b).value, FirstDifference(b, c).value;
    FirstDifferenceShows(a, b);
    FirstDifferenceShows(b, c);
    var i := if m <= n then m else n;
    assert a[..i] == a[..m][..i] == b[..m][..i];
    assert c[..i] == c[..n][..i] == b[..n][..i];
    assert m < n ==> b[m] == b[..n][m] == c[..n][m] == c[m];
    assert n < m ==> b[n] == b[..m][n] == a[..m][n] == a[n];
    FirstDifferenceIs(a, c, i);
  }

  lemma {:induction false} FeatureLeqTotal()
    ensures TotalPreorder(FeatureLeq())
  {
    var leq := FeatureLeq();
    forall f, g ensures leq(f, g) || leq(g, f) {
      var a, b := SortKey(f), SortKey(g);
      FirstDifferenceShows(a, b);
      if a != b {
        var d := FirstDifference(a, b);
        FirstDifferenceIs(b, a, d.value);
      }
    }
    forall f, g, h ensures Chains(leq, f, g, h) {
      if KeyLess(SortKey(f), SortKey(g)) && KeyLess(SortKey(g), SortKey(h)) {
        DifferenceOfChain(SortKey(f), SortKey(g), SortKey(h));
      }
    }
  }

  // ----- Reasons -----

  datatype Reason =
    | REQUIRED_BRIDGE
    | FIELD_COVERAGE
    | APPROVED_ALIAS
    | JOIN_CONNECTIVITY
    | SHORTER_JOIN_PATH
    | GRAIN_KEY_COVERAGE
    | FUSION_RANK
    | DISCONNECTED_PENALTY
    | CANONICAL_TIE_BREAK

  const ALL_REASONS: seq<Reason> := [
    REQUIRED_BRIDGE, FIELD_COVERAGE, APPROVED_ALIAS, JOIN_CONNECTIVITY, SHORTER_JOIN_PATH,
    GRAIN_KEY_COVERAGE, FUSION_RANK, DISCONNECTED_PENALTY, CANONICAL_TIE_BREAK ]

  const REASON_FOR_KEY: seq<Reason> := [
    REQUIRED_BRIDGE, FIELD_COVERAGE, APPROVED_ALIAS, JOIN_CONNECTIVITY, SHORTER_JOIN_PATH,
    GRAIN_KEY_COVERAGE, FUSION_RANK, CANONICAL_TIE_BREAK ]

  function Difference(f: Features, g: Features): (d: Option<int>)
    ensures d.Some? ==> 0 <= d.value < KEY_LENGTH
  {
    FirstDifference(SortKey(f), SortKey(g))
  }

  predicate Penalized(winner: Features, loser: Features) {
    && Difference(winner, loser) == Some(3)
    && !loser.joinConnected && !loser.hasDirectEvidence
    && loser.directFieldCount == 0 && loser.approvedAliasCount == 0
  }

  /** The reasons of the table at position k: how it beats the next one, and the penalty it may
      owe to the one before. */
  ghost predicate IsReason(ordered: seq<Features>, k: int, reason: Reason) {
    || (0 <= k && k + 1 < |ordered| && Difference(ordered[k], ordered[k + 1]).Some?
        && reason == REASON_FOR_KEY[Difference(ordered[k], ordered[k + 1]).value])
    || (0 < k < |ordered| && reason == DISCONNECTED_PENALTY && Penalized(ordered[k - 1], ordered[k]))
  }

  function Picked(reasons: set<Reason>, from: seq<Reason>): (r: seq<Reason>) {
    if from == [] then [] else (if from[0] in reasons then [from[0]] else []) + Picked(reasons, from[1..])
  }

  /** The reasons in the order of the enumeration. */
  function InEnumOrder(reasons: set<Reason>): seq<Reason> {
    Picked(reasons, ALL_REASONS)
  }

  lemma {:induction false} PickedMembers(reasons: set<Reason>, from: seq<Reason>)
    ensures forall r :: r in Picked(reasons, from) <==> r in reasons && r in from
  {
    if from != [] {
      PickedMembers(reasons, from[1..]);
      assert from == [from[0]] + from[1..];
    }
  }

  lemma {:induction false} EveryReason(r: Reason)
    ensures r in ALL_REASONS
  {
    match r
    case REQUIRED_BRIDGE => assert ALL_REASONS[0] == r;
    case FIELD_COVERAGE => assert ALL_REASONS[1] == r;
    case APPROVED_ALIAS => assert ALL_REASONS[2] == r;
    case JOIN_CONNECTIVITY => assert ALL_REASONS[3] == r;
    case SHORTER_JOIN_PATH => assert ALL_REASONS[4] == r;
    case GRAIN_KEY_COVERAGE => assert ALL_REASONS[5] == r;
    case FUSION_RANK => assert ALL_REASONS[6] == r;
    case DISCONNECTED_PENALTY => assert ALL_REASONS[7] == r;
    case CANONICAL_TIE_BREAK => assert ALL_REASONS[8] == r;
  }

  function Codes(reasons: seq<Reason>): set<Reason> {
    set r | r in reasons
  }

  lemma {:induction false} EnumOrder(reasons: set<Reason>)
    ensures Codes(InEnumOrder(reasons)) == reasons
  {
    PickedMembers(reasons, ALL_REASONS);
    forall r | r in reasons ensures r in InEnumOrder(reasons) {
      EveryReason(r);
    }
  }

  /** IsReason, as far as the first n adjacent pairs tell. */
  ghost predicate ReasonSoFar(ordered: seq<Features>, n: int, k: int, reason: Reason) {
    || (0 <= k < n && k + 1 < |ordered| && Difference(ordered[k], ordered[k + 1]).Some?
        && reason == REASON_FOR_KEY[Difference(ordered[k], ordered[k + 1]).value])
    || (0 < k <= n && k < |ordered| && reason == DISCONNECTED_PENALTY && Penalized(ordered[k - 1], ordered[k]))
  }

  /** What the pair at i and i + 1 adds. */
  method Explain(ordered: seq<Features>, i: int, reasons: map<int, set<Reason>>)
      returns (reasons': map<int, set<Reason>>)
    requires 0 <= i && i + 1 < |ordered|
    requires forall i, j | 0 <= i < j < |ordered| :: ordered[i].objectId != ordered[j].objectId
    requires forall k | 0 <= k < |ordered| :: ordered[k].objectId in reasons
    requires forall k, r | 0 <= k < |ordered| :: r in reasons[ordered[k].objectId] <==> ReasonSoFar(ordered, i, k, r)
    ensures forall k | 0 <= k < |ordered| :: ordered[k].objectId in reasons'
    ensures forall k, r | 0 <= k < |ordered| ::
              r in reasons'[ordered[k].objectId] <==> ReasonSoFar(ordered, i + 1, k, r)
  {
    var winner, loser := ordered[i], ordered[i + 1];
    var d := Difference(winner, loser);
    reasons' := reasons;
    if d.None? {
      return;
    }
    reasons' := reasons'[winner.objectId := reasons'[winner.objectId] + {REASON_FOR_KEY[d.value]}];
    if d.value == 3 && !loser.joinConnected && !loser.hasDirectEvidence
       && loser.directFieldCount == 0 && loser.approvedAliasCount == 0 {
      reasons' := reasons'[loser.objectId := reasons'[loser.objectId] + {DISCONNECTED_PENALTY}];
    }
  }

  /** _effective_reason_codes. */
  method EffectiveReasonCodes(ordered: seq<Features>) returns (reasons: map<int, set<Reason>>)
    requires forall i, j | 0 <= i < j < |ordered| :: ordered[i].objectId != ordered[j].objectId
    ensures forall k | 0 <= k < |ordered| :: ordered[k].objectId in reasons
    ensures forall k, r | 0 <= k < |ordered| :: r in reasons[ordered[k].objectId] <==> IsReason(ordered, k, r)
  {
    reasons := map f | f in ordered :: f.objectId := {};
    var i := 0;
    while i + 1 < |ordered|
      invariant 0 <= i <= |ordered|
      invariant forall k | 0 <= k < |ordered| :: ordered[k].objectId in reasons
      invariant forall k, r | 0 <= k < |ordered| :: r in reasons[ordered[k].objectId] <==> ReasonSoFar(ordered, i, k, r)
    {
      reasons := Explain(ordered, i, reasons);
      i := i + 1;
    }
  }

  // ----- Features of a candidate -----

  datatype Inputs = Inputs(
    fusionScores: map<int, real>,
    directFieldCounts: map<int, int>,
    approvedAliasCounts: map<int, int>,
    grainKeyCoverage: map<int, bool>,
    directEvidence: set<int>,
    tables: seq<int>,
    foreignKeys: seq<(int, int)>)

  function GraphOf(inputs: Inputs): Neighbors {
    NeighborGraph(Elements(inputs.tables), inputs.foreignKeys)
  }

  /** n is the length of a walk from one table with direct evidence to another, by way of id. */
  ghost predicate JoinLength(g: Neighbors, direct: set<int>, id: int, n: int) {
    exists l, r, p, q :: JoinsVia(g, direct, id, l, r, p, q, n)
  }

  ghost predicate JoinsVia(g: Neighbors, direct: set<int>, id: int, l: int, r: int, p: seq<int>, q: seq<int>, n: int) {
    l in direct && r in direct && l < r && IsWalk(g, l, id, p) && IsWalk(g, id, r, q) && |p| + |q| - 2 == n
  }

  /** The least join length, if there is any. */
  ghost predicate IsRelevant(g: Neighbors, direct: set<int>, id: int, v: Option<int>) {
    && (v.None? ==> forall n :: !JoinLength(g, direct, id, n))
    && (v.Some? ==> JoinLength(g, direct, id, v.value) && forall n | JoinLength(g, direct, id, n) :: v.value <= n)
  }

  /** Removing id disconnects two other tables with direct evidence. */
  ghost predicate IsBridge(g: Neighbors, direct: set<int>, id: int) {
    exists l, r :: l in direct && r in direct && l < r && id != l && id != r && Separates(g, id, l, r)
  }

  ghost predicate Described(inputs: Inputs, id: int) {
    id in inputs.fusionScores && id in inputs.directFieldCounts && id in inputs.approvedAliasCounts
    && id in inputs.grainKeyCoverage
  }

  /** f holds the features of table id, whatever its fusion rank. */
  ghost predicate IsFeatures(g: Neighbors, inputs: Inputs, id: int, f: Features)
    requires Described(inputs, id)
  {
    && f.objectId == id
    && f.fusionScore == inputs.fusionScores[id]
    && f.directFieldCount == inputs.directFieldCounts[id]
    && f.approvedAliasCount == inputs.approvedAliasCounts[id]
    && (f.requiredBridge <==> IsBridge(g, inputs.directEvidence, id))
    && f.joinConnected == f.relevantPathEdges.Some?
    && IsRelevant(g, inputs.directEvidence, id, f.relevantPathEdges)
    && f.grainKeyCoverage == inputs.grainKeyCoverage[id]
    && f.hasDirectEvidence == (id in inputs.directEvidence)
  }

  function Erase(f: Features): Features {
    f.(fusionRank := 0)
  }

  lemma {:induction false} FeaturesUnique(g: Neighbors, inputs: Inputs, id: int, f: Features, f': Features)
    requires Described(inputs, id) && IsFeatures(g, inputs, id, f) && IsFeatures(g, inputs, id, f')
    ensures Erase(f) == Erase(f')
  {
  }

  /** Two different tables are at least one edge apart, so a join length is never 0. */
  lemma {:induction false} JoinLengthPositive(g: Neighbors, direct: set<int>, id: int, n: int)
    requires JoinLength(g, direct, id, n)
    ensures n >= 1
  {
  }

  /** combinations of ids in increasing order. */
  function Combinations(ids: seq<int>): seq<(int, int)> {
    if ids == [] then [] else PairsWith(ids[0], ids[1..]) + Combinations(ids[1..])
  }

  function PairsWith(l: int, rest: seq<int>): (pairs: seq<(int, int)>)
    ensures forall pair :: pair in pairs <==> pair.0 == l && pair.1 in rest
  {
    if rest == [] then [] else [(l, rest[0])] + PairsWith(l, rest[1..])
  }

  lemma {:induction false} CombinationsAre(ids: seq<int>)
    requires forall i, j | 0 <= i < j < |ids| :: ids[i] < ids[j]
    ensures forall pair :: pair in Combinations(ids) <==> pair.0 in ids && pair.1 in ids && pair.0 < pair.1
  {
    if ids != [] {
      CombinationsAre(ids[1..]);
      forall pair ensures pair in Combinations(ids) <==> pair.0 in ids && pair.1 in ids && pair.0 < pair.1 {
        assert pair in Combinations(ids)
          <==> (pair.0 == ids[0] && pair.1 in ids[1..]) || pair in Combinations(ids[1..]);
        assert forall x :: x in ids <==> x == ids[0] || x in ids[1..];
        assert forall x | x in ids[1..] :: ids[0] < x;
      }
    }
  }

  ghost predicate PairsOf(pairs: seq<(int, int)>, direct: set<int>) {
    forall pair :: pair in pairs <==> pair.0 in direct && pair.1 in direct && pair.0 < pair.1
  }

  lemma {:induction false} DistanceSum(g: Neighbors, all: map<int, map<int, int>>, l: int, id: int, r: int, p: seq<int>,
                                       q: seq<int>)
    requires AllDistances(g, all) && l in g && id in g && IsWalk(g, l, id, p) && IsWalk(g, id, r, q)
    ensures l in all && id in all && id in all[l] && r in all[id] && all[l][id] + all[id][r] <= |p| + |q| - 2
  {
    assert Measured(g, all, l) && Measured(g, all, id);
    assert Avoids(p, None) && Avoids(q, None);
  }

  lemma {:induction false} SumIsJoinLength(g: Neighbors, all: map<int, map<int, int>>, direct: set<int>, l: int,
                                           id: int, r: int)
    requires AllDistances(g, all) && l in direct && r in direct && l < r && l in g && id in g
    requires l in all && id in all && id in all[l] && r in all[id]
    ensures JoinLength(g, direct, id, all[l][id] + all[id][r])
  {
    assert Measured(g, all, l) && Measured(g, all, id);
    var p :| IsWalk(g, l, id, p) && Avoids(p, None) && |p| - 1 == all[l][id];
    var q :| IsWalk(g, id, r, q) && Avoids(q, None) && |q| - 1 == all[id][r];
    assert JoinsVia(g, direct, id, l, r, p, q, all[l][id] + all[id][r]);
  }

  /** v does not exceed the length that the pair gives for id, if it joins id at all. */
  ghost predicate AtMost(all: map<int, map<int, int>>, pair: (int, int), id: int, v: Option<int>) {
    pair.0 in all && id in all && id in all[pair.0] && pair.1 in all[id] ==>
      v.Some? && v.value <= all[pair.0][id] + all[id][pair.1]
  }

  lemma {:induction false} LeastIsRelevant(g: Neighbors, all: map<int, map<int, int>>, pairs: seq<(int, int)>,
                                           direct: set<int>, id: int, v: Option<int>)
    requires AllDistances(g, all) && PairsOf(pairs, direct) && id in g && forall d | d in direct :: d in g
    requires v.Some? ==> JoinLength(g, direct, id, v.value)
    requires forall pair | pair in pairs :: AtMost(all, pair, id, v)
    ensures IsRelevant(g, direct, id, v)
  {
    forall n | JoinLength(g, direct, id, n) ensures v.Some? && v.value <= n {
      var l, r, p, q :| JoinsVia(g, direct, id, l, r, p, q, n);
      DistanceSum(g, all, l, id, r, p, q);
      assert AtMost(all, (l, r), id, v);
    }
  }

  /** The smaller of v and the length that the pair gives for id. */
  function Shorter(all: map<int, map<int, int>>, pair: (int, int), id: int, v: Option<int>): Option<int>
    requires pair.0 in all && id in all
  {
    if id in all[pair.0] && pair.1 in all[id] then
      var length := all[pair.0][id] + all[id][pair.1];
      if v.None? || length < v.value then Some(length) else v
    else v
  }

  lemma {:induction false} ShorterKeeps(g: Neighbors, all: map<int, map<int, int>>, direct: set<int>, pair: (int, int),
                                        id: int, v: Option<int>)
    requires AllDistances(g, all) && pair.0 in direct && pair.1 in direct && pair.0 < pair.1 && pair.0 in g && id in g
    requires v.Some? ==> JoinLength(g, direct, id, v.value)
    ensures var v' := Shorter(all, pair, id, v);
            && (v'.Some? ==> JoinLength(g, direct, id, v'.value))
            && AtMost(all, pair, id, v')
  {
    if id in all[pair.0] && pair.1 in all[id] {
      SumIsJoinLength(g, all, direct, pair.0, id, pair.1);
    }
  }

  /** The min over all direct pairs that id joins. */
  method RelevantPathEdges(g: Neighbors, all: map<int, map<int, int>>, pairs: seq<(int, int)>, direct: set<int>,
                           id: int)
    returns (v: Option<int>)
    requires AllDistances(g, all) && PairsOf(pairs, direct) && id in g && forall d | d in direct :: d in g
    ensures IsRelevant(g, direct, id, v)
  {
    v := None;
    for i := 0 to |pairs|
      invariant v.Some? ==> JoinLength(g, direct, id, v.value)
      invariant forall j | 0 <= j < i :: AtMost(all, pairs[j], id, v)
    {
      assert pairs[i] in pairs;
      ShorterKeeps(g, all, direct, pairs[i], id, v);
      forall j | 0 <= j < i ensures AtMost(all, pairs[j], id, Shorter(all, pairs[i], id, v)) {
        assert AtMost(all, pairs[j], id, v);
      }
      v := Shorter(all, pairs[i], id, v);
    }
    LeastIsRelevant(g, all, pairs, direct, id, v);
  }

  // ----- The reranking -----

  datatype Evidence = Evidence(features: Features, rerankRank: int, reasons: seq<Reason>)

  datatype Outcome = Outcome(rankedIds: seq<int>, evidence: seq<Evidence>)

  /** The checks that RerankEvidence makes on construction. */
  predicate EvidenceAccepted(e: Evidence) {
    && e.features.fusionRank >= 1 && e.rerankRank >= 1
    && e.features.fusionScore >= 0.0
    && e.features.directFieldCount >= 0 && e.features.approvedAliasCount >= 0
    && (e.features.relevantPathEdges.Some? ==> e.features.relevantPathEdges.value >= 1)
    && e.features.joinConnected == e.features.relevantPathEdges.Some?
    && e.reasons == InEnumOrder(Codes(e.reasons))
  }

  /** The checks that RerankOutcome makes on construction. */
  ghost predicate OutcomeAccepted(o: Outcome) {
    && NoRepeats(o.rankedIds)
    && |o.rankedIds| == |o.evidence|
    && (forall k | 0 <= k < |o.evidence| ::
          o.evidence[k].rerankRank == k + 1 && o.evidence[k].features.objectId == o.rankedIds[k])
  }

  predicate AcceptedMaps(ids: set<int>, inputs: Inputs) {
    && inputs.fusionScores.Keys == ids
    && inputs.directFieldCounts.Keys == ids
    && inputs.approvedAliasCounts.Keys == ids
    && inputs.grainKeyCoverage.Keys == ids
    && (forall id | id in inputs.fusionScores.Keys :: inputs.fusionScores[id] >= 0.0)
    && (forall id | id in inputs.directFieldCounts.Keys :: inputs.directFieldCounts[id] >= 0)
    && (forall id | id in inputs.approvedAliasCounts.Keys :: inputs.approvedAliasCounts[id] >= 0)
  }

  predicate AcceptedRanking(ranked: seq<int>, inputs: Inputs) {
    && ranked != [] && NoRepeats(ranked)
    && (forall id | id in ranked :: id in inputs.tables)
    && inputs.directEvidence <= Elements(ranked)
    && AcceptedMaps(Elements(ranked), inputs)
  }

  /** What rerank_schema_candidates demands of its arguments. */
  predicate Accepted(ranked: seq<int>, inputs: Inputs) {
    && AcceptedRanking(ranked, inputs)
    && (forall key | key in inputs.foreignKeys :: key.0 in inputs.tables && key.1 in inputs.tables)
  }

  /** Exactly the candidates are described, they are authorized, and numbers are not negative. */
  predicate Admissible(ranked: seq<int>, inputs: Inputs, id: int) {
    && (id in ranked <==> id in inputs.fusionScores) && (id in ranked <==> id in inputs.directFieldCounts)
    && (id in ranked <==> id in inputs.approvedAliasCounts) && (id in ranked <==> id in inputs.grainKeyCoverage)
    && (id in ranked ==> id in inputs.tables && inputs.fusionScores[id] >= 0.0
                         && inputs.directFieldCounts[id] >= 0 && inputs.approvedAliasCounts[id] >= 0)
    && (id in inputs.directEvidence ==> id in ranked)
  }

  /** Some distinct candidates, described so, and keys between authorized tables. */
  ghost predicate AllAdmissible(ranked: seq<int>, inputs: Inputs) {
    && |ranked| > 0 && (forall i, j | 0 <= i < j < |ranked| :: ranked[i] != ranked[j])
    && (forall id :: Admissible(ranked, inputs, id))
    && (forall key | key in inputs.foreignKeys :: key.0 in inputs.tables && key.1 in inputs.tables)
  }

  lemma {:induction false} AcceptedAdmits(ranked: seq<int>, inputs: Inputs)
    requires Accepted(ranked, inputs)
    ensures forall id :: Admissible(ranked, inputs, id)
    ensures forall i, j | 0 <= i < j < |ranked| :: ranked[i] != ranked[j]
  {
    forall id ensures Admissible(ranked, inputs, id) {
      assert id in ranked <==> id in Elements(ranked);
    }
  }

  lemma {:induction false} AdmittedAccepts(ranked: seq<int>, inputs: Inputs)
    requires |ranked| > 0 && forall i, j | 0 <= i < j < |ranked| :: ranked[i] != ranked[j]
    requires forall id :: Admissible(ranked, inputs, id)
    ensures AcceptedRanking(ranked, inputs)
  {
    forall id
      ensures id in inputs.fusionScores.Keys <==> id in Elements(ranked)
      ensures id in inputs.directFieldCounts.Keys <==> id in Elements(ranked)
      ensures id in inputs.approvedAliasCounts.Keys <==> id in Elements(ranked)
      ensures id in inputs.grainKeyCoverage.Keys <==> id in Elements(ranked)
      ensures id in inputs.directEvidence ==> id in Elements(ranked)
    {
      assert Admissible(ranked, inputs, id);
    }
    forall id | id in ranked
      ensures id in inputs.tables && inputs.fusionScores[id] >= 0.0
              && inputs.directFieldCounts[id] >= 0 && inputs.approvedAliasCounts[id] >= 0
    {
      assert Admissible(ranked, inputs, id);
    }
    assert inputs.fusionScores.Keys == Elements(ranked);
    assert inputs.directFieldCounts.Keys == Elements(ranked);
    assert inputs.approvedAliasCounts.Keys == Elements(ranked);
    assert inputs.grainKeyCoverage.Keys == Elements(ranked);
    assert AcceptedMaps(Elements(ranked), inputs);
  }

  ghost predicate StrictlyOrdered(fs: seq<Features>) {
    forall i, j | 0 <= i < j < |fs| :: KeyLess(SortKey(fs[i]), SortKey(fs[j]))
  }

  function FeaturesIn(evidence: seq<Evidence>): (fs: seq<Features>)
    ensures |fs| == |evidence|
  {
    seq(|evidence|, k requires 0 <= k < |evidence| => evidence[k].features)
  }

  /** o ranks exactly the candidates, in the order of their keys, each with its features, its
      position in ranked and its reasons. */
  ghost predicate IsOutcome(ranked: seq<int>, inputs: Inputs, g: Neighbors, o: Outcome) {
    && OutcomeAccepted(o)
    && (forall id :: id in o.rankedIds <==> id in ranked)
    && StrictlyOrdered(FeaturesIn(o.evidence))
    && forall k | 0 <= k < |o.evidence| :: IsEvidence(ranked, inputs, g, FeaturesIn(o.evidence), k, o.evidence[k])
  }

  /** e is valid evidence for the table at position k. */
  ghost predicate IsEvidence(ranked: seq<int>, inputs: Inputs, g: Neighbors, ordered: seq<Features>, k: int,
                             e: Evidence) {
    && EvidenceAccepted(e)
    && Described(inputs, e.features.objectId)
    && IsFeatures(g, inputs, e.features.objectId, e.features)
    && 1 <= e.features.fusionRank <= |ranked|
    && ranked[e.features.fusionRank - 1] == e.features.objectId
    && forall r :: r in Codes(e.reasons) <==> IsReason(ordered, k, r)
  }

  /** The features of one candidate, as the loop over the fused ranking computes them. */
  method ComputeFeatures(g: Neighbors, all: map<int, map<int, int>>, pairs: seq<(int, int)>, inputs: Inputs, id: int,
                         rank: int)
    returns (f: Features)
    requires NeighborsClosed(g) && AllDistances(g, all) && PairsOf(pairs, inputs.directEvidence)
    requires id in g && Described(inputs, id) && forall d | d in inputs.directEvidence :: d in g
    ensures IsFeatures(g, inputs, id, f) && f.fusionRank == rank
  {
    var relevant := RelevantPathEdges(g, all, pairs, inputs.directEvidence, id);
    var required := IsRequiredBridge(g, all, pairs, inputs.directEvidence, id);
    f := Features(id, rank, inputs.fusionScores[id], inputs.directFieldCounts[id], inputs.approvedAliasCounts[id],
                  required, relevant.Some?, relevant, inputs.grainKeyCoverage[id], id in inputs.directEvidence);
  }

  /** features holds, in fused order, the features of every candidate. */
  ghost predicate AreFeatures(g: Neighbors, inputs: Inputs, ranked: seq<int>, features: seq<Features>) {
    && |features| == |ranked|
    && forall k | 0 <= k < |ranked| ::
         Described(inputs, ranked[k]) && IsFeatures(g, inputs, ranked[k], features[k])
         && features[k].fusionRank == k + 1
  }

  method ComputeAll(g: Neighbors, all: map<int, map<int, int>>, pairs: seq<(int, int)>, inputs: Inputs,
                    ranked: seq<int>)
    returns (features: seq<Features>)
    requires NeighborsClosed(g) && AllDistances(g, all) && PairsOf(pairs, inputs.directEvidence)
    requires forall id | id in ranked :: id in g && Described(inputs, id)
    requires forall d | d in inputs.directEvidence :: d in g
    ensures AreFeatures(g, inputs, ranked, features)
  {
    features := [];
    for k := 0 to |ranked|
      invariant AreFeatures(g, inputs, ranked[..k], features)
    {
      var f := ComputeFeatures(g, all, pairs, inputs, ranked[k], k + 1);
      features := features + [f];
    }
    assert ranked[..|ranked|] == ranked;
  }

  /** The id is the last component of the key, so different tables never tie. */
  lemma {:induction false} NoTies(f: Features, f': Features)
    requires f.objectId != f'.objectId && FeatureLeq()(f, f')
    ensures KeyLess(SortKey(f), SortKey(f'))
  {
    assert SortKey(f)[7] == Finite(f.objectId as real) && SortKey(f')[7] == Finite(f'.objectId as real);
  }

  lemma {:induction false} SortedFeatures(ranked: seq<int>, features: seq<Features>, ordered: seq<Features>)
    requires NoRepeats(ranked) && |features| == |ranked|
    requires forall k | 0 <= k < |ranked| :: features[k].objectId == ranked[k]
    requires ordered == Sort(FeatureLeq(), features)
    ensures StrictlyOrdered(ordered)
    ensures forall f :: f in ordered <==> f in features
    ensures forall i, j | 0 <= i < j < |ordered| :: ordered[i].objectId != ordered[j].objectId
    ensures |ordered| == |ranked|
  {
    FeatureLeqTotal();
    SortOrdered(FeatureLeq(), features);
    SortMembers(FeatureLeq(), features);
    SortPermutes(FeatureLeq(), features);
    assert NoRepeats(features);
    RearrangedNoRepeats(features, ordered);
    forall i, j | 0 <= i < j < |ordered|
      ensures ordered[i].objectId != ordered[j].objectId && KeyLess(SortKey(ordered[i]), SortKey(ordered[j]))
    {
      assert ordered[i] in features && ordered[j] in features;
      assert FeatureLeq()(ordered[i], ordered[j]);
      NoTies(ordered[i], ordered[j]);
    }
  }

  function EvidenceOf(ordered: seq<Features>, reasons: map<int, set<Reason>>): (evidence: seq<Evidence>)
    requires forall k | 0 <= k < |ordered| :: ordered[k].objectId in reasons
    ensures |evidence| == |ordered|
  {
    seq(|ordered|, k requires 0 <= k < |ordered| =>
      Evidence(ordered[k], k + 1, InEnumOrder(reasons[ordered[k].objectId])))
  }

  function IdsOf(ordered: seq<Features>): (ids: seq<int>)
    ensures |ids| == |ordered|
  {
    seq(|ordered|, k requires 0 <= k < |ordered| => ordered[k].objectId)
  }

  /** The validators accept what the ranking assembles. */
  lemma {:induction false} EvidenceIsAccepted(g: Neighbors, inputs: Inputs, f: Features, rank: int,
                                              reasons: set<Reason>)
    requires Described(inputs, f.objectId) && IsFeatures(g, inputs, f.objectId, f)
    requires f.fusionRank >= 1 && rank >= 1
    requires inputs.fusionScores[f.objectId] >= 0.0 && inputs.directFieldCounts[f.objectId] >= 0
      && inputs.approvedAliasCounts[f.objectId] >= 0
    ensures EvidenceAccepted(Evidence(f, rank, InEnumOrder(reasons)))
  {
    EnumOrder(reasons);
    if f.relevantPathEdges.Some? {
      JoinLengthPositive(g, inputs.directEvidence, f.objectId, f.relevantPathEdges.value);
    }
  }

  lemma {:induction false} EvidenceAt(ranked: seq<int>, inputs: Inputs, g: Neighbors, ordered: seq<Features>, k: int,
                                      reasons: set<Reason>)
    requires 0 <= k < |ordered| && FromRanking(ranked, inputs, g, ordered[k])
    requires forall r :: r in reasons <==> IsReason(ordered, k, r)
    ensures IsEvidence(ranked, inputs, g, ordered, k, Evidence(ordered[k], k + 1, InEnumOrder(reasons)))
  {
    EvidenceIsAccepted(g, inputs, ordered[k], k + 1, reasons);
    EnumOrder(reasons);
  }

  /** f holds the features of the table at its fusion rank, with counts and scores that are not negative. */
  ghost predicate FromRanking(ranked: seq<int>, inputs: Inputs, g: Neighbors, f: Features) {
    && 1 <= f.fusionRank <= |ranked| && ranked[f.fusionRank - 1] == f.objectId
    && Described(inputs, f.objectId) && IsFeatures(g, inputs, f.objectId, f)
    && inputs.fusionScores[f.objectId] >= 0.0
    && inputs.directFieldCounts[f.objectId] >= 0 && inputs.approvedAliasCounts[f.objectId] >= 0
  }

  lemma {:induction false} AllFromRanking(ranked: seq<int>, inputs: Inputs, g: Neighbors, features: seq<Features>)
    requires Accepted(ranked, inputs) && AreFeatures(g, inputs, ranked, features)
    ensures forall f | f in features :: FromRanking(ranked, inputs, g, f)
    ensures forall k | 0 <= k < |ranked| :: features[k].objectId == ranked[k]
  {
    forall f | f in features ensures FromRanking(ranked, inputs, g, f) {
      var j :| 0 <= j < |features| && features[j] == f;
      assert ranked[j] in Elements(ranked);
    }
  }

  lemma {:induction false} SameIds(ranked: seq<int>, features: seq<Features>, ordered: seq<Features>)
    requires |features| == |ranked| && forall k | 0 <= k < |ranked| :: features[k].objectId == ranked[k]
    requires forall f :: f in ordered <==> f in features
    ensures forall id :: id in IdsOf(ordered) <==> id in ranked
  {
    forall id ensures id in IdsOf(ordered) <==> id in ranked {
      if id in ranked {
        var j :| 0 <= j < |ranked| && ranked[j] == id;
        assert features[j] in ordered;
        var k :| 0 <= k < |ordered| && ordered[k] == features[j];
        assert IdsOf(ordered)[k] == id;
      }
      if id in IdsOf(ordered) {
        var k :| 0 <= k < |ordered| && ordered[k].objectId == id;
        assert ordered[k] in features;
      }
    }
  }

  lemma {:induction false} Assembled(ranked: seq<int>, inputs: Inputs, g: Neighbors, features: seq<Features>,
                                     ordered: seq<Features>, reasons: map<int, set<Reason>>)
    requires NoRepeats(ranked) && |features| == |ranked|
    requires forall k | 0 <= k < |ranked| :: features[k].objectId == ranked[k]
    requires forall f | f in features :: FromRanking(ranked, inputs, g, f)
    requires ordered == Sort(FeatureLeq(), features)
    requires forall k | 0 <= k < |ordered| :: ordered[k].objectId in reasons
    requires forall k, r | 0 <= k < |ordered| :: r in reasons[ordered[k].objectId] <==> IsReason(ordered, k, r)
    ensures IsOutcome(ranked, inputs, g, Outcome(IdsOf(ordered), EvidenceOf(ordered, reasons)))
  {
    var o := Outcome(IdsOf(ordered), EvidenceOf(ordered, reasons));
    SortedFeatures(ranked, features, ordered);
    SameIds(ranked, features, ordered);
    assert FeaturesIn(o.evidence) == ordered;
    forall k | 0 <= k < |ordered| ensures IsEvidence(ranked, inputs, g, ordered, k, o.evidence[k]) {
      assert ordered[k] in ordered;
      EvidenceAt(ranked, inputs, g, ordered, k, reasons[ordered[k].objectId]);
    }
  }

  /** Distances between all tables, and the pairs of tables with direct evidence. */
  method Prepare(g: Neighbors, inputs: Inputs) returns (all: map<int, map<int, int>>, pairs: seq<(int, int)>)
    requires GraphOver(g, Elements(inputs.tables), inputs.foreignKeys)
    ensures NeighborsClosed(g) && AllDistances(g, all) && PairsOf(pairs, inputs.directEvidence)
  {
    ClosedGraph(g, Elements(inputs.tables), inputs.foreignKeys);
    all := DistancesFromAll(g, inputs.tables);
    var direct := SortedSet(inputs.directEvidence);
    pairs := Combinations(direct);
    CombinationsAre(direct);
  }

  /** The ranking itself, once the arguments are accepted and the graph is built. */
  method RerankOn(graph: Neighbors, ranked: seq<int>, inputs: Inputs) returns (o: Outcome)
    requires Accepted(ranked, inputs) && GraphOver(graph, Elements(inputs.tables), inputs.foreignKeys)
    ensures IsOutcome(ranked, inputs, graph, o)
  {
    var all, pairs := Prepare(graph, inputs);
    forall id | id in ranked || id in inputs.directEvidence ensures id in graph {
      assert id in Elements(ranked);
    }
    var features := ComputeAll(graph, all, pairs, inputs, ranked);
    AllFromRanking(ranked, inputs, graph, features);
    var ordered := Sort(FeatureLeq(), features);
    SortedFeatures(ranked, features, ordered);
    var reasons := EffectiveReasonCodes(ordered);
    Assembled(ranked, inputs, graph, features, ordered, reasons);
    return Outcome(IdsOf(ordered), EvidenceOf(ordered, reasons));
  }

  /** rerank_schema_candidates. */
  method RerankSchemaCandidates(ranked: seq<int>, inputs: Inputs) returns (r: Result<Outcome, RerankError>)
    ensures r.Ok? <==> AllAdmissible(ranked, inputs)
    ensures r.Ok? <==> Accepted(ranked, inputs)
    ensures r.Ok? ==> IsOutcome(ranked, inputs, GraphOf(inputs), r.value)
  {
    if Accepted(ranked, inputs) {
      AcceptedAdmits(ranked, inputs);
    } else if AllAdmissible(ranked, inputs) {
      AdmittedAccepts(ranked, inputs);
    }
    if !AcceptedRanking(ranked, inputs) {
      return Err(RerankError);
    }
    var built := BuildNeighbors(Elements(inputs.tables), inputs.foreignKeys);
    if built.Err? {
      return Err(RerankError);
    }
    var o := RerankOn(built.value, ranked, inputs);
    return Ok(o);
  }

  lemma {:induction false} ClosedGraph(g: Neighbors, tables: set<int>, keys: seq<(int, int)>)
    requires GraphOver(g, tables, keys)
    ensures NeighborsClosed(g)
  {
    forall t, n | t in g && n in g[t] ensures n in g {
      assert Joined(keys, t, n);
    }
  }

  // ----- Required bridges outside of the direct evidence -----

  /** Of these ids, those without direct evidence that separate a pair of tables with it. */
  ghost predicate BridgesAmong(graph: Neighbors, direct: set<int>, ids: seq<int>, bridges: seq<int>) {
    forall id :: id in bridges <==> id in ids && id !in direct && IsBridge(graph, direct, id)
  }

  lemma {:induction false} NextBridge(graph: Neighbors, direct: set<int>, ids: seq<int>, k: int, bridges: seq<int>)
    requires 0 <= k < |ids| && BridgesAmong(graph, direct, ids[..k], bridges)
    ensures BridgesAmong(graph, direct, ids[..k + 1],
                         if ids[k] !in direct && IsBridge(graph, direct, ids[k]) then bridges + [ids[k]] else bridges)
  {
    assert ids[..k + 1] == ids[..k] + [ids[k]];
  }

  /** The search for bridges, once the graph is built. */
  method FindBridgesOn(graph: Neighbors, inputs: Inputs) returns (bridges: seq<int>)
    requires inputs.directEvidence <= Elements(inputs.tables)
    requires GraphOver(graph, Elements(inputs.tables), inputs.foreignKeys)
    ensures forall i, j | 0 <= i < j < |bridges| :: bridges[i] < bridges[j]
    ensures forall id :: id in bridges <==>
              id in inputs.tables && id !in inputs.directEvidence && IsBridge(graph, inputs.directEvidence, id)
  {
    var all, pairs := Prepare(graph, inputs);
    var ids := Ascending(inputs.tables);
    AscendingIds(inputs.tables);
    bridges := [];
    for k := 0 to |ids|
      invariant forall i, j | 0 <= i < j < |bridges| :: bridges[i] < bridges[j]
      invariant forall i | 0 <= i < |bridges| && k < |ids| :: bridges[i] < ids[k]
      invariant BridgesAmong(graph, inputs.directEvidence, ids[..k], bridges)
    {
      NextBridge(graph, inputs.directEvidence, ids, k, bridges);
      if ids[k] !in inputs.directEvidence {
        var required := IsRequiredBridge(graph, all, pairs, inputs.directEvidence, ids[k]);
        if required {
          bridges := bridges + [ids[k]];
        }
      }
    }
    assert ids[..|ids|] == ids;
  }

  /** find_required_bridge_table_ids: all tables, in increasing order, that have no direct evidence
      themselves and whose removal disconnects two tables that do. */
  method FindRequiredBridges(inputs: Inputs) returns (r: Result<seq<int>, RerankError>)
    ensures r.Ok? <==> inputs.directEvidence <= Elements(inputs.tables)
                       && forall key | key in inputs.foreignKeys :: key.0 in inputs.tables && key.1 in inputs.tables
    ensures r.Ok? ==> forall i, j | 0 <= i < j < |r.value| :: r.value[i] < r.value[j]
    ensures r.Ok? ==> forall id :: id in r.value <==>
                        id in inputs.tables && id !in inputs.directEvidence
                        && IsBridge(GraphOf(inputs), inputs.directEvidence, id)
  {
    if !(inputs.directEvidence <= Elements(inputs.tables)) {
      return Err(RerankError);
    }
    var built := BuildNeighbors(Elements(inputs.tables), inputs.foreignKeys);
    if built.Err? {
      return Err(RerankError);
    }
    var bridges := FindBridgesOn(built.value, inputs);
    return Ok(bridges);
  }

  /** _required_bridge over the pairs of tables with direct evidence. */
  method IsRequiredBridge(g: Neighbors, all: map<int, map<int, int>>, pairs: seq<(int, int)>, direct: set<int>, id: int)
    returns (required: bool)
    requires NeighborsClosed(g) && AllDistances(g, all) && PairsOf(pairs, direct) && forall d | d in direct :: d in g
    ensures required <==> IsBridge(g, direct, id)
  {
    required := RequiredBridge(id, pairs, g, all);
    if IsBridge(g, direct, id) {
      ghost var l, r :| l in direct && r in direct && l < r && id != l && id != r && Separates(g, id, l, r);
      assert (l, r) in pairs;
    }
  }
}
