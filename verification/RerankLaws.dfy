/** What a reader can rely on in the outcome of the reranking. */
module RerankLaws {
  import opened Wrappers
  import opened Sorting
  import opened Ids
  import opened Bridges
  import opened Rerank

  // ----- What the order means -----

  /** Where a reason stands among the nine. */
  function Place(r: Reason): int {
    match r
    case REQUIRED_BRIDGE => 0
    case FIELD_COVERAGE => 1
    case APPROVED_ALIAS => 2
    case JOIN_CONNECTIVITY => 3
    case SHORTER_JOIN_PATH => 4
    case GRAIN_KEY_COVERAGE => 5
    case FUSION_RANK => 6
    case DISCONNECTED_PENALTY => 7
    case CANONICAL_TIE_BREAK => 8
  }

  /** f is better than g on this ground; the penalty is none. */
  predicate Better(f: Features, g: Features, ground: Reason) {
    match ground
    case REQUIRED_BRIDGE => f.requiredBridge && !g.requiredBridge
    case FIELD_COVERAGE => f.directFieldCount > g.directFieldCount
    case APPROVED_ALIAS => f.approvedAliasCount > g.approvedAliasCount
    case JOIN_CONNECTIVITY => f.joinConnected && !g.joinConnected
    case SHORTER_JOIN_PATH =>
      f.relevantPathEdges.Some?
      && (g.relevantPathEdges.None? || f.relevantPathEdges.value < g.relevantPathEdges.value)
    case GRAIN_KEY_COVERAGE => f.grainKeyCoverage && !g.grainKeyCoverage
    case FUSION_RANK => f.fusionScore > g.fusionScore
    case DISCONNECTED_PENALTY => false
    case CANONICAL_TIE_BREAK => f.objectId < g.objectId
  }

  predicate Even(f: Features, g: Features, ground: Reason) {
    !Better(f, g, ground) && !Better(g, f, ground)
  }

  /** The first ground on which the two are not even speaks for f. */
  ghost predicate Wins(f: Features, g: Features, ground: Reason) {
    Better(f, g, ground) && forall earlier | Place(earlier) < Place(ground) :: Even(f, g, earlier)
  }

  function PartOf(ground: Reason): int {
    if ground.CANONICAL_TIE_BREAK? then 7 else Place(ground)
  }

  lemma {:induction false} PartsTell(f: Features, g: Features, ground: Reason)
    requires !ground.DISCONNECTED_PENALTY?
    ensures 0 <= PartOf(ground) < KEY_LENGTH && REASON_FOR_KEY[PartOf(ground)] == ground
    ensures PartLess(SortKey(f)[PartOf(ground)], SortKey(g)[PartOf(ground)]) <==> Better(f, g, ground)
    ensures SortKey(f)[PartOf(ground)] == SortKey(g)[PartOf(ground)] <==> Even(f, g, ground)
  {
  }

  /** The ground of the component at an index. */
  lemma {:induction false} PartIs(d: int)
    requires 0 <= d < KEY_LENGTH
    ensures !REASON_FOR_KEY[d].DISCONNECTED_PENALTY? && PartOf(REASON_FOR_KEY[d]) == d
  {
  }

  lemma {:induction false} DifferenceWins(f: Features, g: Features)
    requires KeyLess(SortKey(f), SortKey(g))
    ensures Wins(f, g, REASON_FOR_KEY[Difference(f, g).value])
  {
    var a, b, d := SortKey(f), SortKey(g), Difference(f, g).value;
    var ground := REASON_FOR_KEY[d];
    FirstDifferenceShows(a, b);
    PartIs(d);
    PartsTell(f, g, ground);
    forall earlier | Place(earlier) < Place(ground) ensures Even(f, g, earlier) {
      if !earlier.DISCONNECTED_PENALTY? {
        var i := PartOf(earlier);
        PartsTell(f, g, earlier);
        assert i < d && a[i] == a[..d][i] && b[i] == b[..d][i];
      }
    }
  }

  /** One key is less than another exactly when some ground wins, and then that is the one on record. */
  lemma {:induction false} OrderTells(f: Features, g: Features, ground: Reason)
    ensures Wins(f, g, ground) <==>
      && KeyLess(SortKey(f), SortKey(g)) && REASON_FOR_KEY[Difference(f, g).value] == ground
  {
    if KeyLess(SortKey(f), SortKey(g)) {
      DifferenceWins(f, g);
    }
    if Wins(f, g, ground) {
      EarlierEven(f, g, ground);
      PartsTell(f, g, ground);
      FirstDifferenceIs(SortKey(f), SortKey(g), PartOf(ground));
    }
  }

  lemma {:induction false} EarlierEven(f: Features, g: Features, ground: Reason)
    requires Wins(f, g, ground)
    ensures SortKey(f)[..PartOf(ground)] == SortKey(g)[..PartOf(ground)]
    ensures SortKey(f)[PartOf(ground)] != SortKey(g)[PartOf(ground)]
  {
    PartsTell(f, g, ground);
    forall i | 0 <= i < PartOf(ground) ensures SortKey(f)[i] == SortKey(g)[i] {
      PartIs(i);
      PartsTell(f, g, REASON_FOR_KEY[i]);
      assert Place(REASON_FOR_KEY[i]) < Place(ground);
    }
  }

  /**
   * The ranking compares required bridges first, then direct fields, aliases, join connection, join length, grain
   * keys, fusion score and the id: whoever comes earlier wins on some ground.
   */
  lemma {:induction false} EarlierWins(ranked: seq<int>, inputs: Inputs, g: Neighbors, o: Outcome, i: int, j: int)
      returns (ground: Reason)
    requires IsOutcome(ranked, inputs, g, o) && 0 <= i < j < |o.evidence|
    ensures Wins(o.evidence[i].features, o.evidence[j].features, ground)
  {
    var one, other := o.evidence[i].features, o.evidence[j].features;
    assert KeyLess(SortKey(FeaturesIn(o.evidence)[i]), SortKey(FeaturesIn(o.evidence)[j]));
    ground := REASON_FOR_KEY[Difference(one, other).value];
    OrderTells(one, other, ground);
  }

  /** What the reason r says of neighbors: f wins over g on this ground. */
  lemma {:induction false} NeighborsTell(f: Features, g: Features, r: Reason)
    requires KeyLess(SortKey(f), SortKey(g))
    ensures Difference(f, g).Some?
    ensures r == REASON_FOR_KEY[Difference(f, g).value] <==> Wins(f, g, r)
    ensures Penalized(f, g) <==>
      Wins(f, g, JOIN_CONNECTIVITY) && !g.hasDirectEvidence && g.directFieldCount == 0 && g.approvedAliasCount == 0
  {
    OrderTells(f, g, r);
    OrderTells(f, g, JOIN_CONNECTIVITY);
    PartIs(Difference(f, g).value);
    assert PartOf(JOIN_CONNECTIVITY) == 3;
  }

  /** f loses to the table before it for its missing join connection, with no evidence of its own. */
  ghost predicate Deserted(before: Features, f: Features, inputs: Inputs) {
    && Wins(before, f, JOIN_CONNECTIVITY) && f.objectId !in inputs.directEvidence
    && f.directFieldCount == 0 && f.approvedAliasCount == 0
  }

  /** The table at k wins over the next one on this ground, or gets the penalty. */
  ghost predicate Earns(fs: seq<Features>, inputs: Inputs, k: int, r: Reason)
    requires 0 <= k < |fs|
  {
    || (k + 1 < |fs| && Wins(fs[k], fs[k + 1], r))
    || (k > 0 && r == DISCONNECTED_PENALTY && Deserted(fs[k - 1], fs[k], inputs))
  }

  lemma {:induction false} ReasonTells(fs: seq<Features>, inputs: Inputs, k: int, r: Reason)
    requires 0 <= k < |fs| && StrictlyOrdered(fs)
    requires fs[k].hasDirectEvidence == (fs[k].objectId in inputs.directEvidence)
    ensures IsReason(fs, k, r) <==> Earns(fs, inputs, k, r)
  {
    if k + 1 < |fs| {
      NeighborsTell(fs[k], fs[k + 1], r);
    }
    if k > 0 {
      NeighborsTell(fs[k - 1], fs[k], r);
    }
  }

  /**
   * The reasons on record: the ground on which a table wins over the next one, and the penalty of a deserted
   * one; in the order of the enumeration.
   */
  lemma {:induction false} ReasonsTell(ranked: seq<int>, inputs: Inputs, g: Neighbors, o: Outcome, k: int, r: Reason)
    requires IsOutcome(ranked, inputs, g, o) && 0 <= k < |o.evidence|
    ensures r in o.evidence[k].reasons <==> Earns(FeaturesIn(o.evidence), inputs, k, r)
    ensures Ascends(o.evidence[k].reasons)
  {
    var fs := FeaturesIn(o.evidence);
    ReasonRecorded(ranked, inputs, g, o, k, r);
    ReasonTells(fs, inputs, k, r);
  }

  lemma {:induction false} ReasonRecorded(ranked: seq<int>, inputs: Inputs, g: Neighbors, o: Outcome, k: int,
                                          r: Reason)
    requires IsOutcome(ranked, inputs, g, o) && 0 <= k < |o.evidence|
    ensures r in o.evidence[k].reasons <==> IsReason(FeaturesIn(o.evidence), k, r)
    ensures o.evidence[k].features.hasDirectEvidence == (o.evidence[k].features.objectId in inputs.directEvidence)
    ensures Ascends(o.evidence[k].reasons)
  {
    assert IsEvidence(ranked, inputs, g, FeaturesIn(o.evidence), k, o.evidence[k]);
    assert r in o.evidence[k].reasons <==> r in Codes(o.evidence[k].reasons);
    AcceptedAscend(o.evidence[k]);
  }

  ghost predicate Ascends(reasons: seq<Reason>) {
    forall m, n | 0 <= m < n < |reasons| :: Place(reasons[m]) < Place(reasons[n])
  }

  lemma {:induction false} PickedAscends(reasons: set<Reason>, from: seq<Reason>)
    requires Ascends(from)
    ensures Ascends(Picked(reasons, from))
  {
    if from != [] {
      assert Ascends(from[1..]);
      PickedAscends(reasons, from[1..]);
      PickedMembers(reasons, from[1..]);
      var rest := Picked(reasons, from[1..]);
      forall n | 0 <= n < |rest| ensures Place(from[0]) < Place(rest[n]) {
        assert rest[n] in rest;
      }
    }
  }

  lemma {:induction false} AllAscend()
    ensures Ascends(ALL_REASONS)
  {
    forall m | 0 <= m < |ALL_REASONS| ensures Place(ALL_REASONS[m]) == m {
      var r := ALL_REASONS[m];
      assert m == 0 || m == 1 || m == 2 || m == 3 || m == 4 || m == 5 || m == 6 || m == 7 || m == 8;
    }
  }

  lemma {:induction false} AcceptedAscend(e: Evidence)
    requires EvidenceAccepted(e)
    ensures Ascends(e.reasons)
  {
    AllAscend();
    PickedAscends(Codes(e.reasons), ALL_REASONS);
  }

  // ----- The recorded reasons explain every pair -----

  ghost predicate Chain(keys: seq<seq<KeyPart>>) {
    && (forall k | 0 <= k < |keys| :: |keys[k]| == KEY_LENGTH)
    && (forall i, j {:trigger Precedes(keys, i, j)} | 0 <= i < j < |keys| :: Precedes(keys, i, j))
  }

  ghost predicate Precedes(keys: seq<seq<KeyPart>>, i: int, j: int)
    requires 0 <= i < j < |keys| && |keys[i]| == |keys[j]|
  {
    KeyLess(keys[i], keys[j])
  }

  /** The component that decides between neighbors at k and k + 1. */
  ghost function Gap(keys: seq<seq<KeyPart>>, k: int): (d: int)
    requires Chain(keys) && 0 <= k && k + 1 < |keys|
    ensures 0 <= d < KEY_LENGTH && FirstDifference(keys[k], keys[k + 1]) == Some(d)
  {
    assert Precedes(keys, k, k + 1);
    FirstDifference(keys[k], keys[k + 1]).value
  }

  lemma {:induction false} OneFurther(keys: seq<seq<KeyPart>>, i: int, j: int)
    requires Chain(keys) && 0 <= i < j - 1 && j < |keys| && FirstDifference(keys[i], keys[j - 1]).Some?
    ensures var d := FirstDifference(keys[i], keys[j - 1]).value;
            FirstDifference(keys[i], keys[j]) == Some(if d <= Gap(keys, j - 1) then d else Gap(keys, j - 1))
  {
    assert Precedes(keys, i, j - 1) && Precedes(keys, j - 1, j);
    DifferenceOfChain(keys[i], keys[j - 1], keys[j]);
  }

  /** The component that decides between i and j is the most significant one that decides between
      neighbors from i up to j, and some neighbors show it. */
  lemma {:induction false} DecidedByNeighbors(keys: seq<seq<KeyPart>>, i: int, j: int) returns (k: int)
    requires Chain(keys) && 0 <= i < j < |keys|
    ensures i <= k < j && FirstDifference(keys[i], keys[j]) == Some(Gap(keys, k))
    ensures forall m | i <= m < j :: Gap(keys, k) <= Gap(keys, m)
    decreases j - i
  {
    if j == i + 1 {
      k := i;
    } else {
      k := DecidedByNeighbors(keys, i, j - 1);
      OneFurther(keys, i, j);
      if Gap(keys, j - 1) < Gap(keys, k) {
        k := j - 1;
      }
    }
  }

  ghost function Keys(ordered: seq<Features>): (keys: seq<seq<KeyPart>>)
    ensures |keys| == |ordered|
    ensures StrictlyOrdered(ordered) ==> Chain(keys)
  {
    seq(|ordered|, k requires 0 <= k < |ordered| => SortKey(ordered[k]))
  }

  /** Whenever one table is ranked before another, the ground on which it wins is recorded for a
      table from the first up to, not including, the second. */
  lemma {:induction false} ReasonIsRecorded(ranked: seq<int>, inputs: Inputs, g: Neighbors, o: Outcome, i: int, j: int)
      returns (k: int, ground: Reason)
    requires IsOutcome(ranked, inputs, g, o) && 0 <= i < j < |o.evidence|
    ensures i <= k < j && ground in o.evidence[k].reasons
    ensures Wins(o.evidence[i].features, o.evidence[j].features, ground)
  {
    var ordered := FeaturesIn(o.evidence);
    k := DecidedByNeighbors(Keys(ordered), i, j);
    assert IsEvidence(ranked, inputs, g, ordered, k, o.evidence[k]);
    assert Difference(ordered[k], ordered[k + 1]) == Some(Gap(Keys(ordered), k));
    ground := REASON_FOR_KEY[Gap(Keys(ordered), k)];
    assert IsReason(ordered, k, ground) && ground in Codes(o.evidence[k].reasons);
    assert KeyLess(SortKey(ordered[i]), SortKey(ordered[j]));
    OrderTells(ordered[i], ordered[j], ground);
  }

  // ----- The input order does not matter -----

  lemma {:induction false} SameFeaturesForSameId(ranked: seq<int>, ranked': seq<int>, inputs: Inputs, g: Neighbors,
                                                 o: Outcome, o': Outcome, k: int, k': int)
    requires IsOutcome(ranked, inputs, g, o) && IsOutcome(ranked', inputs, g, o')
    requires 0 <= k < |o.rankedIds| && 0 <= k' < |o'.rankedIds| && o.rankedIds[k] == o'.rankedIds[k']
    ensures Erase(o.evidence[k].features) == Erase(o'.evidence[k'].features)
  {
    assert IsEvidence(ranked, inputs, g, FeaturesIn(o.evidence), k, o.evidence[k]);
    assert IsEvidence(ranked', inputs, g, FeaturesIn(o'.evidence), k', o'.evidence[k']);
    FeaturesUnique(g, inputs, o.rankedIds[k], o.evidence[k].features, o'.evidence[k'].features);
  }

  lemma {:induction false} SameKey(f: Features, f': Features)
    requires Erase(f) == Erase(f')
    ensures SortKey(f) == SortKey(f')
  {
    assert f == Erase(f').(fusionRank := f.fusionRank);
  }

  ghost function Position(ids: seq<int>, id: int): (k: int)
    requires id in ids
    ensures 0 <= k < |ids| && ids[k] == id
  {
    var k :| 0 <= k < |ids| && ids[k] == id;
    k
  }

  /** The key that o shows for a table. */
  ghost function KeyOfId(o: Outcome, id: int): (key: seq<KeyPart>)
    requires OutcomeAccepted(o) && id in o.rankedIds
    ensures |key| == KEY_LENGTH && key[7] == Finite(id as real)
  {
    var k := Position(o.rankedIds, id);
    SortKey(o.evidence[k].features)
  }

  /** Tables in the order of the keys that o shows for them. */
  ghost function KeyOrder(o: Outcome): (int, int) -> bool
    requires OutcomeAccepted(o)
  {
    (a, b) => a in o.rankedIds && b in o.rankedIds
              && (KeyOfId(o, a) == KeyOfId(o, b) || KeyLess(KeyOfId(o, a), KeyOfId(o, b)))
  }

  lemma {:induction false} KeyOrderHasNoTies(o: Outcome, a: int, b: int)
    requires OutcomeAccepted(o) && KeyOrder(o)(a, b) && KeyOrder(o)(b, a)
    ensures a == b
  {
    var ka, kb := KeyOfId(o, a), KeyOfId(o, b);
    if ka != kb {
      FirstDifferenceShows(ka, kb);
      FirstDifferenceIs(kb, ka, FirstDifference(ka, kb).value);
    }
  }

  /** Any outcome for the same candidates is ordered by the keys that o shows. */
  lemma {:induction false} OrderedByKeys(ranked: seq<int>, ranked': seq<int>, inputs: Inputs, g: Neighbors, o: Outcome,
                                         o': Outcome)
    requires IsOutcome(ranked, inputs, g, o) && IsOutcome(ranked', inputs, g, o')
    requires forall id :: id in ranked <==> id in ranked'
    ensures Ordered(KeyOrder(o), o'.rankedIds)
    ensures forall k | 0 <= k < |o'.rankedIds| :: o'.rankedIds[k] in o.rankedIds
  {
    forall k | 0 <= k < |o'.rankedIds|
      ensures o'.rankedIds[k] in o.rankedIds && KeyOfId(o, o'.rankedIds[k]) == SortKey(o'.evidence[k].features)
    {
      assert o'.rankedIds[k] in o'.rankedIds;
      var m := Position(o.rankedIds, o'.rankedIds[k]);
      SameFeaturesForSameId(ranked, ranked', inputs, g, o, o', m, k);
      SameKey(o.evidence[m].features, o'.evidence[k].features);
    }
    forall i, j | 0 <= i < j < |o'.rankedIds| ensures KeyOrder(o)(o'.rankedIds[i], o'.rankedIds[j]) {
      assert KeyLess(SortKey(FeaturesIn(o'.evidence)[i]), SortKey(FeaturesIn(o'.evidence)[j]));
    }
  }

  /** Reordering the candidates changes nothing but the recorded fusion ranks. */
  lemma {:induction false} InputOrderIsIrrelevant(ranked: seq<int>, ranked': seq<int>, inputs: Inputs, g: Neighbors,
                                                  o: Outcome, o': Outcome)
    requires IsOutcome(ranked, inputs, g, o) && IsOutcome(ranked', inputs, g, o')
    requires forall id :: id in ranked <==> id in ranked'
    ensures o.rankedIds == o'.rankedIds
    ensures forall k | 0 <= k < |o.evidence| ::
              Erase(o.evidence[k].features) == Erase(o'.evidence[k].features)
              && o.evidence[k].reasons == o'.evidence[k].reasons
  {
    OrderedByKeys(ranked, ranked, inputs, g, o, o);
    OrderedByKeys(ranked, ranked', inputs, g, o, o');
    SameElements(o.rankedIds, o'.rankedIds);
    forall a, b | a in o.rankedIds && b in o.rankedIds && KeyOrder(o)(a, b) && KeyOrder(o)(b, a) ensures a == b {
      KeyOrderHasNoTies(o, a, b);
    }
    OrderedUnique(KeyOrder(o), o.rankedIds, o'.rankedIds);
    forall k | 0 <= k < |o.evidence| ensures Erase(o.evidence[k].features) == Erase(o'.evidence[k].features) {
      SameFeaturesForSameId(ranked, ranked', inputs, g, o, o', k, k);
    }
    forall k | 0 <= k < |o.evidence| ensures o.evidence[k].reasons == o'.evidence[k].reasons {
      SameReasons(ranked, ranked', inputs, g, o, o', k);
    }
  }

  lemma {:induction false} SameReason(fs: seq<Features>, fs': seq<Features>, k: int, r: Reason)
    requires |fs| == |fs'| && 0 <= k < |fs| && forall m | 0 <= m < |fs| :: Erase(fs[m]) == Erase(fs'[m])
    ensures IsReason(fs, k, r) <==> IsReason(fs', k, r)
  {
    forall m | 0 <= m < |fs| ensures SortKey(fs[m]) == SortKey(fs'[m]) {
      SameKey(fs[m], fs'[m]);
    }
    assert k > 0 ==> (Penalized(fs[k - 1], fs[k]) <==> Penalized(fs'[k - 1], fs'[k]));
  }

  lemma {:induction false} SameReasons(ranked: seq<int>, ranked': seq<int>, inputs: Inputs, g: Neighbors, o: Outcome,
                                       o': Outcome, k: int)
    requires IsOutcome(ranked, inputs, g, o) && IsOutcome(ranked', inputs, g, o')
    requires |o.evidence| == |o'.evidence| && 0 <= k < |o.evidence|
    requires forall m | 0 <= m < |o.evidence| :: Erase(o.evidence[m].features) == Erase(o'.evidence[m].features)
    ensures o.evidence[k].reasons == o'.evidence[k].reasons
  {
    var fs, fs' := FeaturesIn(o.evidence), FeaturesIn(o'.evidence);
    forall r ensures IsReason(fs, k, r) <==> IsReason(fs', k, r) {
      SameReason(fs, fs', k, r);
    }
    assert IsEvidence(ranked, inputs, g, fs, k, o.evidence[k]);
    assert IsEvidence(ranked', inputs, g, fs', k, o'.evidence[k]);
    assert Codes(o.evidence[k].reasons) == Codes(o'.evidence[k].reasons);
  }

  // ----- Bridges are join connected -----

  /** A required bridge is always reported as join connected, with a positive path length. */
  lemma {:induction false} BridgeIsJoinConnected(ranked: seq<int>, inputs: Inputs, g: Neighbors, o: Outcome, k: int)
    requires IsOutcome(ranked, inputs, g, o) && 0 <= k < |o.evidence|
    requires o.evidence[k].features.requiredBridge
    ensures o.evidence[k].features.joinConnected
  {
    var f := o.evidence[k].features;
    assert IsEvidence(ranked, inputs, g, FeaturesIn(o.evidence), k, o.evidence[k]);
    var direct, id := inputs.directEvidence, f.objectId;
    var l, r :| l in direct && r in direct && l < r && id != l && id != r && Separates(g, id, l, r);
    var p :| IsWalk(g, l, r, p) && Avoids(p, None);
    var i :| 0 <= i < |p| && p[i] == id;
    WalkParts(g, l, r, p, i);
    assert JoinsVia(g, direct, id, l, r, p[..i + 1], p[i..], |p| - 1);
    assert JoinLength(g, direct, id, |p| - 1);
  }
}
