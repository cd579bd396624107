/** Reciprocal rank fusion of two retrieval channels. */
module Fusion {
  // An id adds 1 / (k + rank) for each channel it is in.

  import opened Ids
  import opened Sorting
  import opened Wrappers

  datatype Channel = Bm25 | Embedding

  datatype Contribution = Contribution(channel: Channel, rank: int, value: real)

  datatype Candidate = Candidate(id: int, score: real, contributions: seq<Contribution>)

  datatype FusionError = InvalidInput

  /** An entry that is no proper identifier is None. */
  predicate Proper(ranks: seq<Option<int>>) {
    forall i | 0 <= i < |ranks| :: ranks[i].Some?
  }

  function Given(ranks: seq<Option<int>>): seq<int>
    requires Proper(ranks)
  {
    if ranks == [] then [] else Given(ranks[..|ranks| - 1]) + [ranks[|ranks| - 1].value]
  }

  /** The place of id among distinct ids, from 1; 0 if it is not there. */
  function Place(ids: seq<int>, id: int): (r: int)
    ensures 0 <= r <= |ids| && (r > 0 <==> id in ids) && (r > 0 ==> ids[r - 1] == id)
  {
    if ids == [] then 0
    else if ids[|ids| - 1] == id then |ids|
    else Place(ids[..|ids| - 1], id)
  }

  function Share(k: int, place: int): real
    requires k > 0 && place >= 0
  {
    if place == 0 then 0.0 else 1.0 / ((k + place) as real)
  }

  function ShareOf(channel: Channel, ids: seq<int>, k: int, id: int): seq<Contribution>
    requires k > 0
  {
    var place := Place(ids, id);
    if place == 0 then [] else [Contribution(channel, place, Share(k, place))]
  }

  function Score(bm25: seq<int>, embedding: seq<int>, k: int, id: int): real
    requires k > 0
  {
    Share(k, Place(bm25, id)) + Share(k, Place(embedding, id))
  }

  predicate Before(a: Candidate, b: Candidate) {
    a.score > b.score || (a.score == b.score && a.id <= b.id)
  }

  function Order(): (Candidate, Candidate) -> bool {
    (a, b) => Before(a, b)
  }

  lemma {:induction false} OrderIsTotal()
    ensures TotalPreorder(Order())
  {
    forall x, y, z ensures Chains(Order(), x, y, z) {
    }
  }

  /** The candidate that the two rankings make of id. */
  predicate Describes(bm25: seq<int>, embedding: seq<int>, k: int, c: Candidate)
    requires k > 0
  {
    && c.contributions == ShareOf(Bm25, bm25, k, c.id) + ShareOf(Embedding, embedding, k, c.id)
    && c.score == Score(bm25, embedding, k, c.id)
  }

  /** Each ranked id once, best score first, ties by id. */
  ghost predicate Fuses(bm25: seq<int>, embedding: seq<int>, k: int, r: seq<Candidate>)
    requires k > 0
  {
    && (forall i | 0 <= i < |r| :: Describes(bm25, embedding, k, r[i]))
    && (forall i, j | 0 <= i < j < |r| :: r[i].id != r[j].id && Before(r[i], r[j]))
    && (forall id :: id in bm25 || id in embedding <==> exists i :: 0 <= i < |r| && r[i].id == id)
  }

  function Get(shares: map<int, seq<Contribution>>, id: int): seq<Contribution> {
    if id in shares then shares[id] else []
  }

  /** order: the ids in the order of their first contribution. */
  ghost predicate Listed(shares: map<int, seq<Contribution>>, order: seq<int>) {
    NoRepeats(order) && forall id :: id in order <==> id in shares
  }

  predicate GatheredAt(prior: map<int, seq<Contribution>>, shares: map<int, seq<Contribution>>, channel: Channel,
                       ids: seq<int>, k: int, id: int)
    requires k > 0
  {
    && (id in shares <==> id in prior || id in ids)
    && Get(shares, id) == Get(prior, id) + ShareOf(channel, ids, k, id)
  }

  /** To what there was before, the channel has added its contribution for each of these ids. */
  ghost predicate Gathered(prior: map<int, seq<Contribution>>, shares: map<int, seq<Contribution>>,
                           channel: Channel, ids: seq<int>, k: int)
    requires k > 0
  {
    forall id :: GatheredAt(prior, shares, channel, ids, k, id)
  }

  lemma {:induction false} PlaceOfNext(ids: seq<int>, next: int, id: int)
    requires next !in ids
    ensures Place(ids + [next], id) == if id == next then |ids| + 1 else Place(ids, id)
  {
    assert (ids + [next])[..|ids|] == ids;
  }

  function Ranked(ranks: seq<Option<int>>): seq<int>
    requires Proper(ranks)
  {
    Unique(Given(ranks))
  }

  lemma {:induction false} GatherOne(prior: map<int, seq<Contribution>>, shares: map<int, seq<Contribution>>,
                                     channel: Channel, ids: seq<int>, k: int, next: int)
    requires k > 0 && Gathered(prior, shares, channel, ids, k) && next !in ids
    ensures Gathered(prior, shares[next := Get(shares, next) + [Contribution(channel, |ids| + 1, Share(k, |ids| + 1))]],
                     channel, ids + [next], k)
  {
    var more := shares[next := Get(shares, next) + [Contribution(channel, |ids| + 1, Share(k, |ids| + 1))]];
    forall id ensures GatheredAt(prior, more, channel, ids + [next], k, id) {
      PlaceOfNext(ids, next, id);
      assert GatheredAt(prior, shares, channel, ids, k, id);
      assert Get(prior, id) + [] == Get(prior, id);
    }
  }

  ghost predicate Sees(seen: set<int>, ids: seq<int>) {
    forall id :: id in seen <==> id in ids
  }

  method GatherNext(channel: Channel, id: int, k: int, ghost prior: map<int, seq<Contribution>>, ghost ids: seq<int>,
                    shares: map<int, seq<Contribution>>, order: seq<int>, seen: set<int>, uniqueRank: int)
      returns (more: map<int, seq<Contribution>>, nextOrder: seq<int>, nowSeen: set<int>, nextRank: int)
    requires k > 0 && Listed(shares, order) && Gathered(prior, shares, channel, ids, k)
    requires Sees(seen, ids) && uniqueRank == |ids|
    ensures Listed(more, nextOrder)
    ensures var next := if id in ids then ids else ids + [id];
            Gathered(prior, more, channel, next, k) && Sees(nowSeen, next) && nextRank == |next|
  {
    more, nextOrder, nowSeen, nextRank := shares, order, seen, uniqueRank;
    if id !in seen {
      GatherOne(prior, shares, channel, ids, k, id);
      nowSeen, nextRank := seen + {id}, uniqueRank + 1;
      var earlier := if id in shares then shares[id] else [];
      nextOrder := if id in shares then order else order + [id];
      more := shares[id := earlier + [Contribution(channel, nextRank, 1.0 / ((k + nextRank) as real))]];
    }
  }

  /** One channel: the first occurrence of an id gives it the next rank. */
  method Gather(channel: Channel, ranks: seq<Option<int>>, k: int, prior: map<int, seq<Contribution>>, order: seq<int>)
      returns (ok: bool, shares: map<int, seq<Contribution>>, nextOrder: seq<int>)
    requires k > 0 && Listed(prior, order)
    ensures ok <==> Proper(ranks)
    ensures ok ==> Gathered(prior, shares, channel, Ranked(ranks), k) && Listed(shares, nextOrder)
  {
    shares, nextOrder := prior, order;
    var seen: set<int>, uniqueRank := {}, 0;
    forall id ensures GatheredAt(prior, shares, channel, [], k, id) {
      assert Get(prior, id) + [] == Get(prior, id);
    }
    for i := 0 to |ranks|
      invariant Proper(ranks[..i]) && Listed(shares, nextOrder)
      invariant Gathered(prior, shares, channel, Ranked(ranks[..i]), k)
      invariant uniqueRank == |Ranked(ranks[..i])| && Sees(seen, Ranked(ranks[..i]))
    {
      if ranks[i].None? {
        ok := false;
        return;
      }
      NextProper(ranks, i);
      shares, nextOrder, seen, uniqueRank :=
        GatherNext(channel, ranks[i].value, k, prior, Ranked(ranks[..i]), shares, nextOrder, seen, uniqueRank);
    }
    assert ranks[..|ranks|] == ranks;
    ok := true;
  }

  lemma {:induction false} NextProper(ranks: seq<Option<int>>, i: int)
    requires 0 <= i < |ranks| && Proper(ranks[..i]) && ranks[i].Some?
    ensures Proper(ranks[..i + 1])
    ensures var u := Ranked(ranks[..i]);
            Ranked(ranks[..i + 1]) == if ranks[i].value in u then u else u + [ranks[i].value]
  {
    assert ranks[..i + 1] == ranks[..i] + [ranks[i]];
    assert ranks[..i + 1][..i] == ranks[..i];
    var g := Given(ranks[..i]);
    assert (g + [ranks[i].value])[..|g|] == g;
  }

  function Sum(contributions: seq<Contribution>): real {
    if contributions == [] then 0.0 else contributions[0].value + Sum(contributions[1..])
  }

  lemma {:induction false} SumOfShares(bm25: seq<int>, embedding: seq<int>, k: int, id: int)
    requires k > 0
    ensures Sum(ShareOf(Bm25, bm25, k, id) + ShareOf(Embedding, embedding, k, id)) == Score(bm25, embedding, k, id)
  {
    var a, b := ShareOf(Bm25, bm25, k, id), ShareOf(Embedding, embedding, k, id);
    if a != [] {
      assert (a + b)[1..] == b;
    } else {
      assert a + b == b;
    }
    if b != [] {
      assert b[1..] == [] && Sum(b) == b[0].value + Sum(b[1..]);
    }
  }

  method ReciprocalRankFusion(bm25: seq<Option<int>>, embedding: seq<Option<int>>, k: int)
      returns (r: Result<seq<Candidate>, FusionError>)
    ensures r.Ok? <==> k > 0 && Proper(bm25) && Proper(embedding)
    ensures r.Ok? ==> Fuses(Ranked(bm25), Ranked(embedding), k, r.value)
  {
    if k <= 0 {
      return Err(InvalidInput);
    }
    var ok, shares, order := Gather(Bm25, bm25, k, map[], []);
    if !ok {
      return Err(InvalidInput);
    }
    ghost var first := shares;
    ok, shares, order := Gather(Embedding, embedding, k, shares, order);
    if !ok {
      return Err(InvalidInput);
    }
    ghost var a, b := Ranked(bm25), Ranked(embedding);
    BothGathered(first, shares, a, b, k);
    var fused := Candidates(order, shares, k, a, b);
    var sorted := Sort(Order(), fused);
    SortedFuses(a, b, k, order, fused);
    r := Ok(sorted);
  }

  /** All contributions of the ids. */
  ghost predicate Totals(shares: map<int, seq<Contribution>>, a: seq<int>, b: seq<int>, k: int)
    requires k > 0
  {
    && (forall id :: id in shares <==> id in a || id in b)
    && (forall id | id in shares :: shares[id] == ShareOf(Bm25, a, k, id) + ShareOf(Embedding, b, k, id))
  }

  lemma {:induction false} BothGathered(first: map<int, seq<Contribution>>, shares: map<int, seq<Contribution>>,
                                        a: seq<int>, b: seq<int>, k: int)
    requires k > 0 && Gathered(map[], first, Bm25, a, k) && Gathered(first, shares, Embedding, b, k)
    ensures Totals(shares, a, b, k)
  {
    forall id ensures id in shares <==> id in a || id in b {
      assert GatheredAt(map[], first, Bm25, a, k, id) && GatheredAt(first, shares, Embedding, b, k, id);
    }
    forall id | id in shares ensures shares[id] == ShareOf(Bm25, a, k, id) + ShareOf(Embedding, b, k, id) {
      assert GatheredAt(map[], first, Bm25, a, k, id) && GatheredAt(first, shares, Embedding, b, k, id);
      assert [] + ShareOf(Bm25, a, k, id) == ShareOf(Bm25, a, k, id);
    }
  }

  method Candidates(order: seq<int>, shares: map<int, seq<Contribution>>, k: int, ghost a: seq<int>, ghost b: seq<int>)
      returns (fused: seq<Candidate>)
    requires k > 0 && Listed(shares, order) && Totals(shares, a, b, k)
    ensures |fused| == |order| && forall i | 0 <= i < |order| :: fused[i].id == order[i] && Describes(a, b, k, fused[i])
  {
    fused := [];
    for i := 0 to |order|
      invariant |fused| == i && forall j | 0 <= j < i :: fused[j].id == order[j] && Describes(a, b, k, fused[j])
    {
      var id := order[i];
      SumOfShares(a, b, k, id);
      fused := fused + [Candidate(id, Sum(shares[id]), shares[id])];
    }
  }

  lemma {:induction false} SortedFuses(a: seq<int>, b: seq<int>, k: int, order: seq<int>, fused: seq<Candidate>)
    requires k > 0 && NoRepeats(order) && |fused| == |order| && forall id :: id in order <==> id in a || id in b
    requires forall i | 0 <= i < |order| :: fused[i].id == order[i] && Describes(a, b, k, fused[i])
    ensures Fuses(a, b, k, Sort(Order(), fused))
  {
    var r := Sort(Order(), fused);
    OrderIsTotal();
    SortOrdered(Order(), fused);
    SortMembers(Order(), fused);
    SortPermutes(Order(), fused);
    RearrangedNoRepeats(fused, r);
    forall i | 0 <= i < |r| ensures Describes(a, b, k, r[i]) && r[i].id in order {
      assert r[i] in r;
    }
    forall i, j | 0 <= i < j < |r| ensures r[i].id != r[j].id && Before(r[i], r[j]) {
      assert Order()(r[i], r[j]);
      assert Describes(a, b, k, r[i]) && Describes(a, b, k, r[j]);
    }
    forall id ensures id in a || id in b <==> exists i :: 0 <= i < |r| && r[i].id == id {
      if id in order {
        var j :| 0 <= j < |order| && order[j] == id;
        assert fused[j] in r;
      }
    }
  }

  lemma {:induction false} GivenTells(ranks: seq<Option<int>>)
    requires Proper(ranks)
    ensures |Given(ranks)| == |ranks| && forall i | 0 <= i < |ranks| :: Some(Given(ranks)[i]) == ranks[i]
  {
    if ranks != [] {
      GivenTells(ranks[..|ranks| - 1]);
    }
  }

  /** A contribution is the reciprocal of k plus the place of the id in its channel. */
  predicate Contributes(ids: seq<int>, k: int, id: int, channel: Channel, c: Contribution) {
    && c.channel == channel && 1 <= c.rank <= |ids| && ids[c.rank - 1] == id
    && c.value * (k + c.rank) as real == 1.0
  }

  /** One contribution for each channel that has the id, BM25 first; the score is their sum. */
  lemma {:induction false} CandidatesTell(bm25: seq<int>, embedding: seq<int>, k: int, c: Candidate)
    requires k > 0 && Describes(bm25, embedding, k, c)
    ensures
      var one, other := c.id in bm25, c.id in embedding;
      && |c.contributions| == (if one then 1 else 0) + (if other then 1 else 0)
      && (one ==> Contributes(bm25, k, c.id, Bm25, c.contributions[0]))
      && (other ==> Contributes(embedding, k, c.id, Embedding, c.contributions[|c.contributions| - 1]))
      && c.score == Sum(c.contributions)
  {
    SumOfShares(bm25, embedding, k, c.id);
    Reciprocal(k, Place(bm25, c.id));
    Reciprocal(k, Place(embedding, c.id));
  }

  lemma {:induction false} Reciprocal(k: int, place: int)
    requires k > 0 && place >= 0
    ensures place > 0 ==> Share(k, place) * (k + place) as real == 1.0
  {
  }

  // What the scores mean

  lemma {:induction false} SmallerShare(k: int, p: int, q: int)
    requires k > 0 && 0 < p <= q
    ensures Share(k, p) >= Share(k, q) > 0.0
  {
    var x, y := (k + p) as real, (k + q) as real;
    assert 1.0 / x - 1.0 / y == (y - x) / (x * y);
  }

  predicate AtLeastAsGood(ids: seq<int>, x: int, y: int) {
    y in ids ==> x in ids && Place(ids, x) <= Place(ids, y)
  }

  lemma {:induction false} BetterShare(ids: seq<int>, k: int, x: int, y: int)
    requires k > 0 && AtLeastAsGood(ids, x, y)
    ensures Share(k, Place(ids, x)) >= Share(k, Place(ids, y)) >= 0.0
  {
    if y in ids {
      SmallerShare(k, Place(ids, x), Place(ids, y));
    } else if x in ids {
      SmallerShare(k, Place(ids, x), Place(ids, x));
    }
  }

  /** An id that ranks at least as well in each channel never scores lower, so it comes later only on a tie. */
  lemma {:induction false} DominatingComesFirst(bm25: seq<int>, embedding: seq<int>, k: int, r: seq<Candidate>,
                                                i: int, j: int)
    requires k > 0 && Fuses(bm25, embedding, k, r) && 0 <= i < |r| && 0 <= j < |r| && i != j
    requires AtLeastAsGood(bm25, r[i].id, r[j].id) && AtLeastAsGood(embedding, r[i].id, r[j].id)
    ensures r[i].score >= r[j].score
    ensures i > j ==> r[i].score == r[j].score && r[j].id < r[i].id
  {
    BetterShare(bm25, k, r[i].id, r[j].id);
    BetterShare(embedding, k, r[i].id, r[j].id);
    assert Describes(bm25, embedding, k, r[i]) && Describes(bm25, embedding, k, r[j]);
    if i > j {
      assert Before(r[j], r[i]);
    }
  }

  // An id of both channels against an id of one

  predicate ScoresMore(k: int, p: int, q: int, s: int) {
    (k + s) * (2 * k + p + q) > (k + p) * (k + q)
  }

  predicate ScoresSame(k: int, p: int, q: int, s: int) {
    (k + s) * (2 * k + p + q) == (k + p) * (k + q)
  }

  /** A positive factor keeps the sign. */
  lemma {:induction false} SameSign(d: real, m: real)
    requires m > 0.0
    ensures d * m > 0.0 <==> d > 0.0
    ensures d * m == 0.0 <==> d == 0.0
  {
    if d > 0.0 {
      assert d * m > 0.0;
    } else if d < 0.0 {
      assert (-d) * m > 0.0;
      assert d * m == -((-d) * m);
    }
  }

  /** 1/x + 1/y - 1/z has the sign of z (x + y) - x y. */
  lemma {:induction false} Difference(x: real, y: real, z: real)
    requires x > 0.0 && y > 0.0 && z > 0.0
    ensures (1.0 / x + 1.0 / y - 1.0 / z) * (x * y * z) == z * (x + y) - x * y
    ensures x * y * z > 0.0
  {
    var a, b, c := 1.0 / x, 1.0 / y, 1.0 / z;
    assert a * x == 1.0 && b * y == 1.0 && c * z == 1.0;
    assert a * (x * y * z) == (a * x) * (y * z) == y * z;
    assert b * (x * y * z) == (b * y) * (x * z) == x * z;
    assert c * (x * y * z) == (c * z) * (x * y) == x * y;
    assert (a + b - c) * (x * y * z) == a * (x * y * z) + b * (x * y * z) - c * (x * y * z);
    assert x * y > 0.0;
  }

  lemma {:induction false} RealProduct(a: int, b: int)
    ensures (a * b) as real == a as real * b as real
  {
  }

  lemma {:induction false} TwoSharesAgainstOne(k: int, p: int, q: int, s: int)
    requires k > 0 && p > 0 && q > 0 && s > 0
    ensures Share(k, p) + Share(k, q) > Share(k, s) <==> ScoresMore(k, p, q, s)
    ensures Share(k, p) + Share(k, q) == Share(k, s) <==> ScoresSame(k, p, q, s)
  {
    var x, y, z := (k + p) as real, (k + q) as real, (k + s) as real;
    Difference(x, y, z);
    SameSign(1.0 / x + 1.0 / y - 1.0 / z, x * y * z);
    RealProduct(k + s, 2 * k + p + q);
    RealProduct(k + p, k + q);
    assert (2 * k + p + q) as real == x + y;
  }

  predicate InBoth(bm25: seq<int>, embedding: seq<int>, id: int) {
    id in bm25 && id in embedding
  }

  predicate InOne(bm25: seq<int>, embedding: seq<int>, id: int) {
    (id in bm25) != (id in embedding)
  }

  /** Between an id of both channels and an id of one, the ranks decide exactly like this. */
  lemma {:induction false} RanksDecide(bm25: seq<int>, embedding: seq<int>, k: int, r: seq<Candidate>, i: int, j: int)
    requires k > 0 && Fuses(bm25, embedding, k, r) && 0 <= i < |r| && 0 <= j < |r|
    requires InBoth(bm25, embedding, r[i].id) && InOne(bm25, embedding, r[j].id)
    ensures
      var p, q := Place(bm25, r[i].id), Place(embedding, r[i].id);
      var s := Place(bm25, r[j].id) + Place(embedding, r[j].id);
      && (r[i].score > r[j].score <==> ScoresMore(k, p, q, s))
      && (i < j <==> ScoresMore(k, p, q, s) || (ScoresSame(k, p, q, s) && r[i].id < r[j].id))
  {
    assert Describes(bm25, embedding, k, r[i]) && Describes(bm25, embedding, k, r[j]);
    var s := Place(bm25, r[j].id) + Place(embedding, r[j].id);
    TwoSharesAgainstOne(k, Place(bm25, r[i].id), Place(embedding, r[i].id), s);
    assert i != j;
    if i < j {
      assert Before(r[i], r[j]);
    } else {
      assert Before(r[j], r[i]);
    }
  }

  lemma {:induction false} Times(a: int, b: int, c: int)
    requires a <= b && 0 <= c
    ensures a * c <= b * c
  {
  }

  lemma {:induction false} SumBeatsProduct(m: int, x: int, y: int)
    requires 0 < x < 2 * m && 0 < y < 2 * m
    ensures m * (x + y) > x * y
  {
    Times(y + 1, 2 * m, x);
    Times(x + 1, 2 * m, y);
    assert (y + 1) * x == x * y + x && (x + 1) * y == x * y + y;
    assert 2 * m * x + 2 * m * y == 2 * (m * (x + y));
  }

  lemma {:induction false} SmallRanksScoreMore(k: int, p: int, q: int, s: int)
    requires k > 0 && 0 < p <= k + 1 && 0 < q <= k + 1 && 0 < s
    ensures ScoresMore(k, p, q, s)
  {
    SumBeatsProduct(k + 1, k + p, k + q);
    Times(k + 1, k + s, (k + p) + (k + q));
    assert 2 * k + p + q == (k + p) + (k + q);
  }

  lemma {:induction false} TieAtTwice(k: int)
    ensures ScoresSame(k, k + 2, k + 2, 1) && !ScoresMore(k, k + 2, k + 2, 1)
  {
    var m := k + 1;
    assert (k + 1) * (2 * k + (k + 2) + (k + 2)) == m * (4 * m) == 4 * (m * m);
    assert (k + (k + 2)) * (k + (k + 2)) == (2 * m) * (2 * m) == 4 * (m * m);
  }

  /** With at most k + 1 distinct ids in each channel, ids of both channels come before ids of only one. */
  lemma {:induction false} BothChannelsComeFirst(bm25: seq<int>, embedding: seq<int>, k: int, r: seq<Candidate>,
                                                 i: int, j: int)
    requires k > 0 && Fuses(bm25, embedding, k, r) && 0 <= i < |r| && 0 <= j < |r|
    requires |bm25| <= k + 1 && |embedding| <= k + 1
    requires InBoth(bm25, embedding, r[i].id) && InOne(bm25, embedding, r[j].id)
    ensures i < j && r[i].score > r[j].score
  {
    var s := Place(bm25, r[j].id) + Place(embedding, r[j].id);
    SmallRanksScoreMore(k, Place(bm25, r[i].id), Place(embedding, r[i].id), s);
    RanksDecide(bm25, embedding, k, r, i, j);
  }

  ghost predicate BothFirst(bm25: seq<int>, embedding: seq<int>, r: seq<Candidate>) {
    forall i, j | 0 <= i < |r| && 0 <= j < |r| ::
      InBoth(bm25, embedding, r[i].id) && InOne(bm25, embedding, r[j].id) ==> i < j
  }

  lemma {:induction false} FusionExists(bm25: seq<int>, embedding: seq<int>, k: int) returns (r: seq<Candidate>)
    requires k > 0
    ensures Fuses(bm25, embedding, k, r)
  {
    var order := Unique(bm25 + embedding);
    UniqueElements(bm25 + embedding);
    var fused := seq(|order|, i requires 0 <= i < |order| =>
      var id := order[i];
      Candidate(id, Score(bm25, embedding, k, id), ShareOf(Bm25, bm25, k, id) + ShareOf(Embedding, embedding, k, id)));
    SortedFuses(bm25, embedding, k, order, fused);
    r := Sort(Order(), fused);
  }

  /** n ids from first, and then last. */
  function Counting(first: int, n: nat, last: int): seq<int> {
    seq(n, i => first + i) + [last]
  }

  lemma {:induction false} CountingPlaces(first: int, n: nat, last: int)
    requires n > 0 && last >= first + n
    ensures NoRepeats(Counting(first, n, last)) && |Counting(first, n, last)| == n + 1
    ensures Place(Counting(first, n, last), last) == n + 1 && Place(Counting(first, n, last), first) == 1
    ensures forall id :: id in Counting(first, n, last) <==> first <= id < first + n || id == last
  {
    var c := Counting(first, n, last);
    assert c[0] == first && c[n] == last;
    forall id | first <= id < first + n ensures id in c {
      assert c[id - first] == id;
    }
  }

  lemma {:induction false} TieOfScores(k: int)
    requires k > 0
    ensures Share(k, k + 2) + Share(k, k + 2) == Share(k, 1)
  {
    TieAtTwice(k);
    TwoSharesAgainstOne(k, k + 2, k + 2, 1);
  }

  /** An id of both channels at rank k + 2 ties with the first of one channel, and loses by its name. */
  lemma {:induction false} LosesByName(bm25: seq<int>, embedding: seq<int>, k: int, r: seq<Candidate>, i: int, j: int)
    requires k > 0 && Fuses(bm25, embedding, k, r) && 0 <= i < |r| && 0 <= j < |r| && r[j].id < r[i].id
    requires Place(bm25, r[i].id) == k + 2 && Place(embedding, r[i].id) == k + 2
    requires Place(bm25, r[j].id) == 1 && Place(embedding, r[j].id) == 0
    ensures j < i
  {
    assert Describes(bm25, embedding, k, r[i]) && Describes(bm25, embedding, k, r[j]);
    TieOfScores(k);
  }

  lemma {:induction false} OneComesBefore(k: int) returns (bm25: seq<int>, embedding: seq<int>, r: seq<Candidate>)
    requires k > 0
    ensures NoRepeats(bm25) && NoRepeats(embedding) && |bm25| == |embedding| == k + 2
    ensures Fuses(bm25, embedding, k, r) && !BothFirst(bm25, embedding, r)
  {
    var x := 2 * k + 2;
    bm25, embedding := Counting(0, k + 1, x), Counting(k + 1, k + 1, x);
    CountingPlaces(0, k + 1, x);
    CountingPlaces(k + 1, k + 1, x);
    r := FusionExists(bm25, embedding, k);
    var i := FusedAt(bm25, embedding, k, r, x);
    var j := FusedAt(bm25, embedding, k, r, 0);
    LosesByName(bm25, embedding, k, r, i, j);
    assert InBoth(bm25, embedding, r[i].id) && InOne(bm25, embedding, r[j].id);
  }

  lemma {:induction false} FusedAt(bm25: seq<int>, embedding: seq<int>, k: int, r: seq<Candidate>, id: int)
      returns (i: int)
    requires k > 0 && Fuses(bm25, embedding, k, r) && (id in bm25 || id in embedding)
    ensures 0 <= i < |r| && r[i].id == id
  {
    i :| 0 <= i < |r| && r[i].id == id;
  }

  ghost predicate Short(ids: seq<int>, n: int) {
    NoRepeats(ids) && |ids| <= n
  }

  /** Ids of both channels come first, whatever the rankings, exactly for up to k + 1 ids per channel. */
  lemma {:induction false} BoundIsExact(k: int, n: int)
    requires k > 0
    ensures (forall bm25, embedding, r: seq<Candidate> |
               Short(bm25, n) && Short(embedding, n) && Fuses(bm25, embedding, k, r) :: BothFirst(bm25, embedding, r))
      <==> n <= k + 1
  {
    if n <= k + 1 {
      forall bm25, embedding, r: seq<Candidate> | Short(bm25, n) && Short(embedding, n) && Fuses(bm25, embedding, k, r)
        ensures BothFirst(bm25, embedding, r)
      {
        forall i, j | 0 <= i < |r| && 0 <= j < |r|
          ensures InBoth(bm25, embedding, r[i].id) && InOne(bm25, embedding, r[j].id) ==> i < j
        {
          if InBoth(bm25, embedding, r[i].id) && InOne(bm25, embedding, r[j].id) {
            BothChannelsComeFirst(bm25, embedding, k, r, i, j);
          }
        }
      }
    } else {
      var bm25, embedding, r := OneComesBefore(k);
      assert Short(bm25, n) && Short(embedding, n);
    }
  }
}
