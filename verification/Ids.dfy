/** Sequences and sets of identifiers: duplicates, rearrangements, sorting.
    Identifiers are integers, and their order stands for the order of the names.
    Used wherever the code sorts, deduplicates or counts names,
    and for other sequences without repeats. */
module Ids {
  import opened Sorting

  function Elements(s: seq<int>): set<int> {
    set t | t in s
  }

  predicate NoRepeats<T(==)>(s: seq<T>) {
    forall i, j | 0 <= i < j < |s| :: s[i] != s[j]
  }

  lemma {:induction false} ElementsSize(s: seq<int>)
    ensures |Elements(s)| <= |s|
  {
    if s != [] {
      ElementsSize(s[1..]);
      assert Elements(s) == {s[0]} + Elements(s[1..]);
    }
  }

  lemma {:induction false} JoinedSize(s: seq<int>, t: seq<int>)
    ensures Elements(s + t) == Elements(s) + Elements(t)
    ensures |Elements(s + t)| <= |Elements(s)| + |t|
  {
    ElementsSize(t);
    assert Elements(s + t) == Elements(s) + Elements(t);
    assert |Elements(s) + Elements(t)| == |Elements(s)| + |Elements(t) - Elements(s)|;
    SubsetSize(Elements(t) - Elements(s), Elements(t));
  }

  lemma {:induction false} SubsetSize(s: set<int>, t: set<int>)
    requires s <= t
    ensures |s| <= |t|
  {
    assert |t| == |s| + |t - s|;
  }

  lemma {:induction false} NoRepeatsSize(s: seq<int>)
    requires NoRepeats(s)
    ensures |Elements(s)| == |s|
  {
    if s != [] {
      NoRepeatsSize(s[1..]);
      assert s[0] !in s[1..];
      assert Elements(s) == {s[0]} + Elements(s[1..]);
    }
  }

  function IntLeq(): (int, int) -> bool {
    (a, b) => a <= b
  }

  /** Keeps the first of equal ids. */
  function Unique(s: seq<int>): (r: seq<int>) {
    if s == [] then []
    else
      var earlier := Unique(s[..|s| - 1]);
      if s[|s| - 1] in earlier then earlier else earlier + [s[|s| - 1]]
  }

  lemma {:induction false} UniqueElements(s: seq<int>)
    ensures NoRepeats(Unique(s))
    ensures forall t :: t in Unique(s) <==> t in s
  {
    if s != [] {
      UniqueElements(s[..|s| - 1]);
      assert s == s[..|s| - 1] + [s[|s| - 1]];
    }
  }

  /** An id stands right behind the distinct ids that come before its first occurrence. */
  lemma {:induction false} UniqueKeepsFirst(before: seq<int>, id: int, after: seq<int>)
    requires id !in before
    ensures Unique(before) + [id] <= Unique(before + [id] + after)
    decreases |after|
  {
    var s := before + [id] + after;
    if after == [] {
      UniqueElements(before);
      assert s[..|s| - 1] == before && s[|s| - 1] == id;
    } else {
      assert s[..|s| - 1] == before + [id] + after[..|after| - 1];
      UniqueKeepsFirst(before, id, after[..|after| - 1]);
    }
  }

  /** The distinct ids of s in increasing order. */
  function Ascending(s: seq<int>): seq<int> {
    Sort(IntLeq(), Unique(s))
  }

  lemma {:induction false} AscendingIds(s: seq<int>)
    ensures forall i, j | 0 <= i < j < |Ascending(s)| :: Ascending(s)[i] < Ascending(s)[j]
    ensures forall t :: t in Ascending(s) <==> t in s
  {
    var u, r := Unique(s), Ascending(s);
    UniqueElements(s);
    SortOrdered(IntLeq(), u);
    SortMembers(IntLeq(), u);
    SortPermutes(IntLeq(), u);
    RearrangedNoRepeats(u, r);
    forall i, j | 0 <= i < j < |r| ensures r[i] < r[j] {
      assert IntLeq()(r[i], r[j]);
    }
  }

  lemma {:induction false} Member<T>(s: set<T>) returns (t: T)
    requires s != {}
    ensures t in s
  {
    t :| t in s;
  }

  lemma {:induction false} NewMember(s: set<int>, t: set<int>) returns (x: int)
    requires !(t <= s)
    ensures x in t && x !in s
  {
    if t - s == {} {
      forall y | y in t ensures y in s {
        assert y !in t - s;
      }
    }
    x := Member(t - s);
  }

  /** sorted of a set: the elements arrive in any order. */
  method SortedSet(s: set<int>) returns (r: seq<int>)
    ensures forall i, j | 0 <= i < j < |r| :: r[i] < r[j]
    ensures forall t :: t in r <==> t in s
  {
    var rest: set<int>, elements: seq<int> := s, [];
    while rest != {}
      invariant forall t :: t in s <==> t in rest || t in elements
      decreases rest
    {
      ghost var some := Member(rest);
      var t :| t in rest;
      rest, elements := rest - {t}, elements + [t];
    }
    AscendingIds(elements);
    r := Ascending(elements);
  }

  lemma {:induction false} RepeatCounts<T>(s: seq<T>, i: int, j: int)
    requires 0 <= i < j < |s| && s[i] == s[j]
    ensures multiset(s)[s[i]] >= 2
  {
    assert s == s[..j] + [s[j]] + s[j + 1..];
    assert s[i] in s[..j];
    assert s[i] in multiset(s[..j]);
  }

  lemma {:induction false} NoRepeatCounts<T>(s: seq<T>, x: T)
    requires NoRepeats(s)
    ensures multiset(s)[x] <= 1
  {
    if s != [] {
      NoRepeatCounts(s[1..], x);
      assert s == [s[0]] + s[1..];
      assert s[0] !in s[1..];
      assert s[0] !in multiset(s[1..]);
    }
  }

  /** A rearrangement of a sequence without repeats has none. */
  lemma {:induction false} RearrangedNoRepeats<T>(s: seq<T>, r: seq<T>)
    requires NoRepeats(s) && multiset(r) == multiset(s)
    ensures NoRepeats(r)
  {
    forall i, j | 0 <= i < j < |r| ensures r[i] != r[j] {
      if r[i] == r[j] {
        RepeatCounts(r, i, j);
        NoRepeatCounts(s, r[i]);
      }
    }
  }

  /** Sequences without repeats and with the same elements are rearrangements of each other. */
  lemma {:induction false} SameElements<T(!new)>(a: seq<T>, b: seq<T>)
    requires NoRepeats(a) && NoRepeats(b) && forall x :: x in a <==> x in b
    ensures multiset(a) == multiset(b)
  {
    forall x ensures multiset(a)[x] == multiset(b)[x] {
      NoRepeatCounts(a, x);
      NoRepeatCounts(b, x);
      assert x in multiset(a) <==> x in a;
      assert x in multiset(b) <==> x in b;
    }
  }
}
