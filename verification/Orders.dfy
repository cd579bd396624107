/** Python's order on tuples of identifiers: component by component, a proper
    prefix first. Sequences of code points are ordered the same way,
    so it serves for names as well as for
    tuples of ids. */
module Orders {
  predicate LexLess(a: seq<int>, b: seq<int>) {
    b != [] && (a == [] || a[0] < b[0] || (a[0] == b[0] && LexLess(a[1..], b[1..])))
  }

  predicate LexLeq(a: seq<int>, b: seq<int>) {
    a == b || LexLess(a, b)
  }

  lemma {:induction false} LexTransitive(a: seq<int>, b: seq<int>, c: seq<int>)
    requires LexLess(a, b) && LexLess(b, c)
    ensures LexLess(a, c)
  {
    if a != [] && a[0] == b[0] == c[0] {
      LexTransitive(a[1..], b[1..], c[1..]);
    }
  }

  lemma {:induction false} LexTotal(a: seq<int>, b: seq<int>)
    ensures LexLess(a, b) || a == b || LexLess(b, a)
  {
    if a != [] && b != [] && a[0] == b[0] {
      LexTotal(a[1..], b[1..]);
      assert a == [a[0]] + a[1..] && b == [b[0]] + b[1..];
    }
  }

  lemma {:induction false} LexIrreflexive(a: seq<int>)
    ensures !LexLess(a, a)
  {
    if a != [] {
      LexIrreflexive(a[1..]);
    }
  }

  /** A strict difference between tuples of one length survives extending both. */
  lemma {:induction false} LexExtend(a: seq<int>, b: seq<int>, x: int, y: int)
    requires |a| == |b| && LexLess(a, b)
    ensures LexLess(a + [x], b + [y])
  {
    assert (a + [x])[1..] == a[1..] + [x] && (b + [y])[1..] == b[1..] + [y];
    if a[0] == b[0] {
      LexExtend(a[1..], b[1..], x, y);
    }
  }

  /** The first difference decides, and a proper prefix comes first. */
  lemma {:induction false} LexTells(prefix: seq<int>, x: int, y: int, a: seq<int>, b: seq<int>)
    requires x < y
    ensures LexLess(prefix + [x] + a, prefix + [y] + b) && LexLess(prefix, prefix + [x] + a)
  {
    if prefix == [] {
      assert ([x] + a)[0] == x && ([y] + b)[0] == y && prefix + [x] + a == [x] + a && prefix + [y] + b == [y] + b;
    } else {
      LexTells(prefix[1..], x, y, a, b);
      assert (prefix + [x] + a)[1..] == prefix[1..] + [x] + a && (prefix + [y] + b)[1..] == prefix[1..] + [y] + b;
    }
  }

  lemma {:induction false} LexAppend(a: seq<int>, x: int, y: int)
    requires x < y
    ensures LexLess(a + [x], a + [y])
  {
    if a != [] {
      assert (a + [x])[1..] == a[1..] + [x] && (a + [y])[1..] == a[1..] + [y];
      LexAppend(a[1..], x, y);
    }
  }
}
