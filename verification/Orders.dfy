/** Iterating a BTreeSet: the elements of a finite set in ascending order. */
module Orders {

  /** The order in which strings compare: character by character. */
  predicate StringLeq(a: string, b: string)
  {
    a == [] || (b != [] && (a[0] < b[0] || (a[0] == b[0] && StringLeq(a[1..], b[1..]))))
  }

  type Triple = (string, string, string)

  /** Tuples compare field by field. */
  predicate TripleLeq(a: Triple, b: Triple)
  {
    if a.0 != b.0 then StringLeq(a.0, b.0)
    else if a.1 != b.1 then StringLeq(a.1, b.1)
    else StringLeq(a.2, b.2)
  }

  lemma StringLeqAntisymmetric(a: string, b: string)
    requires StringLeq(a, b) && StringLeq(b, a)
    ensures a == b
  {
    if a != [] {
      StringLeqAntisymmetric(a[1..], b[1..]);
      assert a == [a[0]] + a[1..] && b == [b[0]] + b[1..];
    }
  }

  lemma StringLeqTransitive(a: string, b: string, c: string)
    requires StringLeq(a, b) && StringLeq(b, c)
    ensures StringLeq(a, c)
  {
    if a != [] && a[0] == b[0] && b[0] == c[0] {
      StringLeqTransitive(a[1..], b[1..], c[1..]);
    }
  }

  lemma StringLeqTotal(a: string, b: string)
    ensures StringLeq(a, b) || StringLeq(b, a)
  {
    if a != [] && b != [] && a[0] == b[0] {
      StringLeqTotal(a[1..], b[1..]);
    }
  }

  lemma TripleLeqAntisymmetric(a: Triple, b: Triple)
    requires TripleLeq(a, b) && TripleLeq(b, a)
    ensures a == b
  {
    if a.0 != b.0 {
      StringLeqAntisymmetric(a.0, b.0);
    } else if a.1 != b.1 {
      StringLeqAntisymmetric(a.1, b.1);
    } else {
      StringLeqAntisymmetric(a.2, b.2);
    }
  }

  lemma TripleLeqTransitive(a: Triple, b: Triple, c: Triple)
    requires TripleLeq(a, b) && TripleLeq(b, c)
    ensures TripleLeq(a, c)
  {
    StringLeqTotal(a.0, a.0);
    StringLeqTotal(a.1, a.1);
    StringLeqTotal(c.0, c.0);
    StringLeqTotal(c.1, c.1);
    if a.0 == b.0 == c.0 {
      if a.1 == b.1 == c.1 {
        StringLeqTransitive(a.2, b.2, c.2);
      } else {
        StringLeqTransitive(a.1, b.1, c.1);
        if a.1 == c.1 { StringLeqAntisymmetric(a.1, b.1); }
      }
    } else {
      StringLeqTransitive(a.0, b.0, c.0);
      if a.0 == c.0 { StringLeqAntisymmetric(a.0, b.0); }
    }
  }

  lemma TripleLeqTotal(a: Triple, b: Triple)
    ensures TripleLeq(a, b) || TripleLeq(b, a)
  {
    StringLeqTotal(a.0, b.0);
    StringLeqTotal(a.1, b.1);
    StringLeqTotal(a.2, b.2);
  }

  predicate IsLeastString(m: string, s: set<string>)
  {
    m in s && forall x | x in s :: StringLeq(m, x)
  }

  predicate IsLeastTriple(m: Triple, s: set<Triple>)
  {
    m in s && forall x | x in s :: TripleLeq(m, x)
  }

  lemma LeastString(s: set<string>) returns (m: string)
    requires s != {}
    ensures IsLeastString(m, s)
    ensures forall n :: IsLeastString(n, s) ==> n == m
    decreases s
  {
    m :| m in s;
    StringLeqTotal(m, m);
    if s != {m} {
      var n := LeastString(s - {m});
      StringLeqTotal(m, n);
      forall x | x in s ensures StringLeq(if StringLeq(m, n) then m else n, x) {
        if x != m && StringLeq(m, n) { StringLeqTransitive(m, n, x); }
      }
      m := if StringLeq(m, n) then m else n;
    }
    forall n | IsLeastString(n, s) ensures n == m { StringLeqAntisymmetric(m, n); }
  }

  lemma LeastTriple(s: set<Triple>) returns (m: Triple)
    requires s != {}
    ensures IsLeastTriple(m, s)
    ensures forall n :: IsLeastTriple(n, s) ==> n == m
    decreases s
  {
    m :| m in s;
    TripleLeqTotal(m, m);
    if s != {m} {
      var n := LeastTriple(s - {m});
      TripleLeqTotal(m, n);
      forall x | x in s ensures TripleLeq(if TripleLeq(m, n) then m else n, x) {
        if x != m && TripleLeq(m, n) { TripleLeqTransitive(m, n, x); }
      }
      m := if TripleLeq(m, n) then m else n;
    }
    forall n | IsLeastTriple(n, s) ensures n == m { TripleLeqAntisymmetric(m, n); }
  }

  /** The strings of a set, from least to greatest. */
  function SortedStrings(s: set<string>): (r: seq<string>)
    ensures forall x :: x in r <==> x in s
    ensures |r| == |s|
    decreases s
  {
    if s == {} then [] else
      var first := FirstString(s);
      [first] + SortedStrings(s - {first})
  }

  function FirstString(s: set<string>): (m: string)
    requires s != {}
    ensures IsLeastString(m, s)
  {
    assert exists m :: IsLeastString(m, s) by { var m := LeastString(s); }
    assert forall m, n :: IsLeastString(m, s) && IsLeastString(n, s) ==> n == m by { var m := LeastString(s); }
    var m :| m in s && IsLeastString(m, s);
    m
  }

  /** The tuples of a set, from least to greatest. */
  function SortedTriples(s: set<Triple>): (r: seq<Triple>)
    ensures forall x :: x in r <==> x in s
    ensures |r| == |s|
    decreases s
  {
    if s == {} then [] else
      var first := FirstTriple(s);
      [first] + SortedTriples(s - {first})
  }

  function FirstTriple(s: set<Triple>): (m: Triple)
    requires s != {}
    ensures IsLeastTriple(m, s)
  {
    assert exists m :: IsLeastTriple(m, s) by { var m := LeastTriple(s); }
    assert forall m, n :: IsLeastTriple(m, s) && IsLeastTriple(n, s) ==> n == m by { var m := LeastTriple(s); }
    var m :| m in s && IsLeastTriple(m, s);
    m
  }

  /** Leaving out what fails a test keeps the order of the rest. */
  lemma {:induction false} SortedFilter(s: set<Triple>, keep: set<Triple>)
    ensures SortedTriples(s * keep) == Select(SortedTriples(s), keep)
    decreases s
  {
    if s != {} {
      var first := FirstTriple(s);
      SortedFilter(s - {first}, keep);
      assert SortedTriples(s)[1..] == SortedTriples(s - {first});
      if first in keep {
        var m := LeastTriple(s * keep);
        assert IsLeastTriple(first, s * keep);
        assert s * keep - {first} == (s - {first}) * keep;
      } else {
        assert s * keep == (s - {first}) * keep;
      }
    } else {
      assert s * keep == {};
    }
  }

  function Select<T(==)>(s: seq<T>, keep: set<T>): seq<T>
  {
    if s == [] then [] else (if s[0] in keep then [s[0]] else []) + Select(s[1..], keep)
  }
}
