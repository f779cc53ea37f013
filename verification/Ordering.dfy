/** Array.sort as a function of a comparison, and why its result does not depend on the
    order of its input. */
module Ordering {
  type Leq<!T> = (T, T) -> bool

  predicate OrderedBy<T>(leq: Leq<T>, s: seq<T>) {
    forall i, j :: 0 <= i < j < |s| ==> leq(s[i], s[j])
  }

  /** The comparison is a linear order on these elements. */
  predicate LinearOn<T(==)>(leq: Leq<T>, s: seq<T>) {
    && (forall a, b :: a in s && b in s ==> leq(a, b) || leq(b, a))
    && (forall a, b :: a in s && b in s && leq(a, b) && leq(b, a) ==> a == b)
    && (forall a, b, c :: a in s && b in s && c in s && leq(a, b) && leq(b, c) ==> leq(a, c))
  }

  /** Insert into an already ordered list, after its equals. */
  function Insert<T>(leq: Leq<T>, x: T, s: seq<T>): (r: seq<T>)
    ensures |r| == |s| + 1
  {
    if s == [] || leq(s[|s| - 1], x) then s + [x] else Insert(leq, x, s[..|s| - 1]) + [s[|s| - 1]]
  }

  function Sort<T>(leq: Leq<T>, s: seq<T>): (r: seq<T>)
    ensures |r| == |s|
  {
    if s == [] then [] else Insert(leq, s[|s| - 1], Sort(leq, s[..|s| - 1]))
  }

  lemma MemberOfBag<T>(s: seq<T>, t: seq<T>, x: T)
    requires multiset(s) == multiset(t) && x in s
    ensures x in t
  {
    assert x in multiset(s);
  }

  lemma {:induction false} InsertBag<T>(leq: Leq<T>, x: T, s: seq<T>)
    ensures multiset(Insert(leq, x, s)) == multiset(s) + multiset{x}
  {
    if s != [] && !leq(s[|s| - 1], x) {
      assert s == s[..|s| - 1] + [s[|s| - 1]];
      InsertBag(leq, x, s[..|s| - 1]);
    }
  }

  lemma {:induction false} SortBag<T>(leq: Leq<T>, s: seq<T>)
    ensures multiset(Sort(leq, s)) == multiset(s)
  {
    if s != [] {
      assert s == s[..|s| - 1] + [s[|s| - 1]];
      SortBag(leq, s[..|s| - 1]);
      InsertBag(leq, s[|s| - 1], Sort(leq, s[..|s| - 1]));
    }
  }

  lemma InsertMembers<T>(leq: Leq<T>, x: T, s: seq<T>, y: T)
    ensures y in Insert(leq, x, s) <==> y in s || y == x
  {
    InsertBag(leq, x, s);
    assert y in Insert(leq, x, s) <==> y in multiset(Insert(leq, x, s));
    assert y in s <==> y in multiset(s);
  }

  lemma SortMembers<T>(leq: Leq<T>, s: seq<T>, y: T)
    ensures y in Sort(leq, s) <==> y in s
  {
    SortBag(leq, s);
    assert y in Sort(leq, s) <==> y in multiset(Sort(leq, s));
    assert y in s <==> y in multiset(s);
  }

  lemma {:induction false} InsertOrders<T>(leq: Leq<T>, x: T, s: seq<T>, all: seq<T>)
    requires OrderedBy(leq, s) && LinearOn(leq, all) && x in all && forall y <- s :: y in all
    ensures OrderedBy(leq, Insert(leq, x, s))
  {
    if s == [] || leq(s[|s| - 1], x) {
      forall i | 0 <= i < |s|
        ensures leq(s[i], x)
      {
        assert i < |s| - 1 ==> leq(s[i], s[|s| - 1]);
      }
    } else {
      var front, last := s[..|s| - 1], s[|s| - 1];
      InsertOrders(leq, x, front, all);
      var r := Insert(leq, x, front);
      forall i | 0 <= i < |r|
        ensures leq(r[i], last)
      {
        InsertMembers(leq, x, front, r[i]);
      }
    }
  }

  lemma {:induction false} SortOrders<T>(leq: Leq<T>, s: seq<T>, all: seq<T>)
    requires LinearOn(leq, all) && forall y <- s :: y in all
    ensures OrderedBy(leq, Sort(leq, s))
  {
    if s != [] {
      var front := s[..|s| - 1];
      SortOrders(leq, front, all);
      forall y | y in Sort(leq, front)
        ensures y in all
      {
        SortMembers(leq, front, y);
      }
      InsertOrders(leq, s[|s| - 1], Sort(leq, front), all);
    }
  }

  function Without<T>(s: seq<T>, i: nat): seq<T>
    requires i < |s|
  {
    s[..i] + s[i + 1..]
  }

  lemma WithoutBag<T>(s: seq<T>, i: nat)
    requires i < |s|
    ensures multiset(s) == multiset(Without(s, i)) + multiset{s[i]}
  {
    assert s == s[..i] + [s[i]] + s[i + 1..];
  }

  lemma BagsCancel<T>(a: multiset<T>, b: multiset<T>, x: T)
    requires a + multiset{x} == b + multiset{x}
    ensures a == b
  {
    assert a == (a + multiset{x}) - multiset{x} == (b + multiset{x}) - multiset{x} == b;
  }

  lemma DropLast<T>(s: seq<T>, t: seq<T>)
    requires multiset(s) == multiset(t) && s != [] && |s| == |t| && s[|s| - 1] == t[|t| - 1]
    ensures multiset(s[..|s| - 1]) == multiset(t[..|t| - 1])
  {
    var n := |s| - 1;
    WithoutBag(s, n);
    WithoutBag(t, n);
    assert Without(s, n) == s[..n] && Without(t, n) == t[..n];
    BagsCancel(multiset(s[..n]), multiset(t[..n]), s[n]);
  }

  lemma SameLast<T>(leq: Leq<T>, s: seq<T>, t: seq<T>, all: seq<T>)
    requires OrderedBy(leq, s) && OrderedBy(leq, t) && multiset(s) == multiset(t) && s != [] && t != []
    requires LinearOn(leq, all) && forall y <- s :: y in all
    ensures s[|s| - 1] == t[|t| - 1]
  {
    var a, b := s[|s| - 1], t[|t| - 1];
    MemberOfBag(s, t, a);
    MemberOfBag(t, s, b);
    var i :| 0 <= i < |t| && t[i] == a;
    var j :| 0 <= j < |s| && s[j] == b;
    assert leq(a, b) || i == |t| - 1;
    assert leq(b, a) || j == |s| - 1;
  }

  /** Two ordered arrangements of the same elements are the same. */
  lemma {:induction false} OrderedUnique<T>(leq: Leq<T>, s: seq<T>, t: seq<T>, all: seq<T>)
    requires OrderedBy(leq, s) && OrderedBy(leq, t) && multiset(s) == multiset(t)
    requires LinearOn(leq, all) && forall y <- s :: y in all
    ensures s == t
  {
    assert |s| == |multiset(s)| == |multiset(t)| == |t|;
    if s != [] {
      var n := |s| - 1;
      SameLast(leq, s, t, all);
      DropLast(s, t);
      OrderedUnique(leq, s[..n], t[..n], all);
      assert s == s[..n] + [s[n]] && t == t[..n] + [t[n]];
    }
  }

  /** Sorting forgets the order of its input. */
  lemma SortForgetsOrder<T>(leq: Leq<T>, p: seq<T>, q: seq<T>)
    requires multiset(p) == multiset(q) && LinearOn(leq, p)
    ensures Sort(leq, p) == Sort(leq, q)
  {
    SortBag(leq, p);
    SortBag(leq, q);
    forall y | y in q
      ensures y in p
    {
      MemberOfBag(q, p, y);
    }
    forall y | y in Sort(leq, p)
      ensures y in p
    {
      SortMembers(leq, p, y);
    }
    SortOrders(leq, p, p);
    SortOrders(leq, q, p);
    OrderedUnique(leq, Sort(leq, p), Sort(leq, q), p);
  }

  /** Two places of a permutation are two places of the original. */
  lemma PairOccurs<T>(p: seq<T>, q: seq<T>, i: nat, j: nat)
    requires multiset(p) == multiset(q) && i < j < |q|
    ensures exists a, b :: 0 <= a < |p| && 0 <= b < |p| && a != b && p[a] == q[i] && p[b] == q[j]
  {
    MemberOfBag(q, p, q[i]);
    var a :| 0 <= a < |p| && p[a] == q[i];
    WithoutBag(q, i);
    WithoutBag(p, a);
    BagsCancel(multiset(Without(q, i)), multiset(Without(p, a)), q[i]);
    assert Without(q, i)[j - 1] == q[j];
    MemberOfBag(Without(q, i), Without(p, a), q[j]);
    var k :| 0 <= k < |Without(p, a)| && Without(p, a)[k] == q[j];
    assert p[if k < a then k else k + 1] == q[j];
  }
}
