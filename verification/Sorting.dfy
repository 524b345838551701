/** Stable sorting by a comparison, as Python's sorted and SQLite's ORDER BY do it. */
module Sorting {

  /** Puts x before the first element that does not precede it, so equal elements keep their order. */
  function Insert<T>(x: T, s: seq<T>, leq: (T, T) -> bool): seq<T> {
    if s == [] then [x]
    else if leq(x, s[0]) then [x] + s
    else [s[0]] + Insert(x, s[1..], leq)
  }

  function Sort<T>(s: seq<T>, leq: (T, T) -> bool): seq<T> {
    if s == [] then [] else Insert(s[0], Sort(s[1..], leq), leq)
  }

  function Take<T>(s: seq<T>, limit: nat): (r: seq<T>)
    ensures |r| == (if |s| <= limit then |s| else limit)
    ensures r == s[..|r|]
  {
    if |s| <= limit then s else s[..limit]
  }

  function Filter<T>(s: seq<T>, keep: T -> bool): seq<T> {
    if s == [] then [] else if keep(s[0]) then [s[0]] + Filter(s[1..], keep) else Filter(s[1..], keep)
  }

  ghost predicate TotalPreorderOn<T>(leq: (T, T) -> bool, s: seq<T>) {
    && (forall x, y | x in s && y in s :: leq(x, y) || leq(y, x))
    && (forall x, y, z | x in s && y in s && z in s && leq(x, y) && leq(y, z) :: leq(x, z))
  }

  ghost predicate SortedBy<T>(s: seq<T>, leq: (T, T) -> bool) {
    forall i, j | 0 <= i < j < |s| :: leq(s[i], s[j])
  }

  ghost predicate Distinct<T>(s: seq<T>) {
    forall i, j | 0 <= i < j < |s| :: s[i] != s[j]
  }

  lemma {:induction false} InsertKeepsElements<T>(x: T, s: seq<T>, leq: (T, T) -> bool)
    ensures multiset(Insert(x, s, leq)) == multiset{x} + multiset(s)
    ensures |Insert(x, s, leq)| == |s| + 1
  {
    if s != [] {
      assert s == [s[0]] + s[1..];
      if !leq(x, s[0]) {
        InsertKeepsElements(x, s[1..], leq);
      }
    }
  }

  lemma {:induction false} SortKeepsElements<T>(s: seq<T>, leq: (T, T) -> bool)
    ensures multiset(Sort(s, leq)) == multiset(s)
    ensures |Sort(s, leq)| == |s|
    ensures forall x :: x in Sort(s, leq) <==> x in s
  {
    if s != [] {
      SortKeepsElements(s[1..], leq);
      InsertKeepsElements(s[0], Sort(s[1..], leq), leq);
      assert s == [s[0]] + s[1..];
    }
    assert forall x :: x in Sort(s, leq) <==> x in multiset(Sort(s, leq));
    assert forall x :: x in s <==> x in multiset(s);
  }

  lemma {:induction false} InsertSorts<T>(x: T, s: seq<T>, leq: (T, T) -> bool)
    requires TotalPreorderOn(leq, [x] + s) && SortedBy(s, leq)
    ensures SortedBy(Insert(x, s, leq), leq)
  {
    assert x in [x] + s && (forall y | y in s :: y in [x] + s);
    if s == [] {
    } else if leq(x, s[0]) {
      forall j | 0 <= j < |s| ensures leq(x, s[j]) {
        if j > 0 {
          assert leq(s[0], s[j]);
        }
      }
    } else {
      var rest := Insert(x, s[1..], leq);
      assert forall y | y in [x] + s[1..] :: y in [x] + s;
      InsertSorts(x, s[1..], leq);
      InsertKeepsElements(x, s[1..], leq);
      forall j | 0 <= j < |rest| ensures leq(s[0], rest[j]) {
        assert rest[j] in multiset(rest);
        if rest[j] != x {
          assert rest[j] in multiset(s[1..]);
        }
      }
    }
  }

  lemma {:induction false} SortSorts<T>(s: seq<T>, leq: (T, T) -> bool)
    requires TotalPreorderOn(leq, s)
    ensures SortedBy(Sort(s, leq), leq)
  {
    if s != [] {
      assert forall y | y in s[1..] :: y in s;
      SortSorts(s[1..], leq);
      SortKeepsElements(s[1..], leq);
      var rest := Sort(s[1..], leq);
      forall y | y in [s[0]] + rest ensures y in s {
        if y != s[0] {
          assert y in multiset(rest);
          assert y in multiset(s[1..]);
        }
      }
      InsertSorts(s[0], rest, leq);
    }
  }

  lemma {:induction false} SortDistinct<T>(s: seq<T>, leq: (T, T) -> bool)
    requires Distinct(s)
    ensures Distinct(Sort(s, leq))
  {
    SortKeepsElements(s, leq);
    DistinctOccursOnce(s);
    OccursOnceDistinct(Sort(s, leq));
  }

  lemma {:induction false} DistinctOccursOnce<T>(s: seq<T>)
    requires Distinct(s)
    ensures forall x | x in s :: multiset(s)[x] == 1
  {
    if s != [] {
      var rest := s[1..];
      assert s == [s[0]] + rest;
      assert forall i, j | 0 <= i < j < |rest| :: rest[i] == s[i + 1] && rest[j] == s[j + 1];
      DistinctOccursOnce(rest);
      assert s[0] !in rest;
    }
  }

  lemma {:induction false} OccursOnceDistinct<T>(s: seq<T>)
    requires forall x | x in s :: multiset(s)[x] == 1
    ensures Distinct(s)
  {
    if s != [] {
      var rest := s[1..];
      assert s == [s[0]] + rest;
      assert multiset(s) == multiset{s[0]} + multiset(rest);
      forall x | x in rest ensures multiset(rest)[x] == 1 && x != s[0] {
        assert x in multiset(rest) && x in s;
        assert multiset(s)[x] == multiset{s[0]}[x] + multiset(rest)[x];
      }
      OccursOnceDistinct(rest);
      forall i, j | 0 <= i < j < |s| ensures s[i] != s[j] {
        assert s[j] == rest[j - 1] && rest[j - 1] in rest;
        if i > 0 {
          assert s[i] == rest[i - 1];
        }
      }
    }
  }

  lemma {:induction false} FilterMembers<T>(s: seq<T>, keep: T -> bool)
    ensures forall x :: x in Filter(s, keep) <==> x in s && keep(x)
    ensures Distinct(s) ==> Distinct(Filter(s, keep))
  {
    if s != [] {
      FilterMembers(s[1..], keep);
      assert s == [s[0]] + s[1..];
      if Distinct(s) {
        assert forall i, j | 0 <= i < j < |s[1..]| :: s[1..][i] == s[i + 1] && s[1..][j] == s[j + 1];
        assert s[0] !in s[1..];
      }
    }
  }

  lemma {:induction false} FilterNone<T>(s: seq<T>, keep: T -> bool)
    requires forall x | x in s :: !keep(x)
    ensures Filter(s, keep) == []
  {
    if s != [] {
      FilterNone(s[1..], keep);
    }
  }

  /** Filtering an extended sequence only looks at the new element. */
  lemma {:induction false} FilterAppend<T>(s: seq<T>, x: T, keep: T -> bool)
    ensures Filter(s + [x], keep) == Filter(s, keep) + (if keep(x) then [x] else [])
  {
    if s == [] {
      assert s + [x] == [x];
      assert Filter([x][1..], keep) == [];
    } else {
      assert (s + [x])[1..] == s[1..] + [x];
      FilterAppend(s[1..], x, keep);
    }
  }

  lemma {:induction false} FilterAgrees<T>(s: seq<T>, a: T -> bool, b: T -> bool)
    requires forall x | x in s :: a(x) == b(x)
    ensures Filter(s, a) == Filter(s, b)
  {
    if s != [] {
      FilterAgrees(s[1..], a, b);
    }
  }

  /** Changing the filter at one element of a distinct sequence changes the count there only. */
  lemma {:induction false} FilterChangesAt<T>(s: seq<T>, p: T -> bool, q: T -> bool, x: T)
    requires Distinct(s) && forall y | y in s && y != x :: p(y) == q(y)
    ensures x in s ==> |Filter(s, q)| + (if p(x) then 1 else 0) == |Filter(s, p)| + (if q(x) then 1 else 0)
    ensures x !in s ==> Filter(s, q) == Filter(s, p)
  {
    if s != [] {
      assert Distinct(s[1..]) && s[0] !in s[1..];
      FilterChangesAt(s[1..], p, q, x);
    }
  }

  lemma {:induction false} InsertAgrees<T>(x: T, s: seq<T>, a: (T, T) -> bool, b: (T, T) -> bool)
    requires forall y | y in s :: a(x, y) == b(x, y)
    ensures Insert(x, s, a) == Insert(x, s, b)
  {
    if s != [] {
      InsertAgrees(x, s[1..], a, b);
    }
  }

  lemma {:induction false} SortAgrees<T>(s: seq<T>, a: (T, T) -> bool, b: (T, T) -> bool)
    requires forall x, y | x in s && y in s :: a(x, y) == b(x, y)
    ensures Sort(s, a) == Sort(s, b)
  {
    if s != [] {
      var rest := s[1..];
      assert s == [s[0]] + rest;
      SortAgrees(rest, a, b);
      SortKeepsElements(rest, a);
      var sorted := Sort(rest, a);
      forall y | y in sorted ensures a(s[0], y) == b(s[0], y) {
        assert y in multiset(sorted);
        assert y in multiset(rest) && s[0] in s;
      }
      InsertAgrees(s[0], sorted, a, b);
    }
  }

  ghost predicate AntisymmetricOn<T>(leq: (T, T) -> bool, s: seq<T>) {
    forall x, y | x in s && y in s && leq(x, y) && leq(y, x) :: x == y
  }

  lemma HeadComesFirst<T>(s: seq<T>, x: T, leq: (T, T) -> bool)
    requires SortedBy(s, leq) && x in s
    ensures x == s[0] || leq(s[0], x)
  {
  }

  /** An order without ties leaves one way to sort a set of elements. */
  lemma {:induction false} SortedUnique<T>(a: seq<T>, b: seq<T>, leq: (T, T) -> bool)
    requires Distinct(a) && Distinct(b) && (forall x :: x in a <==> x in b)
    requires SortedBy(a, leq) && SortedBy(b, leq) && AntisymmetricOn(leq, a)
    ensures a == b
  {
    assert b != [] ==> b[0] in b;
    if a != [] {
      assert a[0] in a && b != [];
      assert b[0] in a;
      HeadComesFirst(b, a[0], leq);
      HeadComesFirst(a, b[0], leq);
      TailsAgree(a, b);
      assert SortedBy(a[1..], leq) && SortedBy(b[1..], leq);
      assert forall x | x in a[1..] :: x in a;
      SortedUnique(a[1..], b[1..], leq);
      assert a == [a[0]] + a[1..] && b == [b[0]] + b[1..];
    }
  }

  lemma TailsAgree<T>(a: seq<T>, b: seq<T>)
    requires Distinct(a) && Distinct(b) && (forall x :: x in a <==> x in b) && a != [] && b != [] && a[0] == b[0]
    ensures Distinct(a[1..]) && Distinct(b[1..]) && forall x :: x in a[1..] <==> x in b[1..]
  {
    assert a == [a[0]] + a[1..] && b == [b[0]] + b[1..];
    assert a[0] !in a[1..] && b[0] !in b[1..];
    forall x ensures x in a[1..] <==> x in b[1..] {
      assert x in a <==> x == a[0] || x in a[1..];
      assert x in b <==> x == b[0] || x in b[1..];
    }
  }
}
