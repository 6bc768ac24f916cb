/**
 * The two JavaScript built-ins the currency core relies on for more than a
 * lookup: `Array.prototype.slice(0, n)` and the default `Array.prototype.sort`
 * on strings, which orders them code unit by code unit.
 */
module Builtins {

  function Min(a: int, b: int): int
  {
    if a < b then a else b
  }

  /** `s.slice(0, n)`: the first `n` elements of `s`, or all of `s` when it is shorter. */
  function Take<T>(s: seq<T>, n: nat): (r: seq<T>)
    ensures |r| == Min(|s|, n)
    ensures forall i :: 0 <= i < |r| ==> r[i] == s[i]
  {
    if n < |s| then s[..n] else s
  }

  /** `r` is `s` with some elements left out, the rest in their original order. */
  predicate IsSubsequence<T(==)>(r: seq<T>, s: seq<T>)
    decreases |s|
  {
    if r == [] then true
    else if s == [] then false
    else if r[0] == s[0] then IsSubsequence(r[1..], s[1..])
    else IsSubsequence(r, s[1..])
  }

  /**
   * `a` sorts strictly before `b` under the default comparison of `sort`:
   * the first differing character decides, and a proper prefix comes first.
   */
  predicate Before(a: string, b: string)
  {
    if |a| == 0 then |b| != 0
    else if |b| == 0 then false
    else if a[0] != b[0] then a[0] < b[0]
    else Before(a[1..], b[1..])
  }

  lemma {:induction false} BeforeIrreflexive(a: string)
    ensures !Before(a, a)
  {
    if |a| != 0 {
      BeforeIrreflexive(a[1..]);
    }
  }

  lemma {:induction false} BeforeAsymmetric(a: string, b: string)
    requires Before(a, b)
    ensures !Before(b, a)
  {
    if |a| != 0 && |b| != 0 && a[0] == b[0] {
      BeforeAsymmetric(a[1..], b[1..]);
    }
  }

  lemma {:induction false} BeforeTransitive(a: string, b: string, c: string)
    requires Before(a, b) && Before(b, c)
    ensures Before(a, c)
  {
    if |a| != 0 && |b| != 0 && |c| != 0 && a[0] == b[0] && b[0] == c[0] {
      BeforeTransitive(a[1..], b[1..], c[1..]);
    }
  }

  lemma {:induction false} BeforeTotal(a: string, b: string)
    requires a != b
    ensures Before(a, b) || Before(b, a)
  {
    if |a| != 0 && |b| != 0 && a[0] == b[0] {
      assert a == [a[0]] + a[1..] && b == [b[0]] + b[1..];
      BeforeTotal(a[1..], b[1..]);
    }
  }

  /** `m` is the element of `s` that sorts before every other element of `s`. */
  predicate IsLeast(m: string, s: set<string>)
  {
    m in s && forall x :: x in s && x != m ==> Before(m, x)
  }

  lemma {:induction false} LeastExists(s: set<string>)
    requires s != {}
    ensures exists m :: IsLeast(m, s)
    decreases |s|
  {
    var x :| x in s;
    if s != {x} {
      var rest := s - {x};
      LeastExists(rest);
      var m :| IsLeast(m, rest);
      if Before(x, m) {
        forall y | y in s && y != x
          ensures Before(x, y)
        {
          if y != m { BeforeTransitive(x, m, y); }
        }
        assert IsLeast(x, s);
      } else {
        BeforeTotal(x, m);
        assert IsLeast(m, s);
      }
    } else {
      assert IsLeast(x, s);
    }
  }

  lemma LeastUnique(s: set<string>)
    ensures forall m, n :: IsLeast(m, s) && IsLeast(n, s) ==> m == n
  {
    forall m, n | IsLeast(m, s) && IsLeast(n, s)
      ensures m == n
    {
      if m != n { BeforeAsymmetric(m, n); }
    }
  }

  /** The first element of `s` in sort order. */
  function Least(s: set<string>): (m: string)
    requires s != {}
    ensures IsLeast(m, s)
  {
    LeastExists(s);
    LeastUnique(s);
    var m :| IsLeast(m, s); m
  }

  /** Every element sorts strictly before every later one: ascending and without duplicates. */
  predicate StrictlySorted(r: seq<string>)
  {
    forall i, j :: 0 <= i < j < |r| ==> Before(r[i], r[j])
  }

  /** No element occurs twice. */
  predicate Distinct<T(==)>(r: seq<T>)
  {
    forall i, j :: 0 <= i < j < |r| ==> r[i] != r[j]
  }

  lemma SortedIsDistinct(r: seq<string>)
    requires StrictlySorted(r)
    ensures Distinct(r)
  {
    forall i, j | 0 <= i < j < |r|
      ensures r[i] != r[j]
    {
      BeforeIrreflexive(r[i]);
    }
  }

  /**
   * `[...s].sort()`: the elements of a set of strings (a JavaScript `Set` or
   * the keys of an object) in ascending order, each exactly once.
   */
  function SortedSet(s: set<string>): (r: seq<string>)
    ensures forall x :: x in r <==> x in s
    ensures |r| == |s|
    ensures StrictlySorted(r)
    decreases |s|
  {
    if s == {} then []
    else
      var m := Least(s);
      [m] + SortedSet(s - {m})
  }

  /** There is only one strictly sorted arrangement of a set of strings. */
  lemma {:induction false} SortedArrangementUnique(r: seq<string>, q: seq<string>)
    requires StrictlySorted(r) && StrictlySorted(q)
    requires forall x :: x in r <==> x in q
    ensures r == q
    decreases |r|
  {
    assert r != [] ==> r[0] in q;
    assert q != [] ==> q[0] in r;
    if r != [] && q != [] {
      if r[0] != q[0] {
        assert q[0] in r;
        var i :| 0 <= i < |r| && r[i] == q[0];
        assert r[0] in q;
        var j :| 0 <= j < |q| && q[j] == r[0];
        assert i != 0 && j != 0;
        BeforeAsymmetric(r[0], r[i]);
      }
      SortedIsDistinct(r);
      SortedIsDistinct(q);
      forall x
        ensures x in r[1..] <==> x in q[1..]
      {
        if x in r[1..] {
          var i :| 1 <= i < |r| && r[i] == x;
          assert x in q && x != q[0];
        }
        if x in q[1..] {
          var j :| 1 <= j < |q| && q[j] == x;
          assert x in r && x != r[0];
        }
      }
      SortedArrangementUnique(r[1..], q[1..]);
      assert r == [r[0]] + r[1..] && q == [q[0]] + q[1..];
    }
  }

  /** `SortedSet(s)` is the one strictly sorted sequence holding exactly `s`. */
  lemma SortedSetCharacterised(s: set<string>, r: seq<string>)
    requires StrictlySorted(r)
    requires forall x :: x in r <==> x in s
    ensures r == SortedSet(s)
  {
    SortedArrangementUnique(r, SortedSet(s));
  }
}
