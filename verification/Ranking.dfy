/** The first n of a set by score, ties broken in any way. */
module Ranking {

  ghost predicate Distinct<T>(r: seq<T>) { forall i, j :: 0 <= i < j < |r| ==> r[i] != r[j] }

  function Elements<T>(r: seq<T>): set<T> { set x | x in r }

  ghost predicate Descending<T(!new)>(r: seq<T>, score: T -> real) {
    forall i, j :: 0 <= i < j < |r| ==> score(r[i]) >= score(r[j])
  }

  /** r lists the n best of s, or all of s if there are no more, best first. */
  ghost predicate IsTop<T(!new)>(r: seq<T>, s: set<T>, score: T -> real, n: nat) {
    && Distinct(r) && Descending(r, score) && Elements(r) <= s
    && |r| == (if |s| <= n then |s| else n)
    && forall x, y :: x in r && y in s && y !in r ==> score(x) >= score(y)
  }

  lemma {:induction false} ElementsCount<T>(r: seq<T>)
    requires Distinct(r)
    ensures |Elements(r)| == |r|
  {
    if r != [] {
      var n := |r| - 1;
      ElementsCount(r[..n]);
      assert r == r[..n] + [r[n]];
      assert Elements(r) == Elements(r[..n]) + {r[n]};
    }
  }

  lemma SubsetCount<T>(a: set<T>, b: set<T>)
    requires a <= b
    ensures |a| <= |b|
    ensures |a| == |b| ==> a == b
  {
    assert b == a + (b - a);
  }

  /** A limit that is not exceeded cuts nothing. */
  lemma TopOfFew<T(!new)>(r: seq<T>, s: set<T>, score: T -> real, n: nat)
    requires IsTop(r, s, score, n) && |s| <= n
    ensures Elements(r) == s
  {
    ElementsCount(r);
    SubsetCount(Elements(r), s);
  }

  /** Two such lists have the same scores in the same places, whatever their ties. */
  lemma TopScores<T(!new)>(a: seq<T>, b: seq<T>, s: set<T>, score: T -> real, n: nat)
    requires IsTop(a, s, score, n) && IsTop(b, s, score, n)
    ensures |a| == |b| && forall i :: 0 <= i < |a| ==> score(a[i]) == score(b[i])
  {
    forall i | 0 <= i < |a|
      ensures score(a[i]) == score(b[i])
    {
      NotBetter(a, b, s, score, n, i);
      NotBetter(b, a, s, score, n, i);
    }
  }

  lemma NotBetter<T(!new)>(a: seq<T>, b: seq<T>, s: set<T>, score: T -> real, n: nat, i: nat)
    requires IsTop(a, s, score, n) && IsTop(b, s, score, n) && i < |a|
    ensures score(a[i]) <= score(b[i])
  {
    if score(a[i]) > score(b[i]) {
      forall x | x in a[..i + 1]
        ensures x in b[..i]
      {
        BetterIsEarlier(a, b, s, score, n, i, x);
      }
      Crowded(a[..i + 1], b[..i]);
    }
  }

  /** What a ranks up to i is better than b[i], so b must list it before i. */
  lemma BetterIsEarlier<T(!new)>(a: seq<T>, b: seq<T>, s: set<T>, score: T -> real, n: nat, i: nat, x: T)
    requires IsTop(a, s, score, n) && IsTop(b, s, score, n) && i < |a|
    requires score(a[i]) > score(b[i]) && x in a[..i + 1]
    ensures x in b[..i]
  {
    var k :| 0 <= k <= i && a[k] == x;
    assert score(x) >= score(a[i]);
    assert x in Elements(a);
    assert b[i] in b;
    var j :| 0 <= j < |b| && b[j] == x;
    assert j < i;
  }

  lemma Crowded<T>(a: seq<T>, b: seq<T>)
    requires Distinct(a) && forall x :: x in a ==> x in b
    ensures |a| <= |b|
  {
    ElementsCount(a);
    SubsetCount(Elements(a), Elements(b));
    FewElements(b);
  }

  lemma {:induction false} FewElements<T>(r: seq<T>)
    ensures |Elements(r)| <= |r|
  {
    if r != [] {
      var n := |r| - 1;
      FewElements(r[..n]);
      assert r == r[..n] + [r[n]];
      assert Elements(r) == Elements(r[..n]) + {r[n]};
    }
  }

  /** Without ties the list is determined. */
  lemma {:induction false} TopUnique<T(!new)>(a: seq<T>, b: seq<T>, s: set<T>, score: T -> real, n: nat)
    requires IsTop(a, s, score, n) && IsTop(b, s, score, n)
    requires forall x, y :: x in s && y in s && score(x) == score(y) ==> x == y
    ensures a == b
  {
    TopScores(a, b, s, score, n);
    forall i | 0 <= i < |a|
      ensures a[i] == b[i]
    {
      assert a[i] in Elements(a) && b[i] in Elements(b);
    }
  }
}
