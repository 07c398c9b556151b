/** Python's stable `sorted(..., key=..., reverse=...)` and `list.sort`, as an
    insertion sort parameterised by the relation "a ranks strictly ahead of b".
    Every ranking of the system (both booking engines, the notification feed,
    the inventory alerts and the package-cost analytics) is an instance. */
module Sorting {

  ghost predicate Irreflexive<T(!new)>(ahead: (T, T) -> bool) {
    forall a :: !ahead(a, a)
  }

  ghost predicate Transitive<T(!new)>(ahead: (T, T) -> bool) {
    forall a, b, c :: ahead(a, b) && ahead(b, c) ==> ahead(a, c)
  }

  /** If a is ahead of b, any c is behind a or ahead of b (equivalently, being
      tied is transitive). */
  ghost predicate IncomparabilityTransitive<T(!new)>(ahead: (T, T) -> bool) {
    forall a, b, c :: ahead(a, b) ==> ahead(a, c) || ahead(c, b)
  }

  /** `ahead` behaves like "key(a) > key(b)" for some key: a strict weak order. */
  ghost predicate StrictWeakOrder<T(!new)>(ahead: (T, T) -> bool) {
    Irreflexive(ahead) && Transitive(ahead) && IncomparabilityTransitive(ahead)
  }

  /** No element is ahead of an element placed before it. */
  ghost predicate Ranked<T>(s: seq<T>, ahead: (T, T) -> bool) {
    forall i, j :: 0 <= i < j < |s| ==> !ahead(s[j], s[i])
  }

  /** Elements of `s` tied with `e` (neither is ahead of the other), in order. */
  function TiedWith<T>(s: seq<T>, e: T, ahead: (T, T) -> bool): (r: seq<T>)
    ensures |r| <= |s|
  {
    if s == [] then []
    else TiedWith(s[..|s| - 1], e, ahead)
         + (if !ahead(e, s[|s| - 1]) && !ahead(s[|s| - 1], e) then [s[|s| - 1]] else [])
  }

  /** Places `x` in front of the first element it is strictly ahead of, so
      that it follows every element it ties with. */
  function Insert<T>(x: T, s: seq<T>, ahead: (T, T) -> bool): (r: seq<T>)
    ensures multiset(r) == multiset(s) + multiset{x}
  {
    if s == [] then [x]
    else if ahead(x, s[0]) then [x] + s
    else
      assert s == [s[0]] + s[1..];
      [s[0]] + Insert(x, s[1..], ahead)
  }

  /** The stable sort: `sorted(s, key=k, reverse=True)` is `Sort(s, (a, b) => k(a) > k(b))`. */
  function Sort<T>(s: seq<T>, ahead: (T, T) -> bool): (r: seq<T>)
    ensures multiset(r) == multiset(s)
  {
    if s == [] then []
    else
      assert s == s[..|s| - 1] + [s[|s| - 1]];
      Insert(s[|s| - 1], Sort(s[..|s| - 1], ahead), ahead)
  }

  lemma {:induction false} InsertRanked<T(!new)>(x: T, s: seq<T>, ahead: (T, T) -> bool)
    requires StrictWeakOrder(ahead) && Ranked(s, ahead)
    ensures Ranked(Insert(x, s, ahead), ahead)
  {
    if s != [] && !ahead(x, s[0]) {
      InsertRanked(x, s[1..], ahead);
      var r := Insert(x, s[1..], ahead);
      assert multiset(r) == multiset(s[1..]) + multiset{x};
      forall j | 0 <= j < |r| ensures !ahead(r[j], s[0]) {
        assert r[j] in multiset(r);
        if r[j] != x {
          assert r[j] in multiset(s[1..]);
          var k :| 0 <= k < |s[1..]| && s[1..][k] == r[j];
          assert s[k + 1] == r[j];
        }
      }
    }
  }

  /** The sort's output is ranked: no later element is strictly ahead of an earlier one. */
  lemma {:induction false} SortRanked<T(!new)>(s: seq<T>, ahead: (T, T) -> bool)
    requires StrictWeakOrder(ahead)
    ensures Ranked(Sort(s, ahead), ahead)
  {
    if s != [] {
      SortRanked(s[..|s| - 1], ahead);
      InsertRanked(s[|s| - 1], Sort(s[..|s| - 1], ahead), ahead);
    }
  }

  lemma {:induction false} TiedWithAppend<T>(s: seq<T>, t: seq<T>, e: T, ahead: (T, T) -> bool)
    ensures TiedWith(s + t, e, ahead) == TiedWith(s, e, ahead) + TiedWith(t, e, ahead)
    decreases |t|
  {
    if t == [] {
      assert s + t == s;
    } else {
      assert (s + t)[..|s + t| - 1] == s + t[..|t| - 1];
      TiedWithAppend(s, t[..|t| - 1], e, ahead);
    }
  }

  /** Inserting `x` into a ranked list keeps the ties of `e` in order, with `x`
      last among them when `x` ties with `e`. */
  lemma {:induction false} InsertTied<T(!new)>(x: T, s: seq<T>, e: T, ahead: (T, T) -> bool)
    requires IncomparabilityTransitive(ahead) && Ranked(s, ahead)
    ensures TiedWith(Insert(x, s, ahead), e, ahead) == TiedWith(s + [x], e, ahead)
  {
    if s == [] {
      assert Insert(x, s, ahead) == s + [x];
    } else if ahead(x, s[0]) {
      InsertFrontTied(x, s, e, ahead);
    } else {
      assert Ranked(s[1..], ahead) by {
        forall i, j | 0 <= i < j < |s[1..]| ensures !ahead(s[1..][j], s[1..][i]) {
          assert s[1..][j] == s[j + 1] && s[1..][i] == s[i + 1];
        }
      }
      InsertTied(x, s[1..], e, ahead);
      TiedWithAppend([s[0]], Insert(x, s[1..], ahead), e, ahead);
      TiedWithAppend([s[0]], s[1..] + [x], e, ahead);
      assert [s[0]] + (s[1..] + [x]) == s + [x];
    }
  }

  /** When `x` goes in front of a ranked list, `x` is ahead of every element,
      so no element ties with `e` if `x` does. */
  lemma InsertFrontTied<T(!new)>(x: T, s: seq<T>, e: T, ahead: (T, T) -> bool)
    requires IncomparabilityTransitive(ahead) && Ranked(s, ahead)
    requires s != [] && ahead(x, s[0])
    ensures TiedWith([x] + s, e, ahead) == TiedWith(s + [x], e, ahead)
  {
    TiedWithAppend([x], s, e, ahead);
    TiedWithAppend(s, [x], e, ahead);
    if !ahead(e, x) && !ahead(x, e) {
      forall k | 0 <= k < |s| ensures ahead(x, s[k]) {
        if k > 0 {
          assert !ahead(s[k], s[0]);
        }
      }
      NoneTied(s, e, ahead, x);
    }
  }

  /** When `x` ties with `e` and is ahead of every element of `s`, nothing in `s` ties with `e`. */
  lemma {:induction false} NoneTied<T(!new)>(s: seq<T>, e: T, ahead: (T, T) -> bool, x: T)
    requires IncomparabilityTransitive(ahead)
    requires !ahead(e, x) && !ahead(x, e)
    requires forall k :: 0 <= k < |s| ==> ahead(x, s[k])
    ensures TiedWith(s, e, ahead) == []
  {
    if s != [] {
      NoneTied(s[..|s| - 1], e, ahead, x);
      var y := s[|s| - 1];
      assert ahead(x, y);
      assert ahead(e, y) || ahead(y, e) by {
        assert ahead(x, e) || ahead(e, y);
      }
    }
  }

  /** Stability: elements that tie keep their original relative order. */
  lemma {:induction false} SortStable<T(!new)>(s: seq<T>, e: T, ahead: (T, T) -> bool)
    requires StrictWeakOrder(ahead)
    ensures TiedWith(Sort(s, ahead), e, ahead) == TiedWith(s, e, ahead)
  {
    if s != [] {
      var p, x := s[..|s| - 1], s[|s| - 1];
      assert s == p + [x];
      SortStable(p, e, ahead);
      SortRanked(p, ahead);
      SortStableStep(p, x, e, ahead);
    }
  }

  /** Sorting one more element keeps the ties of `e` in order. */
  lemma SortStableStep<T(!new)>(p: seq<T>, x: T, e: T, ahead: (T, T) -> bool)
    requires IncomparabilityTransitive(ahead) && Ranked(Sort(p, ahead), ahead)
    requires TiedWith(Sort(p, ahead), e, ahead) == TiedWith(p, e, ahead)
    ensures TiedWith(Sort(p + [x], ahead), e, ahead) == TiedWith(p + [x], e, ahead)
  {
    assert (p + [x])[..|p + [x]| - 1] == p;
    InsertTied(x, Sort(p, ahead), e, ahead);
    TiedWithAppend(Sort(p, ahead), [x], e, ahead);
    TiedWithAppend(p, [x], e, ahead);
  }

  /** Python's slice `s[:n]`. */
  function Take<T>(s: seq<T>, n: nat): seq<T> {
    if |s| <= n then s else s[..n]
  }

  /** `s[:n]` is the longest prefix of `s` of length at most `n`. */
  lemma TakePrefix<T>(s: seq<T>, n: nat)
    ensures |Take(s, n)| <= n && Take(s, n) == s[..|Take(s, n)|]
    ensures |s| >= n ==> |Take(s, n)| == n
    ensures forall x :: x in Take(s, n) ==> x in s
  {
  }

  /** The first `n` elements of a sorted list are ranked and drawn from the input. */
  lemma SortedPrefix<T(!new)>(s: seq<T>, ahead: (T, T) -> bool, n: nat)
    requires StrictWeakOrder(ahead)
    ensures |Take(Sort(s, ahead), n)| <= n
    ensures Ranked(Take(Sort(s, ahead), n), ahead)
    ensures multiset(Take(Sort(s, ahead), n)) <= multiset(s)
  {
    var sorted := Sort(s, ahead);
    var r := Take(sorted, n);
    SortRanked(s, ahead);
    TakePrefix(sorted, n);
    assert sorted == r + sorted[|r|..];
  }
}
