/** Counting and summing, with the update laws every ledger proof uses. */
module Folds {

  function Bit(b: bool): nat {
    if b then 1 else 0
  }

  /** How many elements of `s` satisfy `p`. */
  ghost function CountIf<T>(s: seq<T>, p: T -> bool): nat {
    if s == [] then 0 else CountIf(s[..|s| - 1], p) + Bit(p(s[|s| - 1]))
  }

  lemma {:induction false} CountAppend<T>(s: seq<T>, x: T, p: T -> bool)
    ensures CountIf(s + [x], p) == CountIf(s, p) + Bit(p(x))
  {
    assert (s + [x])[..|s|] == s;
  }

  lemma {:induction false} CountUpdate<T>(s: seq<T>, i: nat, x: T, p: T -> bool)
    requires i < |s|
    ensures CountIf(s[i := x], p) + Bit(p(s[i])) == CountIf(s, p) + Bit(p(x))
  {
    var n := |s| - 1;
    if i == n {
      assert s[i := x][..n] == s[..n];
    } else {
      assert s[i := x][..n] == s[..n][i := x];
      CountUpdate(s[..n], i, x, p);
    }
  }

  lemma {:induction false} CountNone<T>(s: seq<T>, p: T -> bool)
    requires forall i :: 0 <= i < |s| ==> !p(s[i])
    ensures CountIf(s, p) == 0
  {
    if s != [] {
      CountNone(s[..|s| - 1], p);
    }
  }

  /** The sum of `w` over the elements of `s`. */
  ghost function SumBy<T>(s: seq<T>, w: T -> real): real {
    if s == [] then 0.0 else SumBy(s[..|s| - 1], w) + w(s[|s| - 1])
  }

  lemma {:induction false} SumByAppend<T>(s: seq<T>, x: T, w: T -> real)
    ensures SumBy(s + [x], w) == SumBy(s, w) + w(x)
  {
    assert (s + [x])[..|s|] == s;
  }

  lemma {:induction false} SumByUpdate<T>(s: seq<T>, i: nat, x: T, w: T -> real)
    requires i < |s|
    ensures SumBy(s[i := x], w) == SumBy(s, w) - w(s[i]) + w(x)
  {
    var n := |s| - 1;
    if i == n {
      assert s[i := x][..n] == s[..n];
    } else {
      assert s[i := x][..n] == s[..n][i := x];
      SumByUpdate(s[..n], i, x, w);
    }
  }

  /** The sum of `w(k, m[k])` over the keys of `m`, in any order. */
  ghost function SumMap<K, V>(m: map<K, V>, w: (K, V) -> int): int {
    if m == map[] then 0 else
    var k :| k in m;
    w(k, m[k]) + SumMap(m - {k}, w)
  }

  /** The sum does not depend on which key is taken first. */
  lemma {:induction false} SumRemove<K, V>(m: map<K, V>, w: (K, V) -> int, k: K)
    requires k in m
    ensures SumMap(m, w) == w(k, m[k]) + SumMap(m - {k}, w)
    decreases m
  {
    var j :| j in m && SumMap(m, w) == w(j, m[j]) + SumMap(m - {j}, w);
    if j != k {
      SumRemove(m - {j}, w, k);
      SumRemove(m - {k}, w, j);
      assert m - {j} - {k} == m - {k} - {j};
    }
  }

  lemma {:induction false} SumUpdate<K, V>(m: map<K, V>, w: (K, V) -> int, k: K, v: V)
    ensures SumMap(m[k := v], w) == SumMap(m, w) - (if k in m then w(k, m[k]) else 0) + w(k, v)
  {
    SumRemove(m[k := v], w, k);
    assert m[k := v] - {k} == m - {k};
    if k in m {
      SumRemove(m, w, k);
    } else {
      assert m - {k} == m;
    }
  }

  lemma {:induction false} SubsetSmaller<T>(a: set<T>, b: set<T>)
    requires a <= b
    ensures |a| <= |b|
  {
    if a != {} {
      var x :| x in a;
      SubsetSmaller(a - {x}, b - {x});
    }
  }

  /** A property that every step keeps holds throughout. */
  lemma {:induction false} KeptAlways(good: nat -> bool, j: nat)
    requires good(0) && forall l: nat :: l < j && good(l) ==> good(l + 1)
    ensures good(j)
  {
    if j > 0 {
      var last: nat := j - 1;
      KeptAlways(good, last);
      assert good(last) ==> good(last + 1);
    }
  }

  /** A property that each step keeps exactly when the step is not bad is kept throughout
      exactly when no step is bad. */
  lemma {:induction false} KeptIff(good: nat -> bool, bad: nat -> bool, i: nat, j: nat)
    requires i <= j && good(i) && forall l: nat :: i <= l < j && good(l) ==> (good(l + 1) <==> !bad(l))
    ensures (forall l: nat :: i <= l <= j ==> good(l)) <==> (forall l: nat :: i <= l < j ==> !bad(l))
    decreases j
  {
    if i < j {
      var last: nat := j - 1;
      KeptIff(good, bad, i, last);
      assert good(last) ==> (good(last + 1) <==> !bad(last));
    }
  }

  /** Once a step broke a property, it holds again only after a step that restored it. */
  lemma {:induction false} RestoredBetween(good: nat -> bool, fix: nat -> bool, i: nat, j: nat) returns (m: nat)
    requires i <= j && !good(i) && good(j)
    requires forall l: nat :: i <= l < j && !good(l) ==> (good(l + 1) <==> fix(l))
    ensures i <= m < j && fix(m)
    decreases j - i
  {
    if good(i + 1) {
      m := i;
    } else {
      m := RestoredBetween(good, fix, i + 1, j);
    }
  }

  /** A property that held once and does not now was broken, and not restored since. */
  lemma {:induction false} BrokenBefore(good: nat -> bool, bad: nat -> bool, fix: nat -> bool, i: nat, j: nat)
    returns (l: nat)
    requires i <= j && good(i) && !good(j)
    requires forall l: nat :: i <= l < j && good(l) ==> (good(l + 1) <==> !bad(l))
    requires forall l: nat :: i <= l < j && fix(l) ==> !good(l) && good(l + 1)
    ensures i <= l < j && bad(l) && forall m: nat :: l < m < j ==> !fix(m)
    decreases j
  {
    var last: nat := j - 1;
    if good(last) {
      l := last;
      assert good(last + 1) <==> !bad(last);
    } else {
      l := BrokenBefore(good, bad, fix, i, last);
      assert !fix(last);
    }
  }

  /** A property that steps break and restore holds at the end exactly when every break was
      followed by a repair. */
  lemma {:induction false} RepairedIff(good: nat -> bool, bad: nat -> bool, fix: nat -> bool, i: nat, j: nat)
    requires i <= j && good(i)
    requires forall l: nat :: i <= l < j && good(l) ==> (good(l + 1) <==> !bad(l))
    requires forall l: nat :: i <= l < j && !good(l) ==> (good(l + 1) <==> fix(l))
    requires forall l: nat :: i <= l < j && bad(l) ==> !good(l + 1)
    requires forall l: nat :: i <= l < j && fix(l) ==> !good(l) && good(l + 1)
    ensures good(j) <==> forall l: nat :: i <= l < j && bad(l) ==> exists m: nat :: l < m < j && fix(m)
  {
    if good(j) {
      forall l: nat | i <= l < j && bad(l) ensures exists m: nat :: l < m < j && fix(m) {
        assert !good(l + 1);
        var m := RestoredBetween(good, fix, l + 1, j);
        assert l < m < j && fix(m);
      }
    } else {
      var l := BrokenBefore(good, bad, fix, i, j);
    }
  }
}
