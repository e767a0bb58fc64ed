/** Finite sums over sequences, the "plain fold" every report and balance is compared with. */
module Sums {
  function Sum<T>(s: seq<T>, f: T -> int): int {
    if s == [] then 0 else Sum(s[..|s| - 1], f) + f(s[|s| - 1])
  }

  lemma SumSnoc<T>(s: seq<T>, x: T, f: T -> int)
    ensures Sum(s + [x], f) == Sum(s, f) + f(x)
  {
    assert (s + [x])[..|s|] == s;
  }

  lemma OneMore<T>(s: seq<T>, i: nat)
    requires i < |s|
    ensures s[..i + 1] == s[..i] + [s[i]]
  {
  }

  lemma SumPrefix<T>(s: seq<T>, i: nat, f: T -> int)
    requires i < |s|
    ensures Sum(s[..i + 1], f) == Sum(s[..i], f) + f(s[i])
  {
    assert s[..i + 1] == s[..i] + [s[i]];
    SumSnoc(s[..i], s[i], f);
  }

  lemma {:induction false} SumConcat<T>(s: seq<T>, t: seq<T>, f: T -> int)
    ensures Sum(s + t, f) == Sum(s, f) + Sum(t, f)
  {
    if t == [] {
      assert s + t == s;
    } else {
      var n := |t| - 1;
      SumConcat(s, t[..n], f);
      assert s + t == (s + t[..n]) + [t[n]];
      SumSnoc(s + t[..n], t[n], f);
    }
  }

  lemma {:induction false} SumUpdate<T>(s: seq<T>, i: nat, x: T, f: T -> int)
    requires i < |s|
    ensures Sum(s[i := x], f) == Sum(s, f) - f(s[i]) + f(x)
  {
    var n := |s| - 1;
    if i == n {
      assert s[i := x][..n] == s[..n];
    } else {
      SumUpdate(s[..n], i, x, f);
      assert s[i := x][..n] == s[..n][i := x];
    }
  }

  /** Two summands that agree on the elements of `s` have the same sum. */
  lemma {:induction false} SumEq<T>(s: seq<T>, f: T -> int, g: T -> int)
    requires forall x | x in s :: f(x) == g(x)
    ensures Sum(s, f) == Sum(s, g)
  {
    if s != [] {
      SumEq(s[..|s| - 1], f, g);
    }
  }

  lemma {:induction false} SumZero<T>(s: seq<T>, f: T -> int)
    requires forall x | x in s :: f(x) == 0
    ensures Sum(s, f) == 0
  {
    if s != [] {
      SumZero(s[..|s| - 1], f);
    }
  }

  lemma {:induction false} SumNonNegative<T>(s: seq<T>, f: T -> int)
    requires forall x | x in s :: f(x) >= 0
    ensures Sum(s, f) >= 0
  {
    if s != [] {
      SumNonNegative(s[..|s| - 1], f);
    }
  }

  lemma {:induction false} SumMonotone<T>(s: seq<T>, f: T -> int, g: T -> int)
    requires forall x | x in s :: f(x) <= g(x)
    ensures Sum(s, f) <= Sum(s, g)
  {
    if s != [] {
      SumMonotone(s[..|s| - 1], f, g);
    }
  }

  /** One element of a sum of non-negative terms is at most the sum. */
  lemma {:induction false} SumMember<T>(s: seq<T>, i: nat, f: T -> int)
    requires i < |s|
    requires forall x | x in s :: f(x) >= 0
    ensures f(s[i]) <= Sum(s, f)
  {
    var n := |s| - 1;
    SumNonNegative(s[..n], f);
    if i < n {
      SumMember(s[..n], i, f);
    }
  }

  /** Sums are linear: `h = f - g` on the elements of `s`. */
  lemma {:induction false} SumDiff<T>(s: seq<T>, f: T -> int, g: T -> int, h: T -> int)
    requires forall x | x in s :: h(x) == f(x) - g(x)
    ensures Sum(s, h) == Sum(s, f) - Sum(s, g)
  {
    if s != [] {
      SumDiff(s[..|s| - 1], f, g, h);
    }
  }

  /** Two sequences of equal terms, position by position. */
  lemma {:induction false} SumZip<S, T>(s: seq<S>, t: seq<T>, f: S -> int, g: T -> int)
    requires |s| == |t|
    requires forall i | 0 <= i < |s| :: f(s[i]) == g(t[i])
    ensures Sum(s, f) == Sum(t, g)
  {
    if s != [] {
      var n := |s| - 1;
      SumZip(s[..n], t[..n], f, g);
    }
  }

  /** Errors add up: `f` is `g / den` with an error of at most `slack / 2` in each term. */
  lemma {:induction false} SumWithin<T>(s: seq<T>, f: T -> int, g: T -> int, slack: T -> int, den: int)
    requires forall x | x in s :: -den * slack(x) <= 2 * (den * f(x) - g(x)) <= den * slack(x)
    ensures -den * Sum(s, slack) <= 2 * (den * Sum(s, f) - Sum(s, g)) <= den * Sum(s, slack)
  {
    if s != [] {
      var n := |s| - 1;
      SumWithin(s[..n], f, g, slack, den);
      Distribute(den, Sum(s[..n], f), f(s[n]));
      Distribute(den, Sum(s[..n], slack), slack(s[n]));
    }
  }

  lemma Distribute(d: int, x: int, y: int)
    ensures d * (x + y) == d * x + d * y
    ensures -d * (x + y) == -d * x + -d * y
  {
  }

  /** The order of the terms does not matter. */
  lemma {:induction false} SumPermuted<T>(s: seq<T>, t: seq<T>, f: T -> int)
    requires multiset(s) == multiset(t)
    ensures Sum(s, f) == Sum(t, f)
  {
    if s == [] {
      assert |t| == |multiset(t)| == |multiset(s)| == 0;
    } else {
      var n := |s| - 1;
      assert s == s[..n] + [s[n]];
      assert s[n] in multiset(t);
      var i :| 0 <= i < |t| && t[i] == s[n];
      var rest := t[..i] + t[i + 1..];
      assert t == t[..i] + [t[i]] + t[i + 1..];
      assert multiset(rest) == multiset(t) - multiset{t[i]} == multiset(s[..n]);
      SumPermuted(s[..n], rest, f);
      SumConcat(t[..i], t[i + 1..], f);
      SumConcat(t[..i] + [t[i]], t[i + 1..], f);
      SumSnoc(t[..i], t[i], f);
    }
  }

  // ---- Grouping ----

  function InGroup<T, K(==)>(key: T -> K, f: T -> int, k: K): T -> int { (x: T) => if key(x) == k then f(x) else 0 }
  function GroupSum<T, K(==)>(s: seq<T>, key: T -> K, f: T -> int): K -> int { (k: K) => Sum(s, InGroup(key, f, k)) }

  /** Adding up group by group, over distinct keys that cover the sequence, is adding up. */
  lemma {:induction false} SumGrouped<T, K>(keys: seq<K>, s: seq<T>, key: T -> K, f: T -> int)
    requires forall i, j | 0 <= i < j < |keys| :: keys[i] != keys[j]
    requires forall x | x in s :: key(x) in keys
    ensures Sum(keys, GroupSum(s, key, f)) == Sum(s, f)
  {
    if s == [] {
      SumZero(keys, GroupSum(s, key, f));
    } else {
      var n := |s| - 1;
      var one := (k: K) => if k == key(s[n]) then f(s[n]) else 0;
      SumGrouped(keys, s[..n], key, f);
      SumDiff(keys, GroupSum(s, key, f), GroupSum(s[..n], key, f), one);
      var i :| 0 <= i < |keys| && keys[i] == key(s[n]);
      SumOfOne(keys, i, one);
    }
  }

  lemma {:induction false} SumOfOne<K>(keys: seq<K>, i: nat, f: K -> int)
    requires i < |keys| && forall j | 0 <= j < |keys| && j != i :: f(keys[j]) == 0
    ensures Sum(keys, f) == f(keys[i])
  {
    var n := |keys| - 1;
    if i == n {
      forall x | x in keys[..n] ensures f(x) == 0 {
        var j :| 0 <= j < n && keys[j] == x;
      }
      SumZero(keys[..n], f);
    } else {
      SumOfOne(keys[..n], i, f);
    }
  }

  // ---- Sets ----

  lemma {:induction false} Smaller<T>(a: set<T>, b: set<T>)
    requires a <= b
    ensures |a| <= |b|
    decreases |a|
  {
    if a != {} {
      var x :| x in a;
      assert a - {x} <= b - {x};
      Smaller(a - {x}, b - {x});
    }
  }
}
