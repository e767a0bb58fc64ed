/** Oldest first: an amount consumed by debts in order (the loops of `ap.compute_ap_aging` and
    `ar.post_receipt`), and what it leaves of them. */
module Fifo {
  import opened Sums

  datatype Outstanding = Outstanding(date: int, amt: int)
  function Amt(o: Outstanding): int { o.amt }

  function Clamp(x: int, hi: int): int { if x < 0 then 0 else if x > hi then hi else x }
  function Max(x: int, y: int): int { if x < y then y else x }

  ghost predicate NoneNegative(s: seq<Outstanding>) { forall o | o in s :: o.amt >= 0 }

  /** What is left of purchase `j`: payments reach it only after everything older is cleared. */
  function Rest(s: seq<Outstanding>, paid: int, j: nat): int
    requires j < |s|
  {
    s[j].amt - Clamp(paid - Sum(s[..j], Amt), s[j].amt)
  }

  /** What is left of all of them, in order. */
  function Remaining(s: seq<Outstanding>, paid: int): (r: seq<Outstanding>)
    ensures |r| == |s|
  {
    if s == [] then []
    else
      var n := |s| - 1;
      Remaining(s[..n], paid) + [s[n].(amt := Rest(s, paid, n))]
  }

  lemma {:induction false} RemainingAt(s: seq<Outstanding>, paid: int, j: nat)
    requires j < |s|
    ensures Remaining(s, paid)[j] == s[j].(amt := Rest(s, paid, j))
  {
    var n := |s| - 1;
    if j < n {
      RemainingAt(s[..n], paid, j);
      assert s[..n][..j] == s[..j];
    }
  }

  /** A sequence that agrees everywhere is what is left. */
  lemma IsRemaining(s: seq<Outstanding>, now: seq<Outstanding>, paid: int)
    requires |now| == |s| && forall j | 0 <= j < |s| :: now[j] == s[j].(amt := Rest(s, paid, j))
    ensures now == Remaining(s, paid)
  {
    forall j | 0 <= j < |s| ensures now[j] == Remaining(s, paid)[j] {
      RemainingAt(s, paid, j);
    }
  }

  lemma {:induction false} OlderIsLess(s: seq<Outstanding>, i: nat, j: nat)
    requires i <= j <= |s| && NoneNegative(s)
    ensures 0 <= Sum(s[..i], Amt) <= Sum(s[..j], Amt)
    decreases j - i
  {
    if i == j {
      SumNonNegative(s[..i], Amt);
    } else {
      OlderIsLess(s, i, j - 1);
      SumPrefix(s, j - 1, Amt);
    }
  }

  /** Part of the way through the loop: `i` purchases are done and `left` of the payments remains. */
  ghost predicate Applied(s: seq<Outstanding>, now: seq<Outstanding>, paid: int, left: int, i: nat) {
    && |now| == |s| && i <= |s|
    && (forall j | 0 <= j < i :: now[j] == s[j].(amt := Rest(s, paid, j)))
    && (forall j | i <= j < |s| :: now[j] == s[j])
    && left == (if paid <= 0 then paid else Max(paid - Sum(s[..i], Amt), 0))
    && (0 <= left || i == 0)
  }

  lemma ApplyStep(s: seq<Outstanding>, now: seq<Outstanding>, paid: int, left: int, i: nat, applied: int)
    requires NoneNegative(s) && Applied(s, now, paid, left, i) && i < |s| && left > 0
    requires applied == if left < now[i].amt then left else now[i].amt
    ensures Applied(s, now[i := now[i].(amt := now[i].amt - applied)], paid, left - applied, i + 1)
  {
    assert s[i] in s;
    SumPrefix(s, i, Amt);
    OlderIsLess(s, 0, i);
  }

  lemma ApplyDone(s: seq<Outstanding>, now: seq<Outstanding>, paid: int, left: int, i: nat)
    requires NoneNegative(s) && Applied(s, now, paid, left, i) && (i == |s| || left <= 0)
    ensures now == Remaining(s, paid)
  {
    forall j | i <= j < |s| ensures Rest(s, paid, j) == s[j].amt {
      OlderIsLess(s, i, j);
      assert s[j] in s;
    }
    IsRemaining(s, now, paid);
  }

  /** What no debt needs is left over. */
  lemma LeftOver(s: seq<Outstanding>, paid: int, left: int, i: nat)
    requires NoneNegative(s) && i <= |s| && (i == |s| || left <= 0)
    requires left == Max(paid - Sum(s[..i], Amt), 0)
    ensures left == Max(paid - Sum(s, Amt), 0)
  {
    OlderIsLess(s, i, |s|);
    assert s[..|s|] == s;
  }

  lemma AllApplied(s: seq<Outstanding>, now: seq<Outstanding>, paid: int, left: int, i: nat)
    requires NoneNegative(s) && Applied(s, now, paid, left, i) && (i == |s| || left <= 0) && paid > 0
    ensures now == Remaining(s, paid) && left == Max(paid - Sum(s, Amt), 0)
  {
    ApplyDone(s, now, paid, left, i);
    LeftOver(s, paid, left, i);
  }

  /** The loop over `outstanding`: the amounts are reduced in place until the payments are used up. */
  method ApplyPaid(a: array<Outstanding>, paid: int)
    requires NoneNegative(a[..])
    modifies a
    ensures a[..] == Remaining(old(a[..]), paid)
  {
    ghost var s := a[..];
    var left, i := paid, 0;
    while i < a.Length && left > 0
      invariant 0 <= i <= a.Length
      invariant Applied(s, a[..], paid, left, i)
    {
      ghost var now := a[..];
      var applied := if left < a[i].amt then left else a[i].amt;
      ApplyStep(s, now, paid, left, i, applied);
      a[i] := a[i].(amt := a[i].amt - applied);
      assert a[..] == now[i := a[i]];
      left := left - applied;
      i := i + 1;
    }
    ApplyDone(s, a[..], paid, left, i);
  }

  // ---- What FIFO leaves ----

  /** Cleared up to `cut`, purchase `cut` perhaps paid in part, the rest untouched. */
  ghost predicate CutAt(s: seq<Outstanding>, paid: int, cut: nat) {
    && cut <= |s|
    && (forall j | 0 <= j < cut :: Rest(s, paid, j) == 0)
    && (cut < |s| ==> 0 < Rest(s, paid, cut))
    && (forall j | cut < j < |s| :: Rest(s, paid, j) == s[j].amt)
  }

  lemma FifoHasOneCut(s: seq<Outstanding>, paid: int) returns (cut: nat)
    requires NoneNegative(s) && paid >= 0
    ensures CutAt(s, paid, cut)
    ensures Sum(s[..cut], Amt) <= paid
    ensures cut < |s| ==> paid < Sum(s[..cut + 1], Amt)
  {
    cut := 0;
    while cut < |s| && Sum(s[..cut + 1], Amt) <= paid
      invariant cut <= |s|
      invariant Sum(s[..cut], Amt) <= paid
      invariant forall j | 0 <= j < cut :: Rest(s, paid, j) == 0
    {
      SumPrefix(s, cut, Amt);
      assert s[cut] in s;
      cut := cut + 1;
    }
    if cut < |s| {
      SumPrefix(s, cut, Amt);
      assert s[cut] in s;
      forall j | cut < j < |s| ensures Rest(s, paid, j) == s[j].amt {
        OlderIsLess(s, cut + 1, j);
        assert s[j] in s;
      }
    }
  }

  lemma {:induction false} RemainingPrefix(s: seq<Outstanding>, paid: int, i: nat)
    requires i <= |s| && NoneNegative(s)
    ensures Sum(Remaining(s, paid)[..i], Amt) == Sum(s[..i], Amt) - Clamp(paid, Sum(s[..i], Amt))
  {
    if i > 0 {
      RemainingPrefix(s, paid, i - 1);
      RemainingAt(s, paid, i - 1);
      SumPrefix(s, i - 1, Amt);
      SumPrefix(Remaining(s, paid), i - 1, Amt);
      OlderIsLess(s, 0, i - 1);
      assert s[i - 1] in s;
    }
  }

  /** Nothing is lost: what remains is the debt less the payments, or nothing. */
  lemma RemainingTotal(s: seq<Outstanding>, paid: int)
    requires NoneNegative(s) && paid >= 0
    ensures Sum(Remaining(s, paid), Amt) == Max(0, Sum(s, Amt) - paid)
  {
    RemainingPrefix(s, paid, |s|);
    OlderIsLess(s, 0, |s|);
    assert s[..|s|] == s && Remaining(s, paid)[..|s|] == Remaining(s, paid);
  }
}
