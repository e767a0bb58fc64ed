/** Loops that stop at the first failure, and their invariants. */
module Folds {
  import opened Wrappers

  function Fold<S, E>(f: (S, nat) -> Result<S, E>, s: S, n: nat): Result<S, E> {
    if n == 0 then Ok(s)
    else
      match Fold(f, s, n - 1)
      case Ok(t) => f(t, n - 1)
      case Err(e) => Err(e)
  }

  /** What every accepted step keeps holds at the end. */
  lemma {:induction false} FoldKeeps<S(!new), E>(f: (S, nat) -> Result<S, E>, s: S, n: nat, keeps: (S, nat) -> bool)
    requires keeps(s, 0)
    requires forall t: S, i: nat | i < n && keeps(t, i) && f(t, i).Ok? :: keeps(f(t, i).value, i + 1)
    requires Fold(f, s, n).Ok?
    ensures keeps(Fold(f, s, n).value, n)
  {
    if n > 0 {
      FoldKeeps(f, s, n - 1, keeps);
    }
  }

  /** If every step is accepted where the invariant holds, the loop runs to its end. */
  lemma {:induction false} FoldRuns<S(!new), E>(f: (S, nat) -> Result<S, E>, s: S, n: nat, keeps: (S, nat) -> bool)
    requires keeps(s, 0)
    requires forall t: S, i: nat | i < n && keeps(t, i) :: f(t, i).Ok? && keeps(f(t, i).value, i + 1)
    ensures Fold(f, s, n).Ok? && keeps(Fold(f, s, n).value, n)
  {
    if n > 0 {
      FoldRuns(f, s, n - 1, keeps);
    }
  }

  lemma {:induction false} FoldFails<S, E>(f: (S, nat) -> Result<S, E>, s: S, i: nat, n: nat)
    requires i <= n && Fold(f, s, i).Err?
    ensures Fold(f, s, n) == Fold(f, s, i)
  {
    if i < n {
      FoldFails(f, s, i, n - 1);
    }
  }

  function Iterate<S>(f: (S, nat) -> S, s: S, n: nat): S {
    if n == 0 then s else f(Iterate(f, s, n - 1), n - 1)
  }

  lemma {:induction false} IterateKeeps<S(!new)>(f: (S, nat) -> S, s: S, n: nat, keeps: (S, nat) -> bool)
    requires keeps(s, 0)
    requires forall t: S, i: nat | i < n && keeps(t, i) :: keeps(f(t, i), i + 1)
    ensures keeps(Iterate(f, s, n), n)
  {
    if n > 0 {
      IterateKeeps(f, s, n - 1, keeps);
    }
  }

  /** A loop in which every step leaves the start as it is. */
  lemma {:induction false} IterateIdle<S>(f: (S, nat) -> S, s: S, n: nat)
    requires forall i: nat | i < n :: f(s, i) == s
    ensures Iterate(f, s, n) == s
  {
    if n > 0 {
      IterateIdle(f, s, n - 1);
    }
  }

  /** The elements whose position satisfies `p`. */
  function Select<T>(p: nat -> bool, s: seq<T>, n: nat): seq<T>
    requires n <= |s|
  {
    if n == 0 then [] else Select(p, s, n - 1) + if p(n - 1) then [s[n - 1]] else []
  }

  lemma {:induction false} SelectNone<T>(p: nat -> bool, s: seq<T>, n: nat)
    requires n <= |s|
    ensures Select(p, s, n) == [] <==> forall i: nat | i < n :: !p(i)
  {
    if n > 0 {
      SelectNone(p, s, n - 1);
    }
  }
}
