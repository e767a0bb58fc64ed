/** Per-account login lockout (`app/core/login_lockout.py`), derived from the audit log alone. The log
    here holds the rows of one claimed email; times are in microseconds and strictly increase along it,
    because every append holds the head lock. */
module LoginLockout {
  import opened Wrappers
  import opened Sums

  const WINDOW := 900000000  // LOCKOUT_WINDOW and LOCKOUT_DURATION: 15 minutes
  const THRESHOLD := 10

  /** `id`, `countedAt` and `inFlight` are not in the table: they say which attempt wrote a row, when it
      counted, and which other attempts had passed the check when a lock was committed. */
  datatype Row =
    | Failed(at: int, id: Id, countedAt: int)
    | Disabled(at: int)  // LOGIN_FAILED for a disabled account, written in the background
    | Success(at: int)
    | Locked(at: int, inFlight: set<Id>)
    | Unlocked(at: int)

  // ---- The two queries ----

  predicate IsReset(r: Row) { r.Success? || r.Locked? || r.Unlocked? }
  predicate IsUnlock(r: Row) { r.Unlocked? }

  /** SELECT max(occurred_at) ... WHERE occurred_at > cutoff. */
  function LastAt(log: seq<Row>, p: Row -> bool, cutoff: int): Option<int> {
    if log == [] then None
    else
      var prev, r := LastAt(log[..|log| - 1], p, cutoff), log[|log| - 1];
      if p(r) && r.at > cutoff && (prev == None || r.at > prev.value) then Some(r.at) else prev
  }

  predicate After(at: int, last: Option<int>) { last == None || at > last.value }

  /** is_locked, at time `c`. */
  predicate IsLocked(log: seq<Row>, c: int) {
    var lastUnlock := LastAt(log, IsUnlock, c - WINDOW);
    exists i | 0 <= i < |log| :: log[i].Locked? && log[i].at > c - WINDOW && After(log[i].at, lastUnlock)
  }

  function Counts(n: int, last: Option<int>): Row -> int {
    (r: Row) => if (r.Failed? || r.Disabled?) && r.at > n - WINDOW && After(r.at, last) then 1 else 0
  }

  /** `_consecutive_failures`, at time `n`. */
  function ConsecutiveFailures(log: seq<Row>, n: int): int {
    Sum(log, Counts(n, LastAt(log, IsReset, n - WINDOW)))
  }

  lemma {:induction false} LastAtIsLast(log: seq<Row>, p: Row -> bool, cutoff: int)
    ensures var m := LastAt(log, p, cutoff);
      && (m == None <==> forall i | 0 <= i < |log| :: !(p(log[i]) && log[i].at > cutoff))
      && (m.Some? ==> (exists i :: 0 <= i < |log| && p(log[i]) && log[i].at == m.value) && m.value > cutoff
                      && forall i | 0 <= i < |log| && p(log[i]) :: log[i].at <= m.value)
  {
    if log != [] {
      var n := |log| - 1;
      LastAtIsLast(log[..n], p, cutoff);
      var m, prev := LastAt(log, p, cutoff), LastAt(log[..n], p, cutoff);
      if m.Some? && m == prev {
        var i :| 0 <= i < n && p(log[..n][i]) && log[..n][i].at == m.value;
        assert log[i] == log[..n][i];
      }
      forall i | 0 <= i < n ensures log[i] == log[..n][i] {
      }
    }
  }

  ghost predicate Increasing(log: seq<Row>) { forall i, j | 0 <= i < j < |log| :: log[i].at < log[j].at }

  /** An account is locked exactly while a lock row is less than the duration old and not unlocked since. */
  lemma LockedExactly(log: seq<Row>, c: int)
    requires Increasing(log)
    ensures IsLocked(log, c) <==>
      exists i | 0 <= i < |log| ::
        log[i].Locked? && c < log[i].at + WINDOW && forall j | i < j < |log| :: !log[j].Unlocked?
  {
    var m := LastAt(log, IsUnlock, c - WINDOW);
    LastAtIsLast(log, IsUnlock, c - WINDOW);
    forall i | 0 <= i < |log| && log[i].Locked? && log[i].at > c - WINDOW
      ensures After(log[i].at, m) <==> forall j | i < j < |log| :: !log[j].Unlocked?
    {
      if m.Some? {
        var u :| 0 <= u < |log| && IsUnlock(log[u]) && log[u].at == m.value;
        assert log[u].at > log[i].at <==> u > i;
      }
    }
  }

  // ---- Attempts ----

  /** `inflight` maps each attempt that passed the check to when it did; `writer` is the attempt holding
      the head lock, with the time its row is stamped; `used` are the attempts ever started. */
  datatype State = State(log: seq<Row>, inflight: map<Id, int>, writer: Option<(Id, int)>, used: set<Id>)

  const START := State([], map[], None, {})

  datatype Step =
    | Check(id: Id, c: int)
    | StampFailure(id: Id, f: int)
    | CommitFailure(n: int, l: int)
    | Leave(id: Id)  // right password, disabled account, or the recorder failed: no row of its own
    | Background(row: Row)
    | Unlock(t: int)

  /** The clock has passed everything in the log. */
  predicate Later(log: seq<Row>, t: int) {
    forall i | 0 <= i < |log| :: log[i].at < t && (log[i].Failed? ==> log[i].countedAt < t)
  }

  /** The rows record_failed_login appends. */
  function WithFailure(log: seq<Row>, f: int, id: Id, n: int, l: int, others: set<Id>): seq<Row> {
    var counted := log + [Failed(f, id, n)];
    if ConsecutiveFailures(counted, n) >= THRESHOLD then counted + [Locked(l, others)] else counted
  }

  /** A check reads what is committed, at any moment and with a clock it may have read earlier; a row is stamped
      only while the head lock is held. */
  predicate Enabled(s: State, e: Step, cap: nat) {
    match e
    case Check(id, c) => id !in s.used && (IsLocked(s.log, c) || |s.inflight| < cap)
    case StampFailure(id, f) => id in s.inflight && s.writer == None && s.inflight[id] < f && Later(s.log, f)
    case CommitFailure(n, l) => s.writer.Some? && s.writer.value.1 < n < l
    case Leave(id) => id in s.inflight
    case Background(row) => s.writer == None && (row.Success? || row.Disabled?) && Later(s.log, row.at)
    case Unlock(t) => s.writer == None && Later(s.log, t)
  }

  function Next(s: State, e: Step): State {
    match e
    case Check(id, c) =>
      if IsLocked(s.log, c) then s.(used := s.used + {id})  // refused: nothing is written
      else s.(used := s.used + {id}, inflight := s.inflight[id := c])
    case StampFailure(id, f) => s.(writer := Some((id, f)))
    case CommitFailure(n, l) =>
      if s.writer == None then s
      else
        var (id, f) := s.writer.value;
        s.(writer := None, inflight := s.inflight - {id},
           log := WithFailure(s.log, f, id, n, l, s.inflight.Keys - {id}))
    case Leave(id) =>
      s.(inflight := s.inflight - {id}, writer := if s.writer.Some? && s.writer.value.0 == id then None else s.writer)
    case Background(row) => s.(log := s.log + [row])
    case Unlock(t) => s.(log := s.log + [Unlocked(t)])
  }

  function AfterSteps(steps: seq<Step>): State {
    if steps == [] then START else Next(AfterSteps(steps[..|steps| - 1]), steps[|steps| - 1])
  }
  ghost predicate Run(steps: seq<Step>, cap: nat) {
    forall i | 0 <= i < |steps| :: Enabled(AfterSteps(steps[..i]), steps[i], cap)
  }

  // ---- What every step keeps ----

  /** No unlock between two rows. */
  ghost predicate NoUnlock(log: seq<Row>, i: int, j: int) {
    forall k | 0 <= i < k < j && k < |log| :: !log[k].Unlocked?
  }

  /** An attempt that passed the check under lock `i` was in flight when the lock was committed, or
      passed after the lock ran out, or after an unlock. */
  ghost predicate Excused(log: seq<Row>, id: Id, c: int, i: int)
    requires 0 <= i < |log| && log[i].Locked?
  {
    id in log[i].inFlight || c >= log[i].at + WINDOW || exists k :: i < k < |log| && log[k].Unlocked?
  }

  /** The same, for a failure row already in the log. */
  ghost predicate LateFailures(log: seq<Row>) {
    forall i, j | 0 <= i < j < |log| && log[i].Locked? && log[j].Failed? && log[j].at <= log[i].at + WINDOW
        && NoUnlock(log, i, j) :: log[j].id in log[i].inFlight
  }

  /** A failure was counted before the next row was written, and locked if it was one too many. */
  ghost predicate CountedRow(log: seq<Row>, j: int)
    requires 0 <= j < |log|
  {
    log[j].Failed? ==>
      && log[j].at < log[j].countedAt
      && (j + 1 < |log| ==> log[j].countedAt < log[j + 1].at)
      && ((j + 1 < |log| && log[j + 1].Locked?) || ConsecutiveFailures(log[..j + 1], log[j].countedAt) < THRESHOLD)
  }
  ghost predicate Counted(log: seq<Row>) { forall j | 0 <= j < |log| :: CountedRow(log, j) }

  ghost predicate LocksFollowFailures(log: seq<Row>) {
    forall j | 0 <= j < |log| && log[j].Locked? :: j > 0 && log[j - 1].Failed?
  }

  ghost predicate OwnRows(log: seq<Row>) {
    forall i, j | 0 <= i < j < |log| && log[i].Failed? && log[j].Failed? :: log[i].id != log[j].id
  }

  ghost predicate FewInFlight(log: seq<Row>, cap: nat) {
    forall i | 0 <= i < |log| && log[i].Locked? :: |log[i].inFlight| < cap
  }

  ghost predicate GoodLog(log: seq<Row>, cap: nat) {
    && Increasing(log) && LateFailures(log) && Counted(log) && LocksFollowFailures(log) && OwnRows(log)
    && FewInFlight(log, cap)
  }

  ghost predicate GoodAttempts(s: State) {
    && s.inflight.Keys <= s.used
    && (forall i | 0 <= i < |s.log| && s.log[i].Failed? :: s.log[i].id in s.used && s.log[i].id !in s.inflight)
    && (s.writer.Some? ==> s.writer.value.0 in s.inflight && s.inflight[s.writer.value.0] < s.writer.value.1
                           && Later(s.log, s.writer.value.1))
    && (forall id, i | id in s.inflight && 0 <= i < |s.log| && s.log[i].Locked? ::
          Excused(s.log, id, s.inflight[id], i))
  }

  ghost predicate Inv(s: State, cap: nat) {
    GoodLog(s.log, cap) && GoodAttempts(s) && |s.inflight| <= cap
  }

  // ---- Each step ----

  /** Passing the check excuses an attempt from every lock so far. */
  lemma PassedIsExcused(log: seq<Row>, id: Id, c: int, i: int)
    requires Increasing(log) && 0 <= i < |log| && log[i].Locked? && !IsLocked(log, c)
    ensures Excused(log, id, c, i)
  {
    LockedExactly(log, c);
  }

  lemma StillExcused(log: seq<Row>, more: seq<Row>, id: Id, c: int, i: int)
    requires 0 <= i < |log| && log[i].Locked? && Excused(log, id, c, i)
    ensures Excused(log + more, id, c, i)
  {
    if k :| i < k < |log| && log[k].Unlocked? {
      assert (log + more)[k].Unlocked?;
    }
  }

  lemma CountedRowStays(log: seq<Row>, r: Row, j: int)
    requires 0 <= j < |log| && CountedRow(log, j) && Later(log, r.at)
    ensures CountedRow(log + [r], j)
  {
    assert (log + [r])[..j + 1] == log[..j + 1];
  }

  lemma NoUnlockBefore(log: seq<Row>, r: Row, i: int, j: int)
    requires 0 <= i < j <= |log| && NoUnlock(log + [r], i, j)
    ensures NoUnlock(log, i, j)
  {
    forall k | i < k < j && k < |log| ensures !log[k].Unlocked? {
      assert (log + [r])[k] == log[k];
    }
  }

  lemma LateFailuresStay(log: seq<Row>, r: Row)
    requires LateFailures(log) && !r.Failed?
    ensures LateFailures(log + [r])
  {
    var after := log + [r];
    forall i, j | 0 <= i < j < |after| && after[i].Locked? && after[j].Failed? && after[j].at <= after[i].at + WINDOW
        && NoUnlock(after, i, j) ensures after[j].id in after[i].inFlight {
      NoUnlockBefore(log, r, i, j);
    }
  }

  lemma FailureIsLate(log: seq<Row>, f: int, id: Id, c: int, n: int)
    requires LateFailures(log) && c < f
    requires forall i | 0 <= i < |log| && log[i].Locked? :: Excused(log, id, c, i)
    ensures LateFailures(log + [Failed(f, id, n)])
  {
    var r := Failed(f, id, n);
    var after := log + [r];
    forall i, j | 0 <= i < j < |after| && after[i].Locked? && after[j].Failed? && after[j].at <= after[i].at + WINDOW
        && NoUnlock(after, i, j) ensures after[j].id in after[i].inFlight {
      NoUnlockBefore(log, r, i, j);
      if j == |log| {
        assert Excused(log, id, c, i);
      }
    }
  }

  /** A row that is neither a failure nor a lock. */
  lemma OtherRowKeepsLog(log: seq<Row>, r: Row, cap: nat)
    requires GoodLog(log, cap) && !r.Failed? && !r.Locked? && Later(log, r.at)
    ensures GoodLog(log + [r], cap)
  {
    LateFailuresStay(log, r);
    forall j | 0 <= j < |log| { CountedRowStays(log, r, j); }
  }

  ghost predicate NewFailure(log: seq<Row>, f: int, id: Id, c: int, n: int) {
    && Later(log, f) && c < f < n
    && (forall i | 0 <= i < |log| && log[i].Failed? :: log[i].id != id)
    && (forall i | 0 <= i < |log| && log[i].Locked? :: Excused(log, id, c, i))
  }

  lemma FailureKeepsLog(log: seq<Row>, f: int, id: Id, c: int, n: int, cap: nat)
    requires GoodLog(log, cap) && NewFailure(log, f, id, c, n)
    requires ConsecutiveFailures(log + [Failed(f, id, n)], n) < THRESHOLD
    ensures GoodLog(log + [Failed(f, id, n)], cap)
  {
    var r := Failed(f, id, n);
    FailureIsLate(log, f, id, c, n);
    forall j | 0 <= j < |log| { CountedRowStays(log, r, j); }
    assert (log + [r])[..|log| + 1] == log + [r];
  }

  lemma LockedFailureKeepsLog(log: seq<Row>, f: int, id: Id, c: int, n: int, l: int, others: set<Id>, cap: nat)
    requires GoodLog(log, cap) && NewFailure(log, f, id, c, n) && n < l && |others| < cap
    ensures GoodLog(log + [Failed(f, id, n)] + [Locked(l, others)], cap)
  {
    var r, lock := Failed(f, id, n), Locked(l, others);
    var mid := log + [r];
    FailureIsLate(log, f, id, c, n);
    LateFailuresStay(mid, lock);
    forall j | 0 <= j < |log| ensures CountedRow(mid + [lock], j) {
      CountedRowStays(log, r, j);
      CountedRowStays(mid, lock, j);
    }
    assert CountedRow(mid + [lock], |log|);
  }

  lemma OneFewer(s: set<Id>, id: Id)
    requires id in s
    ensures |s - {id}| == |s| - 1
  {
  }

  lemma CheckKeepsInv(s: State, id: Id, c: int, cap: nat)
    requires Inv(s, cap) && Enabled(s, Check(id, c), cap)
    ensures Inv(Next(s, Check(id, c)), cap)
  {
    if !IsLocked(s.log, c) {
      forall i | 0 <= i < |s.log| && s.log[i].Locked? { PassedIsExcused(s.log, id, c, i); }
      assert s.inflight[id := c].Keys == s.inflight.Keys + {id};
    }
  }

  lemma OtherRowKeepsInv(s: State, r: Row, cap: nat)
    requires Inv(s, cap) && s.writer == None && !r.Failed? && !r.Locked? && Later(s.log, r.at)
    ensures Inv(s.(log := s.log + [r]), cap)
  {
    OtherRowKeepsLog(s.log, r, cap);
    forall id, i | id in s.inflight && 0 <= i < |s.log| && s.log[i].Locked?
      ensures Excused(s.log + [r], id, s.inflight[id], i)
    {
      StillExcused(s.log, [r], id, s.inflight[id], i);
    }
  }

  lemma CommitKeepsLog(s: State, n: int, l: int, cap: nat)
    requires Inv(s, cap) && s.writer.Some? && s.writer.value.1 < n < l
    ensures var (id, f) := s.writer.value;
      GoodLog(WithFailure(s.log, f, id, n, l, s.inflight.Keys - {id}), cap)
  {
    var (id, f) := s.writer.value;
    assert NewFailure(s.log, f, id, s.inflight[id], n);
    OneFewer(s.inflight.Keys, id);
    if ConsecutiveFailures(s.log + [Failed(f, id, n)], n) >= THRESHOLD {
      LockedFailureKeepsLog(s.log, f, id, s.inflight[id], n, l, s.inflight.Keys - {id}, cap);
    } else {
      FailureKeepsLog(s.log, f, id, s.inflight[id], n, cap);
    }
  }

  lemma CommitKeepsAttempts(s: State, n: int, l: int, cap: nat)
    requires Inv(s, cap) && s.writer.Some? && s.writer.value.1 < n < l
    ensures GoodAttempts(Next(s, CommitFailure(n, l)))
  {
    var (id, f) := s.writer.value;
    var after := Next(s, CommitFailure(n, l));
    var more := after.log[|s.log|..];
    assert after.log == s.log + more;
    forall other, i | other in after.inflight && 0 <= i < |after.log| && after.log[i].Locked?
      ensures Excused(after.log, other, after.inflight[other], i)
    {
      if i < |s.log| {
        StillExcused(s.log, more, other, s.inflight[other], i);
      }
    }
  }

  lemma StepKeepsInv(s: State, e: Step, cap: nat)
    requires Inv(s, cap) && Enabled(s, e, cap)
    ensures Inv(Next(s, e), cap)
  {
    match e
    case Check(id, c) => CheckKeepsInv(s, id, c, cap);
    case StampFailure(id, f) =>
    case CommitFailure(n, l) =>
      CommitKeepsLog(s, n, l, cap);
      CommitKeepsAttempts(s, n, l, cap);
      OneFewer(s.inflight.Keys, s.writer.value.0);
      assert (s.inflight - {s.writer.value.0}).Keys == s.inflight.Keys - {s.writer.value.0};
    case Leave(id) =>
      OneFewer(s.inflight.Keys, id);
      assert (s.inflight - {id}).Keys == s.inflight.Keys - {id};
    case Background(row) => OtherRowKeepsInv(s, row, cap);
    case Unlock(t) => OtherRowKeepsInv(s, Unlocked(t), cap);
  }

  lemma {:induction false} RunKeepsInv(steps: seq<Step>, cap: nat)
    requires Run(steps, cap)
    ensures Inv(AfterSteps(steps), cap)
  {
    if steps != [] {
      var n := |steps| - 1;
      assert forall i | 0 <= i < n :: steps[..n][..i] == steps[..i];
      RunKeepsInv(steps[..n], cap);
      StepKeepsInv(AfterSteps(steps[..n]), steps[n], cap);
    }
  }

  // ---- How many guesses a window holds ----

  predicate Within(r: Row, lo: int, hi: int) { r.Failed? && lo <= r.at <= hi }
  function Guess(lo: int, hi: int): Row -> int { (r: Row) => if Within(r, lo, hi) then 1 else 0 }

  /** The window is free of successes and unlocks. */
  ghost predicate Quiet(log: seq<Row>, lo: int, hi: int) {
    forall r | r in log && lo <= r.at <= hi :: !r.Success? && !r.Unlocked?
  }

  lemma {:induction false} NthGuess(log: seq<Row>, lo: int, hi: int, k: int) returns (j: nat)
    requires 1 <= k <= Sum(log, Guess(lo, hi))
    ensures j < |log| && Within(log[j], lo, hi) && Sum(log[..j + 1], Guess(lo, hi)) == k
  {
    var n := |log| - 1;
    if Sum(log[..n], Guess(lo, hi)) >= k {
      j := NthGuess(log[..n], lo, hi, k);
      assert log[..n][..j + 1] == log[..j + 1];
    } else {
      j := n;
      assert log[..n + 1] == log;
    }
  }

  lemma {:induction false} FewerInPrefix(log: seq<Row>, lo: int, hi: int, i: nat, j: nat)
    requires i <= j <= |log|
    ensures Sum(log[..i], Guess(lo, hi)) <= Sum(log[..j], Guess(lo, hi))
    decreases j - i
  {
    if i < j {
      FewerInPrefix(log, lo, hi, i, j - 1);
      SumPrefix(log, j - 1, Guess(lo, hi));
    }
  }

  /** If the tenth guess of a quiet window was counted before the window ended, a lock follows it or came
      before it, inside the window. */
  lemma TenthGuessLocks(log: seq<Row>, lo: int, j: nat) returns (i: nat)
    requires Increasing(log) && Counted(log) && Quiet(log, lo, lo + WINDOW)
    requires j < |log| && Within(log[j], lo, lo + WINDOW) && log[j].countedAt < lo + WINDOW
    requires Sum(log[..j + 1], Guess(lo, lo + WINDOW)) >= THRESHOLD
    ensures i <= j + 1 && i < |log| && log[i].Locked? && log[i].at >= lo
  {
    assert CountedRow(log, j);
    if j + 1 < |log| && log[j + 1].Locked? {
      i := j + 1;
    } else {
      var n, prefix := log[j].countedAt, log[..j + 1];
      i := ResetIsLock(log, lo, j, n);
    }
  }

  lemma ResetIsLock(log: seq<Row>, lo: int, j: nat, n: int) returns (i: nat)
    requires Increasing(log) && Quiet(log, lo, lo + WINDOW)
    requires j < |log| && log[j].at <= lo + WINDOW && n < lo + WINDOW
    requires ConsecutiveFailures(log[..j + 1], n) < THRESHOLD <= Sum(log[..j + 1], Guess(lo, lo + WINDOW))
    ensures i <= j && log[i].Locked? && log[i].at >= lo
  {
    var prefix := log[..j + 1];
    var last := LastAt(prefix, IsReset, n - WINDOW);
    LastAtIsLast(prefix, IsReset, n - WINDOW);
    i := 0;
    if last == None || last.value < lo {
      SumMonotone(prefix, Guess(lo, lo + WINDOW), Counts(n, last));
      assert false;
    } else {
      var k :| 0 <= k < |prefix| && IsReset(prefix[k]) && prefix[k].at == last.value;
      assert prefix[k] == log[k] && log[k] in log;
      assert log[k].at <= log[j].at;
      i := k;
    }
  }

  /** The attempts that wrote the guesses after row `i`. */
  ghost function Guessers(log: seq<Row>, i: int, m: nat, lo: int, hi: int): set<Id>
    requires m <= |log|
  {
    set k | 0 <= i < k < m && Within(log[k], lo, hi) :: log[k].id
  }

  lemma {:induction false} GuessersCount(log: seq<Row>, i: nat, m: nat, lo: int, hi: int)
    requires i < m <= |log| && OwnRows(log)
    ensures Sum(log[..m], Guess(lo, hi)) == Sum(log[..i + 1], Guess(lo, hi)) + |Guessers(log, i, m, lo, hi)|
    decreases m
  {
    if m == i + 1 {
      assert Guessers(log, i, m, lo, hi) == {};
    } else {
      var before := Guessers(log, i, m - 1, lo, hi);
      GuessersCount(log, i, m - 1, lo, hi);
      SumPrefix(log, m - 1, Guess(lo, hi));
      if Within(log[m - 1], lo, hi) {
        assert Guessers(log, i, m, lo, hi) == before + {log[m - 1].id};
      } else {
        assert Guessers(log, i, m, lo, hi) == before;
      }
    }
  }

  /** Any 15-minute window free of a success or an unlock holds at most ten wrong-password rows, plus one
      for each further attempt that may be in flight. */
  lemma WindowBound(log: seq<Row>, lo: int, cap: nat)
    requires GoodLog(log, cap) && cap >= 1 && Quiet(log, lo, lo + WINDOW)
    ensures Sum(log, Guess(lo, lo + WINDOW)) <= THRESHOLD + cap - 1
  {
    var hi := lo + WINDOW;
    if Sum(log, Guess(lo, hi)) > THRESHOLD {
      var j := NthGuess(log, lo, hi, THRESHOLD);
      var j' := NthGuess(log, lo, hi, THRESHOLD + 1);
      if j' <= j {
        FewerInPrefix(log, lo, hi, j' + 1, j + 1);
      }
      assert CountedRow(log, j);
      assert log[j + 1].at <= log[j'].at;
      var i := TenthGuessLocks(log, lo, j);
      AfterTheLock(log, lo, i, cap);
      FewerInPrefix(log, lo, hi, i, j + 1);
      SumPrefix(log, i, Guess(lo, hi));
    }
  }

  /** After a lock in a quiet window, only attempts in flight at the lock write a guess. */
  lemma AfterTheLock(log: seq<Row>, lo: int, i: nat, cap: nat)
    requires GoodLog(log, cap) && Quiet(log, lo, lo + WINDOW)
    requires i < |log| && log[i].Locked? && log[i].at >= lo
    ensures Sum(log, Guess(lo, lo + WINDOW)) <= Sum(log[..i + 1], Guess(lo, lo + WINDOW)) + cap - 1
  {
    var hi := lo + WINDOW;
    var guessers := Guessers(log, i, |log|, lo, hi);
    GuessersCount(log, i, |log|, lo, hi);
    assert log[..|log|] == log;
    forall k | i < k < |log| && Within(log[k], lo, hi) ensures log[k].id in log[i].inFlight {
      forall u | i < u < k ensures !log[u].Unlocked? {
        assert log[u] in log && lo <= log[u].at <= hi;
      }
      assert NoUnlock(log, i, k);
    }
    Smaller(guessers, log[i].inFlight);
  }

  /** With at most one attempt in flight: ten. */
  lemma TenGuesses(steps: seq<Step>, lo: int)
    requires Run(steps, 1) && Quiet(AfterSteps(steps).log, lo, lo + WINDOW)
    ensures Sum(AfterSteps(steps).log, Guess(lo, lo + WINDOW)) <= THRESHOLD
  {
    RunKeepsInv(steps, 1);
    WindowBound(AfterSteps(steps).log, lo, 1);
  }

  /** A lock refuses every attempt until it is 15 minutes old, unless unlocked; a refusal writes nothing,
      so it cannot extend the lock. */
  lemma LockHolds(steps: seq<Step>, cap: nat, i: nat, id: Id, c: int)
    requires Run(steps, cap)
    requires var log := AfterSteps(steps).log;
      i < |log| && log[i].Locked? && c < log[i].at + WINDOW && forall j | i < j < |log| :: !log[j].Unlocked?
    ensures var s := AfterSteps(steps); Next(s, Check(id, c)) == s.(used := s.used + {id})
  {
    RunKeepsInv(steps, cap);
    LockedExactly(AfterSteps(steps).log, c);
  }

  /** It ends then, or at the unlock: an attempt made later passes unless there is another lock. */
  lemma LockEnds(steps: seq<Step>, cap: nat, id: Id, c: int)
    requires Run(steps, cap)
    requires var log := AfterSteps(steps).log;
      forall i | 0 <= i < |log| && log[i].Locked? ::
        c >= log[i].at + WINDOW || exists j :: i < j < |log| && log[j].Unlocked?
    ensures id in Next(AfterSteps(steps), Check(id, c)).inflight
  {
    RunKeepsInv(steps, cap);
    LockedExactly(AfterSteps(steps).log, c);
  }

  /** With at most one attempt in flight no lock is renewed while it holds. */
  lemma LocksDoNotOverlap(steps: seq<Step>, i: nat, j: nat)
    requires Run(steps, 1)
    requires var log := AfterSteps(steps).log;
      i < j < |log| && log[i].Locked? && log[j].Locked? && NoUnlock(log, i, j)
    ensures AfterSteps(steps).log[j].at > AfterSteps(steps).log[i].at + WINDOW
  {
    var log := AfterSteps(steps).log;
    RunKeepsInv(steps, 1);
    assert log[j - 1].Failed? && log[j - 1].at < log[j].at;
    assert log[i].inFlight == {};
    assert NoUnlock(log, i, j - 1);
  }

  // ---- The handlers, on the log ----

  class AuthLog {
    var rows: seq<Row>

    constructor ()
      ensures rows == []
    {
      rows := [];
    }

    /** The guard of the login handler. */
    method Refuses(c: int) returns (locked: bool)
      requires Increasing(rows)
      ensures locked <==> exists i | 0 <= i < |rows| ::
        rows[i].Locked? && c < rows[i].at + WINDOW && forall j | i < j < |rows| :: !rows[j].Unlocked?
    {
      LockedExactly(rows, c);
      locked := IsLocked(rows, c);
    }

    method RecordFailedLogin(f: int, id: Id, n: int, l: int, others: set<Id>)
      modifies this
      ensures rows == WithFailure(old(rows), f, id, n, l, others)
    {
      rows := rows + [Failed(f, id, n)];
      var failures := ConsecutiveFailures(rows, n);
      if failures >= THRESHOLD {
        rows := rows + [Locked(l, others)];
      }
    }

    method RecordUnlock(t: int)
      modifies this
      ensures rows == old(rows) + [Unlocked(t)]
    {
      rows := rows + [Unlocked(t)];
    }
  }
}
