/** Any number of concurrent transactions posting and reversing: each reads and checks before it
    locks, takes the ledger head and then the GL head, re-checks, appends, and commits or aborts.
    Reads see what is committed plus the transaction's own writes; a commit overwrites the head row
    with whatever the transaction last wrote to it. Only the locks keep the chain from forking. */
module Interleaving {
  import opened Wrappers
  import opened Journal
  import opened AuditChain
  import opened GLChain

  type TxnId = nat

  datatype LedgerEvent = LedgerEvent(event: string, at: int)
  function EventAt(r: Row<LedgerEvent>): int { r.fields.at }

  datatype Op =
    | Record(event: string)
    | Post(draft: Draft, mapper: bool)
    | Reverse(originalId: string, date: Date, memo: string, actor: string)

  /** A running transaction: what it still has to do, and its uncommitted writes. */
  datatype Txn = Txn(ops: seq<Op>, checked: Option<Draft>,
                     rows: seq<Row<LedgerEvent>>, ledgerHead: Digest<LedgerEvent>, ledgerCount: nat,
                     entries: seq<Entry>, head: Digest<Content>, count: nat, daySeq: map<Date, nat>)

  datatype DB = DB(gl: Chain,
                   rows: seq<Row<LedgerEvent>>, ledgerHead: Digest<LedgerEvent>, ledgerCount: nat,
                   ledgerOwner: Option<TxnId>, glOwner: Option<TxnId>,
                   running: map<TxnId, Txn>, clock: int,
                   denominations: map<AccountId, Denomination>)

  function Started(ops: seq<Op>): Txn {
    Txn(ops, None, [], Genesis, 0, [], Genesis, 0, map[])
  }

  // ---- What a transaction sees ----

  function SeenEntries(s: DB, t: Txn): seq<Entry> { s.gl.entries + t.entries }
  function SeenChain(s: DB, t: Txn): Chain {
    Chain(SeenEntries(s, t), t.head, t.count, s.gl.daySeq + t.daySeq)
  }

  predicate Postable(s: DB, lines: seq<Line>) {
    && (forall l | l in lines :: l.account in s.denominations)
    && ValidateBalanced(lines, s.denominations) == []
  }

  /** The checks made before any lock. `None`: the request fails. `Some(None)`: nothing to do. */
  function EarlyCheck(s: DB, t: Txn, op: Op): Option<Option<Draft>>
    requires !op.Record?
  {
    match op
    case Post(d, mapper) =>
      if mapper && d.sourceId.Some? && HasLive(SeenEntries(s, t), d.sourceType, d.sourceId.value) then Some(None)
      else if Postable(s, d.lines) then Some(Some(d)) else None
    case Reverse(id, date, memo, actor) =>
      var entries := SeenEntries(s, t);
      if !HasId(entries, id) then None
      else
        var i := IndexOf(entries, id);
        var lines := SwapAll(entries[i].fields.draft.lines);
        if IsReversal(entries[i]) || entries[i].fields.draft.sourceType == YEAR_CLOSE || HasReversal(entries, id)
           || !Postable(s, lines)
        then None
        else Some(Some(Draft(date, memo, REVERSAL, Some(id), Some(id), actor, lines)))
  }

  // ---- Actions ----

  datatype Action =
    | Begin(t: TxnId, ops: seq<Op>)
    | Check(t: TxnId)
    | LockLedger(t: TxnId)
    | LockGL(t: TxnId)
    | RecordEvent(t: TxnId, id: string, now: int)
    | Write(t: TxnId, id: string, eventId: string, now: int, later: int)
    | Commit(t: TxnId)
    | Abort(t: TxnId)

  predicate Holds(owner: Option<TxnId>, t: TxnId) { owner == Some(t) }

  /** The lock the transaction needs next, if any: the ledger head always comes first. */
  datatype Lock = LedgerHead | GLHead
  function Wants(s: DB, t: TxnId): Option<Lock>
    requires t in s.running
  {
    var x := s.running[t];
    if x.ops == [] || (!x.ops[0].Record? && x.checked == None) then None
    else if !Holds(s.ledgerOwner, t) then Some(LedgerHead)
    else if !x.ops[0].Record? && !Holds(s.glOwner, t) then Some(GLHead)
    else None
  }

  predicate Enabled(s: DB, a: Action) {
    match a
    case Begin(t, ops) => t !in s.running && forall op | op in ops && op.Post? :: op.draft.reverses == None
    case Check(t) =>
      t in s.running && s.running[t].ops != [] && !s.running[t].ops[0].Record? && s.running[t].checked == None
    case LockLedger(t) => t in s.running && Wants(s, t) == Some(LedgerHead) && s.ledgerOwner == None
    case LockGL(t) => t in s.running && Wants(s, t) == Some(GLHead) && s.glOwner == None
    case RecordEvent(t, id, now) =>
      t in s.running && s.running[t].ops != [] && s.running[t].ops[0].Record? && Wants(s, t) == None && s.clock < now
    case Write(t, id, eventId, now, later) =>
      && t in s.running && s.running[t].ops != [] && !s.running[t].ops[0].Record? && s.running[t].checked.Some?
      && Wants(s, t) == None && s.clock < now < later && !HasId(SeenEntries(s, s.running[t]), id)
    case Commit(t) => t in s.running && s.running[t].ops == []
    case Abort(t) => t in s.running
  }

  function Released(owner: Option<TxnId>, t: TxnId): Option<TxnId> { if owner == Some(t) then None else owner }

  function Aborted(s: DB, t: TxnId): DB {
    s.(running := s.running - {t}, ledgerOwner := Released(s.ledgerOwner, t), glOwner := Released(s.glOwner, t))
  }

  function WithEvent(x: Txn, id: string, event: string, at: int): Txn {
    var row := NextRow(x.ledgerHead, id, LedgerEvent(event, at));
    x.(rows := x.rows + [row], ledgerHead := row.entryHash, ledgerCount := x.ledgerCount + 1)
  }

  function WithEntry(s: DB, x: Txn, id: string, now: int): Txn
    requires x.checked.Some?
  {
    var d := x.checked.value;
    var e := NewEntry(x.head, s.gl.daySeq + x.daySeq, id, d, now);
    x.(entries := x.entries + [e], head := e.entryHash, count := x.count + 1,
       daySeq := x.daySeq[d.date := e.fields.no.seqNo])
  }

  function Next(s: DB, a: Action): DB
    requires Enabled(s, a)
  {
    match a
    case Begin(t, ops) => s.(running := s.running[t := Started(ops)])
    case Check(t) =>
      var x := s.running[t];
      (match EarlyCheck(s, x, x.ops[0])
       case None => Aborted(s, t)
       case Some(None) => s.(running := s.running[t := x.(ops := x.ops[1..])])
       case Some(Some(d)) => s.(running := s.running[t := x.(checked := Some(d))]))
    case LockLedger(t) =>
      s.(ledgerOwner := Some(t),
         running := s.running[t := s.running[t].(ledgerHead := s.ledgerHead, ledgerCount := s.ledgerCount)])
    case LockGL(t) =>
      s.(glOwner := Some(t),
         running := s.running[t := s.running[t].(head := s.gl.head, count := s.gl.count)])
    case RecordEvent(t, id, now) =>
      var x := s.running[t];
      s.(running := s.running[t := WithEvent(x, id, x.ops[0].event, now).(ops := x.ops[1..])], clock := now)
    case Write(t, id, eventId, now, later) =>
      var x := s.running[t];
      if IsDuplicate(SeenEntries(s, x), x.checked.value) then Aborted(s, t)
      else
        var y := WithEvent(WithEntry(s, x, id, now), eventId, "GL_ENTRY_POSTED", later);
        s.(running := s.running[t := y.(ops := x.ops[1..], checked := None)], clock := later)
    case Commit(t) =>
      var x := s.running[t];
      var gl := if Holds(s.glOwner, t)
                then Chain(s.gl.entries + x.entries, x.head, x.count, s.gl.daySeq + x.daySeq)
                else s.gl.(entries := s.gl.entries + x.entries, daySeq := s.gl.daySeq + x.daySeq);
      var held := Holds(s.ledgerOwner, t);
      Aborted(s, t).(gl := gl, rows := s.rows + x.rows,
                     ledgerHead := if held then x.ledgerHead else s.ledgerHead,
                     ledgerCount := if held then x.ledgerCount else s.ledgerCount)
    case Abort(t) => Aborted(s, t)
  }

  function Initial(denominations: map<AccountId, Denomination>, clock: int): DB {
    DB(Chain([], Genesis, 0, map[]), [], Genesis, 0, None, None, map[], clock, denominations)
  }

  ghost predicate Run(states: seq<DB>) {
    && |states| > 0
    && states[0] == Initial(states[0].denominations, states[0].clock)
    && forall i | 0 <= i < |states| - 1 :: StepTo(states[i], states[i + 1])
  }
  ghost predicate StepTo(s: DB, s': DB) { exists a :: Enabled(s, a) && s' == Next(s, a) }

  // ---- The invariant ----

  ghost predicate GoodJournal(c: Chain, clock: int) {
    JournalSafe(c) && ClosesStand(c.entries) && AllBalanced(c.entries) && OnlyPastEntries(c.entries, clock + 1)
  }

  ghost predicate GoodLedger(rows: seq<Row<LedgerEvent>>, head: Digest<LedgerEvent>, count: nat, clock: int) {
    Verified(rows, head, count) && StrictlyLater(rows, EventAt) && forall r | r in rows :: EventAt(r) <= clock
  }

  /** The early check still stands when the lock is finally held. */
  ghost predicate GoodDraft(entries: seq<Entry>, d: Draft) {
    && EntryBalanced(d.lines)
    && (d.reverses.Some? ==> exists i :: ReversalOfAt(entries, i, d))
  }

  ghost predicate GoodTxn(s: DB, t: TxnId)
    requires t in s.running
  {
    var x := s.running[t];
    && (forall op | op in x.ops && op.Post? :: op.draft.reverses == None)
    && (if Holds(s.ledgerOwner, t)
        then GoodLedger(s.rows + x.rows, x.ledgerHead, x.ledgerCount, s.clock) else x.rows == [])
    && (if Holds(s.glOwner, t)
        then Holds(s.ledgerOwner, t) && GoodJournal(SeenChain(s, x), s.clock)
        else x.entries == [] && x.daySeq == map[])
    && (x.checked.Some? ==> GoodDraft(SeenEntries(s, x), x.checked.value))
  }

  ghost predicate Inv(s: DB) {
    && GoodJournal(s.gl, s.clock)
    && GoodLedger(s.rows, s.ledgerHead, s.ledgerCount, s.clock)
    && (s.ledgerOwner.Some? ==> s.ledgerOwner.value in s.running)
    && (s.glOwner.Some? ==> s.glOwner.value in s.running)
    && forall t | t in s.running :: GoodTxn(s, t)
  }

  lemma DraftSurvives(entries: seq<Entry>, more: seq<Entry>, d: Draft)
    requires GoodDraft(entries, d)
    requires entries <= more
    ensures GoodDraft(more, d)
  {
    if d.reverses.Some? {
      var i :| ReversalOfAt(entries, i, d);
      assert ReversalOfAt(more, i, d);
    }
  }

  lemma PostableBalances(s: DB, lines: seq<Line>)
    requires Postable(s, lines)
    ensures EntryBalanced(lines)
  {
    ValidatorIsExact(lines, s.denominations);
  }

  lemma EarlyCheckGivesGoodDraft(s: DB, t: Txn, op: Op)
    requires !op.Record?
    requires op.Post? ==> op.draft.reverses == None
    requires EarlyCheck(s, t, op).Some? && EarlyCheck(s, t, op).value.Some?
    ensures GoodDraft(SeenEntries(s, t), EarlyCheck(s, t, op).value.value)
  {
    var d := EarlyCheck(s, t, op).value.value;
    PostableBalances(s, d.lines);
    if op.Reverse? {
      assert ReversalOfAt(SeenEntries(s, t), IndexOf(SeenEntries(s, t), op.originalId), d);
    }
  }

  /** A transaction that ends, or that only touches its own writes, leaves the others good. */
  lemma OthersKeepGood(s: DB, s': DB, u: TxnId)
    requires forall t | t in s.running && t != u :: GoodTxn(s, t)
    requires forall t | t in s'.running && t != u :: t in s.running && s'.running[t] == s.running[t]
    requires s'.clock >= s.clock
    requires s.gl.entries <= s'.gl.entries
    requires forall t | t in s.running && t != u ::
      (Holds(s'.ledgerOwner, t) <==> Holds(s.ledgerOwner, t)) && (Holds(s'.glOwner, t) <==> Holds(s.glOwner, t))
    requires forall t | t in s.running && t != u && Holds(s.ledgerOwner, t) :: s'.rows == s.rows
    requires forall t | t in s.running && t != u && Holds(s.glOwner, t) :: s'.gl == s.gl
    ensures forall t | t in s'.running && t != u :: GoodTxn(s', t)
  {
    forall t | t in s'.running && t != u ensures GoodTxn(s', t) {
      var x := s.running[t];
      assert GoodTxn(s, t);
      if x.checked.Some? {
        assert x.entries == [] || s'.gl == s.gl;
        assert SeenEntries(s, x) <= SeenEntries(s', x);
        DraftSurvives(SeenEntries(s, x), SeenEntries(s', x), x.checked.value);
      }
    }
  }

  lemma LedgerAppendGood(s: DB, x: Txn, id: string, event: string, now: int)
    requires GoodLedger(s.rows + x.rows, x.ledgerHead, x.ledgerCount, s.clock)
    requires s.clock < now
    ensures var y := WithEvent(x, id, event, now);
      GoodLedger(s.rows + y.rows, y.ledgerHead, y.ledgerCount, now)
  {
    var y := WithEvent(x, id, event, now);
    AppendKeepsIntact(s.rows + x.rows, id, LedgerEvent(event, now));
    assert s.rows + y.rows == s.rows + x.rows + [y.rows[|x.rows|]];
  }

  lemma JournalAppendGood(s: DB, x: Txn, id: string, now: int)
    requires GoodJournal(SeenChain(s, x), s.clock)
    requires x.checked.Some? && GoodDraft(SeenEntries(s, x), x.checked.value)
    requires !IsDuplicate(SeenEntries(s, x), x.checked.value)
    requires !HasId(SeenEntries(s, x), id) && s.clock < now
    ensures GoodJournal(SeenChain(s, WithEntry(s, x, id, now)), now)
  {
    var c, d := SeenChain(s, x), x.checked.value;
    assert MayAppend(c, id, d, now);
    AppendKeepsJournalSafe(c, id, d, now);
    AppendKeepsClosesStanding(c, id, d, now);
    SeenAppend(s, x, id, now);
  }

  /** What the transaction sees after its write is what it saw, appended to. */
  lemma SeenAppend(s: DB, x: Txn, id: string, now: int)
    requires x.checked.Some?
    ensures SeenChain(s, WithEntry(s, x, id, now)) == Append(SeenChain(s, x), id, x.checked.value, now)
  {
    var y, d := WithEntry(s, x, id, now), x.checked.value;
    assert SeenEntries(s, y) == SeenEntries(s, x) + [y.entries[|x.entries|]];
    assert s.gl.daySeq + y.daySeq == (s.gl.daySeq + x.daySeq)[d.date := y.entries[|x.entries|].fields.no.seqNo];
  }

  lemma WriteKeepsInv(s: DB, a: Action)
    requires Inv(s) && a.Write? && Enabled(s, a)
    requires !IsDuplicate(SeenEntries(s, s.running[a.t]), s.running[a.t].checked.value)
    ensures Inv(Next(s, a))
  {
    var s', x := Next(s, a), s.running[a.t];
    var z := WithEntry(s, x, a.id, a.now);
    assert GoodTxn(s, a.t);
    JournalAppendGood(s, x, a.id, a.now);
    LedgerAppendGood(s, z, a.eventId, "GL_ENTRY_POSTED", a.later);
    assert SeenChain(s', s'.running[a.t]) == SeenChain(s, z);
    OthersKeepGood(s, s', a.t);
  }

  lemma CommitKeepsInv(s: DB, a: Action)
    requires Inv(s) && a.Commit? && Enabled(s, a)
    ensures Inv(Next(s, a))
  {
    var s', x := Next(s, a), s.running[a.t];
    assert GoodTxn(s, a.t);
    if !Holds(s.glOwner, a.t) {
      assert s'.gl == s.gl;
    }
    if !Holds(s.ledgerOwner, a.t) {
      assert s'.rows == s.rows;
    }
    OthersKeepGood(s, s', a.t);
  }

  lemma SkippedKeepsInv(s: DB, t: TxnId)
    requires Inv(s) && t in s.running && s.running[t].ops != []
    ensures Inv(s.(running := s.running[t := s.running[t].(ops := s.running[t].ops[1..])]))
  {
    var s' := s.(running := s.running[t := s.running[t].(ops := s.running[t].ops[1..])]);
    assert GoodTxn(s, t);
    assert SeenChain(s', s'.running[t]) == SeenChain(s, s.running[t]);
    OthersKeepGood(s, s', t);
  }

  lemma CheckedKeepsInv(s: DB, t: TxnId, d: Draft)
    requires Inv(s) && t in s.running
    requires GoodDraft(SeenEntries(s, s.running[t]), d)
    ensures Inv(s.(running := s.running[t := s.running[t].(checked := Some(d))]))
  {
    var s' := s.(running := s.running[t := s.running[t].(checked := Some(d))]);
    assert GoodTxn(s, t);
    assert SeenChain(s', s'.running[t]) == SeenChain(s, s.running[t]);
    OthersKeepGood(s, s', t);
  }

  lemma CheckKeepsInv(s: DB, a: Action)
    requires Inv(s) && a.Check? && Enabled(s, a)
    ensures Inv(Next(s, a))
  {
    var x := s.running[a.t];
    var outcome := EarlyCheck(s, x, x.ops[0]);
    if outcome == None {
      AbortKeepsInv(s, a.t);
    } else if outcome.value == None {
      SkippedKeepsInv(s, a.t);
    } else {
      assert GoodTxn(s, a.t) && x.ops[0] in x.ops;
      EarlyCheckGivesGoodDraft(s, x, x.ops[0]);
      CheckedKeepsInv(s, a.t, outcome.value.value);
    }
  }

  lemma LocksKeepInv(s: DB, a: Action)
    requires Inv(s) && (a.LockLedger? || a.LockGL?) && Enabled(s, a)
    ensures Inv(Next(s, a))
  {
    var s', x := Next(s, a), s.running[a.t];
    assert GoodTxn(s, a.t);
    if a.LockLedger? {
      assert s.rows + x.rows == s.rows;
    } else {
      assert SeenChain(s', s'.running[a.t]) == s.gl by {
        assert s.gl.entries + x.entries == s.gl.entries;
        assert s.gl.daySeq + x.daySeq == s.gl.daySeq;
      }
    }
    OthersKeepGood(s, s', a.t);
  }

  lemma RecordKeepsInv(s: DB, a: Action)
    requires Inv(s) && a.RecordEvent? && Enabled(s, a)
    ensures Inv(Next(s, a))
  {
    var s', x := Next(s, a), s.running[a.t];
    assert GoodTxn(s, a.t);
    LedgerAppendGood(s, x, a.id, x.ops[0].event, a.now);
    assert SeenChain(s', s'.running[a.t]) == SeenChain(s, x);
    OthersKeepGood(s, s', a.t);
  }

  lemma AbortKeepsInv(s: DB, t: TxnId)
    requires Inv(s) && t in s.running
    ensures Inv(Aborted(s, t))
  {
    OthersKeepGood(s, Aborted(s, t), t);
  }

  lemma BeginKeepsInv(s: DB, t: TxnId, ops: seq<Op>)
    requires Inv(s) && Enabled(s, Begin(t, ops))
    ensures Inv(Next(s, Begin(t, ops)))
  {
    OthersKeepGood(s, Next(s, Begin(t, ops)), t);
  }

  lemma StepExtendsJournal(s: DB, a: Action)
    requires Enabled(s, a)
    ensures s.gl.entries <= Next(s, a).gl.entries
  {
  }

  lemma StepKeepsInv(s: DB, a: Action)
    requires Inv(s) && Enabled(s, a)
    ensures Inv(Next(s, a))
  {
    match a
    case Begin(t, ops) => BeginKeepsInv(s, t, ops);
    case Check(t) => CheckKeepsInv(s, a);
    case LockLedger(t) => LocksKeepInv(s, a);
    case LockGL(t) => LocksKeepInv(s, a);
    case RecordEvent(t, _, _) => RecordKeepsInv(s, a);
    case Write(t, _, _, _, _) =>
      if IsDuplicate(SeenEntries(s, s.running[t]), s.running[t].checked.value) {
        AbortKeepsInv(s, t);
      } else {
        WriteKeepsInv(s, a);
      }
    case Commit(t) => CommitKeepsInv(s, a);
    case Abort(t) => AbortKeepsInv(s, t);
  }

  lemma StepToKeepsInv(s: DB, s': DB)
    requires Inv(s) && StepTo(s, s')
    ensures Inv(s')
  {
    var a :| Enabled(s, a) && s' == Next(s, a);
    StepKeepsInv(s, a);
  }

  lemma StepToExtendsJournal(s: DB, s': DB)
    requires StepTo(s, s')
    ensures s.gl.entries <= s'.gl.entries
  {
    var a :| Enabled(s, a) && s' == Next(s, a);
    StepExtendsJournal(s, a);
  }

  lemma {:induction false} RunKeepsInv(states: seq<DB>, i: nat)
    requires Run(states) && i < |states|
    ensures Inv(states[i])
  {
    if i > 0 {
      RunKeepsInv(states, i - 1);
      assert StepTo(states[i - 1], states[i - 1 + 1]);
      StepToKeepsInv(states[i - 1], states[i]);
    }
  }

  // ---- Main results ----

  /** In every state of every interleaving the committed journal is one verified chain obeying every
      posting rule, all its entries balance, and the inventory ledger is one verified chain too. */
  lemma CommittedBooksAreSafe(states: seq<DB>, i: nat)
    requires Run(states) && i < |states|
    ensures JournalSafe(states[i].gl) && ClosesStand(states[i].gl.entries) && AllBalanced(states[i].gl.entries)
    ensures Verified(states[i].rows, states[i].ledgerHead, states[i].ledgerCount)
  {
    RunKeepsInv(states, i);
  }

  /** Nothing committed is ever rewritten or removed. */
  lemma {:induction false} CommittedJournalIsAppendOnly(states: seq<DB>, i: nat, j: nat)
    requires Run(states) && i <= j < |states|
    ensures states[i].gl.entries <= states[j].gl.entries
    decreases j
  {
    if i < j {
      CommittedJournalIsAppendOnly(states, i, j - 1);
      assert StepTo(states[j - 1], states[j - 1 + 1]);
      StepToExtendsJournal(states[j - 1], states[j]);
    }
  }

  /** `t` waits for `u` when the lock it needs next belongs to `u`. */
  predicate WaitsFor(s: DB, t: TxnId, u: TxnId) {
    && t in s.running && t != u
    && match Wants(s, t)
       case None => false
       case Some(LedgerHead) => s.ledgerOwner == Some(u)
       case Some(GLHead) => s.glOwner == Some(u)
  }

  /** No wait chain has two links, so no cycle of waits exists, of any length. */
  lemma NobodyWaitsForAWaiter(states: seq<DB>, i: nat, t: TxnId, u: TxnId, v: TxnId)
    requires Run(states) && i < |states|
    requires WaitsFor(states[i], t, u)
    ensures !WaitsFor(states[i], u, v)
  {
    RunKeepsInv(states, i);
    assert t in states[i].running && GoodTxn(states[i], t);
    if u in states[i].running {
      assert GoodTxn(states[i], u);
    }
    if v in states[i].running {
      assert GoodTxn(states[i], v);
    }
  }

  /** While transactions are running, one of them can go on without any of them being aborted from outside. */
  lemma SomeoneCanGoOn(states: seq<DB>, i: nat)
    requires Run(states) && i < |states|
    requires states[i].running != map[]
    ensures exists a :: Enabled(states[i], a) && !a.Begin? && !a.Abort?
  {
    RunKeepsInv(states, i);
    var s := states[i];
    var t: TxnId;
    if s.ledgerOwner.Some? {
      t := s.ledgerOwner.value;
    } else {
      t :| t in s.running;
    }
    assert GoodTxn(s, t);
    if s.glOwner.Some? {
      assert GoodTxn(s, s.glOwner.value);
    }
    var x := s.running[t];
    if x.ops == [] {
      assert Enabled(s, Commit(t));
    } else if !x.ops[0].Record? && x.checked == None {
      assert Enabled(s, Check(t));
    } else if Wants(s, t) == Some(LedgerHead) {
      assert Enabled(s, LockLedger(t));
    } else if Wants(s, t) == Some(GLHead) {
      assert Enabled(s, LockGL(t));
    } else if x.ops[0].Record? {
      assert Enabled(s, RecordEvent(t, "", s.clock + 1));
    } else {
      var id := FreshId(SeenEntries(s, x));
      assert Enabled(s, Write(t, id, "", s.clock + 1, s.clock + 2));
    }
  }

  /** Finitely many entries leave some identifier unused. */
  lemma FreshId(entries: seq<Entry>) returns (id: string)
    ensures !HasId(entries, id)
  {
    id := LongerThanAll(entries);
  }

  lemma {:induction false} LongerThanAll(entries: seq<Entry>) returns (id: string)
    ensures forall i | 0 <= i < |entries| :: |entries[i].id| < |id|
  {
    if entries == [] {
      id := "x";
    } else {
      var n := |entries| - 1;
      id := LongerThanAll(entries[..n]);
      id := id + entries[n].id + "x";
      assert forall i | 0 <= i < n :: entries[i] == entries[..n][i];
    }
  }
}
