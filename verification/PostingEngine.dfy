/** `gl.post_entry` and `gl.reverse_entry` as one transaction sees them, with the accounts, the
    accounting periods and the audit ledger they touch. `Books` is the database; the class is the
    session that changes it in place. */
module PostingEngine {
  import opened Wrappers
  import opened Sums
  import opened Journal
  import opened AuditChain
  import opened GLChain

  datatype PeriodStatus = OPEN | CLOSED
  datatype Month = Month(year: int, no: int)
  function MonthOf(d: Date): Month { Month(d.year, d.month) }

  datatype AuditEvent =
    | GlEntryPosted(entryId: string, no: EntryNo, lineCount: nat, baseDebitTotal: int)
    | GlYearClosed(year: int, netIncome: int, closingEntryId: string)
    | GlHistoryReplayed(entriesPosted: nat)
  datatype Stamped = Stamped(event: AuditEvent, at: int)
  function StampOf(r: Row<Stamped>): int { r.fields.at }

  datatype Refusal =
    | NoPeriod(month: Month) | PeriodClosed(month: Month)
    | UnknownAccount(account: AccountId) | InactiveAccount(account: AccountId)
    | Unbalanced(errors: seq<LineError>)
    | AlreadyReversed | AlreadyPosted
    | EntryNotFound | IsAReversal | IsAYearClose

  datatype Books = Books(accounts: map<AccountId, Account>, periods: map<Month, PeriodStatus>, gl: Chain,
                         rows: seq<Row<Stamped>>, ledgerHead: Digest<Stamped>, ledgerCount: nat, clock: int)

  function Denominations(accounts: map<AccountId, Account>): map<AccountId, Denomination> {
    map a | a in accounts :: accounts[a].denomination
  }

  /** The first line whose account cannot be posted to. */
  function AccountRefusal(accounts: map<AccountId, Account>, lines: seq<Line>): (r: Option<Refusal>)
    ensures r == None <==> forall l | l in lines :: l.account in accounts && accounts[l.account].active
  {
    if lines == [] then None
    else if lines[0].account !in accounts then Some(UnknownAccount(lines[0].account))
    else if !accounts[lines[0].account].active then Some(InactiveAccount(lines[0].account))
    else AccountRefusal(accounts, lines[1..])
  }

  function PeriodRefusal(periods: map<Month, PeriodStatus>, d: Date, allowClosed: bool): Option<Refusal> {
    if MonthOf(d) !in periods then Some(NoPeriod(MonthOf(d)))
    else if periods[MonthOf(d)] != OPEN && !allowClosed then Some(PeriodClosed(MonthOf(d)))
    else None
  }

  /** Why an entry would be refused before the lock: period, accounts, balance. */
  function EarlyRefusal(b: Books, d: Draft, allowClosed: bool): Option<Refusal> {
    var period := PeriodRefusal(b.periods, d.date, allowClosed);
    if period.Some? then period
    else
      var account := AccountRefusal(b.accounts, d.lines);
      if account.Some? then account
      else
        var errors := ValidateBalanced(d.lines, Denominations(b.accounts));
        if errors != [] then Some(Unbalanced(errors)) else None
  }

  function WithAudit(b: Books, id: string, event: AuditEvent): Books {
    var row := NextRow(b.ledgerHead, id, Stamped(event, b.clock + 1));
    b.(rows := b.rows + [row], ledgerHead := row.entryHash, ledgerCount := b.ledgerCount + 1, clock := b.clock + 1)
  }

  /** What a successful posting leaves: the entry, its audit event, both heads advanced. */
  function Posted(b: Books, d: Draft, id: string): Books {
    var gl := Append(b.gl, id, d, b.clock + 1);
    WithAudit(b.(gl := gl, clock := b.clock + 1), id,
              GlEntryPosted(id, JE(d.date, LastSeq(b.gl.daySeq, d.date) + 1), |d.lines|, Sum(d.lines, DebitOf)))
  }

  function PostOutcome(b: Books, d: Draft, id: string, allowClosed: bool): Result<Books, Refusal> {
    var early := EarlyRefusal(b, d, allowClosed);
    if early.Some? then Err(early.value)
    else if IsDuplicate(b.gl.entries, d) then Err(if d.reverses.Some? then AlreadyReversed else AlreadyPosted)
    else Ok(Posted(b, d, id))
  }

  function ReversalDraft(original: Entry, date: Date, memo: string, actor: string): Draft {
    Draft(date, memo, REVERSAL, Some(original.id), Some(original.id), actor, SwapAll(original.fields.draft.lines))
  }

  function ReverseOutcome(b: Books, originalId: string, date: Date, memo: string, actor: string, id: string)
    : Result<Books, Refusal>
  {
    if !HasId(b.gl.entries, originalId) then Err(EntryNotFound)
    else
      var original := b.gl.entries[IndexOf(b.gl.entries, originalId)];
      if IsReversal(original) then Err(IsAReversal)
      else if original.fields.draft.sourceType == YEAR_CLOSE then Err(IsAYearClose)
      else if HasReversal(b.gl.entries, originalId) then Err(AlreadyReversed)
      else PostOutcome(b, ReversalDraft(original, date, memo, actor), id, false)
  }

  // ---- The invariant of the books ----

  ghost predicate LedgerSafe(b: Books) {
    Verified(b.rows, b.ledgerHead, b.ledgerCount) && StrictlyLater(b.rows, StampOf)
    && forall r | r in b.rows :: StampOf(r) <= b.clock
  }

  ghost predicate Valid(b: Books) {
    JournalSafe(b.gl) && AllBalanced(b.gl.entries) && OnlyPastEntries(b.gl.entries, b.clock + 1) && LedgerSafe(b)
  }

  lemma AuditKeepsLedgerSafe(b: Books, id: string, event: AuditEvent)
    requires LedgerSafe(b)
    ensures LedgerSafe(WithAudit(b, id, event))
  {
    AppendKeepsIntact(b.rows, id, Stamped(event, b.clock + 1));
  }

  /** The checks before the lock let through exactly the balanced entries, on accounts that exist and are
      active, into a month that exists and is open or may be closed. */
  lemma AcceptedExactly(b: Books, d: Draft, allowClosed: bool)
    ensures EarlyRefusal(b, d, allowClosed) == None <==>
      && MonthOf(d.date) in b.periods && (b.periods[MonthOf(d.date)] == OPEN || allowClosed)
      && (forall l | l in d.lines :: l.account in b.accounts && b.accounts[l.account].active)
      && Balanced(d.lines, Denominations(b.accounts))
  {
    if AccountRefusal(b.accounts, d.lines) == None {
      ValidatorIsExact(d.lines, Denominations(b.accounts));
    }
  }

  lemma AcceptedIsBalanced(b: Books, d: Draft, allowClosed: bool)
    requires EarlyRefusal(b, d, allowClosed) == None
    ensures EntryBalanced(d.lines)
  {
    ValidatorIsExact(d.lines, Denominations(b.accounts));
    forall l | l in d.lines && l.HasMetal() ensures l.karat.Some? && l.karat.value != "" {
      assert FitsAccount(l, Denominations(b.accounts)[l.account]);
    }
  }

  lemma AppendKeepsBalanced(entries: seq<Entry>, e: Entry)
    requires AllBalanced(entries) && EntryBalanced(e.fields.draft.lines)
    ensures AllBalanced(entries + [e])
  {
  }

  lemma PostKeepsJournal(b: Books, d: Draft, id: string)
    requires Valid(b) && !HasId(b.gl.entries, id)
    requires !IsDuplicate(b.gl.entries, d) && EntryBalanced(d.lines)
    requires d.reverses.Some? ==> exists i :: ReversalOfAt(b.gl.entries, i, d)
    ensures var gl := Append(b.gl, id, d, b.clock + 1);
      JournalSafe(gl) && AllBalanced(gl.entries) && OnlyPastEntries(gl.entries, b.clock + 2)
  {
    assert MayAppend(b.gl, id, d, b.clock + 1);
    AppendKeepsJournalSafe(b.gl, id, d, b.clock + 1);
    AppendKeepsBalanced(b.gl.entries, NewEntry(b.gl.head, b.gl.daySeq, id, d, b.clock + 1));
  }

  /** Every accepted posting keeps both chains, the posting rules and both balances. */
  lemma PostKeepsValid(b: Books, d: Draft, id: string, allowClosed: bool)
    requires Valid(b) && !HasId(b.gl.entries, id)
    requires PostOutcome(b, d, id, allowClosed).Ok?
    requires d.reverses.Some? ==> exists i :: ReversalOfAt(b.gl.entries, i, d)
    ensures Valid(PostOutcome(b, d, id, allowClosed).value)
  {
    AcceptedIsBalanced(b, d, allowClosed);
    PostKeepsJournal(b, d, id);
    PostedIsValid(b, d, id);
  }

  lemma PostedIsValid(b: Books, d: Draft, id: string)
    requires LedgerSafe(b)
    requires var gl := Append(b.gl, id, d, b.clock + 1);
      JournalSafe(gl) && AllBalanced(gl.entries) && OnlyPastEntries(gl.entries, b.clock + 2)
    ensures Valid(Posted(b, d, id))
  {
    var mid := b.(gl := Append(b.gl, id, d, b.clock + 1), clock := b.clock + 1);
    AuditKeepsLedgerSafe(mid, id,
      GlEntryPosted(id, JE(d.date, LastSeq(b.gl.daySeq, d.date) + 1), |d.lines|, Sum(d.lines, DebitOf)));
  }

  lemma ReverseKeepsValid(b: Books, originalId: string, date: Date, memo: string, actor: string, id: string)
    requires Valid(b) && !HasId(b.gl.entries, id)
    requires ReverseOutcome(b, originalId, date, memo, actor, id).Ok?
    ensures Valid(ReverseOutcome(b, originalId, date, memo, actor, id).value)
  {
    var i := IndexOf(b.gl.entries, originalId);
    var d := ReversalDraft(b.gl.entries[i], date, memo, actor);
    assert ReversalOfAt(b.gl.entries, i, d);
    PostKeepsValid(b, d, id, false);
  }

  /** An entry that was reversed stays reversed: every later attempt, on it or on its reversal, is refused. */
  lemma ReversedForGood(b: Books, originalId: string, date: Date, memo: string, actor: string, id: string,
                        date': Date, memo': string, actor': string, id': string)
    requires Valid(b) && !HasId(b.gl.entries, id)
    requires ReverseOutcome(b, originalId, date, memo, actor, id).Ok?
    ensures var b' := ReverseOutcome(b, originalId, date, memo, actor, id).value;
      && ReverseOutcome(b', originalId, date', memo', actor', id') == Err(AlreadyReversed)
      && ReverseOutcome(b', id, date', memo', actor', id') == Err(IsAReversal)
  {
    ReverseKeepsValid(b, originalId, date, memo, actor, id);
    var b' := ReverseOutcome(b, originalId, date, memo, actor, id).value;
    var n, i := |b.gl.entries|, IndexOf(b.gl.entries, originalId);
    var more := b'.gl.entries;
    assert more[n].id == id && more[i] == b.gl.entries[i] && Reverses(more[n], originalId);
    assert IndexOf(more, originalId) == i && IndexOf(more, id) == n;
  }

  // ---- The session ----

  class Session {
    var accounts: map<AccountId, Account>
    var periods: map<Month, PeriodStatus>
    var entries: seq<Entry>
    var latestHash: Digest<Content>
    var rowCount: nat
    var lastSeq: map<Date, nat>
    var rows: seq<Row<Stamped>>
    var ledgerHash: Digest<Stamped>
    var ledgerRowCount: nat
    var clock: int

    function View(): Books
      reads this
    {
      Books(accounts, periods, Chain(entries, latestHash, rowCount, lastSeq), rows, ledgerHash, ledgerRowCount, clock)
    }

    constructor (b: Books)
      ensures View() == b
    {
      accounts, periods := b.accounts, b.periods;
      entries, latestHash, rowCount, lastSeq := b.gl.entries, b.gl.head, b.gl.count, b.gl.daySeq;
      rows, ledgerHash, ledgerRowCount, clock := b.rows, b.ledgerHead, b.ledgerCount, b.clock;
    }

    /** ledger.record */
    method Record(id: string, event: AuditEvent)
      modifies this
      ensures View() == WithAudit(old(View()), id, event)
    {
      clock := clock + 1;
      var row := NextRow(ledgerHash, id, Stamped(event, clock));
      rows := rows + [row];
      ledgerHash := row.entryHash;
      ledgerRowCount := ledgerRowCount + 1;
    }

    /** _resolve_denominations */
    method ResolveAccounts(lines: seq<Line>) returns (refusal: Option<Refusal>)
      ensures refusal == AccountRefusal(accounts, lines)
    {
      var i := 0;
      while i < |lines|
        invariant 0 <= i <= |lines|
        invariant AccountRefusal(accounts, lines) == AccountRefusal(accounts, lines[i..])
      {
        var a := lines[i].account;
        assert lines[i..][1..] == lines[i + 1..];
        if a !in accounts {
          return Some(UnknownAccount(a));
        }
        if !accounts[a].active {
          return Some(InactiveAccount(a));
        }
        i := i + 1;
      }
      refusal := None;
    }

    /** _next_entry_no */
    method NextEntryNo(day: Date) returns (no: EntryNo)
      modifies this`lastSeq
      ensures no == JE(day, LastSeq(old(lastSeq), day) + 1)
      ensures lastSeq == old(lastSeq)[day := no.seqNo]
    {
      if day !in lastSeq {
        lastSeq := lastSeq[day := 0];
      }
      lastSeq := lastSeq[day := lastSeq[day] + 1];
      no := JE(day, lastSeq[day]);
    }

    /** The checks made before the lock: period, accounts, balance. */
    method RefuseEarly(d: Draft, allowClosed: bool) returns (refusal: Option<Refusal>)
      ensures refusal == EarlyRefusal(View(), d, allowClosed)
    {
      if MonthOf(d.date) !in periods {
        return Some(NoPeriod(MonthOf(d.date)));
      }
      if periods[MonthOf(d.date)] != OPEN && !allowClosed {
        return Some(PeriodClosed(MonthOf(d.date)));
      }
      refusal := ResolveAccounts(d.lines);
      if refusal == None {
        var errors := ValidateBalanced(d.lines, Denominations(accounts));
        if errors != [] {
          refusal := Some(Unbalanced(errors));
        }
      }
    }

    /** Under both locks: number, chain, advance the head, audit. */
    method AppendEntry(d: Draft, id: string) returns (entry: Entry)
      modifies this
      ensures View() == Posted(old(View()), d, id)
      ensures entries == old(entries) + [entry]
    {
      var no := NextEntryNo(d.date);
      clock := clock + 1;
      entry := NextRow(latestHash, id, Content(no, d, clock));
      entries := entries + [entry];
      latestHash := entry.entryHash;
      rowCount := rowCount + 1;
      Record(id, GlEntryPosted(id, no, |d.lines|, Sum(d.lines, DebitOf)));
    }

    method PostEntry(d: Draft, id: string, allowClosed: bool) returns (r: Result<Entry, Refusal>)
      requires Valid(View())
      requires !HasId(entries, id)
      requires d.reverses.Some? ==> exists i :: ReversalOfAt(entries, i, d)
      modifies this
      ensures Valid(View())
      ensures match PostOutcome(old(View()), d, id, allowClosed)
        case Ok(after) => View() == after && |entries| > 0 && r == Ok(entries[|entries| - 1])
        case Err(e) => View() == old(View()) && r == Err(e)
    {
      var refusal := RefuseEarly(d, allowClosed);
      if refusal.Some? {
        return Err(refusal.value);
      }
      // Both heads are locked from here on; the re-check sees every committed entry.
      if IsDuplicate(entries, d) {
        return Err(if d.reverses.Some? then AlreadyReversed else AlreadyPosted);
      }
      PostKeepsValid(View(), d, id, allowClosed);
      var entry := AppendEntry(d, id);
      r := Ok(entry);
    }

    method ReverseEntry(originalId: string, date: Date, memo: string, actor: string, id: string)
      returns (r: Result<Entry, Refusal>)
      requires Valid(View())
      requires !HasId(entries, id)
      modifies this
      ensures Valid(View())
      ensures match ReverseOutcome(old(View()), originalId, date, memo, actor, id)
        case Ok(after) => View() == after && |entries| > 0 && r == Ok(entries[|entries| - 1])
        case Err(e) => View() == old(View()) && r == Err(e)
    {
      if !HasId(entries, originalId) {
        return Err(EntryNotFound);
      }
      var i := IndexOf(entries, originalId);
      var original := entries[i];
      if IsReversal(original) {
        return Err(IsAReversal);
      }
      if original.fields.draft.sourceType == YEAR_CLOSE {
        return Err(IsAYearClose);
      }
      if HasReversal(entries, originalId) {
        return Err(AlreadyReversed);
      }
      var d := ReversalDraft(original, date, memo, actor);
      assert ReversalOfAt(entries, i, d);
      r := PostEntry(d, id, false);
    }
  }
}
