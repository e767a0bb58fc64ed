/** Year-end closing (`app/core/period_close.py`): the closing entry built from a cumulative trial
    balance, and what a run of year closes does to income, expenses and retained earnings. */
module PeriodClose {
  import opened Wrappers
  import opened Sums
  import opened Journal
  import opened AuditChain
  import opened GLChain
  import opened PostingEngine
  import TrialBalance

  type Accounts = map<AccountId, Account>

  predicate IsPL(accounts: Accounts, a: AccountId) {
    a in accounts && (accounts[a].kind == INCOME || accounts[a].kind == EXPENSE)
  }

  /** Debits minus credits on income and expense accounts: the loss the lines carry. */
  function PLNet(accounts: Accounts): Line -> int {
    (l: Line) => if IsPL(accounts, l.account) then BaseNet(l) else 0
  }
  function PLAmong(accounts: Accounts, done: set<AccountId>): Line -> int {
    (l: Line) => if l.account in done && IsPL(accounts, l.account) then BaseNet(l) else 0
  }

  // ---- Nets over the entries of some years ----

  function UpTo(year: int, net: Line -> int): Entry -> int {
    (e: Entry) => if e.fields.draft.date.year <= year then Sum(e.fields.draft.lines, net) else 0
  }
  function Within(after: int, year: int, net: Line -> int): Entry -> int {
    (e: Entry) => if after < e.fields.draft.date.year <= year then Sum(e.fields.draft.lines, net) else 0
  }
  /** The net as of 31 December of `year`. */
  function NetAt(entries: seq<Entry>, year: int, net: Line -> int): int { Sum(entries, UpTo(year, net)) }

  lemma {:induction false} LinesAsOfYearEnd(entries: seq<Entry>, year: int, net: Line -> int)
    ensures Sum(TrialBalance.LinesAsOf(entries, YearEnd(year)), net) == NetAt(entries, year, net)
  {
    if entries != [] {
      var n := |entries| - 1;
      LinesAsOfYearEnd(entries[..n], year, net);
      YearEndIsLast(entries[n].fields.draft.date, year);
      SumConcat(TrialBalance.LinesAsOf(entries[..n], YearEnd(year)),
                if entries[n].fields.draft.date.year <= year then entries[n].fields.draft.lines else [], net);
    }
  }

  // ---- year_close_preview ----

  /** One line of the closing entry: money only, a contra balance giving a negative amount. */
  function CloseLine(a: AccountId, debit: int, credit: int): Line {
    Line(a, debit, credit, debit, credit, "USD", USD_RATE, 0, 0, None, "year close")
  }

  /** The closing entry of `year` over these entries. */
  ghost predicate ClosingEffect(accounts: Accounts, entries: seq<Entry>, year: int, lines: seq<Line>, netIncome: int) {
    && netIncome == -NetAt(entries, year, PLNet(accounts))
    && Sum(lines, BaseNet) == 0
    && (forall l | l in lines :: !l.HasMetal() && l.karat == None)
    && forall a: AccountId :: Sum(lines, AccountNet(a)) ==
         if a == RETAINED_EARNINGS then -netIncome
         else if IsPL(accounts, a) then -NetAt(entries, year, AccountNet(a)) else 0
  }

  lemma AppendNet(lines: seq<Line>, l: Line)
    ensures Sum(lines + [l], BaseNet) == Sum(lines, BaseNet) + BaseNet(l)
    ensures forall a: AccountId :: Sum(lines + [l], AccountNet(a)) == Sum(lines, AccountNet(a)) + AccountNet(a)(l)
  {
    SumSnoc(lines, l, BaseNet);
    forall a: AccountId { SumSnoc(lines, l, AccountNet(a)); }
  }

  function Together(f: Line -> int, g: Line -> int): Line -> int { (l: Line) => f(l) + g(l) }

  lemma {:induction false} SumTogether(lines: seq<Line>, f: Line -> int, g: Line -> int)
    ensures Sum(lines, Together(f, g)) == Sum(lines, f) + Sum(lines, g)
  {
    if lines != [] {
      SumTogether(lines[..|lines| - 1], f, g);
    }
  }

  lemma OneMoreAccount(accounts: Accounts, lines: seq<Line>, done: set<AccountId>, a: AccountId)
    requires a !in done
    ensures Sum(lines, PLAmong(accounts, done + {a})) ==
      Sum(lines, PLAmong(accounts, done)) + if IsPL(accounts, a) then Sum(lines, AccountNet(a)) else 0
  {
    if IsPL(accounts, a) {
      SumEq(lines, PLAmong(accounts, done + {a}), Together(PLAmong(accounts, done), AccountNet(a)));
      SumTogether(lines, PLAmong(accounts, done), AccountNet(a));
    } else {
      SumEq(lines, PLAmong(accounts, done + {a}), PLAmong(accounts, done));
    }
  }

  ghost predicate PreviewSoFar(accounts: Accounts, tb: seq<Line>, done: set<AccountId>, lines: seq<Line>, net: int) {
    && net == -Sum(tb, PLAmong(accounts, done))
    && Sum(lines, BaseNet) == net
    && (forall l | l in lines :: !l.HasMetal() && l.karat == None)
    && forall a: AccountId :: Sum(lines, AccountNet(a)) ==
         if a in done && IsPL(accounts, a) then -Sum(tb, AccountNet(a)) else 0
  }

  lemma PreviewStep(accounts: Accounts, tb: seq<Line>, done: set<AccountId>, lines: seq<Line>, net: int,
                    a: AccountId, l: Line)
    requires PreviewSoFar(accounts, tb, done, lines, net)
    requires a !in done && IsPL(accounts, a)
    requires l.account == a && BaseNet(l) == -Sum(tb, AccountNet(a)) && !l.HasMetal() && l.karat == None
    ensures PreviewSoFar(accounts, tb, done + {a}, lines + [l], net + BaseNet(l))
  {
    AppendNet(lines, l);
    OneMoreAccount(accounts, tb, done, a);
  }

  lemma PreviewNothing(accounts: Accounts, tb: seq<Line>)
    ensures PreviewSoFar(accounts, tb, {}, [], 0)
  {
    SumZero(tb, PLAmong(accounts, {}));
  }

  lemma PreviewSkip(accounts: Accounts, tb: seq<Line>, done: set<AccountId>, lines: seq<Line>, net: int, a: AccountId)
    requires PreviewSoFar(accounts, tb, done, lines, net)
    requires a !in done && (IsPL(accounts, a) ==> Sum(tb, AccountNet(a)) == 0)
    ensures PreviewSoFar(accounts, tb, done + {a}, lines, net)
  {
    OneMoreAccount(accounts, tb, done, a);
  }

  lemma ReportedNet(tb: seq<Line>, r: TrialBalance.Report, a: AccountId)
    requires TrialBalance.Matches(TrialBalance.ItemsOf(tb), r) && a in r.accounts
    ensures r.accounts[a].baseDebit - r.accounts[a].baseCredit == Sum(tb, AccountNet(a))
  {
    TrialBalance.TotalsAreSums(tb, "", a);
    assert TrialBalance.RowMatches(TrialBalance.ItemsOf(tb), a, r.accounts[a]);
  }

  lemma AccountsAreListed(accounts: Accounts, tb: seq<Line>, r: TrialBalance.Report)
    requires TrialBalance.Matches(TrialBalance.ItemsOf(tb), r)
    ensures forall l | l in tb :: l.account in r.accounts
    ensures Sum(tb, PLAmong(accounts, r.accounts.Keys)) == Sum(tb, PLNet(accounts))
    ensures forall a: AccountId | a !in r.accounts :: Sum(tb, AccountNet(a)) == 0
  {
    var items := TrialBalance.ItemsOf(tb);
    forall l | l in tb ensures l.account in r.accounts {
      var i :| 0 <= i < |tb| && tb[i] == l;
      assert TrialBalance.OfAccount(l.account)(items[i].key);
      assert TrialBalance.HasItem(items, TrialBalance.OfAccount(l.account));
    }
    SumEq(tb, PLAmong(accounts, r.accounts.Keys), PLNet(accounts));
    forall a: AccountId | a !in r.accounts ensures Sum(tb, AccountNet(a)) == 0 {
      SumZero(tb, AccountNet(a));
    }
  }

  /** An account's natural balance: credit for income, debit for expense; others have none here. */
  function IncomeOf(accounts: Accounts, a: AccountId, row: TrialBalance.AccountRow): int {
    if a in accounts && accounts[a].kind == INCOME then row.baseCredit - row.baseDebit else 0
  }
  function ExpenseOf(accounts: Accounts, a: AccountId, row: TrialBalance.AccountRow): int {
    if a in accounts && accounts[a].kind == EXPENSE then row.baseDebit - row.baseCredit else 0
  }
  function LineFor(accounts: Accounts, a: AccountId, row: TrialBalance.AccountRow): seq<Line> {
    var income, expense := IncomeOf(accounts, a, row), ExpenseOf(accounts, a, row);
    if income != 0 then [CloseLine(a, income, 0)] else if expense != 0 then [CloseLine(a, 0, expense)] else []
  }

  lemma LineForNets(accounts: Accounts, a: AccountId, row: TrialBalance.AccountRow)
    requires LineFor(accounts, a, row) != []
    ensures |LineFor(accounts, a, row)| == 1 && IsPL(accounts, a)
    ensures var l := LineFor(accounts, a, row)[0];
      && l.account == a && !l.HasMetal() && l.karat == None && BaseNet(l) == -(row.baseDebit - row.baseCredit)
      && BaseNet(l) == IncomeOf(accounts, a, row) - ExpenseOf(accounts, a, row)
  {
  }

  lemma PreviewAccount(accounts: Accounts, tb: seq<Line>, done: set<AccountId>, lines: seq<Line>, net: int,
                       a: AccountId, row: TrialBalance.AccountRow)
    requires PreviewSoFar(accounts, tb, done, lines, net)
    requires a !in done && row.baseDebit - row.baseCredit == Sum(tb, AccountNet(a))
    ensures PreviewSoFar(accounts, tb, done + {a}, lines + LineFor(accounts, a, row),
                         net + IncomeOf(accounts, a, row) - ExpenseOf(accounts, a, row))
  {
    var added := LineFor(accounts, a, row);
    if added == [] {
      PreviewSkip(accounts, tb, done, lines, net, a);
      assert lines + added == lines;
    } else {
      LineForNets(accounts, a, row);
      PreviewStep(accounts, tb, done, lines, net, a, added[0]);
      assert added == [added[0]];
    }
  }

  method AddAccount(accounts: Accounts, ghost tb: seq<Line>, ghost done: set<AccountId>, lines: seq<Line>, net: int,
                    a: AccountId, row: TrialBalance.AccountRow) returns (lines': seq<Line>, net': int)
    requires PreviewSoFar(accounts, tb, done, lines, net)
    requires a !in done && row.baseDebit - row.baseCredit == Sum(tb, AccountNet(a))
    ensures PreviewSoFar(accounts, tb, done + {a}, lines', net')
    ensures ListsPL(accounts, tb, done, lines) ==> ListsPL(accounts, tb, done + {a}, lines')
  {
    PreviewAccount(accounts, tb, done, lines, net, a, row);
    if ListsPL(accounts, tb, done, lines) {
      ListsOneMore(accounts, tb, done, lines, a, row);
    }
    lines' := lines + LineFor(accounts, a, row);
    net' := net + IncomeOf(accounts, a, row) - ExpenseOf(accounts, a, row);
  }

  ghost predicate HasLineOn(lines: seq<Line>, a: AccountId) { exists l | l in lines :: l.account == a }

  /** A line exactly for the income and expense accounts that do not net to zero, and every line carries money. */
  ghost predicate ListsPL(accounts: Accounts, tb: seq<Line>, done: set<AccountId>, lines: seq<Line>) {
    && (forall l | l in lines :: l.HasMoney())
    && forall a: AccountId :: HasLineOn(lines, a) <==> a in done && IsPL(accounts, a) && Sum(tb, AccountNet(a)) != 0
  }

  lemma ListsOneMore(accounts: Accounts, tb: seq<Line>, done: set<AccountId>, lines: seq<Line>, a: AccountId,
                     row: TrialBalance.AccountRow)
    requires ListsPL(accounts, tb, done, lines) && a !in done
    requires row.baseDebit - row.baseCredit == Sum(tb, AccountNet(a))
    ensures ListsPL(accounts, tb, done + {a}, lines + LineFor(accounts, a, row))
  {
    var added := LineFor(accounts, a, row);
    LinesTogether(lines, added);
    if added != [] {
      assert added[0] in added;
    }
  }

  lemma MoveOver(todo: set<AccountId>, done: set<AccountId>, all: set<AccountId>, a: AccountId)
    requires todo !! done && todo + done == all && a in todo
    ensures (todo - {a}) !! (done + {a}) && (todo - {a}) + (done + {a}) == all
  {
  }

  /** The income and expense lines, and what they add up to. */
  method PLLines(accounts: Accounts, report: TrialBalance.Report, ghost tb: seq<Line>)
    returns (lines: seq<Line>, netIncome: int)
    requires forall a | a in report.accounts ::
      report.accounts[a].baseDebit - report.accounts[a].baseCredit == Sum(tb, AccountNet(a))
    ensures PreviewSoFar(accounts, tb, report.accounts.Keys, lines, netIncome)
    ensures ListsPL(accounts, tb, report.accounts.Keys, lines)
  {
    lines, netIncome := [], 0;
    var todo := report.accounts.Keys;
    ghost var done: set<AccountId> := {};
    PreviewNothing(accounts, tb);
    while todo != {}
      invariant todo !! done && todo + done == report.accounts.Keys
      invariant PreviewSoFar(accounts, tb, done, lines, netIncome)
      invariant ListsPL(accounts, tb, done, lines)
      decreases |todo|
    {
      var a :| a in todo;
      var row := report.accounts[a];
      lines, netIncome := AddAccount(accounts, tb, done, lines, netIncome, a, row);
      MoveOver(todo, done, report.accounts.Keys, a);
      todo, done := todo - {a}, done + {a};
    }
    assert done == report.accounts.Keys;
  }

  function RetainedLine(netIncome: int): seq<Line> {
    if netIncome > 0 then [CloseLine(RETAINED_EARNINGS, 0, netIncome)]
    else if netIncome < 0 then [CloseLine(RETAINED_EARNINGS, -netIncome, 0)] else []
  }

  lemma RetainedNet(closed: seq<Line>, netIncome: int)
    ensures Sum(closed + RetainedLine(netIncome), BaseNet) == Sum(closed, BaseNet) - netIncome
    ensures forall a: AccountId ::
      (Sum(closed + RetainedLine(netIncome), AccountNet(a)) ==
       Sum(closed, AccountNet(a)) - if a == RETAINED_EARNINGS then netIncome else 0)
  {
    if netIncome == 0 {
      assert closed + [] == closed;
    } else {
      AppendNet(closed, RetainedLine(netIncome)[0]);
    }
  }

  method Preview(accounts: Accounts, entries: seq<Entry>, year: int) returns (lines: seq<Line>, netIncome: int)
    requires !IsPL(accounts, RETAINED_EARNINGS)
    ensures ClosingEffect(accounts, entries, year, lines, netIncome)
    ensures ClosesExactly(accounts, entries, year, lines)
  {
    ghost var tb := TrialBalance.LinesAsOf(entries, YearEnd(year));
    var report := TrialBalance.ComputeTrialBalance(entries, YearEnd(year));
    forall a | a in report.accounts
      ensures report.accounts[a].baseDebit - report.accounts[a].baseCredit == Sum(tb, AccountNet(a))
    {
      ReportedNet(tb, report, a);
    }
    var closed;
    closed, netIncome := PLLines(accounts, report, tb);
    lines := closed + RetainedLine(netIncome);
    RetainedNet(closed, netIncome);
    FinishPreview(accounts, entries, year, report, closed, lines, netIncome);
    FinishList(accounts, entries, year, report, closed, netIncome);
  }

  /** Is there a balance of income or expense to close? */
  ghost predicate HasPL(accounts: Accounts, entries: seq<Entry>, year: int, a: AccountId) {
    IsPL(accounts, a) && NetAt(entries, year, AccountNet(a)) != 0
  }

  /** A line exactly for every account with a balance to close, and for retained earnings if there is a result. */
  ghost predicate ClosesExactly(accounts: Accounts, entries: seq<Entry>, year: int, lines: seq<Line>) {
    && (forall l | l in lines :: l.HasMoney())
    && (lines != [] <==> exists a: AccountId :: HasPL(accounts, entries, year, a))
    && forall a: AccountId :: HasLineOn(lines, a) <==>
         HasPL(accounts, entries, year, a)
         || (a == RETAINED_EARNINGS && NetAt(entries, year, PLNet(accounts)) != 0)
  }

  lemma FinishList(accounts: Accounts, entries: seq<Entry>, year: int, r: TrialBalance.Report, closed: seq<Line>,
                   netIncome: int)
    requires !IsPL(accounts, RETAINED_EARNINGS)
    requires netIncome == -NetAt(entries, year, PLNet(accounts))
    requires var tb := TrialBalance.LinesAsOf(entries, YearEnd(year));
      TrialBalance.Matches(TrialBalance.ItemsOf(tb), r) && ListsPL(accounts, tb, r.accounts.Keys, closed)
    ensures ClosesExactly(accounts, entries, year, closed + RetainedLine(netIncome))
  {
    ListedHasPL(accounts, entries, year, r, closed);
    if forall a: AccountId | IsPL(accounts, a) :: NetAt(entries, year, AccountNet(a)) == 0 {
      CumulativePLIsZero(accounts, entries, year);
    }
    var last := RetainedLine(netIncome);
    LinesTogether(closed, last);
    OnRetained(netIncome);
    if closed != [] {
      assert HasLineOn(closed, closed[0].account);
    }
  }

  lemma OnRetained(netIncome: int)
    ensures forall l | l in RetainedLine(netIncome) :: l.HasMoney()
    ensures forall a: AccountId :: HasLineOn(RetainedLine(netIncome), a) <==> a == RETAINED_EARNINGS && netIncome != 0
  {
    if netIncome != 0 {
      assert RetainedLine(netIncome)[0] in RetainedLine(netIncome);
    }
  }

  lemma ListedHasPL(accounts: Accounts, entries: seq<Entry>, year: int, r: TrialBalance.Report, closed: seq<Line>)
    requires var tb := TrialBalance.LinesAsOf(entries, YearEnd(year));
      TrialBalance.Matches(TrialBalance.ItemsOf(tb), r) && ListsPL(accounts, tb, r.accounts.Keys, closed)
    ensures forall a: AccountId :: HasLineOn(closed, a) <==> HasPL(accounts, entries, year, a)
  {
    var tb := TrialBalance.LinesAsOf(entries, YearEnd(year));
    AccountsAreListed(accounts, tb, r);
    forall a: AccountId ensures HasLineOn(closed, a) <==> HasPL(accounts, entries, year, a) {
      LinesAsOfYearEnd(entries, year, AccountNet(a));
    }
  }

  lemma LinesTogether(s: seq<Line>, t: seq<Line>)
    ensures forall l :: l in s + t <==> l in s || l in t
    ensures forall a: AccountId :: HasLineOn(s + t, a) <==> HasLineOn(s, a) || HasLineOn(t, a)
  {
    forall a: AccountId ensures HasLineOn(s + t, a) <==> HasLineOn(s, a) || HasLineOn(t, a) {
      if HasLineOn(s, a) {
        var l :| l in s && l.account == a;
        assert l in s + t;
      }
      if HasLineOn(t, a) {
        var l :| l in t && l.account == a;
        assert l in s + t;
      }
    }
  }

  lemma FinishPreview(accounts: Accounts, entries: seq<Entry>, year: int, r: TrialBalance.Report,
                      closed: seq<Line>, lines: seq<Line>, netIncome: int)
    requires !IsPL(accounts, RETAINED_EARNINGS)
    requires var tb := TrialBalance.LinesAsOf(entries, YearEnd(year));
      TrialBalance.Matches(TrialBalance.ItemsOf(tb), r)
      && PreviewSoFar(accounts, tb, r.accounts.Keys, closed, netIncome)
    requires Sum(lines, BaseNet) == Sum(closed, BaseNet) - netIncome
    requires forall a: AccountId ::
      (Sum(lines, AccountNet(a)) == Sum(closed, AccountNet(a)) - if a == RETAINED_EARNINGS then netIncome else 0)
    requires forall l | l in lines :: !l.HasMetal() && l.karat == None
    ensures ClosingEffect(accounts, entries, year, lines, netIncome)
  {
    var tb := TrialBalance.LinesAsOf(entries, YearEnd(year));
    AccountsAreListed(accounts, tb, r);
    LinesAsOfYearEnd(entries, year, PLNet(accounts));
    forall a: AccountId ensures Sum(tb, AccountNet(a)) == NetAt(entries, year, AccountNet(a)) {
      LinesAsOfYearEnd(entries, year, AccountNet(a));
    }
  }

  // ---- close_year ----

  datatype CloseRefusal =
    | OpenPeriods | NoPeriods | AlreadyClosed | NoRetainedEarnings | NothingToClose | Refused(why: Refusal)

  /** A closing entry of the year that no reversal has undone. */
  predicate YearAlreadyClosed(entries: seq<Entry>, year: int) {
    exists i | 0 <= i < |entries| ::
      && entries[i].fields.draft.sourceType == YEAR_CLOSE && entries[i].fields.draft.date.year == year
      && !HasReversal(entries, entries[i].id)
  }

  /** The months 1..n of a year, created OPEN where missing. */
  function WithMonths(periods: map<Month, PeriodStatus>, year: int, n: nat): map<Month, PeriodStatus> {
    if n == 0 then periods
    else
      var p := WithMonths(periods, year, n - 1);
      if Month(year, n) in p then p else p[Month(year, n) := OPEN]
  }

  function WithDecember(periods: map<Month, PeriodStatus>, year: int): map<Month, PeriodStatus> {
    if Month(year, 12) in periods then periods else periods[Month(year, 12) := CLOSED]
  }

  function CloseDraft(year: int, actor: string, lines: seq<Line>): Draft {
    Draft(YearEnd(year), "Year close", YEAR_CLOSE, None, None, actor, lines)
  }

  predicate HasMonths(periods: map<Month, PeriodStatus>, year: int) { exists m :: m in periods && m.year == year }
  predicate HasOpenMonth(periods: map<Month, PeriodStatus>, year: int) {
    exists m :: m in periods && m.year == year && periods[m] == OPEN
  }
  /** Every month there is of the year is closed, there is one, and the year was not closed before. */
  predicate MayClose(periods: map<Month, PeriodStatus>, entries: seq<Entry>, year: int) {
    HasMonths(periods, year) && !HasOpenMonth(periods, year) && !YearAlreadyClosed(entries, year)
  }

  /** The guards of close_year, in order. */
  method RefuseClose(s: Session, year: int) returns (refusal: Option<CloseRefusal>)
    ensures refusal == Some(OpenPeriods) <==> HasOpenMonth(s.periods, year)
    ensures refusal == Some(NoPeriods) <==> !HasMonths(s.periods, year)
    ensures refusal == Some(AlreadyClosed) <==>
      HasMonths(s.periods, year) && !HasOpenMonth(s.periods, year) && YearAlreadyClosed(s.entries, year)
    ensures refusal == None <==> MayClose(s.periods, s.entries, year)
    ensures refusal in {None, Some(OpenPeriods), Some(NoPeriods), Some(AlreadyClosed)}
  {
    if exists m :: m in s.periods && m.year == year && s.periods[m] == OPEN {
      return Some(OpenPeriods);
    }
    if !exists m :: m in s.periods && m.year == year {
      return Some(NoPeriods);
    }
    refusal := if YearAlreadyClosed(s.entries, year) then Some(AlreadyClosed) else None;
  }

  /** After the posting: the audit event, and next year's twelve months. */
  method FinishClose(s: Session, year: int, netIncome: int, id: string)
    requires Valid(s.View())
    modifies s
    ensures Valid(s.View())
    ensures s.entries == old(s.entries) && s.accounts == old(s.accounts)
    ensures s.periods == WithMonths(old(s.periods), year + 1, 12)
  {
    ghost var before := s.View();
    AuditKeepsLedgerSafe(before, id, GlYearClosed(year, netIncome, id));
    s.Record(id, GlYearClosed(year, netIncome, id));
    assert s.View() == WithAudit(before, id, GlYearClosed(year, netIncome, id));
    var periods := s.periods;
    var n := 0;
    while n < 12
      invariant 0 <= n <= 12
      invariant periods == WithMonths(old(s.periods), year + 1, n)
    {
      n := n + 1;
      if Month(year + 1, n) !in periods {
        periods := periods[Month(year + 1, n) := OPEN];
      }
    }
    s.periods := periods;
  }

  /** `after` is `before` with the closing entry of the year appended. */
  ghost predicate ClosedBy(accounts: Accounts, before: seq<Entry>, after: seq<Entry>, year: int, netIncome: int) {
    && |after| == |before| + 1 && after[..|before|] == before
    && var d := after[|before|].fields.draft;
       d.date == YearEnd(year) && d.sourceType == YEAR_CLOSE && d.reverses == None
       && ClosingEffect(accounts, before, year, d.lines, netIncome)
  }

  predicate Postable(b: Books, year: int, actor: string, lines: seq<Line>, id: string) {
    PostOutcome(b.(periods := WithDecember(b.periods, year)), CloseDraft(year, actor, lines), id, true).Ok?
  }

  predicate TakesMoney(accounts: Accounts, a: AccountId) {
    a in accounts && accounts[a].active && accounts[a].denomination != METAL
  }

  /** Every account the closing entry has a line on takes money. */
  ghost predicate Closable(accounts: Accounts, entries: seq<Entry>, year: int) {
    && (forall a: AccountId | HasPL(accounts, entries, year, a) :: TakesMoney(accounts, a))
    && (NetAt(entries, year, PLNet(accounts)) != 0 ==> TakesMoney(accounts, RETAINED_EARNINGS))
  }

  lemma MoneyLinesBalance(lines: seq<Line>, denominations: map<AccountId, Denomination>)
    requires lines != [] && Sum(lines, BaseNet) == 0
    requires forall l | l in lines :: !l.HasMetal() && l.karat == None && l.HasMoney() && l.account in denominations
    ensures Balanced(lines, denominations) <==> forall l | l in lines :: denominations[l.account] != METAL
  {
    forall k: string ensures Sum(lines, KaratNet(k)) == 0 {
      SumZero(lines, KaratNet(k));
    }
  }

  /** The engine takes a balanced money entry exactly when every account on it takes money. */
  lemma EngineTakesMoney(b: Books, year: int, actor: string, lines: seq<Line>, id: string)
    requires lines != [] && Sum(lines, BaseNet) == 0
    requires forall l | l in lines :: !l.HasMetal() && l.karat == None && l.HasMoney()
    ensures Postable(b, year, actor, lines, id) <==> forall l | l in lines :: TakesMoney(b.accounts, l.account)
  {
    if AccountRefusal(b.accounts, lines) == None {
      ValidatorIsExact(lines, Denominations(b.accounts));
      MoneyLinesBalance(lines, Denominations(b.accounts));
    }
  }

  lemma ClosableExactly(b: Books, year: int, actor: string, lines: seq<Line>, netIncome: int, id: string)
    requires ClosingEffect(b.accounts, b.gl.entries, year, lines, netIncome)
    requires ClosesExactly(b.accounts, b.gl.entries, year, lines) && lines != []
    ensures Postable(b, year, actor, lines, id) <==> Closable(b.accounts, b.gl.entries, year)
  {
    EngineTakesMoney(b, year, actor, lines, id);
    var accounts, entries := b.accounts, b.gl.entries;
    if forall l | l in lines :: TakesMoney(accounts, l.account) {
      forall a: AccountId | HasLineOn(lines, a) ensures TakesMoney(accounts, a) {
        var l :| l in lines && l.account == a;
      }
      assert NetAt(entries, year, PLNet(accounts)) != 0 ==> HasLineOn(lines, RETAINED_EARNINGS);
    }
    if Closable(accounts, entries, year) {
      forall l | l in lines ensures TakesMoney(accounts, l.account) {
        assert HasLineOn(lines, l.account);
      }
    }
  }

  /** Opens December closed if it is missing and posts the closing entry into it, or leaves all as it was. */
  method PostClose(s: Session, year: int, actor: string, id: string, lines: seq<Line>)
    returns (r: Result<Entry, Refusal>)
    requires Valid(s.View()) && !HasId(s.entries, id)
    modifies s
    ensures Valid(s.View())
    ensures r.Err? ==> s.View() == old(s.View())
    ensures r.Ok? <==> Postable(old(s.View()), year, actor, lines, id)
    ensures r.Ok? ==>
      && |s.entries| == |old(s.entries)| + 1 && s.entries[..|old(s.entries)|] == old(s.entries)
      && s.entries[|old(s.entries)|].fields.draft == CloseDraft(year, actor, lines)
      && s.accounts == old(s.accounts) && s.periods == WithDecember(old(s.periods), year)
  {
    var periods := s.periods;
    s.periods := WithDecember(periods, year);
    r := s.PostEntry(CloseDraft(year, actor, lines), id, true);
    if r.Err? {
      s.periods := periods;  // the request fails: the transaction is rolled back
    }
  }

  /** Closes the year or leaves the books as they were. */
  method CloseYear(s: Session, year: int, actor: string, id: string) returns (r: Result<int, CloseRefusal>)
    requires Valid(s.View()) && !HasId(s.entries, id)
    requires !IsPL(s.accounts, RETAINED_EARNINGS)
    modifies s
    ensures Valid(s.View())
    ensures r.Err? ==> s.View() == old(s.View())
    ensures r == Err(OpenPeriods) <==> old(HasOpenMonth(s.periods, year))
    ensures r == Err(NoPeriods) <==> old(!HasMonths(s.periods, year))
    ensures r == Err(AlreadyClosed) <==>
      old(HasMonths(s.periods, year) && !HasOpenMonth(s.periods, year) && YearAlreadyClosed(s.entries, year))
    ensures r == Err(NoRetainedEarnings) <==>
      old(MayClose(s.periods, s.entries, year) && RETAINED_EARNINGS !in s.accounts)
    ensures r == Err(NothingToClose) <==>
      old(MayClose(s.periods, s.entries, year) && RETAINED_EARNINGS in s.accounts
          && !exists a: AccountId :: HasPL(s.accounts, s.entries, year, a))
    ensures r.Ok? <==>
      old(MayClose(s.periods, s.entries, year) && RETAINED_EARNINGS in s.accounts
          && (exists a: AccountId :: HasPL(s.accounts, s.entries, year, a)) && Closable(s.accounts, s.entries, year))
    ensures r.Ok? ==>
      && ClosedBy(old(s.accounts), old(s.entries), s.entries, year, r.value)
      && s.periods == WithMonths(WithDecember(old(s.periods), year), year + 1, 12)
  {
    var refusal := RefuseClose(s, year);
    if refusal.Some? {
      return Err(refusal.value);
    }
    if RETAINED_EARNINGS !in s.accounts {
      return Err(NoRetainedEarnings);
    }
    var lines, netIncome := Preview(s.accounts, s.entries, year);
    if lines == [] {
      return Err(NothingToClose);
    }
    ClosableExactly(s.View(), year, actor, lines, netIncome, id);
    var posted := PostClose(s, year, actor, id, lines);
    if posted.Err? {
      return Err(Refused(posted.error));
    }
    FinishClose(s, year, netIncome, id);
    r := Ok(netIncome);
  }

  /** A closed year stays closed: its closing entry cannot be reversed, and no other posting or reversal
      makes it count less, whatever the ledger held before. */
  lemma ClosedForGood(b: Books, year: int, originalId: string, date: Date, memo: string, actor: string, id: string)
    requires Valid(b) && !HasId(b.gl.entries, id) && YearAlreadyClosed(b.gl.entries, year)
    requires ReverseOutcome(b, originalId, date, memo, actor, id).Ok?
    ensures YearAlreadyClosed(ReverseOutcome(b, originalId, date, memo, actor, id).value.gl.entries, year)
  {
    var k := IndexOf(b.gl.entries, originalId);
    var d := ReversalDraft(b.gl.entries[k], date, memo, actor);
    assert ReversalOfAt(b.gl.entries, k, d);
    PostedKeepsClosed(b, year, d, id);
  }

  /** The same for any entry the engine takes. */
  lemma PostedKeepsClosed(b: Books, year: int, d: Draft, id: string)
    requires Valid(b) && !HasId(b.gl.entries, id) && !IsDuplicate(b.gl.entries, d)
    requires d.reverses.Some? ==> exists i :: ReversalOfAt(b.gl.entries, i, d)
    requires YearAlreadyClosed(b.gl.entries, year)
    ensures YearAlreadyClosed(Posted(b, d, id).gl.entries, year)
  {
    var entries, more := b.gl.entries, Posted(b, d, id).gl.entries;
    var i :| 0 <= i < |entries| && entries[i].fields.draft.sourceType == YEAR_CLOSE
             && entries[i].fields.draft.date.year == year && !HasReversal(entries, entries[i].id);
    AppendReversesNoClose(b.gl, id, d, b.clock + 1, i);
    assert more[i] == entries[i];
  }

  // ---- Runs of postings and year closes ----

  datatype Event = Posting(entry: Entry) | Closing(year: int, entry: Entry, netIncome: int)

  function EntriesOf(h: seq<Event>): seq<Entry> {
    seq(|h|, i requires 0 <= i < |h| => h[i].entry)
  }

  function LastClosed(h: seq<Event>): Option<int> {
    if h == [] then None
    else if h[|h| - 1].Closing? then Some(h[|h| - 1].year) else LastClosed(h[..|h| - 1])
  }

  /** Year closes in increasing order, and nothing posted into a year that is closed. */
  ghost predicate Legal(accounts: Accounts, h: seq<Event>) {
    h == [] ||
    var past, last, closed := h[..|h| - 1], h[|h| - 1], LastClosed(h[..|h| - 1]);
    && Legal(accounts, past)
    && match last
       case Posting(e) => closed.Some? ==> e.fields.draft.date.year > closed.value
       case Closing(year, e, netIncome) =>
         && (closed.Some? ==> year > closed.value)
         && e.fields.draft.date == YearEnd(year)
         && ClosingEffect(accounts, EntriesOf(past), year, e.fields.draft.lines, netIncome)
  }

  lemma EntriesSnoc(h: seq<Event>, year: int, net: Line -> int)
    requires h != []
    ensures NetAt(EntriesOf(h), year, net) ==
      NetAt(EntriesOf(h[..|h| - 1]), year, net) + UpTo(year, net)(h[|h| - 1].entry)
  {
    assert EntriesOf(h) == EntriesOf(h[..|h| - 1]) + [h[|h| - 1].entry];
    SumSnoc(EntriesOf(h[..|h| - 1]), h[|h| - 1].entry, UpTo(year, net));
  }

  lemma {:induction false} LastClosedIsLatest(accounts: Accounts, h: seq<Event>, i: nat)
    requires Legal(accounts, h) && i < |h| && h[i].Closing?
    ensures LastClosed(h).Some? && h[i].year <= LastClosed(h).value
  {
    if i < |h| - 1 {
      LastClosedIsLatest(accounts, h[..|h| - 1], i);
    }
  }

  /** Every income and expense account nets to zero at the 31 December of every closed year, for good. */
  lemma {:induction false} ClosedYearsNetToZero(accounts: Accounts, h: seq<Event>, i: nat, a: AccountId)
    requires Legal(accounts, h) && i < |h| && h[i].Closing?
    requires IsPL(accounts, a) && a != RETAINED_EARNINGS
    ensures NetAt(EntriesOf(h), h[i].year, AccountNet(a)) == 0
  {
    EntriesSnoc(h, h[i].year, AccountNet(a));
    if i < |h| - 1 {
      ClosedYearsNetToZero(accounts, h[..|h| - 1], i, a);
      LastClosedIsLatest(accounts, h[..|h| - 1], i);
    }
  }

  lemma {:induction false} SplitYears(entries: seq<Entry>, after: int, year: int, net: Line -> int)
    requires after <= year
    ensures NetAt(entries, year, net) == NetAt(entries, after, net) + Sum(entries, Within(after, year, net))
  {
    if entries != [] {
      SplitYears(entries[..|entries| - 1], after, year, net);
    }
  }

  /** Profit and loss over all accounts is zero when it is zero on each. */
  lemma {:induction false} ZeroOnEachIsZero(accounts: Accounts, lines: seq<Line>, todo: set<AccountId>)
    requires forall a | a in todo && IsPL(accounts, a) :: Sum(lines, AccountNet(a)) == 0
    ensures Sum(lines, PLAmong(accounts, todo)) == 0
    decreases |todo|
  {
    if todo == {} {
      SumZero(lines, PLAmong(accounts, {}));
    } else {
      var a :| a in todo;
      ZeroOnEachIsZero(accounts, lines, todo - {a});
      OneMoreAccount(accounts, lines, todo - {a}, a);
      assert todo - {a} + {a} == todo;
    }
  }

  lemma CumulativePLIsZero(accounts: Accounts, entries: seq<Entry>, year: int)
    requires forall a: AccountId | IsPL(accounts, a) :: NetAt(entries, year, AccountNet(a)) == 0
    ensures NetAt(entries, year, PLNet(accounts)) == 0
  {
    var lines := TrialBalance.LinesAsOf(entries, YearEnd(year));
    forall a | a in accounts.Keys && IsPL(accounts, a) ensures Sum(lines, AccountNet(a)) == 0 {
      LinesAsOfYearEnd(entries, year, AccountNet(a));
    }
    ZeroOnEachIsZero(accounts, lines, accounts.Keys);
    SumEq(lines, PLAmong(accounts, accounts.Keys), PLNet(accounts));
    LinesAsOfYearEnd(entries, year, PLNet(accounts));
  }

  lemma {:induction false} SomeClosing(accounts: Accounts, h: seq<Event>) returns (i: nat)
    requires LastClosed(h).Some?
    ensures i < |h| && h[i].Closing? && h[i].year == LastClosed(h).value
  {
    if h[|h| - 1].Closing? {
      i := |h| - 1;
    } else {
      i := SomeClosing(accounts, h[..|h| - 1]);
    }
  }

  /** Each close moves into retained earnings exactly the profit of the years since the previous close,
      although it reads a cumulative trial balance; it balances, and moves no metal. */
  lemma CloseTakesItsOwnYear(accounts: Accounts, h: seq<Event>)
    requires h != [] && Legal(accounts, h) && h[|h| - 1].Closing?
    requires !IsPL(accounts, RETAINED_EARNINGS)
    ensures var past, c := h[..|h| - 1], h[|h| - 1];
      var lines := c.entry.fields.draft.lines;
      && MoneyBalanced(lines) && (forall l | l in lines :: !l.HasMetal())
      && Sum(lines, AccountNet(RETAINED_EARNINGS)) == -c.netIncome
      && (LastClosed(past).Some? ==>
            c.netIncome == -Sum(EntriesOf(past), Within(LastClosed(past).value, c.year, PLNet(accounts))))
      && (LastClosed(past) == None ==> c.netIncome == -NetAt(EntriesOf(past), c.year, PLNet(accounts)))
  {
    var past, c := h[..|h| - 1], h[|h| - 1];
    if LastClosed(past).Some? {
      var previous := LastClosed(past).value;
      var i := SomeClosing(accounts, past);
      forall a: AccountId | IsPL(accounts, a) ensures NetAt(EntriesOf(past), previous, AccountNet(a)) == 0 {
        ClosedYearsNetToZero(accounts, past, i, a);
      }
      CumulativePLIsZero(accounts, EntriesOf(past), previous);
      SplitYears(EntriesOf(past), previous, c.year, PLNet(accounts));
    }
  }
}
