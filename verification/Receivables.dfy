/** Accounts receivable in USD (`app/core/ar.py`): standalone and credit-sale invoices, receipts applied
    oldest-first, and the tie-out of the AR control account with the customers' open balances. */
module Receivables {
  import opened Wrappers
  import opened Sums
  import opened Rounding
  import opened Journal
  import opened Fifo
  import SettlementFx
  import Orders
  import SalePostings

  datatype InvoiceStatus = OPEN | PARTIAL | PAID
  /** `no` is the rank of the invoice number in the database's text order. */
  datatype Invoice = Invoice(customer: Id, date: int, no: int, subtotal: int, vat: int, total: int, paid: int,
                             status: InvoiceStatus)
  datatype ReceiptDoc = ReceiptDoc(customer: Id, amount: int, unapplied: int)

  datatype Refused = CustomerMissing | OverLimit | AmountNotPositive | PostingRefused

  function Owed(i: Invoice): int { i.total - i.paid }
  function StillOwed(i: Invoice): int { if i.status == PAID then 0 else i.total - i.paid }
  function Unapplied(r: ReceiptDoc): int { r.unapplied }

  /** The amounts stay within the total and the status says what they say. */
  ghost predicate SoundInvoice(i: Invoice) {
    && 0 <= i.paid <= i.total
    && (i.status == OPEN ==> i.paid == 0)
    && (i.status == PARTIAL ==> 0 < i.paid < i.total)
    && (i.status == PAID ==> i.paid == i.total)
  }
  ghost predicate Sound(invoices: seq<Invoice>) { forall i | i in invoices :: SoundInvoice(i) }
  ghost predicate SoundReceipts(receipts: seq<ReceiptDoc>) { forall r | r in receipts :: 0 <= r.unapplied <= r.amount }

  // ---- Open balances ----

  function CustomerOf(i: Invoice): Id { i.customer }
  function PayerOf(r: ReceiptDoc): Id { r.customer }

  /** customer_open_balance: what open and partly paid invoices are short of, less unapplied receipts. */
  function OpenBalance(invoices: seq<Invoice>, receipts: seq<ReceiptDoc>, c: Id): int {
    Sum(invoices, InGroup(CustomerOf, StillOwed, c)) - Sum(receipts, InGroup(PayerOf, Unapplied, c))
  }

  /** The tie-out, over all documents at once; `AllBalances` says it is the sum over customers. */
  ghost predicate TiesOut(lines: seq<Line>, invoices: seq<Invoice>, receipts: seq<ReceiptDoc>) {
    Sum(lines, AccountNet(AR)) == Sum(invoices, Owed) - Sum(receipts, Unapplied)
  }

  ghost predicate Distinct(customers: seq<Id>) {
    forall i, j | 0 <= i < j < |customers| :: customers[i] != customers[j]
  }
  ghost predicate Covers(customers: seq<Id>, invoices: seq<Invoice>, receipts: seq<ReceiptDoc>) {
    (forall i | i in invoices :: i.customer in customers) && (forall r | r in receipts :: r.customer in customers)
  }

  ghost function Balances(invoices: seq<Invoice>, receipts: seq<ReceiptDoc>): Id -> int {
    (c: Id) => OpenBalance(invoices, receipts, c)
  }

  lemma AllBalances(customers: seq<Id>, invoices: seq<Invoice>, receipts: seq<ReceiptDoc>)
    requires Distinct(customers) && Covers(customers, invoices, receipts) && Sound(invoices)
    ensures Sum(customers, Balances(invoices, receipts)) == Sum(invoices, Owed) - Sum(receipts, Unapplied)
  {
    SumGrouped(customers, invoices, CustomerOf, StillOwed);
    SumGrouped(customers, receipts, PayerOf, Unapplied);
    SumDiff(customers, GroupSum(invoices, CustomerOf, StillOwed), GroupSum(receipts, PayerOf, Unapplied),
            Balances(invoices, receipts));
    forall i | i in invoices ensures StillOwed(i) == Owed(i) {
      assert SoundInvoice(i);
    }
    SumEq(invoices, StillOwed, Owed);
  }

  /** verify_ar_control: matches exactly when the books tie out. */
  method VerifyArControl(lines: seq<Line>, customers: seq<Id>, invoices: seq<Invoice>, receipts: seq<ReceiptDoc>)
    returns (matches: bool)
    requires Distinct(customers) && Covers(customers, invoices, receipts) && Sound(invoices)
    ensures matches <==> TiesOut(lines, invoices, receipts)
  {
    var sub, i := 0, 0;
    while i < |customers|
      invariant 0 <= i <= |customers|
      invariant sub == Sum(customers[..i], Balances(invoices, receipts))
    {
      SumPrefix(customers, i, Balances(invoices, receipts));
      sub := sub + OpenBalance(invoices, receipts, customers[i]);
      i := i + 1;
    }
    assert customers[..|customers|] == customers;
    AllBalances(customers, invoices, receipts);
    matches := Sum(lines, AccountNet(AR)) == sub;
  }

  // ---- A customer's open invoices, oldest first ----

  predicate Selected(i: Invoice, c: Id) { i.customer == c && i.status != PAID }
  predicate Before(i: Invoice, j: Invoice) { i.date < j.date || (i.date == j.date && i.no <= j.no) }

  ghost predicate Indices(order: seq<nat>, n: nat) {
    && (forall p | 0 <= p < |order| :: order[p] < n)
    && forall p, q | 0 <= p < q < |order| :: order[p] != order[q]
  }
  ghost predicate Sorted(order: seq<nat>, invoices: seq<Invoice>)
    requires Indices(order, |invoices|)
  {
    forall p, q | 0 <= p < q < |order| :: Before(invoices[order[p]], invoices[order[q]])
  }
  ghost predicate Queue(order: seq<nat>, invoices: seq<Invoice>, n: nat, c: Id)
    requires n <= |invoices|
  {
    && Indices(order, |invoices|) && Sorted(order, invoices)
    && forall i: nat | i < |invoices| :: i in order <==> i < n && Selected(invoices[i], c)
  }

  function Insert(order: seq<nat>, invoices: seq<Invoice>, i: nat): (r: seq<nat>)
    requires i < |invoices| && forall p | 0 <= p < |order| :: order[p] < |invoices|
    ensures forall j: nat :: j in r <==> j in order || j == i
  {
    var n := |order| - 1;
    if order == [] || Before(invoices[order[n]], invoices[i]) then order + [i]
    else
      var r := Insert(order[..n], invoices, i) + [order[n]];
      assert order == order[..n] + [order[n]];
      r
  }

  lemma {:induction false} InsertSorts(order: seq<nat>, invoices: seq<Invoice>, i: nat)
    requires i < |invoices| && Indices(order, |invoices|) && Sorted(order, invoices) && i !in order
    ensures Indices(Insert(order, invoices, i), |invoices|) && Sorted(Insert(order, invoices, i), invoices)
  {
    var n := |order| - 1;
    if order == [] || Before(invoices[order[n]], invoices[i]) {
    } else {
      InsertSorts(order[..n], invoices, i);
      var head := Insert(order[..n], invoices, i);
      forall p | 0 <= p < |head|
        ensures head[p] != order[n] && Before(invoices[head[p]], invoices[order[n]])
      {
        assert head[p] in head;
        if head[p] != i {
          var q :| 0 <= q < n && order[..n][q] == head[p];
          assert order[q] == head[p];
        }
      }
    }
  }

  /** SELECT ... WHERE open ORDER BY invoice_date, invoice_no, as row positions. */
  function OldestFirst(invoices: seq<Invoice>, n: nat, c: Id): (order: seq<nat>)
    requires n <= |invoices|
    ensures forall i: nat | i in order :: i < n
  {
    if n == 0 then []
    else
      var order := OldestFirst(invoices, n - 1, c);
      assert forall p | 0 <= p < |order| :: order[p] in order;
      if Selected(invoices[n - 1], c) then Insert(order, invoices, n - 1) else order
  }

  lemma {:induction false} OldestFirstIsQueue(invoices: seq<Invoice>, n: nat, c: Id)
    requires n <= |invoices|
    ensures Queue(OldestFirst(invoices, n, c), invoices, n, c)
  {
    if n > 0 {
      OldestFirstIsQueue(invoices, n - 1, c);
      var order := OldestFirst(invoices, n - 1, c);
      assert n - 1 !in order;
      if Selected(invoices[n - 1], c) {
        InsertSorts(order, invoices, n - 1);
      }
    }
  }

  // ---- Applying a receipt ----

  function Min(x: int, y: int): int { if x < y then x else y }

  /** `_apply_to_invoice` */
  function ApplyTo(i: Invoice, amount: int): Invoice {
    var paid := i.paid + Min(amount, Owed(i));
    i.(paid := paid, status := if paid >= i.total then PAID else PARTIAL)
  }

  /** What the queue is owed, in order. */
  ghost function Debts(invoices: seq<Invoice>, order: seq<nat>): seq<Outstanding>
    requires forall p | 0 <= p < |order| :: order[p] < |invoices|
  {
    seq(|order|, p requires 0 <= p < |order| => Outstanding(invoices[order[p]].date, Owed(invoices[order[p]])))
  }

  /** Part of the way: `p` invoices of the queue are done, `left` cents remain. */
  ghost predicate Applying(before: seq<Invoice>, now: seq<Invoice>, order: seq<nat>, amount: int, left: int, p: nat) {
    && Indices(order, |before|) && |now| == |before| && p <= |order|
    && Sound(now)
    && Applied(Debts(before, order), Debts(now, order), amount, left, p)
    && (forall i: nat | i < |before| && i !in order[..p] :: now[i] == before[i])
    && (forall i: nat | i < |before| :: now[i] == before[i].(paid := now[i].paid, status := now[i].status))
    && Sum(now, Owed) == Sum(before, Owed) - (amount - left)
  }

  lemma DebtsOfUpdate(now: seq<Invoice>, order: seq<nat>, p: nat, i: Invoice)
    requires Indices(order, |now|) && p < |order| && i.date == now[order[p]].date
    ensures Debts(now[order[p] := i], order) == Debts(now, order)[p := Outstanding(i.date, Owed(i))]
  {
  }

  lemma ApplyKeepsSound(i: Invoice, left: int)
    requires SoundInvoice(i) && left > 0
    ensures SoundInvoice(ApplyTo(i, left))
  {
  }

  lemma DebtsStep(before: seq<Invoice>, now: seq<Invoice>, order: seq<nat>, amount: int, left: int, p: nat)
    requires Sound(before) && Indices(order, |before|) && |now| == |before| && p < |order| && left > 0
    requires Applied(Debts(before, order), Debts(now, order), amount, left, p)
    ensures var i := now[order[p]];
      Applied(Debts(before, order), Debts(now[order[p] := ApplyTo(i, left)], order), amount,
              left - Min(left, Owed(i)), p + 1)
  {
    var i := now[order[p]];
    NoDebtNegative(before, order);
    ApplyStep(Debts(before, order), Debts(now, order), amount, left, p, Min(left, Owed(i)));
    DebtsOfUpdate(now, order, p, ApplyTo(i, left));
  }

  lemma ApplyOne(before: seq<Invoice>, now: seq<Invoice>, order: seq<nat>, amount: int, left: int, p: nat)
    requires Sound(before) && Applying(before, now, order, amount, left, p) && p < |order| && left > 0
    ensures var i := now[order[p]];
      Applying(before, now[order[p] := ApplyTo(i, left)], order, amount, left - Min(left, Owed(i)), p + 1)
  {
    var i := now[order[p]];
    assert i in now;
    ApplyKeepsSound(i, left);
    DebtsStep(before, now, order, amount, left, p);
    SumUpdate(now, order[p], ApplyTo(i, left), Owed);
    OneMore(order, p);
  }

  lemma NoDebtNegative(invoices: seq<Invoice>, order: seq<nat>)
    requires Sound(invoices) && forall p | 0 <= p < |order| :: order[p] < |invoices|
    ensures NoneNegative(Debts(invoices, order))
  {
    forall p | 0 <= p < |order| ensures Debts(invoices, order)[p].amt >= 0 {
      assert invoices[order[p]] in invoices;
    }
  }

  /** What a receipt of `amount` does to the invoices: FIFO over the customer's open ones, oldest first,
      and nothing to any other invoice; what no invoice needs is left over. */
  ghost predicate FifoApplied(before: seq<Invoice>, after: seq<Invoice>, c: Id, amount: int, left: int) {
    var order := OldestFirst(before, |before|, c);
    && Queue(order, before, |before|, c) && |after| == |before| && Sound(after)
    && Debts(after, order) == Remaining(Debts(before, order), amount)
    && left == Max(amount - Sum(Debts(before, order), Amt), 0)
    && (forall i: nat | i < |before| && i !in order :: after[i] == before[i])
    && (forall i: nat | i < |before| :: after[i] == before[i].(paid := after[i].paid, status := after[i].status))
    && Sum(after, Owed) == Sum(before, Owed) - (amount - left)
  }

  lemma QueueDone(before: seq<Invoice>, now: seq<Invoice>, order: seq<nat>, amount: int, left: int, p: nat)
    requires Sound(before) && Indices(order, |before|) && |now| == |before| && amount > 0
    requires Applied(Debts(before, order), Debts(now, order), amount, left, p) && (p == |order| || left <= 0)
    ensures Debts(now, order) == Remaining(Debts(before, order), amount)
    ensures left == Max(amount - Sum(Debts(before, order), Amt), 0)
  {
    NoDebtNegative(before, order);
    AllApplied(Debts(before, order), Debts(now, order), amount, left, p);
  }

  lemma ApplyingIsFifo(before: seq<Invoice>, now: seq<Invoice>, c: Id, order: seq<nat>, amount: int, left: int, p: nat)
    requires Sound(before) && amount > 0
    requires order == OldestFirst(before, |before|, c) && Queue(order, before, |before|, c)
    requires Applying(before, now, order, amount, left, p) && (p == |order| || left <= 0)
    ensures FifoApplied(before, now, c, amount, left)
  {
    QueueDone(before, now, order, amount, left, p);
    forall i: nat | i < |before| && i !in order ensures now[i] == before[i] {
      assert i !in order[..p];
    }
  }

  lemma StartApplying(before: seq<Invoice>, order: seq<nat>, amount: int)
    requires Sound(before) && Indices(order, |before|) && amount > 0
    ensures Applying(before, before, order, amount, amount, 0)
  {
  }

  ghost predicate UsdAllocations(specs: seq<SettlementFx.Allocation>) {
    forall a | a in specs :: a.currency == SettlementFx.USD && a.rate == SettlementFx.UNIT && a.money > 0
  }

  /** Nothing is allocated to an invoice that takes nothing. */
  method Allocate(specs: seq<SettlementFx.Allocation>, applied: int) returns (more: seq<SettlementFx.Allocation>)
    requires UsdAllocations(specs) && applied >= 0
    ensures UsdAllocations(more) && Sum(more, SettlementFx.MoneyOf) == Sum(specs, SettlementFx.MoneyOf) + applied
  {
    more := specs;
    if applied > 0 {
      var spec := SettlementFx.Allocation(SettlementFx.USD, SettlementFx.UNIT, applied);
      SumSnoc(specs, spec, SettlementFx.MoneyOf);
      more := specs + [spec];
    }
  }

  /** The FIFO loop of post_receipt, with the allocations it hands to the settlement builder. */
  method ApplyReceipt(invoices: seq<Invoice>, c: Id, amount: int)
    returns (after: seq<Invoice>, left: int, specs: seq<SettlementFx.Allocation>)
    requires Sound(invoices) && amount > 0
    ensures FifoApplied(invoices, after, c, amount, left) && 0 <= left <= amount
    ensures UsdAllocations(specs) && Sum(specs, SettlementFx.MoneyOf) == amount - left
  {
    var order := OldestFirst(invoices, |invoices|, c);
    OldestFirstIsQueue(invoices, |invoices|, c);
    StartApplying(invoices, order, amount);
    after, left, specs := invoices, amount, [];
    var p := 0;
    while p < |order| && left > 0
      invariant 0 <= p <= |order| && 0 <= left <= amount
      invariant Applying(invoices, after, order, amount, left, p)
      invariant UsdAllocations(specs) && Sum(specs, SettlementFx.MoneyOf) == amount - left
    {
      ApplyOne(invoices, after, order, amount, left, p);
      var i := after[order[p]];
      assert i in after;
      var applied := Min(left, Owed(i));
      after := after[order[p] := ApplyTo(i, left)];
      specs := Allocate(specs, applied);
      left := left - applied;
      p := p + 1;
    }
    ApplyingIsFifo(invoices, after, c, order, amount, left, p);
  }

  lemma RestOfQueue(before: seq<Invoice>, after: seq<Invoice>, order: seq<nat>, amount: int, p: nat)
    requires Indices(order, |before|) && |after| == |before| && p < |order|
    requires Debts(after, order) == Remaining(Debts(before, order), amount)
    ensures Owed(after[order[p]]) == Rest(Debts(before, order), amount, p)
    ensures Debts(before, order)[p].amt == Owed(before[order[p]])
  {
    RemainingAt(Debts(before, order), amount, p);
  }

  lemma QueueAtCut(before: seq<Invoice>, after: seq<Invoice>, order: seq<nat>, amount: int, cut: nat, p: nat)
    requires Indices(order, |before|) && |after| == |before| && p < |order|
    requires Debts(after, order) == Remaining(Debts(before, order), amount) && CutAt(Debts(before, order), amount, cut)
    ensures p < cut ==> Owed(after[order[p]]) == 0
    ensures p > cut ==> Owed(after[order[p]]) == Owed(before[order[p]])
  {
    RestOfQueue(before, after, order, amount, p);
  }

  lemma LeftOnlyIfAllCleared(s: seq<Outstanding>, amount: int, cut: nat)
    requires NoneNegative(s) && cut < |s| && amount < Sum(s[..cut + 1], Amt)
    ensures Max(amount - Sum(s, Amt), 0) == 0
  {
    OlderIsLess(s, cut + 1, |s|);
    assert s[..|s|] == s;
  }

  /** A cleared run of the queue, at most one invoice paid in part, the rest untouched. */
  ghost predicate OldestFirstUpTo(before: seq<Invoice>, after: seq<Invoice>, order: seq<nat>, cut: nat) {
    && Indices(order, |before|) && |after| == |before| && cut <= |order|
    && (forall p | 0 <= p < cut :: Owed(after[order[p]]) == 0)
    && (forall p | cut < p < |order| :: Owed(after[order[p]]) == Owed(before[order[p]]))
  }

  lemma CutOfDebts(s: seq<Outstanding>, amount: int) returns (cut: nat)
    requires NoneNegative(s) && amount > 0
    ensures CutAt(s, amount, cut)
    ensures cut < |s| ==> Max(amount - Sum(s, Amt), 0) == 0
  {
    cut := FifoHasOneCut(s, amount);
    if cut < |s| {
      LeftOnlyIfAllCleared(s, amount, cut);
    }
  }

  lemma CutOfQueue(before: seq<Invoice>, after: seq<Invoice>, order: seq<nat>, amount: int) returns (cut: nat)
    requires Sound(before) && amount > 0 && Indices(order, |before|) && |after| == |before|
    requires Debts(after, order) == Remaining(Debts(before, order), amount)
    ensures OldestFirstUpTo(before, after, order, cut)
    ensures cut < |order| ==> Max(amount - Sum(Debts(before, order), Amt), 0) == 0
  {
    NoDebtNegative(before, order);
    cut := CutOfDebts(Debts(before, order), amount);
    forall p: nat | p < |order| { QueueAtCut(before, after, order, amount, cut, p); }
  }

  /** Oldest first, nothing lost: every cent is either applied down the customer's queue or left over, and
      something is left over only if the whole queue is cleared. */
  lemma ReceiptIsOldestFirst(before: seq<Invoice>, after: seq<Invoice>, c: Id, amount: int, left: int)
    returns (cut: nat)
    requires Sound(before) && amount > 0 && FifoApplied(before, after, c, amount, left)
    ensures var order := OldestFirst(before, |before|, c);
      && Queue(order, before, |before|, c) && OldestFirstUpTo(before, after, order, cut)
      && (cut < |order| ==> left == 0)
    ensures Sum(before, Owed) - Sum(after, Owed) + left == amount
  {
    cut := CutOfQueue(before, after, OldestFirst(before, |before|, c), amount);
  }

  // ---- The receipt's entry ----

  function CurrencyCode(c: SettlementFx.Currency): string { if c.USD? then "USD" else c.code }

  /** `_leg_to_glline` */
  function LineOf(l: SettlementFx.Leg): Line {
    if l.debit
    then Line(l.account, l.base, 0, l.money, 0, CurrencyCode(l.currency), l.rate, 0, 0, None, l.memo)
    else Line(l.account, 0, l.base, 0, l.money, CurrencyCode(l.currency), l.rate, 0, 0, None, l.memo)
  }
  function LinesOf(legs: seq<SettlementFx.Leg>): seq<Line> {
    seq(|legs|, i requires 0 <= i < |legs| => LineOf(legs[i]))
  }

  function LegNet(a: AccountId): SettlementFx.Leg -> int {
    (l: SettlementFx.Leg) => if l.account == a then SettlementFx.SignedBase(l) else 0
  }

  lemma LegsBalance(legs: seq<SettlementFx.Leg>)
    requires Sum(legs, SettlementFx.DebitBase) == Sum(legs, SettlementFx.CreditBase)
    ensures EntryBalanced(LinesOf(legs))
  {
    SumDiff(legs, SettlementFx.DebitBase, SettlementFx.CreditBase, SettlementFx.SignedBase);
    SumZip(legs, LinesOf(legs), SettlementFx.SignedBase, BaseNet);
    forall k: string { SumZero(LinesOf(legs), KaratNet(k)); }
  }

  lemma ControlOnAr(legs: seq<SettlementFx.Leg>, specs: seq<SettlementFx.Allocation>)
    requires UsdAllocations(specs)
    requires SettlementFx.ControlLegs(legs, SettlementFx.Receipt, AR, SettlementFx.USD, specs)
    ensures Sum(legs, LegNet(AR)) == -Sum(specs, SettlementFx.MoneyOf)
  {
    var minus := (a: SettlementFx.Allocation) => -SettlementFx.MoneyOf(a);
    var zero := (a: SettlementFx.Allocation) => 0;
    forall i | 0 <= i < |legs| ensures LegNet(AR)(legs[i]) == minus(specs[i]) {
      assert specs[i] in specs;
      SettlementFx.CashAtUnit(specs[i].money);
    }
    SumZip(legs, specs, LegNet(AR), minus);
    SumZero(specs, zero);
    SumDiff(specs, zero, SettlementFx.MoneyOf, minus);
  }

  /** At equal rates there is no FX leg: the control legs, then the cash. */
  lemma ReceiptLegs(legs: seq<SettlementFx.Leg>, specs: seq<SettlementFx.Allocation>, cash: AccountId)
    requires UsdAllocations(specs)
    requires SettlementFx.SettlementPosted(legs, SettlementFx.Receipt, SettlementFx.USD, specs, AR, cash,
                                           SettlementFx.USD, SettlementFx.UNIT)
    ensures |legs| == |specs| + 1 && legs == legs[..|specs|] + [legs[|specs|]] && legs[|specs|].account == cash
    ensures SettlementFx.ControlLegs(legs[..|specs|], SettlementFx.Receipt, AR, SettlementFx.USD, specs)
  {
    SettlementFx.AtUnitNoDifference(specs, true);
    assert legs[|specs| + 1..] == [];
  }

  /** The receipt's entry takes exactly the receipt off AR. */
  lemma ReceiptOnAr(legs: seq<SettlementFx.Leg>, specs: seq<SettlementFx.Allocation>, cash: AccountId)
    requires UsdAllocations(specs) && cash != AR
    requires |legs| == |specs| + 1 && legs == legs[..|specs|] + [legs[|specs|]] && legs[|specs|].account == cash
    requires SettlementFx.ControlLegs(legs[..|specs|], SettlementFx.Receipt, AR, SettlementFx.USD, specs)
    ensures Sum(LinesOf(legs), AccountNet(AR)) == -Sum(specs, SettlementFx.MoneyOf)
  {
    ControlOnAr(legs[..|specs|], specs);
    SumSnoc(legs[..|specs|], legs[|specs|], LegNet(AR));
    LinesAsLegs(legs, AR);
  }

  lemma LinesAsLegs(legs: seq<SettlementFx.Leg>, a: AccountId)
    ensures Sum(LinesOf(legs), AccountNet(a)) == Sum(legs, LegNet(a))
  {
    forall i | 0 <= i < |legs| ensures LegNet(a)(legs[i]) == AccountNet(a)(LinesOf(legs)[i]) {
      assert LinesOf(legs)[i] == LineOf(legs[i]);
    }
    SumZip(legs, LinesOf(legs), LegNet(a), AccountNet(a));
  }

  method ReceiptEntry(specs: seq<SettlementFx.Allocation>, left: int, cash: AccountId) returns (lines: seq<Line>)
    requires UsdAllocations(specs) && left >= 0 && (specs != [] || left > 0)
    ensures EntryBalanced(lines)
    ensures cash != AR ==> Sum(lines, AccountNet(AR)) == -(Sum(specs, SettlementFx.MoneyOf) + left)
  {
    var all := specs;
    if left > 0 {
      var over := SettlementFx.Allocation(SettlementFx.USD, SettlementFx.UNIT, left);
      SumSnoc(specs, over, SettlementFx.MoneyOf);
      all := specs + [over];
    }
    var legs := SettlementFx.SettlementLegs(SettlementFx.Receipt, SettlementFx.USD, all, AR, cash, SettlementFx.USD,
                                            SettlementFx.UNIT);
    LegsBalance(legs.value);
    if cash != AR {
      ReceiptLegs(legs.value, all, cash);
      ReceiptOnAr(legs.value, all, cash);
    }
    lines := LinesOf(legs.value);
  }

  // ---- The invoice's entry ----

  datatype InvoiceItem = InvoiceItem(unitPrice: int, quantity: int)
  function LineTotal(l: InvoiceItem): int { l.unitPrice * l.quantity }

  /** AR against revenue and, if positive, VAT: balanced exactly when the VAT is not negative. */
  method InvoiceEntry(subtotal: int, vat: int) returns (lines: seq<Line>)
    ensures Sum(lines, AccountNet(AR)) == subtotal + vat
    ensures EntryBalanced(lines) <==> vat >= 0
  {
    var debit, revenue, tax := Debit(AR, subtotal + vat, "AR invoice"), Credit(SALES_REVENUE, subtotal, "revenue"),
                               Credit(VAT_PAYABLE, vat, "VAT");
    lines := [debit, revenue] + OneIf(vat > 0, tax);
    InvoiceNet(debit, revenue, vat > 0, tax, AccountNet(AR));
    InvoiceNet(debit, revenue, vat > 0, tax, BaseNet);
    assert Sum(lines, BaseNet) == if vat > 0 then 0 else vat;
    OnlyMoney(lines);
  }

  lemma InvoiceNet(debit: Line, revenue: Line, taxed: bool, tax: Line, net: Line -> int)
    ensures Sum([debit, revenue] + OneIf(taxed, tax), net) == net(debit) + net(revenue) + if taxed then net(tax) else 0
  {
    TwoMoneyLines(debit, revenue, net);
    SumOneIf([debit, revenue], taxed, tax, net);
  }

  lemma OnlyMoney(lines: seq<Line>)
    requires forall l | l in lines :: l.karat == None && !l.HasMetal()
    ensures EntryBalanced(lines) <==> Sum(lines, BaseNet) == 0
  {
    forall k: string { NoGrams(lines, k); }
  }

  lemma TwoMoneyLines(a: Line, b: Line, net: Line -> int)
    ensures Sum([a, b], net) == net(a) + net(b)
  {
    assert [a] + [b] == [a, b] && [] + [a] == [a];
    SumSnoc([], a, net);
    SumSnoc([a], b, net);
  }

  lemma NoGrams(lines: seq<Line>, k: string)
    requires forall l | l in lines :: l.karat == None
    ensures Sum(lines, KaratNet(k)) == 0
  {
    SumZero(lines, KaratNet(k));
  }

  /** post_sale on account: AR stands where the cash account would. */
  method CreditSaleEntry(o: Orders.Order) returns (lines: seq<Line>)
    requires SalePostings.Postable(o)
    ensures EntryBalanced(lines) && Sum(lines, AccountNet(AR)) == o.totalUsd
  {
    lines := SalePostings.PostSale(o, SalePostings.CREDIT_SALE);
  }

  // ---- The three requests keep the tie-out ----

  lemma InvoiceTies(lines: seq<Line>, invoices: seq<Invoice>, receipts: seq<ReceiptDoc>, entry: seq<Line>, i: Invoice)
    requires TiesOut(lines, invoices, receipts) && Sum(entry, AccountNet(AR)) == i.total && i.paid == 0
    ensures TiesOut(lines + entry, invoices + [i], receipts)
  {
    SumConcat(lines, entry, AccountNet(AR));
    SumSnoc(invoices, i, Owed);
  }

  lemma ReceiptTies(lines: seq<Line>, before: seq<Invoice>, after: seq<Invoice>, receipts: seq<ReceiptDoc>,
                    entry: seq<Line>, r: ReceiptDoc)
    requires TiesOut(lines, before, receipts) && Sum(entry, AccountNet(AR)) == -r.amount
    requires Sum(after, Owed) == Sum(before, Owed) - (r.amount - r.unapplied)
    ensures TiesOut(lines + entry, after, receipts + [r])
  {
    SumConcat(lines, entry, AccountNet(AR));
    SumSnoc(receipts, r, Unapplied);
  }

  /** `more` fits within the customer's limit, if there is one. */
  predicate Allowed(limits: map<Id, Option<int>>, invoices: seq<Invoice>, receipts: seq<ReceiptDoc>, c: Id, more: int)
    requires c in limits
  {
    limits[c].Some? ==> OpenBalance(invoices, receipts, c) + more <= limits[c].value
  }

  /** An accepted invoice leaves its customer within the limit. */
  lemma InvoiceWithinLimit(limits: map<Id, Option<int>>, invoices: seq<Invoice>, receipts: seq<ReceiptDoc>, i: Invoice)
    requires i.customer in limits && i.status == OPEN && i.paid == 0
    ensures OpenBalance(invoices + [i], receipts, i.customer) == OpenBalance(invoices, receipts, i.customer) + i.total
    ensures Allowed(limits, invoices, receipts, i.customer, i.total)
      <==> Allowed(limits, invoices + [i], receipts, i.customer, 0)
  {
    var owed := InGroup(CustomerOf, StillOwed, i.customer);
    SumSnoc(invoices, i, owed);
    assert owed(i) == StillOwed(i) by { assert CustomerOf(i) == i.customer; }
  }

  function InvoiceVat(items: seq<InvoiceItem>, vatPercent: int): int {
    Round(Sum(items, LineTotal) * vatPercent, 10000)
  }
  function InvoiceTotal(items: seq<InvoiceItem>, vatPercent: int): int {
    Sum(items, LineTotal) + InvoiceVat(items, vatPercent)
  }

  class Subledger {
    var limits: map<Id, Option<int>>
    var invoices: seq<Invoice>
    var receipts: seq<ReceiptDoc>
    var lines: seq<Line>
    var autoPost: bool

    ghost predicate Valid() reads this {
      && Sound(invoices) && SoundReceipts(receipts)
      && (autoPost ==> TiesOut(lines, invoices, receipts))
    }

    constructor (limits: map<Id, Option<int>>, autoPost: bool)
      ensures Valid() && this.limits == limits && this.autoPost == autoPost
      ensures invoices == [] && receipts == [] && lines == []
    {
      this.limits, this.autoPost := limits, autoPost;
      invoices, receipts, lines := [], [], [];
    }

    /** check_credit_limit */
    method LimitRefuses(customer: Id, additional: int) returns (refused: Option<Refused>)
      ensures refused == Some(CustomerMissing) <==> customer !in limits
      ensures refused == Some(OverLimit) <==>
        customer in limits && !Allowed(limits, invoices, receipts, customer, additional)
      ensures refused in {None, Some(CustomerMissing), Some(OverLimit)}
    {
      if customer !in limits {
        return Some(CustomerMissing);
      }
      if limits[customer] == None {
        return None;
      }
      var balance := OpenBalance(invoices, receipts, customer);
      if balance + additional > limits[customer].value {
        return Some(OverLimit);
      }
      return None;
    }

    /** Writes an invoice that the limit allows, with its entry if there is one. */
    method BookInvoice(i: Invoice, entry: seq<Line>)
      requires Valid() && i.status == OPEN && i.paid == 0
      requires if autoPost then EntryBalanced(entry) && Sum(entry, AccountNet(AR)) == i.total else entry == []
      requires i.customer in limits && Allowed(limits, invoices, receipts, i.customer, i.total)
      modifies `invoices, `lines
      ensures invoices == old(invoices) + [i] && old(lines) <= lines
      ensures if autoPost then EntryBalanced(lines[|old(lines)|..]) else lines == old(lines)
      ensures autoPost ==> TiesOut(lines, invoices, receipts)
      ensures Valid() <==> i.total >= 0
      ensures Allowed(limits, invoices, receipts, i.customer, 0)
    {
      if autoPost {
        InvoiceTies(lines, invoices, receipts, entry, i);
      }
      assert i in invoices + [i];
      assert (lines + entry)[|lines|..] == entry;
      InvoiceWithinLimit(limits, invoices, receipts, i);
      invoices, lines := invoices + [i], lines + entry;
    }

    /** post_standalone_invoice, for a USD customer. The books stay sound exactly when the total is not
        negative: a negative one is stored all the same. */
    method PostInvoice(customer: Id, date: int, no: int, items: seq<InvoiceItem>, vatPercent: int, accepts: bool)
      returns (r: Result<Invoice, Refused>)
      requires Valid()
      modifies this
      ensures limits == old(limits) && autoPost == old(autoPost) && receipts == old(receipts)
      ensures r.Err? ==> invoices == old(invoices) && lines == old(lines)
      ensures r == Err(CustomerMissing) <==> customer !in limits
      ensures r == Err(OverLimit) <==>
        customer in limits && !Allowed(limits, old(invoices), receipts, customer, InvoiceTotal(items, vatPercent))
      ensures r.Ok? <==>
        && customer in limits && Allowed(limits, old(invoices), receipts, customer, InvoiceTotal(items, vatPercent))
        && (autoPost ==> InvoiceVat(items, vatPercent) >= 0 && accepts)
      ensures r.Ok? ==> customer in limits && Allowed(limits, invoices, receipts, customer, 0)
      ensures r.Ok? ==>
        && r.value == Invoice(customer, date, no, Sum(items, LineTotal), InvoiceVat(items, vatPercent),
                              InvoiceTotal(items, vatPercent), 0, OPEN)
        && invoices == old(invoices) + [r.value] && old(lines) <= lines
        && (if autoPost then EntryBalanced(lines[|old(lines)|..]) else lines == old(lines))
      ensures autoPost ==> TiesOut(lines, invoices, receipts)
      ensures Valid() <==> r.Err? || r.value.total >= 0
    {
      var subtotal := Sum(items, LineTotal);
      var vat := InvoiceVat(items, vatPercent);
      var refusal := LimitRefuses(customer, subtotal + vat);
      if refusal.Some? {
        return Err(refusal.value);
      }
      var entry := [];
      if autoPost {
        entry := InvoiceEntry(subtotal, vat);
        if vat < 0 || !accepts {  // an unbalanced entry is refused by the engine
          return Err(PostingRefused);
        }
      }
      var i := Invoice(customer, date, no, subtotal, vat, subtotal + vat, 0, OPEN);
      BookInvoice(i, entry);
      return Ok(i);
    }

    /** A checkout on account: the limit is checked, the sale posted with AR as its cash account, and the
        invoice created for the order's total (`create_invoice_from_order`). */
    method CreditSale(customer: Id, o: Orders.Order, date: int, no: int, accepts: bool)
      returns (r: Result<Invoice, Refused>)
      requires Valid() && SalePostings.Postable(o) && o.totalUsd >= 0
      modifies this
      ensures Valid() && limits == old(limits) && autoPost == old(autoPost) && receipts == old(receipts)
      ensures r.Err? ==> invoices == old(invoices) && lines == old(lines)
      ensures r == Err(CustomerMissing) <==> customer !in limits
      ensures r == Err(OverLimit) <==>
        customer in limits && !Allowed(limits, old(invoices), receipts, customer, o.totalUsd)
      ensures r.Ok? <==>
        && customer in limits && Allowed(limits, old(invoices), receipts, customer, o.totalUsd)
        && (autoPost ==> accepts)
      ensures r.Ok? ==> customer in limits && Allowed(limits, invoices, receipts, customer, 0)
      ensures r.Ok? ==>
        && r.value == Invoice(customer, date, no, o.subtotal, o.vatAmount, o.totalUsd, 0, OPEN)
        && invoices == old(invoices) + [r.value] && old(lines) <= lines
        && (if autoPost then EntryBalanced(lines[|old(lines)|..]) else lines == old(lines))
    {
      var refusal := LimitRefuses(customer, o.totalUsd);
      if refusal.Some? {
        return Err(refusal.value);
      }
      var entry := [];
      if autoPost {
        entry := CreditSaleEntry(o);
        if !accepts {
          return Err(PostingRefused);
        }
      }
      var i := Invoice(customer, date, no, o.subtotal, o.vatAmount, o.totalUsd, 0, OPEN);
      BookInvoice(i, entry);
      return Ok(i);
    }

    /** post_receipt without explicit allocations, into a USD tender account. */
    method PostReceipt(customer: Id, amount: int, cash: AccountId, accepts: bool)
      returns (r: Result<ReceiptDoc, Refused>)
      requires Valid() && cash != AR
      modifies this
      ensures Valid() && limits == old(limits) && autoPost == old(autoPost)
      ensures r.Err? ==> invoices == old(invoices) && receipts == old(receipts) && lines == old(lines)
      ensures amount <= 0 ==> r == Err(AmountNotPositive)
      ensures amount > 0 && (accepts || !autoPost) ==> r.Ok?
      ensures r.Ok? ==>
        && amount > 0 && r.value.customer == customer && r.value.amount == amount
        && FifoApplied(old(invoices), invoices, customer, amount, r.value.unapplied)
        && receipts == old(receipts) + [r.value] && old(lines) <= lines
        && (if autoPost then EntryBalanced(lines[|old(lines)|..]) else lines == old(lines))
    {
      if amount <= 0 {
        return Err(AmountNotPositive);
      }
      var after, left, specs := ApplyReceipt(invoices, customer, amount);
      var doc := ReceiptDoc(customer, amount, left);
      var entry := [];
      if autoPost {
        entry := ReceiptEntry(specs, left, cash);
        if !accepts {
          return Err(PostingRefused);
        }
        ReceiptTies(lines, invoices, after, receipts, entry, doc);
      }
      assert (lines + entry)[|lines|..] == entry;
      invoices, receipts, lines := after, receipts + [doc], lines + entry;
      return Ok(doc);
    }
  }
}
