/** `create_purchase` and `create_payment` as a desk that owns their tables, and the three-way tie-out. */
module SupplierDesk {
  import opened Wrappers
  import opened Sums
  import opened Journal
  import opened Suppliers

  /** What a committed request leaves behind. */
  datatype Book = Book(rows: seq<BalanceRow>, purchases: seq<Purchase>, payments: seq<Payment>,
                       lots: map<Id, Lot>, lines: seq<Line>)

  /** What every request keeps, whatever it asks for and whether or not it posts. */
  ghost predicate SoundBook(b: Book) {
    && GoodRows(b.rows) && NeverOverpaid(b.purchases) && SoundPayments(b.payments)
    && CashReconciles(b.rows, b.purchases, b.payments)
  }

  /** Stored cash balances are the cash replay. Gold may have drifted (`PurchaseReconcilesExactly`). */
  ghost predicate CashReconciles(rows: seq<BalanceRow>, purchases: seq<Purchase>, payments: seq<Payment>) {
    forall s: Id :: Sum(rows, AtKey(CashKey(s))) == Expected(purchases, payments, CashKey(s))
  }

  /** Stored balances, the replay of documents and the control accounts of the general ledger agree. */
  ghost predicate Tied(b: Book) {
    SoundBook(b) && Reconciles(b.rows, b.purchases, b.payments) && TiesOut(b.lines, b.rows)
  }

  /** No purchase was paid more cash at its creation than it cost. */
  ghost predicate NeverOverpaid(purchases: seq<Purchase>) {
    forall p | p in purchases :: 0 <= p.cashPaid <= p.cashDue
  }

  ghost predicate SoundPayments(payments: seq<Payment>) {
    forall p | p in payments :: p.amount > 0 && (p.unit == CashDebt ==> p.karat == None)
  }

  // ---- What a request does to the balance rows ----

  function Delta(q: BalanceKey, supplier: Id, cash: int, grams: Karat -> int): int {
    if q.supplier != supplier then 0
    else if q.unit == CashDebt then (if q.karat == None then cash else 0)
    else if q.karat.Some? then grams(q.karat.value) else 0
  }

  ghost predicate Moved(before: seq<BalanceRow>, after: seq<BalanceRow>, supplier: Id, cash: int,
                        grams: Karat -> int) {
    && GoodRows(after)
    && (forall q: BalanceKey :: Sum(after, AtKey(q)) == Sum(before, AtKey(q)) + Delta(q, supplier, cash, grams))
    && Sum(after, CashOf) == Sum(before, CashOf) + cash
    && (forall k: Karat :: Sum(after, GoldOf(k)) == Sum(before, GoldOf(k)) + grams(k))
  }

  lemma CashMoved(before: seq<BalanceRow>, after: seq<BalanceRow>, supplier: Id, cash: int)
    requires Adjusted(before, after, CashKey(supplier), cash)
    ensures Moved(before, after, supplier, cash, NoGrams())
  {
  }

  lemma NothingMoved(rows: seq<BalanceRow>, supplier: Id)
    requires GoodRows(rows)
    ensures Moved(rows, rows, supplier, 0, NoGrams())
  {
  }

  lemma GoldMoved(before: seq<BalanceRow>, mid: seq<BalanceRow>, after: seq<BalanceRow>, supplier: Id, cash: int,
                  grams: Karat -> int, karat: Karat, delta: int, more: Karat -> int)
    requires Moved(before, mid, supplier, cash, grams)
    requires Adjusted(mid, after, GoldKey(supplier, karat), delta)
    requires forall k: Karat :: more(k) == grams(k) + if k == karat then delta else 0
    ensures Moved(before, after, supplier, cash, more)
  {
  }

  lemma SameMove(before: seq<BalanceRow>, after: seq<BalanceRow>, supplier: Id, cash: int,
                 g: Karat -> int, h: Karat -> int)
    requires Moved(before, after, supplier, cash, g) && forall k: Karat :: g(k) == h(k)
    ensures Moved(before, after, supplier, cash, h)
  {
  }

  // ---- What a request does to the book ----

  ghost predicate Posted(before: Book, after: Book, posting: bool, cash: int, grams: Karat -> int) {
    && before.lines <= after.lines
    && var entry := after.lines[|before.lines|..];
       if posting then EntryBalanced(entry) && ControlEffect(entry, cash, grams) else entry == []
  }

  ghost predicate PurchaseEffect(before: Book, after: Book, p: Purchase, gold: seq<GoldPayment>, posting: bool) {
    && after.purchases == before.purchases + [p] && after.payments == before.payments
    && 0 <= p.cashPaid <= p.cashDue
    && (forall k: Karat :: At(p.gramsPaid, k) == Sum(gold, GramsIn(k)) && At(p.gramsPaid, k) >= 0)
    && (forall k: Karat :: At(p.gramsPaid, k) > 0 ==> At(p.gramsPaid, k) <= At(p.gramsDue, k))
    && Drawn(before.lots, after.lots, gold)
    && Moved(before.rows, after.rows, p.supplier, p.cashDue - p.cashPaid, NetGrams(p.gramsDue, p.gramsPaid))
    && Posted(before, after, posting, p.cashDue - p.cashPaid, NetGrams(p.gramsDue, p.gramsPaid))
  }

  ghost predicate PaymentEffect(before: Book, after: Book, p: Payment, gold: seq<GoldPayment>, posting: bool) {
    && after.purchases == before.purchases && after.payments == before.payments + [p]
    && p.amount > 0
    && (p.unit == CashDebt ==> p.karat == None && gold == [])
    && (p.unit == GoldDebt ==> p.karat.Some? && Sum(gold, GramsIn(p.karat.value)) == p.amount)
    && Drawn(before.lots, after.lots, gold)
    && Moved(before.rows, after.rows, p.supplier, -PaidCash(p), Repaid(p))
    && Posted(before, after, posting, -PaidCash(p), Repaid(p))
  }

  // ---- When a request is refused ----

  ghost predicate Overpays(gold: seq<GoldPayment>, due: map<Karat, int>) {
    exists k: Karat :: 0 < Sum(gold, GramsIn(k)) && Sum(gold, GramsIn(k)) > At(due, k)
  }

  datatype PurchaseRequest = PurchaseRequest(id: Id, supplier: Id, occurredOn: int, mode: PurchaseMode,
                                             cashDue: int, cashPaid: int, gramsDue: map<Karat, int>,
                                             gold: seq<GoldPayment>, goldCost: map<Karat, int>, stoneCost: int)
  datatype PaymentRequest = PaymentRequest(id: Id, supplier: Id, unit: DebtUnit, amount: int,
                                           karat: Option<Karat>, gold: seq<GoldPayment>)

  /** The checks of `create_purchase`, in its order. */
  ghost function PurchaseRefusal(suppliers: map<Id, bool>, lots: map<Id, Lot>, q: PurchaseRequest): Option<Refused> {
    if q.supplier !in suppliers || !suppliers[q.supplier] then Some(SupplierMissing)
    else if q.cashPaid > q.cashDue then Some(CashPaidTooMuch)
    else if q.mode == CASH_MODE && (q.gold != [] || q.gramsDue != map[]) then Some(GoldInCashMode)
    else if q.mode == GOLD_MODE && (q.cashPaid != 0 || q.cashDue != 0) then Some(CashInGoldMode)
    else if DrawAll(lots, q.gold).Err? then Some(DrawAll(lots, q.gold).error)
    else if Overpays(q.gold, q.gramsDue) then Some(GoldPaidTooMuch)
    else None
  }

  function GramsOf(g: GoldPayment): int { g.grams }

  /** The checks of `create_payment`, in its order: the balance is checked before any lot is drawn. */
  ghost function PaymentRefusal(suppliers: map<Id, bool>, rows: seq<BalanceRow>, lots: map<Id, Lot>,
                                q: PaymentRequest): Option<Refused> {
    if q.supplier !in suppliers then Some(SupplierMissing)
    else if q.unit == CashDebt then
      if q.karat.Some? then Some(KaratOnCash)
      else if q.gold != [] then Some(LotsOnCash)
      else if Sum(rows, AtKey(CashKey(q.supplier))) < q.amount then Some(AdjustError(rows, CashKey(q.supplier)))
      else None
    else if q.karat == None then Some(KaratRequired)
    else if q.gold == [] then Some(LotsRequired)
    else if Sum(q.gold, GramsOf) != q.amount then Some(LotsDoNotAddUp)
    else if exists g | g in q.gold :: g.karat != q.karat.value then Some(LotsOtherKarat)
    else if Sum(rows, AtKey(GoldKey(q.supplier, q.karat.value))) < q.amount then
      Some(AdjustError(rows, GoldKey(q.supplier, q.karat.value)))
    else if DrawAll(lots, q.gold).Err? then Some(DrawAll(lots, q.gold).error)
    else None
  }

  lemma OneKarat(gold: seq<GoldPayment>, k: Karat)
    requires forall g | g in gold :: g.karat == k
    ensures Sum(gold, GramsIn(k)) == Sum(gold, GramsOf)
  {
    SumEq(gold, GramsIn(k), GramsOf);
  }

  method Overpaying(paid: map<Karat, int>, due: map<Karat, int>) returns (over: bool)
    ensures over <==> exists k: Karat :: 0 < At(paid, k) && At(paid, k) > At(due, k)
  {
    over := false;
    var i := 0;
    while i < KARATS && !over
      invariant 0 <= i <= KARATS
      invariant !over ==> forall k: Karat | Rank(k) < i :: !(0 < At(paid, k) && At(paid, k) > At(due, k))
      invariant over ==> exists k: Karat :: 0 < At(paid, k) && At(paid, k) > At(due, k)
    {
      var k := KaratNo(i);
      assert forall q: Karat :: Rank(q) == i <==> q == k;
      over := At(paid, k) > 0 && At(paid, k) > At(due, k);
      i := i + 1;
    }
    assert forall k: Karat :: Rank(k) < KARATS;
  }

  lemma SumOfGoodRows(rows: seq<BalanceRow>, key: BalanceKey)
    requires GoodRows(rows)
    ensures Sum(rows, AtKey(key)) >= 0
  {
    SumNonNegative(rows, AtKey(key));
  }

  lemma GoldStep(rows: seq<BalanceRow>, mid: seq<BalanceRow>, after: seq<BalanceRow>, supplier: Id, cash: int,
                 due: map<Karat, int>, paid: map<Karat, int>, i: nat)
    requires i < KARATS && Moved(rows, mid, supplier, cash, NetUpTo(due, paid, i))
    requires if NetGrams(due, paid)(KaratNo(i)) > 0
             then Adjusted(mid, after, GoldKey(supplier, KaratNo(i)), NetGrams(due, paid)(KaratNo(i))) else after == mid
    requires NetGrams(due, paid)(KaratNo(i)) >= 0
    ensures Moved(rows, after, supplier, cash, NetUpTo(due, paid, i + 1))
  {
    var g, h, k, net := NetUpTo(due, paid, i), NetUpTo(due, paid, i + 1), KaratNo(i), NetGrams(due, paid)(KaratNo(i));
    forall q: Karat ensures h(q) == g(q) + if q == k then net else 0 {
      OneMoreKarat(due, paid, i, q);
    }
    if net > 0 {
      GoldMoved(rows, mid, after, supplier, cash, g, k, net, h);
    } else {
      SameMove(rows, mid, supplier, cash, g, h);
    }
  }

  method AddGold(rows: seq<BalanceRow>, mid: seq<BalanceRow>, supplier: Id, cash: int, due: map<Karat, int>,
                 paid: map<Karat, int>, i: nat)
    returns (after: seq<BalanceRow>)
    requires i < KARATS && Moved(rows, mid, supplier, cash, NetUpTo(due, paid, i))
    ensures Moved(rows, after, supplier, cash, NetUpTo(due, paid, i + 1))
  {
    var k := KaratNo(i);
    after := mid;
    if k in due && due[k] - At(paid, k) > 0 {
      SumOfGoodRows(mid, GoldKey(supplier, k));
      var adjusted := AdjustBalance(mid, GoldKey(supplier, k), due[k] - At(paid, k));
      after := adjusted.value;
    }
    GoldStep(rows, mid, after, supplier, cash, due, paid, i);
  }

  method AddCashDebt(rows: seq<BalanceRow>, supplier: Id, cash: int) returns (after: seq<BalanceRow>)
    requires GoodRows(rows) && cash >= 0
    ensures Moved(rows, after, supplier, cash, NoGrams())
  {
    after := rows;
    if cash > 0 {
      SumOfGoodRows(rows, CashKey(supplier));
      var adjusted := AdjustBalance(rows, CashKey(supplier), cash);
      after := adjusted.value;
      CashMoved(rows, after, supplier, cash);
    } else {
      NothingMoved(rows, supplier);
    }
  }

  lemma NoGoldYet(rows: seq<BalanceRow>, after: seq<BalanceRow>, supplier: Id, cash: int, due: map<Karat, int>,
                  paid: map<Karat, int>)
    requires Moved(rows, after, supplier, cash, NoGrams())
    ensures Moved(rows, after, supplier, cash, NetUpTo(due, paid, 0))
  {
    forall k: Karat { NoKarats(due, paid, k); }
    SameMove(rows, after, supplier, cash, NoGrams(), NetUpTo(due, paid, 0));
  }

  lemma AllGoldIn(rows: seq<BalanceRow>, after: seq<BalanceRow>, supplier: Id, cash: int, due: map<Karat, int>,
                  paid: map<Karat, int>)
    requires Moved(rows, after, supplier, cash, NetUpTo(due, paid, KARATS))
    ensures Moved(rows, after, supplier, cash, NetGrams(due, paid))
  {
    forall k: Karat { AllKarats(due, paid, k); }
    SameMove(rows, after, supplier, cash, NetUpTo(due, paid, KARATS), NetGrams(due, paid));
  }

  /** Adds what is newly owed to the balance rows: only amounts above zero. */
  method AddDebt(rows: seq<BalanceRow>, supplier: Id, cash: int, due: map<Karat, int>, paid: map<Karat, int>)
    returns (after: seq<BalanceRow>)
    requires GoodRows(rows) && cash >= 0
    ensures Moved(rows, after, supplier, cash, NetGrams(due, paid))
  {
    after := AddCashDebt(rows, supplier, cash);
    NoGoldYet(rows, after, supplier, cash, due, paid);
    var i := 0;
    while i < KARATS
      invariant 0 <= i <= KARATS
      invariant Moved(rows, after, supplier, cash, NetUpTo(due, paid, i))
    {
      after := AddGold(rows, after, supplier, cash, due, paid, i);
      i := i + 1;
    }
    AllGoldIn(rows, after, supplier, cash, due, paid);
  }

  // ---- What every request keeps ----

  lemma PostedKeepsTie(before: Book, after: Book, cash: int, grams: Karat -> int)
    requires Posted(before, after, true, cash, grams) && TiesOut(before.lines, before.rows)
    requires Sum(after.rows, CashOf) == Sum(before.rows, CashOf) + cash
    requires forall k: Karat :: Sum(after.rows, GoldOf(k)) == Sum(before.rows, GoldOf(k)) + grams(k)
    ensures TiesOut(after.lines, after.rows)
  {
    var entry := after.lines[|before.lines|..];
    assert after.lines == before.lines + entry;
    SumConcat(before.lines, entry, AccountNet(AP));
    forall k: Karat ensures -Sum(after.lines, AccountKaratNet(METAL_AP, KaratCode(k))) == Sum(after.rows, GoldOf(k)) {
      SumConcat(before.lines, entry, AccountKaratNet(METAL_AP, KaratCode(k)));
      assert Sum(entry, AccountKaratNet(METAL_AP, KaratCode(k))) == -grams(k);
    }
  }

  lemma ExpectedAfterPurchase(before: Book, after: Book, p: Purchase, key: BalanceKey)
    requires after.purchases == before.purchases + [p] && after.payments == before.payments
    ensures Expected(after.purchases, after.payments, key)
      == Expected(before.purchases, before.payments, key) + OwedAt(key)(p)
  {
    SumSnoc(before.purchases, p, OwedAt(key));
  }

  lemma ExpectedAfterPayment(before: Book, after: Book, p: Payment, key: BalanceKey)
    requires after.purchases == before.purchases && after.payments == before.payments + [p]
    ensures Expected(after.purchases, after.payments, key)
      == Expected(before.purchases, before.payments, key) - RepaidAt(key)(p)
  {
    SumSnoc(before.payments, p, RepaidAt(key));
  }

  ghost predicate NoNegativeDue(due: map<Karat, int>) { forall k | k in due :: due[k] >= 0 }

  /** How far the stored balance and the replay are apart after a purchase. */
  lemma DriftOfPurchase(before: Book, after: Book, p: Purchase, gold: seq<GoldPayment>, posting: bool, key: BalanceKey)
    requires PurchaseEffect(before, after, p, gold, posting)
    requires Sum(before.rows, AtKey(key)) == Expected(before.purchases, before.payments, key)
    ensures Sum(after.rows, AtKey(key)) - Expected(after.purchases, after.payments, key)
      == Delta(key, p.supplier, p.cashDue - p.cashPaid, NetGrams(p.gramsDue, p.gramsPaid)) - OwedAt(key)(p)
  {
    ExpectedAfterPurchase(before, after, p, key);
  }

  lemma NoDriftOfPayment(before: Book, after: Book, p: Payment, gold: seq<GoldPayment>, posting: bool, key: BalanceKey)
    requires PaymentEffect(before, after, p, gold, posting)
    requires Sum(before.rows, AtKey(key)) == Expected(before.purchases, before.payments, key)
    ensures Sum(after.rows, AtKey(key)) == Expected(after.purchases, after.payments, key)
  {
    ExpectedAfterPayment(before, after, p, key);
    if key.karat.Some? {
      assert Repaid(p)(key.karat.value) == -PaidGrams(p)(key.karat.value);
    }
    assert Delta(key, p.supplier, -PaidCash(p), Repaid(p)) == -RepaidAt(key)(p);
  }

  /** Cash balances never drift: a purchase books as cash debt what its record says is owed. */
  lemma PurchaseKeepsSound(before: Book, after: Book, p: Purchase, gold: seq<GoldPayment>, posting: bool)
    requires SoundBook(before) && PurchaseEffect(before, after, p, gold, posting)
    ensures SoundBook(after)
  {
    forall s: Id ensures Sum(after.rows, AtKey(CashKey(s))) == Expected(after.purchases, after.payments, CashKey(s)) {
      DriftOfPurchase(before, after, p, gold, posting, CashKey(s));
    }
  }

  lemma PaymentKeepsSound(before: Book, after: Book, p: Payment, gold: seq<GoldPayment>, posting: bool)
    requires SoundBook(before) && PaymentEffect(before, after, p, gold, posting)
    ensures SoundBook(after)
  {
    forall s: Id ensures Sum(after.rows, AtKey(CashKey(s))) == Expected(after.purchases, after.payments, CashKey(s)) {
      NoDriftOfPayment(before, after, p, gold, posting, CashKey(s));
    }
  }

  lemma StoredAsOwed(p: Purchase, key: BalanceKey)
    requires NoNegativeDue(p.gramsDue)
    requires forall k: Karat :: At(p.gramsPaid, k) > 0 ==> At(p.gramsPaid, k) <= At(p.gramsDue, k)
    ensures Delta(key, p.supplier, p.cashDue - p.cashPaid, NetGrams(p.gramsDue, p.gramsPaid)) == OwedAt(key)(p)
  {
    if key.unit == GoldDebt && key.karat.Some? && key.karat.value in p.gramsDue {
      var k := key.karat.value;
      assert At(p.gramsPaid, k) > 0 ==> At(p.gramsPaid, k) <= p.gramsDue[k];
    }
  }

  /** A purchase keeps the stored balances equal to the replay exactly when none of its gram dues is
      negative: the handler skips a negative due, the replay counts it. */
  lemma PurchaseReconcilesExactly(before: Book, after: Book, p: Purchase, gold: seq<GoldPayment>, posting: bool)
    requires PurchaseEffect(before, after, p, gold, posting)
    requires Reconciles(before.rows, before.purchases, before.payments)
    ensures Reconciles(after.rows, after.purchases, after.payments) <==> NoNegativeDue(p.gramsDue)
  {
    if NoNegativeDue(p.gramsDue) {
      forall key: BalanceKey
        ensures Sum(after.rows, AtKey(key)) == Expected(after.purchases, after.payments, key)
      {
        assert Sum(before.rows, AtKey(key)) == Expected(before.purchases, before.payments, key);
        DriftOfPurchase(before, after, p, gold, posting, key);
        StoredAsOwed(p, key);
      }
    } else {
      var k :| k in p.gramsDue && p.gramsDue[k] < 0;
      var key := GoldKey(p.supplier, k);
      assert At(p.gramsPaid, k) == 0;
      assert Sum(before.rows, AtKey(key)) == Expected(before.purchases, before.payments, key);
      DriftOfPurchase(before, after, p, gold, posting, key);
    }
  }

  lemma PaymentReconciles(before: Book, after: Book, p: Payment, gold: seq<GoldPayment>, posting: bool)
    requires PaymentEffect(before, after, p, gold, posting)
    requires Reconciles(before.rows, before.purchases, before.payments)
    ensures Reconciles(after.rows, after.purchases, after.payments)
  {
    forall key: BalanceKey
      ensures Sum(after.rows, AtKey(key)) == Expected(after.purchases, after.payments, key)
    {
      assert Sum(before.rows, AtKey(key)) == Expected(before.purchases, before.payments, key);
      NoDriftOfPayment(before, after, p, gold, posting, key);
    }
  }

  // ---- Runs ----

  ghost predicate PurchaseStep(before: Book, after: Book, posting: bool, clean: bool) {
    exists p: Purchase, gold: seq<GoldPayment> ::
      PurchaseEffect(before, after, p, gold, posting) && (clean ==> NoNegativeDue(p.gramsDue))
  }
  ghost predicate PaymentStep(before: Book, after: Book, posting: bool) {
    exists p: Payment, gold: seq<GoldPayment> :: PaymentEffect(before, after, p, gold, posting)
  }
  /** One accepted request; `clean` if it is to have no negative due. */
  ghost predicate Step(before: Book, after: Book, posting: bool, clean: bool) {
    PurchaseStep(before, after, posting, clean) || PaymentStep(before, after, posting)
  }

  /** A run of requests, `flags` saying whether posting was on at each. */
  ghost predicate Run(books: seq<Book>, flags: seq<bool>, clean: bool) {
    && books != [] && |flags| == |books| - 1
    && forall i | 0 < i < |books| :: Step(books[i - 1], books[i], flags[i - 1], clean)
  }
  ghost predicate PostingRun(books: seq<Book>, posting: bool) {
    exists flags: seq<bool> :: Run(books, flags, true) && forall i | 0 <= i < |flags| :: flags[i] == posting
  }

  lemma StepKeepsSound(before: Book, after: Book, posting: bool, clean: bool)
    requires SoundBook(before) && Step(before, after, posting, clean)
    ensures SoundBook(after)
  {
    if PurchaseStep(before, after, posting, clean) {
      var p: Purchase, gold: seq<GoldPayment> :| PurchaseEffect(before, after, p, gold, posting);
      PurchaseKeepsSound(before, after, p, gold, posting);
    } else {
      var p: Payment, gold: seq<GoldPayment> :| PaymentEffect(before, after, p, gold, posting);
      PaymentKeepsSound(before, after, p, gold, posting);
    }
  }

  /** In every state of every run, whatever is requested and however the switch is set, no balance is
      negative and the stored cash balances are the cash replay. */
  lemma {:induction false} RunStaysSound(books: seq<Book>, flags: seq<bool>, clean: bool)
    requires Run(books, flags, clean) && SoundBook(books[0])
    ensures SoundBook(books[|books| - 1])
  {
    var n := |books| - 1;
    if n > 0 {
      RunStaysSound(books[..n], flags[..n - 1], clean);
      StepKeepsSound(books[n - 1], books[n], flags[n - 1], clean);
    }
  }

  lemma CleanStepReconciles(before: Book, after: Book, posting: bool)
    requires Step(before, after, posting, true) && Reconciles(before.rows, before.purchases, before.payments)
    ensures Reconciles(after.rows, after.purchases, after.payments)
    ensures if posting then TiesOut(before.lines, before.rows) ==> TiesOut(after.lines, after.rows)
            else after.lines == before.lines
  {
    if PurchaseStep(before, after, posting, true) {
      var p: Purchase, gold: seq<GoldPayment> :|
        PurchaseEffect(before, after, p, gold, posting) && NoNegativeDue(p.gramsDue);
      PurchaseReconcilesExactly(before, after, p, gold, posting);
      EntryKeepsTie(before, after, posting, p.cashDue - p.cashPaid, NetGrams(p.gramsDue, p.gramsPaid));
    } else {
      var p: Payment, gold: seq<GoldPayment> :| PaymentEffect(before, after, p, gold, posting);
      PaymentReconciles(before, after, p, gold, posting);
      EntryKeepsTie(before, after, posting, -PaidCash(p), Repaid(p));
    }
  }

  lemma EntryKeepsTie(before: Book, after: Book, posting: bool, cash: int, grams: Karat -> int)
    requires Posted(before, after, posting, cash, grams)
    requires Sum(after.rows, CashOf) == Sum(before.rows, CashOf) + cash
    requires forall k: Karat :: Sum(after.rows, GoldOf(k)) == Sum(before.rows, GoldOf(k)) + grams(k)
    ensures if posting then TiesOut(before.lines, before.rows) ==> TiesOut(after.lines, after.rows)
            else after.lines == before.lines
  {
    if posting && TiesOut(before.lines, before.rows) {
      PostedKeepsTie(before, after, cash, grams);
    }
    assert after.lines == before.lines + after.lines[|before.lines|..];
  }

  /** Without a negative due, stored balances and the replay agree on every key, posting or not; with
      posting off, nothing reaches the general ledger. */
  lemma {:induction false} CleanRunReconciles(books: seq<Book>, flags: seq<bool>)
    requires Run(books, flags, true) && Reconciles(books[0].rows, books[0].purchases, books[0].payments)
    ensures var last := books[|books| - 1];
      && Reconciles(last.rows, last.purchases, last.payments)
      && ((forall i | 0 <= i < |flags| :: !flags[i]) ==> last.lines == books[0].lines)
      && ((forall i | 0 <= i < |flags| :: flags[i]) && TiesOut(books[0].lines, books[0].rows)
          ==> TiesOut(last.lines, last.rows))
  {
    var n := |books| - 1;
    if n > 0 {
      CleanRunReconciles(books[..n], flags[..n - 1]);
      CleanStepReconciles(books[n - 1], books[n], flags[n - 1]);
    }
  }

  /** The three-way tie-out: over every run of purchases and payments with posting on and no negative
      due, the stored balances, the replay and the control accounts go on agreeing. */
  lemma RunStaysTied(books: seq<Book>)
    requires PostingRun(books, true) && Tied(books[0])
    ensures Tied(books[|books| - 1])
  {
    var flags: seq<bool> :| Run(books, flags, true) && forall i | 0 <= i < |flags| :: flags[i] == true;
    RunStaysSound(books, flags, true);
    CleanRunReconciles(books, flags);
  }

  /** The drift is real: a purchase in gold mode with a due of -1 mg and nothing paid is accepted, adds
      nothing to the balance, and the replay counts the -1. */
  lemma NegativeDueDrifts(before: Book, after: Book, q: PurchaseRequest, p: Purchase, suppliers: map<Id, bool>,
                          posting: bool)
    requires q.supplier in suppliers && suppliers[q.supplier] && q.mode == GOLD_MODE
    requires q.cashDue == 0 && q.cashPaid == 0 && q.gramsDue == map[K21 := -1] && q.gold == []
    requires Reconciles(before.rows, before.purchases, before.payments)
    requires RecordOf(q, p) && PurchaseEffect(before, after, p, q.gold, posting)
    ensures PurchaseRefusal(suppliers, before.lots, q) == None
    ensures !Reconciles(after.rows, after.purchases, after.payments)
    ensures Sum(after.rows, AtKey(GoldKey(q.supplier, K21)))
      == Expected(after.purchases, after.payments, GoldKey(q.supplier, K21)) + 1
  {
    var key := GoldKey(q.supplier, K21);
    assert Sum(before.rows, AtKey(key)) == Expected(before.purchases, before.payments, key);
    assert At(p.gramsPaid, K21) == 0;
    DriftOfPurchase(before, after, p, q.gold, posting, key);
  }

  function NewBook(lots: map<Id, Lot>): Book { Book([], [], [], lots, []) }

  lemma EmptyBookIsTied(lots: map<Id, Lot>)
    ensures Tied(NewBook(lots))
  {
    forall key: BalanceKey ensures Sum([], AtKey(key)) == Expected([], [], key) {
      NothingSums<BalanceRow>(AtKey(key));
      NothingSums<Purchase>(OwedAt(key));
      NothingSums<Payment>(RepaidAt(key));
    }
  }

  lemma NothingSums<T>(f: T -> int)
    ensures Sum([], f) == 0
  {
  }

  // ---- The replay and its report ----

  function Tally(m: map<BalanceKey, int>, key: BalanceKey): int { if key in m then m[key] else 0 }

  /** One purchase's contribution, karat by karat. */
  function OwedUpTo(p: Purchase, n: nat, key: BalanceKey): int {
    if key.unit == GoldDebt && key.karat.Some? && Rank(key.karat.value) >= n then 0 else OwedAt(key)(p)
  }

  method AddPurchase(m: map<BalanceKey, int>, p: Purchase) returns (r: map<BalanceKey, int>)
    ensures forall key: BalanceKey :: Tally(r, key) == Tally(m, key) + OwedAt(key)(p)
  {
    r := m;
    var cash := p.cashDue - p.cashPaid;
    if cash != 0 {
      var key := CashKey(p.supplier);
      r := r[key := Tally(r, key) + cash];
    }
    var i := 0;
    while i < KARATS
      invariant 0 <= i <= KARATS
      invariant forall key: BalanceKey :: Tally(r, key) == Tally(m, key) + OwedUpTo(p, i, key)
    {
      var k := KaratNo(i);
      assert forall q: Karat :: Rank(q) == i <==> q == k;
      if k in p.gramsDue && p.gramsDue[k] - At(p.gramsPaid, k) != 0 {
        var key := GoldKey(p.supplier, k);
        r := r[key := Tally(r, key) + (p.gramsDue[k] - At(p.gramsPaid, k))];
      }
      i := i + 1;
    }
    assert forall k: Karat :: Rank(k) < KARATS;
  }

  /** `_compute_expected_balances`: the dict it accumulates is the replay, key by key. */
  method ExpectedBalances(purchases: seq<Purchase>, payments: seq<Payment>) returns (m: map<BalanceKey, int>)
    ensures forall key: BalanceKey :: Tally(m, key) == Expected(purchases, payments, key)
  {
    m := map[];
    var i := 0;
    while i < |purchases|
      invariant 0 <= i <= |purchases|
      invariant forall key: BalanceKey :: Tally(m, key) == Sum(purchases[..i], OwedAt(key))
    {
      forall key: BalanceKey { SumPrefix(purchases, i, OwedAt(key)); }
      m := AddPurchase(m, purchases[i]);
      i := i + 1;
    }
    assert purchases[..|purchases|] == purchases;
    i := 0;
    while i < |payments|
      invariant 0 <= i <= |payments|
      invariant forall key: BalanceKey ::
        Tally(m, key) == Sum(purchases, OwedAt(key)) - Sum(payments[..i], RepaidAt(key))
    {
      forall key: BalanceKey { SumPrefix(payments, i, RepaidAt(key)); }
      var key := BalanceKey(payments[i].supplier, payments[i].unit, payments[i].karat);
      m := m[key := Tally(m, key) - payments[i].amount];
      i := i + 1;
    }
    assert payments[..|payments|] == payments;
  }

  /** GET /inventory/reconcile: the keys it reports are exactly those on which the stored balance and
      the replay differ, so an empty report means they agree on every key there could be. */
  method Reconcile(rows: seq<BalanceRow>, purchases: seq<Purchase>, payments: seq<Payment>)
    returns (drifts: set<BalanceKey>)
    ensures forall key: BalanceKey :: key in drifts <==> Sum(rows, AtKey(key)) != Expected(purchases, payments, key)
    ensures drifts == {} <==> Reconciles(rows, purchases, payments)
  {
    var expected := ExpectedBalances(purchases, payments);
    var stored := set r | r in rows :: r.key;
    drifts := set key | key in expected.Keys + stored && Sum(rows, AtKey(key)) != Tally(expected, key);
    forall key: BalanceKey | key !in stored { NotStored(rows, key); }
  }

  lemma NotStored(rows: seq<BalanceRow>, key: BalanceKey)
    requires key !in set r | r in rows :: r.key
    ensures Sum(rows, AtKey(key)) == 0
  {
    forall r | r in rows ensures AtKey(key)(r) == 0 {
      assert r.key in set r | r in rows :: r.key;
    }
    SumZero(rows, AtKey(key));
  }

  // ---- The parts of the two requests ----

  ghost predicate RecordOf(q: PurchaseRequest, p: Purchase) {
    && p.id == q.id && p.supplier == q.supplier && p.occurredOn == q.occurredOn
    && p.cashDue == q.cashDue && p.cashPaid == q.cashPaid && p.gramsDue == q.gramsDue
  }

  lemma GramsPaid(gold: seq<GoldPayment>, k: Karat)
    requires forall g | g in gold :: g.grams > 0
    ensures Sum(gold, GramsIn(k)) >= 0
  {
    SumNonNegative(gold, GramsIn(k));
  }

  method CheckPurchase(suppliers: map<Id, bool>, lots: map<Id, Lot>, q: PurchaseRequest)
    returns (r: Result<(map<Id, Lot>, map<Karat, int>), Refused>)
    ensures r.Err? ==> PurchaseRefusal(suppliers, lots, q) == Some(r.error)
    ensures r.Ok? ==>
      && PurchaseRefusal(suppliers, lots, q) == None && q.cashPaid <= q.cashDue && Drawn(lots, r.value.0, q.gold)
      && (forall k: Karat :: At(r.value.1, k) == Sum(q.gold, GramsIn(k)) && At(r.value.1, k) >= 0)
      && (forall k: Karat :: At(r.value.1, k) > 0 ==> At(r.value.1, k) <= At(q.gramsDue, k))
  {
    if q.supplier !in suppliers || !suppliers[q.supplier] {
      return Err(SupplierMissing);
    }
    if q.cashPaid > q.cashDue {
      return Err(CashPaidTooMuch);
    }
    if q.mode == CASH_MODE && (q.gold != [] || q.gramsDue != map[]) {
      return Err(GoldInCashMode);
    }
    if q.mode == GOLD_MODE && (q.cashPaid != 0 || q.cashDue != 0) {
      return Err(CashInGoldMode);
    }
    r := ConsumeLots(lots, q.gold);
    if r.Err? {
      return;
    }
    forall k: Karat { GramsPaid(q.gold, k); }
    var over := Overpaying(r.value.1, q.gramsDue);
    if over {
      var k: Karat :| 0 < At(r.value.1, k) && At(r.value.1, k) > At(q.gramsDue, k);
      assert Overpays(q.gold, q.gramsDue);
      return Err(GoldPaidTooMuch);
    }
  }

  /** Checks a payment and takes it off the balance, then off the lots. */
  method SettlePayment(suppliers: map<Id, bool>, rows: seq<BalanceRow>, lots: map<Id, Lot>, q: PaymentRequest)
    returns (r: Result<(seq<BalanceRow>, map<Id, Lot>), Refused>)
    requires GoodRows(rows)
    ensures r.Err? ==> PaymentRefusal(suppliers, rows, lots, q) == Some(r.error)
    ensures r.Ok? ==> PaymentRefusal(suppliers, rows, lots, q) == None && Settled(rows, lots, q, r.value.0, r.value.1)
  {
    if q.supplier !in suppliers {
      return Err(SupplierMissing);
    }
    if q.unit == CashDebt {
      if q.karat.Some? {
        return Err(KaratOnCash);
      }
      if q.gold != [] {
        return Err(LotsOnCash);
      }
      var adjusted := AdjustBalance(rows, CashKey(q.supplier), -q.amount);
      if adjusted.Err? {
        return Err(adjusted.error);
      }
      SettledCash(rows, lots, q, adjusted.value);
      return Ok((adjusted.value, lots));
    }
    r := SettleGold(suppliers, rows, lots, q);
  }

  ghost predicate Settled(rows: seq<BalanceRow>, lots: map<Id, Lot>, q: PaymentRequest,
                          after: seq<BalanceRow>, left: map<Id, Lot>) {
    var p := Payment(q.id, q.supplier, q.unit, q.karat, q.amount);
    && (q.unit == CashDebt ==> q.karat == None && q.gold == [])
    && (q.unit == GoldDebt ==> q.karat.Some? && Sum(q.gold, GramsIn(q.karat.value)) == q.amount)
    && Drawn(lots, left, q.gold) && Moved(rows, after, q.supplier, -PaidCash(p), Repaid(p))
  }

  lemma SettledCash(rows: seq<BalanceRow>, lots: map<Id, Lot>, q: PaymentRequest, after: seq<BalanceRow>)
    requires q.unit == CashDebt && q.karat == None && q.gold == []
    requires Adjusted(rows, after, CashKey(q.supplier), -q.amount)
    ensures Settled(rows, lots, q, after, lots)
  {
    var p := Payment(q.id, q.supplier, q.unit, q.karat, q.amount);
    CashMoved(rows, after, q.supplier, -q.amount);
    forall k: Karat ensures NoGrams()(k) == Repaid(p)(k) {
      assert PaidGrams(p)(k) == 0;
    }
    SameMove(rows, after, q.supplier, -q.amount, NoGrams(), Repaid(p));
  }

  method SettleGold(suppliers: map<Id, bool>, rows: seq<BalanceRow>, lots: map<Id, Lot>, q: PaymentRequest)
    returns (r: Result<(seq<BalanceRow>, map<Id, Lot>), Refused>)
    requires GoodRows(rows) && q.supplier in suppliers && q.unit == GoldDebt
    ensures r.Err? ==> PaymentRefusal(suppliers, rows, lots, q) == Some(r.error)
    ensures r.Ok? ==> PaymentRefusal(suppliers, rows, lots, q) == None && Settled(rows, lots, q, r.value.0, r.value.1)
  {
    if q.karat == None {
      return Err(KaratRequired);
    }
    if q.gold == [] {
      return Err(LotsRequired);
    }
    if Sum(q.gold, GramsOf) != q.amount {
      return Err(LotsDoNotAddUp);
    }
    if exists g | g in q.gold :: g.karat != q.karat.value {
      return Err(LotsOtherKarat);
    }
    var adjusted := AdjustBalance(rows, GoldKey(q.supplier, q.karat.value), -q.amount);
    if adjusted.Err? {
      return Err(adjusted.error);
    }
    var drawn := ConsumeLots(lots, q.gold);
    if drawn.Err? {
      return Err(drawn.error);
    }
    SettledGold(rows, lots, q, adjusted.value, drawn.value.0);
    r := Ok((adjusted.value, drawn.value.0));
  }

  lemma SettledGold(rows: seq<BalanceRow>, lots: map<Id, Lot>, q: PaymentRequest, after: seq<BalanceRow>,
                    left: map<Id, Lot>)
    requires GoodRows(rows) && q.unit == GoldDebt && q.karat.Some? && Sum(q.gold, GramsOf) == q.amount
    requires forall g | g in q.gold :: g.karat == q.karat.value
    requires Adjusted(rows, after, GoldKey(q.supplier, q.karat.value), -q.amount) && Drawn(lots, left, q.gold)
    ensures Settled(rows, lots, q, after, left)
  {
    var p := Payment(q.id, q.supplier, q.unit, q.karat, q.amount);
    OneKarat(q.gold, q.karat.value);
    NothingMoved(rows, q.supplier);
    forall k: Karat ensures Repaid(p)(k) == NoGrams()(k) + if k == q.karat.value then -q.amount else 0 {
      assert Repaid(p)(k) == -PaidGrams(p)(k);
    }
    GoldMoved(rows, rows, after, q.supplier, 0, NoGrams(), q.karat.value, -q.amount, Repaid(p));
  }

  lemma AppendedEntry(before: Book, after: Book, entry: seq<Line>, posting: bool, cash: int, grams: Karat -> int)
    requires after.lines == before.lines + entry
    requires if posting then EntryBalanced(entry) && ControlEffect(entry, cash, grams) else entry == []
    ensures Posted(before, after, posting, cash, grams)
  {
    assert after.lines[|before.lines|..] == entry;
  }

  lemma PurchaseKeepsTied(before: Book, after: Book, p: Purchase, gold: seq<GoldPayment>)
    requires Tied(before) && PurchaseEffect(before, after, p, gold, true) && NoNegativeDue(p.gramsDue)
    ensures Tied(after)
  {
    PurchaseKeepsSound(before, after, p, gold, true);
    PurchaseReconcilesExactly(before, after, p, gold, true);
    PostedKeepsTie(before, after, p.cashDue - p.cashPaid, NetGrams(p.gramsDue, p.gramsPaid));
  }

  lemma PaymentKeepsTied(before: Book, after: Book, p: Payment, gold: seq<GoldPayment>)
    requires Tied(before) && PaymentEffect(before, after, p, gold, true)
    ensures Tied(after)
  {
    PaymentKeepsSound(before, after, p, gold, true);
    PaymentReconciles(before, after, p, gold, true);
    PostedKeepsTie(before, after, -PaidCash(p), Repaid(p));
  }

  datatype Prepared = Prepared(purchase: Purchase, rows: seq<BalanceRow>, lots: map<Id, Lot>, entry: seq<Line>)

  ghost predicate Ready(rows: seq<BalanceRow>, lots: map<Id, Lot>, q: PurchaseRequest, posting: bool, d: Prepared) {
    var p := d.purchase;
    && RecordOf(q, p) && 0 <= p.cashPaid <= p.cashDue && Drawn(lots, d.lots, q.gold)
    && (forall k: Karat :: At(p.gramsPaid, k) == Sum(q.gold, GramsIn(k)) && At(p.gramsPaid, k) >= 0)
    && (forall k: Karat :: At(p.gramsPaid, k) > 0 ==> At(p.gramsPaid, k) <= At(p.gramsDue, k))
    && Moved(rows, d.rows, p.supplier, p.cashDue - p.cashPaid, NetGrams(p.gramsDue, p.gramsPaid))
    && if posting
       then EntryBalanced(d.entry)
            && ControlEffect(d.entry, p.cashDue - p.cashPaid, NetGrams(p.gramsDue, p.gramsPaid))
       else d.entry == []
  }

  method PreparePurchase(suppliers: map<Id, bool>, rows: seq<BalanceRow>, lots: map<Id, Lot>,
                         q: PurchaseRequest, posting: bool, accepts: bool)
    returns (r: Result<Prepared, Refused>)
    requires GoodRows(rows) && q.cashDue >= 0 && q.cashPaid >= 0 && q.stoneCost >= 0
    ensures PurchaseRefusal(suppliers, lots, q).Some? ==> r == Err(PurchaseRefusal(suppliers, lots, q).value)
    ensures PurchaseRefusal(suppliers, lots, q) == None && (accepts || !posting) ==> r.Ok?
    ensures r.Ok? ==> Ready(rows, lots, q, posting, r.value)
  {
    var drawn := CheckPurchase(suppliers, lots, q);
    if drawn.Err? {
      return Err(drawn.error);
    }
    var p := Purchase(q.id, q.supplier, q.occurredOn, q.cashDue, q.cashPaid, q.gramsDue, drawn.value.1);
    var after := AddDebt(rows, p.supplier, p.cashDue - p.cashPaid, p.gramsDue, p.gramsPaid);
    var entry := [];
    if posting {
      entry := PostPurchase(p, q.goldCost, q.stoneCost);
      if entry != [] && !accepts {
        return Err(PostingRefused);
      }
    }
    r := Ok(Prepared(p, after, drawn.value.0, entry));
  }

  lemma PreparedIsEffect(before: Book, after: Book, q: PurchaseRequest, d: Prepared, posting: bool)
    requires Ready(before.rows, before.lots, q, posting, d)
    requires after == Book(d.rows, before.purchases + [d.purchase], before.payments, d.lots, before.lines + d.entry)
    ensures PurchaseEffect(before, after, d.purchase, q.gold, posting)
    ensures SoundBook(before) ==> SoundBook(after)
    ensures Tied(before) && posting && NoNegativeDue(q.gramsDue) ==> Tied(after)
  {
    var p := d.purchase;
    AppendedEntry(before, after, d.entry, posting, p.cashDue - p.cashPaid, NetGrams(p.gramsDue, p.gramsPaid));
    if SoundBook(before) {
      PurchaseKeepsSound(before, after, p, q.gold, posting);
    }
    if Tied(before) && posting && NoNegativeDue(q.gramsDue) {
      PurchaseKeepsTied(before, after, p, q.gold);
    }
  }

  datatype PreparedPayment = PreparedPayment(payment: Payment, rows: seq<BalanceRow>, lots: map<Id, Lot>,
                                             entry: seq<Line>)

  ghost predicate Payable(rows: seq<BalanceRow>, lots: map<Id, Lot>, q: PaymentRequest, posting: bool,
                          d: PreparedPayment) {
    && d.payment == Payment(q.id, q.supplier, q.unit, q.karat, q.amount) && Settled(rows, lots, q, d.rows, d.lots)
    && if posting then EntryBalanced(d.entry) && ControlEffect(d.entry, -PaidCash(d.payment), Repaid(d.payment))
       else d.entry == []
  }

  method PreparePayment(suppliers: map<Id, bool>, rows: seq<BalanceRow>, lots: map<Id, Lot>, q: PaymentRequest,
                        posting: bool, accepts: bool)
    returns (r: Result<PreparedPayment, Refused>)
    requires GoodRows(rows)
    ensures PaymentRefusal(suppliers, rows, lots, q).Some? ==> r == Err(PaymentRefusal(suppliers, rows, lots, q).value)
    ensures PaymentRefusal(suppliers, rows, lots, q) == None && (accepts || !posting) ==> r.Ok?
    ensures r.Ok? ==> Payable(rows, lots, q, posting, r.value)
  {
    var settled := SettlePayment(suppliers, rows, lots, q);
    if settled.Err? {
      return Err(settled.error);
    }
    var p := Payment(q.id, q.supplier, q.unit, q.karat, q.amount);
    var entry := [];
    if posting {
      entry := PostPayment(p);
      if !accepts {
        return Err(PostingRefused);
      }
    }
    r := Ok(PreparedPayment(p, settled.value.0, settled.value.1, entry));
  }

  lemma PaidIsEffect(before: Book, after: Book, q: PaymentRequest, d: PreparedPayment, posting: bool)
    requires Payable(before.rows, before.lots, q, posting, d) && q.amount > 0
    requires after == Book(d.rows, before.purchases, before.payments + [d.payment], d.lots, before.lines + d.entry)
    ensures PaymentEffect(before, after, d.payment, q.gold, posting)
    ensures SoundBook(before) ==> SoundBook(after)
    ensures Tied(before) && posting ==> Tied(after)
  {
    AppendedEntry(before, after, d.entry, posting, -PaidCash(d.payment), Repaid(d.payment));
    if SoundBook(before) {
      PaymentKeepsSound(before, after, d.payment, q.gold, posting);
    }
    if Tied(before) && posting {
      PaymentKeepsTied(before, after, d.payment, q.gold);
    }
  }

  // ---- The desk ----

  class Desk {
    var suppliers: map<Id, bool>
    var rows: seq<BalanceRow>
    var purchases: seq<Purchase>
    var payments: seq<Payment>
    var lots: map<Id, Lot>
    var lines: seq<Line>
    var autoPost: bool

    ghost function Contents(): Book reads this { Book(rows, purchases, payments, lots, lines) }
    ghost predicate Valid() reads this { SoundBook(Contents()) }

    constructor (suppliers: map<Id, bool>, lots: map<Id, Lot>, autoPost: bool)
      ensures Valid() && Tied(Contents()) && this.suppliers == suppliers && this.autoPost == autoPost
      ensures Contents() == NewBook(lots)
    {
      this.suppliers, this.lots, this.autoPost := suppliers, lots, autoPost;
      rows, purchases, payments, lines := [], [], [], [];
      new;
      EmptyBookIsTied(lots);
    }

    /** POST /suppliers/{id}/purchases. `accepts` says whether the posting engine takes the entry; its
        refusal, like every other, leaves all tables as they were. */
    method CreatePurchase(q: PurchaseRequest, accepts: bool) returns (r: Result<Purchase, Refused>)
      requires Valid() && q.cashDue >= 0 && q.cashPaid >= 0 && q.stoneCost >= 0
      modifies this
      ensures Valid() && autoPost == old(autoPost) && suppliers == old(suppliers)
      ensures r.Err? ==> Contents() == old(Contents())
      ensures r.Ok? ==> PurchaseEffect(old(Contents()), Contents(), r.value, q.gold, autoPost)
      ensures r.Ok? ==> RecordOf(q, r.value)
      ensures PurchaseRefusal(suppliers, old(lots), q).Some?
        ==> r == Err(PurchaseRefusal(suppliers, old(lots), q).value)
      ensures PurchaseRefusal(suppliers, old(lots), q) == None && (accepts || !autoPost) ==> r.Ok?
      ensures old(Tied(Contents())) && autoPost && NoNegativeDue(q.gramsDue) ==> Tied(Contents())
    {
      var made := PreparePurchase(suppliers, rows, lots, q, autoPost, accepts);
      if made.Err? {
        return Err(made.error);
      }
      var d := made.value;
      ghost var before := Contents();
      rows, purchases, lots, lines := d.rows, purchases + [d.purchase], d.lots, lines + d.entry;
      PreparedIsEffect(before, Contents(), q, d, autoPost);
      return Ok(d.purchase);
    }

    /** POST /suppliers/{id}/payments. */
    method CreatePayment(q: PaymentRequest, accepts: bool) returns (r: Result<Payment, Refused>)
      requires Valid() && q.amount > 0
      modifies this
      ensures Valid() && autoPost == old(autoPost) && suppliers == old(suppliers)
      ensures r.Err? ==> Contents() == old(Contents())
      ensures r.Ok? ==> PaymentEffect(old(Contents()), Contents(), r.value, q.gold, autoPost)
      ensures r.Ok? ==> r.value == Payment(q.id, q.supplier, q.unit, q.karat, q.amount)
      ensures PaymentRefusal(suppliers, old(rows), old(lots), q).Some?
        ==> r == Err(PaymentRefusal(suppliers, old(rows), old(lots), q).value)
      ensures PaymentRefusal(suppliers, old(rows), old(lots), q) == None && (accepts || !autoPost) ==> r.Ok?
      ensures old(Tied(Contents())) && autoPost ==> Tied(Contents())
    {
      var made := PreparePayment(suppliers, rows, lots, q, autoPost, accepts);
      if made.Err? {
        return Err(made.error);
      }
      var d := made.value;
      ghost var before := Contents();
      rows, payments, lots, lines := d.rows, payments + [d.payment], d.lots, lines + d.entry;
      PaidIsEffect(before, Contents(), q, d, autoPost);
      return Ok(d.payment);
    }
  }

  /** The input that shows the drift: the first purchase of a new desk, one milligram of 21k due the wrong
      way round. It is accepted, posting or not, and the replay then stands a milligram below the balance. */
  method NegativeDueOnNewDesk(supplier: Id, autoPost: bool) returns (desk: Desk)
    ensures fresh(desk) && desk.Valid() && desk.autoPost == autoPost && |desk.purchases| == 1
    ensures !Reconciles(desk.rows, desk.purchases, desk.payments)
    ensures Sum(desk.rows, AtKey(GoldKey(supplier, K21)))
      == Expected(desk.purchases, desk.payments, GoldKey(supplier, K21)) + 1
  {
    desk := new Desk(map[supplier := true], map[], autoPost);
    var q := PurchaseRequest(1, supplier, 0, GOLD_MODE, 0, 0, map[K21 := -1], [], map[], 0);
    ghost var before := desk.Contents();
    var made := desk.CreatePurchase(q, true);
    NegativeDueDrifts(before, desk.Contents(), q, made.value, desk.suppliers, autoPost);
  }
}
