/** FIFO aging of what suppliers are owed in cash (`ap.compute_ap_aging`): payments clear the oldest
    purchases first, in place, and what remains is put into buckets by age. */
module ApAging {
  import opened Wrappers
  import opened Sums
  import opened Fifo
  import opened Journal
  import opened Suppliers
  import opened SupplierDesk

  // ---- Buckets ----

  datatype Age = Days0To30 | Days31To60 | Days61To90 | Days90Plus
  function AgeOf(days: int): Age {
    if days <= 30 then Days0To30 else if days <= 60 then Days31To60 else if days <= 90 then Days61To90 else Days90Plus
  }

  type Buckets = map<Age, int>
  function Held(b: Buckets, a: Age): int { if a in b then b[a] else 0 }
  function Plus(b: Buckets, a: Age, amt: int): Buckets { b[a := Held(b, a) + amt] }
  function Total(b: Buckets): int {
    Held(b, Days0To30) + Held(b, Days31To60) + Held(b, Days61To90) + Held(b, Days90Plus)
  }
  function Empty(): Buckets { map[Days0To30 := 0, Days31To60 := 0, Days61To90 := 0, Days90Plus := 0] }

  function AmtAged(a: Age, asOf: int): Outstanding -> int {
    (o: Outstanding) => if AgeOf(asOf - o.date) == a then o.amt else 0
  }

  ghost predicate Aged(b: Buckets, s: seq<Outstanding>, asOf: int) {
    Total(b) == Sum(s, Amt) && forall a: Age :: Held(b, a) == Sum(s, AmtAged(a, asOf))
  }

  // ---- One supplier ----

  function OwedFor(p: Purchase): int { p.cashDue - p.cashPaid }

  /** The supplier's purchases that are still owed something, in the order given. */
  function OutstandingOf(purchases: seq<Purchase>, supplier: Id): seq<Outstanding> {
    if purchases == [] then []
    else
      var p, older := purchases[|purchases| - 1], OutstandingOf(purchases[..|purchases| - 1], supplier);
      if p.supplier == supplier && OwedFor(p) > 0 then older + [Outstanding(p.occurredOn, OwedFor(p))] else older
  }

  function OwedBy(supplier: Id): Purchase -> int {
    (p: Purchase) => if p.supplier == supplier && OwedFor(p) > 0 then OwedFor(p) else 0
  }
  function CashPaidTo(supplier: Id): Payment -> int {
    (p: Payment) => if p.supplier == supplier && p.unit == CashDebt then p.amount else 0
  }

  lemma {:induction false} OutstandingIsOwed(purchases: seq<Purchase>, supplier: Id)
    ensures NoneNegative(OutstandingOf(purchases, supplier))
    ensures Sum(OutstandingOf(purchases, supplier), Amt) == Sum(purchases, OwedBy(supplier))
  {
    if purchases != [] {
      var p, older := purchases[|purchases| - 1], OutstandingOf(purchases[..|purchases| - 1], supplier);
      OutstandingIsOwed(purchases[..|purchases| - 1], supplier);
      SumSnoc(older, Outstanding(p.occurredOn, OwedFor(p)), Amt);
    }
  }

  /** One purchase into its bucket, unless nothing is left of it. */
  function AddAged(b: Buckets, o: Outstanding, asOf: int): Buckets {
    if o.amt <= 0 then b else Plus(b, AgeOf(asOf - o.date), o.amt)
  }

  function BucketsOf(s: seq<Outstanding>, asOf: int): Buckets {
    if s == [] then Empty() else AddAged(BucketsOf(s[..|s| - 1], asOf), s[|s| - 1], asOf)
  }

  lemma {:induction false} BucketsHoldWhatRemains(s: seq<Outstanding>, asOf: int)
    requires forall o | o in s :: o.amt >= 0
    ensures Aged(BucketsOf(s, asOf), s, asOf)
  {
    if s != [] {
      var n := |s| - 1;
      BucketsHoldWhatRemains(s[..n], asOf);
      AddKeepsAged(BucketsOf(s[..n], asOf), s[..n], s[n], asOf);
      assert s[..n] + [s[n]] == s;
    }
  }

  lemma AddKeepsAged(b: Buckets, s: seq<Outstanding>, o: Outstanding, asOf: int)
    requires Aged(b, s, asOf) && o.amt >= 0
    ensures Aged(AddAged(b, o, asOf), s + [o], asOf)
  {
    SumSnoc(s, o, Amt);
    forall a: Age ensures Held(AddAged(b, o, asOf), a) == Sum(s + [o], AmtAged(a, asOf)) {
      SumSnoc(s, o, AmtAged(a, asOf));
    }
    PlusTotal(b, AgeOf(asOf - o.date), o.amt);
  }

  lemma PlusTotal(b: Buckets, a: Age, amt: int)
    ensures Total(Plus(b, a, amt)) == Total(b) + amt
  {
  }

  method FillBuckets(a: array<Outstanding>, asOf: int) returns (b: Buckets)
    ensures b == BucketsOf(a[..], asOf)
  {
    b := Empty();
    var i := 0;
    while i < a.Length
      invariant 0 <= i <= a.Length
      invariant b == BucketsOf(a[..i], asOf)
    {
      assert a[..i + 1][..i] == a[..i];
      b := AddAged(b, a[i], asOf);
      i := i + 1;
    }
    assert a[..i] == a[..];
  }

  ghost function AgingOf(ordered: seq<Purchase>, payments: seq<Payment>, s: Id, asOf: int): Buckets {
    BucketsOf(Remaining(OutstandingOf(ordered, s), Sum(payments, CashPaidTo(s))), asOf)
  }

  /** A working copy that payments are taken off in place. */
  method WorkingCopy(s: seq<Outstanding>) returns (a: array<Outstanding>)
    ensures fresh(a) && a[..] == s
  {
    a := new Outstanding[|s|](i requires 0 <= i < |s| => s[i]);
  }

  method AgeSupplier(ordered: seq<Purchase>, payments: seq<Payment>, supplier: Id, asOf: int) returns (b: Buckets)
    ensures b == AgingOf(ordered, payments, supplier, asOf)
  {
    var s := OutstandingOf(ordered, supplier);
    OutstandingIsOwed(ordered, supplier);
    var a := WorkingCopy(s);
    ApplyPaid(a, Sum(payments, CashPaidTo(supplier)));
    b := FillBuckets(a, asOf);
  }

  lemma NeverBelowZero(s: seq<Outstanding>, paid: int, i: nat)
    requires NoneNegative(s) && i < |s|
    ensures Remaining(s, paid)[i].amt >= 0
  {
    assert s[i] in s;
  }

  // ---- The whole report ----

  datatype Owed = Owed(cash: Buckets, metal: map<Karat, int>)
  datatype Report = Report(cash: Buckets, metal: map<Karat, int>, bySupplier: map<Id, Owed>)

  /** What is stored as owed to a supplier in a karat. */
  ghost function StoredGold(rows: seq<BalanceRow>, k: Karat): Id -> int { (s: Id) => Sum(rows, AtKey(GoldKey(s, k))) }

  /** Adds a supplier's stored gold balances to a per-karat dict. */
  method AddMetal(rows: seq<BalanceRow>, supplier: Id, metal: map<Karat, int>) returns (m: map<Karat, int>)
    ensures forall k: Karat :: At(m, k) == At(metal, k) + StoredGold(rows, k)(supplier)
  {
    m := metal;
    var i := 0;
    while i < |rows|
      invariant 0 <= i <= |rows|
      invariant forall k: Karat :: At(m, k) == At(metal, k) + Sum(rows[..i], AtKey(GoldKey(supplier, k)))
    {
      forall k: Karat { SumPrefix(rows, i, AtKey(GoldKey(supplier, k))); }
      var r := rows[i];
      if r.key.supplier == supplier && r.key.unit == GoldDebt && r.key.karat.Some? && r.balance != 0 {
        m := m[r.key.karat.value := At(m, r.key.karat.value) + r.balance];
      }
      i := i + 1;
    }
    assert rows[..|rows|] == rows;
  }

  function Together(x: Buckets, y: Buckets): Buckets {
    map[Days0To30 := Held(x, Days0To30) + Held(y, Days0To30), Days31To60 := Held(x, Days31To60) + Held(y, Days31To60),
        Days61To90 := Held(x, Days61To90) + Held(y, Days61To90),
        Days90Plus := Held(x, Days90Plus) + Held(y, Days90Plus)]
  }

  ghost function AgingOfAll(ordered: seq<Purchase>, payments: seq<Payment>, suppliers: seq<Id>, asOf: int): Buckets {
    if suppliers == [] then Empty()
    else Together(AgingOfAll(ordered, payments, suppliers[..|suppliers| - 1], asOf),
                  AgingOf(ordered, payments, suppliers[|suppliers| - 1], asOf))
  }

  ghost predicate AgedSupplier(o: Owed, ordered: seq<Purchase>, payments: seq<Payment>, rows: seq<BalanceRow>, s: Id,
                               asOf: int) {
    && o.cash == AgingOf(ordered, payments, s, asOf)
    && forall k: Karat :: At(o.metal, k) == StoredGold(rows, k)(s)
  }

  /** The report over some suppliers: each has its own figures, and the totals are theirs together. */
  ghost predicate Reports(r: Report, suppliers: seq<Id>, ordered: seq<Purchase>, payments: seq<Payment>,
                          rows: seq<BalanceRow>, asOf: int) {
    && r.cash == AgingOfAll(ordered, payments, suppliers, asOf)
    && (forall k: Karat :: At(r.metal, k) == Sum(suppliers, StoredGold(rows, k)))
    && forall s | s in suppliers ::
         s in r.bySupplier && AgedSupplier(r.bySupplier[s], ordered, payments, rows, s, asOf)
  }

  lemma OneMoreReported(r: Report, suppliers: seq<Id>, ordered: seq<Purchase>, payments: seq<Payment>,
                        rows: seq<BalanceRow>, asOf: int, s: Id, own: Owed, metal: map<Karat, int>)
    requires Reports(r, suppliers, ordered, payments, rows, asOf)
    requires AgedSupplier(own, ordered, payments, rows, s, asOf)
    requires forall k: Karat :: At(metal, k) == At(r.metal, k) + StoredGold(rows, k)(s)
    ensures Reports(Report(Together(r.cash, own.cash), metal, r.bySupplier[s := own]), suppliers + [s],
                    ordered, payments, rows, asOf)
  {
    forall k: Karat { SumSnoc(suppliers, s, StoredGold(rows, k)); }
    AgingSnoc(ordered, payments, suppliers, s, asOf);
  }

  lemma AgingSnoc(ordered: seq<Purchase>, payments: seq<Payment>, suppliers: seq<Id>, s: Id, asOf: int)
    ensures AgingOfAll(ordered, payments, suppliers + [s], asOf)
      == Together(AgingOfAll(ordered, payments, suppliers, asOf), AgingOf(ordered, payments, s, asOf))
  {
    assert (suppliers + [s])[..|suppliers|] == suppliers;
  }

  /** `ordered` is the purchases table by date. */
  method ComputeApAging(suppliers: seq<Id>, ordered: seq<Purchase>, payments: seq<Payment>, rows: seq<BalanceRow>,
                        asOf: int)
    returns (r: Report)
    ensures Reports(r, suppliers, ordered, payments, rows, asOf)
  {
    r := Report(Empty(), map[], map[]);
    var i := 0;
    while i < |suppliers|
      invariant 0 <= i <= |suppliers|
      invariant Reports(r, suppliers[..i], ordered, payments, rows, asOf)
    {
      var s := suppliers[i];
      var b := AgeSupplier(ordered, payments, s, asOf);
      var own := AddMetal(rows, s, map[]);
      var all := AddMetal(rows, s, r.metal);
      OneMore(suppliers, i);
      OneMoreReported(r, suppliers[..i], ordered, payments, rows, asOf, s, Owed(b, own), all);
      r := Report(Together(r.cash, b), all, r.bySupplier[s := Owed(b, own)]);
      i := i + 1;
    }
    assert suppliers[..|suppliers|] == suppliers;
  }

  // ---- Aging against the balance ----

  lemma PaidNonNegative(payments: seq<Payment>, supplier: Id)
    requires SoundPayments(payments)
    ensures Sum(payments, CashPaidTo(supplier)) >= 0
  {
    SumNonNegative(payments, CashPaidTo(supplier));
  }

  /** What the payments leave is in the buckets, each amount in the one of its age. */
  lemma BucketsOfRemaining(s: seq<Outstanding>, paid: int, asOf: int)
    requires NoneNegative(s) && paid >= 0
    ensures Aged(BucketsOf(Remaining(s, paid), asOf), Remaining(s, paid), asOf)
  {
    forall i | 0 <= i < |s| { NeverBelowZero(s, paid, i); }
    BucketsHoldWhatRemains(Remaining(s, paid), asOf);
  }

  lemma TotalOfRemaining(s: seq<Outstanding>, paid: int, asOf: int)
    requires NoneNegative(s) && paid >= 0
    ensures Total(BucketsOf(Remaining(s, paid), asOf)) == Max(0, Sum(s, Amt) - paid)
  {
    RemainingTotal(s, paid);
    BucketsOfRemaining(s, paid, asOf);
  }

  lemma LeftOf(ordered: seq<Purchase>, payments: seq<Payment>, supplier: Id, asOf: int, owed: int, paid: int)
    requires SoundPayments(payments)
    requires owed == Sum(ordered, OwedBy(supplier)) && paid == Sum(payments, CashPaidTo(supplier))
    ensures Total(AgingOf(ordered, payments, supplier, asOf)) == Max(0, owed - paid)
  {
    PaidNonNegative(payments, supplier);
    AgingAfter(ordered, supplier, asOf, owed, paid);
  }

  lemma AgingAfter(ordered: seq<Purchase>, supplier: Id, asOf: int, owed: int, paid: int)
    requires owed == Sum(ordered, OwedBy(supplier)) && paid >= 0
    ensures Total(BucketsOf(Remaining(OutstandingOf(ordered, supplier), paid), asOf)) == Max(0, owed - paid)
  {
    OutstandingIsOwed(ordered, supplier);
    TotalOfRemaining(OutstandingOf(ordered, supplier), paid, asOf);
  }

  /** Whatever order purchases of the same table are read in, a supplier's buckets add up to the debt less
      the payments, or to nothing. */
  lemma AgingTotal(table: seq<Purchase>, ordered: seq<Purchase>, payments: seq<Payment>, supplier: Id, asOf: int,
                   debt: int)
    requires multiset(ordered) == multiset(table) && SoundPayments(payments)
    requires debt == Sum(table, OwedBy(supplier)) - Sum(payments, CashPaidTo(supplier))
    ensures Total(AgingOf(ordered, payments, supplier, asOf)) == Max(0, debt)
  {
    SumPermuted(ordered, table, OwedBy(supplier));
    LeftOf(ordered, payments, supplier, asOf, Sum(table, OwedBy(supplier)), Sum(payments, CashPaidTo(supplier)));
  }

  lemma DebtIsExpected(purchases: seq<Purchase>, payments: seq<Payment>, supplier: Id)
    requires NeverOverpaid(purchases) && SoundPayments(payments)
    ensures Sum(purchases, OwedBy(supplier)) - Sum(payments, CashPaidTo(supplier))
      == Expected(purchases, payments, CashKey(supplier))
  {
    SumEq(purchases, OwedBy(supplier), OwedAt(CashKey(supplier)));
    SumEq(payments, CashPaidTo(supplier), RepaidAt(CashKey(supplier)));
  }

  lemma StoredIsDebt(b: Book, supplier: Id)
    requires SoundBook(b)
    ensures 0 <= Sum(b.rows, AtKey(CashKey(supplier)))
      == Sum(b.purchases, OwedBy(supplier)) - Sum(b.payments, CashPaidTo(supplier))
  {
    DebtIsExpected(b.purchases, b.payments, supplier);
    assert Sum(b.rows, AtKey(CashKey(supplier))) == Expected(b.purchases, b.payments, CashKey(supplier));
    SumOfGoodRows(b.rows, CashKey(supplier));
  }

  /** In a sound book a supplier's buckets add up to the stored balance. */
  lemma AgingIsStoredBalance(b: Book, ordered: seq<Purchase>, supplier: Id, asOf: int)
    requires SoundBook(b) && multiset(ordered) == multiset(b.purchases)
    ensures Total(AgingOf(ordered, b.payments, supplier, asOf)) == Sum(b.rows, AtKey(CashKey(supplier)))
  {
    StoredIsDebt(b, supplier);
    AgingTotal(b.purchases, ordered, b.payments, supplier, asOf, Sum(b.rows, AtKey(CashKey(supplier))));
  }

  ghost function StoredCash(b: Book): Id -> int { (s: Id) => Sum(b.rows, AtKey(CashKey(s))) }

  /** The report's grand total is then the sum of the stored cash balances of the suppliers listed. */
  lemma {:induction false} GrandTotalIsStored(b: Book, ordered: seq<Purchase>, suppliers: seq<Id>, asOf: int)
    requires SoundBook(b) && multiset(ordered) == multiset(b.purchases)
    ensures Total(AgingOfAll(ordered, b.payments, suppliers, asOf)) == Sum(suppliers, StoredCash(b))
  {
    if suppliers != [] {
      var n := |suppliers| - 1;
      GrandTotalIsStored(b, ordered, suppliers[..n], asOf);
      AgingIsStoredBalance(b, ordered, suppliers[n], asOf);
    }
  }

  /** In every state the supplier desk can reach, posting or not and whatever is requested: each supplier's
      buckets add up to the stored balance, and the grand total to the balances of the suppliers listed. */
  lemma AgingInEveryState(books: seq<Book>, flags: seq<bool>, lots: map<Id, Lot>, ordered: seq<Purchase>,
                          suppliers: seq<Id>, supplier: Id, asOf: int)
    requires Run(books, flags, false) && books[0] == NewBook(lots)
    requires multiset(ordered) == multiset(books[|books| - 1].purchases)
    ensures var b := books[|books| - 1];
      && Total(AgingOf(ordered, b.payments, supplier, asOf)) == Sum(b.rows, AtKey(CashKey(supplier)))
      && Total(AgingOfAll(ordered, b.payments, suppliers, asOf)) == Sum(suppliers, StoredCash(b))
  {
    EmptyBookIsTied(lots);
    RunStaysSound(books, flags, false);
    AgingIsStoredBalance(books[|books| - 1], ordered, supplier, asOf);
    GrandTotalIsStored(books[|books| - 1], ordered, suppliers, asOf);
  }
}
