/** Coin and ounce stock: every path that moves `on_hand_qty` (checkout, void, line refund, purchase,
    buyback, adjustment), conservation over every run, and the replay of `reconcile-units`. */
module UnitStock {
  import opened Wrappers
  import opened Sums
  import opened Orders

  /** A coin or ounce type. */
  datatype Unit = Unit(kind: ItemKind, typeId: Id)
  datatype StockIn = StockIn(unit: Unit, quantity: int)
  datatype Adjustment = Adjustment(unit: Unit, delta: int)

  datatype Refusal =
    | TooMany | TypeMissing | Insufficient | NotAUnit | NotWhole | BelowZero | QuantityMissing
    | OrderMissing | NotCompleted | OrderRefused(why: Refused)

  const QTY_CAP := 100

  predicate IsUnit(it: OrderItem) { it.kind != PRODUCT }
  function UnitOf(it: OrderItem): Unit { Unit(it.kind, it.typeId) }

  function QtyFor(u: Unit): StockIn -> int { (s: StockIn) => if s.unit == u then s.quantity else 0 }
  function DeltaFor(u: Unit): Adjustment -> int { (a: Adjustment) => if a.unit == u then a.delta else 0 }
  function SoldOf(u: Unit): OrderItem -> int {
    (it: OrderItem) => if IsUnit(it) && UnitOf(it) == u then it.quantity else 0
  }
  function ReturnedOf(u: Unit): OrderItem -> int {
    (it: OrderItem) => if IsUnit(it) && UnitOf(it) == u then it.refundedQty else 0
  }
  function StillOut(u: Unit): OrderItem -> int {
    (it: OrderItem) => if IsUnit(it) && UnitOf(it) == u then it.quantity - it.refundedQty else 0
  }
  /** A voided order put everything back. */
  function OutOf(u: Unit): Order -> int { (o: Order) => if o.status == VOIDED then 0 else Sum(o.items, StillOut(u)) }

  datatype Stock = Stock(onHand: map<Unit, int>, purchases: seq<StockIn>, buybacks: seq<StockIn>,
                         adjustments: seq<Adjustment>, orders: seq<Order>)

  function Conservation(s: Stock, u: Unit): int {
    Sum(s.purchases, QtyFor(u)) + Sum(s.buybacks, QtyFor(u)) + Sum(s.adjustments, DeltaFor(u)) - Sum(s.orders, OutOf(u))
  }

  ghost predicate SoundItems(o: Order, onHand: map<Unit, int>) {
    forall it | it in o.items :: it.refundedQty <= it.quantity && (IsUnit(it) ==> UnitOf(it) in onHand)
  }

  ghost predicate SoundOrder(o: Order, onHand: map<Unit, int>) {
    && SoundItems(o, onHand)
    && (o.status == COMPLETED || o.status == VOIDED ==> forall it | it in o.items :: it.refundedQty == 0)
  }

  /** Every record is about a known type. */
  ghost predicate Known(s: Stock) {
    && (forall t | t in s.purchases :: t.unit in s.onHand) && (forall t | t in s.buybacks :: t.unit in s.onHand)
    && (forall a | a in s.adjustments :: a.unit in s.onHand) && (forall o | o in s.orders :: SoundOrder(o, s.onHand))
  }

  /** Conservation: what is on hand is what came in less what is still out, and never negative. */
  ghost predicate Accounts(s: Stock) { forall u | u in s.onHand :: 0 <= s.onHand[u] == Conservation(s, u) }

  lemma UnknownIsZero(s: Stock, u: Unit)
    requires Known(s) && u !in s.onHand
    ensures Conservation(s, u) == 0
  {
    SumZero(s.purchases, QtyFor(u));
    SumZero(s.buybacks, QtyFor(u));
    SumZero(s.adjustments, DeltaFor(u));
    forall o | o in s.orders ensures OutOf(u)(o) == 0 {
      assert SoundOrder(o, s.onHand);
      SumZero(o.items, StillOut(u));
    }
    SumZero(s.orders, OutOf(u));
  }

  // ---- Stock taken and put back ----

  function Moved(onHand: map<Unit, int>, u: Unit, delta: int): map<Unit, int>
    requires u in onHand
  {
    onHand[u := onHand[u] + delta]
  }

  /** `after` is `before` with `delta(u)` added on every unit. */
  ghost predicate MovedBy(before: map<Unit, int>, after: map<Unit, int>, delta: Unit -> int) {
    after.Keys == before.Keys && forall u | u in before :: after[u] == before[u] + delta(u)
  }

  ghost function Minus(items: seq<OrderItem>): Unit -> int { (u: Unit) => -Sum(items, SoldOf(u)) }
  ghost function Plus(items: seq<OrderItem>): Unit -> int { (u: Unit) => Sum(items, SoldOf(u)) }

  /** Why a line is refused when `free` units are left. */
  function LineRefusal(known: bool, free: int, it: OrderItem): Option<Refusal> {
    if it.quantity < 1 then Some(OrderRefused(BadQuantity))
    else if !IsUnit(it) then None
    else if it.quantity > QTY_CAP then Some(TooMany)
    else if !known then Some(TypeMissing)
    else if free < it.quantity then Some(Insufficient)
    else None
  }

  predicate KnownType(onHand: map<Unit, int>, active: set<Unit>, it: OrderItem) {
    UnitOf(it) in onHand && UnitOf(it) in active
  }
  function OnHand(onHand: map<Unit, int>, u: Unit): int { if u in onHand then onHand[u] else 0 }

  /** Why line `i` of a cart is refused: the lines before it have taken their units. */
  function RefusalAt(onHand: map<Unit, int>, active: set<Unit>, items: seq<OrderItem>, i: nat): Option<Refusal>
    requires i < |items|
  {
    var u := UnitOf(items[i]);
    LineRefusal(KnownType(onHand, active, items[i]), OnHand(onHand, u) - Sum(items[..i], SoldOf(u)), items[i])
  }
  ghost predicate Accepted(onHand: map<Unit, int>, active: set<Unit>, items: seq<OrderItem>, n: nat)
    requires n <= |items|
  {
    forall i | 0 <= i < n :: RefusalAt(onHand, active, items, i) == None
  }

  /** A line that could be sold if there were enough of it. */
  predicate Sellable(onHand: map<Unit, int>, active: set<Unit>, it: OrderItem) {
    1 <= it.quantity && (IsUnit(it) ==> it.quantity <= QTY_CAP && KnownType(onHand, active, it))
  }

  lemma OneMoreTaken(before: map<Unit, int>, left: map<Unit, int>, items: seq<OrderItem>, i: nat)
    requires i < |items| && MovedBy(before, left, Minus(items[..i]))
    requires IsUnit(items[i]) ==> UnitOf(items[i]) in before
    ensures MovedBy(before, if IsUnit(items[i]) then Moved(left, UnitOf(items[i]), 0 - items[i].quantity) else left,
                    Minus(items[..i + 1]))
  {
    forall u: Unit ensures Minus(items[..i + 1])(u) == Minus(items[..i])(u) - SoldOf(u)(items[i]) {
      SumPrefix(items, i, SoldOf(u));
    }
  }

  lemma OneMoreBack(before: map<Unit, int>, back: map<Unit, int>, items: seq<OrderItem>, i: nat)
    requires i < |items| && MovedBy(before, back, Plus(items[..i]))
    requires IsUnit(items[i]) ==> UnitOf(items[i]) in before
    ensures MovedBy(before, if IsUnit(items[i]) then Moved(back, UnitOf(items[i]), items[i].quantity) else back,
                    Plus(items[..i + 1]))
  {
    forall u: Unit ensures Plus(items[..i + 1])(u) == Plus(items[..i])(u) + SoldOf(u)(items[i]) {
      SumPrefix(items, i, SoldOf(u));
    }
  }

  lemma {:induction false} MoreIsSold(items: seq<OrderItem>, i: nat, u: Unit)
    requires i <= |items|
    ensures Sum(items[..i], SoldOf(u)) <= Sum(items, SoldOf(u))
    decreases |items| - i
  {
    if i == |items| {
      assert items[..i] == items;
    } else {
      SumPrefix(items, i, SoldOf(u));
      MoreIsSold(items, i + 1, u);
    }
  }

  /** The lines of a checkout, in cart order: all are accepted, or the first that is not says why. */
  method TakeUnits(onHand: map<Unit, int>, active: set<Unit>, items: seq<OrderItem>)
    returns (r: Result<map<Unit, int>, Refusal>)
    ensures r.Ok? <==> Accepted(onHand, active, items, |items|)
    ensures r.Err? ==> exists i: nat | i < |items| ::
      Accepted(onHand, active, items, i) && RefusalAt(onHand, active, items, i) == Some(r.error)
    ensures r.Ok? ==> MovedBy(onHand, r.value, Minus(items))
    ensures r.Ok? ==> forall it | it in items :: Sellable(onHand, active, it)
    ensures (forall u | u in onHand :: onHand[u] >= 0) && r.Ok? ==> forall u | u in onHand :: r.value[u] >= 0
  {
    var left, i := onHand, 0;
    while i < |items|
      invariant 0 <= i <= |items|
      invariant MovedBy(onHand, left, Minus(items[..i]))
      invariant Accepted(onHand, active, items, i)
      invariant forall j | 0 <= j < i :: Sellable(onHand, active, items[j])
      invariant (forall u | u in onHand :: onHand[u] >= 0) ==> forall u | u in onHand :: left[u] >= 0
    {
      var u := UnitOf(items[i]);
      var refusal := LineRefusal(KnownType(onHand, active, items[i]), OnHand(left, u), items[i]);
      FreeUnits(onHand, left, active, items, i);
      if refusal.Some? {
        return Err(refusal.value);
      }
      OneMoreTaken(onHand, left, items, i);
      if IsUnit(items[i]) {
        left := Moved(left, u, 0 - items[i].quantity);
      }
      i := i + 1;
    }
    assert items[..|items|] == items;
    r := Ok(left);
  }

  lemma FreeUnits(onHand: map<Unit, int>, left: map<Unit, int>, active: set<Unit>, items: seq<OrderItem>, i: nat)
    requires i < |items| && MovedBy(onHand, left, Minus(items[..i]))
    ensures LineRefusal(KnownType(onHand, active, items[i]), OnHand(left, UnitOf(items[i])), items[i])
      == RefusalAt(onHand, active, items, i)
  {
    var u := UnitOf(items[i]);
    if u in onHand {
      assert left[u] == onHand[u] + Minus(items[..i])(u);
    }
  }

  /** A cart is accepted exactly when every line could be sold and, over the whole cart, no unit is asked
      for more than is on hand: the order of the lines does not matter. */
  lemma CartFits(onHand: map<Unit, int>, active: set<Unit>, items: seq<OrderItem>)
    requires forall u | u in onHand :: onHand[u] >= 0
    ensures Accepted(onHand, active, items, |items|) <==>
      && (forall it | it in items :: Sellable(onHand, active, it))
      && forall u | u in onHand :: Sum(items, SoldOf(u)) <= onHand[u]
  {
    if Accepted(onHand, active, items, |items|) {
      forall u | u in onHand ensures Sum(items, SoldOf(u)) <= onHand[u] {
        AcceptedFits(onHand, active, items, |items|, u);
        assert items[..|items|] == items;
      }
      forall it | it in items ensures Sellable(onHand, active, it) {
        var i :| 0 <= i < |items| && items[i] == it;
        assert RefusalAt(onHand, active, items, i) == None;
      }
    }
    if (forall it | it in items :: Sellable(onHand, active, it))
      && forall u | u in onHand :: Sum(items, SoldOf(u)) <= onHand[u] {
      forall i | 0 <= i < |items| ensures RefusalAt(onHand, active, items, i) == None {
        SellableFits(onHand, active, items, i);
      }
    }
  }

  lemma {:induction false} AcceptedFits(onHand: map<Unit, int>, active: set<Unit>, items: seq<OrderItem>, n: nat,
                                        u: Unit)
    requires n <= |items| && Accepted(onHand, active, items, n) && u in onHand && onHand[u] >= 0
    ensures Sum(items[..n], SoldOf(u)) <= onHand[u]
  {
    if n > 0 {
      AcceptedFits(onHand, active, items, n - 1, u);
      SumPrefix(items, n - 1, SoldOf(u));
      assert RefusalAt(onHand, active, items, n - 1) == None;
    }
  }

  lemma SellableFits(onHand: map<Unit, int>, active: set<Unit>, items: seq<OrderItem>, i: nat)
    requires i < |items| && Sellable(onHand, active, items[i])
    requires IsUnit(items[i]) ==> Sum(items, SoldOf(UnitOf(items[i]))) <= onHand[UnitOf(items[i])]
    ensures RefusalAt(onHand, active, items, i) == None
  {
    var u := UnitOf(items[i]);
    SumPrefix(items, i, SoldOf(u));
    MoreIsSold(items, i + 1, u);
  }

  method PutBack(onHand: map<Unit, int>, items: seq<OrderItem>) returns (back: map<Unit, int>)
    requires forall it | it in items && IsUnit(it) :: UnitOf(it) in onHand
    ensures MovedBy(onHand, back, Plus(items))
  {
    back := onHand;
    var i := 0;
    while i < |items|
      invariant 0 <= i <= |items|
      invariant MovedBy(onHand, back, Plus(items[..i]))
    {
      assert items[i] in items;
      OneMoreBack(onHand, back, items, i);
      if IsUnit(items[i]) {
        back := Moved(back, UnitOf(items[i]), items[i].quantity);
      }
      i := i + 1;
    }
    assert items[..|items|] == items;
  }

  /** apply_unit_stock_adjustment_core: `delta` is in thousandths, the scale of the column. */
  method AdjustCore(onHand: map<Unit, int>, u: Unit, delta: int) returns (r: Result<map<Unit, int>, Refusal>)
    ensures r.Ok? <==> u.kind != PRODUCT && delta % 1000 == 0 && u in onHand && onHand[u] + delta / 1000 >= 0
    ensures r.Ok? ==> r.value == Moved(onHand, u, delta / 1000)
    ensures r.Err? ==> r.error == if u.kind == PRODUCT then NotAUnit else if delta % 1000 != 0 then NotWhole
      else if u !in onHand then TypeMissing else BelowZero
  {
    if u.kind == PRODUCT {
      return Err(NotAUnit);
    }
    if delta % 1000 != 0 {
      return Err(NotWhole);
    }
    if u !in onHand {
      return Err(TypeMissing);
    }
    var after := onHand[u] + delta / 1000;
    if after < 0 {
      return Err(BelowZero);
    }
    r := Ok(onHand[u := after]);
  }

  // ---- What each request does to conservation ----

  lemma SoldOrder(s: Stock, o: Order, u: Unit)
    requires o.status == COMPLETED && forall it | it in o.items :: it.refundedQty == 0
    ensures Conservation(s.(orders := s.orders + [o]), u) == Conservation(s, u) - Sum(o.items, SoldOf(u))
  {
    SumSnoc(s.orders, o, OutOf(u));
    SumEq(o.items, StillOut(u), SoldOf(u));
  }

  lemma ChangedOrder(s: Stock, i: nat, o: Order, u: Unit)
    requires i < |s.orders|
    ensures Conservation(s.(orders := s.orders[i := o]), u)
      == Conservation(s, u) + OutOf(u)(s.orders[i]) - OutOf(u)(o)
  {
    SumUpdate(s.orders, i, o, OutOf(u));
  }

  lemma VoidedGivesAllBack(o: Order, u: Unit)
    requires o.status == COMPLETED && forall it | it in o.items :: it.refundedQty == 0
    ensures OutOf(u)(o) == Sum(o.items, SoldOf(u)) && OutOf(u)(o.(status := VOIDED)) == 0
  {
    SumEq(o.items, StillOut(u), SoldOf(u));
  }

  /** A line refund gives back exactly the refunded units of the refunded line. */
  lemma RefundGivesBack(o: Order, itemId: Id, quantity: Option<int>, onHand: map<Unit, int>, u: Unit)
    requires SoundOrder(o, onHand) && RefundItem(o, itemId, quantity).Ok?
    ensures var i, p := ItemIndex(o.items, itemId), RefundItem(o, itemId, quantity).value;
      && i < |o.items|
      && OutOf(u)(p) == (if IsUnit(o.items[i]) && UnitOf(o.items[i]) == u
                         then OutOf(u)(o) - RefundQty(o, itemId, quantity) else OutOf(u)(o))
      && SoundOrder(p, onHand)
  {
    var i := ItemIndex(o.items, itemId);
    var qty := RefundQty(o, itemId, quantity);
    var it := AfterUnits(o.items[i], qty);
    SumUpdate(o.items, i, it, StillOut(u));
    assert o.items[i] in o.items;
    assert RefundItem(o, itemId, quantity).value.items == o.items[i := it];
  }

  lemma MovedKeepsAccounts(s: Stock, after: Stock, u: Unit, delta: int)
    requires Accounts(s) && u in s.onHand && s.onHand[u] + delta >= 0 && after.onHand == Moved(s.onHand, u, delta)
    requires forall v: Unit :: Conservation(after, v) == Conservation(s, v) + if v == u then delta else 0
    ensures Accounts(after)
  {
  }

  lemma MovedByKeepsAccounts(s: Stock, after: Stock, delta: Unit -> int)
    requires Accounts(s) && MovedBy(s.onHand, after.onHand, delta) && forall u | u in s.onHand :: after.onHand[u] >= 0
    requires forall v: Unit :: Conservation(after, v) == Conservation(s, v) + delta(v)
    ensures Accounts(after)
  {
  }

  // ---- The stock after each request ----

  ghost function AfterPurchase(s: Stock, t: StockIn): Stock
    requires t.unit in s.onHand
  {
    s.(onHand := Moved(s.onHand, t.unit, t.quantity), purchases := s.purchases + [t])
  }
  ghost function AfterBuyback(s: Stock, t: StockIn): Stock
    requires t.unit in s.onHand
  {
    s.(onHand := Moved(s.onHand, t.unit, t.quantity), buybacks := s.buybacks + [t])
  }
  ghost function AfterAdjustment(s: Stock, a: Adjustment): Stock
    requires a.unit in s.onHand
  {
    s.(onHand := Moved(s.onHand, a.unit, a.delta), adjustments := s.adjustments + [a])
  }

  lemma PurchaseKeeps(s: Stock, t: StockIn)
    requires Accounts(s) && Known(s) && t.unit in s.onHand && t.quantity > 0
    ensures Accounts(AfterPurchase(s, t)) && Known(AfterPurchase(s, t))
  {
    forall v: Unit ensures Conservation(AfterPurchase(s, t), v) == Conservation(s, v) + QtyFor(v)(t) {
      SumSnoc(s.purchases, t, QtyFor(v));
    }
    MovedKeepsAccounts(s, AfterPurchase(s, t), t.unit, t.quantity);
    SameTypes(s.orders, s.onHand, AfterPurchase(s, t).onHand);
  }

  lemma BuybackKeeps(s: Stock, t: StockIn)
    requires Accounts(s) && Known(s) && t.unit in s.onHand && t.quantity > 0
    ensures Accounts(AfterBuyback(s, t)) && Known(AfterBuyback(s, t))
  {
    forall v: Unit ensures Conservation(AfterBuyback(s, t), v) == Conservation(s, v) + QtyFor(v)(t) {
      SumSnoc(s.buybacks, t, QtyFor(v));
    }
    MovedKeepsAccounts(s, AfterBuyback(s, t), t.unit, t.quantity);
    SameTypes(s.orders, s.onHand, AfterBuyback(s, t).onHand);
  }

  lemma AdjustmentKeeps(s: Stock, a: Adjustment)
    requires Accounts(s) && Known(s) && a.unit in s.onHand && s.onHand[a.unit] + a.delta >= 0
    ensures Accounts(AfterAdjustment(s, a)) && Known(AfterAdjustment(s, a))
  {
    forall v: Unit ensures Conservation(AfterAdjustment(s, a), v) == Conservation(s, v) + DeltaFor(v)(a) {
      SumSnoc(s.adjustments, a, DeltaFor(v));
    }
    MovedKeepsAccounts(s, AfterAdjustment(s, a), a.unit, a.delta);
    SameTypes(s.orders, s.onHand, AfterAdjustment(s, a).onHand);
  }

  lemma SameTypes(orders: seq<Order>, before: map<Unit, int>, after: map<Unit, int>)
    requires before.Keys <= after.Keys && forall o | o in orders :: SoundOrder(o, before)
    ensures forall o | o in orders :: SoundOrder(o, after)
  {
  }

  ghost function AfterSale(s: Stock, o: Order, left: map<Unit, int>): Stock {
    s.(onHand := left, orders := s.orders + [o])
  }

  lemma SaleKeeps(s: Stock, o: Order, left: map<Unit, int>)
    requires Accounts(s) && Known(s) && SoundOrder(o, s.onHand) && o.status == COMPLETED
    requires MovedBy(s.onHand, left, Minus(o.items)) && forall u | u in s.onHand :: left[u] >= 0
    ensures Accounts(AfterSale(s, o, left)) && Known(AfterSale(s, o, left))
  {
    forall v: Unit ensures Conservation(AfterSale(s, o, left), v) == Conservation(s, v) + Minus(o.items)(v) {
      SoldOrder(s, o, v);
    }
    MovedByKeepsAccounts(s, AfterSale(s, o, left), Minus(o.items));
    SameTypes(s.orders, s.onHand, left);
  }

  ghost function AfterVoid(s: Stock, i: nat, back: map<Unit, int>): Stock
    requires i < |s.orders|
  {
    s.(onHand := back, orders := s.orders[i := s.orders[i].(status := VOIDED)])
  }

  lemma VoidKeeps(s: Stock, i: nat, back: map<Unit, int>)
    requires Accounts(s) && Known(s) && i < |s.orders| && s.orders[i].status == COMPLETED
    requires MovedBy(s.onHand, back, Plus(s.orders[i].items))
    ensures Accounts(AfterVoid(s, i, back)) && Known(AfterVoid(s, i, back))
  {
    var o := s.orders[i];
    assert SoundOrder(o, s.onHand);
    forall v: Unit ensures Conservation(AfterVoid(s, i, back), v) == Conservation(s, v) + Plus(o.items)(v) {
      VoidedGivesAllBack(o, v);
      ChangedOrder(s, i, o.(status := VOIDED), v);
    }
    forall u | u in s.onHand ensures back[u] >= 0 {
      SumNonNegative(o.items, SoldOf(u));
    }
    MovedByKeepsAccounts(s, AfterVoid(s, i, back), Plus(o.items));
    SameTypes(s.orders, s.onHand, back);
  }

  lemma WholeRefundKeeps(s: Stock, i: nat)
    requires Accounts(s) && Known(s) && i < |s.orders| && s.orders[i].status == COMPLETED
    ensures var after := s.(orders := s.orders[i := s.orders[i].(status := REFUNDED)]); Accounts(after) && Known(after)
  {
    var after := s.(orders := s.orders[i := s.orders[i].(status := REFUNDED)]);
    assert SoundOrder(s.orders[i], s.onHand);
    forall v: Unit ensures Conservation(after, v) == Conservation(s, v) {
      ChangedOrder(s, i, s.orders[i].(status := REFUNDED), v);
    }
  }

  /** Only the units of a coin or ounce line go back to a unit's stock. */
  function UnitsReturned(onHand: map<Unit, int>, o: Order, itemId: Id, quantity: Option<int>): map<Unit, int>
    requires SoundItems(o, onHand) && RefundRefusal(o, itemId, quantity) == None
  {
    var it := o.items[ItemIndex(o.items, itemId)];
    assert it in o.items;
    if IsUnit(it) then Moved(onHand, UnitOf(it), RefundQty(o, itemId, quantity)) else onHand
  }

  ghost function AfterLineRefund(s: Stock, i: nat, itemId: Id, quantity: Option<int>): Stock
    requires i < |s.orders| && SoundOrder(s.orders[i], s.onHand) && RefundItem(s.orders[i], itemId, quantity).Ok?
  {
    s.(orders := s.orders[i := RefundItem(s.orders[i], itemId, quantity).value],
       onHand := UnitsReturned(s.onHand, s.orders[i], itemId, quantity))
  }

  lemma LineRefundKeeps(s: Stock, i: nat, itemId: Id, quantity: Option<int>)
    requires Accounts(s) && Known(s)
    requires i < |s.orders| && RefundItem(s.orders[i], itemId, quantity).Ok? && SoundOrder(s.orders[i], s.onHand)
    ensures Accounts(AfterLineRefund(s, i, itemId, quantity)) && Known(AfterLineRefund(s, i, itemId, quantity))
  {
    var o, after := s.orders[i], AfterLineRefund(s, i, itemId, quantity);
    var p, it, qty := RefundItem(o, itemId, quantity).value, o.items[ItemIndex(o.items, itemId)],
                      RefundQty(o, itemId, quantity);
    forall v: Unit
      ensures Conservation(after, v) == Conservation(s, v) + if IsUnit(it) && v == UnitOf(it) then qty else 0
    {
      RefundGivesBack(o, itemId, quantity, s.onHand, v);
      ChangedOrder(s, i, p, v);
    }
    RefundGivesBack(o, itemId, quantity, s.onHand, UnitOf(it));
    if IsUnit(it) {
      assert it in o.items;
      MovedKeepsAccounts(s, after, UnitOf(it), qty);
    } else {
      MovedByKeepsAccounts(s, after, (u: Unit) => 0);
    }
    SameTypes(s.orders, s.onHand, after.onHand);
  }

  // ---- The shop ----

  class Shop {
    var onHand: map<Unit, int>
    var active: set<Unit>
    var purchases: seq<StockIn>
    var buybacks: seq<StockIn>
    var adjustments: seq<Adjustment>
    var orders: seq<Order>

    ghost function Contents(): Stock reads this { Stock(onHand, purchases, buybacks, adjustments, orders) }
    ghost predicate Valid() reads this { Accounts(Contents()) && Known(Contents()) }

    constructor ()
      ensures Valid() && Contents() == Stock(map[], [], [], [], [])
    {
      onHand, active, purchases, buybacks, adjustments, orders := map[], {}, [], [], [], [];
    }

    /** A new coin or ounce type starts with nothing on hand. */
    method AddType(u: Unit)
      requires Valid() && u.kind != PRODUCT && u !in onHand
      modifies this
      ensures Valid() && Contents() == old(Contents()).(onHand := old(onHand)[u := 0]) && active == old(active) + {u}
    {
      UnknownIsZero(Contents(), u);
      SameTypes(orders, onHand, onHand[u := 0]);
      onHand, active := onHand[u := 0], active + {u};
      assert forall v: Unit :: Conservation(Contents(), v) == Conservation(old(Contents()), v);
    }

    /** `_materialize_item`, COIN and OUNCE lines of a supplier purchase. */
    method Buy(u: Unit, quantity: Option<int>) returns (r: Result<(), Refusal>)
      requires Valid() && (quantity.Some? ==> quantity.value > 0)
      modifies this
      ensures Valid() && active == old(active)
      ensures r.Err? ==> Contents() == old(Contents())
      ensures r.Ok? <==> quantity.Some? && u in old(onHand)
      ensures r.Ok? ==> Contents() == AfterPurchase(old(Contents()), StockIn(u, quantity.value))
    {
      if quantity == None {
        return Err(QuantityMissing);
      }
      if u !in onHand {
        return Err(TypeMissing);
      }
      var t := StockIn(u, quantity.value);
      PurchaseKeeps(Contents(), t);
      ghost var next := AfterPurchase(Contents(), t);
      onHand, purchases := Moved(onHand, u, t.quantity), purchases + [t];
      assert Contents() == next;
      return Ok(());
    }

    /** `_create_coin_buyback`, `_create_ounce_buyback`. */
    method BuyBack(u: Unit, quantity: Option<int>) returns (r: Result<(), Refusal>)
      requires Valid() && (quantity.Some? ==> quantity.value > 0)
      modifies this
      ensures Valid() && active == old(active)
      ensures r.Err? ==> Contents() == old(Contents())
      ensures r.Ok? <==> quantity.Some? && u in old(onHand)
      ensures r.Ok? ==> Contents() == AfterBuyback(old(Contents()), StockIn(u, quantity.value))
    {
      if quantity == None {
        return Err(QuantityMissing);
      }
      if u !in onHand {
        return Err(TypeMissing);
      }
      var t := StockIn(u, quantity.value);
      BuybackKeeps(Contents(), t);
      ghost var next := AfterBuyback(Contents(), t);
      onHand, buybacks := Moved(onHand, u, t.quantity), buybacks + [t];
      assert Contents() == next;
      return Ok(());
    }

    method Adjust(u: Unit, delta: int) returns (r: Result<(), Refusal>)
      requires Valid()
      modifies this
      ensures Valid() && active == old(active)
      ensures r.Err? ==> Contents() == old(Contents())
      ensures r.Ok? <==>
        u.kind != PRODUCT && delta % 1000 == 0 && u in old(onHand) && old(onHand)[u] + delta / 1000 >= 0
      ensures r.Ok? ==> Contents() == AfterAdjustment(old(Contents()), Adjustment(u, delta / 1000))
    {
      var moved := AdjustCore(onHand, u, delta);
      if moved.Err? {
        return Err(moved.error);
      }
      AdjustmentKeeps(Contents(), Adjustment(u, delta / 1000));
      onHand, adjustments := moved.value, adjustments + [Adjustment(u, delta / 1000)];
      return Ok(());
    }

    /** create_order: the units leave stock, then the order is made; a refusal of either undoes both. */
    method Sell(id: Id, cart: seq<CartLine>, vatPercent: nat, discountPercent: int, maxDiscount: nat)
      returns (r: Result<Order, Refusal>)
      requires Valid()
      modifies this
      ensures Valid() && active == old(active)
      ensures r.Err? ==> Contents() == old(Contents())
      ensures r.Ok? <==>
        && Accepted(old(onHand), active, SoldAll(cart), |SoldAll(cart)|)
        && cart != [] && 0 <= discountPercent <= maxDiscount
      ensures !Accepted(old(onHand), active, SoldAll(cart), |SoldAll(cart)|) ==> r.Err? && exists i: nat | i < |cart| ::
        && Accepted(old(onHand), active, SoldAll(cart), i)
        && RefusalAt(old(onHand), active, SoldAll(cart), i) == Some(r.error)
      ensures Accepted(old(onHand), active, SoldAll(cart), |SoldAll(cart)|) && r.Err? ==>
        r.error == OrderRefused(if cart == [] then EmptyOrder
                                else if discountPercent < 0 then NegativeDiscount else DiscountTooHigh)
      ensures r.Ok? ==>
        && r.value.items == SoldAll(cart) && r.value.status == COMPLETED
        && Contents() == AfterSale(old(Contents()), r.value, onHand)
        && MovedBy(old(onHand), onHand, Minus(r.value.items))
        && forall it | it in r.value.items :: Sellable(old(onHand), active, it)
    {
      var items := SoldAll(cart);
      var taken := TakeUnits(onHand, active, items);
      if taken.Err? {
        return Err(taken.error);
      }
      QuantitiesAreFine(cart, onHand, active);
      var made := Checkout(id, cart, vatPercent, discountPercent, maxDiscount);
      if made.Err? {
        return Err(OrderRefused(made.error));
      }
      NothingRefundedYet(cart, onHand, active);
      SaleKeeps(Contents(), made.value, taken.value);
      onHand, orders := taken.value, orders + [made.value];
      return Ok(made.value);
    }

    /** void_order: only a completed order; every unit goes back. */
    method Void(i: nat) returns (r: Result<(), Refusal>)
      requires Valid()
      modifies this
      ensures Valid() && active == old(active)
      ensures r.Err? ==> Contents() == old(Contents())
      ensures r.Ok? <==> i < |old(orders)| && old(orders)[i].status == COMPLETED
      ensures r.Ok? ==>
        MovedBy(old(onHand), onHand, Plus(old(orders)[i].items)) && Contents() == AfterVoid(old(Contents()), i, onHand)
    {
      if i >= |orders| {
        return Err(OrderMissing);
      }
      var o := orders[i];
      if o.status != COMPLETED {
        return Err(NotCompleted);
      }
      assert SoundOrder(o, onHand);
      var back := PutBack(onHand, o.items);
      VoidKeeps(Contents(), i, back);
      onHand, orders := back, orders[i := o.(status := VOIDED)];
      return Ok(());
    }

    /** refund_order: money only, the units stay with the customer. */
    method RefundWhole(i: nat) returns (r: Result<(), Refusal>)
      requires Valid()
      modifies this
      ensures Valid() && active == old(active)
      ensures r.Err? ==> Contents() == old(Contents())
      ensures r.Ok? <==> i < |old(orders)| && old(orders)[i].status == COMPLETED
      ensures r.Ok? ==>
        Contents() == old(Contents()).(orders := old(orders)[i := old(orders)[i].(status := REFUNDED)])
    {
      if i >= |orders| {
        return Err(OrderMissing);
      }
      if orders[i].status != COMPLETED {
        return Err(NotCompleted);
      }
      WholeRefundKeeps(Contents(), i);
      orders := orders[i := orders[i].(status := REFUNDED)];
      return Ok(());
    }

    /** refund_order_item: the refunded units of a coin or ounce line go back. */
    method RefundLine(i: nat, itemId: Id, quantity: Option<int>) returns (r: Result<(), Refusal>)
      requires Valid()
      modifies this
      ensures Valid() && active == old(active)
      ensures r.Err? ==> Contents() == old(Contents())
      ensures r.Ok? <==> i < |old(orders)| && RefundItem(old(orders)[i], itemId, quantity).Ok?
      ensures r.Ok? ==>
        SoundOrder(old(orders)[i], old(onHand)) && Contents() == AfterLineRefund(old(Contents()), i, itemId, quantity)
    {
      if i >= |orders| {
        return Err(OrderMissing);
      }
      var after := RefundItem(orders[i], itemId, quantity);
      if after.Err? {
        return Err(OrderRefused(after.error));
      }
      assert SoundOrder(orders[i], onHand);
      LineRefundKeeps(Contents(), i, itemId, quantity);
      ghost var next := AfterLineRefund(Contents(), i, itemId, quantity);
      onHand, orders := UnitsReturned(onHand, orders[i], itemId, quantity), orders[i := after.value];
      assert Contents() == next;
      return Ok(());
    }
  }

  lemma QuantitiesAreFine(cart: seq<CartLine>, onHand: map<Unit, int>, active: set<Unit>)
    requires forall it | it in SoldAll(cart) :: Sellable(onHand, active, it)
    ensures forall l | l in cart :: l.item.quantity >= 1
  {
    forall l | l in cart ensures l.item.quantity >= 1 {
      var j :| 0 <= j < |cart| && cart[j] == l;
      assert SoldAll(cart)[j] in SoldAll(cart);
    }
  }

  lemma NothingRefundedYet(cart: seq<CartLine>, onHand: map<Unit, int>, active: set<Unit>)
    requires forall it | it in SoldAll(cart) :: Sellable(onHand, active, it)
    ensures forall it | it in SoldAll(cart) :: it.refundedQty == 0 && (IsUnit(it) ==> UnitOf(it) in onHand)
  {
    forall it | it in SoldAll(cart) ensures it.refundedQty == 0 {
      var j :| 0 <= j < |cart| && SoldAll(cart)[j] == it;
    }
  }

  // ---- The replay of reconcile-units ----

  function SoldInFull(u: Unit): Order -> int {
    (o: Order) => if o.status == COMPLETED || o.status == REFUNDED then Sum(o.items, SoldOf(u)) else 0
  }
  /** `_expected_unit_qty` */
  function ExpectedUnitQty(s: Stock, u: Unit): int {
    Sum(s.purchases, QtyFor(u)) + Sum(s.buybacks, QtyFor(u)) + Sum(s.adjustments, DeltaFor(u))
    - Sum(s.orders, SoldInFull(u))
  }

  /** What a line-refunded order makes the replay miss: returned units of an order refunded in full, and
      the units still out on one refunded in part, which the replay leaves out altogether. */
  function DriftOf(u: Unit): Order -> int {
    (o: Order) => if o.status == REFUNDED then Sum(o.items, ReturnedOf(u))
                  else if o.status == PARTIALLY_REFUNDED then -Sum(o.items, StillOut(u)) else 0
  }

  lemma OrderDrift(o: Order, onHand: map<Unit, int>, u: Unit)
    requires SoundOrder(o, onHand)
    ensures DriftOf(u)(o) == SoldInFull(u)(o) - OutOf(u)(o)
  {
    SumDiff(o.items, SoldOf(u), ReturnedOf(u), StillOut(u));
    if o.status == COMPLETED {
      SumZero(o.items, ReturnedOf(u));
    }
  }

  /** The drift reconcile-units reports is exactly what line refunds moved. */
  lemma DriftIsLineRefunds(s: Stock, u: Unit)
    requires Accounts(s) && Known(s) && u in s.onHand
    ensures s.onHand[u] - ExpectedUnitQty(s, u) == Sum(s.orders, DriftOf(u))
  {
    forall o | o in s.orders { OrderDrift(o, s.onHand, u); }
    SumDiff(s.orders, SoldInFull(u), OutOf(u), DriftOf(u));
  }

  ghost predicate NoLineRefunds(orders: seq<Order>) {
    forall o | o in orders :: o.status != PARTIALLY_REFUNDED && forall it | it in o.items :: it.refundedQty == 0
  }

  /** Without line refunds the replay computes exactly what is on hand, of every unit. */
  lemma ReplayIsExactWithoutLineRefunds(s: Stock, u: Unit)
    requires Accounts(s) && Known(s) && u in s.onHand
    requires NoLineRefunds(s.orders)
    ensures ExpectedUnitQty(s, u) == s.onHand[u]
  {
    DriftIsLineRefunds(s, u);
    forall o | o in s.orders ensures DriftOf(u)(o) == 0 {
      SumZero(o.items, ReturnedOf(u));
    }
    SumZero(s.orders, DriftOf(u));
  }
}
