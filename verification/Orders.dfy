/** Checkout totals, line refunds and the recomputed order totals of `app/api/orders.py`.
    Percentages are in hundredths of a percent, as their columns store them. */
module Orders {
  import opened Wrappers
  import opened Sums
  import opened Rounding
  import opened Journal

  datatype ItemKind = PRODUCT | COIN | OUNCE
  datatype OrderStatus = COMPLETED | VOIDED | REFUNDED | PARTIALLY_REFUNDED

  datatype OrderItem = OrderItem(
    id: Id, kind: ItemKind, typeId: Id, quantity: nat, karat: Karat, weight: nat,
    goldRate: nat, makingCharge: nat, trackedCost: Option<int>, stoneCost: nat,
    finalPrice: int, refundedQty: nat, refundedAmount: int)

  /** One ORDER_ITEM_REFUND event of the inventory ledger. */
  datatype RefundEvent = RefundEvent(itemId: Id, qty: nat, value: int, cumulative: nat, cash: int)

  datatype Order = Order(
    id: Id, items: seq<OrderItem>, vatPercent: nat, discountPercent: nat,
    subtotal: int, vatAmount: int, discountAmount: int, totalUsd: int,
    status: OrderStatus, refunds: seq<RefundEvent>)

  const PERCENT := 10000  // 100.00 %

  function PercentOf(amount: int, percent: nat): int { Round(amount * percent, PERCENT) }

  /** Grand total: VAT on the pre-discount subtotal, then the discount. */
  function Total(subtotal: int, vatPercent: nat, discountPercent: nat): int {
    subtotal + PercentOf(subtotal, vatPercent) - PercentOf(subtotal, discountPercent)
  }

  function RemainingOf(it: OrderItem): int { it.finalPrice - it.refundedAmount }
  function PriceOf(it: OrderItem): int { it.finalPrice }

  // ---- Checkout ----

  /** A priced cart line: the unit price is already a whole number of cents (pricing._round). */
  datatype CartLine = CartLine(item: OrderItem, unitPrice: nat)

  datatype Refused =
    | EmptyOrder | BadQuantity | NegativeDiscount | DiscountTooHigh
    | NotRefundable | NoSuchItem | FullyRefunded | MoreThanRemaining

  function Sold(line: CartLine): OrderItem {
    line.item.(finalPrice := line.unitPrice * line.item.quantity, refundedQty := 0, refundedAmount := 0)
  }
  function SoldAll(cart: seq<CartLine>): seq<OrderItem> {
    seq(|cart|, i requires 0 <= i < |cart| => Sold(cart[i]))
  }

  /** create_order: builds the order, or refuses before anything is written. */
  method Checkout(id: Id, cart: seq<CartLine>, vatPercent: nat, discountPercent: int, maxDiscount: nat)
    returns (r: Result<Order, Refused>)
    ensures r.Err? <==>
      || cart == [] || (exists l :: l in cart && l.item.quantity < 1)
      || discountPercent < 0 || discountPercent > maxDiscount
    ensures r.Err? ==>
      r.error == if cart == [] then EmptyOrder
                 else if exists l :: l in cart && l.item.quantity < 1 then BadQuantity
                 else if discountPercent < 0 then NegativeDiscount else DiscountTooHigh
    ensures r.Ok? ==> r.value.items == SoldAll(cart) && r.value.status == COMPLETED && r.value.id == id
    ensures r.Ok? && maxDiscount <= PERCENT ==> Fresh(r.value)
  {
    if cart == [] {
      return Err(EmptyOrder);
    }
    var items, subtotal := [], 0;
    var i := 0;
    while i < |cart|
      invariant 0 <= i <= |cart|
      invariant forall j | 0 <= j < i :: cart[j].item.quantity >= 1
      invariant items == SoldAll(cart[..i])
      invariant subtotal == Sum(items, PriceOf)
    {
      if cart[i].item.quantity < 1 {
        assert cart[i] in cart;
        return Err(BadQuantity);
      }
      assert SoldAll(cart[..i + 1]) == SoldAll(cart[..i]) + [Sold(cart[i])];
      SumSnoc(items, Sold(cart[i]), PriceOf);
      items := items + [Sold(cart[i])];
      subtotal := subtotal + cart[i].unitPrice * cart[i].item.quantity;
      i := i + 1;
    }
    assert cart[..|cart|] == cart;
    if discountPercent < 0 {
      return Err(NegativeDiscount);
    }
    if discountPercent > maxDiscount {
      return Err(DiscountTooHigh);
    }
    var vat, discount := PercentOf(subtotal, vatPercent), PercentOf(subtotal, discountPercent);
    var order := Order(id, items, vatPercent, discountPercent, subtotal, vat, discount,
                       subtotal + vat - discount, COMPLETED, []);
    FreshFromCart(cart, items);
    SumEq(items, PriceOf, RemainingOf);
    r := Ok(order);
  }

  lemma FreshFromCart(cart: seq<CartLine>, items: seq<OrderItem>)
    requires items == SoldAll(cart)
    requires forall j | 0 <= j < |cart| :: cart[j].item.quantity >= 1
    ensures forall it | it in items :: Priced(it) && it.refundedQty == 0 && it.refundedAmount == 0
  {
    forall it | it in items ensures Priced(it) && it.refundedQty == 0 && it.refundedAmount == 0 {
      var j :| 0 <= j < |items| && items[j] == it;
      RoundExact(cart[j].unitPrice, cart[j].item.quantity);
      assert it.finalPrice == cart[j].unitPrice * it.quantity;
    }
  }

  // ---- Line refunds ----

  /** unit_value * qty, quantized: the pre-VAT, pre-discount value of the refunded units. */
  function RefundValue(it: OrderItem, qty: nat): int {
    if it.quantity > 0 then Round(it.finalPrice * qty, it.quantity) else it.finalPrice * qty
  }

  function ItemIndex(items: seq<OrderItem>, id: Id): (i: nat)
    ensures i <= |items|
    ensures i < |items| ==> items[i].id == id
    ensures i == |items| ==> forall it | it in items :: it.id != id
  {
    if items == [] then 0 else if items[0].id == id then 0 else 1 + ItemIndex(items[1..], id)
  }

  function AfterUnits(it: OrderItem, qty: nat): OrderItem {
    it.(refundedQty := it.refundedQty + qty, refundedAmount := it.refundedAmount + RefundValue(it, qty))
  }

  predicate AllRefunded(items: seq<OrderItem>) { forall it | it in items :: it.refundedQty >= it.quantity }

  /** _recompute_order_totals */
  function Recomputed(o: Order, items: seq<OrderItem>): Order {
    var subtotal := Sum(items, RemainingOf);
    o.(items := items, subtotal := subtotal,
       vatAmount := PercentOf(subtotal, o.vatPercent), discountAmount := PercentOf(subtotal, o.discountPercent),
       totalUsd := Total(subtotal, o.vatPercent, o.discountPercent))
  }

  function RefundRefusal(o: Order, itemId: Id, quantity: Option<int>): Option<Refused> {
    if o.status != COMPLETED && o.status != PARTIALLY_REFUNDED then Some(NotRefundable)
    else
      var i := ItemIndex(o.items, itemId);
      if i == |o.items| then Some(NoSuchItem)
      else
        var remaining := o.items[i].quantity - o.items[i].refundedQty;
        if remaining <= 0 then Some(FullyRefunded)
        else
          var qty := if quantity.Some? then quantity.value else remaining;
          if qty < 1 then Some(BadQuantity) else if qty > remaining then Some(MoreThanRemaining) else None
  }

  function RefundQty(o: Order, itemId: Id, quantity: Option<int>): nat
    requires RefundRefusal(o, itemId, quantity) == None
  {
    var i := ItemIndex(o.items, itemId);
    if quantity.Some? then quantity.value else o.items[i].quantity - o.items[i].refundedQty
  }

  /** refund_order_item */
  function RefundItem(o: Order, itemId: Id, quantity: Option<int>): Result<Order, Refused> {
    var refusal := RefundRefusal(o, itemId, quantity);
    if refusal.Some? then Err(refusal.value)
    else
      var i := ItemIndex(o.items, itemId);
      var qty := RefundQty(o, itemId, quantity);
      var it := AfterUnits(o.items[i], qty);
      var o' := Recomputed(o, o.items[i := it]);
      Ok(o'.(status := if AllRefunded(o'.items) then REFUNDED else PARTIALLY_REFUNDED,
             refunds := o.refunds + [RefundEvent(itemId, qty, RefundValue(o.items[i], qty), it.refundedQty,
                                                 o.totalUsd - o'.totalUsd)]))
  }

  // ---- What every order keeps ----

  function UnitPrice(it: OrderItem): int
    requires it.quantity >= 1
  {
    Round(it.finalPrice, it.quantity)
  }

  /** A line price is a whole number of cents per unit: checkout multiplies the unit price. */
  ghost predicate Priced(it: OrderItem) {
    it.quantity >= 1 && it.finalPrice >= 0 && it.finalPrice == UnitPrice(it) * it.quantity
  }

  ghost predicate GoodItem(it: OrderItem) {
    && Priced(it) && it.refundedQty <= it.quantity
    && it.refundedAmount == it.refundedQty * UnitPrice(it)
  }

  ghost predicate Fresh(o: Order) {
    && |o.items| > 0 && o.discountPercent <= PERCENT
    && (forall it | it in o.items :: Priced(it) && it.refundedQty == 0 && it.refundedAmount == 0)
    && o == Recomputed(o, o.items) && o.status == COMPLETED && o.refunds == []
  }

  function CashOf(e: RefundEvent): int { e.cash }

  /** `total0` is the total the customer was charged. */
  ghost predicate Good(o: Order, total0: int) {
    && |o.items| > 0 && o.discountPercent <= PERCENT
    && (forall it | it in o.items :: GoodItem(it))
    && o == Recomputed(o, o.items)
    && Sum(o.refunds, CashOf) + o.totalUsd == total0
    && (forall e | e in o.refunds :: e.cash >= 0)
    && (o.status == REFUNDED <==> AllRefunded(o.items))
    && o.status in {COMPLETED, PARTIALLY_REFUNDED, REFUNDED}
  }

  lemma TotalMonotone(less: int, more: int, vatPercent: nat, discountPercent: nat)
    requires less <= more && discountPercent <= PERCENT
    ensures Total(less, vatPercent, discountPercent) <= Total(more, vatPercent, discountPercent)
  {
    var step := more - less;
    MulNonNegative(step, vatPercent);
    MulSub(more, less, vatPercent);
    RoundMonotone(less * vatPercent, more * vatPercent, PERCENT);
    MulSub(more, less, discountPercent);
    if discountPercent == PERCENT {
      RoundExact(less, PERCENT);
      RoundExact(more, PERCENT);
    } else if step > 0 {
      MulNonNegative(step - 1, PERCENT - discountPercent);
      MulSub(PERCENT, discountPercent, step);
      RoundStep(less * discountPercent, more * discountPercent, step, PERCENT);
    }
  }

  lemma RefundedUnitsAtUnitPrice(it: OrderItem, qty: nat)
    requires Priced(it)
    ensures RefundValue(it, qty) == qty * UnitPrice(it)
  {
    Regroup(UnitPrice(it), it.quantity, qty);
    RoundExact(qty * UnitPrice(it), it.quantity);
  }

  lemma Regroup(unit: int, quantity: int, qty: int)
    ensures (unit * quantity) * qty == (qty * unit) * quantity
  {
  }

  lemma UnitsKeepItemGood(it: OrderItem, qty: nat)
    requires GoodItem(it) && qty <= it.quantity - it.refundedQty
    ensures GoodItem(AfterUnits(it, qty)) && RemainingOf(AfterUnits(it, qty)) <= RemainingOf(it)
  {
    RefundedUnitsAtUnitPrice(it, qty);
    RoundNonNegative(it.finalPrice, it.quantity);
    MulNonNegative(qty, UnitPrice(it));
    MulAdd(it.refundedQty, qty, UnitPrice(it));
  }

  lemma ItemsStayGood(items: seq<OrderItem>, i: nat, qty: nat)
    requires (forall it | it in items :: GoodItem(it)) && i < |items| && qty <= items[i].quantity - items[i].refundedQty
    ensures forall it | it in items[i := AfterUnits(items[i], qty)] :: GoodItem(it)
    ensures RemainingOf(AfterUnits(items[i], qty)) <= RemainingOf(items[i])
  {
    assert items[i] in items;
    UnitsKeepItemGood(items[i], qty);
  }

  lemma FreshIsGood(o: Order)
    requires Fresh(o)
    ensures Good(o, o.totalUsd)
  {
    assert o.items[0] in o.items;
  }

  lemma RefundKeepsGood(o: Order, itemId: Id, quantity: Option<int>, total0: int)
    requires Good(o, total0)
    requires RefundItem(o, itemId, quantity).Ok?
    ensures Good(RefundItem(o, itemId, quantity).value, total0)
  {
    var i := ItemIndex(o.items, itemId);
    var qty := RefundQty(o, itemId, quantity);
    var it := AfterUnits(o.items[i], qty);
    var o' := RefundItem(o, itemId, quantity).value;
    ItemsStayGood(o.items, i, qty);
    SumUpdate(o.items, i, it, RemainingOf);
    TotalMonotone(o'.subtotal, o.subtotal, o.vatPercent, o.discountPercent);
    SumSnoc(o.refunds, o'.refunds[|o.refunds|], CashOf);
  }

  /** A refund is accepted exactly when the order is still open to line refunds, has the line, and the
      line has that many units left to give back. */
  lemma RefundAcceptedExactly(o: Order, itemId: Id, quantity: Option<int>)
    ensures RefundItem(o, itemId, quantity).Ok? <==>
      && o.status in {COMPLETED, PARTIALLY_REFUNDED} && (exists it | it in o.items :: it.id == itemId)
      && var it := o.items[ItemIndex(o.items, itemId)];
         it.refundedQty < it.quantity && (quantity.Some? ==> 1 <= quantity.value <= it.quantity - it.refundedQty)
  {
    var i := ItemIndex(o.items, itemId);
    if i < |o.items| {
      assert o.items[i] in o.items;
    }
  }

  // ---- Runs of line refunds ----

  datatype Request = Request(itemId: Id, quantity: Option<int>)

  /** Requests in order; a refused request changes nothing. */
  ghost function AfterRefunds(o: Order, requests: seq<Request>): Order {
    if requests == [] then o
    else
      var p := AfterRefunds(o, requests[..|requests| - 1]);
      var q := requests[|requests| - 1];
      match RefundItem(p, q.itemId, q.quantity)
      case Ok(p') => p'
      case Err(_) => p
  }

  lemma {:induction false} RunKeepsGood(o: Order, requests: seq<Request>)
    requires Fresh(o)
    ensures Good(AfterRefunds(o, requests), o.totalUsd)
  {
    if requests == [] {
      FreshIsGood(o);
    } else {
      var n := |requests| - 1;
      RunKeepsGood(o, requests[..n]);
      var p, q := AfterRefunds(o, requests[..n]), requests[n];
      if RefundItem(p, q.itemId, q.quantity).Ok? {
        RefundKeepsGood(p, q.itemId, q.quantity, o.totalUsd);
      }
    }
  }

  /** Over any sequence of line refunds: the cash returned plus the current total is what was charged,
      nothing negative is ever paid out, and the order reads REFUNDED exactly when every unit is back,
      at which point each line's refunded amount is its price and the total is exactly zero. */
  lemma RefundsConserveCash(o: Order, requests: seq<Request>)
    requires Fresh(o)
    ensures var p := AfterRefunds(o, requests);
      && Sum(p.refunds, CashOf) + p.totalUsd == o.totalUsd
      && (forall e | e in p.refunds :: e.cash >= 0)
      && (p.status == REFUNDED <==> AllRefunded(p.items))
      && (p.status == REFUNDED ==>
            p.totalUsd == 0 && Sum(p.refunds, CashOf) == o.totalUsd
            && forall it | it in p.items :: it.refundedAmount == it.finalPrice)
  {
    RunKeepsGood(o, requests);
    var p := AfterRefunds(o, requests);
    if p.status == REFUNDED {
      FullRefundReturnsEverything(p, o.totalUsd);
    }
  }

  lemma FullRefundReturnsEverything(p: Order, total0: int)
    requires Good(p, total0) && AllRefunded(p.items)
    ensures p.totalUsd == 0
    ensures forall it | it in p.items :: it.refundedAmount == it.finalPrice
  {
    forall it | it in p.items ensures it.refundedAmount == it.finalPrice {
      assert GoodItem(it) && it.refundedQty == it.quantity;
    }
    SumZero(p.items, RemainingOf);
    RoundExact(0, PERCENT);
  }

  // ---- The handler, updating the order in place ----

  class OrderRow {
    var order: Order

    constructor (o: Order)
      ensures order == o
    {
      order := o;
    }

    /** _recompute_order_totals: a loop over the lines' remaining value. */
    method RecomputeTotals()
      modifies this
      ensures order == Recomputed(old(order), old(order).items)
    {
      var subtotal, i := 0, 0;
      while i < |order.items|
        invariant 0 <= i <= |order.items|
        invariant order == old(order)
        invariant subtotal == Sum(order.items[..i], RemainingOf)
      {
        SumPrefix(order.items, i, RemainingOf);
        subtotal := subtotal + RemainingOf(order.items[i]);
        i := i + 1;
      }
      assert order.items[..|order.items|] == order.items;
      var vat, discount := PercentOf(subtotal, order.vatPercent), PercentOf(subtotal, order.discountPercent);
      order := order.(subtotal := subtotal, vatAmount := vat, discountAmount := discount,
                      totalUsd := subtotal + vat - discount);
    }

    /** The guards of refund_order_item, in its order. */
    method Refuse(itemId: Id, quantity: Option<int>) returns (refusal: Option<Refused>)
      ensures refusal == RefundRefusal(order, itemId, quantity)
    {
      if order.status != COMPLETED && order.status != PARTIALLY_REFUNDED {
        return Some(NotRefundable);
      }
      var i := ItemIndex(order.items, itemId);
      if i == |order.items| {
        return Some(NoSuchItem);
      }
      var remaining := order.items[i].quantity - order.items[i].refundedQty;
      if remaining <= 0 {
        return Some(FullyRefunded);
      }
      var qty := if quantity.Some? then quantity.value else remaining;
      if qty < 1 {
        return Some(BadQuantity);
      }
      refusal := if qty > remaining then Some(MoreThanRemaining) else None;
    }

    /** The accepted refund, step by step. */
    method ReturnUnits(itemId: Id, quantity: Option<int>) returns (cash: int)
      requires RefundRefusal(order, itemId, quantity) == None
      modifies this
      ensures RefundItem(old(order), itemId, quantity) == Ok(order)
      ensures cash == old(order).totalUsd - order.totalUsd
    {
      var i := ItemIndex(order.items, itemId);
      var item := order.items[i];
      var qty := if quantity.Some? then quantity.value else item.quantity - item.refundedQty;
      var value, before := RefundValue(item, qty), order.totalUsd;
      item := item.(refundedQty := item.refundedQty + qty, refundedAmount := item.refundedAmount + value);
      order := order.(items := order.items[i := item]);
      RecomputeTotals();
      cash := before - order.totalUsd;
      order := order.(status := if AllRefunded(order.items) then REFUNDED else PARTIALLY_REFUNDED,
                      refunds := order.refunds + [RefundEvent(itemId, qty, value, item.refundedQty, cash)]);
    }

    method Refund(itemId: Id, quantity: Option<int>, ghost total0: int) returns (r: Result<int, Refused>)
      requires Good(order, total0)
      modifies this
      ensures Good(order, total0)
      ensures match RefundItem(old(order), itemId, quantity)
        case Ok(after) => order == after && r == Ok(old(order).totalUsd - order.totalUsd)
        case Err(e) => order == old(order) && r == Err(e)
    {
      var refusal := Refuse(itemId, quantity);
      if refusal.Some? {
        return Err(refusal.value);
      }
      RefundKeepsGood(order, itemId, quantity, total0);
      var cash := ReturnUnits(itemId, quantity);
      r := Ok(cash);
    }
  }
}
