/** A posted order refunded line by line until every unit is back: what is left in its accounts.
    The refund events are those of `Orders.RefundItem`, the entries those of `SalePostings`. */
module LineRefunds {
  import opened Wrappers
  import opened Sums
  import opened Rounding
  import opened Journal
  import opened Orders
  import opened SalePostings

  /** A line without its refund counters: what was sold. */
  function Static(it: OrderItem): OrderItem { it.(refundedQty := 0, refundedAmount := 0) }

  predicate OnOrder(o: Order, id: Id) { ItemIndex(o.items, id) < |o.items| }
  function SoldItem(o: Order, id: Id): OrderItem
    requires OnOrder(o, id)
  {
    o.items[ItemIndex(o.items, id)]
  }

  // ---- Refund events add up to the refunded units ----

  /** `w` per refunded unit, over the events and over the lines' counters. */
  function EventUnits(o: Order, w: OrderItem -> int): RefundEvent -> int {
    (e: RefundEvent) => if OnOrder(o, e.itemId) then e.qty * w(SoldItem(o, e.itemId)) else 0
  }
  function ItemUnits(w: OrderItem -> int): OrderItem -> int {
    (it: OrderItem) => it.refundedQty * w(Static(it))
  }

  /** `p` is `o` with some units refunded. */
  ghost predicate SameLines(o: Order, p: Order) {
    && |p.items| == |o.items| && p.vatPercent == o.vatPercent
    && forall i | 0 <= i < |o.items| :: Static(p.items[i]) == o.items[i]
  }

  /** Each event refunds some units of a line of the order at that line's price. */
  ghost predicate FromLines(o: Order, refunds: seq<RefundEvent>) {
    forall e | e in refunds ::
      OnOrder(o, e.itemId) && e.qty >= 1 && e.value == RefundValue(SoldItem(o, e.itemId), e.qty)
  }

  /** The counter of a line covers every cumulative quantity recorded for it, in increasing order. */
  ghost predicate CountersIncrease(p: Order) {
    && (forall i, j | 0 <= i < j < |p.refunds| && p.refunds[i].itemId == p.refunds[j].itemId ::
          p.refunds[i].cumulative < p.refunds[j].cumulative)
    && forall e | e in p.refunds ::
         OnOrder(p, e.itemId) && e.cumulative <= SoldItem(p, e.itemId).refundedQty
  }

  lemma {:induction false} SameIndex(a: seq<OrderItem>, b: seq<OrderItem>, id: Id)
    requires |a| == |b| && forall i | 0 <= i < |a| :: a[i].id == b[i].id
    ensures ItemIndex(a, id) == ItemIndex(b, id)
  {
    if a != [] && a[0].id != id {
      SameIndex(a[1..], b[1..], id);
    }
  }

  ghost predicate Follows(o: Order, p: Order) {
    SameLines(o, p) && FromLines(o, p.refunds) && CountersIncrease(p)
  }

  lemma SameIds(o: Order, p: Order, id: Id)
    requires SameLines(o, p)
    ensures ItemIndex(p.items, id) == ItemIndex(o.items, id)
  {
    forall i | 0 <= i < |o.items| ensures o.items[i].id == p.items[i].id {
      assert Static(p.items[i]).id == p.items[i].id;
    }
    SameIndex(p.items, o.items, id);
  }

  lemma RefundKeepsCounters(p: Order, itemId: Id, quantity: Option<int>)
    requires CountersIncrease(p)
    requires RefundItem(p, itemId, quantity).Ok?
    ensures CountersIncrease(RefundItem(p, itemId, quantity).value)
  {
    var i := ItemIndex(p.items, itemId);
    var p' := RefundItem(p, itemId, quantity).value;
    assert p'.items == p.items[i := p'.items[i]] && p'.items[i].id == p.items[i].id;
    forall e | e in p'.refunds
      ensures OnOrder(p', e.itemId) && e.cumulative <= SoldItem(p', e.itemId).refundedQty
    {
      SameIndex(p'.items, p.items, e.itemId);
    }
    var n := |p.refunds|;
    forall k | 0 <= k < n && p'.refunds[k].itemId == p'.refunds[n].itemId
      ensures p'.refunds[k].cumulative < p'.refunds[n].cumulative
    {
      assert p.refunds[k] in p.refunds;
    }
  }

  lemma RefundFollows(o: Order, p: Order, itemId: Id, quantity: Option<int>)
    requires Follows(o, p)
    requires RefundItem(p, itemId, quantity).Ok?
    ensures Follows(o, RefundItem(p, itemId, quantity).value)
  {
    var i := ItemIndex(p.items, itemId);
    SameIds(o, p, itemId);
    RefundKeepsCounters(p, itemId, quantity);
    assert Static(p.items[i]) == o.items[i];
  }

  /** What an accepted refund changes: one line's counters, and one event more. */
  lemma RefundShape(o: Order, p: Order, itemId: Id, quantity: Option<int>)
    requires Follows(o, p)
    requires RefundItem(p, itemId, quantity).Ok?
    ensures var p', i := RefundItem(p, itemId, quantity).value, ItemIndex(o.items, itemId);
      && i < |o.items| && Static(p.items[i]) == o.items[i]
      && |p'.items| == |p.items| && p'.items == p.items[i := p'.items[i]] && Static(p'.items[i]) == o.items[i]
      && |p'.refunds| == |p.refunds| + 1 && p'.refunds == p.refunds + [p'.refunds[|p.refunds|]]
      && p'.refunds[|p.refunds|].itemId == itemId
      && p'.items[i].refundedQty == p.items[i].refundedQty + p'.refunds[|p.refunds|].qty
  {
    SameIds(o, p, itemId);
  }

  lemma UnitsStep(o: Order, items: seq<OrderItem>, i: nat, it: OrderItem, refunds: seq<RefundEvent>, e: RefundEvent,
                  w: OrderItem -> int)
    requires Sum(refunds, EventUnits(o, w)) == Sum(items, ItemUnits(w))
    requires OnOrder(o, e.itemId) && i < |items|
    requires Static(items[i]) == SoldItem(o, e.itemId) == Static(it)
    requires it.refundedQty == items[i].refundedQty + e.qty
    ensures Sum(refunds + [e], EventUnits(o, w)) == Sum(items[i := it], ItemUnits(w))
  {
    SumSnoc(refunds, e, EventUnits(o, w));
    SumUpdate(items, i, it, ItemUnits(w));
    MulAdd(items[i].refundedQty, e.qty, w(Static(it)));
  }

  lemma RefundUnits(o: Order, p: Order, itemId: Id, quantity: Option<int>, w: OrderItem -> int)
    requires Follows(o, p)
    requires RefundItem(p, itemId, quantity).Ok?
    requires Sum(p.refunds, EventUnits(o, w)) == Sum(p.items, ItemUnits(w))
    ensures var p' := RefundItem(p, itemId, quantity).value;
      Sum(p'.refunds, EventUnits(o, w)) == Sum(p'.items, ItemUnits(w))
  {
    RefundShape(o, p, itemId, quantity);
    var i := ItemIndex(o.items, itemId);
    var p' := RefundItem(p, itemId, quantity).value;
    UnitsStep(o, p.items, i, p'.items[i], p.refunds, p'.refunds[|p.refunds|], w);
  }

  lemma {:induction false} RunFollows(o: Order, requests: seq<Request>, w: OrderItem -> int)
    requires Fresh(o)
    ensures Follows(o, AfterRefunds(o, requests))
    ensures var p := AfterRefunds(o, requests); Sum(p.refunds, EventUnits(o, w)) == Sum(p.items, ItemUnits(w))
  {
    if requests == [] {
      SumZero(o.items, ItemUnits(w));
      forall i | 0 <= i < |o.items| ensures Static(o.items[i]) == o.items[i] {
        assert o.items[i] in o.items;
      }
    } else {
      var n := |requests| - 1;
      RunFollows(o, requests[..n], w);
      var p, q := AfterRefunds(o, requests[..n]), requests[n];
      if RefundItem(p, q.itemId, q.quantity).Ok? {
        RefundFollows(o, p, q.itemId, q.quantity);
        RefundUnits(o, p, q.itemId, q.quantity, w);
      }
    }
  }

  function SoldUnits(w: OrderItem -> int): OrderItem -> int { (it: OrderItem) => it.quantity * w(it) }

  /** When every unit is back, the events add up to what was sold, in any per-unit measure. */
  lemma AllUnitsAreBack(o: Order, requests: seq<Request>, w: OrderItem -> int)
    requires Fresh(o)
    requires AfterRefunds(o, requests).status == REFUNDED
    ensures Sum(AfterRefunds(o, requests).refunds, EventUnits(o, w)) == Sum(o.items, SoldUnits(w))
  {
    RunFollows(o, requests, w);
    RunKeepsGood(o, requests);
    var p := AfterRefunds(o, requests);
    forall i | 0 <= i < |p.items| ensures ItemUnits(w)(p.items[i]) == SoldUnits(w)(o.items[i]) {
      assert p.items[i] in p.items && Static(p.items[i]) == o.items[i];
      assert GoodItem(p.items[i]) && p.items[i].refundedQty == p.items[i].quantity == o.items[i].quantity;
    }
    SumZip(p.items, o.items, ItemUnits(w), SoldUnits(w));
  }

  /** The source id of a refund entry is the line and its cumulative quantity: no two events share one,
      so none is swallowed as already posted and none is doubled. */
  lemma RefundSourcesAreDistinct(o: Order, requests: seq<Request>, i: nat, j: nat)
    requires Fresh(o)
    requires i < j < |AfterRefunds(o, requests).refunds|
    ensures var r := AfterRefunds(o, requests).refunds;
      (r[i].itemId, r[i].cumulative) != (r[j].itemId, r[j].cumulative)
  {
    RunFollows(o, requests, Price());
  }

  // ---- Per-unit measures ----

  function Price(): OrderItem -> int { (it: OrderItem) => if it.quantity >= 1 then UnitPrice(it) else 0 }
  function Making(): OrderItem -> int { (it: OrderItem) => it.makingCharge }
  function Stone(): OrderItem -> int { (it: OrderItem) => it.stoneCost }
  function Cost(): OrderItem -> int { (it: OrderItem) => UnitCost(it) }
  function Grams(k: string): OrderItem -> int { (it: OrderItem) => if KaratCode(it.karat) == k then it.weight else 0 }

  // ---- The entries of the refunds ----

  function EntryNet(net: Line -> int): seq<Line> -> int { (lines: seq<Line>) => Sum(lines, net) }

  /** What the sale entry and all refund entries of the order leave in a net. */
  function Left(sale: seq<Line>, entries: seq<seq<Line>>, net: Line -> int): int {
    Sum(sale, net) + Sum(entries, EntryNet(net))
  }

  /** One entry per refund event, whatever the VAT setting and the costs were when it was posted. */
  ghost predicate PostedFor(o: Order, p: Order, entries: seq<seq<Line>>) {
    && |entries| == |p.refunds|
    && forall i | 0 <= i < |entries| ::
         var e := p.refunds[i];
         OnOrder(o, e.itemId) && UnitsBack(SoldItem(o, e.itemId), e.qty, e.value, entries[i])
  }
  /** Posted at the order's own VAT rate. */
  ghost predicate AtSaleVat(o: Order, p: Order, entries: seq<seq<Line>>)
    requires |entries| == |p.refunds|
  {
    forall i | 0 <= i < |entries| :: VatBack(p.refunds[i].value, o.vatPercent, entries[i])
  }
  /** Posted while every product still cost what it cost at the sale. */
  ghost predicate AtSaleCost(o: Order, p: Order, entries: seq<seq<Line>>)
    requires PostedFor(o, p, entries)
  {
    forall i | 0 <= i < |entries| ::
      var e := p.refunds[i]; CostIsBack(SoldItem(o, e.itemId), e.qty, entries[i])
  }

  function ValueOf(e: RefundEvent): int { e.value }
  function VatOf(vatPercent: nat): RefundEvent -> int { (e: RefundEvent) => PercentOf(e.value, vatPercent) }
  function CostBack(o: Order): RefundEvent -> int {
    (e: RefundEvent) => if OnOrder(o, e.itemId) then CostFor(SoldItem(o, e.itemId), e.qty) else 0
  }
  function RevenueShare(o: Order): RefundEvent -> int {
    (e: RefundEvent) => e.value - EventUnits(o, Making())(e)
  }
  function Minus(f: RefundEvent -> int): RefundEvent -> int { (e: RefundEvent) => -f(e) }

  lemma {:induction false} SumMinus(s: seq<RefundEvent>, f: RefundEvent -> int)
    ensures Sum(s, Minus(f)) == -Sum(s, f)
  {
    if s != [] {
      SumMinus(s[..|s| - 1], f);
    }
  }

  lemma EntriesSum(p: Order, entries: seq<seq<Line>>, net: Line -> int, f: RefundEvent -> int)
    requires |entries| == |p.refunds|
    requires forall i | 0 <= i < |entries| :: Sum(entries[i], net) == f(p.refunds[i])
    ensures Sum(entries, EntryNet(net)) == Sum(p.refunds, f)
  {
    SumZip(entries, p.refunds, EntryNet(net), f);
  }

  lemma ValueIsUnits(o: Order, p: Order)
    requires Fresh(o) && FromLines(o, p.refunds)
    ensures Sum(p.refunds, ValueOf) == Sum(p.refunds, EventUnits(o, Price()))
  {
    forall e | e in p.refunds ensures ValueOf(e) == EventUnits(o, Price())(e) {
      assert SoldItem(o, e.itemId) in o.items;
      RefundedUnitsAtUnitPrice(SoldItem(o, e.itemId), e.qty);
    }
    SumEq(p.refunds, ValueOf, EventUnits(o, Price()));
  }

  /** All slices together are worth the subtotal the order was sold at. */
  lemma SlicesAddUpToSubtotal(o: Order, requests: seq<Request>)
    requires Fresh(o)
    requires AfterRefunds(o, requests).status == REFUNDED
    ensures Sum(AfterRefunds(o, requests).refunds, ValueOf) == o.subtotal
  {
    RunFollows(o, requests, Price());
    ValueIsUnits(o, AfterRefunds(o, requests));
    AllUnitsAreBack(o, requests, Price());
    SoldAtSubtotal(o);
  }

  lemma SoldAtSubtotal(o: Order)
    requires Fresh(o)
    ensures Sum(o.items, SoldUnits(Price())) == o.subtotal
  {
    forall it | it in o.items ensures SoldUnits(Price())(it) == RemainingOf(it) {
      assert Priced(it);
    }
    SumEq(o.items, SoldUnits(Price()), RemainingOf);
  }

  ghost predicate FullyRefunded(o: Order, requests: seq<Request>, sale: seq<Line>, entries: seq<seq<Line>>) {
    && Fresh(o) && SaleEffect(o, sale)
    && AfterRefunds(o, requests).status == REFUNDED
    && PostedFor(o, AfterRefunds(o, requests), entries)
  }

  lemma EntryMoney(o: Order, p: Order, entries: seq<seq<Line>>, i: nat)
    requires PostedFor(o, p, entries) && i < |entries|
    ensures Sum(entries[i], AccountNet(SALES_REVENUE)) == RevenueShare(o)(p.refunds[i])
    ensures Sum(entries[i], AccountNet(MAKING_CHARGE_REVENUE)) == EventUnits(o, Making())(p.refunds[i])
    ensures Sum(entries[i], AccountNet(STONE_COGS)) == Minus(EventUnits(o, Stone()))(p.refunds[i])
  {
    var e := p.refunds[i];
    var it := SoldItem(o, e.itemId);
    Commute(it.makingCharge, e.qty);
    Commute(it.stoneCost, e.qty);
    assert EventUnits(o, Making())(e) == it.makingCharge * e.qty;
    assert EventUnits(o, Stone())(e) == it.stoneCost * e.qty;
  }

  lemma Commute(x: int, y: int)
    ensures x * y == y * x
  {
  }

  lemma EntryGrams(o: Order, p: Order, entries: seq<seq<Line>>, i: nat, k: string)
    requires PostedFor(o, p, entries) && i < |entries|
    ensures Sum(entries[i], AccountKaratNet(METAL_COGS, k)) == Minus(EventUnits(o, Grams(k)))(p.refunds[i])
    ensures Sum(entries[i], AccountKaratNet(METAL_INVENTORY, k)) == EventUnits(o, Grams(k))(p.refunds[i])
  {
    var e := p.refunds[i];
    Commute(SoldItem(o, e.itemId).weight, e.qty);
  }

  lemma SoldMatches(o: Order, f: OrderItem -> int, w: OrderItem -> int)
    requires forall it | it in o.items :: f(it) == w(it) * it.quantity
    ensures Sum(o.items, SoldUnits(w)) == Sum(o.items, f)
  {
    forall it | it in o.items ensures SoldUnits(w)(it) == f(it) {
      Commute(w(it), it.quantity);
    }
    SumEq(o.items, SoldUnits(w), f);
  }

  /** Making-charge revenue comes back to exactly zero. */
  lemma MakingReturnsToZero(o: Order, requests: seq<Request>, sale: seq<Line>, entries: seq<seq<Line>>)
    requires FullyRefunded(o, requests, sale, entries)
    ensures Left(sale, entries, AccountNet(MAKING_CHARGE_REVENUE)) == 0
  {
    var p := AfterRefunds(o, requests);
    forall i | 0 <= i < |entries|
      ensures Sum(entries[i], AccountNet(MAKING_CHARGE_REVENUE)) == EventUnits(o, Making())(p.refunds[i])
    {
      EntryMoney(o, p, entries, i);
    }
    EntriesSum(p, entries, AccountNet(MAKING_CHARGE_REVENUE), EventUnits(o, Making()));
    AllUnitsAreBack(o, requests, Making());
    SoldMatches(o, MakingOf, Making());
  }

  /** Sales revenue comes back to exactly zero. */
  lemma RevenueReturnsToZero(o: Order, requests: seq<Request>, sale: seq<Line>, entries: seq<seq<Line>>)
    requires FullyRefunded(o, requests, sale, entries)
    ensures Left(sale, entries, AccountNet(SALES_REVENUE)) == 0
  {
    var p := AfterRefunds(o, requests);
    forall i | 0 <= i < |entries|
      ensures Sum(entries[i], AccountNet(SALES_REVENUE)) == RevenueShare(o)(p.refunds[i])
    {
      EntryMoney(o, p, entries, i);
    }
    EntriesSum(p, entries, AccountNet(SALES_REVENUE), RevenueShare(o));
    SumDiff(p.refunds, ValueOf, EventUnits(o, Making()), RevenueShare(o));
    SlicesAddUpToSubtotal(o, requests);
    AllUnitsAreBack(o, requests, Making());
    SoldMatches(o, MakingOf, Making());
  }

  /** Every karat's grams come back to exactly zero, out of COGS and into inventory. */
  lemma GramsReturnToZero(o: Order, requests: seq<Request>, sale: seq<Line>, entries: seq<seq<Line>>, k: string)
    requires FullyRefunded(o, requests, sale, entries)
    ensures Left(sale, entries, AccountKaratNet(METAL_COGS, k)) == 0
    ensures Left(sale, entries, AccountKaratNet(METAL_INVENTORY, k)) == 0
  {
    var p := AfterRefunds(o, requests);
    var back := EventUnits(o, Grams(k));
    forall i | 0 <= i < |entries|
      ensures Sum(entries[i], AccountKaratNet(METAL_COGS, k)) == Minus(back)(p.refunds[i])
      ensures Sum(entries[i], AccountKaratNet(METAL_INVENTORY, k)) == back(p.refunds[i])
    {
      EntryGrams(o, p, entries, i, k);
    }
    EntriesSum(p, entries, AccountKaratNet(METAL_COGS, k), Minus(back));
    EntriesSum(p, entries, AccountKaratNet(METAL_INVENTORY, k), back);
    SumMinus(p.refunds, back);
    AllUnitsAreBack(o, requests, Grams(k));
    SoldMatches(o, GramsIn(k), Grams(k));
  }

  /** Stone cost comes back to exactly zero. */
  lemma StoneReturnsToZero(o: Order, requests: seq<Request>, sale: seq<Line>, entries: seq<seq<Line>>)
    requires FullyRefunded(o, requests, sale, entries)
    ensures Left(sale, entries, AccountNet(STONE_COGS)) == 0
  {
    var p := AfterRefunds(o, requests);
    forall i | 0 <= i < |entries|
      ensures Sum(entries[i], AccountNet(STONE_COGS)) == Minus(EventUnits(o, Stone()))(p.refunds[i])
    {
      EntryMoney(o, p, entries, i);
    }
    EntriesSum(p, entries, AccountNet(STONE_COGS), Minus(EventUnits(o, Stone())));
    SumMinus(p.refunds, EventUnits(o, Stone()));
    AllUnitsAreBack(o, requests, Stone());
    SoldMatches(o, StoneOf, Stone());
  }

  function One(e: RefundEvent): int { 1 }
  lemma {:induction false} CountEvents(s: seq<RefundEvent>)
    ensures Sum(s, One) == |s|
  {
    if s != [] {
      CountEvents(s[..|s| - 1]);
    }
  }

  function Scaled(vatPercent: nat): RefundEvent -> int { (e: RefundEvent) => e.value * vatPercent }
  lemma {:induction false} SumScaled(s: seq<RefundEvent>, v: nat)
    ensures Sum(s, Scaled(v)) == Sum(s, ValueOf) * v
  {
    if s != [] {
      var n := |s| - 1;
      SumScaled(s[..n], v);
      MulAdd(Sum(s[..n], ValueOf), s[n].value, v);
    }
  }

  /** Output VAT is left within half a cent per slice plus half a cent for the sale. */
  lemma VatReturnsWithinHalfCents(o: Order, requests: seq<Request>, sale: seq<Line>, entries: seq<seq<Line>>)
    requires FullyRefunded(o, requests, sale, entries) && AtSaleVat(o, AfterRefunds(o, requests), entries)
    ensures var n := |AfterRefunds(o, requests).refunds|;
      -(n + 1) <= 2 * Left(sale, entries, AccountNet(VAT_PAYABLE)) <= n + 1
  {
    var p, v := AfterRefunds(o, requests), o.vatPercent;
    forall i | 0 <= i < |entries|
      ensures Sum(entries[i], AccountNet(VAT_PAYABLE)) == VatOf(v)(p.refunds[i])
    {
      assert VatBack(p.refunds[i].value, v, entries[i]);
    }
    EntriesSum(p, entries, AccountNet(VAT_PAYABLE), VatOf(v));
    SlicesAddUpToSubtotal(o, requests);
    VatSlices(p.refunds, v);
    RoundIsRounded(o.subtotal * v, PERCENT);
  }

  lemma VatSlices(s: seq<RefundEvent>, v: nat)
    ensures -PERCENT * |s| <= 2 * (PERCENT * Sum(s, VatOf(v)) - Sum(s, ValueOf) * v) <= PERCENT * |s|
  {
    forall e | e in s { RoundIsRounded(e.value * v, PERCENT); }
    SumWithin(s, VatOf(v), Scaled(v), One, PERCENT);
    CountEvents(s);
    SumScaled(s, v);
  }

  function Untracked(it: OrderItem): int { if Tracked(it) then 0 else 1 }
  function UntrackedEvent(o: Order): RefundEvent -> int {
    (e: RefundEvent) => if OnOrder(o, e.itemId) then Untracked(SoldItem(o, e.itemId)) else 0
  }

  lemma CostError(it: OrderItem, qty: nat)
    ensures -COST_SCALE * Untracked(it) <= 2 * (COST_SCALE * CostFor(it, qty) - qty * UnitCost(it))
            <= COST_SCALE * Untracked(it)
  {
    assert UnitCost(it) * qty == qty * UnitCost(it);
    RoundIsRounded(UnitCost(it) * qty, COST_SCALE);
    if Tracked(it) {
      Regroup(it.trackedCost.value, COST_SCALE, qty);
      RoundExact(qty * it.trackedCost.value, COST_SCALE);
    }
  }

  /** Metal COGS is left within half a cent per untracked slice plus half a cent per untracked line
      sold; lines of products with a tracked cost leave nothing at all. */
  lemma CogsReturnsWithinHalfCents(o: Order, requests: seq<Request>, sale: seq<Line>, entries: seq<seq<Line>>)
    requires FullyRefunded(o, requests, sale, entries) && AtSaleCost(o, AfterRefunds(o, requests), entries)
    ensures var slices := Sum(AfterRefunds(o, requests).refunds, UntrackedEvent(o));
      var lines := Sum(o.items, Untracked);
      -(slices + lines) <= 2 * Left(sale, entries, AccountNet(METAL_COGS)) <= slices + lines
  {
    var p := AfterRefunds(o, requests);
    forall i | 0 <= i < |entries|
      ensures Sum(entries[i], AccountNet(METAL_COGS)) == Minus(CostBack(o))(p.refunds[i])
    {
      assert CostIsBack(SoldItem(o, p.refunds[i].itemId), p.refunds[i].qty, entries[i]);
    }
    EntriesSum(p, entries, AccountNet(METAL_COGS), Minus(CostBack(o)));
    SumMinus(p.refunds, CostBack(o));
    forall it | it in o.items
      ensures -COST_SCALE * Untracked(it) <= 2 * (COST_SCALE * CostOf(it) - SoldUnits(Cost())(it))
              <= COST_SCALE * Untracked(it)
    {
      CostError(it, it.quantity);
    }
    SumWithin(o.items, CostOf, SoldUnits(Cost()), Untracked, COST_SCALE);
    RunFollows(o, requests, Cost());
    forall e | e in p.refunds
      ensures -COST_SCALE * UntrackedEvent(o)(e) <= 2 * (COST_SCALE * CostBack(o)(e) - EventUnits(o, Cost())(e))
              <= COST_SCALE * UntrackedEvent(o)(e)
    {
      CostError(SoldItem(o, e.itemId), e.qty);
    }
    SumWithin(p.refunds, CostBack(o), EventUnits(o, Cost()), UntrackedEvent(o), COST_SCALE);
    AllUnitsAreBack(o, requests, Cost());
  }

  // ---- The entry of every slice balances ----

  lemma NothingNegativeRemains(p: Order, total0: int)
    requires Good(p, total0)
    ensures p.subtotal >= 0 && p.discountAmount >= 0
  {
    forall it | it in p.items ensures RemainingOf(it) >= 0 {
      assert GoodItem(it);
      RoundNonNegative(it.finalPrice, it.quantity);
      MulSub(it.quantity, it.refundedQty, UnitPrice(it));
      MulNonNegative(it.quantity - it.refundedQty, UnitPrice(it));
      Commute(UnitPrice(it), it.quantity);
    }
    SumNonNegative(p.items, RemainingOf);
    MulNonNegative(p.subtotal, p.discountPercent);
    RoundNonNegative(p.subtotal * p.discountPercent, PERCENT);
  }

  lemma SliceNotNegative(value: int, subtotal: int, discount: int)
    requires value >= 0 && discount >= 0
    ensures DiscountSlice(value, subtotal, discount) >= 0
  {
    if subtotal > 0 {
      MulNonNegative(discount, value);
      RoundNonNegative(discount * value, subtotal);
    }
  }

  /** Every line refund of an order posts a balanced entry: its discount slice is never negative, be it
      taken from the totals that remain, as live, or from the totals as sold, as in the replay. */
  lemma SlicesBalance(o: Order, requests: seq<Request>, q: Request)
    requires Fresh(o)
    requires RefundItem(AfterRefunds(o, requests), q.itemId, q.quantity).Ok?
    ensures var p := RefundItem(AfterRefunds(o, requests), q.itemId, q.quantity).value;
      var e := p.refunds[|p.refunds| - 1];
      && |p.refunds| > 0 && e.value >= 0
      && DiscountSlice(e.value, p.subtotal, p.discountAmount) >= 0
      && DiscountSlice(e.value, o.subtotal, o.discountAmount) >= 0
  {
    var before := AfterRefunds(o, requests);
    var p := RefundItem(before, q.itemId, q.quantity).value;
    RunKeepsGood(o, requests);
    RefundKeepsGood(before, q.itemId, q.quantity, o.totalUsd);
    FreshIsGood(o);
    NothingNegativeRemains(p, o.totalUsd);
    NothingNegativeRemains(o, o.totalUsd);
    var e := p.refunds[|p.refunds| - 1];
    ValueNotNegative(before, q.itemId, q.quantity, o.totalUsd);
    SliceNotNegative(e.value, p.subtotal, p.discountAmount);
    SliceNotNegative(e.value, o.subtotal, o.discountAmount);
  }

  lemma ValueNotNegative(p: Order, itemId: Id, quantity: Option<int>, total0: int)
    requires Good(p, total0) && RefundItem(p, itemId, quantity).Ok?
    ensures var after := RefundItem(p, itemId, quantity).value; after.refunds[|after.refunds| - 1].value >= 0
  {
    var it, qty := p.items[ItemIndex(p.items, itemId)], RefundQty(p, itemId, quantity);
    assert GoodItem(it);
    RefundedUnitsAtUnitPrice(it, qty);
    RoundNonNegative(it.finalPrice, it.quantity);
    MulNonNegative(qty, UnitPrice(it));
  }
}
