/** The sale and line-refund mappers of `gl_postings.py`, and what they leave in the accounts of an
    order that was sold once and then refunded unit by unit. */
module SalePostings {
  import opened Wrappers
  import opened Sums
  import opened Rounding
  import opened Journal
  import opened Orders

  datatype PaymentMethod = CASH_SALE | CARD_SALE | CREDIT_SALE

  function Purity(k: Karat): nat {
    match k case K18 => 750 case K21 => 875 case K22 => 917 case K24 => 999
  }

  predicate Tracked(it: OrderItem) { it.kind == PRODUCT && it.trackedCost.Some? }

  /** Cost of one unit in millionths of a cent: the tracked product cost, else rate x weight x purity. */
  const COST_SCALE := 1000000
  function UnitCost(it: OrderItem): int {
    if Tracked(it) then it.trackedCost.value * COST_SCALE else it.goldRate * it.weight * Purity(it.karat)
  }

  /** _cogs_cost_for_item */
  function CostFor(it: OrderItem, qty: nat): int { Round(UnitCost(it) * qty, COST_SCALE) }

  function CostOf(it: OrderItem): int { CostFor(it, it.quantity) }
  function MakingOf(it: OrderItem): int { it.makingCharge * it.quantity }
  function StoneOf(it: OrderItem): int { it.stoneCost * it.quantity }
  function GramsIn(k: string): OrderItem -> int {
    (it: OrderItem) => if KaratCode(it.karat) == k then it.weight * it.quantity else 0
  }

  // ---- Metal COGS, aggregated per karat ----

  /** One entry of the `cogs` dict, in insertion order. */
  datatype Agg = Agg(karat: string, grams: int, cost: int)
  function AggCost(g: Agg): int { g.cost }
  function AggGrams(k: string): Agg -> int { (g: Agg) => if g.karat == k then g.grams else 0 }

  ghost predicate Aggregates(aggs: seq<Agg>, items: seq<OrderItem>) {
    && Sum(aggs, AggCost) == Sum(items, CostOf)
    && (forall k: string :: Sum(aggs, AggGrams(k)) == Sum(items, GramsIn(k)))
    && forall g | g in aggs :: g.karat != ""
  }

  function AggOf(it: OrderItem): Agg {
    Agg(KaratCode(it.karat), it.weight * it.quantity, CostFor(it, it.quantity))
  }

  /** `agg["grams"] += grams; agg["cost"] += cost`, on an existing key. */
  lemma MergeKeepsAggregates(aggs: seq<Agg>, items: seq<OrderItem>, j: nat, it: OrderItem)
    requires Aggregates(aggs, items)
    requires j < |aggs| && aggs[j].karat == KaratCode(it.karat)
    ensures var g := AggOf(it);
      Aggregates(aggs[j := Agg(g.karat, aggs[j].grams + g.grams, aggs[j].cost + g.cost)], items + [it])
  {
    var g := AggOf(it);
    var merged := Agg(g.karat, aggs[j].grams + g.grams, aggs[j].cost + g.cost);
    SumUpdate(aggs, j, merged, AggCost);
    SumSnoc(items, it, CostOf);
    forall k: string ensures Sum(aggs[j := merged], AggGrams(k)) == Sum(items + [it], GramsIn(k)) {
      SumUpdate(aggs, j, merged, AggGrams(k));
      SumSnoc(items, it, GramsIn(k));
    }
  }

  lemma AppendKeepsAggregates(aggs: seq<Agg>, items: seq<OrderItem>, it: OrderItem)
    requires Aggregates(aggs, items)
    ensures Aggregates(aggs + [AggOf(it)], items + [it])
  {
    SumSnoc(aggs, AggOf(it), AggCost);
    SumSnoc(items, it, CostOf);
    forall k: string ensures Sum(aggs + [AggOf(it)], AggGrams(k)) == Sum(items + [it], GramsIn(k)) {
      SumSnoc(aggs, AggOf(it), AggGrams(k));
      SumSnoc(items, it, GramsIn(k));
    }
  }

  method AggregateCogs(items: seq<OrderItem>) returns (aggs: seq<Agg>)
    ensures Aggregates(aggs, items)
  {
    aggs := [];
    var i := 0;
    while i < |items|
      invariant 0 <= i <= |items|
      invariant Aggregates(aggs, items[..i])
    {
      var g := AggOf(items[i]);
      assert items[..i + 1] == items[..i] + [items[i]];
      var j := 0;
      while j < |aggs| && aggs[j].karat != g.karat
        invariant 0 <= j <= |aggs|
      {
        j := j + 1;
      }
      if j < |aggs| {
        MergeKeepsAggregates(aggs, items[..i], j, items[i]);
        aggs := aggs[j := Agg(g.karat, aggs[j].grams + g.grams, aggs[j].cost + g.cost)];
      } else {
        AppendKeepsAggregates(aggs, items[..i], items[i]);
        aggs := aggs + [g];
      }
      i := i + 1;
    }
    assert items[..|items|] == items;
  }

  ghost predicate CogsNets(lines: seq<Line>, cost: int, grams: string -> int) {
    && (forall a: AccountId :: Sum(lines, AccountNet(a)) == CogsOn(cost, a))
    && (forall a: AccountId, k: string :: Sum(lines, AccountKaratNet(a, k)) ==
          if a == METAL_COGS then grams(k) else if a == METAL_INVENTORY then -grams(k) else 0)
    && Sum(lines, BaseNet) == 0 && (forall k: string :: Sum(lines, KaratNet(k)) == 0)
    && Tagged(lines)
  }

  function GramsOfAll(items: seq<OrderItem>): string -> int { (k: string) => Sum(items, GramsIn(k)) }
  function GramsOfAggs(aggs: seq<Agg>): string -> int { (k: string) => Sum(aggs, AggGrams(k)) }

  lemma OneMoreAgg(aggs: seq<Agg>, i: nat)
    requires i < |aggs|
    ensures Sum(aggs[..i + 1], AggCost) == Sum(aggs[..i], AggCost) + aggs[i].cost
    ensures forall k: string ::
      GramsOfAggs(aggs[..i + 1])(k) == GramsOfAggs(aggs[..i])(k) + if k == aggs[i].karat then aggs[i].grams else 0
  {
    SumPrefix(aggs, i, AggCost);
    forall k: string { SumPrefix(aggs, i, AggGrams(k)); }
  }

  lemma AllAggregated(lines: seq<Line>, aggs: seq<Agg>, items: seq<OrderItem>)
    requires Aggregates(aggs, items) && CogsNets(lines, Sum(aggs, AggCost), GramsOfAggs(aggs))
    ensures CogsNets(lines, Sum(items, CostOf), GramsOfAll(items))
  {
    assert forall k: string :: GramsOfAggs(aggs)(k) == GramsOfAll(items)(k);
  }

  method MetalCogs(items: seq<OrderItem>) returns (lines: seq<Line>)
    ensures CogsNets(lines, Sum(items, CostOf), GramsOfAll(items))
  {
    var aggs := AggregateCogs(items);
    lines := [];
    var i := 0;
    while i < |aggs|
      invariant 0 <= i <= |aggs|
      invariant CogsNets(lines, Sum(aggs[..i], AggCost), GramsOfAggs(aggs[..i]))
    {
      lines := AddPair(lines, aggs, i);
      i := i + 1;
    }
    assert aggs[..|aggs|] == aggs;
    AllAggregated(lines, aggs, items);
  }

  function PairOut(g: Agg): Line { DebitMetal(METAL_COGS, g.cost, g.grams, g.karat, "metal COGS") }
  function PairBack(g: Agg): Line { CreditMetal(METAL_INVENTORY, g.cost, g.grams, g.karat, "metal out") }

  lemma PairNet(lines: seq<Line>, g: Agg, net: Line -> int)
    ensures Sum(lines + [PairOut(g)] + [PairBack(g)], net) == Sum(lines, net) + net(PairOut(g)) + net(PairBack(g))
  {
    SumSnoc(lines, PairOut(g), net);
    SumSnoc(lines + [PairOut(g)], PairBack(g), net);
  }

  lemma PairMoney(lines: seq<Line>, g: Agg, cost: int, grams: string -> int, a: AccountId)
    requires CogsNets(lines, cost, grams)
    ensures Sum(lines + [PairOut(g)] + [PairBack(g)], AccountNet(a)) == CogsOn(cost + g.cost, a)
  {
    PairNet(lines, g, AccountNet(a));
    assert Sum(lines, AccountNet(a)) == CogsOn(cost, a);
    assert AccountNet(a)(PairOut(g)) == if a == METAL_COGS then g.cost else 0;
    assert AccountNet(a)(PairBack(g)) == if a == METAL_INVENTORY then 0 - g.cost else 0;
  }

  /** The grams of a pair: onto COGS, off inventory. */
  function PairGrams(a: AccountId): int { if a == METAL_COGS then 1 else if a == METAL_INVENTORY then -1 else 0 }

  lemma PairMetal(lines: seq<Line>, g: Agg, cost: int, grams: string -> int, a: AccountId, k: string)
    requires CogsNets(lines, cost, grams)
    ensures Sum(lines + [PairOut(g)] + [PairBack(g)], AccountKaratNet(a, k)) ==
      PairGrams(a) * (grams(k) + if k == g.karat then g.grams else 0)
  {
    PairNet(lines, g, AccountKaratNet(a, k));
    assert Sum(lines, AccountKaratNet(a, k)) ==
      if a == METAL_COGS then grams(k) else if a == METAL_INVENTORY then -grams(k) else 0;
  }

  lemma PairBalances(lines: seq<Line>, g: Agg, cost: int, grams: string -> int, k: string)
    requires CogsNets(lines, cost, grams)
    ensures Sum(lines + [PairOut(g)] + [PairBack(g)], BaseNet) == 0
    ensures Sum(lines + [PairOut(g)] + [PairBack(g)], KaratNet(k)) == 0
  {
    PairNet(lines, g, BaseNet);
    PairNet(lines, g, KaratNet(k));
  }

  lemma PairIsTagged(lines: seq<Line>, g: Agg)
    requires Tagged(lines) && g.karat != ""
    ensures Tagged(lines + [PairOut(g)] + [PairBack(g)])
  {
  }

  lemma PairKeepsNets(lines: seq<Line>, g: Agg, cost: int, grams: string -> int, more: string -> int)
    requires CogsNets(lines, cost, grams) && g.karat != ""
    requires forall k: string :: more(k) == grams(k) + if k == g.karat then g.grams else 0
    ensures CogsNets(lines + [PairOut(g)] + [PairBack(g)], cost + g.cost, more)
  {
    var after := lines + [PairOut(g)] + [PairBack(g)];
    forall a: AccountId ensures Sum(after, AccountNet(a)) == CogsOn(cost + g.cost, a) {
      PairMoney(lines, g, cost, grams, a);
    }
    forall a: AccountId, k: string
      ensures Sum(after, AccountKaratNet(a, k)) ==
        if a == METAL_COGS then more(k) else if a == METAL_INVENTORY then -more(k) else 0
    {
      PairMetal(lines, g, cost, grams, a, k);
    }
    PairBalances(lines, g, cost, grams, g.karat);
    forall k: string ensures Sum(after, KaratNet(k)) == 0 {
      PairBalances(lines, g, cost, grams, k);
    }
    PairIsTagged(lines, g);
  }

  /** One more entry of the dict: its COGS and inventory pair. */
  method AddPair(lines: seq<Line>, aggs: seq<Agg>, i: nat) returns (after: seq<Line>)
    requires i < |aggs| && aggs[i].karat != ""
    requires CogsNets(lines, Sum(aggs[..i], AggCost), GramsOfAggs(aggs[..i]))
    ensures CogsNets(after, Sum(aggs[..i + 1], AggCost), GramsOfAggs(aggs[..i + 1]))
  {
    OneMoreAgg(aggs, i);
    PairKeepsNets(lines, aggs[i], Sum(aggs[..i], AggCost), GramsOfAggs(aggs[..i]), GramsOfAggs(aggs[..i + 1]));
    after := lines + [PairOut(aggs[i])] + [PairBack(aggs[i])];
  }

  function Positive(x: int): int { if x > 0 then x else 0 }

  // ---- post_sale ----

  function CashAccount(m: PaymentMethod): AccountId {
    match m case CASH_SALE => CASH case CARD_SALE => CREDIT_CARD_CLEARING case CREDIT_SALE => AR
  }

  // The money lines of a sale, in the order they are appended.
  function CashLine(o: Order, m: PaymentMethod): Line { Debit(CashAccount(m), o.totalUsd, "sale cash") }
  function RevenueLine(o: Order, making: int): Line { Credit(SALES_REVENUE, o.subtotal - making, "sale revenue") }
  function MakingLine(making: int): Line { Credit(MAKING_CHARGE_REVENUE, making, "making charge") }
  function VatLine(o: Order): Line { Credit(VAT_PAYABLE, o.vatAmount, "output VAT") }
  function DiscountLine(o: Order): Line { Debit(SALES_DISCOUNTS, o.discountAmount, "discount allowed") }

  ghost function SaleMoneySum(o: Order, m: PaymentMethod, making: int, net: Line -> int): int {
    net(CashLine(o, m)) + net(RevenueLine(o, making))
    + (if making > 0 then net(MakingLine(making)) else 0)
    + (if o.vatAmount > 0 then net(VatLine(o)) else 0)
    + (if o.discountAmount > 0 then net(DiscountLine(o)) else 0)
  }

  method TotalOf(items: seq<OrderItem>, f: OrderItem -> int) returns (total: int)
    ensures total == Sum(items, f)
  {
    total := 0;
    var i := 0;
    while i < |items|
      invariant 0 <= i <= |items|
      invariant total == Sum(items[..i], f)
    {
      SumPrefix(items, i, f);
      total := total + f(items[i]);
      i := i + 1;
    }
    assert items[..|items|] == items;
  }

  /** The money side of a sale: what was received, earned, owed as VAT and given away. */
  method SaleMoney(o: Order, m: PaymentMethod) returns (lines: seq<Line>)
    ensures forall net: Line -> int :: Sum(lines, net) == SaleMoneySum(o, m, Sum(o.items, MakingOf), net)
    ensures forall l | l in lines :: !l.HasMetal() && l.karat == None
  {
    var making := TotalOf(o.items, MakingOf);
    lines := [CashLine(o, m)] + [RevenueLine(o, making)];
    lines := lines + OneIf(making > 0, MakingLine(making));
    lines := lines + OneIf(o.vatAmount > 0, VatLine(o));
    lines := lines + OneIf(o.discountAmount > 0, DiscountLine(o));
    SaleMoneyAdds(o, m, making);
  }

  ghost function SaleMoneyLines(o: Order, m: PaymentMethod, making: int): seq<Line> {
    [CashLine(o, m)] + [RevenueLine(o, making)] + OneIf(making > 0, MakingLine(making))
    + OneIf(o.vatAmount > 0, VatLine(o)) + OneIf(o.discountAmount > 0, DiscountLine(o))
  }

  lemma SaleMoneyAdds(o: Order, m: PaymentMethod, making: int)
    ensures forall net: Line -> int :: Sum(SaleMoneyLines(o, m, making), net) == SaleMoneySum(o, m, making, net)
  {
    forall net: Line -> int ensures Sum(SaleMoneyLines(o, m, making), net) == SaleMoneySum(o, m, making, net) {
      var two := [CashLine(o, m)] + [RevenueLine(o, making)];
      var three := two + OneIf(making > 0, MakingLine(making));
      var four := three + OneIf(o.vatAmount > 0, VatLine(o));
      SumOneIf(four, o.discountAmount > 0, DiscountLine(o), net);
      SumOneIf(three, o.vatAmount > 0, VatLine(o), net);
      SumOneIf(two, making > 0, MakingLine(making), net);
      SumSnoc([CashLine(o, m)], RevenueLine(o, making), net);
      SumSnoc([], CashLine(o, m), net);
    }
  }

  // What each part of a sale does to an account.
  function MoneyOn(o: Order, m: PaymentMethod, making: int, a: AccountId): int {
    if a == CashAccount(m) then o.totalUsd
    else if a == SALES_REVENUE then making - o.subtotal
    else if a == MAKING_CHARGE_REVENUE then -making
    else if a == VAT_PAYABLE then -o.vatAmount
    else if a == SALES_DISCOUNTS then o.discountAmount
    else 0
  }
  function CogsOn(cost: int, a: AccountId): int {
    if a == METAL_COGS then cost else if a == METAL_INVENTORY then -cost else 0
  }
  function StoneOn(stone: int, a: AccountId): int {
    if a == STONE_COGS then stone else if a == STONE_INVENTORY then -stone else 0
  }

  lemma SaleMoneyAt(o: Order, m: PaymentMethod, making: int, a: AccountId)
    requires Postable(o) && making >= 0
    ensures SaleMoneySum(o, m, making, AccountNet(a)) == MoneyOn(o, m, making, a)
  {
    var net := AccountNet(a);
    assert net(CashLine(o, m)) == if a == CashAccount(m) then o.totalUsd else 0;
    assert net(RevenueLine(o, making)) == if a == SALES_REVENUE then making - o.subtotal else 0;
    assert net(MakingLine(making)) == if a == MAKING_CHARGE_REVENUE then -making else 0;
    assert net(VatLine(o)) == if a == VAT_PAYABLE then -o.vatAmount else 0;
    assert net(DiscountLine(o)) == if a == SALES_DISCOUNTS then o.discountAmount else 0;
  }

  function StoneOut(stone: int): Line { Debit(STONE_COGS, stone, "stone COGS") }
  function StoneGone(stone: int): Line { Credit(STONE_INVENTORY, stone, "stone out") }

  ghost function StoneSum(stone: int, net: Line -> int): int {
    if stone > 0 then net(StoneOut(stone)) + net(StoneGone(stone)) else 0
  }

  method StoneMoney(items: seq<OrderItem>) returns (lines: seq<Line>)
    ensures Sum(items, StoneOf) >= 0
    ensures forall net: Line -> int :: Sum(lines, net) == StoneSum(Sum(items, StoneOf), net)
    ensures forall l | l in lines :: !l.HasMetal() && l.karat == None
  {
    var stone := TotalOf(items, StoneOf);
    SumNonNegative(items, StoneOf);
    lines := if stone > 0 then [StoneOut(stone)] + [StoneGone(stone)] else [];
    forall net: Line -> int
      ensures Sum(lines, net) == StoneSum(stone, net)
    {
      if stone > 0 {
        SumSnoc([StoneOut(stone)], StoneGone(stone), net);
        SumSnoc([], StoneOut(stone), net);
      }
    }
  }

  /** What a posted sale leaves in the accounts a line refund has to undo. */
  ghost predicate SaleEffect(o: Order, lines: seq<Line>) {
    && Sum(lines, AccountNet(SALES_REVENUE)) == Sum(o.items, MakingOf) - o.subtotal
    && Sum(lines, AccountNet(MAKING_CHARGE_REVENUE)) == -Sum(o.items, MakingOf)
    && Sum(lines, AccountNet(VAT_PAYABLE)) == -o.vatAmount
    && Sum(lines, AccountNet(METAL_COGS)) == Sum(o.items, CostOf)
    && Sum(lines, AccountNet(STONE_COGS)) == Sum(o.items, StoneOf)
    && (forall k: string :: Sum(lines, AccountKaratNet(METAL_COGS, k)) == Sum(o.items, GramsIn(k)))
    && (forall k: string :: Sum(lines, AccountKaratNet(METAL_INVENTORY, k)) == -Sum(o.items, GramsIn(k)))
  }

  /** The totals an order carries when it is posted: checkout's formula, nothing negative. */
  ghost predicate Postable(o: Order) {
    o.totalUsd == o.subtotal + o.vatAmount - o.discountAmount && o.vatAmount >= 0 && o.discountAmount >= 0
  }

  /** post_sale: the entry balances in USD and in every karat, and lands on the right accounts. */
  method PostSale(o: Order, m: PaymentMethod) returns (lines: seq<Line>)
    requires Postable(o)
    ensures EntryBalanced(lines) && SaleEffect(o, lines)
    ensures Sum(lines, AccountNet(CashAccount(m))) == o.totalUsd
    ensures Sum(lines, AccountNet(SALES_DISCOUNTS)) == o.discountAmount
  {
    var money := SaleMoney(o, m);
    var cogs := MetalCogs(o.items);
    var stone := StoneMoney(o.items);
    lines := money + cogs + stone;
    SumNonNegative(o.items, MakingOf);
    SaleBalances(o, m, money, cogs, stone);
    SaleLands(o, m, money, cogs, stone);
  }

  /** The three parts of a sale, by what they do to any net. */
  ghost predicate SaleParts(o: Order, m: PaymentMethod, money: seq<Line>, cogs: seq<Line>, stone: seq<Line>) {
    && Postable(o) && Sum(o.items, MakingOf) >= 0
    && (forall net: Line -> int :: Sum(money, net) == SaleMoneySum(o, m, Sum(o.items, MakingOf), net))
    && CogsNets(cogs, Sum(o.items, CostOf), GramsOfAll(o.items))
    && Sum(o.items, StoneOf) >= 0
    && (forall net: Line -> int :: Sum(stone, net) == StoneSum(Sum(o.items, StoneOf), net))
    && (forall l | l in money + stone :: !l.HasMetal() && l.karat == None)
  }

  lemma SaleSum(o: Order, m: PaymentMethod, money: seq<Line>, cogs: seq<Line>, stone: seq<Line>, net: Line -> int)
    requires SaleParts(o, m, money, cogs, stone)
    ensures Sum(money + cogs + stone, net) ==
      SaleMoneySum(o, m, Sum(o.items, MakingOf), net) + Sum(cogs, net) + StoneSum(Sum(o.items, StoneOf), net)
  {
    SumConcat(money + cogs, stone, net);
    SumConcat(money, cogs, net);
  }

  lemma SaleBalances(o: Order, m: PaymentMethod, money: seq<Line>, cogs: seq<Line>, stone: seq<Line>)
    requires SaleParts(o, m, money, cogs, stone)
    ensures EntryBalanced(money + cogs + stone)
  {
    SaleSum(o, m, money, cogs, stone, BaseNet);
    forall k: string ensures Sum(money + cogs + stone, KaratNet(k)) == 0 {
      SaleSum(o, m, money, cogs, stone, KaratNet(k));
    }
    forall l | l in money + cogs + stone && l.HasMetal() ensures l.karat.Some? && l.karat.value != "" {
      assert l in cogs || l in money + stone;
    }
  }

  lemma SaleAt(o: Order, m: PaymentMethod, money: seq<Line>, cogs: seq<Line>, stone: seq<Line>, a: AccountId)
    requires SaleParts(o, m, money, cogs, stone)
    ensures Sum(money + cogs + stone, AccountNet(a)) ==
      MoneyOn(o, m, Sum(o.items, MakingOf), a) + CogsOn(Sum(o.items, CostOf), a) + StoneOn(Sum(o.items, StoneOf), a)
  {
    SaleSum(o, m, money, cogs, stone, AccountNet(a));
    SaleMoneyAt(o, m, Sum(o.items, MakingOf), a);
    StoneAt(Sum(o.items, StoneOf), a);
    CogsAt(cogs, Sum(o.items, CostOf), GramsOfAll(o.items), a);
  }

  lemma CogsAt(cogs: seq<Line>, cost: int, grams: string -> int, a: AccountId)
    requires CogsNets(cogs, cost, grams)
    ensures Sum(cogs, AccountNet(a)) == CogsOn(cost, a)
  {
  }

  lemma StoneAt(stone: int, a: AccountId)
    requires stone >= 0
    ensures StoneSum(stone, AccountNet(a)) == StoneOn(stone, a)
  {
  }

  lemma SaleLands(o: Order, m: PaymentMethod, money: seq<Line>, cogs: seq<Line>, stone: seq<Line>)
    requires SaleParts(o, m, money, cogs, stone)
    ensures SaleEffect(o, money + cogs + stone)
    ensures Sum(money + cogs + stone, AccountNet(CashAccount(m))) == o.totalUsd
    ensures Sum(money + cogs + stone, AccountNet(SALES_DISCOUNTS)) == o.discountAmount
  {
    forall a: AccountId { SaleAt(o, m, money, cogs, stone, a); }
    SaleMoneyLands(o, m, money + cogs + stone);
    SaleGrams(o, m, money, cogs, stone);
  }

  ghost predicate SaleOn(o: Order, m: PaymentMethod, lines: seq<Line>) {
    forall a: AccountId :: Sum(lines, AccountNet(a)) ==
      MoneyOn(o, m, Sum(o.items, MakingOf), a) + CogsOn(Sum(o.items, CostOf), a) + StoneOn(Sum(o.items, StoneOf), a)
  }

  lemma SaleMoneyLands(o: Order, m: PaymentMethod, lines: seq<Line>)
    requires SaleOn(o, m, lines)
    ensures Sum(lines, AccountNet(SALES_REVENUE)) == Sum(o.items, MakingOf) - o.subtotal
    ensures Sum(lines, AccountNet(MAKING_CHARGE_REVENUE)) == -Sum(o.items, MakingOf)
    ensures Sum(lines, AccountNet(VAT_PAYABLE)) == -o.vatAmount
    ensures Sum(lines, AccountNet(METAL_COGS)) == Sum(o.items, CostOf)
    ensures Sum(lines, AccountNet(STONE_COGS)) == Sum(o.items, StoneOf)
    ensures Sum(lines, AccountNet(CashAccount(m))) == o.totalUsd
    ensures Sum(lines, AccountNet(SALES_DISCOUNTS)) == o.discountAmount
  {
  }

  lemma SaleGrams(o: Order, m: PaymentMethod, money: seq<Line>, cogs: seq<Line>, stone: seq<Line>)
    requires SaleParts(o, m, money, cogs, stone)
    ensures forall k: string ::
      Sum(money + cogs + stone, AccountKaratNet(METAL_COGS, k)) == Sum(o.items, GramsIn(k))
    ensures forall k: string ::
      Sum(money + cogs + stone, AccountKaratNet(METAL_INVENTORY, k)) == -Sum(o.items, GramsIn(k))
  {
    forall k: string { SaleGramsAt(o, m, money, cogs, stone, k); }
  }

  lemma SaleGramsAt(o: Order, m: PaymentMethod, money: seq<Line>, cogs: seq<Line>, stone: seq<Line>, k: string)
    requires SaleParts(o, m, money, cogs, stone)
    ensures Sum(money + cogs + stone, AccountKaratNet(METAL_COGS, k)) == Sum(o.items, GramsIn(k))
    ensures Sum(money + cogs + stone, AccountKaratNet(METAL_INVENTORY, k)) == -Sum(o.items, GramsIn(k))
  {
    SaleSum(o, m, money, cogs, stone, AccountKaratNet(METAL_COGS, k));
    SaleSum(o, m, money, cogs, stone, AccountKaratNet(METAL_INVENTORY, k));
    assert GramsOfAll(o.items)(k) == Sum(o.items, GramsIn(k));
  }

  // ---- post_order_refund, one line slice ----

  /** The pro-rata discount of the slice, against the subtotal of the order the caller passes: the
      live path passes what remains of it, the replay what was sold. */
  function DiscountSlice(value: int, subtotal: int, discount: int): int {
    if subtotal > 0 then Round(discount * value, subtotal) else 0
  }

  /** The amounts of one refunded slice; `karat`, `cost` and `grams` are its metal. */
  datatype Slice = Slice(value: int, vat: int, discount: int, making: nat, stone: nat,
                         karat: string, cost: int, grams: int)
  {
    function RevenueBack(): Line { Debit(SALES_REVENUE, value - making, "refund revenue") }
    function VatBack(): Line { Debit(VAT_PAYABLE, vat, "refund VAT") }
    function MakingBack(): Line { Debit(MAKING_CHARGE_REVENUE, making, "refund making") }
    function CashBack(): Line { Credit(CASH, value - discount + vat, "refund cash out") }
    function MetalBack(): Line { DebitMetal(METAL_INVENTORY, cost, grams, karat, "metal back") }
    function CogsBack(): Line { CreditMetal(METAL_COGS, cost, grams, karat, "reverse COGS") }
    function DiscountBack(): Line { Credit(SALES_DISCOUNTS, discount, "reverse discount") }
    function StoneBack(): Line { Debit(STONE_INVENTORY, stone, "stone back") }
    function StoneCogsBack(): Line { Credit(STONE_COGS, stone, "reverse stone COGS") }

    ghost function SumOf(net: Line -> int): int {
      net(RevenueBack()) + net(VatBack()) + (if making > 0 then net(MakingBack()) else 0)
      + net(CashBack()) + net(MetalBack()) + net(CogsBack())
      + (if discount > 0 then net(DiscountBack()) else 0)
      + (if stone > 0 then net(StoneBack()) else 0) + (if stone > 0 then net(StoneCogsBack()) else 0)
    }
  }

  function SliceOf(it: OrderItem, qty: nat, value: int, vatPercent: nat, subtotal: int, discount: int): Slice {
    MulNonNegative(it.makingCharge, qty);
    MulNonNegative(it.stoneCost, qty);
    Slice(value, PercentOf(value, vatPercent), DiscountSlice(value, subtotal, discount),
          it.makingCharge * qty, it.stoneCost * qty, KaratCode(it.karat), CostFor(it, qty), it.weight * qty)
  }

  /** What the slice's entry does whatever the VAT setting and the product's cost are by then. */
  ghost predicate UnitsBack(it: OrderItem, qty: nat, value: int, lines: seq<Line>) {
    && Sum(lines, AccountNet(SALES_REVENUE)) == value - it.makingCharge * qty
    && Sum(lines, AccountNet(MAKING_CHARGE_REVENUE)) == it.makingCharge * qty
    && Sum(lines, AccountNet(STONE_COGS)) == -(it.stoneCost * qty)
    && Sum(lines, AccountNet(STONE_INVENTORY)) == it.stoneCost * qty
    && (forall k: string :: Sum(lines, AccountKaratNet(METAL_COGS, k)) ==
          if k == KaratCode(it.karat) then -(it.weight * qty) else 0)
    && (forall k: string :: Sum(lines, AccountKaratNet(METAL_INVENTORY, k)) ==
          if k == KaratCode(it.karat) then it.weight * qty else 0)
  }
  ghost predicate VatBack(value: int, vatPercent: nat, lines: seq<Line>) {
    Sum(lines, AccountNet(VAT_PAYABLE)) == PercentOf(value, vatPercent)
  }
  /** At the cost the product has now. */
  ghost predicate CostIsBack(it: OrderItem, qty: nat, lines: seq<Line>) {
    && Sum(lines, AccountNet(METAL_COGS)) == -CostFor(it, qty)
    && Sum(lines, AccountNet(METAL_INVENTORY)) == CostFor(it, qty)
  }
  /** What the customer gets, and the discount taken back with it. */
  ghost predicate CashIsBack(value: int, vatPercent: nat, slice: int, lines: seq<Line>) {
    && Sum(lines, AccountNet(CASH)) == -(value - slice + PercentOf(value, vatPercent))
    && Sum(lines, AccountNet(SALES_DISCOUNTS)) == -Positive(slice)
  }
  predicate TouchedByRefund(a: AccountId) {
    a in {SALES_REVENUE, MAKING_CHARGE_REVENUE, VAT_PAYABLE, CASH, SALES_DISCOUNTS, METAL_COGS, METAL_INVENTORY,
          STONE_COGS, STONE_INVENTORY}
  }

  /** The slice's entry, line by line; the making-charge line is inserted third when there is one. */
  method RefundLines(s: Slice) returns (lines: seq<Line>)
    ensures forall net: Line -> int :: Sum(lines, net) == s.SumOf(net)
    ensures forall l | l in lines && l.HasMetal() :: l.karat == Some(s.karat)
  {
    var two := [s.RevenueBack()] + [s.VatBack()];
    var five := two + OneIf(s.making > 0, s.MakingBack()) + [s.CashBack()] + [s.MetalBack()] + [s.CogsBack()];
    var discounted := five + OneIf(s.discount > 0, s.DiscountBack());
    lines := discounted + OneIf(s.stone > 0, s.StoneBack()) + OneIf(s.stone > 0, s.StoneCogsBack());
    forall net: Line -> int ensures Sum(lines, net) == s.SumOf(net) {
      UnitLines(s, net);
      RestOfLines(s, five, net);
    }
  }

  lemma UnitLines(s: Slice, net: Line -> int)
    ensures var two := [s.RevenueBack()] + [s.VatBack()];
      Sum(two + OneIf(s.making > 0, s.MakingBack()) + [s.CashBack()] + [s.MetalBack()] + [s.CogsBack()], net) ==
      net(s.RevenueBack()) + net(s.VatBack()) + (if s.making > 0 then net(s.MakingBack()) else 0)
      + net(s.CashBack()) + net(s.MetalBack()) + net(s.CogsBack())
  {
    var two := [s.RevenueBack()] + [s.VatBack()];
    var three := two + OneIf(s.making > 0, s.MakingBack());
    SumSnoc(three + [s.CashBack()] + [s.MetalBack()], s.CogsBack(), net);
    SumSnoc(three + [s.CashBack()], s.MetalBack(), net);
    SumSnoc(three, s.CashBack(), net);
    SumOneIf(two, s.making > 0, s.MakingBack(), net);
    SumSnoc([s.RevenueBack()], s.VatBack(), net);
    SumSnoc([], s.RevenueBack(), net);
  }

  lemma RestOfLines(s: Slice, five: seq<Line>, net: Line -> int)
    ensures Sum(five + OneIf(s.discount > 0, s.DiscountBack()) + OneIf(s.stone > 0, s.StoneBack())
                + OneIf(s.stone > 0, s.StoneCogsBack()), net) ==
      Sum(five, net) + (if s.discount > 0 then net(s.DiscountBack()) else 0)
      + (if s.stone > 0 then net(s.StoneBack()) else 0) + (if s.stone > 0 then net(s.StoneCogsBack()) else 0)
  {
    var discounted := five + OneIf(s.discount > 0, s.DiscountBack());
    SumOneIf(discounted + OneIf(s.stone > 0, s.StoneBack()), s.stone > 0, s.StoneCogsBack(), net);
    SumOneIf(discounted, s.stone > 0, s.StoneBack(), net);
    SumOneIf(five, s.discount > 0, s.DiscountBack(), net);
  }

  /** What a slice does to an account. */
  function SliceNet(s: Slice, a: AccountId): int {
    if a == SALES_REVENUE then s.value - s.making
    else if a == VAT_PAYABLE then s.vat
    else if a == MAKING_CHARGE_REVENUE then s.making
    else if a == CASH then -(s.value - s.discount + s.vat)
    else if a == METAL_INVENTORY then s.cost
    else if a == METAL_COGS then -s.cost
    else if a == SALES_DISCOUNTS then -Positive(s.discount)
    else if a == STONE_INVENTORY then s.stone
    else if a == STONE_COGS then 0 - s.stone
    else 0
  }

  lemma SliceAt(s: Slice, a: AccountId)
    ensures s.SumOf(AccountNet(a)) == SliceNet(s, a)
  {
  }

  lemma SliceGrams(s: Slice, a: AccountId, k: string)
    ensures s.SumOf(AccountKaratNet(a, k)) ==
      if k != s.karat then 0
      else if a == METAL_INVENTORY then s.grams else if a == METAL_COGS then -s.grams else 0
    ensures s.SumOf(KaratNet(k)) == 0
  {
  }

  lemma SliceBase(s: Slice)
    ensures s.SumOf(BaseNet) == s.discount - Positive(s.discount)
  {
  }

  /** The entry balances exactly when the discount slice is not negative, whatever order was passed. */
  method PostLineRefund(it: OrderItem, qty: nat, value: int, vatPercent: nat, subtotal: int, discount: int)
    returns (lines: seq<Line>)
    ensures UnitsBack(it, qty, value, lines) && VatBack(value, vatPercent, lines) && CostIsBack(it, qty, lines)
    ensures CashIsBack(value, vatPercent, DiscountSlice(value, subtotal, discount), lines)
    ensures forall a: AccountId | !TouchedByRefund(a) :: Sum(lines, AccountNet(a)) == 0
    ensures EntryBalanced(lines) <==> DiscountSlice(value, subtotal, discount) >= 0
  {
    var s := SliceOf(it, qty, value, vatPercent, subtotal, discount);
    lines := RefundLines(s);
    SliceBalance(s, lines);
    SliceLands(s, lines);
    SliceGramsLand(s, lines);
    SliceIsEffect(it, qty, value, vatPercent, subtotal, discount, lines);
    NothingElseLands(s, lines);
  }

  lemma SliceIsEffect(it: OrderItem, qty: nat, value: int, vatPercent: nat, subtotal: int, discount: int,
                      lines: seq<Line>)
    requires var s := SliceOf(it, qty, value, vatPercent, subtotal, discount);
      (forall a: AccountId :: Sum(lines, AccountNet(a)) == SliceNet(s, a)) && GramsLand(s, lines)
    ensures UnitsBack(it, qty, value, lines)
    ensures VatBack(value, vatPercent, lines) && CostIsBack(it, qty, lines)
    ensures CashIsBack(value, vatPercent, DiscountSlice(value, subtotal, discount), lines)
  {
    var s := SliceOf(it, qty, value, vatPercent, subtotal, discount);
    MoneyLands(s, lines);
    CostLands(s, lines);
    assert s.making == it.makingCharge * qty && s.stone == it.stoneCost * qty && s.grams == it.weight * qty;
  }

  lemma MoneyLands(s: Slice, lines: seq<Line>)
    requires forall a: AccountId :: Sum(lines, AccountNet(a)) == SliceNet(s, a)
    ensures Sum(lines, AccountNet(SALES_REVENUE)) == s.value - s.making
    ensures Sum(lines, AccountNet(MAKING_CHARGE_REVENUE)) == s.making && Sum(lines, AccountNet(VAT_PAYABLE)) == s.vat
    ensures Sum(lines, AccountNet(CASH)) == -(s.value - s.discount + s.vat)
    ensures Sum(lines, AccountNet(SALES_DISCOUNTS)) == -Positive(s.discount)
  {
  }

  lemma CostLands(s: Slice, lines: seq<Line>)
    requires forall a: AccountId :: Sum(lines, AccountNet(a)) == SliceNet(s, a)
    ensures Sum(lines, AccountNet(METAL_COGS)) == -s.cost && Sum(lines, AccountNet(METAL_INVENTORY)) == s.cost
    ensures Sum(lines, AccountNet(STONE_COGS)) == 0 - s.stone && Sum(lines, AccountNet(STONE_INVENTORY)) == s.stone
  {
  }

  lemma NothingElseLands(s: Slice, lines: seq<Line>)
    requires forall a: AccountId :: Sum(lines, AccountNet(a)) == SliceNet(s, a)
    ensures forall a: AccountId | !TouchedByRefund(a) :: Sum(lines, AccountNet(a)) == 0
  {
  }

  ghost predicate GramsLand(s: Slice, lines: seq<Line>) {
    && (forall k: string :: Sum(lines, AccountKaratNet(METAL_COGS, k)) == if k == s.karat then 0 - s.grams else 0)
    && forall k: string :: Sum(lines, AccountKaratNet(METAL_INVENTORY, k)) == if k == s.karat then s.grams else 0
  }

  lemma SliceLands(s: Slice, lines: seq<Line>)
    requires forall net: Line -> int :: Sum(lines, net) == s.SumOf(net)
    ensures forall a: AccountId :: Sum(lines, AccountNet(a)) == SliceNet(s, a)
  {
    forall a: AccountId { SliceAt(s, a); }
  }

  lemma SliceGramsLand(s: Slice, lines: seq<Line>)
    requires forall net: Line -> int :: Sum(lines, net) == s.SumOf(net)
    ensures GramsLand(s, lines)
  {
    forall k: string { SliceGrams(s, METAL_COGS, k); }
    forall k: string { SliceGrams(s, METAL_INVENTORY, k); }
  }

  lemma SliceBalance(s: Slice, lines: seq<Line>)
    requires forall net: Line -> int :: Sum(lines, net) == s.SumOf(net)
    requires forall l | l in lines && l.HasMetal() :: l.karat == Some(s.karat)
    requires s.karat != ""
    ensures EntryBalanced(lines) <==> s.discount >= 0
  {
    SliceBase(s);
    forall k: string ensures Sum(lines, KaratNet(k)) == 0 {
      SliceGrams(s, CASH, k);
    }
  }
}
