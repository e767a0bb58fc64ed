/** Supplier purchases and payments (`app/api/suppliers.py`), the stored balances they adjust
    (`supplier_balance.py`), the entries their mappers post, and the replay and control-account
    checks that must agree with them. */
module Suppliers {
  import opened Wrappers
  import opened Sums
  import opened Rounding
  import opened Journal

  datatype DebtUnit = CashDebt | GoldDebt
  /** A balance row is keyed by supplier, unit and karat; the karat is empty for cash. */
  datatype BalanceKey = BalanceKey(supplier: Id, unit: DebtUnit, karat: Option<Karat>)
  function CashKey(s: Id): BalanceKey { BalanceKey(s, CashDebt, None) }
  function GoldKey(s: Id, k: Karat): BalanceKey { BalanceKey(s, GoldDebt, Some(k)) }

  datatype BalanceRow = BalanceRow(key: BalanceKey, balance: int)

  datatype Purchase = Purchase(id: Id, supplier: Id, occurredOn: int, cashDue: int, cashPaid: int,
                               gramsDue: map<Karat, int>, gramsPaid: map<Karat, int>)
  datatype Payment = Payment(id: Id, supplier: Id, unit: DebtUnit, karat: Option<Karat>, amount: int)

  datatype Lot = Lot(karat: Karat, remaining: int, depleted: bool)
  datatype GoldPayment = GoldPayment(lotId: Id, grams: int, karat: Karat)

  datatype Refused =
    | SupplierMissing | CashPaidTooMuch | GoldInCashMode | CashInGoldMode | GoldPaidTooMuch
    | LotMissing | LotKarat | GramsNotPositive | LotDepleted | LotShort
    | NothingOwed | Overpaid | KaratOnCash | LotsOnCash | KaratRequired | LotsRequired | LotsDoNotAddUp | LotsOtherKarat
    | PostingRefused

  datatype PurchaseMode = CASH_MODE | GOLD_MODE | MIXED_MODE

  /** The karats, in the order the model walks a per-karat dict. */
  const KARATS: nat := 4
  function KaratNo(i: nat): Karat { if i == 0 then K18 else if i == 1 then K21 else if i == 2 then K22 else K24 }
  function Rank(k: Karat): nat { match k case K18 => 0 case K21 => 1 case K22 => 2 case K24 => 3 }

  function At(m: map<Karat, int>, k: Karat): int { if k in m then m[k] else 0 }

  // ---- Balance rows ----

  function AtKey(key: BalanceKey): BalanceRow -> int { (r: BalanceRow) => if r.key == key then r.balance else 0 }
  function CashOf(r: BalanceRow): int { if r.key.unit == CashDebt then r.balance else 0 }
  function GoldOf(k: Karat): BalanceRow -> int {
    (r: BalanceRow) => if r.key.unit == GoldDebt && r.key.karat == Some(k) then r.balance else 0
  }

  ghost predicate GoodRows(rows: seq<BalanceRow>) {
    && (forall i, j | 0 <= i < j < |rows| :: rows[i].key != rows[j].key)
    && (forall r | r in rows :: r.balance >= 0)
    && (forall r | r in rows :: r.key == CashKey(r.key.supplier) || (r.key.unit == GoldDebt && r.key.karat.Some?))
  }

  function RowIndex(rows: seq<BalanceRow>, key: BalanceKey): (i: nat)
    ensures i <= |rows|
    ensures i < |rows| ==> rows[i].key == key
    ensures i == |rows| ==> forall r | r in rows :: r.key != key
  {
    if rows == [] || rows[0].key == key then 0 else 1 + RowIndex(rows[1..], key)
  }

  /** What `delta` on `key` does to the sums over the rows. */
  ghost predicate Adjusted(before: seq<BalanceRow>, after: seq<BalanceRow>, key: BalanceKey, delta: int) {
    && GoodRows(after)
    && (forall q: BalanceKey :: Sum(after, AtKey(q)) == Sum(before, AtKey(q)) + if q == key then delta else 0)
    && Sum(after, CashOf) == Sum(before, CashOf) + (if key.unit == CashDebt then delta else 0)
    && (forall k: Karat :: Sum(after, GoldOf(k)) == Sum(before, GoldOf(k))
          + if key.unit == GoldDebt && key.karat == Some(k) then delta else 0)
  }

  lemma AdjustRow(rows: seq<BalanceRow>, i: nat, delta: int)
    requires GoodRows(rows) && i < |rows| && rows[i].balance + delta >= 0
    ensures Adjusted(rows, rows[i := rows[i].(balance := rows[i].balance + delta)], rows[i].key, delta)
  {
    var r := rows[i].(balance := rows[i].balance + delta);
    forall q: BalanceKey { SumUpdate(rows, i, r, AtKey(q)); }
    SumUpdate(rows, i, r, CashOf);
    forall k: Karat { SumUpdate(rows, i, r, GoldOf(k)); }
    assert rows[i] in rows;
  }

  lemma OneMoreGoodRow(rows: seq<BalanceRow>, r: BalanceRow)
    requires GoodRows(rows) && r.balance >= 0 && forall x | x in rows :: x.key != r.key
    requires r.key == CashKey(r.key.supplier) || (r.key.unit == GoldDebt && r.key.karat.Some?)
    ensures GoodRows(rows + [r])
  {
    var more := rows + [r];
    forall i, j | 0 <= i < j < |more| ensures more[i].key != more[j].key {
      assert more[i] in rows;
    }
  }

  lemma AddRow(rows: seq<BalanceRow>, key: BalanceKey, delta: int)
    requires GoodRows(rows) && delta >= 0 && forall r | r in rows :: r.key != key
    requires key == CashKey(key.supplier) || (key.unit == GoldDebt && key.karat.Some?)
    ensures Adjusted(rows, rows + [BalanceRow(key, delta)], key, delta)
  {
    OneMoreGoodRow(rows, BalanceRow(key, delta));
    OneMoreRowAdds(rows, BalanceRow(key, delta));
  }

  lemma OneMoreRowAdds(rows: seq<BalanceRow>, r: BalanceRow)
    ensures forall q: BalanceKey :: Sum(rows + [r], AtKey(q)) == Sum(rows, AtKey(q)) + AtKey(q)(r)
    ensures Sum(rows + [r], CashOf) == Sum(rows, CashOf) + CashOf(r)
    ensures forall k: Karat :: Sum(rows + [r], GoldOf(k)) == Sum(rows, GoldOf(k)) + GoldOf(k)(r)
  {
    forall q: BalanceKey { SumSnoc(rows, r, AtKey(q)); }
    SumSnoc(rows, r, CashOf);
    forall k: Karat { SumSnoc(rows, r, GoldOf(k)); }
  }

  lemma {:induction false} StoredIsRow(rows: seq<BalanceRow>, i: nat)
    requires GoodRows(rows) && i < |rows|
    ensures Sum(rows, AtKey(rows[i].key)) == rows[i].balance
  {
    var n := |rows| - 1;
    if i < n {
      StoredIsRow(rows[..n], i);
    } else {
      SumZero(rows[..n], AtKey(rows[i].key));
    }
  }

  function AdjustError(rows: seq<BalanceRow>, key: BalanceKey): Refused {
    if RowIndex(rows, key) == |rows| then NothingOwed else Overpaid
  }

  /** adjust_balance: adds the delta; a repayment beyond what is owed is refused. */
  method AdjustBalance(rows: seq<BalanceRow>, key: BalanceKey, delta: int)
    returns (r: Result<seq<BalanceRow>, Refused>)
    requires GoodRows(rows)
    requires key == CashKey(key.supplier) || (key.unit == GoldDebt && key.karat.Some?)
    ensures r.Err? <==> Sum(rows, AtKey(key)) + delta < 0
    ensures r.Err? ==> r.error == AdjustError(rows, key)
    ensures r.Ok? ==> Adjusted(rows, r.value, key, delta)
  {
    var i := RowIndex(rows, key);
    if i == |rows| {
      SumZero(rows, AtKey(key));
      if delta < 0 {
        return Err(NothingOwed);
      }
      AddRow(rows, key, delta);
      return Ok(rows + [BalanceRow(key, delta)]);
    }
    StoredIsRow(rows, i);
    var after := rows[i].balance + delta;
    if after < 0 {
      return Err(Overpaid);
    }
    AdjustRow(rows, i, delta);
    r := Ok(rows[i := rows[i].(balance := after)]);
  }

  // ---- The replay of documents ----

  function OwedAt(key: BalanceKey): Purchase -> int {
    (p: Purchase) =>
      if p.supplier != key.supplier then 0
      else if key.unit == CashDebt then (if key.karat == None then p.cashDue - p.cashPaid else 0)
      else if key.karat.Some? && key.karat.value in p.gramsDue
      then p.gramsDue[key.karat.value] - At(p.gramsPaid, key.karat.value) else 0
  }
  function RepaidAt(key: BalanceKey): Payment -> int {
    (p: Payment) => if BalanceKey(p.supplier, p.unit, p.karat) == key then p.amount else 0
  }
  function Expected(purchases: seq<Purchase>, payments: seq<Payment>, key: BalanceKey): int {
    Sum(purchases, OwedAt(key)) - Sum(payments, RepaidAt(key))
  }

  /** GET /inventory/reconcile reports no drift: each stored balance equals the replay. */
  ghost predicate Reconciles(rows: seq<BalanceRow>, purchases: seq<Purchase>, payments: seq<Payment>) {
    forall key: BalanceKey :: Sum(rows, AtKey(key)) == Expected(purchases, payments, key)
  }

  /** GL AP and GL METAL_AP against the subledger, in USD and per karat (verify_ap_control). */
  ghost predicate TiesOut(lines: seq<Line>, rows: seq<BalanceRow>) {
    && -Sum(lines, AccountNet(AP)) == Sum(rows, CashOf)
    && forall k: Karat :: -Sum(lines, AccountKaratNet(METAL_AP, KaratCode(k))) == Sum(rows, GoldOf(k))
  }

  // ---- Gold paid from lots ----

  function GramsIn(k: Karat): GoldPayment -> int { (g: GoldPayment) => if g.karat == k then g.grams else 0 }

  /** consume_from_lot: takes the grams off one lot, or refuses. */
  function DrawLot(lots: map<Id, Lot>, g: GoldPayment): Result<map<Id, Lot>, Refused> {
    if g.lotId !in lots then Err(LotMissing)
    else
      var lot := lots[g.lotId];
      if lot.karat != g.karat then Err(LotKarat)
      else if g.grams <= 0 then Err(GramsNotPositive)
      else if lot.depleted then Err(LotDepleted)
      else if g.grams > lot.remaining then Err(LotShort)
      else Ok(lots[g.lotId := Lot(lot.karat, lot.remaining - g.grams, lot.remaining - g.grams <= 0)])
  }

  function FromLot(id: Id): GoldPayment -> int { (g: GoldPayment) => if g.lotId == id then g.grams else 0 }

  ghost predicate Drawn(before: map<Id, Lot>, after: map<Id, Lot>, gold: seq<GoldPayment>) {
    && after.Keys == before.Keys
    && forall id | id in before :: after[id].remaining == before[id].remaining - Sum(gold, FromLot(id))
  }

  lemma DrawOneMore(before: map<Id, Lot>, left: map<Id, Lot>, gold: seq<GoldPayment>, g: GoldPayment)
    requires Drawn(before, left, gold) && DrawLot(left, g).Ok?
    ensures Drawn(before, DrawLot(left, g).value, gold + [g])
  {
    forall id: Id { SumSnoc(gold, g, FromLot(id)); }
  }

  lemma PayOneMore(paid: map<Karat, int>, gold: seq<GoldPayment>, g: GoldPayment)
    requires forall k: Karat :: At(paid, k) == Sum(gold, GramsIn(k))
    ensures forall k: Karat :: At(paid[g.karat := At(paid, g.karat) + g.grams], k) == Sum(gold + [g], GramsIn(k))
  {
    forall k: Karat { SumSnoc(gold, g, GramsIn(k)); }
  }

  /** Drawing on each lot in turn; the first refusal refuses them all. */
  function DrawAll(lots: map<Id, Lot>, gold: seq<GoldPayment>): Result<map<Id, Lot>, Refused> {
    if gold == [] then Ok(lots)
    else
      var left :- DrawAll(lots, gold[..|gold| - 1]);
      DrawLot(left, gold[|gold| - 1])
  }

  lemma {:induction false} FirstRefusalStands(lots: map<Id, Lot>, gold: seq<GoldPayment>, i: nat)
    requires i <= |gold| && DrawAll(lots, gold[..i]).Err?
    ensures DrawAll(lots, gold) == DrawAll(lots, gold[..i])
  {
    if i == |gold| {
      assert gold[..i] == gold;
    } else {
      var n := |gold| - 1;
      assert gold[..n][..i] == gold[..i];
      FirstRefusalStands(lots, gold[..n], i);
    }
  }

  lemma DrawAllSnoc(lots: map<Id, Lot>, gold: seq<GoldPayment>, i: nat)
    requires i < |gold| && DrawAll(lots, gold[..i]).Ok?
    ensures DrawAll(lots, gold[..i + 1]) == DrawLot(DrawAll(lots, gold[..i]).value, gold[i])
  {
    assert gold[..i + 1][..i] == gold[..i];
  }

  ghost predicate Drawing(lots: map<Id, Lot>, gold: seq<GoldPayment>, left: map<Id, Lot>, paid: map<Karat, int>) {
    && DrawAll(lots, gold) == Ok(left) && Drawn(lots, left, gold)
    && (forall k: Karat :: At(paid, k) == Sum(gold, GramsIn(k)))
    && (forall g | g in gold :: g.grams > 0)
  }

  lemma DrawStep(lots: map<Id, Lot>, gold: seq<GoldPayment>, i: nat, left: map<Id, Lot>, paid: map<Karat, int>)
    requires i < |gold| && Drawing(lots, gold[..i], left, paid) && DrawLot(left, gold[i]).Ok?
    ensures Drawing(lots, gold[..i + 1], DrawLot(left, gold[i]).value,
                    paid[gold[i].karat := At(paid, gold[i].karat) + gold[i].grams])
  {
    assert gold[..i + 1] == gold[..i] + [gold[i]];
    DrawAllSnoc(lots, gold, i);
    DrawOneMore(lots, left, gold[..i], gold[i]);
    PayOneMore(paid, gold[..i], gold[i]);
  }

  /** `_consume_lots`: draws on each lot in turn, or refuses; returns the grams paid per karat. */
  method ConsumeLots(lots: map<Id, Lot>, gold: seq<GoldPayment>)
    returns (r: Result<(map<Id, Lot>, map<Karat, int>), Refused>)
    ensures r.Err? ==> DrawAll(lots, gold) == Err(r.error)
    ensures r.Ok? ==> Drawing(lots, gold, r.value.0, r.value.1)
  {
    var left, paid: map<Karat, int> := lots, map[];
    var i := 0;
    while i < |gold|
      invariant 0 <= i <= |gold|
      invariant Drawing(lots, gold[..i], left, paid)
    {
      var drawn := DrawLot(left, gold[i]);
      if drawn.Err? {
        DrawAllSnoc(lots, gold, i);
        FirstRefusalStands(lots, gold, i + 1);
        return Err(drawn.error);
      }
      DrawStep(lots, gold, i, left, paid);
      left := drawn.value;
      paid := paid[gold[i].karat := At(paid, gold[i].karat) + gold[i].grams];
      i := i + 1;
    }
    assert gold[..|gold|] == gold;
    r := Ok((left, paid));
  }

  // ---- The mappers ----

  function Positive(x: int): int { if x > 0 then x else 0 }

  /** The control-account effect of an entry: nothing else touches AP or the grams of METAL_AP. */
  ghost predicate ControlEffect(lines: seq<Line>, cash: int, grams: Karat -> int) {
    && Sum(lines, AccountNet(AP)) == -cash
    && forall k: Karat :: Sum(lines, AccountKaratNet(METAL_AP, KaratCode(k))) == -grams(k)
  }

  ghost predicate Building(lines: seq<Line>, cash: int, grams: Karat -> int, base: int) {
    ControlEffect(lines, cash, grams) && Sum(lines, BaseNet) == base && MetalBalanced(lines) && Tagged(lines)
  }

  function NetGrams(due: map<Karat, int>, paid: map<Karat, int>): Karat -> int {
    (k: Karat) => if k in due then Positive(due[k] - At(paid, k)) else 0
  }
  function NetUpTo(due: map<Karat, int>, paid: map<Karat, int>, n: nat): Karat -> int {
    (k: Karat) => if Rank(k) < n then NetGrams(due, paid)(k) else 0
  }
  function NoGrams(): Karat -> int { (k: Karat) => 0 }

  lemma AddMetalPair(lines: seq<Line>, cost: int, net: int, karat: Karat, cash: int, grams: Karat -> int,
                     more: Karat -> int, base: int)
    requires Building(lines, cash, grams, base)
    requires forall k: Karat :: more(k) == grams(k) + if k == karat then net else 0
    ensures Building(lines + [DebitMetal(METAL_INVENTORY, cost, net, KaratCode(karat), "gold purchase (net)")]
                     + [CreditMetal(METAL_AP, cost, net, KaratCode(karat), "metal AP (net owed)")], cash, more, base)
  {
    var inn, owed := DebitMetal(METAL_INVENTORY, cost, net, KaratCode(karat), "gold purchase (net)"),
                     CreditMetal(METAL_AP, cost, net, KaratCode(karat), "metal AP (net owed)");
    NetSnoc(lines, inn);
    NetSnoc(lines + [inn], owed);
    forall k: string ensures Sum(lines + [inn] + [owed], KaratNet(k)) == 0 {
      assert Sum(lines, KaratNet(k)) == 0;
    }
  }

  lemma NoKaratNoGrams(lines: seq<Line>, net: Line -> int)
    requires forall l | l in lines :: net(l) == 0
    ensures Sum(lines, net) == 0
  {
    SumZero(lines, net);
  }

  /** A stone part above the whole cost is dropped. */
  function StonePart(due: int, stoneCost: int): int { if stoneCost > due then 0 else stoneCost }

  function ProductIn(due: int, stone: int): Line { Debit(PRODUCT_INVENTORY, due - stone, "product purchase") }
  function StonesIn(stone: int): Line { Debit(STONE_INVENTORY, stone, "stone inventory in") }
  function NetOwed(due: int, paid: int): Line { Credit(AP, due - paid, "AP (net owed)") }
  function PaidOut(paid: int): Line { Credit(CASH, paid, "paid at creation") }

  /** The money part of a purchase so far: what it puts on the two inventory accounts, on AP (net owed)
      and on cash; the rest is still unbalanced. */
  ghost predicate CashOnly(lines: seq<Line>, product: int, stone: int, owed: int, paid: int) {
    && Sum(lines, AccountNet(PRODUCT_INVENTORY)) == product && Sum(lines, AccountNet(STONE_INVENTORY)) == stone
    && Sum(lines, AccountNet(AP)) == -owed && Sum(lines, AccountNet(CASH)) == -paid
    && Sum(lines, BaseNet) == product + stone - owed - paid
    && forall l | l in lines :: !l.HasMetal() && l.karat == None
  }

  lemma AddCash(lines: seq<Line>, l: Line, product: int, stone: int, owed: int, paid: int)
    requires CashOnly(lines, product, stone, owed, paid) && !l.HasMetal() && l.karat == None
    requires l.account in {PRODUCT_INVENTORY, STONE_INVENTORY, AP, CASH}
    ensures CashOnly(lines + [l], product + AccountNet(PRODUCT_INVENTORY)(l), stone + AccountNet(STONE_INVENTORY)(l),
                     owed - AccountNet(AP)(l), paid - AccountNet(CASH)(l))
  {
    SumSnoc(lines, l, AccountNet(PRODUCT_INVENTORY));
    SumSnoc(lines, l, AccountNet(STONE_INVENTORY));
    SumSnoc(lines, l, AccountNet(AP));
    SumSnoc(lines, l, AccountNet(CASH));
    SumSnoc(lines, l, BaseNet);
    OnlyCash(lines, l);
  }

  lemma OnlyCash(lines: seq<Line>, l: Line)
    requires !l.HasMetal() && l.karat == None && forall x | x in lines :: !x.HasMetal() && x.karat == None
    ensures forall x | x in lines + [l] :: !x.HasMetal() && x.karat == None
  {
  }

  lemma CashOnlyBuilds(lines: seq<Line>, product: int, stone: int, owed: int, paid: int)
    requires CashOnly(lines, product, stone, owed, paid) && product + stone == owed + paid
    ensures Building(lines, owed, NoGrams(), 0)
  {
    forall k: string { NoKaratNoGrams(lines, KaratNet(k)); }
    forall k: Karat { NoKaratNoGrams(lines, AccountKaratNet(METAL_AP, KaratCode(k))); }
  }

  method InventoryLines(due: int, stone: int) returns (lines: seq<Line>)
    requires 0 <= stone <= due && due > 0
    ensures CashOnly(lines, due - stone, stone, 0, 0) && lines != []
  {
    lines := [];
    if due - stone > 0 {
      AddCash(lines, ProductIn(due, stone), 0, 0, 0, 0);
      lines := lines + [ProductIn(due, stone)];
    }
    if stone > 0 {
      AddCash(lines, StonesIn(stone), due - stone, 0, 0, 0);
      lines := lines + [StonesIn(stone)];
    }
  }

  method SettlementLines(inventory: seq<Line>, due: int, paid: int, ghost stone: int) returns (lines: seq<Line>)
    requires 0 <= paid <= due && CashOnly(inventory, due - stone, stone, 0, 0)
    ensures CashOnly(lines, due - stone, stone, due - paid, paid) && |lines| >= |inventory|
  {
    lines := inventory;
    if due - paid > 0 {
      AddCash(lines, NetOwed(due, paid), due - stone, stone, 0, 0);
      lines := lines + [NetOwed(due, paid)];
    }
    if paid > 0 {
      AddCash(lines, PaidOut(paid), due - stone, stone, due - paid, 0);
      lines := lines + [PaidOut(paid)];
    }
  }

  /** Product and stone inventory against AP (net owed) and the cash paid at creation. */
  method PurchaseCash(due: int, paid: int, stoneCost: int) returns (lines: seq<Line>)
    requires 0 <= paid <= due && stoneCost >= 0
    ensures Building(lines, due - paid, NoGrams(), 0)
    ensures CashOnly(lines, due - StonePart(due, stoneCost), StonePart(due, stoneCost), due - paid, paid)
    ensures due == 0 <==> lines == []
  {
    var stone := StonePart(due, stoneCost);
    lines := [];
    if due > 0 {
      lines := InventoryLines(due, stone);
      lines := SettlementLines(lines, due, paid, stone);
    }
    CashOnlyBuilds(lines, due - stone, stone, due - paid, paid);
  }

  /** Only what the grams come to matters, not how they are written. */
  lemma SameGrams(lines: seq<Line>, cash: int, g: Karat -> int, h: Karat -> int)
    requires Building(lines, cash, g, 0) && forall k: Karat :: g(k) == h(k)
    ensures Building(lines, cash, h, 0)
  {
  }

  lemma OneMoreKarat(due: map<Karat, int>, paid: map<Karat, int>, i: nat, k: Karat)
    requires i < KARATS
    ensures NetUpTo(due, paid, i + 1)(k)
      == NetUpTo(due, paid, i)(k) + if k == KaratNo(i) then NetGrams(due, paid)(k) else 0
  {
    assert Rank(k) == i <==> k == KaratNo(i);
  }

  lemma NoKarats(due: map<Karat, int>, paid: map<Karat, int>, k: Karat)
    ensures NoGrams()(k) == NetUpTo(due, paid, 0)(k)
  {
    var none: nat := 0;
    assert !(Rank(k) < none);
    assert NetUpTo(due, paid, none)(k) == 0;
  }

  lemma AllKarats(due: map<Karat, int>, paid: map<Karat, int>, k: Karat)
    ensures NetUpTo(due, paid, KARATS)(k) == NetGrams(due, paid)(k)
  {
    assert Rank(k) < KARATS;
  }

  method PurchaseGold(p: Purchase, goldCost: map<Karat, int>, lines: seq<Line>, i: nat) returns (after: seq<Line>)
    requires i < KARATS
    requires Building(lines, p.cashDue - p.cashPaid, NetUpTo(p.gramsDue, p.gramsPaid, i), 0)
    ensures Building(after, p.cashDue - p.cashPaid, NetUpTo(p.gramsDue, p.gramsPaid, i + 1), 0)
    ensures after == [] <==> lines == [] && NetGrams(p.gramsDue, p.gramsPaid)(KaratNo(i)) == 0
  {
    var k := KaratNo(i);
    forall q: Karat { OneMoreKarat(p.gramsDue, p.gramsPaid, i, q); }
    if k in p.gramsDue && p.gramsDue[k] - At(p.gramsPaid, k) > 0 {
      var due := p.gramsDue[k];
      var net := due - At(p.gramsPaid, k);
      var cost := if due > 0 then Round(At(goldCost, k) * net, due) else 0;
      AddMetalPair(lines, cost, net, k, p.cashDue - p.cashPaid, NetUpTo(p.gramsDue, p.gramsPaid, i),
                   NetUpTo(p.gramsDue, p.gramsPaid, i + 1), 0);
      after := lines + [DebitMetal(METAL_INVENTORY, cost, net, KaratCode(k), "gold purchase (net)")]
               + [CreditMetal(METAL_AP, cost, net, KaratCode(k), "metal AP (net owed)")];
    } else {
      after := lines;
      SameGrams(lines, p.cashDue - p.cashPaid, NetUpTo(p.gramsDue, p.gramsPaid, i),
                NetUpTo(p.gramsDue, p.gramsPaid, i + 1));
    }
  }

  /** post_supplier_purchase: balanced, and on the control accounts exactly what is newly owed. Nothing
      is posted exactly when there is no cash cost and no karat on which grams are newly owed. */
  method PostPurchase(p: Purchase, goldCost: map<Karat, int>, stoneCost: int) returns (lines: seq<Line>)
    requires 0 <= p.cashPaid <= p.cashDue && stoneCost >= 0
    ensures EntryBalanced(lines)
    ensures ControlEffect(lines, p.cashDue - p.cashPaid, NetGrams(p.gramsDue, p.gramsPaid))
    ensures lines == [] <==> p.cashDue == 0 && forall k: Karat :: NetGrams(p.gramsDue, p.gramsPaid)(k) == 0
  {
    var cash := p.cashDue - p.cashPaid;
    lines := PurchaseCash(p.cashDue, p.cashPaid, stoneCost);
    forall k: Karat { NoKarats(p.gramsDue, p.gramsPaid, k); }
    SameGrams(lines, cash, NoGrams(), NetUpTo(p.gramsDue, p.gramsPaid, 0));
    var i := 0;
    while i < KARATS
      invariant 0 <= i <= KARATS
      invariant Building(lines, cash, NetUpTo(p.gramsDue, p.gramsPaid, i), 0)
      invariant lines == [] <==>
        p.cashDue == 0 && forall j: nat | j < i :: NetGrams(p.gramsDue, p.gramsPaid)(KaratNo(j)) == 0
    {
      lines := PurchaseGold(p, goldCost, lines, i);
      i := i + 1;
    }
    forall k: Karat { AllKarats(p.gramsDue, p.gramsPaid, k); }
    assert forall k: Karat :: KaratNo(Rank(k)) == k && Rank(k) < KARATS;
    SameGrams(lines, cash, NetUpTo(p.gramsDue, p.gramsPaid, KARATS), NetGrams(p.gramsDue, p.gramsPaid));
  }

  function PaidCash(p: Payment): int { if p.unit == CashDebt then p.amount else 0 }
  function PaidGrams(p: Payment): Karat -> int {
    (k: Karat) => if p.unit == GoldDebt && p.karat == Some(k) then p.amount else 0
  }
  function Repaid(p: Payment): Karat -> int { (k: Karat) => -PaidGrams(p)(k) }

  lemma TwoLines(first: Line, second: Line)
    ensures Sum([first] + [second], BaseNet) == BaseNet(first) + BaseNet(second)
    ensures Sum([first] + [second], AccountNet(AP)) == AccountNet(AP)(first) + AccountNet(AP)(second)
    ensures forall k: string :: Sum([first] + [second], KaratNet(k)) == KaratNet(k)(first) + KaratNet(k)(second)
    ensures forall k: string ::
      Sum([first] + [second], AccountKaratNet(METAL_AP, k))
      == AccountKaratNet(METAL_AP, k)(first) + AccountKaratNet(METAL_AP, k)(second)
  {
    NetSnoc([], first);
    NetSnoc([first], second);
    assert [] + [first] == [first];
  }

  lemma CodesDiffer(j: Karat, k: Karat)
    ensures KaratCode(j) == KaratCode(k) <==> j == k
  {
    assert KaratCode(j)[2] == KaratCode(k)[2] <==> j == k;
  }

  /** post_supplier_payment */
  method PostPayment(p: Payment) returns (lines: seq<Line>)
    requires p.unit == GoldDebt ==> p.karat.Some?
    ensures EntryBalanced(lines) && lines != []
    ensures ControlEffect(lines, -PaidCash(p), Repaid(p))
  {
    var first, second;
    if p.unit == CashDebt {
      first, second := Debit(AP, p.amount, "pay AP"), Credit(CASH, p.amount, "cash out");
    } else {
      var k := KaratCode(p.karat.value);
      first, second := DebitMetal(METAL_AP, 0, p.amount, k, "pay metal AP"),
                       CreditMetal(METAL_INVENTORY, 0, p.amount, k, "metal out");
    }
    TwoLines(first, second);
    lines := [first] + [second];
    forall k: Karat ensures Sum(lines, AccountKaratNet(METAL_AP, KaratCode(k))) == -Repaid(p)(k) {
      assert Repaid(p)(k) == -PaidGrams(p)(k);
      var net := AccountKaratNet(METAL_AP, KaratCode(k));
      if p.unit == GoldDebt {
        CodesDiffer(p.karat.value, k);
        assert net(second) == 0;
        if k == p.karat.value {
          assert net(first) == p.amount;
        } else {
          assert net(first) == 0;
        }
      } else {
        assert net(first) == 0 && net(second) == 0;
        assert PaidGrams(p)(k) == 0;
      }
    }
  }
}
