/** The one-time opening entry (`coa_seed.post_opening_balances`): metal on hand and cash against what
    suppliers are owed, plugged by equity in both dimensions. */
module OpeningBalances {
  import opened Wrappers
  import opened Sums
  import opened Journal
  import opened Suppliers
  import SupplierDesk

  /** An undepleted lot, or a product, coin or ounce in stock, with its opening cost. */
  datatype Holding = Holding(cost: int, grams: int, karat: Karat, memo: string)
  datatype CashLine = CashLine(account: AccountId, amount: int)

  function OnAp(c: CashLine): int { if c.account == AP then c.amount else 0 }
  function Grams(metal: map<string, int>, k: string): int { if k in metal then metal[k] else 0 }

  /** An unplugged entry: short of `credit` cents and of `metal` grams per karat, with `ap` cents and
      `owed` grams on the two control accounts. */
  ghost predicate Open(lines: seq<Line>, credit: int, metal: map<string, int>, ap: int, owed: Karat -> int) {
    && Sum(lines, BaseNet) == credit
    && (forall k: string :: Sum(lines, KaratNet(k)) == Grams(metal, k))
    && Sum(lines, AccountNet(AP)) == ap
    && (forall k: Karat :: Sum(lines, AccountKaratNet(METAL_AP, KaratCode(k))) == -owed(k))
    && Tagged(lines) && "" !in metal
  }

  lemma AddLine(lines: seq<Line>, l: Line, credit: int, metal: map<string, int>, ap: int, owed: Karat -> int,
                grams: map<string, int>, more: Karat -> int)
    requires Open(lines, credit, metal, ap, owed)
    requires l.HasMetal() ==> l.karat.Some? && l.karat.value != ""
    requires forall k: string :: Grams(grams, k) == Grams(metal, k) + KaratNet(k)(l)
    requires "" !in grams
    requires forall k: Karat :: -more(k) == -owed(k) + AccountKaratNet(METAL_AP, KaratCode(k))(l)
    ensures Open(lines + [l], credit + BaseNet(l), grams, ap + AccountNet(AP)(l), more)
  {
    NetSnoc(lines, l);
  }

  function OwedUpTo(rows: seq<BalanceRow>, i: nat): Karat -> int
    requires i <= |rows|
  {
    (k: Karat) => Sum(rows[..i], GoldOf(k))
  }

  method OpenMetal(holdings: seq<Holding>) returns (lines: seq<Line>, credit: int, metal: map<string, int>)
    ensures Open(lines, credit, metal, 0, NoGrams())
  {
    lines, credit, metal := [], 0, map[];
    var i := 0;
    while i < |holdings|
      invariant 0 <= i <= |holdings|
      invariant Open(lines, credit, metal, 0, NoGrams())
    {
      var h := holdings[i];
      var k := KaratCode(h.karat);
      var l := DebitMetal(METAL_INVENTORY, h.cost, h.grams, k, h.memo);
      AddLine(lines, l, credit, metal, 0, NoGrams(), metal[k := Grams(metal, k) + h.grams], NoGrams());
      lines, credit, metal := lines + [l], credit + h.cost, metal[k := Grams(metal, k) + h.grams];
      i := i + 1;
    }
  }

  function OpeningAp(r: BalanceRow): Line {
    if r.key.unit == CashDebt then Credit(AP, r.balance, "opening AP")
    else CreditMetal(METAL_AP, 0, r.balance, if r.key.karat.Some? then KaratCode(r.key.karat.value) else "K21",
                     "opening metal AP")
  }

  lemma OneMoreRow(rows: seq<BalanceRow>, i: nat, k: Karat)
    requires i < |rows| && GoodRows(rows)
    ensures -OwedUpTo(rows, i + 1)(k)
      == -OwedUpTo(rows, i)(k) + AccountKaratNet(METAL_AP, KaratCode(k))(OpeningAp(rows[i]))
    ensures Sum(rows[..i + 1], CashOf) == Sum(rows[..i], CashOf) - AccountNet(AP)(OpeningAp(rows[i]))
  {
    var r := rows[i];
    SumPrefix(rows, i, GoldOf(k));
    SumPrefix(rows, i, CashOf);
    assert r in rows;
    if r.key.unit == GoldDebt {
      CodesDiffer(r.key.karat.value, k);
    }
    assert AccountKaratNet(METAL_AP, KaratCode(k))(OpeningAp(r)) == -GoldOf(k)(r);
  }

  /** A balance of zero adds no line. */
  lemma SkippedRow(rows: seq<BalanceRow>, i: nat, k: Karat)
    requires i < |rows| && GoodRows(rows) && rows[i].balance == 0
    ensures OwedUpTo(rows, i + 1)(k) == OwedUpTo(rows, i)(k)
    ensures Sum(rows[..i + 1], CashOf) == Sum(rows[..i], CashOf)
  {
    SumPrefix(rows, i, GoldOf(k));
    SumPrefix(rows, i, CashOf);
  }

  method OpenBalance(rows: seq<BalanceRow>, i: nat, before: seq<Line>, credit: int, metal: map<string, int>)
    returns (lines: seq<Line>, credit': int, metal': map<string, int>)
    requires i < |rows| && GoodRows(rows)
    requires Open(before, credit, metal, -Sum(rows[..i], CashOf), OwedUpTo(rows, i))
    ensures Open(lines, credit', metal', -Sum(rows[..i + 1], CashOf), OwedUpTo(rows, i + 1))
  {
    var r := rows[i];
    if r.balance == 0 {
      forall k: Karat { SkippedRow(rows, i, k); }
      SkippedRow(rows, i, K18);
      return before, credit, metal;
    }
    var l := OpeningAp(r);
    if r.key.unit == CashDebt {
      credit', metal' := credit - r.balance, metal;
    } else {
      assert r in rows;
      var k := if r.key.karat.Some? then KaratCode(r.key.karat.value) else "K21";
      credit', metal' := credit, metal[k := Grams(metal, k) - r.balance];
    }
    forall k: Karat { OneMoreRow(rows, i, k); }
    OneMoreRow(rows, i, K18);
    lines := before + [l];
    AddLine(before, l, credit, metal, -Sum(rows[..i], CashOf), OwedUpTo(rows, i), metal', OwedUpTo(rows, i + 1));
  }

  method OpenCash(before: seq<Line>, credit: int, metal: map<string, int>, cash: seq<CashLine>, ap: int,
                  ghost owed: Karat -> int)
    returns (lines: seq<Line>, credit': int)
    requires Open(before, credit, metal, ap, owed)
    ensures Open(lines, credit', metal, ap + Sum(cash, OnAp), owed)
  {
    lines, credit' := before, credit;
    var i := 0;
    while i < |cash|
      invariant 0 <= i <= |cash|
      invariant Open(lines, credit', metal, ap + Sum(cash[..i], OnAp), owed)
    {
      var l := Debit(cash[i].account, cash[i].amount, "opening cash");
      SumPrefix(cash, i, OnAp);
      AddLine(lines, l, credit', metal, ap + Sum(cash[..i], OnAp), owed, metal, owed);
      lines, credit' := lines + [l], credit' + cash[i].amount;
      i := i + 1;
    }
    assert cash[..|cash|] == cash;
  }

  /** The equity lines: one in money if it is short, one per karat that is short. */
  method PlugEquity(before: seq<Line>, credit: int, metal: map<string, int>, ghost ap: int, ghost owed: Karat -> int)
    returns (lines: seq<Line>)
    requires Open(before, credit, metal, ap, owed)
    ensures Open(lines, 0, map[], ap, owed)
  {
    lines := before;
    if credit != 0 {
      var l := if credit > 0 then Credit(OPENING_BALANCE_EQUITY, credit, "opening balance equity")
               else Debit(OPENING_BALANCE_EQUITY, -credit, "opening balance equity");
      AddLine(lines, l, credit, metal, ap, owed, metal, owed);
      lines := lines + [l];
    }
    var short := metal;
    while short != map[]
      invariant Open(lines, 0, short, ap, owed)
      decreases |short|
    {
      assert short.Keys != {};
      var k :| k in short;
      var net, rest := short[k], short - {k};
      assert rest.Keys < short.Keys;
      if net != 0 {
        var l := if net > 0 then CreditMetal(OPENING_BALANCE_EQUITY, 0, net, k, "opening metal equity")
                 else DebitMetal(OPENING_BALANCE_EQUITY, 0, -net, k, "opening metal equity (net owed)");
        AddLine(lines, l, 0, short, ap, owed, rest, owed);
        lines := lines + [l];
      }
      short := rest;
    }
  }

  /** What the opening entry puts on the control accounts. */
  ghost predicate OpeningEffect(lines: seq<Line>, rows: seq<BalanceRow>, cash: seq<CashLine>) {
    && Sum(lines, AccountNet(AP)) == Sum(cash, OnAp) - Sum(rows, CashOf)
    && forall k: Karat :: Sum(lines, AccountKaratNet(METAL_AP, KaratCode(k))) == -Sum(rows, GoldOf(k))
  }

  /** The opening entry balances in both dimensions whatever the stock, the debts and the cash, and
      puts on the control accounts exactly what suppliers are owed (less any "cash" line given for AP). */
  method OpeningEntry(holdings: seq<Holding>, rows: seq<BalanceRow>, cash: seq<CashLine>) returns (lines: seq<Line>)
    requires GoodRows(rows)
    ensures EntryBalanced(lines) && OpeningEffect(lines, rows, cash)
  {
    var credit, metal;
    lines, credit, metal := OpenMetal(holdings);
    var i := 0;
    while i < |rows|
      invariant 0 <= i <= |rows|
      invariant Open(lines, credit, metal, -Sum(rows[..i], CashOf), OwedUpTo(rows, i))
    {
      lines, credit, metal := OpenBalance(rows, i, lines, credit, metal);
      i := i + 1;
    }
    assert rows[..|rows|] == rows;
    lines, credit := OpenCash(lines, credit, metal, cash, -Sum(rows, CashOf), OwedUpTo(rows, |rows|));
    lines := PlugEquity(lines, credit, metal, -Sum(rows, CashOf) + Sum(cash, OnAp), OwedUpTo(rows, |rows|));
  }

  /** Posted when the control accounts are still untouched, the opening entry ties them to the stored
      balances exactly when its cash lines leave AP alone in total. */
  lemma OpeningTies(journal: seq<Line>, opening: seq<Line>, rows: seq<BalanceRow>, cash: seq<CashLine>)
    requires Sum(journal, AccountNet(AP)) == 0
    requires forall k: Karat :: Sum(journal, AccountKaratNet(METAL_AP, KaratCode(k))) == 0
    requires OpeningEffect(opening, rows, cash)
    ensures TiesOut(journal + opening, rows) <==> Sum(cash, OnAp) == 0
  {
    SumConcat(journal, opening, AccountNet(AP));
    forall k: Karat { SumConcat(journal, opening, AccountKaratNet(METAL_AP, KaratCode(k))); }
  }

  /** Right after the opening entry the books are tied three ways, exactly when its cash lines leave AP
      alone in total. */
  lemma OpeningStartsTied(b: SupplierDesk.Book, opening: seq<Line>, cash: seq<CashLine>)
    requires SupplierDesk.SoundBook(b) && Reconciles(b.rows, b.purchases, b.payments)
    requires Sum(b.lines, AccountNet(AP)) == 0
    requires forall k: Karat :: Sum(b.lines, AccountKaratNet(METAL_AP, KaratCode(k))) == 0
    requires OpeningEffect(opening, b.rows, cash)
    ensures SupplierDesk.Tied(b.(lines := b.lines + opening)) <==> Sum(cash, OnAp) == 0
  {
    OpeningTies(b.lines, opening, b.rows, cash);
  }

  /** A shop that starts without posting, opens its ledger with the opening entry and posts from then on:
      stored balances, replay and control accounts agree in every state after the opening. */
  lemma TiedFromOpening(before: seq<SupplierDesk.Book>, lots: map<Id, Lot>, opening: seq<Line>, cash: seq<CashLine>,
                        after: seq<SupplierDesk.Book>)
    requires SupplierDesk.PostingRun(before, false) && before[0] == SupplierDesk.NewBook(lots)
    requires var last := before[|before| - 1];
      && OpeningEffect(opening, last.rows, cash) && Sum(cash, OnAp) == 0
      && SupplierDesk.PostingRun(after, true) && after[0] == last.(lines := last.lines + opening)
    ensures SupplierDesk.Tied(after[|after| - 1])
  {
    var flags: seq<bool> :| SupplierDesk.Run(before, flags, true) && forall i | 0 <= i < |flags| :: flags[i] == false;
    SupplierDesk.EmptyBookIsTied(lots);
    SupplierDesk.RunStaysSound(before, flags, true);
    SupplierDesk.CleanRunReconciles(before, flags);
    OpeningStartsTied(before[|before| - 1], opening, cash);
    SupplierDesk.RunStaysTied(after);
  }
}
