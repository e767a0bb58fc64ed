/** Journal lines, the two balancing dimensions, and `gl.validate_balanced`.
    Money is in cents, grams in milligrams, rates in millionths: the column scales of the journal. */
module Journal {
  import opened Wrappers
  import opened Sums

  /** System accounts are known by their system key; every other account by its id. */
  datatype AccountId =
    | CASH | CREDIT_CARD_CLEARING | AR | AP | METAL_AP | VENDOR_AP | VAT_PAYABLE
    | SALES_REVENUE | MAKING_CHARGE_REVENUE | SALES_DISCOUNTS
    | METAL_COGS | METAL_INVENTORY | STONE_COGS | STONE_INVENTORY | PRODUCT_INVENTORY
    | METAL_CLEARING | ADJUSTMENT_EXPENSE | OPENING_BALANCE_EQUITY | RETAINED_EARNINGS | FX_GAIN | FX_LOSS
    | Account_(id: string)

  datatype Denomination = MONEY | METAL | DUAL
  datatype AccountType = ASSET | LIABILITY | EQUITY | INCOME | EXPENSE
  datatype Account = Account(code: string, kind: AccountType, denomination: Denomination, active: bool)

  datatype CalendarDate = Date(year: int, month: int, day: int) {
    /** The date as YYYYMMDD: the day key of the entry counter, and the order of dates. */
    function Key(): int { year * 10000 + month * 100 + day }
  }
  type Date = d: CalendarDate | 1 <= d.month <= 12 && 1 <= d.day <= 31 witness Date(2000, 1, 1)

  function YearEnd(year: int): Date { Date(year, 12, 31) }

  lemma YearEndIsLast(d: Date, year: int)
    ensures d.Key() <= YearEnd(year).Key() <==> d.year <= year
  {
    if d.year < year {
      assert d.Key() <= d.year * 10000 + 1231;
    }
  }

  datatype Karat = K18 | K21 | K22 | K24
  function KaratCode(k: Karat): string {
    match k case K18 => "K18" case K21 => "K21" case K22 => "K22" case K24 => "K24"
  }

  const USD_RATE := 1000000

  datatype Line = Line(account: AccountId, baseDebit: int, baseCredit: int,
                       moneyDebit: int, moneyCredit: int, currency: string, fxMicros: int,
                       metalDebit: int, metalCredit: int, karat: Option<string>, memo: string)
  {
    predicate HasMoney() { baseDebit != 0 || baseCredit != 0 || moneyDebit != 0 || moneyCredit != 0 }
    predicate HasMetal() { metalDebit != 0 || metalCredit != 0 }

    /** The reversing line: both dimensions swapped (gl.reverse_entry). */
    function Swapped(): Line {
      this.(baseDebit := baseCredit, baseCredit := baseDebit,
            moneyDebit := moneyCredit, moneyCredit := moneyDebit,
            metalDebit := metalCredit, metalCredit := metalDebit,
            memo := if memo == "" then "reversal" else "reversal of " + memo)
    }
  }

  // Line builders the mappers share: a USD line moves money and base alike.
  function Debit(account: AccountId, cents: int, memo: string): Line {
    Line(account, cents, 0, cents, 0, "USD", USD_RATE, 0, 0, None, memo)
  }
  function Credit(account: AccountId, cents: int, memo: string): Line {
    Line(account, 0, cents, 0, cents, "USD", USD_RATE, 0, 0, None, memo)
  }
  function DebitMetal(account: AccountId, cents: int, grams: int, karat: string, memo: string): Line {
    Line(account, cents, 0, 0, 0, "USD", USD_RATE, grams, 0, Some(karat), memo)
  }
  function CreditMetal(account: AccountId, cents: int, grams: int, karat: string, memo: string): Line {
    Line(account, 0, cents, 0, 0, "USD", USD_RATE, 0, grams, Some(karat), memo)
  }

  // ---- Nets: what a set of lines does to an account, in each dimension ----

  function BaseNet(l: Line): int { l.baseDebit - l.baseCredit }
  function AccountNet(a: AccountId): Line -> int { (l: Line) => if l.account == a then BaseNet(l) else 0 }
  function KaratNet(k: string): Line -> int {
    (l: Line) => if l.karat == Some(k) then l.metalDebit - l.metalCredit else 0
  }
  function AccountKaratNet(a: AccountId, k: string): Line -> int {
    (l: Line) => if l.account == a && l.karat == Some(k) then l.metalDebit - l.metalCredit else 0
  }
  function AccountCurrencyNet(a: AccountId, currency: string): Line -> int {
    (l: Line) => if l.account == a && l.currency == currency then l.moneyDebit - l.moneyCredit else 0
  }

  /** The meaning of a valid entry: both dimensions net to zero, and every component fits its account. */
  ghost predicate MoneyBalanced(lines: seq<Line>) { Sum(lines, BaseNet) == 0 }
  ghost predicate MetalBalanced(lines: seq<Line>) { forall k: string :: Sum(lines, KaratNet(k)) == 0 }

  predicate FitsAccount(l: Line, denomination: Denomination) {
    && (denomination == MONEY ==> !l.HasMetal())
    && (denomination == METAL ==> !l.HasMoney())
    && (l.HasMetal() ==> l.karat.Some? && l.karat.value != "")
  }

  ghost predicate Balanced(lines: seq<Line>, denominations: map<AccountId, Denomination>)
    requires forall l | l in lines :: l.account in denominations
  {
    && lines != []
    && MoneyBalanced(lines) && MetalBalanced(lines)
    && forall l | l in lines :: FitsAccount(l, denominations[l.account])
  }

  /** The same without the accounts: what stays true of an entry once posted. */
  ghost predicate EntryBalanced(lines: seq<Line>) {
    && MoneyBalanced(lines) && MetalBalanced(lines)
    && forall l | l in lines && l.HasMetal() :: l.karat.Some? && l.karat.value != ""
  }

  // ---- gl.validate_balanced ----

  datatype LineError =
    | NoLines
    | MoneyUnbalanced(debits: int, credits: int)
    | MetalUnbalanced(karat: string, debitGrams: int, creditGrams: int)
    | MetalOnMoneyAccount(account: AccountId)
    | MoneyOnMetalAccount(account: AccountId)
    | KaratMissing(account: AccountId)

  function DebitOf(l: Line): int { l.baseDebit }
  function CreditOf(l: Line): int { l.baseCredit }
  function KaratDebit(k: string): Line -> int { (l: Line) => if l.karat == Some(k) then l.metalDebit else 0 }
  function KaratCredit(k: string): Line -> int { (l: Line) => if l.karat == Some(k) then l.metalCredit else 0 }

  /** `str(karat)`: a missing karat reads "None". */
  function KaratName(l: Line): string { if l.karat.Some? then l.karat.value else "None" }

  function KaratNames(lines: seq<Line>): (names: seq<string>)
    ensures forall l | l in lines && l.HasMetal() :: KaratName(l) in names
  {
    if lines == [] then []
    else
      var l := lines[|lines| - 1];
      var names := KaratNames(lines[..|lines| - 1]);
      if l.HasMetal() && KaratName(l) !in names then names + [KaratName(l)] else names
  }

  function MetalErrors(lines: seq<Line>, names: seq<string>): (errors: seq<LineError>)
    ensures errors == [] <==>
      forall k | k in names :: Sum(lines, KaratDebit(k)) == Sum(lines, KaratCredit(k))
  {
    if names == [] then []
    else
      var k := names[0];
      var kd, kc := Sum(lines, KaratDebit(k)), Sum(lines, KaratCredit(k));
      (if kd != kc then [MetalUnbalanced(k, kd, kc)] else []) + MetalErrors(lines, names[1..])
  }

  function ComponentErrors(l: Line, denomination: Denomination): seq<LineError> {
    (if denomination == MONEY && l.HasMetal() then [MetalOnMoneyAccount(l.account)] else [])
    + (if denomination == METAL && l.HasMoney() then [MoneyOnMetalAccount(l.account)] else [])
    + (if l.HasMetal() && (l.karat == None || l.karat == Some("")) then [KaratMissing(l.account)] else [])
  }

  function LineErrors(lines: seq<Line>, denominations: map<AccountId, Denomination>): (errors: seq<LineError>)
    requires forall l | l in lines :: l.account in denominations
    ensures errors == [] <==> forall l | l in lines :: FitsAccount(l, denominations[l.account])
  {
    if lines == [] then []
    else ComponentErrors(lines[0], denominations[lines[0].account]) + LineErrors(lines[1..], denominations)
  }

  function ValidateBalanced(lines: seq<Line>, denominations: map<AccountId, Denomination>): seq<LineError>
    requires forall l | l in lines :: l.account in denominations
  {
    if lines == [] then [NoLines]
    else
      var debits, credits := Sum(lines, DebitOf), Sum(lines, CreditOf);
      (if debits != credits then [MoneyUnbalanced(debits, credits)] else [])
      + MetalErrors(lines, KaratNames(lines))
      + LineErrors(lines, denominations)
  }

  lemma KaratSplit(lines: seq<Line>, k: string)
    ensures Sum(lines, KaratNet(k)) == Sum(lines, KaratDebit(k)) - Sum(lines, KaratCredit(k))
  {
    SumDiff(lines, KaratDebit(k), KaratCredit(k), KaratNet(k));
  }

  /** The validator accepts exactly the balanced entries: although it looks only at the karats of
      lines that move metal, an accepted entry nets to zero in every karat there is. */
  lemma ValidatorIsExact(lines: seq<Line>, denominations: map<AccountId, Denomination>)
    requires forall l | l in lines :: l.account in denominations
    ensures ValidateBalanced(lines, denominations) == [] <==> Balanced(lines, denominations)
  {
    SumDiff(lines, DebitOf, CreditOf, BaseNet);
    var names := KaratNames(lines);
    forall k: string {
      KaratSplit(lines, k);
    }
    if ValidateBalanced(lines, denominations) == [] {
      forall k: string ensures Sum(lines, KaratNet(k)) == 0 {
        KaratSplit(lines, k);
        if k !in names {
          SumZero(lines, KaratNet(k));
        }
      }
    }
    if Balanced(lines, denominations) {
      forall k | k in names ensures Sum(lines, KaratDebit(k)) == Sum(lines, KaratCredit(k)) {
        KaratSplit(lines, k);
        assert Sum(lines, KaratNet(k)) == 0;
      }
    }
  }

  // ---- Reversal ----

  function SwapAll(lines: seq<Line>): seq<Line> {
    seq(|lines|, i requires 0 <= i < |lines| => lines[i].Swapped())
  }

  /** Swapping negates every net that is a debit-minus-credit figure. */
  ghost predicate OddUnderSwap(net: Line -> int) {
    forall l: Line :: net(l.Swapped()) == -net(l)
  }

  lemma {:induction false} SwapNegates(lines: seq<Line>, net: Line -> int)
    requires OddUnderSwap(net)
    ensures Sum(SwapAll(lines), net) == -Sum(lines, net)
  {
    if lines != [] {
      var n := |lines| - 1;
      assert SwapAll(lines)[..n] == SwapAll(lines[..n]);
      SwapNegates(lines[..n], net);
    }
  }

  /** An entry plus its reversal cancel in every account: in base, per currency and per karat. */
  lemma ReversalCancels(lines: seq<Line>, a: AccountId, currency: string, k: string)
    ensures Sum(lines + SwapAll(lines), AccountNet(a)) == 0
    ensures Sum(lines + SwapAll(lines), AccountCurrencyNet(a, currency)) == 0
    ensures Sum(lines + SwapAll(lines), AccountKaratNet(a, k)) == 0
  {
    SumConcat(lines, SwapAll(lines), AccountNet(a));
    SumConcat(lines, SwapAll(lines), AccountCurrencyNet(a, currency));
    SumConcat(lines, SwapAll(lines), AccountKaratNet(a, k));
    SwapNegates(lines, AccountNet(a));
    SwapNegates(lines, AccountCurrencyNet(a, currency));
    SwapNegates(lines, AccountKaratNet(a, k));
  }

  lemma SwapKeepsBalance(lines: seq<Line>)
    requires EntryBalanced(lines)
    ensures EntryBalanced(SwapAll(lines))
  {
    SwapNegates(lines, BaseNet);
    forall k: string ensures Sum(SwapAll(lines), KaratNet(k)) == 0 {
      assert Sum(lines, KaratNet(k)) == 0;
      SwapNegates(lines, KaratNet(k));
    }
  }

  // ---- Nets of a growing list of lines ----

  lemma NetSnoc(lines: seq<Line>, l: Line)
    ensures Sum(lines + [l], BaseNet) == Sum(lines, BaseNet) + BaseNet(l)
    ensures forall a: AccountId :: Sum(lines + [l], AccountNet(a)) == Sum(lines, AccountNet(a)) + AccountNet(a)(l)
    ensures forall k: string :: Sum(lines + [l], KaratNet(k)) == Sum(lines, KaratNet(k)) + KaratNet(k)(l)
    ensures forall a: AccountId, k: string ::
      Sum(lines + [l], AccountKaratNet(a, k)) == Sum(lines, AccountKaratNet(a, k)) + AccountKaratNet(a, k)(l)
  {
    SumSnoc(lines, l, BaseNet);
    forall a: AccountId { SumSnoc(lines, l, AccountNet(a)); }
    forall k: string { SumSnoc(lines, l, KaratNet(k)); }
    forall a: AccountId, k: string
      ensures Sum(lines + [l], AccountKaratNet(a, k)) == Sum(lines, AccountKaratNet(a, k)) + AccountKaratNet(a, k)(l)
    {
      SumSnoc(lines, l, AccountKaratNet(a, k));
    }
  }

  ghost predicate Tagged(lines: seq<Line>) {
    forall l | l in lines && l.HasMetal() :: l.karat.Some? && l.karat.value != ""
  }

  // ---- Lines appended only if an amount is positive ----

  function OneIf(c: bool, l: Line): seq<Line> { if c then [l] else [] }

  lemma SumOneIf(lines: seq<Line>, c: bool, l: Line, net: Line -> int)
    ensures Sum(lines + OneIf(c, l), net) == Sum(lines, net) + if c then net(l) else 0
  {
    if c {
      SumSnoc(lines, l, net);
    } else {
      assert lines + [] == lines;
    }
  }
}
