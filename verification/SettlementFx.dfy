/** Realized FX on settlement (`gl_fx.settlement_legs`). Rates are in millionths (the column scale),
    LBP per USD; the base of `money` cents at rate `r` is `money * UNIT / r`, rounded to the cent. */
module SettlementFx {
  import opened Wrappers
  import opened Sums
  import opened Rounding
  import opened Journal

  const UNIT := USD_RATE

  datatype Currency = USD | Foreign(code: string)
  datatype Kind = Receipt | Payment | OtherKind(name: string)
  datatype Leg = Leg(account: AccountId, debit: bool, money: int, base: int, currency: Currency, rate: int,
                     memo: string)
  datatype Allocation = Allocation(currency: Currency, rate: int, money: int)

  datatype SettlementError =
    | UnknownKind | NoAllocations | CrossCurrency(document: Currency) | ForeignTender(tender: Currency)

  // ---- What the legs are worth ----

  function Base(money: int, rate: int): int
    requires rate > 0
  {
    Round(money * UNIT, rate)
  }

  function MoneyOf(a: Allocation): int { a.money }
  function BookedBase(a: Allocation): int { if a.rate > 0 then Base(a.money, a.rate) else 0 }

  /** Cents of the tender currency for `total` cents of the document's. */
  function CashMoney(total: int, sameCurrency: bool, rate: int): int {
    if sameCurrency then total else Round(total * rate, UNIT)
  }
  function CashBase(money: int, rate: int): int
    requires rate > 0
  {
    if rate != UNIT then Base(money, rate) else money
  }
  function Received(total: int, sameCurrency: bool, rate: int): int
    requires rate > 0
  {
    CashBase(CashMoney(total, sameCurrency, rate), rate)
  }

  /** The realized difference: base relieved on the control account less base moved by the cash. */
  function Difference(allocations: seq<Allocation>, sameCurrency: bool, rate: int): int
    requires rate > 0
  {
    Sum(allocations, BookedBase) - Received(Sum(allocations, MoneyOf), sameCurrency, rate)
  }

  function SignedBase(l: Leg): int { if l.debit then l.base else -l.base }
  function CreditBase(l: Leg): int { if l.debit then 0 else l.base }
  function DebitBase(l: Leg): int { if l.debit then l.base else 0 }

  // ---- settlement_legs ----

  function ControlLeg(kind: Kind, control: AccountId, currency: Currency, a: Allocation): Leg {
    Leg(control, kind == Payment, a.money, BookedBase(a), currency, a.rate,
        if kind == Receipt then "relieve AR" else "relieve AP")
  }
  function CashLeg(kind: Kind, cash: AccountId, currency: Currency, rate: int, money: int, base: int): Leg {
    Leg(cash, kind == Receipt, money, base, currency, rate, if kind == Receipt then "receipt" else "cash out")
  }
  /** `plug` is credits less debits. */
  function FxLegs(plug: int): seq<Leg> {
    if plug > 0 then [Leg(FX_LOSS, true, plug, plug, USD, UNIT, "realized FX loss")]
    else if plug < 0 then [Leg(FX_GAIN, false, -plug, -plug, USD, UNIT, "realized FX gain")]
    else []
  }

  ghost predicate ControlLegs(legs: seq<Leg>, kind: Kind, control: AccountId, currency: Currency,
                              allocations: seq<Allocation>) {
    && |legs| == |allocations|
    && forall i | 0 <= i < |legs| :: legs[i] == ControlLeg(kind, control, currency, allocations[i])
  }

  function Side(kind: Kind): int { if kind == Receipt then 1 else -1 }

  lemma {:induction false} ControlLegsSum(legs: seq<Leg>, kind: Kind, control: AccountId, currency: Currency,
                                          allocations: seq<Allocation>)
    requires kind == Receipt || kind == Payment
    requires ControlLegs(legs, kind, control, currency, allocations)
    ensures Sum(legs, CreditBase) - Sum(legs, DebitBase) == Side(kind) * Sum(allocations, BookedBase)
  {
    if legs != [] {
      var n := |legs| - 1;
      ControlLegsSum(legs[..n], kind, control, currency, allocations[..n]);
    }
  }

  lemma Balanced(legs: seq<Leg>, plug: int)
    requires plug == Sum(legs, CreditBase) - Sum(legs, DebitBase)
    ensures Sum(legs + FxLegs(plug), DebitBase) == Sum(legs + FxLegs(plug), CreditBase)
  {
    if plug == 0 {
      assert legs + [] == legs;
    } else {
      SumSnoc(legs, FxLegs(plug)[0], DebitBase);
      SumSnoc(legs, FxLegs(plug)[0], CreditBase);
    }
  }

  method RelieveControl(kind: Kind, control: AccountId, currency: Currency, allocations: seq<Allocation>)
    returns (legs: seq<Leg>, total: int)
    requires forall a | a in allocations :: a.rate > 0
    ensures ControlLegs(legs, kind, control, currency, allocations) && total == Sum(allocations, MoneyOf)
  {
    legs, total := [], 0;
    var i := 0;
    while i < |allocations|
      invariant 0 <= i <= |allocations|
      invariant ControlLegs(legs, kind, control, currency, allocations[..i])
      invariant total == Sum(allocations[..i], MoneyOf)
    {
      SumPrefix(allocations, i, MoneyOf);
      total := total + allocations[i].money;
      legs := legs + [ControlLeg(kind, control, currency, allocations[i])];
      i := i + 1;
    }
    assert allocations[..|allocations|] == allocations;
  }

  ghost predicate SettlementRefused(e: SettlementError, kind: Kind, recorded: Currency, allocations: seq<Allocation>,
                                    tender: Currency) {
    match e
    case UnknownKind => kind != Receipt && kind != Payment
    case NoAllocations => (kind == Receipt || kind == Payment) && allocations == []
    case CrossCurrency(c) => c != recorded && exists a | a in allocations :: a.currency == c
    case ForeignTender(c) => c == tender && tender != recorded && recorded != USD
                             && forall a | a in allocations :: a.currency == recorded
  }

  /** What a settlement needs to be accepted. */
  predicate Settles(kind: Kind, recorded: Currency, allocations: seq<Allocation>, tender: Currency) {
    && (kind == Receipt || kind == Payment) && allocations != []
    && (forall a | a in allocations :: a.currency == recorded)
    && (tender == recorded || recorded == USD)
  }

  /** What an accepted settlement posts: the control legs, the cash leg, and the plug. */
  ghost predicate SettlementPosted(legs: seq<Leg>, kind: Kind, recorded: Currency, allocations: seq<Allocation>,
                                   control: AccountId, cash: AccountId, tender: Currency, rate: int)
    requires rate > 0
  {
    var n, same, total := |allocations|, tender == recorded, Sum(allocations, MoneyOf);
    && n < |legs| && ControlLegs(legs[..n], kind, control, recorded, allocations)
    && legs[n] == CashLeg(kind, cash, tender, rate, CashMoney(total, same, rate), Received(total, same, rate))
    && legs[n + 1..] == FxLegs(Side(kind) * Difference(allocations, same, rate))
  }

  method BuildLegs(kind: Kind, recorded: Currency, allocations: seq<Allocation>, control: AccountId,
                   cash: AccountId, tender: Currency, rate: int)
    returns (legs: seq<Leg>)
    requires rate > 0 && (forall a | a in allocations :: a.rate > 0) && (kind == Receipt || kind == Payment)
    ensures SettlementPosted(legs, kind, recorded, allocations, control, cash, tender, rate)
    ensures Sum(legs, DebitBase) == Sum(legs, CreditBase)
  {
    var relief, total := RelieveControl(kind, control, recorded, allocations);
    var money := CashMoney(total, tender == recorded, rate);
    var paid := CashLeg(kind, cash, tender, rate, money, CashBase(money, rate));
    var before := relief + [paid];
    var plug := Sum(before, CreditBase) - Sum(before, DebitBase);
    PlugIsDifference(relief, paid, kind, control, recorded, allocations, tender == recorded, rate);
    Balanced(before, plug);
    legs := before + FxLegs(plug);
    assert legs[..|allocations|] == relief;
    assert legs[|allocations| + 1..] == FxLegs(plug);
  }

  lemma PlugIsDifference(relief: seq<Leg>, paid: Leg, kind: Kind, control: AccountId, recorded: Currency,
                         allocations: seq<Allocation>, same: bool, rate: int)
    requires rate > 0 && (kind == Receipt || kind == Payment)
    requires ControlLegs(relief, kind, control, recorded, allocations) && paid.debit == (kind == Receipt)
    requires paid.base == Received(Sum(allocations, MoneyOf), same, rate)
    ensures Sum(relief + [paid], CreditBase) - Sum(relief + [paid], DebitBase)
      == Side(kind) * Difference(allocations, same, rate)
  {
    ControlLegsSum(relief, kind, control, recorded, allocations);
    SumSnoc(relief, paid, CreditBase);
    SumSnoc(relief, paid, DebitBase);
  }

  /** One leg per allocation at its captured rate, one cash leg at the tender rate, and at most one FX
      leg, for exactly the realized difference: the entry balances in base. */
  method SettlementLegs(kind: Kind, recorded: Currency, allocations: seq<Allocation>, control: AccountId,
                        cash: AccountId, tender: Currency, rate: int)
    returns (r: Result<seq<Leg>, SettlementError>)
    requires rate > 0 && forall a | a in allocations :: a.rate > 0
    ensures r.Ok? <==> Settles(kind, recorded, allocations, tender)
    ensures r.Err? ==> SettlementRefused(r.error, kind, recorded, allocations, tender)
    ensures r.Ok? ==> SettlementPosted(r.value, kind, recorded, allocations, control, cash, tender, rate)
    ensures r.Ok? ==> Sum(r.value, DebitBase) == Sum(r.value, CreditBase)
  {
    if kind != Receipt && kind != Payment {
      return Err(UnknownKind);
    }
    if allocations == [] {
      return Err(NoAllocations);
    }
    var i := 0;
    while i < |allocations|
      invariant 0 <= i <= |allocations|
      invariant forall j | 0 <= j < i :: allocations[j].currency == recorded
    {
      if allocations[i].currency != recorded {
        return Err(CrossCurrency(allocations[i].currency));
      }
      i := i + 1;
    }
    if tender != recorded && recorded != USD {
      return Err(ForeignTender(tender));
    }
    var legs := BuildLegs(kind, recorded, allocations, control, cash, tender, rate);
    r := Ok(legs);
  }

  // ---- How large the difference can be ----

  ghost predicate AllAt(allocations: seq<Allocation>, rate: int) { forall a | a in allocations :: a.rate == rate }

  /** Twice the realized difference is at most the number of allocations plus one. */
  ghost predicate Small(allocations: seq<Allocation>, sameCurrency: bool, rate: int)
    requires rate > 0
  {
    -(|allocations| + 1) <= 2 * Difference(allocations, sameCurrency, rate) <= |allocations| + 1
  }

  function OneSlack(a: Allocation): int { 1 }
  function MoneyUnits(a: Allocation): int { a.money * UNIT }

  lemma {:induction false} SumOfUnits(allocations: seq<Allocation>)
    ensures Sum(allocations, OneSlack) == |allocations|
    ensures Sum(allocations, MoneyUnits) == Sum(allocations, MoneyOf) * UNIT
  {
    if allocations != [] {
      SumOfUnits(allocations[..|allocations| - 1]);
    }
  }

  lemma BaseWithin(money: int, rate: int)
    requires rate > 0
    ensures -rate <= 2 * (rate * Base(money, rate) - money * UNIT) <= rate
  {
    RoundIsRounded(money * UNIT, rate);
    assert Base(money, rate) * rate == rate * Base(money, rate);
  }

  lemma ControlWithin(allocations: seq<Allocation>, rate: int)
    requires rate > 0 && AllAt(allocations, rate)
    ensures var s := 2 * (rate * Sum(allocations, BookedBase) - Sum(allocations, MoneyOf) * UNIT);
            -(rate * |allocations|) <= s <= rate * |allocations|
  {
    forall a | a in allocations
      ensures -rate * OneSlack(a) <= 2 * (rate * BookedBase(a) - MoneyUnits(a)) <= rate * OneSlack(a)
    {
      BaseWithin(a.money, a.rate);
    }
    SumWithin(allocations, BookedBase, MoneyUnits, OneSlack, rate);
    SumOfUnits(allocations);
    assert -rate * Sum(allocations, OneSlack) == -(rate * |allocations|);
  }

  /** `rate * d` strictly between multiples of `rate` bounds `d`. */
  lemma DivideOut(rate: int, d: int, n: int)
    requires rate > 0 && 2 * (rate * d) <= rate * n
    ensures 2 * d <= n
  {
    assert (2 * d) * rate == 2 * (rate * d);
    MulGap(2 * d, n, rate);
  }

  lemma CashAtUnit(money: int)
    ensures Base(money, UNIT) == money
  {
    RoundExact(money, UNIT);
  }

  /** Two figures near the same value are near each other. */
  lemma NearEachOther(rate: int, c: int, b: int, n: int, units: int)
    requires rate > 0
    requires -(rate * n) <= 2 * (rate * c - units) <= rate * n
    requires -rate <= 2 * (rate * b - units) <= rate
    ensures -(n + 1) <= 2 * (c - b) <= n + 1
  {
    assert rate * (n + 1) == rate * n + rate;
    assert rate * (c - b) == rate * c - rate * b;
    assert rate * (b - c) == rate * b - rate * c;
    DivideOut(rate, c - b, n + 1);
    DivideOut(rate, b - c, n + 1);
  }

  lemma SameCurrencyIsSmall(allocations: seq<Allocation>, rate: int)
    requires rate > 0 && AllAt(allocations, rate)
    ensures Small(allocations, true, rate)
  {
    var t := Sum(allocations, MoneyOf);
    CashAtUnit(t);
    ControlWithin(allocations, rate);
    BaseWithin(t, rate);
    NearEachOther(rate, Sum(allocations, BookedBase), Base(t, rate), |allocations|, t * UNIT);
  }

  lemma AtUnitNoDifference(allocations: seq<Allocation>, sameCurrency: bool)
    requires AllAt(allocations, UNIT)
    ensures Difference(allocations, sameCurrency, UNIT) == 0
  {
    forall a | a in allocations ensures BookedBase(a) == MoneyOf(a) {
      CashAtUnit(a.money);
    }
    SumEq(allocations, BookedBase, MoneyOf);
    RoundExact(Sum(allocations, MoneyOf), UNIT);
  }

  /** When every captured rate equals the tender rate the FX leg is at most (n + 1) / 2 cents, exactly
      if the cash is in the document's currency or the rate is one: a USD document booked at another
      rate and paid in foreign cash leaves a difference that grows with the amount. */
  lemma EqualRatesBoundExactly(rate: int, sameCurrency: bool)
    requires rate > 0
    ensures (forall allocations: seq<Allocation> | allocations != [] && AllAt(allocations, rate) ::
        Small(allocations, sameCurrency, rate))
      <==> sameCurrency || rate == UNIT
  {
    if sameCurrency {
      forall allocations: seq<Allocation> | allocations != [] && AllAt(allocations, rate) {
        SameCurrencyIsSmall(allocations, rate);
      }
    } else if rate == UNIT {
      forall allocations: seq<Allocation> | allocations != [] && AllAt(allocations, rate)
        ensures Small(allocations, sameCurrency, rate)
      {
        AtUnitNoDifference(allocations, sameCurrency);
      }
    } else {
      ForeignCashIsNotSmall(rate);
    }
  }

  lemma ForeignCashIsNotSmall(rate: int)
    requires rate > 0 && rate != UNIT
    ensures var big := [Allocation(USD, rate, UNIT * rate)]; AllAt(big, rate) && !Small(big, false, rate)
  {
    var m := UNIT * rate;
    var a := Allocation(USD, rate, m);
    SumSnoc([], a, BookedBase);
    SumSnoc([], a, MoneyOf);
    assert [] + [a] == [a];
    assert m * UNIT == (UNIT * UNIT) * rate;
    RoundExact(UNIT * UNIT, rate);
    assert m * rate == (rate * rate) * UNIT;
    RoundExact(rate * rate, UNIT);
    assert (rate * rate) * UNIT == (rate * UNIT) * rate;
    RoundExact(rate * UNIT, rate);
    assert Difference([a], false, rate) == UNIT * UNIT - rate * UNIT;
    MulSub(UNIT, rate, UNIT);
    MulGap(UNIT, rate, UNIT);
    MulGap(rate, UNIT, UNIT);
  }

  // ---- No receipt gain when the tender rate is at least every captured rate ----

  ghost predicate AtMost(allocations: seq<Allocation>, rate: int) {
    forall a | a in allocations :: a.money >= 0 && 0 < a.rate <= rate
  }

  /** The base relieved at a captured rate is at least the base at the (higher) tender rate, less rounding. */
  lemma RelievedAtLeast(a: Allocation, rate: int)
    requires a.money >= 0 && 0 < a.rate <= rate
    ensures BookedBase(a) >= 0
    ensures 2 * (a.money * UNIT - rate * BookedBase(a)) <= rate
  {
    var b := BookedBase(a);
    BaseWithin(a.money, a.rate);
    RoundNonNegative(a.money * UNIT, a.rate);
    MulNonNegative(b, rate - a.rate);
    assert b * (rate - a.rate) == rate * b - a.rate * b;
  }

  lemma {:induction false} ControlAtLeast(allocations: seq<Allocation>, rate: int)
    requires rate > 0 && AtMost(allocations, rate)
    ensures Sum(allocations, MoneyOf) >= 0 && Sum(allocations, BookedBase) >= 0
    ensures 2 * (Sum(allocations, MoneyOf) * UNIT - rate * Sum(allocations, BookedBase)) <= rate * |allocations|
  {
    if allocations != [] {
      var n := |allocations| - 1;
      var t, c, a := Sum(allocations[..n], MoneyOf), Sum(allocations[..n], BookedBase), allocations[n];
      ControlAtLeast(allocations[..n], rate);
      RelievedAtLeast(a, rate);
      Distribute(rate, c, BookedBase(a));
      Distribute(rate, n, 1);
    }
  }

  /** A receipt's gain is at most (n + 1) / 2 cents. */
  ghost predicate NoGain(allocations: seq<Allocation>, sameCurrency: bool, rate: int)
    requires rate > 0
  {
    -2 * Difference(allocations, sameCurrency, rate) <= |allocations| + 1
  }

  lemma GainWithin(rate: int, c: int, b: int, n: int, units: int)
    requires rate > 0
    requires 2 * (units - rate * c) <= rate * n
    requires 2 * (rate * b - units) <= rate
    ensures 2 * (b - c) <= n + 1
  {
    assert rate * (n + 1) == rate * n + rate;
    assert rate * (b - c) == rate * b - rate * c;
    DivideOut(rate, b - c, n + 1);
  }

  lemma SameCurrencyNoGain(allocations: seq<Allocation>, rate: int)
    requires rate > 0 && AtMost(allocations, rate)
    ensures NoGain(allocations, true, rate)
  {
    var t := Sum(allocations, MoneyOf);
    CashAtUnit(t);
    ControlAtLeast(allocations, rate);
    BaseWithin(t, rate);
    GainWithin(rate, Sum(allocations, BookedBase), Base(t, rate), |allocations|, t * UNIT);
  }

  // ---- Foreign cash: there and back again ----

  function ThereAndBack(total: int, rate: int): int
    requires rate > 0
  {
    Received(total, false, rate)
  }

  /** Converting to the tender currency and back loses nothing at a rate of one or more. */
  lemma RoundTrip(total: int, rate: int)
    requires rate >= UNIT
    ensures ThereAndBack(total, rate) == total
  {
    var cents := Round(total * rate, UNIT);
    if rate == UNIT {
      RoundExact(total, UNIT);
    } else {
      RoundIsRounded(total * rate, UNIT);
      RoundUnique(cents * UNIT, rate, total);
    }
  }

  lemma {:induction false} LosslessClimbs(rate: int, k: nat)
    requires rate > 0 && forall total: int :: ThereAndBack(total, rate) == total
    ensures Round(k * rate, UNIT) >= k
  {
    if k == 0 {
      RoundExact(0, UNIT);
    } else {
      LosslessClimbs(rate, k - 1);
      assert k * rate == (k - 1) * rate + rate;
      RoundMonotone((k - 1) * rate, k * rate, UNIT);
      assert ThereAndBack(k, rate) != ThereAndBack(k - 1, rate);
    }
  }

  lemma LosslessNeedsOne(rate: int)
    requires rate > 0 && forall total: int :: ThereAndBack(total, rate) == total
    ensures rate >= UNIT
  {
    LosslessClimbs(rate, UNIT);
    assert UNIT * rate == rate * UNIT;
    RoundExact(rate, UNIT);
  }

  /** It loses something at every smaller rate: a whole unit becomes fewer cents than it has. */
  lemma RoundTripExactly(rate: int)
    requires rate > 0
    ensures (forall total: int :: ThereAndBack(total, rate) == total) <==> rate >= UNIT
  {
    if rate >= UNIT {
      forall total: int { RoundTrip(total, rate); }
    } else if forall total: int :: ThereAndBack(total, rate) == total {
      LosslessNeedsOne(rate);
    }
  }

  /** A USD document booked at rate one and paid in foreign cash leaves no FX leg, exactly when the
      tender rate is at least one. */
  lemma NoFxLegExactly(rate: int)
    requires rate > 0
    ensures (forall allocations: seq<Allocation> | AllAt(allocations, UNIT) ::
        FxLegs(Difference(allocations, false, rate)) == [])
      <==> rate >= UNIT
  {
    if rate >= UNIT {
      forall allocations: seq<Allocation> | AllAt(allocations, UNIT)
        ensures FxLegs(Difference(allocations, false, rate)) == []
      {
        AtUnitNoDifference(allocations, true);
        CashAtUnit(Sum(allocations, MoneyOf));
        RoundTrip(Sum(allocations, MoneyOf), rate);
      }
    } else {
      RoundTripExactly(rate);
      var total: int :| ThereAndBack(total, rate) != total;
      var one := [Allocation(USD, UNIT, total)];
      AtUnitNoDifference(one, true);
      OneAllocation(one[0]);
      CashAtUnit(total);
      assert Difference(one, false, rate) != 0;
    }
  }

  lemma OneAllocation(a: Allocation)
    ensures Sum([a], MoneyOf) == a.money && Sum([a], BookedBase) == BookedBase(a)
  {
    assert [a][..0] == [];
  }

  /** Foreign cash at a tender rate below one: the rounding to tender cents stays within the bound. */
  lemma LowRateNoGain(allocations: seq<Allocation>, rate: int)
    requires 0 < rate < UNIT && AtMost(allocations, rate)
    ensures NoGain(allocations, false, rate)
  {
    var t, c, n := Sum(allocations, MoneyOf), Sum(allocations, BookedBase), |allocations|;
    var cents := Round(t * rate, UNIT);
    var b := Base(cents, rate);
    ControlAtLeast(allocations, rate);
    BaseWithin(cents, rate);
    RoundIsRounded(t * rate, UNIT);
    if t == 0 {
      RoundExact(0, UNIT);
      RoundExact(0, rate);
    } else {
      LowRateArithmetic(rate, t, c, b, n, cents);
    }
  }

  lemma LowRateArithmetic(rate: int, t: int, c: int, b: int, n: int, cents: int)
    requires 0 < rate < UNIT && t >= 1
    requires 2 * (t * UNIT - rate * c) <= rate * n
    requires 2 * (cents * UNIT - t * rate) <= UNIT
    requires 2 * (rate * b - cents * UNIT) <= rate
    ensures 2 * (b - c) <= n + 1
  {
    MulNonNegative(t - 1, UNIT - rate);
    assert (t - 1) * (UNIT - rate) == t * UNIT - t * rate - UNIT + rate;
    assert rate * (b - c) == rate * b - rate * c;
    assert 2 * (rate * (b - c)) < rate * n + 2 * rate;
    assert rate * (n + 2) == rate * n + 2 * rate;
    assert (2 * (b - c)) * rate == 2 * (rate * (b - c));
    MulGap(n + 2, 2 * (b - c), rate);
    MulGap(2 * (b - c), n + 2, rate);
    assert (n + 2) * rate == rate * (n + 2);
  }

  lemma BookedAtOneOrLess(allocations: seq<Allocation>)
    requires AtMost(allocations, UNIT)
    ensures Sum(allocations, BookedBase) >= Sum(allocations, MoneyOf)
  {
    ControlAtLeast(allocations, UNIT);
    SumAtLeast(allocations);
  }

  lemma {:induction false} SumAtLeast(allocations: seq<Allocation>)
    requires AtMost(allocations, UNIT)
    ensures Sum(allocations, BookedBase) >= Sum(allocations, MoneyOf)
  {
    if allocations != [] {
      var n := |allocations| - 1;
      var a := allocations[n];
      SumAtLeast(allocations[..n]);
      MulNonNegative(a.money, UNIT - a.rate);
      assert a.money * (UNIT - a.rate) == a.money * UNIT - a.money * a.rate;
      RoundExact(a.money, a.rate);
      RoundMonotone(a.money * a.rate, a.money * UNIT, a.rate);
    }
  }

  ghost predicate CapturedAt(allocations: seq<Allocation>, rates: seq<int>) {
    && |allocations| == |rates|
    && forall i | 0 <= i < |rates| :: allocations[i].rate == rates[i] && allocations[i].money >= 0
  }

  /** With captured rates none above the tender rate, no receipt gains more than (n + 1) / 2 cents,
      whatever the amounts: exactly if the cash is in the document's currency or no document was booked
      above one. */
  lemma NoGainExactly(rates: seq<int>, sameCurrency: bool, rate: int)
    requires rate > 0 && forall r | r in rates :: 0 < r <= rate
    ensures (forall allocations: seq<Allocation> | CapturedAt(allocations, rates) ::
        NoGain(allocations, sameCurrency, rate))
      <==> sameCurrency || forall r | r in rates :: r <= UNIT
  {
    if sameCurrency || forall r | r in rates :: r <= UNIT {
      forall allocations: seq<Allocation> | CapturedAt(allocations, rates)
        ensures NoGain(allocations, sameCurrency, rate)
      {
        assert forall a | a in allocations :: a.rate in rates;
        NoGainHolds(allocations, sameCurrency, rate);
      }
    } else {
      var i :| 0 <= i < |rates| && rates[i] > UNIT;
      GainGrows(rates, i, rate);
    }
  }

  lemma NoGainHolds(allocations: seq<Allocation>, sameCurrency: bool, rate: int)
    requires rate > 0 && AtMost(allocations, rate)
    requires sameCurrency || AtMost(allocations, UNIT)
    ensures NoGain(allocations, sameCurrency, rate)
  {
    if sameCurrency {
      SameCurrencyNoGain(allocations, rate);
    } else if rate < UNIT {
      LowRateNoGain(allocations, rate);
    } else {
      BookedAtOneOrLess(allocations);
      RoundTrip(Sum(allocations, MoneyOf), rate);
    }
  }

  function Only(rates: seq<int>, i: nat, money: int): seq<Allocation>
    requires i < |rates|
  {
    seq(|rates|, j requires 0 <= j < |rates| => Allocation(USD, rates[j], if j == i then money else 0))
  }

  lemma {:induction false} OnlySums(rates: seq<int>, i: nat, money: int, n: nat)
    requires i < |rates| && n <= |rates| && rates[i] > 0 && forall r | r in rates :: r > 0
    ensures Sum(Only(rates, i, money)[..n], MoneyOf) == if i < n then money else 0
    ensures Sum(Only(rates, i, money)[..n], BookedBase) == if i < n then Base(money, rates[i]) else 0
  {
    if n > 0 {
      OnlySums(rates, i, money, n - 1);
      SumPrefix(Only(rates, i, money), n - 1, MoneyOf);
      SumPrefix(Only(rates, i, money), n - 1, BookedBase);
      assert rates[n - 1] in rates;
      RoundExact(0, rates[n - 1]);
    }
  }

  lemma GainGrows(rates: seq<int>, i: nat, rate: int)
    requires rate > 0 && i < |rates| && rates[i] > UNIT && forall r | r in rates :: 0 < r <= rate
    ensures var big := Only(rates, i, (|rates| + 1) * rates[i]); CapturedAt(big, rates) && !NoGain(big, false, rate)
  {
    var n, r := |rates|, rates[i];
    var m := (n + 1) * r;
    var big := Only(rates, i, m);
    assert r in rates;
    MulNonNegative(n + 1, r);
    OnlySums(rates, i, m, n);
    assert big[..n] == big;
    RoundTrip(m, rate);
    assert m * UNIT == ((n + 1) * UNIT) * r;
    RoundExact((n + 1) * UNIT, r);
    assert Difference(big, false, rate) == (n + 1) * UNIT - m;
    MulGap(r, UNIT, n + 1);
    assert UNIT * (n + 1) == (n + 1) * UNIT && r * (n + 1) == m;
  }
}
