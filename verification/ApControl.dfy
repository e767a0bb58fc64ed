/** The control-account report of accounts payable (`ap.verify_ap_control`). */
module ApControl {
  import opened Wrappers
  import opened Sums
  import opened Journal
  import opened Suppliers

  /** The karat a METAL_AP line is reported under. */
  function Label(l: Line): string { if l.karat == None || l.karat == Some("") then "?" else l.karat.value }
  function MetalOn(k: string): Line -> int {
    (l: Line) => if l.account == METAL_AP && l.HasMetal() && Label(l) == k then l.metalDebit - l.metalCredit else 0
  }
  function RowKarat(r: BalanceRow): string { if r.key.karat.Some? then KaratCode(r.key.karat.value) else "" }
  function GoldAt(k: string): BalanceRow -> int {
    (r: BalanceRow) => if r.key.unit == GoldDebt && RowKarat(r) == k then r.balance else 0
  }

  function Get(m: map<string, int>, k: string): int { if k in m then m[k] else 0 }

  /** Grams owed per karat label, from the ledger: credits less debits. */
  method LedgerMetal(lines: seq<Line>) returns (m: map<string, int>)
    ensures forall k: string :: Get(m, k) == -Sum(lines, MetalOn(k))
  {
    m := map[];
    var i := 0;
    while i < |lines|
      invariant 0 <= i <= |lines|
      invariant forall k: string :: Get(m, k) == -Sum(lines[..i], MetalOn(k))
    {
      var l := lines[i];
      forall k: string { SumPrefix(lines, i, MetalOn(k)); }
      if l.account == METAL_AP && l.HasMetal() {
        m := m[Label(l) := Get(m, Label(l)) + (l.metalCredit - l.metalDebit)];
      }
      i := i + 1;
    }
    assert lines[..|lines|] == lines;
  }

  method SubledgerMetal(rows: seq<BalanceRow>) returns (m: map<string, int>)
    ensures forall k: string :: Get(m, k) == Sum(rows, GoldAt(k))
  {
    m := map[];
    var i := 0;
    while i < |rows|
      invariant 0 <= i <= |rows|
      invariant forall k: string :: Get(m, k) == Sum(rows[..i], GoldAt(k))
    {
      var r := rows[i];
      forall k: string { SumPrefix(rows, i, GoldAt(k)); }
      if r.key.unit == GoldDebt {
        m := m[RowKarat(r) := Get(m, RowKarat(r)) + r.balance];
      }
      i := i + 1;
    }
    assert rows[..|rows|] == rows;
  }

  /** verify_ap_control: both verdicts, the second over the karats either side knows. */
  method VerifyApControl(lines: seq<Line>, rows: seq<BalanceRow>) returns (ap: bool, metal: bool)
    ensures ap <==> -Sum(lines, AccountNet(AP)) == Sum(rows, CashOf)
    ensures metal <==> forall k: string :: -Sum(lines, MetalOn(k)) == Sum(rows, GoldAt(k))
  {
    ap := -Sum(lines, AccountNet(AP)) == Sum(rows, CashOf);
    var gl := LedgerMetal(lines);
    var sub := SubledgerMetal(rows);
    metal := forall k | k in gl.Keys + sub.Keys :: Get(gl, k) == Get(sub, k);
    if metal {
      forall k: string ensures -Sum(lines, MetalOn(k)) == Sum(rows, GoldAt(k)) {
        assert k in gl.Keys + sub.Keys || (Get(gl, k) == 0 && Get(sub, k) == 0);
      }
    }
  }

  /** Lines posted by the mappers carry one of the four karats. */
  ghost predicate KnownKarats(lines: seq<Line>) {
    forall l | l in lines && l.account == METAL_AP && l.HasMetal() :: exists q: Karat :: l.karat == Some(KaratCode(q))
  }

  lemma MatchingKarat(lines: seq<Line>, rows: seq<BalanceRow>, q: Karat)
    requires GoodRows(rows)
    ensures Sum(lines, MetalOn(KaratCode(q))) == Sum(lines, AccountKaratNet(METAL_AP, KaratCode(q)))
    ensures Sum(rows, GoldAt(KaratCode(q))) == Sum(rows, GoldOf(q))
  {
    SumEq(lines, MetalOn(KaratCode(q)), AccountKaratNet(METAL_AP, KaratCode(q)));
    forall r | r in rows ensures GoldAt(KaratCode(q))(r) == GoldOf(q)(r) {
      if r.key.karat.Some? {
        CodesDiffer(r.key.karat.value, q);
      }
    }
    SumEq(rows, GoldAt(KaratCode(q)), GoldOf(q));
  }

  lemma UnknownKarat(lines: seq<Line>, rows: seq<BalanceRow>, k: string)
    requires GoodRows(rows) && KnownKarats(lines) && forall q: Karat :: KaratCode(q) != k
    ensures Sum(lines, MetalOn(k)) == 0 && Sum(rows, GoldAt(k)) == 0
  {
    SumZero(lines, MetalOn(k));
    SumZero(rows, GoldAt(k));
  }

  /** On journals the mappers wrote, the report matches exactly when the books tie out. */
  lemma ReportMatchesExactly(lines: seq<Line>, rows: seq<BalanceRow>)
    requires GoodRows(rows) && KnownKarats(lines)
    ensures TiesOut(lines, rows) <==>
      && -Sum(lines, AccountNet(AP)) == Sum(rows, CashOf)
      && forall k: string :: -Sum(lines, MetalOn(k)) == Sum(rows, GoldAt(k))
  {
    forall q: Karat { MatchingKarat(lines, rows, q); }
    if TiesOut(lines, rows) {
      forall k: string ensures -Sum(lines, MetalOn(k)) == Sum(rows, GoldAt(k)) {
        if q: Karat :| KaratCode(q) == k {
          MatchingKarat(lines, rows, q);
        } else {
          UnknownKarat(lines, rows, k);
        }
      }
    }
    if forall k: string :: -Sum(lines, MetalOn(k)) == Sum(rows, GoldAt(k)) {
      forall q: Karat
        ensures -Sum(lines, AccountKaratNet(METAL_AP, KaratCode(q))) == Sum(rows, GoldOf(q))
      {
        MatchingKarat(lines, rows, q);
        assert -Sum(lines, MetalOn(KaratCode(q))) == Sum(rows, GoldAt(KaratCode(q)));
      }
    }
  }
}
