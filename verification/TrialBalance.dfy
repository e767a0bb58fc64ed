/** `gl.compute_trial_balance`, grouped in SQL, against the line-by-line replay it replaced (`Matches`). */
module TrialBalance {
  import opened Wrappers
  import opened Sums
  import opened Journal
  import opened GLChain

  datatype Key = Key(account: AccountId, currency: string, karat: Option<string>)

  datatype Totals = Totals(baseDebit: int, baseCredit: int, moneyDebit: int, moneyCredit: int,
                           metalDebit: int, metalCredit: int, metalLines: nat)
  {
    function Plus(t: Totals): Totals {
      Totals(baseDebit + t.baseDebit, baseCredit + t.baseCredit, moneyDebit + t.moneyDebit,
             moneyCredit + t.moneyCredit, metalDebit + t.metalDebit, metalCredit + t.metalCredit,
             metalLines + t.metalLines)
    }
  }
  const ZERO := Totals(0, 0, 0, 0, 0, 0, 0)

  /** A row entering the accumulation: one journal line, or one group of the SQL result. */
  datatype Item = Item(key: Key, totals: Totals)

  function ItemOf(l: Line): Item {
    Item(Key(l.account, l.currency, l.karat),
         Totals(l.baseDebit, l.baseCredit, l.moneyDebit, l.moneyCredit, l.metalDebit, l.metalCredit,
                if l.HasMetal() then 1 else 0))
  }
  function ItemsOf(lines: seq<Line>): seq<Item> {
    seq(|lines|, i requires 0 <= i < |lines| => ItemOf(lines[i]))
  }

  /** The lines of the entries dated on or before `asOf`. */
  function LinesAsOf(entries: seq<Entry>, asOf: Date): seq<Line> {
    if entries == [] then []
    else
      var e := entries[|entries| - 1];
      LinesAsOf(entries[..|entries| - 1], asOf)
      + if e.fields.draft.date.Key() <= asOf.Key() then e.fields.draft.lines else []
  }

  // ---- The plain fold ----

  function Total(items: seq<Item>, keep: Key -> bool): Totals {
    if items == [] then ZERO
    else
      var x := items[|items| - 1];
      var t := Total(items[..|items| - 1], keep);
      if keep(x.key) then t.Plus(x.totals) else t
  }

  /** The karat bucket of a line: a missing or empty karat reads "?". */
  function Bucket(karat: Option<string>): string { if karat == None || karat == Some("") then "?" else karat.value }

  function Everything(): Key -> bool { (k: Key) => true }
  function OfAccount(a: AccountId): Key -> bool { (k: Key) => k.account == a }
  function OfCurrency(a: AccountId, c: string): Key -> bool { (k: Key) => k.account == a && k.currency == c }
  function OfBucket(a: AccountId, b: string): Key -> bool { (k: Key) => k.account == a && Bucket(k.karat) == b }
  function AnyBucket(b: string): Key -> bool { (k: Key) => Bucket(k.karat) == b }

  datatype Pair = Pair(debit: int, credit: int)
  datatype AccountRow = AccountRow(baseDebit: int, baseCredit: int, money: map<string, Pair>, metal: map<string, Pair>)
  datatype Report = Report(accounts: map<AccountId, AccountRow>, totalDebit: int, totalCredit: int,
                           metal: map<string, Pair>)
  {
    predicate IsBalanced() { totalDebit == totalCredit }
    predicate IsMetalBalanced() { forall k | k in metal :: metal[k].debit == metal[k].credit }
  }

  ghost predicate HasItem(items: seq<Item>, keep: Key -> bool) {
    exists i | 0 <= i < |items| :: keep(items[i].key)
  }

  ghost predicate MoneyMatches(items: seq<Item>, a: AccountId, money: map<string, Pair>) {
    && (forall c: string :: c in money <==> HasItem(items, OfCurrency(a, c)))
    && (forall c | c in money ::
          var m := Total(items, OfCurrency(a, c)); money[c] == Pair(m.moneyDebit, m.moneyCredit))
  }

  ghost predicate BucketsMatch(items: seq<Item>, a: AccountId, metal: map<string, Pair>) {
    && (forall b: string :: b in metal <==> Total(items, OfBucket(a, b)).metalLines > 0)
    && (forall b | b in metal ::
          var m := Total(items, OfBucket(a, b)); metal[b] == Pair(m.metalDebit, m.metalCredit))
  }

  ghost predicate RowMatches(items: seq<Item>, a: AccountId, row: AccountRow) {
    var t := Total(items, OfAccount(a));
    && row.baseDebit == t.baseDebit && row.baseCredit == t.baseCredit
    && MoneyMatches(items, a, row.money) && BucketsMatch(items, a, row.metal)
  }

  ghost predicate MetalMatches(items: seq<Item>, metal: map<string, Pair>) {
    && (forall b: string :: b in metal <==> Total(items, AnyBucket(b)).metalLines > 0)
    && (forall b | b in metal ::
          var m := Total(items, AnyBucket(b)); metal[b] == Pair(m.metalDebit, m.metalCredit))
  }

  /** The report is the line-by-line fold: per account in base, per currency, per karat bucket (which
      exists exactly where a line moved metal), and in total. */
  ghost predicate Matches(items: seq<Item>, r: Report) {
    && (forall a: AccountId :: a in r.accounts <==> HasItem(items, OfAccount(a)))
    && (forall a | a in r.accounts :: RowMatches(items, a, r.accounts[a]))
    && r.totalDebit == Total(items, Everything()).baseDebit
    && r.totalCredit == Total(items, Everything()).baseCredit
    && MetalMatches(items, r.metal)
  }

  // ---- Accumulating one row ----

  function AddTo(m: map<string, Pair>, k: string, debit: int, credit: int): map<string, Pair> {
    var p := if k in m then m[k] else Pair(0, 0);
    m[k := Pair(p.debit + debit, p.credit + credit)]
  }

  function AccumulateRow(row: AccountRow, x: Item): AccountRow {
    var t := x.totals;
    AccountRow(row.baseDebit + t.baseDebit, row.baseCredit + t.baseCredit,
               AddTo(row.money, x.key.currency, t.moneyDebit, t.moneyCredit),
               if t.metalLines > 0 then AddTo(row.metal, Bucket(x.key.karat), t.metalDebit, t.metalCredit)
               else row.metal)
  }

  function Accumulate(r: Report, x: Item): Report {
    var a, t := x.key.account, x.totals;
    var row := if a in r.accounts then r.accounts[a] else AccountRow(0, 0, map[], map[]);
    Report(r.accounts[a := AccumulateRow(row, x)], r.totalDebit + t.baseDebit, r.totalCredit + t.baseCredit,
           if t.metalLines > 0 then AddTo(r.metal, Bucket(x.key.karat), t.metalDebit, t.metalCredit) else r.metal)
  }

  /** Rows that moved no metal carry no grams. */
  ghost predicate GramsAreCounted(items: seq<Item>) {
    forall x | x in items && x.totals.metalLines == 0 :: x.totals.metalDebit == 0 && x.totals.metalCredit == 0
  }

  lemma TotalSnoc(items: seq<Item>, x: Item, keep: Key -> bool)
    ensures Total(items + [x], keep) ==
      if keep(x.key) then Total(items, keep).Plus(x.totals) else Total(items, keep)
  {
    assert (items + [x])[..|items|] == items;
  }

  lemma HasItemSnoc(items: seq<Item>, x: Item, keep: Key -> bool)
    ensures HasItem(items + [x], keep) <==> HasItem(items, keep) || keep(x.key)
  {
    var more := items + [x];
    if HasItem(items, keep) {
      var i :| 0 <= i < |items| && keep(items[i].key);
      assert keep(more[i].key);
    }
    if keep(x.key) {
      assert keep(more[|items|].key);
    }
  }

  lemma {:induction false} NoItemNoTotal(items: seq<Item>, keep: Key -> bool)
    requires !HasItem(items, keep)
    ensures Total(items, keep) == ZERO
  {
    if items != [] {
      var n := |items| - 1;
      NoItemNoTotal(items[..n], keep);
      assert !keep(items[n].key);
    }
  }

  lemma {:induction false} NoMetalNoGrams(items: seq<Item>, keep: Key -> bool)
    requires GramsAreCounted(items)
    requires Total(items, keep).metalLines == 0
    ensures Total(items, keep).metalDebit == 0 && Total(items, keep).metalCredit == 0
  {
    if items != [] {
      var n := |items| - 1;
      NoMetalNoGrams(items[..n], keep);
      assert items[n] in items;
    }
  }

  lemma MoneyStep(items: seq<Item>, x: Item, a: AccountId, money: map<string, Pair>)
    requires a == x.key.account
    requires MoneyMatches(items, a, money)
    ensures MoneyMatches(items + [x], a, AddTo(money, x.key.currency, x.totals.moneyDebit, x.totals.moneyCredit))
  {
    forall c: string {
      TotalSnoc(items, x, OfCurrency(a, c));
    }
    forall c: string {
      HasItemSnoc(items, x, OfCurrency(a, c));
    }
    if x.key.currency !in money {
      NoItemNoTotal(items, OfCurrency(a, x.key.currency));
    }
  }

  lemma BucketStep(items: seq<Item>, x: Item, a: AccountId, metal: map<string, Pair>)
    requires GramsAreCounted(items + [x])
    requires a == x.key.account
    requires BucketsMatch(items, a, metal)
    ensures BucketsMatch(items + [x], a,
      if x.totals.metalLines > 0
      then AddTo(metal, Bucket(x.key.karat), x.totals.metalDebit, x.totals.metalCredit) else metal)
  {
    assert forall y | y in items :: y in items + [x];
    assert x in items + [x];
    forall b: string {
      TotalSnoc(items, x, OfBucket(a, b));
    }
    if Bucket(x.key.karat) !in metal {
      NoMetalNoGrams(items, OfBucket(a, Bucket(x.key.karat)));
    }
  }

  lemma RowStep(items: seq<Item>, x: Item, a: AccountId, row: AccountRow)
    requires GramsAreCounted(items + [x])
    requires RowMatches(items, a, row)
    requires a == x.key.account
    ensures RowMatches(items + [x], a, AccumulateRow(row, x))
  {
    TotalSnoc(items, x, OfAccount(a));
    MoneyStep(items, x, a, row.money);
    BucketStep(items, x, a, row.metal);
  }

  lemma OtherRowStep(items: seq<Item>, x: Item, a: AccountId, row: AccountRow)
    requires RowMatches(items, a, row)
    requires a != x.key.account
    ensures RowMatches(items + [x], a, row)
  {
    TotalSnoc(items, x, OfAccount(a));
    forall c: string {
      TotalSnoc(items, x, OfCurrency(a, c));
    }
    forall c: string {
      HasItemSnoc(items, x, OfCurrency(a, c));
    }
    forall b: string {
      TotalSnoc(items, x, OfBucket(a, b));
    }
  }

  lemma MetalStep(items: seq<Item>, x: Item, metal: map<string, Pair>)
    requires GramsAreCounted(items + [x])
    requires MetalMatches(items, metal)
    ensures MetalMatches(items + [x],
      if x.totals.metalLines > 0
      then AddTo(metal, Bucket(x.key.karat), x.totals.metalDebit, x.totals.metalCredit) else metal)
  {
    assert forall y | y in items :: y in items + [x];
    assert x in items + [x];
    forall b: string {
      TotalSnoc(items, x, AnyBucket(b));
    }
    if Bucket(x.key.karat) !in metal {
      NoMetalNoGrams(items, AnyBucket(Bucket(x.key.karat)));
    }
  }

  lemma EmptyRowMatches(items: seq<Item>, a: AccountId)
    requires GramsAreCounted(items)
    requires !HasItem(items, OfAccount(a))
    ensures RowMatches(items, a, AccountRow(0, 0, map[], map[]))
  {
    NoItemNoTotal(items, OfAccount(a));
    forall b: string {
      NoItemNoTotal(items, OfBucket(a, b));
    }
  }

  lemma AccumulateRows(items: seq<Item>, x: Item, r: Report, a: AccountId)
    requires GramsAreCounted(items + [x])
    requires a in r.accounts ==> RowMatches(items, a, r.accounts[a])
    requires a in r.accounts <==> HasItem(items, OfAccount(a))
    ensures a in Accumulate(r, x).accounts <==> HasItem(items + [x], OfAccount(a))
    ensures a in Accumulate(r, x).accounts ==> RowMatches(items + [x], a, Accumulate(r, x).accounts[a])
  {
    HasItemSnoc(items, x, OfAccount(a));
    if a == x.key.account {
      if a !in r.accounts {
        assert forall y | y in items :: y in items + [x];
        EmptyRowMatches(items, a);
      }
      RowStep(items, x, a, if a in r.accounts then r.accounts[a] else AccountRow(0, 0, map[], map[]));
    } else if a in r.accounts {
      OtherRowStep(items, x, a, r.accounts[a]);
    }
  }

  lemma AccumulateKeepsMatches(items: seq<Item>, x: Item, r: Report)
    requires GramsAreCounted(items + [x])
    requires Matches(items, r)
    ensures Matches(items + [x], Accumulate(r, x))
  {
    TotalSnoc(items, x, Everything());
    MetalStep(items, x, r.metal);
    forall a: AccountId
      ensures a in Accumulate(r, x).accounts <==> HasItem(items + [x], OfAccount(a))
      ensures a in Accumulate(r, x).accounts ==> RowMatches(items + [x], a, Accumulate(r, x).accounts[a])
    {
      AccumulateRows(items, x, r, a);
    }
  }

  // ---- GROUP BY ----

  function Exactly(k: Key): Key -> bool { (x: Key) => x == k }
  function Among(keep: Key -> bool, keys: set<Key>): Key -> bool { (x: Key) => keep(x) && x in keys }
  ghost function KeysOf(items: seq<Item>): set<Key> { set x | x in items :: x.key }

  /** What the SQL promises: one group per key that occurs, in any order, with the sums of its lines. */
  ghost predicate IsGroupBy(items: seq<Item>, groups: seq<Item>) {
    && (forall i, j | 0 <= i < j < |groups| :: groups[i].key != groups[j].key)
    && KeysOf(groups) == KeysOf(items)
    && forall i | 0 <= i < |groups| :: groups[i].totals == Total(items, Exactly(groups[i].key))
  }

  lemma PlusZero(t: Totals)
    ensures t.Plus(ZERO) == t
  {
  }

  lemma PlusSwaps(a: Totals, b: Totals, c: Totals)
    ensures a.Plus(b).Plus(c) == a.Plus(c).Plus(b) == a.Plus(b.Plus(c))
  {
  }

  function Only(keep: Key -> bool, p: Key -> bool): Key -> bool { (k: Key) => keep(k) && p(k) }
  function Except(keep: Key -> bool, p: Key -> bool): Key -> bool { (k: Key) => keep(k) && !p(k) }

  /** A filter splits a total. */
  lemma {:induction false} TotalSplit(items: seq<Item>, keep: Key -> bool, p: Key -> bool)
    ensures Total(items, keep) == Total(items, Only(keep, p)).Plus(Total(items, Except(keep, p)))
  {
    if items == [] {
      PlusZero(ZERO);
    } else {
      var n := |items| - 1;
      TotalSplit(items[..n], keep, p);
      PlusSwaps(Total(items[..n], Only(keep, p)), Total(items[..n], Except(keep, p)), items[n].totals);
    }
  }

  lemma {:induction false} TotalEq(items: seq<Item>, one: Key -> bool, other: Key -> bool)
    requires forall x | x in items :: one(x.key) == other(x.key)
    ensures Total(items, one) == Total(items, other)
  {
    if items != [] {
      var n := |items| - 1;
      TotalEq(items[..n], one, other);
      assert items[n] in items;
    }
  }

  lemma OneMoreKey(items: seq<Item>, keys: set<Key>, key: Key, keep: Key -> bool)
    requires key !in keys
    ensures Total(items, Among(keep, keys + {key})) ==
      if keep(key) then Total(items, Among(keep, keys)).Plus(Total(items, Exactly(key)))
      else Total(items, Among(keep, keys))
  {
    var after := keys + {key};
    if keep(key) {
      TotalSplit(items, Among(keep, after), Exactly(key));
      TotalEq(items, Only(Among(keep, after), Exactly(key)), Exactly(key));
      TotalEq(items, Except(Among(keep, after), Exactly(key)), Among(keep, keys));
      PlusCommutes(Total(items, Exactly(key)), Total(items, Among(keep, keys)));
    } else {
      TotalEq(items, Among(keep, after), Among(keep, keys));
    }
  }

  lemma PlusCommutes(a: Totals, b: Totals)
    ensures a.Plus(b) == b.Plus(a)
  {
  }

  lemma {:induction false} TotalOfPrefix(items: seq<Item>, groups: seq<Item>, i: nat, keep: Key -> bool)
    requires IsGroupBy(items, groups)
    requires i <= |groups|
    ensures Total(groups[..i], keep) == Total(items, Among(keep, KeysOf(groups[..i])))
  {
    if i == 0 {
      NoItemNoTotal(items, Among(keep, {}));
      assert KeysOf(groups[..0]) == {};
    } else {
      var g := groups[i - 1];
      TotalOfPrefix(items, groups, i - 1, keep);
      assert groups[..i] == groups[..i - 1] + [g];
      TotalSnoc(groups[..i - 1], g, keep);
      var before, after := KeysOf(groups[..i - 1]), KeysOf(groups[..i]);
      assert after == before + {g.key};
      assert g.key !in before;
      OneMoreKey(items, before, g.key, keep);
    }
  }

  lemma GroupingKeepsTotal(items: seq<Item>, groups: seq<Item>, keep: Key -> bool)
    requires IsGroupBy(items, groups)
    ensures Total(groups, keep) == Total(items, keep)
  {
    assert groups[..|groups|] == groups;
    TotalOfPrefix(items, groups, |groups|, keep);
    forall x | x in items ensures x.key in KeysOf(groups) {
      assert x.key in KeysOf(items);
    }
    TotalEq(items, Among(keep, KeysOf(groups)), keep);
  }

  lemma SameKeysSameItems(items: seq<Item>, others: seq<Item>, keep: Key -> bool)
    requires KeysOf(items) == KeysOf(others)
    requires HasItem(items, keep)
    ensures HasItem(others, keep)
  {
    var i :| 0 <= i < |items| && keep(items[i].key);
    assert items[i].key in KeysOf(others);
    var x :| x in others && x.key == items[i].key;
    var j :| 0 <= j < |others| && others[j] == x;
    assert keep(others[j].key);
  }

  lemma GroupingKeepsTotals(items: seq<Item>, groups: seq<Item>, keep: Key -> bool)
    requires IsGroupBy(items, groups)
    ensures Total(groups, keep) == Total(items, keep)
    ensures HasItem(groups, keep) <==> HasItem(items, keep)
  {
    GroupingKeepsTotal(items, groups, keep);
    if HasItem(items, keep) {
      SameKeysSameItems(items, groups, keep);
    }
    if HasItem(groups, keep) {
      SameKeysSameItems(groups, items, keep);
    }
  }

  /** A report that folds the groups folds the lines. */
  lemma GroupedMatchesLines(items: seq<Item>, groups: seq<Item>, r: Report)
    requires IsGroupBy(items, groups)
    requires Matches(groups, r)
    ensures Matches(items, r)
  {
    forall keep: Key -> bool
      ensures Total(groups, keep) == Total(items, keep) && (HasItem(groups, keep) <==> HasItem(items, keep))
    {
      GroupingKeepsTotals(items, groups, keep);
    }
    forall a | a in r.accounts ensures RowMatches(items, a, r.accounts[a]) {
      assert RowMatches(groups, a, r.accounts[a]);
    }
  }

  /** The database's side of the bargain, done by hand: a loop that groups. */
  method GroupBy(items: seq<Item>) returns (groups: seq<Item>)
    ensures IsGroupBy(items, groups)
  {
    groups := [];
    var i := 0;
    while i < |items|
      invariant 0 <= i <= |items|
      invariant IsGroupBy(items[..i], groups)
    {
      var x := items[i];
      ghost var before, formed := items[..i], groups;
      assert items[..i + 1] == before + [x];
      var j := 0;
      while j < |groups| && groups[j].key != x.key
        invariant 0 <= j <= |groups|
        invariant forall m | 0 <= m < j :: groups[m].key != x.key
      {
        j := j + 1;
      }
      if j < |groups| {
        groups := groups[j := Item(x.key, groups[j].totals.Plus(x.totals))];
        MergeGroup(before, formed, x, j);
      } else {
        groups := groups + [x];
        NewGroup(before, formed, x);
      }
      i := i + 1;
    }
    assert items[..|items|] == items;
  }

  lemma KeysAfterMerge(groups: seq<Item>, j: nat, merged: Item)
    requires j < |groups| && groups[j].key == merged.key
    ensures KeysOf(groups[j := merged]) == KeysOf(groups)
  {
    var after := groups[j := merged];
    forall k | k in KeysOf(groups) ensures k in KeysOf(after) {
      var m :| 0 <= m < |groups| && groups[m].key == k;
      assert after[m] in after && after[m].key == k;
    }
    forall k | k in KeysOf(after) ensures k in KeysOf(groups) {
      var m :| 0 <= m < |after| && after[m].key == k;
      assert groups[m] in groups && groups[m].key == k;
    }
  }

  lemma MergeGroup(items: seq<Item>, groups: seq<Item>, x: Item, j: nat)
    requires IsGroupBy(items, groups)
    requires j < |groups| && groups[j].key == x.key
    ensures IsGroupBy(items + [x], groups[j := Item(x.key, groups[j].totals.Plus(x.totals))])
  {
    var after := groups[j := Item(x.key, groups[j].totals.Plus(x.totals))];
    forall i | 0 <= i < |after| ensures after[i].totals == Total(items + [x], Exactly(after[i].key)) {
      TotalSnoc(items, x, Exactly(after[i].key));
    }
    KeysAfterMerge(groups, j, after[j]);
    KeysSnoc(items, x);
    assert groups[j] in groups;
  }

  lemma KeysSnoc(items: seq<Item>, x: Item)
    ensures KeysOf(items + [x]) == KeysOf(items) + {x.key}
  {
    forall k | k in KeysOf(items) + {x.key} ensures k in KeysOf(items + [x]) {
      if k in KeysOf(items) {
        var y :| y in items && y.key == k;
        assert y in items + [x];
      } else {
        assert x in items + [x];
      }
    }
  }

  lemma NoKeyNoItem(items: seq<Item>, groups: seq<Item>, k: Key)
    requires KeysOf(groups) == KeysOf(items)
    requires forall m | 0 <= m < |groups| :: groups[m].key != k
    ensures !HasItem(items, Exactly(k))
  {
    if HasItem(items, Exactly(k)) {
      SameKeysSameItems(items, groups, Exactly(k));
    }
  }

  lemma NewGroup(items: seq<Item>, groups: seq<Item>, x: Item)
    requires IsGroupBy(items, groups)
    requires forall m | 0 <= m < |groups| :: groups[m].key != x.key
    ensures IsGroupBy(items + [x], groups + [x])
  {
    KeysSnoc(items, x);
    KeysSnoc(groups, x);
    var after := groups + [x];
    NoKeyNoItem(items, groups, x.key);
    NoItemNoTotal(items, Exactly(x.key));
    forall i | 0 <= i < |after| ensures after[i].totals == Total(items + [x], Exactly(after[i].key)) {
      TotalSnoc(items, x, Exactly(after[i].key));
    }
  }

  // ---- The report ----

  lemma GroupGramsCounted(items: seq<Item>, groups: seq<Item>)
    requires GramsAreCounted(items)
    requires IsGroupBy(items, groups)
    ensures GramsAreCounted(groups)
  {
    forall g | g in groups && g.totals.metalLines == 0
      ensures g.totals.metalDebit == 0 && g.totals.metalCredit == 0
    {
      var i :| 0 <= i < |groups| && groups[i] == g;
      NoMetalNoGrams(items, Exactly(g.key));
    }
  }

  method Accumulated(groups: seq<Item>) returns (r: Report)
    requires GramsAreCounted(groups)
    ensures Matches(groups, r)
  {
    r := Report(map[], 0, 0, map[]);
    var i := 0;
    while i < |groups|
      invariant 0 <= i <= |groups|
      invariant Matches(groups[..i], r)
    {
      assert groups[..i + 1] == groups[..i] + [groups[i]];
      assert forall x | x in groups[..i + 1] :: x in groups;
      AccumulateKeepsMatches(groups[..i], groups[i], r);
      r := Accumulate(r, groups[i]);
      i := i + 1;
    }
    assert groups[..|groups|] == groups;
  }

  /** The grouped trial balance equals the line-by-line fold of the same lines. */
  method ComputeTrialBalance(entries: seq<Entry>, asOf: Date) returns (r: Report)
    ensures Matches(ItemsOf(LinesAsOf(entries, asOf)), r)
  {
    var items := ItemsOf(LinesAsOf(entries, asOf));
    var groups := GroupBy(items);
    GroupGramsCounted(items, groups);
    r := Accumulated(groups);
    GroupedMatchesLines(items, groups, r);
  }

  // ---- Every reachable journal balances, as of every date ----

  lemma {:induction false} NetOfBalancedEntries(entries: seq<Entry>, asOf: Date, net: Line -> int)
    requires forall e | e in entries :: Sum(e.fields.draft.lines, net) == 0
    ensures Sum(LinesAsOf(entries, asOf), net) == 0
  {
    if entries != [] {
      var n := |entries| - 1;
      NetOfBalancedEntries(entries[..n], asOf, net);
      var e := entries[n];
      assert e in entries;
      SumConcat(LinesAsOf(entries[..n], asOf),
                if e.fields.draft.date.Key() <= asOf.Key() then e.fields.draft.lines else [], net);
    }
  }

  lemma {:induction false} LinesComeFromEntries(entries: seq<Entry>, asOf: Date, l: Line)
    requires l in LinesAsOf(entries, asOf)
    ensures exists e :: e in entries && l in e.fields.draft.lines
  {
    var n := |entries| - 1;
    if l in LinesAsOf(entries[..n], asOf) {
      LinesComeFromEntries(entries[..n], asOf, l);
    } else {
      assert entries[n] in entries;
    }
  }

  function BucketNet(b: string): Line -> int {
    (l: Line) => if Bucket(l.karat) == b then l.metalDebit - l.metalCredit else 0
  }

  lemma {:induction false} TotalsAreSums(lines: seq<Line>, b: string, a: AccountId)
    ensures var t := Total(ItemsOf(lines), Everything()); t.baseDebit - t.baseCredit == Sum(lines, BaseNet)
    ensures var t := Total(ItemsOf(lines), AnyBucket(b)); t.metalDebit - t.metalCredit == Sum(lines, BucketNet(b))
    ensures var t := Total(ItemsOf(lines), OfAccount(a)); t.baseDebit - t.baseCredit == Sum(lines, AccountNet(a))
  {
    if lines != [] {
      var n := |lines| - 1;
      TotalsAreSums(lines[..n], b, a);
      assert ItemsOf(lines)[..n] == ItemsOf(lines[..n]);
    }
  }

  /** Whatever the date, the trial balance of balanced entries balances in USD and in each karat. */
  lemma ReportBalances(entries: seq<Entry>, asOf: Date, r: Report)
    requires AllBalanced(entries)
    requires Matches(ItemsOf(LinesAsOf(entries, asOf)), r)
    ensures r.IsBalanced() && r.IsMetalBalanced()
  {
    var lines := LinesAsOf(entries, asOf);
    NetOfBalancedEntries(entries, asOf, BaseNet);
    TotalsAreSums(lines, "", CASH);
    forall k | k in r.metal ensures r.metal[k].debit == r.metal[k].credit {
      NetOfBalancedEntries(entries, asOf, KaratNet(k));
      forall l | l in lines ensures BucketNet(k)(l) == KaratNet(k)(l) {
        LinesComeFromEntries(entries, asOf, l);
        var e :| e in entries && l in e.fields.draft.lines;
        assert EntryBalanced(e.fields.draft.lines);
      }
      SumEq(lines, BucketNet(k), KaratNet(k));
      TotalsAreSums(lines, k, CASH);
    }
  }

  /** Posting an entry and its reversal leaves every account's net as it was, in each dimension. */
  lemma ReversalRestoresReport(entries: seq<Entry>, e: Entry, rev: Entry, asOf: Date,
                               a: AccountId, currency: string, k: string)
    requires rev.fields.draft.lines == SwapAll(e.fields.draft.lines)
    requires e.fields.draft.date.Key() <= asOf.Key() && rev.fields.draft.date.Key() <= asOf.Key()
    ensures var before, after := LinesAsOf(entries, asOf), LinesAsOf(entries + [e, rev], asOf);
      && Sum(after, AccountNet(a)) == Sum(before, AccountNet(a))
      && Sum(after, AccountCurrencyNet(a, currency)) == Sum(before, AccountCurrencyNet(a, currency))
      && Sum(after, AccountKaratNet(a, k)) == Sum(before, AccountKaratNet(a, k))
  {
    var more := entries + [e, rev];
    assert more[..|entries| + 1] == entries + [e] && (entries + [e])[..|entries|] == entries;
    var lines := e.fields.draft.lines;
    assert LinesAsOf(more, asOf) == LinesAsOf(entries, asOf) + (lines + SwapAll(lines));
    ReversalCancels(lines, a, currency, k);
    SumConcat(LinesAsOf(entries, asOf), lines + SwapAll(lines), AccountNet(a));
    SumConcat(LinesAsOf(entries, asOf), lines + SwapAll(lines), AccountCurrencyNet(a, currency));
    SumConcat(LinesAsOf(entries, asOf), lines + SwapAll(lines), AccountKaratNet(a, k));
  }
}
