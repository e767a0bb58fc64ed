/** What the closed-year probe of the replay names (`_refuse_closed_years`). It puts each document through
    its mapper on the books as the earlier ones left them, so it says at each turn what that document does
    there; here is what that means for the documents as they stand before the run. */
module ClosedYearProbe {
  import opened Wrappers
  import opened Journal
  import opened GLChain
  import opened PostingEngine
  import opened Replay
  import opened Folds

  /** A probe: the books it starts from, what it is run over, and which steps are sales it posts. */
  datatype Probed = Probed(b: Books, steps: seq<Step>, actor: string, ids: seq<string>, closed: set<int>,
                           sales: set<nat>)
  {
    ghost predicate Sound() { Shaped() && Valid(b) && FreshIds(b, ids, 0) && SalesPost() }
    ghost predicate Shaped() { |steps| <= |ids| && OneStepEach() && OneOutcomeEach() && SalesAreSuspect() }

    /** `sales` are the unposted sales dated in a closed year whose entry the engine takes. */
    ghost predicate SalesPost()
      requires |steps| <= |ids|
    {
      forall k: nat | k < |steps| && steps[k].kind == SALE && Suspect(b, steps[k], closed) ::
        k in sales <==> Mapped(b, steps[k], actor, ids[k]).posted
    }
    ghost predicate SalesAreSuspect() {
      forall k | k in sales :: k < |steps| && steps[k].kind == SALE && Suspect(b, steps[k], closed)
    }

    /** `_order_steps` and `_document_steps` make one step per row, event or order. */
    ghost predicate OneStepEach() { forall i, j | 0 <= i < j < |steps| :: !SameDocument(steps[i], steps[j]) }

    /** An order with line refunds has no reversal step. */
    ghost predicate OneOutcomeEach() {
      forall i, j | 0 <= i < |steps| && 0 <= j < |steps|
                    && steps[i].kind == SALE_REVERSAL && steps[j].kind == LINE_REFUND ::
        steps[i].order != steps[j].order
    }

    // ---- What the documents say before the run ----

    /** Step `k` is the sale of `order`, and the probe posts it. */
    predicate SalePosts(k: nat, order: string)
      requires k < |steps|
    {
      k in sales && steps[k].source == order
    }

    /** The sale of a void or refund stands: it is in the GL unreversed, or an earlier step of the probe posts it. */
    ghost predicate SaleStands(i: nat)
      requires i < |steps| <= |ids|
    {
      Unreversed(b, steps[i].order) || SaleBefore(i, steps[i].order)
    }

    /** Some step before `n` posts the sale. */
    ghost predicate SaleBefore(n: nat, order: string)
      requires n <= |steps|
    {
      exists k: nat | k < n :: SalePosts(k, order)
    }

    /** The mapper gets past its lookups, to the month. */
    ghost predicate Reaches(i: nat)
      requires i < |steps| <= |ids|
    {
      Suspect(b, steps[i], closed) && if AfterSale(steps[i]) then SaleStands(i) else PeriodFirst(steps[i])
    }

    /** The document's month is missing, and no earlier document opens it. */
    ghost predicate MonthMissing(i: nat)
      requires i < |steps| <= |ids|
    {
      MonthOf(steps[i].bookedOn) !in b.periods && !OpenedBefore(i, MonthOf(steps[i].bookedOn))
    }
    ghost predicate OpenedBefore(n: nat, m: Month)
      requires n <= |steps| <= |ids|
    {
      exists j: nat | j < n :: Reaches(j) && MonthOf(steps[j].bookedOn) == m
    }

    ghost predicate Named(i: nat)
      requires i < |steps| <= |ids|
    {
      Reaches(i) && (AfterSale(steps[i]) || steps[i].lines != [] || MonthMissing(i))
    }

    // ---- What the probe keeps ----

    function At(n: nat): Books
      requires n <= |steps| <= |ids|
    {
      ProbeBooks(b, steps, actor, ids, closed, n)
    }

    ghost predicate Months(n: nat, now: Books)
      requires n <= |steps| <= |ids|
    {
      && (forall m: Month :: m in now.periods <==> m in b.periods || OpenedBefore(n, m))
      && forall m | m in now.periods && m !in b.periods :: now.periods[m] == OPEN
    }

    predicate LiveFrom(j: nat, t: SourceType, source: string)
      requires j < |steps| <= |ids|
    {
      && steps[j].kind != SALE_REVERSAL && SourceOf(steps[j].kind) == t && steps[j].source == source
      && (steps[j].kind == SALE ==> SalePosts(j, source))
    }
    /** Every source that became live did so by its own step. */
    ghost predicate Lives(n: nat, now: Books)
      requires n <= |steps| <= |ids|
    {
      forall t: SourceType, source: string | HasLive(now.gl.entries, t, source) && !HasLive(b.gl.entries, t, source) ::
        exists j: nat | j < n :: LiveFrom(j, t, source)
    }
    /** Every sale that became reversed did so by its own void. */
    ghost predicate Reversals(n: nat, now: Books)
      requires n <= |steps| <= |ids|
    {
      forall order: string | SaleReversed(now.gl.entries, order) && !SaleReversed(b.gl.entries, order) ::
        exists j: nat | j < n :: steps[j].kind == SALE_REVERSAL && steps[j].order == order
    }
    ghost predicate Sales(n: nat, now: Books)
      requires n <= |steps| <= |ids|
    {
      forall k: nat | k < n && SalePosts(k, steps[k].source) :: HasLive(now.gl.entries, ORDER, steps[k].source)
    }
    ghost predicate Base(n: nat, now: Books) {
      Valid(now) && FreshIds(now, ids, n) && Grown(b, now) && now.accounts == b.accounts
    }
    ghost predicate Inv(n: nat, now: Books)
      requires n <= |steps| <= |ids|
    {
      Base(n, now) && Months(n, now) && Lives(n, now) && Reversals(n, now) && Sales(n, now)
    }
  }

  predicate SameDocument(s: Step, t: Step) {
    s.kind == t.kind && if s.kind == SALE_REVERSAL then s.order == t.order else s.source == t.source
  }
  predicate Unreversed(b: Books, order: string) {
    HasLive(b.gl.entries, ORDER, order) && !SaleReversed(b.gl.entries, order)
  }

  // ---- A document at its turn, against the documents before the run ----

  lemma SameLive(c: Probed, i: nat, now: Books)
    requires i < |c.steps| <= |c.ids| && c.OneStepEach() && c.steps[i].kind != SALE_REVERSAL
    requires c.Lives(i, now) && Grown(c.b, now)
    ensures var st := c.steps[i];
      HasLive(now.gl.entries, SourceOf(st.kind), st.source) <==> HasLive(c.b.gl.entries, SourceOf(st.kind), st.source)
  {
    var st := c.steps[i];
    if HasLive(c.b.gl.entries, SourceOf(st.kind), st.source) {
      LiveStays(c.b.gl.entries, now.gl.entries, SourceOf(st.kind), st.source);
    }
    forall j: nat | j < i ensures !c.LiveFrom(j, SourceOf(st.kind), st.source) {
      OtherSource(c.steps[j], st);
    }
  }

  lemma OtherSource(s: Step, t: Step)
    requires !SameDocument(s, t) && t.kind != SALE_REVERSAL
    ensures s.kind == SALE_REVERSAL || SourceOf(s.kind) != SourceOf(t.kind) || s.source != t.source
  {
  }

  lemma SameReversed(c: Probed, i: nat, now: Books)
    requires c.Shaped() && i < |c.steps| && c.Reversals(i, now) && Grown(c.b, now) && AfterSale(c.steps[i])
    ensures SaleReversed(now.gl.entries, c.steps[i].order) <==> SaleReversed(c.b.gl.entries, c.steps[i].order)
  {
    var st := c.steps[i];
    if SaleReversed(c.b.gl.entries, st.order) {
      ReversedStays(c.b.gl.entries, now.gl.entries, st.order);
    }
    forall j: nat | j < i ensures !(c.steps[j].kind == SALE_REVERSAL && c.steps[j].order == st.order) {
      assert !SameDocument(c.steps[j], st);
    }
  }

  lemma SamePosted(c: Probed, i: nat, now: Books)
    requires c.Sound() && i < |c.steps| && c.Inv(i, now)
    ensures IsPosted(now.gl.entries, c.steps[i]) <==> IsPosted(c.b.gl.entries, c.steps[i])
    ensures Suspect(now, c.steps[i], c.closed) <==> Suspect(c.b, c.steps[i], c.closed)
  {
    if c.steps[i].kind == SALE_REVERSAL {
      SameReversed(c, i, now);
    } else {
      SameLive(c, i, now);
    }
  }

  lemma SameSale(c: Probed, i: nat, now: Books)
    requires c.Shaped() && i < |c.steps| && AfterSale(c.steps[i]) && Grown(c.b, now)
    requires c.Lives(i, now) && c.Reversals(i, now) && c.Sales(i, now)
    ensures Unreversed(now, c.steps[i].order) <==> c.SaleStands(i)
  {
    SameReversed(c, i, now);
    SaleLive(c, i, now, c.steps[i].order);
    if SaleReversed(c.b.gl.entries, c.steps[i].order) {
      NotAgain(c, i, c.steps[i].order);
    }
  }

  /** A sale is live at turn `i` if it was before the run or an earlier step posted it. */
  lemma SaleLive(c: Probed, i: nat, now: Books, order: string)
    requires i <= |c.steps| <= |c.ids| && Grown(c.b, now) && c.Lives(i, now) && c.Sales(i, now)
    ensures HasLive(now.gl.entries, ORDER, order) <==> HasLive(c.b.gl.entries, ORDER, order) || c.SaleBefore(i, order)
  {
    if HasLive(c.b.gl.entries, ORDER, order) {
      LiveStays(c.b.gl.entries, now.gl.entries, ORDER, order);
    } else if HasLive(now.gl.entries, ORDER, order) {
      var j: nat :| j < i && c.LiveFrom(j, ORDER, order);
      assert c.SalePosts(j, order);
    }
    forall k: nat | k < i && c.SalePosts(k, order) ensures HasLive(now.gl.entries, ORDER, order) {
      assert c.SalePosts(k, c.steps[k].source);
    }
  }

  /** A sale the GL holds is not posted again. */
  lemma NotAgain(c: Probed, i: nat, order: string)
    requires c.Shaped() && i <= |c.steps| && HasLive(c.b.gl.entries, ORDER, order)
    ensures !c.SaleBefore(i, order)
  {
    forall k: nat | k < i ensures !c.SalePosts(k, order) {
      assert c.steps[k].kind == SALE && c.steps[k].source == order ==> IsPosted(c.b.gl.entries, c.steps[k]);
    }
  }

  /** At its turn a document is named exactly when the documents before the run say so. */
  lemma NamedAtItsTurn(c: Probed, i: nat, now: Books)
    requires c.Sound() && i < |c.steps| && c.Inv(i, now)
    ensures Suspect(now, c.steps[i], c.closed) && Touches(now, c.steps[i], c.actor, c.ids[i]) <==> c.Named(i)
  {
    SamePosted(c, i, now);
    if AfterSale(c.steps[i]) {
      SameSale(c, i, now);
    }
    TouchesExactly(now, c.steps[i], c.actor, c.ids[i], c.closed);
  }

  /** What it takes to touch the books, for a document they do not hold. */
  lemma TouchesExactly(b: Books, st: Step, actor: string, id: string, closed: set<int>)
    ensures Suspect(b, st, closed) ==>
      (Touches(b, st, actor, id) <==>
       if AfterSale(st) then Unreversed(b, st.order)
       else PeriodFirst(st) && (st.lines != [] || MonthOf(st.bookedOn) !in b.periods))
  {
    var open := WithPeriod(b, st.bookedOn);
    assert open.periods != b.periods <==> MonthOf(st.bookedOn) !in b.periods;
  }

  // ---- One step of the probe ----

  /** The books after a suspect: the month is opened exactly when the mapper gets past its lookups. */
  lemma ProbedPeriods(b: Books, st: Step, actor: string, id: string, closed: set<int>)
    ensures ProbeStep(b, st, actor, id, closed).periods ==
      if Suspect(b, st, closed) && (if AfterSale(st) then Unreversed(b, st.order) else PeriodFirst(st))
      then WithPeriod(b, st.bookedOn).periods else b.periods
  {
    MapperShape(b, st, actor, id);
  }

  lemma StepKeepsMonths(c: Probed, i: nat, now: Books)
    requires c.Sound() && i < |c.steps| && c.Inv(i, now)
    ensures c.Months(i + 1, ProbeStep(now, c.steps[i], c.actor, c.ids[i], c.closed))
  {
    SamePosted(c, i, now);
    if AfterSale(c.steps[i]) {
      SameSale(c, i, now);
    }
    ProbedPeriods(now, c.steps[i], c.actor, c.ids[i], c.closed);
    OneMoreMonth(c, i, now, ProbeStep(now, c.steps[i], c.actor, c.ids[i], c.closed));
  }

  lemma OneMoreMonth(c: Probed, i: nat, now: Books, after: Books)
    requires i < |c.steps| <= |c.ids| && c.Months(i, now) && c.b.periods.Keys <= now.periods.Keys
    requires after.periods == if c.Reaches(i) then WithPeriod(now, c.steps[i].bookedOn).periods else now.periods
    ensures c.Months(i + 1, after)
  {
    var month := MonthOf(c.steps[i].bookedOn);
    forall m: Month ensures c.OpenedBefore(i + 1, m) <==> c.OpenedBefore(i, m) || (c.Reaches(i) && month == m) {
      if c.OpenedBefore(i, m) {
        var j: nat :| j < i && c.Reaches(j) && MonthOf(c.steps[j].bookedOn) == m;
      }
    }
  }

  /** Whether the engine takes a forward document does not depend on what the probe wrote before. */
  lemma SameVerdict(c: Probed, i: nat, now: Books)
    requires c.Shaped() && i < |c.steps| && !AfterSale(c.steps[i])
    requires Grown(c.b, now) && now.accounts == c.b.accounts && c.Months(i, now) && c.Lives(i, now)
    requires !HasLive(c.b.gl.entries, SourceOf(c.steps[i].kind), c.steps[i].source)
    ensures Mapped(now, c.steps[i], c.actor, c.ids[i]).posted <==> Mapped(c.b, c.steps[i], c.actor, c.ids[i]).posted
  {
    var st := c.steps[i];
    SameLive(c, i, now);
    SameMonth(c, i, now, st.bookedOn);
    PostsExactly(now, st, c.actor, c.ids[i]);
    PostsExactly(c.b, st, c.actor, c.ids[i]);
  }

  lemma SameMonth(c: Probed, i: nat, now: Books, d: Date)
    requires i <= |c.steps| <= |c.ids| && Grown(c.b, now) && c.Months(i, now)
    ensures WithPeriod(now, d).periods[MonthOf(d)] == WithPeriod(c.b, d).periods[MonthOf(d)]
  {
  }

  lemma PostsExactly(b: Books, st: Step, actor: string, id: string)
    requires !AfterSale(st) && !HasLive(b.gl.entries, SourceOf(st.kind), st.source)
    ensures Mapped(b, st, actor, id).posted <==>
      && PeriodFirst(st) && st.lines != [] && WithPeriod(b, st.bookedOn).periods[MonthOf(st.bookedOn)] == OPEN
      && (forall l | l in st.lines :: l.account in b.accounts && b.accounts[l.account].active)
      && Balanced(st.lines, Denominations(b.accounts))
  {
    AcceptedExactly(WithPeriod(b, st.bookedOn), DraftOf(st, actor), false);
  }

  /** The entry a posted document leaves. */
  lemma PostedEntry(now: Books, st: Step, actor: string, id: string)
    requires Mapped(now, st, actor, id).posted
    ensures var after := Mapped(now, st, actor, id).books;
      && |after.gl.entries| == |now.gl.entries| + 1 && now.gl.entries <= after.gl.entries
      && after.gl.entries[|now.gl.entries|].id == id
      && var d := after.gl.entries[|now.gl.entries|].fields.draft;
         if st.kind == SALE_REVERSAL then
           HasLive(now.gl.entries, ORDER, st.order)
           && d.reverses == Some(now.gl.entries[LiveIndex(now.gl.entries, ORDER, st.order)].id)
         else d == DraftOf(st, actor)
  {
    var open := WithPeriod(now, st.bookedOn);
    MapperShape(now, st, actor, id);
    if st.kind == SALE_REVERSAL {
      ReverseAppends(open, now.gl.entries[LiveIndex(now.gl.entries, ORDER, st.order)].id, st.bookedOn, actor, id);
    } else {
      PostAppends(open, DraftOf(st, actor), id);
    }
  }

  lemma NewLive(entries: seq<Entry>, more: seq<Entry>, t: SourceType, source: string)
    requires |more| == |entries| + 1 && entries <= more
    requires HasLive(more, t, source) && !HasLive(entries, t, source)
    ensures IsLiveFor(more[|entries|], t, source)
  {
    forall j | 0 <= j < |entries| ensures !IsLiveFor(more[j], t, source) {
      assert entries[j] == more[j];
    }
  }

  lemma StepKeepsLives(c: Probed, i: nat, now: Books)
    requires c.Sound() && i < |c.steps| && c.Inv(i, now)
    ensures c.Lives(i + 1, ProbeStep(now, c.steps[i], c.actor, c.ids[i], c.closed))
  {
    var st := c.steps[i];
    var after := ProbeStep(now, st, c.actor, c.ids[i], c.closed);
    MapperShape(now, st, c.actor, c.ids[i]);
    forall t: SourceType, source: string | HasLive(after.gl.entries, t, source) && !HasLive(c.b.gl.entries, t, source)
      ensures exists j: nat | j < i + 1 :: c.LiveFrom(j, t, source)
    {
      if HasLive(now.gl.entries, t, source) {
        var j: nat :| j < i && c.LiveFrom(j, t, source);
      } else {
        BecameLive(c, i, now, t, source);
      }
    }
  }

  lemma BecameLive(c: Probed, i: nat, now: Books, t: SourceType, source: string)
    requires c.Sound() && i < |c.steps| && c.Inv(i, now) && !HasLive(now.gl.entries, t, source)
    requires HasLive(ProbeStep(now, c.steps[i], c.actor, c.ids[i], c.closed).gl.entries, t, source)
    ensures c.LiveFrom(i, t, source)
  {
    var st := c.steps[i];
    MapperShape(now, st, c.actor, c.ids[i]);
    PostedEntry(now, st, c.actor, c.ids[i]);
    NewLive(now.gl.entries, ProbeStep(now, st, c.actor, c.ids[i], c.closed).gl.entries, t, source);
    SamePosted(c, i, now);
    if st.kind == SALE {
      SameVerdict(c, i, now);
    }
  }

  lemma StepKeepsSales(c: Probed, i: nat, now: Books)
    requires c.Sound() && i < |c.steps| && c.Inv(i, now)
    ensures c.Sales(i + 1, ProbeStep(now, c.steps[i], c.actor, c.ids[i], c.closed))
  {
    var st := c.steps[i];
    var after := ProbeStep(now, st, c.actor, c.ids[i], c.closed);
    MapperGrows(now, st, c.actor, c.ids[i]);
    forall k: nat | k < i + 1 && c.SalePosts(k, c.steps[k].source)
      ensures HasLive(after.gl.entries, ORDER, c.steps[k].source)
    {
      if k < i {
        LiveStays(now.gl.entries, after.gl.entries, ORDER, c.steps[k].source);
      } else {
        SamePosted(c, i, now);
        SameVerdict(c, i, now);
        PostedEntry(now, st, c.actor, c.ids[i]);
        assert IsLiveFor(after.gl.entries[|now.gl.entries|], ORDER, st.source);
      }
    }
  }

  /** A sale that a new entry reverses is the sale of the void that posted it. */
  lemma BecameReversed(c: Probed, i: nat, now: Books, order: string)
    requires c.Sound() && i < |c.steps| && c.Base(i, now) && Mapped(now, c.steps[i], c.actor, c.ids[i]).posted
    requires !SaleReversed(now.gl.entries, order)
    requires SaleReversed(Mapped(now, c.steps[i], c.actor, c.ids[i]).books.gl.entries, order)
    ensures c.steps[i].kind == SALE_REVERSAL && c.steps[i].order == order
  {
    var st, entries := c.steps[i], now.gl.entries;
    var more := Mapped(now, st, c.actor, c.ids[i]).books.gl.entries;
    PostedEntry(now, st, c.actor, c.ids[i]);
    var y := LiveIndex(more, ORDER, order);
    if HasLive(entries, ORDER, order) {
      LiveStays(entries, more, ORDER, order);
      OnlyNewReverses(entries, more, entries[y].id);
      SameEntry(entries, LiveIndex(entries, ORDER, st.order), y, st.order, order);
    } else {
      NewSaleIsUnreversed(now, more, order);
    }
  }

  /** A sale just posted is reversed by nothing: its id is new. */
  lemma NewSaleIsUnreversed(now: Books, more: seq<Entry>, order: string)
    requires var n := |now.gl.entries|;
      |more| == n + 1 && now.gl.entries <= more && Valid(now) && !HasId(now.gl.entries, more[n].id)
    requires !HasLive(now.gl.entries, ORDER, order)
    ensures !SaleReversed(more, order)
  {
    var entries, n := now.gl.entries, |now.gl.entries|;
    if HasLive(more, ORDER, order) {
      NewLive(entries, more, ORDER, order);
      var y := LiveIndex(more, ORDER, order);
      assert y == n by {
        assert forall j | 0 <= j < n :: !IsLiveFor(entries[j], ORDER, order) && more[j] == entries[j];
      }
      FreshIsUnreversed(now, more[n].id);
      assert forall j | 0 <= j < n :: more[j] == entries[j] && !Reverses(entries[j], more[n].id);
    }
  }

  /** The entry a void reverses is live for one order only. */
  lemma SameEntry(entries: seq<Entry>, x: nat, y: nat, mine: string, order: string)
    requires DistinctIds(entries) && x < |entries| && y < |entries| && entries[x].id == entries[y].id
    requires IsLiveFor(entries[x], ORDER, mine) && IsLiveFor(entries[y], ORDER, order)
    ensures mine == order
  {
    assert x == y;
  }

  lemma OnlyNewReverses(entries: seq<Entry>, more: seq<Entry>, id: string)
    requires |more| == |entries| + 1 && entries <= more && HasReversal(more, id) && !HasReversal(entries, id)
    ensures Reverses(more[|entries|], id)
  {
    forall j | 0 <= j < |entries| ensures !Reverses(more[j], id) {
      assert entries[j] == more[j];
    }
  }

  lemma FreshIsUnreversed(b: Books, id: string)
    requires Valid(b) && !HasId(b.gl.entries, id)
    ensures !HasReversal(b.gl.entries, id)
  {
    var entries := b.gl.entries;
    forall j | 0 <= j < |entries| && IsReversal(entries[j]) ensures !Reverses(entries[j], id) {
      var i :| 0 <= i < j && MirrorOfAt(entries, i, entries[j].fields.draft);
      assert entries[i].id != id;
    }
  }

  lemma StepKeepsReversals(c: Probed, i: nat, now: Books)
    requires c.Sound() && i < |c.steps| && c.Inv(i, now)
    ensures c.Reversals(i + 1, ProbeStep(now, c.steps[i], c.actor, c.ids[i], c.closed))
  {
    var st := c.steps[i];
    var after := ProbeStep(now, st, c.actor, c.ids[i], c.closed);
    MapperShape(now, st, c.actor, c.ids[i]);
    forall order: string | SaleReversed(after.gl.entries, order) && !SaleReversed(c.b.gl.entries, order)
      ensures exists j: nat | j < i + 1 :: c.steps[j].kind == SALE_REVERSAL && c.steps[j].order == order
    {
      if SaleReversed(now.gl.entries, order) {
        var j: nat :| j < i && c.steps[j].kind == SALE_REVERSAL && c.steps[j].order == order;
      } else {
        BecameReversed(c, i, now, order);
      }
    }
  }

  lemma StepKeepsBase(c: Probed, i: nat, now: Books)
    requires c.Sound() && i < |c.steps| && c.Base(i, now)
    ensures c.Base(i + 1, ProbeStep(now, c.steps[i], c.actor, c.ids[i], c.closed))
  {
    MapperKeepsValid(now, c.steps[i], c.actor, c.ids[i]);
    ProbeKeepsFresh(now, c.steps[i], c.actor, c.ids, i, c.closed);
    MapperGrows(now, c.steps[i], c.actor, c.ids[i]);
  }

  ghost predicate Kept(c: Probed, now: Books, i: nat) {
    c.Sound() && i <= |c.steps| && c.Inv(i, now)
  }
  ghost function KeptSoFar(c: Probed): (Books, nat) -> bool { (now: Books, i: nat) => Kept(c, now, i) }

  lemma TurnKeepsInv(c: Probed, i: nat, now: Books)
    requires i < |c.steps| <= |c.ids| && Kept(c, now, i)
    ensures Kept(c, ProbeLoop(c.steps, c.actor, c.ids, c.closed)(now, i), i + 1)
  {
    StepKeepsInv(c, i, now);
  }

  lemma ProbeKeepsInv(c: Probed, n: nat)
    requires n <= |c.steps| <= |c.ids| && Kept(c, c.b, 0)
    ensures Kept(c, c.At(n), n)
  {
    var f, keeps := ProbeLoop(c.steps, c.actor, c.ids, c.closed), KeptSoFar(c);
    forall now: Books, i: nat | i < n && keeps(now, i) ensures keeps(f(now, i), i + 1) {
      TurnKeepsInv(c, i, now);
    }
    IterateKeeps(f, c.b, n, keeps);
    assert keeps(c.At(n), n) == Kept(c, c.At(n), n);
  }

  lemma StepKeepsInv(c: Probed, i: nat, now: Books)
    requires c.Sound() && i < |c.steps| && c.Inv(i, now)
    ensures c.Inv(i + 1, ProbeStep(now, c.steps[i], c.actor, c.ids[i], c.closed))
  {
    StepKeepsBase(c, i, now);
    StepKeepsMonths(c, i, now);
    StepKeepsLives(c, i, now);
    StepKeepsReversals(c, i, now);
    StepKeepsSales(c, i, now);
  }

  lemma InvAtStart(c: Probed)
    requires c.Sound()
    ensures Kept(c, c.b, 0)
  {
  }

  // ---- The main results ----

  /** The probe names a document exactly when it is an unposted one of a closed year whose mapper gets past
      its lookups (for a void or refund: the sale stands) and it has something to reverse or post, or its
      month is missing and no earlier document opens it. */
  lemma NamedExactly(c: Probed, i: nat)
    requires c.Sound() && i < |c.steps|
    ensures Offends(c.b, c.steps, c.actor, c.ids, c.closed, i) <==> c.Named(i)
  {
    InvAtStart(c);
    ProbeKeepsInv(c, i);
    NamedAtItsTurn(c, i, c.At(i));
  }

  /** Document `i` would touch the books if it were the only one. */
  predicate WouldTouch(c: Probed, i: nat)
    requires i < |c.steps| <= |c.ids|
  {
    Suspect(c.b, c.steps[i], c.closed) && Touches(c.b, c.steps[i], c.actor, c.ids[i])
  }

  /** A document with nothing to post, in a missing month that an earlier document opens. */
  ghost predicate Hidden(c: Probed, i: nat)
    requires i < |c.steps| <= |c.ids|
  {
    var st := c.steps[i];
    && Suspect(c.b, st, c.closed) && !AfterSale(st) && PeriodFirst(st) && st.lines == []
    && MonthOf(st.bookedOn) !in c.b.periods && c.OpenedBefore(i, MonthOf(st.bookedOn))
  }

  /** Of the documents that would touch the books, the probe leaves out exactly the hidden ones. */
  lemma LeftOutExactly(c: Probed, i: nat)
    requires c.Sound() && i < |c.steps|
    ensures WouldTouch(c, i) && !Offends(c.b, c.steps, c.actor, c.ids, c.closed, i) <==> Hidden(c, i)
  {
    NamedExactly(c, i);
    TouchesExactly(c.b, c.steps[i], c.actor, c.ids[i], c.closed);
  }

  /** "Lists EVERY offender" holds exactly when no document is hidden by an earlier one. */
  lemma ListsEveryOffenderExactly(c: Probed)
    requires c.Sound()
    ensures (forall i: nat | i < |c.steps| && WouldTouch(c, i) :: Offends(c.b, c.steps, c.actor, c.ids, c.closed, i))
      <==> !exists i: nat | i < |c.steps| :: Hidden(c, i)
  {
    forall i: nat | i < |c.steps| { LeftOutExactly(c, i); }
  }
}
