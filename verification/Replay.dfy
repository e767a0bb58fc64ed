/** Historical replay (`app/core/gl_replay.py`): the documents of the past, sorted, handed one by one to
    their mappers inside one transaction that must never touch a closed fiscal year. A probe first
    collects every document of such a year that would post, open a period or be refused; then the loop
    runs, and the periods it opened are checked again. The functions say what a run makes of `Books`, the
    methods do that to a `Session`, and the lemmas about runs are about the functions. */
module Replay {
  import opened Wrappers
  import opened Sums
  import opened Folds
  import opened Journal
  import opened AuditChain
  import opened GLChain
  import opened PostingEngine
  import PeriodClose
  import Orders

  datatype Kind = SALE | SALE_REVERSAL | LINE_REFUND | PURCHASE | PAYMENT | WALK_IN | MELTING | LOT_LOSS

  /** The order of KIND_LABELS, which breaks ties between steps of the same instant. */
  function Rank(k: Kind): nat {
    match k
    case SALE => 0 case SALE_REVERSAL => 1 case LINE_REFUND => 2 case PURCHASE => 3
    case PAYMENT => 4 case WALK_IN => 5 case MELTING => 6 case LOT_LOSS => 7
  }

  function SourceOf(k: Kind): SourceType {
    match k
    case SALE => ORDER case SALE_REVERSAL => ORDER case LINE_REFUND => ORDER_REFUND
    case PURCHASE => SUPPLIER_PURCHASE case PAYMENT => SUPPLIER_PAYMENT
    case WALK_IN => BUYBACK case MELTING => MELT case LOT_LOSS => ADJUSTMENT
  }

  /** One document, or one refund event. `lines` is what its mapper builds ([] when there is nothing to
      post), `order` the order a reversal or refund belongs to, and `costAgrees` whether the metal cost
      posted is the one the sale stored. */
  datatype Step = Step(when: int, bookedOn: Date, kind: Kind, source: string, order: string, lines: seq<Line>,
                       costAgrees: bool)

  predicate AfterSale(st: Step) { st.kind == SALE_REVERSAL || st.kind == LINE_REFUND }
  /** A melt that changed nothing is recognised before its month is opened. */
  predicate PeriodFirst(st: Step) { st.kind != MELTING || st.lines != [] }

  // ---- The lookups of a step ----

  function LiveIndex(entries: seq<Entry>, t: SourceType, source: string): (i: nat)
    requires HasLive(entries, t, source)
    ensures i < |entries| && IsLiveFor(entries[i], t, source)
    ensures forall j | 0 <= j < i :: !IsLiveFor(entries[j], t, source)
  {
    if IsLiveFor(entries[0], t, source) then 0
    else
      assert HasLive(entries[1..], t, source) by {
        var j :| 0 <= j < |entries| && IsLiveFor(entries[j], t, source);
        assert entries[1..][j - 1] == entries[j];
      }
      var i := LiveIndex(entries[1..], t, source);
      assert forall j | 0 < j < |entries| :: entries[j] == entries[1..][j - 1];
      1 + i
  }

  /** The sale of an order was posted and then reversed in full. */
  predicate SaleReversed(entries: seq<Entry>, order: string) {
    HasLive(entries, ORDER, order) && HasReversal(entries, entries[LiveIndex(entries, ORDER, order)].id)
  }

  /** `posted`: does the GL already hold it? */
  predicate IsPosted(entries: seq<Entry>, st: Step) {
    if st.kind == SALE_REVERSAL then SaleReversed(entries, st.order)
    else HasLive(entries, SourceOf(st.kind), st.source)
  }

  // ---- The mappers ----

  /** ensure_period: a missing month is created open; an existing one is left as it is. */
  function WithPeriod(b: Books, d: Date): Books {
    if MonthOf(d) in b.periods then b else b.(periods := b.periods[MonthOf(d) := OPEN])
  }

  function DraftOf(st: Step, actor: string): Draft {
    Draft(st.bookedOn, "", SourceOf(st.kind), Some(st.source), None, actor, st.lines)
  }

  /** What a mapper leaves: whether it posted, and the refusal that stopped it, if any; a refused mapper
      may have opened the month. */
  datatype Attempt = Attempt(books: Books, posted: bool, refusal: Option<Refusal>)

  function FromOutcome(b: Books, r: Result<Books, Refusal>): Attempt {
    match r case Ok(after) => Attempt(after, true, None) case Err(e) => Attempt(b, false, Some(e))
  }

  function Mapped(b: Books, st: Step, actor: string, id: string): Attempt {
    if AfterSale(st) then
      if !HasLive(b.gl.entries, ORDER, st.order) || SaleReversed(b.gl.entries, st.order) then Attempt(b, false, None)
      else
        var open := WithPeriod(b, st.bookedOn);
        if st.kind == SALE_REVERSAL then
          var original := b.gl.entries[LiveIndex(b.gl.entries, ORDER, st.order)];
          FromOutcome(open, ReverseOutcome(open, original.id, st.bookedOn, "void", actor, id))
        else if HasLive(b.gl.entries, ORDER_REFUND, st.source) then Attempt(open, false, None)
        else FromOutcome(open, PostOutcome(open, DraftOf(st, actor), id, false))
    else if HasLive(b.gl.entries, SourceOf(st.kind), st.source) then Attempt(b, false, None)
    else if !PeriodFirst(st) then Attempt(b, false, None)
    else
      var open := WithPeriod(b, st.bookedOn);
      if st.lines == [] then Attempt(open, false, None)
      else FromOutcome(open, PostOutcome(open, DraftOf(st, actor), id, false))
  }

  // ---- What a mapper changes ----

  /** Entries are only appended, months only added. */
  ghost predicate Grown(b: Books, after: Books) {
    b.gl.entries <= after.gl.entries && b.periods.Keys <= after.periods.Keys
    && forall m | m in b.periods :: after.periods[m] == b.periods[m]
  }

  lemma GrownTwice(a: Books, b: Books, c: Books)
    requires Grown(a, b) && Grown(b, c)
    ensures Grown(a, c)
  {
  }

  lemma LiveStays(entries: seq<Entry>, more: seq<Entry>, t: SourceType, source: string)
    requires entries <= more && HasLive(entries, t, source)
    ensures HasLive(more, t, source) && LiveIndex(more, t, source) == LiveIndex(entries, t, source)
  {
    var i := LiveIndex(entries, t, source);
    assert more[i] == entries[i];
    assert forall j | 0 <= j < i :: more[j] == entries[j];
  }

  lemma ReversedStays(entries: seq<Entry>, more: seq<Entry>, order: string)
    requires entries <= more && SaleReversed(entries, order)
    ensures SaleReversed(more, order)
  {
    LiveStays(entries, more, ORDER, order);
    var i := LiveIndex(entries, ORDER, order);
    var j :| 0 <= j < |entries| && Reverses(entries[j], entries[i].id);
    assert Reverses(more[j], more[i].id);
  }

  /** Nothing more to do for this document, now or after anything else is posted. */
  ghost predicate Covered(b: Books, st: Step) {
    match st.kind
    case SALE_REVERSAL => SaleReversed(b.gl.entries, st.order)
    case LINE_REFUND => HasLive(b.gl.entries, ORDER_REFUND, st.source) || SaleReversed(b.gl.entries, st.order)
    case _ =>
      || HasLive(b.gl.entries, SourceOf(st.kind), st.source)
      || (st.lines == [] && (!PeriodFirst(st) || MonthOf(st.bookedOn) in b.periods))
  }

  lemma CoveredStays(b: Books, after: Books, st: Step)
    requires Covered(b, st) && Grown(b, after)
    ensures Covered(after, st)
  {
    if SaleReversed(b.gl.entries, st.order) {
      ReversedStays(b.gl.entries, after.gl.entries, st.order);
    }
    if HasLive(b.gl.entries, SourceOf(st.kind), st.source) {
      LiveStays(b.gl.entries, after.gl.entries, SourceOf(st.kind), st.source);
    }
  }

  lemma CoveredIsIdle(b: Books, st: Step, actor: string, id: string)
    requires Covered(b, st) && !IsPosted(b.gl.entries, st)
    ensures Mapped(b, st, actor, id) == Attempt(b, false, None)
  {
  }

  /** An accepted posting appends the draft's entry and leaves periods and accounts alone. */
  ghost predicate Appended(b: Books, after: Books, id: string, date: Date) {
    && |after.gl.entries| == |b.gl.entries| + 1 && after.gl.entries[..|b.gl.entries|] == b.gl.entries
    && after.gl.entries[|b.gl.entries|].id == id && after.gl.entries[|b.gl.entries|].fields.draft.date == date
    && after.gl.entries[|b.gl.entries|].fields.draft.sourceType != OPENING
    && after.periods == b.periods && after.accounts == b.accounts
  }

  lemma PostAppends(b: Books, d: Draft, id: string)
    requires PostOutcome(b, d, id, false).Ok? && d.sourceType != OPENING
    ensures var after := PostOutcome(b, d, id, false).value;
      Appended(b, after, id, d.date) && after.gl.entries[|b.gl.entries|].fields.draft == d
  {
  }

  lemma ReverseAppends(b: Books, originalId: string, date: Date, actor: string, id: string)
    requires ReverseOutcome(b, originalId, date, "void", actor, id).Ok?
    ensures var after := ReverseOutcome(b, originalId, date, "void", actor, id).value;
      Appended(b, after, id, date) && after.gl.entries[|b.gl.entries|].fields.draft.reverses == Some(originalId)
  {
    var original := b.gl.entries[IndexOf(b.gl.entries, originalId)];
    PostAppends(b, ReversalDraft(original, date, "void", actor), id);
  }

  /** What a mapper does to the books: nothing, or the month opened, or that and one entry. */
  ghost predicate Shape(b: Books, st: Step, id: string, a: Attempt) {
    if a.posted then a.refusal == None && Appended(WithPeriod(b, st.bookedOn), a.books, id, st.bookedOn)
    else a.books == b || a.books == WithPeriod(b, st.bookedOn)
  }

  lemma PostShape(open: Books, st: Step, actor: string, id: string)
    ensures PostsOrStays(open, FromOutcome(open, PostOutcome(open, DraftOf(st, actor), id, false)), id, st.bookedOn)
  {
    var r := PostOutcome(open, DraftOf(st, actor), id, false);
    if r.Ok? {
      PostAppends(open, DraftOf(st, actor), id);
    }
    OutcomeShape(open, r, id, st.bookedOn);
  }

  ghost predicate PostsOrStays(open: Books, a: Attempt, id: string, date: Date) {
    if a.posted then a.refusal == None && Appended(open, a.books, id, date) else a.books == open
  }

  lemma OutcomeShape(open: Books, r: Result<Books, Refusal>, id: string, date: Date)
    requires r.Ok? ==> Appended(open, r.value, id, date)
    ensures PostsOrStays(open, FromOutcome(open, r), id, date)
  {
  }

  lemma ReverseShape(open: Books, originalId: string, st: Step, actor: string, id: string)
    ensures PostsOrStays(open, FromOutcome(open, ReverseOutcome(open, originalId, st.bookedOn, "void", actor, id)), id,
                         st.bookedOn)
  {
    var r := ReverseOutcome(open, originalId, st.bookedOn, "void", actor, id);
    if r.Ok? {
      ReverseAppends(open, originalId, st.bookedOn, actor, id);
    }
    OutcomeShape(open, r, id, st.bookedOn);
  }

  lemma MapperShape(b: Books, st: Step, actor: string, id: string)
    ensures Shape(b, st, id, Mapped(b, st, actor, id))
  {
    var open := WithPeriod(b, st.bookedOn);
    PostShape(open, st, actor, id);
    if st.kind == SALE_REVERSAL && HasLive(b.gl.entries, ORDER, st.order) {
      ReverseShape(open, b.gl.entries[LiveIndex(b.gl.entries, ORDER, st.order)].id, st, actor, id);
    }
  }

  lemma MapperGrows(b: Books, st: Step, actor: string, id: string)
    ensures Grown(b, Mapped(b, st, actor, id).books)
    ensures Mapped(b, st, actor, id).books.accounts == b.accounts
  {
    MapperShape(b, st, actor, id);
  }

  /** A document that was posted is covered from then on. */
  lemma PostedIsCovered(b: Books, st: Step, actor: string, id: string)
    requires Mapped(b, st, actor, id).posted
    ensures Covered(Mapped(b, st, actor, id).books, st)
  {
    var after, open, n := Mapped(b, st, actor, id).books, WithPeriod(b, st.bookedOn), |b.gl.entries|;
    MapperShape(b, st, actor, id);
    if st.kind == SALE_REVERSAL {
      var i := LiveIndex(b.gl.entries, ORDER, st.order);
      ReverseAppends(open, b.gl.entries[i].id, st.bookedOn, actor, id);
      LiveStays(b.gl.entries, after.gl.entries, ORDER, st.order);
      assert Reverses(after.gl.entries[n], b.gl.entries[i].id);
    } else {
      PostAppends(open, DraftOf(st, actor), id);
      assert IsLiveFor(after.gl.entries[n], SourceOf(st.kind), st.source);
    }
  }

  // ---- One step of the replay ----

  datatype Mark = ALREADY | NOTHING | POSTED
  datatype StepError = MapperRefused(why: Refusal) | CostDiffers | EntryInClosedYear

  function RunStep(b: Books, st: Step, actor: string, id: string, closed: set<int>): Result<(Books, Mark), StepError> {
    if IsPosted(b.gl.entries, st) then Ok((b, ALREADY))
    else
      var a := Mapped(b, st, actor, id);
      if a.refusal.Some? then Err(MapperRefused(a.refusal.value))
      else if !a.posted then Ok((a.books, NOTHING))
      else if !st.costAgrees then Err(CostDiffers)
      else if st.bookedOn.year in closed then Err(EntryInClosedYear)
      else Ok((a.books, POSTED))
  }

  lemma CoveredRunsIdle(b: Books, st: Step, actor: string, id: string, closed: set<int>)
    requires Covered(b, st)
    ensures RunStep(b, st, actor, id, closed).Ok?
    ensures RunStep(b, st, actor, id, closed).value.0 == b && RunStep(b, st, actor, id, closed).value.1 != POSTED
  {
    if !IsPosted(b.gl.entries, st) {
      CoveredIsIdle(b, st, actor, id);
    }
  }

  /** After an accepted step its document is covered, provided the order's sale is in the GL when the
      step is a void or a refund. */
  lemma StepCovers(b: Books, st: Step, actor: string, id: string, closed: set<int>)
    requires RunStep(b, st, actor, id, closed).Ok?
    requires AfterSale(st) ==> HasLive(b.gl.entries, ORDER, st.order)
    ensures Covered(RunStep(b, st, actor, id, closed).value.0, st)
    ensures Grown(b, RunStep(b, st, actor, id, closed).value.0)
  {
    if !IsPosted(b.gl.entries, st) {
      MapperGrows(b, st, actor, id);
      if Mapped(b, st, actor, id).posted {
        PostedIsCovered(b, st, actor, id);
      }
    }
  }

  // ---- The loop ----

  datatype Counts = Counts(already: nat, nothing: nat, posted: nat) {
    function Plus(m: Mark): Counts {
      match m
      case ALREADY => this.(already := already + 1)
      case NOTHING => this.(nothing := nothing + 1)
      case POSTED => this.(posted := posted + 1)
    }
  }
  datatype Failed = Failed(step: Step, why: StepError)

  type Run = (Books, Counts)

  function LoopStep(steps: seq<Step>, actor: string, ids: seq<string>, closed: set<int>)
    : (Run, nat) -> Result<Run, Failed>
    requires |steps| <= |ids|
  {
    (run: Run, i: nat) =>
      if i >= |steps| then Ok(run)
      else
        match RunStep(run.0, steps[i], actor, ids[i], closed)
        case Ok(r) => Ok((r.0, run.1.Plus(r.1)))
        case Err(e) => Err(Failed(steps[i], e))
  }

  /** The first `n` steps, in order; the first failure stops the run. */
  function RunSteps(b: Books, steps: seq<Step>, actor: string, ids: seq<string>, closed: set<int>, n: nat)
    : Result<Run, Failed>
    requires n <= |steps| <= |ids|
  {
    Fold(LoopStep(steps, actor, ids, closed), (b, Counts(0, 0, 0)), n)
  }

  // ---- The sort ----

  predicate NotAfter(s: Step, t: Step) { s.when < t.when || (s.when == t.when && Rank(s.kind) <= Rank(t.kind)) }
  ghost predicate SortedSteps(steps: seq<Step>) { forall i, j | 0 <= i < j < |steps| :: NotAfter(steps[i], steps[j]) }

  function InsertStep(steps: seq<Step>, st: Step): (r: seq<Step>)
    ensures multiset(r) == multiset(steps) + multiset{st} && |r| == |steps| + 1
  {
    var n := |steps| - 1;
    if steps == [] || NotAfter(steps[n], st) then steps + [st]
    else
      assert steps == steps[..n] + [steps[n]];
      InsertStep(steps[..n], st) + [steps[n]]
  }

  lemma {:induction false} InsertKeepsSorted(steps: seq<Step>, st: Step)
    requires SortedSteps(steps)
    ensures SortedSteps(InsertStep(steps, st))
  {
    var n := |steps| - 1;
    if steps == [] || NotAfter(steps[n], st) {
      forall i | 0 <= i < |steps| ensures NotAfter(steps[i], st) {
      }
    } else {
      InsertKeepsSorted(steps[..n], st);
      var head := InsertStep(steps[..n], st);
      forall i | 0 <= i < |head| ensures NotAfter(head[i], steps[n]) {
        assert head[i] in multiset(head);
        assert head[i] == st || head[i] in multiset(steps[..n]);
      }
    }
  }

  /** `steps.sort(key=(when, rank))` */
  function Sorted(steps: seq<Step>): (r: seq<Step>)
    ensures multiset(r) == multiset(steps) && |r| == |steps|
  {
    if steps == [] then []
    else
      assert steps == steps[..|steps| - 1] + [steps[|steps| - 1]];
      InsertStep(Sorted(steps[..|steps| - 1]), steps[|steps| - 1])
  }

  lemma {:induction false} SortedIsChronological(steps: seq<Step>)
    ensures SortedSteps(Sorted(steps))
  {
    if steps != [] {
      SortedIsChronological(steps[..|steps| - 1]);
      InsertKeepsSorted(Sorted(steps[..|steps| - 1]), steps[|steps| - 1]);
    }
  }

  lemma SameMembers(steps: seq<Step>, st: Step)
    ensures st in Sorted(steps) <==> st in steps
  {
    assert st in multiset(Sorted(steps)) <==> st in Sorted(steps);
    assert st in multiset(steps) <==> st in steps;
  }

  predicate SameKey(s: Step, t: Step) { s.when == t.when && Rank(s.kind) == Rank(t.kind) }

  /** The steps with the sort key of `st`, in order. */
  function Alike(steps: seq<Step>, st: Step): seq<Step> {
    if steps == [] then []
    else
      var n := |steps| - 1;
      Alike(steps[..n], st) + if SameKey(steps[n], st) then [steps[n]] else []
  }

  lemma AlikeSnoc(steps: seq<Step>, x: Step, st: Step)
    ensures Alike(steps + [x], st) == Alike(steps, st) + if SameKey(x, st) then [x] else []
  {
    assert (steps + [x])[..|steps|] == steps;
  }

  lemma {:induction false} InsertIsStable(steps: seq<Step>, x: Step, st: Step)
    ensures Alike(InsertStep(steps, x), st) == Alike(steps, st) + if SameKey(x, st) then [x] else []
  {
    var n := |steps| - 1;
    if steps == [] || NotAfter(steps[n], x) {
      AlikeSnoc(steps, x, st);
    } else {
      InsertIsStable(steps[..n], x, st);
      AlikeSnoc(InsertStep(steps[..n], x), steps[n], st);
    }
  }

  /** The sort is stable: documents of the same instant and kind keep the order they were read in. */
  lemma {:induction false} SortIsStable(steps: seq<Step>, st: Step)
    ensures Alike(Sorted(steps), st) == Alike(steps, st)
  {
    if steps != [] {
      SortIsStable(steps[..|steps| - 1], st);
      InsertIsStable(Sorted(steps[..|steps| - 1]), steps[|steps| - 1], st);
    }
  }

  /** The sort of replay_history. */
  method SortSteps(steps: seq<Step>) returns (sorted: seq<Step>)
    ensures sorted == Sorted(steps) && SortedSteps(sorted)
  {
    sorted := [];
    var i := 0;
    while i < |steps|
      invariant 0 <= i <= |steps|
      invariant sorted == Sorted(steps[..i])
    {
      OneMore(steps, i);
      sorted := InsertStep(sorted, steps[i]);
      i := i + 1;
    }
    assert steps[..|steps|] == steps;
    SortedIsChronological(steps);
  }

  predicate IsSaleOf(sale: Step, st: Step) {
    sale.kind == SALE && sale.source == st.order && sale.lines != [] && sale.when <= st.when
  }
  ghost predicate HasSale(steps: seq<Step>, st: Step) { exists sale | sale in steps :: IsSaleOf(sale, st) }

  /** Every void and refund has its order's sale among the documents, dated no later. */
  ghost predicate DatedAfterSale(steps: seq<Step>) {
    forall st | st in steps && AfterSale(st) :: HasSale(steps, st)
  }

  /** Then the sort puts every sale before its own void or refunds. */
  lemma SaleComesFirst(steps: seq<Step>, j: nat) returns (i: nat)
    requires SortedSteps(steps) && DatedAfterSale(steps) && j < |steps| && AfterSale(steps[j])
    ensures i < j && IsSaleOf(steps[i], steps[j])
  {
    assert HasSale(steps, steps[j]);
    var sale :| sale in steps && IsSaleOf(sale, steps[j]);
    i :| 0 <= i < |steps| && steps[i] == sale;
    assert forall k | j < k < |steps| :: NotAfter(steps[j], steps[k]);
  }

  lemma SortKeepsDating(steps: seq<Step>, sorted: seq<Step>)
    requires multiset(sorted) == multiset(steps) && DatedAfterSale(steps)
    ensures DatedAfterSale(sorted)
  {
    forall st | st in sorted && AfterSale(st) ensures HasSale(sorted, st) {
      assert st in multiset(sorted) && st in steps;
      assert HasSale(steps, st);
      var sale :| sale in steps && IsSaleOf(sale, st);
      assert sale in multiset(steps) && sale in sorted;
    }
  }

  // ---- Nothing is dropped ----

  ghost predicate AllCovered(b: Books, steps: seq<Step>, n: nat)
    requires n <= |steps|
  {
    forall k | 0 <= k < n :: Covered(b, steps[k])
  }

  lemma NextCovered(b: Books, now: Books, after: Books, steps: seq<Step>, n: nat)
    requires 0 < n <= |steps| && AllCovered(now, steps, n - 1) && Grown(b, now) && Grown(now, after)
    requires Covered(after, steps[n - 1])
    ensures AllCovered(after, steps, n) && Grown(b, after)
  {
    GrownTwice(b, now, after);
    forall k | 0 <= k < n - 1 ensures Covered(after, steps[k]) {
      CoveredStays(now, after, steps[k]);
    }
  }

  lemma SaleIsPosted(now: Books, steps: seq<Step>, j: nat)
    requires SortedSteps(steps) && DatedAfterSale(steps) && j < |steps| && AfterSale(steps[j])
    requires AllCovered(now, steps, j)
    ensures HasLive(now.gl.entries, ORDER, steps[j].order)
  {
    var i := SaleComesFirst(steps, j);
    assert Covered(now, steps[i]);
  }

  ghost function CoversSoFar(b: Books, steps: seq<Step>): (Run, nat) -> bool {
    (run: Run, i: nat) => i <= |steps| && AllCovered(run.0, steps, i) && Grown(b, run.0)
  }

  lemma LoopStepCovers(b: Books, steps: seq<Step>, actor: string, ids: seq<string>, closed: set<int>, run: Run, i: nat)
    requires i < |steps| <= |ids| && SortedSteps(steps) && DatedAfterSale(steps)
    requires AllCovered(run.0, steps, i) && Grown(b, run.0)
    requires RunStep(run.0, steps[i], actor, ids[i], closed).Ok?
    ensures var after := RunStep(run.0, steps[i], actor, ids[i], closed).value.0;
      AllCovered(after, steps, i + 1) && Grown(b, after)
  {
    if AfterSale(steps[i]) {
      SaleIsPosted(run.0, steps, i);
    }
    StepCovers(run.0, steps[i], actor, ids[i], closed);
    NextCovered(b, run.0, RunStep(run.0, steps[i], actor, ids[i], closed).value.0, steps, i + 1);
  }

  /** After the loop no document is left over: each is in the GL, or has nothing to post, or is a refund
      of a sale already reversed in full. */
  lemma LoopCoversAll(b: Books, steps: seq<Step>, actor: string, ids: seq<string>, closed: set<int>, n: nat)
    requires n <= |steps| <= |ids| && SortedSteps(steps) && DatedAfterSale(steps)
    requires RunSteps(b, steps, actor, ids, closed, n).Ok?
    ensures AllCovered(RunSteps(b, steps, actor, ids, closed, n).value.0, steps, n)
    ensures Grown(b, RunSteps(b, steps, actor, ids, closed, n).value.0)
  {
    var f, keeps := LoopStep(steps, actor, ids, closed), CoversSoFar(b, steps);
    forall run: Run, i: nat | i < n && keeps(run, i) && f(run, i).Ok? ensures keeps(f(run, i).value, i + 1) {
      LoopStepCovers(b, steps, actor, ids, closed, run, i);
    }
    assert Grown(b, b) && AllCovered(b, steps, 0);
    assert keeps((b, Counts(0, 0, 0)), 0);
    FoldKeeps(f, (b, Counts(0, 0, 0)), n, keeps);
  }

  /** A run over covered documents changes nothing and posts nothing. */
  lemma CoveredLoopIsIdle(b: Books, steps: seq<Step>, actor: string, ids: seq<string>, closed: set<int>, n: nat)
    requires n <= |steps| <= |ids| && AllCovered(b, steps, n)
    ensures RunSteps(b, steps, actor, ids, closed, n).Ok?
    ensures var (after, counts) := RunSteps(b, steps, actor, ids, closed, n).value; after == b && counts.posted == 0
  {
    var f := LoopStep(steps, actor, ids, closed);
    var keeps := (run: Run, i: nat) => run.0 == b && run.1.posted == 0;
    forall run: Run, i: nat | i < n && keeps(run, i) ensures f(run, i).Ok? && keeps(f(run, i).value, i + 1) {
      CoveredRunsIdle(b, steps[i], actor, ids[i], closed);
    }
    FoldRuns(f, (b, Counts(0, 0, 0)), n, keeps);
  }

  // ---- The closed-year probe ----

  /** Put through its mapper here, would the document post, open a month, or be refused? */
  predicate Touches(b: Books, st: Step, actor: string, id: string) {
    var a := Mapped(b, st, actor, id);
    a.refusal.Some? || a.posted || a.books.periods != b.periods
  }

  predicate Suspect(b: Books, st: Step, closed: set<int>) { st.bookedOn.year in closed && !IsPosted(b.gl.entries, st) }

  function ProbeStep(b: Books, st: Step, actor: string, id: string, closed: set<int>): Books {
    if Suspect(b, st, closed) then Mapped(b, st, actor, id).books else b
  }

  function ProbeLoop(steps: seq<Step>, actor: string, ids: seq<string>, closed: set<int>): (Books, nat) -> Books
    requires |steps| <= |ids|
  {
    (b: Books, i: nat) => if i < |steps| then ProbeStep(b, steps[i], actor, ids[i], closed) else b
  }

  /** The books as the probe finds them at step `n`: what it wrote for earlier steps is still there. */
  function ProbeBooks(b: Books, steps: seq<Step>, actor: string, ids: seq<string>, closed: set<int>, n: nat): Books
    requires n <= |steps| <= |ids|
  {
    Iterate(ProbeLoop(steps, actor, ids, closed), b, n)
  }

  /** Named at its own turn. */
  predicate Offends(b: Books, steps: seq<Step>, actor: string, ids: seq<string>, closed: set<int>, i: nat)
    requires i < |steps| <= |ids|
  {
    var now := ProbeBooks(b, steps, actor, ids, closed, i);
    Suspect(now, steps[i], closed) && Touches(now, steps[i], actor, ids[i])
  }

  lemma UntouchedIsUnchanged(b: Books, st: Step, actor: string, id: string)
    requires !Touches(b, st, actor, id)
    ensures Mapped(b, st, actor, id).books == b
  {
    MapperShape(b, st, actor, id);
  }

  lemma IdleProbeStep(b: Books, st: Step, actor: string, id: string, closed: set<int>)
    requires !(Suspect(b, st, closed) && Touches(b, st, actor, id))
    ensures ProbeStep(b, st, actor, id, closed) == b
  {
    if Suspect(b, st, closed) {
      UntouchedIsUnchanged(b, st, actor, id);
    }
  }

  lemma IdleProbe(b: Books, steps: seq<Step>, actor: string, ids: seq<string>, closed: set<int>, n: nat)
    requires n <= |steps| <= |ids|
    requires forall i: nat | i < n :: !(Suspect(b, steps[i], closed) && Touches(b, steps[i], actor, ids[i]))
    ensures ProbeBooks(b, steps, actor, ids, closed, n) == b
  {
    forall i: nat | i < n ensures ProbeLoop(steps, actor, ids, closed)(b, i) == b {
      IdleProbeStep(b, steps[i], actor, ids[i], closed);
    }
    IterateIdle(ProbeLoop(steps, actor, ids, closed), b, n);
  }

  /** While nobody has offended, the probe has changed nothing. */
  lemma {:induction false} QuietProbe(b: Books, steps: seq<Step>, actor: string, ids: seq<string>, closed: set<int>,
                                      n: nat)
    requires n <= |steps| <= |ids|
    requires forall i: nat | i < n :: !Offends(b, steps, actor, ids, closed, i)
    ensures forall i: nat | i < n :: !(Suspect(b, steps[i], closed) && Touches(b, steps[i], actor, ids[i]))
    ensures ProbeBooks(b, steps, actor, ids, closed, n) == b
  {
    if n > 0 {
      QuietProbe(b, steps, actor, ids, closed, n - 1);
      assert !Offends(b, steps, actor, ids, closed, n - 1);
    }
    IdleProbe(b, steps, actor, ids, closed, n);
  }

  /** The probe names nobody exactly when no unposted document of a closed year would post, open a month
      or be refused; and then it has changed nothing. */
  lemma ProbeIsExact(b: Books, steps: seq<Step>, actor: string, ids: seq<string>, closed: set<int>)
    requires |steps| <= |ids|
    ensures (forall i: nat | i < |steps| :: !Offends(b, steps, actor, ids, closed, i)) <==>
            (forall i: nat | i < |steps| :: !(Suspect(b, steps[i], closed) && Touches(b, steps[i], actor, ids[i])))
    ensures (forall i: nat | i < |steps| :: !Offends(b, steps, actor, ids, closed, i)) ==>
            ProbeBooks(b, steps, actor, ids, closed, |steps|) == b
  {
    if forall i: nat | i < |steps| :: !Offends(b, steps, actor, ids, closed, i) {
      QuietProbe(b, steps, actor, ids, closed, |steps|);
    }
    if forall i: nat | i < |steps| :: !(Suspect(b, steps[i], closed) && Touches(b, steps[i], actor, ids[i])) {
      forall i: nat | i < |steps| ensures !Offends(b, steps, actor, ids, closed, i) {
        IdleProbe(b, steps, actor, ids, closed, i);
      }
    }
  }

  /** The list is not every document that would have touched the year: of two purchases with nothing to
      post in the same missing month, the first opens it and is named, the second is not. */
  lemma SecondEmptyPurchaseIsNotNamed(b: Books, p: Step, q: Step, actor: string, ids: seq<string>, closed: set<int>)
    requires |ids| >= 2 && p.kind == PURCHASE && q.kind == PURCHASE && p.lines == [] && q.lines == []
    requires p.bookedOn == q.bookedOn && p.bookedOn.year in closed && MonthOf(p.bookedOn) !in b.periods
    requires !IsPosted(b.gl.entries, p) && !IsPosted(b.gl.entries, q)
    ensures Suspect(b, q, closed) && Touches(b, q, actor, ids[1])
    ensures Offends(b, [p, q], actor, ids, closed, 0) && !Offends(b, [p, q], actor, ids, closed, 1)
  {
    var steps := [p, q];
    assert ProbeBooks(b, steps, actor, ids, closed, 0) == b;
    assert Mapped(b, p, actor, ids[0]).books == WithPeriod(b, p.bookedOn);
    assert ProbeBooks(b, steps, actor, ids, closed, 1) == WithPeriod(b, p.bookedOn);
  }

  // ---- The books stay valid ----

  ghost predicate FreshIds(b: Books, ids: seq<string>, from: nat) {
    && (forall i, j | 0 <= i < j < |ids| :: ids[i] != ids[j])
    && forall i | from <= i < |ids| :: !HasId(b.gl.entries, ids[i])
  }

  lemma PeriodKeepsValid(b: Books, d: Date)
    requires Valid(b)
    ensures Valid(WithPeriod(b, d))
  {
  }

  /** The posting a mapper makes once the month is open. */
  function Sent(b: Books, open: Books, st: Step, actor: string, id: string): Result<Books, Refusal> {
    if st.kind != SALE_REVERSAL then PostOutcome(open, DraftOf(st, actor), id, false)
    else if !HasLive(b.gl.entries, ORDER, st.order) then Err(EntryNotFound)
    else ReverseOutcome(open, b.gl.entries[LiveIndex(b.gl.entries, ORDER, st.order)].id, st.bookedOn, "void", actor, id)
  }

  lemma PostedIsSent(b: Books, st: Step, actor: string, id: string)
    requires Mapped(b, st, actor, id).posted
    ensures Sent(b, WithPeriod(b, st.bookedOn), st, actor, id) == Ok(Mapped(b, st, actor, id).books)
  {
  }

  lemma SentKeepsValid(b: Books, open: Books, st: Step, actor: string, id: string)
    requires Valid(open) && !HasId(open.gl.entries, id) && Sent(b, open, st, actor, id).Ok?
    ensures Valid(Sent(b, open, st, actor, id).value)
  {
    if st.kind == SALE_REVERSAL {
      var original := b.gl.entries[LiveIndex(b.gl.entries, ORDER, st.order)];
      ReverseKeepsValid(open, original.id, st.bookedOn, "void", actor, id);
    } else {
      PostKeepsValid(open, DraftOf(st, actor), id, false);
    }
  }

  lemma MapperKeepsValid(b: Books, st: Step, actor: string, id: string)
    requires Valid(b) && !HasId(b.gl.entries, id)
    ensures Valid(Mapped(b, st, actor, id).books)
  {
    MapperShape(b, st, actor, id);
    PeriodKeepsValid(b, st.bookedOn);
    if Mapped(b, st, actor, id).posted {
      PostedIsSent(b, st, actor, id);
      SentKeepsValid(b, WithPeriod(b, st.bookedOn), st, actor, id);
    }
  }

  lemma IdsStayFresh(b: Books, after: Books, ids: seq<string>, n: nat, date: Date)
    requires n < |ids| && FreshIds(b, ids, n)
    requires after.gl.entries == b.gl.entries || Appended(WithPeriod(b, date), after, ids[n], date)
    ensures FreshIds(after, ids, n + 1)
  {
    forall i | n + 1 <= i < |ids| ensures !HasId(after.gl.entries, ids[i]) {
      forall j | 0 <= j < |after.gl.entries| ensures after.gl.entries[j].id != ids[i] {
        if j < |b.gl.entries| {
          assert after.gl.entries[..|b.gl.entries|][j] == b.gl.entries[j];
        }
      }
    }
  }

  // ---- What a run adds ----

  ghost predicate Dated(d: Date, steps: seq<Step>, closed: set<int>) {
    exists st | st in steps :: st.bookedOn == d && d.year !in closed
  }

  /** Every new entry is dated like one of the documents, outside the closed years, and is no opening
      entry; every new month is a document's. */
  ghost predicate NewEntries(b: Books, after: Books, steps: seq<Step>, closed: set<int>) {
    && Grown(b, after) && after.accounts == b.accounts
    && (forall i | |b.gl.entries| <= i < |after.gl.entries| ::
          after.gl.entries[i].fields.draft.sourceType != OPENING
          && Dated(after.gl.entries[i].fields.draft.date, steps, closed))
    && (forall m | m in after.periods && m !in b.periods :: exists st | st in steps :: MonthOf(st.bookedOn) == m)
  }

  lemma StepAdds(b: Books, now: Books, after: Books, steps: seq<Step>, closed: set<int>, st: Step, id: string)
    requires NewEntries(b, now, steps, closed) && st in steps
    requires || after == now || after == WithPeriod(now, st.bookedOn)
             || (Appended(WithPeriod(now, st.bookedOn), after, id, st.bookedOn) && st.bookedOn.year !in closed)
    ensures NewEntries(b, after, steps, closed)
  {
    forall i | |b.gl.entries| <= i < |after.gl.entries|
      ensures after.gl.entries[i].fields.draft.sourceType != OPENING
              && Dated(after.gl.entries[i].fields.draft.date, steps, closed)
    {
      if i < |now.gl.entries| {
        assert after.gl.entries[..|now.gl.entries|][i] == now.gl.entries[i];
      }
    }
    forall m | m in after.periods && m !in b.periods ensures exists st | st in steps :: MonthOf(st.bookedOn) == m {
      if m !in now.periods {
        assert m == MonthOf(st.bookedOn);
      }
    }
  }

  /** An accepted step, seen from outside. */
  lemma StepShape(b: Books, st: Step, actor: string, id: string, closed: set<int>)
    requires RunStep(b, st, actor, id, closed).Ok?
    ensures var (after, mark) := RunStep(b, st, actor, id, closed).value;
      if mark == POSTED then Appended(WithPeriod(b, st.bookedOn), after, id, st.bookedOn) && st.bookedOn.year !in closed
      else after == b || after == WithPeriod(b, st.bookedOn)
  {
    MapperShape(b, st, actor, id);
  }

  ghost predicate Adds(b: Books, after: Books, steps: seq<Step>, closed: set<int>, posted: nat) {
    NewEntries(b, after, steps, closed) && |after.gl.entries| == |b.gl.entries| + posted
  }

  lemma NextAdds(b: Books, now: Books, steps: seq<Step>, actor: string, id: string, closed: set<int>, st: Step,
                 after: Books, mark: Mark, counts: Counts)
    requires Adds(b, now, steps, closed, counts.posted) && st in steps
    requires RunStep(now, st, actor, id, closed) == Ok((after, mark))
    ensures Adds(b, after, steps, closed, counts.Plus(mark).posted)
  {
    StepShape(now, st, actor, id, closed);
    StepAdds(b, now, after, steps, closed, st, id);
  }

  lemma LoopAdds(b: Books, steps: seq<Step>, actor: string, ids: seq<string>, closed: set<int>, n: nat)
    requires n <= |steps| <= |ids| && RunSteps(b, steps, actor, ids, closed, n).Ok?
    ensures var (after, counts) := RunSteps(b, steps, actor, ids, closed, n).value;
      Adds(b, after, steps, closed, counts.posted)
  {
    var f := LoopStep(steps, actor, ids, closed);
    var keeps := (run: Run, i: nat) => Adds(b, run.0, steps, closed, run.1.posted);
    forall run: Run, i: nat | i < n && keeps(run, i) && f(run, i).Ok? ensures keeps(f(run, i).value, i + 1) {
      var (after, mark) := RunStep(run.0, steps[i], actor, ids[i], closed).value;
      NextAdds(b, run.0, steps, actor, ids[i], closed, steps[i], after, mark, run.1);
    }
    FoldKeeps(f, (b, Counts(0, 0, 0)), n, keeps);
  }

  lemma StepKeepsValid(b: Books, st: Step, actor: string, ids: seq<string>, closed: set<int>, n: nat)
    requires n < |ids| && Valid(b) && FreshIds(b, ids, n) && RunStep(b, st, actor, ids[n], closed).Ok?
    ensures var after := RunStep(b, st, actor, ids[n], closed).value.0; Valid(after) && FreshIds(after, ids, n + 1)
  {
    var after := RunStep(b, st, actor, ids[n], closed).value.0;
    StepShape(b, st, actor, ids[n], closed);
    IdsStayFresh(b, after, ids, n, st.bookedOn);
    MapperKeepsValid(b, st, actor, ids[n]);
  }

  ghost predicate ValidFrom(b: Books, ids: seq<string>, n: nat) { Valid(b) && FreshIds(b, ids, n) }
  ghost function ValidSoFar(ids: seq<string>): (Run, nat) -> bool { (run: Run, i: nat) => ValidFrom(run.0, ids, i) }

  lemma LoopStepKeepsValid(steps: seq<Step>, actor: string, ids: seq<string>, closed: set<int>, run: Run, i: nat)
    requires i < |steps| <= |ids| && ValidFrom(run.0, ids, i) && LoopStep(steps, actor, ids, closed)(run, i).Ok?
    ensures ValidFrom(LoopStep(steps, actor, ids, closed)(run, i).value.0, ids, i + 1)
  {
    StepKeepsValid(run.0, steps[i], actor, ids, closed, i);
  }

  lemma LoopKeepsValid(b: Books, steps: seq<Step>, actor: string, ids: seq<string>, closed: set<int>, n: nat)
    requires n <= |steps| <= |ids| && ValidFrom(b, ids, 0) && RunSteps(b, steps, actor, ids, closed, n).Ok?
    ensures ValidFrom(RunSteps(b, steps, actor, ids, closed, n).value.0, ids, n)
  {
    var f, keeps, start := LoopStep(steps, actor, ids, closed), ValidSoFar(ids), (b, Counts(0, 0, 0));
    forall run: Run, i: nat | i < n && keeps(run, i) && f(run, i).Ok? ensures keeps(f(run, i).value, i + 1) {
      LoopStepKeepsValid(steps, actor, ids, closed, run, i);
    }
    assert keeps(start, 0) == ValidFrom(b, ids, 0);
    FoldKeeps(f, start, n, keeps);
    assert keeps(Fold(f, start, n).value, n) == ValidFrom(Fold(f, start, n).value.0, ids, n);
  }

  // ---- The whole replay ----

  datatype ReplayError =
    | UnknownActor | ChartNotReady | ChainBroken | OpeningBooks
    | ClosedYearDocuments(offenders: seq<Step>) | StepFailed(failed: Failed) | PeriodInClosedYear

  function ClosedYears(b: Books, steps: seq<Step>): set<int> {
    set st | st in steps && PeriodClose.YearAlreadyClosed(b.gl.entries, st.bookedOn.year) :: st.bookedOn.year
  }

  predicate HasOpening(entries: seq<Entry>) { exists e | e in entries :: e.fields.draft.sourceType == OPENING }
  predicate ChartReady(accounts: map<AccountId, Account>, required: set<AccountId>) {
    forall a | a in required :: a in accounts && accounts[a].active
  }

  function OffendsAt(b: Books, steps: seq<Step>, actor: string, ids: seq<string>, closed: set<int>): nat -> bool
    requires |steps| <= |ids|
  {
    (i: nat) => i < |steps| && Offends(b, steps, actor, ids, closed, i)
  }

  function Offenders(b: Books, steps: seq<Step>, actor: string, ids: seq<string>, closed: set<int>, n: nat): seq<Step>
    requires n <= |steps| <= |ids|
  {
    Select(OffendsAt(b, steps, actor, ids, closed), steps, n)
  }

  lemma NoOffenders(b: Books, steps: seq<Step>, actor: string, ids: seq<string>, closed: set<int>)
    requires |steps| <= |ids|
    ensures Offenders(b, steps, actor, ids, closed, |steps|) == [] <==>
      forall i: nat | i < |steps| :: !Offends(b, steps, actor, ids, closed, i)
  {
    SelectNone(OffendsAt(b, steps, actor, ids, closed), steps, |steps|);
    forall i: nat | i < |steps|
      ensures OffendsAt(b, steps, actor, ids, closed)(i) == Offends(b, steps, actor, ids, closed, i)
    {
    }
  }

  predicate OpensClosed(b: Books, after: Books, closed: set<int>) {
    exists m | m in after.periods :: m !in b.periods && m.year in closed
  }

  function Marked(b: Books, counts: Counts, marker: string): Books {
    if counts.posted > 0 then WithAudit(b, marker, GlHistoryReplayed(counts.posted)) else b
  }

  /** What a finished loop leaves in the transaction. */
  function Kept(b: Books, run: Result<Run, Failed>, closed: set<int>, marker: string): Result<Run, ReplayError> {
    match run
    case Err(f) => Err(StepFailed(f))
    case Ok((after, counts)) =>
      if OpensClosed(b, after, closed) then Err(PeriodInClosedYear) else Ok((Marked(after, counts, marker), counts))
  }

  /** replay_history on sorted steps: what it leaves in the transaction, or why it refuses. */
  ghost function ReplayOutcome(b: Books, steps: seq<Step>, actor: string, known: bool, required: set<AccountId>,
                               ids: seq<string>, marker: string): Result<(Books, Counts), ReplayError>
    requires |steps| <= |ids|
  {
    if !known then Err(UnknownActor)
    else if !ChartReady(b.accounts, required) then Err(ChartNotReady)
    else if !Verified(b.gl.entries, b.gl.head, b.gl.count) then Err(ChainBroken)
    else if HasOpening(b.gl.entries) then Err(OpeningBooks)
    else
      var closed := ClosedYears(b, steps);
      var offenders := Offenders(b, steps, actor, ids, closed, |steps|);
      if offenders != [] then Err(ClosedYearDocuments(offenders))
      else
        Kept(b, RunSteps(ProbeBooks(b, steps, actor, ids, closed, |steps|), steps, actor, ids, closed, |steps|),
             closed, marker)
  }

  /** What a committed replay ran on: the probe left no trace. */
  lemma CommittedRan(b: Books, steps: seq<Step>, actor: string, known: bool, required: set<AccountId>,
                     ids: seq<string>, marker: string)
    requires |steps| <= |ids| && ReplayOutcome(b, steps, actor, known, required, ids, marker).Ok?
    ensures var (after, counts) := ReplayOutcome(b, steps, actor, known, required, ids, marker).value;
      var run := RunSteps(b, steps, actor, ids, ClosedYears(b, steps), |steps|);
      && run.Ok? && counts == run.value.1 && after == Marked(run.value.0, counts, marker)
      && !OpensClosed(b, run.value.0, ClosedYears(b, steps))
  {
    var closed := ClosedYears(b, steps);
    NoOffenders(b, steps, actor, ids, closed);
    ProbeIsExact(b, steps, actor, ids, closed);
  }

  /** A committed replay adds no entry dated in a closed fiscal year and opens no month there. */
  lemma ClosedYearsUntouched(b: Books, steps: seq<Step>, actor: string, known: bool, required: set<AccountId>,
                             ids: seq<string>, marker: string, year: int)
    requires |steps| <= |ids| && ReplayOutcome(b, steps, actor, known, required, ids, marker).Ok?
    requires PeriodClose.YearAlreadyClosed(b.gl.entries, year)
    ensures var after := ReplayOutcome(b, steps, actor, known, required, ids, marker).value.0;
      && b.gl.entries <= after.gl.entries
      && (forall i | |b.gl.entries| <= i < |after.gl.entries| :: after.gl.entries[i].fields.draft.date.year != year)
      && (forall m | m in after.periods && m !in b.periods :: m.year != year)
  {
    var closed := ClosedYears(b, steps);
    CommittedRan(b, steps, actor, known, required, ids, marker);
    var (run, counts) := RunSteps(b, steps, actor, ids, closed, |steps|).value;
    LoopAdds(b, steps, actor, ids, closed, |steps|);
    forall m | m in run.periods && m !in b.periods ensures m.year != year {
      var st :| st in steps && MonthOf(st.bookedOn) == m;
      assert m.year == year ==> st.bookedOn.year in closed;
    }
    forall i | |b.gl.entries| <= i < |run.gl.entries| ensures run.gl.entries[i].fields.draft.date.year != year {
      var st :| st in steps && st.bookedOn == run.gl.entries[i].fields.draft.date && st.bookedOn.year !in closed;
    }
  }

  /** The final checks never fail: what a committed replay leaves is valid, so the chain verifies and
      both dimensions balance. */
  lemma ReplayKeepsValid(b: Books, steps: seq<Step>, actor: string, known: bool, required: set<AccountId>,
                         ids: seq<string>, marker: string)
    requires |steps| <= |ids| && Valid(b) && FreshIds(b, ids, 0)
    requires ReplayOutcome(b, steps, actor, known, required, ids, marker).Ok?
    ensures Valid(ReplayOutcome(b, steps, actor, known, required, ids, marker).value.0)
  {
    var closed := ClosedYears(b, steps);
    CommittedRan(b, steps, actor, known, required, ids, marker);
    var (run, counts) := RunSteps(b, steps, actor, ids, closed, |steps|).value;
    LoopKeepsValid(b, steps, actor, ids, closed, |steps|);
    MarkerKeepsValid(run, marker, counts);
  }

  lemma MarkerKeepsValid(b: Books, marker: string, counts: Counts)
    requires Valid(b)
    ensures Valid(Marked(b, counts, marker))
  {
    AuditKeepsLedgerSafe(b, marker, GlHistoryReplayed(counts.posted));
  }

  /** Idempotence: run again on what it committed, over any of the same documents read in any order, the
      replay succeeds and changes nothing at all. */
  lemma SecondRunChangesNothing(b: Books, documents: seq<Step>, actor: string, known: bool, required: set<AccountId>,
                                ids: seq<string>, marker: string, more: seq<Step>, again: seq<string>, marker': string)
    requires |documents| <= |ids| && |more| <= |again| && Valid(b) && FreshIds(b, ids, 0)
    requires DatedAfterSale(documents) && forall st | st in more :: st in documents
    requires ReplayOutcome(b, Sorted(documents), actor, known, required, ids, marker).Ok?
    ensures var after := ReplayOutcome(b, Sorted(documents), actor, known, required, ids, marker).value.0;
      var second := ReplayOutcome(after, Sorted(more), actor, known, required, again, marker');
      second.Ok? && second.value.0 == after && second.value.1.posted == 0
  {
    var after := ReplayOutcome(b, Sorted(documents), actor, known, required, ids, marker).value.0;
    CommittedIsReady(b, documents, actor, known, required, ids, marker);
    SomeOfSorted(documents, more);
    SomeAreCovered(after, Sorted(documents), Sorted(more));
    SecondRunOn(after, Sorted(more), actor, required, again, marker');
  }

  /** The checks before the probe pass, and no document is left over. */
  ghost predicate Ready(b: Books, steps: seq<Step>, required: set<AccountId>) {
    && AllCovered(b, steps, |steps|) && ChartReady(b.accounts, required)
    && Verified(b.gl.entries, b.gl.head, b.gl.count) && !HasOpening(b.gl.entries)
  }

  lemma CommittedIsReady(b: Books, documents: seq<Step>, actor: string, known: bool, required: set<AccountId>,
                         ids: seq<string>, marker: string)
    requires |documents| <= |ids| && Valid(b) && FreshIds(b, ids, 0) && DatedAfterSale(documents)
    requires ReplayOutcome(b, Sorted(documents), actor, known, required, ids, marker).Ok?
    ensures known && Ready(ReplayOutcome(b, Sorted(documents), actor, known, required, ids, marker).value.0,
                           Sorted(documents), required)
  {
    var steps := Sorted(documents);
    var closed := ClosedYears(b, steps);
    SortedIsChronological(documents);
    SortKeepsDating(documents, steps);
    CommittedRan(b, steps, actor, known, required, ids, marker);
    var (run, counts) := RunSteps(b, steps, actor, ids, closed, |steps|).value;
    AfterCommit(b, steps, actor, ids, closed, run, counts);
    ReplayKeepsValid(b, steps, actor, known, required, ids, marker);
    MarkedIsCovered(run, counts, marker, steps);
  }

  lemma MarkedIsCovered(b: Books, counts: Counts, marker: string, steps: seq<Step>)
    requires AllCovered(b, steps, |steps|)
    ensures AllCovered(Marked(b, counts, marker), steps, |steps|)
  {
    forall k | 0 <= k < |steps| {
      CoveredStays(b, Marked(b, counts, marker), steps[k]);
    }
  }

  lemma SomeAreCovered(b: Books, steps: seq<Step>, rest: seq<Step>)
    requires AllCovered(b, steps, |steps|) && forall st | st in rest :: st in steps
    ensures AllCovered(b, rest, |rest|)
  {
    forall k | 0 <= k < |rest| ensures Covered(b, rest[k]) {
      MemberIsCovered(b, steps, rest[k]);
    }
  }

  lemma MemberIsCovered(b: Books, steps: seq<Step>, st: Step)
    requires AllCovered(b, steps, |steps|) && st in steps
    ensures Covered(b, st)
  {
    var j :| 0 <= j < |steps| && steps[j] == st;
  }

  lemma SomeOfSorted(documents: seq<Step>, more: seq<Step>)
    requires forall st | st in more :: st in documents
    ensures forall st | st in Sorted(more) :: st in Sorted(documents)
  {
    forall st | st in Sorted(more) ensures st in Sorted(documents) {
      SameMembers(more, st);
      SameMembers(documents, st);
    }
  }

  lemma AfterCommit(b: Books, steps: seq<Step>, actor: string, ids: seq<string>, closed: set<int>, run: Books,
                    counts: Counts)
    requires |steps| <= |ids| && SortedSteps(steps) && DatedAfterSale(steps) && !HasOpening(b.gl.entries)
    requires RunSteps(b, steps, actor, ids, closed, |steps|) == Ok((run, counts))
    ensures AllCovered(run, steps, |steps|) && run.accounts == b.accounts && !HasOpening(run.gl.entries)
  {
    LoopCoversAll(b, steps, actor, ids, closed, |steps|);
    LoopAdds(b, steps, actor, ids, closed, |steps|);
    NoOpeningAdded(b, run, steps, closed);
  }

  lemma NoOpeningAdded(b: Books, after: Books, steps: seq<Step>, closed: set<int>)
    requires !HasOpening(b.gl.entries) && NewEntries(b, after, steps, closed)
    ensures !HasOpening(after.gl.entries)
  {
    forall e | e in after.gl.entries ensures e.fields.draft.sourceType != OPENING {
      var i :| 0 <= i < |after.gl.entries| && after.gl.entries[i] == e;
      if i < |b.gl.entries| {
        assert e == b.gl.entries[i];
      }
    }
  }

  lemma SecondRunOn(b: Books, steps: seq<Step>, actor: string, required: set<AccountId>, ids: seq<string>,
                    marker: string)
    requires |steps| <= |ids| && AllCovered(b, steps, |steps|)
    requires ChartReady(b.accounts, required) && Verified(b.gl.entries, b.gl.head, b.gl.count)
      && !HasOpening(b.gl.entries)
    ensures var second := ReplayOutcome(b, steps, actor, true, required, ids, marker);
      second.Ok? && second.value.0 == b && second.value.1.posted == 0
  {
    var closed := ClosedYears(b, steps);
    forall i: nat | i < |steps| ensures !(Suspect(b, steps[i], closed) && Touches(b, steps[i], actor, ids[i])) {
      if Suspect(b, steps[i], closed) {
        CoveredIsIdle(b, steps[i], actor, ids[i]);
      }
    }
    ProbeIsExact(b, steps, actor, ids, closed);
    NoOffenders(b, steps, actor, ids, closed);
    CoveredLoopIsIdle(b, steps, actor, ids, closed, |steps|);
  }

  // ---- The order as it was sold ----

  /** `_as_sold`: a line refund overwrote the header with what remains, so it is rebuilt from the lines. */
  function AsSold(o: Orders.Order): Orders.Order {
    var subtotal := Sum(o.items, Orders.PriceOf);
    var vat, discount := Orders.PercentOf(subtotal, o.vatPercent), Orders.PercentOf(subtotal, o.discountPercent);
    o.(subtotal := subtotal, vatAmount := vat, discountAmount := discount, totalUsd := subtotal + vat - discount)
  }

  ghost predicate SoldAs(o: Orders.Order, p: Orders.Order) {
    p.vatPercent == o.vatPercent && p.discountPercent == o.discountPercent
    && Sum(p.items, Orders.PriceOf) == Sum(o.items, Orders.PriceOf)
  }

  lemma RefundKeepsSold(o: Orders.Order, p: Orders.Order, itemId: Id, quantity: Option<int>)
    requires SoldAs(o, p) && Orders.RefundItem(p, itemId, quantity).Ok?
    ensures SoldAs(o, Orders.RefundItem(p, itemId, quantity).value)
  {
    var i, qty := Orders.ItemIndex(p.items, itemId), Orders.RefundQty(p, itemId, quantity);
    SumUpdate(p.items, i, Orders.AfterUnits(p.items[i], qty), Orders.PriceOf);
  }

  lemma {:induction false} RefundsKeepSold(o: Orders.Order, requests: seq<Orders.Request>)
    ensures SoldAs(o, Orders.AfterRefunds(o, requests))
  {
    if requests != [] {
      var n := |requests| - 1;
      RefundsKeepSold(o, requests[..n]);
      var p, q := Orders.AfterRefunds(o, requests[..n]), requests[n];
      if Orders.RefundItem(p, q.itemId, q.quantity).Ok? {
        RefundKeepsSold(o, p, q.itemId, q.quantity);
      }
    }
  }

  /** Whatever line refunds followed, the rebuilt header is the one checkout computed. */
  lemma AsSoldRestoresCheckout(o: Orders.Order, requests: seq<Orders.Request>)
    requires Orders.Fresh(o)
    ensures var sold := AsSold(Orders.AfterRefunds(o, requests));
      sold.subtotal == o.subtotal && sold.vatAmount == o.vatAmount && sold.discountAmount == o.discountAmount
      && sold.totalUsd == o.totalUsd
  {
    RefundsKeepSold(o, requests);
    SumEq(o.items, Orders.RemainingOf, Orders.PriceOf);
  }

  // ---- The transaction ----

  method EnsurePeriod(s: Session, d: Date)
    modifies s`periods
    ensures s.View() == WithPeriod(old(s.View()), d)
  {
    if MonthOf(d) !in s.periods {
      s.periods := s.periods[MonthOf(d) := OPEN];
    }
  }

  predicate Reports(a: Attempt, view: Books, r: Result<bool, Refusal>) {
    view == a.books && r == if a.refusal.Some? then Err(a.refusal.value) else Ok(a.posted)
  }

  method Send(s: Session, st: Step, actor: string, id: string) returns (r: Result<bool, Refusal>)
    requires Valid(s.View()) && !HasId(s.entries, id)
    modifies s
    ensures Reports(FromOutcome(old(s.View()), PostOutcome(old(s.View()), DraftOf(st, actor), id, false)), s.View(), r)
  {
    var posted := s.PostEntry(DraftOf(st, actor), id, false);
    r := if posted.Ok? then Ok(true) else Err(posted.error);
  }

  method SendReversal(s: Session, originalId: string, date: Date, actor: string, id: string)
    returns (r: Result<bool, Refusal>)
    requires Valid(s.View()) && !HasId(s.entries, id)
    modifies s
    ensures Reports(FromOutcome(old(s.View()), ReverseOutcome(old(s.View()), originalId, date, "void", actor, id)),
        s.View(), r)
  {
    var posted := s.ReverseEntry(originalId, date, "void", actor, id);
    r := if posted.Ok? then Ok(true) else Err(posted.error);
  }

  /** The forward mappers, on the session. */
  method MapForward(s: Session, st: Step, actor: string, id: string) returns (r: Result<bool, Refusal>)
    requires Valid(s.View()) && !HasId(s.entries, id) && !AfterSale(st)
    modifies s
    ensures Reports(Mapped(old(s.View()), st, actor, id), s.View(), r)
  {
    if HasLive(s.entries, SourceOf(st.kind), st.source) {
      return Ok(false);
    }
    if !PeriodFirst(st) {
      return Ok(false);
    }
    PeriodKeepsValid(s.View(), st.bookedOn);
    EnsurePeriod(s, st.bookedOn);
    if st.lines == [] {
      return Ok(false);
    }
    r := Send(s, st, actor, id);
  }

  /** post_order_refund, for a void, a whole-order refund or a line refund. */
  method MapAfterSale(s: Session, st: Step, actor: string, id: string) returns (r: Result<bool, Refusal>)
    requires Valid(s.View()) && !HasId(s.entries, id) && AfterSale(st)
    modifies s
    ensures Reports(Mapped(old(s.View()), st, actor, id), s.View(), r)
  {
    if !HasLive(s.entries, ORDER, st.order) {
      return Ok(false);
    }
    var originalId := s.entries[LiveIndex(s.entries, ORDER, st.order)].id;
    if HasReversal(s.entries, originalId) {
      return Ok(false);
    }
    PeriodKeepsValid(s.View(), st.bookedOn);
    EnsurePeriod(s, st.bookedOn);
    if st.kind == SALE_REVERSAL {
      r := SendReversal(s, originalId, st.bookedOn, actor, id);
    } else if HasLive(s.entries, ORDER_REFUND, st.source) {
      r := Ok(false);
    } else {
      r := Send(s, st, actor, id);
    }
  }

  method Map(s: Session, st: Step, actor: string, id: string) returns (r: Result<bool, Refusal>)
    requires Valid(s.View()) && !HasId(s.entries, id)
    modifies s
    ensures Valid(s.View()) && Reports(Mapped(old(s.View()), st, actor, id), s.View(), r)
  {
    MapperKeepsValid(s.View(), st, actor, id);
    if AfterSale(st) {
      r := MapAfterSale(s, st, actor, id);
    } else {
      r := MapForward(s, st, actor, id);
    }
  }

  method RunStepOn(s: Session, st: Step, actor: string, id: string, closed: set<int>)
    returns (r: Result<Mark, StepError>)
    requires Valid(s.View()) && !HasId(s.entries, id)
    modifies s
    ensures Valid(s.View())
    ensures match RunStep(old(s.View()), st, actor, id, closed)
      case Ok(done) => s.View() == done.0 && r == Ok(done.1)
      case Err(e) => r == Err(e)
  {
    if IsPosted(s.entries, st) {
      return Ok(ALREADY);
    }
    var mapped := Map(s, st, actor, id);
    if mapped.Err? {
      return Err(MapperRefused(mapped.error));
    }
    if !mapped.value {
      return Ok(NOTHING);
    }
    if !st.costAgrees {
      return Err(CostDiffers);
    }
    if st.bookedOn.year in closed {
      return Err(EntryInClosedYear);
    }
    r := Ok(POSTED);
  }

  /** The loop of replay_history over the sorted steps. */
  method RunLoop(s: Session, steps: seq<Step>, actor: string, ids: seq<string>, closed: set<int>)
    returns (r: Result<Counts, Failed>)
    requires |steps| <= |ids| && Valid(s.View()) && FreshIds(s.View(), ids, 0)
    modifies s
    ensures r.Ok? ==> Valid(s.View())
    ensures match RunSteps(old(s.View()), steps, actor, ids, closed, |steps|)
      case Ok(run) => s.View() == run.0 && r == Ok(run.1)
      case Err(f) => r == Err(f)
  {
    ghost var b := s.View();
    var counts := Counts(0, 0, 0);
    var i := 0;
    while i < |steps|
      invariant 0 <= i <= |steps|
      invariant Valid(s.View()) && FreshIds(s.View(), ids, i)
      invariant RunSteps(b, steps, actor, ids, closed, i) == Ok((s.View(), counts))
    {
      ghost var now := s.View();
      var done := RunStepOn(s, steps[i], actor, ids[i], closed);
      NextRun(b, steps, actor, ids, closed, i, now, counts);
      if done.Err? {
        FailedRun(b, steps, actor, ids, closed, i + 1, |steps|);
        return Err(Failed(steps[i], done.error));
      }
      StepKeepsValid(now, steps[i], actor, ids, closed, i);
      counts := counts.Plus(done.value);
      i := i + 1;
    }
    r := Ok(counts);
  }

  lemma NextRun(b: Books, steps: seq<Step>, actor: string, ids: seq<string>, closed: set<int>, i: nat, now: Books,
                counts: Counts)
    requires i < |steps| <= |ids| && RunSteps(b, steps, actor, ids, closed, i) == Ok((now, counts))
    ensures RunSteps(b, steps, actor, ids, closed, i + 1) ==
      match RunStep(now, steps[i], actor, ids[i], closed)
      case Ok(r) => Ok((r.0, counts.Plus(r.1)))
      case Err(e) => Err(Failed(steps[i], e))
  {
  }

  lemma FailedRun(b: Books, steps: seq<Step>, actor: string, ids: seq<string>, closed: set<int>, i: nat, n: nat)
    requires i <= n <= |steps| <= |ids| && RunSteps(b, steps, actor, ids, closed, i).Err?
    ensures RunSteps(b, steps, actor, ids, closed, n) == RunSteps(b, steps, actor, ids, closed, i)
  {
    FoldFails(LoopStep(steps, actor, ids, closed), (b, Counts(0, 0, 0)), i, n);
  }

  /** One document of the probe: is it an unposted document of a closed year that its mapper touches? */
  method ProbeOne(s: Session, st: Step, actor: string, id: string, closed: set<int>) returns (offends: bool)
    requires Valid(s.View()) && !HasId(s.entries, id)
    modifies s
    ensures Valid(s.View()) && s.View() == ProbeStep(old(s.View()), st, actor, id, closed)
    ensures offends == (Suspect(old(s.View()), st, closed) && Touches(old(s.View()), st, actor, id))
  {
    if st.bookedOn.year !in closed || IsPosted(s.entries, st) {
      return false;
    }
    var periods := s.periods;
    var mapped := Map(s, st, actor, id);
    offends := mapped.Err? || mapped.value || s.periods != periods;
  }

  /** `_refuse_closed_years`: puts each unposted document of a closed year through its mapper. */
  method Probe(s: Session, steps: seq<Step>, actor: string, ids: seq<string>, closed: set<int>)
    returns (offenders: seq<Step>)
    requires |steps| <= |ids| && Valid(s.View()) && FreshIds(s.View(), ids, 0)
    modifies s
    ensures Valid(s.View())
    ensures s.View() == ProbeBooks(old(s.View()), steps, actor, ids, closed, |steps|)
    ensures offenders == Offenders(old(s.View()), steps, actor, ids, closed, |steps|)
  {
    ghost var b := s.View();
    offenders := [];
    var i := 0;
    while i < |steps|
      invariant 0 <= i <= |steps|
      invariant Valid(s.View()) && FreshIds(s.View(), ids, i)
      invariant s.View() == ProbeBooks(b, steps, actor, ids, closed, i)
      invariant offenders == Offenders(b, steps, actor, ids, closed, i)
    {
      ghost var now := s.View();
      NextProbe(b, steps, actor, ids, closed, i, now);
      ProbeKeepsFresh(now, steps[i], actor, ids, i, closed);
      var offends := ProbeOne(s, steps[i], actor, ids[i], closed);
      if offends {
        offenders := offenders + [steps[i]];
      }
      i := i + 1;
    }
  }

  lemma NextProbe(b: Books, steps: seq<Step>, actor: string, ids: seq<string>, closed: set<int>, i: nat, now: Books)
    requires i < |steps| <= |ids| && now == ProbeBooks(b, steps, actor, ids, closed, i)
    ensures ProbeBooks(b, steps, actor, ids, closed, i + 1) == ProbeStep(now, steps[i], actor, ids[i], closed)
    ensures Offenders(b, steps, actor, ids, closed, i + 1) == Offenders(b, steps, actor, ids, closed, i)
      + if Suspect(now, steps[i], closed) && Touches(now, steps[i], actor, ids[i]) then [steps[i]] else []
  {
  }

  lemma ProbeKeepsFresh(b: Books, st: Step, actor: string, ids: seq<string>, n: nat, closed: set<int>)
    requires n < |ids| && FreshIds(b, ids, n)
    ensures FreshIds(ProbeStep(b, st, actor, ids[n], closed), ids, n + 1)
  {
    MapperShape(b, st, actor, ids[n]);
    IdsStayFresh(b, ProbeStep(b, st, actor, ids[n], closed), ids, n, st.bookedOn);
  }

  method ChainVerifies(s: Session) returns (ok: bool)
    ensures ok <==> Verified(s.entries, s.latestHash, s.rowCount)
  {
    var report := AuditChain.Verify(s.entries);
    ok := report.status != Broken && s.latestHash == Head(s.entries) && s.rowCount == |s.entries|;
  }

  /** replay_history, up to the failure that makes its caller roll back. Books whose chain verifies are
      taken to be valid; the checks it makes at the end cannot fail then (`ReplayKeepsValid`). */
  method ReplayHistory(s: Session, documents: seq<Step>, actor: string, known: bool, required: set<AccountId>,
                       ids: seq<string>, marker: string)
    returns (r: Result<Counts, ReplayError>)
    requires |documents| <= |ids| && FreshIds(s.View(), ids, 0)
    requires Verified(s.entries, s.latestHash, s.rowCount) ==> Valid(s.View())
    modifies s
    ensures match ReplayOutcome(old(s.View()), Sorted(documents), actor, known, required, ids, marker)
      case Ok(run) => s.View() == run.0 && r == Ok(run.1)
      case Err(e) => r == Err(e)
  {
    var steps := SortSteps(documents);
    if !known {
      return Err(UnknownActor);
    }
    if !ChartReady(s.accounts, required) {
      return Err(ChartNotReady);
    }
    var intact := ChainVerifies(s);
    if !intact {
      return Err(ChainBroken);
    }
    if HasOpening(s.entries) {
      return Err(OpeningBooks);
    }
    r := PostHistory(s, steps, actor, known, required, ids, marker);
  }

  /** The probe, the loop, the closed-year check and the marker. */
  method PostHistory(s: Session, steps: seq<Step>, actor: string, known: bool, required: set<AccountId>,
                     ids: seq<string>, marker: string)
    returns (r: Result<Counts, ReplayError>)
    requires |steps| <= |ids| && FreshIds(s.View(), ids, 0) && Valid(s.View())
    requires known && ChartReady(s.accounts, required) && !HasOpening(s.entries)
    modifies s
    ensures match ReplayOutcome(old(s.View()), steps, actor, known, required, ids, marker)
      case Ok(run) => s.View() == run.0 && r == Ok(run.1)
      case Err(e) => r == Err(e)
  {
    ghost var b := s.View();
    var closed := ClosedYears(s.View(), steps);
    var offenders := Probe(s, steps, actor, ids, closed);
    if offenders != [] {
      return Err(ClosedYearDocuments(offenders));
    }
    NoOffenders(b, steps, actor, ids, closed);
    ProbeIsExact(b, steps, actor, ids, closed);
    r := KeepHistory(s, steps, actor, ids, closed, marker);
  }

  method KeepHistory(s: Session, steps: seq<Step>, actor: string, ids: seq<string>, closed: set<int>, marker: string)
    returns (r: Result<Counts, ReplayError>)
    requires |steps| <= |ids| && FreshIds(s.View(), ids, 0) && Valid(s.View())
    modifies s
    ensures match Kept(old(s.View()), RunSteps(old(s.View()), steps, actor, ids, closed, |steps|), closed, marker)
      case Ok(run) => s.View() == run.0 && r == Ok(run.1)
      case Err(e) => r == Err(e)
  {
    var before := s.periods;
    var run := RunLoop(s, steps, actor, ids, closed);
    if run.Err? {
      return Err(StepFailed(run.error));
    }
    if exists m | m in s.periods :: m !in before && m.year in closed {
      return Err(PeriodInClosedYear);
    }
    if run.value.posted > 0 {
      s.Record(marker, GlHistoryReplayed(run.value.posted));
    }
    r := Ok(run.value);
  }

  /** run_replay: one transaction on the database `db`. A dry run and every failure leave it as it was; a
      dry run reports what an execution would commit. */
  method RunReplay(db: Books, documents: seq<Step>, actor: string, known: bool, required: set<AccountId>,
                   ids: seq<string>, marker: string, execute: bool)
    returns (after: Books, r: Result<Counts, ReplayError>)
    requires |documents| <= |ids| && FreshIds(db, ids, 0)
    requires Verified(db.gl.entries, db.gl.head, db.gl.count) ==> Valid(db)
    ensures match ReplayOutcome(db, Sorted(documents), actor, known, required, ids, marker)
      case Ok(run) => r == Ok(run.1) && after == if execute then run.0 else db
      case Err(e) => r == Err(e) && after == db
  {
    var s := new Session(db);
    r := ReplayHistory(s, documents, actor, known, required, ids, marker);
    after := if r.Ok? && execute then s.View() else db;
  }
}
