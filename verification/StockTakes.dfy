/** Stock-takes (`app/api/stock_takes.py`): counted lines, a submit that freezes what was expected, and
    per-line approval that moves stock through the one adjustment path. */
module StockTakes {
  import opened Wrappers
  import opened Sums
  import opened Orders
  import opened UnitStock

  datatype Status = DRAFT | SUBMITTED | CLOSED
  datatype Resolution = PENDING | NO_VARIANCE | APPROVED | REJECTED
  datatype TakeLine = TakeLine(id: Id, unit: Unit, counted: int, expected: int, variance: Option<int>,
                               resolution: Resolution, reason: string)
  datatype Event =
    | TakeSubmitted(lineCount: int, varianceCount: int, totalAbs: int)
    | StockAdjusted(adjusted: Unit, delta: int, lineId: Id)
    | LineApproved(approvedId: Id, variance: int)
    | LineRejected(rejectedId: Id, reason: string)
    | TakeClosed(approved: int, rejected: int, noVariance: int)

  datatype TakeRefusal =
    | WrongStatus | UnitMissing | DuplicateLine | LineMissing | NoLines | AlreadyResolved | NoVariance
    | StockRefused(why: Refusal)

  /** One take, the stock it counts, and the movements of that stock by everything else (sales, voids,
      purchases, other adjustments); `frozenAt` is how many there were when the take was submitted. */
  datatype Room = Room(status: Status, lines: seq<TakeLine>, onHand: map<Unit, int>, events: seq<Event>,
                       movements: seq<Adjustment>, frozenAt: nat)

  function Rank(s: Status): nat { match s case DRAFT => 0 case SUBMITTED => 1 case CLOSED => 2 }

  function Is(r: Resolution): TakeLine -> int { (l: TakeLine) => if l.resolution == r then 1 else 0 }
  function Pending(lines: seq<TakeLine>): int { Sum(lines, Is(PENDING)) }
  function ClosedEvent(e: Event): int { if e.TakeClosed? then 1 else 0 }
  function AdjustedFor(id: Id): Event -> int { (e: Event) => if e.StockAdjusted? && e.lineId == id then 1 else 0 }

  function NetMovement(r: Room, u: Unit): int
    requires r.frozenAt <= |r.movements|
  {
    Sum(r.movements[r.frozenAt..], DeltaFor(u))
  }

  // ---- What every request keeps ----

  ghost predicate Unique(lines: seq<TakeLine>) {
    forall i, j | 0 <= i < j < |lines| :: lines[i].id != lines[j].id && lines[i].unit != lines[j].unit
  }

  ghost predicate DraftLine(l: TakeLine) { l.resolution == PENDING && l.variance == None && l.unit.kind != PRODUCT }

  /** A submitted line carries its frozen variance; stock is the frozen quantity, or the counted one once
      approved, plus whatever moved since. */
  ghost predicate FrozenLine(r: Room, l: TakeLine)
    requires r.frozenAt <= |r.movements|
  {
    && l.unit.kind != PRODUCT && l.unit in r.onHand
    && l.variance == Some(l.counted - l.expected)
    && (l.resolution == NO_VARIANCE <==> l.counted == l.expected)
    && r.onHand[l.unit] == (if l.resolution == APPROVED then l.counted else l.expected) + NetMovement(r, l.unit)
  }

  ghost predicate Inv(r: Room) {
    && Unique(r.lines) && r.frozenAt <= |r.movements|
    && (forall u | u in r.onHand :: r.onHand[u] >= 0)
    && (r.status == DRAFT ==> r.events == [] && forall l | l in r.lines :: DraftLine(l))
    && (r.status != DRAFT ==> forall l | l in r.lines :: FrozenLine(r, l))
    && (r.status == SUBMITTED ==> Pending(r.lines) > 0)
    && (r.status == CLOSED ==> Pending(r.lines) == 0)
    && Sum(r.events, ClosedEvent) == (if r.status == CLOSED then 1 else 0)
    && (forall l | l in r.lines :: Sum(r.events, AdjustedFor(l.id)) == if l.resolution == APPROVED then 1 else 0)
  }

  // ---- Outside movements ----

  function AfterMove(r: Room, u: Unit, delta: int): Room
    requires u in r.onHand
  {
    r.(onHand := Moved(r.onHand, u, delta), movements := r.movements + [Adjustment(u, delta)])
  }

  lemma MoveIsNet(r: Room, m: Adjustment, u: Unit)
    requires r.frozenAt <= |r.movements|
    ensures NetMovement(r.(movements := r.movements + [m]), u) == NetMovement(r, u) + DeltaFor(u)(m)
  {
    assert (r.movements + [m])[r.frozenAt..] == r.movements[r.frozenAt..] + [m];
    SumSnoc(r.movements[r.frozenAt..], m, DeltaFor(u));
  }

  lemma MoveKeepsInv(r: Room, u: Unit, delta: int)
    requires Inv(r) && u in r.onHand && r.onHand[u] + delta >= 0
    ensures Inv(AfterMove(r, u, delta))
  {
    var after, m := AfterMove(r, u, delta), Adjustment(u, delta);
    if r.status != DRAFT {
      forall l | l in r.lines ensures FrozenLine(after, l) {
        assert FrozenLine(r, l);
        MoveIsNet(r, m, l.unit);
        assert NetMovement(after, l.unit) == NetMovement(r.(movements := r.movements + [m]), l.unit);
      }
    }
  }

  // ---- Submit ----

  function Frozen(l: TakeLine, expected: int): TakeLine {
    l.(expected := expected, variance := Some(l.counted - expected),
       resolution := if l.counted == expected then NO_VARIANCE else l.resolution)
  }

  function FrozenAll(lines: seq<TakeLine>, onHand: map<Unit, int>): seq<TakeLine>
    requires forall l | l in lines :: l.unit in onHand
  {
    seq(|lines|, i requires 0 <= i < |lines| => Frozen(lines[i], onHand[lines[i].unit]))
  }

  function Abs(x: int): int { if x < 0 then -x else x }
  function VarianceAbs(l: TakeLine): int { if l.variance.Some? then Abs(l.variance.value) else 0 }

  function Closing(r: Room): Room {
    if r.status == CLOSED || Pending(r.lines) > 0 then r
    else r.(status := CLOSED,
            events := r.events + [TakeClosed(Sum(r.lines, Is(APPROVED)), Sum(r.lines, Is(REJECTED)),
                                             Sum(r.lines, Is(NO_VARIANCE)))])
  }

  function SubmittedRoom(r: Room): Room
    requires forall l | l in r.lines :: l.unit in r.onHand
  {
    var lines := FrozenAll(r.lines, r.onHand);
    r.(lines := lines, status := SUBMITTED, frozenAt := |r.movements|,
       events := r.events + [TakeSubmitted(|lines|, Pending(lines), Sum(lines, VarianceAbs))])
  }

  lemma PendingIsCount(lines: seq<TakeLine>)
    ensures Pending(lines) >= 0
  {
    SumNonNegative(lines, Is(PENDING));
  }

  /** Everything but closing: what holds of a submitted take while the last request finishes. */
  ghost predicate Submitted(r: Room) {
    && Unique(r.lines) && r.frozenAt <= |r.movements| && r.status == SUBMITTED
    && (forall u | u in r.onHand :: r.onHand[u] >= 0)
    && (forall l | l in r.lines :: FrozenLine(r, l))
    && Sum(r.events, ClosedEvent) == 0
    && (forall l | l in r.lines :: Sum(r.events, AdjustedFor(l.id)) == if l.resolution == APPROVED then 1 else 0)
  }

  /** A take closes exactly when its last pending line is resolved, and says so once. */
  lemma ClosingKeepsInv(r: Room)
    requires Submitted(r)
    ensures Inv(Closing(r))
    ensures Closing(r).status == CLOSED <==> Pending(r.lines) == 0
  {
    PendingIsCount(r.lines);
    var after := Closing(r);
    if Pending(r.lines) == 0 {
      var e := after.events[|r.events|];
      SumSnoc(r.events, e, ClosedEvent);
      forall l | l in r.lines
        ensures FrozenLine(after, l) && Sum(after.events, AdjustedFor(l.id)) == Sum(r.events, AdjustedFor(l.id))
      {
        assert FrozenLine(r, l);
        SumSnoc(r.events, e, AdjustedFor(l.id));
      }
    }
  }

  lemma SubmitFreezes(r: Room)
    requires Inv(r) && r.status == DRAFT && forall l | l in r.lines :: l.unit in r.onHand
    ensures Submitted(SubmittedRoom(r))
  {
    var after := SubmittedRoom(r);
    var e := after.events[|r.events|];
    SumSnoc(r.events, e, ClosedEvent);
    assert after.movements[after.frozenAt..] == [];
    forall i | 0 <= i < |r.lines|
      ensures FrozenLine(after, after.lines[i])
      ensures Sum(after.events, AdjustedFor(after.lines[i].id)) ==
        if after.lines[i].resolution == APPROVED then 1 else 0
    {
      assert DraftLine(r.lines[i]);
      SumSnoc(r.events, e, AdjustedFor(r.lines[i].id));
    }
  }

  // ---- Approve and reject ----

  function Resolved(r: Room, i: nat, resolution: Resolution, reason: string): seq<TakeLine>
    requires i < |r.lines|
  {
    r.lines[i := r.lines[i].(resolution := resolution, reason := reason)]
  }

  function Approving(r: Room, i: nat): Room
    requires i < |r.lines| && r.lines[i].variance.Some? && r.lines[i].unit in r.onHand
  {
    var l := r.lines[i];
    r.(lines := Resolved(r, i, APPROVED, l.reason), onHand := Moved(r.onHand, l.unit, l.variance.value),
       events := r.events + [StockAdjusted(l.unit, l.variance.value, l.id), LineApproved(l.id, l.variance.value)])
  }

  function Rejecting(r: Room, i: nat, reason: string): Room
    requires i < |r.lines|
  {
    r.(lines := Resolved(r, i, REJECTED, reason), events := r.events + [LineRejected(r.lines[i].id, reason)])
  }

  lemma TwoEvents(events: seq<Event>, a: Event, b: Event, f: Event -> int)
    ensures Sum(events + [a, b], f) == Sum(events, f) + f(a) + f(b)
  {
    assert events + [a, b] == (events + [a]) + [b];
    SumSnoc(events, a, f);
    SumSnoc(events + [a], b, f);
  }

  lemma ResolvingCounts(r: Room, i: nat, resolution: Resolution, reason: string)
    requires i < |r.lines| && r.lines[i].resolution == PENDING && resolution != PENDING
    ensures Pending(Resolved(r, i, resolution, reason)) == Pending(r.lines) - 1
  {
    SumUpdate(r.lines, i, r.lines[i].(resolution := resolution, reason := reason), Is(PENDING));
  }

  /** Approval moves the line's unit to what was counted, plus whatever moved since submit, and no other
      line's unit; the line is adjusted for once. */
  lemma ApprovingKeeps(r: Room, i: nat)
    requires Inv(r) && r.status == SUBMITTED && i < |r.lines| && r.lines[i].resolution == PENDING
    requires r.lines[i] in r.lines && r.onHand[r.lines[i].unit] + r.lines[i].variance.value >= 0
    ensures Submitted(Approving(r, i))
    ensures Approving(r, i).onHand[r.lines[i].unit] == r.lines[i].counted + NetMovement(r, r.lines[i].unit)
  {
    var l, after := r.lines[i], Approving(r, i);
    assert FrozenLine(r, l);
    var a, b := StockAdjusted(l.unit, l.variance.value, l.id), LineApproved(l.id, l.variance.value);
    TwoEvents(r.events, a, b, ClosedEvent);
    forall j | 0 <= j < |r.lines|
      ensures FrozenLine(after, after.lines[j])
      ensures Sum(after.events, AdjustedFor(after.lines[j].id)) ==
        if after.lines[j].resolution == APPROVED then 1 else 0
    {
      TwoEvents(r.events, a, b, AdjustedFor(r.lines[j].id));
      assert r.lines[j] in r.lines && FrozenLine(r, r.lines[j]);
    }
  }

  lemma RejectingKeeps(r: Room, i: nat, reason: string)
    requires Inv(r) && r.status == SUBMITTED && i < |r.lines| && r.lines[i].resolution == PENDING
    ensures Submitted(Rejecting(r, i, reason))
  {
    var l, after := r.lines[i], Rejecting(r, i, reason);
    var e := LineRejected(l.id, reason);
    SumSnoc(r.events, e, ClosedEvent);
    forall j | 0 <= j < |r.lines|
      ensures FrozenLine(after, after.lines[j])
      ensures Sum(after.events, AdjustedFor(after.lines[j].id)) ==
        if after.lines[j].resolution == APPROVED then 1 else 0
    {
      SumSnoc(r.events, e, AdjustedFor(r.lines[j].id));
      assert r.lines[j] in r.lines && FrozenLine(r, r.lines[j]);
    }
  }

  // ---- When a request is refused ----

  function LineIndex(lines: seq<TakeLine>, id: Id): (i: nat)
    ensures i <= |lines|
    ensures i < |lines| ==> lines[i].id == id
    ensures i == |lines| ==> forall l | l in lines :: l.id != id
  {
    if lines == [] || lines[0].id == id then 0 else 1 + LineIndex(lines[1..], id)
  }

  function AddRefusal(r: Room, unit: Unit): Option<TakeRefusal> {
    if r.status != DRAFT then Some(WrongStatus)
    else if unit.kind == PRODUCT then Some(StockRefused(NotAUnit))
    else if unit !in r.onHand then Some(UnitMissing)
    else if exists l | l in r.lines :: l.unit == unit then Some(DuplicateLine)
    else None
  }
  function EditRefusal(r: Room, id: Id): Option<TakeRefusal> {
    if r.status != DRAFT then Some(WrongStatus)
    else if LineIndex(r.lines, id) == |r.lines| then Some(LineMissing) else None
  }
  function SubmitRefusal(r: Room): Option<TakeRefusal> {
    if r.status != DRAFT then Some(WrongStatus)
    else if r.lines == [] then Some(NoLines)
    else if exists l | l in r.lines :: l.unit !in r.onHand then Some(UnitMissing)
    else None
  }
  function ResolveRefusal(r: Room, id: Id): Option<TakeRefusal> {
    if r.status != SUBMITTED then Some(WrongStatus)
    else
      var i := LineIndex(r.lines, id);
      if i == |r.lines| then Some(LineMissing)
      else if r.lines[i].resolution != PENDING then Some(AlreadyResolved) else None
  }
  /** Approval is also refused if it would take the stock below zero. */
  function ApproveRefusal(r: Room, id: Id): Option<TakeRefusal> {
    var refusal := ResolveRefusal(r, id);
    if refusal.Some? then refusal
    else
      var l := r.lines[LineIndex(r.lines, id)];
      if l.variance == None || l.variance.value == 0 then Some(NoVariance)
      else if l.unit.kind == PRODUCT then Some(StockRefused(NotAUnit))
      else if l.unit !in r.onHand then Some(StockRefused(TypeMissing))
      else if r.onHand[l.unit] + l.variance.value < 0 then Some(StockRefused(BelowZero))
      else None
  }

  /** In a reachable state an approval of a pending line is refused exactly when what was counted plus
      what moved since is below zero. */
  lemma ApprovalRefusedExactly(r: Room, id: Id)
    requires Inv(r) && ResolveRefusal(r, id) == None
    ensures var l := r.lines[LineIndex(r.lines, id)];
      ApproveRefusal(r, id) == (if l.counted + NetMovement(r, l.unit) < 0 then Some(StockRefused(BelowZero)) else None)
  {
    var l := r.lines[LineIndex(r.lines, id)];
    assert FrozenLine(r, l);
  }

  // ---- Editing a draft ----

  function NewLine(id: Id, unit: Unit, counted: int): TakeLine { TakeLine(id, unit, counted, 0, None, PENDING, "") }

  lemma AddingKeepsInv(r: Room, id: Id, unit: Unit, counted: int)
    requires Inv(r) && AddRefusal(r, unit) == None && forall l | l in r.lines :: l.id != id
    ensures Inv(r.(lines := r.lines + [NewLine(id, unit, counted)]))
  {
    var lines := r.lines + [NewLine(id, unit, counted)];
    forall i, j | 0 <= i < j < |lines| ensures lines[i].id != lines[j].id && lines[i].unit != lines[j].unit {
      assert lines[i] in r.lines;
    }
  }

  lemma EditingKeepsInv(r: Room, i: nat, counted: int)
    requires Inv(r) && r.status == DRAFT && i < |r.lines|
    ensures Inv(r.(lines := r.lines[i := r.lines[i].(counted := counted)]))
  {
    assert DraftLine(r.lines[i]);
  }

  lemma RemovingKeepsInv(r: Room, i: nat)
    requires Inv(r) && r.status == DRAFT && i < |r.lines|
    ensures Inv(r.(lines := r.lines[..i] + r.lines[i + 1..]))
  {
    var lines := r.lines[..i] + r.lines[i + 1..];
    forall l | l in lines ensures l in r.lines {
    }
  }

  lemma ApproveKeeps(r: Room, id: Id)
    requires Inv(r) && ApproveRefusal(r, id) == None
    ensures var i := LineIndex(r.lines, id);
      Inv(Closing(Approving(r, i))) && Pending(Closing(Approving(r, i)).lines) == Pending(r.lines) - 1
  {
    var i := LineIndex(r.lines, id);
    ApprovingKeeps(r, i);
    ResolvingCounts(r, i, APPROVED, r.lines[i].reason);
    ClosingKeepsInv(Approving(r, i));
  }

  lemma RejectKeeps(r: Room, id: Id, reason: string)
    requires Inv(r) && ResolveRefusal(r, id) == None
    ensures var i := LineIndex(r.lines, id);
      Inv(Closing(Rejecting(r, i, reason))) && Pending(Closing(Rejecting(r, i, reason)).lines) == Pending(r.lines) - 1
  {
    var i := LineIndex(r.lines, id);
    RejectingKeeps(r, i, reason);
    ResolvingCounts(r, i, REJECTED, reason);
    ClosingKeepsInv(Rejecting(r, i, reason));
  }

  lemma SubmitKeeps(r: Room)
    requires Inv(r) && SubmitRefusal(r) == None
    ensures Inv(Closing(SubmittedRoom(r)))
  {
    SubmitFreezes(r);
    ClosingKeepsInv(SubmittedRoom(r));
  }

  // ---- The take ----

  class Take {
    var status: Status
    var lines: seq<TakeLine>
    var onHand: map<Unit, int>
    var events: seq<Event>
    var movements: seq<Adjustment>
    var frozenAt: nat

    function Contents(): Room reads this { Room(status, lines, onHand, events, movements, frozenAt) }
    ghost predicate Valid() reads this { Inv(Contents()) }

    constructor (onHand: map<Unit, int>)
      requires forall u | u in onHand :: onHand[u] >= 0
      ensures Valid() && Contents() == Room(DRAFT, [], onHand, [], [], 0)
    {
      this.onHand, status, lines, events, movements, frozenAt := onHand, DRAFT, [], [], [], 0;
    }

    /** Any other movement of the stock being counted: it commits only if the stock stays non-negative. */
    method Move(u: Unit, delta: int) returns (moved: bool)
      requires Valid()
      modifies this
      ensures Valid() && (moved <==> u in old(onHand) && old(onHand)[u] + delta >= 0)
      ensures Contents() == if moved then AfterMove(old(Contents()), u, delta) else old(Contents())
    {
      moved := u in onHand && onHand[u] + delta >= 0;
      if moved {
        MoveKeepsInv(Contents(), u, delta);
        onHand, movements := Moved(onHand, u, delta), movements + [Adjustment(u, delta)];
      }
    }

    method AddLine(id: Id, unit: Unit, counted: int) returns (r: Result<(), TakeRefusal>)
      requires Valid() && counted >= 0 && forall l | l in lines :: l.id != id
      modifies this
      ensures Valid()
      ensures match AddRefusal(old(Contents()), unit)
        case Some(e) => r == Err(e) && Contents() == old(Contents())
        case None => r == Ok(()) && Contents() == old(Contents()).(lines := old(lines) + [NewLine(id, unit, counted)])
    {
      var refusal := AddRefusal(Contents(), unit);
      if refusal.Some? {
        return Err(refusal.value);
      }
      AddingKeepsInv(Contents(), id, unit, counted);
      lines := lines + [NewLine(id, unit, counted)];
      return Ok(());
    }

    method EditLine(id: Id, counted: int) returns (r: Result<(), TakeRefusal>)
      requires Valid() && counted >= 0
      modifies this
      ensures Valid()
      ensures match EditRefusal(old(Contents()), id)
        case Some(e) => r == Err(e) && Contents() == old(Contents())
        case None =>
          && r == Ok(())
          && var i := LineIndex(old(lines), id);
             Contents() == old(Contents()).(lines := old(lines)[i := old(lines)[i].(counted := counted)])
    {
      var refusal := EditRefusal(Contents(), id);
      if refusal.Some? {
        return Err(refusal.value);
      }
      var i := LineIndex(lines, id);
      EditingKeepsInv(Contents(), i, counted);
      lines := lines[i := lines[i].(counted := counted)];
      return Ok(());
    }

    method RemoveLine(id: Id) returns (r: Result<(), TakeRefusal>)
      requires Valid()
      modifies this
      ensures Valid()
      ensures match EditRefusal(old(Contents()), id)
        case Some(e) => r == Err(e) && Contents() == old(Contents())
        case None =>
          && r == Ok(())
          && var i := LineIndex(old(lines), id);
             Contents() == old(Contents()).(lines := old(lines)[..i] + old(lines)[i + 1..])
    {
      var refusal := EditRefusal(Contents(), id);
      if refusal.Some? {
        return Err(refusal.value);
      }
      var i := LineIndex(lines, id);
      RemovingKeepsInv(Contents(), i);
      lines := lines[..i] + lines[i + 1..];
      return Ok(());
    }

    /** `_maybe_close_take` */
    method MaybeClose()
      modifies this
      ensures Contents() == Closing(old(Contents()))
    {
      if status == CLOSED {
        return;
      }
      if Pending(lines) > 0 {
        return;
      }
      status := CLOSED;
      events := events + [TakeClosed(Sum(lines, Is(APPROVED)), Sum(lines, Is(REJECTED)), Sum(lines, Is(NO_VARIANCE)))];
    }

    /** The loop of submit_stock_take: freezes each line and counts the variances. */
    method FreezeLines() returns (varianceCount: int, totalAbs: int)
      requires forall l | l in lines :: l.unit in onHand && l.resolution == PENDING
      modifies this`lines
      ensures lines == FrozenAll(old(lines), onHand)
      ensures varianceCount == Pending(lines) && totalAbs == Sum(lines, VarianceAbs)
    {
      ghost var before := lines;
      varianceCount, totalAbs := 0, 0;
      var i := 0;
      while i < |lines|
        invariant 0 <= i <= |lines| == |before|
        invariant forall j | 0 <= j < i :: lines[j] == Frozen(before[j], onHand[before[j].unit])
        invariant forall j | i <= j < |before| :: lines[j] == before[j]
        invariant varianceCount == Sum(lines[..i], Is(PENDING)) && totalAbs == Sum(lines[..i], VarianceAbs)
      {
        assert before[i] in before;
        var l := lines[i];
        var frozen := Frozen(l, onHand[l.unit]);
        ghost var done := lines[..i];
        lines := lines[i := frozen];
        assert lines[..i] == done;
        SumPrefix(lines, i, Is(PENDING));
        SumPrefix(lines, i, VarianceAbs);
        if frozen.variance.value != 0 {
          varianceCount := varianceCount + 1;
          totalAbs := totalAbs + Abs(frozen.variance.value);
        }
        i := i + 1;
      }
      assert lines[..|lines|] == lines;
    }

    method Submit() returns (r: Result<(), TakeRefusal>)
      requires Valid()
      modifies this
      ensures Valid()
      ensures match SubmitRefusal(old(Contents()))
        case Some(e) => r == Err(e) && Contents() == old(Contents())
        case None => r == Ok(()) && Contents() == Closing(SubmittedRoom(old(Contents())))
    {
      var refusal := SubmitRefusal(Contents());
      if refusal.Some? {
        return Err(refusal.value);
      }
      SubmitKeeps(Contents());
      ghost var next := SubmittedRoom(Contents());
      assert forall l | l in lines :: DraftLine(l);
      var varianceCount, totalAbs := FreezeLines();
      status, frozenAt := SUBMITTED, |movements|;
      events := events + [TakeSubmitted(|lines|, varianceCount, totalAbs)];
      assert Contents() == next;
      MaybeClose();
      return Ok(());
    }

    /** Pending lines are the measure: every accepted resolution leaves one fewer, and the last closes. */
    method Approve(id: Id) returns (r: Result<(), TakeRefusal>)
      requires Valid()
      modifies this
      ensures Valid() && Rank(status) >= Rank(old(status))
      ensures match ApproveRefusal(old(Contents()), id)
        case Some(e) => r == Err(e) && Contents() == old(Contents())
        case None =>
          && r == Ok(()) && Pending(lines) == Pending(old(lines)) - 1
          && Contents() == Closing(Approving(old(Contents()), LineIndex(old(lines), id)))
    {
      var refusal := ApproveRefusal(Contents(), id);
      if refusal.Some? {
        return Err(refusal.value);
      }
      ApproveKeeps(Contents(), id);
      var i := LineIndex(lines, id);
      ghost var next := Approving(Contents(), i);
      var l := lines[i];
      onHand := Moved(onHand, l.unit, l.variance.value);
      lines := lines[i := l.(resolution := APPROVED)];
      events := events + [StockAdjusted(l.unit, l.variance.value, l.id), LineApproved(l.id, l.variance.value)];
      assert Contents() == next;
      MaybeClose();
      return Ok(());
    }

    method Reject(id: Id, reason: string) returns (r: Result<(), TakeRefusal>)
      requires Valid()
      modifies this
      ensures Valid() && Rank(status) >= Rank(old(status)) && onHand == old(onHand)
      ensures match ResolveRefusal(old(Contents()), id)
        case Some(e) => r == Err(e) && Contents() == old(Contents())
        case None =>
          && r == Ok(()) && Pending(lines) == Pending(old(lines)) - 1
          && Contents() == Closing(Rejecting(old(Contents()), LineIndex(old(lines), id), reason))
    {
      var refusal := ResolveRefusal(Contents(), id);
      if refusal.Some? {
        return Err(refusal.value);
      }
      RejectKeeps(Contents(), id, reason);
      var i := LineIndex(lines, id);
      ghost var next := Rejecting(Contents(), i, reason);
      events := events + [LineRejected(lines[i].id, reason)];
      lines := lines[i := lines[i].(resolution := REJECTED, reason := reason)];
      assert Contents() == next;
      MaybeClose();
      return Ok(());
    }
  }
}
