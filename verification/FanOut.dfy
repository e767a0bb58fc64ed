/** The bounded concurrent fan-out of the dashboard (`dashboard.run_sections`): any number of loads, each
    with its own lanes and deque of sections, sharing one gate. A schedule is any sequence of lane steps. */
module FanOut {
  import opened Wrappers
  import opened Sums

  /** What section `section` of load `load` returns. */
  datatype Outcome = Outcome(load: nat, section: nat)

  datatype Lane =
    | Waiting  // for a slot of the gate
    | Ready(session: nat)  // slot taken, session open, between two sections
    | Running(session: nat, section: nat)
    | Done
  {
    predicate Holds() { Ready? || Running? }
  }

  /** `started` is the history of sections taken off the deque. */
  datatype Load = Load(maxConcurrency: nat, lanes: seq<Lane>, pending: seq<nat>, started: seq<nat>,
                       results: seq<Option<Outcome>>)

  datatype State = State(loads: seq<Load>, nextSession: nat)

  function Min(x: nat, y: nat): nat { if x < y then x else y }
  function Range(n: nat): seq<nat> { seq(n, i => i) }

  function NewLoad(sections: nat, maxConcurrency: nat): Load {
    Load(maxConcurrency, seq(Min(maxConcurrency, sections), i => Waiting), Range(sections), [],
        seq(sections, i => None))
  }

  ghost predicate Start(s: State) {
    s.nextSession == 0
    && forall l | l in s.loads :: l.maxConcurrency >= 1 && l == NewLoad(|l.results|, l.maxConcurrency)
  }

  function OneHeld(l: Lane): int { if l.Holds() then 1 else 0 }
  function HeldBy(l: Load): int { Sum(l.lanes, OneHeld) }
  function Held(s: State): int { Sum(s.loads, HeldBy) }

  // ---- Steps: lane `b` of load `a` goes on ----

  datatype Turn = Turn(load: nat, lane: nat)

  predicate Exists(s: State, t: Turn) { t.load < |s.loads| && t.lane < |s.loads[t.load].lanes| }

  /** A waiting lane needs a free slot; a ready or running one can always go on. */
  predicate Enabled(s: State, t: Turn, gate: nat) {
    && Exists(s, t)
    && var lane := s.loads[t.load].lanes[t.lane];
       (lane.Waiting? ==> Held(s) < gate) && !lane.Done?
  }

  function WithLane(s: State, t: Turn, lane: Lane): State
    requires Exists(s, t)
  {
    var l := s.loads[t.load];
    s.(loads := s.loads[t.load := l.(lanes := l.lanes[t.lane := lane])])
  }

  function Next(s: State, t: Turn): State
    requires Exists(s, t)
  {
    var l := s.loads[t.load];
    match l.lanes[t.lane]
    case Waiting =>
      // the slot is given back at once if the work is already done
      if l.pending == [] then WithLane(s, t, Done)
      else WithLane(s, t, Ready(s.nextSession)).(nextSession := s.nextSession + 1)
    case Ready(session) =>
      if l.pending == [] then WithLane(s, t, Done)
      else
        var i := l.pending[0];
        s.(loads := s.loads[t.load := l.(lanes := l.lanes[t.lane := Running(session, i)], pending := l.pending[1..],
                                         started := l.started + [i])])
    case Running(session, i) =>
      s.(loads := s.loads[t.load := l.(lanes := l.lanes[t.lane := Ready(session)],
                                       results := if i < |l.results| then l.results[i := Some(Outcome(t.load, i))]
                                                  else l.results)])
    case Done => s
  }

  // ---- What every step keeps ----

  ghost predicate InFlight(l: Load, i: nat) {
    exists b :: 0 <= b < |l.lanes| && l.lanes[b].Running? && l.lanes[b].section == i
  }

  ghost predicate GoodLoad(l: Load, a: nat) {
    && l.started + l.pending == Range(|l.results|)
    && |l.lanes| == Min(l.maxConcurrency, |l.results|) && l.maxConcurrency >= 1
    && (forall b | 0 <= b < |l.lanes| && l.lanes[b].Running? :: l.lanes[b].section < |l.started|)
    && (forall b, c | 0 <= b < c < |l.lanes| && l.lanes[b].Running? && l.lanes[c].Running? ::
          l.lanes[b].section != l.lanes[c].section)
    && (forall i | 0 <= i < |l.results| ::
          l.results[i] == if i < |l.started| && !InFlight(l, i) then Some(Outcome(a, i)) else None)
    && (forall b | 0 <= b < |l.lanes| && l.lanes[b].Done? :: l.pending == [])
  }

  ghost predicate OwnSessions(s: State) {
    && (forall t: Turn | Exists(s, t) && LaneAt(s, t).Holds() :: LaneAt(s, t).session < s.nextSession)
    && (forall t: Turn, u: Turn | Exists(s, t) && Exists(s, u) && LaneAt(s, t).Holds() && LaneAt(s, u).Holds()
                                  && LaneAt(s, t).session == LaneAt(s, u).session :: t == u)
  }

  function LaneAt(s: State, t: Turn): Lane
    requires Exists(s, t)
  {
    s.loads[t.load].lanes[t.lane]
  }

  ghost predicate Inv(s: State, gate: nat) {
    && (forall a: nat | a < |s.loads| :: GoodLoad(s.loads[a], a))
    && OwnSessions(s) && Held(s) <= gate
  }

  // ---- Sessions and slots ----

  lemma HeldAfter(s: State, t: Turn, l: Load, lane: Lane)
    requires Exists(s, t) && l.lanes == s.loads[t.load].lanes[t.lane := lane]
    ensures Held(s.(loads := s.loads[t.load := l])) == Held(s) - OneHeld(LaneAt(s, t)) + OneHeld(lane)
  {
    SumUpdate(s.loads[t.load].lanes, t.lane, lane, OneHeld);
    SumUpdate(s.loads, t.load, l, HeldBy);
  }

  lemma SessionsAfter(s: State, t: Turn, l: Load, lane: Lane, next: nat)
    requires Exists(s, t) && OwnSessions(s) && l.lanes == s.loads[t.load].lanes[t.lane := lane] && next >= s.nextSession
    requires lane.Holds() ==>
      || (LaneAt(s, t).Holds() && lane.session == LaneAt(s, t).session)
      || (lane.session == s.nextSession && next > s.nextSession)
    ensures OwnSessions(State(s.loads[t.load := l], next))
  {
    var after := State(s.loads[t.load := l], next);
    forall u: Turn | Exists(after, u)
      ensures Exists(s, u) && LaneAt(after, u) == if u == t then lane else LaneAt(s, u)
    {
    }
  }

  // ---- One load ----

  lemma PullKeepsGood(l: Load, a: nat, b: nat, session: nat)
    requires GoodLoad(l, a) && b < |l.lanes| && !l.lanes[b].Running? && l.pending != []
    ensures GoodLoad(l.(lanes := l.lanes[b := Running(session, l.pending[0])], pending := l.pending[1..],
                        started := l.started + [l.pending[0]]), a)
  {
    var i := l.pending[0];
    var after := l.(lanes := l.lanes[b := Running(session, i)], pending := l.pending[1..], started := l.started + [i]);
    var k := |l.started|;
    assert (l.started + l.pending)[k] == i == Range(|l.results|)[k] == k;
    assert after.started + after.pending == l.started + l.pending;
    forall j: nat | j < |l.results| ensures InFlight(after, j) <==> InFlight(l, j) || j == i {
      if InFlight(l, j) {
        var c :| 0 <= c < |l.lanes| && l.lanes[c].Running? && l.lanes[c].section == j;
        assert after.lanes[c] == l.lanes[c];
      }
      if j == i {
        assert after.lanes[b].section == i;
      }
    }
  }

  lemma FinishKeepsGood(l: Load, a: nat, b: nat)
    requires GoodLoad(l, a) && b < |l.lanes| && l.lanes[b].Running?
    ensures l.lanes[b].section < |l.results|
    ensures var i := l.lanes[b].section;
      GoodLoad(l.(lanes := l.lanes[b := Ready(l.lanes[b].session)], results := l.results[i := Some(Outcome(a, i))]), a)
  {
    var i := l.lanes[b].section;
    assert |l.started| <= |l.started + l.pending| == |Range(|l.results|)|;
    var after := l.(lanes := l.lanes[b := Ready(l.lanes[b].session)], results := l.results[i := Some(Outcome(a, i))]);
    forall j: nat | j < |l.results| ensures InFlight(after, j) <==> InFlight(l, j) && j != i {
      if InFlight(l, j) && j != i {
        var c :| 0 <= c < |l.lanes| && l.lanes[c].Running? && l.lanes[c].section == j;
        assert after.lanes[c] == l.lanes[c];
      }
      if InFlight(after, j) {
        var c :| 0 <= c < |after.lanes| && after.lanes[c].Running? && after.lanes[c].section == j;
        assert l.lanes[c] == after.lanes[c];
      }
    }
  }

  /** A lane that neither starts nor finishes a section. */
  lemma MoveKeepsGood(l: Load, a: nat, b: nat, lane: Lane)
    requires GoodLoad(l, a) && b < |l.lanes| && !l.lanes[b].Running? && !lane.Running?
      && (lane.Done? ==> l.pending == [])
    ensures GoodLoad(l.(lanes := l.lanes[b := lane]), a)
  {
    var after := l.(lanes := l.lanes[b := lane]);
    forall j: nat | j < |l.results| ensures InFlight(after, j) <==> InFlight(l, j) {
      if InFlight(l, j) {
        var c :| 0 <= c < |l.lanes| && l.lanes[c].Running? && l.lanes[c].section == j;
        assert after.lanes[c] == l.lanes[c];
      }
      if InFlight(after, j) {
        var c :| 0 <= c < |after.lanes| && after.lanes[c].Running? && after.lanes[c].section == j;
        assert l.lanes[c] == after.lanes[c];
      }
    }
  }

  // ---- Every step, every run ----

  lemma StepKeepsInv(s: State, t: Turn, gate: nat)
    requires Inv(s, gate) && Enabled(s, t, gate)
    ensures Inv(Next(s, t), gate)
  {
    var l, after := s.loads[t.load], Next(s, t);
    var l', lane := after.loads[t.load], LaneAt(after, t);
    assert after.loads == s.loads[t.load := l'];
    assert l'.lanes == l.lanes[t.lane := lane];
    StepKeepsGood(s, t, gate);
    HeldAfter(s, t, l', lane);
    SessionsAfter(s, t, l', lane, after.nextSession);
    assert after.(nextSession := s.nextSession) == s.(loads := s.loads[t.load := l']);
  }

  lemma StepKeepsGood(s: State, t: Turn, gate: nat)
    requires Inv(s, gate) && Enabled(s, t, gate)
    ensures GoodLoad(Next(s, t).loads[t.load], t.load)
  {
    var l := s.loads[t.load];
    match l.lanes[t.lane]
    case Waiting => MoveKeepsGood(l, t.load, t.lane, if l.pending == [] then Done else Ready(s.nextSession));
    case Ready(session) =>
      if l.pending == [] {
        MoveKeepsGood(l, t.load, t.lane, Done);
      } else {
        PullKeepsGood(l, t.load, t.lane, session);
      }
    case Running(session, i) => FinishKeepsGood(l, t.load, t.lane);
    case Done =>
  }

  lemma StartIsGood(s: State, gate: nat)
    requires Start(s)
    ensures Inv(s, gate)
  {
    forall a: nat | a < |s.loads| ensures GoodLoad(s.loads[a], a) && HeldBy(s.loads[a]) == 0 {
      var l := s.loads[a];
      assert l in s.loads;
      assert [] + l.pending == l.pending;
      SumZero(l.lanes, OneHeld);
    }
    SumZero(s.loads, HeldBy);
    forall t: Turn | Exists(s, t) ensures LaneAt(s, t) == Waiting {
      assert s.loads[t.load] in s.loads;
    }
  }

  ghost function After(s: State, turns: seq<Turn>): State {
    if turns == [] then s
    else
      var before := After(s, turns[..|turns| - 1]);
      if Exists(before, turns[|turns| - 1]) then Next(before, turns[|turns| - 1]) else before
  }

  /** A schedule: each turn is taken by a lane that can go on. */
  ghost predicate Schedule(s: State, turns: seq<Turn>, gate: nat) {
    forall i | 0 <= i < |turns| :: Enabled(After(s, turns[..i]), turns[i], gate)
  }

  lemma {:induction false} ScheduleKeepsInv(s: State, turns: seq<Turn>, gate: nat)
    requires Start(s) && Schedule(s, turns, gate)
    ensures Inv(After(s, turns), gate)
  {
    if turns == [] {
      StartIsGood(s, gate);
    } else {
      var n := |turns| - 1;
      PrefixSchedule(s, turns, gate);
      ScheduleKeepsInv(s, turns[..n], gate);
      StepKeepsInv(After(s, turns[..n]), turns[n], gate);
    }
  }

  lemma PrefixSchedule(s: State, turns: seq<Turn>, gate: nat)
    requires Schedule(s, turns, gate) && turns != []
    ensures Schedule(s, turns[..|turns| - 1], gate)
    ensures Enabled(After(s, turns[..|turns| - 1]), turns[|turns| - 1], gate)
  {
    var n := |turns| - 1;
    assert forall i | 0 <= i < n :: turns[..n][..i] == turns[..i];
  }

  // ---- The bounds ----

  lemma {:induction false} FewHeld(lanes: seq<Lane>)
    ensures Sum(lanes, OneHeld) <= |lanes|
  {
    if lanes != [] {
      FewHeld(lanes[..|lanes| - 1]);
    }
  }

  /** Sessions held: never above the gate all together, nor above a load's own limit; none is shared; and
      a section is started at most once, in order. */
  lemma SessionsAreBounded(s: State, turns: seq<Turn>, gate: nat, a: nat)
    requires Start(s) && Schedule(s, turns, gate)
    requires a < |After(s, turns).loads|
    ensures var now := After(s, turns);
      && Held(now) <= gate
      && HeldBy(now.loads[a]) <= now.loads[a].maxConcurrency
      && (forall t: Turn, u: Turn | Exists(now, t) && Exists(now, u) && t != u && LaneAt(now, t).Holds()
                                    && LaneAt(now, u).Holds() :: LaneAt(now, t).session != LaneAt(now, u).session)
      && (forall i | 0 <= i < |now.loads[a].started| :: now.loads[a].started[i] == i)
  {
    ScheduleKeepsInv(s, turns, gate);
    var l := After(s, turns).loads[a];
    FewHeld(l.lanes);
    forall i | 0 <= i < |l.started| ensures l.started[i] == i {
      assert (l.started + l.pending)[i] == Range(|l.results|)[i];
    }
  }

  // ---- Every load finishes ----

  function LaneWork(l: Lane): int {
    match l case Waiting => 2 case Ready(_) => 1 case Running(_, _) => 2 case Done => 0
  }
  function LoadWork(l: Load): int { 2 * |l.pending| + Sum(l.lanes, LaneWork) }
  function Work(s: State): int { Sum(s.loads, LoadWork) }

  lemma StepWorks(s: State, t: Turn, gate: nat)
    requires Enabled(s, t, gate)
    ensures Work(Next(s, t)) < Work(s)
  {
    var l, l' := s.loads[t.load], Next(s, t).loads[t.load];
    SumUpdate(l.lanes, t.lane, LaneAt(Next(s, t), t), LaneWork);
    assert l'.lanes == l.lanes[t.lane := LaneAt(Next(s, t), t)];
    SumUpdate(s.loads, t.load, l', LoadWork);
    assert Next(s, t).loads == s.loads[t.load := l'];
  }

  lemma WorkIsNatural(s: State)
    ensures Work(s) >= 0
  {
    forall l | l in s.loads ensures LoadWork(l) >= 0 {
      SumNonNegative(l.lanes, LaneWork);
    }
    SumNonNegative(s.loads, LoadWork);
  }

  /** No schedule is longer than the work there was at the start. */
  lemma {:induction false} SchedulesEnd(s: State, turns: seq<Turn>, gate: nat)
    requires Schedule(s, turns, gate)
    ensures |turns| + Work(After(s, turns)) <= Work(s)
    ensures |turns| <= Work(s)
  {
    WorkIsNatural(After(s, turns));
    if turns != [] {
      var n := |turns| - 1;
      PrefixSchedule(s, turns, gate);
      SchedulesEnd(s, turns[..n], gate);
      StepWorks(After(s, turns[..n]), turns[n], gate);
    }
  }

  /** Every section's result at its own index. */
  function Answers(n: nat, a: nat): seq<Option<Outcome>> { seq(n, i requires 0 <= i < n => Some(Outcome(a, i))) }

  ghost predicate Finished(s: State) {
    forall a: nat | a < |s.loads| ::
      s.loads[a].results == Answers(|s.loads[a].results|, a)
      && s.loads[a].started == Range(|s.loads[a].results|)
  }

  /** No deadlock: while a lane is not done, some lane can go on. */
  lemma SomeLaneGoesOn(s: State, t: Turn, gate: nat) returns (u: Turn)
    requires gate >= 1 && Exists(s, t) && !LaneAt(s, t).Done?
    ensures Enabled(s, u, gate)
  {
    if u' :| Exists(s, u') && LaneAt(s, u').Holds() {
      u := u';
    } else {
      forall l | l in s.loads ensures HeldBy(l) == 0 {
        var a :| 0 <= a < |s.loads| && s.loads[a] == l;
        forall x | x in l.lanes ensures OneHeld(x) == 0 {
          var b :| 0 <= b < |l.lanes| && l.lanes[b] == x;
          assert Exists(s, Turn(a, b)) && LaneAt(s, Turn(a, b)) == x;
        }
        SumZero(l.lanes, OneHeld);
      }
      SumZero(s.loads, HeldBy);
      u := t;
    }
  }

  lemma AllDoneIsFinished(s: State, gate: nat)
    requires Inv(s, gate) && forall t: Turn | Exists(s, t) :: LaneAt(s, t).Done?
    ensures Finished(s)
  {
    forall a: nat | a < |s.loads|
      ensures s.loads[a].results == Answers(|s.loads[a].results|, a)
      ensures s.loads[a].started == Range(|s.loads[a].results|)
    {
      var l := s.loads[a];
      forall b | 0 <= b < |l.lanes| ensures l.lanes[b].Done? {
        assert LaneAt(s, Turn(a, b)).Done?;
      }
      DoneLoad(l, a);
    }
  }

  lemma DoneLoad(l: Load, a: nat)
    requires GoodLoad(l, a) && forall b | 0 <= b < |l.lanes| :: l.lanes[b].Done?
    ensures l.results == Answers(|l.results|, a) && l.started == Range(|l.results|)
  {
    if |l.results| > 0 {
      assert l.lanes[0].Done?;
    }
    assert l.pending == [];
    assert l.started + [] == l.started;
  }

  /** A schedule that cannot be continued has finished every load: each section ran exactly once and its
      result is at its own index. Since no schedule goes on forever, every load finishes. */
  lemma EveryLoadFinishes(s: State, turns: seq<Turn>, gate: nat)
    requires gate >= 1 && Start(s) && Schedule(s, turns, gate)
    requires forall t: Turn :: !Enabled(After(s, turns), t, gate)
    ensures Finished(After(s, turns))
  {
    ScheduleKeepsInv(s, turns, gate);
    var now := After(s, turns);
    forall t: Turn | Exists(now, t) ensures LaneAt(now, t).Done? {
      if !LaneAt(now, t).Done? {
        var u := SomeLaneGoesOn(now, t, gate);
      }
    }
    AllDoneIsFinished(now, gate);
  }
}
