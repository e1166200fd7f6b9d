/** Every guard of a listener in motion. */
module GuardSystem {
  import opened Bytes
  import opened GuardSpec

  /** A guard and what is under way for it: timer goroutines that fired and
      have not called fail yet, calls that ended it and must still close its
      connection, call onDone or finish onDone. `finished`, `closed`,
      `completed` and `passed` count what was done: onDone, closing, complete
      and next. `raced` says that its timer fired inside a next that moved the
      phase beyond that moment. */
  datatype Entry = Entry(
    g: Guard, firing: nat, closing: nat, owed: nat, half: nat,
    finished: nat, closed: nat, completed: nat, passed: nat, raced: bool)

  function NewEntry(now: int): Entry {
    Entry(NewGuard(now), 0, 0, 0, 0, 0, 0, 0, 0, false)
  }

  /** `reserved` connections hold a slot and have no guard yet; `late` are the
      guards made after stop; `returned` says that stop is over. */
  datatype System = System(
    l: Listener, entries: map<nat, Entry>, reserved: nat, todo: set<nat>, late: set<nat>, returned: bool, now: int)

  datatype Event =
    | Tick(d: nat)
    | Accept                                  // a connection asks for a slot
    | Guarded(id: nat)                        // and gets its guard
    | Fire(id: nat)                           // the timer is due
    | TimerFails(id: nat)                     // its goroutine's fail
    | Advance(id: nat, d: nat, fires: bool)   // next, whose two clock readings lie d apart
    | Finish(id: nat)                         // complete
    | Failing(id: nat)                        // Close, or a next or complete that found it too late
    | CloseConn(id: nat)
    | Done(id: nat)                           // onDone up to the unlock
    | Free(id: nat)                           // onDone's receive from the slots
    | SetDeadline(id: nat, t: Option<int>)
    | StopAll
    | StopOne(id: nat)
    | Handle                                  // a handler begins
    | Handled                                 // and ends
    | StopReturns                             // stop waited for the handlers

  function Initial(now: int): System {
    System(NEW_LISTENER, map[], 0, {}, {}, false, now)
  }

  function Subject(e: Event): Option<nat> {
    match e
    case Fire(id) => Some(id)
    case TimerFails(id) => Some(id)
    case Advance(id, _, _) => Some(id)
    case Finish(id) => Some(id)
    case Failing(id) => Some(id)
    case CloseConn(id) => Some(id)
    case Done(id) => Some(id)
    case Free(id) => Some(id)
    case SetDeadline(id, _) => Some(id)
    case StopOne(id) => Some(id)
    case _ => None
  }

  function FailStep(x: Entry): Entry {
    var (g, first) := Fail(x.g);
    if first then x.(g := g, closing := x.closing + 1) else x
  }

  /** next: between its two clock readings the old timer may fire. */
  function AdvanceStep(x: Entry, now: int, d: nat, fires: bool): Entry {
    var (g, ok) := Next(x.g, now, now + d);
    if !ok then x
    else if fires && x.g.timer.Some? && x.g.timer.value <= now + d then
      x.(g := g, passed := x.passed + 1, firing := x.firing + 1, raced := x.raced || now + d < x.g.until)
    else x.(g := g, passed := x.passed + 1)
  }

  function EntryStep(x: Entry, e: Event, now: int): Entry {
    match e
    case Fire(_) =>
      if x.g.timer.Some? && x.g.timer.value <= now then x.(g := x.g.(timer := None), firing := x.firing + 1) else x
    case TimerFails(_) => if x.firing > 0 then FailStep(x).(firing := x.firing - 1) else x
    case Advance(_, d, fires) => AdvanceStep(x, now, d, fires)
    case Finish(_) =>
      var (g, ok) := Complete(x.g, now);
      if ok then x.(g := g, owed := x.owed + 1, completed := x.completed + 1) else x
    case Failing(_) => FailStep(x)
    case StopOne(_) => FailStep(x)
    case CloseConn(_) =>
      if x.closing > 0 then x.(closing := x.closing - 1, closed := x.closed + 1, owed := x.owed + 1) else x
    case Done(_) => if x.owed > 0 then x.(owed := x.owed - 1, half := x.half + 1) else x
    case Free(_) => if x.half > 0 then x.(half := x.half - 1, finished := x.finished + 1) else x
    case SetDeadline(_, t) => x.(g := Deadline(x.g, t))
    case _ => x
  }

  /** One event; an event that is not enabled changes nothing. */
  function Step(s: System, e: Event): System {
    match Subject(e)
    case Some(id) =>
      if id !in s.entries || (e.StopOne? && id !in s.todo) then s
      else
        var x, y := s.entries[id], EntryStep(s.entries[id], e, s.now);
        s.(entries := s.entries[id := y],
           l := if y.half > x.half then Delete(s.l, id) else if y.finished > x.finished then Release(s.l) else s.l,
           todo := if e.StopOne? then s.todo - {id} else s.todo,
           now := if e.Advance? then s.now + e.d else s.now)
    case None =>
      match e
      case Tick(d) => s.(now := s.now + d)
      case Accept =>
        var (l, ok) := Reserve(s.l);
        if ok then s.(l := l, reserved := s.reserved + 1) else s
      case Guarded(id) =>
        if s.reserved == 0 || id in s.entries then s
        else
          s.(reserved := s.reserved - 1, l := Insert(s.l, id),
             entries := s.entries[id := NewEntry(s.now)],
             late := if s.l.stopping then s.late + {id} else s.late)
      case StopAll =>
        if s.l.stopping then s
        else
          var (l, active) := Stop(s.l);
          s.(l := l, todo := s.todo + active)
      case Handle => s.(l := Begin(s.l).0)
      case Handled => if s.l.handlers > 0 then s.(l := s.l.(handlers := s.l.handlers - 1)) else s
      case StopReturns => if s.l.stopping && s.todo == {} && s.l.handlers == 0 then s.(returned := true) else s
      case _ => s
  }

  function Run(s: System, es: seq<Event>): System
    decreases |es|
  {
    if es == [] then s else Run(Step(s, es[0]), es[1..])
  }

  // ---- Invariants ---------------------------------------------------------

  ghost predicate EntryOk(x: Entry, now: int) {
    // One call ends the guard, and only that one goes on to onDone.
    && x.closing + x.owed + x.half + x.finished == (if x.g.done then 1 else 0)
    && x.completed + x.closing + x.closed == (if x.g.done then 1 else 0)
    // Deadlines and the timer.
    && x.g.phase <= x.g.until && x.g.phase <= now + PHASE && x.g.until <= now + TOTAL
    && (!x.g.done ==> x.g.deadline.Some? && x.g.deadline.value <= x.g.phase)
    && (!x.g.done ==> x.g.timer == Some(x.g.phase) || (x.g.timer.None? && x.firing > 0))
    && (x.g.done ==> x.g.timer.None?)
    && (x.firing > 0 && !x.g.done ==> x.g.phase <= now || x.raced)
  }

  function Outstanding(s: System): set<nat> {
    set id | id in s.entries && s.entries[id].finished == 0
  }

  ghost predicate Slotted(s: System) {
    s.l.used == s.reserved + |Outstanding(s)| && s.l.used <= MAX_SLOTS
  }

  ghost predicate Listed(s: System) {
    && (forall id :: id in s.l.active <==> id in s.entries && s.entries[id].half + s.entries[id].finished == 0)
    && (s.l.stopping ==> forall id :: id in s.entries && !s.entries[id].g.done ==> id in s.todo || id in s.late)
    && s.todo <= s.entries.Keys && s.l.handlers >= 0
    && (s.returned ==> s.l.stopping && |s.todo| == 0 && s.l.handlers == 0)
  }

  ghost predicate Sound(s: System) {
    && (forall id :: id in s.entries ==> EntryOk(s.entries[id], s.now))
    && Slotted(s) && Listed(s)
  }

  lemma EntryKeeps(x: Entry, e: Event, now: int)
    requires EntryOk(x, now)
    ensures EntryOk(EntryStep(x, e, now), if e.Advance? then now + e.d else now)
  {
  }

  /** How far one entry's step changes what the listener sees. */
  lemma EntryShape(x: Entry, e: Event, now: int)
    requires EntryOk(x, now)
    ensures var y := EntryStep(x, e, now);
            && (y.half > x.half ==> y.half == 1 && y.finished == x.finished == 0)
            && (y.finished > x.finished ==> y.finished == 1 && x.finished == 0 && y.half < x.half)
            && (y.half <= x.half && y.finished <= x.finished ==> y.half == x.half && y.finished == x.finished)
            && (y.finished >= x.finished)
            && (x.g.done ==> y.g.done)
            && (e.StopOne? ==> y.g.done)
  {
  }

  lemma Later(x: Entry, now: int, d: nat)
    requires EntryOk(x, now)
    ensures EntryOk(x, now + d)
  {
  }

  lemma SubjectKeeps(s: System, e: Event, id: nat)
    requires Sound(s) && Subject(e) == Some(id) && id in s.entries && (e.StopOne? ==> id in s.todo)
    ensures Sound(Step(s, e))
  {
    hide EntryOk, EntryStep;
    hide Slotted;
    var x, t := s.entries[id], Step(s, e);
    EntryKeeps(x, e, s.now);
    EntryShape(x, e, s.now);
    SubjectSlot(s, e, id);
    forall i | i in s.entries ensures EntryOk(t.entries[i], t.now) {
      Later(s.entries[i], s.now, if e.Advance? then e.d else 0);
    }
  }

  lemma SubjectSlot(s: System, e: Event, id: nat)
    requires Slotted(s) && Subject(e) == Some(id) && id in s.entries && (e.StopOne? ==> id in s.todo)
    requires EntryOk(s.entries[id], s.now)
    ensures Slotted(Step(s, e))
  {
    hide EntryOk, EntryStep;
    EntryShape(s.entries[id], e, s.now);
    var t := Step(s, e);
    if t.entries[id].finished > s.entries[id].finished {
      assert Outstanding(t) == Outstanding(s) - {id};
    } else {
      assert Outstanding(t) == Outstanding(s);
    }
  }

  lemma GuardedKeeps(s: System, id: nat)
    requires Sound(s) && s.reserved > 0 && id !in s.entries
    ensures Sound(Step(s, Guarded(id)))
  {
    hide EntryOk, NewGuard, Slotted;
    FreshOk(s.now);
    GuardedSlot(s, id);
  }

  lemma GuardedSlot(s: System, id: nat)
    requires Slotted(s) && s.reserved > 0 && id !in s.entries
    ensures Slotted(Step(s, Guarded(id)))
  {
    hide NewGuard, EntryStep;
    var a, b := Outstanding(s), Outstanding(Step(s, Guarded(id)));
    assert b == a + {id} && id !in a;
  }

  lemma FreshOk(now: int)
    ensures EntryOk(NewEntry(now), now)
  {
  }

  lemma StopKeeps(s: System)
    requires Sound(s)
    ensures Sound(Step(s, StopAll))
  {
    assert Outstanding(Step(s, StopAll)) == Outstanding(s);
  }

  lemma StepKeeps(s: System, e: Event)
    requires Sound(s)
    ensures Sound(Step(s, e))
  {
    hide EntryOk, EntryStep;
    match Subject(e) {
      case Some(id) => if id in s.entries && (e.StopOne? ==> id in s.todo) { SubjectKeeps(s, e, id); }
      case None =>
        match e {
          case Guarded(id) => if s.reserved > 0 && id !in s.entries { GuardedKeeps(s, id); }
          case Tick(d) =>
            assert Outstanding(Step(s, e)) == Outstanding(s);
            forall id | id in s.entries ensures EntryOk(s.entries[id], s.now + d) { Later(s.entries[id], s.now, d); }
          case StopAll => StopKeeps(s);
          case Accept => assert Outstanding(Step(s, e)) == Outstanding(s);
          case Handle => assert Outstanding(Step(s, e)) == Outstanding(s);
          case Handled => assert Outstanding(Step(s, e)) == Outstanding(s);
          case StopReturns => assert Outstanding(Step(s, e)) == Outstanding(s);
        }
    }
  }

  lemma {:induction false} RunKeeps(s: System, es: seq<Event>)
    requires Sound(s)
    ensures Sound(Run(s, es))
    decreases |es|
  {
    hide Sound, Step;
    if es != [] {
      StepKeeps(s, es[0]);
      RunKeeps(Step(s, es[0]), es[1..]);
    }
  }

  ghost function Reach(now: int, es: seq<Event>): System {
    Run(Initial(now), es)
  }

  lemma ReachSound(now: int, es: seq<Event>)
    ensures Sound(Reach(now, es))
  {
    assert Outstanding(Initial(now)) == {};
    RunKeeps(Initial(now), es);
  }

  // ---- Main results -------------------------------------------------------

  /** Exactly once: however the timer, next, complete, Close and stop race, a
      guard's onDone runs at most once, its connection is closed by it at most
      once, and complete succeeds at most once and never on a guard that
      failed. */
  lemma ExactlyOnce(now: int, es: seq<Event>, id: nat)
    ensures var s := Reach(now, es);
            id in s.entries ==>
              && var x := s.entries[id];
                 && x.finished + x.half + x.owed + x.closing == (if x.g.done then 1 else 0)
                 && x.completed + x.closed + x.closing == (if x.g.done then 1 else 0)
  {
    hide Reach;
    ReachSound(now, es);
  }

  /** Slots: the slots in use are the connections that wait for their guard and
      the guards whose onDone has not finished; never more than 64, and onDone
      always finds one to release. */
  lemma SlotsMatch(now: int, es: seq<Event>)
    ensures var s := Reach(now, es);
            && s.l.used == s.reserved + |Outstanding(s)| <= MAX_SLOTS
            && (forall id :: id in s.entries && s.entries[id].half > 0 ==> s.l.used > 0)
            && (forall id :: id in s.l.active <==>
                  id in s.entries && s.entries[id].half == 0 && s.entries[id].finished == 0)
  {
    hide Reach;
    ReachSound(now, es);
    var s := Reach(now, es);
    forall id | id in s.entries && s.entries[id].half > 0 ensures s.l.used > 0 {
      assert EntryOk(s.entries[id], s.now);
      assert id in Outstanding(s);
    }
  }

  /** Deadlines: until a guard ends, its connection has a deadline no later
      than its phase and its total time, and its timer is armed for the phase's
      end or has fired. */
  lemma DeadlinesHold(now: int, es: seq<Event>, id: nat)
    ensures var s := Reach(now, es);
            id in s.entries && !s.entries[id].g.done ==>
              && var x := s.entries[id];
                 && x.g.deadline.Some? && x.g.deadline.value <= x.g.phase <= x.g.until
                 && x.g.phase <= s.now + PHASE && x.g.until <= s.now + TOTAL
                 && (x.g.timer == Some(x.g.phase) || x.firing > 0)
  {
    hide Reach;
    ReachSound(now, es);
  }

  /** Progress through the phases: next and complete succeed exactly on a guard
      not ended whose phase is not over; a phase never ends sooner than before
      and moves only by such a next, to ten seconds after its second reading or
      to the end of the total time, which is fixed. A race begins only in a next
      whose readings straddle the end of the phase. */
  lemma PhasesAdvance(now: int, es: seq<Event>, e: Event, id: nat)
    ensures var s := Reach(now, es); var t := Step(s, e);
            id in s.entries ==>
              && id in t.entries
              && var x, y := s.entries[id], t.entries[id];
                 && y.g.until == x.g.until && y.g.phase >= x.g.phase
                 && (y.completed > x.completed <==> e == Finish(id) && !x.g.done && s.now < x.g.phase)
                 && (y.passed > x.passed <==> e.Advance? && e.id == id && !x.g.done && s.now < x.g.phase)
                 && (y.g.phase > x.g.phase ==> y.passed > x.passed)
                 && (y.passed > x.passed ==> Moved(y.g, s.now + e.d))
                 && (y.raced && !x.raced ==> e.Advance? && s.now < x.g.phase <= s.now + e.d < x.g.until)
  {
    hide Reach, Step, EntryStep;
    ReachSound(now, es);
    var s := Reach(now, es);
    if id in s.entries {
      OwnEntry(s, e, id);
      EntryOf(s, id);
      if Subject(e) == Some(id) && (e.StopOne? ==> id in s.todo) {
        EntryAdvances(s.entries[id], e, s.now);
      }
    }
  }

  /** A guard whose phase was moved when the clock read `now`. */
  predicate Moved(g: Guard, now: int) {
    && g.phase == (if now + PHASE <= g.until then now + PHASE else g.until)
    && g.deadline == Some(g.phase) && g.timer == Some(g.phase)
  }

  /** A new guard has ten seconds for its first phase and twenty in all, and a
      slot that a connection had reserved. */
  lemma GuardStarts(now: int, es: seq<Event>, id: nat)
    ensures var s := Reach(now, es); var t := Step(s, Guarded(id));
            id !in s.entries ==>
              && (id in t.entries <==> s.reserved > 0)
              && (id in t.entries ==>
                    && t.reserved == s.reserved - 1 && t.l.used == s.l.used && id in t.l.active
                    && var g := t.entries[id].g;
                       && !g.done && g.until == s.now + 20_000_000_000 && g.phase == s.now + 10_000_000_000
                       && g.deadline == Some(g.phase) && g.timer == Some(g.phase))
  {
    hide Reach;
  }

  lemma EntryOf(s: System, id: nat)
    requires Sound(s) && id in s.entries
    ensures EntryOk(s.entries[id], s.now)
  {
  }

  lemma OwnEntry(s: System, e: Event, id: nat)
    requires id in s.entries
    ensures id in Step(s, e).entries
    ensures Step(s, e).entries[id]
            == if Subject(e) == Some(id) && (e.StopOne? ==> id in s.todo) then EntryStep(s.entries[id], e, s.now)
               else s.entries[id]
  {
    hide EntryStep;
  }

  lemma EntryAdvances(x: Entry, e: Event, now: int)
    requires EntryOk(x, now)
    ensures var y := EntryStep(x, e, now);
            && y.g.until == x.g.until && y.g.phase >= x.g.phase
            && (y.completed > x.completed <==> e.Finish? && !x.g.done && now < x.g.phase)
            && (y.passed > x.passed <==> e.Advance? && !x.g.done && now < x.g.phase)
            && (y.g.phase > x.g.phase ==> y.passed > x.passed)
            && (y.passed > x.passed ==> Moved(y.g, now + e.d))
            && (y.raced && !x.raced ==> e.Advance? && now < x.g.phase <= now + e.d < x.g.until)
  {
  }

  /** Shutdown: when stop has failed every guard it collected, the guards still
      open are those accepted after it; no handler begins any more, and once
      stop has returned none runs. */
  lemma StopEnds(now: int, es: seq<Event>)
    ensures var s := Reach(now, es);
            && (s.l.stopping && s.todo == {} ==> forall id :: id in s.entries && !s.entries[id].g.done ==> id in s.late)
            && (s.l.stopping ==> Step(s, Handle) == s)
            && (s.returned ==> s.l.stopping && s.todo == {} && s.l.handlers == 0)
  {
    hide Reach;
    ReachSound(now, es);
  }

  /** A timer that has fired does not end a guard whose phase is not over,
      except in one race: the timer fires between the two clock readings of a
      next that then moves the phase on. */
  lemma TimersAreTimely(now: int, es: seq<Event>, id: nat)
    ensures var s := Reach(now, es); var t := Step(s, TimerFails(id));
            id in s.entries && id in t.entries && !s.entries[id].g.done && t.entries[id].g.done ==>
              s.entries[id].g.phase <= s.now || s.entries[id].raced
  {
    hide Reach;
    ReachSound(now, es);
  }

  /** A next that succeeds, and the old timer's fail after it, end the guard
      before its new phase is over. */
  predicate Cuts(s: System, id: nat, d: nat)
    requires id in s.entries
  {
    var t := Step(s, Advance(id, d, true));
    var u := Step(t, TimerFails(id));
    && id in t.entries && id in u.entries
    && t.entries[id].passed > s.entries[id].passed
    && !t.entries[id].g.done && u.entries[id].g.done && u.now < u.entries[id].g.phase
  }

  /** The race, exactly: a guard that has not met it already is cut short if
      and only if it is open and its phase ends between the two readings of
      next's clock, the second of which is before the end of the total time. */
  lemma RaceExactly(now: int, es: seq<Event>, id: nat, d: nat)
    ensures var s := Reach(now, es);
            id in s.entries && !s.entries[id].raced ==>
              var x := s.entries[id];
              (Cuts(s, id, d) <==> !x.g.done && s.now < x.g.phase <= s.now + d < x.g.until)
  {
    hide Reach;
    ReachSound(now, es);
    var s := Reach(now, es);
    if id in s.entries && !s.entries[id].raced {
      EntryOf(s, id);
      hide Sound, Slotted, Listed, Outstanding;
      CutsExactly(s, id, d);
    }
  }

  lemma CutsExactly(s: System, id: nat, d: nat)
    requires id in s.entries && EntryOk(s.entries[id], s.now) && !s.entries[id].raced
    ensures var x := s.entries[id]; Cuts(s, id, d) <==> !x.g.done && s.now < x.g.phase <= s.now + d < x.g.until
  {
    var x, e := s.entries[id], Advance(id, d, true);
    var t := Step(s, e);
    OwnEntry(s, e, id);
    OwnEntry(t, TimerFails(id), id);
    hide Step;
    assert t.now == s.now + d && Step(t, TimerFails(id)).now == t.now by { Clock(s, id, d); Clock(t, id, d); }
  }

  lemma Clock(s: System, id: nat, d: nat)
    requires id in s.entries
    ensures Step(s, Advance(id, d, true)).now == s.now + d && Step(s, TimerFails(id)).now == s.now
  {
    hide EntryStep;
  }

  /** And it does happen: a guard whose next succeeded is failed by the old
      timer, ten seconds before its new phase is over. */
  lemma RaceWitness()
    ensures var s := Run(Initial(0), [Accept, Guarded(7), Tick(9_999_999_999), Advance(7, 1, true), TimerFails(7)]);
            && 7 in s.entries && s.entries[7].g.done && s.entries[7].closing == 1
            && s.now == 10_000_000_000 && s.entries[7].g.phase == 20_000_000_000
  {
    hide Run, Step, AdvanceStep, FailStep;
    var s := RaceStart();
    RunFive(Initial(0), Accept, Guarded(7), Tick(9_999_999_999), Advance(7, 1, true), TimerFails(7));
    RaceNext(s);
    RaceEnd(Step(s, Advance(7, 1, true)));
  }

  /** The guard a moment before the end of its first phase. */
  lemma RaceStart() returns (s: System)
    ensures s == Step(Step(Step(Initial(0), Accept), Guarded(7)), Tick(9_999_999_999))
    ensures 7 in s.entries && s.entries[7] == NewEntry(0) && s.now == 9_999_999_999
  {
    hide NewEntry;
    s := Step(Step(Step(Initial(0), Accept), Guarded(7)), Tick(9_999_999_999));
  }

  lemma RaceNext(s: System)
    requires 7 in s.entries && s.entries[7] == NewEntry(0) && s.now == 9_999_999_999
    ensures var t := Step(s, Advance(7, 1, true));
            && t.now == 10_000_000_000 && 7 in t.entries
            && t.entries[7].firing == 1 && !t.entries[7].g.done && t.entries[7].closing == 0
            && t.entries[7].g.phase == 20_000_000_000
  {
  }

  lemma RaceEnd(s: System)
    requires 7 in s.entries && s.entries[7].firing == 1 && !s.entries[7].g.done && s.entries[7].closing == 0
    ensures var t := Step(s, TimerFails(7));
            && 7 in t.entries && t.entries[7].g.done && t.entries[7].closing == 1
            && t.now == s.now && t.entries[7].g.phase == s.entries[7].g.phase
  {
  }

  lemma RunFive(s: System, a: Event, b: Event, c: Event, d: Event, e: Event)
    ensures Run(s, [a, b, c, d, e]) == Step(Step(Step(Step(Step(s, a), b), c), d), e)
  {
    hide Step;
    assert [a, b, c, d, e][1..] == [b, c, d, e] && [b, c, d, e][1..] == [c, d, e];
    assert [c, d, e][1..] == [d, e] && [d, e][1..] == [e] && [e][1..] == [];
    var s3 := Step(Step(Step(s, a), b), c);
    assert Run(s3, [d, e]) == Run(Step(s3, d), [e]) == Run(Step(Step(s3, d), e), []);
    assert Run(s, [a, b, c, d, e]) == Run(Step(s, a), [b, c, d, e]) == Run(Step(Step(s, a), b), [c, d, e]);
  }
}
