/** What the client's decisions mean in terms of its connections and of the run
    that led there: when a connection is surplus, when a dial has to wait, and
    whom stop closes. */
module ClientDecisions {
  import opened Bytes
  import opened ClientSpec
  import opened ClientSystem

  // ---- Runs ---------------------------------------------------------------

  /** The state after the events `es` of a client that has just started. */
  function Reach(minIdle: int, maxIdle: int, zero: int, now: int, es: seq<Event>): System {
    Run(Initial(minIdle, maxIdle, zero, now), es)
  }

  predicate Configured(minIdle: int, maxIdle: int, zero: int, now: int) {
    1 <= minIdle <= maxIdle && zero <= now
  }

  lemma ReachSound(minIdle: int, maxIdle: int, zero: int, now: int, es: seq<Event>)
    requires Configured(minIdle, maxIdle, zero, now)
    ensures Sound(Reach(minIdle, maxIdle, zero, now, es))
  {
    hide Sound, Run;
    InitialSound(minIdle, maxIdle, zero, now);
    RunKeeps(Initial(minIdle, maxIdle, zero, now), es);
  }

  lemma {:induction false} RunLonger(s: System, es: seq<Event>, e: Event)
    ensures Run(s, es + [e]) == Step(Run(s, es), e)
    decreases |es|
  {
    hide Step;
    if es == [] {
      assert ([] + [e])[1..] == [];
    } else {
      RunLonger(Step(s, es[0]), es[1..], e);
      assert (es + [e])[1..] == es[1..] + [e];
    }
  }

  /** The last step of a run. */
  lemma ReachLast(minIdle: int, maxIdle: int, zero: int, now: int, es: seq<Event>)
    requires es != []
    ensures var n := |es| - 1;
            Reach(minIdle, maxIdle, zero, now, es) == Step(Reach(minIdle, maxIdle, zero, now, es[..n]), es[n])
  {
    hide Run, Step;
    assert es[..|es| - 1] + [es[|es| - 1]] == es;
    RunLonger(Initial(minIdle, maxIdle, zero, now), es[..|es| - 1], es[|es| - 1]);
  }

  lemma ReachNothing(minIdle: int, maxIdle: int, zero: int, now: int)
    ensures Reach(minIdle, maxIdle, zero, now, []) == Initial(minIdle, maxIdle, zero, now)
  {
  }

  // ---- The release barrier ------------------------------------------------

  /** How many connections the service has or is about to have besides the busy
      ones. */
  function Spare(slots: map<nat, Slot>, spawned: nat): nat {
    Count(slots, IdleSlot) + Count(slots, Connecting) + spawned
  }

  /** A connection is surplus exactly if the client is stopping or the spare
      connections already number MaxIdle; else it becomes idle again. */
  lemma BarrierExactly(a: Account, spawned: nat, id: nat)
    requires Counted(a, spawned) && id in a.slots && a.slots[id].state == BusySlot
    ensures var (b, surplus) := Barrier(a, id);
            && (surplus <==> a.stopping || Spare(a.slots, spawned) == a.maxIdle)
            && (surplus ==> b == a)
            && (!surplus ==> b.slots == a.slots[id := a.slots[id].(state := IdleSlot)]
                             && Spare(b.slots, spawned) == Spare(a.slots, spawned) + 1)
  {
    hide Count;
    CountPut(a.slots, id, a.slots[id].(state := IdleSlot), IdleSlot);
    CountPut(a.slots, id, a.slots[id].(state := IdleSlot), Connecting);
  }

  /** The decision in every run: the goroutine at the barrier goes on to CLOSE
      exactly if the client is stopping or MaxIdle connections are idle, being
      dialled or about to be; else it is idle again. */
  lemma ReleaseDecision(minIdle: int, maxIdle: int, zero: int, now: int, es: seq<Event>, id: nat)
    requires Configured(minIdle, maxIdle, zero, now)
    ensures var s := Reach(minIdle, maxIdle, zero, now, es);
            id in s.pcs && s.pcs[id].Leasing? ==>
              && id in s.acct.slots
              && var t := Step(s, Decide(id));
              && id in t.pcs && id in t.acct.slots && t.acct.maxIdle == maxIdle == s.acct.maxIdle
              && (t.pcs[id].Retiring? <==> s.acct.stopping || Spare(s.acct.slots, s.spawned) == maxIdle)
              && (t.pcs[id].Retiring? || (t.pcs[id].Idling? && t.acct.slots[id].state == IdleSlot))
  {
    hide Run, Attended, Patient, Stopped, Count, Spare;
    ReachSound(minIdle, maxIdle, zero, now, es);
    Limits(minIdle, maxIdle, zero, now, es);
    var s := Reach(minIdle, maxIdle, zero, now, es);
    if id in s.pcs && s.pcs[id].Leasing? {
      BarrierExactly(s.acct, s.spawned, id);
    }
  }

  lemma ConnLimits(s: System, e: Event, id: nat)
    requires Known(s, id) && Subject(e) == Some(id)
    ensures var t := ConnStep(s, e, id);
            && t.acct.minIdle == s.acct.minIdle && t.acct.maxIdle == s.acct.maxIdle
            && t.acct.stopping == s.acct.stopping && t.used == s.used && t.spawned == s.spawned
            && t.stopTodo == s.stopTodo && t.shut == s.shut
  {
    hide Drawn;
  }

  lemma StepLimits(s: System, e: Event)
    ensures Step(s, e).acct.minIdle == s.acct.minIdle && Step(s, e).acct.maxIdle == s.acct.maxIdle
    ensures s.acct.stopping ==> Step(s, e).acct.stopping
    ensures s.used <= Step(s, e).used
  {
    hide ConnStep;
    match Subject(e) {
      case Some(id) => if Known(s, id) { ConnLimits(s, e, id); }
      case None =>
    }
  }

  lemma {:induction false} Limits(minIdle: int, maxIdle: int, zero: int, now: int, es: seq<Event>)
    ensures var a := Reach(minIdle, maxIdle, zero, now, es).acct; a.minIdle == minIdle && a.maxIdle == maxIdle
    decreases |es|
  {
    hide Run, Step;
    if es == [] {
      ReachNothing(minIdle, maxIdle, zero, now);
    } else {
      ReachLast(minIdle, maxIdle, zero, now, es);
      Limits(minIdle, maxIdle, zero, now, es[..|es| - 1]);
      StepLimits(Reach(minIdle, maxIdle, zero, now, es[..|es| - 1]), es[|es| - 1]);
    }
  }

  // ---- The reconnect delay ------------------------------------------------

  /** Account level: after a failure that counts, with delay `draw` at time
      `now`, no pass of control before now + draw dials, and none from then on
      delays. An end that does not count leaves the delay as it was. */
  lemma FailureDelays(a: Account, id: nat, end: End, now: int, cancelled: bool, later: int, gone: bool)
    requires id in a.slots
    ensures var b := Exit(a, id, end, now, cancelled); var plan := Control(b, later, gone).1;
            if end.Failed? && !cancelled && !a.stopping then
              && (later < now + end.draw ==> !plan.Dial?)
              && (later >= now + end.draw ==> !plan.Delay?)
              && (plan.Delay? ==> plan.until == now + end.draw)
            else
              b.notBefore == a.notBefore
  {
  }

  /** A goroutine ends with a failure that counts: an error, while the client
      neither stops nor is cancelled. */
  predicate CountedFailure(s: System, e: Event) {
    && e.ExitSlot? && Known(s, e.id) && s.pcs[e.id] == Dropped(false) && !s.cancelled && !s.acct.stopping
    && 0 <= e.draw <= if e.age >= STABLE_AFTER then BASE_BACKOFF else s.acct.backoff
  }

  /** When the delay of the latest failure that counts is over. */
  function HeldUntil(minIdle: int, maxIdle: int, zero: int, now: int, es: seq<Event>): int
    decreases |es|
  {
    if es == [] then zero
    else
      var n := |es| - 1;
      var s := Reach(minIdle, maxIdle, zero, now, es[..n]);
      if CountedFailure(s, es[n]) then s.now + es[n].draw else HeldUntil(minIdle, maxIdle, zero, now, es[..n])
  }

  lemma ConnHolds(s: System, e: Event, id: nat)
    requires Known(s, id) && Subject(e) == Some(id)
    ensures ConnStep(s, e, id).acct.notBefore
            == if CountedFailure(s, e) then s.now + e.draw else s.acct.notBefore
  {
  }

  lemma StepHolds(s: System, e: Event)
    ensures Step(s, e).acct.notBefore == if CountedFailure(s, e) then s.now + e.draw else s.acct.notBefore
  {
    hide ConnStep;
    match Subject(e) {
      case Some(id) => if Known(s, id) { ConnHolds(s, e, id); }
      case None =>
    }
  }

  lemma {:induction false} HeldBack(minIdle: int, maxIdle: int, zero: int, now: int, es: seq<Event>)
    ensures Reach(minIdle, maxIdle, zero, now, es).acct.notBefore == HeldUntil(minIdle, maxIdle, zero, now, es)
    decreases |es|
  {
    hide Run, Step, CountedFailure;
    if es == [] {
      ReachNothing(minIdle, maxIdle, zero, now);
    } else {
      var n := |es| - 1;
      ReachLast(minIdle, maxIdle, zero, now, es);
      HeldBack(minIdle, maxIdle, zero, now, es[..n]);
      StepHolds(Reach(minIdle, maxIdle, zero, now, es[..n]), es[n]);
    }
  }

  /** Only a pass of control starts goroutines. */
  lemma StepSpawns(s: System, e: Event)
    ensures Step(s, e).spawned > s.spawned ==>
              e.CtlPass? && s.ctl.Top? && !s.acct.stopping && !s.cancelled && s.acct.notBefore <= s.now
  {
    hide ConnStep;
    match Subject(e) {
      case Some(id) => if Known(s, id) { ConnLimits(s, e, id); }
      case None =>
    }
  }

  /** Dials wait out the delay, and no longer: in every run goroutines are only
      started by a pass of control, and a pass that finds too few connections
      starts the missing ones exactly if the delay of the latest failure is
      over. */
  lemma DialsWait(minIdle: int, maxIdle: int, zero: int, now: int, es: seq<Event>, e: Event)
    requires Configured(minIdle, maxIdle, zero, now)
    ensures var s := Reach(minIdle, maxIdle, zero, now, es); var due := HeldUntil(minIdle, maxIdle, zero, now, es);
            && (Step(s, e).spawned > s.spawned ==> e.CtlPass? && due <= s.now)
            && (s.ctl.Top? && !s.acct.stopping && !s.cancelled && Spare(s.acct.slots, s.spawned) < minIdle ==>
                  Step(s, CtlPass).spawned
                  == s.spawned + if due <= s.now then minIdle - Spare(s.acct.slots, s.spawned) else 0)
  {
    hide Run, Attended, Patient, Stopped, Slots, Count, Step, ConnStep;
    ReachSound(minIdle, maxIdle, zero, now, es);
    Limits(minIdle, maxIdle, zero, now, es);
    HeldBack(minIdle, maxIdle, zero, now, es);
    var s := Reach(minIdle, maxIdle, zero, now, es);
    StepSpawns(s, e);
    PassIs(s);
  }

  lemma PassIs(s: System)
    ensures Step(s, CtlPass) == CtlStep(s)
  {
  }

  /** No failure that counts happens during the events `more` that follow `es`. */
  predicate NoFailure(minIdle: int, maxIdle: int, zero: int, now: int, es: seq<Event>, more: seq<Event>) {
    forall k :: 0 <= k < |more| ==> !CountedFailure(Reach(minIdle, maxIdle, zero, now, es + more[..k]), more[k])
  }

  lemma {:induction false} HeldStill(minIdle: int, maxIdle: int, zero: int, now: int,
                                     es: seq<Event>, more: seq<Event>)
    requires NoFailure(minIdle, maxIdle, zero, now, es, more)
    ensures HeldUntil(minIdle, maxIdle, zero, now, es + more) == HeldUntil(minIdle, maxIdle, zero, now, es)
    decreases |more|
  {
    hide Reach, CountedFailure;
    if more == [] {
      assert es + more == es;
    } else {
      var n := |more| - 1;
      assert forall k :: 0 <= k < n ==> more[..n][..k] == more[..k];
      HeldStill(minIdle, maxIdle, zero, now, es, more[..n]);
      assert (es + more)[..|es + more| - 1] == es + more[..n];
    }
  }

  /** A failure delays the next dial: after one that counts, with delay `draw`,
      no goroutine is started before the delay is over, whatever else happens
      short of another such failure. */
  lemma FailureHoldsDials(minIdle: int, maxIdle: int, zero: int, now: int,
                          es: seq<Event>, fail: Event, more: seq<Event>, e: Event)
    requires Configured(minIdle, maxIdle, zero, now)
    requires CountedFailure(Reach(minIdle, maxIdle, zero, now, es), fail)
    requires NoFailure(minIdle, maxIdle, zero, now, es + [fail], more)
    ensures var s := Reach(minIdle, maxIdle, zero, now, es);
            var t := Reach(minIdle, maxIdle, zero, now, es + [fail] + more);
            Step(t, e).spawned > t.spawned ==> t.now >= s.now + fail.draw
  {
    hide Run, Step, CountedFailure, NoFailure;
    var all := es + [fail];
    assert all[..|all| - 1] == es && all[|all| - 1] == fail;
    HeldStill(minIdle, maxIdle, zero, now, all, more);
    DialsWait(minIdle, maxIdle, zero, now, all + more, e);
  }

  lemma RunFour(s: System, a: Event, b: Event, c: Event, d: Event)
    ensures Run(s, [a, b, c, d]) == Step(Step(Step(Step(s, a), b), c), d)
  {
    hide Step;
    assert [a, b, c, d][1..] == [b, c, d] && [b, c, d][1..] == [c, d] && [c, d][1..] == [d] && [d][1..] == [];
    assert Run(Step(s, a), [b, c, d]) == Run(Step(Step(s, a), b), [c, d]);
    assert Run(Step(Step(Step(s, a), b), c), [d]) == Step(Step(Step(Step(s, a), b), c), d);
  }

  lemma {:induction false} RunJoin(s: System, x: seq<Event>, y: seq<Event>)
    ensures Run(s, x + y) == Run(Run(s, x), y)
    decreases |x|
  {
    hide Step;
    if x == [] {
      assert x + y == y;
    } else {
      RunJoin(Step(s, x[0]), x[1..], y);
      assert (x + y)[1..] == x[1..] + y;
    }
  }

  const TWO_DIALS: seq<Event> := [CtlPass, SlotUp(0), SlotUp(1), Fails(0)]
  const BOTH_FAIL: seq<Event> := [Fails(1), DropSlot(0), DropSlot(1), Tick(0)]
  const BOTH_END: seq<Event> := [ExitSlot(0, 0, 200_000_000), ExitSlot(1, 0, 0), Notify, CtlWake]

  /** The exception is real: the latest failure alone decides, so that a second
      one, right after the first and with a shorter delay, shortens the wait.
      In this run two dials fail at once, with delays of 200 ms and 0, and a
      pass at the same time dials again. */
  lemma LaterFailureShortens()
    ensures var s := Reach(2, 2, 0, 0, TWO_DIALS + BOTH_FAIL);
            var t := Reach(2, 2, 0, 0, TWO_DIALS + BOTH_FAIL + BOTH_END);
            && CountedFailure(s, BOTH_END[0]) && t.now < s.now + BOTH_END[0].draw
            && Step(t, CtlPass).spawned == t.spawned + 2
  {
    var a := Reach(2, 2, 0, 0, TWO_DIALS);
    var b := Reach(2, 2, 0, 0, TWO_DIALS + BOTH_FAIL);
    var c := Reach(2, 2, 0, 0, TWO_DIALS + BOTH_FAIL + BOTH_END);
    hide Run, Step;
    var start := Initial(2, 2, 0, 0);
    RunJoin(start, TWO_DIALS, BOTH_FAIL);
    RunJoin(start, TWO_DIALS + BOTH_FAIL, BOTH_END);
    Dialled(start);
    Failing(a);
    Over(b);
  }

  /** Two goroutines whose dial failed, and nothing else. */
  ghost predicate TwoSlots(s: System, first: Pc, second: Pc) {
    && s.acct == New(2, 2, 0).(connecting := 2, slots := s.acct.slots)
    && s.acct.slots == map[0 := Slot(Connecting, false), 1 := Slot(Connecting, false)]
    && s.pcs == map[0 := first, 1 := second]
    && s.ctl == Waiting && s.notifiers == 0 && !s.cancelled && s.now == 0
  }

  lemma Dialled(s: System)
    requires s == Initial(2, 2, 0, 0)
    ensures TwoSlots(Run(s, TWO_DIALS), Ending(false), Dialing)
  {
    RunFour(s, CtlPass, SlotUp(0), SlotUp(1), Fails(0));
  }

  lemma Failing(s: System)
    requires TwoSlots(s, Ending(false), Dialing)
    ensures TwoSlots(Run(s, BOTH_FAIL), Dropped(false), Dropped(false))
  {
    RunFour(s, Fails(1), DropSlot(0), DropSlot(1), Tick(0));
    hide Run, Step, TwoSlots;
    var a, b := Step(s, Fails(1)), Step(Step(s, Fails(1)), DropSlot(0));
    SecondFails(s);
    FirstDrops(a);
    SecondDrops(b);
    StandsStill(Step(b, DropSlot(1)));
  }

  lemma SecondFails(s: System)
    requires TwoSlots(s, Ending(false), Dialing)
    ensures TwoSlots(Step(s, Fails(1)), Ending(false), Ending(false))
  {
  }

  lemma FirstDrops(s: System)
    requires TwoSlots(s, Ending(false), Ending(false))
    ensures TwoSlots(Step(s, DropSlot(0)), Dropped(false), Ending(false))
  {
  }

  lemma SecondDrops(s: System)
    requires TwoSlots(s, Dropped(false), Ending(false))
    ensures TwoSlots(Step(s, DropSlot(1)), Dropped(false), Dropped(false))
  {
  }

  lemma StandsStill(s: System)
    ensures Step(s, Tick(0)) == s
  {
  }

  lemma Over(s: System)
    requires TwoSlots(s, Dropped(false), Dropped(false))
    ensures var t := Run(s, BOTH_END);
            && CountedFailure(s, BOTH_END[0]) && t.now == s.now
            && Step(t, CtlPass).spawned == t.spawned + 2
  {
    RunFour(s, ExitSlot(0, 0, 200_000_000), ExitSlot(1, 0, 0), Notify, CtlWake);
    hide Run;
    FirstEnds(s);
    hide Step, TwoSlots;
    SecondEnds(Step(s, ExitSlot(0, 0, 200_000_000)));
    Redials(Step(Step(s, ExitSlot(0, 0, 200_000_000)), ExitSlot(1, 0, 0)));
  }

  lemma FirstEnds(s: System)
    requires TwoSlots(s, Dropped(false), Dropped(false))
    ensures CountedFailure(s, ExitSlot(0, 0, 200_000_000)) && s.now == 0
    ensures var t := Step(s, ExitSlot(0, 0, 200_000_000));
            && t.acct == New(2, 2, 0).(connecting := 1, slots := map[1 := Slot(Connecting, false)],
                                       backoff := 2 * BASE_BACKOFF, notBefore := 200_000_000)
            && t.pcs == map[1 := Dropped(false)]
            && t.ctl == Waiting && t.notifiers == 1 && !t.cancelled && t.now == 0
  {
  }

  lemma SecondEnds(s: System)
    requires s.acct == New(2, 2, 0).(connecting := 1, slots := map[1 := Slot(Connecting, false)],
                                     backoff := 2 * BASE_BACKOFF, notBefore := 200_000_000)
    requires s.pcs == map[1 := Dropped(false)]
    requires s.ctl == Waiting && s.notifiers == 1 && !s.cancelled && s.now == 0
    ensures var t := Step(s, ExitSlot(1, 0, 0));
            && t.acct.connecting == t.acct.idle == 0 && t.acct.minIdle == 2 && t.acct.notBefore == 0
            && t.ctl == Waiting && t.notifiers == 2 && !t.cancelled && !t.acct.stopping && t.now == 0
  {
  }

  lemma Redials(s: System)
    requires s.acct.connecting == s.acct.idle == 0 && s.acct.minIdle == 2 && s.acct.notBefore == 0
    requires s.ctl == Waiting && s.notifiers == 2 && !s.cancelled && !s.acct.stopping && s.now == 0
    ensures var t := Step(Step(s, Notify), CtlWake);
            t.now == 0 && Step(t, CtlPass).spawned == t.spawned + 2
  {
  }

  /** How an end of a connection sets the backoff, in every run: an end without
      error resets it; a failure that counts doubles it up to the cap, from the
      base if the connection was stable; any other end leaves it. The delay of
      a failure may be anything up to the backoff in force. */
  lemma ExitSetsBackoff(s: System, id: nat, age: int, draw: int)
    requires Known(s, id) && s.pcs[id].Dropped?
    ensures var t := Step(s, ExitSlot(id, age, draw));
            var force := if age >= STABLE_AFTER then BASE_BACKOFF else s.acct.backoff;
            && (id !in t.pcs <==> s.pcs[id].fine || 0 <= draw <= force)
            && (id !in t.pcs ==>
                  && t.notifiers == s.notifiers + 1 && t.acct.slots == s.acct.slots - {id}
                  && t.acct.backoff == (if s.pcs[id].fine then BASE_BACKOFF
                                        else if s.cancelled || s.acct.stopping then s.acct.backoff
                                        else if force * 2 < MAX_BACKOFF then force * 2 else MAX_BACKOFF))
  {
  }

  // ---- Stop ---------------------------------------------------------------

  lemma {:induction false} NoneListed(minIdle: int, maxIdle: int, zero: int, now: int, es: seq<Event>)
    ensures var s := Reach(minIdle, maxIdle, zero, now, es);
            !s.acct.stopping ==> s.stopTodo == {} && s.shut == {}
    decreases |es|
  {
    hide Run, ConnStep;
    if es == [] {
      ReachNothing(minIdle, maxIdle, zero, now);
    } else {
      var n := |es| - 1;
      ReachLast(minIdle, maxIdle, zero, now, es);
      NoneListed(minIdle, maxIdle, zero, now, es[..n]);
      var s := Reach(minIdle, maxIdle, zero, now, es[..n]);
      match Subject(es[n]) {
        case Some(id) => if Known(s, id) { ConnLimits(s, es[n], id); }
        case None =>
      }
    }
  }

  /** Connection `id` is not going to be closed by stop. */
  ghost predicate Spared(s: System, id: nat) {
    && s.acct.stopping && id in s.used && id !in s.stopTodo && id !in s.shut
    && (id in s.acct.slots ==> s.acct.slots[id].state == BusySlot)
  }

  lemma SparedStep(s: System, e: Event, id: nat)
    requires Slots(s) && Spared(s, id)
    ensures Spared(Step(s, e), id)
  {
    hide ConnStep, Slots, CtlStep;
    StepLimits(s, e);
    StepSubsides(s, e);
    match Subject(e) {
      case Some(x) => if Known(s, x) { ConnLimits(s, e, x); ConnSlots(s, e, x); }
      case None => if e.CtlPass? { PassSlots(s); }
    }
  }

  lemma ConnSlots(s: System, e: Event, id: nat)
    requires Known(s, id) && Subject(e) == Some(id)
    ensures ConnStep(s, e, id).acct.slots.Keys <= s.acct.slots.Keys
  {
    hide Drawn;
  }

  lemma PassSlots(s: System)
    ensures CtlStep(s).acct.slots == s.acct.slots && CtlStep(s).stopTodo == s.stopTodo && CtlStep(s).shut == s.shut
  {
  }

  /** Stop in every run: it goes on to close the connections that carry no lease
      and no others, and wherever the run goes on to, one that carried a lease
      is never closed by stop. */
  lemma {:induction false} StopSparesLeases(minIdle: int, maxIdle: int, zero: int, now: int,
                                            es: seq<Event>, more: seq<Event>, id: nat)
    requires Configured(minIdle, maxIdle, zero, now)
    ensures var s := Reach(minIdle, maxIdle, zero, now, es);
            var t := Reach(minIdle, maxIdle, zero, now, es + [StopClient]);
            var u := Reach(minIdle, maxIdle, zero, now, es + [StopClient] + more);
            !s.acct.stopping && id in s.acct.slots ==>
              && (id in t.stopTodo <==> s.acct.slots[id].conn && s.acct.slots[id].state != BusySlot)
              && (s.acct.slots[id].state == BusySlot ==> id !in u.stopTodo && id !in u.shut)
  {
    hide Run, Step, Slots, Attended, Patient, Stopped, Inv;
    var s := Reach(minIdle, maxIdle, zero, now, es);
    ReachSound(minIdle, maxIdle, zero, now, es);
    NoneListed(minIdle, maxIdle, zero, now, es);
    RunLonger(Initial(minIdle, maxIdle, zero, now), es, StopClient);
    StopLists(s);
    if !s.acct.stopping && id in s.acct.slots && s.acct.slots[id].state == BusySlot {
      UsedIds(s, id);
      SparedRun(minIdle, maxIdle, zero, now, es + [StopClient], more, id);
    }
  }

  lemma StopLists(s: System)
    ensures var t := Step(s, StopClient);
            && t.acct == s.acct.(stopping := true) && t.shut == s.shut && t.used == s.used
            && forall id :: id in t.stopTodo <==>
                 id in s.stopTodo || (id in s.acct.slots && s.acct.slots[id].conn
                                      && s.acct.slots[id].state != BusySlot)
  {
  }

  lemma UsedIds(s: System, id: nat)
    requires Slots(s) && id in s.acct.slots
    ensures id in s.used
  {
  }

  lemma {:induction false} SparedRun(minIdle: int, maxIdle: int, zero: int, now: int,
                                     es: seq<Event>, more: seq<Event>, id: nat)
    requires Configured(minIdle, maxIdle, zero, now)
    requires Spared(Reach(minIdle, maxIdle, zero, now, es), id)
    ensures Spared(Reach(minIdle, maxIdle, zero, now, es + more), id)
    decreases |more|
  {
    hide Run, Step, Slots, Attended, Patient, Stopped, Inv, Spared;
    if more == [] {
      assert es + more == es;
    } else {
      var n := |more| - 1;
      SparedRun(minIdle, maxIdle, zero, now, es, more[..n], id);
      assert es + more[..n] + [more[n]] == es + more;
      RunLonger(Initial(minIdle, maxIdle, zero, now), es + more[..n], more[n]);
      ReachSound(minIdle, maxIdle, zero, now, es + more[..n]);
      SparedStep(Reach(minIdle, maxIdle, zero, now, es + more[..n]), more[n], id);
    }
  }

  /** A dial that succeeds keeps its connection exactly if the client is not
      stopping; in a stopping client the goroutine ends without one. */
  lemma DialKept(minIdle: int, maxIdle: int, zero: int, now: int, es: seq<Event>, id: nat)
    requires Configured(minIdle, maxIdle, zero, now)
    ensures var s := Reach(minIdle, maxIdle, zero, now, es);
            id in s.pcs && s.pcs[id].Dialing? ==>
              var t := Step(s, DialOk(id));
              && id in t.pcs && id in t.acct.slots
              && (!s.acct.stopping ==> t.pcs[id].Shaking? && t.acct.slots[id].conn)
              && (s.acct.stopping ==> t.pcs[id] == Ending(true) && !t.acct.slots[id].conn)
  {
    hide Run, Attended, Patient, Stopped, Inv;
    ReachSound(minIdle, maxIdle, zero, now, es);
  }
}
