/** One service of the client in motion: the controller, the goroutine of every
    connection from dial to close, pending notifications and shutdown. */
module ClientSystem {
  import opened Bytes
  import opened ClientSpec

  /** Where a connection's goroutine is. */
  datatype Pc =
    | Dialing
    | Shaking               // connected, HELLO_OK not read yet
    | Idling                // in the idle loop
    | Leasing               // from OPEN to the barrier
    | Retiring              // surplus, CLOSE not written yet
    | Ending(fine: bool)    // dialAndServe returned, with or without an error
    | Dropped(fine: bool)   // its connection dropped, not uncounted yet

  /** Where the controller is. */
  datatype Ctl = Top | Waiting | Gone

  /** `spawned` goroutines have not registered a slot yet; `notifiers` are about
      to call notify; `armed` is the controller's timer; `failures` counts
      since the backoff was last reset. Stop goes through `stopTodo`, and
      `shut` lists the connections it closed. */
  datatype System = System(
    acct: Account, spawned: nat, pcs: map<nat, Pc>, used: set<nat>,
    ctl: Ctl, armed: Option<int>, wake: bool, notifiers: nat,
    now: int, cancelled: bool, failures: nat, stopTodo: set<nat>, shut: set<nat>)

  datatype Event =
    | Tick(d: nat)
    | CancelCtx
    | CtlPass                       // control's critical section
    | CtlWake                       // the select takes the wake token
    | CtlTimer                      // or the timer
    | CtlDone                       // or the context
    | Notify                        // a goroutine's notify
    | SlotUp(id: nat)               // runConn registers a slot
    | DialOk(id: nat)
    | HelloOk(id: nat)
    | Open(id: nat)
    | Decide(id: nat)               // the barrier
    | Fails(id: nat)                // dialAndServe returns an error
    | Finishes(id: nat)             // or nil
    | DropSlot(id: nat)
    | ExitSlot(id: nat, age: int, draw: int)
    | StopClient
    | StopClose(id: nat)

  function Initial(minIdle: int, maxIdle: int, zero: int, now: int): System {
    System(New(minIdle, maxIdle, zero), 0, map[], {}, Top, None, false, 0, now, false, 0, {}, {})
  }

  function CtlStep(s: System): System {
    if !s.ctl.Top? then s
    else
      var (b, plan) := Control(s.acct, s.now, s.cancelled);
      match plan
      case Quit => s.(ctl := Gone)
      case Enough => s.(ctl := Waiting)
      case Delay(until) => s.(ctl := Waiting, armed := Some(until))
      case Dial(n) => s.(ctl := Waiting, acct := b, spawned := s.spawned + n)
  }

  /** The controller leaves its select and stops the timer. */
  function Resume(s: System): System {
    s.(ctl := Top, armed := None)
  }

  function At(s: System, id: nat, a: Account, pc: Pc): System {
    s.(acct := a, pcs := s.pcs[id := pc])
  }

  predicate Known(s: System, id: nat) {
    id in s.pcs && id in s.acct.slots
  }

  function ExitStep(s: System, id: nat, age: int, draw: int): System
    requires Known(s, id)
  {
    if !s.pcs[id].Dropped? then s
    else
      var end := if s.pcs[id].fine then Fine else Failed(age, draw);
      if !Drawn(s.acct, end) then s
      else
        var k := if end.Fine? then 0
                 else if s.cancelled || s.acct.stopping then s.failures
                 else if age >= STABLE_AFTER then 1 else s.failures + 1;
        s.(acct := Exit(s.acct, id, end, s.now, s.cancelled), pcs := s.pcs - {id},
           notifiers := s.notifiers + 1, failures := k)
  }

  /** The steps of one connection's goroutine. */
  function ConnStep(s: System, e: Event, id: nat): System
    requires Known(s, id)
  {
    var pc := s.pcs[id];
    match e
    case DialOk(_) =>
      if !pc.Dialing? then s
      else
        var (b, ok) := SetConn(s.acct, id);
        At(s, id, b, if ok then Shaking else Ending(true))
    case HelloOk(_) => if pc.Shaking? then At(s, id, Registered(s.acct, id), Idling) else s
    case Open(_) =>
      if pc.Idling? then At(s, id, Opened(s.acct, id), Leasing).(notifiers := s.notifiers + 1) else s
    case Decide(_) =>
      if !pc.Leasing? then s
      else
        var (b, surplus) := Barrier(s.acct, id);
        At(s, id, b, if surplus then Retiring else Idling)
    case Fails(_) => if pc.Ending? || pc.Dropped? then s else At(s, id, s.acct, Ending(false))
    case Finishes(_) => if pc.Idling? || pc.Retiring? then At(s, id, s.acct, Ending(true)) else s
    case DropSlot(_) => if pc.Ending? then At(s, id, DropConn(s.acct, id), Dropped(pc.fine)) else s
    case ExitSlot(_, age, draw) => ExitStep(s, id, age, draw)
    case _ => s
  }

  function Subject(e: Event): Option<nat> {
    match e
    case DialOk(id) => Some(id)
    case HelloOk(id) => Some(id)
    case Open(id) => Some(id)
    case Decide(id) => Some(id)
    case Fails(id) => Some(id)
    case Finishes(id) => Some(id)
    case DropSlot(id) => Some(id)
    case ExitSlot(id, _, _) => Some(id)
    case _ => None
  }

  /** One event; an event that is not enabled changes nothing. */
  function Step(s: System, e: Event): System {
    match Subject(e)
    case Some(id) => if Known(s, id) then ConnStep(s, e, id) else s
    case None =>
      match e
      case Tick(d) => s.(now := s.now + d)
      case CancelCtx => s.(cancelled := true)
      case CtlPass => CtlStep(s)
      case CtlWake => if s.ctl.Waiting? && s.wake then Resume(s).(wake := false) else s
      case CtlTimer => if s.ctl.Waiting? && s.armed.Some? && s.armed.value <= s.now then Resume(s) else s
      case CtlDone => if s.ctl.Waiting? && s.cancelled then s.(ctl := Gone) else s
      case Notify => if s.notifiers > 0 then s.(notifiers := s.notifiers - 1, wake := true) else s
      case SlotUp(id) =>
        if s.spawned == 0 || id in s.used || id in s.pcs || id in s.acct.slots then s
        else At(s, id, Register(s.acct, id), Dialing).(spawned := s.spawned - 1, used := s.used + {id})
      case StopClient =>
        var (b, closing) := Stop(s.acct);
        s.(acct := b, stopTodo := s.stopTodo + closing)
      case StopClose(id) =>
        if id in s.stopTodo then s.(stopTodo := s.stopTodo - {id}, shut := s.shut + {id}) else s
      case _ => s
  }

  function Run(s: System, es: seq<Event>): System
    decreases |es|
  {
    if es == [] then s else Run(Step(s, es[0]), es[1..])
  }

  // ---- Invariants ---------------------------------------------------------

  /** A goroutine's position and its slot agree. */
  ghost predicate SlotOk(slot: Slot, pc: Pc) {
    match pc
    case Dialing => slot.state == Connecting && !slot.conn
    case Shaking => slot.state == Connecting && slot.conn
    case Idling => slot.state == IdleSlot && slot.conn
    case Leasing => slot.state == BusySlot && slot.conn
    case Retiring => slot.state == BusySlot && slot.conn
    case Ending(_) => true
    case Dropped(_) => !slot.conn
  }

  ghost predicate Slots(s: System) {
    && s.pcs.Keys == s.acct.slots.Keys && s.acct.slots.Keys <= s.used
    && forall id :: id in s.pcs ==> SlotOk(s.acct.slots[id], s.pcs[id])
  }

  predicate Deficit(a: Account) {
    a.idle + a.connecting < a.minIdle
  }

  /** The controller will hear of any deficit. */
  ghost predicate Attended(s: System) {
    && (s.ctl.Gone? ==> s.acct.stopping || s.cancelled)
    && (s.ctl.Waiting? && !s.acct.stopping && !s.cancelled && Deficit(s.acct) ==>
          s.wake || s.armed.Some? || s.notifiers > 0)
    && (s.armed.Some? ==> s.ctl.Waiting? || s.ctl.Gone?)
  }

  /** Backoff and the delays it causes stay bounded. */
  ghost predicate Patient(s: System) {
    && s.acct.backoff == BackoffAfter(s.failures)
    && s.acct.notBefore <= s.now + MAX_BACKOFF
    && (s.armed.Some? ==> s.armed.value <= s.now + MAX_BACKOFF)
  }

  /** After stop every connection that carries no lease is being closed. */
  ghost predicate Stopped(s: System) {
    s.acct.stopping ==> forall id :: id in s.acct.slots && s.acct.slots[id].conn ==>
      s.acct.slots[id].state == BusySlot || id in s.stopTodo || id in s.shut
  }

  ghost predicate Sound(s: System) {
    Inv(s.acct, s.spawned) && Slots(s) && Attended(s) && Patient(s) && Stopped(s)
  }

  lemma InitialSound(minIdle: int, maxIdle: int, zero: int, now: int)
    requires 1 <= minIdle <= maxIdle && zero <= now
    ensures Sound(Initial(minIdle, maxIdle, zero, now))
  {
    assert In(map[], IdleSlot) == {} && In(map[], Connecting) == {};
  }

  // ---- Steps --------------------------------------------------------------

  lemma CtlKeeps(s: System)
    requires Sound(s)
    ensures Sound(CtlStep(s))
  {
    hide Inv, BackoffAfter;
    InvControl(s.acct, s.spawned, s.now, s.cancelled);
    ControlMeetsMinimum(s.acct, s.now, s.cancelled);
  }

  /** A goroutine's critical section that leaves the backoff alone and either
      creates no deficit or notifies. */
  lemma ConnKeeps(s: System, t: System, id: nat)
    requires Sound(s) && Known(s, id) && id in t.pcs && id in t.acct.slots
    requires Inv(t.acct, s.spawned)
    requires t == At(s, id, t.acct, t.pcs[id]).(notifiers := t.notifiers)
    requires t.acct.slots.Keys == s.acct.slots.Keys
    requires forall x :: x in s.acct.slots && x != id ==> t.acct.slots[x] == s.acct.slots[x]
    requires SlotOk(t.acct.slots[id], t.pcs[id])
    requires t.acct.backoff == s.acct.backoff && t.acct.notBefore == s.acct.notBefore
    requires t.acct.stopping == s.acct.stopping && t.acct.minIdle == s.acct.minIdle
    requires t.notifiers >= s.notifiers
    requires Deficit(t.acct) ==> Deficit(s.acct) || t.notifiers > 0
    requires t.acct.stopping && t.acct.slots[id].conn ==> s.acct.slots[id].conn
    requires t.acct.stopping && t.acct.slots[id].conn && s.acct.slots[id].state == BusySlot ==>
               t.acct.slots[id].state == BusySlot
    ensures Sound(t)
  {
    hide Inv, BackoffAfter, SlotOk;
  }

  lemma ExitKeeps(s: System, id: nat, age: int, draw: int)
    requires Sound(s) && Known(s, id)
    ensures Sound(ExitStep(s, id, age, draw))
  {
    hide Inv, BackoffAfter, SlotOk, Uncount;
    var t := ExitStep(s, id, age, draw);
    if t != s {
      var end := if s.pcs[id].fine then Fine else Failed(age, draw);
      InvExit(s.acct, s.spawned, id, end, s.now, s.cancelled);
      UncountShape(s.acct, id);
      assert BASE_BACKOFF == BackoffAfter(0) by { BackoffStart(); }
      BackoffDoubles(0);
      BackoffDoubles(s.failures);
    }
  }

  lemma BackoffStart()
    ensures BackoffAfter(0) == BASE_BACKOFF
  {
  }

  lemma UncountShape(a: Account, id: nat)
    requires id in a.slots
    ensures var b := Uncount(a, id);
            b == a.(slots := a.slots - {id}, idle := b.idle, connecting := b.connecting)
  {
  }

  lemma SlotAt(s: System, id: nat)
    requires Slots(s) && Known(s, id)
    ensures SlotOk(s.acct.slots[id], s.pcs[id])
  {
  }

  lemma DialOkKeeps(s: System, id: nat)
    requires Sound(s) && Known(s, id)
    ensures Sound(ConnStep(s, DialOk(id), id))
  {
    hide Inv, Slots, Attended, Patient, Stopped, ExitStep;
    SlotAt(s, id);
    var t := ConnStep(s, DialOk(id), id);
    if t != s {
      InvPut(s.acct, s.spawned, id, s.acct.slots[id].(conn := true));
      ConnKeeps(s, t, id);
    }
  }

  lemma HelloOkKeeps(s: System, id: nat)
    requires Sound(s) && Known(s, id)
    ensures Sound(ConnStep(s, HelloOk(id), id))
  {
    hide Inv, Slots, Attended, Patient, Stopped, ExitStep;
    SlotAt(s, id);
    var t := ConnStep(s, HelloOk(id), id);
    if t != s {
      InvRegistered(s.acct, s.spawned, id);
      ConnKeeps(s, t, id);
    }
  }

  lemma OpenKeeps(s: System, id: nat)
    requires Sound(s) && Known(s, id)
    ensures Sound(ConnStep(s, Open(id), id))
  {
    hide Inv, Slots, Attended, Patient, Stopped, ExitStep;
    SlotAt(s, id);
    var t := ConnStep(s, Open(id), id);
    if t != s {
      InvOpened(s.acct, s.spawned, id);
      ConnKeeps(s, t, id);
    }
  }

  lemma DecideKeeps(s: System, id: nat)
    requires Sound(s) && Known(s, id)
    ensures Sound(ConnStep(s, Decide(id), id))
  {
    hide Inv, Slots, Attended, Patient, Stopped, ExitStep;
    SlotAt(s, id);
    var t := ConnStep(s, Decide(id), id);
    if t != s {
      InvBarrier(s.acct, s.spawned, id);
      ConnKeeps(s, t, id);
    }
  }

  lemma FailsKeeps(s: System, id: nat)
    requires Sound(s) && Known(s, id)
    ensures Sound(ConnStep(s, Fails(id), id))
  {
    hide Inv, Slots, Attended, Patient, Stopped, ExitStep;
    SlotAt(s, id);
    var t := ConnStep(s, Fails(id), id);
    if t != s {
      ConnKeeps(s, t, id);
    }
  }

  lemma FinishesKeeps(s: System, id: nat)
    requires Sound(s) && Known(s, id)
    ensures Sound(ConnStep(s, Finishes(id), id))
  {
    hide Inv, Slots, Attended, Patient, Stopped, ExitStep;
    SlotAt(s, id);
    var t := ConnStep(s, Finishes(id), id);
    if t != s {
      ConnKeeps(s, t, id);
    }
  }

  lemma DropSlotKeeps(s: System, id: nat)
    requires Sound(s) && Known(s, id)
    ensures Sound(ConnStep(s, DropSlot(id), id))
  {
    hide Inv, Slots, Attended, Patient, Stopped, ExitStep;
    SlotAt(s, id);
    var t := ConnStep(s, DropSlot(id), id);
    if t != s {
      InvPut(s.acct, s.spawned, id, s.acct.slots[id].(conn := false));
      ConnKeeps(s, t, id);
    }
  }

  lemma ConnStepKeeps(s: System, e: Event, id: nat)
    requires Sound(s) && Known(s, id) && Subject(e) == Some(id)
    ensures Sound(ConnStep(s, e, id))
  {
    hide Sound, ConnStep, ExitStep;
    match e {
      case DialOk(_) => DialOkKeeps(s, id);
      case HelloOk(_) => HelloOkKeeps(s, id);
      case Open(_) => OpenKeeps(s, id);
      case Decide(_) => DecideKeeps(s, id);
      case Fails(_) => FailsKeeps(s, id);
      case Finishes(_) => FinishesKeeps(s, id);
      case DropSlot(_) => DropSlotKeeps(s, id);
      case ExitSlot(_, age, draw) => ExitSlotKeeps(s, id, age, draw);
    }
  }

  lemma ExitSlotKeeps(s: System, id: nat, age: int, draw: int)
    requires Sound(s) && Known(s, id)
    ensures Sound(ConnStep(s, ExitSlot(id, age, draw), id))
  {
    hide Sound, ExitStep;
    ExitKeeps(s, id, age, draw);
  }

  lemma SlotUpKeeps(s: System, id: nat)
    requires Sound(s)
    ensures Sound(Step(s, SlotUp(id)))
  {
    hide Inv, BackoffAfter, SlotOk;
    if s.spawned > 0 && id !in s.used && id !in s.pcs && id !in s.acct.slots {
      InvRegister(s.acct, s.spawned, id);
      assert SlotOk(Slot(Connecting, false), Dialing) by { DialingOk(); }
    }
  }

  lemma DialingOk()
    ensures SlotOk(Slot(Connecting, false), Dialing)
  {
  }

  lemma StopStepKeeps(s: System)
    requires Sound(s)
    ensures Sound(Step(s, StopClient))
  {
    hide BackoffAfter, SlotOk, Count;
  }

  lemma StepKeeps(s: System, e: Event)
    requires Sound(s)
    ensures Sound(Step(s, e))
  {
    hide Inv, BackoffAfter, SlotOk, CtlStep, ConnStep;
    match Subject(e) {
      case Some(id) => if Known(s, id) { ConnStepKeeps(s, e, id); }
      case None =>
        match e {
          case CtlPass => CtlKeeps(s);
          case SlotUp(id) => SlotUpKeeps(s, id);
          case StopClient => StopStepKeeps(s);
          case _ =>
        }
    }
  }

  lemma {:induction false} RunKeeps(s: System, es: seq<Event>)
    requires Sound(s)
    ensures Sound(Run(s, es))
    decreases |es|
  {
    hide Sound, Step;
    if es != [] {
      StepKeeps(s, es[0]);
      RunKeeps(Step(s, es[0]), es[1..]);
    }
  }

  // ---- Main results -------------------------------------------------------

  /** Accounting: at every point of every run the counters equal the slots'
      states, dials never exceed MinIdle, and idle plus connecting never
      exceeds MaxIdle. */
  lemma Accounting(minIdle: int, maxIdle: int, zero: int, now: int, es: seq<Event>)
    requires 1 <= minIdle <= maxIdle && zero <= now
    ensures var s := Run(Initial(minIdle, maxIdle, zero, now), es); var a := s.acct;
            && a.idle == Count(a.slots, IdleSlot)
            && a.connecting == Count(a.slots, Connecting) + s.spawned
            && a.connecting <= a.minIdle
            && a.idle + a.connecting <= a.maxIdle
  {
    hide Run, Slots, Attended, Patient, Stopped, Count;
    InitialSound(minIdle, maxIdle, zero, now);
    RunKeeps(Initial(minIdle, maxIdle, zero, now), es);
  }

  /** No lost deficit: while the controller waits and the client is not going
      down, too few connections mean that a token or a goroutine's notify is on
      its way, or that the timer is armed and due within the longest backoff. */
  lemma DeficitIsSeen(minIdle: int, maxIdle: int, zero: int, now: int, es: seq<Event>)
    requires 1 <= minIdle <= maxIdle && zero <= now
    ensures var s := Run(Initial(minIdle, maxIdle, zero, now), es);
            s.ctl.Waiting? && !s.acct.stopping && !s.cancelled && s.acct.idle + s.acct.connecting < s.acct.minIdle ==>
              s.wake || s.notifiers > 0 || (s.armed.Some? && s.armed.value <= s.now + MAX_BACKOFF)
  {
    hide Run, Slots, Inv, Stopped;
    InitialSound(minIdle, maxIdle, zero, now);
    RunKeeps(Initial(minIdle, maxIdle, zero, now), es);
  }

  /** And once it passes, either it dials up to MinIdle or arms the timer. */
  lemma ControllerActs(minIdle: int, maxIdle: int, zero: int, now: int, es: seq<Event>)
    requires 1 <= minIdle <= maxIdle && zero <= now
    ensures var s := Run(Initial(minIdle, maxIdle, zero, now), es); var t := Step(s, CtlPass);
            s.ctl.Top? && !s.acct.stopping && !s.cancelled ==>
              && t.ctl.Waiting?
              && (t.acct.idle + t.acct.connecting >= t.acct.minIdle
                  || (t.armed == Some(s.acct.notBefore) && s.now < s.acct.notBefore <= s.now + MAX_BACKOFF))
  {
    hide Run, Slots, Inv, Attended, Stopped;
    InitialSound(minIdle, maxIdle, zero, now);
    RunKeeps(Initial(minIdle, maxIdle, zero, now), es);
    var s := Run(Initial(minIdle, maxIdle, zero, now), es);
    ControlMeetsMinimum(s.acct, s.now, s.cancelled);
  }

  /** Backoff: always 250 ms doubled once per failure since the last reset, and
      capped at 30 s. */
  lemma Backoff(minIdle: int, maxIdle: int, zero: int, now: int, es: seq<Event>)
    requires 1 <= minIdle <= maxIdle && zero <= now
    ensures var s := Run(Initial(minIdle, maxIdle, zero, now), es);
            && s.acct.backoff == BackoffAfter(s.failures)
            && BASE_BACKOFF <= s.acct.backoff <= MAX_BACKOFF
            && s.acct.notBefore <= s.now + MAX_BACKOFF
  {
    hide Run, Slots, Inv, Attended, Stopped;
    InitialSound(minIdle, maxIdle, zero, now);
    RunKeeps(Initial(minIdle, maxIdle, zero, now), es);
    BackoffDoubles(Run(Initial(minIdle, maxIdle, zero, now), es).failures);
  }

  /** What a step of a stopping client may still do. */
  ghost predicate Subsides(s: System, t: System) {
    && t.acct.stopping && t.spawned <= s.spawned
    && t.acct.idle + t.acct.connecting <= s.acct.idle + s.acct.connecting
    && (forall id :: id in s.acct.slots && id in t.acct.slots && s.acct.slots[id].state == BusySlot ==>
          t.acct.slots[id].state == BusySlot)
    && (forall id :: id in t.acct.slots && t.acct.slots[id].conn ==> id in s.acct.slots && s.acct.slots[id].conn)
  }

  lemma ConnSubsides(s: System, e: Event, id: nat)
    requires Slots(s) && s.acct.stopping && Known(s, id) && Subject(e) == Some(id)
    ensures Subsides(s, ConnStep(s, e, id))
  {
    hide ExitStep;
    SlotThere(s, id);
    hide Slots;
    if e.ExitSlot? {
      ExitSubsides(s, id, e.age, e.draw);
    }
  }

  lemma SlotThere(s: System, id: nat)
    requires Slots(s) && Known(s, id)
    ensures SlotOk(s.acct.slots[id], s.pcs[id])
  {
  }

  lemma ExitSubsides(s: System, id: nat, age: int, draw: int)
    requires s.acct.stopping && Known(s, id)
    ensures Subsides(s, ExitStep(s, id, age, draw))
  {
    hide Drawn;
  }

  lemma StepSubsides(s: System, e: Event)
    requires Slots(s) && s.acct.stopping
    ensures Subsides(s, Step(s, e))
  {
    hide ConnStep, CtlStep, Slots;
    match Subject(e) {
      case Some(id) => if Known(s, id) { ConnSubsides(s, e, id); }
      case None => if e.CtlPass? { CtlSubsides(s); }
    }
  }

  lemma CtlSubsides(s: System)
    requires s.acct.stopping
    ensures Subsides(s, CtlStep(s))
  {
  }

  /** Shutdown: once stop was called no goroutine is started, one that still
      dials gets no connection, and no slot goes from busy back to idle; when
      stop has closed all it collected, every connection not closed carries a
      lease. */
  lemma Shutdown(minIdle: int, maxIdle: int, zero: int, now: int, es: seq<Event>, e: Event)
    requires 1 <= minIdle <= maxIdle && zero <= now
    ensures var s := Run(Initial(minIdle, maxIdle, zero, now), es);
            s.acct.stopping ==>
              && Subsides(s, Step(s, e))
              && (s.stopTodo == {} ==> forall id :: id in s.acct.slots && s.acct.slots[id].conn ==>
                    s.acct.slots[id].state == BusySlot || id in s.shut)
  {
    hide Run, Inv, Attended, Patient, Slots, Step, Subsides;
    InitialSound(minIdle, maxIdle, zero, now);
    RunKeeps(Initial(minIdle, maxIdle, zero, now), es);
    var s := Run(Initial(minIdle, maxIdle, zero, now), es);
    if s.acct.stopping {
      StepSubsides(s, e);
    }
  }
}
