/** The pool with everything that runs around it: the clock, cancelled contexts,
    worker goroutines inside and outside Next, the gap between closing a worker
    and closing its connection, Stop and Force. */
module PoolSystem {
  import opened Bytes
  import opened PoolSpec

  /** Where a worker's goroutine is. */
  datatype Pc =
    | Started                 // registered, Idle not called yet
    | Returned                // Idle returned Ready, Next not called yet
    | Polling(fired: bool)    // in Next, before the check; a timer has fired in vain
    | Blocked                 // in Next, in the select
    | Beat                    // in Next, the heartbeat timer fired
    | Lapse                   // in Next, the expiry timer fired
    | Checked                 // Next returned Check, heartbeat under way
    | Serving                 // Next returned Leased
    | Draining                // after Releasing
    | Gone                    // will not call Idle or Next again

  /** `until` is the deadline of the current Next; `owed` and `closes` count the
      calls of closeConn still to come and already made. */
  datatype Thread = Thread(pc: Pc, until: int, owed: nat, closes: nat)

  /** History of the visitors given to Dispatch. */
  datatype Log = Log(
    refused: set<nat>, accepted: set<nat>, dropped: set<nat>,
    direct: map<nat, nat>, queued: map<nat, nat>,      // visitor to worker
    taken: set<nat>, cut: set<nat>,                    // returned by Next, closed in a mailbox
    arrived: seq<nat>, served: seq<nat>,               // queue arrivals, queue handoffs
    armed: map<nat, Visitor>)                          // visitors whose callback was armed

  datatype System = System(
    pool: Pool, threads: map<nat, Thread>, now: int, cancelled: set<nat>,
    stopTodo: set<nat>, forceTodo: set<nat>, drained: bool, log: Log)

  datatype Event =
    | Tick(d: nat)
    | Cancel(ctx: nat)
    | Enroll(id: nat, opts: Options, draw: int)
    | GoIdle(id: nat, draw: int)
    | EnterNext(id: nat)
    | PollMail(id: nat)
    | TakeToken(id: nat)
    | BeatFires(id: nat)
    | LapseFires(id: nat)
    | TakeCheck(id: nat)
    | TakeExpire(id: nat)
    | NextCanceled(id: nat)
    | Release(id: nat)
    | Abandon(id: nat)            // an error ends the goroutine's loop
    | Close(id: nat)              // anyone's Closed, up to the unlock
    | CloseConn(id: nat)          // its closeConn
    | Accept(conn: nat, ctx: nat, deadline: int)
    | Callback(conn: nat)         // the armed timer or context callback
    | StopPool
    | StopNext(id: nat)           // Stop's Closed of one collected worker
    | ForcePool
    | ForceNext(id: nat)

  function Initial(maxPending: int, now: int): System {
    System(New(maxPending), map[], now, {}, {}, {}, false,
           Log({}, {}, {}, map[], map[], {}, {}, [], [], map[]))
  }

  predicate InNext(pc: Pc) {
    pc.Polling? || pc.Blocked? || pc.Beat? || pc.Lapse?
  }

  function Outside(s: System): Env {
    Env(s.now, s.cancelled)
  }

  function Move(s: System, id: nat, pc: Pc): System
    requires id in s.threads
  {
    s.(threads := s.threads[id := s.threads[id].(pc := pc)])
  }

  /** A worker's goroutine passed a critical section. */
  function Advance(s: System, q: Pool, id: nat, pc: Pc): System
    requires id in s.threads
  {
    s.(pool := q, threads := s.threads[id := s.threads[id].(pc := pc)])
  }

  /** Closed, up to the unlock: only the call that finds the worker open owes a
      closeConn, and a visitor in the mailbox is cut off. */
  function CloseStep(s: System, id: nat): System
    requires id in s.threads && id in s.pool.workers
  {
    var (q, first) := CloseSection(s.pool, id);
    if !first then s
    else
      var m := s.pool.workers[id].mailbox;
      s.(pool := q, threads := s.threads[id := s.threads[id].(owed := s.threads[id].owed + 1)],
         log := if m.Some? then s.log.(cut := s.log.cut + {m.value}) else s.log)
  }

  /** What Idle's outcome means for the goroutine and the visitors. */
  function IdleStep(s: System, id: nat, draw: int): System
    requires id in s.threads && id in s.pool.workers
  {
    var (q, o) := IdleSection(s.pool, id, Outside(s), draw);
    match o
    case IdleStopped => Advance(s, q, id, Gone)
    case IdleExpired => Advance(s, q, id, Gone)
    case IdleReady(closing) =>
      var t := Advance(s, q, id, Returned);
      var log := s.log.(dropped := s.log.dropped + Elements(closing));
      var m := if id in q.workers then q.workers[id].mailbox else None;
      t.(log := if m.Some? then log.(queued := log.queued[m.value := id], served := log.served + [m.value]) else log)
  }

  function AcceptStep(s: System, v: Visitor): System
    requires forall id :: id in s.pool.idle ==> id in s.pool.workers
  {
    var (q, o) := Dispatch(s.pool, v, Outside(s));
    match o
    case Direct(w) =>
      s.(pool := q, log := s.log.(accepted := s.log.accepted + {v.conn}, direct := s.log.direct[v.conn := w]))
    case Queued =>
      s.(pool := q, log := s.log.(accepted := s.log.accepted + {v.conn}, arrived := s.log.arrived + [v.conn],
                                  armed := s.log.armed[v.conn := v]))
    case _ => s.(pool := q, log := s.log.(refused := s.log.refused + {v.conn}))
  }

  /** The worker an event belongs to. */
  function Subject(e: Event): Option<nat> {
    match e
    case GoIdle(id, _) => Some(id)
    case EnterNext(id) => Some(id)
    case PollMail(id) => Some(id)
    case TakeToken(id) => Some(id)
    case BeatFires(id) => Some(id)
    case LapseFires(id) => Some(id)
    case TakeCheck(id) => Some(id)
    case TakeExpire(id) => Some(id)
    case NextCanceled(id) => Some(id)
    case Release(id) => Some(id)
    case Abandon(id) => Some(id)
    case Close(id) => Some(id)
    case CloseConn(id) => Some(id)
    case StopNext(id) => Some(id)
    case ForceNext(id) => Some(id)
    case _ => None
  }

  /** A goroutine calls Idle after registration, after a heartbeat and after a
      lease. */
  predicate CallsIdle(pc: Pc) {
    pc.Started? || pc.Checked? || pc.Draining?
  }

  /** Next reads its deadline once, before the loop. */
  function EnterStep(s: System, id: nat): System
    requires id in s.threads && id in s.pool.workers
  {
    if !s.threads[id].pc.Returned? then s
    else
      var t := s.threads[id].(pc := Polling(false), until := NextDeadline(s.pool.workers[id]));
      s.(threads := s.threads[id := t])
  }

  function PollStep(s: System, id: nat): System
    requires id in s.threads && id in s.pool.workers
  {
    if !s.threads[id].pc.Polling? then s
    else
      var (q, o) := Poll(s.pool, id);
      match o
      case Wait => Advance(s, q, id, Blocked)
      case PollStopped => Advance(s, q, id, Gone)
      case PollLeased(conn) => Advance(s, q, id, Serving).(log := s.log.(taken := s.log.taken + {conn}))
  }

  function TokenStep(s: System, id: nat): System
    requires id in s.threads && id in s.pool.workers
  {
    if s.threads[id].pc.Blocked? && s.pool.workers[id].wake then Advance(s, WakeSection(s.pool, id), id, Polling(false))
    else s
  }

  /** A timer of Next's select is due. */
  function TimerStep(s: System, id: nat, pc: Pc): System
    requires id in s.threads && id in s.pool.workers && (pc.Beat? || pc.Lapse?)
  {
    var t := s.threads[id];
    var due := if pc.Beat? then s.pool.workers[id].opts.heartbeat > 0 else t.until != NEVER && t.until <= s.now;
    if t.pc.Blocked? && due then Move(s, id, pc) else s
  }

  /** After the timer, under the lock: take the worker out of the idle list, or
      loop. */
  function TakeStep(s: System, id: nat, from: Pc, state: WState, to: Pc): System
    requires id in s.threads && id in s.pool.workers
  {
    if s.threads[id].pc != from then s
    else
      var (q, ok) := TakeIdle(s.pool, id, state);
      Advance(s, q, id, if ok then to else Polling(true))
  }

  function ReleaseStep(s: System, id: nat): System
    requires id in s.threads && id in s.pool.workers
  {
    if s.threads[id].pc.Serving? then Advance(s, ReleasingSection(s.pool, id), id, Draining) else s
  }

  /** The goroutine leaves its loop: an error, or Next's context. */
  function LeaveStep(s: System, id: nat, canceled: bool): System
    requires id in s.threads
  {
    var pc := s.threads[id].pc;
    var leaves := if canceled then pc.Blocked? else pc.Started? || pc.Checked? || pc.Serving? || pc.Draining?;
    if leaves then Move(s, id, Gone) else s
  }

  function CloseConnStep(s: System, id: nat): System
    requires id in s.threads
  {
    var t := s.threads[id];
    if t.owed > 0 then s.(threads := s.threads[id := t.(owed := t.owed - 1, closes := t.closes + 1)]) else s
  }

  /** The steps of one worker. */
  function WorkerStep(s: System, e: Event, id: nat): System
    requires Subject(e) == Some(id) && id in s.threads && id in s.pool.workers
  {
    match e
    case GoIdle(_, draw) =>
      if CallsIdle(s.threads[id].pc) && Drawn(s.pool.workers[id].opts.idleJitter, draw) then IdleStep(s, id, draw)
      else s
    case EnterNext(_) => EnterStep(s, id)
    case PollMail(_) => PollStep(s, id)
    case TakeToken(_) => TokenStep(s, id)
    case BeatFires(_) => TimerStep(s, id, Beat)
    case LapseFires(_) => TimerStep(s, id, Lapse)
    case TakeCheck(_) => TakeStep(s, id, Beat, Checking, Checked)
    case TakeExpire(_) => TakeStep(s, id, Lapse, Expiring, Gone)
    case NextCanceled(_) => LeaveStep(s, id, true)
    case Release(_) => ReleaseStep(s, id)
    case Abandon(_) => LeaveStep(s, id, false)
    case Close(_) => CloseStep(s, id)
    case CloseConn(_) => CloseConnStep(s, id)
    case StopNext(_) => if id in s.stopTodo then CloseStep(s, id).(stopTodo := s.stopTodo - {id}) else s
    case ForceNext(_) => if id in s.forceTodo then CloseStep(s, id).(forceTodo := s.forceTodo - {id}) else s
  }

  function EnrollStep(s: System, id: nat, opts: Options, draw: int): System {
    if id in s.threads || id in s.pool.workers || !Drawn(opts.lifetimeJitter, draw) then s
    else
      match Register(s.pool, id, opts, s.now, draw)
      case None => s
      case Some(q) => s.(pool := q, threads := s.threads[id := Thread(Started, ZERO, 0, 0)])
  }

  function CallbackStep(s: System, conn: nat): System {
    if conn !in s.log.armed || !Late(s.log.armed[conn], Outside(s)) then s
    else
      var (q, found) := Withdraw(s.pool, s.log.armed[conn], Outside(s));
      if found then s.(pool := q, log := s.log.(dropped := s.log.dropped + {conn})) else s
  }

  function StopStep(s: System): System {
    if s.pool.stopping then s
    else
      var (q, closing) := StopSection(s.pool);
      s.(pool := q, stopTodo := closing, log := s.log.(dropped := s.log.dropped + Names(s.pool.waiting)))
  }

  function Names(waiting: seq<Visitor>): set<nat> {
    Elements(Conns(waiting))
  }

  function PoolStep(s: System, e: Event): System
    requires Subject(e).None?
    requires forall id :: id in s.pool.idle ==> id in s.pool.workers
  {
    match e
    case Tick(d) => s.(now := s.now + d)
    case Cancel(ctx) => s.(cancelled := s.cancelled + {ctx})
    case Enroll(id, opts, draw) => EnrollStep(s, id, opts, draw)
    case Accept(conn, ctx, deadline) =>
      if conn in s.log.refused || conn in s.log.accepted then s else AcceptStep(s, Visitor(conn, ctx, deadline))
    case Callback(conn) => CallbackStep(s, conn)
    case StopPool => StopStep(s)
    case ForcePool =>
      s.(forceTodo := s.forceTodo + s.pool.live, drained := s.drained || s.pool.stopping)
  }

  /** One event; an event that is not enabled changes nothing. */
  function Step(s: System, e: Event): System
    requires forall id :: id in s.pool.idle ==> id in s.pool.workers
  {
    match Subject(e)
    case Some(id) => if id in s.threads && id in s.pool.workers then WorkerStep(s, e, id) else s
    case None => PoolStep(s, e)
  }

  // ---- Invariants ---------------------------------------------------------

  /** Next will return at its next check. */
  predicate MustReturn(w: Worker, stopping: bool) {
    w.mailbox.Some? || w.state == Closed || (stopping && w.state == Idle)
  }

  /** How a goroutine's position and its worker's state go together. */
  ghost predicate ThreadOk(w: Worker, t: Thread, stopping: bool) {
    && t.owed + t.closes == (if w.state == Closed then 1 else 0)
    && (InNext(t.pc) || t.pc.Returned? ==>
          w.state == Idle || w.state == Closed || (w.state == Leased && w.mailbox.Some?))
    && (InNext(t.pc) ==> t.until == NextDeadline(w))
    && match t.pc
       case Started => (w.state == Registering || w.state == Closed) && w.mailbox.None?
       case Polling(fired) => fired ==> MustReturn(w, stopping)
       case Blocked => w.mailbox.Some? || w.state == Closed ==> w.wake
       case Checked => (w.state == Checking || w.state == Closed) && w.mailbox.None?
       case Serving => (w.state == Leased || w.state == Closed) && w.mailbox.None?
       case Draining => (w.state == Releasing || w.state == Closed) && w.mailbox.None?
       case _ => true
  }

  ghost predicate Threads(s: System) {
    && s.threads.Keys == s.pool.workers.Keys
    && forall id :: id in s.threads ==> ThreadOk(s.pool.workers[id], s.threads[id], s.pool.stopping)
  }

  /** Shutdown only lets leases finish. */
  ghost predicate Drains(s: System) {
    && (s.pool.stopping ==> forall id :: id in s.pool.live && id in s.pool.workers ==>
          s.pool.workers[id].state == Leased || s.pool.workers[id].state == Releasing || id in s.stopTodo)
    && (s.drained ==> s.pool.stopping && s.pool.live <= s.forceTodo)
  }

  /** A visitor Dispatch accepted is handed over directly, handed over from
      the queue, dropped, or waiting, and only one of these. */
  ghost predicate Home(log: Log, waiting: set<nat>, c: nat) {
    var a, b, d, w := c in log.direct, c in log.queued, c in log.dropped, c in waiting;
    && (c in log.accepted <==> a || b || d || w)
    && !(a && b) && !(a && d) && !(a && w) && !(b && d) && !(b && w) && !(d && w)
    && !(c in log.refused && c in log.accepted)
  }

  /** Every visitor is in its one place, and `drops` counts the dropped ones. */
  ghost predicate Books(log: Log, waiting: seq<Visitor>, drops: nat) {
    && (forall c: nat :: Home(log, Names(waiting), c))
    && drops == |log.dropped|
    && (forall i :: 0 <= i < |waiting| ==> waiting[i].conn in log.armed && log.armed[waiting[i].conn] == waiting[i])
    && (forall c :: c in log.armed ==> log.armed[c].conn == c)
  }

  ghost predicate Accounted(s: System) {
    Books(s.log, s.pool.waiting, s.pool.waitTimeouts + s.pool.waitCanceled)
  }

  function Handoffs(log: Log): map<nat, nat> {
    log.direct + log.queued
  }

  /** A visitor handed to a worker is in that worker's mailbox until Next takes
      it or Closed cuts it off. */
  ghost predicate Delivered(s: System) {
    var log, h := s.log, Handoffs(s.log);
    && (forall id :: id in s.pool.workers && s.pool.workers[id].mailbox.Some? ==>
          var c := s.pool.workers[id].mailbox.value;
          c in h && h[c] == id && c !in log.taken && c !in log.cut)
    && (forall c :: c in h && c !in log.taken && c !in log.cut ==>
          h[c] in s.pool.workers && s.pool.workers[h[c]].mailbox == Some(c))
    && log.taken !! log.cut
    && log.taken + log.cut <= h.Keys
  }

  ghost predicate Subsequence(a: seq<nat>, b: seq<nat>)
    decreases |b|
  {
    a == [] || (b != [] && ((a[0] == b[0] && Subsequence(a[1..], b[1..])) || Subsequence(a, b[1..])))
  }

  /** Queue handoffs followed by the queue itself are in order of arrival. */
  ghost predicate Ordered(log: Log, waiting: seq<Visitor>) {
    Subsequence(log.served + Conns(waiting), log.arrived)
  }

  ghost predicate InOrder(s: System) {
    Ordered(s.log, s.pool.waiting)
  }

  ghost predicate Sound(s: System) {
    Inv(s.pool) && Threads(s) && Drains(s) && Accounted(s) && Delivered(s) && InOrder(s)
  }
}
