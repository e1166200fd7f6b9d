/** The registration guard of a connection and the listener that counts
    connections not yet authenticated: their critical sections as functions,
    and the machine in which timers, handlers, Close and stop race. */
module GuardSpec {
  import opened Bytes

  // Nanoseconds.
  const PHASE: int := 10_000_000_000
  const TOTAL: int := 20_000_000_000
  const MAX_SLOTS: nat := 64

  /** `timer` is when the armed timer fires; `deadline` is what the connection
      was last given, None for Go's zero time, which means none. */
  datatype Guard = Guard(until: int, phase: int, timer: Option<int>, done: bool, deadline: Option<int>)

  function Earlier(a: int, b: int): int {
    if a < b then a else b
  }

  function NewGuard(now: int): Guard {
    var until := now + TOTAL;
    var phase := Earlier(now + PHASE, until);
    Guard(until, phase, Some(phase), false, Some(phase))
  }

  /** The check next and complete share. */
  predicate Open(g: Guard, now: int) {
    !g.done && now < g.phase && now < g.until
  }

  /** next, up to the unlock: it checks at `now` and starts the next phase at
      `later`. */
  function Next(g: Guard, now: int, later: int): (Guard, bool) {
    if !Open(g, now) then (g, false)
    else
      var phase := Earlier(later + PHASE, g.until);
      (g.(phase := phase, deadline := Some(phase), timer := Some(phase)), true)
  }

  function Complete(g: Guard, now: int): (Guard, bool) {
    if !Open(g, now) then (g, false) else (g.(done := true, timer := None, deadline := None), true)
  }

  /** fail's critical section: whether this call ends the guard. */
  function Fail(g: Guard): (Guard, bool) {
    if g.done then (g, false) else (g.(done := true, timer := None), true)
  }

  /** SetDeadline and its kin on a guarded connection. */
  function Deadline(g: Guard, t: Option<int>): Guard {
    g.(deadline := if !g.done && (t.None? || t.value > g.phase) then Some(g.phase) else t)
  }

  /** `used` slots of the channel; `active` guards by name. */
  datatype Listener = Listener(used: int, active: set<nat>, stopping: bool, handlers: int)

  const NEW_LISTENER: Listener := Listener(0, {}, false, 0)

  function Reserve(l: Listener): (Listener, bool) {
    if l.used < MAX_SLOTS then (l.(used := l.used + 1), true) else (l, false)
  }

  function Insert(l: Listener, id: nat): Listener {
    l.(active := l.active + {id})
  }

  /** onDone: two steps, the second after the unlock. */
  function Delete(l: Listener, id: nat): Listener {
    l.(active := l.active - {id})
  }

  function Release(l: Listener): Listener {
    l.(used := l.used - 1)
  }

  function Stop(l: Listener): (Listener, set<nat>) {
    (l.(stopping := true), l.active)
  }

  function Begin(l: Listener): (Listener, bool) {
    if l.stopping then (l, false) else (l.(handlers := l.handlers + 1), true)
  }
}
