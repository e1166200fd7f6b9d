/** The client's accounting of one service's tunnel connections: the critical
    sections as functions of a value, and the counts they keep. */
module ClientSpec {
  datatype SlotState = Connecting | IdleSlot | BusySlot

  /** `conn` says the slot's connection is set. */
  datatype Slot = Slot(state: SlotState, conn: bool)

  // Nanoseconds.
  const BASE_BACKOFF: int := 250_000_000
  const MAX_BACKOFF: int := 30_000_000_000
  const STABLE_AFTER: int := 30_000_000_000

  datatype Account = Account(
    minIdle: int, maxIdle: int, stopping: bool, idle: int, connecting: int,
    slots: map<nat, Slot>, backoff: int, notBefore: int)

  function New(minIdle: int, maxIdle: int, zero: int): Account {
    Account(minIdle, maxIdle, false, 0, 0, map[], BASE_BACKOFF, zero)
  }

  datatype Plan = Quit | Enough | Delay(until: int) | Dial(n: nat)

  /** One pass of control's loop under the lock. */
  function Control(a: Account, now: int, cancelled: bool): (Account, Plan) {
    if a.stopping || cancelled then (a, Quit)
    else
      var need := a.minIdle - a.idle - a.connecting;
      if need <= 0 then (a, Enough)
      else if a.notBefore > now then (a, Delay(a.notBefore))
      else (a.(connecting := a.connecting + need), Dial(need))
  }

  /** runConn registers its slot. */
  function Register(a: Account, id: nat): Account {
    a.(slots := a.slots[id := Slot(Connecting, false)])
  }

  function Put(a: Account, id: nat, s: Slot): Account {
    a.(slots := a.slots[id := s])
  }

  /** dialAndServe, after the dial: a stopping client drops the connection. */
  function SetConn(a: Account, id: nat): (Account, bool)
    requires id in a.slots
  {
    if a.stopping then (a, false) else (Put(a, id, a.slots[id].(conn := true)), true)
  }

  /** HELLO_OK */
  function Registered(a: Account, id: nat): Account
    requires id in a.slots
  {
    Put(a, id, a.slots[id].(state := IdleSlot)).(connecting := a.connecting - 1, idle := a.idle + 1)
  }

  /** OPEN */
  function Opened(a: Account, id: nat): Account
    requires id in a.slots
  {
    Put(a, id, a.slots[id].(state := BusySlot)).(idle := a.idle - 1)
  }

  /** The decision at the release barrier: whether the connection is surplus. */
  function Barrier(a: Account, id: nat): (Account, bool)
    requires id in a.slots
  {
    if a.stopping || a.idle + a.connecting >= a.maxIdle then (a, true)
    else (Put(a, id, a.slots[id].(state := IdleSlot)).(idle := a.idle + 1), false)
  }

  /** drop */
  function DropConn(a: Account, id: nat): Account
    requires id in a.slots
  {
    Put(a, id, a.slots[id].(conn := false))
  }

  function MinInt(a: int, b: int): int {
    if a < b then a else b
  }

  /** How dialAndServe ended: without error, or with one after `age`; `draw` is
      the random part of the backoff. */
  datatype End = Fine | Failed(age: int, draw: int)

  function Uncount(a: Account, id: nat): Account
    requires id in a.slots
  {
    var b := a.(slots := a.slots - {id});
    match a.slots[id].state
    case Connecting => b.(connecting := a.connecting - 1)
    case IdleSlot => b.(idle := a.idle - 1)
    case BusySlot => b
  }

  /** What the end of a connection does to the backoff. */
  function Penalise(a: Account, end: End, now: int, cancelled: bool): Account {
    match end
    case Fine => a.(backoff := BASE_BACKOFF)
    case Failed(age, draw) =>
      if cancelled || a.stopping then a
      else
        var backoff := if age >= STABLE_AFTER then BASE_BACKOFF else a.backoff;
        a.(notBefore := now + draw, backoff := MinInt(backoff * 2, MAX_BACKOFF))
  }

  /** The values rand may draw for the delay: up to the backoff in force. */
  predicate Drawn(a: Account, end: End) {
    end.Failed? ==> 0 <= end.draw <= (if end.age >= STABLE_AFTER then BASE_BACKOFF else a.backoff)
  }

  /** runConn's last critical section. */
  function Exit(a: Account, id: nat, end: End, now: int, cancelled: bool): Account
    requires id in a.slots
  {
    Penalise(Uncount(a, id), end, now, cancelled)
  }

  /** stop: the slots whose connections it goes on to close. */
  function Stop(a: Account): (Account, set<nat>) {
    (a.(stopping := true), set id | id in a.slots && a.slots[id].state != BusySlot && a.slots[id].conn)
  }

  // ---- Counting -----------------------------------------------------------

  function In(slots: map<nat, Slot>, s: SlotState): set<nat> {
    set id | id in slots && slots[id].state == s
  }

  function Count(slots: map<nat, Slot>, s: SlotState): nat {
    |In(slots, s)|
  }

  lemma CountPut(slots: map<nat, Slot>, id: nat, s: Slot, x: SlotState)
    requires id in slots
    ensures Count(slots[id := s], x) ==
            Count(slots, x) - (if slots[id].state == x then 1 else 0) + (if s.state == x then 1 else 0)
  {
    var a, b := In(slots, x), In(slots[id := s], x);
    assert id in a <==> slots[id].state == x;
    assert id in b <==> s.state == x;
    assert a - {id} == b - {id};
    hide In;
    CountSplit(a, id);
    CountSplit(b, id);
  }

  lemma CountNew(slots: map<nat, Slot>, id: nat, s: Slot, x: SlotState)
    requires id !in slots
    ensures Count(slots[id := s], x) == Count(slots, x) + (if s.state == x then 1 else 0)
  {
    var a, b := In(slots, x), In(slots[id := s], x);
    assert id in b <==> s.state == x;
    assert b - {id} == a;
    hide In;
    CountSplit(b, id);
  }

  lemma CountGone(slots: map<nat, Slot>, id: nat, x: SlotState)
    requires id in slots
    ensures Count(slots - {id}, x) == Count(slots, x) - (if slots[id].state == x then 1 else 0)
  {
    var a, b := In(slots, x), In(slots - {id}, x);
    assert id in a <==> slots[id].state == x;
    assert b == a - {id};
    hide In;
    CountSplit(a, id);
  }

  lemma CountSplit(s: set<nat>, id: nat)
    ensures |s| == |s - {id}| + (if id in s then 1 else 0)
  {
    if id in s {
      assert s == (s - {id}) + {id};
    } else {
      assert s == s - {id};
    }
  }

  // ---- The invariant ------------------------------------------------------

  /** The counters are the slots' states plus the dials under way, and stay
      within the pool's limits. `spawned` counts goroutines that control has
      started and that have not registered a slot. */
  ghost predicate Counted(a: Account, spawned: nat) {
    && a.idle == Count(a.slots, IdleSlot)
    && a.connecting == Count(a.slots, Connecting) + spawned
    && a.connecting <= a.minIdle
    && a.idle + a.connecting <= a.maxIdle
    && 1 <= a.minIdle <= a.maxIdle
  }

  ghost predicate BackoffOk(a: Account) {
    BASE_BACKOFF <= a.backoff <= MAX_BACKOFF
  }

  ghost predicate Inv(a: Account, spawned: nat) {
    Counted(a, spawned) && BackoffOk(a)
  }

  lemma InvControl(a: Account, spawned: nat, now: int, cancelled: bool)
    requires Inv(a, spawned)
    ensures var (b, plan) := Control(a, now, cancelled);
            Inv(b, spawned + if plan.Dial? then plan.n else 0)
  {
  }

  /** A dial round brings the service to exactly MinIdle. */
  lemma ControlMeetsMinimum(a: Account, now: int, cancelled: bool)
    ensures var (b, plan) := Control(a, now, cancelled);
            && (plan.Dial? ==> plan.n > 0 && b.idle + b.connecting == b.minIdle && a.notBefore <= now)
            && (plan.Delay? ==> b.idle + b.connecting < b.minIdle && plan.until == a.notBefore > now)
            && (plan.Enough? ==> b.idle + b.connecting >= b.minIdle)
            && (plan.Quit? <==> a.stopping || cancelled)
  {
  }

  lemma InvRegister(a: Account, spawned: nat, id: nat)
    requires Inv(a, spawned) && id !in a.slots && spawned > 0
    ensures Inv(Register(a, id), spawned - 1)
  {
    CountNew(a.slots, id, Slot(Connecting, false), IdleSlot);
    CountNew(a.slots, id, Slot(Connecting, false), Connecting);
  }

  lemma InvPut(a: Account, spawned: nat, id: nat, s: Slot)
    requires Inv(a, spawned) && id in a.slots && s.state == a.slots[id].state
    ensures Inv(Put(a, id, s), spawned)
  {
    CountPut(a.slots, id, s, IdleSlot);
    CountPut(a.slots, id, s, Connecting);
  }

  lemma InvRegistered(a: Account, spawned: nat, id: nat)
    requires Inv(a, spawned) && id in a.slots && a.slots[id].state == Connecting
    ensures Inv(Registered(a, id), spawned)
  {
    CountPut(a.slots, id, a.slots[id].(state := IdleSlot), IdleSlot);
    CountPut(a.slots, id, a.slots[id].(state := IdleSlot), Connecting);
  }

  lemma InvOpened(a: Account, spawned: nat, id: nat)
    requires Inv(a, spawned) && id in a.slots && a.slots[id].state == IdleSlot
    ensures Inv(Opened(a, id), spawned)
  {
    CountPut(a.slots, id, a.slots[id].(state := BusySlot), IdleSlot);
    CountPut(a.slots, id, a.slots[id].(state := BusySlot), Connecting);
  }

  lemma InvBarrier(a: Account, spawned: nat, id: nat)
    requires Inv(a, spawned) && id in a.slots && a.slots[id].state == BusySlot
    ensures Inv(Barrier(a, id).0, spawned)
  {
    CountPut(a.slots, id, a.slots[id].(state := IdleSlot), IdleSlot);
    CountPut(a.slots, id, a.slots[id].(state := IdleSlot), Connecting);
  }

  lemma InvExit(a: Account, spawned: nat, id: nat, end: End, now: int, cancelled: bool)
    requires Inv(a, spawned) && id in a.slots
    ensures Inv(Exit(a, id, end, now, cancelled), spawned)
  {
    CountGone(a.slots, id, IdleSlot);
    CountGone(a.slots, id, Connecting);
  }

  // ---- Backoff ------------------------------------------------------------

  function Power2(k: nat): nat {
    if k == 0 then 1 else 2 * Power2(k - 1)
  }

  /** The backoff after k failures since the last reset. */
  function BackoffAfter(k: nat): int {
    MinInt(BASE_BACKOFF * Power2(k), MAX_BACKOFF)
  }

  lemma BackoffDoubles(k: nat)
    ensures MinInt(BackoffAfter(k) * 2, MAX_BACKOFF) == BackoffAfter(k + 1)
    ensures BASE_BACKOFF <= BackoffAfter(k) <= MAX_BACKOFF
  {
    PowerGrows(k);
    assert Power2(k + 1) == 2 * Power2(k);
    assert BASE_BACKOFF * Power2(k + 1) == 2 * (BASE_BACKOFF * Power2(k));
  }

  lemma {:induction false} PowerGrows(k: nat)
    ensures Power2(k) >= 1
  {
    if k > 0 {
      PowerGrows(k - 1);
    }
  }
}
