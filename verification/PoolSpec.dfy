/** The worker pool as a value, one function per critical section of the
    server's pool, and the structure every section keeps. */
module PoolSpec {
  import opened Bytes

  datatype WState = Registering | Idle | Leased | Releasing | Checking | Expiring | Closed

  /** Timings in nanoseconds; a base of zero or less disables its timer. */
  datatype Options = Options(heartbeat: int, idleTimeout: int, idleJitter: int, maxLifetime: int, lifetimeJitter: int)

  /** time.Unix(1<<62, 0), the disabled deadline, and the zero time.Time. */
  const NEVER: int := 0x4000_0000_0000_0000 * 1_000_000_000
  const ZERO: int := -62_135_596_800 * 1_000_000_000

  /** Connections of visitors are named by numbers. `linked` says elem is set;
      `wake` says the wake channel holds its one token. */
  datatype Worker = Worker(
    opts: Options, dies: int, state: WState, mailbox: Option<nat>, business: Option<nat>,
    wake: bool, linked: bool, expires: int)

  datatype Visitor = Visitor(conn: nat, ctx: nat, deadline: int)

  /** `workers` holds every worker ever registered, `live` those of the pool's
      own map; `idle` lists worker IDs. */
  datatype Pool = Pool(
    pendingMax: int, stopping: bool, workers: map<nat, Worker>, live: set<nat>,
    idle: seq<nat>, waiting: seq<Visitor>, pending: int, waitTimeouts: nat, waitCanceled: nat)

  /** What a critical section reads from outside: the clock and the cancelled
      contexts. */
  datatype Env = Env(now: int, cancelled: set<nat>)

  function New(maxPending: int): Pool {
    Pool(maxPending, false, map[], {}, [], [], 0, 0, 0)
  }

  // ---- Deadlines ----------------------------------------------------------

  /** `jitter`: the values it may draw for a spread. */
  predicate Drawn(spread: int, draw: int) {
    if spread <= 0 then draw == 0 else 0 <= draw <= spread
  }

  /** `after`, with the value drawn by jitter made explicit. */
  function After(now: int, base: int, draw: int): int {
    if base <= 0 then NEVER else now + base + draw
  }

  function Earlier(a: int, b: int): int {
    if a < b then a else b
  }

  /** The deadline Next works with. */
  function NextDeadline(w: Worker): int {
    var d := Earlier(w.expires, w.dies);
    if d == ZERO then NEVER else d
  }

  // ---- The idle list ------------------------------------------------------

  /** pushIdleLocked's place for an ID, looked for from the back. */
  function Insert(s: seq<nat>, id: nat): seq<nat> {
    if s == [] then [id]
    else if s[|s| - 1] > id then Insert(s[..|s| - 1], id) + [s[|s| - 1]]
    else s + [id]
  }

  function Remove(s: seq<nat>, id: nat): seq<nat> {
    if s == [] then [] else if s[0] == id then s[1..] else [s[0]] + Remove(s[1..], id)
  }

  ghost predicate Ascending(s: seq<nat>) {
    forall i, j :: 0 <= i < j < |s| ==> s[i] < s[j]
  }

  lemma {:induction false} InsertOrdered(s: seq<nat>, id: nat)
    requires Ascending(s) && id !in s
    ensures Ascending(Insert(s, id)) && |Insert(s, id)| == |s| + 1
    ensures forall x :: x in Insert(s, id) <==> x in s || x == id
  {
    if s != [] && s[|s| - 1] > id {
      var front := s[..|s| - 1];
      InsertOrdered(front, id);
      assert s == front + [s[|s| - 1]];
      forall i | 0 <= i < |Insert(front, id)| ensures Insert(front, id)[i] < s[|s| - 1] {
        assert Insert(front, id)[i] in front || Insert(front, id)[i] == id;
      }
    }
  }

  lemma {:induction false} RemoveOrdered(s: seq<nat>, id: nat)
    requires Ascending(s)
    ensures Ascending(Remove(s, id))
    ensures forall x :: x in Remove(s, id) <==> x in s && x != id
    ensures id in s ==> |Remove(s, id)| == |s| - 1
  {
    if s != [] {
      RemoveOrdered(s[1..], id);
      assert s == [s[0]] + s[1..];
      if s[0] != id {
        forall i | 0 <= i < |Remove(s[1..], id)| ensures s[0] < Remove(s[1..], id)[i] {
          assert Remove(s[1..], id)[i] in s[1..];
        }
      }
    }
  }

  // ---- Critical sections --------------------------------------------------

  function Put(p: Pool, id: nat, w: Worker): Pool {
    p.(workers := p.workers[id := w])
  }

  /** Register; a stopping pool refuses. */
  function Register(p: Pool, id: nat, opts: Options, now: int, draw: int): Option<Pool> {
    if p.stopping then None
    else
      var w := Worker(opts, After(now, opts.maxLifetime, draw), Registering, None, None, false, false, ZERO);
      Some(Put(p, id, w).(live := p.live + {id}))
  }

  /** A worker pushed on the idle list, and a worker handed a visitor. */
  function Shelved(w: Worker): Worker {
    w.(state := Idle, linked := true)
  }

  function Handed(w: Worker, conn: nat): Worker {
    w.(state := Leased, mailbox := Some(conn), business := Some(conn), wake := true)
  }

  function PushIdle(p: Pool, id: nat): Pool
    requires id in p.workers
  {
    Put(p, id, Shelved(p.workers[id])).(idle := Insert(p.idle, id))
  }

  function Unlink(p: Pool, id: nat): Pool
    requires id in p.workers
  {
    if p.workers[id].linked then Put(p, id, p.workers[id].(linked := false)).(idle := Remove(p.idle, id)) else p
  }

  function Hand(p: Pool, id: nat, conn: nat): Pool
    requires id in p.workers
  {
    Put(p, id, Handed(p.workers[id], conn))
  }

  predicate Late(v: Visitor, env: Env) {
    v.ctx in env.cancelled || v.deadline <= env.now
  }

  /** dropLocked */
  function Drop(p: Pool, v: Visitor, env: Env): Pool {
    if v.ctx in env.cancelled then p.(waitCanceled := p.waitCanceled + 1)
    else p.(waitTimeouts := p.waitTimeouts + 1)
  }

  /** matchLocked: the new pool and the connections to close. */
  function Match(p: Pool, id: nat, env: Env): (r: (Pool, seq<nat>))
    requires id in p.workers
    ensures r.0.workers.Keys == p.workers.Keys
    decreases |p.waiting|
  {
    if p.waiting == [] then (PushIdle(p, id), [])
    else
      var v := p.waiting[0];
      var q := p.(waiting := p.waiting[1..], pending := p.pending - 1);
      if Late(v, env) then
        var r := Match(Drop(q, v, env), id, env);
        (r.0, [v.conn] + r.1)
      else (Hand(q, id, v.conn), [])
  }

  datatype IdleOutcome = IdleReady(closing: seq<nat>) | IdleExpired | IdleStopped

  /** Idle's critical section. IdleStopped leaves the pool alone; the caller
      goes on to Closed. */
  function IdleSection(p: Pool, id: nat, env: Env, draw: int): (Pool, IdleOutcome)
    requires id in p.workers
  {
    var w := p.workers[id];
    if p.stopping || w.state == Closed then (p, IdleStopped)
    else if w.dies <= env.now then (Put(p, id, w.(business := None, state := Expiring)), IdleExpired)
    else
      var expires := if w.state != Checking then After(env.now, w.opts.idleTimeout, draw) else w.expires;
      var r := Match(Put(p, id, w.(business := None, expires := expires)), id, env);
      (r.0, IdleReady(r.1))
  }

  function ReleasingSection(p: Pool, id: nat): Pool
    requires id in p.workers
  {
    if p.workers[id].state == Leased then Put(p, id, p.workers[id].(state := Releasing)) else p
  }

  datatype DispatchOutcome = ErrStopped | ErrCanceled | ErrExpired | ErrFull | Direct(worker: nat) | Queued

  function Dispatch(p: Pool, v: Visitor, env: Env): (Pool, DispatchOutcome)
    requires forall id :: id in p.idle ==> id in p.workers
  {
    if p.stopping then (p, ErrStopped)
    else if v.ctx in env.cancelled then (p, ErrCanceled)
    else if v.deadline <= env.now then (p, ErrExpired)
    else if |p.waiting| == 0 && |p.idle| > 0 then
      var id := p.idle[|p.idle| - 1];
      (Hand(Unlink(p, id), id, v.conn), Direct(id))
    else if p.pending >= p.pendingMax then (p, ErrFull)
    else (p.(waiting := p.waiting + [v], pending := p.pending + 1), Queued)
  }

  /** Where a visitor stands in the queue, or its length. */
  function Place(waiting: seq<Visitor>, conn: nat): (i: nat)
    ensures i <= |waiting|
    ensures i < |waiting| ==> waiting[i].conn == conn
    ensures forall j :: 0 <= j < i ==> waiting[j].conn != conn
  {
    if waiting == [] || waiting[0].conn == conn then 0 else 1 + Place(waiting[1..], conn)
  }

  /** The callback that Dispatch arms for a queued visitor: whether it dropped
      the visitor, or found it gone. */
  function Withdraw(p: Pool, v: Visitor, env: Env): (Pool, bool) {
    var i := Place(p.waiting, v.conn);
    if i == |p.waiting| then (p, false)
    else (Drop(p.(waiting := p.waiting[..i] + p.waiting[i + 1..], pending := p.pending - 1), v, env), true)
  }

  function TakeIdle(p: Pool, id: nat, s: WState): (Pool, bool)
    requires id in p.workers
  {
    if p.workers[id].state != Idle || p.stopping then (p, false)
    else
      var q := Unlink(p, id);
      (Put(q, id, q.workers[id].(state := s)), true)
  }

  datatype PollOutcome = Wait | PollStopped | PollLeased(conn: nat)

  /** The check at the top of Next's loop. */
  function Poll(p: Pool, id: nat): (Pool, PollOutcome)
    requires id in p.workers
  {
    var w := p.workers[id];
    if w.state == Closed || (p.stopping && w.state == Idle) then (p, PollStopped)
    else if w.mailbox.Some? then (Put(p, id, w.(mailbox := None)), PollLeased(w.mailbox.value))
    else (p, Wait)
  }

  function WakeSection(p: Pool, id: nat): Pool
    requires id in p.workers
  {
    Put(p, id, p.workers[id].(wake := false))
  }

  /** Closed's critical section: whether this call closed the worker. */
  function CloseSection(p: Pool, id: nat): (Pool, bool)
    requires id in p.workers
  {
    if p.workers[id].state == Closed then (p, false)
    else
      var q := Unlink(p, id);
      var w := q.workers[id].(state := Closed, mailbox := None, business := None, wake := true);
      (Put(q, id, w).(live := p.live - {id}), true)
  }

  predicate StopCloses(s: WState) {
    s == Idle || s == Checking || s == Registering || s == Expiring
  }

  /** Stop's critical section: the new pool, the workers to close. */
  function StopSection(p: Pool): (Pool, set<nat>) {
    if p.stopping then (p, {})
    else
      (p.(stopping := true, waiting := [], pending := p.pending - |p.waiting|,
          waitCanceled := p.waitCanceled + |p.waiting|),
       set id | id in p.live && id in p.workers && StopCloses(p.workers[id].state))
  }

  // ---- Structure ----------------------------------------------------------

  ghost predicate WorkerOk(w: Worker) {
    && (w.linked <==> w.state == Idle)
    && (w.mailbox.Some? ==> w.state == Leased && w.business == w.mailbox)
    && (w.business.Some? <==> w.state == Leased || w.state == Releasing)
  }

  ghost predicate Rostered(p: Pool) {
    && (forall id :: id in p.workers ==> WorkerOk(p.workers[id]))
    && (forall id :: id in p.live <==> id in p.workers && p.workers[id].state != Closed)
    && (forall id :: id in p.idle <==> id in p.workers && p.workers[id].state == Idle)
    && Ascending(p.idle)
  }

  ghost predicate Distinct(waiting: seq<Visitor>) {
    forall i, j :: 0 <= i < j < |waiting| ==> waiting[i].conn != waiting[j].conn
  }

  ghost predicate Lined(p: Pool) {
    && p.pending == |p.waiting|
    && (p.pending > 0 ==> p.pending <= p.pendingMax)
    && Distinct(p.waiting)
    && (p.stopping ==> |p.waiting| == 0)
  }

  /** The redundant views agree, and nobody waits while a worker is idle. */
  ghost predicate Inv(p: Pool) {
    Rostered(p) && Lined(p) && (|p.waiting| == 0 || |p.idle| == 0)
  }

  /** A worker that may enter Idle: its callers come from registration, a
      heartbeat or a lease. */
  predicate MayIdle(w: Worker) {
    && (w.state == Registering || w.state == Checking || w.state == Releasing || w.state == Closed)
    && w.mailbox.None?
  }

  lemma RosteredPut(p: Pool, id: nat, w: Worker)
    requires Rostered(p) && id in p.workers && WorkerOk(w)
    requires p.workers[id].state != Idle && w.state != Idle
    requires p.workers[id].state != Closed && w.state != Closed
    ensures Rostered(Put(p, id, w))
  {
  }

  lemma RosteredPushIdle(p: Pool, id: nat, w: Worker)
    requires Rostered(p) && id in p.workers && p.workers[id].state != Idle && p.workers[id].state != Closed
    requires w.mailbox.None? && w.business.None?
    ensures Rostered(PushIdle(Put(p, id, w), id))
  {
    InsertOrdered(p.idle, id);
  }

  /** An idle worker leaves the list for any other state. */
  lemma RosteredTake(p: Pool, id: nat, w: Worker)
    requires Rostered(p) && id in p.workers && p.workers[id].state == Idle
    requires WorkerOk(w) && w.state != Idle && w.state != Closed
    ensures Rostered(Put(Unlink(p, id), id, w))
  {
    RemoveOrdered(p.idle, id);
  }

  lemma InvRegister(p: Pool, id: nat, opts: Options, now: int, draw: int)
    requires Inv(p) && id !in p.workers && !p.stopping
    ensures Inv(Register(p, id, opts, now, draw).value)
  {
  }

  /** matchLocked in closed form. The visitors at the front of the queue that
      are late are dropped; the first other one, if any, gets the worker, and
      only if there is none does the worker become idle. */
  function FirstLive(waiting: seq<Visitor>, env: Env): (k: nat)
    ensures k <= |waiting|
    ensures forall i :: 0 <= i < k ==> Late(waiting[i], env)
    ensures k < |waiting| ==> !Late(waiting[k], env)
  {
    if waiting == [] || !Late(waiting[0], env) then 0 else 1 + FirstLive(waiting[1..], env)
  }

  function Conns(waiting: seq<Visitor>): (s: seq<nat>)
    ensures |s| == |waiting|
    ensures forall i :: 0 <= i < |s| ==> s[i] == waiting[i].conn
  {
    if waiting == [] then [] else [waiting[0].conn] + Conns(waiting[1..])
  }

  /** matchLocked's result `r` when the first `k` visitors were late. */
  ghost predicate Matched(p: Pool, id: nat, k: nat, r: (Pool, seq<nat>))
    requires id in p.workers && k <= |p.waiting|
  {
    && r.1 == Conns(p.waiting[..k])
    && r.0.waitTimeouts + r.0.waitCanceled == p.waitTimeouts + p.waitCanceled + k
    && r.0.stopping == p.stopping && r.0.pendingMax == p.pendingMax && r.0.live == p.live
    && if k < |p.waiting| then
         && r.0.waiting == p.waiting[k + 1..] && r.0.pending == p.pending - k - 1
         && r.0.workers == p.workers[id := Handed(p.workers[id], p.waiting[k].conn)] && r.0.idle == p.idle
       else
         && r.0.waiting == [] && r.0.pending == p.pending - k
         && r.0.workers == p.workers[id := Shelved(p.workers[id])] && r.0.idle == Insert(p.idle, id)
  }

  lemma {:induction false} MatchServesFirstLive(p: Pool, id: nat, env: Env)
    requires id in p.workers
    ensures Matched(p, id, FirstLive(p.waiting, env), Match(p, id, env))
    decreases |p.waiting|
  {
    hide Handed, Shelved, Insert, Late, Drop, Conns;
    if p.waiting != [] && Late(p.waiting[0], env) {
      var q := Drop(p.(waiting := p.waiting[1..], pending := p.pending - 1), p.waiting[0], env);
      DropShape(p.(waiting := p.waiting[1..], pending := p.pending - 1), p.waiting[0], env);
      MatchServesFirstLive(q, id, env);
      OneMoreLate(p, q, id, FirstLive(q.waiting, env), Match(q, id, env));
    } else {
      assert Conns(p.waiting[..0]) == [];
    }
  }

  lemma DropShape(p: Pool, v: Visitor, env: Env)
    ensures var q := Drop(p, v, env);
            && q == p.(waitTimeouts := q.waitTimeouts, waitCanceled := q.waitCanceled)
            && q.waitTimeouts + q.waitCanceled == p.waitTimeouts + p.waitCanceled + 1
  {
  }

  lemma OneMoreLate(p: Pool, q: Pool, id: nat, k: nat, r: (Pool, seq<nat>))
    requires id in p.workers && p.waiting != []
    requires q == p.(waiting := p.waiting[1..], pending := p.pending - 1,
                     waitTimeouts := q.waitTimeouts, waitCanceled := q.waitCanceled)
    requires q.waitTimeouts + q.waitCanceled == p.waitTimeouts + p.waitCanceled + 1
    requires k <= |q.waiting| && Matched(q, id, k, r)
    ensures Matched(p, id, k + 1, (r.0, [p.waiting[0].conn] + r.1))
  {
    hide Handed, Shelved, Insert;
    assert p.waiting[..k + 1][1..] == q.waiting[..k];
  }

  /** matchLocked for a worker `w` on its way back to service. */
  lemma InvMatch(p: Pool, w: Worker, id: nat, env: Env)
    requires Inv(p) && id in p.workers && p.workers[id].state != Idle && p.workers[id].state != Closed
    requires w.mailbox.None? && w.business.None? && !w.linked
    ensures Inv(Match(Put(p, id, w), id, env).0)
  {
    hide Match, FirstLive, Insert, Rostered, Conns;
    MatchServesFirstLive(Put(p, id, w), id, env);
    MatchedRoster(p, w, id, FirstLive(p.waiting, env), Match(Put(p, id, w), id, env));
  }

  lemma MatchedRoster(p: Pool, w: Worker, id: nat, k: nat, r: (Pool, seq<nat>))
    requires Rostered(p) && id in p.workers && p.workers[id].state != Idle && p.workers[id].state != Closed
    requires w.mailbox.None? && w.business.None? && !w.linked
    requires k <= |p.waiting| && Matched(Put(p, id, w), id, k, r)
    ensures Rostered(r.0)
  {
    hide Rostered, Insert, Conns;
    if k < |p.waiting| {
      RosteredPut(p, id, Handed(w, p.waiting[k].conn));
      SameRoster(Put(p, id, Handed(w, p.waiting[k].conn)), r.0);
    } else {
      RosteredPushIdle(p, id, w);
      SameRoster(PushIdle(Put(p, id, w), id), r.0);
    }
  }

  lemma SameRoster(p: Pool, q: Pool)
    requires Rostered(p) && q.workers == p.workers && q.live == p.live && q.idle == p.idle
    ensures Rostered(q)
  {
  }

  lemma InvIdleSection(p: Pool, id: nat, env: Env, draw: int)
    requires Inv(p) && id in p.workers && MayIdle(p.workers[id])
    ensures Inv(IdleSection(p, id, env, draw).0)
  {
    hide Match;
    var w := p.workers[id];
    if !(p.stopping || w.state == Closed) {
      if w.dies <= env.now {
        RosteredPut(p, id, w.(business := None, state := Expiring));
      } else {
        var expires := if w.state != Checking then After(env.now, w.opts.idleTimeout, draw) else w.expires;
        InvMatch(p, w.(business := None, expires := expires), id, env);
      }
    }
  }

  lemma InvReleasing(p: Pool, id: nat)
    requires Inv(p) && id in p.workers && p.workers[id].mailbox.None?
    ensures Inv(ReleasingSection(p, id))
  {
    if p.workers[id].state == Leased {
      RosteredPut(p, id, p.workers[id].(state := Releasing));
    }
  }

  /** Dispatch keeps the structure; a direct handoff goes to the idle worker
      with the largest ID, and only when nobody is waiting. */
  lemma InvDispatch(p: Pool, v: Visitor, env: Env)
    requires Inv(p) && (forall i :: 0 <= i < |p.waiting| ==> p.waiting[i].conn != v.conn)
    ensures Inv(Dispatch(p, v, env).0)
  {
    if Dispatch(p, v, env).1.Direct? {
      var id := p.idle[|p.idle| - 1];
      assert id in p.idle;
      var w := p.workers[id].(linked := false, state := Leased, mailbox := Some(v.conn),
                              business := Some(v.conn), wake := true);
      RosteredTake(p, id, w);
      RemoveOrdered(p.idle, id);
      assert Hand(Unlink(p, id), id, v.conn).workers == Put(Unlink(p, id), id, w).workers;
    }
  }

  lemma DispatchPicksNewest(p: Pool, v: Visitor, env: Env)
    requires Inv(p)
    ensures var o := Dispatch(p, v, env).1;
            o.Direct? ==>
              && p.waiting == []
              && o.worker in p.workers && p.workers[o.worker].state == Idle
              && (forall id :: id in p.workers && p.workers[id].state == Idle ==> id <= o.worker)
  {
    if Dispatch(p, v, env).1.Direct? {
      var last := p.idle[|p.idle| - 1];
      assert last in p.idle;
      forall id | id in p.workers && p.workers[id].state == Idle ensures id <= last {
        assert id in p.idle;
      }
    }
  }

  /** When Dispatch refuses or queues, no worker could have served: the pool
      is stopping, the visitor is late, or no worker is idle. */
  lemma DispatchIsPrompt(p: Pool, v: Visitor, env: Env)
    requires Inv(p)
    ensures var o := Dispatch(p, v, env).1;
            && (o.Queued? || o.ErrFull? ==> forall id :: id in p.workers ==> p.workers[id].state != Idle)
            && (o.ErrFull? ==> |p.waiting| >= p.pendingMax)
            && (o.Direct? || o.Queued? || o.ErrFull? <==> !p.stopping && !Late(v, env))
  {
    if Dispatch(p, v, env).1.Queued? || Dispatch(p, v, env).1.ErrFull? {
      assert |p.idle| == 0;
      forall id | id in p.workers ensures p.workers[id].state != Idle {
        assert id !in p.idle;
      }
    }
  }

  lemma InvWithdraw(p: Pool, v: Visitor, env: Env)
    requires Inv(p)
    ensures Inv(Withdraw(p, v, env).0)
  {
  }

  lemma InvTakeIdle(p: Pool, id: nat, s: WState)
    requires Inv(p) && id in p.workers && (s == Checking || s == Expiring)
    ensures Inv(TakeIdle(p, id, s).0)
  {
    if TakeIdle(p, id, s).1 {
      RosteredTake(p, id, p.workers[id].(linked := false, state := s));
      RemoveOrdered(p.idle, id);
    }
  }

  lemma InvPoll(p: Pool, id: nat)
    requires Inv(p) && id in p.workers
    ensures Inv(Poll(p, id).0)
  {
    if Poll(p, id).1.PollLeased? {
      RosteredPut(p, id, p.workers[id].(mailbox := None));
    }
  }

  lemma InvWake(p: Pool, id: nat)
    requires Inv(p) && id in p.workers
    ensures Inv(WakeSection(p, id))
  {
  }

  lemma InvClose(p: Pool, id: nat)
    requires Inv(p) && id in p.workers
    ensures Inv(CloseSection(p, id).0)
  {
    RemoveOrdered(p.idle, id);
  }

  lemma InvStop(p: Pool)
    requires Inv(p)
    ensures Inv(StopSection(p).0)
  {
  }

  // ---- Timing -------------------------------------------------------------

  /** Deadlines are drawn from the window they promise, a worker is never
      returned to service at or after the end of its life, and a heartbeat
      leaves the idle deadline alone. */
  lemma IdleTiming(p: Pool, id: nat, env: Env, draw: int)
    requires id in p.workers && Drawn(p.workers[id].opts.idleJitter, draw)
    ensures var w, o, q := p.workers[id], IdleSection(p, id, env, draw).1, IdleSection(p, id, env, draw).0;
            && id in q.workers
            && q.workers[id].dies == w.dies && q.workers[id].opts == w.opts
            && (o.IdleReady? ==> env.now < w.dies)
            && (o.IdleExpired? ==> w.dies <= env.now)
            && (!o.IdleReady? || w.state == Checking ==> q.workers[id].expires == w.expires)
            && (o.IdleReady? && w.state != Checking ==>
                  if w.opts.idleTimeout <= 0 then q.workers[id].expires == NEVER
                  else env.now + w.opts.idleTimeout <= q.workers[id].expires
                       && (w.opts.idleJitter >= 0 ==>
                             q.workers[id].expires <= env.now + w.opts.idleTimeout + w.opts.idleJitter))
  {
    hide Match;
    var w := p.workers[id];
    if IdleSection(p, id, env, draw).1.IdleReady? {
      var expires := if w.state != Checking then After(env.now, w.opts.idleTimeout, draw) else w.expires;
      MatchKeepsTimes(Put(p, id, w.(business := None, expires := expires)), id, env);
    }
  }

  lemma MatchKeepsTimes(p: Pool, id: nat, env: Env)
    requires id in p.workers
    ensures var q := Match(p, id, env).0;
            id in q.workers && q.workers[id].dies == p.workers[id].dies && q.workers[id].opts == p.workers[id].opts
            && q.workers[id].expires == p.workers[id].expires
  {
    hide Match, FirstLive, Conns, Insert;
    MatchServesFirstLive(p, id, env);
  }

  // ---- Stats --------------------------------------------------------------

  function In(p: Pool, s: WState): set<nat> {
    set id | id in p.live && id in p.workers && p.workers[id].state == s
  }

  function Count(p: Pool, s: WState): nat {
    |In(p, s)|
  }

  /** The six state counts Stats reports add up to Count(). */
  lemma StatsAddUp(p: Pool)
    requires Inv(p)
    ensures |p.live| == Count(p, Registering) + Count(p, Idle) + Count(p, Leased)
                        + Count(p, Releasing) + Count(p, Checking) + Count(p, Expiring)
    ensures Count(p, Idle) == |p.idle|
  {
    IdleCount(p);
    LiveAreOpen(p);
    hide Inv, In, From;
    SplitOff(p, Registering);
    SplitOff(p, Idle);
    SplitOff(p, Leased);
    SplitOff(p, Releasing);
    SplitOff(p, Checking);
    SplitOff(p, Expiring);
  }

  /** The order in which the states are declared. */
  function Order(s: WState): nat {
    match s
    case Registering => 0
    case Idle => 1
    case Leased => 2
    case Releasing => 3
    case Checking => 4
    case Expiring => 5
    case Closed => 6
  }

  /** The live workers in the nth state or a later one. */
  function From(p: Pool, n: nat): set<nat> {
    set id | id in p.live && id in p.workers && Order(p.workers[id].state) >= n
  }

  lemma LiveAreOpen(p: Pool)
    requires Inv(p)
    ensures From(p, 0) == p.live && |From(p, 6)| == 0
  {
    assert From(p, 6) == {};
  }

  lemma SplitOff(p: Pool, s: WState)
    ensures |From(p, Order(s))| == Count(p, s) + |From(p, Order(s) + 1)|
  {
    var all, here, later := From(p, Order(s)), In(p, s), From(p, Order(s) + 1);
    assert here !! later;
    assert forall id :: id in all <==> id in here || id in later by { SameOrder(s); }
    hide From, In;
    assert all == here + later;
  }

  lemma SameOrder(s: WState)
    ensures forall t :: Order(t) == Order(s) <==> t == s
  {
  }

  lemma IdleCount(p: Pool)
    requires Inv(p)
    ensures Count(p, Idle) == |p.idle|
  {
    AscendingSize(p.idle);
    assert Elements(p.idle) == In(p, Idle);
  }

  function Elements(s: seq<nat>): set<nat> {
    set x | x in s
  }

  lemma {:induction false} AscendingSize(s: seq<nat>)
    requires Ascending(s)
    ensures |Elements(s)| == |s|
  {
    if s == [] {
      assert Elements(s) == {};
    } else {
      AscendingSize(s[1..]);
      var rest := Elements(s[1..]);
      assert s[0] !in rest;
      assert Elements(s) == rest + {s[0]} by {
        assert s == [s[0]] + s[1..];
      }
      assert |rest + {s[0]}| == |rest| + 1;
    }
  }
}
