/** What the pool's answers and counters mean, in terms of its state and of the
    run that led there. */
module PoolDecisions {
  import opened Bytes
  import opened PoolSpec
  import opened PoolSystem
  import opened PoolSafety
  import opened PoolProgress

  // ---- Dispatch -----------------------------------------------------------

  /** Somebody could serve at once. */
  predicate SomeIdle(p: Pool) {
    exists id :: id in p.workers && p.workers[id].state == Idle
  }

  /** Which answer Dispatch gives: stopping comes before the context and the
      context before the deadline; a visitor in time is handed over if some
      worker is idle, and else queued as long as there is room. */
  lemma DispatchAnswers(p: Pool, v: Visitor, env: Env)
    requires Inv(p)
    ensures var o := Dispatch(p, v, env).1;
            var inTime := !p.stopping && v.ctx !in env.cancelled && env.now < v.deadline;
            && (o == ErrStopped <==> p.stopping)
            && (o == ErrCanceled <==> !p.stopping && v.ctx in env.cancelled)
            && (o == ErrExpired <==> !p.stopping && v.ctx !in env.cancelled && v.deadline <= env.now)
            && (o.Direct? <==> inTime && SomeIdle(p))
            && (o == Queued <==> inTime && !SomeIdle(p) && |p.waiting| < p.pendingMax)
            && (o == ErrFull <==> inTime && !SomeIdle(p) && |p.waiting| >= p.pendingMax)
  {
    if |p.idle| > 0 {
      var id := p.idle[0];
      assert id in p.idle;
    } else {
      forall id | id in p.workers ensures p.workers[id].state != Idle {
        assert id !in p.idle;
      }
    }
  }

  // ---- Idle ---------------------------------------------------------------

  predicate Served(v: Visitor, env: Env) {
    v.ctx !in env.cancelled && env.now < v.deadline
  }

  /** Idle's answer: Stopped exactly in a stopping pool or for a closed worker,
      Expired exactly when the lifetime is over. Otherwise the worker gets the
      first visitor that is neither cancelled nor late, those before it are
      given back to be closed, and it becomes idle only if there is none. */
  lemma IdleAnswers(p: Pool, id: nat, env: Env, draw: int)
    requires id in p.workers
    ensures var w, q, o := p.workers[id], IdleSection(p, id, env, draw).0, IdleSection(p, id, env, draw).1;
            && id in q.workers
            && (o.IdleStopped? <==> p.stopping || w.state == Closed)
            && (o.IdleStopped? ==> q == p)
            && (o.IdleExpired? <==> !p.stopping && w.state != Closed && w.dies <= env.now)
            && (o.IdleExpired? ==> q.workers[id].state == Expiring && q.workers[id].business.None?
                                   && q.waiting == p.waiting && q.idle == p.idle)
            && (o.IdleReady? ==> exists k :: FirstServed(p.waiting, k, env) && Back(p, q, id, k, o.closing))
  {
    hide Match, After, Insert, Conns;
    var w := p.workers[id];
    if !p.stopping && w.state != Closed && w.dies > env.now {
      var expires := if w.state != Checking then After(env.now, w.opts.idleTimeout, draw) else w.expires;
      var r := Put(p, id, w.(business := None, expires := expires));
      MatchServesFirstLive(r, id, env);
      var k := FirstLive(p.waiting, env);
      assert FirstServed(p.waiting, k, env);
      assert Back(p, IdleSection(p, id, env, draw).0, id, k, IdleSection(p, id, env, draw).1.closing);
    }
  }

  /** The first `k` visitors are cancelled or late, the next one is not. */
  ghost predicate FirstServed(waiting: seq<Visitor>, k: nat, env: Env) {
    && k <= |waiting|
    && (forall i :: 0 <= i < k ==> !Served(waiting[i], env))
    && (k < |waiting| ==> Served(waiting[k], env))
  }

  /** A worker back in service after `k` visitors were dropped. */
  ghost predicate Back(p: Pool, q: Pool, id: nat, k: nat, closing: seq<nat>)
    requires k <= |p.waiting| && id in q.workers
  {
    && |closing| == k && (forall i :: 0 <= i < k ==> closing[i] == p.waiting[i].conn)
    && if k < |p.waiting| then
         && q.workers[id].state == Leased && q.workers[id].mailbox == Some(p.waiting[k].conn)
         && q.workers[id].business == Some(p.waiting[k].conn) && q.workers[id].wake
         && q.waiting == p.waiting[k + 1..]
       else
         q.workers[id].state == Idle && q.workers[id].business.None? && q.waiting == []
  }

  // ---- Next ---------------------------------------------------------------

  /** Next's check in every run: mail is delivered, even in a stopping pool;
      without mail Next returns Stopped if the pool is stopping or the worker
      closed, and else it blocks. */
  lemma MailIsServed(maxPending: int, now: int, es: seq<Event>, id: nat)
    ensures var s := Reach(maxPending, now, es);
            && (forall x :: x in s.pool.idle ==> x in s.pool.workers)
            && (id in s.threads && s.threads[id].pc.Polling? ==>
                  && id in s.pool.workers
                  && var w, t := s.pool.workers[id], Step(s, PollMail(id));
                     && id in t.threads && id in t.pool.workers
                     && (w.mailbox.Some? ==>
                           t.threads[id].pc.Serving? && t.log.taken == s.log.taken + {w.mailbox.value}
                           && t.pool.workers[id].business == w.mailbox)
                     && (w.mailbox.None? ==>
                           t.log == s.log && t.pool.workers[id] == w
                           && (t.threads[id].pc.Gone? <==> s.pool.stopping || w.state == Closed)
                           && (t.threads[id].pc.Blocked? <==> !s.pool.stopping && w.state != Closed)))
  {
    hide Reach, Inv, Drains, Accounted, Delivered, InOrder, NextDeadline;
    ReachSound(maxPending, now, es);
    var s := Reach(maxPending, now, es);
    IdleKnown(s.pool);
    if id in s.threads {
      At(s, id);
    }
  }

  /** `d` is the earlier of a worker's two deadlines. */
  predicate Earliest(d: int, w: Worker) {
    (d == w.expires || d == w.dies) && d <= w.expires && d <= w.dies
  }

  /** The timers of Next in every run: for a goroutine blocked on an idle worker
      the heartbeat timer can fire exactly if it is enabled, and the expiry timer
      exactly if the earlier of the idle and the lifetime deadline is enabled
      and the clock has reached it. */
  lemma TimersFire(maxPending: int, now: int, es: seq<Event>, id: nat)
    ensures var s := Reach(maxPending, now, es);
            && (forall x :: x in s.pool.idle ==> x in s.pool.workers)
            && (id in s.threads && s.threads[id].pc.Blocked? && id in s.pool.workers
                && s.pool.workers[id].state == Idle ==>
                  && var w := s.pool.workers[id];
                  && (Step(s, BeatFires(id)) != s <==> w.opts.heartbeat > 0)
                  && (forall d :: Earliest(d, w) ==>
                        (Step(s, LapseFires(id)) != s <==> d != NEVER && d != ZERO && d <= s.now)))
  {
    hide Reach, Inv, Drains, Accounted, Delivered, InOrder;
    ReachSound(maxPending, now, es);
    var s := Reach(maxPending, now, es);
    IdleKnown(s.pool);
    if id in s.threads {
      At(s, id);
    }
  }

  /** With neither deadline at the zero time and the clock before the end of
      time, this reads: Next lapses exactly when the idle or the lifetime
      deadline is over, and it never waits for longer than either. */
  lemma LapsesAtEither(maxPending: int, now: int, es: seq<Event>, id: nat)
    ensures var s := Reach(maxPending, now, es);
            && (forall x :: x in s.pool.idle ==> x in s.pool.workers)
            && (id in s.threads && s.threads[id].pc.Blocked? && id in s.pool.workers
                && s.pool.workers[id].state == Idle ==>
                  && var w, t := s.pool.workers[id], s.threads[id];
                  (w.expires != ZERO && w.dies != ZERO ==>
                     && t.until <= w.expires && t.until <= w.dies
                     && (s.now < NEVER ==>
                           (Step(s, LapseFires(id)) != s <==> w.expires <= s.now || w.dies <= s.now))))
  {
    hide Reach, Inv, Drains, Accounted, Delivered, InOrder;
    ReachSound(maxPending, now, es);
    var s := Reach(maxPending, now, es);
    IdleKnown(s.pool);
    if id in s.threads {
      At(s, id);
    }
  }

  /** A timer that fired takes its worker out of the idle list exactly if the
      worker is still there and the pool is not stopping; else Next goes on. */
  lemma FiredTakes(maxPending: int, now: int, es: seq<Event>, id: nat)
    ensures var s := Reach(maxPending, now, es);
            && (forall x :: x in s.pool.idle ==> x in s.pool.workers)
            && (id in s.threads && id in s.pool.workers ==>
                  && (s.threads[id].pc.Beat? ==> Taken(s, Step(s, TakeCheck(id)), id, Checking, Checked))
                  && (s.threads[id].pc.Lapse? ==> Taken(s, Step(s, TakeExpire(id)), id, Expiring, Gone)))
  {
    hide Reach, Inv, Drains, Accounted, Delivered, InOrder, NextDeadline, TakeIdle;
    ReachSound(maxPending, now, es);
    var s := Reach(maxPending, now, es);
    IdleKnown(s.pool);
    if id in s.pool.workers {
      TakeEvolves(s.pool, id, Checking);
      TakeEvolves(s.pool, id, Expiring);
    }
  }

  ghost predicate Taken(s: System, t: System, id: nat, state: WState, to: Pc)
    requires id in s.pool.workers
  {
    && id in t.threads && id in t.pool.workers
    && if s.pool.workers[id].state == Idle && !s.pool.stopping then
         t.pool.workers[id].state == state && t.threads[id].pc == to
       else
         t.pool.workers[id] == s.pool.workers[id] && t.threads[id].pc == Polling(true)
  }

  // ---- Register -----------------------------------------------------------

  /** The window a deadline is drawn from. */
  predicate Within(deadline: int, now: int, base: int, spread: int) {
    if base <= 0 then deadline == NEVER
    else if spread <= 0 then deadline == now + base
    else now + base <= deadline <= now + base + spread
  }

  /** Register in every run: a stopping pool refuses, and else the new worker,
      which nobody else had, ends its life within its lifetime window. */
  lemma Registers(maxPending: int, now: int, es: seq<Event>, id: nat, opts: Options, draw: int)
    requires Drawn(opts.lifetimeJitter, draw)
    ensures var s := Reach(maxPending, now, es);
            && (forall x :: x in s.pool.idle ==> x in s.pool.workers)
            && (id !in s.threads ==>
                  var t := Step(s, Enroll(id, opts, draw));
                  && (id in t.threads <==> !s.pool.stopping)
                  && (id in t.threads ==>
                        && id in t.pool.workers && id in t.pool.live && t.threads[id].pc == Started
                        && Fresh(t.pool.workers[id], opts)
                        && Within(t.pool.workers[id].dies, s.now, opts.maxLifetime, opts.lifetimeJitter)))
  {
    hide Reach, Inv, Drains, Accounted, Delivered, InOrder, NextDeadline;
    ReachSound(maxPending, now, es);
    var s := Reach(maxPending, now, es);
    IdleKnown(s.pool);
    KeysAgree(s);
  }

  ghost predicate Fresh(w: Worker, opts: Options) {
    && w.opts == opts && w.state == Registering && w.mailbox.None? && w.business.None?
    && !w.wake && !w.linked && w.expires == ZERO
  }

  /** The lifetime is fixed there: wherever a run goes on to, the worker's life
      ends within the window of its registration. */
  lemma {:induction false} LifetimeIsFixed(maxPending: int, now: int, es: seq<Event>, more: seq<Event>, id: nat)
    ensures var s, t := Reach(maxPending, now, es), Reach(maxPending, now, es + more);
            id in s.pool.workers ==>
              && id in t.pool.workers && t.pool.workers[id].dies == s.pool.workers[id].dies
              && t.pool.workers[id].opts == s.pool.workers[id].opts
    decreases |more|
  {
    hide Reach, Inv, Threads, Drains, Accounted, Delivered, InOrder, Step;
    if more == [] {
      assert es + more == es;
    } else {
      var n := |more| - 1;
      LifetimeIsFixed(maxPending, now, es, more[..n], id);
      assert es + more[..n] + [more[n]] == es + more;
      ReachLonger(maxPending, now, es + more[..n], more[n]);
      ReachKeys(maxPending, now, es + more[..n]);
      LifeCycle(maxPending, now, es + more[..n], more[n], id);
    }
  }

  lemma ReachKeys(maxPending: int, now: int, es: seq<Event>)
    ensures Reach(maxPending, now, es).threads.Keys == Reach(maxPending, now, es).pool.workers.Keys
  {
    hide Reach, Inv, Drains, Accounted, Delivered, InOrder;
    ReachSound(maxPending, now, es);
  }

  // ---- Stop ---------------------------------------------------------------

  /** Stop collects the live workers without a visitor and no other: a worker
      that carries one, leased or releasing, is spared. */
  lemma StopCollects(p: Pool)
    requires Inv(p) && !p.stopping
    ensures forall id :: id in StopSection(p).1 <==>
              id in p.live && id in p.workers && p.workers[id].business.None?
    ensures forall id :: id in p.workers && (p.workers[id].state == Leased || p.workers[id].state == Releasing) ==>
              id !in StopSection(p).1
  {
    hide Ascending, Distinct;
  }

  /** Stop in every run: it puts on its list the live workers without a visitor
      and no other, and wherever the run goes on to nobody joins that list, so
      that a lease under way is never cut by Stop. */
  lemma {:induction false} StopSparesLeases(maxPending: int, now: int, es: seq<Event>, more: seq<Event>, id: nat)
    ensures var s := Reach(maxPending, now, es);
            var t := Reach(maxPending, now, es + [StopPool]);
            var u := Reach(maxPending, now, es + [StopPool] + more);
            !s.pool.stopping ==>
              && (id in t.stopTodo <==> id in s.pool.live && id in s.pool.workers && s.pool.workers[id].business.None?)
              && (id in u.stopTodo ==> id in t.stopTodo)
              && t.pool.stopping && u.pool.stopping
    decreases |more|
  {
    hide Reach, Inv, Threads, Drains, Accounted, Delivered, InOrder, Step, StopSection;
    var s := Reach(maxPending, now, es);
    if more == [] {
      assert es + [StopPool] + more == es + [StopPool];
      ReachLonger(maxPending, now, es, StopPool);
      if !s.pool.stopping {
        StopCollects(s.pool);
        StopLists(s);
      }
    } else {
      var n := |more| - 1;
      StopSparesLeases(maxPending, now, es, more[..n], id);
      assert es + [StopPool] + more[..n] + [more[n]] == es + [StopPool] + more;
      ReachLonger(maxPending, now, es + [StopPool] + more[..n], more[n]);
      if !s.pool.stopping {
        ListShrinks(Reach(maxPending, now, es + [StopPool] + more[..n]), more[n]);
      }
    }
  }

  lemma StopLists(s: System)
    requires !s.pool.stopping && (forall x :: x in s.pool.idle ==> x in s.pool.workers)
    ensures Step(s, StopPool).stopTodo == StopSection(s.pool).1 && Step(s, StopPool).pool.stopping
  {
  }

  lemma ListShrinks(s: System, e: Event)
    requires Sound(s) && s.pool.stopping
    ensures forall x :: x in s.pool.idle ==> x in s.pool.workers
    ensures Step(s, e).stopTodo <= s.stopTodo && Step(s, e).pool.stopping
  {
    hide Inv, Threads, Drains, Accounted, Delivered, InOrder, IdleSection, Dispatch, CloseSection, TakeIdle, Poll,
         Withdraw;
    IdleKnown(s.pool);
    LiveShrinks(s, e);
  }

  // ---- Handoffs and drops -------------------------------------------------

  lemma ArmedQuiet(s: System, e: Event, id: nat)
    requires Subject(e) == Some(id) && id in s.threads && id in s.pool.workers
    ensures var t := WorkerStep(s, e, id); t.log.armed == s.log.armed && t.log.accepted == s.log.accepted
  {
    hide IdleSection, CloseSection, TakeIdle, Poll;
  }

  lemma ArmedStep(s: System, e: Event)
    requires forall x :: x in s.pool.idle ==> x in s.pool.workers
    requires s.log.armed.Keys <= s.log.accepted
    ensures var t := Step(s, e);
            && t.log.armed.Keys <= t.log.accepted
            && (forall c :: c in s.log.armed ==> c in t.log.armed && t.log.armed[c] == s.log.armed[c])
            && (forall c :: c in t.log.armed && c !in s.log.armed ==>
                  e.Accept? && t.log.armed[c] == Visitor(e.conn, e.ctx, e.deadline) && e.conn == c)
  {
    hide WorkerStep, Dispatch, Withdraw, Names, PoolSpec.Register, StopSection;
    match Subject(e) {
      case Some(id) => if id in s.threads && id in s.pool.workers { ArmedQuiet(s, e, id); }
      case None =>
    }
  }

  lemma {:induction false} ArmedAccepted(maxPending: int, now: int, es: seq<Event>)
    ensures var s := Reach(maxPending, now, es); s.log.armed.Keys <= s.log.accepted
    decreases |es|
  {
    hide Sound, Step, Run;
    if es != [] {
      var n := |es| - 1;
      ArmedAccepted(maxPending, now, es[..n]);
      ReachLonger(maxPending, now, es[..n], es[n]);
      assert es[..n] + [es[n]] == es;
      ArmedStep(Reach(maxPending, now, es[..n]), es[n]);
    } else {
      ReachNothing(maxPending, now);
    }
  }

  /** What Dispatch was told about a queued visitor goes on record and stays
      there. */
  lemma Recorded(maxPending: int, now: int, es: seq<Event>, e: Event, c: nat)
    ensures var s := Reach(maxPending, now, es);
            && (forall x :: x in s.pool.idle ==> x in s.pool.workers)
            && var t := Step(s, e);
               && (c in s.log.armed ==> c in t.log.armed && t.log.armed[c] == s.log.armed[c])
               && (c in t.log.armed && c !in s.log.armed ==>
                     e.Accept? && e.conn == c && t.log.armed[c] == Visitor(e.conn, e.ctx, e.deadline))
  {
    hide Reach, Sound, Step;
    ReachSound(maxPending, now, es);
    ArmedAccepted(maxPending, now, es);
    IdleOfSound(Reach(maxPending, now, es));
    ArmedStep(Reach(maxPending, now, es), e);
  }

  lemma ReachNothing(maxPending: int, now: int)
    ensures Reach(maxPending, now, []) == Initial(maxPending, now)
  {
    InitialSound(maxPending, now);
  }

  /** A visitor is handed to a worker in time: when it is handed over, its
      context is not cancelled and its deadline, as Dispatch was told them, is
      still to come. */
  lemma HandedInTime(maxPending: int, now: int, es: seq<Event>, e: Event, c: nat)
    ensures var s := Reach(maxPending, now, es);
            && (forall x :: x in s.pool.idle ==> x in s.pool.workers)
            && var t := Step(s, e);
               (c in Handoffs(t.log) && c !in Handoffs(s.log) ==>
                  || (e.Accept? && e.conn == c && e.ctx !in s.cancelled && s.now < e.deadline)
                  || (e.GoIdle? && c in s.log.armed && s.log.armed[c].ctx !in s.cancelled
                      && s.now < s.log.armed[c].deadline))
  {
    hide Reach, Sound, IdleStep, AcceptStep, WorkerStep, PoolStep;
    ReachSound(maxPending, now, es);
    var s := Reach(maxPending, now, es);
    IdleOfSound(s);
    match Subject(e) {
      case Some(id) =>
        if id in s.threads && id in s.pool.workers {
          if e.GoIdle? { HandedByIdle(s, e, id, c); } else { QuietHands(s, e, id); }
        }
      case None =>
        if e.Accept? { HandedByAccept(s, e, c); } else { CalmHands(s, e); }
    }
  }

  lemma IdleOfSound(s: System)
    requires Sound(s)
    ensures forall x :: x in s.pool.idle ==> x in s.pool.workers
  {
    hide Threads, Drains, Accounted, Delivered, InOrder;
    IdleKnown(s.pool);
  }

  lemma HandedByIdle(s: System, e: Event, id: nat, c: nat)
    requires Sound(s) && e.GoIdle? && id == e.id && id in s.threads && id in s.pool.workers
    ensures var t := WorkerStep(s, e, id);
            c in Handoffs(t.log) && c !in Handoffs(s.log) ==>
              c in s.log.armed && s.log.armed[c].ctx !in s.cancelled && s.now < s.log.armed[c].deadline
  {
    hide Inv, Threads, Drains, Delivered, InOrder, IdleSection, FirstLive, Conns, Names, NextDeadline;
    if CallsIdle(s.threads[id].pc) {
      At(s, id);
      TouchIdle(s.pool, id, Outside(s), e.draw);
    }
  }

  lemma QuietHands(s: System, e: Event, id: nat)
    requires Subject(e) == Some(id) && id in s.threads && id in s.pool.workers && !e.GoIdle?
    ensures var t := WorkerStep(s, e, id);
            && t.log.direct == s.log.direct && t.log.queued == s.log.queued && t.log.dropped == s.log.dropped
  {
    hide Poll, CloseSection, TakeIdle;
  }

  lemma QuietCounts(s: System, e: Event, id: nat)
    requires Subject(e) == Some(id) && id in s.threads && id in s.pool.workers && !e.GoIdle?
    ensures WorkerStep(s, e, id).pool.waitTimeouts == s.pool.waitTimeouts
  {
    hide Poll, CloseSection, TakeIdle;
    PollCounts(s.pool, id);
    CloseCounts(s.pool, id);
    TakeCounts(s.pool, id, Checking);
    TakeCounts(s.pool, id, Expiring);
  }

  lemma TakeCounts(p: Pool, id: nat, state: WState)
    requires id in p.workers
    ensures TakeIdle(p, id, state).0.waitTimeouts == p.waitTimeouts
  {
  }

  lemma PollCounts(p: Pool, id: nat)
    requires id in p.workers
    ensures Poll(p, id).0.waitTimeouts == p.waitTimeouts
  {
  }

  lemma CloseCounts(p: Pool, id: nat)
    requires id in p.workers
    ensures CloseSection(p, id).0.waitTimeouts == p.waitTimeouts
  {
  }

  lemma HandedByAccept(s: System, e: Event, c: nat)
    requires Sound(s) && e.Accept? && (forall x :: x in s.pool.idle ==> x in s.pool.workers)
    ensures var t := PoolStep(s, e);
            && (c in Handoffs(t.log) && c !in Handoffs(s.log) ==>
                  e.conn == c && e.ctx !in s.cancelled && s.now < e.deadline)
            && t.log.dropped == s.log.dropped && t.pool.waitTimeouts == s.pool.waitTimeouts
  {
    hide Sound, Unlink, Hand;
    AcceptCounts(s.pool, Visitor(e.conn, e.ctx, e.deadline), Outside(s));
  }

  lemma AcceptCounts(p: Pool, v: Visitor, env: Env)
    requires forall x :: x in p.idle ==> x in p.workers
    ensures Dispatch(p, v, env).0.waitTimeouts == p.waitTimeouts
  {
  }

  lemma CalmHands(s: System, e: Event)
    requires Subject(e).None? && !e.Accept?
    requires forall x :: x in s.pool.idle ==> x in s.pool.workers
    ensures var t := PoolStep(s, e);
            && t.log.direct == s.log.direct && t.log.queued == s.log.queued
            && (e.Callback? || e.StopPool?
                || (t.log.dropped == s.log.dropped && t.pool.waitTimeouts == s.pool.waitTimeouts))
  {
    hide Withdraw, StopSection, Names;
  }

  /** The wait of visitor `c` ends by cancellation at event `e`: Stop drops it,
      or its context is cancelled. */
  predicate Cancelled(s: System, e: Event, c: nat) {
    e.StopPool? || (c in s.log.armed && s.log.armed[c].ctx in s.cancelled)
  }

  /** The visitors dropped between two states. */
  function Dropped(s: System, t: System): set<nat> {
    t.log.dropped - s.log.dropped
  }

  function Overdue(s: System, e: Event, dropped: set<nat>): set<nat> {
    set c | c in dropped && !Cancelled(s, e, c)
  }

  /** One step's drops: whoever is not cancelled is late, and waitTimeouts
      counts these. */
  ghost predicate DropsCounted(s: System, e: Event, t: System) {
    && s.log.dropped <= t.log.dropped
    && t.pool.waitTimeouts == s.pool.waitTimeouts + |Overdue(s, e, Dropped(s, t))|
    && (forall c :: c in Dropped(s, t) ==>
          Cancelled(s, e, c) || (c in s.log.armed && s.log.armed[c].deadline <= s.now))
  }

  lemma NothingDropped(s: System, e: Event, t: System)
    requires t.log.dropped == s.log.dropped && t.pool.waitTimeouts == s.pool.waitTimeouts
    ensures DropsCounted(s, e, t)
  {
    assert Overdue(s, e, Dropped(s, t)) == {};
  }

  /** The visitors of `w` whose context is not cancelled. */
  function Waited(w: seq<Visitor>, cancelled: set<nat>): set<nat> {
    if w == [] then {}
    else (if w[0].ctx in cancelled then {} else {w[0].conn}) + Waited(w[1..], cancelled)
  }

  lemma {:induction false} WaitedAre(w: seq<Visitor>, cancelled: set<nat>)
    ensures forall c :: c in Waited(w, cancelled) <==>
              exists i :: 0 <= i < |w| && w[i].conn == c && w[i].ctx !in cancelled
    decreases |w|
  {
    if w != [] {
      WaitedAre(w[1..], cancelled);
      forall c ensures c in Waited(w, cancelled) <==>
                         exists i :: 0 <= i < |w| && w[i].conn == c && w[i].ctx !in cancelled {
        if c in Waited(w[1..], cancelled) {
          var i :| 0 <= i < |w[1..]| && w[1..][i].conn == c && w[1..][i].ctx !in cancelled;
          assert w[i + 1].conn == c && w[i + 1].ctx !in cancelled;
        }
        if i :| 0 < i < |w| && w[i].conn == c && w[i].ctx !in cancelled {
          assert w[1..][i - 1].conn == c;
        }
      }
    }
  }

  lemma WaitedGrows(w: seq<Visitor>, cancelled: set<nat>)
    requires w != [] && Distinct(w)
    ensures |Waited(w, cancelled)|
            == (if w[0].ctx in cancelled then 0 else 1) + |Waited(w[1..], cancelled)|
  {
    WaitedAre(w[1..], cancelled);
    assert w[0].conn !in Waited(w[1..], cancelled);
  }

  lemma DropTimeouts(p: Pool, v: Visitor, env: Env)
    ensures var q := Drop(p, v, env);
            && q.workers == p.workers && q.waiting == p.waiting
            && q.waitTimeouts == p.waitTimeouts + (if v.ctx in env.cancelled then 0 else 1)
  {
  }

  lemma MatchUnfolds(p: Pool, id: nat, env: Env)
    requires id in p.workers
    ensures p.waiting == [] || !Late(p.waiting[0], env) ==> Match(p, id, env).0.waitTimeouts == p.waitTimeouts
    ensures p.waiting != [] && Late(p.waiting[0], env) ==>
              var q := Drop(p.(waiting := p.waiting[1..], pending := p.pending - 1), p.waiting[0], env);
              id in q.workers && Match(p, id, env).0 == Match(q, id, env).0
  {
  }

  /** matchLocked counts the late visitors whose context is not cancelled. */
  lemma {:induction false} MatchTimeouts(p: Pool, id: nat, env: Env)
    requires id in p.workers && Distinct(p.waiting)
    ensures Match(p, id, env).0.waitTimeouts
            == p.waitTimeouts + |Waited(p.waiting[..FirstLive(p.waiting, env)], env.cancelled)|
    decreases |p.waiting|
  {
    hide Match, Late, Drop, Waited;
    MatchUnfolds(p, id, env);
    if p.waiting != [] && Late(p.waiting[0], env) {
      var r := p.(waiting := p.waiting[1..], pending := p.pending - 1);
      DropTimeouts(r, p.waiting[0], env);
      MatchTimeouts(Drop(r, p.waiting[0], env), id, env);
      var k := FirstLive(p.waiting, env);
      assert p.waiting[..k][1..] == p.waiting[1..][..k - 1];
      WaitedGrows(p.waiting[..k], env.cancelled);
    } else {
      NobodyWaited(p.waiting, env.cancelled);
    }
  }

  lemma NobodyWaited(w: seq<Visitor>, cancelled: set<nat>)
    ensures Waited(w[..0], cancelled) == {}
  {
  }

  lemma DropsByIdle(s: System, e: Event, id: nat)
    requires Sound(s) && e.GoIdle? && id == e.id && id in s.threads && id in s.pool.workers
    ensures DropsCounted(s, e, WorkerStep(s, e, id))
  {
    hide Inv, Threads, Drains, Accounted, Delivered, InOrder, IdleSection, FirstLive, Conns, NextDeadline, DropsCounted,
         Waited;
    var t := WorkerStep(s, e, id);
    if CallsIdle(s.threads[id].pc) && Drawn(s.pool.workers[id].opts.idleJitter, e.draw) {
      At(s, id);
      TouchIdle(s.pool, id, Outside(s), e.draw);
      IdleTimeouts(s.pool, id, Outside(s), e.draw);
      if IdleSection(s.pool, id, Outside(s), e.draw).1.IdleReady? {
        var k := FirstLive(s.pool.waiting, Outside(s));
        FrontDropped(s, e, k, t);
      } else {
        NothingDropped(s, e, t);
      }
    } else {
      NothingDropped(s, e, t);
    }
  }

  lemma IdleTimeouts(p: Pool, id: nat, env: Env, draw: int)
    requires Inv(p) && id in p.workers
    ensures var r := IdleSection(p, id, env, draw);
            r.0.waitTimeouts == if r.1.IdleReady? then
                                  p.waitTimeouts + |Waited(p.waiting[..FirstLive(p.waiting, env)], env.cancelled)|
                                else p.waitTimeouts
  {
    hide Match, FirstLive, After, Waited;
    var w := p.workers[id];
    if !p.stopping && w.state != Closed && w.dies > env.now {
      var expires := if w.state != Checking then After(env.now, w.opts.idleTimeout, draw) else w.expires;
      MatchTimeouts(Put(p, id, w.(business := None, expires := expires)), id, env);
    }
  }

  /** The first `k` visitors of the queue are dropped. */
  lemma FrontDropped(s: System, e: Event, k: nat, t: System)
    requires Sound(s) && e.GoIdle? && k <= |s.pool.waiting|
    requires forall i :: 0 <= i < k ==> Late(s.pool.waiting[i], Outside(s))
    requires t.log.dropped == s.log.dropped + Elements(Conns(s.pool.waiting[..k]))
    requires t.pool.waitTimeouts == s.pool.waitTimeouts + |Waited(s.pool.waiting[..k], s.cancelled)|
    ensures DropsCounted(s, e, t)
  {
    hide Sound, Waited, Conns, Elements;
    var w := s.pool.waiting[..k];
    WaitedAre(w, s.cancelled);
    FrontIs(s, k, t);
    forall c | c in Dropped(s, t)
      ensures c in s.log.armed && Late(s.log.armed[c], Outside(s))
      ensures c in Waited(w, s.cancelled) <==> s.log.armed[c].ctx !in s.cancelled
    {
      var i :| 0 <= i < k && w[i].conn == c;
      OnRecord(s, i);
    }
    assert Overdue(s, e, Dropped(s, t)) == Waited(w, s.cancelled);
  }

  lemma FrontIs(s: System, k: nat, t: System)
    requires Sound(s) && k <= |s.pool.waiting|
    requires t.log.dropped == s.log.dropped + Elements(Conns(s.pool.waiting[..k]))
    ensures forall c :: c in Dropped(s, t) <==> exists i :: 0 <= i < k && s.pool.waiting[i].conn == c
  {
    hide Inv, Threads, Drains, Accounted, Delivered, InOrder;
    var w := s.pool.waiting[..k];
    forall c ensures c in Dropped(s, t) <==> exists i :: 0 <= i < k && s.pool.waiting[i].conn == c {
      if c in Dropped(s, t) {
        var i :| 0 <= i < |Conns(w)| && Conns(w)[i] == c;
        assert s.pool.waiting[i].conn == c;
      }
      if i :| 0 <= i < k && s.pool.waiting[i].conn == c {
        assert Conns(w)[i] == c;
        WaitingNotDropped(s, i);
      }
    }
  }

  /** The record of the visitor in place `i`, whose connection no other place
      has. */
  lemma OnRecord(s: System, i: nat)
    requires Sound(s) && i < |s.pool.waiting|
    ensures var v := s.pool.waiting[i];
            && v.conn in s.log.armed && s.log.armed[v.conn] == v
            && forall j :: 0 <= j < |s.pool.waiting| && s.pool.waiting[j].conn == v.conn ==> j == i
  {
    hide Threads, Drains, Delivered, InOrder, Rostered;
  }

  lemma WaitingNotDropped(s: System, i: nat)
    requires Accounted(s) && i < |s.pool.waiting|
    ensures s.pool.waiting[i].conn !in s.log.dropped
  {
    NamesHas(s.pool.waiting, i);
    assert Home(s.log, Names(s.pool.waiting), s.pool.waiting[i].conn);
  }

  lemma DropsByCallback(s: System, e: Event)
    requires Sound(s) && e.Callback?
    ensures DropsCounted(s, e, CallbackStep(s, e.conn))
  {
    hide Inv, Threads, Drains, Accounted, Delivered, InOrder, DropsCounted, Withdraw;
    var t, conn := CallbackStep(s, e.conn), e.conn;
    if t == s {
      NothingDropped(s, e, t);
    } else {
      var v := s.log.armed[conn];
      ArmedNames(s, conn);
      WithdrawCounts(s.pool, v, Outside(s));
      var i :| 0 <= i < |s.pool.waiting| && s.pool.waiting[i].conn == conn;
      WaitingNotDropped(s, i);
      OneDropped(s, e, t);
    }
  }

  lemma OneDropped(s: System, e: Event, t: System)
    requires e.Callback? && e.conn in s.log.armed && Late(s.log.armed[e.conn], Outside(s)) && e.conn !in s.log.dropped
    requires t.log.dropped == s.log.dropped + {e.conn}
    requires t.pool.waitTimeouts
             == s.pool.waitTimeouts + (if s.log.armed[e.conn].ctx in s.cancelled then 0 else 1)
    ensures DropsCounted(s, e, t)
  {
    assert Dropped(s, t) == {e.conn};
    assert Overdue(s, e, Dropped(s, t)) == if s.log.armed[e.conn].ctx in s.cancelled then {} else {e.conn};
  }

  lemma WithdrawCounts(p: Pool, v: Visitor, env: Env)
    ensures var r := Withdraw(p, v, env);
            r.1 ==> r.0.waitTimeouts == p.waitTimeouts + (if v.ctx in env.cancelled then 0 else 1)
                    && exists i :: 0 <= i < |p.waiting| && p.waiting[i].conn == v.conn
  {
  }

  lemma DropsByStop(s: System, e: Event)
    requires e.StopPool?
    ensures DropsCounted(s, e, StopStep(s))
  {
    hide Names;
    assert Overdue(s, e, Dropped(s, StopStep(s))) == {};
  }

  lemma StepDrops(s: System, e: Event)
    requires Sound(s)
    ensures forall x :: x in s.pool.idle ==> x in s.pool.workers
    ensures DropsCounted(s, e, Step(s, e))
  {
    hide Sound, DropsCounted, WorkerStep, CallbackStep, StopStep, AcceptStep, EnrollStep;
    IdleOfSound(s);
    NothingDropped(s, e, s);
    match Subject(e) {
      case Some(id) =>
        if id in s.threads && id in s.pool.workers {
          if e.GoIdle? {
            DropsByIdle(s, e, id);
          } else {
            QuietHands(s, e, id);
            QuietCounts(s, e, id);
            NothingDropped(s, e, WorkerStep(s, e, id));
          }
        }
      case None =>
        if e.Callback? {
          DropsByCallback(s, e);
        } else if e.StopPool? {
          DropsByStop(s, e);
        } else if e.Accept? {
          HandedByAccept(s, e, e.conn);
          NothingDropped(s, e, PoolStep(s, e));
        } else {
          CalmHands(s, e);
          NothingDropped(s, e, PoolStep(s, e));
        }
    }
  }

  /** The visitors dropped in a run because their time was up: at the step that
      dropped each of them, Stop was not the cause and its context was not
      cancelled. */
  ghost function TimedOut(maxPending: int, now: int, es: seq<Event>): set<nat>
    decreases |es|
  {
    if es == [] then {}
    else
      var n := |es| - 1;
      var s := Reach(maxPending, now, es[..n]);
      TimedOut(maxPending, now, es[..n]) + Overdue(s, es[n], Dropped(s, Reach(maxPending, now, es)))
  }

  /** Why visitors were dropped: waitTimeouts counts those whose time was up and
      waitCanceled the others, cancelled ones and those Stop dropped. */
  lemma {:induction false} DropCauses(maxPending: int, now: int, es: seq<Event>)
    ensures var s, late := Reach(maxPending, now, es), TimedOut(maxPending, now, es);
            && late <= s.log.dropped
            && s.pool.waitTimeouts == |late| && s.pool.waitCanceled == |s.log.dropped - late|
    decreases |es|
  {
    hide Reach, Step, Sound, Overdue;
    var s, late := Reach(maxPending, now, es), TimedOut(maxPending, now, es);
    if es == [] {
      ReachNothing(maxPending, now);
    } else {
      var n := |es| - 1;
      var r := Reach(maxPending, now, es[..n]);
      DropCauses(maxPending, now, es[..n]);
      ReachLonger(maxPending, now, es[..n], es[n]);
      assert es[..n] + [es[n]] == es;
      StepDrops(r, es[n]);
      OverdueAre(r, es[n], Dropped(r, s));
      Disjoint(TimedOut(maxPending, now, es[..n]), Overdue(r, es[n], Dropped(r, s)));
    }
    DropTotal(maxPending, now, es);
    Disjoint(late, s.log.dropped - late);
    assert late + (s.log.dropped - late) == s.log.dropped;
  }

  lemma DropTotal(maxPending: int, now: int, es: seq<Event>)
    ensures var s := Reach(maxPending, now, es);
            s.pool.waitTimeouts + s.pool.waitCanceled == |s.log.dropped|
  {
    hide Reach, Inv, Threads, Drains, Delivered, InOrder;
    ReachSound(maxPending, now, es);
  }

  lemma OverdueAre(s: System, e: Event, dropped: set<nat>)
    ensures Overdue(s, e, dropped) <= dropped
  {
  }

  lemma Disjoint(a: set<nat>, b: set<nat>)
    ensures a !! b ==> |a + b| == |a| + |b|
  {
  }

  /** Each drop has its cause: the visitor's deadline was over, its context was
      cancelled, or Stop was called. */
  lemma DroppedForCause(maxPending: int, now: int, es: seq<Event>, e: Event, c: nat)
    ensures var s := Reach(maxPending, now, es);
            && (forall x :: x in s.pool.idle ==> x in s.pool.workers)
            && (c in Step(s, e).log.dropped && c !in s.log.dropped ==>
                  || e.StopPool?
                  || (c in s.log.armed && (s.log.armed[c].ctx in s.cancelled || s.log.armed[c].deadline <= s.now)))
  {
    hide Reach, Step, Sound, Overdue;
    ReachSound(maxPending, now, es);
    var s := Reach(maxPending, now, es);
    StepDrops(s, e);
    if c in Step(s, e).log.dropped && c !in s.log.dropped {
      assert c in Dropped(s, Step(s, e));
    }
  }

  predicate Waits(p: Pool, conn: nat) {
    exists i :: 0 <= i < |p.waiting| && p.waiting[i].conn == conn
  }

  /** Withdraw takes out the one visitor with this connection. */
  lemma WithdrawExactly(p: Pool, v: Visitor, env: Env)
    requires Distinct(p.waiting)
    ensures Withdraw(p, v, env).1 <==> Waits(p, v.conn)
    ensures Waits(p, v.conn) ==> !Waits(Withdraw(p, v, env).0, v.conn)
                                 && |Withdraw(p, v, env).0.waiting| == |p.waiting| - 1
  {
    var i, w := Place(p.waiting, v.conn), p.waiting;
    if i < |w| {
      var rest := w[..i] + w[i + 1..];
      forall j | 0 <= j < |rest| ensures rest[j].conn != v.conn {
        assert rest[j] == if j < i then w[j] else w[j + 1];
      }
      assert Withdraw(p, v, env).0.waiting == rest;
    }
  }

  /** The callback armed for a queued visitor, in every run: it takes the
      visitor out of the queue exactly if the visitor still waits and is
      cancelled or late, and else it changes nothing. */
  lemma CallbackDrops(maxPending: int, now: int, es: seq<Event>, c: nat)
    ensures var s := Reach(maxPending, now, es);
            && (forall x :: x in s.pool.idle ==> x in s.pool.workers)
            && var t := Step(s, Callback(c));
               && (Waits(s.pool, c) ==> c in s.log.armed)
               && if Waits(s.pool, c) && (s.log.armed[c].ctx in s.cancelled || s.log.armed[c].deadline <= s.now) then
                    !Waits(t.pool, c) && t.log.dropped == s.log.dropped + {c} && c !in s.log.dropped
                    && |t.pool.waiting| == |s.pool.waiting| - 1
                  else t == s
  {
    hide Reach, Sound, Withdraw, Waits, Distinct;
    ReachSound(maxPending, now, es);
    var s := Reach(maxPending, now, es);
    IdleOfSound(s);
    QueueKnown(s, c);
    if c in s.log.armed {
      WithdrawExactly(s.pool, s.log.armed[c], Outside(s));
    }
  }

  lemma QueueKnown(s: System, c: nat)
    requires Sound(s)
    ensures Distinct(s.pool.waiting)
    ensures Waits(s.pool, c) ==> c in s.log.armed && c !in s.log.dropped
    ensures c in s.log.armed ==> s.log.armed[c].conn == c
  {
    hide Threads, Drains, Delivered, InOrder, Rostered;
    if i :| 0 <= i < |s.pool.waiting| && s.pool.waiting[i].conn == c {
      WaitingNotDropped(s, i);
    }
  }
}
