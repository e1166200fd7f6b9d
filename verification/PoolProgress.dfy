/** What a single step may change: the workers' life cycle, their deadlines,
    and how far a call of Next is from returning. */
module PoolProgress {
  import opened Bytes
  import opened PoolSpec
  import opened PoolSystem
  import opened PoolSafety

  /** The transition graph of worker states. */
  predicate Edge(a: WState, b: WState) {
    || a == b
    || (b == Closed)
    || ((a == Registering || a == Checking || a == Releasing) && (b == Idle || b == Leased || b == Expiring))
    || (a == Idle && (b == Leased || b == Checking || b == Expiring))
    || (a == Leased && b == Releasing)
  }

  /** A leased worker may change only like this once the pool is stopping. */
  predicate Winding(a: WState, b: WState) {
    a == b || b == Closed || (a == Leased && b == Releasing)
  }

  /** Idle returned Ready after registration or a lease, not after a
      heartbeat. */
  predicate FreshIdle(t: Thread, t': Thread) {
    (t.pc.Started? || t.pc.Draining?) && t'.pc.Returned?
  }

  /** How one worker and its goroutine change in one step. */
  ghost predicate Evolves(w: Worker, t: Thread, w': Worker, t': Thread, stopping: bool) {
    && Edge(w.state, w'.state) && (w.state == Closed ==> w'.state == Closed)
    && (stopping ==> Winding(w.state, w'.state))
    && w'.dies == w.dies && w'.opts == w.opts
    && (w'.expires != w.expires ==> FreshIdle(t, t'))
    && (w'.mailbox != w.mailbox && w'.mailbox.Some? ==> w'.state == Leased && w'.wake)
    && t'.closes >= t.closes
  }

  lemma IdleEvolves(s: System, id: nat, draw: int)
    requires Sound(s) && id in s.threads && CallsIdle(s.threads[id].pc)
    requires Drawn(s.pool.workers[id].opts.idleJitter, draw)
    ensures var t := IdleStep(s, id, draw);
            Touches(s.pool, t.pool, id) && t.threads == s.threads[id := t.threads[id]]
            && Evolves(s.pool.workers[id], s.threads[id], t.pool.workers[id], t.threads[id], s.pool.stopping)
  {
    hide Inv, Threads, Drains, Accounted, Delivered, InOrder, NextDeadline, IdleSection, FirstLive, Conns;
    At(s, id);
    TouchIdle(s.pool, id, Outside(s), draw);
    IdleTiming(s.pool, id, Outside(s), draw);
    IdleWakes(s.pool, id, Outside(s), draw);
  }

  /** Whoever Idle hands a visitor to has its wake token. */
  lemma IdleWakes(p: Pool, id: nat, env: Env, draw: int)
    requires id in p.workers && p.workers[id].mailbox.None?
    ensures var q := IdleSection(p, id, env, draw).0;
            id in q.workers && (q.workers[id].mailbox.Some? ==> q.workers[id].wake)
  {
    hide Match, FirstLive, Insert, After, Conns;
    var w := p.workers[id];
    if !p.stopping && w.state != Closed && w.dies > env.now {
      var expires := if w.state != Checking then After(env.now, w.opts.idleTimeout, draw) else w.expires;
      MatchServesFirstLive(Put(p, id, w.(business := None, expires := expires)), id, env);
    }
  }

  lemma CloseEvolves(s: System, id: nat)
    requires Sound(s) && id in s.threads
    ensures var t := CloseStep(s, id);
            Touches(s.pool, t.pool, id) && t.threads.Keys == s.threads.Keys
            && (forall x :: x in s.threads && x != id ==> t.threads[x] == s.threads[x])
            && t.threads[id].pc == s.threads[id].pc && t.threads[id].until == s.threads[id].until
            && Evolves(s.pool.workers[id], s.threads[id], t.pool.workers[id], t.threads[id], s.pool.stopping)
            && t.pool.workers[id].state == Closed
  {
    hide Inv, Threads, Drains, Accounted, Delivered, InOrder, NextDeadline, CloseSection;
    At(s, id);
    CloseShape(s.pool, id);
  }

  lemma CloseShape(p: Pool, id: nat)
    requires id in p.workers
    ensures var q := CloseSection(p, id).0;
            && Touches(p, q, id) && q.workers[id].state == Closed
            && q.workers[id].dies == p.workers[id].dies && q.workers[id].opts == p.workers[id].opts
            && q.workers[id].expires == p.workers[id].expires
            && (q.workers[id].mailbox.Some? ==> q.workers[id].mailbox == p.workers[id].mailbox)
            && CloseSection(p, id).1 == (p.workers[id].state != Closed)
  {
  }

  /** A step of worker `id` and what it may change. */
  ghost predicate OneWorker(s: System, t: System, id: nat)
    requires id in s.threads && id in s.pool.workers
  {
    && Touches(s.pool, t.pool, id) && t.threads.Keys == s.threads.Keys
    && (forall x :: x in s.threads && x != id ==> t.threads[x] == s.threads[x])
    && Evolves(s.pool.workers[id], s.threads[id], t.pool.workers[id], t.threads[id], s.pool.stopping)
    && t.log.direct == s.log.direct && t.log.accepted == s.log.accepted
    && (s.pool.stopping ==> t.log.queued == s.log.queued)
  }

  /** A goroutine moves and the pool stays. */
  lemma ThreadEvolves(s: System, t: System, id: nat)
    requires id in s.threads && id in s.pool.workers && id in t.threads
    requires t.pool == s.pool && t.log == s.log && t.threads == s.threads[id := t.threads[id]]
    requires t.threads[id].closes >= s.threads[id].closes
    ensures OneWorker(s, t, id)
  {
  }

  lemma MoveEvolves(s: System, e: Event, id: nat)
    requires Subject(e) == Some(id) && id in s.threads && id in s.pool.workers
    requires e.EnterNext? || e.BeatFires? || e.LapseFires? || e.NextCanceled? || e.Abandon? || e.CloseConn?
    ensures OneWorker(s, WorkerStep(s, e, id), id)
  {
    hide OneWorker, NextDeadline;
    Unmoved(s, id);
    if WorkerStep(s, e, id) != s {
      ThreadEvolves(s, WorkerStep(s, e, id), id);
    }
  }

  lemma PollEvolves(s: System, id: nat)
    requires id in s.threads && id in s.pool.workers
    ensures OneWorker(s, PollStep(s, id), id)
  {
    hide Poll, Touches;
    TouchPoll(s.pool, id);
    assert Touches(s.pool, s.pool, id) by { Unmoved(s, id); }
  }

  lemma TokenEvolves(s: System, id: nat)
    requires id in s.threads && id in s.pool.workers
    ensures OneWorker(s, TokenStep(s, id), id)
  {
  }

  lemma ReleaseEvolves(s: System, id: nat)
    requires id in s.threads && id in s.pool.workers
    ensures OneWorker(s, ReleaseStep(s, id), id)
  {
  }

  lemma Unmoved(s: System, id: nat)
    requires id in s.threads && id in s.pool.workers
    ensures OneWorker(s, s, id)
  {
  }

  lemma TakeStepEvolves(s: System, id: nat, from: Pc, state: WState, to: Pc)
    requires id in s.threads && id in s.pool.workers && (state == Checking || state == Expiring) && !CallsIdle(from)
    ensures OneWorker(s, TakeStep(s, id, from, state, to), id)
  {
    hide TakeIdle;
    TakeEvolves(s.pool, id, state);
    Unmoved(s, id);
  }

  lemma CloseListEvolves(s: System, t: System, id: nat)
    requires Sound(s) && id in s.threads
    requires t.pool == CloseStep(s, id).pool && t.threads == CloseStep(s, id).threads && t.log == CloseStep(s, id).log
    ensures id in s.pool.workers && OneWorker(s, t, id)
  {
    hide Inv, Threads, Drains, Accounted, Delivered, InOrder, NextDeadline, CloseSection;
    CloseEvolves(s, id);
  }

  lemma IdleStepEvolves(s: System, id: nat, draw: int)
    requires Sound(s) && id in s.threads && id in s.pool.workers && CallsIdle(s.threads[id].pc)
    requires Drawn(s.pool.workers[id].opts.idleJitter, draw)
    ensures OneWorker(s, IdleStep(s, id, draw), id)
  {
    hide Sound, IdleStep, Evolves;
    IdleEvolves(s, id, draw);
    IdleLogs(s, id, draw);
  }

  lemma WorkerEvolves(s: System, e: Event, id: nat)
    requires Sound(s) && Subject(e) == Some(id) && id in s.threads && id in s.pool.workers
    ensures OneWorker(s, WorkerStep(s, e, id), id)
  {
    hide Sound, OneWorker, CloseStep, IdleStep, TakeStep, PollStep, TokenStep, ReleaseStep, EnterStep, LeaveStep,
         CloseConnStep, TimerStep;
    Unmoved(s, id);
    match e {
      case GoIdle(_, draw) =>
        if CallsIdle(s.threads[id].pc) && Drawn(s.pool.workers[id].opts.idleJitter, draw) {
          IdleStepEvolves(s, id, draw);
        }
      case Close(_) => CloseListEvolves(s, WorkerStep(s, e, id), id);
      case StopNext(_) => if id in s.stopTodo { CloseListEvolves(s, WorkerStep(s, e, id), id); }
      case ForceNext(_) => if id in s.forceTodo { CloseListEvolves(s, WorkerStep(s, e, id), id); }
      case TakeCheck(_) => TakeStepEvolves(s, id, Beat, Checking, Checked);
      case TakeExpire(_) => TakeStepEvolves(s, id, Lapse, Expiring, Gone);
      case PollMail(_) => PollEvolves(s, id);
      case TakeToken(_) => TokenEvolves(s, id);
      case Release(_) => ReleaseEvolves(s, id);
      case _ => MoveEvolves(s, e, id);
    }
  }

  lemma IdleLogs(s: System, id: nat, draw: int)
    requires id in s.threads && id in s.pool.workers
    ensures var t := IdleStep(s, id, draw);
            && t.log.direct == s.log.direct && t.log.accepted == s.log.accepted
            && (s.pool.stopping ==> t.log.queued == s.log.queued)
  {
    hide Match, Conns;
  }

  lemma TakeEvolves(p: Pool, id: nat, state: WState)
    requires id in p.workers
    ensures var q := TakeIdle(p, id, state).0;
            Touches(p, q, id)
            && q.workers[id] == p.workers[id].(state := q.workers[id].state, linked := q.workers[id].linked)
            && if TakeIdle(p, id, state).1 then
                 p.workers[id].state == Idle && !p.stopping && q.workers[id].state == state
               else q == p && (p.workers[id].state != Idle || p.stopping)
  {
  }

  /** A step of the pool itself changes a worker only by handing it a visitor
      or by registering it. */
  lemma PoolEvolves(s: System, e: Event, id: nat)
    requires Sound(s) && Subject(e).None? && id in s.threads
    ensures forall x :: x in s.pool.idle ==> x in s.pool.workers
    ensures var t := PoolStep(s, e);
            && id in s.pool.workers && id in t.pool.workers && id in t.threads && t.threads[id] == s.threads[id]
            && (t.pool.workers[id] == s.pool.workers[id]
                || (s.pool.workers[id].state == Idle && !s.pool.stopping && e.Accept?
                    && t.pool.workers[id] == s.pool.workers[id].(state := Leased, linked := false, wake := true,
                         mailbox := Some(e.conn), business := Some(e.conn))))
            && (s.pool.stopping ==> t.pool.stopping)
  {
    hide Inv, Threads, Drains, Accounted, Delivered, InOrder, NextDeadline, Dispatch, Withdraw, StopSection,
         PoolSpec.Register;
    IdleKnown(s.pool);
    KeysAgree(s);
    match e {
      case Accept(conn, ctx, deadline) => DispatchOne(s.pool, Visitor(conn, ctx, deadline), Outside(s), id);
      case Callback(conn) => if conn in s.log.armed { WithdrawNone(s.pool, s.log.armed[conn], Outside(s)); }
      case StopPool => StopNone(s.pool);
      case Enroll(x, opts, draw) => if x !in s.pool.workers { RegisterOne(s.pool, x, opts, s.now, draw, id); }
      case _ =>
    }
  }

  lemma DispatchOne(p: Pool, v: Visitor, env: Env, id: nat)
    requires Inv(p) && id in p.workers
    ensures forall x :: x in p.idle ==> x in p.workers
    ensures var q := Dispatch(p, v, env).0;
            && id in q.workers && q.stopping == p.stopping
            && (q.workers[id] == p.workers[id]
                || (p.workers[id].state == Idle && !p.stopping
                    && q.workers[id] == p.workers[id].(state := Leased, linked := false, wake := true,
                         mailbox := Some(v.conn), business := Some(v.conn))))
  {
    hide Ascending, Distinct;
    if Dispatch(p, v, env).1.Direct? {
      assert p.idle[|p.idle| - 1] in p.idle;
    }
  }

  lemma WithdrawNone(p: Pool, v: Visitor, env: Env)
    ensures var q := Withdraw(p, v, env).0; q.workers == p.workers && q.stopping == p.stopping
  {
  }

  lemma StopNone(p: Pool)
    ensures StopSection(p).0.workers == p.workers && StopSection(p).0.stopping
  {
  }

  lemma RegisterOne(p: Pool, x: nat, opts: Options, now: int, draw: int, id: nat)
    requires id in p.workers && x !in p.workers
    ensures var q := PoolSpec.Register(p, x, opts, now, draw);
            q.Some? ==> id in q.value.workers && q.value.workers[id] == p.workers[id] && q.value.stopping == p.stopping
  {
  }

  /** Life cycle: in every run each worker follows the transition graph, closed
      is final, its lifetime is fixed at registration, and once the pool is
      stopping no worker becomes idle, checking, expiring or leased. */
  lemma LifeCycle(maxPending: int, now: int, es: seq<Event>, e: Event, id: nat)
    ensures var s := Reach(maxPending, now, es);
            (forall x :: x in s.pool.idle ==> x in s.pool.workers)
            && (id in s.threads ==>
                  && id in s.pool.workers && id in Step(s, e).pool.workers && id in Step(s, e).threads
                  && Evolves(s.pool.workers[id], s.threads[id],
                             Step(s, e).pool.workers[id], Step(s, e).threads[id], s.pool.stopping))
  {
    hide Reach, PoolStep, WorkerStep, Evolves;
    ReachSound(maxPending, now, es);
    var s := Reach(maxPending, now, es);
    OneStep(s, e, id);
  }

  lemma OneStep(s: System, e: Event, id: nat)
    requires Sound(s)
    ensures forall x :: x in s.pool.idle ==> x in s.pool.workers
    ensures id in s.threads ==>
              && id in s.pool.workers && id in Step(s, e).pool.workers && id in Step(s, e).threads
              && Evolves(s.pool.workers[id], s.threads[id],
                         Step(s, e).pool.workers[id], Step(s, e).threads[id], s.pool.stopping)
  {
    hide Inv, Threads, Drains, Accounted, Delivered, InOrder, PoolStep, WorkerStep, Evolves;
    IdleKnown(s.pool);
    if id in s.threads {
      KeysAgree(s);
      SameEvolves(s.pool.workers[id], s.threads[id], s.pool.stopping);
      match Subject(e) {
        case Some(x) => if x in s.threads && x in s.pool.workers { WorkerEvolves(s, e, x); }
        case None =>
          PoolEvolves(s, e, id);
          HandedEvolves(s.pool.workers[id], s.threads[id], PoolStep(s, e).pool.workers[id], s.pool.stopping);
      }
    }
  }

  lemma SameEvolves(w: Worker, t: Thread, stopping: bool)
    ensures Evolves(w, t, w, t, stopping)
  {
  }

  lemma HandedEvolves(w: Worker, t: Thread, w': Worker, stopping: bool)
    ensures w.state == Idle && !stopping && w'.mailbox.Some?
            && w' == w.(state := Leased, linked := false, wake := true, mailbox := w'.mailbox,
                        business := w'.business) ==>
              Evolves(w, t, w', t, stopping)
  {
  }

  /** Once the pool is stopping nothing is accepted or handed over, and the set
      of live workers only shrinks, so an empty pool stays empty. */
  ghost predicate Shrinks(s: System, t: System) {
    && t.pool.stopping && t.pool.live <= s.pool.live
    && t.log.direct == s.log.direct && t.log.queued == s.log.queued && t.log.accepted == s.log.accepted
  }

  lemma PoolShrinks(s: System, e: Event)
    requires Sound(s) && s.pool.stopping && Subject(e).None?
    requires forall x :: x in s.pool.idle ==> x in s.pool.workers
    ensures Shrinks(s, PoolStep(s, e))
  {
    hide Inv, Threads, Drains, Accounted, Delivered, InOrder;
  }

  lemma LiveShrinks(s: System, e: Event)
    requires Sound(s) && s.pool.stopping
    ensures forall x :: x in s.pool.idle ==> x in s.pool.workers
    ensures Shrinks(s, Step(s, e))
  {
    hide Inv, Threads, Drains, Accounted, Delivered, InOrder, PoolStep, WorkerStep, Evolves;
    IdleKnown(s.pool);
    match Subject(e) {
      case Some(x) => if x in s.threads && x in s.pool.workers { WorkerEvolves(s, e, x); }
      case None => PoolShrinks(s, e);
    }
  }

  lemma {:induction false} LiveShrinksRun(s: System, es: seq<Event>)
    requires Sound(s) && s.pool.stopping
    ensures Shrinks(s, Run(s, es))
    decreases |es|
  {
    hide Sound, Step;
    if es != [] {
      StepKeeps(s, es[0]);
      LiveShrinks(s, es[0]);
      LiveShrinksRun(Step(s, es[0]), es[1..]);
    }
  }

  // ---- Handoffs are final -------------------------------------------------

  /** Handoffs and deliveries are never taken back, and a visitor handed over
      in this step is still in the mailbox. */
  ghost predicate Grows(log: Log, next: Log) {
    var h, h' := Handoffs(log), Handoffs(next);
    && (forall c :: c in h ==> c in h' && h'[c] == h[c])
    && log.taken <= next.taken
    && (forall c :: c in h' ==> c in h || (c !in next.taken && c !in next.cut))
  }

  lemma GrowsQueued(log: Log, next: Log, c: nat, id: nat)
    requires c !in Handoffs(log) && log.taken + log.cut <= Handoffs(log).Keys
    requires next.taken == log.taken && next.cut == log.cut
    requires next.direct == log.direct && next.queued == log.queued[c := id]
    ensures Grows(log, next)
  {
  }

  lemma GrowsDirect(log: Log, next: Log, c: nat, id: nat)
    requires c !in Handoffs(log) && log.taken + log.cut <= Handoffs(log).Keys
    requires next.taken == log.taken && next.cut == log.cut
    requires next.queued == log.queued && next.direct == log.direct[c := id]
    ensures Grows(log, next)
  {
  }

  lemma GrowsSame(log: Log, next: Log)
    requires next.direct == log.direct && next.queued == log.queued && log.taken <= next.taken
    ensures Grows(log, next)
  {
  }

  /** A visitor that waits, or is new, was handed to nobody. */
  lemma Unhanded(s: System, c: nat)
    requires Sound(s) && (c in Conns(s.pool.waiting) || c !in s.log.accepted)
    ensures c !in Handoffs(s.log) && s.log.taken + s.log.cut <= Handoffs(s.log).Keys
  {
    hide Inv, Threads, Drains, InOrder, Conns;
    assert Home(s.log, Names(s.pool.waiting), c);
  }

  lemma IdleGrows(s: System, id: nat, draw: int)
    requires Sound(s) && id in s.threads && id in s.pool.workers && CallsIdle(s.threads[id].pc)
    ensures Grows(s.log, IdleStep(s, id, draw).log)
  {
    hide Inv, Threads, Drains, Accounted, Delivered, InOrder, NextDeadline, IdleSection, FirstLive, Conns, Grows,
         Handoffs;
    At(s, id);
    TouchIdle(s.pool, id, Outside(s), draw);
    var k := FirstLive(s.pool.waiting, Outside(s));
    var t := IdleStep(s, id, draw);
    if IdleSection(s.pool, id, Outside(s), draw).1.IdleReady? && k < |s.pool.waiting| {
      assert Conns(s.pool.waiting)[k] == s.pool.waiting[k].conn;
      Unhanded(s, s.pool.waiting[k].conn);
      GrowsQueued(s.log, t.log, s.pool.waiting[k].conn, id);
    } else {
      GrowsSame(s.log, t.log);
    }
  }

  lemma AcceptGrows(s: System, v: Visitor)
    requires Sound(s) && v.conn !in s.log.accepted
    requires forall id :: id in s.pool.idle ==> id in s.pool.workers
    ensures Grows(s.log, AcceptStep(s, v).log)
  {
    hide Sound, Dispatch, Grows, Handoffs;
    Unhanded(s, v.conn);
    var t := AcceptStep(s, v);
    if Dispatch(s.pool, v, Outside(s)).1.Direct? {
      GrowsDirect(s.log, t.log, v.conn, Dispatch(s.pool, v, Outside(s)).1.worker);
    } else {
      GrowsSame(s.log, t.log);
    }
  }

  lemma QuietGrows(s: System, e: Event, id: nat)
    requires Subject(e) == Some(id) && id in s.threads && id in s.pool.workers && !e.GoIdle?
    ensures Grows(s.log, WorkerStep(s, e, id).log)
  {
    hide Grows, Poll, CloseSection, TakeIdle, Unlink;
    GrowsSame(s.log, WorkerStep(s, e, id).log);
  }

  lemma CalmGrows(s: System, e: Event)
    requires Subject(e).None? && !e.Accept?
    requires forall id :: id in s.pool.idle ==> id in s.pool.workers
    ensures Grows(s.log, PoolStep(s, e).log)
  {
    hide Grows, PoolSpec.Register, Withdraw, StopSection, Names;
    GrowsSame(s.log, PoolStep(s, e).log);
  }

  lemma WorkerGrows(s: System, e: Event, id: nat)
    requires Sound(s) && Subject(e) == Some(id) && id in s.threads && id in s.pool.workers
    ensures Grows(s.log, WorkerStep(s, e, id).log)
  {
    hide Sound, Grows, IdleStep;
    if e.GoIdle? {
      GrowsSame(s.log, s.log);
      if CallsIdle(s.threads[id].pc) {
        IdleGrows(s, id, e.draw);
      }
    } else {
      QuietGrows(s, e, id);
    }
  }

  lemma PoolGrows(s: System, e: Event)
    requires Sound(s) && Subject(e).None?
    requires forall id :: id in s.pool.idle ==> id in s.pool.workers
    ensures Grows(s.log, PoolStep(s, e).log)
  {
    hide Sound, Grows, AcceptStep;
    if e.Accept? {
      GrowsSame(s.log, s.log);
      if e.conn !in s.log.accepted {
        AcceptGrows(s, Visitor(e.conn, e.ctx, e.deadline));
      }
    } else {
      CalmGrows(s, e);
    }
  }

  lemma HandoffsGrow(s: System, e: Event)
    requires Sound(s)
    ensures forall id :: id in s.pool.idle ==> id in s.pool.workers
    ensures Grows(s.log, Step(s, e).log)
  {
    hide Inv, Threads, Drains, Accounted, Delivered, InOrder, Grows, WorkerStep, PoolStep;
    IdleKnown(s.pool);
    GrowsSame(s.log, s.log);
    match Subject(e) {
      case Some(id) => if id in s.threads && id in s.pool.workers { WorkerGrows(s, e, id); }
      case None => PoolGrows(s, e);
    }
  }

  // ---- Next returns -------------------------------------------------------

  /** How many more of its own steps a goroutine in Next may take before it
      returns, whatever the others do. */
  function Rank(w: Worker, t: Thread, stopping: bool): nat {
    if MustReturn(w, stopping) then
      (if t.pc.Polling? then 1 else if t.pc.Blocked? then 3 else 2)
    else if t.pc.Beat? || t.pc.Lapse? then 4
    else if t.pc.Blocked? then (if w.wake then 7 else 5)
    else if w.wake then 8
    else 6
  }

  predicate OwnStep(e: Event, id: nat) {
    e == PollMail(id) || e == TakeToken(id) || e == BeatFires(id) || e == LapseFires(id)
    || e == TakeCheck(id) || e == TakeExpire(id) || e == NextCanceled(id)
  }

  lemma TakeDescends(s: System, id: nat, from: Pc, state: WState, to: Pc)
    requires id in s.threads && id in s.pool.workers && s.threads[id].pc == from && (from.Beat? || from.Lapse?)
    requires s.pool.workers[id].state == Idle || MustReturn(s.pool.workers[id], s.pool.stopping)
    requires s.pool.workers[id].state == Idle ==> s.pool.workers[id].mailbox.None?
    requires !InNext(to)
    ensures var t := TakeStep(s, id, from, state, to);
            && id in t.threads && id in t.pool.workers
            && (!InNext(t.threads[id].pc)
                || Rank(t.pool.workers[id], t.threads[id], t.pool.stopping)
                   < Rank(s.pool.workers[id], s.threads[id], s.pool.stopping))
  {
    hide TakeIdle;
    TakeEvolves(s.pool, id, state);
  }

  lemma PollDescends(s: System, id: nat)
    requires id in s.threads && id in s.pool.workers && InNext(s.threads[id].pc)
    requires s.threads[id].pc == Polling(true) ==> MustReturn(s.pool.workers[id], s.pool.stopping)
    ensures var t := PollStep(s, id);
            && id in t.threads && id in t.pool.workers
            && (t == s || !InNext(t.threads[id].pc)
                || Rank(t.pool.workers[id], t.threads[id], t.pool.stopping)
                   < Rank(s.pool.workers[id], s.threads[id], s.pool.stopping))
  {
  }

  lemma TokenDescends(s: System, id: nat)
    requires id in s.threads && id in s.pool.workers && InNext(s.threads[id].pc)
    ensures var t := TokenStep(s, id);
            && id in t.threads && id in t.pool.workers
            && (t == s || Rank(t.pool.workers[id], t.threads[id], t.pool.stopping)
                          < Rank(s.pool.workers[id], s.threads[id], s.pool.stopping))
  {
  }

  lemma TimerDescends(s: System, id: nat, pc: Pc)
    requires id in s.threads && id in s.pool.workers && InNext(s.threads[id].pc) && (pc.Beat? || pc.Lapse?)
    ensures var t := TimerStep(s, id, pc);
            && id in t.threads && id in t.pool.workers
            && (t == s || Rank(t.pool.workers[id], t.threads[id], t.pool.stopping)
                          < Rank(s.pool.workers[id], s.threads[id], s.pool.stopping))
  {
  }

  /** A step of Next by its own goroutine, when enabled, returns or gets nearer
      to returning. */
  lemma OwnStepDescends(s: System, e: Event, id: nat)
    requires Sound(s) && id in s.threads && id in s.pool.workers && OwnStep(e, id) && InNext(s.threads[id].pc)
    ensures var t := WorkerStep(s, e, id);
            && id in t.threads && id in t.pool.workers
            && (t == s || !InNext(t.threads[id].pc)
                || Rank(t.pool.workers[id], t.threads[id], t.pool.stopping)
                   < Rank(s.pool.workers[id], s.threads[id], s.pool.stopping))
  {
    hide Sound, TakeStep, PollStep, TokenStep, TimerStep, Rank;
    InNextFacts(s, id);
    match e {
      case PollMail(_) => PollDescends(s, id);
      case TakeToken(_) => TokenDescends(s, id);
      case BeatFires(_) => TimerDescends(s, id, Beat);
      case LapseFires(_) => TimerDescends(s, id, Lapse);
      case TakeCheck(_) =>
        if s.threads[id].pc.Beat? { TakeDescends(s, id, Beat, Checking, Checked); }
        else { NoTake(s, id, Beat, Checking, Checked); }
      case TakeExpire(_) =>
        if s.threads[id].pc.Lapse? { TakeDescends(s, id, Lapse, Expiring, Gone); }
        else { NoTake(s, id, Lapse, Expiring, Gone); }
      case _ =>
    }
  }

  lemma InNextFacts(s: System, id: nat)
    requires Sound(s) && id in s.threads && id in s.pool.workers && InNext(s.threads[id].pc)
    ensures s.threads[id].pc == Polling(true) ==> MustReturn(s.pool.workers[id], s.pool.stopping)
    ensures s.pool.workers[id].state == Idle || MustReturn(s.pool.workers[id], s.pool.stopping)
    ensures s.pool.workers[id].state == Idle ==> s.pool.workers[id].mailbox.None?
  {
    hide Inv, Threads, Drains, Accounted, Delivered, InOrder, NextDeadline;
    At(s, id);
  }

  lemma NoTake(s: System, id: nat, from: Pc, state: WState, to: Pc)
    requires id in s.threads && id in s.pool.workers && s.threads[id].pc != from
    ensures TakeStep(s, id, from, state, to) == s
  {
  }

  /** Anyone else's step leaves it no farther. */
  lemma OthersDoNotDelay(s: System, e: Event, id: nat)
    requires Sound(s) && id in s.threads && id in s.pool.workers && InNext(s.threads[id].pc) && !OwnStep(e, id)
    ensures forall x :: x in s.pool.idle ==> x in s.pool.workers
    ensures var t := Step(s, e);
            && id in t.threads && id in t.pool.workers && t.threads[id].pc == s.threads[id].pc
            && t.threads[id].until == s.threads[id].until
            && Rank(t.pool.workers[id], t.threads[id], t.pool.stopping)
               <= Rank(s.pool.workers[id], s.threads[id], s.pool.stopping)
  {
    hide Inv, Threads, Drains, Accounted, Delivered, InOrder, PoolStep, WorkerStep, Evolves;
    IdleKnown(s.pool);
    match Subject(e) {
      case Some(x) =>
        if x in s.threads && x in s.pool.workers {
          if x != id { WorkerEvolves(s, e, x); } else { OtherOwnStep(s, e, id); }
        }
      case None => PoolEvolves(s, e, id);
    }
  }

  /** A step of the worker that is not one of Next closes it, or waits for Next
      to return. */
  lemma OtherOwnStep(s: System, e: Event, id: nat)
    requires Sound(s) && Subject(e) == Some(id) && id in s.threads && id in s.pool.workers
    requires InNext(s.threads[id].pc) && !OwnStep(e, id)
    ensures var t := WorkerStep(s, e, id);
            && id in t.threads && id in t.pool.workers && t.threads[id].pc == s.threads[id].pc
            && t.threads[id].until == s.threads[id].until
            && Rank(t.pool.workers[id], t.threads[id], t.pool.stopping)
               <= Rank(s.pool.workers[id], s.threads[id], s.pool.stopping)
  {
    hide Sound, CloseStep, IdleStep, Evolves;
    if e.Close? || e.StopNext? || e.ForceNext? {
      CloseEvolves(s, id);
    }
  }

  /** The steps of Next that need neither its context nor anyone else. */
  predicate NextStep(e: Event, id: nat) {
    OwnStep(e, id) && !e.NextCanceled?
  }

  /** Blocked on an idle worker without a token and with no timer due. */
  predicate NothingDue(w: Worker, t: Thread, now: int) {
    && t.pc.Blocked? && w.state == Idle && w.mailbox.None? && !w.wake
    && w.opts.heartbeat <= 0 && (t.until == NEVER || t.until > now)
  }

  /** Whenever a goroutine sits in Next, some step of its own changes the state,
      or it is blocked on an idle worker with nothing due; in a stopping pool
      such a worker is about to be closed by Stop. */
  lemma NextIsNeverStuck(maxPending: int, now: int, es: seq<Event>, id: nat)
    ensures var s := Reach(maxPending, now, es);
            && (forall x :: x in s.pool.idle ==> x in s.pool.workers)
            && (id in s.threads && InNext(s.threads[id].pc) ==>
                  && id in s.pool.workers
                  && Rank(s.pool.workers[id], s.threads[id], s.pool.stopping) <= 8
                  && ((exists e :: NextStep(e, id) && Step(s, e) != s)
                      || (NothingDue(s.pool.workers[id], s.threads[id], s.now)
                          && (s.pool.stopping ==> id in s.stopTodo))))
  {
    hide Reach, Sound, Step, InNext, NothingDue, NextStep, Rank;
    ReachSound(maxPending, now, es);
    var s := Reach(maxPending, now, es);
    StepKeeps(s, Tick(0));
    if id in s.threads && InNext(s.threads[id].pc) {
      OneStep(s, Tick(0), id);
      NextMoves(s, id);
      RankBound(s.pool.workers[id], s.threads[id], s.pool.stopping);
      var e := NextMove(s, id);
      assert e.Some? ==> NextStep(e.value, id) && Step(s, e.value) != s;
    }
  }

  lemma RankBound(w: Worker, t: Thread, stopping: bool)
    ensures Rank(w, t, stopping) <= 8
  {
  }

  /** What the goroutine does next if it can. */
  function NextMove(s: System, id: nat): Option<Event>
    requires id in s.threads && id in s.pool.workers
  {
    var w, t := s.pool.workers[id], s.threads[id];
    match t.pc
    case Polling(_) => Some(PollMail(id))
    case Beat => Some(TakeCheck(id))
    case Lapse => Some(TakeExpire(id))
    case _ =>
      if w.wake then Some(TakeToken(id))
      else if w.opts.heartbeat > 0 then Some(BeatFires(id))
      else if t.until != NEVER && t.until <= s.now then Some(LapseFires(id))
      else None
  }

  lemma NextMoves(s: System, id: nat)
    requires Sound(s) && id in s.threads && id in s.pool.workers && InNext(s.threads[id].pc)
    requires forall x :: x in s.pool.idle ==> x in s.pool.workers
    ensures match NextMove(s, id)
            case Some(e) => NextStep(e, id) && Step(s, e) != s
            case None =>
              NothingDue(s.pool.workers[id], s.threads[id], s.now) && (s.pool.stopping ==> id in s.stopTodo)
  {
    hide Inv, Threads, Drains, Accounted, Delivered, InOrder, NextDeadline, Poll, TakeIdle;
    At(s, id);
    match NextMove(s, id) {
      case Some(e) => NextMoveMoves(s, e, id);
      case None =>
    }
  }

  lemma NextMoveMoves(s: System, e: Event, id: nat)
    requires id in s.threads && id in s.pool.workers && InNext(s.threads[id].pc)
    requires forall x :: x in s.pool.idle ==> x in s.pool.workers
    requires NextMove(s, id) == Some(e)
    ensures NextStep(e, id) && Step(s, e) == WorkerStep(s, e, id)
    ensures id in Step(s, e).threads && Step(s, e).threads[id].pc != s.threads[id].pc
  {
    hide Poll, TakeIdle, WakeSection, Dispatch;
  }

  // ---- Deadlines ----------------------------------------------------------

  /** Worker `id` comes back from no registration or lease during the events
      `more` that follow `es`. */
  ghost predicate NoFreshIdle(maxPending: int, now: int, es: seq<Event>, more: seq<Event>, id: nat) {
    forall k :: 0 <= k < |more| ==>
      !Refreshed(Reach(maxPending, now, es + more[..k]), Reach(maxPending, now, es + more[..k + 1]), id)
  }

  predicate Refreshed(s: System, t: System, id: nat) {
    id in s.threads && id in t.threads && FreshIdle(s.threads[id], t.threads[id])
  }

  /** What a worker's Next works with, now and after. */
  ghost predicate SameDeadline(s: System, t: System, id: nat)
    requires id in s.pool.workers
  {
    && id in t.threads && id in t.pool.workers
    && NextDeadline(t.pool.workers[id]) == NextDeadline(s.pool.workers[id])
    && (InNext(t.threads[id].pc) ==> t.threads[id].until == NextDeadline(s.pool.workers[id]))
  }

  /** Heartbeats do not keep an unused connection alive: however many Checks and
      returns to Idle a run goes on with, without a lease every Next works with
      the same deadline. */
  lemma {:induction false} DeadlineStable(maxPending: int, now: int, es: seq<Event>, more: seq<Event>, id: nat)
    requires NoFreshIdle(maxPending, now, es, more, id)
    ensures var s := Reach(maxPending, now, es);
            id in s.threads ==> id in s.pool.workers && SameDeadline(s, Reach(maxPending, now, es + more), id)
    decreases |more|
  {
    hide Reach, Sound, Refreshed, Step, NextDeadline, InNext, SameDeadline, NoFreshIdle;
    var s := Reach(maxPending, now, es);
    ReachSound(maxPending, now, es);
    if id in s.threads {
      DeadlineHere(s, id);
      if more == [] {
        assert es + more == es;
      } else {
        var n := |more| - 1;
        AllButLast(maxPending, now, es, more, id);
        DeadlineStable(maxPending, now, es, more[..n], id);
        assert es + more[..n] + [more[n]] == es + more;
        ReachLonger(maxPending, now, es + more[..n], more[n]);
        DeadlineStep(s, Reach(maxPending, now, es + more[..n]), more[n], id);
      }
    }
  }

  lemma AllButLast(maxPending: int, now: int, es: seq<Event>, more: seq<Event>, id: nat)
    requires more != [] && NoFreshIdle(maxPending, now, es, more, id)
    ensures NoFreshIdle(maxPending, now, es, more[..|more| - 1], id)
    ensures !Refreshed(Reach(maxPending, now, es + more[..|more| - 1]), Reach(maxPending, now, es + more), id)
  {
    hide Reach, Refreshed;
    var n := |more| - 1;
    assert more[..n + 1] == more;
    assert forall k :: 0 <= k <= n ==> more[..n][..k] == more[..k];
  }

  lemma DeadlineHere(s: System, id: nat)
    requires Sound(s) && id in s.threads
    ensures id in s.pool.workers && SameDeadline(s, s, id)
  {
    hide Inv, Drains, Accounted, Delivered, InOrder, NextDeadline;
    KeysAgree(s);
  }

  lemma DeadlineStep(s: System, t: System, e: Event, id: nat)
    requires Sound(t) && id in s.pool.workers && SameDeadline(s, t, id)
    ensures forall x :: x in t.pool.idle ==> x in t.pool.workers
    ensures var u := Step(t, e);
            !Refreshed(t, u, id) ==> SameDeadline(s, u, id)
  {
    hide Inv, Drains, Accounted, Delivered, InOrder, Step, FreshIdle;
    OneStep(t, e, id);
    StepKeeps(t, e);
  }
}
