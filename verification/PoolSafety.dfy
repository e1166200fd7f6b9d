/** What every run of the pool keeps. */
module PoolSafety {
  import opened Bytes
  import opened PoolSpec
  import opened PoolSystem

  // ---- Sections touch one worker ------------------------------------------

  /** Only worker `id` differs between two pools. */
  ghost predicate Touches(p: Pool, q: Pool, id: nat) {
    && id in p.workers && q.workers.Keys == p.workers.Keys
    && q.stopping == p.stopping
    && (forall x :: x in p.workers && x != id ==> q.workers[x] == p.workers[x])
    && q.live <= p.live && (forall x :: x in p.live && x != id ==> x in q.live)
  }

  /** The pool's queue and its drop counters are as before. */
  ghost predicate SameQueue(p: Pool, q: Pool) {
    q.waiting == p.waiting && q.waitTimeouts == p.waitTimeouts && q.waitCanceled == p.waitCanceled
  }

  ghost predicate IdleEffect(p: Pool, q: Pool, o: IdleOutcome, id: nat, env: Env)
    requires id in p.workers && id in q.workers
  {
    match o
    case IdleStopped => q == p && (p.stopping || p.workers[id].state == Closed)
    case IdleExpired =>
      && !p.stopping && p.workers[id].state != Closed
      && q.workers[id].state == Expiring && q.workers[id].mailbox == p.workers[id].mailbox && SameQueue(p, q)
    case IdleReady(closing) =>
      && !p.stopping && p.workers[id].state != Closed
      && var k := FirstLive(p.waiting, env);
         && closing == Conns(p.waiting[..k])
         && q.waitTimeouts + q.waitCanceled == p.waitTimeouts + p.waitCanceled + k
         && if k < |p.waiting| then
              && q.workers[id].state == Leased && q.workers[id].mailbox == Some(p.waiting[k].conn)
              && q.waiting == p.waiting[k + 1..]
            else
              && q.workers[id].state == Idle && q.workers[id].mailbox == p.workers[id].mailbox && q.waiting == []
  }

  lemma TouchIdle(p: Pool, id: nat, env: Env, draw: int)
    requires id in p.workers
    ensures var r := IdleSection(p, id, env, draw);
            Touches(p, r.0, id) && r.0.live == p.live && IdleEffect(p, r.0, r.1, id, env)
  {
    hide Match, FirstLive, Insert, After, Conns;
    var w := p.workers[id];
    if !p.stopping && w.state != Closed && w.dies > env.now {
      var expires := if w.state != Checking then After(env.now, w.opts.idleTimeout, draw) else w.expires;
      TouchMatch(Put(p, id, w.(business := None, expires := expires)), id, env);
    }
  }

  lemma TouchMatch(p: Pool, id: nat, env: Env)
    requires id in p.workers && !p.stopping && p.workers[id].state != Closed
    ensures var r := Match(p, id, env);
            && Touches(p, r.0, id) && r.0.live == p.live && IdleEffect(p, r.0, IdleReady(r.1), id, env)
  {
    hide Match, FirstLive, Insert, Conns;
    MatchServesFirstLive(p, id, env);
  }

  lemma TouchClose(p: Pool, id: nat)
    requires id in p.workers
    ensures var q := CloseSection(p, id).0;
            && Touches(p, q, id) && SameQueue(p, q)
            && CloseSection(p, id).1 == (p.workers[id].state != Closed)
            && (CloseSection(p, id).1 ==>
                  q.workers[id].state == Closed && q.workers[id].mailbox.None? && q.workers[id].wake
                  && NextDeadline(q.workers[id]) == NextDeadline(p.workers[id]) && id !in q.live)
            && (!CloseSection(p, id).1 ==> q == p)
  {
  }

  lemma TouchTake(p: Pool, id: nat, s: WState)
    requires id in p.workers
    ensures var q := TakeIdle(p, id, s).0;
            && Touches(p, q, id) && SameQueue(p, q) && q.live == p.live
            && q.workers[id].mailbox == p.workers[id].mailbox
            && (if TakeIdle(p, id, s).1 then p.workers[id].state == Idle && !p.stopping && q.workers[id].state == s
                else q == p && (p.workers[id].state != Idle || p.stopping))
  {
  }

  lemma TouchDispatch(p: Pool, v: Visitor, env: Env)
    requires Inv(p)
    ensures var r := Dispatch(p, v, env); var q, o := r.0, r.1;
            match o
            case Direct(w) =>
              && Touches(p, q, w) && SameQueue(p, q) && q.live == p.live && !p.stopping
              && p.workers[w].state == Idle && q.workers[w].state == Leased && q.workers[w].mailbox == Some(v.conn)
              && q.workers[w].wake && NextDeadline(q.workers[w]) == NextDeadline(p.workers[w])
            case Queued => q == p.(waiting := p.waiting + [v], pending := p.pending + 1)
            case _ => q == p
  {
    if Dispatch(p, v, env).1.Direct? {
      assert p.idle[|p.idle| - 1] in p.idle;
    }
  }

  // ---- Frames -------------------------------------------------------------

  /** A step that leaves every visitor where it is. */
  ghost predicate SameVisitors(s: System, t: System) {
    && t.log == s.log && SameQueue(s.pool, t.pool)
    && t.pool.workers.Keys == s.pool.workers.Keys
    && (forall x :: x in s.pool.workers ==> t.pool.workers[x].mailbox == s.pool.workers[x].mailbox)
  }

  lemma VisitorsFrame(s: System, t: System)
    requires Accounted(s) && Delivered(s) && InOrder(s) && SameVisitors(s, t)
    ensures Accounted(t) && Delivered(t) && InOrder(t)
  {
    hide Conns, Subsequence, Handoffs;
  }

  /** A step of one worker keeps the others' threads and the drain. */
  lemma Local(s: System, t: System, id: nat)
    requires Threads(s) && Drains(s) && Touches(s.pool, t.pool, id)
    requires t.threads.Keys == s.threads.Keys && id in t.threads
    requires forall x :: x in s.threads && x != id ==> t.threads[x] == s.threads[x]
    requires ThreadOk(t.pool.workers[id], t.threads[id], t.pool.stopping)
    requires forall x :: x in s.stopTodo && x != id ==> x in t.stopTodo
    requires forall x :: x in s.forceTodo && x != id ==> x in t.forceTodo
    requires t.drained == s.drained
    requires t.pool.stopping && id in t.pool.live ==>
               && (t.pool.workers[id].state == Leased || t.pool.workers[id].state == Releasing || id in t.stopTodo)
               && (t.drained ==> id in t.forceTodo)
    ensures Threads(t) && Drains(t)
  {
    hide ThreadOk;
  }

  /** What is known of one worker. */
  lemma At(s: System, id: nat)
    requires Threads(s) && Drains(s) && Inv(s.pool) && id in s.threads
    ensures id in s.pool.workers && s.threads.Keys == s.pool.workers.Keys
    ensures ThreadOk(s.pool.workers[id], s.threads[id], s.pool.stopping)
    ensures WorkerOk(s.pool.workers[id])
    ensures id in s.pool.live <==> s.pool.workers[id].state != Closed
    ensures s.pool.stopping && id in s.pool.live ==>
              && (s.pool.workers[id].state == Leased || s.pool.workers[id].state == Releasing || id in s.stopTodo)
              && (s.drained ==> id in s.forceTodo)
  {
  }

  // ---- Steps of one worker ------------------------------------------------

  lemma EnterKeeps(s: System, id: nat)
    requires Sound(s) && id in s.threads
    ensures Sound(EnterStep(s, id))
  {
    hide Inv, Threads, Drains, Accounted, Delivered, InOrder, NextDeadline;
    At(s, id);
    var t := EnterStep(s, id);
    if t != s {
      Local(s, t, id);
      VisitorsFrame(s, t);
    }
  }

  lemma TokenKeeps(s: System, id: nat)
    requires Sound(s) && id in s.threads
    ensures Sound(TokenStep(s, id))
  {
    hide Inv, Threads, Drains, Accounted, Delivered, InOrder;
    At(s, id);
    InvWake(s.pool, id);
    var t := TokenStep(s, id);
    if t != s {
      Local(s, t, id);
      VisitorsFrame(s, t);
    }
  }

  lemma TimerKeeps(s: System, id: nat, pc: Pc)
    requires Sound(s) && id in s.threads && (pc.Beat? || pc.Lapse?)
    ensures Sound(TimerStep(s, id, pc))
  {
    hide Inv, Threads, Drains, Accounted, Delivered, InOrder, NextDeadline;
    At(s, id);
    var t := TimerStep(s, id, pc);
    if t != s {
      Local(s, t, id);
      VisitorsFrame(s, t);
    }
  }

  lemma TakeKeeps(s: System, id: nat, from: Pc, state: WState, to: Pc)
    requires Sound(s) && id in s.threads
    requires (from == Beat && state == Checking && to == Checked) || (from == Lapse && state == Expiring && to == Gone)
    ensures Sound(TakeStep(s, id, from, state, to))
  {
    hide Inv, Threads, Drains, Accounted, Delivered, InOrder, TakeIdle;
    At(s, id);
    InvTakeIdle(s.pool, id, state);
    TouchTake(s.pool, id, state);
    var t := TakeStep(s, id, from, state, to);
    if t != s {
      Local(s, t, id);
      VisitorsFrame(s, t);
    }
  }

  lemma ReleaseKeeps(s: System, id: nat)
    requires Sound(s) && id in s.threads
    ensures Sound(ReleaseStep(s, id))
  {
    hide Inv, Threads, Drains, Accounted, Delivered, InOrder, NextDeadline;
    At(s, id);
    var t := ReleaseStep(s, id);
    if t != s {
      InvReleasing(s.pool, id);
      Local(s, t, id);
      VisitorsFrame(s, t);
    }
  }

  lemma LeaveKeeps(s: System, id: nat, canceled: bool)
    requires Sound(s) && id in s.threads
    ensures Sound(LeaveStep(s, id, canceled))
  {
    hide Inv, Threads, Drains, Accounted, Delivered, InOrder, NextDeadline;
    At(s, id);
    var t := LeaveStep(s, id, canceled);
    if t != s {
      Local(s, t, id);
      VisitorsFrame(s, t);
    }
  }

  lemma CloseConnKeeps(s: System, id: nat)
    requires Sound(s) && id in s.threads
    ensures Sound(CloseConnStep(s, id))
  {
    hide Inv, Threads, Drains, Accounted, Delivered, InOrder, NextDeadline;
    At(s, id);
    var t := CloseConnStep(s, id);
    if t != s {
      Local(s, t, id);
      VisitorsFrame(s, t);
    }
  }

  /** Next takes the visitor out of the mailbox: from then on it is `taken`. */
  lemma DeliveredTaken(s: System, t: System, id: nat, c: nat)
    requires Delivered(s) && id in s.pool.workers && s.pool.workers[id].mailbox == Some(c)
    requires t.pool.workers.Keys == s.pool.workers.Keys && t.pool.workers[id].mailbox == None
    requires forall x :: x in s.pool.workers && x != id ==> t.pool.workers[x].mailbox == s.pool.workers[x].mailbox
    requires t.log == s.log.(taken := s.log.taken + {c}) || t.log == s.log.(cut := s.log.cut + {c})
    ensures Delivered(t)
  {
    assert Handoffs(t.log) == Handoffs(s.log);
    forall x | x in t.pool.workers && t.pool.workers[x].mailbox.Some?
      ensures t.pool.workers[x].mailbox.value != c
    {
      assert x != id;
    }
  }

  lemma SameBooks(s: System, t: System)
    requires Accounted(s) && InOrder(s) && SameQueue(s.pool, t.pool)
    requires t.log == s.log.(taken := t.log.taken, cut := t.log.cut)
    ensures Accounted(t) && InOrder(t)
  {
    hide Conns, Subsequence, Names;
    forall c: nat ensures Home(t.log, Names(t.pool.waiting), c) {
      assert Home(s.log, Names(s.pool.waiting), c);
    }
  }

  /** The check at the top of Next's loop touches at most the mailbox. */
  lemma TouchPoll(p: Pool, id: nat)
    requires id in p.workers
    ensures var (q, o) := Poll(p, id);
            && Touches(p, q, id) && SameQueue(p, q)
            && q.workers[id] == p.workers[id].(mailbox := q.workers[id].mailbox)
            && match o
               case Wait => q == p && p.workers[id].mailbox.None? && p.workers[id].state != Closed
               case PollStopped => q == p
               case PollLeased(c) =>
                 p.workers[id].mailbox == Some(c) && q.workers[id].mailbox.None? && p.workers[id].state != Closed
  {
  }

  lemma PollVisitors(s: System, id: nat)
    requires Sound(s) && id in s.threads && id in s.pool.workers
    ensures var t := PollStep(s, id); Accounted(t) && Delivered(t) && InOrder(t)
  {
    hide Inv, Threads, Drains, Accounted, Delivered, InOrder, Poll;
    TouchPoll(s.pool, id);
    var t := PollStep(s, id);
    if s.threads[id].pc.Polling? {
      match Poll(s.pool, id).1 {
        case PollLeased(c) =>
          DeliveredTaken(s, t, id, c);
          SameBooks(s, t);
        case _ => VisitorsFrame(s, t);
      }
    }
  }

  lemma PollKeeps(s: System, id: nat)
    requires Sound(s) && id in s.threads
    ensures Sound(PollStep(s, id))
  {
    hide Inv, Threads, Drains, Accounted, Delivered, InOrder, NextDeadline, Poll;
    At(s, id);
    InvPoll(s.pool, id);
    TouchPoll(s.pool, id);
    PollVisitors(s, id);
    if s.threads[id].pc.Polling? {
      Local(s, PollStep(s, id), id);
    }
  }

  lemma CloseKeeps(s: System, id: nat)
    requires Sound(s) && id in s.threads
    ensures Sound(CloseStep(s, id))
    ensures id !in CloseStep(s, id).pool.live
    ensures CloseStep(s, id).stopTodo == s.stopTodo && CloseStep(s, id).forceTodo == s.forceTodo
  {
    hide Inv, Threads, Drains, Accounted, Delivered, InOrder, NextDeadline, CloseSection;
    At(s, id);
    InvClose(s.pool, id);
    TouchClose(s.pool, id);
    var t := CloseStep(s, id);
    if t != s {
      Local(s, t, id);
      var m := s.pool.workers[id].mailbox;
      if m.Some? {
        DeliveredTaken(s, t, id, m.value);
        SameBooks(s, t);
      } else {
        VisitorsFrame(s, t);
      }
    }
  }

  // ---- The queue's books --------------------------------------------------

  lemma {:induction false} ConnsConcat(a: seq<Visitor>, b: seq<Visitor>)
    ensures Conns(a + b) == Conns(a) + Conns(b)
  {
  }

  lemma NamesConcat(a: seq<Visitor>, b: seq<Visitor>)
    ensures Names(a + b) == Names(a) + Names(b)
  {
    ConnsConcat(a, b);
  }

  lemma NamesOne(v: Visitor)
    ensures Names([v]) == {v.conn} && Conns([v]) == [v.conn]
  {
    assert Conns([v])[0] == v.conn;
  }

  lemma {:induction false} NamesSize(w: seq<Visitor>)
    requires Distinct(w)
    ensures |Names(w)| == |w|
  {
    if w == [] {
      assert Names(w) == {};
    } else {
      NamesSize(w[1..]);
      NamesConcat([w[0]], w[1..]);
      NamesOne(w[0]);
      assert w == [w[0]] + w[1..];
      forall i | 0 <= i < |w[1..]| ensures Conns(w[1..])[i] != w[0].conn {
        assert w[1..][i] == w[i + 1];
      }
    }
  }

  lemma NamesApart(a: seq<Visitor>, b: seq<Visitor>)
    requires Distinct(a + b)
    ensures Names(a) !! Names(b)
  {
    forall i, j | 0 <= i < |a| && 0 <= j < |b| ensures Conns(a)[i] != Conns(b)[j] {
      assert (a + b)[i] == a[i] && (a + b)[|a| + j] == b[j];
    }
  }

  /** Part of the queue is dropped. */
  lemma BooksDrop(log: Log, a: seq<Visitor>, m: seq<Visitor>, b: seq<Visitor>, drops: nat)
    requires Books(log, a + m + b, drops) && Distinct(a + m + b)
    ensures Books(log.(dropped := log.dropped + Names(m)), a + b, drops + |m|)
  {
    hide Names, Conns, Distinct, Home;
    var w, t := a + m + b, log.(dropped := log.dropped + Names(m));
    DistinctParts(a, m, b);
    NamesConcat(a + m, b);
    NamesConcat(a, m);
    NamesConcat(a, b);
    NamesApart(a, m);
    NamesApart(m, b);
    NamesSize(m);
    forall c: nat ensures Home(t, Names(a + b), c) {
      assert Home(log, Names(w), c);
      HomeDrop(log, Names(w), Names(m), c);
      assert Names(a + b) == Names(w) - Names(m);
    }
    forall c | c in log.dropped ensures c !in Names(m) {
      assert Home(log, Names(w), c);
      HomeDrop(log, Names(w), Names(m), c);
    }
    assert |log.dropped + Names(m)| == |log.dropped| + |Names(m)|;
    forall i | 0 <= i < |a + b|
      ensures (a + b)[i].conn in log.armed && log.armed[(a + b)[i].conn] == (a + b)[i]
    {
      assert (a + b)[i] == w[if i < |a| then i else i + |m|];
    }
  }

  lemma HomeDrop(log: Log, waiting: set<nat>, leaving: set<nat>, c: nat)
    requires Home(log, waiting, c) && leaving <= waiting
    ensures Home(log.(dropped := log.dropped + leaving), waiting - leaving, c)
    ensures c in log.dropped ==> c !in leaving
  {
  }

  lemma DistinctParts(a: seq<Visitor>, m: seq<Visitor>, b: seq<Visitor>)
    requires Distinct(a + m + b)
    ensures Distinct(m) && Distinct(a + m) && Distinct(m + b)
  {
    var w := a + m + b;
    assert forall i :: 0 <= i < |m| ==> m[i] == w[|a| + i];
    assert forall i :: 0 <= i < |a + m| ==> (a + m)[i] == w[i];
    assert forall i :: 0 <= i < |m + b| ==> (m + b)[i] == w[|a| + i];
  }

  /** The head of the queue goes to a worker. */
  lemma BooksServe(log: Log, v: Visitor, tail: seq<Visitor>, drops: nat, id: nat)
    requires Books(log, [v] + tail, drops) && Distinct([v] + tail)
    ensures Books(log.(queued := log.queued[v.conn := id], served := log.served + [v.conn]), tail, drops)
    ensures v.conn !in log.direct && v.conn !in log.queued
  {
    hide Names, Conns, Distinct, Home;
    var t := log.(queued := log.queued[v.conn := id], served := log.served + [v.conn]);
    NamesConcat([v], tail);
    NamesOne(v);
    NamesApart([v], tail);
    forall c: nat ensures Home(t, Names(tail), c) {
      assert Home(log, Names([v] + tail), c);
      HomeServe(log, t, Names([v] + tail), v.conn, id, c);
      assert Names(tail) == Names([v] + tail) - {v.conn};
    }
    assert Home(log, Names([v] + tail), v.conn);
    HomeServe(log, t, Names([v] + tail), v.conn, id, v.conn);
    forall i | 0 <= i < |tail| ensures tail[i].conn in log.armed && log.armed[tail[i].conn] == tail[i] {
      assert tail[i] == ([v] + tail)[i + 1];
    }
  }

  lemma HomeServe(log: Log, t: Log, waiting: set<nat>, conn: nat, id: nat, c: nat)
    requires Home(log, waiting, c) && conn in waiting
    requires t == log.(queued := log.queued[conn := id], served := t.served)
    ensures Home(t, waiting - {conn}, c)
    ensures c == conn ==> c !in log.direct && c !in log.queued
  {
  }

  lemma BooksQueue(log: Log, waiting: seq<Visitor>, v: Visitor, drops: nat)
    requires Books(log, waiting, drops) && v.conn !in log.refused && v.conn !in log.accepted
    ensures Books(log.(accepted := log.accepted + {v.conn}, arrived := log.arrived + [v.conn],
                       armed := log.armed[v.conn := v]), waiting + [v], drops)
  {
    hide Names, Conns, Home;
    var t := log.(accepted := log.accepted + {v.conn}, arrived := log.arrived + [v.conn],
                  armed := log.armed[v.conn := v]);
    NamesConcat(waiting, [v]);
    NamesOne(v);
    forall c: nat ensures Home(t, Names(waiting + [v]), c) {
      assert Home(log, Names(waiting), c);
      HomeQueue(log, t, Names(waiting), v.conn, c);
    }
    assert Home(log, Names(waiting), v.conn);
    HomeQueue(log, t, Names(waiting), v.conn, v.conn);
    forall i | 0 <= i < |waiting| ensures waiting[i].conn != v.conn {
      NamesHas(waiting, i);
    }
  }

  lemma HomeQueue(log: Log, t: Log, waiting: set<nat>, conn: nat, c: nat)
    requires Home(log, waiting, c) && conn !in log.refused && conn !in log.accepted
    requires t == log.(accepted := log.accepted + {conn}, arrived := t.arrived, armed := t.armed)
    ensures Home(t, waiting + {conn}, c)
    ensures c == conn ==> c !in waiting
  {
  }

  lemma NamesHas(waiting: seq<Visitor>, i: nat)
    requires i < |waiting|
    ensures waiting[i].conn in Names(waiting)
  {
    assert Conns(waiting)[i] in Conns(waiting);
  }

  lemma BooksDirect(log: Log, waiting: seq<Visitor>, conn: nat, id: nat, drops: nat)
    requires Books(log, waiting, drops) && conn !in log.refused && conn !in log.accepted
    ensures Books(log.(accepted := log.accepted + {conn}, direct := log.direct[conn := id]), waiting, drops)
    ensures conn !in log.direct && conn !in log.queued
  {
    hide Names;
    var t := log.(accepted := log.accepted + {conn}, direct := log.direct[conn := id]);
    assert Home(log, Names(waiting), conn);
    forall c: nat ensures Home(t, Names(waiting), c) {
      assert Home(log, Names(waiting), c);
    }
  }

  lemma BooksRefuse(log: Log, waiting: seq<Visitor>, conn: nat, drops: nat)
    requires Books(log, waiting, drops) && conn !in log.accepted
    ensures Books(log.(refused := log.refused + {conn}), waiting, drops)
  {
    hide Names;
    forall c: nat ensures Home(log.(refused := log.refused + {conn}), Names(waiting), c) {
      assert Home(log, Names(waiting), c);
    }
  }

  // ---- Order of service ---------------------------------------------------

  lemma {:induction false} SubsequenceAppend(a: seq<nat>, b: seq<nat>, x: nat)
    requires Subsequence(a, b)
    ensures Subsequence(a + [x], b + [x])
    decreases |b|
  {
    if a == [] {
      LastIsSubsequence(b, x);
      assert [] + [x] == [x];
    } else if a[0] == b[0] && Subsequence(a[1..], b[1..]) {
      SubsequenceAppend(a[1..], b[1..], x);
      assert (a + [x])[1..] == a[1..] + [x] && (b + [x])[1..] == b[1..] + [x];
    } else {
      SubsequenceAppend(a, b[1..], x);
      assert (b + [x])[1..] == b[1..] + [x];
    }
  }

  lemma {:induction false} LastIsSubsequence(b: seq<nat>, x: nat)
    ensures Subsequence([x], b + [x])
    decreases |b|
  {
    if b == [] {
      assert ([x])[1..] == [] && [] + [x] == [x];
    } else {
      LastIsSubsequence(b[1..], x);
      assert (b + [x])[1..] == b[1..] + [x];
    }
  }

  lemma {:induction false} SubsequenceRemove(a: seq<nat>, m: seq<nat>, c: seq<nat>, b: seq<nat>)
    requires Subsequence(a + m + c, b)
    ensures Subsequence(a + c, b)
    decreases |b|
  {
    var w := a + m + c;
    if a + c != [] && m != [] {
      if w[0] == b[0] && Subsequence(w[1..], b[1..]) {
        if a != [] {
          assert w[1..] == a[1..] + m + c && (a + c)[1..] == a[1..] + c;
          SubsequenceRemove(a[1..], m, c, b[1..]);
        } else {
          assert w[1..] == [] + m[1..] + c && a + c == [] + c;
          SubsequenceRemove([], m[1..], c, b[1..]);
        }
      } else {
        SubsequenceRemove(a, m, c, b[1..]);
      }
    } else if m == [] {
      assert w == a + c;
    }
  }

  lemma OrderedDrop(log: Log, a: seq<Visitor>, m: seq<Visitor>, b: seq<Visitor>, dropped: set<nat>)
    requires Ordered(log, a + m + b)
    ensures Ordered(log.(dropped := dropped), a + b)
  {
    hide Subsequence, Conns;
    ConnsConcat(a + m, b);
    ConnsConcat(a, m);
    ConnsConcat(a, b);
    assert log.served + Conns(a + m + b) == (log.served + Conns(a)) + Conns(m) + Conns(b);
    SubsequenceRemove(log.served + Conns(a), Conns(m), Conns(b), log.arrived);
    assert log.served + Conns(a + b) == (log.served + Conns(a)) + Conns(b);
  }

  lemma OrderedServe(log: Log, v: Visitor, tail: seq<Visitor>, id: nat)
    requires Ordered(log, [v] + tail)
    ensures Ordered(log.(queued := log.queued[v.conn := id], served := log.served + [v.conn]), tail)
  {
    hide Subsequence, Conns;
    ConnsConcat([v], tail);
    NamesOne(v);
    assert log.served + Conns([v] + tail) == (log.served + [v.conn]) + Conns(tail);
  }

  lemma OrderedQueue(log: Log, waiting: seq<Visitor>, v: Visitor)
    requires Ordered(log, waiting)
    ensures Ordered(log.(accepted := log.accepted + {v.conn}, arrived := log.arrived + [v.conn],
                         armed := log.armed[v.conn := v]), waiting + [v])
  {
    hide Subsequence, Conns;
    ConnsConcat(waiting, [v]);
    NamesOne(v);
    SubsequenceAppend(log.served + Conns(waiting), log.arrived, v.conn);
    assert log.served + Conns(waiting + [v]) == log.served + Conns(waiting) + [v.conn];
  }

  /** A visitor never seen before is not in the queue. */
  lemma FreshConn(s: System, conn: nat)
    requires Accounted(s) && conn !in s.log.accepted
    ensures forall i :: 0 <= i < |s.pool.waiting| ==> s.pool.waiting[i].conn != conn
  {
    hide Conns, Names;
    assert Home(s.log, Names(s.pool.waiting), conn);
    forall i | 0 <= i < |s.pool.waiting| ensures s.pool.waiting[i].conn != conn {
      NamesHas(s.pool.waiting, i);
    }
  }

  // ---- Handoffs -----------------------------------------------------------

  /** A visitor not handed over before goes into an empty mailbox. */
  lemma DeliveredHanded(s: System, t: System, id: nat, c: nat)
    requires Delivered(s) && id in s.pool.workers && s.pool.workers[id].mailbox.None?
    requires c !in s.log.direct && c !in s.log.queued
    requires t.pool.workers.Keys == s.pool.workers.Keys && t.pool.workers[id].mailbox == Some(c)
    requires forall x :: x in s.pool.workers && x != id ==> t.pool.workers[x].mailbox == s.pool.workers[x].mailbox
    requires t.log.taken == s.log.taken && t.log.cut == s.log.cut
    requires (t.log.direct == s.log.direct[c := id] && t.log.queued == s.log.queued)
             || (t.log.direct == s.log.direct && t.log.queued == s.log.queued[c := id])
    ensures Delivered(t)
  {
    HandoffAdded(s.log, t.log, c, id);
    assert c !in Handoffs(s.log);
    hide Handoffs;
  }

  lemma HandoffAdded(log: Log, next: Log, c: nat, id: nat)
    requires c !in log.direct && c !in log.queued
    requires (next.direct == log.direct[c := id] && next.queued == log.queued)
             || (next.direct == log.direct && next.queued == log.queued[c := id])
    ensures Handoffs(next).Keys == Handoffs(log).Keys + {c} && Handoffs(next)[c] == id
    ensures forall x :: x in Handoffs(log) ==> Handoffs(next)[x] == Handoffs(log)[x]
  {
  }

  lemma DeliveredSame(s: System, t: System)
    requires Delivered(s) && t.pool.workers.Keys == s.pool.workers.Keys
    requires forall x :: x in s.pool.workers ==> t.pool.workers[x].mailbox == s.pool.workers[x].mailbox
    requires t.log.taken == s.log.taken && t.log.cut == s.log.cut
    requires t.log.direct == s.log.direct && t.log.queued == s.log.queued
    ensures Delivered(t)
  {
    assert Handoffs(t.log) == Handoffs(s.log);
    hide Handoffs;
  }

  lemma BooksDropFront(log: Log, waiting: seq<Visitor>, k: nat, drops: nat)
    requires Books(log, waiting, drops) && Ordered(log, waiting) && Distinct(waiting) && k <= |waiting|
    ensures var t := log.(dropped := log.dropped + Elements(Conns(waiting[..k])));
            Books(t, waiting[k..], drops + k) && Ordered(t, waiting[k..]) && Distinct(waiting[k..])
  {
    hide Books, Ordered, Conns, Distinct;
    var none: seq<Visitor>, a, b := [], waiting[..k], waiting[k..];
    assert none + a + b == waiting && none + b == b && a + b + none == waiting && b + none == b;
    BooksDrop(log, none, a, b, drops);
    OrderedDrop(log, none, a, b, log.dropped + Names(a));
    DistinctParts(a, b, none);
  }

  lemma BooksServeFront(log: Log, waiting: seq<Visitor>, drops: nat, id: nat)
    requires Books(log, waiting, drops) && Ordered(log, waiting) && Distinct(waiting) && |waiting| > 0
    ensures var c := waiting[0].conn; var u := log.(queued := log.queued[c := id], served := log.served + [c]);
            Books(u, waiting[1..], drops) && Ordered(u, waiting[1..]) && c !in log.direct && c !in log.queued
  {
    hide Books, Ordered, Conns, Distinct;
    assert [waiting[0]] + waiting[1..] == waiting;
    BooksServe(log, waiting[0], waiting[1..], drops, id);
    OrderedServe(log, waiting[0], waiting[1..], id);
  }

  lemma IdleVisitors(s: System, id: nat, draw: int)
    requires Sound(s) && id in s.threads && CallsIdle(s.threads[id].pc)
    ensures var t := IdleStep(s, id, draw); Accounted(t) && Delivered(t) && InOrder(t)
  {
    hide Inv, Threads, Drains, Accounted, Delivered, InOrder, NextDeadline, IdleSection, FirstLive, Conns;
    At(s, id);
    TouchIdle(s.pool, id, Outside(s), draw);
    if IdleSection(s.pool, id, Outside(s), draw).1.IdleReady? {
      IdleReadyKeeps(s, id, draw);
    } else {
      VisitorsFrame(s, IdleStep(s, id, draw));
    }
  }

  lemma IdleThreads(s: System, id: nat, draw: int)
    requires Sound(s) && id in s.threads && CallsIdle(s.threads[id].pc)
    ensures var t := IdleStep(s, id, draw); Threads(t) && Drains(t)
  {
    hide Inv, Threads, Drains, Accounted, Delivered, InOrder, NextDeadline, IdleSection, FirstLive, Conns, ThreadOk;
    At(s, id);
    TouchIdle(s.pool, id, Outside(s), draw);
    IdleThread(s, id, draw);
    Local(s, IdleStep(s, id, draw), id);
  }

  lemma IdleThread(s: System, id: nat, draw: int)
    requires id in s.threads && id in s.pool.workers && CallsIdle(s.threads[id].pc)
    requires ThreadOk(s.pool.workers[id], s.threads[id], s.pool.stopping)
    ensures var t := IdleStep(s, id, draw);
            id in t.pool.workers && id in t.threads
            && ThreadOk(t.pool.workers[id], t.threads[id], t.pool.stopping)
  {
    hide NextDeadline, IdleSection, FirstLive, Conns;
    TouchIdle(s.pool, id, Outside(s), draw);
  }

  lemma IdleKeeps(s: System, id: nat, draw: int)
    requires Sound(s) && id in s.threads && CallsIdle(s.threads[id].pc)
    ensures Sound(IdleStep(s, id, draw))
  {
    hide Inv, Threads, Drains, Accounted, Delivered, InOrder, NextDeadline, IdleSection;
    At(s, id);
    InvIdleSection(s.pool, id, Outside(s), draw);
    IdleVisitors(s, id, draw);
    IdleThreads(s, id, draw);
  }

  lemma IdleReadyKeeps(s: System, id: nat, draw: int)
    requires Sound(s) && id in s.threads && CallsIdle(s.threads[id].pc)
    requires IdleSection(s.pool, id, Outside(s), draw).1.IdleReady?
    ensures var t := IdleStep(s, id, draw); Accounted(t) && Delivered(t) && InOrder(t)
  {
    hide Inv, Threads, Drains, Delivered, NextDeadline, IdleSection, FirstLive, Conns, Books, Ordered, Distinct;
    At(s, id);
    assert Distinct(s.pool.waiting) by { QueueDistinct(s.pool); }
    TouchIdle(s.pool, id, Outside(s), draw);
    var t := IdleStep(s, id, draw);
    var k := FirstLive(s.pool.waiting, Outside(s));
    var drops := s.pool.waitTimeouts + s.pool.waitCanceled;
    BooksDropFront(s.log, s.pool.waiting, k, drops);
    if k < |s.pool.waiting| {
      var log := s.log.(dropped := s.log.dropped + Elements(Conns(s.pool.waiting[..k])));
      BooksServeFront(log, s.pool.waiting[k..], drops + k, id);
      assert s.pool.waiting[k..][1..] == s.pool.waiting[k + 1..];
      DeliveredHanded(s, t, id, s.pool.waiting[k].conn);
    } else {
      assert s.pool.waiting[k..] == [];
      DeliveredSame(s, t);
    }
  }

  lemma QueueDistinct(p: Pool)
    requires Inv(p)
    ensures Distinct(p.waiting)
  {
  }

  // ---- Steps of the pool --------------------------------------------------

  lemma EnrollKeeps(s: System, id: nat, opts: Options, draw: int)
    requires Sound(s)
    ensures Sound(EnrollStep(s, id, opts, draw))
  {
    hide Inv, Books, Ordered, Conns, Handoffs, Delivered;
    var t := EnrollStep(s, id, opts, draw);
    if t != s {
      InvRegister(s.pool, id, opts, s.now, draw);
      EnrollDelivered(s, t, id);
    }
  }

  lemma EnrollDelivered(s: System, t: System, id: nat)
    requires Delivered(s) && id !in s.pool.workers && t.log == s.log
    requires t.pool.workers.Keys == s.pool.workers.Keys + {id} && t.pool.workers[id].mailbox.None?
    requires forall x :: x in s.pool.workers ==> t.pool.workers[x] == s.pool.workers[x]
    ensures Delivered(t)
  {
    hide Handoffs;
  }

  lemma DirectKeeps(s: System, t: System, v: Visitor, w: nat)
    requires Sound(s) && v.conn !in s.log.refused && v.conn !in s.log.accepted
    requires Inv(t.pool) && w in s.threads && Touches(s.pool, t.pool, w) && SameQueue(s.pool, t.pool)
    requires s.pool.workers[w].state == Idle && t.pool.workers[w].state == Leased && !s.pool.stopping
    requires t.pool.workers[w].mailbox == Some(v.conn) && t.pool.workers[w].wake
    requires NextDeadline(t.pool.workers[w]) == NextDeadline(s.pool.workers[w])
    requires t == s.(pool := t.pool,
                     log := s.log.(accepted := s.log.accepted + {v.conn}, direct := s.log.direct[v.conn := w]))
    ensures Sound(t)
  {
    hide Inv, Threads, Drains, Delivered, NextDeadline, Books, Ordered;
    At(s, w);
    Local(s, t, w);
    BooksDirect(s.log, s.pool.waiting, v.conn, w, s.pool.waitTimeouts + s.pool.waitCanceled);
    DeliveredHanded(s, t, w, v.conn);
    OrderedSame(s.log, t.log, s.pool.waiting);
  }

  lemma AcceptDirect(s: System, v: Visitor, w: nat)
    requires Sound(s) && v.conn !in s.log.refused && v.conn !in s.log.accepted
    requires forall id :: id in s.pool.idle ==> id in s.pool.workers
    requires Dispatch(s.pool, v, Outside(s)).1 == Direct(w) && Inv(AcceptStep(s, v).pool)
    ensures Sound(AcceptStep(s, v))
  {
    hide Inv, Threads, Drains, Delivered, NextDeadline, Dispatch, Books, Ordered;
    TouchDispatch(s.pool, v, Outside(s));
    KeysAgree(s);
    DirectKeeps(s, AcceptStep(s, v), v, w);
  }

  lemma AcceptQueued(s: System, v: Visitor)
    requires Sound(s) && v.conn !in s.log.refused && v.conn !in s.log.accepted
    requires forall id :: id in s.pool.idle ==> id in s.pool.workers
    requires Dispatch(s.pool, v, Outside(s)).1.Queued? && Inv(AcceptStep(s, v).pool)
    ensures Sound(AcceptStep(s, v))
  {
    hide Inv, Threads, Drains, Delivered, Dispatch, Books, Ordered;
    TouchDispatch(s.pool, v, Outside(s));
    var t := AcceptStep(s, v);
    QuietStep(s, t);
    BooksQueue(s.log, s.pool.waiting, v, s.pool.waitTimeouts + s.pool.waitCanceled);
    OrderedQueue(s.log, s.pool.waiting, v);
    DeliveredSame(s, t);
  }

  lemma AcceptRefused(s: System, v: Visitor)
    requires Sound(s) && v.conn !in s.log.refused && v.conn !in s.log.accepted
    requires forall id :: id in s.pool.idle ==> id in s.pool.workers
    requires var o := Dispatch(s.pool, v, Outside(s)).1; !o.Queued? && !o.Direct? && Inv(AcceptStep(s, v).pool)
    ensures Sound(AcceptStep(s, v))
  {
    hide Inv, Threads, Drains, Delivered, Dispatch, Books, Ordered;
    TouchDispatch(s.pool, v, Outside(s));
    var t := AcceptStep(s, v);
    QuietStep(s, t);
    BooksRefuse(s.log, s.pool.waiting, v.conn, s.pool.waitTimeouts + s.pool.waitCanceled);
    DeliveredSame(s, t);
    OrderedSame(s.log, t.log, s.pool.waiting);
  }

  lemma AcceptKeeps(s: System, v: Visitor)
    requires Sound(s) && v.conn !in s.log.refused && v.conn !in s.log.accepted
    requires forall id :: id in s.pool.idle ==> id in s.pool.workers
    ensures Sound(AcceptStep(s, v))
  {
    FreshConn(s, v.conn);
    InvDispatch(s.pool, v, Outside(s));
    hide Sound, Inv, Dispatch;
    match Dispatch(s.pool, v, Outside(s)).1 {
      case Direct(w) => AcceptDirect(s, v, w);
      case Queued => AcceptQueued(s, v);
      case _ => AcceptRefused(s, v);
    }
  }

  lemma KeysAgree(s: System)
    requires Threads(s)
    ensures s.threads.Keys == s.pool.workers.Keys
  {
  }

  lemma OrderedSame(log: Log, t: Log, waiting: seq<Visitor>)
    requires Ordered(log, waiting) && t.served == log.served && t.arrived == log.arrived
    ensures Ordered(t, waiting)
  {
  }

  /** A step that touches no worker. */
  lemma QuietStep(s: System, t: System)
    requires Threads(s) && Drains(s)
    requires t.threads == s.threads && t.pool.workers == s.pool.workers && t.pool.live == s.pool.live
    requires t.pool.stopping == s.pool.stopping && t.stopTodo == s.stopTodo
    requires t.forceTodo == s.forceTodo && t.drained == s.drained
    ensures Threads(t) && Drains(t)
  {
  }

  /** Withdraw takes one visitor out of the middle of the queue. */
  lemma TouchWithdraw(p: Pool, v: Visitor, env: Env)
    requires Withdraw(p, v, env).1
    ensures var i, w, q := Place(p.waiting, v.conn), p.waiting, Withdraw(p, v, env).0;
            && i < |w| && w[i].conn == v.conn && w == w[..i] + [w[i]] + w[i + 1..]
            && q == p.(waiting := w[..i] + w[i + 1..], pending := p.pending - 1,
                       waitTimeouts := q.waitTimeouts, waitCanceled := q.waitCanceled)
            && q.waitTimeouts + q.waitCanceled == p.waitTimeouts + p.waitCanceled + 1
  {
  }

  lemma CallbackKeeps(s: System, conn: nat)
    requires Sound(s)
    ensures Sound(CallbackStep(s, conn))
  {
    hide Inv, Threads, Drains, Delivered, Conns, Books, Ordered, Distinct, Late, Withdraw, Place;
    var t := CallbackStep(s, conn);
    if t != s {
      var v := s.log.armed[conn];
      InvWithdraw(s.pool, v, Outside(s));
      TouchWithdraw(s.pool, v, Outside(s));
      QuietStep(s, t);
      DeliveredSame(s, t);
      ArmedNames(s, conn);
      CallbackVisitors(s, t, v, Place(s.pool.waiting, conn));
    }
  }

  lemma CallbackVisitors(s: System, t: System, v: Visitor, i: nat)
    requires Sound(s) && v.conn in s.log.armed && s.log.armed[v.conn] == v && i < |s.pool.waiting|
    requires s.pool.waiting[i].conn == v.conn
    requires s.pool.waiting == s.pool.waiting[..i] + [s.pool.waiting[i]] + s.pool.waiting[i + 1..]
    requires t.pool.waiting == s.pool.waiting[..i] + s.pool.waiting[i + 1..]
    requires t.pool.waitTimeouts + t.pool.waitCanceled == s.pool.waitTimeouts + s.pool.waitCanceled + 1
    requires t.log == s.log.(dropped := s.log.dropped + {v.conn})
    ensures Accounted(t) && InOrder(t)
  {
    hide Inv, Threads, Drains, Delivered, Conns, Books, Ordered, Distinct;
    var w := s.pool.waiting;
    QueueDistinct(s.pool);
    NamesOne(w[i]);
    BooksDrop(s.log, w[..i], [w[i]], w[i + 1..], s.pool.waitTimeouts + s.pool.waitCanceled);
    OrderedDrop(s.log, w[..i], [w[i]], w[i + 1..], t.log.dropped);
  }

  lemma ArmedNames(s: System, conn: nat)
    requires Accounted(s) && conn in s.log.armed
    ensures s.log.armed[conn].conn == conn
  {
  }

  lemma StopKeeps(s: System)
    requires Sound(s)
    ensures Sound(StopStep(s))
  {
    hide Inv, Drains, Threads, Delivered, Conns, Books, Ordered, Distinct;
    var t := StopStep(s);
    if t != s {
      InvStop(s.pool);
      var w := s.pool.waiting;
      QueueDistinct(s.pool);
      StopDrains(s);
      var none: seq<Visitor> := [];
      assert w == none + w + none && none + none == none;
      BooksDrop(s.log, none, w, none, s.pool.waitTimeouts + s.pool.waitCanceled);
      OrderedDrop(s.log, none, w, none, t.log.dropped);
      DeliveredSame(s, t);
    }
  }

  lemma StopDrains(s: System)
    requires Threads(s) && Drains(s) && Inv(s.pool) && !s.pool.stopping
    ensures Threads(StopStep(s)) && Drains(StopStep(s))
  {
    hide Names, Ascending, Distinct, NextDeadline;
  }

  lemma OtherKeeps(s: System, e: Event)
    requires Sound(s) && (e.Tick? || e.Cancel? || e.ForcePool?)
    requires forall id :: id in s.pool.idle ==> id in s.pool.workers
    ensures Sound(PoolStep(s, e))
  {
    hide Inv, Accounted, Delivered, InOrder;
    VisitorsFrame(s, PoolStep(s, e));
  }

  // ---- Runs ---------------------------------------------------------------

  lemma WorkerStepKeeps(s: System, e: Event, id: nat)
    requires Sound(s) && Subject(e) == Some(id) && id in s.threads && id in s.pool.workers
    ensures Sound(WorkerStep(s, e, id))
  {
    hide Inv, Threads, Drains, Accounted, Delivered, InOrder, IdleStep, EnterStep, PollStep, TokenStep,
         TimerStep, TakeStep, LeaveStep, ReleaseStep, CloseStep, CloseConnStep;
    match e {
      case GoIdle(_, draw) => if CallsIdle(s.threads[id].pc) { IdleKeeps(s, id, draw); }
      case EnterNext(_) => EnterKeeps(s, id);
      case PollMail(_) => PollKeeps(s, id);
      case TakeToken(_) => TokenKeeps(s, id);
      case BeatFires(_) => TimerKeeps(s, id, Beat);
      case LapseFires(_) => TimerKeeps(s, id, Lapse);
      case TakeCheck(_) => TakeKeeps(s, id, Beat, Checking, Checked);
      case TakeExpire(_) => TakeKeeps(s, id, Lapse, Expiring, Gone);
      case NextCanceled(_) => LeaveKeeps(s, id, true);
      case Release(_) => ReleaseKeeps(s, id);
      case Abandon(_) => LeaveKeeps(s, id, false);
      case Close(_) => CloseKeeps(s, id);
      case CloseConn(_) => CloseConnKeeps(s, id);
      case StopNext(_) =>
        if id in s.stopTodo {
          CloseKeeps(s, id);
          ListDone(CloseStep(s, id), WorkerStep(s, e, id), id);
        }
      case ForceNext(_) =>
        if id in s.forceTodo {
          CloseKeeps(s, id);
          ListDone(CloseStep(s, id), WorkerStep(s, e, id), id);
        }
    }
  }

  /** A closed worker may be struck off Stop's and Force's lists. */
  lemma ListDone(s: System, t: System, id: nat)
    requires Sound(s) && id !in s.pool.live
    requires t == s.(stopTodo := t.stopTodo, forceTodo := t.forceTodo)
    requires t.stopTodo == s.stopTodo - {id} || t.stopTodo == s.stopTodo
    requires t.forceTodo == s.forceTodo - {id} || t.forceTodo == s.forceTodo
    ensures Sound(t)
  {
    hide Inv, Accounted, Delivered, InOrder;
    assert Threads(t);
    assert Drains(t);
    hide Threads, Drains;
    VisitorsFrame(s, t);
  }

  lemma IdleKnown(p: Pool)
    requires Inv(p)
    ensures forall id :: id in p.idle ==> id in p.workers
  {
  }

  lemma StepKeeps(s: System, e: Event)
    requires Sound(s)
    ensures forall id :: id in s.pool.idle ==> id in s.pool.workers
    ensures Sound(Step(s, e))
  {
    hide Inv, Threads, Drains, Accounted, Delivered, InOrder, WorkerStep, AcceptStep, CallbackStep, StopStep,
         EnrollStep;
    IdleKnown(s.pool);
    match Subject(e) {
      case Some(id) => if id in s.threads && id in s.pool.workers { WorkerStepKeeps(s, e, id); }
      case None =>
        match e {
          case Enroll(id, opts, draw) => EnrollKeeps(s, id, opts, draw);
          case Accept(conn, ctx, deadline) =>
            if conn !in s.log.refused && conn !in s.log.accepted { AcceptKeeps(s, Visitor(conn, ctx, deadline)); }
          case Callback(conn) => CallbackKeeps(s, conn);
          case StopPool => StopKeeps(s);
          case _ => OtherKeeps(s, e);
        }
    }
  }

  /** A run from a sound state; every state on the way is sound. */
  ghost function Run(s: System, es: seq<Event>): System
    requires Sound(s)
    decreases |es|
  {
    hide Sound, Step;
    if es == [] then s else StepKeeps(s, es[0]); Run(Step(s, es[0]), es[1..])
  }

  lemma {:induction false} RunSound(s: System, es: seq<Event>)
    requires Sound(s)
    ensures Sound(Run(s, es))
    decreases |es|
  {
    hide Sound, Step;
    if es != [] {
      StepKeeps(s, es[0]);
      RunSound(Step(s, es[0]), es[1..]);
    }
  }

  lemma InitialSound(maxPending: int, now: int)
    ensures Sound(Initial(maxPending, now))
  {
    var s := Initial(maxPending, now);
    assert Conns([]) == [] && Names([]) == {};
    assert forall c: nat :: Home(s.log, Names([]), c);
  }

  /** The state after any events on a new pool. */
  ghost function Reach(maxPending: int, now: int, es: seq<Event>): System {
    InitialSound(maxPending, now);
    Run(Initial(maxPending, now), es)
  }

  lemma ReachSound(maxPending: int, now: int, es: seq<Event>)
    ensures Sound(Reach(maxPending, now, es))
  {
    hide Sound, Run;
    InitialSound(maxPending, now);
    RunSound(Initial(maxPending, now), es);
  }

  lemma {:induction false} RunLonger(s: System, es: seq<Event>, e: Event)
    requires Sound(s)
    ensures Sound(Run(s, es)) && (forall id :: id in Run(s, es).pool.idle ==> id in Run(s, es).pool.workers)
    ensures Run(s, es + [e]) == Step(Run(s, es), e)
    decreases |es|
  {
    hide Sound, Step;
    RunSound(s, es);
    StepKeeps(Run(s, es), e);
    if es == [] {
      assert Run(Step(s, e), []) == Step(s, e);
      assert ([] + [e])[1..] == [];
    } else {
      StepKeeps(s, es[0]);
      RunLonger(Step(s, es[0]), es[1..], e);
      assert (es + [e])[1..] == es[1..] + [e];
    }
  }

  lemma ReachLonger(maxPending: int, now: int, es: seq<Event>, e: Event)
    ensures var s := Reach(maxPending, now, es);
            && Sound(s) && (forall id :: id in s.pool.idle ==> id in s.pool.workers)
            && Reach(maxPending, now, es + [e]) == Step(s, e)
  {
    hide Sound, Step, Run;
    InitialSound(maxPending, now);
    RunLonger(Initial(maxPending, now), es, e);
  }

  // ---- Main results -------------------------------------------------------

  /** Structure: every step of every run keeps the pool's redundant views in
      agreement, and nobody waits while a worker is idle. */
  lemma Structure(maxPending: int, now: int, es: seq<Event>)
    ensures var p := Reach(maxPending, now, es).pool;
            && (forall id :: id in p.workers ==> WorkerOk(p.workers[id]))
            && (forall id :: id in p.live <==> id in p.workers && p.workers[id].state != Closed)
            && (forall id :: id in p.idle <==> id in p.workers && p.workers[id].state == Idle)
            && Ascending(p.idle)
            && p.pending == |p.waiting| && (p.pending > 0 ==> p.pending <= p.pendingMax)
            && (p.waiting == [] || p.idle == [])
            && (p.stopping ==> p.waiting == [])
  {
    hide Reach, Run, Threads, Drains, Accounted, Delivered, InOrder;
    ReachSound(maxPending, now, es);
  }

  /** Conservation: every visitor Dispatch was given is refused, or handed to
      one worker directly or from the queue, or dropped, or still waiting. */
  lemma Conservation(maxPending: int, now: int, es: seq<Event>)
    ensures var s := Reach(maxPending, now, es); var log := s.log;
            && log.refused !! log.accepted
            && log.accepted == log.direct.Keys + log.queued.Keys + log.dropped + Names(s.pool.waiting)
            && |log.accepted| == |log.direct| + |log.queued| + s.pool.pending
                                 + s.pool.waitTimeouts + s.pool.waitCanceled
  {
    hide Reach, Run, Threads, Drains, Delivered, InOrder, Names;
    ReachSound(maxPending, now, es);
    var s := Reach(maxPending, now, es);
    NamesSize(s.pool.waiting);
    SetsOf(s.log, Names(s.pool.waiting));
  }

  lemma SetsOf(log: Log, waiting: set<nat>)
    requires forall c: nat :: Home(log, waiting, c)
    ensures log.refused !! log.accepted
    ensures log.accepted == log.direct.Keys + log.queued.Keys + log.dropped + waiting
    ensures |log.accepted| == |log.direct| + |log.queued| + |log.dropped| + |waiting|
  {
    forall c: nat
      ensures c in log.accepted <==> c in log.direct.Keys || c in log.queued.Keys || c in log.dropped || c in waiting
      ensures c in log.direct.Keys ==> c !in log.queued.Keys && c !in log.dropped && c !in waiting
      ensures c in log.queued.Keys ==> c !in log.dropped && c !in waiting
      ensures c in log.dropped ==> c !in waiting
      ensures c in log.refused ==> c !in log.accepted
    {
      assert Home(log, waiting, c);
    }
    FourParts(log.accepted, log.direct.Keys, log.queued.Keys, log.dropped, waiting);
  }

  lemma FourParts(u: set<nat>, a: set<nat>, b: set<nat>, c: set<nat>, d: set<nat>)
    requires forall x: nat :: x in u <==> x in a || x in b || x in c || x in d
    requires a !! b !! c !! d
    ensures u == a + b + c + d && |u| == |a| + |b| + |c| + |d|
  {
    var ab, cd := a + b, c + d;
    assert ab !! cd && u == ab + cd;
  }

  /** Delivery: a visitor handed to a worker is in that worker's mailbox until
      its Next returns it or its closing cuts it off, never both, and only
      visitors handed over are ever taken. */
  lemma Delivery(maxPending: int, now: int, es: seq<Event>, c: nat)
    ensures var s := Reach(maxPending, now, es); var h := Handoffs(s.log);
            && !(c in s.log.taken && c in s.log.cut)
            && (c in h ==>
                  (c in s.log.taken || c in s.log.cut
                   <==> !(h[c] in s.pool.workers && s.pool.workers[h[c]].mailbox == Some(c))))
            && (c !in h ==> c !in s.log.taken && c !in s.log.cut)
            && (forall id :: id in s.pool.workers && s.pool.workers[id].mailbox == Some(c) ==> c in h && h[c] == id)
  {
    hide Reach, Run, Inv, Threads, Drains, Accounted, InOrder, Handoffs;
    ReachSound(maxPending, now, es);
    var s := Reach(maxPending, now, es);
    assert Delivered(s);
  }

  /** No overtaking: visitors served from the queue, followed by those still
      queued, are in their order of arrival. */
  lemma NoOvertaking(maxPending: int, now: int, es: seq<Event>)
    ensures var s := Reach(maxPending, now, es);
            Subsequence(s.log.served + Conns(s.pool.waiting), s.log.arrived)
  {
    hide Reach, Run, Inv, Threads, Drains, Accounted, Delivered, Subsequence, Conns;
    ReachSound(maxPending, now, es);
  }

  /** No lost wakeup: a worker blocked in Next with mail, or closed, has its
      token; one blocked idle in a stopping pool is on Stop's list. */
  lemma NoLostWakeup(maxPending: int, now: int, es: seq<Event>, id: nat)
    ensures var s := Reach(maxPending, now, es);
            id in s.threads && s.threads[id].pc.Blocked? ==>
              && id in s.pool.workers
              && var w := s.pool.workers[id];
                 && (w.mailbox.Some? || w.state == Closed ==> w.wake)
                 && (w.state == Idle && s.pool.stopping ==> id in s.stopTodo)
  {
    hide Reach, Run, Inv, Threads, Drains, Accounted, Delivered, InOrder, NextDeadline;
    ReachSound(maxPending, now, es);
    var s := Reach(maxPending, now, es);
    if id in s.threads {
      At(s, id);
    }
  }

  /** closeConn runs exactly once for a closed worker, however Closed, Stop and
      Force race: it was called, or the one goroutine that closed the worker is
      about to call it. An open worker's connection is never closed. */
  lemma ClosedOnce(maxPending: int, now: int, es: seq<Event>, id: nat)
    ensures var s := Reach(maxPending, now, es);
            id in s.threads ==>
              && id in s.pool.workers
              && s.threads[id].owed + s.threads[id].closes == (if s.pool.workers[id].state == Closed then 1 else 0)
  {
    hide Reach, Run, Inv, Threads, Drains, Accounted, Delivered, InOrder, NextDeadline;
    ReachSound(maxPending, now, es);
    var s := Reach(maxPending, now, es);
    if id in s.threads {
      At(s, id);
    }
  }

  /** Shutdown: once Stop has closed all it collected, only workers carrying a
      lease are left; once Force was called after Stop and has closed all it
      collected, none is. */
  lemma Shutdown(maxPending: int, now: int, es: seq<Event>)
    ensures var s := Reach(maxPending, now, es); var p := s.pool;
            && (p.stopping ==> p.waiting == [])
            && (p.stopping && s.stopTodo == {} ==> (forall id :: id in p.live ==>
                  id in p.workers && (p.workers[id].state == Leased || p.workers[id].state == Releasing)))
            && (s.drained && s.forceTodo == {} ==> p.live == {})
  {
    hide Reach, Run, Threads, Accounted, Delivered, InOrder;
    ReachSound(maxPending, now, es);
    var s := Reach(maxPending, now, es);
    assert Inv(s.pool) && Drains(s);
  }
}
