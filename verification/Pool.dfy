/** The pool as the server runs it: workers and waiters are objects updated
    under the pool's lock. Each method is one critical section; what its caller
    does after the unlock is returned. */
module Pool {
  import opened Bytes
  import S = PoolSpec

  class Waiter {
    const visitor: S.Visitor
    var waiting: bool

    constructor (visitor: S.Visitor)
      ensures this.visitor == visitor && waiting
    {
      this.visitor, waiting := visitor, true;
    }
  }

  class Worker {
    const ID: nat
    const opts: S.Options
    const dies: int
    var state: S.WState
    var mailbox: Option<nat>
    var business: Option<nat>
    var wake: bool        // the one-token channel
    var linked: bool      // elem is set
    var expires: int

    ghost function View(): S.Worker
      reads this
    {
      S.Worker(opts, dies, state, mailbox, business, wake, linked, expires)
    }

    constructor (id: nat, opts: S.Options, dies: int)
      ensures ID == id
      ensures View() == S.Worker(opts, dies, S.Registering, None, None, false, false, S.ZERO)
    {
      ID, this.opts, this.dies := id, opts, dies;
      state, mailbox, business, wake, linked, expires := S.Registering, None, None, false, false, S.ZERO;
    }

    /** A full channel drops the token. */
    method Notify()
      modifies this`wake
      ensures wake
    {
      wake := true;
    }
  }

  ghost function IDs(ws: seq<Worker>): (s: seq<nat>)
    ensures |s| == |ws| && forall i :: 0 <= i < |s| ==> s[i] == ws[i].ID
  {
    if ws == [] then [] else [ws[0].ID] + IDs(ws[1..])
  }

  ghost function Visitors(vs: seq<Waiter>): (s: seq<S.Visitor>)
    ensures |s| == |vs| && forall i :: 0 <= i < |s| ==> s[i] == vs[i].visitor
  {
    if vs == [] then [] else [vs[0].visitor] + Visitors(vs[1..])
  }

  class Pool {
    const pendingMax: int
    var stopping: bool
    var workers: set<Worker>
    var idle: seq<Worker>
    var waiting: seq<Waiter>
    var pending: int
    var waitTimeouts: nat
    var waitCanceled: nat
    // Every worker ever registered and every waiter ever queued.
    ghost var known: map<nat, Worker>
    ghost var queued: set<Waiter>

    /** The pool as a value. */
    ghost function Abs(): S.Pool
      reads this, known.Values
    {
      S.Pool(pendingMax, stopping, map id | id in known :: known[id].View(), set w | w in workers :: w.ID,
             IDs(idle), Visitors(waiting), pending, waitTimeouts, waitCanceled)
    }

    /** The objects hang together; the rest of the structure is S.Inv. */
    ghost predicate Linked()
      reads this, known.Values, queued
    {
      && (forall id :: id in known ==> known[id].ID == id)
      && (forall w :: w in workers ==> w.ID in known && known[w.ID] == w)
      && (forall w :: w in idle ==> w.ID in known && known[w.ID] == w)
      && (forall v :: v in queued ==> (v.waiting <==> v in waiting))
      && (forall v :: v in waiting ==> v in queued)
      && (forall i, j :: 0 <= i < j < |waiting| ==> waiting[i] != waiting[j])
    }

    ghost predicate Valid()
      reads this, known.Values, queued
    {
      Linked() && S.Inv(Abs())
    }

    constructor (maxPending: int)
      ensures Valid() && Abs() == S.New(maxPending)
      ensures known == map[] && queued == {}
    {
      pendingMax, stopping, workers, idle, waiting := maxPending, false, {}, [], [];
      pending, waitTimeouts, waitCanceled, known, queued := 0, 0, 0, map[], {};
    }

    /** Register; None is ErrStopped. */
    method Register(id: nat, opts: S.Options, now: int, draw: int) returns (w: Worker?)
      requires Valid() && id !in known && S.Drawn(opts.lifetimeJitter, draw)
      modifies this
      ensures Valid() && queued == old(queued)
      ensures w == null <==> old(stopping)
      ensures w == null ==> Abs() == old(Abs()) && known == old(known)
      ensures w != null ==> fresh(w) && w.ID == id && known == old(known)[id := w]
                            && Some(Abs()) == S.Register(old(Abs()), id, opts, now, draw)
    {
      hide S.Inv, IDs, Visitors, Linked;
      if stopping {
        return null;
      }
      ghost var p := Abs();
      S.InvRegister(p, id, opts, now, draw);
      var worker := new Worker(id, opts, S.After(now, opts.maxLifetime, draw));
      Add(worker);
      w := worker;
    }

    method Add(w: Worker)
      requires Linked() && w.ID !in known
      modifies this`workers, this`known
      ensures Linked() && known == old(known)[w.ID := w]
      ensures Abs() == S.Put(old(Abs()), w.ID, w.View()).(live := old(Abs()).live + {w.ID})
    {
      hide IDs, Visitors;
      ghost var p := Abs();
      workers := workers + {w};
      known := known[w.ID := w];
      assert Abs().workers == p.workers[w.ID := w.View()];
      assert Abs().live == p.live + {w.ID};
    }

    /** Only worker `w` may have changed since: its slot is the one difference
        between the two values' worker maps. */
    twostate lemma OnlyWorker(w: Worker)
      requires old(Linked()) && known == old(known) && w.ID in known && known[w.ID] == w
      requires forall id :: id in known && known[id] != w ==> unchanged(known[id])
      ensures Abs().workers == old(Abs().workers)[w.ID := w.View()]
    {
    }

    /** A worker whose elem is set is in the idle list, which has no
        duplicates. */
    lemma InList(w: Worker)
      requires Linked() && w.ID in known && known[w.ID] == w && w.linked
      requires S.Rostered(Abs())
      ensures w in idle && S.Ascending(Abs().idle)
    {
      assert Abs().workers[w.ID] == w.View();
      assert w.ID in IDs(idle);
    }

    /** unlinkLocked: list.Remove of the worker's element. */
    method UnlinkLocked(w: Worker)
      requires Linked() && w.ID in known && known[w.ID] == w
      requires w.linked ==> w in idle && S.Ascending(Abs().idle)
      modifies this`idle, w`linked
      ensures Linked() && Abs() == S.Unlink(old(Abs()), w.ID)
    {
      hide S.Remove, IDs, Visitors;
      if w.linked {
        ghost var p := Abs();
        var i :| 0 <= i < |idle| && idle[i] == w;
        idle := idle[..i] + idle[i + 1..];
        w.linked := false;
        OnlyWorker(w);
        RemoveAt(p.idle, i);
        assert Abs().idle == p.idle[..i] + p.idle[i + 1..];
        assert Abs().live == p.live && Abs().waiting == p.waiting;
      }
    }

    static lemma {:induction false} RemoveAt(s: seq<nat>, i: nat)
      requires S.Ascending(s) && i < |s|
      ensures S.Remove(s, s[i]) == s[..i] + s[i + 1..]
      decreases |s|
    {
      if i > 0 {
        RemoveAt(s[1..], i - 1);
        assert s[1..][..i - 1] == s[1..i] && s[1..][i - 1 + 1..] == s[i + 1..];
        assert s[..i] == [s[0]] + s[1..i];
      }
    }

    static lemma {:induction false} InsertAt(s: seq<nat>, id: nat, k: nat)
      requires k <= |s| && (forall j :: k <= j < |s| ==> s[j] > id) && (k > 0 ==> s[k - 1] <= id)
      ensures S.Insert(s, id) == s[..k] + [id] + s[k..]
      decreases |s|
    {
      if k < |s| {
        var front := s[..|s| - 1];
        InsertAt(front, id, k);
        assert front[..k] == s[..k] && front[k..] + [s[|s| - 1]] == s[k..];
      }
    }

    /** The list insertion of pushIdleLocked. */
    method Splice(w: Worker, k: nat)
      requires Linked() && w.ID in known && known[w.ID] == w && k <= |idle|
      modifies this`idle, w`linked, w`state
      ensures Linked()
      ensures var p := old(Abs());
              Abs() == S.Put(p, w.ID, S.Shelved(old(w.View()))).(idle := p.idle[..k] + [w.ID] + p.idle[k..])
    {
      hide IDs, Visitors;
      ghost var p := Abs();
      idle := idle[..k] + [w] + idle[k..];
      w.linked := true;
      w.state := S.Idle;
      OnlyWorker(w);
      assert Abs().idle == p.idle[..k] + [w.ID] + p.idle[k..];
      assert Abs().live == p.live && Abs().waiting == p.waiting;
    }

    /** pushIdleLocked: the place is looked for from the back of the list. */
    method PushIdleLocked(w: Worker)
      requires Linked() && w.ID in known && known[w.ID] == w
      modifies this`idle, w`linked, w`state
      ensures Linked() && Abs() == S.PushIdle(old(Abs()), w.ID)
    {
      hide S.Insert, IDs, Visitors;
      ghost var p := Abs();
      var k := |idle|;
      while k > 0 && idle[k - 1].ID > w.ID
        invariant 0 <= k <= |idle|
        invariant forall j :: k <= j < |idle| ==> idle[j].ID > w.ID
      {
        k := k - 1;
      }
      InsertAt(p.idle, w.ID, k);
      Splice(w, k);
    }

    /** dropLocked */
    method DropLocked(v: Waiter, env: S.Env)
      modifies this`waitCanceled, this`waitTimeouts
      ensures Abs() == S.Drop(old(Abs()), v.visitor, env)
      ensures old(Linked()) ==> Linked()
    {
      if v.visitor.ctx in env.cancelled {
        waitCanceled := waitCanceled + 1;
      } else {
        waitTimeouts := waitTimeouts + 1;
      }
    }

    /** removeLocked: a waiter leaves the queue once, wherever it stands. */
    method RemoveLocked(v: Waiter) returns (ghost i: nat)
      requires Linked() && v in queued
      modifies this`waiting, this`pending, v`waiting
      ensures Linked() && !v.waiting
      ensures i <= |old(waiting)| && (i < |old(waiting)| <==> old(v.waiting))
      ensures i == |old(waiting)| ==> Abs() == old(Abs())
      ensures i < |old(waiting)| ==> old(waiting)[i] == v && waiting == old(waiting)[..i] + old(waiting)[i + 1..]
      ensures i < |old(waiting)| ==>
                Abs() == old(Abs()).(waiting := old(Abs()).waiting[..i] + old(Abs()).waiting[i + 1..],
                                     pending := old(pending) - 1)
    {
      hide IDs, Visitors, Linked;
      Queued(v);
      if !v.waiting {
        return |waiting|;
      }
      var k :| 0 <= k < |waiting| && waiting[k] == v;
      TakeOut(v, k);
      i := k;
    }

    lemma Queued(v: Waiter)
      requires Linked() && v in queued
      ensures v.waiting <==> v in waiting
    {
    }

    /** list.Remove of the waiter's node, and the flag and count with it. */
    method TakeOut(v: Waiter, k: nat)
      requires Linked() && v in queued && k < |waiting| && waiting[k] == v
      modifies this`waiting, this`pending, v`waiting
      ensures Linked() && !v.waiting && waiting == old(waiting)[..k] + old(waiting)[k + 1..]
      ensures Abs() == old(Abs()).(waiting := old(Abs()).waiting[..k] + old(Abs()).waiting[k + 1..],
                                   pending := old(pending) - 1)
    {
      hide IDs, Visitors;
      ghost var p := Abs();
      v.waiting := false;
      waiting := waiting[..k] + waiting[k + 1..];
      pending := pending - 1;
      assert Abs().waiting == p.waiting[..k] + p.waiting[k + 1..];
    }

    /** The assignments that hand a visitor to a worker, and its wake token. */
    method Hand(w: Worker, conn: nat)
      requires Linked() && w.ID in known && known[w.ID] == w
      modifies w`state, w`mailbox, w`business, w`wake
      ensures Linked() && Abs() == S.Hand(old(Abs()), w.ID, conn)
    {
      w.state := S.Leased;
      w.mailbox := Some(conn);
      w.business := Some(conn);
      w.Notify();
      OnlyWorker(w);
    }

    /** dropLocked and removeLocked of the waiter at the front. */
    method DropFront(env: S.Env) returns (conn: nat)
      requires Linked() && |waiting| > 0
      modifies this`waiting, this`pending, this`waitCanceled, this`waitTimeouts, waiting[0]
      ensures Linked() && waiting == old(waiting)[1..] && conn == old(waiting)[0].visitor.conn
      ensures var p := old(Abs());
              Abs() == S.Drop(p.(waiting := p.waiting[1..], pending := p.pending - 1), p.waiting[0], env)
    {
      hide IDs, Visitors;
      ghost var p := Abs();
      var v := waiting[0];
      assert v in waiting;
      DropLocked(v, env);
      ghost var i := RemoveLocked(v);
      assert i == 0;
      assert p.waiting[..0] + p.waiting[1..] == p.waiting[1..];
      conn := v.visitor.conn;
    }

    /** removeLocked of the waiter at the front, which goes to `w`. */
    method ServeFront(w: Worker)
      requires Linked() && |waiting| > 0 && w.ID in known && known[w.ID] == w
      modifies this`waiting, this`pending, waiting[0], w
      ensures Linked()
      ensures var p := old(Abs());
              Abs() == S.Hand(p.(waiting := p.waiting[1..], pending := p.pending - 1), w.ID, p.waiting[0].conn)
    {
      hide IDs, Visitors, S.Hand;
      ghost var p := Abs();
      var v := waiting[0];
      assert v in waiting;
      ghost var i := RemoveLocked(v);
      assert i == 0;
      assert p.waiting[..0] + p.waiting[1..] == p.waiting[1..];
      Hand(w, v.visitor.conn);
    }

    lemma Front()
      ensures |Abs().waiting| == |waiting|
      ensures |waiting| > 0 ==> Abs().waiting[0] == waiting[0].visitor
    {
    }

    static lemma MatchUnfolds(p: S.Pool, id: nat, env: S.Env)
      requires id in p.workers
      ensures p.waiting == [] ==> S.Match(p, id, env) == (S.PushIdle(p, id), [])
      ensures p.waiting != [] ==>
                var v := p.waiting[0];
                var q := p.(waiting := p.waiting[1..], pending := p.pending - 1);
                var late := S.Match(S.Drop(q, v, env), id, env);
                S.Match(p, id, env)
                == if S.Late(v, env) then (late.0, [v.conn] + late.1) else (S.Hand(q, id, v.conn), [])
    {
    }

    /** matchLocked: drops late waiters from the front of the queue and serves
        the next one; returns the connections of those dropped. */
    method MatchLocked(w: Worker, env: S.Env) returns (expired: seq<nat>)
      requires Linked() && w.ID in known && known[w.ID] == w
      modifies this`waiting, this`pending, this`waitCanceled, this`waitTimeouts, this`idle, w, waiting
      ensures Linked() && (Abs(), expired) == S.Match(old(Abs()), w.ID, env)
    {
      hide S.Match, S.Drop, S.PushIdle, S.Hand, Linked, Abs;
      Viewed(w);
      expired := [];
      ghost var start, goal := waiting, S.Match(Abs(), w.ID, env);
      assert expired + goal.1 == goal.1;
      while |waiting| > 0
        invariant Linked() && w.ID in known && known[w.ID] == w && w.ID in Abs().workers
        invariant forall v :: v in waiting ==> v in start
        invariant goal.0 == S.Match(Abs(), w.ID, env).0
        invariant goal.1 == expired + S.Match(Abs(), w.ID, env).1
        decreases |waiting|
      {
        ghost var e := expired;
        var v := waiting[0].visitor;
        Front();
        Viewed(w);
        assert waiting[0] in waiting;
        MatchUnfolds(Abs(), w.ID, env);
        if v.ctx in env.cancelled || v.deadline <= env.now {
          var conn := DropFront(env);
          expired := expired + [conn];
          assert e + ([conn] + S.Match(Abs(), w.ID, env).1) == expired + S.Match(Abs(), w.ID, env).1;
        } else {
          ServeFront(w);
          assert expired + [] == expired;
          return;
        }
        Viewed(w);
      }
      Front();
      MatchUnfolds(Abs(), w.ID, env);
      PushIdleLocked(w);
      assert expired + [] == expired;
    }

    // ---- The pool's operations --------------------------------------------

    ghost predicate Member(w: Worker)
      reads this
    {
      w.ID in known && known[w.ID] == w
    }

    lemma Viewed(w: Worker)
      requires Linked() && Member(w)
      ensures w.ID in Abs().workers && Abs().workers[w.ID] == w.View()
    {
    }

    /** Idle, called after registration, a heartbeat or a lease. When the
        outcome is IdleStopped the caller goes on to Closed. */
    method Idle(w: Worker, env: S.Env, draw: int) returns (o: S.IdleOutcome)
      requires Valid() && Member(w) && S.MayIdle(w.View()) && S.Drawn(w.opts.idleJitter, draw)
      modifies this`waiting, this`pending, this`waitCanceled, this`waitTimeouts, this`idle, w, waiting
      ensures Valid() && (Abs(), o) == S.IdleSection(old(Abs()), w.ID, env, draw)
    {
      hide S.Inv, S.Match, S.Drawn, S.After, IDs, Visitors, Linked;
      Viewed(w);
      S.InvIdleSection(Abs(), w.ID, env, draw);
      if stopping || w.state == S.Closed {
        return S.IdleStopped;
      }
      assert Linked();
      w.business := None;
      if w.dies <= env.now {
        w.state := S.Expiring;
        StillLinked();
        OnlyWorker(w);
        return S.IdleExpired;
      }
      if w.state != S.Checking {
        w.expires := S.After(env.now, w.opts.idleTimeout, draw);
      }
      StillLinked();
      OnlyWorker(w);
      var expired := MatchLocked(w, env);
      o := S.IdleReady(expired);
    }

    /** A worker's fields other than its ID play no part in Linked. */
    twostate lemma StillLinked()
      requires old(Linked()) && known == old(known) && queued == old(queued) && workers == old(workers)
      requires idle == old(idle) && waiting == old(waiting)
      requires forall v :: v in queued ==> v.waiting == old(v.waiting)
      ensures Linked()
    {
    }

    method Releasing(w: Worker)
      requires Valid() && Member(w) && w.mailbox.None?
      modifies w`state
      ensures Valid() && Abs() == S.ReleasingSection(old(Abs()), w.ID)
    {
      hide S.Inv, IDs, Visitors;
      Viewed(w);
      S.InvReleasing(Abs(), w.ID);
      if w.state == S.Leased {
        SetState(w, S.Releasing);
      }
    }

    /** Dispatch: hands the visitor to the newest idle worker, queues it or
        refuses it. A refused connection is closed by the caller; for a queued
        one the caller arms Cancel. */
    method Dispatch(v: S.Visitor, env: S.Env) returns (o: S.DispatchOutcome, waiter: Waiter?)
      requires Valid() && (forall x :: x in waiting ==> x.visitor.conn != v.conn)
      modifies this`waiting, this`pending, this`idle, this`queued, idle
      ensures Valid() && (Abs(), o) == S.Dispatch(old(Abs()), v, env)
      ensures o.Queued? <==> waiter != null
      ensures waiter != null ==> fresh(waiter) && waiter.visitor == v && queued == old(queued) + {waiter}
      ensures waiter == null ==> queued == old(queued)
    {
      hide S.Inv, S.Unlink, S.Hand, IDs, Visitors;
      ghost var p := Abs();
      waiter := null;
      S.InvDispatch(p, v, env);
      if stopping {
        return S.ErrStopped, null;
      }
      if v.ctx in env.cancelled {
        return S.ErrCanceled, null;
      }
      if v.deadline <= env.now {
        return S.ErrExpired, null;
      }
      if |waiting| == 0 && |idle| > 0 {
        var w := idle[|idle| - 1];
        assert w in idle && p.idle[|p.idle| - 1] == w.ID;
        ListOrder();
        UnlinkLocked(w);
        Hand(w, v.conn);
        return S.Direct(w.ID), null;
      }
      if pending >= pendingMax {
        return S.ErrFull, null;
      }
      waiter := Enqueue(v);
      o := S.Queued;
    }

    /** The end of Dispatch: a new waiter joins the back of the queue. */
    method Enqueue(v: S.Visitor) returns (waiter: Waiter)
      requires Linked()
      modifies this`waiting, this`pending, this`queued
      ensures Linked() && fresh(waiter) && waiter.visitor == v && queued == old(queued) + {waiter}
      ensures Abs() == old(Abs()).(waiting := old(Abs()).waiting + [v], pending := old(pending) + 1)
    {
      hide IDs, Visitors;
      ghost var p := Abs();
      waiter := new Waiter(v);
      waiting := waiting + [waiter];
      queued := queued + {waiter};
      pending := pending + 1;
      assert Abs().waiting == p.waiting + [v];
      assert Abs().workers == p.workers;
    }

    lemma ListOrder()
      requires Valid()
      ensures S.Ascending(Abs().idle)
    {
    }

    /** The callback armed for a queued visitor. */
    method Cancel(v: Waiter, env: S.Env) returns (dropped: bool)
      requires Valid() && v in queued
      modifies this`waiting, this`pending, this`waitCanceled, this`waitTimeouts, v
      ensures Valid() && dropped == old(v.waiting) && !v.waiting
      ensures dropped ==> (Abs(), true) == S.Withdraw(old(Abs()), v.visitor, env)
      ensures !dropped ==> Abs() == old(Abs())
    {
      hide S.Inv, IDs, Visitors, Linked, S.Withdraw, S.Drop;
      if !v.waiting {
        return false;
      }
      ghost var p := Abs();
      S.InvWithdraw(p, v.visitor, env);
      DropLocked(v, env);
      ghost var i := RemoveLocked(v);
      WithdrawAt(p, i, env);
      dropped := true;
    }

    static lemma WithdrawAt(p: S.Pool, i: nat, env: S.Env)
      requires S.Inv(p) && i < |p.waiting|
      ensures var q := S.Drop(p, p.waiting[i], env);
              S.Withdraw(p, p.waiting[i], env)
              == (q.(waiting := q.waiting[..i] + q.waiting[i + 1..], pending := q.pending - 1), true)
    {
      assert S.Place(p.waiting, p.waiting[i].conn) == i;
    }

    /** takeIdleLocked */
    method TakeIdleLocked(w: Worker, s: S.WState) returns (ok: bool)
      requires Valid() && Member(w) && (s == S.Checking || s == S.Expiring)
      modifies this`idle, w`linked, w`state
      ensures Valid() && (Abs(), ok) == S.TakeIdle(old(Abs()), w.ID, s)
    {
      hide S.Inv, S.Unlink, IDs, Visitors, Linked;
      Viewed(w);
      S.InvTakeIdle(Abs(), w.ID, s);
      if w.state != S.Idle || stopping {
        return false;
      }
      Listed(w);
      UnlinkLocked(w);
      SetState(w, s);
      ok := true;
    }

    method SetState(w: Worker, s: S.WState)
      requires Linked() && Member(w)
      modifies w`state
      ensures Linked() && Abs() == S.Put(old(Abs()), w.ID, old(w.View()).(state := s))
    {
      hide IDs, Visitors;
      w.state := s;
      OnlyWorker(w);
    }

    lemma Listed(w: Worker)
      requires Valid() && Member(w)
      ensures w.linked ==> w in idle && S.Ascending(Abs().idle)
    {
      if w.linked {
        InList(w);
      }
    }

    /** The check at the top of Next's loop. */
    method Poll(w: Worker) returns (o: S.PollOutcome)
      requires Valid() && Member(w)
      modifies w`mailbox
      ensures Valid() && (Abs(), o) == S.Poll(old(Abs()), w.ID)
    {
      hide S.Inv, IDs, Visitors;
      Viewed(w);
      S.InvPoll(Abs(), w.ID);
      if w.state == S.Closed || (stopping && w.state == S.Idle) {
        return S.PollStopped;
      }
      if w.mailbox.Some? {
        o := S.PollLeased(w.mailbox.value);
        w.mailbox := None;
        OnlyWorker(w);
        return;
      }
      o := S.Wait;
    }

    /** Closed, up to the unlock: whether this call closed the worker, and the
        connections to close besides the worker's own. */
    method Closed(w: Worker) returns (first: bool, tcp: Option<nat>, business: Option<nat>)
      requires Valid() && Member(w)
      modifies this`idle, this`workers, w
      ensures Valid() && (Abs(), first) == S.CloseSection(old(Abs()), w.ID)
      ensures first ==> tcp == old(w.mailbox) && business == old(w.business)
      ensures !first ==> tcp == None && business == None
    {
      hide S.Inv, S.Unlink, IDs, Visitors;
      ghost var p := Abs();
      Viewed(w);
      S.InvClose(p, w.ID);
      Listed(w);
      first, tcp, business := false, None, None;
      if w.state == S.Closed {
        return;
      }
      first := true;
      UnlinkLocked(w);
      tcp, business := Erase(w);
      LiveKept(p, w.ID);
    }

    static lemma LiveKept(p: S.Pool, id: nat)
      requires id in p.workers
      ensures S.Unlink(p, id).live == p.live
    {
    }

    /** The rest of Closed's critical section. */
    method Erase(w: Worker) returns (tcp: Option<nat>, business: Option<nat>)
      requires Linked() && Member(w)
      modifies this`workers, w
      ensures Linked() && tcp == old(w.mailbox) && business == old(w.business)
      ensures var p := old(Abs()); var v := old(w.View());
              Abs() == S.Put(p, w.ID, v.(state := S.Closed, mailbox := None, business := None, wake := true))
                       .(live := p.live - {w.ID})
    {
      hide IDs, Visitors;
      ghost var live := Abs().live;
      w.state := S.Closed;
      workers := workers - {w};
      tcp, w.mailbox := w.mailbox, None;
      business, w.business := w.business, None;
      w.Notify();
      OnlyWorker(w);
      assert Abs().live == live - {w.ID};
    }

    /** Stop, up to the unlock: the connections of the visitors dropped, in
        queue order, and the workers that Stop goes on to close, which are those
        that carry no visitor. A second Stop finds nothing to do. */
    method Stop() returns (tcp: seq<nat>, toClose: set<Worker>)
      requires Valid()
      modifies this`stopping, this`waiting, this`pending, this`waitCanceled, waiting
      ensures Valid() && Abs() == S.StopSection(old(Abs())).0
      ensures tcp == if old(stopping) then [] else S.Conns(old(Abs()).waiting)
      ensures forall w :: w in toClose <==> !old(stopping) && w in workers && w.business.None?
      ensures forall w :: w in workers && (w.state == S.Leased || w.state == S.Releasing) ==> w !in toClose
    {
      hide S.Inv, IDs, Visitors, S.Conns, Linked;
      ghost var p := Abs();
      S.InvStop(p);
      Unoccupied();
      tcp, toClose := [], {};
      if stopping {
        return;
      }
      PendingCount();
      stopping := true;
      StillLinked();
      tcp := DropQueue();
      toClose := Collect();
      assert Abs() == S.StopSection(p).0;
    }

    /** Stop's first loop. */
    method DropQueue() returns (tcp: seq<nat>)
      requires Linked() && pending == |waiting|
      modifies this`waiting, this`pending, this`waitCanceled, waiting
      ensures Linked() && tcp == S.Conns(old(Abs()).waiting)
      ensures var p := old(Abs());
              Abs() == p.(waiting := [], pending := 0, waitCanceled := p.waitCanceled + |p.waiting|)
    {
      hide IDs, Visitors, S.Conns, Linked, Dropping;
      ghost var p, start := Abs(), waiting;
      tcp := [];
      DroppingEnds(p);
      while |waiting| > 0
        invariant Linked() && |tcp| + |waiting| == |p.waiting|
        invariant forall v :: v in waiting ==> v in start
        invariant forall i :: 0 <= i < |tcp| ==> tcp[i] == p.waiting[i].conn
        invariant Abs() == Dropping(p, |tcp|)
        decreases |waiting|
      {
        DroppingStep(p, |tcp|);
        assert Abs().waiting[0] == p.waiting[|tcp|] && waiting[0] in waiting;
        var conn := CancelFront();
        tcp := tcp + [conn];
      }
      AreConns(tcp, p.waiting);
    }

    /** The pool when Stop has dropped the first n visitors. */
    static function Dropping(p: S.Pool, n: nat): S.Pool
      requires n <= |p.waiting|
    {
      p.(waiting := p.waiting[n..], pending := p.pending - n, waitCanceled := p.waitCanceled + n)
    }

    static lemma DroppingEnds(p: S.Pool)
      ensures Dropping(p, 0) == p
      ensures Dropping(p, |p.waiting|)
              == p.(waiting := [], pending := p.pending - |p.waiting|, waitCanceled := p.waitCanceled + |p.waiting|)
    {
      assert p.waiting[0..] == p.waiting;
    }

    static lemma DroppingStep(p: S.Pool, n: nat)
      requires n < |p.waiting|
      ensures var q := Dropping(p, n);
              && q.waiting != [] && q.waiting[0] == p.waiting[n]
              && Dropping(p, n + 1)
                 == q.(waiting := q.waiting[1..], pending := q.pending - 1, waitCanceled := q.waitCanceled + 1)
    {
      assert p.waiting[n..][1..] == p.waiting[n + 1..];
    }

    static lemma AreConns(s: seq<nat>, w: seq<S.Visitor>)
      requires |s| == |w| && forall i :: 0 <= i < |s| ==> s[i] == w[i].conn
      ensures s == S.Conns(w)
    {
    }

    method CancelFront() returns (conn: nat)
      requires Linked() && |waiting| > 0
      modifies this`waiting, this`pending, this`waitCanceled, waiting[0]
      ensures Linked() && waiting == old(waiting)[1..] && conn == old(waiting)[0].visitor.conn
      ensures var p := old(Abs());
              Abs() == p.(waiting := p.waiting[1..], pending := p.pending - 1, waitCanceled := p.waitCanceled + 1)
    {
      hide IDs, Visitors;
      ghost var p := Abs();
      var v := waiting[0];
      assert v in waiting;
      waitCanceled := waitCanceled + 1;
      ghost var i := RemoveLocked(v);
      assert i == 0;
      assert p.waiting[..0] + p.waiting[1..] == p.waiting[1..];
      conn := v.visitor.conn;
    }

    /** Stop's second loop. */
    method Collect() returns (toClose: set<Worker>)
      ensures forall w :: w in toClose <==> w in workers && S.StopCloses(w.state)
    {
      toClose := {};
      var todo := workers;
      while todo != {}
        invariant todo <= workers
        invariant forall w :: w in toClose <==> w in workers && w !in todo && S.StopCloses(w.state)
        decreases todo
      {
        var w :| w in todo;
        if S.StopCloses(w.state) {
          toClose := toClose + {w};
        }
        todo := todo - {w};
      }
    }

    /** A worker of the pool has a visitor exactly while leased or releasing. */
    lemma Unoccupied()
      requires Valid()
      ensures forall w :: w in workers ==> (S.StopCloses(w.state) <==> w.business.None?)
      ensures forall w :: w in workers && (w.state == S.Leased || w.state == S.Releasing) ==> w.business.Some?
    {
      hide IDs, Visitors;
      forall w | w in workers ensures S.WorkerOk(w.View()) && w.state != S.Closed {
        Viewed(w);
        assert w.ID in Abs().live;
      }
    }

    lemma PendingCount()
      requires Valid()
      ensures Abs().pending == |waiting|
    {
    }

    /** Force, up to the unlock: every worker of the pool. */
    method Force() returns (all: set<Worker>)
      requires Valid()
      ensures all == workers && (set w | w in all :: w.ID) == Abs().live
    {
      all := workers;
    }
  }
}
