/** The whole service does work: in every configuration there are runs in which
    a connection is dialed, registers, serves any number of visitors one after
    the other, and is closed as surplus. */
module Scenario {
  import opened Bytes
  import opened Protocol
  import S = PoolSpec
  import P = PoolSystem
  import C = ClientSystem
  import L = Lease
  import opened Tunnel
  import opened TunnelSafety

  const OPTS: S.Options := S.Options(1_000_000_000, 1_000_000_000, 0, 1_000_000_000, 0)
  const NONCE: seq<byte> := [0, 0, 0, 0, 0, 0, 0, 0]

  ghost predicate Reachable(c: Setup, s: System) {
    Proper(c) && exists es :: s == Reach(c, es)
  }

  lemma {:induction false} RunLonger(s: System, es: seq<Event>, e: Event)
    requires TunnelSafety.Sound(s)
    ensures forall id :: id in Run(s, es).server.pool.idle ==> id in Run(s, es).server.pool.workers
    ensures Run(s, es + [e]) == Step(Run(s, es), e)
    decreases |es|
  {
    hide TunnelSafety.Sound, Step;
    RunSound(s, es);
    StepKeeps(Run(s, es), e);
    if es == [] {
      assert Run(Step(s, e), []) == Step(s, e);
      assert ([] + [e])[1..] == [];
    } else {
      StepKeeps(s, es[0]);
      RunLonger(Step(s, es[0]), es[1..], e);
      assert (es + [e])[1..] == es[1..] + [e];
    }
  }

  lemma Next(c: Setup, s: System, e: Event) returns (t: System)
    requires Reachable(c, s)
    ensures forall id :: id in s.server.pool.idle ==> id in s.server.pool.workers
    ensures t == Step(s, e) && Reachable(c, t)
  {
    hide TunnelSafety.Sound, Step, Run;
    var es :| s == Reach(c, es);
    InitialSound(c.maxPending, c.serverNow, c.minIdle, c.maxIdle, c.zero, c.clientNow);
    RunLonger(Initial(c.maxPending, c.serverNow, c.minIdle, c.maxIdle, c.zero, c.clientNow), es, e);
    assert Step(s, e) == Reach(c, es + [e]);
    t := Step(s, e);
  }

  // ---- The three parts of connection 1 ------------------------------------

  /** Its slot, when no other goroutine of the client's got anywhere. */
  ghost predicate OnClient(t: C.System, pc: C.Pc) {
    && 1 in t.pcs && t.pcs[1] == pc && 1 in t.acct.slots && !t.acct.stopping
    && 1 <= t.acct.minIdle <= t.acct.maxIdle
    && t.acct.idle == (if pc.Idling? then 1 else 0)
    && t.acct.connecting == (if pc.Dialing? || pc.Shaking? then t.acct.minIdle else t.acct.minIdle - 1)
  }

  /** Its worker, in a pool that has no other; `seen` visitors came so far. */
  ghost predicate OnServer(t: P.System, pc: P.Pc, state: S.WState, mailbox: Option<nat>, seen: set<nat>) {
    && 1 in t.threads && t.threads[1].pc == pc
    && 1 in t.pool.workers
    && (var w := t.pool.workers[1];
        && w.opts == OPTS && w.state == state && w.mailbox == mailbox && w.dies > t.now
        && w.linked == (state == S.Idle))
    && t.pool.idle == (if state == S.Idle then [1] else [])
    && t.pool.waiting == [] && !t.pool.stopping
    && t.log.refused == {} && t.log.accepted == seen && t.cancelled == {}
  }

  /** Nobody has a worker yet. */
  ghost predicate Untouched(t: P.System) {
    && t.threads == map[] && t.pool.workers == map[] && t.pool.idle == []
    && t.pool.waiting == [] && !t.pool.stopping
    && t.log.refused == {} && t.log.accepted == {} && t.cancelled == {}
  }

  /** The connection itself, both ends alive. */
  ghost predicate Linked(l: L.Link, k: L.Core) {
    l.sAlive && l.cAlive && l.core == k
  }

  /** The core of a connection after `n` leases in a phase that belongs to no
      lease, with nothing under way. */
  function Quiet(k: L.Server, m: L.Client, n: uint64): L.Core {
    L.Core(k, n, m, n, [], [])
  }

  // ---- I/O ----------------------------------------------------------------

  predicate May(s: System, io: L.Event)
    requires 1 in s.links
  {
    if L.ByClient(io) then ClientIOMay(s, 1, io) else ServerMay(s, 1, io)
  }

  /** I/O moves the connection and nothing else. */
  lemma Talk(c: Setup, s: System, io: L.Event) returns (t: System)
    requires Reachable(c, s) && 1 in s.links && May(s, io)
    ensures Reachable(c, t) && t == s.(links := s.links[1 := L.Step(s.links[1], io)])
    ensures L.ByClient(io) ==> t.links[1].core.server == s.links[1].core.server
  {
    OtherSide(s.links[1], io);
    hide Reachable, Step, L.Step, ClientIOMay, ServerMay;
    var e := if L.ByClient(io) then ClientIO(1, io) else ServerIO(1, io);
    t := Next(c, s, e);
    Talks(s, io, e);
  }

  lemma Talks(s: System, io: L.Event, e: Event)
    requires 1 in s.links && May(s, io) && e == if L.ByClient(io) then ClientIO(1, io) else ServerIO(1, io)
    requires forall id :: id in s.server.pool.idle ==> id in s.server.pool.workers
    ensures Step(s, e) == s.(links := s.links[1 := L.Step(s.links[1], io)])
  {
    hide L.Step, ClientIOMay, ServerMay;
  }

  // ---- The connection alone -----------------------------------------------

  lemma LinkHello(l: L.Link)
    requires Linked(l, Quiet(L.SHello, L.CStart, 0))
    ensures Linked(L.Step(l, L.CHello([0])), L.Core(L.SHello, 0, L.CAwaitOk, 0, [Frame(HELLO, 0, [0])], []))
  {
  }

  lemma LinkWelcome(l: L.Link)
    requires Linked(l, Quiet(L.SAccepting, L.CAwaitOk, 0))
    ensures Linked(L.Step(L.Step(l, L.SWrite), L.CRead), Quiet(L.SAwaitReady, L.CRegistered, 0))
  {
    assert L.Step(l, L.SWrite).core.down == [L.Control(HELLO_OK, 0)];
  }

  lemma LinkReady(l: L.Link)
    requires Linked(l, Quiet(L.SAwaitReady, L.CRegistered, 0))
    ensures Linked(L.Step(L.Step(l, L.CWrite), L.SRead(None)), Quiet(L.SPooled, L.CIdle, 0))
  {
    assert L.Step(l, L.CWrite).core.up == [L.Control(READY, 0)];
  }

  lemma LinkOpen(l: L.Link, id: uint64)
    requires 0 < id && Linked(l, L.Core(L.SOpening(id), id, L.CIdle, id - 1, [], []))
    ensures Linked(L.Step(L.Step(l, L.SWrite), L.CRead), Quiet(L.SAwaitOpen(id), L.CDialing(id), id))
  {
    assert L.Step(l, L.SWrite).core.down == [L.Control(OPEN, id)];
  }

  lemma LinkDial(l: L.Link, id: uint64)
    requires Linked(l, Quiet(L.SAwaitOpen(id), L.CDialing(id), id))
    ensures Linked(L.Step(l, L.CDial(true)), Quiet(L.SAwaitOpen(id), L.CAnswering(id, true), id))
  {
  }

  lemma LinkAnswer(l: L.Link, id: uint64)
    requires Linked(l, Quiet(L.SAwaitOpen(id), L.CAnswering(id, true), id))
    ensures Linked(L.Step(L.Step(l, L.CWrite), L.SRead(None)),
                   Quiet(L.SRelay(id, false, false), L.CRelay(id, false, false), id))
  {
    assert L.Step(l, L.CWrite).core.up == [L.Control(OPEN_OK, id)];
  }

  /** The client's end of the stream, after one octet. */
  lemma LinkUp(l: L.Link, id: uint64)
    requires Linked(l, Quiet(L.SRelay(id, false, false), L.CRelay(id, false, false), id))
    ensures Linked(L.Step(L.Step(l, L.CData([0])), L.SRead(None)),
                   Quiet(L.SRelay(id, false, false), L.CRelay(id, false, false), id))
    ensures Linked(L.Step(L.Step(l, L.CFin), L.SRead(None)),
                   Quiet(L.SRelay(id, false, true), L.CRelay(id, true, false), id))
  {
    assert L.Step(l, L.CData([0])).core.up == [Frame(DATA, id, [0])];
    assert L.Step(l, L.CFin).core.up == [L.Control(FIN, id)];
  }

  lemma LinkDown(l: L.Link, id: uint64)
    requires Linked(l, Quiet(L.SRelay(id, false, true), L.CRelay(id, true, false), id))
    ensures Linked(L.Step(L.Step(l, L.SFin), L.CRead), Quiet(L.SRelay(id, true, true), L.CRelay(id, true, true), id))
  {
    assert L.Step(l, L.SFin).core.down == [L.Control(FIN, id)];
  }

  lemma LinkEnds(l: L.Link, id: uint64)
    requires Linked(l, Quiet(L.SRelay(id, true, true), L.CRelay(id, true, true), id))
    ensures Linked(L.Step(L.Step(l, L.SRunEnds), L.CRunEnds), Quiet(L.SReleasing(id), L.CAwaitRelease(id), id))
  {
  }

  lemma LinkRelease(l: L.Link, id: uint64)
    requires Linked(l, Quiet(L.SReleasing(id), L.CAwaitRelease(id), id))
    ensures Linked(L.Step(L.Step(l, L.SWrite), L.CRead), Quiet(L.SAwaitBarrier(id), L.CDeciding(id), id))
  {
    assert L.Step(l, L.SWrite).core.down == [L.Control(RELEASE, id)];
  }

  lemma LinkReturn(l: L.Link, id: uint64)
    requires Linked(l, Quiet(L.SAwaitBarrier(id), L.CReturning(id), id))
    ensures Linked(L.Step(L.Step(l, L.CWrite), L.SRead(None)), Quiet(L.SPooled, L.CIdle, id))
  {
    assert L.Step(l, L.CWrite).core.up == [L.Control(READY, id)];
  }

  lemma LinkClose(l: L.Link, id: uint64)
    requires Linked(l, Quiet(L.SAwaitBarrier(id), L.CSurplus(id), id))
    ensures Linked(L.Step(L.Step(l, L.CWrite), L.SRead(None)), Quiet(L.SDone(L.ClientClosed), L.CDone(L.Surplus), id))
  {
    assert L.Step(l, L.CWrite).core.up == [L.Control(CLOSE, 0)];
  }

  // ---- Registration -------------------------------------------------------

  lemma Dials(s: System)
    requires s.client.ctl.Top? && s.client.acct.notBefore <= s.client.now && !s.client.cancelled
    requires !s.client.acct.stopping && 1 <= s.client.acct.minIdle <= s.client.acct.maxIdle
    requires s.client.acct.idle == s.client.acct.connecting == 0
    requires s.client.pcs == map[] && s.client.acct.slots == map[] && s.client.used == {} && s.links == map[]
    ensures var t := ClientStep(s, C.CtlPass);
            && t == s.(client := t.client) && t.client.spawned > 0
            && t.client.acct == s.client.acct.(connecting := s.client.acct.minIdle)
            && t.client.pcs == map[] && t.client.used == {}
  {
  }

  lemma SlotsUp(s: System)
    requires s.client.spawned > 0 && !s.client.acct.stopping && s.links == map[] && s.server.threads == map[]
    requires 1 <= s.client.acct.minIdle <= s.client.acct.maxIdle
    requires s.client.acct.idle == 0 && s.client.acct.connecting == s.client.acct.minIdle
    requires s.client.pcs == map[] && s.client.acct.slots == map[] && s.client.used == {}
    ensures var t := ClientStep(s, C.SlotUp(1));
            && t.server == s.server && t.carries == s.carries
            && OnClient(t.client, C.Dialing) && 1 in t.links && Linked(t.links[1], Quiet(L.SHello, L.CStart, 0))
  {
  }

  lemma Connects(s: System)
    requires OnClient(s.client, C.Dialing) && 1 in s.links && Linked(s.links[1], Quiet(L.SHello, L.CStart, 0))
    ensures var t := ClientStep(s, C.DialOk(1));
            && t == s.(client := t.client, links := t.links) && OnClient(t.client, C.Shaking)
            && 1 in t.links && t.links[1] == s.links[1]
  {
  }

  lemma Accepted(s: System)
    requires 1 in s.links && Untouched(s.server)
    requires Linked(s.links[1], L.Core(L.SHello, 0, L.CAwaitOk, 0, [Frame(HELLO, 0, [0])], []))
    ensures var t := HelloStep(s, 1, OPTS, 0);
            && t.client == s.client && t.carries == s.carries && OnServer(t.server, P.Started, S.Registering, None, {})
            && 1 in t.links && Linked(t.links[1], Quiet(L.SAccepting, L.CAwaitOk, 0))
  {
  }

  lemma Counts(s: System)
    requires OnClient(s.client, C.Shaking) && 1 in s.links && Linked(s.links[1], Quiet(L.SAwaitReady, L.CRegistered, 0))
    ensures var t := ClientStep(s, C.HelloOk(1));
            && t == s.(client := t.client, links := t.links) && OnClient(t.client, C.Idling)
            && 1 in t.links && t.links[1] == s.links[1]
  {
  }

  // ---- A lease ------------------------------------------------------------

  /** A worker's step and what its goroutine does next. */
  lemma Works(s: System, e: P.Event)
    requires 1 in s.links && 1 in s.server.threads && 1 in s.server.pool.workers
    requires P.Subject(e) == Some(1) && WorkerMay(e, s.links[1])
    requires forall id :: id in s.server.pool.idle ==> id in s.server.pool.workers
    ensures var u := P.WorkerStep(s.server, e, 1);
            var l := FollowWorker(s.links[1], s.server.threads[1].pc, PcOf(u, 1), StateOf(u, 1), NONCE);
            var w := s.server.pool.workers[1];
            Step(s, Worker(e, NONCE))
            == System(u, s.client, s.links[1 := l],
                      if l.core.sLast != s.links[1].core.sLast && w.mailbox.Some? then
                        s.carries[(1, l.core.sLast) := w.mailbox.value]
                      else s.carries)
  {
    hide P.WorkerStep, FollowWorker, WorkerMay, PcOf, StateOf;
  }

  lemma GoesIdle(s: System, n: uint64, pc: P.Pc, state: S.WState, seen: set<nat>)
    requires (pc.Started? && state.Registering?) || (pc.Draining? && state.Releasing?)
    requires 1 in s.links && Linked(s.links[1], Quiet(L.SPooled, L.CIdle, n))
    requires OnServer(s.server, pc, state, None, seen)
    ensures forall id :: id in s.server.pool.idle ==> id in s.server.pool.workers
    ensures var t := Step(s, Worker(P.GoIdle(1, 0), NONCE));
            && t.client == s.client && t.carries == s.carries && OnServer(t.server, P.Returned, S.Idle, None, seen)
            && 1 in t.links && t.links[1] == s.links[1]
  {
    hide P.IdleStep, OnServer, Step;
    PoolReady(s.server, seen, pc, state);
    Works(s, P.GoIdle(1, 0));
  }

  lemma PoolReady(t: P.System, seen: set<nat>, pc: P.Pc, state: S.WState)
    requires (pc.Started? && state.Registering?) || (pc.Draining? && state.Releasing?)
    requires OnServer(t, pc, state, None, seen)
    ensures forall id :: id in t.pool.idle ==> id in t.pool.workers
    ensures 1 in t.threads && 1 in t.pool.workers && t.threads[1].pc == pc && t.pool.workers[1].opts == OPTS
    ensures var u := P.IdleStep(t, 1, 0);
            OnServer(u, P.Returned, S.Idle, None, seen) && 1 in u.threads && u.threads[1].pc.Returned?
  {
  }

  lemma EntersNext(s: System, n: uint64, seen: set<nat>)
    requires 1 in s.links && Linked(s.links[1], Quiet(L.SPooled, L.CIdle, n))
    requires OnServer(s.server, P.Returned, S.Idle, None, seen)
    ensures forall id :: id in s.server.pool.idle ==> id in s.server.pool.workers
    ensures var t := Step(s, Worker(P.EnterNext(1), NONCE));
            && t.client == s.client && t.carries == s.carries
            && OnServer(t.server, P.Polling(false), S.Idle, None, seen)
            && 1 in t.links && t.links[1] == s.links[1]
  {
    hide P.EnterStep, OnServer, Step;
    PoolEnters(s.server, seen);
    Works(s, P.EnterNext(1));
  }

  lemma PoolEnters(t: P.System, seen: set<nat>)
    requires OnServer(t, P.Returned, S.Idle, None, seen)
    ensures forall id :: id in t.pool.idle ==> id in t.pool.workers
    ensures 1 in t.threads && 1 in t.pool.workers && t.threads[1].pc.Returned?
    ensures var u := P.EnterStep(t, 1);
            OnServer(u, P.Polling(false), S.Idle, None, seen) && 1 in u.threads && u.threads[1].pc.Polling?
  {
    hide S.NextDeadline;
  }

  lemma VisitorComes(s: System, v: nat, seen: set<nat>)
    requires OnServer(s.server, P.Polling(false), S.Idle, None, seen) && v !in seen
    ensures forall id :: id in s.server.pool.idle ==> id in s.server.pool.workers
    ensures var t := Step(s, Pool(P.Accept(v, 0, s.server.now + 1)));
            && t == s.(server := t.server)
            && OnServer(t.server, P.Polling(false), S.Leased, Some(v), seen + {v})
  {
    hide P.AcceptStep, OnServer;
    PoolAccepts(s.server, S.Visitor(v, 0, s.server.now + 1), seen);
  }

  lemma PoolAccepts(t: P.System, v: S.Visitor, seen: set<nat>)
    requires OnServer(t, P.Polling(false), S.Idle, None, seen) && v.conn !in seen && v.ctx == 0 && v.deadline > t.now
    ensures forall id :: id in t.pool.idle ==> id in t.pool.workers
    ensures v.conn !in t.log.refused && v.conn !in t.log.accepted
    ensures OnServer(P.AcceptStep(t, v), P.Polling(false), S.Leased, Some(v.conn), seen + {v.conn})
  {
    hide S.Conns;
    assert S.Remove([1], 1) == [];
  }

  lemma TakesVisitor(s: System, v: nat, n: uint64, seen: set<nat>)
    requires 1 in s.links && Linked(s.links[1], Quiet(L.SPooled, L.CIdle, n)) && n < MAX_UINT64
    requires OnServer(s.server, P.Polling(false), S.Leased, Some(v), seen)
    ensures forall id :: id in s.server.pool.idle ==> id in s.server.pool.workers
    ensures var t := Step(s, Worker(P.PollMail(1), NONCE));
            && t.client == s.client && t.carries == s.carries[(1, n + 1) := v]
            && OnServer(t.server, P.Serving, S.Leased, None, seen)
            && 1 in t.links && Linked(t.links[1], L.Core(L.SOpening(n + 1), n + 1, L.CIdle, n, [], []))
  {
    hide P.PollStep, OnServer, Step;
    PoolPolls(s.server, v, seen);
    Works(s, P.PollMail(1));
  }

  lemma PoolPolls(t: P.System, v: nat, seen: set<nat>)
    requires OnServer(t, P.Polling(false), S.Leased, Some(v), seen)
    ensures forall id :: id in t.pool.idle ==> id in t.pool.workers
    ensures 1 in t.threads && 1 in t.pool.workers && t.threads[1].pc == P.Polling(false)
    ensures t.pool.workers[1].mailbox == Some(v)
    ensures var u := P.PollStep(t, 1); 1 in u.threads && 1 in u.pool.workers && u.threads[1].pc.Serving?
                                       && OnServer(u, P.Serving, S.Leased, None, seen)
  {
  }

  lemma Releases(s: System, id: uint64, seen: set<nat>)
    requires 1 in s.links && Linked(s.links[1], Quiet(L.SReleasing(id), L.CAwaitRelease(id), id))
    requires OnServer(s.server, P.Serving, S.Leased, None, seen)
    ensures forall id :: id in s.server.pool.idle ==> id in s.server.pool.workers
    ensures var t := Step(s, Worker(P.Release(1), NONCE));
            && t.client == s.client && t.carries == s.carries
            && OnServer(t.server, P.Draining, S.Releasing, None, seen) && PcOf(t.server, 1).Draining?
            && 1 in t.links && t.links[1] == s.links[1]
  {
    hide P.ReleaseStep, OnServer, Step;
    PoolReleases(s.server, seen);
    Works(s, P.Release(1));
  }

  lemma PoolReleases(t: P.System, seen: set<nat>)
    requires OnServer(t, P.Serving, S.Leased, None, seen)
    ensures forall id :: id in t.pool.idle ==> id in t.pool.workers
    ensures 1 in t.threads && 1 in t.pool.workers && t.threads[1].pc.Serving?
    ensures var u := P.ReleaseStep(t, 1);
            OnServer(u, P.Draining, S.Releasing, None, seen) && 1 in u.threads && u.threads[1].pc.Draining?
  {
  }

  lemma Opens(s: System, id: uint64)
    requires OnClient(s.client, C.Idling) && 1 in s.links
    requires Linked(s.links[1], Quiet(L.SAwaitOpen(id), L.CDialing(id), id))
    ensures var t := ClientStep(s, C.Open(1));
            && t == s.(client := t.client, links := t.links) && OnClient(t.client, C.Leasing)
            && 1 in t.links && t.links[1] == s.links[1]
  {
  }

  lemma Decides(s: System, id: uint64)
    requires OnClient(s.client, C.Leasing) && 1 in s.links
    requires Linked(s.links[1], Quiet(L.SAwaitBarrier(id), L.CDeciding(id), id))
    ensures var t := ClientStep(s, C.Decide(1));
            && t == s.(client := t.client, links := t.links) && OnClient(t.client, C.Idling)
            && 1 in t.links && Linked(t.links[1], Quiet(L.SAwaitBarrier(id), L.CReturning(id), id))
  {
  }

  /** A stopping client keeps no connection. */
  /** A stopping client keeps no connection. */
  lemma Declines(s: System, id: uint64)
    requires OnClient(s.client, C.Leasing) && 1 in s.links
    requires Linked(s.links[1], Quiet(L.SAwaitBarrier(id), L.CDeciding(id), id))
    ensures var u := ClientStep(s, C.StopClient); var t := ClientStep(u, C.Decide(1));
            && t == s.(client := t.client, links := t.links)
            && 1 in t.links && Linked(t.links[1], Quiet(L.SAwaitBarrier(id), L.CSurplus(id), id))
  {
    Stops(s);
    hide OnClient;
    Refuses(ClientStep(s, C.StopClient), id);
  }

  lemma Stops(s: System)
    requires OnClient(s.client, C.Leasing)
    ensures var t := ClientStep(s, C.StopClient);
            && t == s.(client := t.client) && t.client.acct.stopping
            && 1 in t.client.pcs && t.client.pcs[1].Leasing? && 1 in t.client.acct.slots
  {
  }

  lemma Refuses(s: System, id: uint64)
    requires s.client.acct.stopping && 1 in s.client.pcs && s.client.pcs[1].Leasing? && 1 in s.client.acct.slots
    requires 1 in s.links && Linked(s.links[1], Quiet(L.SAwaitBarrier(id), L.CDeciding(id), id))
    ensures var t := ClientStep(s, C.Decide(1));
            && t == s.(client := t.client, links := t.links)
            && 1 in t.links && Linked(t.links[1], Quiet(L.SAwaitBarrier(id), L.CSurplus(id), id))
  {
  }

  // ---- Runs ---------------------------------------------------------------

  /** Connection 1 with the pool after `n` leases; `seen` visitors came. */
  ghost predicate Pooled(s: System, n: uint64, seen: set<nat>) {
    && OnClient(s.client, C.Idling) && 1 in s.links && Linked(s.links[1], Quiet(L.SPooled, L.CIdle, n))
    && (if n == 0 then OnServer(s.server, P.Started, S.Registering, None, seen)
        else OnServer(s.server, P.Draining, S.Releasing, None, seen))
  }

  lemma Starts(c: Setup) returns (s: System)
    requires Proper(c)
    ensures Reachable(c, s) && s.carries == map[] && OnClient(s.client, C.Shaking) && Untouched(s.server)
            && 1 in s.links && Linked(s.links[1], Quiet(L.SHello, L.CStart, 0))
  {
    hide Run, C.Step, P.Step, ClientStep, OnClient, Linked, TunnelSafety.Sound;
    s := Initial(c.maxPending, c.serverNow, c.minIdle, c.maxIdle, c.zero, c.clientNow);
    NoEvents(c);
    assert s == Reach(c, []);
    Dials(s);
    s := Next(c, s, Client(C.CtlPass));
    SlotsUp(s);
    s := Next(c, s, Client(C.SlotUp(1)));
    Connects(s);
    s := Next(c, s, Client(C.DialOk(1)));
  }

  lemma NoEvents(c: Setup)
    requires Proper(c)
    ensures Reach(c, []) == Initial(c.maxPending, c.serverNow, c.minIdle, c.maxIdle, c.zero, c.clientNow)
  {
    hide TunnelSafety.Sound;
  }

  lemma Registers(c: Setup) returns (s: System)
    requires Proper(c)
    ensures Reachable(c, s) && s.carries == map[] && Pooled(s, 0, {})
  {
    s := Starts(c);
    s := Joins(c, s);
    hide Reachable, Step, ClientStep, OnServer, OnClient, L.Step;
    Counts(s);
    s := NextOnClient(c, s, C.HelloOk(1));
    LinkReady(s.links[1]);
    Where(s.client, C.Idling);
    s := Talk(c, s, L.CWrite);
    s := Talk(c, s, L.SRead(None));
  }

  lemma Joins(c: Setup, u: System) returns (s: System)
    requires Reachable(c, u) && u.carries == map[] && OnClient(u.client, C.Shaking) && Untouched(u.server)
    requires 1 in u.links && Linked(u.links[1], Quiet(L.SHello, L.CStart, 0))
    ensures Reachable(c, s) && s.carries == map[] && OnClient(s.client, C.Shaking)
    ensures OnServer(s.server, P.Started, S.Registering, None, {})
    ensures 1 in s.links && Linked(s.links[1], Quiet(L.SAwaitReady, L.CRegistered, 0))
  {
    hide Reachable, Step, HelloStep, OnServer, Untouched, OnClient, L.Step;
    Where(u.client, C.Shaking);
    LinkHello(u.links[1]);
    s := Talk(c, u, L.CHello([0]));
    Accepted(s);
    s := NextHello(c, s);
    LinkWelcome(s.links[1]);
    s := Talk(c, s, L.SWrite);
    s := Talk(c, s, L.CRead);
  }

  lemma NextOnClient(c: Setup, s: System, e: C.Event) returns (t: System)
    requires Reachable(c, s)
    ensures Reachable(c, t) && t == ClientStep(s, e)
  {
    hide Reachable, ClientStep;
    t := Next(c, s, Client(e));
  }

  lemma NextHello(c: Setup, s: System) returns (t: System)
    requires Reachable(c, s) && 1 in s.links
    ensures Reachable(c, t) && t == HelloStep(s, 1, OPTS, 0)
  {
    hide Reachable, HelloStep;
    t := Next(c, s, Hello(1, OPTS, 0));
  }

  lemma Where(t: C.System, pc: C.Pc)
    requires OnClient(t, pc)
    ensures SlotPc(t, 1) == Some(pc)
  {
  }

  /** From the pool to a lease. */
  lemma Leases(c: Setup, u: System, v: nat, n: uint64, seen: set<nat>) returns (s: System)
    requires Reachable(c, u) && Pooled(u, n, seen) && n < MAX_UINT64 && v !in seen
    ensures Reachable(c, s) && s.carries == u.carries[(1, n + 1) := v] && s.client == u.client
    ensures OnServer(s.server, P.Serving, S.Leased, None, seen + {v})
    ensures 1 in s.links && Linked(s.links[1], L.Core(L.SOpening(n + 1), n + 1, L.CIdle, n, [], []))
  {
    hide Reachable, Step, OnServer, OnClient, Linked;
    GoesIdle(u, n, if n == 0 then P.Started else P.Draining, if n == 0 then S.Registering else S.Releasing, seen);
    s := Next(c, u, Worker(P.GoIdle(1, 0), NONCE));
    EntersNext(s, n, seen);
    s := Next(c, s, Worker(P.EnterNext(1), NONCE));
    VisitorComes(s, v, seen);
    s := Next(c, s, Pool(P.Accept(v, 0, s.server.now + 1)));
    TakesVisitor(s, v, n, seen + {v});
    s := Next(c, s, Worker(P.PollMail(1), NONCE));
  }

  /** From OPEN to the relay. */
  lemma Connected(c: Setup, u: System, id: uint64, seen: set<nat>) returns (s: System)
    requires Reachable(c, u) && OnClient(u.client, C.Idling) && OnServer(u.server, P.Serving, S.Leased, None, seen)
    requires 0 < id && 1 in u.links && Linked(u.links[1], L.Core(L.SOpening(id), id, L.CIdle, id - 1, [], []))
    ensures Reachable(c, s) && s.carries == u.carries && OnClient(s.client, C.Leasing)
    ensures OnServer(s.server, P.Serving, S.Leased, None, seen)
    ensures 1 in s.links && Linked(s.links[1], Quiet(L.SRelay(id, false, false), L.CRelay(id, false, false), id))
  {
    hide Reachable, Step, ClientStep, OnServer, OnClient, L.Step;
    LinkOpen(u.links[1], id);
    s := Talk(c, u, L.SWrite);
    s := Talk(c, s, L.CRead);
    Opens(s, id);
    s := NextOnClient(c, s, C.Open(1));
    Where(s.client, C.Leasing);
    LinkDial(s.links[1], id);
    s := Talk(c, s, L.CDial(true));
    LinkAnswer(s.links[1], id);
    s := Talk(c, s, L.CWrite);
    s := Talk(c, s, L.SRead(None));
  }

  /** The relay: one octet up, then FIN both ways. */
  lemma Relays(c: Setup, u: System, id: uint64) returns (s: System)
    requires Reachable(c, u) && 1 in u.links
    requires Linked(u.links[1], Quiet(L.SRelay(id, false, false), L.CRelay(id, false, false), id))
    ensures Reachable(c, s) && s == u.(links := s.links)
    ensures 1 in s.links && Linked(s.links[1], Quiet(L.SReleasing(id), L.CAwaitRelease(id), id))
  {
    hide Reachable, Step, L.Step;
    s := RelaysUp(c, u, id);
    LinkDown(s.links[1], id);
    s := Talk(c, s, L.SFin);
    s := Talk(c, s, L.CRead);
    LinkEnds(s.links[1], id);
    s := Talk(c, s, L.SRunEnds);
    s := Talk(c, s, L.CRunEnds);
  }

  lemma RelaysUp(c: Setup, u: System, id: uint64) returns (s: System)
    requires Reachable(c, u) && 1 in u.links
    requires Linked(u.links[1], Quiet(L.SRelay(id, false, false), L.CRelay(id, false, false), id))
    ensures Reachable(c, s) && s == u.(links := s.links)
    ensures 1 in s.links && Linked(s.links[1], Quiet(L.SRelay(id, false, true), L.CRelay(id, true, false), id))
  {
    hide Reachable, Step, L.Step;
    LinkUp(u.links[1], id);
    s := Talk(c, u, L.CData([0]));
    s := Talk(c, s, L.SRead(None));
    LinkUp(s.links[1], id);
    s := Talk(c, s, L.CFin);
    s := Talk(c, s, L.SRead(None));
  }

  /** RELEASE, up to the client's decision. */
  lemma Barred(c: Setup, u: System, id: uint64, seen: set<nat>) returns (s: System)
    requires Reachable(c, u) && 1 in u.links && OnServer(u.server, P.Serving, S.Leased, None, seen)
    requires Linked(u.links[1], Quiet(L.SReleasing(id), L.CAwaitRelease(id), id))
    ensures Reachable(c, s) && s.client == u.client && s.carries == u.carries
    ensures OnServer(s.server, P.Draining, S.Releasing, None, seen)
    ensures 1 in s.links && Linked(s.links[1], Quiet(L.SAwaitBarrier(id), L.CDeciding(id), id))
  {
    hide Reachable, Step, OnServer, L.Step, PcOf;
    Releases(u, id, seen);
    s := Next(c, u, Worker(P.Release(1), NONCE));
    LinkRelease(s.links[1], id);
    s := Talk(c, s, L.SWrite);
    s := Talk(c, s, L.CRead);
  }

  /** One lease, up to the client's decision. */
  lemma ServesOne(c: Setup, u: System, v: nat, n: uint64, seen: set<nat>) returns (s: System)
    requires Reachable(c, u) && Pooled(u, n, seen) && n < MAX_UINT64 && v !in seen
    ensures Reachable(c, s) && s.carries == u.carries[(1, n + 1) := v] && OnClient(s.client, C.Leasing)
    ensures OnServer(s.server, P.Draining, S.Releasing, None, seen + {v})
    ensures 1 in s.links && Linked(s.links[1], Quiet(L.SAwaitBarrier(n + 1), L.CDeciding(n + 1), n + 1))
  {
    hide Reachable, OnServer, OnClient, Linked;
    s := Leases(c, u, v, n, seen);
    s := Connected(c, s, n + 1, seen + {v});
    s := Relays(c, s, n + 1);
    s := Barred(c, s, n + 1, seen + {v});
  }

  /** READY: the connection is back with the pool. */
  lemma Returns(c: Setup, u: System, id: uint64, seen: set<nat>) returns (s: System)
    requires Reachable(c, u) && OnClient(u.client, C.Leasing) && 0 < id && 1 in u.links
    requires OnServer(u.server, P.Draining, S.Releasing, None, seen)
    requires Linked(u.links[1], Quiet(L.SAwaitBarrier(id), L.CDeciding(id), id))
    ensures Reachable(c, s) && s.carries == u.carries && Pooled(s, id, seen)
  {
    hide Reachable, Step, ClientStep, OnServer, OnClient, L.Step;
    Decides(u, id);
    s := NextOnClient(c, u, C.Decide(1));
    LinkReturn(s.links[1], id);
    s := Talk(c, s, L.CWrite);
    s := Talk(c, s, L.SRead(None));
  }

  /** CLOSE instead: the connection is surplus. */
  lemma Retires(c: Setup, u: System, id: uint64) returns (s: System)
    requires Reachable(c, u) && OnClient(u.client, C.Leasing) && 1 in u.links
    requires Linked(u.links[1], Quiet(L.SAwaitBarrier(id), L.CDeciding(id), id))
    ensures Reachable(c, s) && s.carries == u.carries
    ensures 1 in s.links && Linked(s.links[1], Quiet(L.SDone(L.ClientClosed), L.CDone(L.Surplus), id))
  {
    hide Reachable, Step, ClientStep, OnServer, OnClient, L.Step;
    Declines(u, id);
    s := NextOnClient(c, u, C.StopClient);
    s := NextOnClient(c, s, C.Decide(1));
    LinkClose(s.links[1], id);
    s := Talk(c, s, L.CWrite);
    s := Talk(c, s, L.SRead(None));
  }

  // ---- Main results -------------------------------------------------------

  /** Lease i + 1 of connection 1 was opened for visitor i. */
  ghost predicate Carried(s: System, visitors: seq<nat>)
    requires |visitors| <= MAX_UINT64
  {
    forall i :: 0 <= i < |visitors| ==> OpenedFor(s, i + 1, visitors[i])
  }

  predicate OpenedFor(s: System, n: uint64, v: nat) {
    (1, n) in s.carries && s.carries[(1, n)] == v
  }

  ghost predicate Distinct(visitors: seq<nat>) {
    forall i, j :: 0 <= i < j < |visitors| ==> visitors[i] != visitors[j]
  }

  lemma Seen(front: seq<nat>, v: nat)
    requires Distinct(front + [v])
    ensures S.Elements([]) == {} && S.Elements(front + [v]) == S.Elements(front) + {v}
    ensures v !in S.Elements(front) && Distinct(front)
  {
    var all := front + [v];
    forall i | 0 <= i < |front| ensures front[i] != v {
      assert all[i] != all[|front|];
    }
    forall i, j | 0 <= i < j < |front| ensures front[i] != front[j] {
      assert all[i] != all[j];
    }
  }

  lemma CarriedMore(s: System, t: System, front: seq<nat>, v: nat)
    requires |front| < MAX_UINT64 && Carried(s, front) && t.carries == s.carries[(1, |front| + 1) := v]
    ensures Carried(t, front + [v])
  {
    var all := front + [v];
    forall i | 0 <= i < |all| ensures OpenedFor(t, i + 1, all[i]) {
      if i < |front| {
        assert all[i] == front[i] && OpenedFor(s, i + 1, front[i]);
      }
    }
  }

  lemma {:induction false} ServesRun(c: Setup, visitors: seq<nat>) returns (s: System)
    requires Proper(c) && Distinct(visitors) && |visitors| <= MAX_UINT64
    ensures Reachable(c, s) && Carried(s, visitors) && Pooled(s, |visitors|, S.Elements(visitors))
    decreases |visitors|
  {
    hide Reachable, Pooled, OnClient, OnServer, Linked, S.Elements;
    if visitors == [] {
      Seen([], 0);
      s := Registers(c);
      assert visitors == [];
    } else {
      hide Distinct, Carried;
      var n := |visitors| - 1;
      var front, v := visitors[..n], visitors[n];
      assert visitors == front + [v];
      Seen(front, v);
      var before := ServesRun(c, front);
      s := ServesOne(c, before, v, n, S.Elements(front));
      s := Returns(c, s, n + 1, S.Elements(front) + {v});
      CarriedMore(before, s, front, v);
    }
  }

  /** The service serves: in every configuration and for any visitors, some run
      serves them one after the other on one connection, from OPEN to READY,
      and leaves it with the pool again. */
  lemma Serves(c: Setup, visitors: seq<nat>)
    requires Proper(c) && Distinct(visitors) && |visitors| <= MAX_UINT64
    ensures exists es :: Carried(Reach(c, es), visitors)
                         && Pooled(Reach(c, es), |visitors|, S.Elements(visitors))
  {
    hide Reach, Carried, Pooled;
    var s := ServesRun(c, visitors);
    var es :| s == Reach(c, es);
  }

  /** And after any number of leases it may be closed as surplus at the
      barrier. */
  lemma Closes(c: Setup, visitors: seq<nat>)
    requires Proper(c) && Distinct(visitors) && 0 < |visitors| <= MAX_UINT64
    ensures exists es :: var s := Reach(c, es);
              1 in s.links && Linked(s.links[1], Quiet(L.SDone(L.ClientClosed), L.CDone(L.Surplus), |visitors|))
  {
    hide Reach, Run, Carried, Pooled, OnClient, OnServer, Linked;
    var n := |visitors| - 1;
    var s := ServesRun(c, visitors[..n]);
    s := ServesOne(c, s, visitors[n], n, S.Elements(visitors[..n]));
    s := Retires(c, s, n + 1);
    var es :| s == Reach(c, es);
  }
}
