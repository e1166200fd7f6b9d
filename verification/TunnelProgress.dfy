/** No part of the service waits for another that waits for it: a connection
    with both ends alive always has a step of its own to take, or its worker
    waits for a visitor. */
module TunnelProgress {
  import opened Bytes
  import S = PoolSpec
  import P = PoolSystem
  import PS = PoolSafety
  import PP = PoolProgress
  import C = ClientSystem
  import L = Lease
  import LS = LeaseSafety
  import opened Tunnel
  import opened TunnelSafety

  const NONCE: seq<byte> := [0, 0, 0, 0, 0, 0, 0, 0]

  /** The steps the two goroutines of a connection take of themselves: no
      failure but the end of a rejected client, no closing, no cancellation,
      nothing that another connection or the pool's callers do. */
  predicate Ordinary(e: Event, id: nat, k: L.Core) {
    match e
    case Worker(p, _) => P.Subject(p) == Some(id) && (p.GoIdle? || p.EnterNext? || p.Release? || PP.NextStep(p, id))
    case ServerIO(x, io) => x == id && (io.SRead? || io.SWrite? || io.SFin? || io.SRunEnds?)
    case Client(c) =>
      C.Subject(c) == Some(id)
      && (c.DialOk? || c.HelloOk? || c.Open? || c.Decide? || c.Finishes?
          || (c.Fails? && k.client == L.CDone(L.Rejected)))
    case ClientIO(x, io) => x == id && (io.CHello? || io.CRead? || io.CDial? || io.CWrite? || io.CFin? || io.CRunEnds?)
    case _ => false
  }

  /** What the client's goroutine does next, if it can. */
  function ClientTurn(k: L.Core, pc: C.Pc, id: nat): Option<Event> {
    match k.client
    case CStart => if pc.Dialing? then Some(Client(C.DialOk(id))) else Some(ClientIO(id, L.CHello([0])))
    case CRegistered => if pc.Shaking? then Some(Client(C.HelloOk(id))) else Some(ClientIO(id, L.CWrite))
    case CDialing(_) => if pc.Idling? then Some(Client(C.Open(id))) else Some(ClientIO(id, L.CDial(true)))
    case CDeciding(_) => Some(Client(C.Decide(id)))
    case CDone(end) => if end.Rejected? then Some(Client(C.Fails(id))) else Some(Client(C.Finishes(id)))
    case CFault(_) => None
    case CRelay(_, finSent, finRead) =>
      if !finSent then Some(ClientIO(id, L.CFin))
      else if finRead then Some(ClientIO(id, L.CRunEnds))
      else if k.down != [] then Some(ClientIO(id, L.CRead))
      else None
    case _ =>
      if L.CTurn(k.client).Some? then Some(ClientIO(id, L.CWrite))
      else if k.down != [] then Some(ClientIO(id, L.CRead))
      else None
  }

  /** What the server's goroutine does next, if it can. */
  function ServerTurn(t: P.System, k: L.Core, id: nat): Option<Event>
    requires k.server.SPooled? ==> id in t.threads && id in t.pool.workers
  {
    match k.server
    case SHello => if k.up != [] then Some(ServerIO(id, L.SRead(Some([0])))) else None
    case SPooled =>
      var pc := t.threads[id].pc;
      if P.CallsIdle(pc) then Some(Worker(P.GoIdle(id, 0), NONCE))
      else if pc.Returned? then Some(Worker(P.EnterNext(id), NONCE))
      else if !P.InNext(pc) then None
      else
        (match PP.NextMove(t, id)
         case Some(e) => Some(Worker(e, NONCE))
         case None => None)
    case SReleasing(_) =>
      if PcOf(t, id).Serving? then Some(Worker(P.Release(id), NONCE)) else Some(ServerIO(id, L.SWrite))
    case SRelay(_, finSent, finRead) =>
      if !finSent then Some(ServerIO(id, L.SFin))
      else if finRead then Some(ServerIO(id, L.SRunEnds))
      else if k.up != [] then Some(ServerIO(id, L.SRead(None)))
      else None
    case _ =>
      if L.STurn(k.server).Some? then Some(ServerIO(id, L.SWrite))
      else if L.ServerReads(k.server) && k.up != [] then Some(ServerIO(id, L.SRead(None)))
      else None
  }

  /** The two phases never both wait for a frame. */
  lemma SomeoneTurns(t: P.System, k: L.Core, pc: C.Pc, id: nat)
    requires LS.Coupled(k) && !k.server.SPooled?
    ensures ClientTurn(k, pc, id).Some? || ServerTurn(t, k, id).Some?
  {
  }

  // ---- The client's turn --------------------------------------------------

  lemma ClientTalks(s: System, io: L.Event, id: nat)
    requires id in s.links && s.links[id].cAlive && id in s.client.pcs
    requires ClientTurn(s.links[id].core, s.client.pcs[id], id) == Some(ClientIO(id, io))
    requires ClientAt(s.client.pcs[id], s.links[id].core.client)
    ensures L.ByClient(io) && ClientIOMay(s, id, io) && L.Step(s.links[id], io) != s.links[id]
  {
    hide L.LogSent, L.LogGot;
  }

  lemma ClientActs(s: System, e: C.Event, id: nat)
    requires id in s.links && s.links[id].cAlive && id in s.client.pcs && id in s.client.acct.slots
    requires ClientTurn(s.links[id].core, s.client.pcs[id], id) == Some(Client(e))
    requires ClientAt(s.client.pcs[id], s.links[id].core.client)
    ensures C.Subject(e) == Some(id) && ClientMay(e, s.client, s.links[id])
    ensures SlotPc(C.Step(s.client, e), id) != SlotPc(s.client, id)
  {
  }

  lemma ClientTurnMoves(s: System, id: nat)
    requires id in s.links && s.links[id].cAlive && id in s.client.pcs && id in s.client.acct.slots
    requires ClientAt(s.client.pcs[id], s.links[id].core.client)
    requires forall id :: id in s.server.pool.idle ==> id in s.server.pool.workers
    ensures var e := ClientTurn(s.links[id].core, s.client.pcs[id], id);
            e.Some? ==> Ordinary(e.value, id, s.links[id].core) && Step(s, e.value) != s
  {
    match ClientTurn(s.links[id].core, s.client.pcs[id], id) {
      case Some(e) =>
        if e.ClientIO? {
          ClientTalks(s, e.io, id);
          hide L.Step, ClientIOMay, ClientAt;
        } else {
          ClientActs(s, e.c, id);
          hide C.Step, ClientMay, ClientAt;
        }
      case None =>
    }
  }

  // ---- The server's turn --------------------------------------------------

  lemma ServerTalks(s: System, io: L.Event, id: nat)
    requires id in s.links && s.links[id].sAlive && !s.links[id].core.server.SPooled?
    requires ServerTurn(s.server, s.links[id].core, id) == Some(ServerIO(id, io))
    requires id in s.server.threads ==> ServerAt(s.server.threads[id].pc, s.links[id].core.server)
    requires s.links[id].core.server.SReleasing? ==> id in s.server.threads
    ensures !L.ByClient(io) && ServerMay(s, id, io) && L.Step(s.links[id], io) != s.links[id]
  {
    hide L.LogSent, L.LogGot;
  }

  lemma WorkerActs(s: System, e: P.Event, id: nat)
    requires id in s.links && s.links[id].sAlive && id in s.server.threads && id in s.server.pool.workers
    requires ServerTurn(s.server, s.links[id].core, id) == Some(Worker(e, NONCE))
    requires forall id :: id in s.server.pool.idle ==> id in s.server.pool.workers
    ensures P.Subject(e) == Some(id) && WorkerMay(e, s.links[id])
    ensures e.GoIdle? || e.EnterNext? || e.Release? || PP.NextStep(e, id)
    ensures PcOf(P.WorkerStep(s.server, e, id), id) != PcOf(s.server, id)
  {
    hide P.Step;
    if s.links[id].core.server.SPooled? && P.InNext(s.server.threads[id].pc) {
      PP.NextMoveMoves(s.server, e, id);
      hide P.WorkerStep;
    } else {
      OutsideNext(s.server, e, id);
    }
  }

  lemma OutsideNext(t: P.System, e: P.Event, id: nat)
    requires id in t.threads && id in t.pool.workers
    requires (e == P.GoIdle(id, 0) && P.CallsIdle(t.threads[id].pc))
             || (e == P.EnterNext(id) && t.threads[id].pc.Returned?)
             || (e == P.Release(id) && t.threads[id].pc.Serving?)
    ensures PcOf(P.WorkerStep(t, e, id), id) != PcOf(t, id)
  {
    hide S.IdleSection, S.NextDeadline, S.ReleasingSection;
  }

  lemma ServerTurnMoves(s: System, id: nat)
    requires id in s.links && s.links[id].sAlive
    requires id in s.server.threads ==>
               id in s.server.pool.workers && ServerAt(s.server.threads[id].pc, s.links[id].core.server)
    requires s.links[id].core.server.SReleasing? || s.links[id].core.server.SPooled? ==> id in s.server.threads
    requires forall id :: id in s.server.pool.idle ==> id in s.server.pool.workers
    ensures var e := ServerTurn(s.server, s.links[id].core, id);
            e.Some? ==> Ordinary(e.value, id, s.links[id].core) && Step(s, e.value) != s
  {
    match ServerTurn(s.server, s.links[id].core, id) {
      case Some(e) =>
        if e.ServerIO? {
          ServerTalks(s, e.io, id);
          hide L.Step, ServerMay, ServerAt;
        } else {
          WorkerActs(s, e.e, id);
          hide P.WorkerStep, WorkerMay, FollowWorker, ServerAt;
        }
      case None =>
    }
  }

  // ---- Main result --------------------------------------------------------

  /** The worker of the connection waits in Next for a visitor, with no token
      and no timer due. */
  predicate AwaitsVisitor(s: System, id: nat) {
    && id in s.links && s.links[id].core.server.SPooled?
    && id in s.server.threads && id in s.server.pool.workers
    && PP.NothingDue(s.server.pool.workers[id], s.server.threads[id], s.server.now)
  }

  /** What is known of a connection with both ends alive. */
  lemma AliveAt(s: System, id: nat)
    requires TunnelSafety.Sound(s) && id in s.links && s.links[id].sAlive && s.links[id].cAlive
    ensures var k := s.links[id].core; LS.Coupled(k)
    ensures id in s.client.pcs && id in s.client.acct.slots && ClientAt(s.client.pcs[id], s.links[id].core.client)
    ensures id in s.server.threads ==>
              id in s.server.pool.workers && ServerAt(s.server.threads[id].pc, s.links[id].core.server)
    ensures s.links[id].core.server.SReleasing? || s.links[id].core.server.SPooled? ==> id in s.server.threads
  {
    hide S.Inv, P.Drains, P.Accounted, P.Delivered, P.InOrder, C.Sound, Ledger;
    PS.KeysAgree(s.server);
  }

  /** Nothing blocks: in every reachable state of the whole service, a
      connection with both ends alive has an ordinary step that changes the
      state, or its worker waits for a visitor. */
  lemma NothingBlocks(c: Setup, es: seq<Event>, id: nat)
    requires Proper(c)
    ensures var s := Reach(c, es);
            && (forall x :: x in s.server.pool.idle ==> x in s.server.pool.workers)
            && (id in s.links && s.links[id].sAlive && s.links[id].cAlive ==>
                  AwaitsVisitor(s, id) || exists e :: Ordinary(e, id, s.links[id].core) && Step(s, e) != s)
  {
    hide Reach, TunnelSafety.Sound, LS.Coupled, Step, Ordinary, ClientTurn, ServerTurn, ClientAt, ServerAt;
    TunnelSafety.ReachSound(c, es);
    var s := Reach(c, es);
    TunnelSafety.StepKeeps(s, Pool(P.Tick(0)));
    if id in s.links && s.links[id].sAlive && s.links[id].cAlive {
      AliveAt(s, id);
      var l := s.links[id];
      ClientTurnMoves(s, id);
      ServerTurnMoves(s, id);
      var a, b := ClientTurn(l.core, s.client.pcs[id], id), ServerTurn(s.server, l.core, id);
      assert a.Some? ==> Ordinary(a.value, id, l.core) && Step(s, a.value) != s;
      assert b.Some? ==> Ordinary(b.value, id, l.core) && Step(s, b.value) != s;
      if l.core.server.SPooled? {
        PooledTurns(s, id);
      } else {
        SomeoneTurns(s.server, l.core, s.client.pcs[id], id);
      }
    }
  }

  lemma PooledTurns(s: System, id: nat)
    requires TunnelSafety.Sound(s) && id in s.links && s.links[id].core.server.SPooled?
    requires id in s.server.threads && id in s.server.pool.workers && ServerAt(s.server.threads[id].pc, L.SPooled)
    requires forall x :: x in s.server.pool.idle ==> x in s.server.pool.workers
    ensures ServerTurn(s.server, s.links[id].core, id).Some? || AwaitsVisitor(s, id)
  {
    hide P.Sound, C.Sound, Bonded, Ledger, PP.NextMove, PP.NothingDue;
    if P.InNext(s.server.threads[id].pc) {
      PP.NextMoves(s.server, id);
    }
  }
}
