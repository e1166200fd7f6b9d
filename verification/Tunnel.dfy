/** One service end to end: a server's pool, a client's accounting, and the
    connections between them. A connection is named by the ID its worker gets,
    from the moment the client's goroutine for it exists; workers of other
    clients take part in the pool without a link here. */
module Tunnel {
  import opened Bytes
  import opened Protocol
  import S = PoolSpec
  import P = PoolSystem
  import A = ClientSpec
  import C = ClientSystem
  import L = Lease

  /** `carries` records the visitor each lease of a connection was opened for. */
  datatype System = System(
    server: P.System, client: C.System, links: map<nat, L.Link>, carries: map<(nat, uint64), nat>)

  datatype Event =
    | Pool(e: P.Event)                                    // a step of the pool that is no single worker's
    | Worker(e: P.Event, nonce: seq<byte>)                // a worker's step; a heartbeat draws the nonce
    | Hello(id: nat, opts: S.Options, draw: int)          // register accepts a HELLO
    | ServerIO(id: nat, io: L.Event)
    | Client(c: C.Event)
    | ClientIO(id: nat, io: L.Event)

  function Initial(maxPending: int, serverNow: int, minIdle: int, maxIdle: int, zero: int, clientNow: int): System {
    System(P.Initial(maxPending, serverNow), C.Initial(minIdle, maxIdle, zero, clientNow), map[], map[])
  }

  // ---- The server's side --------------------------------------------------

  /** What a worker's goroutine may do, given where its connection is: it calls
      Idle after READY or a heartbeat, and Releasing when the relay is over. A
      dead one only leaves. */
  predicate WorkerMay(e: P.Event, l: L.Link) {
    match e
    case GoIdle(_, _) => l.sAlive && l.core.server.SPooled?
    case Release(_) => l.sAlive && l.core.server.SReleasing?
    case Abandon(_) => true
    case Close(_) => true
    case CloseConn(_) => true
    case StopNext(_) => true
    case ForceNext(_) => true
    case _ => l.sAlive
  }

  /** What the goroutine does next on its connection, by where its pool call
      left it. */
  function FollowWorker(l: L.Link, pc: P.Pc, next: P.Pc, state: S.WState, nonce: seq<byte>): L.Link {
    if next == pc then l
    else if next.Serving? then L.Step(l, L.SLease)
    else if next.Checked? then L.Step(l, L.SCheck(nonce))
    else if next.Gone? then L.Step(l, if state.Expiring? then L.SExpire else L.SDies)
    else l
  }

  function PcOf(t: P.System, id: nat): P.Pc {
    if id in t.threads then t.threads[id].pc else P.Gone
  }

  function StateOf(t: P.System, id: nat): S.WState {
    if id in t.pool.workers then t.pool.workers[id].state else S.Closed
  }

  function LinkedStep(s: System, e: P.Event, id: nat, nonce: seq<byte>): System
    requires P.Subject(e) == Some(id) && id in s.links && id in s.server.threads && id in s.server.pool.workers
  {
    var l, w := s.links[id], s.server.pool.workers[id];
    if !WorkerMay(e, l) || |nonce| != 8 then s
    else
      var t := P.WorkerStep(s.server, e, id);
      var l' := FollowWorker(l, s.server.threads[id].pc, PcOf(t, id), StateOf(t, id), nonce);
      System(t, s.client, s.links[id := l'],
             if l'.core.sLast != l.core.sLast && w.mailbox.Some? then s.carries[(id, l'.core.sLast) := w.mailbox.value]
             else s.carries)
  }

  function HelloStep(s: System, id: nat, opts: S.Options, draw: int): System
    requires id in s.links
  {
    var l := s.links[id];
    if !l.sAlive || !l.core.server.SHello? || l.core.up == [] || l.core.up[0].typ != HELLO || l.core.up[0].lease != 0
    then s
    else
      var t := P.EnrollStep(s.server, id, opts, draw);
      if t == s.server then s else s.(server := t, links := s.links[id := L.Step(l, L.SRead(None))])
  }

  /** The goroutine's other I/O. A HELLO it reads here is one it rejects. */
  predicate ServerMay(s: System, id: nat, io: L.Event)
    requires id in s.links
  {
    match io
    case SRead(verdict) => s.links[id].core.server.SHello? ==> verdict.Some?
    case SWrite => s.links[id].core.server.SReleasing? ==> PcOf(s.server, id).Draining?
    case SData(_) => true
    case SFin => true
    case SRunEnds => true
    case SGiveUp => true
    case SDies => id !in s.server.threads
    case _ => false
  }

  // ---- The client's side --------------------------------------------------

  predicate ClientMay(e: C.Event, c: C.System, l: L.Link) {
    match e
    case DialOk(_) => l.cAlive && l.core.client.CStart?
    case HelloOk(_) => l.cAlive && l.core.client.CRegistered?
    case Open(_) => l.cAlive && l.core.client.CDialing?
    case Decide(_) => l.cAlive && l.core.client.CDeciding?
    case Finishes(_) =>
      l.cAlive && ((l.core.client.CIdle? && c.cancelled) || (l.core.client.CDone? && !l.core.client.end.Rejected?))
    case Fails(_) => l.core.client.CDone? ==> l.core.client.end.Rejected?
    case _ => true
  }

  function SlotPc(t: C.System, id: nat): Option<C.Pc> {
    if id in t.pcs then Some(t.pcs[id]) else None
  }

  function FollowClient(l: L.Link, pc: Option<C.Pc>, next: Option<C.Pc>): L.Link {
    if next == pc || next.None? then l
    else if next.value.Ending? then L.Step(l, L.CDies)
    else if next.value.Retiring? then L.Step(l, L.CDecide(true))
    else if next.value.Idling? && pc == Some(C.Leasing) then L.Step(l, L.CDecide(false))
    else l
  }

  function ClientStep(s: System, e: C.Event): System {
    var t := C.Step(s.client, e);
    match C.Subject(e)
    case Some(id) =>
      if id !in s.links || !ClientMay(e, s.client, s.links[id]) then s
      else s.(client := t, links := s.links[id := FollowClient(s.links[id], SlotPc(s.client, id), SlotPc(t, id))])
    case None =>
      if !e.SlotUp? then s.(client := t)
      else if e.id in s.links || e.id in s.server.threads || t == s.client then s
      else s.(client := t, links := s.links[e.id := L.CONNECTED])
  }

  /** The other I/O of a connection's goroutine: HELLO follows the dial, READY
      follows the accounting, the local dial follows it too. */
  predicate ClientIOMay(s: System, id: nat, io: L.Event)
    requires id in s.links
  {
    match io
    case CHello(_) => SlotPc(s.client, id) == Some(C.Shaking)
    case CWrite => s.links[id].core.client.CRegistered? ==> SlotPc(s.client, id) == Some(C.Idling)
    case CDial(_) => SlotPc(s.client, id) == Some(C.Leasing)
    case CRead => true
    case CData(_) => true
    case CFin => true
    case CRunEnds => true
    case _ => false
  }

  // ---- Steps and runs -----------------------------------------------------

  function Step(s: System, e: Event): System
    requires forall id :: id in s.server.pool.idle ==> id in s.server.pool.workers
  {
    match e
    case Pool(p) =>
      if P.Subject(p).Some? || (p.Enroll? && p.id in s.links) then s else s.(server := P.Step(s.server, p))
    case Worker(p, nonce) =>
      (match P.Subject(p)
       case None => s
       case Some(id) =>
         if id !in s.server.threads || id !in s.server.pool.workers then s
         else if id in s.links then LinkedStep(s, p, id, nonce)
         else s.(server := P.Step(s.server, p)))
    case Hello(id, opts, draw) => if id in s.links then HelloStep(s, id, opts, draw) else s
    case ServerIO(id, io) =>
      if id !in s.links || L.ByClient(io) || !ServerMay(s, id, io) then s
      else s.(links := s.links[id := L.Step(s.links[id], io)])
    case Client(c) => ClientStep(s, c)
    case ClientIO(id, io) =>
      if id !in s.links || !L.ByClient(io) || !ClientIOMay(s, id, io) then s
      else s.(links := s.links[id := L.Step(s.links[id], io)])
  }

  // ---- How the two processes go together ----------------------------------

  /** Where the server's goroutine can be on its connection. */
  predicate ServerAt(pc: P.Pc, k: L.Server) {
    match pc
    case Started => k.SAccepting? || k.SAwaitReady? || k.SPooled?
    case Checked => k.SPinging? || k.SAwaitPong? || k.SPooled?
    case Serving => k.SOpening? || k.SAwaitOpen? || k.SRelay? || k.SReleasing?
    case Draining => k.SReleasing? || k.SAwaitBarrier? || k.SPooled? || k.SDone?
    case Gone => k.SRetiring? || k.SDone?
    case _ => k.SPooled?
  }

  /** A worker that a visitor may be given, or has been given and not taken. */
  predicate OnOffer(w: S.Worker) {
    w.state == S.Idle || w.mailbox.Some?
  }

  ghost predicate ServerBond(t: P.System, id: nat, l: L.Link) {
    if id in t.threads && id in t.pool.workers then
      && (l.sAlive ==> ServerAt(t.threads[id].pc, l.core.server))
      && (OnOffer(t.pool.workers[id]) ==> l.core.server.SPooled?)
    else l.core.server.SHello? || l.core.server.SRejecting? || l.core.server.SDone?
  }

  predicate ClientAt(pc: C.Pc, k: L.Client) {
    match pc
    case Dialing => k.CStart?
    case Shaking => k.CStart? || k.CAwaitOk? || k.CRegistered? || (k.CDone? && k.end.Rejected?)
    case Idling =>
      k.CRegistered? || k.CIdle? || k.CPonging? || k.CDialing? || k.CReturning? || (k.CDone? && k.end.ServerClosed?)
    case Leasing => k.CDialing? || k.CAnswering? || k.CRelay? || k.CAwaitRelease? || k.CDeciding?
    case Retiring => k.CSurplus? || (k.CDone? && k.end.Surplus?)
    case _ => false
  }

  /** How the client counts the slot of a connection, by its phase; it stays so
      counted when the goroutine ends, until the slot goes. */
  predicate CountedAs(state: A.SlotState, k: L.Client) {
    match k
    case CStart => state.Connecting?
    case CAwaitOk => state.Connecting?
    case CRegistered => !state.BusySlot?
    case CIdle => state.IdleSlot?
    case CPonging(_) => state.IdleSlot?
    case CReturning(_) => state.IdleSlot?
    case CDialing(_) => !state.Connecting?
    case CDone(end) =>
      if end.Rejected? then state.Connecting? else if end.ServerClosed? then state.IdleSlot? else state.BusySlot?
    case CFault(_) => true
    case _ => state.BusySlot?
  }

  ghost predicate ClientBond(t: C.System, id: nat, l: L.Link) {
    if id in t.pcs && id in t.acct.slots then
      && (l.cAlive ==> ClientAt(t.pcs[id], l.core.client))
      && CountedAs(t.acct.slots[id].state, l.core.client)
    else !l.cAlive
  }
}
