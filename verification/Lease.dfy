/** The two ends of one tunnel connection and the frames between them, as a
    state machine: registration, heartbeats, leases with their two relay pumps
    and the release barrier. Each end may die at any moment. */
module Lease {
  import opened Bytes
  import opened Protocol

  /** The branches that reject a frame the peer should not have sent. */
  datatype Fault =
    | BadHello | BadHelloReply | BadReady
    | WrongPingId | WrongCloseId | NonmonotonicOpen | UnexpectedIdleFrame
    | WrongOpenId | InvalidOpenErr | UnexpectedOpenReply
    | WrongLeaseId | UnexpectedRelayFrame
    | InvalidRelease | InvalidBarrier | InvalidPong

  datatype ServerEnd = Refused | Expired | ClientClosed

  /** Where the server goroutine of a connection is. */
  datatype Server =
    | SHello                                        // reading HELLO
    | SAccepting                                    // registered, HELLO_OK not written yet
    | SRejecting(code: seq<byte>)                   // HELLO_ERR not written yet
    | SAwaitReady                                   // reading the first READY
    | SPooled                                       // in Idle or Next
    | SPinging(nonce: seq<byte>)                    // taken for a heartbeat, PING not written yet
    | SAwaitPong(nonce: seq<byte>)
    | SRetiring                                     // expired, CLOSE not written yet
    | SOpening(id: uint64)                          // leased, OPEN not written yet
    | SAwaitOpen(id: uint64)
    | SRelay(id: uint64, finSent: bool, finRead: bool)
    | SReleasing(id: uint64)                        // RELEASE not written yet
    | SAwaitBarrier(id: uint64)
    | SDone(end: ServerEnd)
    | SFault(fault: Fault)

  datatype ClientEnd = Rejected | ServerClosed | Surplus

  /** Where the client goroutine of a connection is. */
  datatype Client =
    | CStart                                        // HELLO not written yet
    | CAwaitOk
    | CRegistered                                   // slot counted idle, READY not written yet
    | CIdle                                         // reading in the idle loop
    | CPonging(nonce: seq<byte>)                    // PONG not written yet
    | CDialing(id: uint64)
    | CAnswering(id: uint64, dialed: bool)          // OPEN_OK or OPEN_ERR not written yet
    | CRelay(id: uint64, finSent: bool, finRead: bool)
    | CAwaitRelease(id: uint64)
    | CDeciding(id: uint64)                         // RELEASE read, barrier decision not taken
    | CReturning(id: uint64)                        // slot counted idle again, READY not written yet
    | CSurplus(id: uint64)                          // CLOSE not written yet
    | CDone(end: ClientEnd)
    | CFault(fault: Fault)

  /** Both ends' phases and lease counters, and the frames under way: `up`
      runs from client to server. */
  datatype Core = Core(
    server: Server, sLast: uint64, client: Client, cLast: uint64, up: seq<Frame>, down: seq<Frame>)

  /** One direction's relay history: the DATA octets written and read for each
      lease, and the leases whose FIN was read. */
  datatype Log = Log(sent: map<uint64, seq<byte>>, got: map<uint64, seq<byte>>, fins: set<uint64>)

  /** An end that died keeps the phase it died in. */
  datatype Link = Link(core: Core, sAlive: bool, cAlive: bool, up: Log, down: Log)

  const CONNECTED: Link :=
    Link(Core(SHello, 0, CStart, 0, [], []), true, true, Log(map[], map[], {}), Log(map[], map[], {}))

  datatype Event =
    | CHello(hello: seq<byte>)      // the client writes HELLO
    | CRead                         // the client reads its next frame
    | CDial(dialed: bool)           // the local dial ends
    | CWrite                        // the client writes the frame its phase calls for
    | CData(p: seq<byte>)           // the client's outgoing pump
    | CFin
    | CRunEnds                      // both client pumps are done
    | CDecide(surplus: bool)        // the client's critical section at the barrier
    | CDies                         // any error, deadline or stop on the client
    | SRead(verdict: Option<seq<byte>>)   // the verdict on a HELLO: Some(code) rejects it
    | SGiveUp                       // no HELLO could be read
    | SCheck(nonce: seq<byte>)      // Next returned Check
    | SLease                        // Next returned Leased
    | SExpire                       // Idle or Next returned Expired
    | SWrite                        // the server writes the frame its phase calls for
    | SData(p: seq<byte>)
    | SFin
    | SRunEnds
    | SDies

  /** `{"code":"incompatible_protocol"}` */
  const INCOMPATIBLE: seq<byte> :=
    [123, 34, 99, 111, 100, 101, 34, 58, 34, 105, 110, 99, 111, 109, 112, 97, 116, 105, 98, 108, 101, 95, 112, 114, 111,
     116, 111, 99, 111, 108, 34, 125]

  /** `{"code":"dial_failed"}` */
  const DIAL_FAILED: seq<byte> :=
    [123, 34, 99, 111, 100, 101, 34, 58, 34, 100, 105, 97, 108, 95, 102, 97, 105, 108, 101, 100, 34, 125]

  function At(m: map<uint64, seq<byte>>, id: uint64): seq<byte> {
    if id in m then m[id] else []
  }

  function Append(m: map<uint64, seq<byte>>, id: uint64, p: seq<byte>): map<uint64, seq<byte>> {
    m[id := At(m, id) + p]
  }

  function LogSent(log: Log, f: Frame): Log {
    if f.typ == DATA then log.(sent := Append(log.sent, f.lease, f.payload)) else log
  }

  /** What a relay's reader does with a frame it accepts. */
  function LogGot(log: Log, f: Frame): Log {
    if f.typ == DATA then log.(got := Append(log.got, f.lease, f.payload))
    else if f.typ == FIN then log.(fins := log.fins + {f.lease})
    else log
  }

  function Control(typ: byte, id: uint64): Frame {
    Frame(typ, id, [])
  }

  /** What the outgoing pump writes: DATA frames of one lease. */
  function Datas(id: uint64, out: seq<seq<byte>>): (s: seq<Frame>)
    ensures |s| == |out| && forall i :: 0 <= i < |s| ==> s[i] == Frame(DATA, id, out[i])
  {
    seq(|out|, i requires 0 <= i < |out| => Frame(DATA, id, out[i]))
  }

  /** Compressed writes as `Relay.FrameWriter` cuts them. */
  predicate Payloads(out: seq<seq<byte>>) {
    forall i :: 0 <= i < |out| ==> 1 <= |out[i]| <= MAX_DATA
  }

  // ---- The client ---------------------------------------------------------

  /** The frame the client's phase calls for, and the phase it leads to. */
  function CTurn(c: Client): Option<(Frame, Client)> {
    match c
    case CRegistered => Some((Control(READY, 0), CIdle))
    case CPonging(nonce) => Some((Frame(PONG, 0, nonce), CIdle))
    case CAnswering(id, dialed) =>
      if dialed then Some((Control(OPEN_OK, id), CRelay(id, false, false)))
      else Some((Frame(OPEN_ERR, id, DIAL_FAILED), CAwaitRelease(id)))
    case CReturning(id) => Some((Control(READY, id), CIdle))
    case CSurplus(id) => Some((Control(CLOSE, 0), CDone(Surplus)))
    case _ => None
  }

  predicate ClientReads(c: Client) {
    c.CAwaitOk? || c.CIdle? || (c.CRelay? && !c.finRead) || c.CAwaitRelease?
  }

  /** serveSlot's and lease's handling of a frame in the phases that read one. */
  function ClientOn(c: Client, last: uint64, f: Frame): Client
    requires ClientReads(c)
  {
    match c
    case CAwaitOk =>
      if f.lease != 0 then CFault(BadHelloReply)
      else if f.typ == HELLO_ERR then CDone(Rejected)
      else if f.typ != HELLO_OK then CFault(BadHelloReply)
      else CRegistered
    case CIdle =>
      if f.typ == PING then (if f.lease != 0 then CFault(WrongPingId) else CPonging(f.payload))
      else if f.typ == CLOSE then (if f.lease != 0 then CFault(WrongCloseId) else CDone(ServerClosed))
      else if f.typ == OPEN then
        (if last == MAX_UINT64 || f.lease != last + 1 then CFault(NonmonotonicOpen) else CDialing(f.lease))
      else CFault(UnexpectedIdleFrame)
    case CRelay(id, finSent, _) =>
      if f.lease != id then CFault(WrongLeaseId)
      else if f.typ == DATA then c
      else if f.typ == FIN then CRelay(id, finSent, true)
      else CFault(UnexpectedRelayFrame)
    case CAwaitRelease(id) =>
      if f.typ != RELEASE || f.lease != id then CFault(InvalidRelease) else CDeciding(id)
  }

  // ---- The server ---------------------------------------------------------

  /** The frame the server's phase calls for, and the phase it leads to. */
  function STurn(s: Server): Option<(Frame, Server)> {
    match s
    case SAccepting => Some((Control(HELLO_OK, 0), SAwaitReady))
    case SRejecting(code) => Some((Frame(HELLO_ERR, 0, code), SDone(Refused)))
    case SFault(fault) => if fault.BadHello? then Some((Frame(HELLO_ERR, 0, INCOMPATIBLE), SDone(Refused))) else None
    case SPinging(nonce) => Some((Frame(PING, 0, nonce), SAwaitPong(nonce)))
    case SRetiring => Some((Control(CLOSE, 0), SDone(Expired)))
    case SOpening(id) => Some((Control(OPEN, id), SAwaitOpen(id)))
    case SReleasing(id) => Some((Control(RELEASE, id), SAwaitBarrier(id)))
    case _ => None
  }

  predicate ServerReads(s: Server) {
    s.SHello? || s.SAwaitReady? || s.SAwaitPong? || s.SAwaitOpen? || (s.SRelay? && !s.finRead) || s.SAwaitBarrier?
  }

  /** register's, heartbeat's and lease's handling of a frame. */
  function ServerOn(s: Server, f: Frame, verdict: Option<seq<byte>>): Server
    requires ServerReads(s)
  {
    match s
    case SHello =>
      if f.typ != HELLO || f.lease != 0 then SFault(BadHello)
      else if verdict.Some? then SRejecting(verdict.value) else SAccepting
    case SAwaitReady =>
      if f.typ != READY || f.lease != 0 then SFault(BadReady) else SPooled
    case SAwaitPong(nonce) =>
      if f.typ != PONG || f.lease != 0 || f.payload != nonce then SFault(InvalidPong) else SPooled
    case SAwaitOpen(id) =>
      if f.lease != id then SFault(WrongOpenId)
      else if f.typ == OPEN_OK then SRelay(id, false, false)
      else if f.typ == OPEN_ERR then
        (if f.payload != DIAL_FAILED then SFault(InvalidOpenErr) else SReleasing(id))
      else SFault(UnexpectedOpenReply)
    case SRelay(id, finSent, _) =>
      if f.lease != id then SFault(WrongLeaseId)
      else if f.typ == DATA then s
      else if f.typ == FIN then SRelay(id, finSent, true)
      else SFault(UnexpectedRelayFrame)
    case SAwaitBarrier(id) =>
      if f.typ == CLOSE && f.lease == 0 then SDone(ClientClosed)
      else if f.typ != READY || f.lease != id then SFault(InvalidBarrier)
      else SPooled
  }

  // ---- Steps and runs -----------------------------------------------------

  function CPut(k: Core, f: Frame, next: Client): Core {
    k.(up := k.up + [f], client := next)
  }

  function SPut(k: Core, f: Frame, next: Server): Core {
    k.(down := k.down + [f], server := next)
  }

  /** WriteFrame refuses an invalid frame, and the end gives the connection
      up. */
  function CSend(l: Link, f: Frame, next: Client): Link {
    if Valid(f) then l.(core := CPut(l.core, f, next), up := LogSent(l.up, f)) else l.(cAlive := false)
  }

  function SSend(l: Link, f: Frame, next: Server): Link {
    if Valid(f) then l.(core := SPut(l.core, f, next), down := LogSent(l.down, f)) else l.(sAlive := false)
  }

  function CTake(k: Core): Core
    requires ClientReads(k.client) && k.down != []
  {
    var c := ClientOn(k.client, k.cLast, k.down[0]);
    k.(down := k.down[1..], client := c, cLast := if c.CDialing? then c.id else k.cLast)
  }

  function STake(k: Core, verdict: Option<seq<byte>>): Core
    requires ServerReads(k.server) && k.up != []
  {
    k.(up := k.up[1..], server := ServerOn(k.server, k.up[0], verdict))
  }

  predicate ByClient(e: Event) {
    e.CHello? || e.CRead? || e.CDial? || e.CWrite? || e.CData? || e.CFin? || e.CRunEnds? || e.CDecide? || e.CDies?
  }

  function ClientStep(l: Link, e: Event): Link
    requires ByClient(e)
  {
    var k, c := l.core, l.core.client;
    match e
    case CHello(hello) => if c.CStart? then CSend(l, Frame(HELLO, 0, hello), CAwaitOk) else l
    case CRead =>
      if !ClientReads(c) || k.down == [] then l
      else
        l.(core := CTake(k),
           down := if c.CRelay? && k.down[0].lease == c.id then LogGot(l.down, k.down[0]) else l.down)
    case CDial(dialed) => if c.CDialing? then l.(core := k.(client := CAnswering(c.id, dialed))) else l
    case CWrite => if CTurn(c).Some? then CSend(l, CTurn(c).value.0, CTurn(c).value.1) else l
    case CData(p) => if c.CRelay? && !c.finSent then CSend(l, Frame(DATA, c.id, p), c) else l
    case CFin =>
      if c.CRelay? && !c.finSent then CSend(l, Control(FIN, c.id), CRelay(c.id, true, c.finRead)) else l
    case CRunEnds =>
      if c.CRelay? && c.finSent && c.finRead then l.(core := k.(client := CAwaitRelease(c.id))) else l
    case CDecide(surplus) =>
      if c.CDeciding? then l.(core := k.(client := if surplus then CSurplus(c.id) else CReturning(c.id))) else l
    case CDies => l.(cAlive := false)
  }

  function ServerStep(l: Link, e: Event): Link
    requires !ByClient(e)
  {
    var k, s := l.core, l.core.server;
    match e
    case SRead(verdict) =>
      if !ServerReads(s) || k.up == [] then l
      else
        l.(core := STake(k, verdict),
           up := if s.SRelay? && k.up[0].lease == s.id then LogGot(l.up, k.up[0]) else l.up)
    case SGiveUp => if s.SHello? then l.(core := k.(server := SRejecting(INCOMPATIBLE))) else l
    case SCheck(nonce) => if s.SPooled? && |nonce| == 8 then l.(core := k.(server := SPinging(nonce))) else l
    case SLease =>
      if !s.SPooled? then l
      else if k.sLast == MAX_UINT64 then l.(sAlive := false)
      else l.(core := k.(sLast := k.sLast + 1, server := SOpening(k.sLast + 1)))
    case SExpire => if s.SPooled? then l.(core := k.(server := SRetiring)) else l
    case SWrite => if STurn(s).Some? then SSend(l, STurn(s).value.0, STurn(s).value.1) else l
    case SData(p) => if s.SRelay? && !s.finSent then SSend(l, Frame(DATA, s.id, p), s) else l
    case SFin =>
      if s.SRelay? && !s.finSent then SSend(l, Control(FIN, s.id), SRelay(s.id, true, s.finRead)) else l
    case SRunEnds =>
      if s.SRelay? && s.finSent && s.finRead then l.(core := k.(server := SReleasing(s.id))) else l
    case SDies => l.(sAlive := false)
  }

  /** One event; an event its end is not ready for changes nothing, and neither
      does anything a dead end might have done. */
  function Step(l: Link, e: Event): Link {
    if ByClient(e) then (if l.cAlive then ClientStep(l, e) else l)
    else (if l.sAlive then ServerStep(l, e) else l)
  }

  function Run(l: Link, es: seq<Event>): Link
    decreases |es|
  {
    if es == [] then l else Run(Step(l, es[0]), es[1..])
  }

  /** Every read of the run finds a frame. */
  ghost predicate ReadsFrames(l: Link, es: seq<Event>)
    decreases |es|
  {
    es == [] ||
    (var n := |es| - 1;
     var k := Run(l, es[..n]).core;
     ReadsFrames(l, es[..n]) && (es[n].CRead? ==> k.down != []) && (es[n].SRead? ==> k.up != []))
  }
}
