/** What every interleaving of the two ends keeps: no rejecting branch is ever
    reached, and each lease's octets arrive in order and only in their lease. */
module LeaseSafety {
  import opened Bytes
  import opened Protocol
  import opened Lease

  // ---- The coupling invariant ---------------------------------------------

  ghost predicate Only(ch: seq<Frame>, typ: byte, id: uint64) {
    |ch| == 1 && ch[0].typ == typ && ch[0].lease == id
  }

  ghost predicate Quiet(k: Core) {
    |k.up| == 0 && |k.down| == 0
  }

  /** ch[lo..hi] is a relay direction in flight: DATA frames of the lease,
      closed by FIN once FIN was written, and nothing once FIN was read. */
  ghost predicate Body(ch: seq<Frame>, lo: nat, hi: nat, id: uint64, finSent: bool, finRead: bool) {
    && lo <= hi <= |ch|
    && (finRead ==> finSent && lo == hi)
    && (!finRead && finSent ==> lo < hi && ch[hi - 1].typ == FIN && ch[hi - 1].lease == id)
    && (!finRead ==> forall i :: lo <= i < (if finSent then hi - 1 else hi) ==> ch[i].typ == DATA && ch[i].lease == id)
  }

  /** A HELLO, if the server gave up before it read one. */
  ghost predicate Unread(ch: seq<Frame>) {
    |ch| == 0 || Only(ch, HELLO, 0)
  }

  /** No lease has begun. */
  ghost predicate WhileRegistering(k: Core) {
    && k.sLast == k.cLast == 0
    && match k.client
       case CStart =>
         (match k.server
          case SHello => Quiet(k)
          case SRejecting(_) => Quiet(k)
          case SDone(_) => |k.up| == 0 && Only(k.down, HELLO_ERR, 0)
          case _ => false)
       case CAwaitOk =>
         (match k.server
          case SHello => Only(k.up, HELLO, 0) && |k.down| == 0
          case SAccepting => Quiet(k)
          case SRejecting(_) => |k.down| == 0 && Unread(k.up)
          case SAwaitReady => |k.up| == 0 && Only(k.down, HELLO_OK, 0)
          case SDone(_) => Unread(k.up) && Only(k.down, HELLO_ERR, 0)
          case _ => false)
       case _ => k.server.SAwaitReady? && Quiet(k)
  }

  ghost predicate WhileIdle(k: Core) {
    match k.server
    case SAwaitReady => Only(k.up, READY, 0) && |k.down| == 0 && k.sLast == k.cLast == 0
    case SPooled => Quiet(k) && k.sLast == k.cLast
    case SPinging(_) => Quiet(k) && k.sLast == k.cLast
    case SAwaitPong(nonce) =>
      && k.sLast == k.cLast
      && if |k.up| == 0 then Only(k.down, PING, 0) && k.down[0].payload == nonce
         else Only(k.up, PONG, 0) && k.up[0].payload == nonce && |k.down| == 0
    case SRetiring => Quiet(k) && k.sLast == k.cLast
    case SDone(_) => |k.up| == 0 && Only(k.down, CLOSE, 0) && k.sLast == k.cLast
    case SOpening(id) => Quiet(k) && id == k.sLast == k.cLast + 1
    case SAwaitOpen(id) => |k.up| == 0 && Only(k.down, OPEN, id) && id == k.sLast == k.cLast + 1
    case SAwaitBarrier(id) => Only(k.up, READY, id) && |k.down| == 0 && id == k.sLast == k.cLast
    case _ => false
  }

  /** From OPEN_OK or OPEN_ERR to the client's reading of RELEASE. A client
      whose dial failed has nothing to relay: both its flags are set while the
      server still awaits its answer. */
  ghost predicate WhileLeased(k: Core, id: uint64, cSent: bool, cRead: bool) {
    && id == k.sLast == k.cLast
    && match k.server
       case SAwaitOpen(sid) =>
         && sid == id && |k.down| == 0
         && if cRead then cSent && Only(k.up, OPEN_ERR, id) && k.up[0].payload == DIAL_FAILED
            else |k.up| > 0 && k.up[0].typ == OPEN_OK && k.up[0].lease == id && Body(k.up, 1, |k.up|, id, cSent, false)
       case SRelay(sid, sSent, sRead) =>
         sid == id && Body(k.up, 0, |k.up|, id, cSent, sRead) && Body(k.down, 0, |k.down|, id, sSent, cRead)
       case SReleasing(sid) =>
         sid == id && Body(k.up, 0, |k.up|, id, cSent, true) && Body(k.down, 0, |k.down|, id, true, cRead)
       case SAwaitBarrier(sid) =>
         && sid == id && Body(k.up, 0, |k.up|, id, cSent, true)
         && |k.down| > 0 && k.down[|k.down| - 1].typ == RELEASE && k.down[|k.down| - 1].lease == id
         && Body(k.down, 0, |k.down| - 1, id, true, cRead)
       case _ => false
  }

  /** Both channels hold only what the two phases allow. */
  ghost predicate Coupled(k: Core) {
    match k.client
    case CStart => WhileRegistering(k)
    case CAwaitOk => WhileRegistering(k)
    case CRegistered => WhileRegistering(k)
    case CIdle => WhileIdle(k)
    case CPonging(nonce) => k.server == SAwaitPong(nonce) && Quiet(k) && k.sLast == k.cLast
    case CDialing(id) => k.server == SAwaitOpen(id) && Quiet(k) && id == k.sLast == k.cLast
    case CAnswering(id, _) => k.server == SAwaitOpen(id) && Quiet(k) && id == k.sLast == k.cLast
    case CRelay(id, cSent, cRead) => WhileLeased(k, id, cSent, cRead)
    case CAwaitRelease(id) => WhileLeased(k, id, true, true)
    case CDeciding(id) => k.server == SAwaitBarrier(id) && Quiet(k) && id == k.sLast == k.cLast
    case CReturning(id) => k.server == SAwaitBarrier(id) && Quiet(k) && id == k.sLast == k.cLast
    case CSurplus(id) => k.server == SAwaitBarrier(id) && Quiet(k) && id == k.sLast == k.cLast
    case CDone(_) =>
      (match k.server
       case SAwaitBarrier(id) => Only(k.up, CLOSE, 0) && |k.down| == 0 && id == k.sLast == k.cLast
       case SDone(_) => |k.down| == 0 && Unread(k.up) && k.sLast == k.cLast
       case _ => false)
    case CFault(_) => false
  }

  lemma BodyAppend(ch: seq<Frame>, lo: nat, id: uint64, f: Frame)
    requires Body(ch, lo, |ch|, id, false, false) && f.lease == id
    ensures f.typ == DATA ==> Body(ch + [f], lo, |ch| + 1, id, false, false)
    ensures f.typ == FIN ==> Body(ch + [f], lo, |ch| + 1, id, true, false)
  {
  }

  lemma BodyRead(ch: seq<Frame>, hi: nat, id: uint64, finSent: bool)
    requires Body(ch, 0, hi, id, finSent, false) && hi > 0
    ensures ch[0].lease == id && (ch[0].typ == DATA || ch[0].typ == FIN)
    ensures Body(ch[1..], 0, hi - 1, id, finSent, ch[0].typ == FIN)
  {
  }

  // ---- One lemma per kind of step -----------------------------------------

  lemma CoupledCWrite(k: Core)
    requires Coupled(k) && CTurn(k.client).Some?
    ensures var t := CPut(k, CTurn(k.client).value.0, CTurn(k.client).value.1); Coupled(t)
  {
  }

  lemma CoupledSWrite(k: Core)
    requires Coupled(k) && STurn(k.server).Some?
    ensures var t := SPut(k, STurn(k.server).value.0, STurn(k.server).value.1); Coupled(t)
  {
  }

  lemma CoupledCRead(k: Core)
    requires Coupled(k) && ClientReads(k.client) && k.down != []
    ensures var t := CTake(k); Coupled(t)
    ensures if k.client.CRelay? then k.down[0].lease == k.client.id && (k.down[0].typ == DATA || k.down[0].typ == FIN)
            else k.down[0].typ != DATA
    ensures k.client.CRelay? ==> k.client.id == k.cLast
  {
    if k.client.CRelay? {
      match k.server {
        case SRelay(_, sSent, _) => BodyRead(k.down, |k.down|, k.client.id, sSent);
        case SReleasing(_) => BodyRead(k.down, |k.down|, k.client.id, true);
        case SAwaitBarrier(_) => BodyRead(k.down, |k.down| - 1, k.client.id, true);
      }
    }
  }

  lemma CoupledSRead(k: Core, verdict: Option<seq<byte>>)
    requires Coupled(k) && ServerReads(k.server) && k.up != []
    ensures var t := STake(k, verdict); Coupled(t)
    ensures if k.server.SRelay? then k.up[0].lease == k.server.id && (k.up[0].typ == DATA || k.up[0].typ == FIN)
            else k.up[0].typ != DATA
    ensures k.server.SRelay? ==> k.server.id == k.sLast
  {
    if k.server.SRelay? {
      BodyRead(k.up, |k.up|, k.server.id, if k.client.CRelay? then k.client.finSent else true);
    }
  }

  lemma CoupledCPump(k: Core, f: Frame, finSent: bool)
    requires Coupled(k) && k.client.CRelay? && !k.client.finSent
    requires f.lease == k.client.id && f.typ == if finSent then FIN else DATA
    ensures var t := CPut(k, f, CRelay(k.client.id, finSent, k.client.finRead)); Coupled(t)
  {
    match k.server {
      case SAwaitOpen(_) => BodyAppend(k.up, 1, k.client.id, f);
      case SRelay(_, _, _) => BodyAppend(k.up, 0, k.client.id, f);
    }
  }

  lemma CoupledSPump(k: Core, f: Frame, finSent: bool)
    requires Coupled(k) && k.server.SRelay? && !k.server.finSent
    requires f.lease == k.server.id && f.typ == if finSent then FIN else DATA
    ensures var t := SPut(k, f, SRelay(k.server.id, finSent, k.server.finRead)); Coupled(t)
  {
    BodyAppend(k.down, 0, k.server.id, f);
  }

  lemma CoupledHello(k: Core, hello: seq<byte>)
    requires Coupled(k) && k.client.CStart?
    ensures var t := CPut(k, Frame(HELLO, 0, hello), CAwaitOk); Coupled(t)
  {
  }

  lemma CoupledDial(k: Core, dialed: bool)
    requires Coupled(k) && k.client.CDialing?
    ensures var t := k.(client := CAnswering(k.client.id, dialed)); Coupled(t)
  {
  }

  lemma CoupledDecide(k: Core, surplus: bool)
    requires Coupled(k) && k.client.CDeciding?
    ensures var t := k.(client := if surplus then CSurplus(k.client.id) else CReturning(k.client.id)); Coupled(t)
  {
  }

  lemma CoupledCSends(l: Link, e: Event)
    requires Coupled(l.core) && (e.CHello? || e.CWrite? || e.CData? || e.CFin?)
    ensures var t := ClientStep(l, e).core; Coupled(t)
  {
    var k, c := l.core, l.core.client;
    hide Coupled, Valid, CTurn, CPut, LogSent;
    match e {
      case CHello(hello) => if c.CStart? { CoupledHello(k, hello); }
      case CWrite => if CTurn(c).Some? { CoupledCWrite(k); }
      case CData(p) => if c.CRelay? && !c.finSent { CoupledCPump(k, Frame(DATA, c.id, p), false); }
      case CFin => if c.CRelay? && !c.finSent { CoupledCPump(k, Control(FIN, c.id), true); }
    }
  }

  lemma CoupledClient(l: Link, e: Event)
    requires Coupled(l.core) && ByClient(e)
    ensures var t := ClientStep(l, e).core; Coupled(t)
  {
    if e.CHello? || e.CWrite? || e.CData? || e.CFin? {
      CoupledCSends(l, e);
    } else {
      var k, c := l.core, l.core.client;
      hide Coupled, CTake, LogGot;
      match e {
        case CRead => if ClientReads(c) && k.down != [] { CoupledCRead(k); }
        case CDial(dialed) => if c.CDialing? { CoupledDial(k, dialed); }
        case CRunEnds => CoupledCRunEnds(k);
        case CDecide(surplus) => if c.CDeciding? { CoupledDecide(k, surplus); }
        case CDies =>
      }
    }
  }

  lemma CoupledCRunEnds(k: Core)
    requires Coupled(k)
    ensures k.client.CRelay? && k.client.finSent && k.client.finRead ==>
              (var t := k.(client := CAwaitRelease(k.client.id)); Coupled(t))
  {
  }

  /** What the pool's answers make of a pooled connection. */
  lemma CoupledPool(k: Core)
    requires Coupled(k) && k.server.SPooled?
    ensures forall nonce :: var t := k.(server := SPinging(nonce)); Coupled(t)
    ensures var t := k.(server := SRetiring); Coupled(t)
    ensures k.sLast < MAX_UINT64 ==> (var t := k.(sLast := k.sLast + 1, server := SOpening(k.sLast + 1)); Coupled(t))
  {
    CoupledPooled(k);
  }

  lemma CoupledSSends(l: Link, e: Event)
    requires Coupled(l.core) && (e.SWrite? || e.SData? || e.SFin?)
    ensures var t := ServerStep(l, e).core; Coupled(t)
  {
    var k, s := l.core, l.core.server;
    hide Coupled, Valid, STurn, SPut, LogSent;
    match e {
      case SWrite => if STurn(s).Some? { CoupledSWrite(k); }
      case SData(p) => if s.SRelay? && !s.finSent { CoupledSPump(k, Frame(DATA, s.id, p), false); }
      case SFin => if s.SRelay? && !s.finSent { CoupledSPump(k, Control(FIN, s.id), true); }
    }
  }

  /** Steps that change the phase alone. */
  lemma CoupledSQuiet(l: Link, e: Event)
    requires Coupled(l.core) && (e.SGiveUp? || e.SCheck? || e.SLease? || e.SExpire? || e.SRunEnds? || e.SDies?)
    ensures var t := ServerStep(l, e).core; Coupled(t)
  {
    var k := l.core;
    CoupledSRunEnds(k);
    CoupledGiveUp(k);
    if k.server.SPooled? {
      CoupledPool(k);
    }
    hide Coupled;
  }

  lemma CoupledGiveUp(k: Core)
    requires Coupled(k)
    ensures k.server.SHello? ==> (var t := k.(server := SRejecting(INCOMPATIBLE)); Coupled(t))
  {
  }

  lemma CoupledServer(l: Link, e: Event)
    requires Coupled(l.core) && !ByClient(e)
    ensures var t := ServerStep(l, e).core; Coupled(t)
  {
    match e {
      case SRead(verdict) =>
        hide Coupled, STake, LogGot;
        if ServerReads(l.core.server) && l.core.up != [] { CoupledSRead(l.core, verdict); }
      case SWrite => CoupledSSends(l, e);
      case SData(_) => CoupledSSends(l, e);
      case SFin => CoupledSSends(l, e);
      case _ => CoupledSQuiet(l, e);
    }
  }

  lemma CoupledSRunEnds(k: Core)
    requires Coupled(k)
    ensures k.server.SRelay? && k.server.finSent && k.server.finRead ==>
              (var t := k.(server := SReleasing(k.server.id)); Coupled(t))
  {
  }

  /** While the server's worker is with the pool, the client sits idle and the
      tunnel is quiet. */
  lemma CoupledPooled(k: Core)
    requires Coupled(k) && k.server.SPooled?
    ensures k.client.CIdle? && Quiet(k) && k.sLast == k.cLast
  {
  }

  lemma CoupledStep(l: Link, e: Event)
    requires Coupled(l.core)
    ensures var t := Step(l, e).core; Coupled(t)
  {
    if ByClient(e) {
      CoupledClient(l, e);
    } else {
      CoupledServer(l, e);
    }
  }

  lemma {:induction false} CoupledRun(l: Link, es: seq<Event>)
    requires Coupled(l.core)
    ensures var t := Run(l, es).core; Coupled(t)
    decreases |es|
  {
    hide Coupled, Step;
    if es != [] {
      CoupledStep(l, es[0]);
      CoupledRun(Step(l, es[0]), es[1..]);
    }
  }

  lemma {:induction false} RunLonger(l: Link, es: seq<Event>, e: Event)
    ensures Run(l, es + [e]) == Step(Run(l, es), e)
    decreases |es|
  {
    hide Step;
    if es == [] {
      assert Run(Step(l, e), []) == Step(l, e);
      assert ([] + [e])[1..] == [];
    } else {
      RunLonger(Step(l, es[0]), es[1..], e);
      assert (es + [e])[1..] == es[1..] + [e];
    }
  }

  /** One more step of a run. */
  lemma Extend(l: Link, es: seq<Event>, e: Event)
    requires ReadsFrames(l, es)
    requires var k := Run(l, es).core; (e.CRead? ==> k.down != []) && (e.SRead? ==> k.up != [])
    ensures Run(l, es + [e]) == Step(Run(l, es), e) && ReadsFrames(l, es + [e])
  {
    hide Step;
    RunLonger(l, es, e);
    assert (es + [e])[..|es|] == es;
  }

  lemma Unsent(id: uint64, out: seq<seq<byte>>)
    ensures Concat(out[..0]) == [] && Datas(id, out[..0]) == []
  {
  }

  lemma OneMore(id: uint64, out: seq<seq<byte>>, k: nat)
    requires k < |out|
    ensures Concat(out[..k + 1]) == Concat(out[..k]) + out[k]
    ensures Datas(id, out[..k + 1]) == Datas(id, out[..k]) + [Frame(DATA, id, out[k])]
  {
    assert out[..k + 1] == out[..k] + [out[k]];
    ConcatSplit(out[..k], [out[k]]);
    assert Concat([out[k]]) == out[k] + [];
  }

  lemma NoPayloads()
    ensures Payloads([])
  {
  }

  lemma CoupledStart()
    ensures Coupled(CONNECTED.core)
  {
  }

  // ---- Main results -------------------------------------------------------

  /** No interleaving of two honest ends, either of which may die at any time,
      reaches a protocol-error branch. */
  lemma NoProtocolError(es: seq<Event>)
    ensures !Run(CONNECTED, es).core.client.CFault?
    ensures !Run(CONNECTED, es).core.server.SFault?
  {
    CoupledStart();
    CoupledRun(CONNECTED, es);
  }

  /** Barrier safety: while the server's worker is with the pool, or on its way
      to a heartbeat, an OPEN or a goodbye, the client already counts its slot
      idle; and when the client decides whether its connection is surplus, no
      frame is under way in either direction. */
  lemma Barrier(es: seq<Event>)
    ensures var k := Run(CONNECTED, es).core;
            && (k.server.SPooled? || k.server.SPinging? || k.server.SRetiring? || k.server.SOpening? ==>
                  k.client.CIdle?)
            && (k.server.SAwaitPong? ==> k.client.CIdle? || k.client.CPonging?)
            && (k.client.CDeciding? || k.client.CReturning? || k.client.CSurplus? ==>
                  k.server == SAwaitBarrier(k.client.id) && k.up == [] && k.down == [])
  {
    CoupledStart();
    CoupledRun(CONNECTED, es);
  }

  /** Lease IDs are consecutive on both sides, and the client is never more
      than the one OPEN under way behind. */
  lemma LeaseIds(es: seq<Event>, e: Event)
    ensures var k, t := Run(CONNECTED, es).core, Step(Run(CONNECTED, es), e).core;
            && k.cLast <= k.sLast <= k.cLast + 1
            && (k.sLast == k.cLast + 1 <==> k.server.SOpening? || (k.server.SAwaitOpen? && k.client.CIdle?))
            && (t.sLast == k.sLast || (e.SLease? && t.sLast == k.sLast + 1 && t.server == SOpening(t.sLast)))
            && (t.cLast == k.cLast || (e.CRead? && t.cLast == k.cLast + 1 && t.client == CDialing(t.cLast)))
  {
    hide Run, Coupled, Step;
    CoupledStart();
    CoupledRun(CONNECTED, es);
    CountersAgree(Run(CONNECTED, es).core);
    CountersStep(Run(CONNECTED, es), e);
  }

  lemma CountersAgree(k: Core)
    requires Coupled(k)
    ensures k.cLast <= k.sLast <= k.cLast + 1
    ensures k.sLast == k.cLast + 1 <==> k.server.SOpening? || (k.server.SAwaitOpen? && k.client.CIdle?)
  {
  }

  lemma CountersStep(l: Link, e: Event)
    ensures var k, t := l.core, Step(l, e).core;
            && (t.sLast == k.sLast || (e.SLease? && t.sLast == k.sLast + 1 && t.server == SOpening(t.sLast)))
            && (t.cLast == k.cLast || (e.CRead? && t.cLast == k.cLast + 1 && t.client == CDialing(t.cLast)))
  {
    hide Valid, LogSent, LogGot;
  }

  predicate ClientCanAct(k: Core) {
    || k.client.CStart? || k.client.CDialing? || k.client.CDeciding? || CTurn(k.client).Some?
    || (ClientReads(k.client) && k.down != [])
    || (k.client.CRelay? && (!k.client.finSent || k.client.finRead))
  }

  predicate ServerCanAct(k: Core) {
    || k.server.SPooled? || STurn(k.server).Some?
    || (ServerReads(k.server) && k.up != [])
    || (k.server.SRelay? && (!k.server.finSent || k.server.finRead))
  }

  /** No deadlock: when one end can do nothing but wait for a frame, the other
      has something to do. */
  lemma NoDeadlock(es: seq<Event>)
    ensures var k := Run(CONNECTED, es).core;
            (ServerReads(k.server) && !ServerCanAct(k) ==> ClientCanAct(k))
            && (ClientReads(k.client) && !ClientCanAct(k) ==> ServerCanAct(k))
  {
    CoupledStart();
    CoupledRun(CONNECTED, es);
  }

  /** Isolation: a relay's reader only ever meets DATA or FIN of its own lease,
      so no frame of one lease is read during another and RELEASE is left for
      the barrier. */
  lemma Isolation(es: seq<Event>)
    ensures var k := Run(CONNECTED, es).core;
            && (k.client.CRelay? && !k.client.finRead && k.down != [] ==>
                  k.down[0].lease == k.client.id && (k.down[0].typ == DATA || k.down[0].typ == FIN))
            && (k.server.SRelay? && !k.server.finRead && k.up != [] ==>
                  k.up[0].lease == k.server.id && (k.up[0].typ == DATA || k.up[0].typ == FIN))
  {
    hide Coupled;
    CoupledStart();
    CoupledRun(CONNECTED, es);
    var k := Run(CONNECTED, es).core;
    if k.client.CRelay? && !k.client.finRead && k.down != [] {
      CoupledCRead(k);
    }
    if k.server.SRelay? && !k.server.finRead && k.up != [] {
      CoupledSRead(k, None);
    }
  }

  // ---- Fidelity -----------------------------------------------------------

  /** A lease's octets in one frame. */
  function Carries(f: Frame, id: uint64): seq<byte> {
    if f.typ == DATA && f.lease == id then f.payload else []
  }

  /** The DATA of a lease still on a channel. */
  function InFlight(ch: seq<Frame>, id: uint64): seq<byte> {
    if ch == [] then []
    else Carries(ch[0], id) + InFlight(ch[1..], id)
  }

  lemma {:induction false} InFlightAppend(ch: seq<Frame>, f: Frame, id: uint64)
    ensures InFlight(ch + [f], id) == InFlight(ch, id) + Carries(f, id)
  {
    hide InFlight, Carries;
    InFlightHead(ch + [f], id);
    assert InFlight([], id) == [] by { NothingInFlight(id); }
    if ch == [] {
      assert [f][1..] == [];
      assert ch + [f] == [f];
    } else {
      InFlightHead(ch, id);
      InFlightAppend(ch[1..], f, id);
      assert (ch + [f])[1..] == ch[1..] + [f];
    }
  }

  lemma NothingInFlight(id: uint64)
    ensures InFlight([], id) == []
  {
  }

  lemma {:induction false} InFlightNone(ch: seq<Frame>, id: uint64)
    requires forall i :: 0 <= i < |ch| && ch[i].typ == DATA ==> ch[i].lease != id
    ensures InFlight(ch, id) == []
  {
    if ch != [] {
      InFlightNone(ch[1..], id);
    }
  }

  /** Written is read plus under way, lease by lease. */
  ghost predicate Conserved(log: Log, ch: seq<Frame>) {
    forall id: uint64 :: At(log.sent, id) == At(log.got, id) + InFlight(ch, id)
  }

  /** A lease whose FIN was read is over in that direction. */
  ghost predicate UpFins(l: Link) {
    forall id :: id in l.up.fins ==>
      id <= l.core.sLast
      && (id == l.core.sLast ==>
            !(l.core.server.SOpening? || l.core.server.SAwaitOpen?
              || (l.core.server.SRelay? && !l.core.server.finRead)))
  }

  ghost predicate DownFins(l: Link) {
    forall id :: id in l.down.fins ==>
      id <= l.core.cLast
      && (id == l.core.cLast ==>
            !(l.core.client.CDialing? || l.core.client.CAnswering?
              || (l.core.client.CRelay? && !l.core.client.finRead)))
  }

  ghost predicate Faithful(l: Link) {
    Coupled(l.core) && Conserved(l.up, l.core.up) && Conserved(l.down, l.core.down) && UpFins(l) && DownFins(l)
  }

  lemma ConservedSend(log: Log, ch: seq<Frame>, f: Frame)
    requires Conserved(log, ch)
    ensures Conserved(LogSent(log, f), ch + [f])
  {
    hide InFlight, At, LogSent, Carries;
    forall id: uint64 ensures At(LogSent(log, f).sent, id) == At(LogSent(log, f).got, id) + InFlight(ch + [f], id) {
      InFlightAppend(ch, f, id);
      SentAt(log, f, id);
      Associates(At(log.got, id), InFlight(ch, id), Carries(f, id));
    }
  }

  lemma SentAt(log: Log, f: Frame, id: uint64)
    ensures At(LogSent(log, f).sent, id) == At(log.sent, id) + Carries(f, id)
    ensures LogSent(log, f).got == log.got
  {
  }

  lemma GotAt(log: Log, f: Frame, id: uint64)
    ensures At(LogGot(log, f).got, id) == At(log.got, id) + Carries(f, id)
    ensures LogGot(log, f).sent == log.sent
  {
  }

  lemma Associates(a: seq<byte>, b: seq<byte>, c: seq<byte>)
    ensures a + (b + c) == (a + b) + c
  {
  }

  lemma ConservedGot(log: Log, ch: seq<Frame>)
    requires Conserved(log, ch) && ch != []
    ensures Conserved(LogGot(log, ch[0]), ch[1..])
  {
    hide InFlight, At, LogGot, Carries;
    forall id: uint64
      ensures At(LogGot(log, ch[0]).sent, id) == At(LogGot(log, ch[0]).got, id) + InFlight(ch[1..], id)
    {
      InFlightHead(ch, id);
      GotAt(log, ch[0], id);
      Associates(At(log.got, id), Carries(ch[0], id), InFlight(ch[1..], id));
    }
  }

  lemma InFlightHead(ch: seq<Frame>, id: uint64)
    requires ch != []
    ensures InFlight(ch, id) == Carries(ch[0], id) + InFlight(ch[1..], id)
  {
  }

  lemma ConservedSkip(log: Log, ch: seq<Frame>)
    requires Conserved(log, ch) && ch != [] && ch[0].typ != DATA
    ensures Conserved(log, ch[1..])
  {
    forall id: uint64 ensures At(log.sent, id) == At(log.got, id) + InFlight(ch[1..], id) {
      assert At(log.sent, id) == At(log.got, id) + InFlight(ch, id);
    }
  }

  lemma ConservedClient(l: Link, e: Event)
    requires Faithful(l) && ByClient(e)
    ensures Conserved(ClientStep(l, e).up, ClientStep(l, e).core.up)
    ensures Conserved(ClientStep(l, e).down, ClientStep(l, e).core.down)
  {
    hide Conserved, Coupled, UpFins, DownFins, LogSent, LogGot, Valid;
    var k, c := l.core, l.core.client;
    match e {
      case CHello(hello) => ConservedSend(l.up, k.up, Frame(HELLO, 0, hello));
      case CWrite => if CTurn(c).Some? { ConservedSend(l.up, k.up, CTurn(c).value.0); }
      case CData(p) => if c.CRelay? { ConservedSend(l.up, k.up, Frame(DATA, c.id, p)); }
      case CFin => if c.CRelay? { ConservedSend(l.up, k.up, Control(FIN, c.id)); }
      case CRead =>
        if ClientReads(c) && k.down != [] {
          CoupledCRead(k);
          if c.CRelay? { ConservedGot(l.down, k.down); } else { ConservedSkip(l.down, k.down); }
        }
      case _ =>
    }
  }

  lemma ConservedServer(l: Link, e: Event)
    requires Faithful(l) && !ByClient(e)
    ensures Conserved(ServerStep(l, e).up, ServerStep(l, e).core.up)
    ensures Conserved(ServerStep(l, e).down, ServerStep(l, e).core.down)
  {
    hide Conserved, Coupled, UpFins, DownFins, LogSent, LogGot, Valid;
    var k, s := l.core, l.core.server;
    match e {
      case SWrite => if STurn(s).Some? { ConservedSend(l.down, k.down, STurn(s).value.0); }
      case SData(p) => if s.SRelay? { ConservedSend(l.down, k.down, Frame(DATA, s.id, p)); }
      case SFin => if s.SRelay? { ConservedSend(l.down, k.down, Control(FIN, s.id)); }
      case SRead(verdict) =>
        if ServerReads(s) && k.up != [] {
          CoupledSRead(k, verdict);
          if s.SRelay? { ConservedGot(l.up, k.up); } else { ConservedSkip(l.up, k.up); }
        }
      case _ =>
    }
  }

  lemma FinsClient(l: Link, e: Event)
    requires Faithful(l) && ByClient(e)
    ensures UpFins(ClientStep(l, e)) && DownFins(ClientStep(l, e))
  {
    hide Conserved, Coupled, Valid;
    if e.CRead? {
      hide CTake;
      FinsCRead(l);
    } else {
      hide LogSent;
      SentKeepsFins(l.up);
    }
  }

  lemma SentKeepsFins(log: Log)
    ensures forall f :: LogSent(log, f).fins == log.fins
  {
  }

  lemma FinsCRead(l: Link)
    requires Faithful(l)
    ensures UpFins(ClientStep(l, CRead)) && DownFins(ClientStep(l, CRead))
  {
    hide Conserved, Coupled;
    if ClientReads(l.core.client) && l.core.down != [] {
      CoupledCRead(l.core);
    }
  }

  lemma FinsServer(l: Link, e: Event)
    requires Faithful(l) && !ByClient(e)
    ensures UpFins(ServerStep(l, e)) && DownFins(ServerStep(l, e))
  {
    hide Conserved, Coupled, Valid;
    if e.SRead? && ServerReads(l.core.server) && l.core.up != [] {
      CoupledSRead(l.core, e.verdict);
    }
  }

  lemma FaithfulStep(l: Link, e: Event)
    requires Faithful(l)
    ensures Faithful(Step(l, e))
  {
    hide Conserved, Coupled, UpFins, DownFins;
    CoupledStep(l, e);
    if ByClient(e) {
      ConservedClient(l, e);
      FinsClient(l, e);
    } else {
      ConservedServer(l, e);
      FinsServer(l, e);
    }
  }

  lemma {:induction false} FaithfulRun(l: Link, es: seq<Event>)
    requires Faithful(l)
    ensures Faithful(Run(l, es))
    decreases |es|
  {
    hide Faithful, Step;
    if es != [] {
      FaithfulStep(l, es[0]);
      FaithfulRun(Step(l, es[0]), es[1..]);
    }
  }

  /** DATA on a channel belongs to the lease whose FIN its reader still
      awaits. */
  lemma CurrentLeaseOnly(k: Core)
    requires Coupled(k)
    ensures forall i :: 0 <= i < |k.up| && k.up[i].typ == DATA ==>
              k.up[i].lease == k.sLast && (k.server.SAwaitOpen? || (k.server.SRelay? && !k.server.finRead))
    ensures forall i :: 0 <= i < |k.down| && k.down[i].typ == DATA ==>
              k.down[i].lease == k.cLast && k.client.CRelay? && !k.client.finRead
  {
  }

  /** Fidelity: in every run and in both directions, what was read for a lease
      is a prefix of what was written for it, and all of it once its FIN was
      read. */
  lemma Fidelity(es: seq<Event>, id: uint64)
    ensures var l := Run(CONNECTED, es);
            && At(l.up.got, id) <= At(l.up.sent, id)
            && At(l.down.got, id) <= At(l.down.sent, id)
            && (id in l.up.fins ==> At(l.up.got, id) == At(l.up.sent, id))
            && (id in l.down.fins ==> At(l.down.got, id) == At(l.down.sent, id))
  {
    FaithfulRun(CONNECTED, es);
    var l := Run(CONNECTED, es);
    CurrentLeaseOnly(l.core);
    hide Coupled;
    assert At(l.up.sent, id) == At(l.up.got, id) + InFlight(l.core.up, id);
    assert At(l.down.sent, id) == At(l.down.got, id) + InFlight(l.core.down, id);
    if id in l.up.fins {
      InFlightNone(l.core.up, id);
    }
    if id in l.down.fins {
      InFlightNone(l.core.down, id);
    }
  }

  /** Settlement: outside the lease whose FIN a reader still awaits, every
      octet written has been read. In particular a lease that reached its
      barrier was delivered in full both ways, whoever died since. */
  lemma Settled(es: seq<Event>, id: uint64)
    ensures var l := Run(CONNECTED, es); var k := l.core;
            && (id != k.sLast || !(k.server.SAwaitOpen? || (k.server.SRelay? && !k.server.finRead)) ==>
                  At(l.up.got, id) == At(l.up.sent, id))
            && (id != k.cLast || !(k.client.CRelay? && !k.client.finRead) ==>
                  At(l.down.got, id) == At(l.down.sent, id))
  {
    FaithfulRun(CONNECTED, es);
    var l := Run(CONNECTED, es);
    CurrentLeaseOnly(l.core);
    hide Coupled;
    assert At(l.up.sent, id) == At(l.up.got, id) + InFlight(l.core.up, id);
    assert At(l.down.sent, id) == At(l.down.got, id) + InFlight(l.core.down, id);
    if id != l.core.sLast || !(l.core.server.SAwaitOpen? || (l.core.server.SRelay? && !l.core.server.finRead)) {
      InFlightNone(l.core.up, id);
    }
    if id != l.core.cLast || !(l.core.client.CRelay? && !l.core.client.finRead) {
      InFlightNone(l.core.down, id);
    }
  }

  // ---- The channels are the codec's ---------------------------------------

  ghost predicate Carried(l: Link) {
    && (forall i :: 0 <= i < |l.core.up| ==> Valid(l.core.up[i]))
    && (forall i :: 0 <= i < |l.core.down| ==> Valid(l.core.down[i]))
  }

  lemma {:induction false} CarriedRun(l: Link, es: seq<Event>)
    requires Carried(l)
    ensures Carried(Run(l, es))
    decreases |es|
  {
    hide Valid;
    if es != [] {
      CarriedRun(Step(l, es[0]), es[1..]);
    }
  }

  /** Every frame under way is one ReadFrame accepts, so the FIFO channels of
      this model are byte streams of encoded frames. */
  lemma ChannelsAreStreams(es: seq<Event>)
    ensures var k := Run(CONNECTED, es).core;
            && (forall i :: 0 <= i < |k.up| ==> Valid(k.up[i]))
            && (forall i :: 0 <= i < |k.down| ==> Valid(k.down[i]))
            && var up: seq<ValidFrame>, down: seq<ValidFrame> := k.up, k.down;
               ParseAll(EncodeAll(up)) == up && ParseAll(EncodeAll(down)) == down
  {
    CarriedRun(CONNECTED, es);
    var k := Run(CONNECTED, es).core;
    var up: seq<ValidFrame>, down: seq<ValidFrame> := k.up, k.down;
    hide Parse, ParseAll, EncodeAll;
    assert !Parse([]).Parsed? by { NothingParsed(); }
    FrameStreamRoundTrip(up, []);
    FrameStreamRoundTrip(down, []);
    assert EncodeAll(up) + [] == EncodeAll(up) && EncodeAll(down) + [] == EncodeAll(down);
  }
}
