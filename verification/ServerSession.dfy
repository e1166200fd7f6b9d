/** The server's goroutine of one connection as it runs, from HELLO to close:
    each method is the code's, and moves the state machine of Lease along by
    the steps it takes. What the pool's Idle and Next answer is the
    environment's. */
module ServerSession {
  import opened Bytes
  import opened Protocol
  import L = Lease
  import LS = LeaseSafety

  /** Why work returned. */
  datatype Reason = Shutdown | Expired | ClientClose | Error

  datatype Outcome = Ready | IdleExpired | IdleStopped
  datatype Next = Check | Leased | NextExpired | NextStopped

  /** An answer of the pool's Idle or Next. */
  datatype Answer = IdleSaid(outcome: Outcome) | NextSaid(next: Next)

  /** What an answer wants done on the connection. */
  datatype Order = DoCheck | DoLease | DoExpire

  function OrderOf(a: Answer): seq<Order> {
    match a
    case IdleSaid(o) => if o.IdleExpired? then [DoExpire] else []
    case NextSaid(n) =>
      match n
      case Check => [DoCheck]
      case Leased => [DoLease]
      case NextExpired => [DoExpire]
      case NextStopped => []
  }

  function Orders(answers: seq<Answer>): seq<Order> {
    if answers == [] then [] else Orders(answers[..|answers| - 1]) + OrderOf(answers[|answers| - 1])
  }

  /** What a step of the machine does of it. */
  function Does(e: L.Event): seq<Order> {
    match e
    case SCheck(_) => [DoCheck]
    case SLease => [DoLease]
    case SExpire => [DoExpire]
    case _ => []
  }

  function Asked(trace: seq<L.Event>): seq<Order> {
    if trace == [] then [] else Asked(trace[..|trace| - 1]) + Does(trace[|trace| - 1])
  }

  lemma AskedMore(trace: seq<L.Event>, e: L.Event)
    ensures Asked(trace + [e]) == Asked(trace) + Does(e)
  {
    assert (trace + [e])[..|trace|] == trace;
  }


  predicate GoesOn(a: Answer) {
    a == IdleSaid(Ready) || a == NextSaid(Check) || a == NextSaid(Leased)
  }

  /** The pool is asked in turn: Idle first, Next after each Ready, and Idle
      again after each Check or Leased; any other answer is the last. */
  predicate InTurn(answers: seq<Answer>) {
    && (forall i :: 0 <= i < |answers| ==> (answers[i].IdleSaid? <==> i % 2 == 0))
    && (forall i :: 0 <= i < |answers| - 1 ==> GoesOn(answers[i]))
  }

  /** One more answer. */
  lemma Answered(answers: seq<Answer>, a: Answer)
    requires InTurn(answers) && (answers != [] ==> GoesOn(answers[|answers| - 1]))
    requires a.IdleSaid? <==> |answers| % 2 == 0
    ensures InTurn(answers + [a]) && Orders(answers + [a]) == Orders(answers) + OrderOf(a)
  {
    hide OrderOf, GoesOn;
    assert (answers + [a])[..|answers|] == answers;
  }

  /** Why work returned, by the last answer. */
  predicate Follows(reason: Reason, last: Answer) {
    match reason
    case Shutdown => last == IdleSaid(IdleStopped) || last == NextSaid(NextStopped)
    case Expired => last == IdleSaid(IdleExpired) || last == NextSaid(NextExpired)
    case ClientClose => last == NextSaid(Leased)
    case Error => last == NextSaid(Check) || last == NextSaid(Leased)
  }

  /** The server's half of a connection to which the frames `up` will
      arrive. */
  function Begin(up: seq<Frame>): L.Link {
    L.CONNECTED.(core := L.CONNECTED.core.(up := up))
  }

  /** It will read nothing more. */
  predicate Rejecting(s: L.Server) {
    s.SRejecting? || s.SDone?
  }

  /** RELEASE goes out after Releasing was called for its lease. */
  predicate InOrder(releasing: bool, s: L.Server) {
    && (s.SAwaitBarrier? ==> releasing)
    && (s.SOpening? || s.SAwaitOpen? || s.SRelay? ==> !releasing)
  }

  class Session {
    const conn: Conn
    var releasing: bool       // whether Releasing was called since the last Idle
    // The machine's view: what arrives, the state, the steps so far, the frames
    // written and the part of one that was cut off.
    ghost const arrives: seq<byte>
    ghost var l: L.Link
    ghost var trace: seq<L.Event>
    ghost var sent: seq<ValidFrame>
    ghost var tail: seq<byte>
    // What the pool answered, what was done of it on the connection, and
    // whether a relay ended because of its local socket or codec.
    ghost var answers: seq<Answer>
    ghost var asked: seq<Order>
    ghost var aborted: bool

    /** The machine is where its steps lead. */
    ghost predicate Tracked()
      reads `l, `trace, `asked
    {
      && l == L.Run(Begin(ParseAll(arrives)), trace) && L.ReadsFrames(Begin(ParseAll(arrives)), trace)
      && (forall i :: 0 <= i < |trace| ==> !L.ByClient(trace[i]))
      && asked == Asked(trace)
    }

    /** What was written is the machine's frames, and what is still to be read,
        until it rejects, is the frames it has not read; RELEASE is written only
        after Releasing. */
    ghost predicate Valid()
      reads this, conn.raw
    {
      && conn.Sized() && Tracked()
      && sent == l.core.down && conn.raw.outbound == EncodeAll(sent) + tail && Cut(tail)
      && (l.sAlive ==> tail == [] && !aborted)
      && (l.sAlive && !Rejecting(l.core.server) ==>
            ParseAll(conn.raw.inbound) == l.core.up && Leftover(conn.raw.inbound) == Leftover(arrives))
      && InOrder(releasing, l.core.server)
    }

    /** No frame can be read: the stream failed a read, or what arrives is
        malformed after its complete frames. */
    ghost predicate Unreadable()
      reads this, conn.raw
    {
      conn.raw.readFault || Parse(Leftover(arrives)).Malformed?
    }

    /** A cause outside the protocol: the stream failed, or a relay's local
        side. */
    ghost predicate Failed()
      reads this, conn.raw
    {
      Unreadable() || conn.raw.writeFault || aborted
    }

    /** How a failing part leaves the connection: dead for such a cause, or
        having met a frame it rejects. */
    ghost predicate Ended()
      reads this, conn.raw
    {
      if l.sAlive then l.core.server.SFault? else Failed()
    }

    /** A connection just made; `inbound` is all that will ever arrive. */
    constructor (conn: Conn)
      requires conn.Sized() && conn.raw.outbound == []
      ensures Valid() && this.conn == conn && trace == [] && arrives == conn.raw.inbound
      ensures l == Begin(ParseAll(arrives)) && !releasing && answers == [] && asked == []
    {
      this.conn, releasing, arrives := conn, false, conn.raw.inbound;
      l, trace, sent, tail := Begin(ParseAll(conn.raw.inbound)), [], [], [];
      answers, asked, aborted := [], [], false;
      new;
      CutNothing();
      assert EncodeAll([]) + [] == [];
    }

    /** The machine takes a step that does no I/O. */
    ghost method Move(e: L.Event)
      requires Valid() && !L.ByClient(e) && !e.SRead? && Does(e) == []
      requires var n := L.Step(l, e);
               && n.core.up == l.core.up && n.core.down == l.core.down && (n.sAlive ==> l.sAlive)
               && (Rejecting(l.core.server) ==> Rejecting(n.core.server))
               && InOrder(releasing, n.core.server)
      modifies this`l, this`trace
      ensures Valid() && l == L.Step(old(l), e)
    {
      hide L.Step, Tracked, EncodeAll, ParseAll, Leftover, Cut, InOrder, Rejecting, Does;
      Take(e);
    }

    /** And one that an answer of the pool asks for. */
    ghost method Ask(e: L.Event)
      requires Valid() && l.sAlive && l.core.server.SPooled? && !L.ByClient(e) && !e.SRead?
      requires var n := L.Step(l, e);
               n.core.up == l.core.up && n.core.down == l.core.down && InOrder(releasing, n.core.server)
      modifies this`l, this`trace, this`asked
      ensures Valid() && l == L.Step(old(l), e) && asked == old(asked) + Does(e)
    {
      hide L.Step, L.ReadsFrames, EncodeAll, ParseAll, Leftover, Cut, InOrder, Asked, Does;
      LS.Extend(Begin(ParseAll(arrives)), trace, e);
      AskedMore(trace, e);
      asked := asked + Does(e);
      l, trace := L.Step(l, e), trace + [e];
    }

    /** All that the pool's answers asked for was done, and the goroutine has the
        connection to itself. */
    ghost predicate Settled()
      reads this
    {
      && l.sAlive && l.core.server.SPooled? && asked == Orders(answers)
      && InTurn(answers) && (answers != [] ==> GoesOn(answers[|answers| - 1]))
    }

    /** The pool's Idle. */
    method Idle() returns (o: Outcome)
      requires Valid() && Settled() && |answers| % 2 == 0
      modifies this`releasing, this`answers
      ensures Valid() && !releasing && answers == old(answers) + [IdleSaid(o)] && InTurn(answers)
      ensures Orders(answers) == asked + if o.IdleExpired? then [DoExpire] else []
      ensures o.Ready? ==> Settled()
    {
      hide InTurn, Orders, Tracked, Cut, EncodeAll, ParseAll, Leftover;
      o := *;
      releasing := false;
      Answered(answers, IdleSaid(o));
      answers := answers + [IdleSaid(o)];
    }

    /** The pool's Next. */
    method Next() returns (next: Next)
      requires Valid() && Settled() && |answers| % 2 == 1
      modifies this`answers
      ensures Valid() && answers == old(answers) + [NextSaid(next)] && InTurn(answers)
      ensures Orders(answers) == asked + match next
                                         case Check => [DoCheck]
                                         case Leased => [DoLease]
                                         case NextExpired => [DoExpire]
                                         case NextStopped => []
    {
      hide InTurn, Orders, Tracked, Cut, EncodeAll, ParseAll, Leftover;
      next := *;
      Answered(answers, NextSaid(next));
      answers := answers + [NextSaid(next)];
    }

    /** The pool's Releasing. */
    method Releasing()
      requires Valid() && l.core.server.SReleasing?
      modifies this`releasing
      ensures Valid() && releasing
    {
      releasing := true;
    }

    /** The machine's step `e` sends `f` and leads to `next`. */
    static predicate Sends(s: L.Server, e: L.Event, f: Frame, next: L.Server) {
      match e
      case SWrite => L.STurn(s) == Some((f, next))
      case SData(p) => s.SRelay? && !s.finSent && f == Frame(DATA, s.id, p) && next == s
      case SFin => s.SRelay? && !s.finSent && f == L.Control(FIN, s.id) && next == L.SRelay(s.id, true, s.finRead)
      case _ => false
    }

    static lemma SendStep(l: L.Link, e: L.Event, f: Frame, next: L.Server)
      requires l.sAlive && Sends(l.core.server, e, f, next)
      ensures !L.ByClient(e) && !e.SRead? && Does(e) == [] && L.Step(l, e) == L.SSend(l, f, next)
      ensures Rejecting(l.core.server) ==> Rejecting(next)
      ensures !Protocol.Valid(f) ==> L.Step(l, e) == l.(sAlive := false)
    {
    }

    /** WriteFrame for the machine's step `e`, which sends `f`. A write that
        fails may still have written it all. */
    method Send(f: Frame, ghost e: L.Event, ghost next: L.Server) returns (failed: bool)
      requires Valid() && l.sAlive && Sends(l.core.server, e, f, next) && InOrder(releasing, next)
      modifies this`l, this`trace, this`sent, this`tail, conn.raw`outbound, conn.raw`writeFault, conn.writeHeader
      ensures Valid() && failed == !l.sAlive
      ensures !failed ==> Protocol.Valid(f) && l == L.SSend(old(l), f, next) && sent == old(sent) + [f]
      ensures failed ==> conn.raw.writeFault || !Protocol.Valid(f)
      ensures l.up == old(l.up)
    {
      hide L.Step, L.SSend, Encode, EncodeAll, ParseAll, Leftover, Sends, Tracked, Cut, InOrder, Rejecting,
           Protocol.Valid;
      SendStep(l, e, f, next);
      ghost var before := conn.raw.outbound;
      failed := conn.WriteFrame(f);
      if !Protocol.Valid(f) {
        Take(e);
      } else if conn.raw.outbound == before + Encode(f) {
        Wrote(f, e, next);
        if failed {
          Die();
        }
      } else {
        Fell(before, f);
      }
    }

    /** Part of the frame is written. */
    ghost method Fell(before: seq<byte>, f: ValidFrame)
      requires conn.Sized() && Tracked() && l.sAlive && !aborted && InOrder(releasing, l.core.server)
      requires sent == l.core.down && before == EncodeAll(sent)
      requires before <= conn.raw.outbound <= before + Encode(f) && conn.raw.outbound != before + Encode(f)
      modifies this`l, this`trace, this`tail
      ensures Valid() && l == old(l).(sAlive := false)
    {
      hide Encode, EncodeAll, ParseAll, Leftover, Tracked, Cut, InOrder;
      tail := CutOff(before, f, conn.raw.outbound);
      Die();
    }

    /** The whole frame is written. */
    ghost method Wrote(f: ValidFrame, e: L.Event, next: L.Server)
      requires Tracked() && l.sAlive && Sends(l.core.server, e, f, next)
      requires sent == l.core.down && conn.raw.outbound == EncodeAll(sent) + Encode(f)
      modifies this`l, this`trace, this`sent
      ensures Tracked() && l == L.SSend(old(l), f, next) && l.sAlive && l.core.up == old(l.core.up)
      ensures l.core.server == next && l.up == old(l.up)
      ensures sent == old(sent) + [f] == l.core.down && conn.raw.outbound == EncodeAll(sent)
    {
      hide L.Step, L.Run, Encode, EncodeAll, ParseAll, Sends, L.ReadsFrames, L.LogSent, Begin, Tracked;
      SendStep(l, e, f, next);
      EncodeAllSplit(sent, [f]);
      EncodeOne(f);
      Take(e);
      sent := sent + [f];
    }

    ghost method Take(e: L.Event)
      requires Tracked() && !L.ByClient(e) && !e.SRead? && Does(e) == []
      modifies this`l, this`trace
      ensures Tracked() && l == L.Step(old(l), e)
    {
      hide L.Step, L.ReadsFrames, L.Run, ParseAll, Asked, Does;
      LS.Extend(Begin(ParseAll(arrives)), trace, e);
      AskedMore(trace, e);
      l, trace := L.Step(l, e), trace + [e];
    }

    ghost method Die()
      requires Tracked() && l.sAlive
      modifies this`l, this`trace
      ensures Tracked() && l == old(l).(sAlive := false)
    {
      hide Tracked;
      Take(L.SDies);
    }

    /** ReadFrame, in a phase that reads; `verdict` is what the server will say
        to a HELLO. Without one it gives up, and is free to say so. */
    method Receive(ghost verdict: Option<seq<byte>>) returns (failed: bool, f: Frame)
      requires Valid() && l.sAlive && L.ServerReads(l.core.server)
      modifies this`l, this`trace, conn.raw`inbound, conn.raw`readFault, conn.readBuf
      ensures Valid()
      ensures !failed ==> Protocol.Valid(f) && old(l.core.up) != [] && f == old(l.core.up[0])
                          && l == L.Step(old(l), L.SRead(verdict)) && l.core == L.STake(old(l.core), verdict)
                          && l.sAlive && old(l.core.up) == [f] + l.core.up
                          && |conn.raw.inbound| < old(|conn.raw.inbound|)
      ensures failed ==>
                && l == (if old(l.core.server.SHello?)
                         then old(l).(core := old(l.core).(server := L.SRejecting(L.INCOMPATIBLE)))
                         else old(l).(sAlive := false))
                && Unreadable() && Failed()
    {
      hide L.Step, Encode, EncodeAll, Parse, Tracked, Cut;
      ghost var b := conn.raw.inbound;
      var r := conn.ReadFrame();
      failed := !r.Got?;
      f := if failed then Frame(0, 0, []) else Frame(r.typ, r.lease, conn.readBuf[..r.length]);
      if !failed {
        ParseAllStep(b);
        Reading(l, verdict);
        TakeRead(verdict);
      } else {
        if r.BadFrame? {
          NothingWhole(b);
        }
        if l.core.server.SHello? {
          GivingUp(l);
          Take(L.SGiveUp);
        } else {
          Die();
        }
      }
    }

    static lemma GivingUp(l: L.Link)
      requires l.sAlive && l.core.server.SHello?
      ensures L.Step(l, L.SGiveUp) == l.(core := l.core.(server := L.SRejecting(L.INCOMPATIBLE)))
    {
    }

    ghost method TakeRead(verdict: Option<seq<byte>>)
      requires Tracked() && l.sAlive && L.ServerReads(l.core.server) && l.core.up != []
      modifies this`l, this`trace
      ensures Tracked() && l == L.Step(old(l), L.SRead(verdict))
    {
      hide L.Step, L.ReadsFrames, L.Run, ParseAll, Asked;
      LS.Extend(Begin(ParseAll(arrives)), trace, L.SRead(verdict));
      AskedMore(trace, L.SRead(verdict));
      l, trace := L.Step(l, L.SRead(verdict)), trace + [L.SRead(verdict)];
    }

    static lemma Reading(l: L.Link, verdict: Option<seq<byte>>)
      requires l.sAlive && L.ServerReads(l.core.server) && l.core.up != []
      ensures var t := L.Step(l, L.SRead(verdict));
              && t.core == L.STake(l.core, verdict) && t.sAlive && l.core.up == [l.core.up[0]] + t.core.up
              && (forall r :: InOrder(r, l.core.server) ==> InOrder(r, t.core.server))
    {
      hide L.LogGot;
    }

    /** The outgoing pump: one DATA frame. */
    method PumpData(id: uint64, p: seq<byte>) returns (failed: bool)
      requires Valid() && l.sAlive && l.core.server.SRelay? && l.core.server.id == id && !l.core.server.finSent
      requires !releasing && 1 <= |p| <= MAX_DATA
      modifies this`l, this`trace, this`sent, this`tail, conn.raw`outbound, conn.raw`writeFault, conn.writeHeader
      ensures Valid() && failed == !l.sAlive && l.up == old(l.up) && (failed ==> Ended())
      ensures !failed ==> l.core.server == old(l.core.server) && l.core.sLast == old(l.core.sLast)
                          && L.At(l.down.sent, id) == old(L.At(l.down.sent, id)) + p
                          && sent == old(sent) + [Frame(DATA, id, p)]
    {
      hide L.Step, Valid, L.LogSent, L.At;
      ghost var log := l.down;
      failed := Send(Frame(DATA, id, p), L.SData(p), l.core.server);
      LS.SentAt(log, Frame(DATA, id, p), id);
    }

    /** And its FIN. */
    method PumpFin(id: uint64) returns (failed: bool)
      requires Valid() && l.sAlive && l.core.server.SRelay? && l.core.server.id == id && !l.core.server.finSent
      requires !releasing
      modifies this`l, this`trace, this`sent, this`tail, conn.raw`outbound, conn.raw`writeFault, conn.writeHeader
      ensures Valid() && failed == !l.sAlive && l.up == old(l.up) && (failed ==> Ended())
      ensures !failed ==> l.core.server == L.SRelay(id, true, old(l.core.server.finRead))
                          && l.core.sLast == old(l.core.sLast) && L.At(l.down.sent, id) == old(L.At(l.down.sent, id))
                          && sent == old(sent) + [L.Control(FIN, id)]
    {
      hide L.Step, Valid, L.LogSent, L.At;
      ghost var log := l.down;
      failed := Send(L.Control(FIN, id), L.SFin, L.SRelay(id, true, l.core.server.finRead));
      LS.SentAt(log, L.Control(FIN, id), id);
    }

    /** One turn of the outgoing pump: the next of its writes, or FIN. */
    method PumpOut(id: uint64, out: seq<seq<byte>>, k: nat) returns (failed: bool)
      requires Valid() && l.sAlive && l.core.server.SRelay? && l.core.server.id == id && !l.core.server.finSent
      requires !releasing && L.Payloads(out) && k <= |out|
      modifies this`l, this`trace, this`sent, this`tail, conn.raw`outbound, conn.raw`writeFault, conn.writeHeader
      ensures Valid() && failed == !l.sAlive && l.up == old(l.up) && (failed ==> Ended())
      ensures !failed ==> l.core.server == L.SRelay(id, k == |out|, old(l.core.server.finRead))
                          && l.core.sLast == old(l.core.sLast)
      ensures !failed && k < |out| ==> L.At(l.down.sent, id) == old(L.At(l.down.sent, id)) + out[k]
                                       && sent == old(sent) + [Frame(DATA, id, out[k])]
      ensures !failed && k == |out| ==> L.At(l.down.sent, id) == old(L.At(l.down.sent, id))
                                        && sent == old(sent) + [L.Control(FIN, id)]
    {
      hide L.Step, Valid, L.At, Failed, Ended;
      if k == |out| {
        failed := PumpFin(id);
      } else {
        failed := PumpData(id, out[k]);
      }
    }

    /** The incoming pump: the octets of one DATA frame, or the lease's FIN. */
    method PumpIn(id: uint64) returns (failed: bool, fin: bool, p: seq<byte>)
      requires Valid() && l.sAlive && l.core.server.SRelay? && l.core.server.id == id && !l.core.server.finRead
      modifies this`l, this`trace, conn.raw`inbound, conn.raw`readFault, conn.readBuf
      ensures Valid() && l.down == old(l.down)
      ensures L.At(l.up.got, id) == old(L.At(l.up.got, id)) + p
      ensures !failed ==> l.sAlive && l.core.server == L.SRelay(id, old(l.core.server.finSent), fin)
                          && l.core.sLast == old(l.core.sLast) && |conn.raw.inbound| < old(|conn.raw.inbound|)
      ensures failed ==> Ended()
    {
      hide L.Step, Valid, L.LogGot, L.At, Failed;
      ghost var k := l;
      fin, p := false, [];
      var f;
      failed, f := Receive(None);
      if failed {
        return;
      }
      Logged(k, id);
      LS.GotAt(k.up, f, id);
      if f.lease != id || (f.typ != DATA && f.typ != FIN) {
        return true, false, [];
      }
      fin := f.typ == FIN;
      p := if fin then [] else f.payload;
    }

    /** Run's abort: the local socket or the codec failed a pump. */
    ghost method Abort()
      requires Valid() && l.sAlive
      modifies this`l, this`trace, this`aborted
      ensures Valid() && !l.sAlive && aborted && l.up == old(l.up)
    {
      hide Tracked, ParseAll, Leftover, EncodeAll, Cut;
      Die();
      aborted := true;
    }

    /** Run: the two pumps in any order, one sending `out` and then FIN, the
        other delivering what it reads, up to the lease's FIN. Either may fail
        on its local side at any time. */
    method Relay(id: uint64, out: seq<seq<byte>>) returns (failed: bool, got: seq<byte>)
      requires Valid() && l.sAlive && l.core.server == L.SRelay(id, false, false) && !releasing && L.Payloads(out)
      modifies this`l, this`trace, this`sent, this`tail, this`aborted, conn.raw, conn.readBuf, conn.writeHeader
      ensures Valid()
      ensures !failed ==> l.sAlive && l.core.server == L.SReleasing(id) && l.core.sLast == old(l.core.sLast)
                          && |conn.raw.inbound| <= old(|conn.raw.inbound|)
                          && L.At(l.down.sent, id) == old(L.At(l.down.sent, id)) + Concat(out)
                          && sent == old(sent) + L.Datas(id, out) + [L.Control(FIN, id)]
      ensures L.At(l.up.got, id) == old(L.At(l.up.got, id)) + got
      ensures failed ==> Ended()
    {
      hide L.Step, Valid, L.At, Concat, L.Datas, Failed, Ended, L.Payloads;
      var k: nat := 0;
      var finSent, finRead := false, false;
      got := [];
      ghost var before, gone, frames := L.At(l.up.got, id), L.At(l.down.sent, id), sent;
      LS.Unsent(id, out);
      while !finSent || !finRead
        invariant Valid() && l.sAlive && l.core.server == L.SRelay(id, finSent, finRead)
        invariant l.core.sLast == old(l.core.sLast) && |conn.raw.inbound| <= old(|conn.raw.inbound|)
        invariant L.At(l.up.got, id) == before + got
        invariant k <= |out| && (finSent ==> k == |out|)
        invariant L.At(l.down.sent, id) == gone + Concat(out[..k])
        invariant sent == frames + L.Datas(id, out[..k]) + (if finSent then [L.Control(FIN, id)] else [])
        decreases |conn.raw.inbound|, |out| - k, !finSent
      {
        var broken, write := *, *;
        if broken {
          assert L.At(l.up.got, id) == before + got;
          Abort();
          assert Ended() by { Broken(); }
          return true, got;
        }
        if !finRead && (finSent || !write) {
          var p;
          failed, finRead, p := PumpIn(id);
          got := got + p;
        } else {
          failed := PumpOut(id, out, k);
          finSent := k == |out|;
          if !finSent {
            LS.OneMore(id, out, k);
            k := k + 1;
          }
        }
        if failed {
          return;
        }
      }
      assert out[..k] == out;
      RelayOver(l);
      Move(L.SRunEnds);
      failed := false;
    }

    lemma Broken()
      requires Valid() && !l.sAlive && aborted
      ensures Ended()
    {
      hide Valid;
    }

    /** What a relay's read does to the logs. */
    static lemma Logged(l: L.Link, id: uint64)
      requires l.sAlive && L.ServerReads(l.core.server) && l.core.up != []
      ensures var t := L.Step(l, L.SRead(None));
              && t.down == l.down
              && (l.core.server.SRelay? && l.core.server.id == id ==>
                    t.up == if l.core.up[0].lease == id then L.LogGot(l.up, l.core.up[0]) else l.up)
    {
      hide L.STake;
    }

    static lemma RelayOver(l: L.Link)
      requires l.sAlive && l.core.server.SRelay? && l.core.server.finSent && l.core.server.finRead
      ensures L.Step(l, L.SRunEnds) == l.(core := l.core.(server := L.SReleasing(l.core.server.id)))
    {
    }

    /** Writes the frame the phase calls for. */
    method Turn(f: Frame, ghost next: L.Server) returns (failed: bool)
      requires Valid() && l.sAlive && L.STurn(l.core.server) == Some((f, next)) && InOrder(releasing, next)
      modifies this`l, this`trace, this`sent, this`tail, conn.raw`outbound, conn.raw`writeFault, conn.writeHeader
      ensures Valid() && failed == !l.sAlive
      ensures !failed ==> Protocol.Valid(f) && l.core.server == next && l.core.sLast == old(l.core.sLast)
                          && l.core.up == old(l.core.up) && sent == old(sent) + [f]
      ensures failed ==> Failed() || !Protocol.Valid(f)
    {
      hide Valid;
      failed := Send(f, L.SWrite, next);
    }

    /** A HELLO is the first frame. */
    static predicate Greets(up: seq<Frame>) {
      up != [] && up[0].typ == HELLO && up[0].lease == 0
    }

    /** register, once the HELLO's contents are judged: `verdict` holds the
        HELLO_ERR a rejected one is answered with. `timely` is CompleteAuth. It
        succeeds with HELLO and READY read and HELLO_OK written. It refuses, with
        HELLO_ERR, a HELLO judged so, what is no HELLO and a stream that yields
        none. Otherwise READY was not what was read, or the connection is given
        up: for a cause, not in time, or with a code that fits no frame. */
    method Register(verdict: Option<seq<byte>>, timely: bool) returns (ok: bool)
      requires Valid() && l.sAlive && l.core.server.SHello? && l.core.sLast == 0 && !releasing
      modifies this`l, this`trace, this`sent, this`tail, conn.raw, conn.readBuf, conn.writeHeader
      ensures Valid()
      ensures ok ==> verdict.None? && timely && l.sAlive && l.core.server.SPooled? && l.core.sLast == 0
      ensures ok ==> Greets(old(l.core.up)) && old(|l.core.up|) >= 2 && old(l.core.up[1]) == L.Control(READY, 0)
                     && sent == old(sent) + [L.Control(HELLO_OK, 0)]
      ensures !ok && l.sAlive ==> l.core.server == L.SDone(L.Refused) || l.core.server == L.SFault(L.BadReady)
      ensures !ok && l.sAlive && l.core.server == L.SDone(L.Refused) ==>
                || ((Unreadable() || !Greets(old(l.core.up)))
                    && sent == old(sent) + [Frame(HELLO_ERR, 0, L.INCOMPATIBLE)])
                || (verdict.Some? && Greets(old(l.core.up)) && sent == old(sent) + [Frame(HELLO_ERR, 0, verdict.value)])
      ensures !ok && l.sAlive && l.core.server == L.SFault(L.BadReady) ==>
                verdict.None? && Greets(old(l.core.up)) && old(|l.core.up|) >= 2
                && (old(l.core.up[1]).typ != READY || old(l.core.up[1]).lease != 0)
      ensures !ok && !l.sAlive ==>
                Failed() || !timely || (verdict.Some? && !Protocol.Valid(Frame(HELLO_ERR, 0, verdict.value)))
    {
      hide L.Step, Valid, Parse, Leftover;
      var failed, f := Receive(verdict);
      if failed || f.typ != HELLO || f.lease != 0 {
        Reject();
        return false;
      }
      if verdict.Some? {
        failed := Turn(Frame(HELLO_ERR, 0, verdict.value), L.SDone(L.Refused));
        return false;
      }
      failed := Turn(L.Control(HELLO_OK, 0), L.SAwaitReady);
      if failed {
        return false;
      }
      failed, f := Receive(None);
      if failed || f.typ != READY || f.lease != 0 {
        return false;
      }
      if !timely {
        Fail();
        return false;
      }
      ok := true;
    }

    /** An error that ends the goroutine without I/O. */
    ghost method Fail()
      requires Valid() && l.sAlive
      modifies this`l, this`trace
      ensures Valid() && l == old(l).(sAlive := false)
    {
      hide Tracked, ParseAll, Leftover, EncodeAll, Cut;
      Die();
    }

    /** reject, of what was no HELLO. */
    method Reject()
      requires Valid() && l.sAlive
      requires l.core.server == L.SRejecting(L.INCOMPATIBLE) || l.core.server == L.SFault(L.BadHello)
      modifies this`l, this`trace, this`sent, this`tail, conn.raw`outbound, conn.raw`writeFault, conn.writeHeader
      ensures Valid()
      ensures if l.sAlive then
                l.core.server == L.SDone(L.Refused) && sent == old(sent) + [Frame(HELLO_ERR, 0, L.INCOMPATIBLE)]
              else Failed()
    {
      var failed := Turn(Frame(HELLO_ERR, 0, L.INCOMPATIBLE), L.SDone(L.Refused));
    }

    static lemma AsksCheck(l: L.Link, nonce: seq<byte>)
      requires l.sAlive && l.core.server.SPooled? && |nonce| == 8
      ensures L.Step(l, L.SCheck(nonce)) == l.(core := l.core.(server := L.SPinging(nonce)))
    {
    }

    static lemma AsksExpire(l: L.Link)
      requires l.sAlive && l.core.server.SPooled?
      ensures L.Step(l, L.SExpire) == l.(core := l.core.(server := L.SRetiring))
    {
    }

    static lemma AsksLease(l: L.Link)
      requires l.sAlive && l.core.server.SPooled?
      ensures L.Step(l, L.SLease)
              == if l.core.sLast == MAX_UINT64 then l.(sAlive := false)
                 else l.(core := l.core.(sLast := l.core.sLast + 1, server := L.SOpening(l.core.sLast + 1)))
    {
    }

    /** heartbeat, with the nonce it drew: PING goes out, and PONG with the same
        nonce comes back. */
    method Heartbeat(nonce: seq<byte>) returns (failed: bool)
      requires Valid() && l.sAlive && l.core.server.SPooled? && |nonce| == 8
      modifies this`l, this`trace, this`asked, this`sent, this`tail, conn.raw, conn.readBuf, conn.writeHeader
      ensures Valid() && asked == old(asked) + [DoCheck]
      ensures !failed ==> l.sAlive && l.core.server.SPooled? && l.core.sLast == old(l.core.sLast)
                          && |conn.raw.inbound| < old(|conn.raw.inbound|)
      ensures !failed ==> sent == old(sent) + [Frame(PING, 0, nonce)]
                          && old(l.core.up) == [Frame(PONG, 0, nonce)] + l.core.up
      ensures failed ==> Ended()
    {
      hide L.Step, Valid, Failed;
      AsksCheck(l, nonce);
      Ask(L.SCheck(nonce));
      failed := Turn(Frame(PING, 0, nonce), L.SAwaitPong(nonce));
      if failed {
        return;
      }
      var f;
      failed, f := Receive(None);
      if failed {
        return;
      }
      Pong(f, nonce);
      failed := f.typ != PONG || f.lease != 0 || f.payload != nonce;
    }

    static lemma Pong(f: Frame, nonce: seq<byte>)
      ensures f.typ == PONG && f.lease == 0 && f.payload == nonce ==> f == Frame(PONG, 0, nonce)
    {
    }

    /** lease, up to the end of the relay: OPEN goes out, and then, if OPEN_OK
        comes back, what the visitor sends, up to FIN. */
    method Open(id: uint64, out: seq<seq<byte>>) returns (failed: bool)
      requires Valid() && l.sAlive && l.core.server == L.SOpening(id) && !releasing && L.Payloads(out)
      modifies this`l, this`trace, this`sent, this`tail, this`aborted, conn.raw, conn.readBuf, conn.writeHeader
      ensures Valid()
      ensures !failed ==> l.sAlive && l.core.server == L.SReleasing(id) && l.core.sLast == old(l.core.sLast)
                          && |conn.raw.inbound| < old(|conn.raw.inbound|)
      ensures !failed ==>
                && old(l.core.up) != []
                && var reply := old(l.core.up[0]);
                   && reply.lease == id && (reply.typ == OPEN_OK || reply == Frame(OPEN_ERR, id, L.DIAL_FAILED))
                   && sent == old(sent) + [L.Control(OPEN, id)]
                              + if reply.typ == OPEN_OK then L.Datas(id, out) + [L.Control(FIN, id)] else []
      ensures failed ==> Ended()
    {
      hide L.Step, Valid, Failed, L.Datas;
      failed := Turn(L.Control(OPEN, id), L.SAwaitOpen(id));
      if failed {
        return;
      }
      var f;
      failed, f := Receive(None);
      if failed {
        return;
      }
      if f.lease != id {
        return true;
      }
      if f.typ == OPEN_OK {
        var got;
        failed, got := Relay(id, out);
      } else if f.typ == OPEN_ERR {
        failed := f.payload != L.DIAL_FAILED;
      } else {
        failed := true;
      }
    }

    /** lease, from Releasing on: the release barrier. RELEASE goes out, and READY
        of the lease comes back, or CLOSE. */
    method Barrier(id: uint64) returns (failed: bool, closed: bool)
      requires Valid() && l.sAlive && l.core.server == L.SReleasing(id)
      modifies this`l, this`trace, this`releasing, this`sent, this`tail, conn.raw, conn.readBuf, conn.writeHeader
      ensures Valid()
      ensures !failed ==>
                && l.sAlive && l.core.sLast == old(l.core.sLast) && |conn.raw.inbound| < old(|conn.raw.inbound|)
                && if closed then l.core.server == L.SDone(L.ClientClosed) else l.core.server.SPooled?
      ensures !failed ==> sent == old(sent) + [L.Control(RELEASE, id)]
                          && old(l.core.up) == [L.Control(if closed then CLOSE else READY, if closed then 0 else id)]
                                               + l.core.up
      ensures failed ==> Ended()
    {
      hide L.Step, Valid, Failed;
      closed := false;
      Releasing();
      failed := Turn(L.Control(RELEASE, id), L.SAwaitBarrier(id));
      if failed {
        return;
      }
      var f;
      failed, f := Receive(None);
      if failed {
        return;
      }
      if f.typ == CLOSE && f.lease == 0 {
        return false, true;
      }
      failed := f.typ != READY || f.lease != id;
    }

    /** lease: what the visitor sends, `out`, becomes the relay's input. */
    method Lease(id: uint64, out: seq<seq<byte>>) returns (failed: bool, closed: bool)
      requires Valid() && l.sAlive && l.core.server == L.SOpening(id) && !releasing && L.Payloads(out)
      modifies this`l, this`trace, this`releasing, this`sent, this`tail, this`aborted,
               conn.raw, conn.readBuf, conn.writeHeader
      ensures Valid()
      ensures !failed ==>
                && l.sAlive && l.core.sLast == old(l.core.sLast) && |conn.raw.inbound| < old(|conn.raw.inbound|)
                && if closed then l.core.server == L.SDone(L.ClientClosed) else l.core.server.SPooled?
      ensures failed ==> Ended()
    {
      hide Valid, Ended, L.Datas;
      closed := false;
      failed := Open(id, out);
      if !failed {
        failed, closed := Barrier(id);
      }
    }

    /** goodbye; whether its CLOSE goes out does not matter. */
    method Goodbye()
      requires Valid() && l.sAlive && l.core.server.SPooled?
      modifies this`l, this`trace, this`asked, this`sent, this`tail, conn.raw, conn.readBuf, conn.writeHeader
      ensures Valid() && asked == old(asked) + [DoExpire]
      ensures if l.sAlive then l.core.server == L.SDone(L.Expired) && sent == old(sent) + [L.Control(CLOSE, 0)]
              else Failed()
    {
      hide L.Step, Valid, Failed;
      AsksExpire(l);
      Ask(L.SExpire);
      var failed := Turn(L.Control(CLOSE, 0), L.SDone(L.Expired));
    }

    /** The lease counter is spent: the last visitor handed over got no OPEN. */
    ghost predicate Spent()
      reads this
    {
      !l.sAlive && l.core.server.SPooled? && l.core.sLast == MAX_UINT64
    }

    /** Next returned Leased. */
    ghost method Lend()
      requires Valid() && l.sAlive && l.core.server.SPooled? && !releasing
      modifies this`l, this`trace, this`asked
      ensures Valid() && asked == old(asked) + [DoLease]
      ensures old(l.core.sLast) == MAX_UINT64 ==> Spent()
      ensures old(l.core.sLast) != MAX_UINT64 ==>
                l.sAlive && l.core.sLast == old(l.core.sLast) + 1 && l.core.server == L.SOpening(l.core.sLast)
    {
      hide L.Step, Valid;
      AsksLease(l);
      Ask(L.SLease);
    }

    /** work: whatever the pool answers and on any stream of frames, the goroutine
        does for each answer what it asks for, in order and no more: one lease
        for each Leased, numbered 1, 2, …, one heartbeat for each Check, CLOSE
        for Expired. What it does is a run of the server's half of the state
        machine, and the reason it gives follows from the last answer and tells
        where that run ended; an error has a cause. */
    method Work() returns (reason: Reason)
      requires Valid() && l.sAlive && l.core.server.SPooled? && l.core.sLast == 0 && answers == [] && asked == []
      modifies this`l, this`trace, this`asked, this`answers, this`aborted, this`releasing, this`sent, this`tail,
               conn.raw, conn.readBuf, conn.writeHeader
      ensures Valid() && asked == Orders(answers)
      ensures InTurn(answers) && answers != [] && Follows(reason, answers[|answers| - 1])
      ensures reason.Shutdown? ==> l.sAlive && l.core.server.SPooled?
      ensures reason.Expired? ==> if l.sAlive then l.core.server == L.SDone(L.Expired) else Failed()
      ensures reason.ClientClose? ==> l.sAlive && l.core.server == L.SDone(L.ClientClosed)
      ensures reason.Error? ==> Ended() || Spent()
    {
      hide Valid, Orders, InTurn, Failed, Ended, Spent, L.Payloads;
      var last: uint64 := 0;
      NoOrders();
      while true
        invariant Valid() && Settled() && |answers| % 2 == 0 && l.core.sLast == last
        decreases |conn.raw.inbound|
      {
        var outcome := Idle();
        if outcome.IdleExpired? {
          Goodbye();
          return Expired;
        }
        if outcome.IdleStopped? {
          return Shutdown;
        }
        var next := Next();
        match next {
          case Check =>
            assert |L.INCOMPATIBLE[..8]| == 8;
            var nonce: seq<byte> :| |nonce| == 8;
            var failed := Heartbeat(nonce);
            if failed {
              return Error;
            }
          case NextExpired =>
            Goodbye();
            return Expired;
          case Leased =>
            Lend();
            if last == MAX_UINT64 {
              return Error;
            }
            last := last + 1;
            LS.NoPayloads();
            var out: seq<seq<byte>> :| L.Payloads(out);
            var failed, closed := Lease(last, out);
            if failed {
              return Error;
            }
            if closed {
              return ClientClose;
            }
          case NextStopped =>
            return Shutdown;
        }
      }
    }
  }

  lemma NoOrders()
    ensures Orders([]) == [] && InTurn([])
  {
  }
}
