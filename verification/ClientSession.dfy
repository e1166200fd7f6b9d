/** The client's goroutine of one connection as it runs, from HELLO to close:
    each method is the code's, and moves the state machine of Lease along by
    the steps it takes. */
module ClientSession {
  import opened Bytes
  import opened Protocol
  import A = ClientSpec
  import L = Lease
  import LS = LeaseSafety
  import T = Tunnel

  /** How serveSlot ends: nil, nil after errSurplus, or an error. */
  datatype Result = Fine | Surplus | Error

  /** The client's half of a connection to which the frames `down` will
      arrive. */
  function Begin(down: seq<Frame>): L.Link {
    L.CONNECTED.(core := L.CONNECTED.core.(down := down))
  }

  class Session {
    const conn: Conn
    var state: A.SlotState    // its slot's, which no other goroutine changes
    // The machine's view: what arrives, the state, the steps so far, the frames
    // written and the part of one that was cut off.
    ghost const arrives: seq<byte>
    ghost var l: L.Link
    ghost var trace: seq<L.Event>
    ghost var sent: seq<ValidFrame>
    ghost var tail: seq<byte>

    // Whether a relay ended because of its local socket or codec, and whether
    // the context was found done.
    ghost var aborted: bool
    ghost var ctxDone: bool

    /** The machine is where its steps lead. */
    ghost predicate Tracked()
      reads `l, `trace
    {
      && l == L.Run(Begin(ParseAll(arrives)), trace) && L.ReadsFrames(Begin(ParseAll(arrives)), trace)
      && (forall i :: 0 <= i < |trace| ==> L.ByClient(trace[i]))
    }

    /** What was written is the machine's frames, and what is still to be read
        is the frames it has not read; its slot is counted as its phase
        demands. */
    ghost predicate Valid()
      reads this, conn.raw
    {
      && conn.Sized() && Tracked()
      && sent == l.core.up && conn.raw.outbound == EncodeAll(sent) + tail && Cut(tail)
      && (l.cAlive ==> tail == [] && !aborted
                       && ParseAll(conn.raw.inbound) == l.core.down
                       && Leftover(conn.raw.inbound) == Leftover(arrives))
      && T.CountedAs(state, l.core.client)
    }

    /** No frame can be read: the stream failed a read, or what arrives is
        malformed after its complete frames. */
    ghost predicate Unreadable()
      reads this, conn.raw
    {
      conn.raw.readFault || Parse(Leftover(arrives)).Malformed?
    }

    /** A cause outside the protocol: the stream failed, or a relay's local
        side. */
    ghost predicate Failed()
      reads this, conn.raw
    {
      Unreadable() || conn.raw.writeFault || aborted
    }

    /** How a failing part leaves the connection: dead for such a cause, or
        having met a frame it rejects. */
    ghost predicate Ended()
      reads this, conn.raw
    {
      if l.cAlive then l.core.client.CFault? else Failed()
    }

    /** A connection just made; `inbound` is all that will ever arrive. */
    constructor (conn: Conn)
      requires conn.Sized() && conn.raw.outbound == []
      ensures Valid() && this.conn == conn && trace == [] && arrives == conn.raw.inbound
      ensures l == Begin(ParseAll(arrives)) && state.Connecting? && !ctxDone
    {
      this.conn, state, arrives := conn, A.Connecting, conn.raw.inbound;
      l, trace, sent, tail := Begin(ParseAll(conn.raw.inbound)), [], [], [];
      aborted, ctxDone := false, false;
      new;
      CutNothing();
      assert EncodeAll([]) + [] == [];
    }

    /** The machine takes a step that does no I/O. */
    ghost method Move(e: L.Event)
      requires Valid() && L.ByClient(e) && !e.CRead?
      requires var n := L.Step(l, e);
               && n.core.up == l.core.up && n.core.down == l.core.down && (n.cAlive ==> l.cAlive)
               && T.CountedAs(state, n.core.client)
      modifies this`l, this`trace
      ensures Valid() && l == L.Step(old(l), e)
    {
      hide L.Step, Tracked, EncodeAll, ParseAll, Leftover, Cut, T.CountedAs;
      Take(e);
    }

    /** A critical section: the machine takes a step that does no I/O, and the
        slot is counted anew. */
    method Account(ghost e: L.Event, state': A.SlotState)
      requires Valid() && L.ByClient(e) && !e.CRead?
      requires var n := L.Step(l, e);
               && n.core.up == l.core.up && n.core.down == l.core.down && (n.cAlive ==> l.cAlive)
               && T.CountedAs(state', n.core.client)
      modifies this`l, this`trace, this`state
      ensures Valid() && l == L.Step(old(l), e) && state == state'
    {
      hide L.Step, Tracked, EncodeAll, ParseAll, Leftover, Cut, T.CountedAs;
      Take(e);
      state := state';
    }

    /** A critical section that only counts the slot anew. */
    method Count(state': A.SlotState)
      requires Valid() && T.CountedAs(state', l.core.client)
      modifies this`state
      ensures Valid() && state == state'
    {
      state := state';
    }

    /** ctx.Err. */
    method ContextDone() returns (done: bool)
      requires Valid()
      modifies this`ctxDone
      ensures Valid() && done == ctxDone
    {
      hide Tracked, EncodeAll, ParseAll, Leftover, Cut, T.CountedAs;
      done := *;
      ctxDone := done;
    }

    /** The machine's step `e` sends `f` and leads to `next`. */
    static predicate Sends(c: L.Client, e: L.Event, f: Frame, next: L.Client) {
      match e
      case CHello(hello) => c.CStart? && f == Frame(HELLO, 0, hello) && next.CAwaitOk?
      case CWrite => L.CTurn(c) == Some((f, next))
      case CData(p) => c.CRelay? && !c.finSent && f == Frame(DATA, c.id, p) && next == c
      case CFin => c.CRelay? && !c.finSent && f == L.Control(FIN, c.id) && next == L.CRelay(c.id, true, c.finRead)
      case _ => false
    }

    static lemma SendStep(l: L.Link, e: L.Event, f: Frame, next: L.Client)
      requires l.cAlive && Sends(l.core.client, e, f, next)
      ensures L.ByClient(e) && !e.CRead? && L.Step(l, e) == L.CSend(l, f, next)
      ensures !Protocol.Valid(f) ==> L.Step(l, e) == l.(cAlive := false)
    {
    }

    /** WriteFrame for the machine's step `e`, which sends `f`. A write that
        fails may still have written it all. */
    method Send(f: Frame, ghost e: L.Event, ghost next: L.Client) returns (failed: bool)
      requires Valid() && l.cAlive && Sends(l.core.client, e, f, next) && T.CountedAs(state, next)
      modifies this`l, this`trace, this`sent, this`tail, conn.raw`outbound, conn.raw`writeFault, conn.writeHeader
      ensures Valid() && failed == !l.cAlive
      ensures !failed ==> Protocol.Valid(f) && l == L.CSend(old(l), f, next) && sent == old(sent) + [f]
      ensures failed ==> conn.raw.writeFault || !Protocol.Valid(f)
      ensures l.down == old(l.down)
    {
      hide L.Step, L.CSend, Encode, EncodeAll, ParseAll, Leftover, Sends, Tracked, Cut, T.CountedAs, Protocol.Valid;
      SendStep(l, e, f, next);
      ghost var before := conn.raw.outbound;
      failed := conn.WriteFrame(f);
      if !Protocol.Valid(f) {
        Take(e);
      } else if conn.raw.outbound == before + Encode(f) {
        Wrote(f, e, next);
        if failed {
          Die();
        }
      } else {
        Fell(before, f);
      }
    }

    /** Part of the frame is written. */
    ghost method Fell(before: seq<byte>, f: ValidFrame)
      requires conn.Sized() && Tracked() && l.cAlive && T.CountedAs(state, l.core.client)
      requires sent == l.core.up && before == EncodeAll(sent)
      requires before <= conn.raw.outbound <= before + Encode(f) && conn.raw.outbound != before + Encode(f)
      modifies this`l, this`trace, this`tail
      ensures Valid() && l == old(l).(cAlive := false)
    {
      hide Encode, EncodeAll, ParseAll, Leftover, Tracked, Cut, T.CountedAs;
      tail := CutOff(before, f, conn.raw.outbound);
      Die();
    }

    /** The whole frame is written. */
    ghost method Wrote(f: ValidFrame, e: L.Event, next: L.Client)
      requires Tracked() && l.cAlive && Sends(l.core.client, e, f, next)
      requires sent == l.core.up && conn.raw.outbound == EncodeAll(sent) + Encode(f)
      modifies this`l, this`trace, this`sent
      ensures Tracked() && l == L.CSend(old(l), f, next) && l.cAlive && l.core.down == old(l.core.down)
      ensures l.core.client == next && l.down == old(l.down)
      ensures sent == old(sent) + [f] == l.core.up && conn.raw.outbound == EncodeAll(sent)
    {
      hide L.Step, L.Run, Encode, EncodeAll, ParseAll, Sends, L.ReadsFrames, L.LogSent, Begin, Tracked;
      SendStep(l, e, f, next);
      EncodeAllSplit(sent, [f]);
      EncodeOne(f);
      Take(e);
      sent := sent + [f];
    }

    ghost method Take(e: L.Event)
      requires Tracked() && L.ByClient(e) && !e.CRead?
      modifies this`l, this`trace
      ensures Tracked() && l == L.Step(old(l), e)
    {
      hide L.Step, L.ReadsFrames, L.Run, ParseAll;
      LS.Extend(Begin(ParseAll(arrives)), trace, e);
      l, trace := L.Step(l, e), trace + [e];
    }

    ghost method Die()
      requires Tracked() && l.cAlive
      modifies this`l, this`trace
      ensures Tracked() && l == old(l).(cAlive := false)
    {
      hide Tracked;
      Take(L.CDies);
    }

    /** ReadFrame, in a phase that reads. */
    method Receive() returns (failed: bool, f: Frame)
      requires Valid() && l.cAlive && L.ClientReads(l.core.client)
      modifies this`l, this`trace, conn.raw`inbound, conn.raw`readFault, conn.readBuf
      ensures Valid() && failed == !l.cAlive
      ensures !failed ==> Protocol.Valid(f) && old(l.core.down) != [] && f == old(l.core.down[0])
                          && l == L.Step(old(l), L.CRead) && l.core == L.CTake(old(l.core))
                          && old(l.core.down) == [f] + l.core.down
                          && |conn.raw.inbound| < old(|conn.raw.inbound|)
      ensures failed ==> l == old(l).(cAlive := false) && Unreadable() && Failed()
    {
      hide L.Step, Encode, EncodeAll, Parse, Tracked, Cut;
      ghost var b := conn.raw.inbound;
      var r := conn.ReadFrame();
      failed := !r.Got?;
      f := if failed then Frame(0, 0, []) else Frame(r.typ, r.lease, conn.readBuf[..r.length]);
      if failed {
        if r.BadFrame? {
          NothingWhole(b);
        }
        Die();
      } else {
        ParseAllStep(b);
        Reading(l);
        TakeRead();
      }
    }

    ghost method TakeRead()
      requires Tracked() && l.cAlive && L.ClientReads(l.core.client) && l.core.down != []
      modifies this`l, this`trace
      ensures Tracked() && l == L.Step(old(l), L.CRead)
    {
      hide L.Step, L.ReadsFrames, L.Run, ParseAll;
      LS.Extend(Begin(ParseAll(arrives)), trace, L.CRead);
      l, trace := L.Step(l, L.CRead), trace + [L.CRead];
    }

    /** Reading a frame leaves the slot's count as it must be. */
    static lemma Reading(l: L.Link)
      requires l.cAlive && L.ClientReads(l.core.client) && l.core.down != []
      ensures var t := L.Step(l, L.CRead);
              && t.core == L.CTake(l.core) && t.cAlive && l.core.down == [l.core.down[0]] + t.core.down
              && forall s :: T.CountedAs(s, l.core.client) ==> T.CountedAs(s, t.core.client)
    {
      hide L.LogGot;
    }

    /** The outgoing pump: one DATA frame. */
    method PumpData(id: uint64, p: seq<byte>) returns (failed: bool)
      requires Valid() && l.cAlive && l.core.client.CRelay? && l.core.client.id == id && !l.core.client.finSent
      requires state.BusySlot? && 1 <= |p| <= MAX_DATA
      modifies this`l, this`trace, this`sent, this`tail, conn.raw`outbound, conn.raw`writeFault, conn.writeHeader
      ensures Valid() && failed == !l.cAlive && l.down == old(l.down) && (failed ==> Ended())
      ensures !failed ==> l.core.client == old(l.core.client) && l.core.cLast == old(l.core.cLast)
                          && L.At(l.up.sent, id) == old(L.At(l.up.sent, id)) + p
                          && sent == old(sent) + [Frame(DATA, id, p)]
    {
      hide L.Step, Valid, L.LogSent, L.At;
      ghost var log := l.up;
      failed := Send(Frame(DATA, id, p), L.CData(p), l.core.client);
      LS.SentAt(log, Frame(DATA, id, p), id);
    }

    /** And its FIN. */
    method PumpFin(id: uint64) returns (failed: bool)
      requires Valid() && l.cAlive && l.core.client.CRelay? && l.core.client.id == id && !l.core.client.finSent
      requires state.BusySlot?
      modifies this`l, this`trace, this`sent, this`tail, conn.raw`outbound, conn.raw`writeFault, conn.writeHeader
      ensures Valid() && failed == !l.cAlive && l.down == old(l.down) && (failed ==> Ended())
      ensures !failed ==> l.core.client == L.CRelay(id, true, old(l.core.client.finRead))
                          && l.core.cLast == old(l.core.cLast) && L.At(l.up.sent, id) == old(L.At(l.up.sent, id))
                          && sent == old(sent) + [L.Control(FIN, id)]
    {
      hide L.Step, Valid, L.LogSent, L.At;
      ghost var log := l.up;
      failed := Send(L.Control(FIN, id), L.CFin, L.CRelay(id, true, l.core.client.finRead));
      LS.SentAt(log, L.Control(FIN, id), id);
    }

    /** One turn of the outgoing pump: the next of its writes, or FIN. */
    method PumpOut(id: uint64, out: seq<seq<byte>>, k: nat) returns (failed: bool)
      requires Valid() && l.cAlive && l.core.client.CRelay? && l.core.client.id == id && !l.core.client.finSent
      requires state.BusySlot? && L.Payloads(out) && k <= |out|
      modifies this`l, this`trace, this`sent, this`tail, conn.raw`outbound, conn.raw`writeFault, conn.writeHeader
      ensures Valid() && failed == !l.cAlive && l.down == old(l.down) && (failed ==> Ended())
      ensures !failed ==> l.core.client == L.CRelay(id, k == |out|, old(l.core.client.finRead))
                          && l.core.cLast == old(l.core.cLast)
      ensures !failed && k < |out| ==> L.At(l.up.sent, id) == old(L.At(l.up.sent, id)) + out[k]
                                       && sent == old(sent) + [Frame(DATA, id, out[k])]
      ensures !failed && k == |out| ==> L.At(l.up.sent, id) == old(L.At(l.up.sent, id))
                                        && sent == old(sent) + [L.Control(FIN, id)]
    {
      hide L.Step, Valid, L.At, Failed, Ended;
      if k == |out| {
        failed := PumpFin(id);
      } else {
        failed := PumpData(id, out[k]);
      }
    }

    /** The incoming pump: the octets of one DATA frame, or the lease's FIN. */
    method PumpIn(id: uint64) returns (failed: bool, fin: bool, p: seq<byte>)
      requires Valid() && l.cAlive && l.core.client.CRelay? && l.core.client.id == id && !l.core.client.finRead
      modifies this`l, this`trace, conn.raw`inbound, conn.raw`readFault, conn.readBuf
      ensures Valid() && l.up == old(l.up)
      ensures L.At(l.down.got, id) == old(L.At(l.down.got, id)) + p
      ensures !failed ==> l.cAlive && l.core.client == L.CRelay(id, old(l.core.client.finSent), fin)
                          && l.core.cLast == old(l.core.cLast) && |conn.raw.inbound| < old(|conn.raw.inbound|)
      ensures failed ==> Ended()
    {
      hide L.Step, Valid, L.LogGot, L.At, Failed;
      ghost var k := l;
      fin, p := false, [];
      var f;
      failed, f := Receive();
      if failed {
        return;
      }
      Logged(k, id);
      LS.GotAt(k.down, f, id);
      if f.lease != id || (f.typ != DATA && f.typ != FIN) {
        return true, false, [];
      }
      fin := f.typ == FIN;
      p := if fin then [] else f.payload;
    }

    /** Run's abort: the local socket or the codec failed a pump. */
    ghost method Abort()
      requires Valid() && l.cAlive
      modifies this`l, this`trace, this`aborted
      ensures Valid() && !l.cAlive && aborted && l.down == old(l.down)
    {
      hide Tracked, ParseAll, Leftover, EncodeAll, Cut, T.CountedAs;
      Die();
      aborted := true;
    }

    /** Run: the two pumps in any order, one sending `out` and then FIN, the
        other delivering what it reads, up to the lease's FIN. Either may fail
        on its local side at any time. */
    method Relay(id: uint64, out: seq<seq<byte>>) returns (failed: bool, got: seq<byte>)
      requires Valid() && l.cAlive && l.core.client == L.CRelay(id, false, false) && state.BusySlot? && L.Payloads(out)
      modifies this`l, this`trace, this`sent, this`tail, this`aborted, conn.raw, conn.readBuf, conn.writeHeader
      ensures Valid()
      ensures !failed ==> l.cAlive && l.core.client == L.CAwaitRelease(id) && l.core.cLast == old(l.core.cLast)
                          && |conn.raw.inbound| <= old(|conn.raw.inbound|)
                          && L.At(l.up.sent, id) == old(L.At(l.up.sent, id)) + Concat(out)
                          && sent == old(sent) + L.Datas(id, out) + [L.Control(FIN, id)]
      ensures L.At(l.down.got, id) == old(L.At(l.down.got, id)) + got
      ensures failed ==> Ended()
    {
      hide L.Step, Valid, L.At, Concat, L.Datas, Failed, Ended, L.Payloads;
      var k: nat := 0;
      var finSent, finRead := false, false;
      got := [];
      ghost var before, gone, frames := L.At(l.down.got, id), L.At(l.up.sent, id), sent;
      LS.Unsent(id, out);
      while !finSent || !finRead
        invariant Valid() && l.cAlive && l.core.client == L.CRelay(id, finSent, finRead)
        invariant l.core.cLast == old(l.core.cLast) && |conn.raw.inbound| <= old(|conn.raw.inbound|)
        invariant L.At(l.down.got, id) == before + got
        invariant k <= |out| && (finSent ==> k == |out|)
        invariant L.At(l.up.sent, id) == gone + Concat(out[..k])
        invariant sent == frames + L.Datas(id, out[..k]) + (if finSent then [L.Control(FIN, id)] else [])
        decreases |conn.raw.inbound|, |out| - k, !finSent
      {
        var broken, write := *, *;
        if broken {
          assert L.At(l.down.got, id) == before + got;
          Abort();
          assert Ended() by { Broken(); }
          return true, got;
        }
        if !finRead && (finSent || !write) {
          var p;
          failed, finRead, p := PumpIn(id);
          got := got + p;
        } else {
          failed := PumpOut(id, out, k);
          finSent := k == |out|;
          if !finSent {
            LS.OneMore(id, out, k);
            k := k + 1;
          }
        }
        if failed {
          return;
        }
      }
      assert out[..k] == out;
      RelayOver(l);
      Move(L.CRunEnds);
      failed := false;
    }

    lemma Broken()
      requires Valid() && !l.cAlive && aborted
      ensures Ended()
    {
      hide Valid;
    }

    /** What a relay's read does to the logs. */
    static lemma Logged(l: L.Link, id: uint64)
      requires l.cAlive && L.ClientReads(l.core.client) && l.core.down != []
      ensures var t := L.Step(l, L.CRead);
              && t.up == l.up
              && (l.core.client.CRelay? && l.core.client.id == id ==>
                    t.down == if l.core.down[0].lease == id then L.LogGot(l.down, l.core.down[0]) else l.down)
    {
      hide L.CTake;
    }

    static lemma RelayOver(l: L.Link)
      requires l.cAlive && l.core.client.CRelay? && l.core.client.finSent && l.core.client.finRead
      ensures L.Step(l, L.CRunEnds) == l.(core := l.core.(client := L.CAwaitRelease(l.core.client.id)))
    {
    }

    /** Writes the frame the phase calls for. */
    method Turn(f: Frame, ghost next: L.Client) returns (failed: bool)
      requires Valid() && l.cAlive && L.CTurn(l.core.client) == Some((f, next)) && Protocol.Valid(f)
      requires T.CountedAs(state, next)
      modifies this`l, this`trace, this`sent, this`tail, conn.raw`outbound, conn.raw`writeFault, conn.writeHeader
      ensures Valid() && failed == !l.cAlive && (failed ==> Failed())
      ensures !failed ==> l.core.client == next && l.core.cLast == old(l.core.cLast)
                          && l.core.down == old(l.core.down) && sent == old(sent) + [f]
    {
      hide Valid;
      failed := Send(f, L.CWrite, next);
    }

    static lemma Dials(l: L.Link, dialed: bool)
      requires l.cAlive && l.core.client.CDialing?
      ensures L.Step(l, L.CDial(dialed)) == l.(core := l.core.(client := L.CAnswering(l.core.client.id, dialed)))
    {
    }

    static lemma Decides(l: L.Link, surplus: bool)
      requires l.cAlive && l.core.client.CDeciding?
      ensures var id := l.core.client.id;
              L.Step(l, L.CDecide(surplus))
              == l.(core := l.core.(client := if surplus then L.CSurplus(id) else L.CReturning(id)))
    {
    }

    /** lease, up to the end of the relay: the dial's outcome is answered, and if
        it succeeded what the local side sends, `out`, goes out up to FIN. */
    method Answer(id: uint64, dialed: bool, out: seq<seq<byte>>) returns (failed: bool)
      requires Valid() && l.cAlive && l.core.client == L.CDialing(id) && state.BusySlot? && L.Payloads(out)
      modifies this`l, this`trace, this`sent, this`tail, this`aborted, conn.raw, conn.readBuf, conn.writeHeader
      ensures Valid()
      ensures !failed ==> l.cAlive && l.core.client == L.CAwaitRelease(id) && l.core.cLast == old(l.core.cLast)
                          && |conn.raw.inbound| <= old(|conn.raw.inbound|)
      ensures !failed ==> sent == old(sent) + if dialed then [L.Control(OPEN_OK, id)] + L.Datas(id, out)
                                                             + [L.Control(FIN, id)]
                                              else [Frame(OPEN_ERR, id, L.DIAL_FAILED)]
      ensures failed ==> Ended()
    {
      hide L.Step, Valid, Failed, L.Datas, L.Payloads;
      Dials(l, dialed);
      Move(L.CDial(dialed));
      if !dialed {
        failed := Turn(Frame(OPEN_ERR, id, L.DIAL_FAILED), L.CAwaitRelease(id));
      } else {
        failed := Turn(L.Control(OPEN_OK, id), L.CRelay(id, false, false));
        if failed {
          return;
        }
        var got;
        failed, got := Relay(id, out);
      }
    }

    /** lease, from there: the release barrier, with the decision of the
        accounting. RELEASE is read, and CLOSE or READY of the lease goes
        out. */
    method Barrier(id: uint64, surplus: bool) returns (r: Result)
      requires Valid() && l.cAlive && l.core.client == L.CAwaitRelease(id) && state.BusySlot?
      modifies this`l, this`trace, this`state, this`sent, this`tail, conn.raw, conn.readBuf, conn.writeHeader
      ensures Valid()
      ensures r.Fine? ==> !surplus && l.cAlive && l.core.client.CIdle? && l.core.cLast == old(l.core.cLast)
                          && state.IdleSlot?
                          && |conn.raw.inbound| < old(|conn.raw.inbound|)
      ensures r.Surplus? ==> surplus && l.cAlive && l.core.client == L.CDone(L.Surplus)
      ensures !r.Error? ==> old(l.core.down) == [L.Control(RELEASE, id)] + l.core.down
                            && sent == old(sent) + [if surplus then L.Control(CLOSE, 0) else L.Control(READY, id)]
      ensures r.Error? ==> Ended()
    {
      hide L.Step, Valid, Failed;
      var failed, f := Receive();
      if failed || f.typ != RELEASE || f.lease != id {
        return Error;
      }
      Empty(f);
      Decides(l, surplus);
      Account(L.CDecide(surplus), if surplus then state else A.IdleSlot);
      if surplus {
        failed := Turn(L.Control(CLOSE, 0), L.CDone(L.Surplus));
        return if failed then Error else Surplus;
      }
      failed := Turn(L.Control(READY, id), L.CIdle);
      r := if failed then Error else Fine;
    }

    static lemma Empty(f: Frame)
      requires Protocol.Valid(f) && (f.typ == RELEASE || f.typ == HELLO_OK)
      ensures f == L.Control(f.typ, f.lease)
    {
    }

    /** serveSlot, up to the registration: HELLO goes out, HELLO_OK comes back and
        READY goes out. */
    method Register(hello: seq<byte>) returns (failed: bool)
      requires Valid() && l.cAlive && l.core.client.CStart? && l.core.cLast == 0 && state.Connecting?
      modifies this`l, this`trace, this`state, this`sent, this`tail, conn.raw, conn.readBuf, conn.writeHeader
      ensures Valid()
      ensures !failed ==> l.cAlive && l.core.client.CIdle? && l.core.cLast == 0 && state.IdleSlot?
      ensures !failed ==> sent == old(sent) + [Frame(HELLO, 0, hello), L.Control(READY, 0)]
                          && old(l.core.down) == [L.Control(HELLO_OK, 0)] + l.core.down
      ensures failed ==> Unregistered(hello)
    {
      hide L.Step, Valid, Failed;
      failed := Send(Frame(HELLO, 0, hello), L.CHello(hello), L.CAwaitOk);
      if failed {
        Unsendable(hello);
        return;
      }
      var f;
      failed, f := Receive();
      if failed || f.lease != 0 || f.typ != HELLO_OK {
        return true;
      }
      Empty(f);
      Count(A.IdleSlot);
      failed := Turn(L.Control(READY, 0), L.CIdle);
    }

    /** Registration failed: for a cause, or with a HELLO that fits no frame, or
        the reply was none, or it was HELLO_ERR. */
    ghost predicate Unregistered(hello: seq<byte>)
      reads this, conn.raw
    {
      if l.cAlive then l.core.client == L.CFault(L.BadHelloReply) || l.core.client == L.CDone(L.Rejected)
      else Failed() || !Protocol.Valid(Frame(HELLO, 0, hello))
    }

    lemma Unsendable(hello: seq<byte>)
      requires !l.cAlive && (conn.raw.writeFault || !Protocol.Valid(Frame(HELLO, 0, hello)))
      ensures Unregistered(hello)
    {
    }

    /** serveSlot: what the goroutine does on any stream of frames, however it
        is cut short, is a run of the client's half of the state machine, and
        its outcome tells where that run ended: without error only if the
        context is done, the server sent CLOSE or the connection was surplus,
        and an error has a cause. */
    method ServeSlot(hello: seq<byte>) returns (r: Result)
      requires Valid() && l.cAlive && l.core.client.CStart? && l.core.cLast == 0 && state.Connecting? && !ctxDone
      modifies this`l, this`trace, this`state, this`sent, this`tail, this`aborted, this`ctxDone,
               conn.raw, conn.readBuf, conn.writeHeader
      ensures Valid()
      ensures r.Fine? ==> l.cAlive && ((ctxDone && l.core.client.CIdle?) || l.core.client == L.CDone(L.ServerClosed))
      ensures r.Surplus? ==> l.cAlive && l.core.client == L.CDone(L.Surplus)
      ensures r.Error? ==> Ended() || Unregistered(hello)
      ensures ctxDone ==> r.Fine?
    {
      hide L.Step, Valid, Failed, L.Payloads, Unregistered;
      var failed := Register(hello);
      if failed {
        return Error;
      }
      var last: uint64 := 0;
      while true
        invariant Valid() && l.cAlive && l.core.client.CIdle? && l.core.cLast == last && state.IdleSlot? && !ctxDone
        decreases |conn.raw.inbound|
      {
        var done := ContextDone();
        if done {
          return Fine;
        }
        var f;
        failed, f := Receive();
        if failed {
          return Error;
        }
        if f.typ == PING {
          if f.lease != 0 {
            return Error;
          }
          failed := Turn(Frame(PONG, 0, f.payload), L.CIdle);
          if failed {
            return Error;
          }
        } else if f.typ == CLOSE {
          return if f.lease != 0 then Error else Fine;
        } else if f.typ == OPEN {
          if last == MAX_UINT64 || f.lease != last + 1 {
            return Error;
          }
          last := f.lease;
          Count(A.BusySlot);
          var dialed, surplus := *, *;
          LS.NoPayloads();
          var out: seq<seq<byte>> :| L.Payloads(out);
          failed := Answer(last, dialed, out);
          if failed {
            return Error;
          }
          var end := Barrier(last, surplus);
          if !end.Fine? {
            return end;
          }
        } else {
          return Error;
        }
      }
    }
  }
}
