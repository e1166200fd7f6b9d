/** One lease's compressed stream as DATA frames: frameWriter cuts buffers into
    frames, frameReader puts them back together whatever sizes it is asked
    for. */
module Relay {
  import opened Bytes
  import opened Protocol

  function DataFrame(id: uint64, p: seq<byte>): ValidFrame
    requires 1 <= |p| <= MAX_DATA
  {
    Frame(DATA, id, p)
  }

  function FinFrame(id: uint64): ValidFrame {
    Frame(FIN, id, [])
  }

  /** How much of a buffer the next frame takes. */
  function Take(p: seq<byte>): (n: nat)
    ensures n <= |p| && n <= MAX_DATA
    ensures p != [] ==> n > 0
  {
    if |p| < MAX_DATA then |p| else MAX_DATA
  }

  /** The frames of one Write. */
  function Fragments(id: uint64, p: seq<byte>): seq<ValidFrame>
    decreases |p|
  {
    if p == [] then [] else [DataFrame(id, p[..Take(p)])] + Fragments(id, p[Take(p)..])
  }

  /** The frames of a whole lease in one direction: every Write, then FIN. */
  function LeaseFrames(id: uint64, writes: seq<seq<byte>>): seq<ValidFrame> {
    if writes == [] then [FinFrame(id)] else Fragments(id, writes[0]) + LeaseFrames(id, writes[1..])
  }

  /** The DATA of lease `id` at the front of a stream of octets. */
  function Content(id: uint64, b: seq<byte>): seq<byte>
    decreases |b|
  {
    match Parse(b)
    case Parsed(f, rest) => if f.lease == id && f.typ == DATA then f.payload + Content(id, rest) else []
    case _ => []
  }

  /** What is left of the stream once that DATA is read. */
  function Beyond(id: uint64, b: seq<byte>): seq<byte>
    decreases |b|
  {
    match Parse(b)
    case Parsed(f, rest) => if f.lease == id && f.typ == DATA then Beyond(id, rest) else b
    case _ => b
  }

  // ---- Round trip ---------------------------------------------------------

  lemma {:induction false} FragmentsRoundTrip(id: uint64, p: seq<byte>, rest: seq<byte>)
    ensures Content(id, EncodeAll(Fragments(id, p)) + rest) == p + Content(id, rest)
    ensures Beyond(id, EncodeAll(Fragments(id, p)) + rest) == Beyond(id, rest)
    decreases |p|
  {
    hide Encode, Parse, EncodeAll, Fragments, Content, Beyond;
    FragmentsStep(id, p);
    if p == [] {
      assert EncodeAll(Fragments(id, p)) + rest == rest;
    } else {
      var f, q := DataFrame(id, p[..Take(p)]), p[Take(p)..];
      var later := EncodeAll(Fragments(id, q)) + rest;
      assert EncodeAll(Fragments(id, p)) + rest == Encode(f) + later;
      ContentStep(id, f, later);
      FragmentsRoundTrip(id, q, rest);
      assert p == f.payload + q;
    }
  }

  lemma FragmentsStep(id: uint64, p: seq<byte>)
    ensures p == [] ==> EncodeAll(Fragments(id, p)) == []
    ensures p != [] ==> EncodeAll(Fragments(id, p))
                        == Encode(DataFrame(id, p[..Take(p)])) + EncodeAll(Fragments(id, p[Take(p)..]))
  {
    hide Encode;
  }

  lemma ContentStep(id: uint64, f: ValidFrame, rest: seq<byte>)
    requires f.typ == DATA && f.lease == id
    ensures Content(id, Encode(f) + rest) == f.payload + Content(id, rest)
    ensures Beyond(id, Encode(f) + rest) == Beyond(id, rest)
  {
    hide Encode, Parse;
    ParseOfEncode(f, rest);
  }

  /** A lease's stream reads back as its writes joined together, and the octets
      after its FIN are exactly what follows: a RELEASE there is still
      unread. */
  lemma {:induction false} LeaseRoundTrip(id: uint64, writes: seq<seq<byte>>, rest: seq<byte>)
    ensures Content(id, EncodeAll(LeaseFrames(id, writes)) + rest) == Concat(writes)
    ensures Parse(Beyond(id, EncodeAll(LeaseFrames(id, writes)) + rest)) == Parsed(FinFrame(id), rest)
    decreases |writes|
  {
    hide Encode, Parse;
    var b := EncodeAll(LeaseFrames(id, writes)) + rest;
    if writes == [] {
      assert EncodeAll([FinFrame(id)]) == Encode(FinFrame(id)) + EncodeAll([]) == Encode(FinFrame(id));
      ParseOfEncode(FinFrame(id), rest);
    } else {
      var later := EncodeAll(LeaseFrames(id, writes[1..])) + rest;
      var first := EncodeAll(Fragments(id, writes[0]));
      EncodeAllSplit(Fragments(id, writes[0]), LeaseFrames(id, writes[1..]));
      assert b == (first + EncodeAll(LeaseFrames(id, writes[1..]))) + rest == first + later;
      FragmentsRoundTrip(id, writes[0], later);
      LeaseRoundTrip(id, writes[1..], rest);
    }
  }

  lemma {:induction false} FragmentCount(id: uint64, p: seq<byte>)
    ensures |Fragments(id, p)| == (|p| + MAX_DATA - 1) / MAX_DATA
    decreases |p|
  {
    if p != [] {
      FragmentCount(id, p[Take(p)..]);
    }
  }

  /** Where the fragment at `lo` ends. */
  function End(p: seq<byte>, lo: nat): nat {
    if lo + MAX_DATA < |p| then lo + MAX_DATA else |p|
  }

  /** The fragments of a buffer by position: all but the last are full. */
  lemma {:induction false} FragmentsByPosition(id: uint64, p: seq<byte>, k: nat)
    requires k < |Fragments(id, p)|
    ensures |Fragments(id, p)| == (|p| + MAX_DATA - 1) / MAX_DATA
    ensures var lo := k * MAX_DATA; lo < |p| && Fragments(id, p)[k] == Frame(DATA, id, p[lo..End(p, lo)])
    decreases |p|
  {
    FragmentCount(id, p);
    FragmentsSplit(id, p);
    if k > 0 {
      hide Fragments;
      var rest, lo := p[Take(p)..], (k - 1) * MAX_DATA;
      FragmentsByPosition(id, rest, k - 1);
      Shifted(p, lo);
    }
  }

  lemma FragmentsSplit(id: uint64, p: seq<byte>)
    requires Fragments(id, p) != []
    ensures p != [] && Fragments(id, p)[0] == Frame(DATA, id, p[..Take(p)])
    ensures Fragments(id, p)[1..] == Fragments(id, p[Take(p)..])
  {
  }

  lemma Shifted(p: seq<byte>, lo: nat)
    requires lo < |p[Take(p)..]|
    ensures Take(p) == MAX_DATA && lo + MAX_DATA < |p|
    ensures var rest := p[Take(p)..];
            rest[lo..End(rest, lo)] == p[lo + MAX_DATA..End(p, lo + MAX_DATA)]
  {
  }

  /** Frames of another lease contribute nothing. */
  lemma OtherLease(id: uint64, other: uint64, p: seq<byte>, rest: seq<byte>)
    requires id != other && p != []
    ensures Content(id, EncodeAll(Fragments(other, p)) + rest) == []
  {
    hide Encode, Parse;
    var f := DataFrame(other, p[..Take(p)]);
    var later := EncodeAll(Fragments(other, p[Take(p)..])) + rest;
    assert EncodeAll(Fragments(other, p)) + rest == Encode(f) + later;
    ParseOfEncode(f, later);
  }

  // ---- The two ends -------------------------------------------------------

  class FrameWriter {
    const conn: Conn
    const id: uint64
    var bytes: nat

    constructor (conn: Conn, id: uint64)
      ensures this.conn == conn && this.id == id && bytes == 0
    {
      this.conn, this.id, bytes := conn, id, 0;
    }

    /** Sends the fragments of `p`; `total` counts the octets whose frames were
        written whole, and the byte counter agrees with it. */
    method Write(p: seq<byte>) returns (total: nat, failed: bool)
      requires conn.Sized()
      modifies this`bytes, conn.raw`outbound, conn.raw`writeFault, conn.writeHeader
      ensures failed ==> conn.raw.writeFault
      ensures total <= |p| && bytes == old(bytes) + total
      ensures !failed ==> total == |p|
                          && conn.raw.outbound == old(conn.raw.outbound) + EncodeAll(Fragments(id, p))
      ensures old(conn.raw.outbound) <= conn.raw.outbound
                                     <= old(conn.raw.outbound) + EncodeAll(Fragments(id, p))
    {
      hide Encode;
      total := 0;
      var rest := p;
      ghost var all := conn.raw.outbound + EncodeAll(Fragments(id, p));
      while |rest| > 0
        invariant total <= |p| && rest == p[total..] && bytes == old(bytes) + total
        invariant old(conn.raw.outbound) <= conn.raw.outbound
        invariant all == conn.raw.outbound + EncodeAll(Fragments(id, rest))
        decreases |rest|
      {
        var n := Take(rest);
        ghost var before := conn.raw.outbound;
        ghost var f := DataFrame(id, rest[..n]);
        ghost var later := EncodeAll(Fragments(id, rest[n..]));
        assert all == before + Encode(f) + later;
        failed := conn.WriteFrame(Frame(DATA, id, rest[..n]));
        if failed {
          return;
        }
        bytes := bytes + n;
        rest := rest[n..];
        total := total + n;
      }
      failed := false;
    }
  }

  datatype ReadOutcome = Bytes(n: nat) | EOF | MissingFin | WrongLease | UnexpectedFrame
  datatype FinishOutcome = Finished | UnreadData | NoFin | ExpectedFin

  class FrameReader {
    const conn: Conn
    const id: uint64
    // r.pending is the window conn.readBuf[from..to].
    var from: nat
    var to: nat
    var fin: bool
    var bytes: nat

    ghost predicate Sized()
      reads this
    {
      conn.Sized() && from <= to <= MAX_DATA && (fin ==> from == to)
    }

    /** The rest of the lease's stream, as far as it has arrived. */
    ghost function Unread(): seq<byte>
      requires Sized()
      reads this, conn.readBuf, conn.raw`inbound
    {
      conn.readBuf[from..to] + (if fin then [] else Content(id, conn.raw.inbound))
    }

    constructor (conn: Conn, id: uint64)
      requires conn.Sized()
      ensures Sized() && this.conn == conn && this.id == id
      ensures from == to && !fin && bytes == 0
    {
      this.conn, this.id := conn, id;
      from, to, fin, bytes := 0, 0, false, 0;
    }

    /** Copies the front of the window out. */
    method Drain(p: array<byte>) returns (n: nat)
      requires Sized() && p != conn.readBuf
      modifies this`from, p
      ensures Sized() && n <= p.Length
      ensures n == if p.Length < to - old(from) then p.Length else to - old(from)
      ensures from == old(from) + n
      ensures conn.readBuf[old(from)..to] == p[..n] + conn.readBuf[from..to] && p[n..] == old(p[n..])
    {
      n := if p.Length < to - from then p.Length else to - from;
      ghost var tail := p[n..];
      forall i | 0 <= i < n {
        p[i] := conn.readBuf[from + i];
      }
      assert p[n..] == tail;
      assert conn.readBuf[from..to] == p[..n] + conn.readBuf[from + n..to];
      from := from + n;
    }

    /** The frame-reading part of Read, reached only with an empty window:
        Bytes(0) when a DATA payload is now the window. */
    method Receive() returns (r: ReadOutcome)
      requires Sized() && from == to && !fin
      modifies this`from, this`to, this`fin, this`bytes, conn.raw`inbound, conn.raw`readFault, conn.readBuf
      ensures r.MissingFin? ==> conn.raw.readFault || Parse(old(conn.raw.inbound)).Malformed?
      ensures Sized()
      ensures r.Bytes? ==> !fin && from < to && old(Unread()) == Unread() && bytes - (to - from) == old(bytes)
      ensures r.EOF? ==> fin && bytes == old(bytes) && from == to && old(Unread()) == []
                         && Parse(old(conn.raw.inbound)) == Parsed(FinFrame(id), conn.raw.inbound)
      ensures r.WrongLease? ==> Parse(old(conn.raw.inbound)).Parsed? && Parse(old(conn.raw.inbound)).frame.lease != id
      ensures r.UnexpectedFrame? ==> (var next := Parse(old(conn.raw.inbound));
                next.Parsed? && next.frame.lease == id && next.frame.typ != DATA && next.frame.typ != FIN)
    {
      hide Parse;
      var f := conn.ReadFrame();
      from, to := 0, 0;
      if !f.Got? {
        return MissingFin;
      }
      if f.lease != id {
        return WrongLease;
      }
      if f.typ == FIN {
        fin := true;
        return EOF;
      }
      if f.typ != DATA {
        return UnexpectedFrame;
      }
      bytes := bytes + f.length;
      to := f.length;
      assert conn.readBuf[from..to] == conn.readBuf[..f.length];
      return Bytes(0);
    }

    /** Delivers the next octets of the lease's stream. The next frame is read,
        over the buffer the window lies in, only when the window is empty; EOF
        means FIN was the next frame, and once FIN is consumed nothing more is
        read from the stream. */
    method Read(p: array<byte>) returns (r: ReadOutcome)
      requires Sized() && p != conn.readBuf && p != conn.writeHeader
      modifies this`from, this`to, this`fin, this`bytes, conn.raw`inbound, conn.raw`readFault, conn.readBuf, p
      ensures r.MissingFin? ==> conn.raw.readFault || Parse(old(conn.raw.inbound)).Malformed?
      ensures Sized()
      ensures r.Bytes? ==> r.n <= p.Length && (p.Length > 0 ==> r.n > 0) && fin == old(fin)
                           && old(Unread()) == p[..r.n] + Unread()
                           && bytes - (to - from) == old(bytes - (to - from)) + r.n
      ensures r.Bytes? ==> r.n == p.Length || from == to
      ensures r.EOF? ==> fin && old(Unread()) == [] && bytes == old(bytes) && from == to
      ensures r.EOF? && !old(fin) ==> Parse(old(conn.raw.inbound)) == Parsed(FinFrame(id), conn.raw.inbound)
      ensures r.WrongLease? ==> Parse(old(conn.raw.inbound)).Parsed? && Parse(old(conn.raw.inbound)).frame.lease != id
      ensures r.UnexpectedFrame? ==> (var next := Parse(old(conn.raw.inbound));
                next.Parsed? && next.frame.lease == id && next.frame.typ != DATA && next.frame.typ != FIN)
      ensures p.Length == 0 || old(fin) || old(from) < old(to) ==>
                (r.Bytes? || r.EOF?) && conn.raw.inbound == old(conn.raw.inbound)
                && unchanged(conn.readBuf)
      ensures p.Length > 0 && old(fin) ==> r.EOF?
    {
      hide Parse, Content;
      if p.Length == 0 {
        assert p[..0] + Unread() == Unread();
        return Bytes(0);
      }
      if from == to {
        if fin {
          return EOF;
        }
        r := Receive();
        if !r.Bytes? {
          return;
        }
      }
      ghost var later := if fin then [] else Content(id, conn.raw.inbound);
      ghost var window := conn.readBuf[from..to];
      var n := Drain(p);
      assert window + later == p[..n] + (conn.readBuf[from..to] + later);
      r := Bytes(n);
    }

    /** Closes the direction after the compressed frame: nothing may be left
        unread, and the next frame, unless it was consumed already, is FIN. */
    method Finish() returns (r: FinishOutcome)
      requires Sized()
      modifies this`fin, conn.raw`inbound, conn.raw`readFault, conn.readBuf
      ensures r.NoFin? ==> conn.raw.readFault || Parse(old(conn.raw.inbound)).Malformed?
      ensures Sized()
      ensures r.UnreadData? <==> old(from) < old(to)
      ensures r.Finished? ==> fin && old(Unread()) == []
      ensures r.Finished? && !old(fin) ==>
                Parse(old(conn.raw.inbound)) == Parsed(FinFrame(id), conn.raw.inbound)
      ensures r.ExpectedFin? ==> Parse(old(conn.raw.inbound)).Parsed?
                                 && Parse(old(conn.raw.inbound)).frame != FinFrame(id)
      ensures old(fin) || old(from) < old(to) ==> conn.raw.inbound == old(conn.raw.inbound)
    {
      hide Parse;
      if from < to {
        return UnreadData;
      }
      if fin {
        return Finished;
      }
      var f := conn.ReadFrame();
      if !f.Got? {
        return NoFin;
      }
      if f.typ != FIN || f.lease != id {
        return ExpectedFin;
      }
      fin := true;
      return Finished;
    }
  }
}
