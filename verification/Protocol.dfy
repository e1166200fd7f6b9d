/** The tunnel's frame codec: 13 octets of header (type, lease ID, length) and
    a payload whose size the type restricts. */
module Protocol {
  import opened Bytes
  import opened Wire

  const HELLO: byte := 1
  const HELLO_OK: byte := 2
  const HELLO_ERR: byte := 3
  const READY: byte := 4
  const OPEN: byte := 5
  const OPEN_OK: byte := 6
  const OPEN_ERR: byte := 7
  const DATA: byte := 8
  const FIN: byte := 9
  const RELEASE: byte := 10
  const PING: byte := 11
  const PONG: byte := 12
  const CLOSE: byte := 13

  const HEADER: nat := 13
  const MAX_DATA: nat := 32768
  const MAX_JSON: nat := 4096

  datatype Frame = Frame(typ: byte, lease: uint64, payload: seq<byte>)

  /** `valid`: the payload lengths a frame type allows. */
  predicate ValidLength(typ: byte, n: nat) {
    if typ == DATA then 1 <= n <= MAX_DATA
    else if typ == HELLO || typ == HELLO_ERR || typ == OPEN_ERR then 1 <= n <= MAX_JSON
    else if typ == PING || typ == PONG then n == 8
    else if typ == HELLO_OK || typ == READY || typ == OPEN || typ == OPEN_OK
            || typ == FIN || typ == RELEASE || typ == CLOSE then n == 0
    else false
  }

  predicate Valid(f: Frame) {
    ValidLength(f.typ, |f.payload|)
  }

  type ValidFrame = f: Frame | Valid(f) witness Frame(READY, 0, [])

  /** The header WriteFrame builds in place. */
  function Header(f: ValidFrame): (h: seq<byte>)
    ensures |h| == HEADER
  {
    Capacities();
    [f.typ] + PutBigEndian(8, f.lease) + PutBigEndian(4, |f.payload|)
  }

  function Encode(f: ValidFrame): (b: seq<byte>)
    ensures |b| == HEADER + |f.payload|
  {
    Header(f) + f.payload
  }

  function EncodeAll(fs: seq<ValidFrame>): seq<byte> {
    if fs == [] then [] else Encode(fs[0]) + EncodeAll(fs[1..])
  }

  /** What a reader can make of the octets delivered so far. */
  datatype Parsed = Incomplete | Malformed | Parsed(frame: ValidFrame, rest: seq<byte>)

  /** ReadFrame on a stream: the three fields, the length check, the payload. */
  function Parse(b: seq<byte>): (r: Parsed)
    ensures r.Parsed? ==> |b| == HEADER + |r.frame.payload| + |r.rest|
  {
    if |b| < HEADER then Incomplete
    else
      var n := BigEndian(b[9..13]);
      if !ValidLength(b[0], n) then Malformed
      else if |b| < HEADER + n then Incomplete
      else
        Capacities();
        Parsed(Frame(b[0], BigEndian(b[1..9]), b[HEADER..HEADER + n]), b[HEADER + n..])
  }

  /** Every complete frame at the front of a stream. */
  function ParseAll(b: seq<byte>): seq<ValidFrame>
    decreases |b|
  {
    match Parse(b)
    case Parsed(f, rest) => [f] + ParseAll(rest)
    case _ => []
  }

  /** What follows the complete frames of a stream. */
  function Leftover(b: seq<byte>): seq<byte>
    decreases |b|
  {
    match Parse(b)
    case Parsed(_, rest) => Leftover(rest)
    case _ => b
  }

  // ---- The codec is exact -------------------------------------------------

  /** The octets of an encoding: the type, eight octets of lease ID and four of
      length, most significant first, and the payload. */
  lemma EncodingLayout(f: ValidFrame)
    ensures var b := Encode(f);
            && b[0] == f.typ
            && f.lease == 0x1_0000_0000 * Quad(b[1], b[2], b[3], b[4]) + Quad(b[5], b[6], b[7], b[8])
            && |f.payload| == Quad(b[9], b[10], b[11], b[12])
            && b[13..] == f.payload
  {
    hide Encode, BigEndian, PutBigEndian, Capacity;
    Fields(f);
    FieldOctets(Encode(f));
    BigEndian8(Encode(f)[1..9]);
    BigEndian4(Encode(f)[9..13]);
  }

  lemma Fields(f: ValidFrame)
    ensures var b := Encode(f);
            && b[0] == f.typ && b[13..] == f.payload
            && BigEndian(b[1..9]) == f.lease && BigEndian(b[9..13]) == |f.payload|
  {
    hide BigEndian, PutBigEndian, Capacity;
    Capacities();
    assert Encode(f)[1..9] == PutBigEndian(8, f.lease) && Encode(f)[9..13] == PutBigEndian(4, |f.payload|);
    BigEndianOfPut(8, f.lease);
    BigEndianOfPut(4, |f.payload|);
  }

  lemma FieldOctets(b: seq<byte>)
    requires |b| >= HEADER
    ensures b[1..9] == [b[1], b[2], b[3], b[4], b[5], b[6], b[7], b[8]]
    ensures b[9..13] == [b[9], b[10], b[11], b[12]]
  {
  }

  lemma ParseOfEncode(f: ValidFrame, rest: seq<byte>)
    ensures Parse(Encode(f) + rest) == Parsed(f, rest)
  {
    Capacities();
    var b := Encode(f) + rest;
    assert b[1..9] == PutBigEndian(8, f.lease);
    assert b[9..13] == PutBigEndian(4, |f.payload|);
    BigEndianOfPut(8, f.lease);
    BigEndianOfPut(4, |f.payload|);
    assert b[HEADER..HEADER + |f.payload|] == f.payload;
    assert b[HEADER + |f.payload|..] == rest;
  }

  /** Nothing but an encoding parses: exactly 13 + n octets are consumed. */
  lemma EncodeOfParse(b: seq<byte>)
    requires Parse(b).Parsed?
    ensures b == Encode(Parse(b).frame) + Parse(b).rest
  {
    Capacities();
    var f := Parse(b).frame;
    PutOfBigEndian(b[1..9]);
    PutOfBigEndian(b[9..13]);
    assert b[..HEADER] == [b[0]] + b[1..9] + b[9..13];
    assert b == b[..HEADER] + b[HEADER..HEADER + |f.payload|] + b[HEADER + |f.payload|..];
  }

  /** Encodings are prefix-free, so a stream splits into frames in one way. */
  lemma PrefixFree(f: ValidFrame, g: ValidFrame, x: seq<byte>, y: seq<byte>)
    requires Encode(f) + x == Encode(g) + y
    ensures f == g && x == y
  {
    ParseOfEncode(f, x);
    ParseOfEncode(g, y);
  }

  /** A malformed verdict is final: no valid frame starts that way, whatever
      arrives later. */
  lemma MalformedIsFinal(b: seq<byte>, more: seq<byte>, f: ValidFrame, rest: seq<byte>)
    requires Parse(b).Malformed?
    ensures b + more != Encode(f) + rest
  {
    ParseOfEncode(f, rest);
    assert (b + more)[9..13] == b[9..13];
  }

  /** Frame stream round trip. The tail may be a frame still on its way. */
  lemma {:induction false} FrameStreamRoundTrip(fs: seq<ValidFrame>, tail: seq<byte>)
    requires !Parse(tail).Parsed?
    ensures ParseAll(EncodeAll(fs) + tail) == fs
  {
    hide Encode, Parse;
    if fs == [] {
      assert EncodeAll(fs) + tail == tail;
    } else {
      var rest := EncodeAll(fs[1..]) + tail;
      assert EncodeAll(fs) + tail == Encode(fs[0]) + rest;
      ParseOfEncode(fs[0], rest);
      FrameStreamRoundTrip(fs[1..], tail);
    }
  }

  /** A proper prefix of a frame never reads as a frame, so a reader of a
      truncated stream gets exactly the frames that arrived whole. */
  lemma TruncatedFrame(f: ValidFrame, k: nat)
    requires k < |Encode(f)|
    ensures Parse(Encode(f)[..k]).Incomplete?
  {
    var b := Encode(f)[..k];
    ParseOfEncode(f, []);
    assert Encode(f) + [] == Encode(f);
    if k >= HEADER {
      assert b[9..13] == Encode(f)[9..13];
    }
  }

  lemma {:induction false} EncodeAllSplit(a: seq<ValidFrame>, b: seq<ValidFrame>)
    ensures EncodeAll(a + b) == EncodeAll(a) + EncodeAll(b)
  {
    hide Encode, EncodeAll;
    if a == [] {
      assert a + b == b;
      assert EncodeAll(a) == [] by { NothingEncoded(); }
    } else {
      EncodeAllStep(a + b);
      EncodeAllStep(a);
      EncodeAllSplit(a[1..], b);
      assert (a + b)[1..] == a[1..] + b;
    }
  }

  lemma NothingEncoded()
    ensures EncodeAll([]) == []
  {
  }

  lemma EncodeOne(f: ValidFrame)
    ensures EncodeAll([f]) == Encode(f)
  {
  }

  lemma ParseAllStep(b: seq<byte>)
    requires Parse(b).Parsed?
    ensures ParseAll(b) == [Parse(b).frame] + ParseAll(Parse(b).rest)
    ensures Leftover(b) == Leftover(Parse(b).rest)
  {
  }

  lemma NothingWhole(b: seq<byte>)
    requires !Parse(b).Parsed?
    ensures Leftover(b) == b
  {
  }

  /** A stream is the encodings of its frames and then what is no frame. */
  lemma {:induction false} StreamSplits(b: seq<byte>)
    ensures b == EncodeAll(ParseAll(b)) + Leftover(b) && !Parse(Leftover(b)).Parsed?
    decreases |b|
  {
    hide Encode, Parse;
    if Parse(b).Parsed? {
      EncodeOfParse(b);
      StreamSplits(Parse(b).rest);
    }
  }

  /** However a stream of frames is cut off, the reader recovers a prefix of
      the frames: all those whose last octet arrived. */
  lemma {:induction false} CutStream(fs: seq<ValidFrame>, k: nat)
    requires k <= |EncodeAll(fs)|
    ensures ParseAll(EncodeAll(fs)[..k]) <= fs
    ensures k == |EncodeAll(fs)| ==> ParseAll(EncodeAll(fs)[..k]) == fs
  {
    hide Encode, Parse, ParseAll, EncodeAll;
    var b := EncodeAll(fs)[..k];
    if fs == [] || k < |Encode(fs[0])| {
      NoneWhole(fs, k);
    } else {
      var first, later, j := Encode(fs[0]), EncodeAll(fs[1..]), k - |Encode(fs[0])|;
      EncodeAllStep(fs);
      assert b == first + later[..j];
      ParseOfEncode(fs[0], later[..j]);
      ParseAllStep(b);
      CutStream(fs[1..], j);
      assert fs == [fs[0]] + fs[1..];
    }
  }

  lemma EncodeAllStep(fs: seq<ValidFrame>)
    requires fs != []
    ensures EncodeAll(fs) == Encode(fs[0]) + EncodeAll(fs[1..])
  {
  }

  lemma NoneWhole(fs: seq<ValidFrame>, k: nat)
    requires k <= |EncodeAll(fs)| && (fs == [] || k < |Encode(fs[0])|)
    ensures ParseAll(EncodeAll(fs)[..k]) == []
    ensures k == |EncodeAll(fs)| ==> fs == []
  {
    hide Encode, Parse;
    if fs != [] {
      assert EncodeAll(fs)[..k] == Encode(fs[0])[..k];
      TruncatedFrame(fs[0], k);
    } else {
      assert !Parse([]).Parsed? by { NothingParsed(); }
    }
  }

  lemma NothingParsed()
    ensures Parse([]).Incomplete?
  {
  }

  // ---- Streams cut short --------------------------------------------------

  /** The beginning of a frame, short of its end. */
  ghost predicate Cut(b: seq<byte>) {
    exists f: ValidFrame :: |b| < |Encode(f)| && b == Encode(f)[..|b|]
  }

  lemma CutNothing()
    ensures Cut([])
  {
    var f: ValidFrame := Frame(READY, 0, []);
    assert Encode(f)[..0] == [];
  }

  /** What a write that fell short of a frame's end has written of it. */
  ghost function CutOff(before: seq<byte>, f: ValidFrame, after: seq<byte>): (tail: seq<byte>)
    requires before <= after <= before + Encode(f) && after != before + Encode(f)
    ensures after == before + tail && Cut(tail)
  {
    hide Encode;
    var tail := after[|before|..];
    assert tail == Encode(f)[..|tail|];
    tail
  }

  /** A reader of any part of such a stream sees only frames written whole. */
  lemma WholeFrames(fs: seq<ValidFrame>, tail: seq<byte>, b: seq<byte>)
    requires Cut(tail) && b <= EncodeAll(fs) + tail
    ensures ParseAll(b) <= fs
  {
    hide Encode, EncodeAll, ParseAll;
    var f: ValidFrame :| |tail| < |Encode(f)| && tail == Encode(f)[..|tail|];
    var all := EncodeAll(fs + [f]);
    EncodeAllSplit(fs, [f]);
    EncodeOne(f);
    assert b == all[..|b|];
    CutStream(fs + [f], |b|);
    ParsedFits(b);
    assert ParseAll(b) != fs + [f];
  }

  lemma {:induction false} ParsedFits(b: seq<byte>)
    ensures |EncodeAll(ParseAll(b))| <= |b|
    decreases |b|
  {
    hide Encode;
    if Parse(b).Parsed? {
      EncodeOfParse(b);
      ParsedFits(Parse(b).rest);
    }
  }

  // ---- The connection -----------------------------------------------------

  datatype ReadResult =
    | Got(typ: byte, lease: uint64, length: nat)   // the payload is readBuf[..length]
    | BadFrame
    | Broken

  /** protocol.Conn: the payload of the last frame read lives in readBuf until
      the next ReadFrame overwrites it. */
  class Conn {
    const raw: Endpoint
    const readBuf: array<byte>
    const writeHeader: array<byte>

    ghost predicate Sized() {
      readBuf.Length == MAX_DATA && writeHeader.Length == HEADER && readBuf != writeHeader
    }

    constructor (raw: Endpoint)
      ensures Sized() && this.raw == raw
      ensures fresh(readBuf) && fresh(writeHeader)
    {
      this.raw := raw;
      var r := new byte[MAX_DATA];
      var w := new byte[HEADER];
      readBuf, writeHeader := r, w;
    }

    /** Builds the header of `f` in place. */
    method FillHeader(f: ValidFrame)
      requires Sized()
      modifies writeHeader
      ensures writeHeader[..] == Header(f)
    {
      Capacities();
      hide PutBigEndian, Capacity;
      writeHeader[0] := f.typ;
      var id := PutBigEndian(8, f.lease);
      forall i | 0 <= i < 8 {
        writeHeader[1 + i] := id[i];
      }
      var size := PutBigEndian(4, |f.payload|);
      forall i | 0 <= i < 4 {
        writeHeader[9 + i] := size[i];
      }
    }

    /** Writes the whole encoding, or fails after a prefix of it; a frame with
        an illegal length never reaches the stream. */
    method WriteFrame(f: Frame) returns (failed: bool)
      requires Sized()
      modifies raw`outbound, raw`writeFault, writeHeader
      ensures Valid(f) && failed ==> raw.writeFault
      ensures !Valid(f) ==> failed && raw.outbound == old(raw.outbound)
      ensures Valid(f) && !failed ==> raw.outbound == old(raw.outbound) + Encode(f)
      ensures Valid(f) ==>
                old(raw.outbound) <= raw.outbound <= old(raw.outbound) + Encode(f)
    {
      if !ValidLength(f.typ, |f.payload|) {
        return true;
      }
      hide Header;
      FillHeader(f);
      failed := WriteFull(raw, writeHeader[..]);
      if !failed {
        failed := WriteFull(raw, f.payload);
      }
    }

    /** The frame whose parts ReadFrame returned. */
    ghost function Received(r: ReadResult): Frame
      requires Sized() && r.Got? && r.length <= MAX_DATA
      reads readBuf
    {
      Frame(r.typ, r.lease, readBuf[..r.length])
    }

    /** Consumes exactly the first frame of the stream; reports BadFrame only
        when no valid frame can start this way. */
    method ReadFrame() returns (r: ReadResult)
      requires Sized()
      modifies raw`inbound, raw`readFault, readBuf
      ensures r.Broken? ==> raw.readFault
      ensures r.Got? ==> r.length <= MAX_DATA && Valid(Received(r))
                         && Parse(old(raw.inbound)) == Parsed(Received(r), raw.inbound)
      ensures r.BadFrame? ==> Parse(old(raw.inbound)).Malformed?
    {
      ghost var b := raw.inbound;
      var h := new byte[HEADER];
      var failed := ReadFull(raw, h, 0, HEADER);
      if failed {
        return Broken;
      }
      assert h[0..HEADER] == b[..HEADER];
      assert h[1..9] == b[1..9] && h[9..13] == b[9..13] && h[0] == b[0];
      var typ := h[0];
      var n := BigEndian(h[9..13]);
      if !ValidLength(typ, n) {
        return BadFrame;
      }
      Capacities();
      var id := BigEndian(h[1..9]);
      failed := ReadFull(raw, readBuf, 0, n);
      if failed {
        return Broken;
      }
      assert readBuf[..n] == readBuf[0..n] == b[HEADER..][..n] == b[HEADER..HEADER + n];
      assert raw.inbound == b[HEADER..][n..] == b[HEADER + n..];
      return Got(typ, id, n);
    }
  }
}
