/** The stream layers put together: relay fragments in frames in Noise records,
    for one direction of a tunnel connection. */
module Stack {
  import opened Bytes
  import opened Protocol
  import N = Noise
  import R = Relay

  // ---- Arrival in pieces --------------------------------------------------

  lemma ParseGrows(b: seq<byte>, more: seq<byte>)
    requires Parse(b).Parsed?
    ensures Parse(b + more) == Parsed(Parse(b).frame, Parse(b).rest + more)
  {
    var f, rest := Parse(b).frame, Parse(b).rest;
    EncodeOfParse(b);
    ParseOfEncode(f, rest + more);
    assert b + more == Encode(f) + (rest + more);
  }

  /** Octets that arrive later only append to what a lease's reader gets. */
  lemma {:induction false} ContentGrows(id: uint64, b: seq<byte>, more: seq<byte>)
    ensures R.Content(id, b) <= R.Content(id, b + more)
    decreases |b|
  {
    hide Parse;
    match Parse(b)
    case Parsed(f, rest) =>
      ParseGrows(b, more);
      if f.lease == id && f.typ == DATA {
        ContentGrows(id, rest, more);
      }
    case _ =>
  }

  // ---- The whole tower ----------------------------------------------------

  /** Relay writes, cut into DATA frames, encoded, handed to the record layer
      in any pieces and decrypted at the far end: the lease's reader gets the
      writes joined together, then FIN, and what follows FIN is untouched. */
  lemma TowerRoundTrip(c: N.Cipher, nonce: nat, id: uint64, writes: seq<seq<byte>>, after: seq<byte>,
                       pieces: seq<seq<byte>>)
    requires N.Lawful(c) && nonce + N.RecordsOfWrites(pieces) <= N.RESERVED_NONCE
    requires Concat(pieces) == EncodeAll(R.LeaseFrames(id, writes)) + after
    ensures var read := N.Plain(c, nonce, N.SealWrites(c, nonce, pieces));
            && R.Content(id, read) == Concat(writes)
            && Parse(R.Beyond(id, read)) == Parsed(R.FinFrame(id), after)
  {
    hide N.Lawful, N.Plain, N.SealWrites, Parse, EncodeAll;
    N.NoiseRoundTrip(c, nonce, pieces);
    R.LeaseRoundTrip(id, writes, after);
  }

  /** The same with the connection cut after any octet: the reader gets a
      prefix of the writes. */
  lemma CutTower(c: N.Cipher, nonce: nat, id: uint64, writes: seq<seq<byte>>, after: seq<byte>,
                 pieces: seq<seq<byte>>, k: nat)
    requires N.Lawful(c) && nonce + N.RecordsOfWrites(pieces) <= N.RESERVED_NONCE
    requires Concat(pieces) == EncodeAll(R.LeaseFrames(id, writes)) + after
    requires k <= |N.SealWrites(c, nonce, pieces)|
    ensures R.Content(id, N.Plain(c, nonce, N.SealWrites(c, nonce, pieces)[..k])) <= Concat(writes)
  {
    hide N.Lawful, N.Plain, N.SealWrites, Parse, EncodeAll, R.Content;
    var all := Concat(pieces);
    var got := N.Plain(c, nonce, N.SealWrites(c, nonce, pieces)[..k]);
    N.CutRecords(c, nonce, pieces, k);
    ContentGrows(id, got, all[|got|..]);
    assert got + all[|got|..] == all;
    R.LeaseRoundTrip(id, writes, after);
  }

  // ---- Runs of the record layer -------------------------------------------

  /** The records of `parts` at consecutive nonces. */
  function Flight(c: N.Cipher, nonce: nat, parts: seq<seq<byte>>): seq<byte>
    requires forall i :: 0 <= i < |parts| ==> 1 <= |parts[i]| <= N.CHUNK
    decreases |parts|
  {
    if parts == [] then [] else N.Record(c, nonce, parts[0]) + Flight(c, nonce + 1, parts[1..])
  }

  /** One direction of a noiseConn pair. `wire` is written but not yet read,
      `pending` is decrypted but not yet returned, `cut` says a write failed
      part way, `refused` that the reader met a record it must reject. */
  datatype Pipe = Pipe(
    sendNonce: nat, recvNonce: nat, wire: seq<byte>, pending: seq<byte>,
    written: seq<byte>, got: seq<byte>, cut: bool, refused: bool)

  datatype Event =
    | Write(p: seq<byte>)
    | WriteFails(p: seq<byte>, octets: nat)
    | Read(size: nat)

  const FRESH: Pipe := Pipe(0, 0, [], [], [], [], false, false)

  function Step(c: N.Cipher, s: Pipe, e: Event): Pipe {
    match e
    case Write(p) =>
      if s.cut || s.sendNonce + N.Records(p) > N.RESERVED_NONCE then s
      else s.(wire := s.wire + N.Seal(c, s.sendNonce, p),
              sendNonce := s.sendNonce + N.Records(p), written := s.written + p)
    case WriteFails(p, octets) =>
      if s.cut || s.sendNonce + N.Records(p) > N.RESERVED_NONCE
         || octets > |N.Seal(c, s.sendNonce, p)| then s
      else s.(wire := s.wire + N.Seal(c, s.sendNonce, p)[..octets], written := s.written + p, cut := true)
    case Read(size) =>
      if s.refused then s
      else if s.pending != [] then Deliver(s, size)
      else
        match N.OpenOne(c, s.recvNonce, s.wire)
        case Partial => s
        case Refused => s.(refused := true)
        case Opened(text, rest) =>
          Deliver(s.(pending := text, wire := rest, recvNonce := s.recvNonce + 1), size)
  }

  function Deliver(s: Pipe, size: nat): Pipe {
    var n := if size < |s.pending| then size else |s.pending|;
    s.(got := s.got + s.pending[..n], pending := s.pending[n..])
  }

  function Run(c: N.Cipher, s: Pipe, es: seq<Event>): Pipe
    decreases |es|
  {
    if es == [] then s else Run(c, Step(c, s, es[0]), es[1..])
  }

  /** The wire carries exactly the records between the two nonces or, after a
      failed write, the beginning of such a series. */
  ghost predicate Carries(c: N.Cipher, s: Pipe, parts: seq<seq<byte>>) {
    && (forall i :: 0 <= i < |parts| ==> 1 <= |parts[i]| <= N.CHUNK)
    && !s.refused
    && s.recvNonce + |parts| <= N.RESERVED_NONCE
    && s.written == s.got + s.pending + Concat(parts)
    && if s.cut then s.wire <= Flight(c, s.recvNonce, parts)
       else s.recvNonce + |parts| == s.sendNonce && s.wire == Flight(c, s.recvNonce, parts)
  }

  ghost predicate Inv(c: N.Cipher, s: Pipe) {
    exists parts :: Carries(c, s, parts)
  }

  function Chunks(p: seq<byte>): (r: seq<seq<byte>>)
    ensures forall i :: 0 <= i < |r| ==> 1 <= |r[i]| <= N.CHUNK
    ensures |r| == N.Records(p) && Concat(r) == p
    decreases |p|
  {
    if p == [] then []
    else
      assert p == p[..N.Take(p)] + p[N.Take(p)..];
      [p[..N.Take(p)]] + Chunks(p[N.Take(p)..])
  }

  lemma {:induction false} SealIsFlight(c: N.Cipher, nonce: nat, p: seq<byte>)
    ensures N.Seal(c, nonce, p) == Flight(c, nonce, Chunks(p))
    decreases |p|
  {
    hide N.Record;
    if p != [] {
      SealIsFlight(c, nonce + 1, p[N.Take(p)..]);
    }
  }

  lemma {:induction false} FlightSplit(c: N.Cipher, nonce: nat, a: seq<seq<byte>>, b: seq<seq<byte>>)
    requires forall i :: 0 <= i < |a| ==> 1 <= |a[i]| <= N.CHUNK
    requires forall i :: 0 <= i < |b| ==> 1 <= |b[i]| <= N.CHUNK
    ensures Flight(c, nonce, a + b) == Flight(c, nonce, a) + Flight(c, nonce + |a|, b)
    decreases |a|
  {
    hide N.Record;
    if a == [] {
      assert a + b == b;
    } else {
      FlightSplit(c, nonce + 1, a[1..], b);
      assert (a + b)[1..] == a[1..] + b;
    }
  }

  /** Part of a record is not a record, and is not rejected either. */
  lemma CutRecord(c: N.Cipher, nonce: nat, p: seq<byte>, k: nat)
    requires N.Lawful(c) && 1 <= |p| <= N.CHUNK && k < |N.Record(c, nonce, p)|
    ensures N.OpenOne(c, nonce, N.Record(c, nonce, p)[..k]).Partial?
  {
    hide N.Lawful, BigEndian;
    N.EmittedLengths(c, nonce, p);
    var r := N.Record(c, nonce, p);
    if k >= N.LENGTH {
      assert r[..k][..N.LENGTH] == r[..N.LENGTH];
    }
  }

  /** Sealing one more buffer extends a flight by its chunks. */
  lemma Extended(c: N.Cipher, s: Pipe, parts: seq<seq<byte>>, p: seq<byte>)
    requires Carries(c, s, parts) && !s.cut
    ensures Flight(c, s.recvNonce, parts + Chunks(p)) == s.wire + N.Seal(c, s.sendNonce, p)
    ensures s.written + p == s.got + s.pending + Concat(parts + Chunks(p))
  {
    hide N.Seal, Flight, Chunks, N.Records;
    SealIsFlight(c, s.sendNonce, p);
    FlightSplit(c, s.recvNonce, parts, Chunks(p));
    ConcatSplit(parts, Chunks(p));
  }

  lemma InvWrite(c: N.Cipher, s: Pipe, p: seq<byte>)
    requires Inv(c, s)
    ensures Inv(c, Step(c, s, Write(p)))
  {
    hide N.Seal, N.Records, Flight, Chunks, Concat;
    var parts :| Carries(c, s, parts);
    if Step(c, s, Write(p)) != s {
      Extended(c, s, parts, p);
      assert Carries(c, Step(c, s, Write(p)), parts + Chunks(p));
    }
  }

  lemma InvWriteFails(c: N.Cipher, s: Pipe, p: seq<byte>, octets: nat)
    requires Inv(c, s)
    ensures Inv(c, Step(c, s, WriteFails(p, octets)))
  {
    hide N.Seal, N.Records, Flight, Chunks, Concat;
    var parts :| Carries(c, s, parts);
    if Step(c, s, WriteFails(p, octets)) != s {
      Extended(c, s, parts, p);
      assert Carries(c, Step(c, s, WriteFails(p, octets)), parts + Chunks(p));
    }
  }

  /** The next record of a flight opens, or has not wholly arrived. */
  lemma OpenFlight(c: N.Cipher, nonce: nat, parts: seq<seq<byte>>, wire: seq<byte>)
    requires N.Lawful(c) && nonce + |parts| <= N.RESERVED_NONCE
    requires forall i :: 0 <= i < |parts| ==> 1 <= |parts[i]| <= N.CHUNK
    requires wire <= Flight(c, nonce, parts)
    ensures var r := N.OpenOne(c, nonce, wire);
            && !r.Refused?
            && (r.Opened? ==>
                  && parts != [] && r.text == parts[0]
                  && r.rest <= Flight(c, nonce + 1, parts[1..])
                  && (wire == Flight(c, nonce, parts) ==> r.rest == Flight(c, nonce + 1, parts[1..])))
            && (r.Partial? ==> wire != Flight(c, nonce, parts) || parts == [])
  {
    hide N.Lawful;
    if parts == [] {
      assert N.OpenOne(c, nonce, []).Partial?;
    } else {
      hide N.OpenOne, N.Record;
      var first, later := N.Record(c, nonce, parts[0]), Flight(c, nonce + 1, parts[1..]);
      if |wire| < |first| {
        assert wire == first[..|wire|];
        CutRecord(c, nonce, parts[0], |wire|);
      } else {
        var rest := wire[|first|..];
        assert wire == first + rest && rest <= later;
        N.OpenOfRecord(c, nonce, parts[0], rest);
      }
    }
  }

  lemma InvDeliver(c: N.Cipher, s: Pipe, size: nat, parts: seq<seq<byte>>)
    requires Carries(c, s, parts)
    ensures Carries(c, Deliver(s, size), parts)
  {
    hide Flight;
    var n := if size < |s.pending| then size else |s.pending|;
    assert s.pending == s.pending[..n] + s.pending[n..];
  }

  lemma InvRead(c: N.Cipher, s: Pipe, size: nat)
    requires N.Lawful(c) && Inv(c, s)
    ensures Inv(c, Step(c, s, Read(size)))
  {
    hide N.Lawful, N.OpenOne, Flight;
    var parts :| Carries(c, s, parts);
    if s.pending != [] {
      InvDeliver(c, s, size, parts);
    } else {
      OpenFlight(c, s.recvNonce, parts, s.wire);
      match N.OpenOne(c, s.recvNonce, s.wire)
      case Opened(text, rest) =>
        var u := s.(pending := text, wire := rest, recvNonce := s.recvNonce + 1);
        assert Concat(parts) == text + Concat(parts[1..]);
        assert u.written == u.got + u.pending + Concat(parts[1..]) by {
          assert s.got + s.pending == s.got;
        }
        InvDeliver(c, u, size, parts[1..]);
      case _ =>
    }
  }

  lemma {:induction false} InvRun(c: N.Cipher, s: Pipe, es: seq<Event>)
    requires N.Lawful(c) && Inv(c, s)
    ensures Inv(c, Run(c, s, es))
    decreases |es|
  {
    hide N.Lawful, Inv, Step;
    if es != [] {
      match es[0] {
        case Write(p) => InvWrite(c, s, p);
        case WriteFails(p, octets) => InvWriteFails(c, s, p, octets);
        case Read(size) => InvRead(c, s, size);
      }
      InvRun(c, Step(c, s, es[0]), es[1..]);
    }
  }

  lemma NothingLost(c: N.Cipher, s: Pipe)
    requires N.Lawful(c) && Inv(c, s)
    ensures !s.refused && s.got <= s.written
    ensures !s.cut && s.wire == [] && s.pending == [] ==> s.got == s.written && s.recvNonce == s.sendNonce
  {
    hide N.Lawful;
    var parts :| Carries(c, s, parts);
    assert s.written == s.got + (s.pending + Concat(parts));
    if parts != [] {
      N.EmittedLengths(c, s.recvNonce, parts[0]);
    }
  }

  /** Over every run of writes, failing writes and reads of any size: nothing
      is refused, what was read is a prefix of what was written, and once the
      wire is drained with no write cut short the two are equal and the nonces
      agree. */
  lemma RecordRuns(c: N.Cipher, es: seq<Event>)
    requires N.Lawful(c)
    ensures var s := Run(c, FRESH, es);
            && !s.refused
            && s.got <= s.written
            && (!s.cut && s.wire == [] && s.pending == [] ==> s.got == s.written && s.recvNonce == s.sendNonce)
  {
    assert Carries(c, FRESH, []);
    hide N.Lawful, Run;
    InvRun(c, FRESH, es);
    NothingLost(c, Run(c, FRESH, es));
  }

  lemma ReadGets(c: N.Cipher, s: Pipe, size: nat)
    requires N.Lawful(c) && size > 0 && Inv(c, s)
    ensures !s.cut && s.got != s.written ==> |Step(c, s, Read(size)).got| > |s.got|
  {
    hide N.Lawful, N.OpenOne;
    var parts :| Carries(c, s, parts);
    OpenFlight(c, s.recvNonce, parts, s.wire);
  }

  /** A read always makes progress while a whole record is on the wire. */
  lemma ReadProgress(c: N.Cipher, es: seq<Event>, size: nat)
    requires N.Lawful(c) && size > 0
    ensures var s := Run(c, FRESH, es);
            !s.cut && s.got != s.written ==> |Step(c, s, Read(size)).got| > |s.got|
  {
    assert Carries(c, FRESH, []);
    hide N.Lawful, Run, Step;
    InvRun(c, FRESH, es);
    ReadGets(c, Run(c, FRESH, es), size);
  }
}
