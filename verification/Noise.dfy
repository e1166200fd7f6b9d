/** The record layer of the Noise transport: each record is a two-octet length,
    which is also the associated data, and one AEAD ciphertext of at most
    32768 + 16 octets. */
module Noise {
  import opened Bytes
  import opened Wire

  const CHUNK: nat := 32768
  const TAG: nat := 16
  const LENGTH: nat := 2

  /** The nonce the Noise Protocol Framework reserves (section 5.1 of revision
      34): EncryptWithAd and DecryptWithAd refuse to use it. */
  const RESERVED_NONCE: nat := 0xFFFF_FFFF_FFFF_FFFF

  /** One direction's CipherState under a fixed key: nonce, associated data,
      text. */
  datatype Cipher = Cipher(
    seal: (nat, seq<byte>, seq<byte>) -> seq<byte>,
    open: (nat, seq<byte>, seq<byte>) -> Option<seq<byte>>)

  /** All that is assumed of the AEAD: opening undoes sealing at the same nonce
      and associated data, and a text grows by its tag. */
  ghost predicate Lawful(c: Cipher) {
    && (forall n: nat, ad: seq<byte>, p: seq<byte> ::
          c.open(n, ad, c.seal(n, ad, p)) == Some(p) && |c.seal(n, ad, p)| == |p| + TAG)
    && (forall n: nat, ad: seq<byte>, x: seq<byte> ::
          c.open(n, ad, x).Some? ==> |x| == |c.open(n, ad, x).value| + TAG)
  }

  function Prefix(n: nat): (h: seq<byte>)
    requires n < 0x1_0000
    ensures |h| == LENGTH
  {
    Capacities();
    PutBigEndian(2, n)
  }

  /** How much of a buffer the next record takes. */
  function Take(p: seq<byte>): (n: nat)
    ensures n <= |p| && n <= CHUNK
    ensures p != [] ==> n > 0
  {
    if |p| < CHUNK then |p| else CHUNK
  }

  /** One record carrying `p`. */
  function Record(c: Cipher, nonce: nat, p: seq<byte>): seq<byte>
    requires 1 <= |p| <= CHUNK
  {
    Prefix(|p| + TAG) + c.seal(nonce, Prefix(|p| + TAG), p)
  }

  /** Write's loop: the records of one buffer, at consecutive nonces. */
  function Seal(c: Cipher, nonce: nat, p: seq<byte>): seq<byte>
    decreases |p|
  {
    if p == [] then []
    else
      Record(c, nonce, p[..Take(p)]) + Seal(c, nonce + 1, p[Take(p)..])
  }

  /** How many records, and so how many nonces, a buffer takes. */
  function Records(p: seq<byte>): nat
    decreases |p|
  {
    if p == [] then 0 else 1 + Records(p[Take(p)..])
  }

  lemma NothingSealed(c: Cipher, nonce: nat)
    ensures Seal(c, nonce, []) == [] && Records([]) == 0
  {
  }

  /** Every record but the last is full. */
  lemma {:induction false} RecordsNeeded(p: seq<byte>)
    ensures Records(p) == (|p| + CHUNK - 1) / CHUNK
    decreases |p|
  {
    if p != [] {
      RecordsNeeded(p[Take(p)..]);
    }
  }

  /** Sealing a buffer is sealing it record by record. */
  lemma {:induction false} SealMore(c: Cipher, nonce: nat, p: seq<byte>, k: nat)
    requires k < |p| && k % CHUNK == 0
    ensures var n := Take(p[k..]);
            && n > 0 && k + n <= |p| && ((k + n) % CHUNK == 0 || k + n == |p|)
            && Records(p[..k + n]) == Records(p[..k]) + 1
            && Seal(c, nonce, p[..k + n]) == Seal(c, nonce, p[..k]) + Record(c, nonce + Records(p[..k]), p[k..k + n])
    decreases k
  {
    hide Record, Seal, Records;
    var n := Take(p[k..]);
    NothingSealed(c, nonce + 1);
    if k == 0 {
      FirstSealed(c, nonce, p, n);
    } else {
      var q, j := p[CHUNK..], k - CHUNK;
      SealMore(c, nonce + 1, q, j);
      assert q[j..] == p[k..] && q[j..j + n] == p[k..k + n];
      assert p[..k][CHUNK..] == q[..j] && p[..k + n][CHUNK..] == q[..j + n];
      assert p[..k][..CHUNK] == p[..k + n][..CHUNK];
      SealStep(c, nonce, p[..k]);
      SealStep(c, nonce, p[..k + n]);
    }
  }

  lemma SealStep(c: Cipher, nonce: nat, p: seq<byte>)
    requires |p| >= CHUNK
    ensures Seal(c, nonce, p) == Record(c, nonce, p[..CHUNK]) + Seal(c, nonce + 1, p[CHUNK..])
    ensures Records(p) == 1 + Records(p[CHUNK..])
  {
    hide Record;
  }

  lemma FirstSealed(c: Cipher, nonce: nat, p: seq<byte>, n: nat)
    requires p != [] && n == Take(p)
    ensures Records(p[..0]) == 0 && Records(p[..n]) == 1
    ensures Seal(c, nonce, p[..0]) == [] && Seal(c, nonce, p[..n]) == Record(c, nonce, p[..n])
  {
    hide Record;
    assert p[..n][..n] == p[..n] && p[..n][n..] == [];
  }

  /** The records of a series of writes. */
  function SealWrites(c: Cipher, nonce: nat, ws: seq<seq<byte>>): seq<byte>
    decreases ws
  {
    if ws == [] then [] else Seal(c, nonce, ws[0]) + SealWrites(c, nonce + Records(ws[0]), ws[1..])
  }

  datatype Opened =
    | Partial                                   // more octets are needed
    | Refused                                   // bad length, bad tag, spent nonce
    | Opened(text: seq<byte>, rest: seq<byte>)

  /** Read's handling of the next record of a stream. */
  function OpenOne(c: Cipher, nonce: nat, b: seq<byte>): (r: Opened)
    ensures r.Opened? ==> |r.rest| + LENGTH <= |b|
  {
    if |b| < LENGTH then Partial
    else
      var n := BigEndian(b[..LENGTH]);
      if n < TAG + 1 || n > CHUNK + TAG then Refused
      else if |b| < LENGTH + n then Partial
      else if nonce >= RESERVED_NONCE then Refused
      else
        match c.open(nonce, b[..LENGTH], b[LENGTH..LENGTH + n])
        case None => Refused
        case Some(text) => Opened(text, b[LENGTH + n..])
  }

  /** The plaintext of every complete record at the front of a stream. */
  function Plain(c: Cipher, nonce: nat, b: seq<byte>): seq<byte>
    decreases |b|
  {
    match OpenOne(c, nonce, b)
    case Opened(text, rest) => text + Plain(c, nonce + 1, rest)
    case _ => []
  }

  // ---- Round trip ---------------------------------------------------------

  lemma SealLaw(c: Cipher, nonce: nat, ad: seq<byte>, p: seq<byte>)
    requires Lawful(c)
    ensures c.open(nonce, ad, c.seal(nonce, ad, p)) == Some(p) && |c.seal(nonce, ad, p)| == |p| + TAG
  {
  }

  lemma OpenLaw(c: Cipher, nonce: nat, ad: seq<byte>, x: seq<byte>)
    requires Lawful(c) && c.open(nonce, ad, x).Some?
    ensures |x| == |c.open(nonce, ad, x).value| + TAG
  {
  }

  /** The octets of a record: two of length, most significant first, and that
      many of ciphertext. */
  lemma RecordLayout(c: Cipher, nonce: nat, p: seq<byte>)
    requires Lawful(c) && 1 <= |p| <= CHUNK
    ensures var r := Record(c, nonce, p);
            && |r| >= LENGTH && |r| - LENGTH == Quad(0, 0, r[0], r[1]) == |p| + TAG
            && c.open(nonce, r[..LENGTH], r[LENGTH..]) == Some(p)
  {
    hide PutBigEndian, BigEndian;
    Capacities();
    var h := Prefix(|p| + TAG);
    BigEndianOfPut(2, |p| + TAG);
    BigEndian2(h);
    assert Record(c, nonce, p)[..LENGTH] == h;
    assert Record(c, nonce, p)[LENGTH..] == c.seal(nonce, h, p);
  }

  lemma PrefixValue(n: nat)
    requires n < 0x1_0000
    ensures BigEndian(Prefix(n)) == n
  {
    Capacities();
    BigEndianOfPut(2, n);
  }

  lemma OpenParts(c: Cipher, nonce: nat, b: seq<byte>, n: nat, text: seq<byte>)
    requires TAG + 1 <= n <= CHUNK + TAG && LENGTH + n <= |b| && nonce < RESERVED_NONCE
    requires BigEndian(b[..LENGTH]) == n
    requires c.open(nonce, b[..LENGTH], b[LENGTH..LENGTH + n]) == Some(text)
    ensures OpenOne(c, nonce, b) == Opened(text, b[LENGTH + n..])
  {
  }

  lemma PlainStep(c: Cipher, nonce: nat, b: seq<byte>)
    requires OpenOne(c, nonce, b).Opened?
    ensures var r := OpenOne(c, nonce, b); Plain(c, nonce, b) == r.text + Plain(c, nonce + 1, r.rest)
  {
  }

  lemma OpenRefused(c: Cipher, nonce: nat, b: seq<byte>, n: nat)
    requires |b| >= LENGTH && BigEndian(b[..LENGTH]) == n
    requires !(TAG + 1 <= n <= CHUNK + TAG)
             || (LENGTH + n <= |b|
                 && (nonce >= RESERVED_NONCE || c.open(nonce, b[..LENGTH], b[LENGTH..LENGTH + n]).None?))
    ensures OpenOne(c, nonce, b).Refused?
  {
  }

  lemma OpenOfRecord(c: Cipher, nonce: nat, p: seq<byte>, rest: seq<byte>)
    requires Lawful(c) && 1 <= |p| <= CHUNK && nonce < RESERVED_NONCE
    ensures OpenOne(c, nonce, Record(c, nonce, p) + rest) == Opened(p, rest)
  {
    hide Lawful, Prefix, BigEndian;
    var h := Prefix(|p| + TAG);
    PrefixValue(|p| + TAG);
    var x := c.seal(nonce, h, p);
    SealLaw(c, nonce, h, p);
    var b := Record(c, nonce, p) + rest;
    assert b[..LENGTH] == h;
    assert b[LENGTH..LENGTH + |x|] == x;
    assert b[LENGTH + |x|..] == rest;
  }

  /** Every length put on the wire is one the reader accepts, and none is
      truncated by the 16-bit field. */
  lemma EmittedLengths(c: Cipher, nonce: nat, p: seq<byte>)
    requires Lawful(c) && 1 <= |p| <= CHUNK
    ensures var r := Record(c, nonce, p);
            && |r| == LENGTH + |p| + TAG
            && BigEndian(r[..LENGTH]) == |p| + TAG
            && TAG + 1 <= BigEndian(r[..LENGTH]) <= CHUNK + TAG
  {
    hide Lawful, Prefix, BigEndian;
    var h := Prefix(|p| + TAG);
    PrefixValue(|p| + TAG);
    SealLaw(c, nonce, h, p);
    assert Record(c, nonce, p)[..LENGTH] == h;
  }

  lemma {:induction false} PlainOfSeal(c: Cipher, nonce: nat, p: seq<byte>, rest: seq<byte>)
    requires Lawful(c) && nonce + Records(p) <= RESERVED_NONCE
    ensures Plain(c, nonce, Seal(c, nonce, p) + rest) == p + Plain(c, nonce + Records(p), rest)
    decreases |p|
  {
    hide Record, OpenOne, Lawful;
    if p == [] {
      assert Seal(c, nonce, p) + rest == rest;
    } else {
      var n := Take(p);
      var next := Seal(c, nonce + 1, p[n..]) + rest;
      OpenOfRecord(c, nonce, p[..n], next);
      PlainOfSeal(c, nonce + 1, p[n..], rest);
      var later := Plain(c, nonce + Records(p), rest);
      assert Seal(c, nonce, p) + rest == Record(c, nonce, p[..n]) + next;
      calc {
        Plain(c, nonce, Seal(c, nonce, p) + rest);
        p[..n] + Plain(c, nonce + 1, next);
        p[..n] + (p[n..] + later);
        p + later;
      }
    }
  }

  function RecordsOfWrites(ws: seq<seq<byte>>): nat {
    if ws == [] then 0 else Records(ws[0]) + RecordsOfWrites(ws[1..])
  }

  /** Noise round trip: for any writes, the reader of the stream recovers their
      concatenation, as long as the reserved nonce is not reached. */
  lemma {:induction false} NoiseRoundTrip(c: Cipher, nonce: nat, ws: seq<seq<byte>>)
    requires Lawful(c) && nonce + RecordsOfWrites(ws) <= RESERVED_NONCE
    ensures Plain(c, nonce, SealWrites(c, nonce, ws)) == Concat(ws)
    decreases ws
  {
    hide Lawful;
    assert Plain(c, nonce, []) == [];
    hide Record, OpenOne, Seal;
    if ws != [] {
      var rest := SealWrites(c, nonce + Records(ws[0]), ws[1..]);
      PlainOfSeal(c, nonce, ws[0], rest);
      NoiseRoundTrip(c, nonce + Records(ws[0]), ws[1..]);
    }
  }

  lemma OpenGrows(c: Cipher, nonce: nat, b: seq<byte>, more: seq<byte>)
    requires OpenOne(c, nonce, b).Opened?
    ensures var r := OpenOne(c, nonce, b);
            OpenOne(c, nonce, b + more) == Opened(r.text, r.rest + more)
  {
    hide BigEndian;
    var n := BigEndian(b[..LENGTH]);
    assert (b + more)[..LENGTH] == b[..LENGTH];
    assert (b + more)[LENGTH..LENGTH + n] == b[LENGTH..LENGTH + n];
    assert (b + more)[LENGTH + n..] == b[LENGTH + n..] + more;
  }

  /** What arrives first decides what is read first: more octets can only
      append to the plaintext, never change it. */
  lemma {:induction false} PlainGrows(c: Cipher, nonce: nat, b: seq<byte>, more: seq<byte>)
    ensures Plain(c, nonce, b) <= Plain(c, nonce, b + more)
    decreases |b|
  {
    hide OpenOne;
    match OpenOne(c, nonce, b)
    case Opened(text, rest) =>
      OpenGrows(c, nonce, b, more);
      PlainGrows(c, nonce + 1, rest, more);
    case _ =>
  }

  /** A stream cut at any octet yields a prefix of what was written. */
  lemma CutRecords(c: Cipher, nonce: nat, ws: seq<seq<byte>>, k: nat)
    requires Lawful(c) && nonce + RecordsOfWrites(ws) <= RESERVED_NONCE
    requires k <= |SealWrites(c, nonce, ws)|
    ensures Plain(c, nonce, SealWrites(c, nonce, ws)[..k]) <= Concat(ws)
  {
    hide Lawful, Plain, SealWrites, Concat;
    var b := SealWrites(c, nonce, ws);
    PlainGrows(c, nonce, b[..k], b[k..]);
    assert b == b[..k] + b[k..];
    NoiseRoundTrip(c, nonce, ws);
  }

  // ---- The connection -----------------------------------------------------

  class NoiseConn {
    const raw: Endpoint
    const sender: Cipher
    const receiver: Cipher
    var sendNonce: nat
    var recvNonce: nat
    const plain: array<byte>
    const cipher: array<byte>
    const outgoing: array<byte>
    // c.pending is the window plain[from..to].
    var from: nat
    var to: nat
    var closed: bool

    ghost predicate Sized()
      reads this
    {
      && plain.Length == CHUNK && cipher.Length == CHUNK + TAG && outgoing.Length == CHUNK + TAG + LENGTH
      && plain != cipher && plain != outgoing && cipher != outgoing
      && from <= to <= CHUNK
      && Lawful(sender) && Lawful(receiver)
    }

    /** Everything this end has received and not yet returned from Read. */
    ghost function Unread(): seq<byte>
      requires Sized()
      reads this, plain, raw`inbound
    {
      plain[from..to] + Plain(receiver, recvNonce, raw.inbound)
    }

    constructor (raw: Endpoint, sender: Cipher, receiver: Cipher)
      requires Lawful(sender) && Lawful(receiver)
      ensures Sized() && this.raw == raw && this.sender == sender && this.receiver == receiver
      ensures sendNonce == recvNonce == 0 && from == to && !closed
      ensures fresh(plain) && fresh(cipher) && fresh(outgoing)
    {
      this.raw, this.sender, this.receiver := raw, sender, receiver;
      sendNonce, recvNonce, from, to, closed := 0, 0, 0, 0, false;
      var p := new byte[CHUNK];
      var x := new byte[CHUNK + TAG];
      var o := new byte[CHUNK + TAG + LENGTH];
      plain, cipher, outgoing := p, x, o;
    }

    /** The body of Write's loop: one record, assembled in `outgoing`. */
    method WriteRecord(part: seq<byte>) returns (failed: bool)
      requires Sized() && 1 <= |part| <= CHUNK
      modifies this`sendNonce, this`closed, raw`outbound, raw`writeFault, outgoing
      ensures failed ==> raw.writeFault || sendNonce >= RESERVED_NONCE
      ensures Sized()
      ensures !failed ==> closed == old(closed) && sendNonce == old(sendNonce) + 1
                          && raw.outbound == old(raw.outbound) + Record(sender, old(sendNonce), part)
      ensures failed ==> closed && old(raw.outbound) <= raw.outbound
                         && raw.outbound <= old(raw.outbound) + Record(sender, old(sendNonce), part)
    {
      hide Lawful, Prefix;
      var h := Prefix(|part| + TAG);
      forall i | 0 <= i < LENGTH {
        outgoing[i] := h[i];
      }
      if sendNonce >= RESERVED_NONCE {
        closed := true;
        return true;
      }
      var x := sender.seal(sendNonce, h, part);
      SealLaw(sender, sendNonce, h, part);
      forall i | 0 <= i < |x| {
        outgoing[LENGTH + i] := x[i];
      }
      var record := outgoing[..LENGTH + |x|];
      assert record == Record(sender, sendNonce, part);
      failed := WriteFull(raw, record);
      sendNonce := sendNonce + 1;
      if failed {
        closed := true;
      }
    }

    /** On success the records of `p` are on the wire and the nonce counts
        them. On failure the connection is closed, and `total` counts the octets
        whose records were written whole: they are on the wire, and beyond them
        at most a part of the next record. */
    method Write(p: seq<byte>) returns (total: nat, failed: bool)
      requires Sized()
      modifies this`sendNonce, this`closed, raw`outbound, raw`writeFault, outgoing
      ensures failed ==> raw.writeFault || sendNonce >= RESERVED_NONCE
      ensures Sized() && total <= |p|
      ensures !failed ==> total == |p| && closed == old(closed)
                          && raw.outbound == old(raw.outbound) + Seal(sender, old(sendNonce), p)
                          && sendNonce == old(sendNonce) + Records(p)
      ensures failed ==> closed && total < |p| && total % CHUNK == 0
      ensures failed ==> old(raw.outbound) + Seal(sender, old(sendNonce), p[..total]) <= raw.outbound
                         && raw.outbound
                            <= old(raw.outbound) + Seal(sender, old(sendNonce), p[..total + Take(p[total..])])
    {
      hide Lawful, Record, Seal, Records;
      total := 0;
      var rest := p;
      ghost var start, nonce := raw.outbound, sendNonce;
      NothingSealed(sender, nonce);
      assert p[..0] == [];
      while |rest| > 0
        invariant Sized() && closed == old(closed)
        invariant total <= |p| && rest == p[total..] && (total % CHUNK == 0 || total == |p|)
        invariant raw.outbound == start + Seal(sender, nonce, p[..total])
        invariant sendNonce == nonce + Records(p[..total])
        decreases |rest|
      {
        var n := Take(rest);
        SealMore(sender, nonce, p, total);
        assert rest[..n] == p[total..total + n];
        failed := WriteRecord(rest[..n]);
        if failed {
          return;
        }
        total := total + n;
        rest := rest[n..];
      }
      assert p[..total] == p;
      failed := false;
    }

    /** The octets of the next record: its prefix `h`, and the rest in
        `cipher`. */
    method ReadRecord() returns (failed: bool, h: seq<byte>, size: nat)
      requires Sized()
      modifies this`closed, raw`inbound, raw`readFault, cipher
      ensures failed ==> closed && (raw.readFault || OpenOne(receiver, recvNonce, old(raw.inbound)).Refused?)
      ensures !failed ==>
                && closed == old(closed) && TAG + 1 <= size <= CHUNK + TAG && LENGTH + size <= |old(raw.inbound)|
                && h == old(raw.inbound)[..LENGTH] && BigEndian(h) == size
                && cipher[..size] == old(raw.inbound)[LENGTH..LENGTH + size]
                && raw.inbound == old(raw.inbound)[LENGTH + size..]
    {
      hide Lawful, BigEndian, OpenOne;
      ghost var b := raw.inbound;
      h, size := [], 0;
      failed := ReadFull(raw, cipher, 0, LENGTH);
      if failed {
        closed := true;
        return;
      }
      h := cipher[..LENGTH];
      assert h == cipher[0..LENGTH] == b[..LENGTH];
      size := BigEndian(h);
      if size < TAG + 1 || size > CHUNK + TAG {
        OpenRefused(receiver, recvNonce, b, size);
        closed := true;
        return true, h, size;
      }
      failed := ReadFull(raw, cipher, 0, size);
      if failed {
        closed := true;
        return;
      }
      assert cipher[..size] == cipher[0..size] == b[LENGTH..][..size] == b[LENGTH..LENGTH + size];
      assert raw.inbound == b[LENGTH..][size..] == b[LENGTH + size..];
    }

    /** The first half of Read: decrypts one record over `plain`, which must
        hold nothing unread. */
    method Refill() returns (failed: bool)
      requires Sized() && from == to
      modifies this`recvNonce, this`from, this`to, this`closed, raw`inbound, raw`readFault, plain, cipher
      ensures failed ==> raw.readFault || OpenOne(receiver, old(recvNonce), old(raw.inbound)).Refused?
      ensures Sized()
      ensures !failed ==> from < to && Unread() == old(Unread()) && closed == old(closed)
                          && recvNonce == old(recvNonce) + 1
      ensures failed ==> closed
    {
      hide Lawful, BigEndian, OpenOne, Plain;
      ghost var b := raw.inbound;
      var h, size;
      failed, h, size := ReadRecord();
      if failed {
        return;
      }
      var x := cipher[..size];
      var text := if recvNonce >= RESERVED_NONCE then None else receiver.open(recvNonce, h, x);
      if text.None? {
        OpenRefused(receiver, recvNonce, b, size);
        closed := true;
        return true;
      }
      OpenParts(receiver, recvNonce, b, size, text.value);
      OpenLaw(receiver, recvNonce, h, x);
      PlainStep(receiver, recvNonce, b);
      recvNonce := recvNonce + 1;
      forall i | 0 <= i < |text.value| {
        plain[i] := text.value[i];
      }
      from, to := 0, |text.value|;
      assert plain[from..to] == text.value;
    }

    /** Read's copy out of the window. */
    method Drain(p: array<byte>) returns (n: nat)
      requires Sized() && p != plain && p != cipher && p != outgoing
      modifies this`from, p
      ensures Sized() && n <= p.Length && n == if p.Length < to - old(from) then p.Length else to - old(from)
      ensures from == old(from) + n
      ensures plain[old(from)..to] == p[..n] + plain[from..to] && p[n..] == old(p[n..])
    {
      hide Lawful;
      n := if p.Length < to - from then p.Length else to - from;
      ghost var tail := p[n..];
      forall i | 0 <= i < n {
        p[i] := plain[from + i];
      }
      assert p[n..] == tail;
      assert plain[from..to] == p[..n] + plain[from + n..to];
      from := from + n;
    }

    /** Returns the next octets of Unread, at least one for a non-empty buffer,
        or closes the connection. A record is decrypted over `plain` only when
        nothing in `plain` is still to be read. */
    method Read(p: array<byte>) returns (n: nat, failed: bool)
      requires Sized()
      requires p != plain && p != cipher && p != outgoing
      modifies this`recvNonce, this`from, this`to, this`closed, raw`inbound, raw`readFault, plain, cipher, p
      ensures failed ==> raw.readFault || OpenOne(receiver, old(recvNonce), old(raw.inbound)).Refused?
      ensures Sized() && n <= p.Length
      ensures !failed ==> old(Unread()) == p[..n] + Unread() && p[n..] == old(p[n..]) && closed == old(closed)
      ensures !failed && p.Length > 0 ==> n > 0 && (n == p.Length || from == to)
      ensures failed ==> n == 0 && closed && p[..] == old(p[..])
      ensures old(from) < old(to) || p.Length == 0 ==>
                !failed && recvNonce == old(recvNonce) && raw.inbound == old(raw.inbound)
                && plain[..] == old(plain[..])
    {
      hide Lawful, OpenOne, Plain;
      if p.Length == 0 {
        assert p[..0] + Unread() == Unread();
        return 0, false;
      }
      if from == to {
        failed := Refill();
        if failed {
          return 0, true;
        }
      }
      ghost var later := Plain(receiver, recvNonce, raw.inbound);
      ghost var window := plain[from..to];
      n := Drain(p);
      failed := false;
      assert window + later == p[..n] + (plain[from..to] + later);
    }
  }
}
