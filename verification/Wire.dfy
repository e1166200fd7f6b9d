/** The byte stream under every layer: a net.Conn whose reads and writes may
    be short and may fail at any point, with the two loops that cope with it. */
module Wire {
  import opened Bytes

  /** One end of a stream. `inbound` holds the octets delivered to this end
      and not yet read, `outbound` every octet this end has written;
      `readFault` and `writeFault` say that the stream has failed a call. */
  class Endpoint {
    var inbound: seq<byte>
    var outbound: seq<byte>
    ghost var readFault: bool
    ghost var writeFault: bool

    constructor (arriving: seq<byte>)
      ensures inbound == arriving && outbound == [] && !readFault && !writeFault
    {
      inbound, outbound, readFault, writeFault := arriving, [], false, false;
    }

    /** io.Writer: accepts some prefix, with or without an error. */
    method Write(b: seq<byte>) returns (n: nat, failed: bool)
      modifies this`outbound, this`writeFault
      ensures n <= |b|
      ensures outbound == old(outbound) + b[..n]
      ensures writeFault == (old(writeFault) || failed || (n == 0 && |b| > 0))
    {
      n :| 0 <= n <= |b|;
      failed := *;
      writeFault := writeFault || failed || (n == 0 && |b| > 0);
      outbound := outbound + b[..n];
    }

    /** io.Reader on a non-empty window of a buffer: at least one octet or an
        error, possibly both. */
    method Read(p: array<byte>, lo: nat, hi: nat) returns (n: nat, failed: bool)
      requires lo < hi <= p.Length
      modifies this`inbound, this`readFault, p
      ensures n <= hi - lo && n <= |old(inbound)|
      ensures readFault == (old(readFault) || failed)
      ensures n > 0 || failed
      ensures inbound == old(inbound)[n..]
      ensures p[..] == old(p[..lo]) + old(inbound)[..n] + old(p[lo + n..])
    {
      n :| 0 <= n <= hi - lo && n <= |inbound|;
      failed :| n > 0 || failed;
      readFault := readFault || failed;
      forall i | lo <= i < lo + n {
        p[i] := inbound[i - lo];
      }
      inbound := inbound[n..];
    }
  }

  /** writeFull / fullWrite: all of `b`, or an error after a prefix of it. */
  method WriteFull(w: Endpoint, b: seq<byte>) returns (failed: bool)
    modifies w`outbound, w`writeFault
    ensures failed ==> w.writeFault
    ensures !failed ==> w.writeFault == old(w.writeFault)
    ensures !failed ==> w.outbound == old(w.outbound) + b
    ensures old(w.outbound) <= w.outbound <= old(w.outbound) + b
  {
    var rest := b;
    ghost var k := 0;
    assert old(w.outbound) + b[..0] == old(w.outbound);
    while |rest| > 0
      invariant 0 <= k <= |b| && rest == b[k..]
      invariant w.outbound == old(w.outbound) + b[..k] && w.writeFault == old(w.writeFault)
      decreases |rest|
    {
      var n, e := w.Write(rest);
      assert b[..k] + rest[..n] == b[..k + n];
      k := k + n;
      if n > 0 {
        rest := rest[n..];
      }
      if e {
        return true;
      }
      if n == 0 {
        return true;
      }
    }
    assert b[..k] == b;
    failed := false;
  }

  /** io.ReadFull into p[lo..hi]. */
  method ReadFull(r: Endpoint, p: array<byte>, lo: nat, hi: nat) returns (failed: bool)
    requires lo <= hi <= p.Length
    modifies r`inbound, r`readFault, p
    ensures failed ==> r.readFault
    ensures exists k :: 0 <= k <= |old(r.inbound)| && k <= hi - lo && r.inbound == old(r.inbound)[k..]
    ensures !failed ==> hi - lo <= |old(r.inbound)|
                        && r.inbound == old(r.inbound)[hi - lo..]
                        && p[lo..hi] == old(r.inbound)[..hi - lo]
    ensures p[..lo] == old(p[..lo]) && p[hi..] == old(p[hi..])
  {
    var at := lo;
    failed := false;
    while at < hi && !failed
      invariant lo <= at <= hi
      invariant at - lo <= |old(r.inbound)| && (failed ==> r.readFault)
      invariant r.inbound == old(r.inbound)[at - lo..]
      invariant p[lo..at] == old(r.inbound)[..at - lo]
      invariant p[..lo] == old(p[..lo]) && p[hi..] == old(p[hi..])
      decreases hi - at, !failed
    {
      ghost var before := p[..];
      ghost var left := r.inbound;
      var n, e := r.Read(p, at, hi);
      assert p[..lo] == before[..lo] && p[hi..] == before[hi..];
      assert p[lo..at + n] == before[lo..at] + left[..n];
      at := at + n;
      failed := e;
    }
    // Like io.ReadAtLeast, an error that comes with the last octets is dropped.
    failed := at < hi;
  }
}
