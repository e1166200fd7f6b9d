/** The two goroutines in the code's form, joined: what each wrote is what the
    other reads, and together they took a run of the state machine. */
module Joined {
  import opened Bytes
  import opened Protocol
  import L = Lease
  import LS = LeaseSafety
  import CS = ClientSession
  import SS = ServerSession

  /** The client's steps of a schedule, and the server's. */
  function ClientOf(m: seq<L.Event>): seq<L.Event> {
    if m == [] then []
    else ClientOf(m[..|m| - 1]) + (if L.ByClient(m[|m| - 1]) then [m[|m| - 1]] else [])
  }

  function ServerOf(m: seq<L.Event>): seq<L.Event> {
    if m == [] then []
    else ServerOf(m[..|m| - 1]) + (if L.ByClient(m[|m| - 1]) then [] else [m[|m| - 1]])
  }

  /** Each side alone, with the frames that reach it, after the schedule `m`. */
  function ClientAfter(down: seq<Frame>, m: seq<L.Event>): L.Link {
    L.Run(CS.Begin(down), ClientOf(m))
  }

  function ServerAfter(up: seq<Frame>, m: seq<L.Event>): L.Link {
    L.Run(SS.Begin(up), ServerOf(m))
  }

  /** How many of the frames that reach a side it has read. */
  function Read(all: seq<Frame>, left: seq<Frame>): int {
    |all| - |left|
  }

  /** No frame is read before it is written. */
  ghost predicate Causal(down: seq<Frame>, up: seq<Frame>, m: seq<L.Event>) {
    && (m != [] ==> Causal(down, up, m[..|m| - 1]))
    && var c, s := ClientAfter(down, m).core, ServerAfter(up, m).core;
       Read(down, c.down) <= |s.down| && Read(up, s.up) <= |c.up|
  }

  // ---- One step -----------------------------------------------------------

  /** `j` is where the client of `c` is, `n` of the frames for it read. */
  ghost predicate SameClient(j: L.Link, c: L.Link) {
    && j.core.client == c.core.client && j.core.cLast == c.core.cLast && j.cAlive == c.cAlive
    && j.up.sent == c.up.sent && j.down.got == c.down.got && j.down.fins == c.down.fins
  }

  ghost predicate SameServer(j: L.Link, s: L.Link) {
    && j.core.server == s.core.server && j.core.sLast == s.core.sLast && j.sAlive == s.sAlive
    && j.down.sent == s.down.sent && j.up.got == s.up.got && j.up.fins == s.up.fins
  }

  /** Whether a step takes a frame off the channel it reads. */
  predicate Takes(l: L.Link, e: L.Event) {
    (e.CRead? && l.cAlive && L.ClientReads(l.core.client) && l.core.down != [])
    || (e.SRead? && l.sAlive && L.ServerReads(l.core.server) && l.core.up != [])
  }

  /** A client's step does the same to both, given the same next frame. */
  lemma ClientStepSame(j: L.Link, c: L.Link, e: L.Event)
    requires SameClient(j, c) && L.ByClient(e) && (e.CRead? ==> c.core.down != [])
    requires Takes(c, e) ==> j.core.down != [] && j.core.down[0] == c.core.down[0]
    ensures SameClient(L.Step(j, e), L.Step(c, e))
  {
    if e.CRead? {
      ClientReadSame(j, c);
    } else if e.CWrite? {
      ClientWriteSame(j, c);
    } else {
      hide Valid, L.At;
    }
  }

  lemma ClientWriteSame(j: L.Link, c: L.Link)
    requires SameClient(j, c)
    ensures SameClient(L.Step(j, L.CWrite), L.Step(c, L.CWrite))
  {
    hide Valid, L.At, L.CTurn;
  }

  lemma ClientReadSame(j: L.Link, c: L.Link)
    requires SameClient(j, c) && c.core.down != []
    requires Takes(c, L.CRead) ==> j.core.down != [] && j.core.down[0] == c.core.down[0]
    ensures SameClient(L.Step(j, L.CRead), L.Step(c, L.CRead))
  {
    hide L.At;
  }

  lemma ClientLeaves(j: L.Link, s: L.Link, e: L.Event)
    requires L.ByClient(e) && SameServer(j, s)
    ensures SameServer(L.Step(j, e), s)
  {
    hide Valid, L.At;
  }

  /** And to the channels: it reads a frame from one and writes to the other. */
  lemma ClientChannels(j: L.Link, c: L.Link, e: L.Event)
    requires SameClient(j, c) && L.ByClient(e) && (e.CRead? ==> c.core.down != [])
    requires Takes(c, e) ==> j.core.down != [] && j.core.down[0] == c.core.down[0]
    ensures var j', c' := L.Step(j, e), L.Step(c, e);
            && c.core.up <= c'.core.up && j'.core.up == j.core.up + c'.core.up[|c.core.up|..]
            && j'.core.down == (if Takes(c, e) then j.core.down[1..] else j.core.down)
            && c'.core.down == (if Takes(c, e) then c.core.down[1..] else c.core.down)
  {
    hide Valid, L.LogSent, L.LogGot;
  }

  lemma ServerStepSame(j: L.Link, s: L.Link, e: L.Event)
    requires SameServer(j, s) && !L.ByClient(e) && (e.SRead? ==> s.core.up != [])
    requires Takes(s, e) ==> j.core.up != [] && j.core.up[0] == s.core.up[0]
    ensures SameServer(L.Step(j, e), L.Step(s, e))
  {
    if e.SRead? {
      ServerReadSame(j, s, e.verdict);
    } else if e.SWrite? {
      ServerWriteSame(j, s);
    } else {
      hide Valid, L.At;
    }
  }

  lemma ServerWriteSame(j: L.Link, s: L.Link)
    requires SameServer(j, s)
    ensures SameServer(L.Step(j, L.SWrite), L.Step(s, L.SWrite))
  {
    hide Valid, L.At, L.STurn;
  }

  lemma ServerReadSame(j: L.Link, s: L.Link, verdict: Option<seq<byte>>)
    requires SameServer(j, s) && s.core.up != []
    requires Takes(s, L.SRead(verdict)) ==> j.core.up != [] && j.core.up[0] == s.core.up[0]
    ensures SameServer(L.Step(j, L.SRead(verdict)), L.Step(s, L.SRead(verdict)))
  {
    hide L.At;
  }

  lemma ServerLeaves(j: L.Link, c: L.Link, e: L.Event)
    requires !L.ByClient(e) && SameClient(j, c)
    ensures SameClient(L.Step(j, e), c)
  {
    hide Valid, L.At;
  }

  lemma ServerChannels(j: L.Link, s: L.Link, e: L.Event)
    requires SameServer(j, s) && !L.ByClient(e) && (e.SRead? ==> s.core.up != [])
    requires Takes(s, e) ==> j.core.up != [] && j.core.up[0] == s.core.up[0]
    ensures var j', s' := L.Step(j, e), L.Step(s, e);
            && s.core.down <= s'.core.down && j'.core.down == j.core.down + s'.core.down[|s.core.down|..]
            && j'.core.up == (if Takes(s, e) then j.core.up[1..] else j.core.up)
            && s'.core.up == (if Takes(s, e) then s.core.up[1..] else s.core.up)
  {
    hide Valid, L.LogSent, L.LogGot;
  }

  // ---- The schedule is a run ----------------------------------------------

  /** The machine in the state `j` is where both sides are: a channel holds what
      one has written and the other has not read. */
  ghost predicate Meet(j: L.Link, c: L.Link, s: L.Link, down: seq<Frame>, up: seq<Frame>) {
    && SameClient(j, c) && SameServer(j, s)
    && (var r := Read(down, c.core.down);
        0 <= r <= |s.core.down| && c.core.down == down[r..] && j.core.down == s.core.down[r..])
    && (var r := Read(up, s.core.up);
        0 <= r <= |c.core.up| && s.core.up == up[r..] && j.core.up == c.core.up[r..])
  }

  lemma ClientMeets(j: L.Link, c: L.Link, s: L.Link, down: seq<Frame>, up: seq<Frame>, e: L.Event, all: seq<Frame>)
    requires Meet(j, c, s, down, up) && L.ByClient(e) && (e.CRead? ==> c.core.down != [])
    requires down <= all && s.core.down <= all
    requires Read(down, L.Step(c, e).core.down) <= |s.core.down|
    ensures Meet(L.Step(j, e), L.Step(c, e), s, down, up)
  {
    hide SameClient, SameServer, L.Step;
    var r := Read(down, c.core.down);
    ClientTakes(c, e);
    if Takes(c, e) {
      assert c.core.down[0] == down[r] == all[r] == s.core.down[r] == j.core.down[0];
    }
    ClientStepSame(j, c, e);
    ClientLeaves(j, s, e);
    ClientChannels(j, c, e);
  }

  lemma ClientTakes(c: L.Link, e: L.Event)
    requires L.ByClient(e)
    ensures L.Step(c, e).core.down == if Takes(c, e) then c.core.down[1..] else c.core.down
  {
    hide Valid, L.LogSent, L.LogGot;
  }

  lemma ServerMeets(j: L.Link, c: L.Link, s: L.Link, down: seq<Frame>, up: seq<Frame>, e: L.Event, all: seq<Frame>)
    requires Meet(j, c, s, down, up) && !L.ByClient(e) && (e.SRead? ==> s.core.up != [])
    requires up <= all && c.core.up <= all
    requires Read(up, L.Step(s, e).core.up) <= |c.core.up|
    ensures Meet(L.Step(j, e), c, L.Step(s, e), down, up)
  {
    hide SameClient, SameServer, L.Step;
    var r := Read(up, s.core.up);
    ServerTakes(s, e);
    if Takes(s, e) {
      assert s.core.up[0] == up[r] == all[r] == c.core.up[r] == j.core.up[0];
    }
    ServerStepSame(j, s, e);
    ServerLeaves(j, c, e);
    ServerChannels(j, s, e);
  }

  lemma ServerTakes(s: L.Link, e: L.Event)
    requires !L.ByClient(e)
    ensures L.Step(s, e).core.up == if Takes(s, e) then s.core.up[1..] else s.core.up
  {
    hide Valid, L.LogSent, L.LogGot;
  }

  /** What a side has written only grows. */
  lemma WritesGrow(l: L.Link, e: L.Event)
    ensures L.ByClient(e) ==> l.core.up <= L.Step(l, e).core.up
    ensures !L.ByClient(e) ==> l.core.down <= L.Step(l, e).core.down
  {
    hide Valid, L.LogSent, L.LogGot;
  }

  lemma {:induction false} Joins(down: seq<Frame>, up: seq<Frame>, m: seq<L.Event>,
                                 allDown: seq<Frame>, allUp: seq<Frame>)
    requires Causal(down, up, m)
    requires L.ReadsFrames(CS.Begin(down), ClientOf(m)) && L.ReadsFrames(SS.Begin(up), ServerOf(m))
    requires down <= allDown && ServerAfter(up, m).core.down <= allDown
    requires up <= allUp && ClientAfter(down, m).core.up <= allUp
    ensures Meet(L.Run(L.CONNECTED, m), ClientAfter(down, m), ServerAfter(up, m), down, up)
    decreases |m|
  {
    hide L.Run, L.Step, CS.Begin, SS.Begin, Meet, Read;
    if m == [] {
      Starts(down, up);
    } else {
      var n := |m| - 1;
      var front, e := m[..n], m[n];
      assert front + [e] == m;
      LS.RunLonger(L.CONNECTED, front, e);
      var c, s := ClientAfter(down, front), ServerAfter(up, front);
      if L.ByClient(e) {
        assert (ClientOf(front) + [e])[..|ClientOf(front)|] == ClientOf(front);
        LS.RunLonger(CS.Begin(down), ClientOf(front), e);
        assert ServerOf(m) == ServerOf(front);
        WritesGrow(c, e);
        Joins(down, up, front, allDown, allUp);
        ClientMeets(L.Run(L.CONNECTED, front), c, s, down, up, e, allDown);
      } else {
        assert (ServerOf(front) + [e])[..|ServerOf(front)|] == ServerOf(front);
        LS.RunLonger(SS.Begin(up), ServerOf(front), e);
        assert ClientOf(m) == ClientOf(front);
        WritesGrow(s, e);
        Joins(down, up, front, allDown, allUp);
        ServerMeets(L.Run(L.CONNECTED, front), c, s, down, up, e, allUp);
      }
    }
  }

  lemma Starts(down: seq<Frame>, up: seq<Frame>)
    ensures Meet(L.Run(L.CONNECTED, []), ClientAfter(down, []), ServerAfter(up, []), down, up)
  {
  }

  // ---- Main result --------------------------------------------------------

  /** What a relay read of a lease, against what the other side wrote. */
  ghost predicate Delivered(got: L.Log, sent: L.Log) {
    forall id: uint64 ::
      L.At(got.got, id) <= L.At(sent.sent, id) && (id in got.fins ==> L.At(got.got, id) == L.At(sent.sent, id))
  }

  /** Whatever the two goroutines did, if what arrived at each is a part of what
      the other wrote and no frame was read before it was written, then their
      steps, in the order `m` in which they were taken, are a run of the state
      machine; so neither met a frame it rejects, and what each relay delivered
      is a prefix of what the other sent for that lease, and all of it once FIN
      was read. */
  lemma SessionsJoin(c: CS.Session, s: SS.Session, m: seq<L.Event>)
    requires c.Valid() && s.Valid()
    requires c.trace == ClientOf(m) && s.trace == ServerOf(m)
    requires c.arrives <= s.conn.raw.outbound && s.arrives <= c.conn.raw.outbound
    requires Causal(ParseAll(c.arrives), ParseAll(s.arrives), m)
    ensures SameClient(L.Run(L.CONNECTED, m), c.l) && SameServer(L.Run(L.CONNECTED, m), s.l)
    ensures !c.l.core.client.CFault? && !s.l.core.server.SFault?
    ensures Delivered(c.l.down, s.l.down) && Delivered(s.l.up, c.l.up)
  {
    hide Cut, ParseAll, EncodeAll, Causal, L.ReadsFrames, L.Run, CS.Begin, SS.Begin, L.At;
    WholeFrames(s.sent, s.tail, c.arrives);
    WholeFrames(c.sent, c.tail, s.arrives);
    Joins(ParseAll(c.arrives), ParseAll(s.arrives), m, s.l.core.down, c.l.core.up);
    LS.NoProtocolError(m);
    forall id: uint64
      ensures L.At(c.l.down.got, id) <= L.At(s.l.down.sent, id) && L.At(s.l.up.got, id) <= L.At(c.l.up.sent, id)
      ensures id in c.l.down.fins ==> L.At(c.l.down.got, id) == L.At(s.l.down.sent, id)
      ensures id in s.l.up.fins ==> L.At(s.l.up.got, id) == L.At(c.l.up.sent, id)
    {
      LS.Fidelity(m, id);
    }
  }
}
