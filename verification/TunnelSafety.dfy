/** What every run of a client and a server's pool together keeps. */
module TunnelSafety {
  import opened Bytes
  import opened Protocol
  import S = PoolSpec
  import P = PoolSystem
  import PS = PoolSafety
  import PP = PoolProgress
  import A = ClientSpec
  import C = ClientSystem
  import L = Lease
  import LS = LeaseSafety
  import opened Tunnel

  ghost predicate Bonds(s: System, id: nat)
    requires id in s.links
  {
    && LS.Coupled(s.links[id].core)
    && ServerBond(s.server, id, s.links[id])
    && ClientBond(s.client, id, s.links[id])
  }

  ghost predicate Bonded(s: System) {
    forall id :: id in s.links ==> Bonds(s, id)
  }

  // ---- The server's half --------------------------------------------------

  lemma Pooled(l: L.Link, io: L.Event)
    requires LS.Coupled(l.core) && l.core.server.SPooled? && l.sAlive
    requires io.SLease? || io.SCheck? || io.SExpire? || io.SDies?
    ensures L.Step(l, io).cAlive == l.cAlive && L.Step(l, io).core.client == l.core.client
    ensures io.SCheck? && |io.nonce| == 8 ==> L.Step(l, io).core.server == L.SPinging(io.nonce)
    ensures io.SExpire? ==> L.Step(l, io).core.server.SRetiring?
    ensures io.SDies? ==> L.Step(l, io) == l.(sAlive := false)
    ensures io.SLease? ==> if l.core.sLast == MAX_UINT64 then L.Step(l, io) == l.(sAlive := false)
                           else L.Step(l, io).core.server.SOpening?
                                && L.Step(l, io).core.sLast == l.core.sLast + 1
  {
  }

  /** The link after a worker's step. */
  function Followed(s: P.System, t: P.System, id: nat, l: L.Link, nonce: seq<byte>): L.Link
    requires id in s.threads
  {
    FollowWorker(l, s.threads[id].pc, PcOf(t, id), StateOf(t, id), nonce)
  }

  ghost predicate Together(s: P.System, t: P.System, id: nat, l: L.Link, nonce: seq<byte>)
    requires id in s.threads
  {
    var l' := Followed(s, t, id, l, nonce);
    ServerBond(t, id, l') && l'.cAlive == l.cAlive && l'.core.client == l.core.client
  }

  /** A pooled connection whose worker does not stay with the pool. */
  lemma GoneBond(s: P.System, t: P.System, id: nat, l: L.Link, nonce: seq<byte>)
    requires id in s.threads && !s.threads[id].pc.Gone? && PcOf(t, id).Gone?
    requires LS.Coupled(l.core) && l.sAlive && l.core.server.SPooled?
    requires id in t.threads && id in t.pool.workers && (StateOf(t, id).Expiring? ==> !OnOffer(t.pool.workers[id]))
    ensures Together(s, t, id, l, nonce)
  {
    hide LS.Coupled, L.Step;
    Pooled(l, L.SExpire);
    Pooled(l, L.SDies);
  }

  lemma IdleBond(s: P.System, id: nat, draw: int, l: L.Link, nonce: seq<byte>)
    requires P.Sound(s) && id in s.threads && P.CallsIdle(s.threads[id].pc)
    requires LS.Coupled(l.core) && l.sAlive && l.core.server.SPooled?
    ensures id in s.pool.workers && Together(s, P.IdleStep(s, id, draw), id, l, nonce)
  {
    hide S.Inv, P.Threads, P.Drains, P.Accounted, P.Delivered, P.InOrder, S.NextDeadline, LS.Coupled,
         S.IdleSection, S.FirstLive, S.Conns, L.Step;
    PS.At(s, id);
    PS.TouchIdle(s.pool, id, P.Outside(s), draw);
    if !S.IdleSection(s.pool, id, P.Outside(s), draw).1.IdleReady? {
      hide Together;
      GoneBond(s, P.IdleStep(s, id, draw), id, l, nonce);
    }
  }

  lemma PollBond(s: P.System, id: nat, l: L.Link, nonce: seq<byte>)
    requires P.Sound(s) && id in s.threads && s.threads[id].pc.Polling?
    requires LS.Coupled(l.core) && l.sAlive && l.core.server.SPooled?
    ensures id in s.pool.workers && Together(s, P.PollStep(s, id), id, l, nonce)
  {
    hide S.Inv, P.Threads, P.Drains, P.Accounted, P.Delivered, P.InOrder, S.NextDeadline, LS.Coupled, L.Step;
    PS.At(s, id);
    Pooled(l, L.SLease);
    Pooled(l, L.SDies);
  }

  lemma TakeBond(s: P.System, id: nat, from: P.Pc, state: S.WState, to: P.Pc, l: L.Link, nonce: seq<byte>)
    requires P.Sound(s) && id in s.threads && s.threads[id].pc == from && |nonce| == 8
    requires (from.Beat? && state.Checking? && to.Checked?) || (from.Lapse? && state.Expiring? && to.Gone?)
    requires LS.Coupled(l.core) && l.sAlive && l.core.server.SPooled?
    ensures id in s.pool.workers && Together(s, P.TakeStep(s, id, from, state, to), id, l, nonce)
  {
    hide S.Inv, P.Threads, P.Drains, P.Accounted, P.Delivered, P.InOrder, S.NextDeadline, LS.Coupled, L.Step,
         S.TakeIdle;
    PS.At(s, id);
    PP.TakeEvolves(s.pool, id, state);
    Pooled(l, L.SCheck(nonce));
    Pooled(l, L.SExpire);
  }

  /** Steps that need nothing of the connection. */
  lemma LooseBond(s: P.System, e: P.Event, id: nat, l: L.Link, nonce: seq<byte>)
    requires P.Sound(s) && P.Subject(e) == Some(id) && id in s.threads && id in s.pool.workers
    requires e.EnterNext? || e.TakeToken? || e.BeatFires? || e.LapseFires? || e.CloseConn?
    requires ServerBond(s, id, l) && WorkerMay(e, l)
    ensures Together(s, P.WorkerStep(s, e, id), id, l, nonce)
  {
    hide P.Sound, S.NextDeadline, L.Step;
  }

  lemma LeaveBond(s: P.System, id: nat, canceled: bool, l: L.Link, nonce: seq<byte>)
    requires P.Sound(s) && id in s.threads && id in s.pool.workers && ServerBond(s, id, l)
    ensures Together(s, P.LeaveStep(s, id, canceled), id, l, nonce)
  {
    hide S.Inv, P.Threads, P.Drains, P.Accounted, P.Delivered, P.InOrder, S.NextDeadline;
    PS.At(s, id);
  }

  lemma ReleaseBond(s: P.System, id: nat, l: L.Link, nonce: seq<byte>)
    requires P.Sound(s) && id in s.threads
    requires ServerBond(s, id, l) && l.core.server.SReleasing?
    ensures id in s.pool.workers && Together(s, P.ReleaseStep(s, id), id, l, nonce)
  {
    hide S.Inv, P.Threads, P.Drains, P.Accounted, P.Delivered, P.InOrder, S.NextDeadline;
    PS.At(s, id);
  }

  lemma CloseBond(s: P.System, t: P.System, id: nat, l: L.Link, nonce: seq<byte>)
    requires P.Sound(s) && id in s.threads && id in s.pool.workers
    requires t.pool == P.CloseStep(s, id).pool && t.threads == P.CloseStep(s, id).threads
    requires ServerBond(s, id, l)
    ensures Together(s, t, id, l, nonce)
  {
    hide S.Inv, P.Threads, P.Drains, P.Accounted, P.Delivered, P.InOrder, S.NextDeadline, PP.Evolves;
    PS.At(s, id);
    PP.CloseEvolves(s, id);
    CloseMail(s.pool, id);
  }

  lemma CloseMail(p: S.Pool, id: nat)
    requires id in p.workers && (p.workers[id].mailbox.Some? ==> p.workers[id].state == S.Leased)
    ensures S.CloseSection(p, id).0.workers[id].mailbox.None?
  {
  }

  lemma InPool(s: P.System, id: nat, l: L.Link)
    requires ServerBond(s, id, l) && id in s.threads && id in s.pool.workers && l.sAlive
    requires P.InNext(s.threads[id].pc)
    ensures l.core.server.SPooled?
  {
  }

  lemma NextBond(s: P.System, e: P.Event, id: nat, l: L.Link, nonce: seq<byte>)
    requires P.Sound(s) && P.Subject(e) == Some(id) && id in s.threads && id in s.pool.workers
    requires e.PollMail? || e.TakeCheck? || e.TakeExpire?
    requires LS.Coupled(l.core) && ServerBond(s, id, l) && WorkerMay(e, l) && |nonce| == 8
    ensures Together(s, P.WorkerStep(s, e, id), id, l, nonce)
  {
    hide P.Sound, LS.Coupled, ServerBond, P.TakeStep, P.PollStep;
    if P.InNext(s.threads[id].pc) {
      InPool(s, id, l);
    }
    Stays(s, s, id, l, nonce);
    match e {
      case PollMail(_) =>
        if s.threads[id].pc.Polling? { PollBond(s, id, l, nonce); } else { NoPoll(s, id); }
      case TakeCheck(_) =>
        if s.threads[id].pc.Beat? { TakeBond(s, id, P.Beat, S.Checking, P.Checked, l, nonce); }
        else { PP.NoTake(s, id, P.Beat, S.Checking, P.Checked); }
      case TakeExpire(_) =>
        if s.threads[id].pc.Lapse? { TakeBond(s, id, P.Lapse, S.Expiring, P.Gone, l, nonce); }
        else { PP.NoTake(s, id, P.Lapse, S.Expiring, P.Gone); }
    }
  }

  /** A worker's own step and what its goroutine does next on the connection. */
  lemma WorkerBond(s: P.System, e: P.Event, id: nat, l: L.Link, nonce: seq<byte>)
    requires P.Sound(s) && P.Subject(e) == Some(id) && id in s.threads && id in s.pool.workers
    requires LS.Coupled(l.core) && ServerBond(s, id, l) && WorkerMay(e, l) && |nonce| == 8
    ensures Together(s, P.WorkerStep(s, e, id), id, l, nonce)
  {
    if e.PollMail? || e.TakeCheck? || e.TakeExpire? {
      NextBond(s, e, id, l, nonce);
    } else {
      hide P.Sound, LS.Coupled, ServerBond, P.CloseStep, P.IdleStep, P.TokenStep, P.ReleaseStep, P.EnterStep,
           P.LeaveStep, P.CloseConnStep, P.TimerStep;
      Stays(s, s, id, l, nonce);
      match e {
        case GoIdle(_, draw) => if P.WorkerStep(s, e, id) != s { IdleBond(s, id, draw, l, nonce); }
        case Release(_) => ReleaseBond(s, id, l, nonce);
        case Close(_) => CloseBond(s, P.WorkerStep(s, e, id), id, l, nonce);
        case StopNext(_) => if id in s.stopTodo { CloseBond(s, P.WorkerStep(s, e, id), id, l, nonce); }
        case ForceNext(_) => if id in s.forceTodo { CloseBond(s, P.WorkerStep(s, e, id), id, l, nonce); }
        case NextCanceled(_) => LeaveBond(s, id, true, l, nonce);
        case Abandon(_) => LeaveBond(s, id, false, l, nonce);
        case _ => LooseBond(s, e, id, l, nonce);
      }
    }
  }

  lemma NoPoll(s: P.System, id: nat)
    requires id in s.threads && id in s.pool.workers && !s.threads[id].pc.Polling?
    ensures P.PollStep(s, id) == s
  {
  }

  lemma Stays(s: P.System, t: P.System, id: nat, l: L.Link, nonce: seq<byte>)
    requires id in s.threads && id in s.pool.workers && ServerBond(s, id, l)
    requires t.pool == s.pool && t.threads == s.threads
    ensures Together(s, t, id, l, nonce)
  {
  }

  /** Any other connection is as it was. */
  lemma OtherWorkers(s: P.System, e: P.Event, id: nat, x: nat, l: L.Link)
    requires P.Sound(s) && P.Subject(e) == Some(id) && id in s.threads && id in s.pool.workers && x != id
    requires ServerBond(s, x, l)
    ensures ServerBond(P.WorkerStep(s, e, id), x, l)
  {
    hide P.Sound, P.WorkerStep, PP.Evolves;
    PP.WorkerEvolves(s, e, id);
  }

  /** A step of the pool itself at most gives an idle worker a visitor. */
  lemma PoolBond(s: P.System, e: P.Event, x: nat, l: L.Link)
    requires P.Sound(s) && P.Subject(e).None? && ServerBond(s, x, l) && (e.Enroll? ==> e.id != x)
    ensures forall id :: id in s.pool.idle ==> id in s.pool.workers
    ensures ServerBond(P.PoolStep(s, e), x, l)
  {
    hide P.Sound, P.PoolStep;
    if x in s.threads {
      PP.PoolEvolves(s, e, x);
    } else {
      Absent(s, e, x);
    }
  }

  lemma Absent(s: P.System, e: P.Event, x: nat)
    requires P.Sound(s) && P.Subject(e).None? && (e.Enroll? ==> e.id != x) && x !in s.threads
    ensures forall id :: id in s.pool.idle ==> id in s.pool.workers
    ensures x !in P.PoolStep(s, e).threads
  {
    hide P.Threads, P.Drains, P.Accounted, P.Delivered, P.InOrder, S.Rostered, S.Lined, S.Dispatch;
    PS.IdleKnown(s.pool);
  }

  lemma HelloBond(s: P.System, id: nat, opts: S.Options, draw: int, l: L.Link)
    requires P.Sound(s) && ServerBond(s, id, l) && l.sAlive && l.core.server.SHello?
    requires l.core.up != [] && l.core.up[0].typ == HELLO && l.core.up[0].lease == 0
    requires P.EnrollStep(s, id, opts, draw) != s
    ensures var l' := L.Step(l, L.SRead(None)); ServerBond(P.EnrollStep(s, id, opts, draw), id, l')
  {
    hide P.Sound;
  }

  lemma ServerIOBond(s: System, id: nat, io: L.Event)
    requires id in s.links && ServerMay(s, id, io) && !L.ByClient(io)
    requires ServerBond(s.server, id, s.links[id]) && LS.Coupled(s.links[id].core)
    ensures var l' := L.Step(s.links[id], io); ServerBond(s.server, id, l')
    ensures L.Step(s.links[id], io).cAlive == s.links[id].cAlive
    ensures L.Step(s.links[id], io).core.client == s.links[id].core.client
  {
    hide LS.Coupled, ServerBond, ServerMay, L.Step;
    LS.CoupledStep(s.links[id], io);
    OtherSide(s.links[id], io);
    NoFault(L.Step(s.links[id], io).core);
    if io.SRead? {
      ServerReadBond(s, id, io.verdict);
    } else {
      ServerWriteBond(s, id, io);
    }
  }

  lemma ServerWriteBond(s: System, id: nat, io: L.Event)
    requires id in s.links && ServerMay(s, id, io) && ServerBond(s.server, id, s.links[id]) && !io.SRead?
    ensures var l' := L.Step(s.links[id], io); ServerBond(s.server, id, l')
  {
    hide L.LogSent, Valid;
  }

  lemma ServerReadBond(s: System, id: nat, verdict: Option<seq<byte>>)
    requires id in s.links && ServerMay(s, id, L.SRead(verdict)) && ServerBond(s.server, id, s.links[id])
    requires !L.Step(s.links[id], L.SRead(verdict)).core.server.SFault?
    ensures var l' := L.Step(s.links[id], L.SRead(verdict)); ServerBond(s.server, id, l')
  {
    hide L.LogGot;
  }

  lemma NoFault(k: L.Core)
    requires LS.Coupled(k)
    ensures !k.server.SFault? && !k.client.CFault?
  {
  }

  // ---- The client's half --------------------------------------------------

  lemma SlotAt(s: C.System, id: nat)
    requires C.Sound(s) && (id in s.pcs || id in s.acct.slots)
    ensures id in s.pcs && id in s.acct.slots && C.SlotOk(s.acct.slots[id], s.pcs[id]) && id in s.used
  {
  }

  ghost predicate Along(s: C.System, t: C.System, id: nat, l: L.Link) {
    var l' := FollowClient(l, SlotPc(s, id), SlotPc(t, id));
    ClientBond(t, id, l') && l'.sAlive == l.sAlive && l'.core.server == l.core.server
  }

  /** A connection's step on the client and what its goroutine does next. */
  lemma SlotBond(s: C.System, e: C.Event, id: nat, l: L.Link)
    requires C.Sound(s) && C.Subject(e) == Some(id)
    requires LS.Coupled(l.core) && ClientBond(s, id, l) && ClientMay(e, s, l)
    ensures Along(s, C.Step(s, e), id, l)
  {
    hide C.Sound, LS.Coupled, C.SlotOk, ClientMay, Along, ClientBond, C.ConnStep;
    NoFault(l.core);
    Still(s, id, l);
    if C.Known(s, id) {
      match e {
        case Decide(_) => DecideBond(s, e, id, l);
        case ExitSlot(_, age, draw) => ExitBond(s, e, id, age, draw, l);
        case Fails(_) => EndBond(s, e, id, l);
        case Finishes(_) => EndBond(s, e, id, l);
        case DropSlot(_) => EndBond(s, e, id, l);
        case _ => RiseBond(s, e, id, l);
      }
    }
  }

  lemma Still(s: C.System, id: nat, l: L.Link)
    requires ClientBond(s, id, l)
    ensures Along(s, s, id, l)
  {
  }

  /** What a client's own moves make of its connection. */
  lemma ClientMoves(l: L.Link)
    ensures L.Step(l, L.CDies) == l.(cAlive := false)
    ensures l.cAlive && l.core.client.CDeciding? ==>
              var id := l.core.client.id;
              forall surplus ::
                L.Step(l, L.CDecide(surplus))
                == l.(core := l.core.(client := if surplus then L.CSurplus(id) else L.CReturning(id)))
  {
  }

  lemma DecideBond(s: C.System, e: C.Event, id: nat, l: L.Link)
    requires C.Known(s, id) && e == C.Decide(id) && ClientBond(s, id, l) && ClientMay(e, s, l)
    ensures Along(s, C.ConnStep(s, e, id), id, l)
  {
    hide L.Step;
    ClientMoves(l);
  }

  lemma EndBond(s: C.System, e: C.Event, id: nat, l: L.Link)
    requires C.Known(s, id) && (e == C.Fails(id) || e == C.Finishes(id) || e == C.DropSlot(id))
    requires ClientBond(s, id, l) && ClientMay(e, s, l)
    ensures Along(s, C.ConnStep(s, e, id), id, l)
  {
    hide L.Step;
    ClientMoves(l);
  }

  lemma RiseBond(s: C.System, e: C.Event, id: nat, l: L.Link)
    requires C.Known(s, id) && (e == C.DialOk(id) || e == C.HelloOk(id) || e == C.Open(id))
    requires ClientBond(s, id, l) && ClientMay(e, s, l)
    ensures Along(s, C.ConnStep(s, e, id), id, l)
  {
    hide L.Step;
    ClientMoves(l);
  }

  lemma ExitBond(s: C.System, e: C.Event, id: nat, age: int, draw: int, l: L.Link)
    requires C.Known(s, id) && e == C.ExitSlot(id, age, draw) && ClientBond(s, id, l)
    ensures Along(s, C.ConnStep(s, e, id), id, l)
  {
    hide A.Drawn;
    C.UncountShape(s.acct, id);
  }

  lemma OtherSlots(s: C.System, e: C.Event, id: nat, x: nat, l: L.Link)
    requires C.Subject(e) == Some(id) && x != id && ClientBond(s, x, l)
    ensures ClientBond(C.Step(s, e), x, l)
  {
  }

  lemma ClientWideBond(s: C.System, e: C.Event, x: nat, l: L.Link)
    requires C.Subject(e).None? && ClientBond(s, x, l) && (e.SlotUp? ==> e.id != x)
    ensures ClientBond(C.Step(s, e), x, l)
  {
  }

  lemma SlotUpBond(s: C.System, id: nat)
    requires C.Step(s, C.SlotUp(id)) != s
    ensures ClientBond(C.Step(s, C.SlotUp(id)), id, L.CONNECTED)
  {
  }

  lemma ReadBond(s: C.System, id: nat, l: L.Link)
    requires ClientBond(s, id, l) && LS.Coupled(L.Step(l, L.CRead).core)
    ensures var l' := L.Step(l, L.CRead); ClientBond(s, id, l')
  {
    hide LS.Coupled, L.LogGot;
    NoFault(L.Step(l, L.CRead).core);
  }

  lemma ClientIOBond(s: System, id: nat, io: L.Event)
    requires id in s.links && ClientIOMay(s, id, io) && L.ByClient(io)
    requires C.Sound(s.client) && ClientBond(s.client, id, s.links[id]) && LS.Coupled(s.links[id].core)
    ensures var l' := L.Step(s.links[id], io); ClientBond(s.client, id, l')
    ensures L.Step(s.links[id], io).sAlive == s.links[id].sAlive
    ensures L.Step(s.links[id], io).core.server == s.links[id].core.server
  {
    LS.CoupledStep(s.links[id], io);
    OtherSide(s.links[id], io);
    if io.CRead? {
      hide ClientBond, L.Step;
      ReadBond(s.client, id, s.links[id]);
    } else {
      hide C.Sound, LS.Coupled, L.LogSent, Valid;
      if id in s.client.pcs {
        SlotAt(s.client, id);
      }
      WriteBond(s, id, io);
    }
  }

  lemma OtherSide(l: L.Link, io: L.Event)
    ensures L.ByClient(io) ==> L.Step(l, io).sAlive == l.sAlive && L.Step(l, io).core.server == l.core.server
    ensures !L.ByClient(io) ==> L.Step(l, io).cAlive == l.cAlive && L.Step(l, io).core.client == l.core.client
  {
    hide L.LogSent, L.LogGot, Valid;
  }

  lemma WriteBond(s: System, id: nat, io: L.Event)
    requires id in s.links && ClientIOMay(s, id, io) && L.ByClient(io) && !io.CRead?
    requires ClientBond(s.client, id, s.links[id])
    requires id in s.client.pcs && id in s.client.acct.slots ==> C.SlotOk(s.client.acct.slots[id], s.client.pcs[id])
    ensures var l' := L.Step(s.links[id], io); ClientBond(s.client, id, l')
  {
    hide L.LogSent, Valid;
  }

  // ---- The ledger of leases -----------------------------------------------

  /** Lease n of a connection was opened for one visitor, whom the pool handed
      to that connection's worker; no visitor has two leases. */
  ghost predicate Ledger(s: System) {
    Entered(s) && Complete(s) && Single(s)
  }

  ghost predicate Entered(s: System) {
    var h := P.Handoffs(s.server.log);
    forall k :: k in s.carries ==>
      && k.0 in s.links && 1 <= k.1 <= s.links[k.0].core.sLast
      && s.carries[k] in s.server.log.taken && s.carries[k] in h && h[s.carries[k]] == k.0
  }

  ghost predicate Complete(s: System) {
    forall id, n: uint64 :: id in s.links && 1 <= n <= s.links[id].core.sLast ==> (id, n) in s.carries
  }

  ghost predicate Single(s: System) {
    forall j, k :: j in s.carries && k in s.carries && s.carries[j] == s.carries[k] ==> j == k
  }

  lemma LedgerSame(s: System, t: System)
    requires Ledger(s) && t.carries == s.carries && PP.Grows(s.server.log, t.server.log)
    requires forall id :: id in s.links ==> id in t.links && t.links[id].core.sLast == s.links[id].core.sLast
    requires forall id :: id in t.links && id !in s.links ==> t.links[id].core.sLast == 0
    ensures Ledger(t)
  {
    hide P.Handoffs;
  }

  /** One more lease, `n` of connection `id`, for visitor `c`. */
  ghost predicate OneMore(s: System, t: System, id: nat, n: uint64, c: nat) {
    && t.carries.Keys == s.carries.Keys + {(id, n)} && t.carries[(id, n)] == c && (id, n) !in s.carries
    && (forall k :: k in s.carries ==> t.carries[k] == s.carries[k])
    && t.links.Keys == s.links.Keys && id in s.links
    && n == s.links[id].core.sLast + 1 == t.links[id].core.sLast
    && (forall x :: x in s.links && x != id ==> t.links[x].core.sLast == s.links[x].core.sLast)
  }

  lemma EnteredNew(s: System, t: System, id: nat, n: uint64, c: nat)
    requires Entered(s) && OneMore(s, t, id, n, c) && PP.Grows(s.server.log, t.server.log)
    requires var h := P.Handoffs(s.server.log); c in h && h[c] == id
    requires c in t.server.log.taken
    ensures Entered(t)
  {
    hide P.Handoffs;
  }

  lemma CompleteNew(s: System, t: System, id: nat, n: uint64, c: nat)
    requires Complete(s) && OneMore(s, t, id, n, c)
    ensures Complete(t)
  {
  }

  lemma SingleNew(s: System, t: System, id: nat, n: uint64, c: nat)
    requires Single(s) && OneMore(s, t, id, n, c) && forall k :: k in s.carries ==> s.carries[k] != c
    ensures Single(t)
  {
  }

  lemma LedgerNew(s: System, t: System, id: nat, n: uint64, c: nat)
    requires Ledger(s) && t.carries == s.carries[(id, n) := c] && PP.Grows(s.server.log, t.server.log)
    requires t.links.Keys == s.links.Keys && id in s.links
    requires n == s.links[id].core.sLast + 1 == t.links[id].core.sLast
    requires forall x :: x in s.links && x != id ==> t.links[x].core.sLast == s.links[x].core.sLast
    requires c !in s.server.log.taken && c in t.server.log.taken
    requires var h := P.Handoffs(s.server.log); c in h && h[c] == id
    ensures Ledger(t)
  {
    hide P.Handoffs, PP.Grows, Complete, Single;
    assert OneMore(s, t, id, n, c);
    assert forall k :: k in s.carries ==> s.carries[k] != c;
    hide Entered, OneMore;
    EnteredNew(s, t, id, n, c);
    CompleteNew(s, t, id, n, c);
    SingleNew(s, t, id, n, c);
  }

  /** Only SLease moves the server's lease counter. */
  lemma CounterMoves(l: L.Link, io: L.Event)
    ensures !io.SLease? ==> L.Step(l, io).core.sLast == l.core.sLast
  {
    hide L.LogSent, L.LogGot, Valid;
  }

  lemma FollowMoves(s: P.System, e: P.Event, id: nat, l: L.Link, nonce: seq<byte>)
    requires P.Sound(s) && P.Subject(e) == Some(id) && id in s.threads && id in s.pool.workers
    ensures var t := P.WorkerStep(s, e, id); var l' := Followed(s, t, id, l, nonce);
            l'.core.sLast == l.core.sLast
            || (s.pool.workers[id].mailbox.Some? && l'.core.sLast == l.core.sLast + 1
                && t.log.taken == s.log.taken + {s.pool.workers[id].mailbox.value})
  {
    hide P.Sound, L.Step, P.CloseStep, P.IdleStep, P.TakeStep, P.PollStep, P.TokenStep, P.ReleaseStep,
         P.EnterStep, P.LeaveStep, P.CloseConnStep, P.TimerStep;
    CounterMoves(l, L.SDies);
    CounterMoves(l, L.SExpire);
    CounterMoves(l, L.SCheck(nonce));
    if e.PollMail? {
      PollMoves(s, id);
      LeaseMoves(l);
    } else {
      NotServing(s, e, id);
    }
  }

  lemma LeaseMoves(l: L.Link)
    ensures L.Step(l, L.SLease).core.sLast == l.core.sLast || L.Step(l, L.SLease).core.sLast == l.core.sLast + 1
  {
  }

  lemma PollMoves(s: P.System, id: nat)
    requires id in s.threads && id in s.pool.workers
    ensures var t := P.PollStep(s, id);
            id in t.threads
            && (t.threads[id].pc.Serving? && !s.threads[id].pc.Serving? ==>
                  s.pool.workers[id].mailbox.Some? && t.log.taken == s.log.taken + {s.pool.workers[id].mailbox.value})
  {
  }

  lemma NotServing(s: P.System, e: P.Event, id: nat)
    requires P.Sound(s) && P.Subject(e) == Some(id) && id in s.threads && id in s.pool.workers && !e.PollMail?
    ensures PcOf(P.WorkerStep(s, e, id), id).Serving? ==> s.threads[id].pc.Serving?
  {
    hide P.Sound, S.IdleSection, S.CloseSection, S.TakeIdle, S.ReleasingSection, S.WakeSection, S.NextDeadline;
  }

  // ---- Every step keeps it ------------------------------------------------

  ghost predicate Sound(s: System) {
    P.Sound(s.server) && C.Sound(s.client) && Bonded(s) && Ledger(s)
  }

  lemma ServerKnown(s: System)
    requires P.Sound(s.server)
    ensures forall id :: id in s.server.pool.idle ==> id in s.server.pool.workers
  {
    hide S.Rostered, P.Threads, P.Drains, P.Accounted, P.Delivered, P.InOrder;
    PS.IdleKnown(s.server.pool);
  }

  /** A step that moves one connection. */
  lemma OneConnection(s: System, t: System, id: nat)
    requires Bonded(s) && id in s.links && id in t.links && t.links == s.links[id := t.links[id]]
    requires LS.Coupled(t.links[id].core)
    requires ServerBond(t.server, id, t.links[id]) && ClientBond(t.client, id, t.links[id])
    requires forall x :: x in s.links && x != id ==> ServerBond(t.server, x, s.links[x])
    requires forall x :: x in s.links && x != id ==> ClientBond(t.client, x, s.links[x])
    ensures Bonded(t)
  {
    hide LS.Coupled, ServerBond, ClientBond;
  }

  lemma SameServer(s: P.System, id: nat, l: L.Link, l': L.Link)
    requires ServerBond(s, id, l) && l'.sAlive == l.sAlive && l'.core.server == l.core.server
    ensures ServerBond(s, id, l')
  {
  }

  lemma SameClient(s: C.System, id: nat, l: L.Link, l': L.Link)
    requires ClientBond(s, id, l) && l'.cAlive == l.cAlive && l'.core.client == l.core.client
    ensures ClientBond(s, id, l')
  {
  }

  lemma BondsAt(s: System, id: nat)
    requires Bonded(s) && id in s.links
    ensures var k := s.links[id].core; LS.Coupled(k)
    ensures ServerBond(s.server, id, s.links[id]) && ClientBond(s.client, id, s.links[id])
  {
  }

  lemma FollowCoupled(s: P.System, t: P.System, id: nat, l: L.Link, nonce: seq<byte>)
    requires id in s.threads && LS.Coupled(l.core)
    ensures var k := Followed(s, t, id, l, nonce).core; LS.Coupled(k)
  {
    hide LS.Coupled, L.Step;
    LS.CoupledStep(l, L.SLease);
    LS.CoupledStep(l, L.SCheck(nonce));
    LS.CoupledStep(l, L.SExpire);
    LS.CoupledStep(l, L.SDies);
  }

  lemma LinkedBonded(s: System, e: P.Event, id: nat, nonce: seq<byte>)
    requires Sound(s) && P.Subject(e) == Some(id)
    requires id in s.links && id in s.server.threads && id in s.server.pool.workers
    ensures Bonded(LinkedStep(s, e, id, nonce))
  {
    hide P.Sound, C.Sound, Bonds, Ledger, P.WorkerStep, FollowWorker, ServerBond, ClientBond, LS.Coupled, PcOf, StateOf;
    if WorkerMay(e, s.links[id]) && |nonce| == 8 {
      var l, t := s.links[id], LinkedStep(s, e, id, nonce);
      BondsAt(s, id);
      WorkerBond(s.server, e, id, l, nonce);
      FollowCoupled(s.server, t.server, id, l, nonce);
      SameClient(s.client, id, l, t.links[id]);
      forall x | x in s.links && x != id
        ensures ServerBond(t.server, x, s.links[x])
        ensures ClientBond(t.client, x, s.links[x])
      {
        BondsAt(s, x);
        OtherWorkers(s.server, e, id, x, s.links[x]);
      }
      OneConnection(s, t, id);
    }
  }

  lemma LinkedLedger(s: System, e: P.Event, id: nat, nonce: seq<byte>)
    requires Sound(s) && P.Subject(e) == Some(id)
    requires id in s.links && id in s.server.threads && id in s.server.pool.workers
    ensures Ledger(LinkedStep(s, e, id, nonce))
  {
    hide P.Sound, C.Sound, Bonded, Ledger, P.WorkerStep, FollowWorker, PP.Grows, P.Handoffs, PcOf, StateOf;
    if WorkerMay(e, s.links[id]) && |nonce| == 8 {
      var l, t := s.links[id], LinkedStep(s, e, id, nonce);
      FollowMoves(s.server, e, id, l, nonce);
      PP.WorkerGrows(s.server, e, id);
      if t.links[id].core.sLast == l.core.sLast {
        LedgerSame(s, t);
      } else {
        Mail(s.server, id);
        LedgerNew(s, t, id, t.links[id].core.sLast, s.server.pool.workers[id].mailbox.value);
      }
    }
  }

  lemma Mail(s: P.System, id: nat)
    requires P.Sound(s) && id in s.pool.workers && s.pool.workers[id].mailbox.Some?
    ensures var c, h := s.pool.workers[id].mailbox.value, P.Handoffs(s.log); c !in s.log.taken && c in h && h[c] == id
  {
    hide S.Inv, P.Threads, P.Drains, P.Accounted, P.InOrder, P.Handoffs;
  }

  /** A step of the pool that moves no connection. */
  lemma PoolKeeps(s: System, e: P.Event)
    requires Sound(s) && P.Subject(e).None? && (e.Enroll? ==> e.id !in s.links)
    ensures forall id :: id in s.server.pool.idle ==> id in s.server.pool.workers
    ensures var t := s.(server := P.Step(s.server, e)); Sound(t)
  {
    hide P.Sound, C.Sound, Bonds, Ledger, P.PoolStep, ServerBond, ClientBond, LS.Coupled, PP.Grows;
    ServerKnown(s);
    PS.StepKeeps(s.server, e);
    PP.HandoffsGrow(s.server, e);
    var t := s.(server := P.Step(s.server, e));
    LedgerSame(s, t);
    forall x | x in t.links ensures Bonds(t, x) {
      BondsAt(s, x);
      PoolBond(s.server, e, x, s.links[x]);
      BondsOf(t, x);
    }
  }

  lemma BondsOf(s: System, id: nat)
    requires id in s.links
    requires LS.Coupled(s.links[id].core)
    requires ServerBond(s.server, id, s.links[id]) && ClientBond(s.client, id, s.links[id])
    ensures Bonds(s, id)
  {
  }

  /** A step of a worker that belongs to another client. */
  lemma StrangerKeeps(s: System, e: P.Event, id: nat)
    requires Sound(s) && P.Subject(e) == Some(id) && id !in s.links
    requires id in s.server.threads && id in s.server.pool.workers
    ensures forall id :: id in s.server.pool.idle ==> id in s.server.pool.workers
    ensures var t := s.(server := P.Step(s.server, e)); Sound(t)
  {
    hide P.Sound, C.Sound, Bonds, Ledger, P.WorkerStep, ServerBond, ClientBond, LS.Coupled, PP.Grows;
    ServerKnown(s);
    PS.StepKeeps(s.server, e);
    PP.HandoffsGrow(s.server, e);
    var t := s.(server := P.Step(s.server, e));
    LedgerSame(s, t);
    forall x | x in t.links ensures Bonds(t, x) {
      BondsAt(s, x);
      OtherWorkers(s.server, e, id, x, s.links[x]);
      BondsOf(t, x);
    }
  }

  lemma LinkedSides(s: System, e: P.Event, id: nat, nonce: seq<byte>)
    requires P.Sound(s.server) && P.Subject(e) == Some(id)
    requires id in s.links && id in s.server.threads && id in s.server.pool.workers
    ensures var t := LinkedStep(s, e, id, nonce); P.Sound(t.server) && t.client == s.client
  {
    hide P.Sound, P.WorkerStep, FollowWorker, WorkerMay, PcOf, StateOf;
    ServerKnown(s);
    PS.StepKeeps(s.server, e);
  }

  lemma LinkedKeeps(s: System, e: P.Event, id: nat, nonce: seq<byte>)
    requires Sound(s) && P.Subject(e) == Some(id)
    requires id in s.links && id in s.server.threads && id in s.server.pool.workers
    ensures var t := LinkedStep(s, e, id, nonce); Sound(t)
  {
    hide P.Sound, C.Sound, Bonded, Ledger, LinkedStep;
    LinkedBonded(s, e, id, nonce);
    LinkedLedger(s, e, id, nonce);
    LinkedSides(s, e, id, nonce);
  }

  lemma HelloKeeps(s: System, id: nat, opts: S.Options, draw: int)
    requires Sound(s) && id in s.links
    ensures var t := HelloStep(s, id, opts, draw); Sound(t)
  {
    hide P.Sound, C.Sound, Bonds, Ledger, P.EnrollStep, ServerBond, ClientBond, LS.Coupled, PP.Grows, L.Step;
    var l, t := s.links[id], HelloStep(s, id, opts, draw);
    if t != s {
      ServerKnown(s);
      var e := P.Enroll(id, opts, draw);
      BondsAt(s, id);
      PS.StepKeeps(s.server, e);
      PP.HandoffsGrow(s.server, e);
      HelloBond(s.server, id, opts, draw, l);
      CounterMoves(l, L.SRead(None));
      LS.CoupledStep(l, L.SRead(None));
      HelloClient(l);
      SameClient(s.client, id, l, t.links[id]);
      forall x | x in s.links && x != id
        ensures ServerBond(t.server, x, s.links[x])
        ensures ClientBond(t.client, x, s.links[x])
      {
        BondsAt(s, x);
        PoolBond(s.server, e, x, s.links[x]);
      }
      OneConnection(s, t, id);
      LedgerSame(s, t);
    }
  }

  lemma HelloClient(l: L.Link)
    ensures L.Step(l, L.SRead(None)).cAlive == l.cAlive && L.Step(l, L.SRead(None)).core.client == l.core.client
  {
  }

  /** I/O of one side. */
  lemma IOKeeps(s: System, id: nat, io: L.Event)
    requires Sound(s) && id in s.links && !io.SLease?
    requires if L.ByClient(io) then ClientIOMay(s, id, io) else ServerMay(s, id, io)
    ensures var t := s.(links := s.links[id := L.Step(s.links[id], io)]); Sound(t)
  {
    hide P.Sound, C.Sound, Bonds, Ledger, ServerBond, ClientBond, LS.Coupled, PP.Grows, L.Step, ServerMay, ClientIOMay;
    var l, t := s.links[id], s.(links := s.links[id := L.Step(s.links[id], io)]);
    BondsAt(s, id);
    if L.ByClient(io) {
      ClientIOBond(s, id, io);
      SameServer(s.server, id, l, t.links[id]);
    } else {
      ServerIOBond(s, id, io);
      SameClient(s.client, id, l, t.links[id]);
    }
    CounterMoves(l, io);
    LS.CoupledStep(l, io);
    forall x | x in s.links && x != id
      ensures ServerBond(t.server, x, s.links[x])
      ensures ClientBond(t.client, x, s.links[x])
    {
      BondsAt(s, x);
    }
    OneConnection(s, t, id);
    PP.GrowsSame(s.server.log, t.server.log);
    LedgerSame(s, t);
  }

  lemma FollowClientCoupled(l: L.Link, pc: Option<C.Pc>, next: Option<C.Pc>)
    requires LS.Coupled(l.core)
    ensures var k := FollowClient(l, pc, next).core; LS.Coupled(k)
    ensures FollowClient(l, pc, next).core.sLast == l.core.sLast
  {
    hide LS.Coupled, L.Step;
    LS.CoupledStep(l, L.CDies);
    LS.CoupledStep(l, L.CDecide(true));
    LS.CoupledStep(l, L.CDecide(false));
    CounterMoves(l, L.CDies);
    CounterMoves(l, L.CDecide(true));
    CounterMoves(l, L.CDecide(false));
  }

  lemma SlotKeeps(s: System, e: C.Event, id: nat)
    requires Sound(s) && C.Subject(e) == Some(id)
    ensures var t := ClientStep(s, e); Sound(t)
  {
    hide P.Sound, C.Sound, Bonds, Ledger, ServerBond, ClientBond, LS.Coupled, PP.Grows, L.Step, ClientMay, C.Step,
         FollowClient, SlotPc;
    if id in s.links && ClientMay(e, s.client, s.links[id]) {
      var l, t := s.links[id], ClientStep(s, e);
      BondsAt(s, id);
      C.StepKeeps(s.client, e);
      SlotBond(s.client, e, id, l);
      FollowClientCoupled(l, SlotPc(s.client, id), SlotPc(t.client, id));
      SameServer(s.server, id, l, t.links[id]);
      forall x | x in s.links && x != id
        ensures ServerBond(t.server, x, s.links[x])
        ensures ClientBond(t.client, x, s.links[x])
      {
        BondsAt(s, x);
        OtherSlots(s.client, e, id, x, s.links[x]);
      }
      OneConnection(s, t, id);
      PP.GrowsSame(s.server.log, t.server.log);
      LedgerSame(s, t);
    }
  }

  lemma ClientKeeps(s: System, e: C.Event)
    requires Sound(s) && C.Subject(e).None?
    ensures var t := ClientStep(s, e); Sound(t)
  {
    hide P.Sound, C.Sound, Bonds, Ledger, ServerBond, ClientBond, LS.Coupled, PP.Grows, C.Step;
    var t := ClientStep(s, e);
    if t != s {
      C.StepKeeps(s.client, e);
      forall x | x in t.links ensures Bonds(t, x) {
        if x in s.links {
          BondsAt(s, x);
          ClientWideBond(s.client, e, x, s.links[x]);
        } else {
          SlotUpBond(s.client, x);
          NewLink(s.server, x);
        }
        BondsOf(t, x);
      }
      PP.GrowsSame(s.server.log, t.server.log);
      LedgerSame(s, t);
    }
  }

  lemma NewLink(s: P.System, id: nat)
    requires id !in s.threads
    ensures ServerBond(s, id, L.CONNECTED) && LS.Coupled(L.CONNECTED.core)
  {
  }

  lemma PoolKnown(s: System)
    requires Sound(s)
    ensures forall id :: id in s.server.pool.idle ==> id in s.server.pool.workers
  {
    hide P.Sound, C.Sound, Bonded, Ledger;
    ServerKnown(s);
  }

  lemma WorkerStepKeeps(s: System, e: P.Event, nonce: seq<byte>)
    requires Sound(s)
    ensures forall id :: id in s.server.pool.idle ==> id in s.server.pool.workers
    ensures var t := Step(s, Worker(e, nonce)); Sound(t)
  {
    hide Sound, P.Step, P.Subject, LinkedStep;
    PoolKnown(s);
    if P.Subject(e).Some? {
      var id := P.Subject(e).value;
      if id in s.server.threads && id in s.server.pool.workers {
        if id in s.links { LinkedKeeps(s, e, id, nonce); } else { StrangerKeeps(s, e, id); }
      }
    }
  }

  lemma IOStepKeeps(s: System, e: Event)
    requires Sound(s) && (e.ServerIO? || e.ClientIO?)
    ensures forall id :: id in s.server.pool.idle ==> id in s.server.pool.workers
    ensures var t := Step(s, e); Sound(t)
  {
    hide Sound, ServerMay, ClientIOMay, L.Step;
    PoolKnown(s);
    match e {
      case ServerIO(id, io) =>
        if id in s.links && !L.ByClient(io) && ServerMay(s, id, io) { NoLease(s, id, io); IOKeeps(s, id, io); }
      case ClientIO(id, io) => if id in s.links && L.ByClient(io) && ClientIOMay(s, id, io) { IOKeeps(s, id, io); }
    }
  }

  lemma StepKeeps(s: System, e: Event)
    requires Sound(s)
    ensures forall id :: id in s.server.pool.idle ==> id in s.server.pool.workers
    ensures var t := Step(s, e); Sound(t)
  {
    hide Sound, P.Step, HelloStep, ClientStep, LinkedStep, ServerMay, ClientIOMay, L.Step;
    PoolKnown(s);
    if e.Worker? {
      WorkerStepKeeps(s, e.e, e.nonce);
    } else if e.ServerIO? || e.ClientIO? {
      IOStepKeeps(s, e);
    } else {
      match e {
        case Pool(p) => if P.Subject(p).None? && (p.Enroll? ==> p.id !in s.links) { PoolKeeps(s, p); }
        case Hello(id, opts, draw) => if id in s.links { HelloKeeps(s, id, opts, draw); }
        case Client(c) => if C.Subject(c).Some? { SlotKeeps(s, c, C.Subject(c).value); } else { ClientKeeps(s, c); }
      }
    }
  }

  lemma NoLease(s: System, id: nat, io: L.Event)
    requires id in s.links && ServerMay(s, id, io)
    ensures !io.SLease?
  {
  }

  /** A run from a sound state. */
  ghost function Run(s: System, es: seq<Event>): System
    requires Sound(s)
    decreases |es|
  {
    hide Sound, Step;
    if es == [] then s else StepKeeps(s, es[0]); Run(Step(s, es[0]), es[1..])
  }

  lemma {:induction false} RunSound(s: System, es: seq<Event>)
    requires Sound(s)
    ensures var t := Run(s, es); Sound(t)
    decreases |es|
  {
    hide Sound, Step;
    if es != [] {
      StepKeeps(s, es[0]);
      RunSound(Step(s, es[0]), es[1..]);
    }
  }

  lemma InitialSound(maxPending: int, serverNow: int, minIdle: int, maxIdle: int, zero: int, clientNow: int)
    requires 1 <= minIdle <= maxIdle && zero <= clientNow
    ensures var t := Initial(maxPending, serverNow, minIdle, maxIdle, zero, clientNow); Sound(t)
  {
    hide P.Sound, C.Sound;
    PS.InitialSound(maxPending, serverNow);
    C.InitialSound(minIdle, maxIdle, zero, clientNow);
  }

  datatype Setup = Setup(maxPending: int, serverNow: int, minIdle: int, maxIdle: int, zero: int, clientNow: int)

  predicate Proper(c: Setup) {
    1 <= c.minIdle <= c.maxIdle && c.zero <= c.clientNow
  }

  ghost function Reach(c: Setup, es: seq<Event>): System
    requires Proper(c)
  {
    InitialSound(c.maxPending, c.serverNow, c.minIdle, c.maxIdle, c.zero, c.clientNow);
    Run(Initial(c.maxPending, c.serverNow, c.minIdle, c.maxIdle, c.zero, c.clientNow), es)
  }

  lemma ReachSound(c: Setup, es: seq<Event>)
    requires Proper(c)
    ensures var t := Reach(c, es); Sound(t)
  {
    hide Sound, Run;
    InitialSound(c.maxPending, c.serverNow, c.minIdle, c.maxIdle, c.zero, c.clientNow);
    RunSound(Initial(c.maxPending, c.serverNow, c.minIdle, c.maxIdle, c.zero, c.clientNow), es);
  }
}
