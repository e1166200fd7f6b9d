/** What holds across both processes in every run of the whole service. */
module EndToEnd {
  import opened Bytes
  import S = PoolSpec
  import P = PoolSystem
  import PS = PoolSafety
  import PP = PoolProgress
  import A = ClientSpec
  import C = ClientSystem
  import L = Lease
  import LS = LeaseSafety
  import opened Tunnel
  import opened TunnelSafety

  // ---- Each part runs as it does alone ------------------------------------

  ghost predicate LinkRun(l: L.Link) {
    exists es :: l == L.Run(L.CONNECTED, es)
  }

  ghost predicate PoolRun(c: Setup, t: P.System) {
    exists es :: t == PS.Reach(c.maxPending, c.serverNow, es)
  }

  ghost predicate ClientRun(c: Setup, t: C.System) {
    exists es :: t == C.Run(C.Initial(c.minIdle, c.maxIdle, c.zero, c.clientNow), es)
  }

  ghost predicate Projected(c: Setup, s: System) {
    PoolRun(c, s.server) && ClientRun(c, s.client) && forall id :: id in s.links ==> LinkRun(s.links[id])
  }

  lemma LinkStep(l: L.Link, e: L.Event)
    requires LinkRun(l)
    ensures LinkRun(L.Step(l, e))
  {
    var es :| l == L.Run(L.CONNECTED, es);
    LS.RunLonger(L.CONNECTED, es, e);
  }

  lemma {:induction false} ClientLonger(s: C.System, es: seq<C.Event>, e: C.Event)
    ensures C.Run(s, es + [e]) == C.Step(C.Run(s, es), e)
    decreases |es|
  {
    hide C.Step;
    if es == [] {
      assert C.Run(C.Step(s, e), []) == C.Step(s, e);
      assert ([] + [e])[1..] == [];
    } else {
      ClientLonger(C.Step(s, es[0]), es[1..], e);
      assert (es + [e])[1..] == es[1..] + [e];
    }
  }

  lemma PoolStep(c: Setup, t: P.System, e: P.Event)
    requires PoolRun(c, t)
    ensures forall id :: id in t.pool.idle ==> id in t.pool.workers
    ensures PoolRun(c, P.Step(t, e))
  {
    hide P.Sound, P.Step;
    var es :| t == PS.Reach(c.maxPending, c.serverNow, es);
    PS.ReachLonger(c.maxPending, c.serverNow, es, e);
  }

  lemma ClientRunStep(c: Setup, t: C.System, e: C.Event)
    requires ClientRun(c, t)
    ensures ClientRun(c, C.Step(t, e))
  {
    var s := C.Initial(c.minIdle, c.maxIdle, c.zero, c.clientNow);
    var es :| t == C.Run(s, es);
    ClientLonger(s, es, e);
  }

  /** Every part of a step of the whole is a step of its own machine, or none. */
  lemma StepProjects(c: Setup, s: System, e: Event)
    requires TunnelSafety.Sound(s) && Projected(c, s)
    ensures forall id :: id in s.server.pool.idle ==> id in s.server.pool.workers
    ensures Projected(c, Step(s, e))
  {
    ServerKnown(s);
    hide TunnelSafety.Sound, Projected;
    if e.Worker? {
      WorkerProjects(c, s, e.e, e.nonce);
    } else {
      OtherProjects(c, s, e);
    }
  }

  lemma OtherProjects(c: Setup, s: System, e: Event)
    requires Projected(c, s) && !e.Worker?
    requires forall id :: id in s.server.pool.idle ==> id in s.server.pool.workers
    ensures Projected(c, Step(s, e))
  {
    hide Projected, P.Step, L.Step, HelloStep, ClientStep, ServerMay, ClientIOMay;
    match e {
      case Pool(p) => PoolProjects(c, s, p);
      case Hello(id, opts, draw) => if id in s.links { HelloProjects(c, s, id, opts, draw); }
      case ServerIO(id, io) => if id in s.links { IOProjects(c, s, id, io); }
      case Client(p) => ClientProjects(c, s, p);
      case ClientIO(id, io) => if id in s.links { IOProjects(c, s, id, io); }
    }
  }

  lemma PoolProjects(c: Setup, s: System, e: P.Event)
    requires Projected(c, s)
    ensures forall id :: id in s.server.pool.idle ==> id in s.server.pool.workers
    ensures Projected(c, s.(server := P.Step(s.server, e)))
  {
    hide PoolRun, ClientRun, LinkRun, P.Step;
    PoolStep(c, s.server, e);
  }

  lemma HelloProjects(c: Setup, s: System, id: nat, opts: S.Options, draw: int)
    requires Projected(c, s) && id in s.links
    ensures Projected(c, HelloStep(s, id, opts, draw))
  {
    hide PoolRun, ClientRun, LinkRun, P.EnrollStep, L.Step;
    PoolStep(c, s.server, P.Enroll(id, opts, draw));
    LinkStep(s.links[id], L.SRead(None));
  }

  lemma IOProjects(c: Setup, s: System, id: nat, io: L.Event)
    requires Projected(c, s) && id in s.links
    ensures Projected(c, s.(links := s.links[id := L.Step(s.links[id], io)]))
  {
    hide PoolRun, ClientRun, LinkRun, L.Step;
    LinkStep(s.links[id], io);
  }

  lemma WorkerProjects(c: Setup, s: System, e: P.Event, nonce: seq<byte>)
    requires Projected(c, s)
    requires forall id :: id in s.server.pool.idle ==> id in s.server.pool.workers
    ensures Projected(c, Step(s, Worker(e, nonce)))
  {
    hide PoolRun, ClientRun, LinkRun, P.WorkerStep, P.PoolStep, LinkedStep;
    PoolStep(c, s.server, e);
    if P.Subject(e).Some? {
      var id := P.Subject(e).value;
      if id in s.links && id in s.server.threads && id in s.server.pool.workers {
        LinkedProjects(c, s, e, id, nonce);
      }
    }
  }

  lemma LinkedProjects(c: Setup, s: System, e: P.Event, id: nat, nonce: seq<byte>)
    requires Projected(c, s) && P.Subject(e) == Some(id)
    requires id in s.links && id in s.server.threads && id in s.server.pool.workers
    requires PoolRun(c, P.WorkerStep(s.server, e, id))
    ensures Projected(c, LinkedStep(s, e, id, nonce))
  {
    hide PoolRun, ClientRun, LinkRun, P.WorkerStep, L.Step, WorkerMay, PcOf, StateOf;
    var l := s.links[id];
    LinkStep(l, L.SLease);
    LinkStep(l, L.SCheck(nonce));
    LinkStep(l, L.SExpire);
    LinkStep(l, L.SDies);
  }

  lemma ClientProjects(c: Setup, s: System, e: C.Event)
    requires Projected(c, s)
    ensures Projected(c, ClientStep(s, e))
  {
    hide PoolRun, ClientRun, LinkRun, C.Step, L.Step, ClientMay, SlotPc;
    ClientRunStep(c, s.client, e);
    assert LinkRun(L.CONNECTED) by { Fresh(); }
    if C.Subject(e).Some? && C.Subject(e).value in s.links {
      var l := s.links[C.Subject(e).value];
      LinkStep(l, L.CDies);
      LinkStep(l, L.CDecide(true));
      LinkStep(l, L.CDecide(false));
    }
  }

  lemma Fresh()
    ensures LinkRun(L.CONNECTED)
  {
    assert L.CONNECTED == L.Run(L.CONNECTED, []);
  }

  lemma {:induction false} RunProjects(c: Setup, s: System, es: seq<Event>)
    requires TunnelSafety.Sound(s) && Projected(c, s)
    ensures Projected(c, TunnelSafety.Run(s, es))
    decreases |es|
  {
    hide TunnelSafety.Sound, Projected, Step;
    if es != [] {
      StepProjects(c, s, es[0]);
      TunnelSafety.StepKeeps(s, es[0]);
      RunProjects(c, Step(s, es[0]), es[1..]);
    }
  }

  // ---- Main results -------------------------------------------------------

  /** Projection: in every run of the whole, the pool goes through a run of the
      pool alone, the client through one of the client alone, and each
      connection through one of the two ends alone; so everything proved of
      those runs holds here. */
  lemma Projection(c: Setup, es: seq<Event>)
    requires Proper(c)
    ensures Projected(c, Reach(c, es))
  {
    hide P.Sound, C.Sound, TunnelSafety.Sound, TunnelSafety.Run;
    var s := Initial(c.maxPending, c.serverNow, c.minIdle, c.maxIdle, c.zero, c.clientNow);
    InitialSound(c.maxPending, c.serverNow, c.minIdle, c.maxIdle, c.zero, c.clientNow);
    PS.InitialSound(c.maxPending, c.serverNow);
    assert s.server == PS.Reach(c.maxPending, c.serverNow, []);
    assert s.client == C.Run(s.client, []);
    RunProjects(c, s, es);
  }

  /** Barrier safety: whenever the pool may give a worker a visitor, or has one
      in its mailbox, nothing is under way on its connection, the client reads
      in its idle loop with both lease counters equal, and, unless its
      goroutine has ended, counts the slot idle. */
  lemma BarrierSafety(c: Setup, es: seq<Event>, id: nat)
    requires Proper(c)
    ensures var s := Reach(c, es);
            id in s.links && id in s.server.pool.workers && OnOffer(s.server.pool.workers[id]) ==>
              && var l := s.links[id];
                 && l.core.server.SPooled? && l.core.client.CIdle? && l.core.sLast == l.core.cLast
                 && l.core.up == [] && l.core.down == []
                 && (l.cAlive ==> id in s.client.acct.slots)
                 && (id in s.client.acct.slots ==> s.client.acct.slots[id].state == A.IdleSlot)
  {
    hide P.Sound, C.Sound, Reach, Ledger, LS.Coupled;
    TunnelSafety.ReachSound(c, es);
    var s := Reach(c, es);
    if id in s.links && id in s.server.pool.workers && OnOffer(s.server.pool.workers[id]) {
      Paired(s, id);
      LS.CoupledPooled(s.links[id].core);
    }
  }

  lemma Paired(s: System, id: nat)
    requires TunnelSafety.Sound(s) && id in s.links
    ensures var k := s.links[id].core; LS.Coupled(k)
    ensures ServerBond(s.server, id, s.links[id]) && ClientBond(s.client, id, s.links[id])
    ensures s.server.threads.Keys == s.server.pool.workers.Keys
    ensures s.client.pcs.Keys == s.client.acct.slots.Keys
  {
    hide S.Inv, P.Drains, P.Accounted, P.Delivered, P.InOrder, A.Inv, C.Attended, C.Patient, C.Stopped, Ledger;
    PS.KeysAgree(s.server);
  }

  /** The client is past the barrier's decision, or about to take it. */
  predicate AtBarrier(k: L.Client) {
    k.CDeciding? || k.CReturning? || k.CSurplus? || (k.CDone? && k.end.Surplus?)
  }

  /** The decision races with nothing: from RELEASE on, until the server reads
      the client's answer, no visitor can be given to the connection's worker
      and no OPEN is under way to it. */
  lemma DecisionIsSafe(c: Setup, es: seq<Event>, id: nat)
    requires Proper(c)
    ensures var s := Reach(c, es);
            id in s.links && AtBarrier(s.links[id].core.client) ==>
              && s.links[id].core.down == []
              && id !in s.server.pool.idle
              && (id in s.server.pool.workers ==> !OnOffer(s.server.pool.workers[id]))
  {
    hide P.Sound, C.Sound, Reach, Ledger;
    TunnelSafety.ReachSound(c, es);
    var s := Reach(c, es);
    if id in s.links && AtBarrier(s.links[id].core.client) {
      Paired(s, id);
      NotListed(s, id);
    }
  }

  lemma NotListed(s: System, id: nat)
    requires TunnelSafety.Sound(s)
    ensures id in s.server.pool.idle <==>
              id in s.server.pool.workers && s.server.pool.workers[id].state == S.Idle
  {
    hide P.Threads, P.Drains, P.Accounted, P.Delivered, P.InOrder, C.Sound, Bonded, Ledger;
  }

  /** And a surplus connection never gets another visitor: whatever happens
      after the decision, nobody is handed to its worker. */
  lemma SurplusIsFinal(c: Setup, es: seq<Event>, more: seq<Event>, id: nat, visitor: nat)
    requires Proper(c)
    ensures var s, t := Reach(c, es), Reach(c, es + more);
            var h, h' := P.Handoffs(s.server.log), P.Handoffs(t.server.log);
            id in s.links && Leaving(s.links[id].core.client) && visitor in h' && h'[visitor] == id ==>
              visitor in h && h[visitor] == id
  {
    hide TunnelSafety.Sound, TunnelSafety.Run, P.Handoffs, Leaving;
    TunnelSafety.ReachSound(c, es);
    InitialSound(c.maxPending, c.serverNow, c.minIdle, c.maxIdle, c.zero, c.clientNow);
    RunConcat(Initial(c.maxPending, c.serverNow, c.minIdle, c.maxIdle, c.zero, c.clientNow), es, more);
    var s := Reach(c, es);
    if id in s.links && Leaving(s.links[id].core.client) {
      LeavingRun(s, more, id, visitor);
    }
  }

  lemma {:induction false} RunConcat(s: System, es: seq<Event>, more: seq<Event>)
    requires TunnelSafety.Sound(s)
    ensures TunnelSafety.Sound(TunnelSafety.Run(s, es))
    ensures TunnelSafety.Run(s, es + more) == TunnelSafety.Run(TunnelSafety.Run(s, es), more)
    decreases |es|
  {
    hide TunnelSafety.Sound, Step;
    TunnelSafety.RunSound(s, es);
    if es == [] {
      assert [] + more == more;
    } else {
      TunnelSafety.StepKeeps(s, es[0]);
      RunConcat(Step(s, es[0]), es[1..], more);
      assert (es + more)[1..] == es[1..] + more;
    }
  }

  lemma {:induction false} LeavingRun(s: System, es: seq<Event>, id: nat, visitor: nat)
    requires TunnelSafety.Sound(s) && id in s.links && Leaving(s.links[id].core.client)
    ensures var h, h' := P.Handoffs(s.server.log), P.Handoffs(TunnelSafety.Run(s, es).server.log);
            visitor in h' && h'[visitor] == id ==> visitor in h && h[visitor] == id
    decreases |es|
  {
    hide TunnelSafety.Sound, Step, P.Handoffs, Leaving;
    if es != [] {
      TunnelSafety.StepKeeps(s, es[0]);
      LeavingStays(s, es[0], id);
      NotHanded(s, es[0], id, visitor);
      LeavingRun(Step(s, es[0]), es[1..], id, visitor);
    }
  }

  predicate Leaving(k: L.Client) {
    k.CSurplus? || (k.CDone? && k.end.Surplus?)
  }

  lemma LinkLeaving(l: L.Link, io: L.Event)
    requires Leaving(l.core.client)
    ensures Leaving(L.Step(l, io).core.client)
  {
    hide L.LogSent, L.LogGot;
  }

  lemma LeavingStays(s: System, e: Event, id: nat)
    requires TunnelSafety.Sound(s) && id in s.links && Leaving(s.links[id].core.client)
    ensures forall id :: id in s.server.pool.idle ==> id in s.server.pool.workers
    ensures id in Step(s, e).links && Leaving(Step(s, e).links[id].core.client)
  {
    ServerKnown(s);
    hide TunnelSafety.Sound, Step, Leaving;
    match e {
      case Worker(p, nonce) => WorkerLeaves(s, p, id, nonce);
      case Client(p) => ClientLeaves(s, p, id);
      case _ => OthersLeave(s, e, id);
    }
  }

  lemma WorkerLeaves(s: System, e: P.Event, id: nat, nonce: seq<byte>)
    requires id in s.links && Leaving(s.links[id].core.client)
    requires forall id :: id in s.server.pool.idle ==> id in s.server.pool.workers
    ensures var t := Step(s, Worker(e, nonce)); id in t.links && Leaving(t.links[id].core.client)
  {
    hide P.WorkerStep, P.PoolStep, L.Step, LinkedStep, Leaving;
    if P.Subject(e) == Some(id) && id in s.server.threads && id in s.server.pool.workers {
      WorkerLeaving(s, e, id, nonce);
    } else {
      OtherLeaving(s, e, id, nonce);
    }
  }

  lemma ClientLeaves(s: System, e: C.Event, id: nat)
    requires id in s.links && Leaving(s.links[id].core.client)
    requires forall id :: id in s.server.pool.idle ==> id in s.server.pool.workers
    ensures var t := Step(s, Client(e)); id in t.links && Leaving(t.links[id].core.client)
  {
    hide ClientStep, Leaving;
    ClientLeaving(s, e, id);
  }

  lemma OthersLeave(s: System, e: Event, id: nat)
    requires id in s.links && Leaving(s.links[id].core.client) && !e.Worker? && !e.Client?
    requires forall id :: id in s.server.pool.idle ==> id in s.server.pool.workers
    ensures var t := Step(s, e); id in t.links && Leaving(t.links[id].core.client)
  {
    hide P.Step, L.Step, HelloStep, ServerMay, ClientIOMay, Leaving;
    match e {
      case Hello(x, opts, draw) => if x in s.links { HelloLeaving(s, x, opts, draw, id); }
      case ServerIO(x, io) => if x in s.links { IOLeaving(s, x, io, id); }
      case ClientIO(x, io) => if x in s.links { IOLeaving(s, x, io, id); }
      case Pool(_) =>
    }
  }

  lemma IOLeaving(s: System, x: nat, io: L.Event, id: nat)
    requires id in s.links && x in s.links && Leaving(s.links[id].core.client)
    ensures Leaving(s.links[x := L.Step(s.links[x], io)][id].core.client)
  {
    hide L.Step, Leaving;
    LinkLeaving(s.links[id], io);
  }

  lemma WorkerLeaving(s: System, e: P.Event, id: nat, nonce: seq<byte>)
    requires P.Subject(e) == Some(id) && id in s.links && id in s.server.threads && id in s.server.pool.workers
    requires Leaving(s.links[id].core.client)
    ensures var t := LinkedStep(s, e, id, nonce); id in t.links && Leaving(t.links[id].core.client)
  {
    hide L.Step, Leaving, WorkerMay, PcOf, StateOf, P.WorkerStep;
    var l := s.links[id];
    LinkLeaving(l, L.SLease);
    LinkLeaving(l, L.SCheck(nonce));
    LinkLeaving(l, L.SExpire);
    LinkLeaving(l, L.SDies);
  }

  lemma OtherLeaving(s: System, e: P.Event, id: nat, nonce: seq<byte>)
    requires id in s.links
    requires !(P.Subject(e) == Some(id) && id in s.server.threads && id in s.server.pool.workers)
    requires forall id :: id in s.server.pool.idle ==> id in s.server.pool.workers
    ensures id in Step(s, Worker(e, nonce)).links && Step(s, Worker(e, nonce)).links[id] == s.links[id]
  {
    hide L.Step, WorkerMay, PcOf, StateOf, P.WorkerStep, P.PoolStep, FollowWorker;
  }

  lemma HelloLeaving(s: System, x: nat, opts: S.Options, draw: int, id: nat)
    requires id in s.links && x in s.links && Leaving(s.links[id].core.client)
    ensures id in HelloStep(s, x, opts, draw).links && Leaving(HelloStep(s, x, opts, draw).links[id].core.client)
  {
    hide L.Step, Leaving, P.EnrollStep;
    LinkLeaving(s.links[id], L.SRead(None));
  }

  lemma ClientLeaving(s: System, e: C.Event, id: nat)
    requires id in s.links && Leaving(s.links[id].core.client)
    ensures id in ClientStep(s, e).links && Leaving(ClientStep(s, e).links[id].core.client)
  {
    hide L.Step, Leaving, ClientMay, SlotPc, C.Step;
    var l := s.links[id];
    LinkLeaving(l, L.CDies);
    LinkLeaving(l, L.CDecide(true));
    LinkLeaving(l, L.CDecide(false));
  }

  lemma HandoffsStay(s: System, e: Event)
    requires TunnelSafety.Sound(s)
    ensures forall id :: id in s.server.pool.idle ==> id in s.server.pool.workers
    ensures PP.Grows(s.server.log, Step(s, e).server.log)
  {
    ServerKnown(s);
    hide P.Sound, C.Sound, Bonded, Ledger, PP.Grows, Step;
    match e {
      case Pool(p) => PoolGrows(s, p);
      case Worker(p, nonce) => WorkerGrows(s, p, nonce);
      case Hello(id, opts, draw) => HelloGrows(s, id, opts, draw);
      case _ =>
        ServerRests(s, e);
        PP.GrowsSame(s.server.log, s.server.log);
    }
  }

  lemma ServerRests(s: System, e: Event)
    requires e.ServerIO? || e.Client? || e.ClientIO?
    requires forall id :: id in s.server.pool.idle ==> id in s.server.pool.workers
    ensures Step(s, e).server == s.server
  {
    hide L.Step, C.Step, ServerMay, ClientIOMay, ClientMay, FollowClient;
  }

  lemma PoolGrows(s: System, e: P.Event)
    requires P.Sound(s.server)
    requires forall id :: id in s.server.pool.idle ==> id in s.server.pool.workers
    ensures PP.Grows(s.server.log, Step(s, Pool(e)).server.log)
  {
    hide P.Sound, P.Step, PP.Grows;
    PP.GrowsSame(s.server.log, s.server.log);
    PP.HandoffsGrow(s.server, e);
  }

  lemma WorkerGrows(s: System, e: P.Event, nonce: seq<byte>)
    requires P.Sound(s.server)
    requires forall id :: id in s.server.pool.idle ==> id in s.server.pool.workers
    ensures PP.Grows(s.server.log, Step(s, Worker(e, nonce)).server.log)
  {
    hide P.Sound, P.WorkerStep, P.PoolStep, PP.Grows, WorkerMay, FollowWorker;
    PP.GrowsSame(s.server.log, s.server.log);
    PP.HandoffsGrow(s.server, e);
  }

  lemma HelloGrows(s: System, id: nat, opts: S.Options, draw: int)
    requires forall id :: id in s.server.pool.idle ==> id in s.server.pool.workers
    ensures PP.Grows(s.server.log, Step(s, Hello(id, opts, draw)).server.log)
  {
    hide L.Step, PP.Grows;
    PP.GrowsSame(s.server.log, Step(s, Hello(id, opts, draw)).server.log);
  }

  /** Whoever was handed over in a step is in the worker's mailbox after it. */
  lemma NotHanded(s: System, e: Event, id: nat, visitor: nat)
    requires TunnelSafety.Sound(s) && id in s.links && Leaving(s.links[id].core.client)
    ensures forall id :: id in s.server.pool.idle ==> id in s.server.pool.workers
    ensures var h, h' := P.Handoffs(s.server.log), P.Handoffs(Step(s, e).server.log);
            visitor in h' && h'[visitor] == id ==> visitor in h && h[visitor] == id
  {
    hide TunnelSafety.Sound, Step, P.Handoffs, P.Step, LS.Coupled, Leaving, ServerBond, ClientBond;
    TunnelSafety.StepKeeps(s, e);
    HandoffsStay(s, e);
    LeavingStays(s, e, id);
    var h' := P.Handoffs(Step(s, e).server.log);
    if visitor in h' && h'[visitor] == id && visitor !in P.Handoffs(s.server.log) {
      InMail(Step(s, e), visitor);
      NotOffered(Step(s, e), id);
    }
  }

  lemma NotOffered(s: System, id: nat)
    requires TunnelSafety.Sound(s) && id in s.links && Leaving(s.links[id].core.client)
    ensures id in s.server.pool.workers ==> !OnOffer(s.server.pool.workers[id])
  {
    hide TunnelSafety.Sound;
    Paired(s, id);
  }

  lemma InMail(s: System, visitor: nat)
    requires TunnelSafety.Sound(s) && visitor in P.Handoffs(s.server.log)
    requires visitor !in s.server.log.taken && visitor !in s.server.log.cut
    ensures var id, p := P.Handoffs(s.server.log)[visitor], s.server.pool;
            id in p.workers && p.workers[id].mailbox == Some(visitor)
  {
    hide C.Sound, Bonded, Ledger, S.Inv, P.Threads, P.Drains, P.Accounted, P.InOrder, P.Handoffs;
  }

  /** The client's limit binds the server: at no time do more of the client's
      connections stand idle in the pool, or hold a visitor not taken yet, than
      the client counts idle, and so never more than MaxIdle; connections whose
      client has dropped them are not counted. */
  lemma IdleBound(c: Setup, es: seq<Event>)
    requires Proper(c)
    ensures var s := Reach(c, es);
            && |Offered(s)| <= s.client.acct.idle <= c.maxIdle
  {
    hide P.Sound, Reach, Ledger, LS.Coupled, TunnelSafety.Run;
    TunnelSafety.ReachSound(c, es);
    var s := Reach(c, es);
    forall id | id in Offered(s) ensures id in A.In(s.client.acct.slots, A.IdleSlot) {
      BarrierSafety(c, es, id);
    }
    Smaller(Offered(s), A.In(s.client.acct.slots, A.IdleSlot));
    Limits(c, es);
  }

  /** The client's connections that the server's pool has on offer. */
  function Offered(s: System): set<nat> {
    set id | id in s.links && id in s.client.acct.slots
             && id in s.server.pool.workers && OnOffer(s.server.pool.workers[id])
  }

  lemma Smaller(a: set<nat>, b: set<nat>)
    requires forall x :: x in a ==> x in b
    ensures |a| <= |b|
  {
    if x :| x in a {
      Smaller(a - {x}, b - {x});
    }
  }

  lemma Limits(c: Setup, es: seq<Event>)
    requires Proper(c)
    ensures var a := Reach(c, es).client.acct; a.idle == A.Count(a.slots, A.IdleSlot) && a.idle <= c.maxIdle
  {
    hide Reach, TunnelSafety.Sound, A.Count;
    TunnelSafety.ReachSound(c, es);
    Projection(c, es);
    var s := Reach(c, es);
    var ces :| s.client == C.Run(C.Initial(c.minIdle, c.maxIdle, c.zero, c.clientNow), ces);
    C.Accounting(c.minIdle, c.maxIdle, c.zero, c.clientNow, ces);
    SameLimits(C.Initial(c.minIdle, c.maxIdle, c.zero, c.clientNow), ces);
  }

  /** The configured limits never change. */
  lemma {:induction false} SameLimits(s: C.System, es: seq<C.Event>)
    ensures C.Run(s, es).acct.maxIdle == s.acct.maxIdle
    decreases |es|
  {
    hide C.Step;
    if es != [] {
      LimitsStep(s, es[0]);
      SameLimits(C.Step(s, es[0]), es[1..]);
    }
  }

  lemma LimitsStep(s: C.System, e: C.Event)
    ensures C.Step(s, e).acct.maxIdle == s.acct.maxIdle
  {
  }

  /** Each lease carries one visitor and each visitor at most one lease: on
      every connection the leases 1, 2, … are exactly those opened so far, each
      for a visitor that the pool accepted and gave to this connection's
      worker. What its relay reads, in either direction, is a prefix of what
      the other end wrote for that lease, and all of it once FIN was read. */
  lemma OneVisitorOneLease(c: Setup, es: seq<Event>, id: nat, n: uint64)
    requires Proper(c)
    ensures var s := Reach(c, es); var h := P.Handoffs(s.server.log);
            id in s.links ==>
              && var l := s.links[id];
                 && ((id, n) in s.carries <==> 1 <= n <= l.core.sLast)
                 && ((id, n) in s.carries ==>
                       && var v := s.carries[(id, n)];
                          && v in h && h[v] == id && v in s.server.log.taken
                          && (forall k :: k in s.carries && s.carries[k] == v ==> k == (id, n)))
                 && L.At(l.up.got, n) <= L.At(l.up.sent, n) && L.At(l.down.got, n) <= L.At(l.down.sent, n)
                 && (n in l.up.fins ==> L.At(l.up.got, n) == L.At(l.up.sent, n))
                 && (n in l.down.fins ==> L.At(l.down.got, n) == L.At(l.down.sent, n))
  {
    hide P.Sound, C.Sound, Bonded, Reach, LS.Coupled, TunnelSafety.Run, P.Handoffs, L.At, L.Run;
    TunnelSafety.ReachSound(c, es);
    Projection(c, es);
    var s := Reach(c, es);
    if id in s.links {
      var les :| s.links[id] == L.Run(L.CONNECTED, les);
      LS.Fidelity(les, n);
    }
  }
}
