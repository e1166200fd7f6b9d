/** No visitor is forgotten: in every run of server and client together, each
    visitor that Next returned for one of the client's connections has its
    lease on that connection. */
module TunnelDelivery {
  import opened Bytes
  import opened Tunnel
  import opened TunnelSafety
  import P = PoolSystem
  import PS = PoolSafety
  import PP = PoolProgress
  import S = PoolSpec
  import C = ClientSystem
  import L = Lease

  ghost predicate HasLease(s: System, id: nat, c: nat) {
    exists n: uint64 :: (id, n) in s.carries && s.carries[(id, n)] == c
  }

  /** Or the connection's lease counter is spent. */
  ghost predicate Served(s: System, id: nat, c: nat)
    requires id in s.links
  {
    HasLease(s, id, c) || s.links[id].core.sLast == MAX_UINT64
  }

  ghost predicate Given(s: System) {
    var h := P.Handoffs(s.server.log);
    && (forall c :: c in h ==> h[c] in s.server.threads)
    && (forall c :: c in s.server.log.taken ==> c in h && (h[c] in s.links ==> Served(s, h[c], c)))
  }

  /** What a step may do to workers, connections and leases. */
  ghost predicate Carries(s: System, t: System) {
    && PP.Grows(s.server.log, t.server.log) && s.server.threads.Keys <= t.server.threads.Keys
    && (forall k :: k in s.carries ==> k in t.carries && t.carries[k] == s.carries[k])
    && (forall id :: id in s.links ==>
          id in t.links && (s.links[id].core.sLast == MAX_UINT64 ==> t.links[id].core.sLast == MAX_UINT64))
    && (forall id :: id in t.links ==> id in s.links || id !in s.server.threads)
  }

  lemma GivenOn(s: System, t: System)
    requires Given(s) && Carries(s, t) && P.Sound(t.server)
    requires var h := P.Handoffs(t.server.log);
             forall c :: c in t.server.log.taken && c !in s.server.log.taken ==>
               c in h && (h[c] in t.links ==> Served(t, h[c], c))
    ensures Given(t)
  {
    hide S.Inv, P.Threads, P.Drains, P.Accounted, P.InOrder, P.Handoffs;
    var h, h' := P.Handoffs(s.server.log), P.Handoffs(t.server.log);
    PoolKeys(t.server);
    forall c | c in h' ensures h'[c] in t.server.threads {
      if c in h {
        assert h'[c] == h[c];
      } else {
        assert c !in t.server.log.taken && c !in t.server.log.cut;
      }
    }
    forall c | c in t.server.log.taken ensures c in h' && (h'[c] in t.links ==> Served(t, h'[c], c)) {
      if c in s.server.log.taken {
        assert c in h && h'[c] == h[c] && h[c] in s.server.threads;
        if h'[c] in t.links {
          ServedStill(s, t, h[c], c);
        }
      }
    }
  }

  lemma ServedStill(s: System, t: System, id: nat, c: nat)
    requires Carries(s, t) && id in s.links && Served(s, id, c)
    ensures id in t.links && Served(t, id, c)
  {
    hide PP.Grows;
    if HasLease(s, id, c) {
      var n: uint64 :| (id, n) in s.carries && s.carries[(id, n)] == c;
      assert (id, n) in t.carries;
    }
  }

  lemma PoolKeys(s: P.System)
    requires P.Sound(s)
    ensures s.threads.Keys == s.pool.workers.Keys
  {
    hide S.Inv, P.Drains, P.Accounted, P.Delivered, P.InOrder;
    PS.KeysAgree(s);
  }

  /** Only the check in Next takes a visitor. */
  lemma WorkerTakes(s: P.System, e: P.Event, id: nat)
    requires P.Subject(e) == Some(id) && id in s.threads && id in s.pool.workers
    ensures var t := P.WorkerStep(s, e, id);
            && t.threads.Keys == s.threads.Keys
            && (t.log.taken == s.log.taken
                || (e.PollMail? && s.pool.workers[id].mailbox.Some? && !s.threads[id].pc.Serving?
                    && t.threads[id].pc.Serving?
                    && t.log.taken == s.log.taken + {s.pool.workers[id].mailbox.value}))
  {
    hide S.IdleSection, S.CloseSection, S.TakeIdle, S.NextDeadline, S.ReleasingSection, S.WakeSection, S.Unlink;
  }

  lemma PoolTakes(s: P.System, e: P.Event)
    requires P.Subject(e).None? && forall x :: x in s.pool.idle ==> x in s.pool.workers
    ensures var t := P.PoolStep(s, e); t.log.taken == s.log.taken && s.threads.Keys <= t.threads.Keys
  {
    hide S.Dispatch, S.Withdraw, S.StopSection, S.Register, P.Names;
  }

  /** After Next returned a visitor the goroutine's next step is the lease. */
  lemma LeaseFollows(l: L.Link, pc: P.Pc, next: P.Pc, state: S.WState, nonce: seq<byte>)
    requires l.sAlive && l.core.server.SPooled? && !pc.Serving? && next.Serving?
    ensures FollowWorker(l, pc, next, state, nonce).core.sLast
            == if l.core.sLast == MAX_UINT64 then MAX_UINT64 else l.core.sLast + 1
  {
  }

  /** Where the goroutine of a worker with mail is. */
  lemma AtHand(s: System, id: nat)
    requires Sound(s) && id in s.links && id in s.server.threads && id in s.server.pool.workers
    requires s.server.pool.workers[id].mailbox.Some?
    ensures s.links[id].core.server.SPooled?
  {
    hide P.Sound, C.Sound, Ledger;
    BondsAt(s, id);
  }

  lemma NewLease(s: System, id: nat, nonce: seq<byte>)
    requires Sound(s) && id in s.links && id in s.server.threads && id in s.server.pool.workers
    requires s.server.pool.workers[id].mailbox.Some? && |nonce| == 8 && s.links[id].sAlive
    requires var t := P.WorkerStep(s.server, P.PollMail(id), id);
             !s.server.threads[id].pc.Serving? && id in t.threads && t.threads[id].pc.Serving?
    ensures var t := LinkedStep(s, P.PollMail(id), id, nonce);
            id in t.links && Served(t, id, s.server.pool.workers[id].mailbox.value)
  {
    hide Sound, P.WorkerStep, FollowWorker;
    AtHand(s, id);
    var l, t := s.links[id], LinkedStep(s, P.PollMail(id), id, nonce);
    LeaseFollows(l, s.server.threads[id].pc, PcOf(t.server, id), StateOf(t.server, id), nonce);
    if l.core.sLast != MAX_UINT64 {
      var n := t.links[id].core.sLast;
      assert (id, n) in t.carries && t.carries[(id, n)] == s.server.pool.workers[id].mailbox.value;
    }
  }

  lemma LinkedGives(s: System, e: P.Event, id: nat, nonce: seq<byte>)
    requires Sound(s) && Given(s) && P.Subject(e) == Some(id)
    requires id in s.links && id in s.server.threads && id in s.server.pool.workers
    ensures var t := LinkedStep(s, e, id, nonce); Given(t)
  {
    hide P.Sound, C.Sound, Bonded, Ledger, Given, PP.Grows, P.Handoffs, P.WorkerStep, FollowWorker, PcOf, StateOf,
         Served, Carries;
    var t := LinkedStep(s, e, id, nonce);
    if WorkerMay(e, s.links[id]) && |nonce| == 8 {
      LinkedCarries(s, e, id, nonce);
      LinkedSides(s, e, id, nonce);
      WorkerTakes(s.server, e, id);
      if t.server.log.taken != s.server.log.taken {
        var c := s.server.pool.workers[id].mailbox.value;
        Mail(s.server, id);
        Kept(s.server, t.server, c);
        NewLease(s, id, nonce);
      }
      GivenOn(s, t);
    }
  }

  /** A handoff stays as it is. */
  lemma Kept(s: P.System, t: P.System, c: nat)
    requires c in P.Handoffs(s.log) && PP.Grows(s.log, t.log)
    ensures c in P.Handoffs(t.log) && P.Handoffs(t.log)[c] == P.Handoffs(s.log)[c]
  {
    hide P.Handoffs;
  }

  lemma LinkedCarries(s: System, e: P.Event, id: nat, nonce: seq<byte>)
    requires Sound(s) && P.Subject(e) == Some(id)
    requires id in s.links && id in s.server.threads && id in s.server.pool.workers
    requires WorkerMay(e, s.links[id]) && |nonce| == 8
    ensures var t := LinkedStep(s, e, id, nonce); Carries(s, t) && PP.Grows(s.server.log, t.server.log)
  {
    hide P.Sound, C.Sound, Bonded, PP.Grows, P.Handoffs, P.WorkerStep, FollowWorker, PcOf, StateOf;
    var l, t := s.links[id], LinkedStep(s, e, id, nonce);
    PP.WorkerGrows(s.server, e, id);
    WorkerTakes(s.server, e, id);
    FollowMoves(s.server, e, id, l, nonce);
  }

  lemma StrangerGives(s: System, e: P.Event, id: nat)
    requires Sound(s) && Given(s) && P.Subject(e) == Some(id) && id !in s.links
    requires id in s.server.threads && id in s.server.pool.workers
    ensures forall x :: x in s.server.pool.idle ==> x in s.server.pool.workers
    ensures var t := s.(server := P.Step(s.server, e)); Given(t)
  {
    hide P.Sound, C.Sound, Bonded, Ledger, Given, PP.Grows, P.Handoffs, P.WorkerStep, Served;
    ServerKnown(s);
    PS.StepKeeps(s.server, e);
    PP.HandoffsGrow(s.server, e);
    WorkerTakes(s.server, e, id);
    var t := s.(server := P.Step(s.server, e));
    if t.server.log.taken != s.server.log.taken {
      Mail(s.server, id);
      Kept(s.server, t.server, s.server.pool.workers[id].mailbox.value);
    }
    GivenOn(s, t);
  }

  lemma PoolGives(s: System, e: P.Event)
    requires Sound(s) && Given(s) && P.Subject(e).None?
    ensures forall x :: x in s.server.pool.idle ==> x in s.server.pool.workers
    ensures var t := s.(server := P.Step(s.server, e)); Given(t)
  {
    hide P.Sound, C.Sound, Bonded, Ledger, Given, PP.Grows, P.Handoffs, P.PoolStep, Served;
    ServerKnown(s);
    PS.StepKeeps(s.server, e);
    PP.HandoffsGrow(s.server, e);
    PoolTakes(s.server, e);
    GivenOn(s, s.(server := P.Step(s.server, e)));
  }

  /** The server accepts a HELLO. */
  lemma HelloGives(s: System, id: nat, opts: S.Options, draw: int)
    requires Sound(s) && Given(s) && id in s.links
    ensures var t := HelloStep(s, id, opts, draw); Given(t)
  {
    hide P.Sound, C.Sound, Bonded, Ledger, Given, PP.Grows, P.Handoffs, P.EnrollStep, Served, L.Step;
    var l, t := s.links[id], HelloStep(s, id, opts, draw);
    if t != s {
      ServerKnown(s);
      var e := P.Enroll(id, opts, draw);
      PS.StepKeeps(s.server, e);
      PP.HandoffsGrow(s.server, e);
      PoolTakes(s.server, e);
      CounterMoves(l, L.SRead(None));
      GivenOn(s, t);
    }
  }

  /** A step that leaves the server's pool alone. */
  lemma ConnectionGives(s: System, t: System)
    requires Sound(s) && Given(s) && t.server == s.server && t.carries == s.carries
    requires forall id :: id in s.links ==> id in t.links && t.links[id].core.sLast == s.links[id].core.sLast
    requires forall id :: id in t.links ==> id in s.links || id !in s.server.threads
    ensures Given(t)
  {
    hide P.Sound, C.Sound, Bonded, Ledger, Given, P.Handoffs, Served;
    PP.GrowsSame(s.server.log, t.server.log);
    GivenOn(s, t);
  }

  lemma IOGives(s: System, e: Event)
    requires Sound(s) && Given(s) && (e.ServerIO? || e.ClientIO? || e.Client?)
    ensures forall x :: x in s.server.pool.idle ==> x in s.server.pool.workers
    ensures var t := Step(s, e); Given(t)
  {
    hide Sound, Given, ServerMay, ClientIOMay, ClientMay, L.Step, C.Step, FollowClient;
    PoolKnown(s);
    match e {
      case ServerIO(id, io) =>
        if id in s.links && !L.ByClient(io) && ServerMay(s, id, io) {
          NoLease(s, id, io);
          CounterMoves(s.links[id], io);
        }
      case ClientIO(id, io) => if id in s.links && L.ByClient(io) { CounterMoves(s.links[id], io); }
      case Client(c) =>
        if C.Subject(c).Some? && C.Subject(c).value in s.links {
          FollowCounts(s.links[C.Subject(c).value], SlotPc(s.client, C.Subject(c).value),
                       SlotPc(C.Step(s.client, c), C.Subject(c).value));
        }
    }
    ConnectionGives(s, Step(s, e));
  }

  lemma FollowCounts(l: L.Link, pc: Option<C.Pc>, next: Option<C.Pc>)
    ensures FollowClient(l, pc, next).core.sLast == l.core.sLast
  {
    hide L.Step;
    CounterMoves(l, L.CDies);
    CounterMoves(l, L.CDecide(true));
    CounterMoves(l, L.CDecide(false));
  }

  lemma StepGives(s: System, e: Event)
    requires Sound(s) && Given(s)
    ensures forall x :: x in s.server.pool.idle ==> x in s.server.pool.workers
    ensures var t := Step(s, e); Given(t)
  {
    hide Sound, Given, P.Step, HelloStep, ClientStep, LinkedStep, ServerMay, ClientIOMay, L.Step;
    PoolKnown(s);
    match e {
      case Worker(p, nonce) =>
        if P.Subject(p).Some? {
          var id := P.Subject(p).value;
          if id in s.server.threads && id in s.server.pool.workers {
            if id in s.links { LinkedGives(s, p, id, nonce); } else { StrangerGives(s, p, id); }
          }
        }
      case Pool(p) => if P.Subject(p).None? { PoolGives(s, p); }
      case Hello(id, opts, draw) => if id in s.links { HelloGives(s, id, opts, draw); }
      case _ => IOGives(s, e);
    }
  }

  lemma {:induction false} RunGives(s: System, es: seq<Event>)
    requires Sound(s) && Given(s)
    ensures var t := Run(s, es); Given(t)
    decreases |es|
  {
    hide Sound, Given, Step;
    if es != [] {
      StepKeeps(s, es[0]);
      StepGives(s, es[0]);
      RunGives(Step(s, es[0]), es[1..]);
    }
  }

  /** Every visitor that Next returned for a connection of the client has a lease
      on that very connection, unless the connection's lease counter was
      spent. */
  lemma NobodyForgotten(c: Setup, es: seq<Event>, v: nat)
    requires Proper(c)
    ensures var s := Reach(c, es); var h := P.Handoffs(s.server.log);
            v in s.server.log.taken ==>
              && v in h
              && (h[v] in s.links ==>
                    || (exists n: uint64 :: (h[v], n) in s.carries && s.carries[(h[v], n)] == v)
                    || s.links[h[v]].core.sLast == MAX_UINT64)
  {
    hide Sound, Run, P.Handoffs;
    InitialSound(c.maxPending, c.serverNow, c.minIdle, c.maxIdle, c.zero, c.clientNow);
    var s := Initial(c.maxPending, c.serverNow, c.minIdle, c.maxIdle, c.zero, c.clientNow);
    NothingHanded(c.maxPending, c.serverNow);
    RunGives(s, es);
  }

  lemma NothingHanded(maxPending: int, now: int)
    ensures var log := P.Initial(maxPending, now).log; P.Handoffs(log) == map[] && log.taken == {}
  {
  }
}
