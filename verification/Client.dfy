/** The client's accounting as it runs: services and slots are objects updated
    under the runtime's lock. Each method is one critical section; what its
    caller does after the unlock is returned. */
module Client {
  import opened Bytes
  import S = ClientSpec

  class Service {
    var idle: int
    var connecting: int
    var backoff: int
    var notBefore: int
    var wake: bool       // the one-token channel

    constructor (zero: int)
      ensures idle == connecting == 0 && backoff == S.BASE_BACKOFF && notBefore == zero && !wake
    {
      idle, connecting, backoff, notBefore, wake := 0, 0, S.BASE_BACKOFF, zero, false;
    }

    /** A full channel drops the token. */
    method Notify()
      modifies this`wake
      ensures wake
    {
      wake := true;
    }
  }

  class Slot {
    ghost const id: nat
    const svc: Service
    var state: S.SlotState
    var conn: Option<nat>
    var tcp: Option<nat>

    ghost function View(): S.Slot
      reads this
    {
      S.Slot(state, conn.Some?)
    }

    constructor (ghost id: nat, svc: Service)
      ensures this.id == id && this.svc == svc && View() == S.Slot(S.Connecting, false) && tcp.None?
    {
      this.id, this.svc := id, svc;
      state, conn, tcp := S.Connecting, None, None;
    }
  }

  /** What snapshot reports for one service. */
  datatype Slots = Slots(connecting: int, idle: int, busy: int)

  class Runtime {
    const minIdle: int
    const maxIdle: int
    const services: set<Service>
    var slots: set<Slot>
    var stopping: bool
    // Every slot there ever was.
    ghost var known: map<nat, Slot>

    /** One service's account: its counters, and its slots among all. */
    ghost function Abs(svc: Service): S.Account
      reads this, svc, known.Values
    {
      S.Account(minIdle, maxIdle, stopping, svc.idle, svc.connecting, Views(svc), svc.backoff, svc.notBefore)
    }

    ghost predicate Mine(id: nat, svc: Service)
      reads this, known.Values
    {
      id in known && known[id] in slots && known[id].svc == svc
    }

    ghost function Views(svc: Service): map<nat, S.Slot>
      reads this, known.Values
    {
      map id | id in known && Mine(id, svc) :: known[id].View()
    }

    ghost predicate Valid()
      reads this, known.Values
    {
      && (forall id :: id in known ==> known[id].id == id && known[id].svc in services)
      && (forall s :: s in slots ==> s.id in known && known[s.id] == s)
    }

    constructor (minIdle: int, maxIdle: int, services: set<Service>)
      ensures Valid() && this.services == services && known == map[] && fresh(this)
      ensures this.minIdle == minIdle && this.maxIdle == maxIdle && !stopping && slots == {}
    {
      this.minIdle, this.maxIdle, this.services := minIdle, maxIdle, services;
      slots, stopping, known := {}, false, map[];
    }

    /** One pass of control, up to the unlock: a Dial plan's goroutines are the
        caller's to start. */
    method Control(svc: Service, now: int, cancelled: bool) returns (plan: S.Plan)
      requires Valid() && svc in services
      modifies svc`connecting
      ensures Valid() && (Abs(svc), plan) == S.Control(old(Abs(svc)), now, cancelled)
      ensures forall o :: o in services && o != svc ==> Abs(o) == old(Abs(o))
    {
      if stopping || cancelled {
        return S.Quit;
      }
      var need := minIdle - svc.idle - svc.connecting;
      plan := S.Enough;
      if need > 0 {
        if svc.notBefore - now > 0 {
          plan := S.Delay(svc.notBefore);
        } else {
          svc.connecting := svc.connecting + need;
          plan := S.Dial(need);
        }
      }
    }

    /** runConn's first section. */
    method Enter(ghost id: nat, svc: Service) returns (s: Slot)
      requires Valid() && svc in services && id !in known
      modifies this`slots, this`known
      ensures Valid() && fresh(s) && s.id == id && s.svc == svc && known == old(known)[id := s] && s in slots
      ensures Abs(svc) == S.Register(old(Abs(svc)), id)
      ensures forall o :: o in services && o != svc ==> Abs(o) == old(Abs(o))
    {
      s := new Slot(id, svc);
      slots := slots + {s};
      known := known[id := s];
      Added(s, svc);
    }

    twostate lemma Added(new s: Slot, svc: Service)
      requires old(Valid()) && fresh(s) && s.svc == svc && svc in services && s.id !in old(known)
      requires slots == old(slots) + {s} && known == old(known)[s.id := s]
      requires forall x: Slot :: x in old(slots) ==> unchanged(x)
      ensures Valid()
      ensures Views(svc) == old(Views(svc))[s.id := s.View()]
      ensures forall o :: o in services && o != svc ==> Views(o) == old(Views(o))
    {
      assert Mine(s.id, svc);
      assert forall id, o :: o in services && id in old(known) ==> (Mine(id, o) <==> old(Mine(id, o)));
    }

    /** A slot of this runtime. */
    ghost predicate Member(s: Slot)
      reads this, known.Values
    {
      s in slots && s.svc in services
    }

    /** Updating one slot is an update of its service's account alone. */
    twostate lemma OnlySlot(s: Slot)
      requires old(Valid()) && old(Member(s)) && slots == old(slots) && known == old(known)
      requires forall x: Slot :: x in slots && x != s ==> unchanged(x)
      ensures Valid() && Member(s)
      ensures Views(s.svc) == old(Views(s.svc))[s.id := s.View()]
      ensures forall o :: o in services && o != s.svc ==> Views(o) == old(Views(o))
    {
    }

    /** dialAndServe, once connected. */
    method SetConn(s: Slot, conn: nat) returns (ok: bool)
      requires Valid() && Member(s)
      modifies s`conn
      ensures Valid() && Member(s) && (Abs(s.svc), ok) == S.SetConn(old(Abs(s.svc)), s.id)
      ensures ok <==> !stopping
      ensures s.conn == if ok then Some(conn) else old(s.conn)
      ensures forall o :: o in services && o != s.svc ==> Abs(o) == old(Abs(o))
    {
      if stopping {
        return false;
      }
      s.conn := Some(conn);
      OnlySlot(s);
      ok := true;
    }

    /** setTCP */
    method SetTCP(s: Slot, tcp: Option<nat>)
      requires Valid() && Member(s)
      modifies s`tcp
      ensures Valid() && Member(s) && s.tcp == tcp
      ensures forall o :: o in services ==> Abs(o) == old(Abs(o))
    {
      s.tcp := tcp;
      OnlySlot(s);
    }

    /** drop, up to the unlock: what it goes on to close. */
    method Drop(s: Slot) returns (conn: Option<nat>, tcp: Option<nat>)
      requires Valid() && Member(s)
      modifies s`conn, s`tcp
      ensures Valid() && Member(s) && Abs(s.svc) == S.DropConn(old(Abs(s.svc)), s.id)
      ensures conn == old(s.conn) && tcp == old(s.tcp) && s.tcp.None?
      ensures forall o :: o in services && o != s.svc ==> Abs(o) == old(Abs(o))
    {
      conn, tcp := s.conn, s.tcp;
      s.conn, s.tcp := None, None;
      OnlySlot(s);
    }

    /** HELLO_OK */
    method Registered(s: Slot)
      requires Valid() && Member(s)
      modifies s`state, s.svc`connecting, s.svc`idle
      ensures Valid() && Member(s) && Abs(s.svc) == S.Registered(old(Abs(s.svc)), s.id)
      ensures forall o :: o in services && o != s.svc ==> Abs(o) == old(Abs(o))
    {
      s.state := S.IdleSlot;
      s.svc.connecting := s.svc.connecting - 1;
      s.svc.idle := s.svc.idle + 1;
      OnlySlot(s);
    }

    /** OPEN */
    method Opened(s: Slot)
      requires Valid() && Member(s)
      modifies s`state, s.svc`idle
      ensures Valid() && Member(s) && Abs(s.svc) == S.Opened(old(Abs(s.svc)), s.id)
      ensures forall o :: o in services && o != s.svc ==> Abs(o) == old(Abs(o))
    {
      s.state := S.BusySlot;
      s.svc.idle := s.svc.idle - 1;
      OnlySlot(s);
    }

    /** The release barrier. On a service whose counters are right, the
        connection is surplus exactly if the client is stopping or the slots
        idle and connecting and the goroutines without a slot number MaxIdle. */
    method Barrier(s: Slot) returns (surplus: bool)
      requires Valid() && Member(s)
      modifies s`state, s.svc`idle
      ensures Valid() && Member(s) && (Abs(s.svc), surplus) == S.Barrier(old(Abs(s.svc)), s.id)
      ensures forall spawned: nat :: S.Counted(old(Abs(s.svc)), spawned) ==>
                (surplus <==> old(stopping)
                              || S.Count(old(Views(s.svc)), S.IdleSlot) + S.Count(old(Views(s.svc)), S.Connecting)
                                 + spawned == maxIdle)
      ensures s.state == if surplus then old(s.state) else S.IdleSlot
      ensures forall o :: o in services && o != s.svc ==> Abs(o) == old(Abs(o))
    {
      surplus := stopping || s.svc.idle + s.svc.connecting >= maxIdle;
      if !surplus {
        s.state := S.IdleSlot;
        s.svc.idle := s.svc.idle + 1;
        OnlySlot(s);
      }
    }

    /** runConn's last section; its notify follows the unlock. */
    method Exit(s: Slot, end: S.End, now: int, cancelled: bool) returns (failed: bool)
      requires Valid() && Member(s)
      modifies this`slots, s.svc
      ensures Valid() && slots == old(slots) - {s}
      ensures Abs(s.svc) == S.Exit(old(Abs(s.svc)), s.id, end, now, cancelled)
      ensures failed <==> end.Failed? && !cancelled && !stopping
      ensures s.svc.notBefore == if failed then now + end.draw else old(s.svc.notBefore)
      ensures failed ==>
                var force := if end.age >= S.STABLE_AFTER then S.BASE_BACKOFF else old(s.svc.backoff);
                s.svc.backoff == if force * 2 < S.MAX_BACKOFF then force * 2 else S.MAX_BACKOFF
      ensures !failed ==> s.svc.backoff == if end.Fine? then S.BASE_BACKOFF else old(s.svc.backoff)
      ensures s.svc.wake == old(s.svc.wake)
      ensures forall o :: o in services && o != s.svc ==> Abs(o) == old(Abs(o))
    {
      var svc := s.svc;
      slots := slots - {s};
      match s.state {
        case Connecting => svc.connecting := svc.connecting - 1;
        case IdleSlot => svc.idle := svc.idle - 1;
        case BusySlot =>
      }
      failed := end.Failed? && !cancelled && !stopping;
      if failed {
        if end.age >= S.STABLE_AFTER {
          svc.backoff := S.BASE_BACKOFF;
        }
        svc.notBefore := now + end.draw;
        svc.backoff := S.MinInt(svc.backoff * 2, S.MAX_BACKOFF);
      } else if end.Fine? {
        svc.backoff := S.BASE_BACKOFF;
      }
      Removed(s);
    }

    twostate lemma Removed(s: Slot)
      requires old(Valid()) && old(Member(s)) && slots == old(slots) - {s} && known == old(known)
      requires forall x: Slot :: x in old(slots) ==> unchanged(x)
      ensures Valid()
      ensures Views(s.svc) == old(Views(s.svc)) - {s.id}
      ensures forall o :: o in services && o != s.svc ==> Views(o) == old(Views(o))
    {
    }

    /** stop, up to the unlock: the connections it goes on to close. */
    method Stop() returns (idle: set<Slot>)
      requires Valid()
      modifies this`stopping
      ensures Valid() && stopping
      ensures forall o :: o in services ==> Abs(o) == S.Stop(old(Abs(o))).0
      ensures forall o, id :: o in services && id in known ==>
                (id in S.Stop(old(Abs(o))).1 <==> known[id] in idle && known[id].svc == o)
      ensures forall s :: s in idle <==> s in slots && s.state != S.BusySlot && s.conn.Some?
    {
      stopping := true;
      idle := Collect();
    }

    /** stop's loop. */
    method Collect() returns (idle: set<Slot>)
      ensures forall s :: s in idle <==> s in slots && s.state != S.BusySlot && s.conn.Some?
    {
      idle := {};
      var todo := slots;
      while todo != {}
        invariant todo <= slots
        invariant forall s :: s in idle <==> s in slots && s !in todo && s.state != S.BusySlot && s.conn.Some?
        decreases todo
      {
        var s :| s in todo;
        if s.state != S.BusySlot && s.conn.Some? {
          idle := idle + {s};
        }
        todo := todo - {s};
      }
    }

    /** force, up to the unlock: everything still open. */
    method Force() returns (conns: set<nat>, tcps: set<nat>)
      requires Valid()
      ensures forall c :: c in conns <==> exists s :: s in slots && s.conn == Some(c)
      ensures forall c :: c in tcps <==> exists s :: s in slots && s.tcp == Some(c)
    {
      conns, tcps := {}, {};
      var todo := slots;
      while todo != {}
        invariant todo <= slots
        invariant forall c :: c in conns <==> exists s :: s in slots && s !in todo && s.conn == Some(c)
        invariant forall c :: c in tcps <==> exists s :: s in slots && s !in todo && s.tcp == Some(c)
        decreases todo
      {
        var s :| s in todo;
        if s.conn.Some? {
          conns := conns + {s.conn.value};
        }
        if s.tcp.Some? {
          tcps := tcps + {s.tcp.value};
        }
        todo := todo - {s};
      }
    }

    /** snapshot: connecting and idle from the counters, busy counted. */
    method Snapshot() returns (out: map<Service, Slots>)
      requires Valid()
      ensures out.Keys == services
      ensures forall o :: o in services ==>
                out[o] == Slots(Abs(o).connecting, Abs(o).idle, S.Count(Abs(o).slots, S.BusySlot))
    {
      hide Tallied, Valid;
      out := map o | o in services :: Slots(o.connecting, o.idle, 0);
      var todo := slots;
      ghost var seen: set<Slot> := {};
      NoneTallied(out);
      while todo != {}
        invariant seen !! todo && seen + todo == slots && Tallied(out, seen)
        decreases todo
      {
        var s :| s in todo;
        Tally(out, s, seen);
        if s.state == S.BusySlot {
          out := out[s.svc := out[s.svc].(busy := out[s.svc].busy + 1)];
        }
        ghost var rest := todo;
        todo := todo - {s};
        seen := seen + {s};
        assert todo + {s} == rest;
      }
      assert seen == slots;
      AllTallied(out);
    }

    /** `out` counts the busy slots among `seen`. */
    ghost predicate Tallied(out: map<Service, Slots>, seen: set<Slot>)
      reads this, known.Values, services
    {
      && out.Keys == services
      && forall o :: o in services ==> out[o] == Slots(o.connecting, o.idle, |Busy(o, seen)|)
    }

    lemma NoneTallied(out: map<Service, Slots>)
      requires out == map o | o in services :: Slots(o.connecting, o.idle, 0)
      ensures Tallied(out, {})
    {
      forall o | o in services ensures |Busy(o, {})| == 0 {
        assert Busy(o, {}) == {};
      }
    }

    lemma Tally(out: map<Service, Slots>, s: Slot, seen: set<Slot>)
      requires Valid() && s in slots && s !in seen && Tallied(out, seen)
      ensures s.svc in out
      ensures Tallied(if s.state == S.BusySlot then out[s.svc := out[s.svc].(busy := out[s.svc].busy + 1)] else out,
                      seen + {s})
    {
      hide Busy;
      BusyMore(s, seen);
    }

    lemma AllTallied(out: map<Service, Slots>)
      requires Valid() && Tallied(out, slots)
      ensures out.Keys == services
      ensures forall o :: o in services ==>
                out[o] == Slots(Abs(o).connecting, Abs(o).idle, S.Count(Abs(o).slots, S.BusySlot))
    {
      hide Busy;
      BusyAll();
    }

    /** The busy slots of a service among `seen`. */
    ghost function Busy(svc: Service, seen: set<Slot>): set<nat>
      reads this, known.Values
    {
      set id | id in known && Mine(id, svc) && known[id] in seen && known[id].state == S.BusySlot
    }

    lemma BusyMore(s: Slot, seen: set<Slot>)
      requires Valid() && s in slots && s !in seen
      ensures s.svc in services
      ensures forall o :: o in services ==>
                Busy(o, seen + {s}) == Busy(o, seen) + (if o == s.svc && s.state == S.BusySlot then {s.id} else {})
      ensures forall o :: o in services ==>
                |Busy(o, seen + {s})| == |Busy(o, seen)| + (if o == s.svc && s.state == S.BusySlot then 1 else 0)
    {
    }

    lemma BusyAll()
      requires Valid()
      ensures forall o :: o in services ==> Busy(o, slots) == S.In(Abs(o).slots, S.BusySlot)
    {
      forall o | o in services ensures Busy(o, slots) == S.In(Abs(o).slots, S.BusySlot) {
        assert forall id :: id in known && Mine(id, o) ==> Views(o)[id].state == known[id].state;
      }
    }
  }
}
