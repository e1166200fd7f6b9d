/** The registration guard and its listener as they run: objects updated under
    their locks. */
module Guard {
  import opened Bytes
  import S = GuardSpec

  /** The connection under a guard. */
  class NetConn {
    var deadline: Option<int>

    constructor ()
      ensures deadline.None?
    {
      deadline := None;
    }
  }

  class Guard {
    ghost const id: nat
    const conn: NetConn
    const until: int
    var phase: int
    var timer: Option<int>
    var done: bool
    // The last reading of the clock that moved the phase; how many calls of
    // complete succeeded and of fail were the first.
    ghost var clock: int
    ghost var completed: nat
    ghost var failed: nat

    ghost function View(): S.Guard
      reads this, conn
    {
      S.Guard(until, phase, timer, done, conn.deadline)
    }

    /** Until it ends, the connection has a deadline within the phase, the phase
        lies within the total time and the timer is armed for its end or has
        fired. It ends once, by complete or by fail. */
    ghost predicate Valid()
      reads this, conn
    {
      && completed + failed == (if done then 1 else 0)
      && phase <= until && phase <= clock + S.PHASE
      && (!done ==> conn.deadline.Some? && conn.deadline.value <= phase && (timer.None? || timer == Some(phase)))
      && (done ==> timer.None?)
    }

    /** newGuard */
    constructor (ghost id: nat, conn: NetConn, now: int)
      modifies conn
      ensures Valid() && !done && clock == now && this.id == id && this.conn == conn
      ensures until == now + S.TOTAL && phase == now + S.PHASE && timer == Some(phase)
      ensures View() == S.NewGuard(now)
    {
      var total := now + S.TOTAL;
      var first := S.Earlier(now + S.PHASE, total);
      this.id, this.conn, until, phase, timer, done := id, conn, total, first, Some(first), false;
      clock, completed, failed := now, 0, 0;
      new;
      conn.deadline := Some(phase);
    }

    /** The timer is due: its goroutine goes on to fail. */
    method Fire(now: int) returns (fires: bool)
      requires Valid()
      modifies this`timer
      ensures Valid() && timer.None? == (fires || old(timer).None?)
      ensures fires ==> !done && phase <= now
    {
      fires := timer.Some? && timer.value <= now;
      if fires {
        timer := None;
      }
    }

    /** next, up to the unlock: it succeeds exactly in time on an open guard, and
        then the deadline moves with the phase, which never ends sooner than
        before nor lasts beyond the total time. */
    method Next(now: int, later: int) returns (ok: bool)
      requires Valid() && clock <= now <= later
      modifies this`phase, this`timer, this`clock, conn
      ensures Valid() && (View(), ok) == S.Next(old(View()), now, later)
      ensures ok <==> !done && now < old(phase)
      ensures ok ==> old(phase) <= phase <= until && conn.deadline == timer == Some(phase)
      ensures ok ==> phase == if later + S.PHASE <= until then later + S.PHASE else until
      ensures !ok ==> View() == old(View())
      ensures clock == if ok then later else old(clock)
    {
      if done || now >= phase || now >= until {
        return false;
      }
      phase := S.Earlier(later + S.PHASE, until);
      clock := later;
      conn.deadline := Some(phase);
      timer := Some(phase);
      ok := true;
    }

    /** complete, up to the unlock: onDone is the caller's when it succeeds, and
        fail when it does not. It succeeds at most once, never on a guard that
        failed, and takes the deadline away. */
    method Complete(now: int) returns (ok: bool)
      requires Valid()
      modifies this`done, this`timer, this`completed, conn
      ensures Valid() && (View(), ok) == S.Complete(old(View()), now)
      ensures ok <==> old(!done) && now < phase
      ensures ok ==> completed == 1 && failed == 0 && conn.deadline.None?
      ensures !ok ==> View() == old(View()) && completed == old(completed)
    {
      if done || now >= until || now >= phase {
        return false;
      }
      done := true;
      timer := None;
      conn.deadline := None;
      completed := completed + 1;
      ok := true;
    }

    /** fail, up to the unlock: closing and onDone are the caller's if it is the
        first to end the guard. */
    method Fail() returns (first: bool)
      requires Valid()
      modifies this`done, this`timer, this`failed
      ensures Valid() && (View(), first) == S.Fail(old(View()))
      ensures first <==> old(!done)
      ensures done && (first ==> failed == 1 && completed == 0)
      ensures !first ==> failed == old(failed)
    {
      if done {
        return false;
      }
      done := true;
      timer := None;
      failed := failed + 1;
      first := true;
    }

    /** deadline: while the guard is open none is set beyond the phase and none
        is taken away; an earlier one, and any once it has ended, is as asked. */
    method SetDeadline(t: Option<int>)
      requires Valid()
      modifies conn
      ensures Valid() && View() == S.Deadline(old(View()), t)
      ensures !done ==> conn.deadline.Some? && conn.deadline.value <= phase
      ensures !done && t.Some? ==> conn.deadline.value <= t.value
      ensures done || (t.Some? && t.value <= phase) ==> conn.deadline == t
    {
      var d := t;
      if !done && (t.None? || t.value > phase) {
        d := Some(phase);
      }
      conn.deadline := d;
    }
  }

  class Listener {
    var used: int       // elements in the slots channel
    var active: set<Guard>
    var stopping: bool
    var handlers: int
    // Every guard there ever was, those whose onDone has not finished, the
    // connections with a slot and no guard yet, the handlers under way.
    ghost var known: map<nat, Guard>
    ghost var outstanding: set<Guard>
    ghost var reserved: nat
    ghost var running: nat

    ghost function View(): S.Listener
      reads this
    {
      S.Listener(used, set g | g in active :: g.id, stopping, handlers)
    }

    /** Each slot in use is some connection's that waits for its guard, or some
        guard's whose onDone has not finished. */
    ghost predicate Valid()
      reads this
    {
      && (forall g :: g in outstanding ==> g.id in known && known[g.id] == g)
      && (forall id :: id in known ==> known[id].id == id)
      && active <= outstanding && used == reserved + |outstanding| <= S.MAX_SLOTS && handlers == running
    }

    constructor ()
      ensures Valid() && View() == S.NEW_LISTENER && known == map[] && outstanding == {} && reserved == running == 0
    {
      used, active, stopping, handlers, known := 0, {}, false, 0, map[];
      outstanding, reserved, running := {}, 0, 0;
    }

    /** Accept's send to the slots, which does not wait: a connection is turned
        away exactly when 64 others hold a slot. */
    method Reserve() returns (ok: bool)
      requires Valid()
      modifies this`used, this`reserved
      ensures Valid() && (View(), ok) == S.Reserve(old(View()))
      ensures ok <==> old(reserved + |outstanding|) < S.MAX_SLOTS
      ensures reserved == old(reserved) + (if ok then 1 else 0)
    {
      if used >= S.MAX_SLOTS {
        return false;
      }
      used := used + 1;
      reserved := reserved + 1;
      ok := true;
    }

    /** The rest of Accept, under the lock: the connection's slot becomes its
        guard's. */
    method Insert(ghost id: nat, conn: NetConn, now: int) returns (g: Guard)
      requires Valid() && id !in known && reserved > 0
      modifies this`active, this`known, this`outstanding, this`reserved, conn
      ensures Valid() && fresh(g) && known == old(known)[id := g] && g.Valid() && !g.done
      ensures outstanding == old(outstanding) + {g} && active == old(active) + {g} && reserved == old(reserved) - 1
      ensures View() == S.Insert(old(View()), id) && g.id == id && g.conn == conn && g.View() == S.NewGuard(now)
    {
      g := new Guard(id, conn, now);
      Admit(g);
    }

    method Admit(g: Guard)
      requires Valid() && g.id !in known && reserved > 0
      modifies this`active, this`known, this`outstanding, this`reserved
      ensures Valid() && known == old(known)[g.id := g] && View() == S.Insert(old(View()), g.id)
      ensures outstanding == old(outstanding) + {g} && active == old(active) + {g} && reserved == old(reserved) - 1
    {
      active := active + {g};
      known := known[g.id := g];
      outstanding, reserved := outstanding + {g}, reserved - 1;
      assert View().active == old(View()).active + {g.id};
    }

    /** onDone, up to the unlock: the guard keeps its slot. */
    method Delete(g: Guard)
      requires Valid() && g in outstanding
      modifies this`active
      ensures Valid() && View() == S.Delete(old(View()), g.id)
      ensures active == old(active) - {g} && outstanding == old(outstanding)
    {
      active := active - {g};
      assert View().active == old(View()).active - {g.id};
    }

    /** onDone's receive from the slots: there is always one to receive. */
    method Release(ghost g: Guard)
      requires Valid() && g in outstanding && g !in active
      modifies this`used, this`outstanding
      ensures Valid() && View() == S.Release(old(View()))
      ensures old(used) > 0 && outstanding == old(outstanding) - {g}
    {
      assert |outstanding| == |outstanding - {g}| + 1 by {
        assert outstanding == (outstanding - {g}) + {g};
      }
      used := used - 1;
      outstanding := outstanding - {g};
    }

    /** stop, up to the unlock: the guards it goes on to fail. */
    method Stop() returns (all: set<Guard>)
      requires Valid()
      modifies this`stopping
      ensures Valid() && all == active && (View(), set g | g in all :: g.id) == S.Stop(old(View()))
    {
      stopping := true;
      all := {};
      var todo := active;
      while todo != {}
        invariant todo <= active && all == active - todo
        decreases todo
      {
        var g :| g in todo;
        all := all + {g};
        todo := todo - {g};
      }
    }

    /** beginHandler: from stop on no handler begins, so those that stop waits
        for only get fewer. */
    method Begin() returns (ok: bool)
      requires Valid()
      modifies this`handlers, this`running
      ensures Valid() && (View(), ok) == S.Begin(old(View()))
      ensures ok <==> !stopping
      ensures running == old(running) + (if ok then 1 else 0)
    {
      if stopping {
        return false;
      }
      handlers := handlers + 1;
      running := running + 1;
      ok := true;
    }
  }
}
