/** The timings a client announces in HELLO: validated in its configuration,
    sent in whole milliseconds, and validated again by the server. Durations
    are nanoseconds in an int64. */
module Timing {
  import opened Bytes
  import S = PoolSpec

  const MILLISECOND: int := 1_000_000
  const SECOND: int := 1000 * MILLISECOND
  const MINUTE: int := 60 * SECOND
  const HOUR: int := 60 * MINUTE

  newtype int64 = x: int | -0x8000_0000_0000_0000 <= x < 0x8000_0000_0000_0000

  datatype ClientPool = ClientPool(
    minIdle: int, maxIdle: int, heartbeat: int64, idleTimeout: int64, idleJitter: int64,
    maxLifetime: int64, lifetimeJitter: int64)

  datatype PoolParams = PoolParams(
    heartbeatMS: int64, idleTimeoutMS: int64, idleJitterMS: int64, maxLifetimeMS: int64, lifetimeJitterMS: int64)

  datatype PoolError = MinIdle | MaxIdle | Heartbeat | IdleTimeout | IdleJitter | MaxLifetime | LifetimeJitter

  /** ValidatePool: the first limit that is not met. */
  function Validate(p: ClientPool): Option<PoolError> {
    if p.minIdle < 1 || p.minIdle > 1024 then Some(MinIdle)
    else if p.maxIdle < p.minIdle || p.maxIdle > 1024 then Some(MaxIdle)
    else if p.heartbeat as int < SECOND || p.heartbeat as int > 10 * MINUTE then Some(Heartbeat)
    else if p.idleTimeout as int < SECOND || p.idleTimeout as int > 24 * HOUR then Some(IdleTimeout)
    else if p.idleJitter < 0 || p.idleJitter > p.idleTimeout then Some(IdleJitter)
    else if p.maxLifetime as int < SECOND || p.maxLifetime as int > 7 * 24 * HOUR then Some(MaxLifetime)
    else if p.lifetimeJitter < 0 || p.lifetimeJitter > p.maxLifetime then Some(LifetimeJitter)
    else None
  }

  /** Go's division truncates toward zero. */
  function Milliseconds(d: int64): int64 {
    if d >= 0 then (d as int / MILLISECOND) as int64 else (-(-(d as int) / MILLISECOND)) as int64
  }

  function Announce(p: ClientPool): PoolParams {
    PoolParams(Milliseconds(p.heartbeat), Milliseconds(p.idleTimeout), Milliseconds(p.idleJitter),
               Milliseconds(p.maxLifetime), Milliseconds(p.lifetimeJitter))
  }

  /** poolOptions' ms. The product is an int64 without wrapping round: that is
      what the bound is for. */
  function Duration(ms: int64): int64 {
    if ms < 0 || ms as int > 0x100_0000_0000 then -1 else (ms as int * MILLISECOND) as int64
  }

  function Received(p: PoolParams): ClientPool {
    ClientPool(1, 1, Duration(p.heartbeatMS), Duration(p.idleTimeoutMS), Duration(p.idleJitterMS),
               Duration(p.maxLifetimeMS), Duration(p.lifetimeJitterMS))
  }

  /** poolOptions */
  function Options(p: PoolParams): Option<S.Options> {
    var c := Received(p);
    if Validate(c).Some? then None
    else Some(S.Options(c.heartbeat as int, c.idleTimeout as int, c.idleJitter as int, c.maxLifetime as int,
                        c.lifetimeJitter as int))
  }

  /** The server accepts exactly the parameters within these limits, whatever
      int64 values it is sent. */
  lemma AcceptedExactly(p: PoolParams)
    ensures Options(p).Some? <==>
            && 1000 <= p.heartbeatMS <= 600_000
            && 1000 <= p.idleTimeoutMS <= 86_400_000
            && 0 <= p.idleJitterMS <= p.idleTimeoutMS
            && 1000 <= p.maxLifetimeMS <= 604_800_000
            && 0 <= p.lifetimeJitterMS <= p.maxLifetimeMS
    ensures Options(p).Some? ==>
            Options(p).value == S.Options(p.heartbeatMS as int * MILLISECOND, p.idleTimeoutMS as int * MILLISECOND,
                                          p.idleJitterMS as int * MILLISECOND, p.maxLifetimeMS as int * MILLISECOND,
                                          p.lifetimeJitterMS as int * MILLISECOND)
  {
  }

  function Floor(d: int64): int {
    d as int - d as int % MILLISECOND
  }

  lemma RoundsDown(d: int64)
    requires 0 <= d as int <= 7 * 24 * HOUR
    ensures Duration(Milliseconds(d)) as int == Floor(d)
    ensures d as int - MILLISECOND < Floor(d) <= d as int
  {
  }

  lemma FloorMonotone(a: int64, b: int64)
    requires 0 <= a <= b
    ensures Floor(a) <= Floor(b)
  {
  }

  /** A pool the client validated is accepted by the server, with every timing
      rounded down to a millisecond. */
  lemma ValidatedSurvives(p: ClientPool)
    requires Validate(p).None?
    ensures Options(Announce(p)) ==
            Some(S.Options(Floor(p.heartbeat), Floor(p.idleTimeout), Floor(p.idleJitter), Floor(p.maxLifetime),
                           Floor(p.lifetimeJitter)))
  {
    RoundsDown(p.heartbeat);
    RoundsDown(p.idleTimeout);
    RoundsDown(p.idleJitter);
    RoundsDown(p.maxLifetime);
    RoundsDown(p.lifetimeJitter);
    FloorMonotone(p.idleJitter, p.idleTimeout);
    FloorMonotone(p.lifetimeJitter, p.maxLifetime);
    hide Duration, Milliseconds;
  }

  /** What the server does with them stays within what the client configured:
      the deadlines it draws are never later than configured and at most a
      millisecond too early, the sums stay far from an int64's end, and it
      sends a PING well before the client, who waits three of its own
      heartbeats, gives up. */
  lemma ServerKeepsConfigured(p: ClientPool, now: int, idleDraw: int, lifeDraw: int)
    requires Validate(p).None?
    ensures Options(Announce(p)).Some?
    ensures var o := Options(Announce(p)).value;
            S.Drawn(o.idleJitter, idleDraw) && S.Drawn(o.lifetimeJitter, lifeDraw) ==>
              && now + p.idleTimeout as int - MILLISECOND < S.After(now, o.idleTimeout, idleDraw)
                 <= now + p.idleTimeout as int + p.idleJitter as int
              && now + p.maxLifetime as int - MILLISECOND < S.After(now, o.maxLifetime, lifeDraw)
                 <= now + p.maxLifetime as int + p.lifetimeJitter as int
              && o.maxLifetime + lifeDraw <= 14 * 24 * HOUR && o.idleTimeout + idleDraw <= 48 * HOUR
              && 0 < o.heartbeat && o.heartbeat + 2 * SECOND <= 3 * p.heartbeat as int
  {
    ValidatedSurvives(p);
    RoundsDown(p.heartbeat);
    RoundsDown(p.idleTimeout);
    RoundsDown(p.idleJitter);
    RoundsDown(p.maxLifetime);
    RoundsDown(p.lifetimeJitter);
    hide Duration, Milliseconds, Options, Announce, Floor;
  }

  /** Announcing what was accepted gives the same parameters back. */
  lemma AnnounceOfOptions(p: PoolParams)
    requires Options(p).Some?
    ensures Announce(Received(p)) == p
  {
    AcceptedExactly(p);
    Exact(p.heartbeatMS);
    Exact(p.idleTimeoutMS);
    Exact(p.idleJitterMS);
    Exact(p.maxLifetimeMS);
    Exact(p.lifetimeJitterMS);
    hide Duration, Milliseconds, Options;
  }

  lemma Exact(ms: int64)
    requires 0 <= ms <= 604_800_000
    ensures Milliseconds(Duration(ms)) == ms
  {
    assert (ms as int * MILLISECOND) / MILLISECOND == ms as int;
  }
}
