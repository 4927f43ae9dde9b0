/**
 * What the DCC flow control computes, as functions on its state.
 *
 * There is one queue per access category. Categories are numbered by falling priority: 0 is voice, 3 is
 * background. The rate control is any deterministic object: the delay it answers is an arbitrary
 * function of all calls made to it so far, the time and the transmission.
 */
module FlowModel {
  import opened Runtime

  datatype Profile = DP0 | DP1 | DP2 | DP3

  type Rank = r: nat | r < 4

  function RankOf(p: Profile): Rank {
    match p
    case DP0 => 0
    case DP1 => 1
    case DP2 => 2
    case DP3 => 3
  }

  datatype Transmission = Transmission(profile: Profile, size: nat)

  /** A queued packet; `number` counts the requests. */
  datatype Packet = Packet(number: nat, tx: Transmission, expiry: Time)

  datatype Call = Asked(at: Time, tx: Transmission) | Notified(at: Time, tx: Transmission)

  /** Largest representable duration. */
  const MAX_DURATION: Duration := 9223372036854775807

  datatype Config = Config(self: Scope, throttle: (seq<Call>, Time, Transmission) -> Duration)

  /**
   * Calls of the transmit and drop hooks. `ahead` is the number of packets queued with equal or higher
   * priority at that moment, `delay` the delay last answered for the packet.
   */
  datatype Event =
    | Sent(number: nat, rank: Rank, at: Time, expiry: Time, immediate: bool, ahead: nat, delay: Duration)
    | Dropped(rank: Rank)

  datatype Flow = Flow(
    queues: seq<seq<Packet>>,
    limit: nat,
    now: Time,
    runtime: seq<Scheduled>,
    calls: seq<Call>,
    requests: nat,
    log: seq<Event>)

  predicate Shaped(f: Flow) {
    |f.queues| == 4
  }

  // ---------------------------------------------------------------- rate control

  function Delay(cfg: Config, f: Flow, tx: Transmission): Duration {
    cfg.throttle(f.calls, f.now, tx)
  }

  function Ask(f: Flow, tx: Transmission): Flow {
    f.(calls := f.calls + [Asked(f.now, tx)])
  }

  function Notify(f: Flow, tx: Transmission): Flow {
    f.(calls := f.calls + [Notified(f.now, tx)])
  }

  /** Ask for the delay of a transmission and have the runtime call back after it. */
  function ScheduleTrigger(cfg: Config, f: Flow, tx: Transmission): Flow {
    Ask(f, tx).(runtime := Scheduling(f.runtime, Scheduled(f.now + Delay(cfg, f, tx), cfg.self)))
  }

  // ---------------------------------------------------------------- queues

  function Alive(q: seq<Packet>, now: Time): seq<Packet> {
    if q == [] then []
    else (if q[0].expiry < now then [] else [q[0]]) + Alive(q[1..], now)
  }

  function Drops(rank: Rank, n: nat): (r: seq<Event>)
    ensures |r| == n && forall i :: 0 <= i < n ==> r[i] == Dropped(rank)
  {
    if n == 0 then [] else Drops(rank, n - 1) + [Dropped(rank)]
  }

  lemma {:induction false} AliveLength(q: seq<Packet>, now: Time)
    ensures |Alive(q, now)| <= |q|
  {
    if q != [] {
      AliveLength(q[1..], now);
    }
  }

  /** Drop what has expired in the categories from rank r on. */
  function DropExpiredFrom(f: Flow, r: nat): (g: Flow)
    requires Shaped(f) && r <= 4
    ensures Shaped(g) && g == f.(queues := g.queues, log := g.log)
    decreases 4 - r
  {
    if r == 4 then f
    else
      var alive := Alive(f.queues[r], f.now);
      AliveLength(f.queues[r], f.now);
      DropExpiredFrom(f.(queues := f.queues[r := alive],
                         log := f.log + Drops(r, |f.queues[r]| - |alive|)), r + 1)
  }

  function DropExpired(f: Flow): (g: Flow)
    requires Shaped(f)
    ensures Shaped(g) && g == f.(queues := g.queues, log := g.log)
  {
    DropExpiredFrom(f, 0)
  }

  /** Number of packets queued with rank at most r, that is with equal or higher priority. */
  function Ahead(queues: seq<seq<Packet>>, r: nat): nat
    requires r < |queues|
  {
    |queues[r]| + if r == 0 then 0 else Ahead(queues, r - 1)
  }

  function Queued(f: Flow): nat
    requires Shaped(f)
  {
    Ahead(f.queues, 3)
  }

  /** The first packets of a full queue give way. */
  function Excess(q: seq<Packet>, limit: nat): (n: nat)
    ensures n <= |q|
  {
    if limit > 0 && |q| >= limit then |q| - limit + 1 else 0
  }

  function Enqueue(cfg: Config, f: Flow, p: Packet): (g: Flow)
    requires Shaped(f)
    ensures Shaped(g)
  {
    var r := RankOf(p.tx.profile);
    var n := Excess(f.queues[r], f.limit);
    var e := f.(queues := f.queues[r := f.queues[r][n..] + [p]], log := f.log + Drops(r, n));
    if Queued(f) == 0 then ScheduleTrigger(cfg, e, p.tx) else e
  }

  /** A packet is passed to the access layer at once if nothing of its priority or above waits. */
  function Admit(cfg: Config, f: Flow, p: Packet): (g: Flow)
    requires Shaped(f)
    ensures Shaped(g)
  {
    if Ahead(f.queues, RankOf(p.tx.profile)) == 0 then
      var a := Ask(f, p.tx);
      if Delay(cfg, f, p.tx) == 0
      then Transmit(Notify(a, p.tx), p, true, 0)
      else Enqueue(cfg, a, p)
    else Enqueue(cfg, f, p)
  }

  function ExpiryOf(now: Time, lifetime: Duration): Time {
    now + lifetime
  }

  function Request(cfg: Config, f: Flow, tx: Transmission, lifetime: Duration): (g: Flow)
    requires Shaped(f)
    ensures Shaped(g)
  {
    Admit(cfg, DropExpired(f).(requests := f.requests + 1), Packet(f.requests, tx, ExpiryOf(f.now, lifetime)))
  }

  function Transmit(f: Flow, p: Packet, immediate: bool, delay: Duration): (g: Flow)
    requires Shaped(f)
    ensures Shaped(g)
  {
    var r := RankOf(p.tx.profile);
    f.(log := f.log + [Sent(p.number, r, f.now, p.expiry, immediate, Ahead(f.queues, r), delay)])
  }

  // ---------------------------------------------------------------- choosing the next queue

  datatype Choice = Nothing | Choose(rank: Rank, delay: Duration)

  /**
   * Scan the categories from rank r on; `best` is the choice so far and `least` its delay. The front
   * packet of every non-empty queue costs one question to the rate control.
   */
  function ScanFrom(cfg: Config, f: Flow, r: nat, best: Choice, least: Duration): (c: (Choice, Flow))
    requires Shaped(f) && r <= 4
    ensures Shaped(c.1) && c.1 == f.(calls := c.1.calls)
    decreases 4 - r
  {
    if r == 4 then (best, f)
    else if f.queues[r] == [] then ScanFrom(cfg, f, r + 1, best, least)
    else
      var tx := f.queues[r][0].tx;
      var delay := Delay(cfg, f, tx);
      if delay < least then ScanFrom(cfg, Ask(f, tx), r + 1, Choose(r, delay), delay)
      else ScanFrom(cfg, Ask(f, tx), r + 1, best, least)
  }

  function NextQueue(cfg: Config, f: Flow): (c: (Choice, Flow))
    requires Shaped(f)
    ensures Shaped(c.1) && c.1 == f.(calls := c.1.calls)
  {
    ScanFrom(cfg, f, 0, Nothing, MAX_DURATION)
  }

  lemma {:induction false} ScanFromNonEmpty(cfg: Config, f: Flow, r: nat, best: Choice, least: Duration)
    requires Shaped(f) && r <= 4 && (best.Choose? ==> f.queues[best.rank] != [])
    ensures var c := ScanFrom(cfg, f, r, best, least).0; c.Choose? ==> f.queues[c.rank] != []
    decreases 4 - r
  {
    if r < 4 {
      if f.queues[r] == [] {
        ScanFromNonEmpty(cfg, f, r + 1, best, least);
      } else {
        var g := Ask(f, f.queues[r][0].tx);
        var delay := Delay(cfg, f, f.queues[r][0].tx);
        if delay < least {
          ScanFromNonEmpty(cfg, g, r + 1, Choose(r, delay), delay);
        } else {
          ScanFromNonEmpty(cfg, g, r + 1, best, least);
        }
      }
    }
  }

  /** Have a trigger scheduled for the next packet, if there is one. */
  function ScheduleNext(cfg: Config, f: Flow): (g: Flow)
    requires Shaped(f)
    ensures Shaped(g)
  {
    var (c, a) := NextQueue(cfg, f);
    ScanFromNonEmpty(cfg, f, 0, Nothing, MAX_DURATION);
    if c.Nothing? then a else ScheduleTrigger(cfg, a, a.queues[c.rank][0].tx)
  }

  function Dequeue(cfg: Config, f: Flow): (g: Flow)
    requires Shaped(f)
    ensures Shaped(g)
  {
    var (c, a) := NextQueue(cfg, f);
    ScanFromNonEmpty(cfg, f, 0, Nothing, MAX_DURATION);
    if c.Nothing? then a
    else
      var p := a.queues[c.rank][0];
      Transmit(Notify(a.(queues := a.queues[c.rank := a.queues[c.rank][1..]]), p.tx), p, false, c.delay)
  }

  /** A trigger that has just left the runtime queue. */
  function Trigger(cfg: Config, f: Flow): (g: Flow)
    requires Shaped(f)
    ensures Shaped(g)
  {
    ScheduleNext(cfg, Dequeue(cfg, DropExpired(f)))
  }

  function Reschedule(cfg: Config, f: Flow): (g: Flow)
    requires Shaped(f)
    ensures Shaped(g)
  {
    var (c, a) := NextQueue(cfg, f);
    ScanFromNonEmpty(cfg, f, 0, Nothing, MAX_DURATION);
    if c.Nothing? then a
    else ScheduleTrigger(cfg, a.(runtime := Cancelled(a.runtime, cfg.self)), a.queues[c.rank][0].tx)
  }
}
