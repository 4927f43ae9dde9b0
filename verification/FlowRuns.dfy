/**
 * What every run of the flow control keeps: packets are conserved, each category is served in request
 * order, nothing is sent late from a queue, and a waiting packet always has a trigger to wake it.
 */
module FlowRuns {
  import opened Sequences
  import opened Runtime
  import opened FlowModel

  // ---------------------------------------------------------------- reading the history

  function Sends(log: seq<Event>): nat {
    if log == [] then 0 else Sends(log[..|log| - 1]) + if log[|log| - 1].Sent? then 1 else 0
  }

  function DropCalls(log: seq<Event>): nat {
    if log == [] then 0 else DropCalls(log[..|log| - 1]) + if log[|log| - 1].Dropped? then 1 else 0
  }

  /** Request numbers of the packets sent in one category, in the order of sending. */
  function SentNumbers(log: seq<Event>, r: Rank): seq<nat> {
    if log == [] then []
    else
      var e := log[|log| - 1];
      SentNumbers(log[..|log| - 1], r) + if e.Sent? && e.rank == r then [e.number] else []
  }

  lemma {:induction false} Append(log: seq<Event>, e: Event, r: Rank)
    ensures Sends(log + [e]) == Sends(log) + (if e.Sent? then 1 else 0)
    ensures DropCalls(log + [e]) == DropCalls(log) + (if e.Dropped? then 1 else 0)
    ensures SentNumbers(log + [e], r)
         == if e.Sent? && e.rank == r then SentNumbers(log, r) + [e.number] else SentNumbers(log, r)
  {
    TakeInit(log, e);
  }

  lemma {:induction false} AppendDrops(log: seq<Event>, k: Rank, n: nat, r: Rank)
    ensures Sends(log + Drops(k, n)) == Sends(log)
    ensures DropCalls(log + Drops(k, n)) == DropCalls(log) + n
    ensures SentNumbers(log + Drops(k, n), r) == SentNumbers(log, r)
  {
    if n > 0 {
      var before := log + Drops(k, n - 1);
      AppendDrops(log, k, n - 1, r);
      Append(before, Dropped(k), r);
      assert log + Drops(k, n) == before + [Dropped(k)];
    } else {
      assert log + Drops(k, 0) == log;
    }
  }

  // ---------------------------------------------------------------- the invariant

  function Numbers(q: seq<Packet>): (r: seq<nat>)
    ensures |r| == |q| && forall i :: 0 <= i < |q| ==> r[i] == q[i].number
  {
    seq(|q|, i requires 0 <= i < |q| => q[i].number)
  }

  ghost predicate Rising(s: seq<nat>, bound: nat) {
    && (forall i, j :: 0 <= i < j < |s| ==> s[i] < s[j])
    && (forall i :: 0 <= i < |s| ==> s[i] < bound)
  }

  /** Sent and waiting packets of a category, in this order, are in request order. */
  ghost predicate InOrder(f: Flow, r: Rank, bound: nat)
    requires Shaped(f)
  {
    Rising(SentNumbers(f.log, r) + Numbers(f.queues[r]), bound)
  }

  /**
   * An immediate transmission overtakes nothing of equal or higher priority and has no delay; a queued
   * one is not later than its expiry.
   */
  predicate SoundEvent(e: Event) {
    e.Sent? ==> if e.immediate then e.ahead == 0 && e.delay == 0 else e.at <= e.expiry
  }

  ghost predicate Homed(f: Flow)
    requires Shaped(f)
  {
    forall r: Rank, i :: 0 <= i < |f.queues[r]| ==> RankOf(f.queues[r][i].tx.profile) == r
  }

  /** `extra` requests have been counted but neither sent, dropped nor queued yet. */
  ghost predicate Core(f: Flow, extra: nat, bound: nat) {
    && Shaped(f)
    && Homed(f)
    && f.requests == Sends(f.log) + DropCalls(f.log) + Queued(f) + extra
    && (forall r: Rank :: InOrder(f, r, bound))
    && (forall i :: 0 <= i < |f.log| ==> SoundEvent(f.log[i]))
  }

  /** The rate control never answers the largest duration. */
  ghost predicate Prompt(cfg: Config) {
    forall calls, now, tx :: cfg.throttle(calls, now, tx) < MAX_DURATION
  }

  /** A trigger is pending whenever a packet waits. */
  ghost predicate Awake(cfg: Config, f: Flow)
    requires Shaped(f)
  {
    Queued(f) > 0 ==> Pending(f.runtime, cfg.self) != []
  }

  // ---------------------------------------------------------------- queues

  lemma {:induction false} AheadUpdate(queues: seq<seq<Packet>>, r: nat, k: nat, q: seq<Packet>)
    requires r < |queues| && k < |queues|
    ensures Ahead(queues[k := q], r) == Ahead(queues, r) + if k <= r then |q| - |queues[k]| else 0
  {
    if r > 0 {
      AheadUpdate(queues, r - 1, k, q);
    }
  }

  lemma {:induction false} AheadZero(queues: seq<seq<Packet>>, r: nat)
    requires r < |queues|
    ensures Ahead(queues, r) == 0 <==> forall k :: 0 <= k <= r ==> queues[k] == []
  {
    if r > 0 {
      AheadZero(queues, r - 1);
    }
  }

  lemma {:induction false} NumbersCons(a: seq<nat>, q: seq<Packet>)
    requires q != []
    ensures a + Numbers(q) == a + [q[0].number] + Numbers(q[1..])
  {
  }

  lemma {:induction false} RisingAlive(a: seq<nat>, q: seq<Packet>, now: Time, bound: nat)
    requires Rising(a + Numbers(q), bound)
    ensures Rising(a + Numbers(Alive(q, now)), bound)
    decreases |q|
  {
    if q != [] {
      RisingShorter(a, q, bound);
      if q[0].expiry < now {
        RisingAlive(a, q[1..], now, bound);
        assert Alive(q, now) == Alive(q[1..], now);
      } else {
        NumbersCons(a, q);
        RisingAlive(a + [q[0].number], q[1..], now, bound);
        var rest := Alive(q[1..], now);
        assert ([q[0]] + rest)[1..] == rest;
        NumbersCons(a, [q[0]] + rest);
      }
    }
  }

  lemma {:induction false} RisingShorter(a: seq<nat>, q: seq<Packet>, bound: nat)
    requires q != [] && Rising(a + Numbers(q), bound)
    ensures Rising(a + Numbers(q[1..]), bound)
  {
    var (s, t) := (a + Numbers(q), a + Numbers(q[1..]));
    assert forall i :: 0 <= i < |t| ==> t[i] == s[if i < |a| then i else i + 1];
  }

  lemma {:induction false} RisingDrop(a: seq<nat>, q: seq<Packet>, n: nat, bound: nat)
    requires n <= |q| && Rising(a + Numbers(q), bound)
    ensures Rising(a + Numbers(q[n..]), bound)
  {
    if n > 0 {
      RisingShorter(a, q, bound);
      RisingDrop(a, q[1..], n - 1, bound);
      assert q[1..][n - 1..] == q[n..];
    } else {
      assert q[0..] == q;
    }
  }

  lemma {:induction false} AliveNext(q: seq<Packet>, i: nat, j: nat, kept: seq<Packet>, now: Time)
    requires i < |q| && j == i + 1
    ensures kept + Alive(q[i..], now) == (if q[i].expiry < now then kept else kept + [q[i]]) + Alive(q[j..], now)
  {
    DropOne(q, i, j);
  }

  lemma {:induction false} DropsNext(log: seq<Event>, r: Rank, n: nat, m: nat)
    requires m == n + 1
    ensures log + Drops(r, n) + [Dropped(r)] == log + Drops(r, m)
  {
  }

  lemma {:induction false} AliveMembers(q: seq<Packet>, now: Time)
    ensures forall i :: 0 <= i < |Alive(q, now)| ==> Alive(q, now)[i] in q && Alive(q, now)[i].expiry >= now
  {
    if q != [] {
      AliveMembers(q[1..], now);
      assert q == [q[0]] + q[1..];
    }
  }

  ghost predicate NoneExpired(f: Flow, upTo: nat)
    requires Shaped(f) && upTo <= 4
  {
    forall r: Rank, i :: r < upTo && 0 <= i < |f.queues[r]| ==> f.queues[r][i].expiry >= f.now
  }

  /** Replacing one queue and recording n drops for it. */
  lemma {:induction false} CoreReplace(f: Flow, k: Rank, q: seq<Packet>, n: nat, extra: nat, next: nat,
                                       bound: nat, limit: nat, g: Flow)
    requires Core(f, extra, bound) && bound <= limit
    requires g == f.(queues := f.queues[k := q], log := f.log + Drops(k, n))
    requires |f.queues[k]| + extra == |q| + n + next
    requires forall i :: 0 <= i < |q| ==> RankOf(q[i].tx.profile) == k
    requires Rising(SentNumbers(f.log, k) + Numbers(q), limit)
    ensures Core(g, next, limit)
  {
    AheadUpdate(f.queues, 3, k, q);
    AppendDrops(f.log, k, n, 0);
    forall r: Rank ensures InOrder(g, r, limit) {
      AppendDrops(f.log, k, n, r);
      assert InOrder(f, r, bound);
    }
  }

  lemma {:induction false} DropExpiredInCore(
    f: Flow, r: Rank, extra: nat, bound: nat, q: seq<Packet>, alive: seq<Packet>, h: Flow)
    requires Core(f, extra, bound) && NoneExpired(f, r) && q == f.queues[r] && alive == Alive(q, f.now)
    requires |alive| <= |q|
    requires h == f.(queues := f.queues[r := alive], log := f.log + Drops(r, |q| - |alive|))
    ensures Core(h, extra, bound) && NoneExpired(h, r + 1)
  {
    AliveMembers(q, f.now);
    assert InOrder(f, r, bound);
    RisingAlive(SentNumbers(f.log, r), q, f.now, bound);
    CoreReplace(f, r, alive, |q| - |alive|, extra, extra, bound, bound, h);
  }

  lemma {:induction false} DropExpiredFromCore(f: Flow, r: nat, extra: nat, bound: nat, g: Flow)
    requires Core(f, extra, bound) && r <= 4 && NoneExpired(f, r)
    requires g == DropExpiredFrom(f, r)
    ensures Core(g, extra, bound) && NoneExpired(g, 4)
    decreases 4 - r
  {
    if r < 4 {
      var (q, alive) := (f.queues[r], Alive(f.queues[r], f.now));
      AliveLength(q, f.now);
      var h := f.(queues := f.queues[r := alive], log := f.log + Drops(r, |q| - |alive|));
      DropExpiredInCore(f, r, extra, bound, q, alive, h);
      DropExpiredFromCore(h, r + 1, extra, bound, g);
    }
  }

  // ---------------------------------------------------------------- next queue

  /** The delays answered for the front packets from rank r on, with a flag that is false for an empty queue. */
  function Answers(cfg: Config, f: Flow, r: nat): (s: seq<(bool, Duration)>)
    requires Shaped(f) && r <= 4
    ensures |s| == 4 - r
    ensures forall i :: 0 <= i < 4 - r ==> (s[i].0 <==> f.queues[r + i] != [])
    decreases 4 - r
  {
    if r == 4 then []
    else if f.queues[r] == [] then [(false, 0)] + Answers(cfg, f, r + 1)
    else [(true, Delay(cfg, f, f.queues[r][0].tx))] + Answers(cfg, Ask(f, f.queues[r][0].tx), r + 1)
  }

  /**
   * A choice is right for the answers s of the ranks from r on, given an earlier choice `best` with
   * delay `least`: it has the least delay, and the highest priority among those.
   */
  ghost predicate Right(s: seq<(bool, Duration)>, r: nat, best: Choice, least: Duration, c: Choice) {
    if c == best then forall i :: 0 <= i < |s| && s[i].0 ==> least <= s[i].1
    else
      && c.Choose? && r <= c.rank < r + |s|
      && var k := c.rank - r;
         && s[k].0 && s[k].1 == c.delay < least
         && (forall i :: 0 <= i < |s| && s[i].0 ==> s[k].1 <= s[i].1)
         && (forall i :: 0 <= i < k && s[i].0 ==> s[k].1 < s[i].1)
  }

  lemma {:induction false} RightCons(a: (bool, Duration), s: seq<(bool, Duration)>, r: nat,
                                     best: Choice, least: Duration, c: Choice)
    requires r < 4 && (best.Choose? ==> best.rank < r)
    requires if a.0 && a.1 < least then Right(s, r + 1, Choose(r, a.1), a.1, c) else Right(s, r + 1, best, least, c)
    ensures Right([a] + s, r, best, least, c)
  {
    var t := [a] + s;
    assert t[0] == a && forall i :: 1 <= i < |t| ==> t[i] == s[i - 1];
  }

  lemma {:induction false} ScanIsRight(cfg: Config, f: Flow, r: nat, best: Choice, least: Duration)
    requires Shaped(f) && r <= 4 && (best.Choose? ==> best.rank < r)
    ensures Right(Answers(cfg, f, r), r, best, least, ScanFrom(cfg, f, r, best, least).0)
    decreases 4 - r
  {
    if r < 4 {
      var c := ScanFrom(cfg, f, r, best, least).0;
      if f.queues[r] == [] {
        ScanIsRight(cfg, f, r + 1, best, least);
        RightCons((false, 0), Answers(cfg, f, r + 1), r, best, least, c);
      } else {
        var tx := f.queues[r][0].tx;
        var (g, delay) := (Ask(f, tx), Delay(cfg, f, tx));
        if delay < least {
          ScanIsRight(cfg, g, r + 1, Choose(r, delay), delay);
        } else {
          ScanIsRight(cfg, g, r + 1, best, least);
        }
        RightCons((true, delay), Answers(cfg, g, r + 1), r, best, least, c);
      }
    }
  }

  /**
   * The queue chosen next is the one of highest priority among those whose front packet has the least
   * delay; nothing is chosen only if no queue answers less than the largest duration.
   */
  lemma {:induction false} NextQueueIsRight(cfg: Config, f: Flow)
    requires Shaped(f)
    ensures var (s, c) := (Answers(cfg, f, 0), NextQueue(cfg, f).0);
            && (c.Nothing? <==> forall i :: 0 <= i < 4 && s[i].0 ==> s[i].1 >= MAX_DURATION)
            && (c.Choose? ==>
                  && f.queues[c.rank] != [] && s[c.rank].1 == c.delay
                  && (forall i :: 0 <= i < 4 && s[i].0 ==> s[c.rank].1 <= s[i].1)
                  && (forall i :: 0 <= i < c.rank && s[i].0 ==> s[c.rank].1 < s[i].1))
  {
    ScanIsRight(cfg, f, 0, Nothing, MAX_DURATION);
  }

  lemma {:induction false} AnswersPrompt(cfg: Config, f: Flow, r: nat)
    requires Shaped(f) && r <= 4 && Prompt(cfg)
    ensures forall i :: 0 <= i < 4 - r && Answers(cfg, f, r)[i].0 ==> Answers(cfg, f, r)[i].1 < MAX_DURATION
    decreases 4 - r
  {
    if r < 4 {
      AnswersPrompt(cfg, f, r + 1);
      if f.queues[r] != [] {
        AnswersPrompt(cfg, Ask(f, f.queues[r][0].tx), r + 1);
      }
    }
  }

  lemma {:induction false} PromptChooses(cfg: Config, f: Flow)
    requires Shaped(f) && Prompt(cfg) && Queued(f) > 0
    ensures NextQueue(cfg, f).0.Choose?
  {
    NextQueueIsRight(cfg, f);
    AnswersPrompt(cfg, f, 0);
    AheadZero(f.queues, 3);
    var r :| 0 <= r <= 3 && f.queues[r] != [];
    assert Answers(cfg, f, 0)[r].0;
  }

  // ---------------------------------------------------------------- single steps

  ghost predicate Inv(cfg: Config, f: Flow) {
    && cfg.self != 0
    && Core(f, 0, f.requests)
    && (Prompt(cfg) ==> Awake(cfg, f))
  }

  lemma {:induction false} CoreFrame(f: Flow, extra: nat, bound: nat, g: Flow)
    requires Core(f, extra, bound)
    requires g == f.(calls := g.calls, runtime := g.runtime, now := g.now, limit := g.limit)
    ensures Core(g, extra, bound)
  {
    forall r: Rank ensures InOrder(g, r, bound) {
      assert InOrder(f, r, bound);
    }
  }

  lemma {:induction false} CoreMoreRequests(f: Flow, g: Flow)
    requires Core(f, 0, f.requests) && g == f.(requests := f.requests + 1)
    ensures Core(g, 1, f.requests)
  {
    forall r: Rank ensures InOrder(g, r, f.requests) {
      assert InOrder(f, r, f.requests);
    }
  }

  lemma {:induction false} EnqueueQueue(a: seq<nat>, q: seq<Packet>, n: nat, p: Packet)
    requires n <= |q| && Rising(a + Numbers(q), p.number)
    ensures Rising(a + Numbers(q[n..] + [p]), p.number + 1)
  {
    RisingDrop(a, q, n, p.number);
    assert a + Numbers(q[n..] + [p]) == a + Numbers(q[n..]) + [p.number];
  }

  lemma {:induction false} EnqueueCore(f: Flow, p: Packet, r: Rank, q: seq<Packet>, n: nat, e: Flow)
    requires Core(f, 1, p.number) && f.requests == p.number + 1 && r == RankOf(p.tx.profile)
    requires n <= |f.queues[r]| && q == f.queues[r][n..] + [p]
    requires e == f.(queues := f.queues[r := q], log := f.log + Drops(r, n))
    ensures Core(e, 0, e.requests)
  {
    assert InOrder(f, r, p.number);
    EnqueueQueue(SentNumbers(f.log, r), f.queues[r], n, p);
    CoreReplace(f, r, q, n, 1, 0, p.number, p.number + 1, e);
  }

  /** The first packet to wait has a trigger scheduled; later ones find one pending. */
  lemma {:induction false} EnqueueAwake(cfg: Config, f: Flow, e: Flow, tx: Transmission, g: Flow)
    requires cfg.self != 0 && Shaped(f) && Core(e, 0, e.requests) && e.runtime == f.runtime
    requires Prompt(cfg) ==> Awake(cfg, f)
    requires g == if Queued(f) == 0 then ScheduleTrigger(cfg, e, tx) else e
    ensures Inv(cfg, g)
  {
    if Queued(f) == 0 {
      CoreFrame(e, 0, e.requests, g);
      ScheduledPending(e.runtime, Scheduled(e.now + Delay(cfg, e, tx), cfg.self));
    }
  }

  lemma {:induction false} EnqueueInv(cfg: Config, f: Flow, p: Packet, g: Flow)
    requires cfg.self != 0 && Core(f, 1, p.number) && f.requests == p.number + 1
    requires Prompt(cfg) ==> Awake(cfg, f)
    requires g == Enqueue(cfg, f, p)
    ensures Inv(cfg, g)
  {
    var r := RankOf(p.tx.profile);
    var n := Excess(f.queues[r], f.limit);
    var q := f.queues[r][n..] + [p];
    var e := f.(queues := f.queues[r := q], log := f.log + Drops(r, n));
    EnqueueCore(f, p, r, q, n, e);
    EnqueueAwake(cfg, f, e, p.tx, g);
  }

  lemma {:induction false} ScheduledPending(q: seq<Scheduled>, e: Scheduled)
    ensures Pending(Scheduling(q, e), e.scope) != []
  {
    PendingMember(Scheduling(q, e), e.scope, e.deadline);
    SplicedAt(q, UpperBound(q, e.deadline), e, UpperBound(q, e.deadline));
  }

  lemma {:induction false} RisingUpTo(s: seq<nat>, bound: nat, limit: nat)
    requires Rising(s, bound) && bound <= limit
    ensures Rising(s, limit)
  {
  }

  /** A transmission keeps the order of its own and of every other category. */
  lemma {:induction false} SentInOrder(f: Flow, ev: Event, r: Rank, bound: nat, g: Flow)
    requires Shaped(f) && Shaped(g) && ev.Sent? && InOrder(f, r, bound) && bound <= f.requests == g.requests
    requires Rising(SentNumbers(f.log, ev.rank) + [ev.number] + Numbers(f.queues[ev.rank]), f.requests)
    requires g.queues == f.queues && g.log == f.log + [ev]
    ensures InOrder(g, r, g.requests)
  {
    Append(f.log, ev, r);
    if r != ev.rank {
      RisingUpTo(SentNumbers(f.log, r) + Numbers(f.queues[r]), bound, g.requests);
    }
  }

  lemma {:induction false} SentCore(f: Flow, ev: Event, bound: nat, g: Flow)
    requires Core(f, 1, bound) && bound <= f.requests && ev.Sent? && SoundEvent(ev)
    requires Rising(SentNumbers(f.log, ev.rank) + [ev.number] + Numbers(f.queues[ev.rank]), f.requests)
    requires g == f.(log := f.log + [ev])
    ensures Core(g, 0, g.requests)
  {
    Append(f.log, ev, 0);
    forall r: Rank ensures InOrder(g, r, g.requests) {
      SentInOrder(f, ev, r, bound, g);
    }
  }

  /** A packet is sent from nowhere (extra = 1) or from the front of its queue. */
  lemma {:induction false} TransmitCore(
    f: Flow, p: Packet, immediate: bool, delay: Duration, bound: nat, g: Flow)
    requires Core(f, 1, bound) && g == Transmit(f, p, immediate, delay)
    requires Rising(SentNumbers(f.log, RankOf(p.tx.profile)) + [p.number]
                    + Numbers(f.queues[RankOf(p.tx.profile)]), f.requests)
    requires bound <= f.requests
    requires if immediate then Ahead(f.queues, RankOf(p.tx.profile)) == 0 == delay else f.now <= p.expiry
    ensures Core(g, 0, g.requests)
  {
    var k := RankOf(p.tx.profile);
    SentCore(f, Sent(p.number, k, f.now, p.expiry, immediate, Ahead(f.queues, k), delay), bound, g);
  }

  /** Without contention the packet is sent at once if the rate control agrees, else it is queued. */
  lemma {:induction false} RequestInv(cfg: Config, f: Flow, tx: Transmission, lifetime: Duration, g: Flow)
    requires Inv(cfg, f) && g == Request(cfg, f, tx, lifetime)
    ensures Inv(cfg, g)
  {
    var d := DropExpired(f).(requests := f.requests + 1);
    RequestCore(cfg, f, DropExpired(f), d);
    AdmitInv(cfg, d, Packet(f.requests, tx, ExpiryOf(f.now, lifetime)), g);
  }

  lemma {:induction false} RequestIs(cfg: Config, f: Flow, tx: Transmission, lifetime: Duration, p: Packet, d: Flow)
    requires Shaped(f) && d == DropExpired(f).(requests := f.requests + 1)
    requires p == Packet(f.requests, tx, ExpiryOf(f.now, lifetime))
    ensures Request(cfg, f, tx, lifetime) == Admit(cfg, d, p)
  {
  }

  lemma {:induction false} RequestCore(cfg: Config, f: Flow, d0: Flow, d: Flow)
    requires Inv(cfg, f) && d0 == DropExpired(f) && d == d0.(requests := f.requests + 1)
    ensures Core(d, 1, f.requests) && (Prompt(cfg) ==> Awake(cfg, d))
  {
    DropExpiredFromCore(f, 0, 0, f.requests, d0);
    CoreMoreRequests(d0, d);
    DropExpiredAwake(cfg, f, d0);
  }

  lemma {:induction false} AdmitInv(cfg: Config, d: Flow, p: Packet, g: Flow)
    requires cfg.self != 0 && Core(d, 1, p.number) && d.requests == p.number + 1
    requires Prompt(cfg) ==> Awake(cfg, d)
    requires g == Admit(cfg, d, p)
    ensures Inv(cfg, g)
  {
    var a := Ask(d, p.tx);
    CoreFrame(d, 1, p.number, a);
    if Ahead(d.queues, RankOf(p.tx.profile)) != 0 {
      EnqueueInv(cfg, d, p, g);
    } else if Delay(cfg, d, p.tx) != 0 {
      EnqueueInv(cfg, a, p, g);
    } else {
      CoreFrame(d, 1, p.number, Notify(a, p.tx));
      ImmediateInv(cfg, Notify(a, p.tx), p, g);
    }
  }

  lemma {:induction false} ImmediateInv(cfg: Config, f: Flow, p: Packet, g: Flow)
    requires cfg.self != 0 && Core(f, 1, p.number) && f.requests == p.number + 1
    requires Prompt(cfg) ==> Awake(cfg, f)
    requires Ahead(f.queues, RankOf(p.tx.profile)) == 0 && g == Transmit(f, p, true, 0)
    ensures Inv(cfg, g)
  {
    var k := RankOf(p.tx.profile);
    AheadZero(f.queues, k);
    assert InOrder(f, k, p.number);
    assert Numbers(f.queues[k]) == [];
    assert SentNumbers(f.log, k) + Numbers(f.queues[k]) == SentNumbers(f.log, k);
    TransmitCore(f, p, true, 0, p.number, g);
  }

  lemma {:induction false} DropExpiredShrinks(f: Flow, r: nat)
    requires Shaped(f) && r <= 4
    ensures Queued(DropExpiredFrom(f, r)) <= Queued(f)
    decreases 4 - r
  {
    if r < 4 {
      var (q, alive) := (f.queues[r], Alive(f.queues[r], f.now));
      AliveLength(q, f.now);
      AheadUpdate(f.queues, 3, r, alive);
      DropExpiredShrinks(f.(queues := f.queues[r := alive], log := f.log + Drops(r, |q| - |alive|)), r + 1);
    }
  }

  lemma {:induction false} DropExpiredAwake(cfg: Config, f: Flow, g: Flow)
    requires Shaped(f) && g == DropExpired(f)
    ensures Awake(cfg, f) ==> Awake(cfg, g)
  {
    DropExpiredShrinks(f, 0);
  }

  lemma {:induction false} DequeueIs(cfg: Config, f: Flow, c: Choice, a: Flow)
    requires Shaped(f) && (c, a) == NextQueue(cfg, f) && c.Choose?
    ensures f.queues[c.rank] != []
    ensures var p := f.queues[c.rank][0];
            Dequeue(cfg, f) == Transmit(
              Notify(a.(queues := f.queues[c.rank := f.queues[c.rank][1..]]), p.tx), p, false, c.delay)
  {
    ScanFromNonEmpty(cfg, f, 0, Nothing, MAX_DURATION);
  }

  lemma {:induction false} ScheduleNextIs(cfg: Config, f: Flow, c: Choice, a: Flow)
    requires Shaped(f) && (c, a) == NextQueue(cfg, f) && c.Choose?
    ensures f.queues[c.rank] != []
    ensures ScheduleNext(cfg, f) == ScheduleTrigger(cfg, a, f.queues[c.rank][0].tx)
  {
    ScanFromNonEmpty(cfg, f, 0, Nothing, MAX_DURATION);
  }

  lemma {:induction false} DequeueCore(cfg: Config, f: Flow, g: Flow)
    requires Core(f, 0, f.requests) && NoneExpired(f, 4) && g == Dequeue(cfg, f)
    ensures Core(g, 0, g.requests)
  {
    var (c, a) := NextQueue(cfg, f);
    ScanFromNonEmpty(cfg, f, 0, Nothing, MAX_DURATION);
    CoreFrame(f, 0, f.requests, a);
    if c.Choose? {
      var p := a.queues[c.rank][0];
      TakeFront(a, c.rank, a.(queues := a.queues[c.rank := a.queues[c.rank][1..]]));
      var t := Notify(a.(queues := a.queues[c.rank := a.queues[c.rank][1..]]), p.tx);
      CoreFrame(a.(queues := a.queues[c.rank := a.queues[c.rank][1..]]), 1, a.requests, t);
      TransmitCore(t, p, false, c.delay, t.requests, g);
    }
  }

  lemma {:induction false} TakeFront(f: Flow, k: Rank, g: Flow)
    requires Core(f, 0, f.requests) && f.queues[k] != [] && g == f.(queues := f.queues[k := f.queues[k][1..]])
    ensures Core(g, 1, g.requests)
    ensures RankOf(f.queues[k][0].tx.profile) == k
    ensures Rising(SentNumbers(f.log, k) + [f.queues[k][0].number] + Numbers(g.queues[k]), f.requests)
  {
    var q := f.queues[k];
    assert InOrder(f, k, f.requests);
    RisingShorter(SentNumbers(f.log, k), q, f.requests);
    assert f.log + Drops(k, 0) == f.log;
    CoreReplace(f, k, q[1..], 0, 0, 1, f.requests, f.requests, g);
    assert SentNumbers(f.log, k) + Numbers(q) == SentNumbers(f.log, k) + [q[0].number] + Numbers(q[1..]);
  }

  lemma {:induction false} ScheduleNextInv(cfg: Config, f: Flow, g: Flow)
    requires cfg.self != 0 && Core(f, 0, f.requests) && g == ScheduleNext(cfg, f)
    ensures Inv(cfg, g)
  {
    var (c, a) := NextQueue(cfg, f);
    ScanFromNonEmpty(cfg, f, 0, Nothing, MAX_DURATION);
    CoreFrame(f, 0, f.requests, g);
    if c.Choose? {
      ScheduledPending(a.runtime, Scheduled(a.now + Delay(cfg, a, a.queues[c.rank][0].tx), cfg.self));
    } else if Prompt(cfg) && Queued(f) > 0 {
      PromptChooses(cfg, f);
    }
  }

  lemma {:induction false} TriggerInv(cfg: Config, f: Flow, g: Flow)
    requires cfg.self != 0 && Core(f, 0, f.requests) && g == Trigger(cfg, f)
    ensures Inv(cfg, g)
  {
    var d := DropExpired(f);
    DropExpiredFromCore(f, 0, 0, f.requests, d);
    var e := Dequeue(cfg, d);
    DequeueCore(cfg, d, e);
    ScheduleNextInv(cfg, e, g);
  }

  /**
   * A trigger sends exactly one packet if a queue can be chosen, and none otherwise. One can be chosen
   * as long as an unexpired packet waits, unless the rate control answers the largest duration.
   */
  lemma {:induction false} TriggerSends(cfg: Config, f: Flow, d: Flow, c: Choice, g: Flow)
    requires Shaped(f) && d == DropExpired(f) && c == NextQueue(cfg, d).0 && g == Trigger(cfg, f)
    ensures if c.Choose? then Sends(g.log) == Sends(d.log) + 1 && Queued(g) == Queued(d) - 1
            else g.log == d.log && g.queues == d.queues
    ensures Queued(d) == 0 ==> c.Nothing? && g.runtime == f.runtime
    ensures Queued(d) > 0 && Prompt(cfg) ==> c.Choose?
  {
    var e := Dequeue(cfg, d);
    ScanFromNonEmpty(cfg, d, 0, Nothing, MAX_DURATION);
    ScanFromNonEmpty(cfg, e, 0, Nothing, MAX_DURATION);
    if c.Choose? {
      AheadUpdate(d.queues, 3, c.rank, d.queues[c.rank][1..]);
      Append(d.log, e.log[|d.log|], 0);
    }
    if Queued(d) == 0 {
      AheadZero(d.queues, 3);
      AheadZero(e.queues, 3);
    } else if Prompt(cfg) {
      PromptChooses(cfg, d);
    }
  }

  lemma {:induction false} RescheduleInv(cfg: Config, f: Flow, g: Flow)
    requires Inv(cfg, f) && g == Reschedule(cfg, f)
    ensures Inv(cfg, g)
  {
    var (c, a) := NextQueue(cfg, f);
    ScanFromNonEmpty(cfg, f, 0, Nothing, MAX_DURATION);
    CoreFrame(f, 0, f.requests, g);
    if c.Choose? {
      var b := a.(runtime := Cancelled(a.runtime, cfg.self));
      ScheduledPending(b.runtime, Scheduled(b.now + Delay(cfg, b, a.queues[c.rank][0].tx), cfg.self));
    }
  }

  // ---------------------------------------------------------------- runs

  /** PopDue is one round of the runtime's trigger loop. */
  datatype Op =
    | Submit(tx: Transmission, lifetime: Duration)
    | PopDue
    | Reevaluate
    | SetLimit(n: nat)
    | Advance(d: nat)
    | Elsewhere(deadline: Time, scope: Scope)

  function Popped(cfg: Config, f: Flow): (g: Flow)
    requires Shaped(f)
    ensures Shaped(g)
  {
    if f.runtime == [] || f.runtime[0].deadline > f.now then f
    else if f.runtime[0].scope == cfg.self then Trigger(cfg, f.(runtime := f.runtime[1..]))
    else f.(runtime := f.runtime[1..])
  }

  function Step(cfg: Config, f: Flow, op: Op): (g: Flow)
    requires Shaped(f)
    ensures Shaped(g)
  {
    match op
    case Submit(tx, lifetime) => Request(cfg, f, tx, lifetime)
    case PopDue => Popped(cfg, f)
    case Reevaluate => Reschedule(cfg, f)
    case SetLimit(n) => f.(limit := n)
    case Advance(d) => f.(now := f.now + d)
    case Elsewhere(deadline, scope) =>
      if scope == cfg.self then f else f.(runtime := Scheduling(f.runtime, Scheduled(deadline, scope)))
  }

  lemma {:induction false} PoppedInv(cfg: Config, f: Flow, g: Flow)
    requires Inv(cfg, f) && g == Popped(cfg, f)
    ensures Inv(cfg, g)
  {
    if f.runtime != [] && f.runtime[0].deadline <= f.now {
      var h := f.(runtime := f.runtime[1..]);
      CoreFrame(f, 0, f.requests, h);
      if f.runtime[0].scope == cfg.self {
        TriggerInv(cfg, h, g);
      }
    }
  }

  lemma {:induction false} StepInv(cfg: Config, f: Flow, op: Op, g: Flow)
    requires Inv(cfg, f) && g == Step(cfg, f, op)
    ensures Inv(cfg, g)
  {
    match op
    case Submit(tx, lifetime) => RequestInv(cfg, f, tx, lifetime, g);
    case PopDue => PoppedInv(cfg, f, g);
    case Reevaluate => RescheduleInv(cfg, f, g);
    case SetLimit(n) => CoreFrame(f, 0, f.requests, g);
    case Advance(d) => CoreFrame(f, 0, f.requests, g);
    case Elsewhere(deadline, scope) =>
      CoreFrame(f, 0, f.requests, g);
      SchedulingPending(f.runtime, Scheduled(deadline, scope), cfg.self);
  }

  function Run(cfg: Config, f: Flow, ops: seq<Op>): (g: Flow)
    requires Shaped(f)
    ensures Shaped(g)
    decreases |ops|
  {
    if ops == [] then f else Run(cfg, Step(cfg, f, ops[0]), ops[1..])
  }

  function Initial(now: Time, runtime: seq<Scheduled>): Flow {
    Flow([[], [], [], []], 0, now, runtime, [], 0, [])
  }

  lemma {:induction false} RunInv(cfg: Config, f: Flow, ops: seq<Op>)
    requires Inv(cfg, f)
    ensures Inv(cfg, Run(cfg, f, ops))
    decreases |ops|
  {
    if ops != [] {
      StepInv(cfg, f, ops[0], Step(cfg, f, ops[0]));
      RunInv(cfg, Step(cfg, f, ops[0]), ops[1..]);
    }
  }

  lemma {:induction false} InitialInv(cfg: Config, now: Time, runtime: seq<Scheduled>)
    requires cfg.self != 0
    ensures Inv(cfg, Initial(now, runtime))
  {
  }

  /** Every request has been sent, or reported as dropped, or is still waiting. */
  lemma {:induction false} RunConserves(cfg: Config, now: Time, runtime: seq<Scheduled>, ops: seq<Op>)
    requires cfg.self != 0
    ensures var f := Run(cfg, Initial(now, runtime), ops);
            f.requests == Sends(f.log) + DropCalls(f.log) + Queued(f)
  {
    InitialInv(cfg, now, runtime);
    RunInv(cfg, Initial(now, runtime), ops);
  }

  /** Each category is served in request order, and what still waits was requested later. */
  lemma {:induction false} RunKeepsOrder(cfg: Config, now: Time, runtime: seq<Scheduled>, ops: seq<Op>, r: Rank)
    requires cfg.self != 0
    ensures var f := Run(cfg, Initial(now, runtime), ops);
            && Rising(SentNumbers(f.log, r), f.requests)
            && forall i, j :: 0 <= i < |SentNumbers(f.log, r)| && 0 <= j < |f.queues[r]| ==>
                 SentNumbers(f.log, r)[i] < f.queues[r][j].number
  {
    InitialInv(cfg, now, runtime);
    RunInv(cfg, Initial(now, runtime), ops);
    var f := Run(cfg, Initial(now, runtime), ops);
    assert InOrder(f, r, f.requests);
    RisingSplit(SentNumbers(f.log, r), Numbers(f.queues[r]), f.requests);
  }

  lemma {:induction false} RisingSplit(a: seq<nat>, b: seq<nat>, bound: nat)
    requires Rising(a + b, bound)
    ensures Rising(a, bound)
    ensures forall i, j :: 0 <= i < |a| && 0 <= j < |b| ==> a[i] < b[j]
  {
    var s := a + b;
    assert forall i :: 0 <= i < |a| ==> s[i] == a[i];
    forall i, j | 0 <= i < |a| && 0 <= j < |b| ensures a[i] < b[j] {
      assert s[i] < s[|a| + j];
    }
  }

  /**
   * No transmission is late or jumps the queue: immediate ones had nothing of equal or higher priority
   * waiting, queued ones left before their expiry.
   */
  lemma {:induction false} RunSendsInTime(cfg: Config, now: Time, runtime: seq<Scheduled>, ops: seq<Op>, i: nat)
    requires cfg.self != 0
    requires i < |Run(cfg, Initial(now, runtime), ops).log|
    ensures var e := Run(cfg, Initial(now, runtime), ops).log[i];
            e.Sent? ==> if e.immediate then e.ahead == 0 && e.delay == 0 else e.at <= e.expiry
  {
    InitialInv(cfg, now, runtime);
    RunInv(cfg, Initial(now, runtime), ops);
  }

  /** If the rate control never answers the largest duration, a waiting packet has a trigger pending. */
  lemma {:induction false} RunStaysAwake(cfg: Config, now: Time, runtime: seq<Scheduled>, ops: seq<Op>)
    requires cfg.self != 0 && Prompt(cfg)
    ensures var f := Run(cfg, Initial(now, runtime), ops);
            Queued(f) > 0 ==> Pending(f.runtime, cfg.self) != []
  {
    InitialInv(cfg, now, runtime);
    RunInv(cfg, Initial(now, runtime), ops);
  }
}
