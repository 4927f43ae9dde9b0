/**
 * A run in which a queued packet is sent ahead of its time: the trigger of an expired packet stays
 * pending beside that of the next one, so that two packets are sent at the opening of the gate.
 */
module FlowStale {
  import opened Sequences
  import opened Runtime
  import opened FlowModel
  import opened FlowRuns
  import opened FlowGates

  /** Only the queue of the highest priority is in use. */
  function First(q: seq<Packet>): (r: seq<seq<Packet>>)
    ensures |r| == 4
  {
    [q, [], [], []]
  }

  /** What matters of a state in which there is no limit and only voice packets wait. */
  ghost predicate Looks(
    f: Flow, q: seq<Packet>, now: Time, requests: nat, runtime: seq<Scheduled>, notices: seq<Call>)
  {
    && f == Flow(First(q), 0, now, runtime, f.calls, requests, f.log)
    && Notices(f.calls) == notices
  }

  lemma {:induction false} DropNone(f: Flow, r: nat)
    requires Shaped(f) && r < 4 && f.queues[r] == []
    ensures DropExpiredFrom(f, r) == DropExpiredFrom(f, r + 1)
  {
    assert f.queues[r := []] == f.queues;
    assert f.log + Drops(r, 0) == f.log;
  }

  lemma {:induction false} DropFirst(f: Flow, q: seq<Packet>)
    requires f.queues == First(q)
    ensures |Alive(q, f.now)| <= |q|
    ensures DropExpired(f).queues == First(Alive(q, f.now))
    ensures DropExpired(f).log == f.log + Drops(0, |q| - |Alive(q, f.now)|)
  {
    AliveLength(q, f.now);
    var g := f.(queues := First(Alive(q, f.now)), log := f.log + Drops(0, |q| - |Alive(q, f.now)|));
    assert f.queues[0 := Alive(q, f.now)] == g.queues;
    DropNone(g, 3);
    DropNone(g, 2);
    DropNone(g, 1);
  }

  // ---------------------------------------------------------------- requests

  lemma {:induction false} SentAtOnce(cfg: Config, opening: seq<Call> -> Time, f: Flow, p: Packet, g: Flow)
    requires Gated(cfg, opening)
    requires f.queues == First([]) && f.limit == 0 && Opens(opening, f) <= f.now && p.tx.profile == DP0
    requires g == Admit(cfg, f, p)
    ensures Looks(g, [], f.now, f.requests, f.runtime, Notices(f.calls) + [Notified(f.now, p.tx)])
  {
    NoticesAppend(f.calls, Asked(f.now, p.tx));
    NoticesAppend(Ask(f, p.tx).calls, Notified(f.now, p.tx));
  }

  lemma {:induction false} FirstEnqueued(cfg: Config, opening: seq<Call> -> Time, f: Flow, p: Packet, g: Flow)
    requires Gated(cfg, opening)
    requires f.queues == First([]) && f.limit == 0 && f.now < Opens(opening, f) && p.tx.profile == DP0
    requires g == Enqueue(cfg, f, p)
    ensures Looks(g, [p], f.now, f.requests,
                  Scheduling(f.runtime, Scheduled(Opens(opening, f), cfg.self)), Notices(f.calls))
  {
    NoticesAppend(f.calls, Asked(f.now, p.tx));
    AheadZero(f.queues, 3);
    AddNothing([p]);
    assert f.queues[0 := [p]] == First([p]);
  }

  /** A request while nothing waits is queued, and a trigger is scheduled for the opening. */
  lemma {:induction false} FirstQueued(cfg: Config, opening: seq<Call> -> Time, f: Flow, p: Packet, g: Flow)
    requires Gated(cfg, opening)
    requires f.queues == First([]) && f.limit == 0 && f.now < Opens(opening, f) && p.tx.profile == DP0
    requires g == Admit(cfg, f, p)
    ensures Looks(g, [p], f.now, f.requests,
                  Scheduling(f.runtime, Scheduled(Opens(opening, f), cfg.self)), Notices(f.calls))
  {
    NoticesAppend(f.calls, Asked(f.now, p.tx));
    FirstEnqueued(cfg, opening, Ask(f, p.tx), p, g);
  }

  /** Behind another one it just waits. */
  lemma {:induction false} NextQueued(cfg: Config, opening: seq<Call> -> Time, f: Flow, o: Packet, p: Packet, g: Flow)
    requires Gated(cfg, opening)
    requires f.queues == First([o]) && f.limit == 0 && p.tx.profile == DP0 && g == Admit(cfg, f, p)
    ensures Looks(g, [o, p], f.now, f.requests, f.runtime, Notices(f.calls))
  {
    AheadZero(f.queues, 0);
    AheadZero(f.queues, 3);
    assert f.queues[0][0..] + [p] == [o, p];
    assert f.queues[0 := [o, p]] == First([o, p]);
    assert f.log + Drops(0, 0) == f.log;
  }

  // ---------------------------------------------------------------- triggers

  lemma {:induction false} ScanFirst(
    cfg: Config, opening: seq<Call> -> Time, f: Flow, q: seq<Packet>, wait: Duration, c: Choice, a: Flow)
    requires Gated(cfg, opening)
    requires f.queues == First(q) && q != [] && wait == Wait(Opens(opening, f), f.now) < MAX_DURATION
    requires (c, a) == NextQueue(cfg, f)
    ensures c == Choose(0, wait) && a == f.(calls := a.calls) && Notices(a.calls) == Notices(f.calls)
  {
    ChosenBehindGate(cfg, opening, f, 0, wait, c, a);
    OnlyFirst(q, c.rank);
  }

  lemma {:induction false} OnlyFirst(q: seq<Packet>, r: Rank)
    ensures First(q)[r] != [] ==> r == 0
  {
  }

  lemma {:induction false} FirstSent(a: Flow, p: Packet, q: seq<Packet>, wait: Duration, g: Flow)
    requires a.queues == First(q) && a.limit == 0 && p.tx.profile == DP0
    requires g == Transmit(Notify(a, p.tx), p, false, wait)
    ensures Looks(g, q, a.now, a.requests, a.runtime, Notices(a.calls) + [Notified(a.now, p.tx)])
    ensures g.log == a.log + [Sent(p.number, 0, a.now, p.expiry, false, |q|, wait)]
  {
    NoticesAppend(a.calls, Notified(a.now, p.tx));
  }

  lemma {:induction false} FirstDequeued(
    cfg: Config, opening: seq<Call> -> Time, f: Flow, s: seq<Packet>, q: seq<Packet>, wait: Duration, g: Flow)
    requires Gated(cfg, opening)
    requires f.queues == First(s) && s != [] && s[1..] == q && s[0].tx.profile == DP0 && f.limit == 0
    requires wait == Wait(Opens(opening, f), f.now) < MAX_DURATION && g == Dequeue(cfg, f)
    ensures Looks(g, q, f.now, f.requests, f.runtime, Notices(f.calls) + [Notified(f.now, s[0].tx)])
    ensures g.log == f.log + [Sent(s[0].number, 0, f.now, s[0].expiry, false, |q|, wait)]
  {
    var (c, a) := NextQueue(cfg, f);
    ScanFirst(cfg, opening, f, s, wait, c, a);
    DequeueIs(cfg, f, c, a);
    assert f.queues[0 := q] == First(q);
    FirstSent(a.(queues := First(q)), s[0], q, wait, g);
  }

  /** If another packet waits, a trigger is scheduled for the new opening. */
  lemma {:induction false} NextScheduled(cfg: Config, opening: seq<Call> -> Time, f: Flow, p: Packet, g: Flow)
    requires Gated(cfg, opening)
    requires f.queues == First([p]) && f.limit == 0 && f.now < Opens(opening, f) < f.now + MAX_DURATION
    requires g == ScheduleNext(cfg, f)
    ensures Looks(g, [p], f.now, f.requests,
                  Scheduling(f.runtime, Scheduled(Opens(opening, f), cfg.self)), Notices(f.calls))
  {
    var (c, a) := NextQueue(cfg, f);
    ScanFirst(cfg, opening, f, [p], Opens(opening, f) - f.now, c, a);
    ScheduleNextIs(cfg, f, c, a);
    ScheduledForOpening(cfg, opening, a, p.tx, g);
  }

  lemma {:induction false} TriggeredFirst(
    cfg: Config, opening: seq<Call> -> Time, f: Flow, s: seq<Packet>, q: seq<Packet>, wait: Duration, d: Flow, g: Flow)
    requires Gated(cfg, opening)
    requires f.queues == First(s) && s != [] && s[1..] == q && s[0].tx.profile == DP0 && f.limit == 0
    requires Alive(s, f.now) == s
    requires wait == Wait(Opens(opening, f), f.now) < MAX_DURATION
    requires d == Dequeue(cfg, DropExpired(f)) && g == Trigger(cfg, f)
    ensures Looks(d, q, f.now, f.requests, f.runtime, Notices(f.calls) + [Notified(f.now, s[0].tx)])
    ensures |g.log| > 0 && g.log[|g.log| - 1] == Sent(s[0].number, 0, f.now, s[0].expiry, false, |q|, wait)
  {
    DropFirst(f, s);
    FirstDequeued(cfg, opening, DropExpired(f), s, q, wait, d);
    NextBehindGate(cfg, opening, d, g);
  }

  // ---------------------------------------------------------------- steps of a run

  /** What a request finds after the expired packets are gone. */
  lemma {:induction false} RequestStep(cfg: Config, f: Flow, q: seq<Packet>, alive: seq<Packet>, now: Time, p: Packet,
                                       runtime: seq<Scheduled>, notices: seq<Call>, l: Duration)
    returns (d: Flow)
    requires Looks(f, q, now, p.number, runtime, notices) && Alive(q, now) == alive && p.expiry == now + l
    ensures Looks(d, alive, now, p.number + 1, runtime, notices)
    ensures Becomes(cfg, f, [Submit(p.tx, l)], Admit(cfg, d, p))
  {
    d := DropExpired(f).(requests := p.number + 1);
    DropFirst(f, q);
    StepBecomes(cfg, f, Submit(p.tx, l), Admit(cfg, d, p));
  }

  lemma {:induction false} SendStep(cfg: Config, opening: seq<Call> -> Time, f: Flow, now: Time, p: Packet,
                                    runtime: seq<Scheduled>, notices: seq<Call>, l: Duration)
    returns (g: Flow)
    requires Gated(cfg, opening) && Looks(f, [], now, p.number, runtime, notices)
    requires opening(notices) <= now && p.tx.profile == DP0 && p.expiry == now + l
    ensures Looks(g, [], now, p.number + 1, runtime, notices + [Notified(now, p.tx)])
    ensures Becomes(cfg, f, [Submit(p.tx, l)], g)
  {
    var d := RequestStep(cfg, f, [], [], now, p, runtime, notices, l);
    g := Admit(cfg, d, p);
    SentAtOnce(cfg, opening, d, p, g);
  }

  /** Whatever waited has expired, but not its trigger. */
  lemma {:induction false} FirstStep(cfg: Config, opening: seq<Call> -> Time, f: Flow, q: seq<Packet>,
                                     now: Time, runtime: seq<Scheduled>, notices: seq<Call>, p: Packet, l: Duration)
    returns (g: Flow)
    requires Gated(cfg, opening) && Looks(f, q, now, p.number, runtime, notices) && Alive(q, now) == []
    requires now < opening(notices) && p.tx.profile == DP0 && p.expiry == now + l
    ensures Looks(g, [p], now, p.number + 1, Scheduling(runtime, Scheduled(opening(notices), cfg.self)), notices)
    ensures Becomes(cfg, f, [Submit(p.tx, l)], g)
  {
    var d := RequestStep(cfg, f, q, [], now, p, runtime, notices, l);
    g := Admit(cfg, d, p);
    FirstQueued(cfg, opening, d, p, g);
  }

  lemma {:induction false} NextStep(cfg: Config, opening: seq<Call> -> Time, f: Flow, o: Packet,
                                    now: Time, runtime: seq<Scheduled>, notices: seq<Call>, p: Packet, l: Duration)
    returns (g: Flow)
    requires Gated(cfg, opening) && Looks(f, [o], now, p.number, runtime, notices) && now <= o.expiry
    requires p.tx.profile == DP0 && p.expiry == now + l
    ensures Looks(g, [o, p], now, p.number + 1, runtime, notices)
    ensures Becomes(cfg, f, [Submit(p.tx, l)], g)
  {
    AliveTwo(o, o, now);
    var d := RequestStep(cfg, f, [o], [o], now, p, runtime, notices, l);
    g := Admit(cfg, d, p);
    NextQueued(cfg, opening, d, o, p, g);
  }

  lemma {:induction false} AdvanceStep(cfg: Config, f: Flow, q: seq<Packet>, now: Time, n: nat, runtime: seq<Scheduled>,
                                       notices: seq<Call>, d: nat)
    returns (g: Flow)
    requires Looks(f, q, now, n, runtime, notices)
    ensures Looks(g, q, now + d, n, runtime, notices)
    ensures Becomes(cfg, f, [Advance(d)], g)
  {
    g := Step(cfg, f, Advance(d));
    StepBecomes(cfg, f, Advance(d), g);
  }

  /** A trigger sends the first packet, in time or not. */
  lemma {:induction false} PopStep(cfg: Config, opening: seq<Call> -> Time, f: Flow, s: seq<Packet>,
                                   q: seq<Packet>, runtime: seq<Scheduled>, d: Flow, g: Flow)
    requires Gated(cfg, opening) && f.queues == First(s) && f.limit == 0 && f.runtime == runtime
    requires s != [] && s[1..] == q && s[0].tx.profile == DP0 && Alive(s, f.now) == s
    requires runtime != [] && runtime[0].scope == cfg.self && runtime[0].deadline <= f.now
    requires Wait(Opens(opening, f), f.now) < MAX_DURATION && g == Step(cfg, f, PopDue)
    requires d == Dequeue(cfg, DropExpired(f.(runtime := runtime[1..])))
    ensures g == ScheduleNext(cfg, d)
    ensures Looks(d, q, f.now, f.requests, runtime[1..], Notices(f.calls) + [Notified(f.now, s[0].tx)])
    ensures |g.log| > 0
    ensures g.log[|g.log| - 1] == Sent(s[0].number, 0, f.now, s[0].expiry, false, |q|, Wait(Opens(opening, f), f.now))
  {
    TriggeredFirst(cfg, opening, f.(runtime := runtime[1..]), s, q, Wait(Opens(opening, f), f.now), d, g);
  }

  /** The first of two packets is sent, which closes the gate. */
  lemma {:induction false} FirstOfTwo(cfg: Config, opening: seq<Call> -> Time, f: Flow, p: Packet, q: Packet,
                                      now: Time, n: nat, e: Scheduled, notices: seq<Call>, later: seq<Call>)
    returns (g: Flow)
    requires Gated(cfg, opening) && Looks(f, [p, q], now, n, [e, e], notices) && p.tx.profile == DP0
    requires e.scope == cfg.self && e.deadline <= now <= p.expiry && now <= q.expiry
    requires Wait(opening(notices), now) < MAX_DURATION && later == notices + [Notified(now, p.tx)]
    requires now < opening(later) < now + MAX_DURATION
    ensures Looks(g, [q], now, n, Scheduling([e], Scheduled(opening(later), cfg.self)), later)
    ensures Becomes(cfg, f, [PopDue], g)
  {
    AliveTwo(p, q, now);
    Pair(e, e);
    Pair(p, q);
    g := Step(cfg, f, PopDue);
    var d := Dequeue(cfg, DropExpired(f.(runtime := [e])));
    PopStep(cfg, opening, f, [p, q], [q], [e, e], d, g);
    NextScheduled(cfg, opening, d, q, g);
    StepBecomes(cfg, f, PopDue, g);
  }

  /** The other one is sent although it is closed. */
  lemma {:induction false} SecondOfTwo(cfg: Config, opening: seq<Call> -> Time, f: Flow, q: Packet, now: Time,
                                       n: nat, runtime: seq<Scheduled>, notices: seq<Call>)
    returns (g: Flow)
    requires Gated(cfg, opening) && Looks(f, [q], now, n, runtime, notices) && q.tx.profile == DP0
    requires runtime != [] && runtime[0].scope == cfg.self && runtime[0].deadline <= now <= q.expiry
    requires Wait(opening(notices), now) < MAX_DURATION
    ensures Shaped(g) && |g.log| > 0
    ensures g.log[|g.log| - 1] == Sent(q.number, 0, now, q.expiry, false, 0, Wait(opening(notices), now))
    ensures Becomes(cfg, f, [PopDue], g)
  {
    AliveTwo(q, q, now);
    g := Step(cfg, f, PopDue);
    var d := Dequeue(cfg, DropExpired(f.(runtime := runtime[1..])));
    PopStep(cfg, opening, f, [q], [], runtime, d, g);
    StepBecomes(cfg, f, PopDue, g);
  }

  lemma {:induction false} AliveTwo(p: Packet, q: Packet, now: Time)
    requires now <= p.expiry && now <= q.expiry
    ensures Alive([q], now) == [q] && Alive([p, q], now) == [p, q]
  {
    Pair(p, q);
  }

  lemma {:induction false} Pair<T>(a: T, b: T)
    ensures [a, b][1..] == [b]
  {
  }

  lemma {:induction false} ScheduledAlone(e: Scheduled)
    ensures Scheduling([], e) == [e]
  {
  }

  lemma {:induction false} ScheduledTwice(e: Scheduled)
    ensures Scheduling([e], e) == [e, e]
  {
    SchedulingPast([e], 1, e);
    ScheduledAlone(e);
  }

  // ---------------------------------------------------------------- the run

  ghost predicate Last(log: seq<Event>, e: Event) {
    |log| > 0 && log[|log| - 1] == e
  }

  /** A gate that closes for k after every transmission. */
  function ClosedFor(k: Duration): seq<Call> -> Time {
    (notices: seq<Call>) => if notices == [] then 0 else notices[|notices| - 1].at + k
  }

  lemma {:induction false} ClosedAfter(k: Duration, notices: seq<Call>, c: Call, later: seq<Call>)
    requires later == notices + [c]
    ensures ClosedFor(k)(later) == c.at + k
  {
    TakeInit(notices, c);
  }

  /** A packet closes the gate, and the next one expires before it opens. */
  function StaleOpening(l: Duration, tx: Transmission): seq<Op> {
    [Submit(tx, l)] + [Submit(tx, 0)] + [Advance(1)]
  }

  function TwoRequests(l: Duration, tx: Transmission): seq<Op> {
    [Submit(tx, l)] + [Submit(tx, l)]
  }

  /** Two more packets are requested; when the gate opens, two triggers are due. */
  function StaleRun(k: nat, l: Duration, tx: Transmission): seq<Op>
    requires 0 < k
  {
    (StaleOpening(l, tx) + TwoRequests(l, tx) + [Advance(k - 1)]) + ([PopDue] + [PopDue])
  }

  lemma {:induction false} StaleStart(k: nat, l: Duration, opening: seq<Call> -> Time, cfg: Config, f: Flow,
                                      o: Packet, notices: seq<Call>, e: Scheduled)
    returns (g: Flow)
    requires opening == ClosedFor(k) && Gated(cfg, opening) && f == Initial(0, []) && 0 < k
    requires o == Packet(1, o.tx, 0) && o.tx.profile == DP0
    requires notices == [Notified(0, o.tx)] && e == Scheduled(k, cfg.self)
    ensures Looks(g, [o], 1, 2, [e], notices)
    ensures Becomes(cfg, f, StaleOpening(l, o.tx), g)
  {
    var f1 := SendStep(cfg, opening, f, 0, Packet(0, o.tx, l), [], [], l);
    AddNothing(notices);
    ClosedAfter(k, [], Notified(0, o.tx), notices);
    var f2 := FirstStep(cfg, opening, f1, [], 0, [], notices, o, 0);
    ScheduledAlone(e);
    g := AdvanceStep(cfg, f2, [o], 0, 2, [e], notices, 1);
    BecomesThrice(cfg, f, [Submit(o.tx, l)], f1, [Submit(o.tx, 0)], f2, [Advance(1)], g);
  }

  /** The expired packet is dropped, but its trigger stays beside the new one. */
  lemma {:induction false} StaleMiddle(k: nat, l: Duration, opening: seq<Call> -> Time, cfg: Config, f: Flow,
                                       o: Packet, p: Packet, q: Packet, notices: seq<Call>, e: Scheduled)
    returns (g: Flow)
    requires opening == ClosedFor(k) && Gated(cfg, opening) && Looks(f, [o], 1, p.number, [e], notices)
    requires e == Scheduled(k, cfg.self) && opening(notices) == k && 1 < k && 0 < l && o.expiry == 0
    requires p.tx == q.tx && p.tx.profile == DP0 && p.expiry == q.expiry == 1 + l && q.number == p.number + 1
    ensures Looks(g, [p, q], 1, q.number + 1, [e, e], notices)
    ensures Becomes(cfg, f, TwoRequests(l, p.tx), g)
  {
    var h := FirstStep(cfg, opening, f, [o], 1, [e], notices, p, l);
    ScheduledTwice(e);
    g := NextStep(cfg, opening, h, p, 1, [e, e], notices, q, l);
    BecomesTwice(cfg, f, [Submit(p.tx, l)], h, [Submit(q.tx, l)], g);
  }

  /** Both triggers are due at the opening; the first packet closes the gate and the second one follows. */
  lemma {:induction false} StaleEnd(
    k: nat, opening: seq<Call> -> Time, cfg: Config, f: Flow, p: Packet, q: Packet, n: nat, e: Scheduled,
    notices: seq<Call>, later: seq<Call>, runtime: seq<Scheduled>)
    returns (g: Flow)
    requires 0 < k < MAX_DURATION && Gated(cfg, opening) && Looks(f, [p, q], k, n, [e, e], notices)
    requires e == Scheduled(k, cfg.self) && opening(notices) == k && opening(later) == k + k
    requires later == notices + [Notified(k, p.tx)] && runtime == Scheduling([e], Scheduled(k + k, cfg.self))
    requires p.tx.profile == q.tx.profile == DP0 && k <= p.expiry && k <= q.expiry
    ensures Becomes(cfg, f, [PopDue] + [PopDue], g)
    ensures Last(g.log, Sent(q.number, 0, k, q.expiry, false, 0, k))
  {
    var h := FirstOfTwo(cfg, opening, f, p, q, k, n, e, notices, later);
    FrontStays([e], Scheduled(k + k, cfg.self), runtime);
    g := SecondOfTwo(cfg, opening, h, q, k, n, runtime, later);
    BecomesTwice(cfg, f, [PopDue], h, [PopDue], g);
  }

  /** The requests lead to two waiting packets and two triggers for the opening. */
  lemma {:induction false} StaleRequests(k: nat, l: Duration, tx: Transmission, cfg: Config, f: Flow,
                                         p: Packet, q: Packet, e: Scheduled, notices: seq<Call>)
    returns (g: Flow)
    requires 1 < k && 0 < l && tx.profile == DP0 && Gated(cfg, ClosedFor(k)) && f == Initial(0, [])
    requires p == Packet(2, tx, 1 + l) && q == Packet(3, tx, 1 + l)
    requires e == Scheduled(k, cfg.self) && notices == [Notified(0, tx)]
    ensures Looks(g, [p, q], k, 4, [e, e], notices)
    ensures Becomes(cfg, f, StaleOpening(l, tx) + TwoRequests(l, tx) + [Advance(k - 1)], g)
  {
    var (o, opening) := (Packet(1, tx, 0), ClosedFor(k));
    AddNothing(notices);
    ClosedAfter(k, [], Notified(0, tx), notices);
    var h := StaleStart(k, l, opening, cfg, f, o, notices, e);
    var i := StaleMiddle(k, l, opening, cfg, h, o, p, q, notices, e);
    g := AdvanceStep(cfg, i, [p, q], 1, 4, [e, e], notices, k - 1);
    BecomesThrice(cfg, f, StaleOpening(l, tx), h, TwoRequests(l, tx), i, [Advance(k - 1)], g);
  }

  /** After a first transmission at 0 the gate opens at k, and after one more at k it opens at 2k. */
  lemma {:induction false} Openings(k: nat, tx: Transmission, notices: seq<Call>, later: seq<Call>)
    requires notices == [Notified(0, tx)] && later == notices + [Notified(k, tx)]
    ensures ClosedFor(k)(notices) == k && ClosedFor(k)(later) == k + k
  {
    AddNothing(notices);
    ClosedAfter(k, [], Notified(0, tx), notices);
    ClosedAfter(k, notices, Notified(k, tx), later);
  }

  lemma {:induction false} StaleBecomes(k: nat, l: Duration, tx: Transmission, cfg: Config, f: Flow,
                                        a: seq<Op>, p: Packet, q: Packet, e: Scheduled, notices: seq<Call>)
    returns (g: Flow)
    requires 1 < k < MAX_DURATION && k <= l && tx.profile == DP0 && Gated(cfg, ClosedFor(k)) && f == Initial(0, [])
    requires a == StaleOpening(l, tx) + TwoRequests(l, tx) + [Advance(k - 1)] && notices == [Notified(0, tx)]
    requires p == Packet(2, tx, 1 + l) && q == Packet(3, tx, 1 + l) && e == Scheduled(k, cfg.self)
    ensures Becomes(cfg, f, a + ([PopDue] + [PopDue]), g)
    ensures Last(g.log, Sent(3, 0, k, 1 + l, false, 0, k))
  {
    var (later, runtime) := (notices + [Notified(k, tx)], Scheduling([e], Scheduled(k + k, cfg.self)));
    Openings(k, tx, notices, later);
    var h := StaleRequests(k, l, tx, cfg, f, p, q, e, notices);
    g := StaleEnd(k, ClosedFor(k), cfg, h, p, q, 4, e, notices, later, runtime);
    BecomesTwice(cfg, f, a, h, [PopDue] + [PopDue], g);
  }

  lemma {:induction false} RunLast(cfg: Config, f: Flow, ops: seq<Op>, g: Flow, e: Event)
    requires Becomes(cfg, f, ops, g) && Last(g.log, e)
    ensures Last(Run(cfg, f, ops).log, e)
  {
    RunBecomes(cfg, f, ops, g);
  }

  /**
   * For every k there is a run behind a gate that closes for k after each transmission in which a packet
   * is sent by a trigger although it has to wait for the whole k: the trigger of an expired packet and
   * that of its successor are due together, and the first one closes the gate.
   */
  lemma {:induction false} StaleTriggerSendsEarly(
    k: nat, l: Duration, tx: Transmission, cfg: Config, f: Flow, ops: seq<Op>)
    requires 1 < k < MAX_DURATION && k <= l && tx.profile == DP0 && Gated(cfg, ClosedFor(k)) && f == Initial(0, [])
    requires ops == StaleRun(k, l, tx)
    ensures Last(Run(cfg, f, ops).log, Sent(3, 0, k, 1 + l, false, 0, k))
  {
    var a := StaleOpening(l, tx) + TwoRequests(l, tx) + [Advance(k - 1)];
    var (p, q) := (Packet(2, tx, 1 + l), Packet(3, tx, 1 + l));
    var g := StaleBecomes(k, l, tx, cfg, f, a, p, q, Scheduled(k, cfg.self), [Notified(0, tx)]);
    RunLast(cfg, f, ops, g, Sent(3, 0, k, 1 + l, false, 0, k));
  }
}
