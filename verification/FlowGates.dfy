/**
 * Flow control behind a gate: a rate control that is closed until some time, which only transmissions can
 * move. Triggers are scheduled for the opening, so they are early only if it has moved in the meantime.
 */
module FlowGates {
  import opened Sequences
  import opened Runtime
  import opened FlowModel
  import opened FlowRuns

  /** The calls by which the rate control learns of transmissions. */
  function Notices(calls: seq<Call>): seq<Call> {
    if calls == [] then []
    else Notices(calls[..|calls| - 1]) + if calls[|calls| - 1].Notified? then [calls[|calls| - 1]] else []
  }

  function Wait(until: Time, now: Time): Duration {
    if now < until then until - now else 0
  }

  /** The rate control is closed until the opening that the transmissions so far lead to. */
  ghost predicate Gated(cfg: Config, opening: seq<Call> -> Time) {
    forall calls, now, tx :: cfg.throttle(calls, now, tx) == Wait(opening(Notices(calls)), now)
  }

  function Gate(self: Scope, opening: seq<Call> -> Time): (cfg: Config)
    ensures cfg.self == self && Gated(cfg, opening)
  {
    Config(self, (calls: seq<Call>, now: Time, tx: Transmission) => Wait(opening(Notices(calls)), now))
  }

  function Opens(opening: seq<Call> -> Time, f: Flow): Time {
    opening(Notices(f.calls))
  }

  lemma {:induction false} NoticesAppend(calls: seq<Call>, c: Call)
    ensures Notices(calls + [c]) == if c.Notified? then Notices(calls) + [c] else Notices(calls)
  {
    TakeInit(calls, c);
  }

  /** No callback of this owner is due before t. */
  ghost predicate NotBefore(q: seq<Scheduled>, self: Scope, t: Time) {
    forall i :: 0 <= i < |q| && q[i].scope == self ==> t <= q[i].deadline
  }

  /** No pending trigger is due before the gate opens. */
  ghost predicate OnTime(cfg: Config, opening: seq<Call> -> Time, f: Flow) {
    NotBefore(f.runtime, cfg.self, Opens(opening, f))
  }

  /** Every transmission was made at zero delay. */
  ghost predicate Punctual(log: seq<Event>) {
    forall i :: 0 <= i < |log| && log[i].Sent? ==> log[i].delay == 0
  }

  // ---------------------------------------------------------------- runtime queue

  lemma {:induction false} SchedulingNotBefore(q: seq<Scheduled>, e: Scheduled, self: Scope, t: Time)
    requires e.scope == self ==> t <= e.deadline
    ensures NotBefore(Scheduling(q, e), self, t) <==> NotBefore(q, self, t)
  {
    var (k, r) := (UpperBound(q, e.deadline), Scheduling(q, e));
    assert |r| == |q| + 1 && r[k] == e;
    assert forall i :: 0 <= i < k ==> r[i] == q[i];
    assert forall i :: k < i < |r| ==> r[i] == q[i - 1];
    forall i | 0 <= i < |q| && q[i].scope == self && NotBefore(r, self, t) ensures t <= q[i].deadline {
      assert q[i] == r[if i < k then i else i + 1];
    }
  }

  lemma {:induction false} OthersNotBefore(q: seq<Scheduled>, self: Scope, t: Time)
    ensures NotBefore(Others(q, self), self, t)
  {
    if q != [] {
      OthersNotBefore(q[1..], self, t);
    }
  }

  // ---------------------------------------------------------------- questions

  /** Questions move neither the gate nor anything but the list of calls, and all get the same answer. */
  lemma {:induction false} ScanBehindGate(cfg: Config, opening: seq<Call> -> Time, f: Flow, r: nat,
                                          best: Choice, least: Duration, wait: Duration, c: Choice, a: Flow)
    requires Gated(cfg, opening)
    requires Shaped(f) && r <= 4 && wait == Wait(Opens(opening, f), f.now) && (best.Choose? ==> best.delay == wait)
    requires (c, a) == ScanFrom(cfg, f, r, best, least)
    ensures Notices(a.calls) == Notices(f.calls)
    ensures c.Choose? ==> c.delay == wait
    decreases 4 - r
  {
    if r < 4 {
      if f.queues[r] == [] {
        ScanBehindGate(cfg, opening, f, r + 1, best, least, wait, c, a);
      } else {
        var tx := f.queues[r][0].tx;
        NoticesAppend(f.calls, Asked(f.now, tx));
        if wait < least {
          ScanBehindGate(cfg, opening, Ask(f, tx), r + 1, Choose(r, wait), wait, wait, c, a);
        } else {
          ScanBehindGate(cfg, opening, Ask(f, tx), r + 1, best, least, wait, c, a);
        }
      }
    }
  }

  /** Scheduling a trigger: it is not before the opening. */
  lemma {:induction false} TriggerBehindGate(
    cfg: Config, opening: seq<Call> -> Time, f: Flow, tx: Transmission, g: Flow)
    requires Gated(cfg, opening)
    requires g == ScheduleTrigger(cfg, f, tx)
    ensures Notices(g.calls) == Notices(f.calls) && g.log == f.log && g.now == f.now
    ensures OnTime(cfg, opening, g) <==> OnTime(cfg, opening, f)
  {
    NoticesAppend(f.calls, Asked(f.now, tx));
    var e := Scheduled(f.now + Wait(Opens(opening, f), f.now), cfg.self);
    SchedulingNotBefore(f.runtime, e, cfg.self, Opens(opening, f));
  }

  lemma {:induction false} NextBehindGate(cfg: Config, opening: seq<Call> -> Time, f: Flow, g: Flow)
    requires Gated(cfg, opening)
    requires Shaped(f) && g == ScheduleNext(cfg, f)
    ensures Notices(g.calls) == Notices(f.calls) && g.log == f.log
    ensures OnTime(cfg, opening, g) <==> OnTime(cfg, opening, f)
  {
    var (c, a) := NextQueue(cfg, f);
    ScanBehindGate(cfg, opening, f, 0, Nothing, MAX_DURATION, Wait(Opens(opening, f), f.now), c, a);
    ScanFromNonEmpty(cfg, f, 0, Nothing, MAX_DURATION);
    if c.Choose? {
      TriggerBehindGate(cfg, opening, a, a.queues[c.rank][0].tx, g);
    }
  }

  // ---------------------------------------------------------------- single steps

  lemma {:induction false} DropsPunctual(log: seq<Event>, r: Rank, n: nat)
    requires Punctual(log)
    ensures Punctual(log + Drops(r, n))
  {
  }

  lemma {:induction false} DropExpiredPunctual(f: Flow, r: nat)
    requires Shaped(f) && r <= 4 && Punctual(f.log)
    ensures Punctual(DropExpiredFrom(f, r).log)
    decreases 4 - r
  {
    if r < 4 {
      var (q, alive) := (f.queues[r], Alive(f.queues[r], f.now));
      AliveLength(q, f.now);
      DropsPunctual(f.log, r, |q| - |alive|);
      DropExpiredPunctual(f.(queues := f.queues[r := alive], log := f.log + Drops(r, |q| - |alive|)), r + 1);
    }
  }

  lemma {:induction false} EnqueueBehindGate(cfg: Config, opening: seq<Call> -> Time, f: Flow, p: Packet, g: Flow)
    requires Gated(cfg, opening)
    requires Shaped(f) && g == Enqueue(cfg, f, p) && Punctual(f.log)
    ensures Notices(g.calls) == Notices(f.calls) && Punctual(g.log)
    ensures OnTime(cfg, opening, g) <==> OnTime(cfg, opening, f)
  {
    var r := RankOf(p.tx.profile);
    var n := Excess(f.queues[r], f.limit);
    DropsPunctual(f.log, r, n);
    if Queued(f) == 0 {
      var e := f.(queues := f.queues[r := f.queues[r][n..] + [p]], log := f.log + Drops(r, n));
      TriggerBehindGate(cfg, opening, e, p.tx, g);
    }
  }

  /** A request leaves the pending triggers alone, but if it is sent at once it moves the opening. */
  lemma {:induction false} AdmitBehindGate(cfg: Config, opening: seq<Call> -> Time, f: Flow, p: Packet, g: Flow)
    requires Gated(cfg, opening)
    requires Shaped(f) && g == Admit(cfg, f, p) && Punctual(f.log)
    ensures Punctual(g.log)
    ensures Notices(g.calls) == Notices(f.calls) ==> (OnTime(cfg, opening, g) <==> OnTime(cfg, opening, f))
    ensures Notices(g.calls) != Notices(f.calls) ==> g.runtime == f.runtime
  {
    if Ahead(f.queues, RankOf(p.tx.profile)) == 0 {
      var a := Ask(f, p.tx);
      NoticesAppend(f.calls, Asked(f.now, p.tx));
      if Delay(cfg, f, p.tx) != 0 {
        EnqueueBehindGate(cfg, opening, a, p, g);
      }
    } else {
      EnqueueBehindGate(cfg, opening, f, p, g);
    }
  }

  /** A trigger that is due although none was due before the opening finds the gate open. */
  lemma {:induction false} DequeueBehindGate(cfg: Config, opening: seq<Call> -> Time, f: Flow, g: Flow)
    requires Gated(cfg, opening)
    requires Shaped(f) && g == Dequeue(cfg, f) && Punctual(f.log) && Opens(opening, f) <= f.now
    ensures Punctual(g.log) && g.runtime == f.runtime
  {
    var (c, a) := NextQueue(cfg, f);
    ScanBehindGate(cfg, opening, f, 0, Nothing, MAX_DURATION, 0, c, a);
    ScanFromNonEmpty(cfg, f, 0, Nothing, MAX_DURATION);
  }

  /** What is pending besides the callback that the step runs. */
  function Left(f: Flow, op: Op): seq<Scheduled> {
    if op.PopDue? && f.runtime != [] && f.runtime[0].deadline <= f.now then f.runtime[1..] else f.runtime
  }

  /** From f to g a packet is sent while another trigger is pending, for before the gate opens again. */
  ghost predicate LeavesBehind(cfg: Config, opening: seq<Call> -> Time, f: Flow, op: Op, g: Flow) {
    Notices(g.calls) != Notices(f.calls) && !NotBefore(Left(f, op), cfg.self, Opens(opening, g))
  }

  ghost predicate Overtakes(cfg: Config, opening: seq<Call> -> Time, f: Flow, op: Op)
    requires Shaped(f)
  {
    LeavesBehind(cfg, opening, f, op, Step(cfg, f, op))
  }

  lemma {:induction false} PoppedBehindGate(cfg: Config, opening: seq<Call> -> Time, f: Flow, g: Flow)
    requires Gated(cfg, opening)
    requires Shaped(f) && OnTime(cfg, opening, f) && Punctual(f.log) && g == Popped(cfg, f)
    ensures Punctual(g.log)
    ensures OnTime(cfg, opening, g) <==> !LeavesBehind(cfg, opening, f, PopDue, g)
  {
    if f.runtime != [] && f.runtime[0].deadline <= f.now {
      var h := f.(runtime := f.runtime[1..]);
      assert NotBefore(h.runtime, cfg.self, Opens(opening, f));
      if f.runtime[0].scope == cfg.self {
        var d := DropExpired(h);
        DropExpiredPunctual(h, 0);
        var e := Dequeue(cfg, d);
        DequeueBehindGate(cfg, opening, d, e);
        NextBehindGate(cfg, opening, e, g);
      }
    }
  }

  /** What a request finds after the expired packets are gone. */
  lemma {:induction false} RequestAdmits(cfg: Config, f: Flow, tx: Transmission, lifetime: Duration, p: Packet)
    returns (d: Flow)
    requires Shaped(f) && p == Packet(f.requests, tx, f.now + lifetime)
    ensures Shaped(d) && Request(cfg, f, tx, lifetime) == Admit(cfg, d, p)
    ensures d == f.(queues := d.queues, log := d.log, requests := d.requests)
    ensures Punctual(f.log) ==> Punctual(d.log)
  {
    if Punctual(f.log) {
      DropExpiredPunctual(f, 0);
    }
    d := DropExpired(f).(requests := f.requests + 1);
  }

  lemma {:induction false} RequestBehindGate(
    cfg: Config, opening: seq<Call> -> Time, f: Flow, tx: Transmission, lifetime: Duration, op: Op, g: Flow)
    requires Gated(cfg, opening)
    requires Shaped(f) && OnTime(cfg, opening, f) && Punctual(f.log)
    requires g == Request(cfg, f, tx, lifetime) && op == Submit(tx, lifetime)
    ensures Punctual(g.log)
    ensures OnTime(cfg, opening, g) <==> !LeavesBehind(cfg, opening, f, op, g)
  {
    var p := Packet(f.requests, tx, f.now + lifetime);
    var d := RequestAdmits(cfg, f, tx, lifetime, p);
    AdmitBehindGate(cfg, opening, d, p, g);
  }

  /**
   * As long as no trigger is due before the gate opens, whatever is sent has no delay, and this stays so
   * if and only if the step does not overtake another trigger.
   */
  lemma {:induction false} StepBehindGate(cfg: Config, opening: seq<Call> -> Time, f: Flow, op: Op, g: Flow)
    requires Gated(cfg, opening)
    requires cfg.self != 0 && Shaped(f) && OnTime(cfg, opening, f) && Punctual(f.log)
    requires g == Step(cfg, f, op)
    ensures Punctual(g.log)
    ensures OnTime(cfg, opening, g) <==> !Overtakes(cfg, opening, f, op)
  {
    match op
    case Submit(tx, lifetime) =>
      RequestBehindGate(cfg, opening, f, tx, lifetime, op, g);
    case PopDue => PoppedBehindGate(cfg, opening, f, g);
    case Reevaluate => RescheduleBehindGate(cfg, opening, f, g);
    case SetLimit(_) =>
    case Advance(_) =>
    case Elsewhere(deadline, scope) =>
      if scope != cfg.self {
        SchedulingNotBefore(f.runtime, Scheduled(deadline, scope), cfg.self, Opens(opening, f));
      }
  }

  lemma {:induction false} RescheduleBehindGate(cfg: Config, opening: seq<Call> -> Time, f: Flow, g: Flow)
    requires Gated(cfg, opening)
    requires cfg.self != 0 && Shaped(f) && OnTime(cfg, opening, f) && g == Reschedule(cfg, f)
    ensures g.log == f.log && Notices(g.calls) == Notices(f.calls) && OnTime(cfg, opening, g)
  {
    var (c, a) := NextQueue(cfg, f);
    ScanBehindGate(cfg, opening, f, 0, Nothing, MAX_DURATION, Wait(Opens(opening, f), f.now), c, a);
    ScanFromNonEmpty(cfg, f, 0, Nothing, MAX_DURATION);
    if c.Choose? {
      var b := a.(runtime := Cancelled(a.runtime, cfg.self));
      OthersNotBefore(a.runtime, cfg.self, Opens(opening, f));
      TriggerBehindGate(cfg, opening, b, a.queues[c.rank][0].tx, g);
    }
  }

  // ---------------------------------------------------------------- runs

  ghost predicate AlwaysOnTime(cfg: Config, opening: seq<Call> -> Time, f: Flow, ops: seq<Op>)
    requires Shaped(f)
    decreases |ops|
  {
    && OnTime(cfg, opening, f)
    && (ops != [] ==> AlwaysOnTime(cfg, opening, Step(cfg, f, ops[0]), ops[1..]))
  }

  ghost predicate NeverOvertakes(cfg: Config, opening: seq<Call> -> Time, f: Flow, ops: seq<Op>)
    requires Shaped(f)
    decreases |ops|
  {
    ops == [] || (&& !Overtakes(cfg, opening, f, ops[0])
                  && NeverOvertakes(cfg, opening, Step(cfg, f, ops[0]), ops[1..]))
  }

  /**
   * Behind any gate, over every run: no trigger is ever pending for before the opening if and only if no
   * packet is sent while another trigger is pending for before the gate opens again; and then every
   * transmission, also a triggered one, is made at zero delay.
   */
  lemma {:induction false} OnTimeIffNeverOvertakes(cfg: Config, opening: seq<Call> -> Time, f: Flow, ops: seq<Op>)
    requires Gated(cfg, opening)
    requires cfg.self != 0 && Shaped(f) && OnTime(cfg, opening, f) && Punctual(f.log)
    ensures AlwaysOnTime(cfg, opening, f, ops) <==> NeverOvertakes(cfg, opening, f, ops)
    ensures NeverOvertakes(cfg, opening, f, ops) ==> Punctual(Run(cfg, f, ops).log)
    decreases |ops|
  {
    if ops != [] {
      var g := Step(cfg, f, ops[0]);
      StepBehindGate(cfg, opening, f, ops[0], g);
      if OnTime(cfg, opening, g) {
        OnTimeIffNeverOvertakes(cfg, opening, g, ops[1..]);
      }
    }
  }

  lemma {:induction false} RunCons(cfg: Config, f: Flow, op: Op, rest: seq<Op>, g: Flow)
    requires Shaped(f) && g == Step(cfg, f, op)
    ensures Run(cfg, f, [op] + rest) == Run(cfg, g, rest)
  {
    assert ([op] + rest)[1..] == rest;
  }

  /** Whatever follows, the operations lead from one state to the other. */
  ghost predicate Becomes(cfg: Config, f: Flow, ops: seq<Op>, g: Flow) {
    Shaped(f) && Shaped(g) && forall rest :: Run(cfg, f, ops + rest) == Run(cfg, g, rest)
  }

  lemma {:induction false} StepBecomes(cfg: Config, f: Flow, op: Op, g: Flow)
    requires Shaped(f) && g == Step(cfg, f, op)
    ensures Becomes(cfg, f, [op], g)
  {
    forall rest ensures Run(cfg, f, [op] + rest) == Run(cfg, g, rest) {
      RunCons(cfg, f, op, rest, g);
    }
  }

  lemma {:induction false} BecomesTwice(cfg: Config, f: Flow, a: seq<Op>, g: Flow, b: seq<Op>, h: Flow)
    requires Becomes(cfg, f, a, g) && Becomes(cfg, g, b, h)
    ensures Becomes(cfg, f, a + b, h)
  {
    forall rest ensures Run(cfg, f, (a + b) + rest) == Run(cfg, h, rest) {
      Assoc(a, b, rest);
      assert Run(cfg, f, a + (b + rest)) == Run(cfg, g, b + rest);
    }
  }

  lemma {:induction false} BecomesThrice(
    cfg: Config, f: Flow, a: seq<Op>, f1: Flow, b: seq<Op>, f2: Flow, c: seq<Op>, g: Flow)
    requires Becomes(cfg, f, a, f1) && Becomes(cfg, f1, b, f2) && Becomes(cfg, f2, c, g)
    ensures Becomes(cfg, f, a + b + c, g)
  {
    BecomesTwice(cfg, f, a, f1, b, f2);
    BecomesTwice(cfg, f, a + b, f2, c, g);
  }

  lemma {:induction false} RunBecomes(cfg: Config, f: Flow, ops: seq<Op>, g: Flow)
    requires Becomes(cfg, f, ops, g)
    ensures Run(cfg, f, ops) == g
  {
    var end: seq<Op> := [];
    AddNothing(ops);
    assert Run(cfg, f, ops + end) == Run(cfg, g, end);
  }

  // ---------------------------------------------------------------- overtaken triggers

  lemma {:induction false} AliveKeeps(q: seq<Packet>, now: Time)
    requires q != [] && now <= q[|q| - 1].expiry
    ensures Alive(q, now) != []
  {
    if |q| > 1 {
      AliveKeeps(q[1..], now);
    }
  }

  lemma {:induction false} DropExpiredQueue(f: Flow, r: nat, k: nat)
    requires Shaped(f) && r <= 4 && k < 4
    ensures DropExpiredFrom(f, r).queues[k] == if k < r then f.queues[k] else Alive(f.queues[k], f.now)
    decreases 4 - r
  {
    if r < 4 {
      var (q, alive) := (f.queues[r], Alive(f.queues[r], f.now));
      AliveLength(q, f.now);
      DropExpiredQueue(f.(queues := f.queues[r := alive], log := f.log + Drops(r, |q| - |alive|)), r + 1, k);
    }
  }

  /** A choice once made is only replaced by another one. */
  lemma {:induction false} ScanKeepsChoice(
    cfg: Config, f: Flow, r: nat, best: Choice, least: Duration, c: Choice, a: Flow)
    requires Shaped(f) && r <= 4 && best.Choose? && (c, a) == ScanFrom(cfg, f, r, best, least)
    ensures c.Choose?
    decreases 4 - r
  {
    if r < 4 {
      if f.queues[r] == [] {
        ScanKeepsChoice(cfg, f, r + 1, best, least, c, a);
      } else {
        var tx := f.queues[r][0].tx;
        if Delay(cfg, f, tx) < least {
          ScanKeepsChoice(cfg, Ask(f, tx), r + 1, Choose(r, Delay(cfg, f, tx)), Delay(cfg, f, tx), c, a);
        } else {
          ScanKeepsChoice(cfg, Ask(f, tx), r + 1, best, least, c, a);
        }
      }
    }
  }

  /** The first packet that waits is chosen, or another one after it, unless it is answered too much. */
  lemma {:induction false} ScanChooses(cfg: Config, f: Flow, r: nat, k: nat, best: Choice, least: Duration,
                                       tx: Transmission, c: Choice, a: Flow)
    requires Shaped(f) && r <= k < 4 && f.queues[k] != [] && forall j :: r <= j < k ==> f.queues[j] == []
    requires tx == f.queues[k][0].tx && Delay(cfg, f, tx) < least && (c, a) == ScanFrom(cfg, f, r, best, least)
    ensures c.Choose?
    decreases 4 - r
  {
    if r < k {
      ScanChooses(cfg, f, r + 1, k, best, least, tx, c, a);
    } else {
      ScanTakes(cfg, f, r, best, least, tx, Delay(cfg, f, tx));
      ScanKeepsChoice(cfg, Ask(f, tx), r + 1, Choose(r, Delay(cfg, f, tx)), Delay(cfg, f, tx), c, a);
    }
  }

  lemma {:induction false} FirstWaiting(queues: seq<seq<Packet>>, r: nat) returns (k: nat)
    requires r < |queues| && queues[r] != []
    ensures k <= r && queues[k] != [] && forall j :: 0 <= j < k ==> queues[j] == []
  {
    k := 0;
    while queues[k] == []
      invariant k <= r && forall j :: 0 <= j < k ==> queues[j] == []
      decreases r - k
    {
      k := k + 1;
    }
  }

  lemma {:induction false} ScanTakes(
    cfg: Config, f: Flow, r: nat, best: Choice, least: Duration, tx: Transmission, delay: Duration)
    requires Shaped(f) && r < 4 && f.queues[r] != [] && tx == f.queues[r][0].tx && delay == Delay(cfg, f, tx) < least
    ensures ScanFrom(cfg, f, r, best, least) == ScanFrom(cfg, Ask(f, tx), r + 1, Choose(r, delay), delay)
  {
  }

  lemma {:induction false} ChosenBehindGate(
    cfg: Config, opening: seq<Call> -> Time, f: Flow, r: nat, wait: Duration, c: Choice, a: Flow)
    requires Gated(cfg, opening)
    requires Shaped(f) && wait == Wait(Opens(opening, f), f.now) < MAX_DURATION && r < 4 && f.queues[r] != []
    requires (c, a) == NextQueue(cfg, f)
    ensures c.Choose? && c.delay == wait && f.queues[c.rank] != []
    ensures a == f.(calls := a.calls) && Notices(a.calls) == Notices(f.calls)
  {
    var k := FirstWaiting(f.queues, r);
    ScanChooses(cfg, f, 0, k, Nothing, MAX_DURATION, f.queues[k][0].tx, c, a);
    ScanBehindGate(cfg, opening, f, 0, Nothing, MAX_DURATION, wait, c, a);
    ScanFromNonEmpty(cfg, f, 0, Nothing, MAX_DURATION);
  }

  /** The last event is a triggered transmission with this delay. */
  ghost predicate EndsEarly(log: seq<Event>, at: Time, delay: Duration) {
    |log| > 0 && var e := log[|log| - 1]; e.Sent? && e.at == at && e.delay == delay && !e.immediate
  }

  /** A trigger sends whatever waits, even if the gate is closed. */
  lemma {:induction false} TriggerIgnoresGate(
    cfg: Config, opening: seq<Call> -> Time, f: Flow, r: nat, wait: Duration)
    returns (g: Flow)
    requires Shaped(f) && r < 4 && f.queues[r] != [] && f.now <= f.queues[r][|f.queues[r]| - 1].expiry
    requires wait == Wait(Opens(opening, f), f.now) < MAX_DURATION && Gated(cfg, opening)
    ensures g == Trigger(cfg, f) && EndsEarly(g.log, f.now, wait)
  {
    var d := DropExpired(f);
    DropExpiredQueue(f, 0, r);
    AliveKeeps(f.queues[r], f.now);
    var (c, a) := NextQueue(cfg, d);
    ChosenBehindGate(cfg, opening, d, r, wait, c, a);
    ScanFromNonEmpty(cfg, d, 0, Nothing, MAX_DURATION);
    g := Trigger(cfg, f);
    NextBehindGate(cfg, opening, Dequeue(cfg, d), g);
  }

  lemma {:induction false} ScheduledForOpening(
    cfg: Config, opening: seq<Call> -> Time, f: Flow, tx: Transmission, g: Flow)
    requires Gated(cfg, opening)
    requires f.now < Opens(opening, f) && g == ScheduleTrigger(cfg, f, tx)
    ensures Notices(g.calls) == Notices(f.calls)
    ensures g == f.(calls := g.calls, runtime := Scheduling(f.runtime, Scheduled(Opens(opening, f), cfg.self)))
  {
    NoticesAppend(f.calls, Asked(f.now, tx));
  }

  lemma {:induction false} EnqueueAppends(cfg: Config, opening: seq<Call> -> Time, f: Flow, p: Packet, r: nat, g: Flow)
    requires Gated(cfg, opening)
    requires Shaped(f) && f.now < Opens(opening, f) && r == RankOf(p.tx.profile) && g == Enqueue(cfg, f, p)
    ensures Notices(g.calls) == Notices(f.calls) && g.now == f.now
    ensures g.queues[r] != [] && g.queues[r][|g.queues[r]| - 1] == p
    ensures g.runtime == f.runtime || g.runtime == Scheduling(f.runtime, Scheduled(Opens(opening, f), cfg.self))
  {
    var n := Excess(f.queues[r], f.limit);
    var e := f.(queues := f.queues[r := f.queues[r][n..] + [p]], log := f.log + Drops(r, n));
    if Queued(f) == 0 {
      ScheduledForOpening(cfg, opening, e, p.tx, g);
    }
  }

  /** While the gate is closed a request is queued, and its own trigger would be the one for the opening. */
  lemma {:induction false} AdmitBehindClosedGate(
    cfg: Config, opening: seq<Call> -> Time, f: Flow, p: Packet, r: nat, g: Flow)
    requires Gated(cfg, opening)
    requires Shaped(f) && f.now < Opens(opening, f) && r == RankOf(p.tx.profile) && g == Admit(cfg, f, p)
    ensures Notices(g.calls) == Notices(f.calls) && g.now == f.now
    ensures g.queues[r] != [] && g.queues[r][|g.queues[r]| - 1] == p
    ensures g.runtime == f.runtime || g.runtime == Scheduling(f.runtime, Scheduled(Opens(opening, f), cfg.self))
  {
    if Ahead(f.queues, r) == 0 {
      NoticesAppend(f.calls, Asked(f.now, p.tx));
      EnqueueAppends(cfg, opening, Ask(f, p.tx), p, r, g);
    } else {
      EnqueueAppends(cfg, opening, f, p, r, g);
    }
  }

  /** The trigger in front stays there, and is due at t. */
  lemma {:induction false} FrontStays(q: seq<Scheduled>, e: Scheduled, r: seq<Scheduled>)
    requires q != [] && q[0].deadline <= e.deadline && (r == q || r == Scheduling(q, e))
    ensures r != [] && r[0] == q[0]
  {
    SchedulingPast(q, 1, e);
  }

  lemma {:induction false} RequestBecomes(cfg: Config, f: Flow, tx: Transmission, l: Duration, p: Packet)
    returns (d: Flow)
    requires Shaped(f) && p == Packet(f.requests, tx, f.now + l)
    ensures Shaped(d) && Becomes(cfg, f, [Submit(tx, l)], Admit(cfg, d, p))
    ensures d == f.(queues := d.queues, log := d.log, requests := d.requests)
  {
    d := RequestAdmits(cfg, f, tx, l, p);
    StepBecomes(cfg, f, Submit(tx, l), Admit(cfg, d, p));
  }

  /** A request behind a closed gate leaves the trigger in front alone. */
  lemma {:induction false} RequestBehindClosedGate(
    cfg: Config, opening: seq<Call> -> Time, f: Flow, tx: Transmission, l: Duration, r: nat)
    returns (g: Flow)
    requires Shaped(f) && f.runtime != [] && f.runtime[0].deadline <= Opens(opening, f) && f.now < Opens(opening, f)
    requires r == RankOf(tx.profile) && Gated(cfg, opening)
    ensures Becomes(cfg, f, [Submit(tx, l)], g)
    ensures Notices(g.calls) == Notices(f.calls) && g.now == f.now
    ensures g.queues[r] != [] && g.queues[r][|g.queues[r]| - 1].expiry == f.now + l
    ensures g.runtime != [] && g.runtime[0] == f.runtime[0]
  {
    var p := Packet(f.requests, tx, f.now + l);
    var d := RequestBecomes(cfg, f, tx, l, p);
    g := Admit(cfg, d, p);
    AdmitBehindClosedGate(cfg, opening, d, p, r, g);
    FrontStays(f.runtime, Scheduled(Opens(opening, f), cfg.self), g.runtime);
  }

  lemma {:induction false} PopBecomes(cfg: Config, f: Flow, h: Flow, g: Flow)
    requires Shaped(f) && f.runtime != [] && f.runtime[0].scope == cfg.self && f.runtime[0].deadline <= f.now
    requires h == f.(runtime := f.runtime[1..]) && g == Trigger(cfg, h)
    ensures Becomes(cfg, f, [PopDue], g)
  {
    StepBecomes(cfg, f, PopDue, g);
  }

  lemma {:induction false} PoppedEarly(cfg: Config, opening: seq<Call> -> Time, f: Flow, r: nat)
    returns (g: Flow)
    requires Shaped(f) && r < 4 && f.queues[r] != [] && f.now <= f.queues[r][|f.queues[r]| - 1].expiry
    requires f.now < Opens(opening, f) < f.now + MAX_DURATION && Gated(cfg, opening)
    requires f.runtime != [] && f.runtime[0].scope == cfg.self && f.runtime[0].deadline <= f.now
    ensures Becomes(cfg, f, [PopDue], g)
    ensures EndsEarly(g.log, f.now, Opens(opening, f) - f.now)
  {
    g := TriggerIgnoresGate(cfg, opening, f.(runtime := f.runtime[1..]), r, Opens(opening, f) - f.now);
    PopBecomes(cfg, f, f.(runtime := f.runtime[1..]), g);
  }

  lemma {:induction false} OvertakenSteps(
    cfg: Config, opening: seq<Call> -> Time, f: Flow, tx: Transmission, l: nat, open: Time)
    returns (g: Flow)
    requires Shaped(f) && f.runtime != [] && f.runtime[0].scope == cfg.self && Gated(cfg, opening)
    requires open == Opens(opening, f) && f.runtime[0].deadline <= f.now + l < open < f.now + l + MAX_DURATION
    ensures Becomes(cfg, f, [Submit(tx, l)] + [Advance(l)] + [PopDue], g)
    ensures EndsEarly(g.log, f.now + l, open - (f.now + l))
  {
    var r := RankOf(tx.profile);
    var f1 := RequestBehindClosedGate(cfg, opening, f, tx, l, r);
    var f2 := f1.(now := f1.now + l);
    StepBecomes(cfg, f1, Advance(l), f2);
    g := PoppedEarly(cfg, opening, f2, r);
    BecomesThrice(cfg, f, [Submit(tx, l)], f1, [Advance(l)], f2, [PopDue], g);
  }

  lemma {:induction false} RunEndsEarly(cfg: Config, f: Flow, ops: seq<Op>, g: Flow, at: Time, delay: Duration)
    requires Becomes(cfg, f, ops, g) && EndsEarly(g.log, at, delay)
    ensures EndsEarly(Run(cfg, f, ops).log, at, delay)
  {
    RunBecomes(cfg, f, ops, g);
  }

  /**
   * A closed gate and a trigger in front of the queue for before its opening are enough: with one more
   * request the trigger sends a packet ahead of its time, by as much as it is before the opening.
   */
  lemma {:induction false} OvertakenTriggerIsEarly(
    cfg: Config, opening: seq<Call> -> Time, f: Flow, tx: Transmission, l: nat, open: Time, ops: seq<Op>)
    requires Shaped(f) && f.runtime != [] && f.runtime[0].scope == cfg.self && Gated(cfg, opening)
    requires open == Opens(opening, f) && f.runtime[0].deadline <= f.now + l < open < f.now + l + MAX_DURATION
    requires ops == [Submit(tx, l)] + [Advance(l)] + [PopDue]
    ensures EndsEarly(Run(cfg, f, ops).log, f.now + l, open - (f.now + l))
  {
    var g := OvertakenSteps(cfg, opening, f, tx, l, open);
    RunEndsEarly(cfg, f, ops, g, f.now + l, open - (f.now + l));
  }
}
