/**
 * The flow control refines a plain list: all waiting packets in the order of their requests, whatever
 * their priority. There are no queues, and nothing is done in place.
 */
module FlowList {
  import opened Sequences
  import opened Runtime
  import opened FlowModel
  import opened FlowRuns
  import opened FlowGates

  function Rank(p: Packet): Rank {
    RankOf(p.tx.profile)
  }

  // ---------------------------------------------------------------- the plain list

  function OfRank(w: seq<Packet>, r: nat): seq<Packet> {
    if w == [] then [] else (if Rank(w[0]) == r then [w[0]] else []) + OfRank(w[1..], r)
  }

  function InTime(w: seq<Packet>, now: Time): seq<Packet> {
    if w == [] then [] else (if now <= w[0].expiry then [w[0]] else []) + InTime(w[1..], now)
  }

  /** Of rank r only the newest m packets, of the others all. */
  function Newest(w: seq<Packet>, r: nat, m: nat): seq<Packet> {
    if w == [] then []
    else if Rank(w[0]) == r && |OfRank(w, r)| > m then Newest(w[1..], r, m)
    else [w[0]] + Newest(w[1..], r, m)
  }

  /** Without the oldest packet of rank r. */
  function Minus(w: seq<Packet>, r: nat): seq<Packet> {
    if w == [] then [] else if Rank(w[0]) == r then w[1..] else [w[0]] + Minus(w[1..], r)
  }

  ghost predicate NothingAhead(w: seq<Packet>, r: nat) {
    forall i :: 0 <= i < |w| ==> Rank(w[i]) > r
  }

  /** One more packet; with a limit, the oldest ones of its rank give way. */
  function Joined(w: seq<Packet>, p: Packet, limit: nat): seq<Packet> {
    (if limit == 0 then w else Newest(w, Rank(p), limit - 1)) + [p]
  }

  /** A request is sent at once if nothing of its rank or above waits and it has no delay. */
  ghost function Admitted(cfg: Config, f: Flow, w: seq<Packet>, p: Packet): seq<Packet> {
    if NothingAhead(w, Rank(p)) && Delay(cfg, f, p.tx) == 0 then w else Joined(w, p, f.limit)
  }

  /** What waits after a step, from what waited before and what the rate control has answered. */
  ghost function Next(cfg: Config, f: Flow, w: seq<Packet>, op: Op): seq<Packet>
    requires Shaped(f)
  {
    match op
    case Submit(tx, lifetime) =>
      Admitted(cfg, f, InTime(w, f.now), Packet(f.requests, tx, f.now + lifetime))
    case PopDue =>
      if !Triggers(cfg, f) then w
      else
        var c := Chosen(cfg, f);
        if c.Nothing? then InTime(w, f.now) else Minus(InTime(w, f.now), c.rank)
    case Reevaluate => w
    case SetLimit(_) => w
    case Advance(_) => w
    case Elsewhere(_, _) => w
  }

  /** The next callback is due and one of the flow control. */
  predicate Triggers(cfg: Config, f: Flow) {
    f.runtime != [] && f.runtime[0].deadline <= f.now && f.runtime[0].scope == cfg.self
  }

  /** What the trigger in front of the runtime queue chooses, once expired packets are gone. */
  function Chosen(cfg: Config, f: Flow): Choice
    requires Shaped(f) && Triggers(cfg, f)
  {
    NextQueue(cfg, DropExpired(f.(runtime := f.runtime[1..]))).0
  }

  // ---------------------------------------------------------------- filters

  lemma {:induction false} OfRankConcat(a: seq<Packet>, b: seq<Packet>, r: nat)
    ensures OfRank(a + b, r) == OfRank(a, r) + OfRank(b, r)
  {
    if a == [] {
      AddNothing(b);
      AddNothing(OfRank(b, r));
    } else {
      assert (a + b)[1..] == a[1..] + b;
      OfRankConcat(a[1..], b, r);
      Assoc(if Rank(a[0]) == r then [a[0]] else [], OfRank(a[1..], r), OfRank(b, r));
    }
  }

  lemma {:induction false} OfRankCons(p: Packet, w: seq<Packet>, r: nat)
    ensures OfRank([p] + w, r) == (if Rank(p) == r then [p] else []) + OfRank(w, r)
  {
    assert ([p] + w)[1..] == w;
  }

  lemma {:induction false} AliveCons(p: Packet, q: seq<Packet>, now: Time)
    ensures Alive([p] + q, now) == (if p.expiry < now then [] else [p]) + Alive(q, now)
  {
    assert ([p] + q)[1..] == q;
  }

  /** Dropping what has expired commutes with looking at one rank. */
  lemma {:induction false} InTimeOfRank(w: seq<Packet>, r: nat, now: Time)
    ensures OfRank(InTime(w, now), r) == Alive(OfRank(w, r), now)
  {
    if w != [] {
      var (rest, kept) := (OfRank(w[1..], r), InTime(w[1..], now));
      InTimeOfRank(w[1..], r, now);
      AddNothing(rest);
      AddNothing(kept);
      AddNothing(Alive(rest, now));
      if now <= w[0].expiry {
        OfRankCons(w[0], kept, r);
      }
      if Rank(w[0]) == r {
        AliveCons(w[0], rest, now);
      }
    }
  }

  lemma {:induction false} NewestOther(w: seq<Packet>, r: nat, m: nat, k: nat)
    requires k != r
    ensures OfRank(Newest(w, r, m), k) == OfRank(w, k)
  {
    if w != [] {
      NewestOther(w[1..], r, m, k);
      OfRankCons(w[0], Newest(w[1..], r, m), k);
      AddNothing(OfRank(w[1..], k));
    }
  }

  /** The newest m of a sequence. */
  function Suffix<T>(s: seq<T>, m: nat): seq<T> {
    if |s| > m then s[|s| - m..] else s
  }

  lemma {:induction false} SuffixDrop<T>(s: seq<T>, x: T, m: nat)
    requires |s| >= m
    ensures Suffix([x] + s, m) == Suffix(s, m)
  {
  }

  lemma {:induction false} NewestOwn(w: seq<Packet>, r: nat, m: nat)
    ensures OfRank(Newest(w, r, m), r) == Suffix(OfRank(w, r), m)
  {
    if w != [] {
      var rest := OfRank(w[1..], r);
      NewestOwn(w[1..], r, m);
      OfRankCons(w[0], Newest(w[1..], r, m), r);
      AddNothing(rest);
      if Rank(w[0]) == r && |OfRank(w, r)| > m {
        SuffixDrop(rest, w[0], m);
      }
    }
  }

  lemma {:induction false} MinusOther(w: seq<Packet>, r: nat, k: nat)
    requires k != r
    ensures OfRank(Minus(w, r), k) == OfRank(w, k)
  {
    if w != [] {
      AddNothing(OfRank(w[1..], k));
      if Rank(w[0]) != r {
        MinusOther(w[1..], r, k);
        OfRankCons(w[0], Minus(w[1..], r), k);
      }
    }
  }

  lemma {:induction false} MinusOwn(w: seq<Packet>, r: nat)
    requires OfRank(w, r) != []
    ensures OfRank(Minus(w, r), r) == OfRank(w, r)[1..]
  {
    if w != [] {
      if Rank(w[0]) == r {
        assert OfRank(w, r)[1..] == OfRank(w[1..], r);
      } else {
        AddNothing(OfRank(w[1..], r));
        MinusOwn(w[1..], r);
        OfRankCons(w[0], Minus(w[1..], r), r);
        AddNothing(OfRank(Minus(w[1..], r), r));
      }
    }
  }

  lemma {:induction false} RankAppears(w: seq<Packet>, i: nat)
    requires i < |w|
    ensures OfRank(w, Rank(w[i])) != []
  {
    if i > 0 {
      RankAppears(w[1..], i - 1);
    }
  }

  lemma {:induction false} RankMissing(w: seq<Packet>, r: nat)
    requires forall i :: 0 <= i < |w| ==> Rank(w[i]) != r
    ensures OfRank(w, r) == []
  {
    if w != [] {
      RankMissing(w[1..], r);
    }
  }

  // ---------------------------------------------------------------- refinement

  /** The queues hold the waiting packets by rank. */
  ghost predicate Refines(f: Flow, w: seq<Packet>) {
    Shaped(f) && forall r :: 0 <= r < 4 ==> f.queues[r] == OfRank(w, r)
  }

  lemma {:induction false} DropRefines(f: Flow, w: seq<Packet>, g: Flow)
    requires Refines(f, w) && g.queues == DropExpired(f).queues && Shaped(g)
    ensures Refines(g, InTime(w, f.now))
  {
    forall r | 0 <= r < 4 ensures g.queues[r] == OfRank(InTime(w, f.now), r) {
      DropExpiredQueue(f, 0, r);
      InTimeOfRank(w, r, f.now);
    }
  }

  lemma {:induction false} AheadMeansNothing(f: Flow, w: seq<Packet>, r: nat)
    requires Refines(f, w) && r < 4
    ensures Ahead(f.queues, r) == 0 <==> NothingAhead(w, r)
  {
    AheadZero(f.queues, r);
    if NothingAhead(w, r) {
      forall k | 0 <= k <= r ensures f.queues[k] == [] {
        RankMissing(w, k);
      }
    } else {
      var i :| 0 <= i < |w| && Rank(w[i]) <= r;
      RankAppears(w, i);
    }
  }

  lemma {:induction false} EnqueueRefines(cfg: Config, f: Flow, w: seq<Packet>, p: Packet, g: Flow)
    requires Refines(f, w) && g == Enqueue(cfg, f, p)
    ensures Refines(g, Joined(w, p, f.limit))
  {
    var r := Rank(p);
    var n := Excess(f.queues[r], f.limit);
    var q := f.queues[r][n..] + [p];
    assert g.queues == f.queues[r := q];
    forall k | 0 <= k < 4 ensures g.queues[k] == OfRank(Joined(w, p, f.limit), k) {
      JoinedOfRank(w, p, f.limit, k, f.queues[k], n);
    }
  }

  lemma {:induction false} JoinedOfRank(w: seq<Packet>, p: Packet, limit: nat, k: nat, q: seq<Packet>, n: nat)
    requires q == OfRank(w, k) && (k == Rank(p) ==> n == Excess(q, limit))
    ensures OfRank(Joined(w, p, limit), k) == if k == Rank(p) then q[n..] + [p] else q
  {
    var v := if limit == 0 then w else Newest(w, Rank(p), limit - 1);
    OfRankConcat(v, [p], k);
    OfRankCons(p, [], k);
    if k != Rank(p) {
      if limit > 0 {
        NewestOther(w, Rank(p), limit - 1, k);
      }
      AddNothing(q);
    } else if limit > 0 {
      NewestOwn(w, k, limit - 1);
    }
  }

  lemma {:induction false} AdmitRefines(cfg: Config, f: Flow, w: seq<Packet>, p: Packet, g: Flow)
    requires Refines(f, w) && g == Admit(cfg, f, p)
    ensures Refines(g, Admitted(cfg, f, w, p))
  {
    AheadMeansNothing(f, w, Rank(p));
    if Ahead(f.queues, Rank(p)) == 0 {
      if Delay(cfg, f, p.tx) != 0 {
        EnqueueRefines(cfg, Ask(f, p.tx), w, p, g);
      }
    } else {
      EnqueueRefines(cfg, f, w, p, g);
    }
  }

  /** What a request finds after the expired packets are gone. */
  lemma {:induction false} RequestFinds(cfg: Config, f: Flow, w: seq<Packet>, p: Packet, l: Duration, g: Flow)
    returns (d: Flow)
    requires Refines(f, w) && p == Packet(f.requests, p.tx, f.now + l) && g == Request(cfg, f, p.tx, l)
    ensures Refines(d, InTime(w, f.now)) && g == Admit(cfg, d, p)
    ensures d == f.(queues := d.queues, log := d.log, requests := f.requests + 1)
    ensures SentOnly(d.log) == SentOnly(f.log)
  {
    d := DropExpired(f).(requests := f.requests + 1);
    RequestIs(cfg, f, p.tx, l, p, d);
    DropRefines(f, w, d);
    DropExpiredSends(f, 0);
  }

  lemma {:induction false} SameAdmitted(cfg: Config, f: Flow, d: Flow, v: seq<Packet>, p: Packet)
    requires d.calls == f.calls && d.now == f.now && d.limit == f.limit
    ensures Admitted(cfg, d, v, p) == Admitted(cfg, f, v, p)
  {
  }

  lemma {:induction false} AdmitIsNext(cfg: Config, f: Flow, v: seq<Packet>, p: Packet, d: Flow, g: Flow)
    requires Refines(d, v) && d.calls == f.calls && d.now == f.now && d.limit == f.limit && g == Admit(cfg, d, p)
    ensures Refines(g, Admitted(cfg, f, v, p))
  {
    AdmitRefines(cfg, d, v, p, g);
    SameAdmitted(cfg, f, d, v, p);
  }

  lemma {:induction false} RequestRefines(cfg: Config, f: Flow, w: seq<Packet>, p: Packet, l: Duration, g: Flow)
    requires Refines(f, w) && p == Packet(f.requests, p.tx, f.now + l) && g == Request(cfg, f, p.tx, l)
    ensures Refines(g, Admitted(cfg, f, InTime(w, f.now), p))
  {
    var d := RequestFinds(cfg, f, w, p, l, g);
    AdmitIsNext(cfg, f, InTime(w, f.now), p, d, g);
  }

  lemma {:induction false} DequeueRefines(cfg: Config, f: Flow, w: seq<Packet>, c: Choice, g: Flow)
    requires Refines(f, w) && c == NextQueue(cfg, f).0 && g == Dequeue(cfg, f)
    ensures Refines(g, if c.Nothing? then w else Minus(w, c.rank))
  {
    ScanFromNonEmpty(cfg, f, 0, Nothing, MAX_DURATION);
    if c.Choose? {
      forall k | 0 <= k < 4 ensures g.queues[k] == OfRank(Minus(w, c.rank), k) {
        if k == c.rank {
          MinusOwn(w, k);
        } else {
          MinusOther(w, c.rank, k);
        }
      }
    }
  }

  lemma {:induction false} ScheduleNextQueues(cfg: Config, f: Flow)
    requires Shaped(f)
    ensures ScheduleNext(cfg, f).queues == f.queues
  {
    ScanFromNonEmpty(cfg, f, 0, Nothing, MAX_DURATION);
  }

  lemma {:induction false} TriggerRefines(cfg: Config, f: Flow, w: seq<Packet>, d: Flow, c: Choice, g: Flow)
    requires Refines(f, w) && d == DropExpired(f) && c == NextQueue(cfg, d).0 && g == Trigger(cfg, f)
    ensures Refines(g, if c.Nothing? then InTime(w, f.now) else Minus(InTime(w, f.now), c.rank))
  {
    DropRefines(f, w, d);
    var e := Dequeue(cfg, d);
    DequeueRefines(cfg, d, InTime(w, f.now), c, e);
    ScheduleNextQueues(cfg, e);
  }

  lemma {:induction false} RescheduleQueues(cfg: Config, f: Flow)
    requires Shaped(f)
    ensures Reschedule(cfg, f).queues == f.queues
  {
    ScanFromNonEmpty(cfg, f, 0, Nothing, MAX_DURATION);
  }

  lemma {:induction false} PopRefines(cfg: Config, f: Flow, w: seq<Packet>, h: Flow, g: Flow)
    requires Refines(f, w) && Triggers(cfg, f) && h == f.(runtime := f.runtime[1..]) && g == Trigger(cfg, h)
    ensures Refines(g, Next(cfg, f, w, PopDue))
  {
    TriggerRefines(cfg, h, w, DropExpired(h), Chosen(cfg, f), g);
  }

  /** Every step does to the waiting packets what the plain list says. */
  lemma {:induction false} StepRefinesList(cfg: Config, f: Flow, w: seq<Packet>, op: Op, g: Flow)
    requires Refines(f, w) && g == Step(cfg, f, op)
    ensures Refines(g, Next(cfg, f, w, op))
  {
    if op.Submit? {
      SubmitRefines(cfg, f, w, op, g);
    } else if op.PopDue? {
      PopDueRefines(cfg, f, w, g);
    } else if op.Reevaluate? {
      RescheduleQueues(cfg, f);
    }
  }

  lemma {:induction false} NextSubmit(cfg: Config, f: Flow, w: seq<Packet>, op: Op, p: Packet)
    requires Shaped(f) && op.Submit? && p == Packet(f.requests, op.tx, f.now + op.lifetime)
    ensures Next(cfg, f, w, op) == Admitted(cfg, f, InTime(w, f.now), p)
  {
  }

  lemma {:induction false} SubmitRefines(cfg: Config, f: Flow, w: seq<Packet>, op: Op, g: Flow)
    requires Refines(f, w) && op.Submit? && g == Step(cfg, f, op)
    ensures Refines(g, Next(cfg, f, w, op))
  {
    var p := Packet(f.requests, op.tx, f.now + op.lifetime);
    NextSubmit(cfg, f, w, op, p);
    RequestRefines(cfg, f, w, p, op.lifetime, g);
  }

  lemma {:induction false} PopDueRefines(cfg: Config, f: Flow, w: seq<Packet>, g: Flow)
    requires Refines(f, w) && g == Popped(cfg, f)
    ensures Refines(g, Next(cfg, f, w, PopDue))
  {
    if Triggers(cfg, f) {
      PopRefines(cfg, f, w, f.(runtime := f.runtime[1..]), g);
    }
  }

  // ---------------------------------------------------------------- what is sent

  /** The transmissions in a history. */
  function SentOnly(log: seq<Event>): seq<Event> {
    if log == [] then []
    else SentOnly(log[..|log| - 1]) + if log[|log| - 1].Sent? then [log[|log| - 1]] else []
  }

  lemma {:induction false} SentAppend(log: seq<Event>, e: Event)
    ensures SentOnly(log + [e]) == if e.Sent? then SentOnly(log) + [e] else SentOnly(log)
  {
    TakeInit(log, e);
  }

  lemma {:induction false} SentDrops(log: seq<Event>, r: Rank, n: nat)
    ensures SentOnly(log + Drops(r, n)) == SentOnly(log)
  {
    if n == 0 {
      AddNothing(log);
    } else {
      SentDrops(log, r, n - 1);
      SentAppend(log + Drops(r, n - 1), Dropped(r));
      Assoc(log, Drops(r, n - 1), [Dropped(r)]);
    }
  }

  lemma {:induction false} DropExpiredSends(f: Flow, r: nat)
    requires Shaped(f) && r <= 4
    ensures SentOnly(DropExpiredFrom(f, r).log) == SentOnly(f.log)
    decreases 4 - r
  {
    if r < 4 {
      var (q, alive) := (f.queues[r], Alive(f.queues[r], f.now));
      AliveLength(q, f.now);
      SentDrops(f.log, r, |q| - |alive|);
      DropExpiredSends(f.(queues := f.queues[r := alive], log := f.log + Drops(r, |q| - |alive|)), r + 1);
    }
  }

  lemma {:induction false} EnqueueSends(cfg: Config, f: Flow, p: Packet, g: Flow)
    requires Shaped(f) && g == Enqueue(cfg, f, p)
    ensures SentOnly(g.log) == SentOnly(f.log)
  {
    SentDrops(f.log, Rank(p), Excess(f.queues[Rank(p)], f.limit));
  }

  lemma {:induction false} AdmitSends(cfg: Config, f: Flow, p: Packet, g: Flow)
    requires Shaped(f) && g == Admit(cfg, f, p)
    ensures SentOnly(g.log) == SentOnly(f.log) +
              if Ahead(f.queues, Rank(p)) == 0 && Delay(cfg, f, p.tx) == 0
              then [Sent(p.number, Rank(p), f.now, p.expiry, true, 0, 0)] else []
  {
    AddNothing(SentOnly(f.log));
    if Ahead(f.queues, Rank(p)) == 0 {
      if Delay(cfg, f, p.tx) == 0 {
        SentAppend(f.log, Sent(p.number, Rank(p), f.now, p.expiry, true, 0, 0));
      } else {
        EnqueueSends(cfg, Ask(f, p.tx), p, g);
      }
    } else {
      EnqueueSends(cfg, f, p, g);
    }
  }

  /** A request is sent at once if and only if nothing of its rank or above waits and it has no delay. */
  lemma {:induction false} RequestSends(cfg: Config, f: Flow, w: seq<Packet>, p: Packet, l: Duration, g: Flow)
    requires Refines(f, w) && p == Packet(f.requests, p.tx, f.now + l) && g == Request(cfg, f, p.tx, l)
    ensures SentOnly(g.log) == SentOnly(f.log) +
              if NothingAhead(InTime(w, f.now), Rank(p)) && Delay(cfg, f, p.tx) == 0
              then [Sent(p.number, Rank(p), f.now, p.expiry, true, 0, 0)] else []
  {
    var d := RequestFinds(cfg, f, w, p, l, g);
    AheadMeansNothing(d, InTime(w, f.now), Rank(p));
    AdmitSends(cfg, d, p, g);
  }

  /** A trigger sends the oldest packet of the chosen rank. */
  lemma {:induction false} TriggerSendsOldest(cfg: Config, f: Flow, w: seq<Packet>, d: Flow, c: Choice, g: Flow)
    returns (ahead: nat)
    requires Refines(f, w) && d == DropExpired(f) && c == NextQueue(cfg, d).0 && g == Trigger(cfg, f)
    ensures c.Nothing? ==> SentOnly(g.log) == SentOnly(f.log)
    ensures c.Choose? ==> OfRank(InTime(w, f.now), c.rank) != []
    ensures c.Choose? ==>
              var p := OfRank(InTime(w, f.now), c.rank)[0];
              SentOnly(g.log) == SentOnly(f.log) + [Sent(p.number, Rank(p), f.now, p.expiry, false, ahead, c.delay)]
  {
    DropRefines(f, w, d);
    DropExpiredSends(f, 0);
    var e := Dequeue(cfg, d);
    ScanFromNonEmpty(cfg, d, 0, Nothing, MAX_DURATION);
    ScheduleNextLog(cfg, e);
    ahead := 0;
    if c.Choose? {
      ahead := DequeueSends(cfg, d, c, e);
    }
  }

  lemma {:induction false} ScheduleNextLog(cfg: Config, f: Flow)
    requires Shaped(f)
    ensures ScheduleNext(cfg, f).log == f.log
  {
    ScanFromNonEmpty(cfg, f, 0, Nothing, MAX_DURATION);
  }

  lemma {:induction false} DequeueSends(cfg: Config, f: Flow, c: Choice, g: Flow) returns (ahead: nat)
    requires Shaped(f) && c == NextQueue(cfg, f).0 && c.Choose? && g == Dequeue(cfg, f)
    ensures f.queues[c.rank] != []
    ensures var p := f.queues[c.rank][0];
            SentOnly(g.log) == SentOnly(f.log) + [Sent(p.number, Rank(p), f.now, p.expiry, false, ahead, c.delay)]
  {
    ScanFromNonEmpty(cfg, f, 0, Nothing, MAX_DURATION);
    SentAppend(f.log, g.log[|f.log|]);
    ahead := g.log[|f.log|].ahead;
  }

  // ---------------------------------------------------------------- what the rate control hears of

  /** Questions are no notices. */
  lemma {:induction false} ScanAsks(
    cfg: Config, f: Flow, r: nat, best: Choice, least: Duration, c: Choice, a: Flow)
    requires Shaped(f) && r <= 4 && (c, a) == ScanFrom(cfg, f, r, best, least)
    ensures Notices(a.calls) == Notices(f.calls)
    decreases 4 - r
  {
    if r < 4 {
      if f.queues[r] == [] {
        ScanAsks(cfg, f, r + 1, best, least, c, a);
      } else {
        var tx := f.queues[r][0].tx;
        NoticesAppend(f.calls, Asked(f.now, tx));
        if Delay(cfg, f, tx) < least {
          ScanAsks(cfg, Ask(f, tx), r + 1, Choose(r, Delay(cfg, f, tx)), Delay(cfg, f, tx), c, a);
        } else {
          ScanAsks(cfg, Ask(f, tx), r + 1, best, least, c, a);
        }
      }
    }
  }

  lemma {:induction false} AdmitNotifies(cfg: Config, f: Flow, p: Packet, g: Flow)
    requires Shaped(f) && g == Admit(cfg, f, p)
    ensures Notices(g.calls) == Notices(f.calls) +
              if Ahead(f.queues, Rank(p)) == 0 && Delay(cfg, f, p.tx) == 0 then [Notified(f.now, p.tx)] else []
  {
    AddNothing(Notices(f.calls));
    NoticesAppend(f.calls, Asked(f.now, p.tx));
    if Ahead(f.queues, Rank(p)) != 0 {
      EnqueueNotices(cfg, f, p, g);
    } else if Delay(cfg, f, p.tx) != 0 {
      EnqueueNotices(cfg, Ask(f, p.tx), p, g);
    } else {
      NoticesAppend(Ask(f, p.tx).calls, Notified(f.now, p.tx));
    }
  }

  lemma {:induction false} EnqueueNotices(cfg: Config, f: Flow, p: Packet, g: Flow)
    requires Shaped(f) && g == Enqueue(cfg, f, p)
    ensures Notices(g.calls) == Notices(f.calls)
  {
    NoticesAppend(f.calls, Asked(f.now, p.tx));
  }

  /** A request notifies the rate control if and only if it is sent at once. */
  lemma {:induction false} RequestNotifies(cfg: Config, f: Flow, w: seq<Packet>, p: Packet, l: Duration, g: Flow)
    requires Refines(f, w) && p == Packet(f.requests, p.tx, f.now + l) && g == Request(cfg, f, p.tx, l)
    ensures Notices(g.calls) == Notices(f.calls) +
              if NothingAhead(InTime(w, f.now), Rank(p)) && Delay(cfg, f, p.tx) == 0
              then [Notified(f.now, p.tx)] else []
  {
    var d := RequestFinds(cfg, f, w, p, l, g);
    AheadMeansNothing(d, InTime(w, f.now), Rank(p));
    AdmitNotifies(cfg, d, p, g);
  }

  lemma {:induction false} DequeueNotifies(cfg: Config, f: Flow, c: Choice, a: Flow, g: Flow)
    requires Shaped(f) && (c, a) == NextQueue(cfg, f) && g == Dequeue(cfg, f)
    ensures c.Nothing? ==> Notices(g.calls) == Notices(f.calls)
    ensures c.Choose? ==> f.queues[c.rank] != []
    ensures c.Choose? ==> Notices(g.calls) == Notices(f.calls) + [Notified(f.now, f.queues[c.rank][0].tx)]
  {
    ScanAsks(cfg, f, 0, Nothing, MAX_DURATION, c, a);
    if c.Choose? {
      DequeueIs(cfg, f, c, a);
      NoticesAppend(a.calls, Notified(f.now, f.queues[c.rank][0].tx));
    }
  }

  lemma {:induction false} ScheduleNextNotices(cfg: Config, f: Flow, c: Choice, a: Flow)
    requires Shaped(f) && (c, a) == NextQueue(cfg, f)
    ensures Notices(ScheduleNext(cfg, f).calls) == Notices(f.calls)
  {
    ScanAsks(cfg, f, 0, Nothing, MAX_DURATION, c, a);
    if c.Choose? {
      ScheduleNextIs(cfg, f, c, a);
      NoticesAppend(a.calls, Asked(f.now, f.queues[c.rank][0].tx));
    }
  }

  /** A trigger notifies it of the packet it sends, if any. */
  lemma {:induction false} TriggerNotifies(cfg: Config, f: Flow, w: seq<Packet>, d: Flow, c: Choice, a: Flow, g: Flow)
    requires Refines(f, w) && d == DropExpired(f) && (c, a) == NextQueue(cfg, d) && g == Trigger(cfg, f)
    ensures c.Nothing? ==> Notices(g.calls) == Notices(f.calls)
    ensures c.Choose? ==> OfRank(InTime(w, f.now), c.rank) != []
    ensures c.Choose? ==>
              Notices(g.calls) == Notices(f.calls) + [Notified(f.now, OfRank(InTime(w, f.now), c.rank)[0].tx)]
  {
    DropRefines(f, w, d);
    var e := Dequeue(cfg, d);
    DequeueNotifies(cfg, d, c, a, e);
    ScheduleNextNotices(cfg, e, NextQueue(cfg, e).0, NextQueue(cfg, e).1);
  }

  /** DP0 has the highest priority, DP3 the lowest. */
  lemma {:induction false} ProfilesByPriority(p: Profile)
    ensures RankOf(DP0) < RankOf(DP1) < RankOf(DP2) < RankOf(DP3)
    ensures p == [DP0, DP1, DP2, DP3][RankOf(p)]
  {
  }

  // ---------------------------------------------------------------- which triggers are scheduled

  lemma {:induction false} EnqueueSchedules(cfg: Config, f: Flow, p: Packet, e: Scheduled, g: Flow)
    requires Shaped(f) && g == Enqueue(cfg, f, p) && e == Scheduled(f.now + Delay(cfg, f, p.tx), cfg.self)
    ensures Queued(f) == 0 ==> g.runtime == Scheduling(f.runtime, e)
    ensures Queued(f) != 0 ==> g.runtime == f.runtime
  {
  }

  lemma {:induction false} NothingWaits(f: Flow, w: seq<Packet>)
    requires Refines(f, w)
    ensures Queued(f) == 0 <==> w == []
  {
    AheadMeansNothing(f, w, 3);
    assert w != [] ==> Rank(w[0]) <= 3;
  }

  lemma {:induction false} AdmitSchedules(cfg: Config, f: Flow, w: seq<Packet>, p: Packet, e: Scheduled, g: Flow)
    requires Refines(f, w) && e == Scheduled(f.now + Delay(cfg, Ask(f, p.tx), p.tx), cfg.self) && g == Admit(cfg, f, p)
    ensures w == [] && Delay(cfg, f, p.tx) != 0 ==> g.runtime == Scheduling(f.runtime, e)
    ensures w != [] || Delay(cfg, f, p.tx) == 0 ==> g.runtime == f.runtime
  {
    NothingWaits(f, w);
    AheadMeansNothing(f, w, Rank(p));
    if Ahead(f.queues, Rank(p)) != 0 {
      EnqueueSchedules(cfg, f, p, Scheduled(f.now + Delay(cfg, f, p.tx), cfg.self), g);
    } else if Delay(cfg, f, p.tx) != 0 {
      EnqueueSchedules(cfg, Ask(f, p.tx), p, e, g);
    }
  }

  /**
   * A request schedules a trigger if and only if it has to wait and nothing else does, for after the
   * delay that the rate control answers to the second question.
   */
  lemma {:induction false} RequestSchedules(
    cfg: Config, f: Flow, w: seq<Packet>, p: Packet, l: Duration, e: Scheduled, g: Flow)
    requires Refines(f, w) && p == Packet(f.requests, p.tx, f.now + l) && g == Request(cfg, f, p.tx, l)
    requires e == Scheduled(f.now + Delay(cfg, Ask(f, p.tx), p.tx), cfg.self)
    ensures InTime(w, f.now) == [] && Delay(cfg, f, p.tx) != 0 ==> g.runtime == Scheduling(f.runtime, e)
    ensures InTime(w, f.now) != [] || Delay(cfg, f, p.tx) == 0 ==> g.runtime == f.runtime
  {
    var d := RequestFinds(cfg, f, w, p, l, g);
    AdmitSchedules(cfg, d, InTime(w, f.now), p, e, g);
  }

  /** e is the callback for the first packet of the chosen queue, after one more question for it. */
  ghost predicate CallsBack(cfg: Config, f: Flow, c: Choice, a: Flow, e: Scheduled)
    requires Shaped(f)
  {
    c.Choose? && f.queues[c.rank] != [] && e == Scheduled(f.now + Delay(cfg, a, f.queues[c.rank][0].tx), cfg.self)
  }

  /** A trigger schedules the next one if and only if a queue can be chosen then, for the delay of its first packet. */
  lemma {:induction false} TriggerSchedules(cfg: Config, f: Flow, d: Flow, c: Choice, a: Flow, e: Scheduled, g: Flow)
    requires Shaped(f) && d == Dequeue(cfg, DropExpired(f)) && (c, a) == NextQueue(cfg, d) && g == Trigger(cfg, f)
    ensures CallsBack(cfg, d, c, a, e) ==> g.runtime == Scheduling(f.runtime, e)
    ensures c.Nothing? ==> g.runtime == f.runtime
  {
    DequeueRuntime(cfg, DropExpired(f));
    ScheduleNextRuntime(cfg, d, c, a, e, g);
  }

  lemma {:induction false} ScheduleNextRuntime(cfg: Config, f: Flow, c: Choice, a: Flow, e: Scheduled, g: Flow)
    requires Shaped(f) && (c, a) == NextQueue(cfg, f) && g == ScheduleNext(cfg, f)
    ensures CallsBack(cfg, f, c, a, e) ==> g.runtime == Scheduling(f.runtime, e)
    ensures c.Nothing? ==> g.runtime == f.runtime
  {
    if c.Choose? {
      ScheduleNextIs(cfg, f, c, a);
    }
  }

  lemma {:induction false} DequeueRuntime(cfg: Config, f: Flow)
    requires Shaped(f)
    ensures Dequeue(cfg, f).runtime == f.runtime
  {
    ScanFromNonEmpty(cfg, f, 0, Nothing, MAX_DURATION);
  }

  /** Rescheduling replaces all pending triggers by one for the delay of the chosen packet. */
  lemma {:induction false} RescheduleSchedules(cfg: Config, f: Flow, c: Choice, a: Flow, e: Scheduled, g: Flow)
    requires Shaped(f) && (c, a) == NextQueue(cfg, f) && g == Reschedule(cfg, f)
    ensures CallsBack(cfg, f, c, a, e) ==> g.runtime == Scheduling(Cancelled(f.runtime, cfg.self), e)
    ensures c.Nothing? ==> g.runtime == f.runtime
  {
    if CallsBack(cfg, f, c, a, e) {
      var b := a.(runtime := Cancelled(f.runtime, cfg.self));
      RescheduleIs(cfg, f, c, a);
      ScheduledIs(cfg, b, f.queues[c.rank][0].tx, e, g);
    }
  }

  lemma {:induction false} ScheduledIs(cfg: Config, f: Flow, tx: Transmission, e: Scheduled, g: Flow)
    requires g == ScheduleTrigger(cfg, f, tx) && e == Scheduled(f.now + Delay(cfg, f, tx), cfg.self)
    ensures g.runtime == Scheduling(f.runtime, e)
  {
  }

  lemma {:induction false} RescheduleIs(cfg: Config, f: Flow, c: Choice, a: Flow)
    requires Shaped(f) && (c, a) == NextQueue(cfg, f) && c.Choose?
    ensures f.queues[c.rank] != []
    ensures Reschedule(cfg, f)
         == ScheduleTrigger(cfg, a.(runtime := Cancelled(f.runtime, cfg.self)), f.queues[c.rank][0].tx)
  {
    ScanFromNonEmpty(cfg, f, 0, Nothing, MAX_DURATION);
  }

  // ---------------------------------------------------------------- request order

  /** The packets are in request order, with numbers from low up to high. */
  ghost predicate Between(w: seq<Packet>, low: int, high: int) {
    && (forall i :: 0 <= i < |w| ==> low <= w[i].number < high)
    && (forall i, j :: 0 <= i < j < |w| ==> w[i].number < w[j].number)
  }

  lemma {:induction false} BetweenTail(w: seq<Packet>, low: int, high: int)
    requires Between(w, low, high) && w != []
    ensures Between(w[1..], w[0].number + 1, high) && low <= w[0].number < high
  {
  }

  lemma {:induction false} BetweenCons(p: Packet, w: seq<Packet>, low: int, high: int)
    requires low <= p.number < high && Between(w, p.number + 1, high)
    ensures Between([p] + w, low, high) && Between(w, low, high)
  {
  }

  lemma {:induction false} InTimeOrder(w: seq<Packet>, now: Time, low: int, high: int)
    requires Between(w, low, high)
    ensures Between(InTime(w, now), low, high)
  {
    if w != [] {
      BetweenTail(w, low, high);
      InTimeOrder(w[1..], now, w[0].number + 1, high);
      BetweenCons(w[0], InTime(w[1..], now), low, high);
      AddNothing(InTime(w[1..], now));
    }
  }

  lemma {:induction false} NewestOrder(w: seq<Packet>, r: nat, m: nat, low: int, high: int)
    requires Between(w, low, high)
    ensures Between(Newest(w, r, m), low, high)
  {
    if w != [] {
      BetweenTail(w, low, high);
      NewestOrder(w[1..], r, m, w[0].number + 1, high);
      BetweenCons(w[0], Newest(w[1..], r, m), low, high);
    }
  }

  lemma {:induction false} MinusOrder(w: seq<Packet>, r: nat, low: int, high: int)
    requires Between(w, low, high)
    ensures Between(Minus(w, r), low, high)
  {
    if w != [] {
      BetweenTail(w, low, high);
      BetweenCons(w[0], w[1..], low, high);
      MinusOrder(w[1..], r, w[0].number + 1, high);
      BetweenCons(w[0], Minus(w[1..], r), low, high);
    }
  }

  lemma {:induction false} JoinedOrder(w: seq<Packet>, p: Packet, limit: nat)
    requires Between(w, 0, p.number)
    ensures Between(Joined(w, p, limit), 0, p.number + 1)
  {
    if limit > 0 {
      NewestOrder(w, Rank(p), limit - 1, 0, p.number);
    }
  }

  lemma {:induction false} NextOrder(cfg: Config, f: Flow, w: seq<Packet>, op: Op, n: nat)
    requires Shaped(f) && Between(w, 0, f.requests) && n == f.requests + if op.Submit? then 1 else 0
    ensures Between(Next(cfg, f, w, op), 0, n)
  {
    InTimeOrder(w, f.now, 0, f.requests);
    if op.Submit? {
      JoinedOrder(InTime(w, f.now), Packet(f.requests, op.tx, f.now + op.lifetime), f.limit);
    } else if op.PopDue? && Triggers(cfg, f) && Chosen(cfg, f).Choose? {
      MinusOrder(InTime(w, f.now), Chosen(cfg, f).rank, 0, f.requests);
    }
  }

  // ---------------------------------------------------------------- runs

  /** What waits after a run. */
  ghost function NextAll(cfg: Config, f: Flow, w: seq<Packet>, ops: seq<Op>): seq<Packet>
    requires Shaped(f)
    decreases |ops|
  {
    if ops == [] then w else NextAll(cfg, Step(cfg, f, ops[0]), Next(cfg, f, w, ops[0]), ops[1..])
  }

  lemma {:induction false} StepRequests(cfg: Config, f: Flow, op: Op)
    requires Shaped(f)
    ensures Step(cfg, f, op).requests == f.requests + if op.Submit? then 1 else 0
  {
    ScanFromNonEmpty(cfg, f, 0, Nothing, MAX_DURATION);
    if op.PopDue? && Triggers(cfg, f) {
      var d := DropExpired(f.(runtime := f.runtime[1..]));
      ScanFromNonEmpty(cfg, d, 0, Nothing, MAX_DURATION);
      ScanFromNonEmpty(cfg, Dequeue(cfg, d), 0, Nothing, MAX_DURATION);
    }
  }

  /** After every run the queues are the plain list by rank, and the list is in request order. */
  lemma {:induction false} RunRefinesList(cfg: Config, f: Flow, w: seq<Packet>, ops: seq<Op>, g: Flow, v: seq<Packet>)
    requires Refines(f, w) && Between(w, 0, f.requests)
    requires g == Run(cfg, f, ops) && v == NextAll(cfg, f, w, ops)
    ensures Refines(g, v) && Between(v, 0, g.requests)
    decreases |ops|
  {
    if ops != [] {
      var (h, u) := (Step(cfg, f, ops[0]), Next(cfg, f, w, ops[0]));
      StepRefinesList(cfg, f, w, ops[0], h);
      StepRequests(cfg, f, ops[0]);
      NextOrder(cfg, f, w, ops[0], h.requests);
      RunRefinesList(cfg, h, u, ops[1..], g, v);
    }
  }

  // ---------------------------------------------------------------- the limit

  ghost predicate WithinLimit(w: seq<Packet>, limit: nat) {
    limit > 0 ==> forall r :: 0 <= r < 4 ==> |OfRank(w, r)| <= limit
  }

  lemma {:induction false} JoinedWithin(w: seq<Packet>, p: Packet, limit: nat)
    requires WithinLimit(w, limit)
    ensures WithinLimit(Joined(w, p, limit), limit)
  {
    if limit > 0 {
      forall r | 0 <= r < 4 ensures |OfRank(Joined(w, p, limit), r)| <= limit {
        JoinedOfRank(w, p, limit, r, OfRank(w, r), Excess(OfRank(w, r), limit));
      }
    }
  }

  lemma {:induction false} InTimeWithin(w: seq<Packet>, now: Time, limit: nat)
    requires WithinLimit(w, limit)
    ensures WithinLimit(InTime(w, now), limit)
  {
    forall r | 0 <= r < 4 ensures |OfRank(InTime(w, now), r)| <= |OfRank(w, r)| {
      InTimeOfRank(w, r, now);
      AliveLength(OfRank(w, r), now);
    }
  }

  lemma {:induction false} MinusWithin(w: seq<Packet>, k: nat, limit: nat)
    requires WithinLimit(w, limit)
    ensures WithinLimit(Minus(w, k), limit)
  {
    forall r | 0 <= r < 4 ensures |OfRank(Minus(w, k), r)| <= |OfRank(w, r)| {
      if r != k {
        MinusOther(w, k, r);
      } else if OfRank(w, r) != [] {
        MinusOwn(w, r);
      } else {
        MinusNone(w, r);
      }
    }
  }

  lemma {:induction false} MinusNone(w: seq<Packet>, r: nat)
    requires OfRank(w, r) == []
    ensures Minus(w, r) == w
  {
    if w != [] {
      AddNothing(OfRank(w[1..], r));
      MinusNone(w[1..], r);
    }
  }

  lemma {:induction false} NextWithin(cfg: Config, f: Flow, w: seq<Packet>, op: Op)
    requires Shaped(f) && WithinLimit(w, f.limit)
    ensures WithinLimit(Next(cfg, f, w, op), f.limit)
  {
    InTimeWithin(w, f.now, f.limit);
    if op.Submit? {
      JoinedWithin(InTime(w, f.now), Packet(f.requests, op.tx, f.now + op.lifetime), f.limit);
    } else if op.PopDue? && Triggers(cfg, f) && Chosen(cfg, f).Choose? {
      MinusWithin(InTime(w, f.now), Chosen(cfg, f).rank, f.limit);
    }
  }

  lemma {:induction false} StepLimit(cfg: Config, f: Flow, op: Op)
    requires Shaped(f) && !op.SetLimit?
    ensures Step(cfg, f, op).limit == f.limit
  {
    ScanFromNonEmpty(cfg, f, 0, Nothing, MAX_DURATION);
    if op.PopDue? && Triggers(cfg, f) {
      var d := DropExpired(f.(runtime := f.runtime[1..]));
      ScanFromNonEmpty(cfg, d, 0, Nothing, MAX_DURATION);
      ScanFromNonEmpty(cfg, Dequeue(cfg, d), 0, Nothing, MAX_DURATION);
    }
  }

  /** As long as the limit is not changed, no queue ever exceeds it. */
  lemma {:induction false} RunWithinLimit(cfg: Config, f: Flow, w: seq<Packet>, ops: seq<Op>, r: nat)
    requires Refines(f, w) && WithinLimit(w, f.limit) && r < 4
    requires forall i :: 0 <= i < |ops| ==> !ops[i].SetLimit?
    ensures f.limit > 0 ==> |Run(cfg, f, ops).queues[r]| <= f.limit
    decreases |ops|
  {
    if ops != [] {
      var (h, u) := (Step(cfg, f, ops[0]), Next(cfg, f, w, ops[0]));
      StepRefinesList(cfg, f, w, ops[0], h);
      StepLimit(cfg, f, ops[0]);
      NextWithin(cfg, f, w, ops[0]);
      RunWithinLimit(cfg, h, u, ops[1..], r);
    }
  }
}
