/**
 * The flow control itself: its methods change the queues, the runtime and the rate control step by step
 * and are proved to compute the functions of FlowModel.
 */
module FlowControl {
  import opened Sequences
  import opened Runtime
  import opened FlowModel
  import opened FlowRuns

  /** Any rate control: what it answers depends on everything it has been asked and told. */
  class RateControl {
    const throttle: (seq<Call>, Time, Transmission) -> Duration
    const runtime: ManualRuntime
    var calls: seq<Call>

    constructor (throttle: (seq<Call>, Time, Transmission) -> Duration, runtime: ManualRuntime)
      ensures this.throttle == throttle && this.runtime == runtime && calls == []
    {
      this.throttle, this.runtime, calls := throttle, runtime, [];
    }

    method DelayOf(tx: Transmission) returns (delay: Duration)
      modifies this
      ensures delay == throttle(old(calls), runtime.now, tx)
      ensures calls == old(calls) + [Asked(runtime.now, tx)]
    {
      delay := throttle(calls, runtime.now, tx);
      calls := calls + [Asked(runtime.now, tx)];
    }

    method NotifyOf(tx: Transmission)
      modifies this
      ensures calls == old(calls) + [Notified(runtime.now, tx)]
    {
      calls := calls + [Notified(runtime.now, tx)];
    }
  }

  class Control {
    const self: Scope
    const runtime: ManualRuntime
    const trc: RateControl
    var queues: seq<seq<Packet>>
    var limit: nat
    var requests: nat
    ghost var log: seq<Event>

    ghost function Cfg(): Config {
      Config(self, trc.throttle)
    }

    ghost function View(): Flow
      reads this, runtime, trc
    {
      Flow(queues, limit, runtime.now, runtime.queue, trc.calls, requests, log)
    }

    ghost predicate Valid()
      reads this, runtime, trc
    {
      trc.runtime == runtime && Inv(Cfg(), View())
    }

    constructor (self: Scope, runtime: ManualRuntime, trc: RateControl)
      requires self != 0 && trc.runtime == runtime && trc.calls == []
      ensures Valid() && this.self == self && this.runtime == runtime && this.trc == trc
      ensures View() == Initial(runtime.now, runtime.queue)
    {
      this.self, this.runtime, this.trc := self, runtime, trc;
      queues, limit, requests, log := [[], [], [], []], 0, 0, [];
      new;
      InitialInv(Cfg(), runtime.now, runtime.queue);
    }

    method SubmitRequest(tx: Transmission, lifetime: Duration)
      requires Valid()
      modifies this, runtime, trc
      ensures Valid() && View() == Request(Cfg(), old(View()), tx, lifetime)
    {
      ghost var f := View();
      DropAllExpired();
      var p := Packet(requests, tx, ExpiryOf(runtime.now, lifetime));
      requests := requests + 1;
      RequestIs(Cfg(), f, tx, lifetime, p, View());
      SendOrQueue(p);
      RequestInv(Cfg(), f, tx, lifetime, View());
    }

    method OnTrigger()
      requires trc.runtime == runtime && self != 0 && Core(View(), 0, requests)
      modifies this, runtime, trc
      ensures Valid() && View() == Trigger(Cfg(), old(View()))
    {
      ghost var f := View();
      DropAllExpired();
      var found, rank, least := FindNextQueue();
      if found {
        var p := queues[rank][0];
        queues := queues[rank := queues[rank][1..]];
        trc.NotifyOf(p.tx);
        Pass(p, false, least);
      }
      assert View() == Dequeue(Cfg(), DropExpired(f));
      found, rank, least := FindNextQueue();
      if found {
        ScheduleOne(queues[rank][0].tx);
      }
      TriggerInv(Cfg(), f, View());
    }

    method OnReschedule()
      requires Valid()
      modifies this, runtime, trc
      ensures Valid() && View() == Reschedule(Cfg(), old(View()))
    {
      ghost var f := View();
      var found, rank, least := FindNextQueue();
      if found {
        runtime.Cancel(self);
        ScheduleOne(queues[rank][0].tx);
      }
      RescheduleInv(Cfg(), f, View());
    }

    method QueueLength(length: nat)
      requires Valid()
      modifies this
      ensures Valid() && View() == old(View()).(limit := length)
    {
      ghost var f := View();
      limit := length;
      CoreFrame(f, 0, requests, View());
    }

    // -------------------------------------------------------------- private methods

    method SendOrQueue(p: Packet)
      requires Shaped(View()) && trc.runtime == runtime
      modifies this, runtime, trc
      ensures View() == Admit(Cfg(), old(View()), p)
    {
      var now := TransmitImmediately(p.tx);
      if now {
        trc.NotifyOf(p.tx);
        Pass(p, true, 0);
      } else {
        Append(p);
      }
    }

    method ScheduleOne(tx: Transmission)
      requires trc.runtime == runtime
      modifies runtime, trc
      ensures View() == ScheduleTrigger(Cfg(), old(View()), tx)
    {
      var delay := trc.DelayOf(tx);
      runtime.Schedule(runtime.now + delay, self);
    }

    method Pass(p: Packet, ghost immediate: bool, ghost delay: Duration)
      requires Shaped(View())
      modifies this`log
      ensures View() == Transmit(old(View()), p, immediate, delay)
    {
      // the transmit hook and the access layer receive the packet here
      ghost var r := RankOf(p.tx.profile);
      log := log + [Sent(p.number, r, runtime.now, p.expiry, immediate, Ahead(queues, r), delay)];
    }

    method DropAllExpired()
      requires Shaped(View())
      modifies this`queues, this`log
      ensures View() == DropExpired(old(View()))
    {
      ghost var f := View();
      var r := 0;
      while r < 4
        invariant 0 <= r <= 4 && |queues| == 4
        invariant DropExpiredFrom(View(), r) == DropExpired(f)
      {
        DropExpiredIn(r);
        r := r + 1;
      }
    }

    /** Remove the expired packets of one queue, calling the drop hook for each. */
    method DropExpiredIn(r: nat)
      requires Shaped(View()) && r < 4
      modifies this`queues, this`log
      ensures var f := old(View()); var alive := Alive(f.queues[r], f.now);
              && |alive| <= |f.queues[r]|
              && View() == f.(queues := f.queues[r := alive],
                              log := f.log + Drops(r, |f.queues[r]| - |alive|))
    {
      ghost var q := queues[r];
      ghost var before := log;
      var kept := [];
      var i := 0;
      while i < |queues[r]|
        invariant 0 <= i <= |q| && queues == old(queues)
        invariant |kept| <= i && log == before + Drops(r, i - |kept|)
        invariant Alive(q, runtime.now) == kept + Alive(q[i..], runtime.now)
      {
        AliveNext(q, i, i + 1, kept, runtime.now);
        if queues[r][i].expiry < runtime.now {
          log := log + [Dropped(r)];
          DropsNext(before, r, i - |kept|, i + 1 - |kept|);
        } else {
          kept := kept + [queues[r][i]];
        }
        i := i + 1;
      }
      AddNothing(kept);
      TakeAll(q, i);
      queues := queues[r := kept];
    }

    method TransmitImmediately(tx: Transmission) returns (now: bool)
      requires Shaped(View()) && trc.runtime == runtime
      modifies trc
      ensures Ahead(queues, RankOf(tx.profile)) != 0 ==> !now && View() == old(View())
      ensures Ahead(queues, RankOf(tx.profile)) == 0 ==>
                View() == Ask(old(View()), tx) && (now <==> Delay(Cfg(), old(View()), tx) == 0)
    {
      var contention := Contended(RankOf(tx.profile));
      now := false;
      if !contention {
        var delay := trc.DelayOf(tx);
        now := delay == 0;
      }
    }

    /** Is any packet enqueued with equal or higher priority? */
    method Contended(r: Rank) returns (contention: bool)
      requires |queues| == 4
      ensures contention <==> Ahead(queues, r) != 0
    {
      AheadZero(queues, r);
      contention := false;
      var k := 0;
      while k < 4
        invariant 0 <= k <= 4
        invariant forall i :: 0 <= i < k && i <= r ==> queues[i] == []
      {
        if k <= r && queues[k] != [] {
          contention := true;
          break;
        }
        k := k + 1;
      }
    }

    method Append(p: Packet)
      requires Shaped(View()) && trc.runtime == runtime
      modifies this, runtime, trc
      ensures View() == Enqueue(Cfg(), old(View()), p)
    {
      var contended := Contended(3);
      Push(p);
      if !contended {
        ScheduleOne(p.tx);
      }
    }

    method Push(p: Packet)
      requires Shaped(View())
      modifies this`queues, this`log
      ensures var (f, r) := (old(View()), RankOf(p.tx.profile)); var n := Excess(f.queues[r], f.limit);
              View() == f.(queues := f.queues[r := f.queues[r][n..] + [p]], log := f.log + Drops(r, n))
    {
      var r := RankOf(p.tx.profile);
      MakeRoom(r);
      queues := queues[r := queues[r] + [p]];
    }

    /** A queue at its length limit loses its first packets. */
    method MakeRoom(r: Rank)
      requires Shaped(View())
      modifies this`queues, this`log
      ensures var f := old(View()); var n := Excess(f.queues[r], f.limit);
              View() == f.(queues := f.queues[r := f.queues[r][n..]], log := f.log + Drops(r, n))
    {
      ghost var q, before, n := queues[r], log, 0;
      while limit > 0 && |queues[r]| >= limit
        invariant n <= |q| && queues == old(queues)[r := q[n..]]
        invariant log == before + Drops(r, n)
        invariant n + Excess(queues[r], limit) == Excess(q, limit)
        decreases |queues[r]|
      {
        queues := queues[r := queues[r][1..]];
        // the drop hook is given the incoming packet
        log := log + [Dropped(r)];
        DropOne(q, n, n + 1);
        assert before + Drops(r, n) + [Dropped(r)] == before + Drops(r, n + 1);
        n := n + 1;
      }
    }

    /** The queue whose front packet may be sent soonest, ties going to the higher priority. */
    method FindNextQueue() returns (found: bool, rank: Rank, least: Duration)
      requires Shaped(View()) && trc.runtime == runtime
      modifies trc
      ensures View() == NextQueue(Cfg(), old(View())).1
      ensures NextQueue(Cfg(), old(View())).0 == if found then Choose(rank, least) else Nothing
      ensures found ==> queues[rank] != []
    {
      ghost var f := View();
      found, rank := false, 0;
      least := MAX_DURATION;
      var r := 0;
      while r < 4
        invariant 0 <= r <= 4
        invariant View() == f.(calls := trc.calls)
        invariant ScanFrom(Cfg(), View(), r, if found then Choose(rank, least) else Nothing, least)
               == NextQueue(Cfg(), f)
      {
        if queues[r] != [] {
          var delay := trc.DelayOf(queues[r][0].tx);
          if delay < least {
            least := delay;
            found, rank := true, r;
          }
        }
        r := r + 1;
      }
      ScanFromNonEmpty(Cfg(), f, 0, Nothing, MAX_DURATION);
    }
  }
}
