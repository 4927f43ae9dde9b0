/**
 * Delays of triggered transmissions: a trigger sends the packet with the least delay, but does not
 * insist that it is zero.
 */
module FlowDelays {
  import opened Sequences
  import opened Runtime
  import opened FlowModel
  import opened FlowRuns

  /** Every waiting packet at the front of its queue has to wait still. */
  ghost predicate AllWait(cfg: Config, f: Flow)
    requires Shaped(f)
  {
    var s := Answers(cfg, f, 0);
    forall i :: 0 <= i < 4 && s[i].0 ==> s[i].1 > 0
  }

  /**
   * What a trigger sends, if anything, is recorded with the least answer of the rate control; it is
   * sent ahead of its time if and only if every packet it could have chosen has to wait.
   */
  lemma {:induction false} TriggeredDelay(cfg: Config, f: Flow, d: Flow, g: Flow)
    requires Core(f, 0, f.requests) && d == DropExpired(f) && g == Trigger(cfg, f)
    ensures |d.log| <= |g.log| <= |d.log| + 1 && g.log[..|d.log|] == d.log
    ensures |g.log| > |d.log| <==> NextQueue(cfg, d).0.Choose?
    ensures |g.log| > |d.log| ==>
              var (e, s) := (g.log[|d.log|], Answers(cfg, d, 0));
              && e.Sent? && !e.immediate && s[e.rank].0 && s[e.rank].1 == e.delay
              && (forall i :: 0 <= i < 4 && s[i].0 ==> e.delay <= s[i].1)
              && (e.delay > 0 <==> AllWait(cfg, d))
  {
    DropExpiredFromCore(f, 0, 0, f.requests, d);
    NextQueueIsRight(cfg, d);
    var (c, a) := NextQueue(cfg, d);
    ScanFromNonEmpty(cfg, d, 0, Nothing, MAX_DURATION);
    ScanFromNonEmpty(cfg, Dequeue(cfg, d), 0, Nothing, MAX_DURATION);
    DequeueLog(cfg, d, c, a);
  }

  lemma {:induction false} DequeueLog(cfg: Config, f: Flow, c: Choice, a: Flow)
    requires Shaped(f) && Homed(f) && (c, a) == NextQueue(cfg, f)
    ensures c.Nothing? ==> Dequeue(cfg, f).log == f.log
    ensures c.Choose? ==> f.queues[c.rank] != [] && exists n: nat, at, expiry, ahead: nat ::
              Dequeue(cfg, f).log == f.log + [Sent(n, c.rank, at, expiry, false, ahead, c.delay)]
  {
    ScanFromNonEmpty(cfg, f, 0, Nothing, MAX_DURATION);
  }
}
