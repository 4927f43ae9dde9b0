/**
 * Safety of the contention buffer over whole runs.
 */
module CbfRuns {
  import opened Sequences
  import opened Runtime
  import opened CbfCounter
  import opened CbfModel
  import opened CbfProofs

  // ---------------------------------------------------------------- books

  function MarkUpTo(timers: seq<Entry>, k: nat, m: Time, id: Identifier): Option<Time>
    requires k < |timers|
  {
    if id == timers[k].id then Some(m) else Mark(TimerOf(timers, id))
  }

  /** The books are in order, with the k-th packet charged up to time m. */
  ghost predicate BooksUpTo(cfg: Config, s: Buffer, k: nat, m: Time)
    requires k < |s.timers|
  {
    && Sound(s.log)
    && forall id :: Book(cfg.kind, s.counters, s.log, id, MarkUpTo(s.timers, k, m, id))
  }

  lemma {:induction false} BooksFocus(cfg: Config, s: Buffer, k: nat)
    requires Linked(s) && Books(cfg, s) && k < |s.timers|
    ensures BooksUpTo(cfg, s, k, s.timers[k].timer.start)
  {
    FoundAt(s.timers, k);
    forall id
      ensures Book(cfg.kind, s.counters, s.log, id, MarkUpTo(s.timers, k, s.timers[k].timer.start, id))
    {
      assert Book(cfg.kind, s.counters, s.log, id, Mark(TimerOf(s.timers, id)));
    }
  }

  lemma {:induction false} ChargedBooks(cfg: Config, s: Buffer, k: nat)
    requires Linked(s) && k < |s.timers| && BooksUpTo(cfg, s, k, s.timers[k].timer.start)
    ensures BooksUpTo(cfg, Charged(cfg, s, k).0, k, s.now)
  {
    var c := Charged(cfg, s, k).0;
    var e := s.timers[k];
    var ev := Reduced(e.id, s.now - e.timer.start, s.now);
    assert c.log == s.log + [ev];
    forall id ensures Book(cfg.kind, c.counters, c.log, id, MarkUpTo(c.timers, k, s.now, id)) {
      Append(s.log, ev, id);
      assert Book(cfg.kind, s.counters, s.log, id, MarkUpTo(s.timers, k, e.timer.start, id));
    }
    assert c.log[..|s.log| + 1] == c.log;
    assert Book(cfg.kind, c.counters, c.log, e.id, MarkUpTo(c.timers, k, s.now, e.id));
    AppendSound(s.log, ev);
  }

  lemma {:induction false} PassedBooks(cfg: Config, s: Buffer, k: nat, m: Time, p: Packet)
    requires k < |s.timers| && BooksUpTo(cfg, s, k, m)
    requires s.timers[k].timer.expiry <= s.now
    ensures BooksUpTo(cfg, s.(log := s.log + [Passed(s.timers[k].id, s.timers[k].timer.expiry, s.now, p)]), k, m)
  {
    var e := s.timers[k];
    var ev := Passed(e.id, e.timer.expiry, s.now, p);
    forall id ensures Book(cfg.kind, s.counters, s.log + [ev], id, MarkUpTo(s.timers, k, m, id)) {
      Append(s.log, ev, id);
      assert Book(cfg.kind, s.counters, s.log, id, MarkUpTo(s.timers, k, m, id));
    }
    AppendSound(s.log, ev);
  }

  lemma {:induction false} DetachedBooks(cfg: Config, s: Buffer, k: nat, m: Time, fate: Fate)
    requires Linked(s) && k < |s.timers| && BooksUpTo(cfg, s, k, m)
    ensures Books(cfg, Detached(cfg, s, k, fate))
  {
    var r := Detached(cfg, s, k, fate);
    var e := s.timers[k];
    forall id ensures Book(cfg.kind, r.counters, r.log, id, Mark(TimerOf(r.timers, id))) {
      Append(s.log, Gone(e.id, fate), id);
      TimerOfWithout(s.timers, k, id);
      assert Book(cfg.kind, s.counters, s.log, id, MarkUpTo(s.timers, k, m, id));
    }
    AppendSound(s.log, Gone(e.id, fate));
  }

  lemma {:induction false} RestartedBooks(cfg: Config, s: Buffer, k: nat, t: Timer, r: Buffer)
    requires k < |s.timers| && Unique(TimerLinks(s.timers)) && BooksUpTo(cfg, s, k, t.start)
    requires r.timers == ReplaceTimer(s.timers, k, t) && r.counters == OnIncrement(s.counters, s.timers[k].id)
    requires r.log == s.log + [Incremented(s.timers[k].id)]
    ensures Books(cfg, r)
  {
    var e := s.timers[k];
    forall id ensures Book(cfg.kind, r.counters, r.log, id, Mark(TimerOf(r.timers, id))) {
      Append(s.log, Incremented(e.id), id);
      TimerOfReplace(s.timers, k, t, id);
      assert Book(cfg.kind, s.counters, s.log, id, MarkUpTo(s.timers, k, t.start, id));
    }
    AppendSound(s.log, Incremented(e.id));
  }

  lemma {:induction false} NewNode(s: Buffer)
    requires Linked(s)
    ensures forall i :: 0 <= i < |s.timers| ==> s.timers[i].node < s.nextNode
  {
    forall i | 0 <= i < |s.timers| ensures s.timers[i].node < s.nextNode {
      EntryHasSlot(s, i);
    }
  }

  lemma {:induction false} InsertedBooks(cfg: Config, s: Buffer, p: Packet, timeout: Duration)
    requires Linked(s) && Books(cfg, s) && FindTimer(s.timers, p.id) == |s.timers|
    ensures Books(cfg, Inserted(cfg, s, p, timeout))
  {
    var r := Inserted(cfg, s, p, timeout);
    var e := FreshEntry(s, p, timeout);
    NewNode(s);
    forall id ensures Book(cfg.kind, r.counters, r.log, id, Mark(TimerOf(r.timers, id))) {
      Append(s.log, Stored(p.id, s.now, p.lifetime), id);
      TimerOfInsert(s.timers, e, id);
      assert Book(cfg.kind, s.counters, s.log, id, Mark(TimerOf(s.timers, id)));
    }
    AppendSound(s.log, Stored(p.id, s.now, p.lifetime));
  }

  // ---------------------------------------------------------------- single steps

  lemma {:induction false} RearmedInvariant(cfg: Config, s: Buffer)
    requires Linked(s) && Sorted(s.timers) && Fits(cfg, s) && Books(cfg, s) && s.timers != []
    requires cfg.self != 0 && Ordered(s.queue)
    ensures Invariant(cfg, Rearmed(cfg, s))
    ensures Pending(Rearmed(cfg, s).queue, cfg.self) == [s.timers[0].timer.expiry]
  {
    Rescheduled(s.queue, Scheduled(s.timers[0].timer.expiry, cfg.self));
  }

  lemma {:induction false} LinkCount(s: Buffer)
    requires Linked(s)
    ensures |s.slots| == |s.timers|
  {
    assert |multiset(SlotLinks(s.slots))| == |s.slots|;
    assert |multiset(TimerLinks(s.timers))| == |s.timers|;
  }

  /** Taking an entry out keeps everything but, possibly, the flush at the earliest expiry. */
  lemma {:induction false} DetachedKeeps(cfg: Config, s: Buffer, k: nat, m: Time, fate: Fate)
    requires Linked(s) && Sorted(s.timers) && k < |s.timers| && BooksUpTo(cfg, s, k, m)
    ensures var r := Detached(cfg, s, k, fate);
            && Linked(r) && Sorted(r.timers) && Books(cfg, r)
            && (Fits(cfg, s) ==> Fits(cfg, r))
  {
    DetachedLinked(cfg, s, k, fate);
    DetachedBooks(cfg, s, k, m, fate);
    EntryHasSlot(s, k);
    LinkCount(s);
  }

  lemma {:induction false} UnlinkedInvariant(cfg: Config, s: Buffer, k: nat, m: Time, fate: Fate)
    requires Linked(s) && Sorted(s.timers) && Fits(cfg, s) && Armed(cfg, s)
    requires k < |s.timers| && BooksUpTo(cfg, s, k, m)
    ensures Invariant(cfg, Unlinked(cfg, s, k, fate))
    ensures Timely(cfg, s) ==> Timely(cfg, Unlinked(cfg, s, k, fate))
  {
    DetachedKeeps(cfg, s, k, m, fate);
    var d := Detached(cfg, s, k, fate);
    if k == 0 && d.timers != [] {
      RearmedInvariant(cfg, d);
    }
  }

  /** The pending flush is not later than the earliest expiry. */
  ghost predicate Timely(cfg: Config, s: Buffer) {
    s.timers != [] && Pending(s.queue, cfg.self) != [] ==>
      Pending(s.queue, cfg.self)[0] <= s.timers[0].timer.expiry
  }

  lemma {:induction false} RemovedInvariant(cfg: Config, s: Buffer, id: Identifier, r: Buffer)
    requires Invariant(cfg, s) && r == RemovedById(cfg, s, id)
    ensures Invariant(cfg, r)
    ensures Timely(cfg, s) ==> Timely(cfg, r)
  {
    var k := FindTimer(s.timers, id);
    if k < |s.timers| {
      BooksFocus(cfg, s, k);
      UnlinkedInvariant(cfg, s, k, s.timers[k].timer.start, Removed);
    }
  }

  lemma {:induction false} FetchedInvariant(cfg: Config, s: Buffer, id: Identifier, r: Buffer)
    requires Invariant(cfg, s) && r == FetchedById(cfg, s, id).0
    ensures Invariant(cfg, r)
    ensures Timely(cfg, s) ==> Timely(cfg, r)
  {
    var k := FindTimer(s.timers, id);
    if k < |s.timers| {
      BooksFocus(cfg, s, k);
      ChargedLinked(cfg, s, k);
      ChargedBooks(cfg, s, k);
      var c := Charged(cfg, s, k).0;
      UnlinkedInvariant(cfg, c, k, s.now, Fetched);
    }
  }

  /** A replaced timer is somewhere in the result and everything else was there before. */
  lemma {:induction false} ReplaceTimerContents(timers: seq<Entry>, k: nat, t: Timer)
    requires k < |timers|
    ensures exists i :: 0 <= i < |ReplaceTimer(timers, k, t)| && ReplaceTimer(timers, k, t)[i].timer == t
    ensures forall e :: e in ReplaceTimer(timers, k, t) ==> e.timer == t || e in timers
  {
    var r := ReplaceTimer(timers, k, t);
    var e := timers[k].(timer := t);
    var w := Without(timers, k);
    if r == timers[k := e] {
      assert r[k].timer == t;
    } else {
      assert r[Expired(w, t.expiry)] == e;
      assert forall x :: x in r ==> x == e || x in w;
      assert forall x :: x in w ==> x in timers;
    }
  }

  lemma {:induction false} ReplaceTimerFirst(timers: seq<Entry>, k: nat, t: Timer, flush: Time)
    requires Sorted(timers) && k < |timers| && flush <= timers[0].timer.expiry
    ensures ReplaceTimer(timers, k, t) != []
    ensures flush <= ReplaceTimer(timers, k, t)[0].timer.expiry <==> flush <= t.expiry
  {
    var r := ReplaceTimer(timers, k, t);
    ReplaceTimerContents(timers, k, t);
    ReplaceTimerSorted(timers, k, t);
    var i :| 0 <= i < |r| && r[i].timer == t;
    assert r[0] in r;
    assert r[0].timer.expiry <= r[i].timer.expiry;
  }

  /**
   * Restarting a timer never moves the pending flush. A timely flush therefore stays timely exactly
   * when the new expiry is not before it.
   */
  lemma {:induction false} UpdatedInvariant(cfg: Config, s: Buffer, id: Identifier, timeout: Duration, r: Buffer)
    requires Invariant(cfg, s) && r == Updated(cfg, s, id, timeout)
    ensures Invariant(cfg, r)
    ensures r.queue == s.queue
    ensures Timely(cfg, s) && TimerOf(s.timers, id).Some? ==>
              (Timely(cfg, r) <==>
               Pending(s.queue, cfg.self)[0] <= s.now + timeout)
  {
    var k := FindTimer(s.timers, id);
    if k < |s.timers| {
      BooksFocus(cfg, s, k);
      ChargedLinked(cfg, s, k);
      ChargedBooks(cfg, s, k);
      var t := Timer(s.now + timeout, s.now);
      RestartedInvariant(cfg, Charged(cfg, s, k).0, k, t, r);
      RestartedTimely(cfg, s, k, t, r);
    }
  }

  lemma {:induction false} RestartedTimely(cfg: Config, s: Buffer, k: nat, t: Timer, r: Buffer)
    requires Invariant(cfg, s) && k < |s.timers| && r.queue == s.queue && r.timers == ReplaceTimer(s.timers, k, t)
    ensures Timely(cfg, s) ==> (Timely(cfg, r) <==> Pending(s.queue, cfg.self)[0] <= t.expiry)
  {
    if Timely(cfg, s) {
      ReplaceTimerFirst(s.timers, k, t, Pending(s.queue, cfg.self)[0]);
    }
  }

  lemma {:induction false} RestartedInvariant(cfg: Config, s: Buffer, k: nat, t: Timer, r: Buffer)
    requires Linked(s) && Sorted(s.timers) && Fits(cfg, s) && Armed(cfg, s)
    requires k < |s.timers| && BooksUpTo(cfg, s, k, t.start)
    requires r == s.(timers := ReplaceTimer(s.timers, k, t),
                     counters := OnIncrement(s.counters, s.timers[k].id),
                     log := s.log + [Incremented(s.timers[k].id)])
    ensures Invariant(cfg, r)
  {
    RestartedBooks(cfg, s, k, t, r);
    ReplaceTimerLinks(s.timers, k, t);
    ReplaceTimerSorted(s.timers, k, t);
  }

  lemma {:induction false} HeadDropKeeps(cfg: Config, s: Buffer, incoming: nat)
    requires Linked(s) && Sorted(s.timers) && Books(cfg, s)
    ensures var r := HeadDrop(cfg, s, incoming);
            && Linked(r) && Sorted(r.timers) && Books(cfg, r)
            && (forall e :: e in r.timers ==> e in s.timers)
    decreases |s.slots|
  {
    if s.storedBytes + incoming > cfg.capacity && s.slots != [] {
      FrontHasTimer(s);
      var k := FindTimer(s.timers, s.slots[0].packet.id);
      BooksFocus(cfg, s, k);
      DetachedKeeps(cfg, s, k, s.timers[k].timer.start, HeadDropped);
      var d := FrontDropped(cfg, s);
      assert forall e :: e in d.timers ==> e in s.timers;
      HeadDropKeeps(cfg, d, incoming);
    }
  }

  lemma {:induction false} InsertedKeeps(cfg: Config, s: Buffer, p: Packet, timeout: Duration, r: Buffer)
    requires Linked(s) && Sorted(s.timers) && Books(cfg, s) && FindTimer(s.timers, p.id) == |s.timers|
    requires r == Inserted(cfg, s, p, timeout)
    ensures Linked(r) && Sorted(r.timers) && Books(cfg, r)
    ensures r.timers == InsertTimer(s.timers, FreshEntry(s, p, timeout))
  {
    InsertedLinked(cfg, s, p, timeout, r);
    InsertedBooks(cfg, s, p, timeout);
    InsertTimerSorted(s.timers, FreshEntry(s, p, timeout));
  }

  lemma {:induction false} InsertedLinked(cfg: Config, s: Buffer, p: Packet, timeout: Duration, r: Buffer)
    requires Linked(s) && FindTimer(s.timers, p.id) == |s.timers|
    requires r == Inserted(cfg, s, p, timeout)
    ensures Linked(r)
  {
    InsertedTimers(s, p, FreshEntry(s, p, timeout), r.timers);
    InsertedSlots(s, p, r.slots);
  }

  lemma {:induction false} InsertedTimers(s: Buffer, p: Packet, e: Entry, r: seq<Entry>)
    requires Linked(s) && FindTimer(s.timers, p.id) == |s.timers| && e.id == p.id && e.node == s.nextNode
    requires r == InsertTimer(s.timers, e)
    ensures Unique(TimerLinks(r))
    ensures multiset(TimerLinks(r)) == multiset(TimerLinks(s.timers)) + multiset{Link(p.id, s.nextNode)}
  {
    NewNode(s);
    InsertTimerLinks(s.timers, e);
  }

  lemma {:induction false} InsertTimerContents(timers: seq<Entry>, e: Entry)
    ensures forall x :: x in InsertTimer(timers, e) ==> x == e || x in timers
  {
  }

  lemma {:induction false} InsertedSlots(s: Buffer, p: Packet, r: seq<Slot>)
    requires Linked(s) && FindTimer(s.timers, p.id) == |s.timers| && r == s.slots + [Slot(s.nextNode, p)]
    ensures Unique(SlotLinks(r)) && Bytes(r) == s.storedBytes + p.length
    ensures multiset(SlotLinks(r)) == multiset(SlotLinks(s.slots)) + multiset{Link(p.id, s.nextNode)}
  {
    var links := SlotLinks(s.slots);
    assert SlotLinks(r) == links + [Link(p.id, s.nextNode)];
    forall i | 0 <= i < |s.slots| ensures s.slots[i].packet.id != p.id {
      assert links[i] in multiset(TimerLinks(s.timers));
    }
    BytesAppend(s.slots, Slot(s.nextNode, p));
  }

  lemma {:induction false} BytesAppend(slots: seq<Slot>, x: Slot)
    ensures Bytes(slots + [x]) == Bytes(slots) + x.packet.length
  {
    if slots != [] {
      BytesAppend(slots[1..], x);
      assert (slots + [x])[1..] == slots[1..] + [x];
    }
  }

  lemma {:induction false} EnlistedKeeps(cfg: Config, d: Buffer, p: Packet, timeout: Duration, i: Buffer)
    requires Linked(d) && Sorted(d.timers) && Books(cfg, d) && i == Enlisted(cfg, d, p, timeout)
    requires d.slots == [] || d.storedBytes + p.length <= cfg.capacity
    ensures Linked(i) && Sorted(i.timers) && Books(cfg, i) && Fits(cfg, i) && i.timers != [] && i.queue == d.queue
    ensures forall e :: e in i.timers ==> e in d.timers || e.node == d.nextNode
  {
    LinkCount(d);
    if FindTimer(d.timers, p.id) == |d.timers| {
      InsertedKeeps(cfg, d, p, timeout, i);
      InsertTimerContents(d.timers, FreshEntry(d, p, timeout));
    }
  }

  lemma {:induction false} AddedArm(cfg: Config, s: Buffer, i: Buffer, r: Buffer)
    requires Invariant(cfg, s) && Linked(i) && Sorted(i.timers) && Books(cfg, i) && Fits(cfg, i)
    requires i.timers != [] && i.queue == s.queue
    requires forall e :: e in i.timers ==> e in s.timers || e.node == s.nextNode
    requires r == if First(i) != First(s) then Rearmed(cfg, i) else i
    ensures Invariant(cfg, r)
    ensures Timely(cfg, s) ==> Timely(cfg, r)
  {
    if First(i) != First(s) {
      RearmedInvariant(cfg, i);
    } else {
      NewNode(s);
      SameFirst(s, i);
    }
  }

  lemma {:induction false} AddedInvariant(cfg: Config, s: Buffer, p: Packet, timeout: Duration, r: Buffer)
    requires Invariant(cfg, s) && r == Added(cfg, s, p, timeout)
    ensures Invariant(cfg, r)
    ensures Timely(cfg, s) ==> Timely(cfg, r)
  {
    if timeout > 0 {
      HeadDropKeeps(cfg, s, p.length);
      var d := HeadDrop(cfg, s, p.length);
      var i := Enlisted(cfg, d, p, timeout);
      EnlistedKeeps(cfg, d, p, timeout, i);
      AddedArm(cfg, s, i, r);
    }
  }

  lemma {:induction false} SameFirst(s: Buffer, i: Buffer)
    requires Unique(TimerLinks(s.timers)) && s.timers != [] && i.timers != []
    requires i.timers[0].node == s.timers[0].node && s.timers[0].node < s.nextNode
    requires forall e :: e in i.timers ==> e in s.timers || e.node == s.nextNode
    ensures i.timers[0] == s.timers[0]
  {
    var j :| 0 <= j < |s.timers| && s.timers[j] == i.timers[0];
    assert TimerLinks(s.timers)[j].node == TimerLinks(s.timers)[0].node;
  }

  lemma {:induction false} PoppedKeeps(cfg: Config, s: Buffer, r: Buffer)
    requires Linked(s) && Sorted(s.timers) && Fits(cfg, s) && Books(cfg, s)
    requires s.timers != [] && s.timers[0].timer.expiry <= s.now
    requires r == Popped(cfg, s)
    ensures Linked(r) && Sorted(r.timers) && Fits(cfg, r) && Books(cfg, r)
  {
    BooksFocus(cfg, s, 0);
    ChargedLinked(cfg, s, 0);
    ChargedBooks(cfg, s, 0);
    var (c, remaining) := Charged(cfg, s, 0);
    var e := s.timers[0];
    EntryHasSlot(s, 0);
    var packet := c.slots[FindSlot(s.slots, e.node)].packet;
    if remaining > 0 {
      PassedBooks(cfg, c, 0, s.now, packet);
    }
    var p := if remaining > 0 then c.(log := c.log + [Passed(e.id, e.timer.expiry, s.now, packet)]) else c;
    DetachedKeeps(cfg, p, 0, s.now, Flushed);
  }

  lemma {:induction false} PoppedAllKeeps(cfg: Config, s: Buffer, r: Buffer)
    requires Linked(s) && Sorted(s.timers) && Fits(cfg, s) && Books(cfg, s)
    requires r == PoppedAll(cfg, s)
    ensures Linked(r) && Sorted(r.timers) && Fits(cfg, r) && Books(cfg, r)
    decreases |s.timers|
  {
    if s.timers != [] && s.timers[0].timer.expiry <= s.now {
      var p := Popped(cfg, s);
      PoppedKeeps(cfg, s, p);
      PoppedAllKeeps(cfg, p, r);
    }
  }

  /** A flush leaves nothing expired behind and its successor exactly at the earliest expiry. */
  lemma {:induction false} FlushedInvariant(cfg: Config, s: Buffer, r: Buffer)
    requires Linked(s) && Sorted(s.timers) && Fits(cfg, s) && Books(cfg, s)
    requires cfg.self != 0 && Ordered(s.queue) && Pending(s.queue, cfg.self) == []
    requires r == FlushedAll(cfg, s)
    ensures Invariant(cfg, r) && Timely(cfg, r) && NothingExpired(r)
    ensures Pending(r.queue, cfg.self) == (if r.timers == [] then [] else [r.timers[0].timer.expiry])
  {
    var p := PoppedAll(cfg, s);
    PoppedAllKeeps(cfg, s, p);
    ExpiredLeft(s, p);
    FlushedFrom(cfg, p, r);
  }

  lemma {:induction false} FlushedFrom(cfg: Config, p: Buffer, r: Buffer)
    requires Linked(p) && Sorted(p.timers) && Fits(cfg, p) && Books(cfg, p) && NothingExpired(p)
    requires cfg.self != 0 && Ordered(p.queue) && Pending(p.queue, cfg.self) == []
    requires r == if p.timers != [] then Rearmed(cfg, p) else p
    ensures Invariant(cfg, r) && Timely(cfg, r) && NothingExpired(r)
    ensures Pending(r.queue, cfg.self) == (if r.timers == [] then [] else [r.timers[0].timer.expiry])
  {
    if p.timers != [] {
      RearmedInvariant(cfg, p);
    }
  }

  lemma {:induction false} ExpiredLeft(s: Buffer, p: Buffer)
    requires Sorted(s.timers) && p.timers == s.timers[Expired(s.timers, s.now)..] && p.now == s.now
    ensures NothingExpired(p)
  {
    ExpiredSorted(s.timers, s.now);
  }

  ghost predicate NothingExpired(s: Buffer) {
    forall i :: 0 <= i < |s.timers| ==> s.timers[i].timer.expiry > s.now
  }

  /**
   * Advancing the clock leaves no expired packet behind if and only if there was none, or the pending
   * flush was due by then.
   */
  lemma {:induction false} TriggeredInvariant(cfg: Config, s: Buffer, tp: Time, r: Buffer)
    requires Invariant(cfg, s)
    requires r == Triggered(cfg, s, tp)
    ensures Invariant(cfg, r)
    ensures Timely(cfg, s) ==> Timely(cfg, r)
    ensures NothingExpired(r) <==>
            (s.timers == [] || s.timers[0].timer.expiry > tp || Pending(s.queue, cfg.self)[0] <= tp)
  {
    DueSplit(s.queue, UpperBound(s.queue, tp), cfg.self, tp);
    if FlushDue(cfg, s, tp) {
      AdvancedKeeps(cfg, s, tp, Advanced(s, tp));
      FlushedInvariant(cfg, Advanced(s, tp), r);
    } else {
      NotDue(cfg, s, tp, r);
    }
  }

  lemma {:induction false} DueSplit(q: seq<Scheduled>, due: nat, scope: Scope, tp: Time)
    requires due == UpperBound(q, tp)
    ensures Pending(q, scope) == Pending(q[..due], scope) + Pending(q[due..], scope)
    ensures Pending(q[..due], scope) != [] ==> Pending(q, scope)[0] <= tp
  {
    assert q == q[..due] + q[due..];
    PendingConcat(q[..due], q[due..], scope);
    if Pending(q[..due], scope) != [] {
      PendingMember(q[..due], scope, Pending(q[..due], scope)[0]);
    }
  }

  lemma {:induction false} AdvancedKeeps(cfg: Config, s: Buffer, tp: Time, r: Buffer)
    requires Invariant(cfg, s) && r == Advanced(s, tp)
    ensures Linked(r) && Sorted(r.timers) && Fits(cfg, r) && Books(cfg, r) && Ordered(r.queue)
  {
  }

  lemma {:induction false} NotDue(cfg: Config, s: Buffer, tp: Time, r: Buffer)
    requires Invariant(cfg, s) && r == Advanced(s, tp) && !FlushDue(cfg, s, tp)
    ensures Invariant(cfg, r) && Pending(r.queue, cfg.self) == Pending(s.queue, cfg.self)
    ensures s.timers != [] ==> Pending(s.queue, cfg.self)[0] > tp
    ensures NothingExpired(r) <==> (s.timers == [] || s.timers[0].timer.expiry > tp)
  {
    AdvancedKeeps(cfg, s, tp, r);
    DueSplit(s.queue, UpperBound(s.queue, tp), cfg.self, tp);
    UpperBoundOrdered(s.queue, tp);
    if s.timers != [] {
      PendingMember(r.queue, cfg.self, Pending(s.queue, cfg.self)[0]);
    }
  }

  // ---------------------------------------------------------------- runs

  /**
   * What can happen to a buffer; Elsewhere is another owner scheduling a callback. Trigger is the whole
   * trigger loop of the runtime, undisturbed; with Advance and RunDue anything can happen between the
   * callbacks of one trigger, such as callbacks of other owners that use the buffer.
   */
  datatype Op =
    | Add(packet: Packet, timeout: Duration)
    | Remove(id: Identifier)
    | Update(id: Identifier, timeout: Duration)
    | Fetch(id: Identifier)
    | Trigger(tp: Time)
    | Advance(tp: Time)
    | RunDue
    | Elsewhere(deadline: Time, scope: Scope)

  function Step(cfg: Config, s: Buffer, op: Op): (r: Buffer)
    requires Linked(s)
  {
    match op
    case Add(packet, timeout) => Added(cfg, s, packet, timeout)
    case Remove(id) => RemovedById(cfg, s, id)
    case Update(id, timeout) => Updated(cfg, s, id, timeout)
    case Fetch(id) => FetchedById(cfg, s, id).0
    case Trigger(tp) => if tp < s.now then s else Triggered(cfg, s, tp)
    case Advance(tp) => if tp < s.now then s else s.(now := tp)
    case RunDue => DueRun(cfg, s)
    case Elsewhere(deadline, scope) =>
      if scope == cfg.self then s else s.(queue := Scheduling(s.queue, Scheduled(deadline, scope)))
  }

  /** The only step that can make a pending flush late. */
  ghost predicate Hurries(cfg: Config, s: Buffer, op: Op)
    requires Armed(cfg, s)
  {
    op.Update? && FindTimer(s.timers, op.id) < |s.timers| && s.now + op.timeout < Pending(s.queue, cfg.self)[0]
  }

  /** All other steps keep a timely flush timely. */
  lemma {:induction false} OtherStepInvariant(cfg: Config, s: Buffer, op: Op, r: Buffer)
    requires Invariant(cfg, s) && !op.Update? && r == Step(cfg, s, op)
    ensures Invariant(cfg, r)
    ensures Timely(cfg, s) ==> Timely(cfg, r)
  {
    match op
    case Add(packet, timeout) => AddedInvariant(cfg, s, packet, timeout, r);
    case Remove(id) => RemovedInvariant(cfg, s, id, r);
    case Fetch(id) => FetchedInvariant(cfg, s, id, r);
    case Trigger(tp) => if tp >= s.now { TriggeredInvariant(cfg, s, tp, r); }
    case Advance(tp) => if tp >= s.now { LaterInvariant(cfg, s, tp, r); }
    case RunDue => DueRunInvariant(cfg, s, r);
    case Elsewhere(deadline, scope) => ElsewhereInvariant(cfg, s, Scheduled(deadline, scope));
  }

  lemma {:induction false} StepInvariant(cfg: Config, s: Buffer, op: Op, r: Buffer)
    requires Invariant(cfg, s) && r == Step(cfg, s, op)
    ensures Invariant(cfg, r)
    ensures Timely(cfg, s) ==> (Timely(cfg, r) <==> !Hurries(cfg, s, op))
  {
    if op.Update? {
      UpdatedInvariant(cfg, s, op.id, op.timeout, r);
    } else {
      OtherStepInvariant(cfg, s, op, r);
    }
  }

  lemma {:induction false} LaterInvariant(cfg: Config, s: Buffer, tp: Time, r: Buffer)
    requires Invariant(cfg, s) && r == s.(now := tp)
    ensures Invariant(cfg, r) && (Timely(cfg, r) <==> Timely(cfg, s))
  {
  }

  lemma {:induction false} DueRunInvariant(cfg: Config, s: Buffer, r: Buffer)
    requires Invariant(cfg, s) && r == DueRun(cfg, s)
    ensures Invariant(cfg, r)
    ensures Timely(cfg, s) ==> Timely(cfg, r)
  {
    if !NothingDue(s) {
      var p := s.(queue := s.queue[1..]);
      PopPending(s.queue, cfg.self);
      if s.queue[0].scope == cfg.self {
        PopOwn(cfg, s, p, r);
      } else {
        PopOther(cfg, s, p);
      }
    }
  }

  lemma {:induction false} PopOwn(cfg: Config, s: Buffer, p: Buffer, r: Buffer)
    requires Invariant(cfg, s) && s.queue != [] && p == s.(queue := s.queue[1..])
    requires Pending(p.queue, cfg.self) == [] && r == FlushedAll(cfg, p)
    ensures Invariant(cfg, r) && Timely(cfg, r)
  {
    QueueFrame(cfg, s, p);
    OrderedTail(s.queue);
    FlushedInvariant(cfg, p, r);
  }

  lemma {:induction false} QueueFrame(cfg: Config, s: Buffer, p: Buffer)
    requires Linked(s) && Sorted(s.timers) && Fits(cfg, s) && Books(cfg, s) && p == s.(queue := p.queue, now := p.now)
    ensures Linked(p) && Sorted(p.timers) && Fits(cfg, p) && Books(cfg, p)
  {
  }

  lemma {:induction false} OrderedTail(q: seq<Scheduled>)
    requires q != [] && Ordered(q)
    ensures Ordered(q[1..])
  {
  }

  lemma {:induction false} PopPending(q: seq<Scheduled>, scope: Scope)
    requires q != [] && |Pending(q, scope)| <= 1
    ensures Pending(q[1..], scope) == if q[0].scope == scope then [] else Pending(q, scope)
  {
  }

  lemma {:induction false} PopOther(cfg: Config, s: Buffer, p: Buffer)
    requires Invariant(cfg, s) && s.queue != [] && p == s.(queue := s.queue[1..])
    requires Pending(p.queue, cfg.self) == Pending(s.queue, cfg.self)
    ensures Invariant(cfg, p) && (Timely(cfg, s) ==> Timely(cfg, p))
  {
    QueueFrame(cfg, s, p);
    OrderedTail(s.queue);
  }

  lemma {:induction false} ElsewhereInvariant(cfg: Config, s: Buffer, e: Scheduled)
    requires Invariant(cfg, s)
    ensures e.scope != cfg.self ==> Invariant(cfg, s.(queue := Scheduling(s.queue, e)))
    ensures e.scope != cfg.self ==> Pending(Scheduling(s.queue, e), cfg.self) == Pending(s.queue, cfg.self)
  {
    SchedulingOrdered(s.queue, e);
    SchedulingPending(s.queue, e, cfg.self);
  }

  ghost function Run(cfg: Config, s: Buffer, ops: seq<Op>): (r: Buffer)
    requires Invariant(cfg, s)
    ensures Invariant(cfg, r)
    decreases |ops|
  {
    if ops == [] then s
    else
      StepInvariant(cfg, s, ops[0], Step(cfg, s, ops[0]));
      Run(cfg, Step(cfg, s, ops[0]), ops[1..])
  }

  ghost predicate NeverHurries(cfg: Config, s: Buffer, ops: seq<Op>)
    requires Invariant(cfg, s)
    decreases |ops|
  {
    ops == [] ||
    (StepInvariant(cfg, s, ops[0], Step(cfg, s, ops[0]));
     !Hurries(cfg, s, ops[0]) && NeverHurries(cfg, Step(cfg, s, ops[0]), ops[1..]))
  }

  /** A buffer is created empty, in a runtime where nothing is scheduled under its address. */
  ghost predicate Fresh(cfg: Config, queue: seq<Scheduled>) {
    cfg.self != 0 && Ordered(queue) && Pending(queue, cfg.self) == []
  }

  lemma {:induction false} InitialInvariant(cfg: Config, now: Time, queue: seq<Scheduled>)
    requires Fresh(cfg, queue)
    ensures Invariant(cfg, Initial(now, queue)) && Timely(cfg, Initial(now, queue))
  {
  }

  /**
   * After every run: packets and timers are the same pairs of identifier and list node, without
   * repetition; the byte count is exact and within capacity unless a single packet is stored; at most
   * one flush is pending, exactly one while packets are stored.
   */
  lemma {:induction false} RunKeepsContainers(cfg: Config, now: Time, queue: seq<Scheduled>, ops: seq<Op>)
    requires Fresh(cfg, queue)
    ensures Invariant(cfg, Initial(now, queue))
    ensures var r := Run(cfg, Initial(now, queue), ops);
            && |r.slots| == |r.timers|
            && multiset(SlotLinks(r.slots)) == multiset(TimerLinks(r.timers))
            && Unique(SlotLinks(r.slots))
            && r.storedBytes == Bytes(r.slots)
            && (r.storedBytes <= cfg.capacity || |r.slots| == 1)
            && |Pending(r.queue, cfg.self)| <= 1
            && (r.slots != [] ==> |Pending(r.queue, cfg.self)| == 1)
  {
    InitialInvariant(cfg, now, queue);
    LinkCount(Run(cfg, Initial(now, queue), ops));
  }

  /**
   * After every run: whenever a packet's lifetime was reduced (at an update, a fetch or a flush), the
   * durations charged since it was stored added up to the time since it was stored; contending
   * counters exist exactly for the stored packets and are one plus the updates since; immortal
   * counters count all insertions and updates; every packet that was ever stored has left once or is
   * still there.
   */
  lemma {:induction false} RunKeepsBooks(cfg: Config, now: Time, queue: seq<Scheduled>, ops: seq<Op>, id: Identifier)
    requires Fresh(cfg, queue)
    ensures Invariant(cfg, Initial(now, queue))
    ensures var r := Run(cfg, Initial(now, queue), ops);
            var stored := exists i :: 0 <= i < |r.slots| && r.slots[i].packet.id == id;
            && Balance(r.log, id) == (if stored then 1 else 0)
            && (cfg.kind.Contending? ==> (id in r.counters <==> stored))
            && (cfg.kind.Contending? && stored ==> r.counters[id] == 1 + UpdatesSince(r.log, id))
            && (cfg.kind.Immortal? ==> Value(r.counters, id) == Sightings(r.log, id))
    ensures var log := Run(cfg, Initial(now, queue), ops).log;
            forall n :: 0 <= n < |log| ==> SoundAt(log, n)
  {
    InitialInvariant(cfg, now, queue);
    var r := Run(cfg, Initial(now, queue), ops);
    assert Book(cfg.kind, r.counters, r.log, id, Mark(TimerOf(r.timers, id)));
    StoredMeansTimed(r, id);
  }

  lemma {:induction false} StoredMeansTimed(s: Buffer, id: Identifier)
    requires Linked(s)
    ensures (exists i :: 0 <= i < |s.slots| && s.slots[i].packet.id == id) <==> TimerOf(s.timers, id).Some?
  {
    var k := FindTimer(s.timers, id);
    if k < |s.timers| {
      EntryHasSlot(s, k);
    } else {
      forall i | 0 <= i < |s.slots| ensures s.slots[i].packet.id != id {
        assert SlotLinks(s.slots)[i] in multiset(TimerLinks(s.timers));
      }
    }
  }

  /** The flush is in time after every part of the run. */
  ghost predicate AlwaysTimely(cfg: Config, s: Buffer, ops: seq<Op>)
    requires Invariant(cfg, s)
  {
    forall n :: 0 <= n <= |ops| ==> Timely(cfg, Run(cfg, s, ops[..n]))
  }

  /** Over whole runs: the flush is never late if and only if no update moves an expiry before it. */
  lemma {:induction false} TimelyIffNeverHurries(cfg: Config, s: Buffer, ops: seq<Op>)
    requires Invariant(cfg, s) && Timely(cfg, s)
    ensures AlwaysTimely(cfg, s, ops) <==> NeverHurries(cfg, s, ops)
    decreases |ops|
  {
    if ops == [] {
      assert forall n :: 0 <= n <= |ops| ==> ops[..n] == [];
    } else {
      var r := Step(cfg, s, ops[0]);
      StepInvariant(cfg, s, ops[0], r);
      forall n | 1 <= n <= |ops| ensures Run(cfg, s, ops[..n]) == Run(cfg, r, ops[1..][..n - 1]) {
        assert ops[..n][1..] == ops[1..][..n - 1];
      }
      AlwaysSplit(cfg, s, ops, r);
      if Timely(cfg, r) {
        TimelyIffNeverHurries(cfg, r, ops[1..]);
      }
    }
  }

  lemma {:induction false} AlwaysSplit(cfg: Config, s: Buffer, ops: seq<Op>, r: Buffer)
    requires Invariant(cfg, s) && Invariant(cfg, r) && Timely(cfg, s) && ops != []
    requires forall n :: 1 <= n <= |ops| ==> Run(cfg, s, ops[..n]) == Run(cfg, r, ops[1..][..n - 1])
    ensures AlwaysTimely(cfg, s, ops) <==> AlwaysTimely(cfg, r, ops[1..])
    ensures AlwaysTimely(cfg, s, ops) ==> Timely(cfg, r)
  {
    assert ops[..0] == [] && ops[1..][..0] == [];
    if AlwaysTimely(cfg, s, ops) {
      forall n | 0 <= n <= |ops[1..]| ensures Timely(cfg, Run(cfg, r, ops[1..][..n])) {
        assert Run(cfg, s, ops[..n + 1]) == Run(cfg, r, ops[1..][..n + 1 - 1]);
      }
    }
    if AlwaysTimely(cfg, r, ops[1..]) {
      forall n | 0 <= n <= |ops| ensures Timely(cfg, Run(cfg, s, ops[..n])) {
        assert n == 0 || Run(cfg, s, ops[..n]) == Run(cfg, r, ops[1..][..n - 1]);
      }
    }
  }

  /** A buffer whose flush is in time holds nothing expired once no callback is due any more. */
  lemma {:induction false} NothingLeftOver(cfg: Config, s: Buffer)
    requires Invariant(cfg, s) && Timely(cfg, s) && NothingDue(s)
    ensures NothingExpired(s)
  {
    if s.timers != [] {
      var t := Pending(s.queue, cfg.self)[0];
      PendingMember(s.queue, cfg.self, t);
      assert s.queue[0].deadline <= t;
    }
  }

  lemma {:induction false} TimelyAtEnd(cfg: Config, s: Buffer, ops: seq<Op>, r: Buffer)
    requires Invariant(cfg, s) && AlwaysTimely(cfg, s, ops) && r == Run(cfg, s, ops)
    ensures Timely(cfg, r)
  {
    TakeAll(ops, |ops|);
  }

  /**
   * If no update ever moves an expiry before the pending flush, the flush is never late, and no
   * expired packet is left whenever the runtime has been triggered: neither after an undisturbed
   * trigger, nor when no callback is due any more after one in which others used the buffer.
   */
  lemma {:induction false} PunctualRun(cfg: Config, s: Buffer, ops: seq<Op>, r: Buffer, tp: Time, u: Buffer)
    requires Invariant(cfg, s) && Timely(cfg, s) && NeverHurries(cfg, s, ops) && r == Run(cfg, s, ops)
    requires u == Triggered(cfg, r, tp)
    ensures Timely(cfg, r) && NothingExpired(u)
    ensures NothingDue(r) ==> NothingExpired(r)
  {
    TimelyIffNeverHurries(cfg, s, ops);
    TimelyAtEnd(cfg, s, ops, r);
    PunctualTrigger(cfg, r, tp, u);
    if NothingDue(r) {
      NothingLeftOver(cfg, r);
    }
  }

  lemma {:induction false} PunctualTrigger(cfg: Config, s: Buffer, tp: Time, r: Buffer)
    requires Invariant(cfg, s) && Timely(cfg, s) && r == Triggered(cfg, s, tp)
    ensures NothingExpired(r)
  {
    TriggeredInvariant(cfg, s, tp, r);
  }

  /** After an update that hurries, a trigger between the new expiry and the flush leaves the packet behind. */
  lemma {:induction false} HurriedPacketIsLate(cfg: Config, s: Buffer, id: Identifier, timeout: Duration, tp: Time)
    requires Invariant(cfg, s) && Timely(cfg, s) && Hurries(cfg, s, Update(id, timeout))
    requires s.now + timeout <= tp < Pending(s.queue, cfg.self)[0]
    ensures Linked(Updated(cfg, s, id, timeout))
    ensures !NothingExpired(Triggered(cfg, Updated(cfg, s, id, timeout), tp))
  {
    var u := Updated(cfg, s, id, timeout);
    UpdatedInvariant(cfg, s, id, timeout, u);
    var k := FindTimer(s.timers, id);
    var t := Timer(s.now + timeout, s.now);
    ReplaceTimerContents(s.timers, k, t);
    var i :| 0 <= i < |u.timers| && u.timers[i].timer == t;
    assert u.timers[0].timer.expiry <= u.timers[i].timer.expiry;
    TriggeredInvariant(cfg, u, tp, Triggered(cfg, u, tp));
  }

  lemma {:induction false} AddedToFresh(cfg: Config, p: Packet, timeout: Duration, r: Buffer)
    requires cfg.self != 0 && timeout > 0 && r == Added(cfg, Initial(0, []), p, timeout)
    ensures r.now == 0 && r.timers == [Entry(Timer(timeout, 0), p.id, 0)]
    ensures Pending(r.queue, cfg.self) == [timeout]
  {
    InitialInvariant(cfg, 0, []);
    assert HeadDrop(cfg, Initial(0, []), p.length) == Initial(0, []);
  }

  lemma {:induction false} RunCons(cfg: Config, s: Buffer, op: Op, rest: seq<Op>, r: Buffer)
    requires Invariant(cfg, s) && r == Step(cfg, s, op)
    ensures Invariant(cfg, r)
    ensures Run(cfg, s, [op] + rest) == Run(cfg, r, rest)
  {
    StepInvariant(cfg, s, op, r);
    assert ([op] + rest)[1..] == rest;
  }

  lemma {:induction false} LateStep(cfg: Config, s: Buffer, id: Identifier, u: Buffer, r: Buffer)
    requires Invariant(cfg, s) && s.now == 0
    requires s.timers == [Entry(Timer(10, 0), id, 0)] && Pending(s.queue, cfg.self) == [10]
    requires u == Step(cfg, s, Update(id, 5)) && Linked(u) && r == Step(cfg, u, Trigger(7))
    ensures !NothingExpired(r)
  {
    HurriedPacketIsLate(cfg, s, id, 5, 7);
  }

  /** Such a run exists: store with timeout 10, restart with timeout 5, trigger at 7. */
  lemma {:induction false} LateFlushIsReachable(cfg: Config, p: Packet)
    requires cfg.self != 0
    ensures Invariant(cfg, Initial(0, []))
    ensures !NothingExpired(Run(cfg, Initial(0, []), [Add(p, 10)] + ([Update(p.id, 5)] + ([Trigger(7)] + []))))
  {
    var s0 := Initial(0, []);
    InitialInvariant(cfg, 0, []);
    var s1 := Step(cfg, s0, Add(p, 10));
    AddedToFresh(cfg, p, 10, s1);
    RunCons(cfg, s0, Add(p, 10), [Update(p.id, 5)] + ([Trigger(7)] + []), s1);
    LateRun(cfg, s1, p.id);
  }

  lemma {:induction false} LateRun(cfg: Config, s: Buffer, id: Identifier)
    requires Invariant(cfg, s) && s.now == 0
    requires s.timers == [Entry(Timer(10, 0), id, 0)] && Pending(s.queue, cfg.self) == [10]
    ensures !NothingExpired(Run(cfg, s, [Update(id, 5)] + ([Trigger(7)] + [])))
  {
    var u := Step(cfg, s, Update(id, 5));
    RunCons(cfg, s, Update(id, 5), [Trigger(7)] + [], u);
    var r := Step(cfg, u, Trigger(7));
    RunCons(cfg, u, Trigger(7), [], r);
    LateStep(cfg, s, id, u, r);
  }
}
