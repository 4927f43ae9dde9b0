/**
 * What every interleaving of add, remove, update, fetch and timer expiry keeps.
 */
module CbfProofs {
  import opened Sequences
  import opened Runtime
  import opened CbfCounter
  import opened CbfModel

  // ---------------------------------------------------------------- reading the history

  /** Time of the latest insertion of a packet. */
  function StoredAt(log: seq<Event>, id: Identifier): Time {
    if log == [] then 0
    else
      var e := log[|log| - 1];
      if e.Stored? && e.id == id then e.at else StoredAt(log[..|log| - 1], id)
  }

  /** Sum of the durations passed to reduce_lifetime since the latest insertion. */
  function SpentSince(log: seq<Event>, id: Identifier): Duration {
    if log == [] then 0
    else
      var e := log[|log| - 1];
      var before := log[..|log| - 1];
      if e.id != id then SpentSince(before, id)
      else if e.Stored? then 0
      else if e.Reduced? then SpentSince(before, id) + e.spent
      else SpentSince(before, id)
  }

  /** Number of timer updates since the latest insertion. */
  function UpdatesSince(log: seq<Event>, id: Identifier): nat {
    if log == [] then 0
    else
      var e := log[|log| - 1];
      var before := log[..|log| - 1];
      if e.id != id then UpdatesSince(before, id)
      else if e.Stored? then 0
      else if e.Incremented? then UpdatesSince(before, id) + 1
      else UpdatesSince(before, id)
  }

  /** Number of insertions and timer updates ever. */
  function Sightings(log: seq<Event>, id: Identifier): nat {
    if log == [] then 0
    else
      var e := log[|log| - 1];
      Sightings(log[..|log| - 1], id) + if e.id == id && (e.Stored? || e.Incremented?) then 1 else 0
  }

  /** Insertions minus departures. */
  function Balance(log: seq<Event>, id: Identifier): int {
    if log == [] then 0
    else
      var e := log[|log| - 1];
      Balance(log[..|log| - 1], id) +
      if e.id != id then 0 else if e.Stored? then 1 else if e.Gone? then -1 else 0
  }

  /**
   * Every reduction brings the durations charged since insertion up to the time since insertion, and
   * no packet is passed on before its expiry.
   */
  ghost predicate Sound(log: seq<Event>) {
    forall n :: 0 <= n < |log| ==> SoundAt(log, n)
  }

  ghost predicate SoundAt(log: seq<Event>, n: nat)
    requires n < |log|
  {
    match log[n]
    case Reduced(id, _, at) => StoredAt(log[..n + 1], id) + SpentSince(log[..n + 1], id) == at
    case Passed(_, expiry, at, _) => expiry <= at
    case _ => true
  }

  lemma {:induction false} Append(log: seq<Event>, e: Event, id: Identifier)
    ensures var r := log + [e];
            && StoredAt(r, id) == (if e.Stored? && e.id == id then e.at else StoredAt(log, id))
            && SpentSince(r, id) == (if e.id != id then SpentSince(log, id)
                                     else if e.Stored? then 0
                                     else if e.Reduced? then SpentSince(log, id) + e.spent
                                     else SpentSince(log, id))
            && UpdatesSince(r, id) == (if e.id != id then UpdatesSince(log, id)
                                       else if e.Stored? then 0
                                       else if e.Incremented? then UpdatesSince(log, id) + 1
                                       else UpdatesSince(log, id))
            && Sightings(r, id) == Sightings(log, id) +
                                   (if e.id == id && (e.Stored? || e.Incremented?) then 1 else 0)
            && Balance(r, id) == Balance(log, id) +
                                 (if e.id != id then 0 else if e.Stored? then 1 else if e.Gone? then -1 else 0)
  {
    TakeInit(log, e);
  }

  lemma {:induction false} AppendSound(log: seq<Event>, e: Event)
    requires Sound(log) && SoundAt(log + [e], |log|)
    ensures Sound(log + [e])
  {
    var r := log + [e];
    forall n | 0 <= n < |r| ensures SoundAt(r, n) {
      if n < |log| {
        assert SoundAt(log, n);
        assert r[..n + 1] == log[..n + 1];
      }
    }
  }

  // ---------------------------------------------------------------- the invariant

  function TimerOf(timers: seq<Entry>, id: Identifier): Option<Timer> {
    var k := FindTimer(timers, id);
    if k < |timers| then Some(timers[k].timer) else None
  }

  /** The books kept for one identifier; `mark` is the time up to which its packet is charged. */
  ghost predicate Book(kind: Kind, counters: Counters, log: seq<Event>, id: Identifier, mark: Option<Time>) {
    && Balance(log, id) == (if mark.Some? then 1 else 0)
    && (mark.Some? ==> StoredAt(log, id) + SpentSince(log, id) == mark.value)
    && (kind.Immortal? ==> Value(counters, id) == Sightings(log, id))
    && (kind.Contending? ==> (id in counters <==> mark.Some?))
    && (kind.Contending? && mark.Some? ==> Value(counters, id) == 1 + UpdatesSince(log, id))
  }

  function Mark(t: Option<Timer>): Option<Time> {
    if t.Some? then Some(t.value.start) else None
  }

  ghost predicate Books(cfg: Config, s: Buffer) {
    && Sound(s.log)
    && forall id :: Book(cfg.kind, s.counters, s.log, id, Mark(TimerOf(s.timers, id)))
  }

  /** At most one flush is pending, exactly one if a packet is buffered. */
  ghost predicate Armed(cfg: Config, s: Buffer) {
    && cfg.self != 0
    && Ordered(s.queue)
    && |Pending(s.queue, cfg.self)| <= 1
    && (s.timers != [] ==> |Pending(s.queue, cfg.self)| == 1)
  }

  /** Only a packet that is alone in the buffer may exceed the capacity. */
  ghost predicate Fits(cfg: Config, s: Buffer) {
    s.storedBytes <= cfg.capacity || |s.slots| == 1
  }

  ghost predicate Invariant(cfg: Config, s: Buffer) {
    && Linked(s)
    && Sorted(s.timers)
    && Fits(cfg, s)
    && Armed(cfg, s)
    && Books(cfg, s)
  }

  // ---------------------------------------------------------------- timers

  lemma {:induction false} FoundAt(timers: seq<Entry>, k: nat)
    requires Unique(TimerLinks(timers)) && k < |timers|
    ensures FindTimer(timers, timers[k].id) == k
  {
    var j := FindTimer(timers, timers[k].id);
    assert j <= k;
    assert TimerLinks(timers)[j].id == TimerLinks(timers)[k].id;
  }

  lemma {:induction false} TimerOfWithout(timers: seq<Entry>, k: nat, id: Identifier)
    requires Unique(TimerLinks(timers)) && k < |timers|
    ensures TimerOf(Without(timers, k), id) == if id == timers[k].id then None else TimerOf(timers, id)
  {
    var r := Without(timers, k);
    TimerLinksWithout(timers, k);
    WithoutOther(timers, k);
    var j := FindTimer(timers, id);
    if id != timers[k].id && j < |timers| {
      var i := if j < k then j else j - 1;
      assert r[i] == timers[j];
      FoundAt(r, i);
    } else {
      forall i | 0 <= i < |r| ensures r[i].id != id {
        assert r[i] in timers;
      }
    }
  }

  lemma {:induction false} UniqueSpliced(links: seq<Link>, k: nat, x: Link)
    requires Unique(links) && k <= |links|
    requires forall i :: 0 <= i < |links| ==> links[i].id != x.id && links[i].node != x.node
    ensures Unique(Spliced(links, k, x))
  {
    var r := Spliced(links, k, x);
    forall i, j | 0 <= i < j < |r| ensures r[i].id != r[j].id && r[i].node != r[j].node {
      SplicedAt(links, k, x, i);
      SplicedAt(links, k, x, j);
    }
  }

  lemma {:induction false} LinksSpliced(timers: seq<Entry>, k: nat, e: Entry)
    requires k <= |timers|
    ensures TimerLinks(Spliced(timers, k, e)) == Spliced(TimerLinks(timers), k, Link(e.id, e.node))
  {
    var (a, b) := (TimerLinks(Spliced(timers, k, e)), Spliced(TimerLinks(timers), k, Link(e.id, e.node)));
    forall i | 0 <= i <= |timers| ensures a[i] == b[i] {
      SplicedAt(timers, k, e, i);
      SplicedAt(TimerLinks(timers), k, Link(e.id, e.node), i);
    }
  }

  lemma {:induction false} InsertTimerLinks(timers: seq<Entry>, e: Entry)
    requires Unique(TimerLinks(timers))
    requires forall i :: 0 <= i < |timers| ==> timers[i].id != e.id && timers[i].node != e.node
    ensures Unique(TimerLinks(InsertTimer(timers, e)))
    ensures multiset(TimerLinks(InsertTimer(timers, e))) == multiset(TimerLinks(timers)) + multiset{Link(e.id, e.node)}
  {
    var (k, l, x) := (Expired(timers, e.timer.expiry), TimerLinks(timers), Link(e.id, e.node));
    LinksSpliced(timers, k, e);
    UniqueSpliced(l, k, x);
    SplicedMultiset(l, k, x);
  }

  lemma {:induction false} InsertTimerSorted(timers: seq<Entry>, e: Entry)
    requires Sorted(timers)
    ensures Sorted(InsertTimer(timers, e))
  {
    ExpiredSorted(timers, e.timer.expiry);
  }

  lemma {:induction false} ExpiredSorted(timers: seq<Entry>, t: Time)
    requires Sorted(timers)
    ensures forall i :: Expired(timers, t) <= i < |timers| ==> t < timers[i].timer.expiry
  {
  }

  lemma {:induction false} TimerOfInsert(timers: seq<Entry>, e: Entry, id: Identifier)
    requires Unique(TimerLinks(timers))
    requires forall i :: 0 <= i < |timers| ==> timers[i].id != e.id && timers[i].node != e.node
    ensures TimerOf(InsertTimer(timers, e), id) == if id == e.id then Some(e.timer) else TimerOf(timers, id)
  {
    InsertTimerLinks(timers, e);
    var k := Expired(timers, e.timer.expiry);
    var r := InsertTimer(timers, e);
    if id == e.id {
      FoundAt(r, k);
    } else {
      var j := FindTimer(timers, id);
      if j < |timers| {
        var i := if j < k then j else j + 1;
        assert r[i] == timers[j];
        FoundAt(r, i);
      } else {
        forall i | 0 <= i < |r| ensures r[i].id != id {
          assert r[i] == e || r[i] in timers;
        }
      }
    }
  }

  lemma {:induction false} ReplaceTimerLinks(timers: seq<Entry>, k: nat, t: Timer)
    requires Unique(TimerLinks(timers)) && k < |timers|
    ensures Unique(TimerLinks(ReplaceTimer(timers, k, t)))
    ensures multiset(TimerLinks(ReplaceTimer(timers, k, t))) == multiset(TimerLinks(timers))
  {
    var e := timers[k].(timer := t);
    var w := Without(timers, k);
    if ReplaceTimer(timers, k, t) == timers[k := e] {
      assert TimerLinks(timers[k := e]) == TimerLinks(timers);
    } else {
      TimerLinksWithout(timers, k);
      WithoutOther(timers, k);
      InsertTimerLinks(w, e);
    }
  }

  lemma {:induction false} WithoutOther(timers: seq<Entry>, k: nat)
    requires Unique(TimerLinks(timers)) && k < |timers|
    ensures forall i :: 0 <= i < |Without(timers, k)| ==>
              Without(timers, k)[i].id != timers[k].id && Without(timers, k)[i].node != timers[k].node
  {
    var l := TimerLinks(timers);
    forall i | 0 <= i < |timers| && i != k
      ensures timers[i].id != timers[k].id && timers[i].node != timers[k].node
    {
      assert l[i].id != l[k].id && l[i].node != l[k].node;
    }
  }

  lemma {:induction false} ReplaceTimerSorted(timers: seq<Entry>, k: nat, t: Timer)
    requires Sorted(timers) && k < |timers|
    ensures Sorted(ReplaceTimer(timers, k, t))
  {
    InsertTimerSorted(Without(timers, k), timers[k].(timer := t));
  }

  lemma {:induction false} TimerOfReplace(timers: seq<Entry>, k: nat, t: Timer, id: Identifier)
    requires Unique(TimerLinks(timers)) && k < |timers|
    ensures TimerOf(ReplaceTimer(timers, k, t), id)
         == if id == timers[k].id then Some(t) else TimerOf(timers, id)
  {
    var e := timers[k].(timer := t);
    var r := timers[k := e];
    if ReplaceTimer(timers, k, t) == r {
      assert TimerLinks(r) == TimerLinks(timers);
      if id == e.id {
        FoundAt(r, k);
      } else {
        var j := FindTimer(timers, id);
        if j < |timers| {
          FoundAt(r, j);
        }
      }
    } else {
      TimerLinksWithout(timers, k);
      WithoutOther(timers, k);
      TimerOfInsert(Without(timers, k), e, id);
      TimerOfWithout(timers, k, id);
    }
  }
}
