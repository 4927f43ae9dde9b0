/**
 * The manually triggered runtime: a clock and a queue of pending callbacks.
 *
 * The queue is one container with two indices: it is ordered by deadline (entries with the same
 * deadline keep their insertion order) and it can be searched by scope. A scope stands for the
 * address of the owner of a callback; 0 is the null pointer, which `cancel` ignores.
 */
module Runtime {
  import opened Sequences

  type Time = int
  type Duration = int
  type Scope = nat

  datatype Scheduled = Scheduled(deadline: Time, scope: Scope)

  ghost predicate Ordered(q: seq<Scheduled>) {
    forall i, j :: 0 <= i < j < |q| ==> q[i].deadline <= q[j].deadline
  }

  /** Length of the longest prefix that is not later than t. */
  function UpperBound(q: seq<Scheduled>, t: Time): (k: nat)
    ensures k <= |q|
    ensures forall i :: 0 <= i < k ==> q[i].deadline <= t
    ensures k < |q| ==> t < q[k].deadline
  {
    Find(q, (e: Scheduled) => t < e.deadline)
  }

  /** The queue after one more callback has been scheduled. */
  function Scheduling(q: seq<Scheduled>, e: Scheduled): seq<Scheduled> {
    var k := UpperBound(q, e.deadline);
    Spliced(q, k, e)
  }

  function Others(q: seq<Scheduled>, scope: Scope): seq<Scheduled> {
    if q == [] then []
    else (if q[0].scope == scope then [] else [q[0]]) + Others(q[1..], scope)
  }

  /** The queue after all callbacks of a scope have been cancelled. */
  function Cancelled(q: seq<Scheduled>, scope: Scope): seq<Scheduled> {
    if scope == 0 then q else Others(q, scope)
  }

  /** The deadlines pending for one scope, earliest first. */
  function Pending(q: seq<Scheduled>, scope: Scope): seq<Time> {
    if q == [] then []
    else (if q[0].scope == scope then [q[0].deadline] else []) + Pending(q[1..], scope)
  }

  /** What one callback adds to the pending deadlines of a scope. */
  function Due(e: Scheduled, scope: Scope): seq<Time> {
    if e.scope == scope then [e.deadline] else []
  }

  lemma {:induction false} PendingCons(e: Scheduled, q: seq<Scheduled>, scope: Scope)
    ensures Pending([e] + q, scope) == Due(e, scope) + Pending(q, scope)
  {
    assert ([e] + q)[1..] == q;
  }

  lemma {:induction false} PendingConcat(a: seq<Scheduled>, b: seq<Scheduled>, scope: Scope)
    ensures Pending(a + b, scope) == Pending(a, scope) + Pending(b, scope)
    decreases |a|
  {
    if a == [] {
      assert a + b == b;
    } else {
      var (e, rest) := (a[0], a[1..]);
      assert a == [e] + rest;
      PendingConcat(rest, b, scope);
      Assoc([e], rest, b);
      PendingCons(e, rest, scope);
      PendingCons(e, rest + b, scope);
      Assoc(Due(e, scope), Pending(rest, scope), Pending(b, scope));
    }
  }

  lemma {:induction false} PendingSpliced(q: seq<Scheduled>, k: nat, e: Scheduled, scope: Scope)
    requires k <= |q|
    ensures Pending(q, scope) == Pending(q[..k], scope) + Pending(q[k..], scope)
    ensures Pending(Spliced(q, k, e), scope) == Pending(q[..k], scope) + (Due(e, scope) + Pending(q[k..], scope))
  {
    var (a, b) := (q[..k], q[k..]);
    assert q == a + b;
    PendingConcat(a, b, scope);
    Assoc(a, [e], b);
    PendingCons(e, b, scope);
    PendingConcat(a, [e] + b, scope);
  }

  lemma {:induction false} OthersPending(q: seq<Scheduled>, scope: Scope, s: Scope)
    ensures Pending(Others(q, scope), s) == if s == scope then [] else Pending(q, s)
  {
    if q != [] {
      OthersPending(q[1..], scope, s);
      PendingConcat(if q[0].scope == scope then [] else [q[0]], Others(q[1..], scope), s);
    }
  }

  /** Cancelling leaves nothing pending for the owner and touches nobody else; the null owner cancels nothing. */
  lemma {:induction false} CancelledPending(q: seq<Scheduled>, scope: Scope, s: Scope)
    ensures Pending(Cancelled(q, scope), s) == if s == scope != 0 then [] else Pending(q, s)
    ensures scope == 0 ==> Cancelled(q, scope) == q
  {
    OthersPending(q, scope, s);
  }

  lemma {:induction false} OthersMembers(q: seq<Scheduled>, scope: Scope, e: Scheduled)
    ensures e in Others(q, scope) ==> e in q
  {
    if q != [] {
      OthersMembers(q[1..], scope, e);
      assert e in q[1..] ==> e in q;
    }
  }

  lemma {:induction false} OrderedCons(e: Scheduled, q: seq<Scheduled>)
    requires Ordered(q) && forall i :: 0 <= i < |q| ==> e.deadline <= q[i].deadline
    ensures Ordered([e] + q)
  {
  }

  lemma {:induction false} OthersOrdered(q: seq<Scheduled>, scope: Scope)
    requires Ordered(q)
    ensures Ordered(Others(q, scope))
    ensures forall e :: e in Others(q, scope) ==> e in q
  {
    forall e | e in Others(q, scope) ensures e in q {
      OthersMembers(q, scope, e);
    }
    if q != [] {
      var r := Others(q[1..], scope);
      OthersOrdered(q[1..], scope);
      forall i | 0 <= i < |r| ensures q[0].deadline <= r[i].deadline {
        assert r[i] in q[1..];
      }
      OrderedCons(q[0], r);
      AddNothing(r);
    }
  }

  lemma {:induction false} UpperBoundOrdered(q: seq<Scheduled>, t: Time)
    requires Ordered(q)
    ensures forall i :: UpperBound(q, t) <= i < |q| ==> t < q[i].deadline
  {
  }

  lemma {:induction false} SchedulingOrdered(q: seq<Scheduled>, e: Scheduled)
    requires Ordered(q)
    ensures Ordered(Scheduling(q, e))
  {
    UpperBoundOrdered(q, e.deadline);
  }

  lemma {:induction false} SchedulingPending(q: seq<Scheduled>, e: Scheduled, s: Scope)
    ensures s != e.scope ==> Pending(Scheduling(q, e), s) == Pending(q, s)
    ensures s == e.scope && Pending(q, s) == [] ==> Pending(Scheduling(q, e), s) == [e.deadline]
  {
    PendingSpliced(q, UpperBound(q, e.deadline), e, s);
  }

  /**
   * Cancelling a scope and scheduling one callback for it leaves exactly that callback pending for
   * the scope, touches nobody else's callbacks and keeps the queue ordered.
   */
  lemma {:induction false} Rescheduled(q: seq<Scheduled>, e: Scheduled)
    requires Ordered(q) && e.scope != 0
    ensures Ordered(Scheduling(Cancelled(q, e.scope), e))
    ensures Pending(Scheduling(Cancelled(q, e.scope), e), e.scope) == [e.deadline]
    ensures forall s :: s != e.scope ==>
              Pending(Scheduling(Cancelled(q, e.scope), e), s) == Pending(q, s)
  {
    var c := Cancelled(q, e.scope);
    OthersOrdered(q, e.scope);
    SchedulingOrdered(c, e);
    OthersPending(q, e.scope, e.scope);
    SchedulingPending(c, e, e.scope);
    forall s | s != e.scope ensures Pending(Scheduling(c, e), s) == Pending(q, s) {
      OthersPending(q, e.scope, s);
      SchedulingPending(c, e, s);
    }
  }

  lemma {:induction false} PendingMember(q: seq<Scheduled>, scope: Scope, t: Time)
    ensures t in Pending(q, scope) <==> Scheduled(t, scope) in q
  {
    if q != [] {
      PendingMember(q[1..], scope, t);
      assert q == [q[0]] + q[1..];
    }
  }

  lemma {:induction false} OthersSame(q: seq<Scheduled>, scope: Scope)
    requires Pending(q, scope) == []
    ensures Others(q, scope) == q
  {
    if q != [] {
      OthersSame(q[1..], scope);
    }
  }

  lemma {:induction false} UpperBoundPast(q: seq<Scheduled>, n: nat, t: Time)
    requires n <= |q| && forall i :: 0 <= i < n ==> q[i].deadline <= t
    ensures UpperBound(q, t) == n + UpperBound(q[n..], t)
  {
    var (k, j, r) := (UpperBound(q, t), UpperBound(q[n..], t), q[n..]);
    assert k >= n;
    assert k < |q| ==> r[k - n] == q[k];
    assert j < |r| ==> r[j] == q[n + j];
  }

  lemma {:induction false} SplicedPast<T>(q: seq<T>, n: nat, k: nat, e: T)
    requires n <= |q| && k <= |q| - n
    ensures Spliced(q, n + k, e) == q[..n] + Spliced(q[n..], k, e)
  {
    var (a, b) := (q[..n], q[n..]);
    assert q[..n + k] == a + b[..k] && q[n + k..] == b[k..];
    Assoc(a, b[..k], [e]);
    Assoc(a, b[..k] + [e], b[k..]);
  }

  /** Scheduling later than a prefix of the queue does not disturb that prefix. */
  lemma {:induction false} SchedulingPast(q: seq<Scheduled>, n: nat, e: Scheduled)
    requires n <= |q| && forall i :: 0 <= i < n ==> q[i].deadline <= e.deadline
    ensures Scheduling(q, e) == q[..n] + Scheduling(q[n..], e)
  {
    UpperBoundPast(q, n, e.deadline);
    SplicedPast(q, n, UpperBound(q[n..], e.deadline), e);
  }

  class ManualRuntime {
    var now: Time
    var queue: seq<Scheduled>

    constructor (init: Time)
      ensures now == init && queue == []
    {
      now := init;
      queue := [];
    }

    method Schedule(tp: Time, scope: Scope)
      modifies this`queue
      ensures queue == Scheduling(old(queue), Scheduled(tp, scope))
    {
      var k := 0;
      while k < |queue| && queue[k].deadline <= tp
        invariant 0 <= k <= |queue|
        invariant forall i :: 0 <= i < k ==> queue[i].deadline <= tp
      {
        k := k + 1;
      }
      queue := queue[..k] + [Scheduled(tp, scope)] + queue[k..];
    }

    method Cancel(scope: Scope)
      modifies this`queue
      ensures queue == Cancelled(old(queue), scope)
    {
      if scope != 0 {
        var rest := [];
        var k := 0;
        while k < |queue|
          invariant 0 <= k <= |queue| && queue == old(queue)
          invariant Others(queue, scope) == rest + Others(queue[k..], scope)
        {
          DropOne(queue, k, k + 1);
          if queue[k].scope != scope {
            rest := rest + [queue[k]];
          }
          k := k + 1;
        }
        TakeAll(queue, k);
        AddNothing(rest);
        queue := rest;
      }
    }

    /** Deadline of the earliest callback, none if nothing is pending. */
    method Next() returns (pending: bool, deadline: Time)
      requires Ordered(queue)
      ensures pending <==> queue != []
      ensures pending ==> deadline == queue[0].deadline
      ensures pending ==> forall e :: e in queue ==> deadline <= e.deadline
    {
      pending := queue != [];
      deadline := if pending then queue[0].deadline else now;
    }
  }
}
