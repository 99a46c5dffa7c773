/**
Bounded fan-out: workers that share one counter, each taking the next item the moment it finishes one. `good` says
which items' tasks resolve and which reject; a step is one task settling, in any order.
*/
module Concurrency {
  import opened Prelude

  datatype Worker = Busy(index: nat) | Exited | Failed(index: nat)

  /** `started` and `done` list the items in the order they were begun and finished. */
  datatype Pool = Pool(next: nat, workers: seq<Worker>, started: seq<nat>, done: seq<nat>, rejected: bool)

  function WorkerCount(n: nat, limit: int): nat { Max(1, Min(limit, n)) }

  /** Every worker has taken its first item before anything can settle. */
  function Start(n: nat, limit: int): Pool {
    var c := WorkerCount(n, limit);
    Pool(c, seq(c, (k: nat) => if k < n then Busy(k) else Exited), UpTo(Min(c, n)), [], false)
  }

  function Settle(p: Pool, n: nat, good: nat -> bool, k: nat): Pool {
    if k >= |p.workers| || !p.workers[k].Busy? then p else
      var i := p.workers[k].index;
      if !good(i) then p.(workers := p.workers[k := Failed(i)], rejected := true)
      else
        var p' := p.(done := p.done + [i], next := p.next + 1);
        if p.next < n then p'.(workers := p.workers[k := Busy(p.next)], started := p.started + [p.next])
        else p'.(workers := p.workers[k := Exited])
  }

  function Run(p: Pool, n: nat, good: nat -> bool, order: seq<nat>): Pool {
    if order == [] then p else Settle(Run(p, n, good, order[..|order| - 1]), n, good, order[|order| - 1])
  }

  predicate Idle(p: Pool) { forall k :: 0 <= k < |p.workers| ==> !p.workers[k].Busy? }

  /** The promise of the whole resolves: every worker ran out of items. */
  predicate Resolved(p: Pool) { forall k :: 0 <= k < |p.workers| ==> p.workers[k].Exited? }

  // ------------------------------------------------------------ the invariant

  predicate Holds(w: Worker, i: nat) { (w.Busy? || w.Failed?) && w.index == i }

  predicate Taken(p: Pool, i: nat) {
    i in p.done || exists k :: 0 <= k < |p.workers| && Holds(p.workers[k], i)
  }

  predicate Distinct(s: seq<nat>) { forall i, j :: 0 <= i < j < |s| ==> s[i] != s[j] }

  predicate WorkerOk(p: Pool, n: nat, good: nat -> bool, w: Worker) {
    match w
    case Exited => p.next >= n
    case Busy(i) => i < Min(p.next, n) && i !in p.done
    case Failed(i) => i < Min(p.next, n) && i !in p.done && !good(i) && p.rejected
  }

  predicate Inv(p: Pool, n: nat, limit: int, good: nat -> bool) {
    && |p.workers| == WorkerCount(n, limit) <= p.next
    && p.started == UpTo(Min(p.next, n))
    && Distinct(p.done) && (forall i <- p.done :: i < n && i < p.next && good(i))
    && (forall k :: 0 <= k < |p.workers| ==> WorkerOk(p, n, good, p.workers[k]))
    && (forall j, k :: 0 <= j < k < |p.workers| && !p.workers[j].Exited? && !p.workers[k].Exited? ==>
          p.workers[j].index != p.workers[k].index)
    && (forall i: nat :: i < Min(p.next, n) ==> Taken(p, i))
    && (p.rejected ==> exists k :: 0 <= k < |p.workers| && p.workers[k].Failed?)
  }

  lemma StartOk(n: nat, limit: int, good: nat -> bool)
    ensures Inv(Start(n, limit), n, limit, good)
  {
    var p := Start(n, limit);
    forall i: nat | i < Min(p.next, n) ensures Taken(p, i) {
      assert Holds(p.workers[i], i);
    }
  }

  lemma TakenStays(p: Pool, q: Pool, k: nat, i: nat)
    requires k < |p.workers| && p.workers[k].Busy? && Taken(p, i)
    requires |q.workers| == |p.workers| && forall j :: 0 <= j < |p.workers| && j != k ==> q.workers[j] == p.workers[j]
    requires forall d <- p.done :: d in q.done
    requires p.workers[k].index in q.done || Holds(q.workers[k], p.workers[k].index)
    ensures Taken(q, i)
  {
    if i !in p.done {
      var j :| 0 <= j < |p.workers| && Holds(p.workers[j], i);
      if j != k || Holds(q.workers[k], i) { assert Holds(q.workers[j], i); }
    }
  }

  lemma SettleOk(p: Pool, n: nat, limit: int, good: nat -> bool, k: nat)
    requires Inv(p, n, limit, good)
    ensures Inv(Settle(p, n, good, k), n, limit, good)
  {
    if k < |p.workers| && p.workers[k].Busy? {
      var q, i := Settle(p, n, good, k), p.workers[k].index;
      assert WorkerOk(p, n, good, p.workers[k]);
      forall m: nat | m < Min(q.next, n) ensures Taken(q, m) {
        if m < Min(p.next, n) { TakenStays(p, q, k, m); } else { assert Holds(q.workers[k], m); }
      }
      forall j | 0 <= j < |q.workers| ensures WorkerOk(q, n, good, q.workers[j]) {
        assert WorkerOk(p, n, good, p.workers[j]);
      }
      assert !good(i) ==> q.workers[k].Failed?;
      if p.rejected {
        var f :| 0 <= f < |p.workers| && p.workers[f].Failed?;
        assert q.workers[f].Failed?;
      }
    }
  }

  lemma {:induction false} RunOk(n: nat, limit: int, good: nat -> bool, order: seq<nat>)
    ensures Inv(Run(Start(n, limit), n, good, order), n, limit, good)
  {
    if order == [] {
      StartOk(n, limit, good);
    } else {
      RunOk(n, limit, good, order[..|order| - 1]);
      SettleOk(Run(Start(n, limit), n, good, order[..|order| - 1]), n, limit, good, order[|order| - 1]);
    }
  }

  /** How many tasks are in flight. */
  function InFlight(workers: seq<Worker>): nat {
    if workers == [] then 0
    else InFlight(workers[..|workers| - 1]) + if workers[|workers| - 1].Busy? then 1 else 0
  }

  lemma {:induction false} InFlightAll(workers: seq<Worker>)
    ensures InFlight(workers) <= |workers|
    ensures (forall k :: 0 <= k < |workers| ==> workers[k].Busy?) ==> InFlight(workers) == |workers|
  {
    if workers != [] { InFlightAll(workers[..|workers| - 1]); }
  }

  // ------------------------------------------------------------- the promises

  /**
  The limit is kept and used: at most that many tasks are in flight, and until the first rejection exactly that many as
  long as items remain to be taken. A limit below one counts as one.
  */
  lemma LimitUsed(n: nat, limit: int, good: nat -> bool, order: seq<nat>)
    ensures var (p, most) := (Run(Start(n, limit), n, good, order), if limit < 1 then 1 else limit);
      && InFlight(p.workers) <= most
      && (!p.rejected && |p.started| < n ==> InFlight(p.workers) == most)
  {
    RunOk(n, limit, good, order);
    var p := Run(Start(n, limit), n, good, order);
    InFlightAll(p.workers);
    forall k | 0 <= k < |p.workers| ensures WorkerOk(p, n, good, p.workers[k]) {}
  }

  /** A resolved run finished every item exactly once, whatever order they settled in. */
  lemma EachOnce(n: nat, limit: int, good: nat -> bool, order: seq<nat>)
    requires Resolved(Run(Start(n, limit), n, good, order))
    ensures var done := Run(Start(n, limit), n, good, order).done;
      Distinct(done) && (forall i: nat :: i in done <==> i < n)
    ensures forall i: nat :: i < n ==> good(i)
  {
    RunOk(n, limit, good, order);
    var p := Run(Start(n, limit), n, good, order);
    assert WorkerOk(p, n, good, p.workers[0]);
    forall i: nat | i < n ensures i in p.done {
      assert Taken(p, i);
    }
  }

  /** With nothing left in flight the whole has resolved, or it was rejected: it resolves iff no item was bad. */
  lemma ResolvedIff(n: nat, limit: int, good: nat -> bool, order: seq<nat>)
    requires Idle(Run(Start(n, limit), n, good, order))
    ensures var p := Run(Start(n, limit), n, good, order);
      && (Resolved(p) <==> !p.rejected)
      && (!p.rejected ==> forall i: nat :: i < n ==> good(i))
      && ((forall i: nat :: i < n ==> good(i)) ==> Resolved(p))
  {
    RunOk(n, limit, good, order);
    var p := Run(Start(n, limit), n, good, order);
    forall k | 0 <= k < |p.workers| ensures WorkerOk(p, n, good, p.workers[k]) {}
    if !p.rejected { EachOnce(n, limit, good, order); }
  }

  /** A settling that begins a new item although the whole was already rejected. */
  predicate StartsAfterRejection(n: nat, limit: int, good: nat -> bool, order: seq<nat>) {
    exists i :: 0 <= i < |order|
      && Run(Start(n, limit), n, good, order[..i]).rejected
      && Run(Start(n, limit), n, good, order[..i]).started
         != Settle(Run(Start(n, limit), n, good, order[..i]), n, good, order[i]).started
  }

  /**
  The comment in the source says no new task starts after a rejection. That is so exactly when the limit is one or
  less, or no lower than the number of items: a worker whose own task resolved goes on taking items.
  */
  lemma NoStartAfterRejectionIff(n: nat, limit: int)
    ensures (forall good: nat -> bool, order :: !StartsAfterRejection(n, limit, good, order))
        <==> limit <= 1 || n <= limit
  {
    var c := WorkerCount(n, limit);
    if c == 1 || n <= c {
      forall good: nat -> bool, order ensures !StartsAfterRejection(n, limit, good, order) {
        NoneStarts(n, limit, good, order);
      }
    } else {
      OneStarts(n, limit);
    }
  }

  lemma NoneStarts(n: nat, limit: int, good: nat -> bool, order: seq<nat>)
    requires WorkerCount(n, limit) == 1 || n <= WorkerCount(n, limit)
    ensures !StartsAfterRejection(n, limit, good, order)
  {
    forall i | 0 <= i < |order| && Run(Start(n, limit), n, good, order[..i]).rejected
      ensures var p := Run(Start(n, limit), n, good, order[..i]); p.started == Settle(p, n, good, order[i]).started
    {
      RunOk(n, limit, good, order[..i]);
    }
  }

  lemma OneStarts(n: nat, limit: int)
    requires 2 <= WorkerCount(n, limit) < n
    ensures exists good: nat -> bool, order :: StartsAfterRejection(n, limit, good, order)
  {
    var good: nat -> bool := i => i != 0;
    var s0 := Start(n, limit);
    var order := [0, 1];
    assert order[..1] == [0] && Run(s0, n, good, []) == s0;
    var s1 := Run(s0, n, good, order[..1]);
    assert s1 == Settle(s0, n, good, 0) by { assert [0][..0] == []; }
    assert s1.rejected && s1.workers[1] == Busy(1) && s1.next < n;
    assert |Settle(s1, n, good, 1).started| == |s1.started| + 1;
    assert StartsAfterRejection(n, limit, good, order);
  }
}
