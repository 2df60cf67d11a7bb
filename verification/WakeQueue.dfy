/**
 * The per-target queue of pane wakes: each wake is chained after the tail of the one before it, and a
 * cleanup continuation drops the map entry when it still is the last. Continuations run in any order.
 */
module WakeQueue {
  import opened Common

  /**
   * How far a wake has come: chained, its task running, its task settled (either way), its tail settled,
   * and its cleanup continuation run.
   */
  datatype Phase = Chained | Running | Settled(ok: bool) | TailSettled | Cleaned

  /** `prev` is the wake whose tail this one was chained to; without one it was chained to a resolved promise. */
  datatype Wake = Wake(target: string, prev: Option<nat>, phase: Phase)

  /** All wakes in order of arrival, and the map from targets to the tail that is last. */
  datatype Queue = Queue(wakes: seq<Wake>, tails: map<string, nat>)

  const START := Queue([], map[])

  datatype Event =
    | Enqueue(target: string)
    | StartTask(n: nat)
    | SettleTask(n: nat, ok: bool)
    | SettleTail(n: nat)
    | CleanUp(n: nat)

  predicate TailDone(p: Phase) {
    p.TailSettled? || p.Cleaned?
  }

  predicate PrevDone(q: Queue, n: nat)
    requires n < |q.wakes|
  {
    var prev := q.wakes[n].prev;
    prev.None? || (prev.value < |q.wakes| && TailDone(q.wakes[prev.value].phase))
  }

  predicate Enabled(q: Queue, ev: Event) {
    match ev
    case Enqueue(_) => true
    case StartTask(n) => n < |q.wakes| && q.wakes[n].phase.Chained? && PrevDone(q, n)
    case SettleTask(n, _) => n < |q.wakes| && q.wakes[n].phase.Running?
    case SettleTail(n) => n < |q.wakes| && q.wakes[n].phase.Settled?
    case CleanUp(n) => n < |q.wakes| && q.wakes[n].phase.TailSettled?
  }

  function Moved(q: Queue, n: nat, p: Phase): Queue
    requires n < |q.wakes|
  {
    q.(wakes := q.wakes[n := q.wakes[n].(phase := p)])
  }

  function Lookup(tails: map<string, nat>, g: string): Option<nat> {
    if g in tails then Some(tails[g]) else None
  }

  function Step(q: Queue, ev: Event): Queue {
    if !Enabled(q, ev) then q
    else
      match ev
      case Enqueue(g) => Queue(q.wakes + [Wake(g, Lookup(q.tails, g), Chained)], q.tails[g := |q.wakes|])
      case StartTask(n) => Moved(q, n, Running)
      case SettleTask(n, ok) => Moved(q, n, Settled(ok))
      case SettleTail(n) => Moved(q, n, TailSettled)
      case CleanUp(n) =>
        var g := q.wakes[n].target;
        Moved(q, n, Cleaned).(tails := if Lookup(q.tails, g) == Some(n) then q.tails - {g} else q.tails)
  }

  function After(evs: seq<Event>): Queue {
    if evs == [] then START else Step(After(evs[..|evs| - 1]), evs[|evs| - 1])
  }

  lemma AfterAppend(evs: seq<Event>, ev: Event)
    ensures After(evs + [ev]) == Step(After(evs), ev)
  {
    assert (evs + [ev])[..|evs|] == evs;
  }

  // ---------------------------------------------------------------------------------------------
  // Invariant
  // ---------------------------------------------------------------------------------------------

  /** Every wake of the target before position `n` has settled its tail. */
  ghost predicate AllDoneBefore(q: Queue, g: string, n: nat) {
    forall m :: 0 <= m < n && m < |q.wakes| && q.wakes[m].target == g ==> TailDone(q.wakes[m].phase)
  }

  /** No wake of the target lies strictly between `p` and `n`. */
  ghost predicate NoneBetween(q: Queue, g: string, p: int, n: nat) {
    forall m :: p < m < n && 0 <= m < |q.wakes| ==> q.wakes[m].target != g
  }

  /** A wake follows the wake of its target that arrived just before it, unless all of those are done. */
  ghost predicate ChainRight(q: Queue, n: nat)
    requires n < |q.wakes|
  {
    var w := q.wakes[n];
    if w.prev.Some? then
      && w.prev.value < n && q.wakes[w.prev.value].target == w.target && NoneBetween(q, w.target, w.prev.value, n)
    else AllDoneBefore(q, w.target, n)
  }

  /** The map names the last wake of a target, and forgets a target only when all its wakes are done. */
  ghost predicate TailRight(q: Queue, g: string) {
    if g in q.tails then
      q.tails[g] < |q.wakes| && q.wakes[q.tails[g]].target == g && !q.wakes[q.tails[g]].phase.Cleaned?
      && NoneBetween(q, g, q.tails[g], |q.wakes|)
    else AllDoneBefore(q, g, |q.wakes|)
  }

  /** Once a wake has left the chain, every earlier wake of its target is done. */
  ghost predicate OrderRight(q: Queue, n: nat)
    requires n < |q.wakes|
  {
    !q.wakes[n].phase.Chained? ==> AllDoneBefore(q, q.wakes[n].target, n)
  }

  ghost predicate Inv(q: Queue) {
    && (forall n :: 0 <= n < |q.wakes| ==> ChainRight(q, n))
    && (forall n :: 0 <= n < |q.wakes| ==> OrderRight(q, n))
    && (forall g :: TailRight(q, g))
  }

  lemma EnqueueInv(q: Queue, g: string)
    requires Inv(q)
    ensures Inv(Step(q, Enqueue(g)))
  {
    var x := Step(q, Enqueue(g));
    assert TailRight(q, g);
    forall n | 0 <= n < |x.wakes|
      ensures ChainRight(x, n) && OrderRight(x, n)
    {
      if n < |q.wakes| {
        assert ChainRight(q, n) && OrderRight(q, n);
      }
    }
    forall h
      ensures TailRight(x, h)
    {
      assert TailRight(q, h);
    }
  }

  /** A chained wake whose predecessor's tail is settled has every earlier wake of its target done. */
  lemma StartsInOrder(q: Queue, n: nat)
    requires Inv(q) && n < |q.wakes| && PrevDone(q, n)
    ensures AllDoneBefore(q, q.wakes[n].target, n)
  {
    assert ChainRight(q, n);
    var w := q.wakes[n];
    if w.prev.Some? {
      assert OrderRight(q, w.prev.value);
    }
  }

  /** Moving one wake forward keeps the invariant, as long as it leaves the chain in order. */
  lemma MovedInv(q: Queue, n: nat, p: Phase)
    requires Inv(q) && n < |q.wakes| && AllDoneBefore(q, q.wakes[n].target, n)
    requires TailDone(q.wakes[n].phase) ==> TailDone(p)
    requires p.Cleaned? ==> Lookup(q.tails, q.wakes[n].target) != Some(n)
    ensures Inv(Moved(q, n, p))
  {
    var x := Moved(q, n, p);
    forall m | 0 <= m < |x.wakes|
      ensures ChainRight(x, m) && OrderRight(x, m)
    {
      assert ChainRight(q, m) && OrderRight(q, m);
    }
    forall g
      ensures TailRight(x, g)
    {
      assert TailRight(q, g);
    }
  }

  /** Cleaning up the last wake of a target forgets the target. */
  lemma ForgetInv(q: Queue, n: nat)
    requires Inv(q) && n < |q.wakes| && q.wakes[n].phase.TailSettled? && Lookup(q.tails, q.wakes[n].target) == Some(n)
    ensures Inv(Step(q, CleanUp(n)))
  {
    var x, h := Step(q, CleanUp(n)), q.wakes[n].target;
    assert OrderRight(q, n);
    forall m | 0 <= m < |x.wakes|
      ensures ChainRight(x, m) && OrderRight(x, m)
    {
      assert ChainRight(q, m) && OrderRight(q, m);
    }
    forall g
      ensures TailRight(x, g)
    {
      assert TailRight(q, g) && TailRight(q, h);
    }
  }

  lemma StepInv(q: Queue, ev: Event)
    requires Inv(q)
    ensures Inv(Step(q, ev))
  {
    if Enabled(q, ev) {
      match ev
      case Enqueue(g) => EnqueueInv(q, g);
      case StartTask(n) =>
        StartsInOrder(q, n);
        MovedInv(q, n, Running);
      case SettleTask(n, ok) =>
        assert OrderRight(q, n);
        MovedInv(q, n, Settled(ok));
      case SettleTail(n) =>
        assert OrderRight(q, n);
        MovedInv(q, n, TailSettled);
      case CleanUp(n) =>
        assert OrderRight(q, n);
        if Lookup(q.tails, q.wakes[n].target) == Some(n) {
          ForgetInv(q, n);
        } else {
          MovedInv(q, n, Cleaned);
        }
    }
  }

  lemma {:induction false} RunInv(evs: seq<Event>)
    ensures Inv(After(evs))
  {
    if evs != [] {
      RunInv(evs[..|evs| - 1]);
      StepInv(After(evs[..|evs| - 1]), evs[|evs| - 1]);
    }
  }

  // ---------------------------------------------------------------------------------------------
  // What every run guarantees
  // ---------------------------------------------------------------------------------------------

  /**
   * Arrival order without overlap: when a wake runs, every earlier wake of its target is over, every later one
   * waits.
   */
  lemma OneAtATimeInOrder(evs: seq<Event>, m: nat, n: nat)
    requires m < n < |After(evs).wakes| && After(evs).wakes[m].target == After(evs).wakes[n].target
    ensures var q := After(evs);
            && (!q.wakes[n].phase.Chained? ==> !q.wakes[m].phase.Chained? && !q.wakes[m].phase.Running?)
            && !(q.wakes[m].phase.Running? && q.wakes[n].phase.Running?)
  {
    RunInv(evs);
    assert OrderRight(After(evs), n);
  }

  /** No task is running and no continuation is left to run. */
  ghost predicate Quiescent(q: Queue) {
    forall n: nat :: !Enabled(q, StartTask(n)) && !Enabled(q, SettleTask(n, true)) && !Enabled(q, SettleTail(n))
      && !Enabled(q, CleanUp(n))
  }

  lemma QuiescentCleans(q: Queue, n: nat)
    requires Inv(q) && Quiescent(q) && n < |q.wakes|
    ensures q.wakes[n].phase.Cleaned?
  {
    assert ChainRight(q, n);
    assert !Enabled(q, StartTask(n)) && !Enabled(q, SettleTask(n, true)) && !Enabled(q, SettleTail(n))
           && !Enabled(q, CleanUp(n));
    if q.wakes[n].prev.Some? {
      QuiescentCleans(q, q.wakes[n].prev.value);
    }
  }

  /** When everything has run, every wake is done and the map holds no target: no wake is lost and nothing leaks. */
  lemma QuiescentIsEmpty(evs: seq<Event>)
    requires Quiescent(After(evs))
    ensures var q := After(evs);
            q.tails == map[] && forall n :: 0 <= n < |q.wakes| ==> q.wakes[n].phase.Cleaned?
  {
    RunInv(evs);
    var q := After(evs);
    forall n | 0 <= n < |q.wakes|
      ensures q.wakes[n].phase.Cleaned?
    {
      QuiescentCleans(q, n);
    }
    forall g
      ensures g !in q.tails
    {
      assert TailRight(q, g);
    }
  }

  /** How many steps a wake still has to make. */
  function Left(p: Phase): nat {
    match p
    case Chained => 4
    case Running => 3
    case Settled(_) => 2
    case TailSettled => 1
    case Cleaned => 0
  }

  function Work(wakes: seq<Wake>): nat {
    if wakes == [] then 0 else Work(wakes[..|wakes| - 1]) + Left(wakes[|wakes| - 1].phase)
  }

  lemma {:induction false} WorkMoved(wakes: seq<Wake>, n: nat, p: Phase)
    requires n < |wakes| && Left(p) + 1 == Left(wakes[n].phase)
    ensures Work(wakes[n := wakes[n].(phase := p)]) + 1 == Work(wakes)
  {
    var moved, k := wakes[n := wakes[n].(phase := p)], |wakes| - 1;
    if n < k {
      WorkMoved(wakes[..k], n, p);
      assert moved[..k] == wakes[..k][n := wakes[..k][n].(phase := p)];
    } else {
      assert moved[..k] == wakes[..k];
    }
  }

  lemma {:induction false} NoWorkLeft(wakes: seq<Wake>)
    ensures Work(wakes) == 0 <==> forall n :: 0 <= n < |wakes| ==> wakes[n].phase.Cleaned?
  {
    if wakes != [] {
      NoWorkLeft(wakes[..|wakes| - 1]);
      assert wakes == wakes[..|wakes| - 1] + [wakes[|wakes| - 1]];
    }
  }

  lemma StepWorks(q: Queue, ev: Event)
    requires Enabled(q, ev) && !ev.Enqueue?
    ensures Work(Step(q, ev).wakes) + 1 == Work(q.wakes)
  {
    match ev
    case StartTask(n) => WorkMoved(q.wakes, n, Running);
    case SettleTask(n, ok) => WorkMoved(q.wakes, n, Settled(ok));
    case SettleTail(n) => WorkMoved(q.wakes, n, TailSettled);
    case CleanUp(n) => WorkMoved(q.wakes, n, Cleaned);
  }

  lemma QuiescentIff(q: Queue)
    requires Inv(q)
    ensures Quiescent(q) <==> Work(q.wakes) == 0
  {
    NoWorkLeft(q.wakes);
    if Quiescent(q) {
      forall n | 0 <= n < |q.wakes|
        ensures q.wakes[n].phase.Cleaned?
      {
        QuiescentCleans(q, n);
      }
    }
  }

  /** What the event loop does next while nothing arrives: each event of `more` can happen when it does. */
  ghost predicate Continues(evs: seq<Event>, more: seq<Event>) {
    more == [] ||
    var pre, ev := more[..|more| - 1], more[|more| - 1];
    Continues(evs, pre) && !ev.Enqueue? && Enabled(After(evs + pre), ev)
  }

  /**
   * No wake starves, whichever tasks fail: from any point, in whatever order the event loop goes on, exactly
   * `Work` more steps happen before nothing is left to run, and not one fewer.
   */
  lemma {:induction false} EveryWakeEnds(evs: seq<Event>, more: seq<Event>)
    requires Continues(evs, more)
    ensures |more| <= Work(After(evs).wakes)
    ensures Quiescent(After(evs + more)) <==> |more| == Work(After(evs).wakes)
  {
    WorkDone(evs, more);
    RunInv(evs + more);
    QuiescentIff(After(evs + more));
  }

  lemma {:induction false} WorkDone(evs: seq<Event>, more: seq<Event>)
    requires Continues(evs, more)
    ensures |more| + Work(After(evs + more).wakes) == Work(After(evs).wakes)
  {
    if more == [] {
      assert evs + more == evs;
    } else {
      var pre, ev := more[..|more| - 1], more[|more| - 1];
      WorkDone(evs, pre);
      StepWorks(After(evs + pre), ev);
      AfterAppend(evs + pre, ev);
      assert evs + more == evs + pre + [ev];
    }
  }

  // ---------------------------------------------------------------------------------------------
  // The code
  // ---------------------------------------------------------------------------------------------

  /** The module-level map with the promises it chains; a promise is named by the wake it belongs to. */
  class WakeQueues {
    var queues: map<string, nat>
    var wakes: seq<Wake>
    ghost var history: seq<Event>

    ghost predicate Valid()
      reads this
    {
      Queue(wakes, queues) == After(history)
    }

    constructor ()
      ensures Valid() && history == []
    {
      queues, wakes, history := map[], [], [];
    }

    /** Chain a wake after the target's tail and make it the new tail. */
    method EnqueueWake(target: string) returns (n: nat)
      requires Valid()
      modifies this
      ensures Valid() && history == old(history) + [Enqueue(target)]
      ensures n == |old(wakes)| && queues == old(queues)[target := n]
      ensures var prev := if target in old(queues) then Some(old(queues)[target]) else None;
              wakes == old(wakes) + [Wake(target, prev, Chained)]
    {
      AfterAppend(history, Enqueue(target));
      var prev := if target in queues then Some(queues[target]) else None;
      n := |wakes|;
      wakes := wakes + [Wake(target, prev, Chained)];
      queues := queues[target := n];
      history := history + [Enqueue(target)];
    }

    /** The continuation after a tail: forget the target if this tail still is its last. */
    method CleanUpAfter(n: nat)
      requires Valid() && n < |wakes| && wakes[n].phase.TailSettled?
      modifies this
      ensures Valid() && history == old(history) + [CleanUp(n)]
      ensures var target := old(wakes)[n].target;
              var last := target in old(queues) && old(queues)[target] == n;
              queues == if last then old(queues) - {target} else old(queues)
    {
      AfterAppend(history, CleanUp(n));
      var target := wakes[n].target;
      if target in queues && queues[target] == n {
        queues := queues - {target};
      }
      wakes := wakes[n := wakes[n].(phase := Cleaned)];
      history := history + [CleanUp(n)];
    }

    /** Whatever the event loop does next to a wake other than arriving or cleaning up. */
    method Advance(ev: Event)
      requires Valid() && (ev.StartTask? || ev.SettleTask? || ev.SettleTail?)
      modifies this
      ensures Valid() && history == old(history) + [ev] && queues == old(queues)
    {
      AfterAppend(history, ev);
      if Enabled(Queue(wakes, queues), ev) {
        var p := match ev case StartTask(_) => Running case SettleTask(_, ok) => Settled(ok) case _ => TailSettled;
        wakes := wakes[ev.n := wakes[ev.n].(phase := p)];
      }
      history := history + [ev];
    }
  }
}
