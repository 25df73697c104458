/**
 * Promise: a cell written once, over a Condition signalled by the writer.  await() waits with an
 * if, not a while, which is sound because nothing is ever signalled before the value is there.
 */
module Promises {
  import opened Options
  import opened TicketQueue
  import Conditions
  import Waits
  import Tasks

  class Promise {
    var result: Option<nat>
    const completed: Conditions.Condition

    constructor ()
      ensures result.None? && completed.View() == Empty() && fresh(completed) && fresh(completed.queue)
    {
      result := None;
      completed := new Conditions.Condition();
    }

    /**
     * What the other threads do to a completed promise while its lock is dropped.  Its contract
     * is what WhileLockDropped proves of every run of the machine from such a state; the body
     * does nothing, and callers see only the contract.
     */
    method LockDropped()
      requires result.Some? && Aligned(completed.View())
      modifies completed, completed.queue
      ensures Aligned(completed.View())
      ensures completed.View().next == old(completed.View().next)
      ensures completed.View().released >= old(completed.View().released)
    {
    }

    /** complete() with signalAll inlined: it ends, whatever happens while the lock is dropped. */
    method Complete(value: nat) returns (done: bool)
      requires Aligned(completed.View())
      modifies this, completed, completed.queue
      ensures done <==> old(result).None?
      ensures result == if done then Some(value) else old(result)
      ensures done ==> completed.View().slots == [] && completed.View().released == old(completed.View().next) - 1
      ensures !done ==> completed.View() == old(completed.View())
    {
      if result.Some? {
        return false;
      }
      result := Some(value);
      var more := true;
      while more
        invariant result == Some(value) && Aligned(completed.View())
        invariant completed.View().next == old(completed.View().next)
        invariant !more ==> completed.View().slots == []
        decreases |completed.View().slots| + (if more then 1 else 0)
      {
        ReleaseGoesFirst(completed.View());
        ReleaseShrinks(completed.View());
        var woken := completed.Signal();
        if woken.Some? {
          LockDropped();
        } else {
          more := false;
        }
      }
      done := true;
    }

    /** The first section of await(): the value, or a ticket to wait with. */
    method AwaitSection(task: nat) returns (value: Option<nat>, ticket: nat)
      modifies completed, completed.queue
      ensures value == result
      ensures result.Some? ==> completed.View() == old(completed.View())
      ensures result.None? ==>
                completed.View() == Join(old(completed.View()), task) && ticket == old(completed.View()).next
    {
      value := result;
      ticket := 0;
      if result.None? {
        ticket := completed.AwaitSection(task);
      }
    }
  }

  lemma {:induction false} ReleaseShrinks(q: Tickets)
    ensures |Release(q).0.slots| <= |q.slots|
    ensures Release(q).1.Some? ==> |Release(q).0.slots| < |q.slots|
    decreases |q.slots|
  {
    if q.slots != [] && q.slots[0].None? {
      ReleaseShrinks(Pop(q));
    }
  }

  // ------------------------------------------------------------------ the machine

  /**
   * accepted lists the values whose complete() succeeded; found lists what each await() that
   * returned found in the cell; sweeping says that a complete() is still inside signalAll.
   */
  datatype State = State(
    w: Waits.Wait, result: Option<nat>, sweeping: bool, accepted: seq<nat>, found: seq<Option<nat>>)

  datatype Step =
    | Complete(value: nat)
    | Sweep
    | Await(task: nat)
    | Throw(ticket: nat)
    | Other(step: Waits.Step)

  function Initial(homes: seq<Option<nat>>): State { State(Waits.Initial(homes), None, false, [], []) }

  predicate Enabled(s: State, step: Step) {
    match step
    case Complete(_) => true
    case Sweep => s.sweeping
    case Await(t) => Waits.Enabled(s.w, Waits.Join(t))
    case Throw(k) => Waits.Enabled(s.w, Waits.Throw(k))
    case Other(a) => Conditions.Passive(a) && Waits.Enabled(s.w, a)
  }

  /** One round of signalAll, up to the point where the lock is dropped or the loop ends. */
  function Swept(s: State): State {
    s.(w := Waits.Granted(s.w), sweeping := Release(s.w.q).1.Some?)
  }

  function Apply(s: State, step: Step): State
    requires Enabled(s, step)
  {
    match step
    case Complete(v) =>
      if s.result.Some? then s else Swept(s.(result := Some(v), accepted := s.accepted + [v]))
    case Sweep => Swept(s)
    case Await(t) =>
      if s.result.Some? then s.(found := s.found + [s.result]) else s.(w := Waits.Joined(s.w, t))
    case Throw(k) =>
      var w1 := Waits.Thrown(s.w, k);
      s.(w := if s.w.q.released < k then w1 else Waits.Granted(w1))
    case Other(a) =>
      s.(w := Waits.Apply(s.w, a), found := if Waits.Leaves(s.w, a) then s.found + [s.result] else s.found)
  }

  predicate Legal(s: State, steps: seq<Step>)
    decreases |steps|
  {
    steps == [] || (Enabled(s, steps[0]) && Legal(Apply(s, steps[0]), steps[1..]))
  }

  function After(s: State, steps: seq<Step>): State
    requires Legal(s, steps)
    decreases |steps|
  {
    if steps == [] then s else After(Apply(s, steps[0]), steps[1..])
  }

  ghost predicate Reachable(s: State) {
    exists homes: seq<Option<nat>>, steps: seq<Step> ::
      Legal(Initial(homes), steps) && s == After(Initial(homes), steps)
  }

  ghost predicate Inv(s: State) {
    Waits.Inv(s.w)
    && (s.result.None? ==> s.w.q.released == 0 && !s.sweeping && s.accepted == [] && s.found == [])
    && (s.result.Some? ==> s.accepted == [s.result.value] && (s.sweeping || s.w.q.slots == []))
    && (forall i :: 0 <= i < |s.found| ==> s.found[i] == s.result)
  }

  lemma PassiveQueue(w: Waits.Wait, a: Waits.Step)
    requires Conditions.Passive(a) && Waits.Enabled(w, a)
    ensures Waits.Apply(w, a).q == w.q
  {
  }

  lemma KeepsThrow(s: State, k: nat)
    requires Inv(s) && Enabled(s, Throw(k))
    ensures Inv(Apply(s, Throw(k)))
  {
    var w1 := Waits.Thrown(s.w, k);
    Waits.KeepsThrow(s.w, k);
    if k <= s.w.q.released {
      Waits.KeepsGrant(w1);
      ReleaseShrinks(w1.q);
    } else {
      Waits.CancelFindsOwnSlot(s.w, k);
    }
  }

  lemma KeepsSwept(s: State)
    requires Waits.Inv(s.w) && s.result.Some? && s.accepted == [s.result.value]
    requires forall i :: 0 <= i < |s.found| ==> s.found[i] == s.result
    ensures Inv(Swept(s))
  {
    Waits.KeepsGrant(s.w);
    ReleaseGoesFirst(s.w.q);
  }

  lemma Keeps(s: State, step: Step)
    requires Inv(s) && Enabled(s, step)
    ensures Inv(Apply(s, step))
  {
    match step
    case Complete(v) =>
      if s.result.None? {
        KeepsSwept(s.(result := Some(v), accepted := s.accepted + [v]));
      }
    case Sweep => KeepsSwept(s);
    case Await(t) =>
      if s.result.None? {
        Waits.KeepsJoin(s.w, t);
      }
    case Throw(k) => KeepsThrow(s, k);
    case Other(a) =>
      Waits.Keeps(s.w, a);
      PassiveQueue(s.w, a);
  }

  lemma {:induction false} RunKeeps(s: State, steps: seq<Step>)
    requires Inv(s) && Legal(s, steps)
    ensures Inv(After(s, steps))
    decreases |steps|
  {
    if steps != [] {
      Keeps(s, steps[0]);
      RunKeeps(Apply(s, steps[0]), steps[1..]);
    }
  }

  lemma InitialInv(homes: seq<Option<nat>>)
    ensures Inv(Initial(homes))
  {
  }

  lemma ReachableInv(s: State)
    requires Reachable(s)
    ensures Inv(s)
  {
    var homes: seq<Option<nat>>, steps: seq<Step> :| Legal(Initial(homes), steps) && s == After(Initial(homes), steps);
    InitialInv(homes);
    RunKeeps(Initial(homes), steps);
  }

  /** The machine's steps move the cell and the queue as the sections of the class do. */
  lemma StepsAreSections(s: State, step: Step)
    requires Inv(s) && Enabled(s, step)
    ensures var s' := Apply(s, step);
            match step
            case Complete(v) =>
              if s.result.Some? then s' == s
              else s'.result == Some(v) && s'.w.q == Release(s.w.q).0 && (s'.sweeping <==> Release(s.w.q).1.Some?)
            case Sweep =>
              s'.result == s.result && s'.w.q == Release(s.w.q).0 && (s'.sweeping <==> Release(s.w.q).1.Some?)
            case Await(t) => s'.result == s.result && s'.w.q == if s.result.Some? then s.w.q else Join(s.w.q, t)
            case Throw(k) => s'.result == s.result && s'.w.q == Conditions.Cancelling(s.w.q, k).0
            case Other(_) => s'.result == s.result && s'.w.q == s.w.q
  {
    match step
    case Throw(k) =>
      if s.w.q.released < k {
        Waits.CancelFindsOwnSlot(s.w, k);
      }
    case Other(a) => PassiveQueue(s.w, a);
    case _ =>
  }

  /**
   * From a completed promise on, whatever anybody does, nobody joins the queue and releases only
   * go up: what signalAll relies on each time it drops the lock.
   */
  lemma {:induction false} WhileLockDropped(s: State, steps: seq<Step>)
    requires Inv(s) && s.result.Some? && Legal(s, steps)
    ensures After(s, steps).result == s.result
    ensures Aligned(After(s, steps).w.q)
    ensures After(s, steps).w.q.next == s.w.q.next && After(s, steps).w.q.released >= s.w.q.released
    decreases |steps|
  {
    if steps != [] {
      Keeps(s, steps[0]);
      NobodyJoins(s, steps[0]);
      WhileLockDropped(Apply(s, steps[0]), steps[1..]);
    }
  }

  lemma NobodyJoins(s: State, step: Step)
    requires Inv(s) && s.result.Some? && Enabled(s, step)
    ensures Apply(s, step).result == s.result
    ensures Apply(s, step).w.q.next == s.w.q.next && Apply(s, step).w.q.released >= s.w.q.released
  {
    StepsAreSections(s, step);
    ReleaseGoesFirst(s.w.q);
  }

  // ------------------------------------------------------------------ what every run keeps

  /** At most one complete() succeeds, and every await() that returned has its value. */
  lemma WrittenOnce(s: State)
    requires Reachable(s)
    ensures |s.accepted| <= 1
    ensures s.result == if s.accepted == [] then None else Some(s.accepted[0])
    ensures forall i :: 0 <= i < |s.found| ==> s.accepted != [] && s.found[i] == Some(s.accepted[0])
  {
    ReachableInv(s);
  }

  /** The value, once there, never changes. */
  lemma {:induction false} NeverOverwritten(s: State, steps: seq<Step>)
    requires s.result.Some? && Legal(s, steps)
    ensures After(s, steps).result == s.result
    decreases |steps|
  {
    if steps != [] {
      NeverOverwritten(Apply(s, steps[0]), steps[1..]);
    }
  }

  /** Why an if is enough: a waiter that finds itself released finds the value too. */
  lemma ReleasedImpliesResult(s: State, k: nat)
    requires Reachable(s) && k in s.w.waiters && Waits.Released(s.w, k)
    ensures s.result.Some?
  {
    ReachableInv(s);
  }

  /** Once complete() has returned nobody is left waiting for it. */
  lemma CompletedLeavesNobody(s: State, k: nat)
    requires Reachable(s) && s.result.Some? && !s.sweeping && k in s.w.waiters
    ensures Waits.Released(s.w, k)
    ensures Waits.WaiterIs(s.w, k, Waits.Sleeping) && Tasks.Asleep(s.w.tasks[s.w.waiters[k].task]) ==>
              s.w.waiters[k].task in s.w.inflight || Waits.Flooded(s.w.tasks[s.w.waiters[k].task])
  {
    ReachableInv(s);
    if s.w.q.released < k {
      Waits.CancelFindsOwnSlot(s.w, k);
    }
    if Waits.WaiterIs(s.w, k, Waits.Sleeping) && Tasks.Asleep(s.w.tasks[s.w.waiters[k].task]) {
      Waits.NoSleepThroughGrant(s.w, k);
    }
  }

  function Sweeps(steps: seq<Step>): nat {
    if steps == [] then 0 else (if steps[0].Sweep? then 1 else 0) + Sweeps(steps[1..])
  }

  lemma StepDoesNotGrow(s: State, step: Step)
    requires Inv(s) && s.result.Some? && Enabled(s, step)
    ensures var s' := Apply(s, step);
            |s'.w.q.slots| + (if s'.sweeping then 1 else 0) + (if step.Sweep? then 1 else 0)
            <= |s.w.q.slots| + (if s.sweeping then 1 else 0)
    ensures Apply(s, step).result.Some?
  {
    ReleaseShrinks(s.w.q);
    match step
    case Throw(k) =>
      ReleaseShrinks(Waits.Thrown(s.w, k).q);
    case Other(a) => PassiveQueue(s.w, a);
    case _ =>
  }

  /** signalAll ends: after the value is written it makes at most one round per queued slot, plus one. */
  lemma {:induction false} SignalAllEnds(s: State, steps: seq<Step>)
    requires Inv(s) && s.result.Some? && Legal(s, steps)
    ensures Sweeps(steps) <= |s.w.q.slots| + (if s.sweeping then 1 else 0)
    decreases |steps|
  {
    if steps != [] {
      StepDoesNotGrow(s, steps[0]);
      Keeps(s, steps[0]);
      SignalAllEnds(Apply(s, steps[0]), steps[1..]);
    }
  }

  /** A waiter of a completed promise that looks returns from await() with the value. */
  lemma CompletedAwaitReturns(s: State, ticket: nat)
    requires Reachable(s) && ticket in s.w.waiters && Waits.Released(s.w, ticket)
    requires s.w.waiters[ticket].at.Testing? || s.w.waiters[ticket].at.Rechecking?
    ensures s.result.Some?
    ensures var step := Other(Waits.TestOf(s.w, ticket));
            Enabled(s, step) && ticket !in Apply(s, step).w.waiters
            && Apply(s, step).found == s.found + [s.result]
  {
    ReachableInv(s);
    Waits.TestsLeaveExactlyWhen(s.w, ticket);
  }

  /** Whatever a waiter, its task or a resume can do next they can do on a promise, giving up included. */
  lemma NobodyIsHeldUp(s: State, step: Waits.Step)
    requires Waits.Enabled(s.w, step) && !step.Join? && !step.Grant?
    ensures if step.Throw? then Enabled(s, Throw(step.ticket)) && step.ticket !in Apply(s, Throw(step.ticket)).w.waiters
            else Enabled(s, Other(step)) && Apply(s, Other(step)).w == Waits.Apply(s.w, step)
                 && Apply(s, Other(step)).result == s.result
  {
  }

  /**
   * Any code can await: with the value there it returns at once, and otherwise waits behind everybody
   * else; and anybody can complete, which writes the value if there is none.
   */
  lemma CallsTakeEffect(s: State, t: nat, value: nat)
    requires Reachable(s) && t < |s.w.tasks| && Tasks.Executing(s.w.tasks[t]) && Waits.Free(s.w, t)
    ensures Enabled(s, Await(t)) && Enabled(s, Complete(value))
    ensures Apply(s, Complete(value)).result == if s.result.Some? then s.result else Some(value)
    ensures var s' := Apply(s, Await(t));
            if s.result.Some? then s' == s.(found := s.found + [s.result])
            else s'.w.waiters == s.w.waiters[s.w.q.next := Waits.Waiter(t, Waits.Testing)]
                 && Live(s'.w.q) == Live(s.w.q) + [s.w.q.next] && s'.found == s.found
  {
    ReachableInv(s);
    Waits.AnybodyCanWait(s.w, t);
  }

  /** While complete() is inside signalAll another round can follow, until nobody is queued. */
  lemma SweepingGoesOn(s: State)
    requires Reachable(s)
    ensures s.sweeping <==> Enabled(s, Sweep)
    ensures s.result.Some? && s.w.q.slots != [] ==> s.sweeping
    ensures Enabled(s, Sweep) && Live(s.w.q) != [] ==>
              Apply(s, Sweep).sweeping && Live(Apply(s, Sweep).w.q) == Live(s.w.q)[1..]
    ensures Enabled(s, Sweep) && Live(s.w.q) == [] ==> !Apply(s, Sweep).sweeping && Apply(s, Sweep).w.q.slots == []
  {
    ReachableInv(s);
    ReleaseGoesFirst(s.w.q);
  }
}
