/**
 * Condition.  The class carries out each critical section under the caller's lock; the state
 * machine interleaves them and counts signals.
 */
module Conditions {
  import opened Options
  import opened TicketQueue
  import LazyDeques
  import Tasks
  import Waits

  /** The catch block of await(): null the own slot, or forward a signal already received. */
  function Cancelling(q: Tickets, ticket: nat): (Tickets, Option<nat>) {
    if q.released < ticket then
      (if ticket <= q.released + |q.slots| then Cancel(q, ticket) else q, None)
    else Release(q)
  }

  class Condition {
    var released: nat
    var nextTicket: nat
    const queue: LazyDeques.LazyDeque<Option<nat>>

    ghost function View(): Tickets
      reads this, queue
    {
      Tickets(released, nextTicket, queue.Items())
    }

    constructor ()
      ensures View() == Empty() && fresh(queue)
    {
      released := 0;
      nextTicket := 1;
      queue := new LazyDeques.LazyDeque<Option<nat>>();
    }

    method AwaitSection(task: nat) returns (ticket: nat)
      modifies this, queue
      ensures View() == Join(old(View()), task) && ticket == old(View()).next
    {
      queue.PushBack(Some(task));
      ticket := nextTicket;
      nextTicket := nextTicket + 1;
    }

    /** signal(), and one round of signalAll(): up to the point where the lock is dropped. */
    method Signal() returns (woken: Option<nat>)
      modifies this, queue
      ensures (View(), woken) == Release(old(View()))
    {
      var empty := queue.IsEmpty();
      while !empty
        invariant empty <==> queue.Items() == []
        invariant Release(View()) == Release(old(View()))
        decreases |queue.Items()|
      {
        var task := queue.Front();
        queue.PopFront();
        released := released + 1;
        if task.Some? {
          return task;
        }
        empty := queue.IsEmpty();
      }
      woken := None;
    }

    method CancelSection(ticket: nat) returns (woken: Option<nat>)
      requires Aligned(View()) && 0 < ticket < nextTicket
      modifies this, queue
      ensures (View(), woken) == Cancelling(old(View()), ticket)
    {
      if released < ticket {
        var queueIndex := ticket - released - 1;
        queue.Set(queueIndex, None);
        woken := None;
      } else {
        woken := Signal();
      }
    }
  }

  // ------------------------------------------------------------------ the machine

  /**
   * effective counts the signals that found a waiter, returned the waits that ended normally,
   * and lost the signals forwarded by a throwing waiter that found nobody else.
   */
  datatype State = State(w: Waits.Wait, effective: nat, returned: nat, lost: nat)

  datatype Step =
    | Await(task: nat)
    | Signal
    | Throw(ticket: nat)
    | Other(step: Waits.Step)

  function Initial(homes: seq<Option<nat>>): State { State(Waits.Initial(homes), 0, 0, 0) }

  predicate Passive(step: Waits.Step) {
    step.Test? || step.Processed? || step.Recheck? || step.Deliver? || step.Act?
  }

  predicate Enabled(s: State, step: Step) {
    match step
    case Await(t) => Waits.Enabled(s.w, Waits.Join(t))
    case Signal => true
    case Throw(k) => Waits.Enabled(s.w, Waits.Throw(k))
    case Other(a) => Passive(a) && Waits.Enabled(s.w, a)
  }

  function Apply(s: State, step: Step): State
    requires Enabled(s, step)
  {
    match step
    case Await(t) => s.(w := Waits.Joined(s.w, t))
    case Signal =>
      s.(w := Waits.Granted(s.w), effective := if Release(s.w.q).1.Some? then s.effective + 1 else s.effective)
    case Throw(k) =>
      var w1 := Waits.Thrown(s.w, k);
      if s.w.q.released < k then s.(w := w1)
      else s.(w := Waits.Granted(w1), lost := if Release(w1.q).1.None? then s.lost + 1 else s.lost)
    case Other(a) =>
      s.(w := Waits.Apply(s.w, a), returned := if Waits.Leaves(s.w, a) then s.returned + 1 else s.returned)
  }

  predicate Legal(s: State, steps: seq<Step>)
    decreases |steps|
  {
    steps == [] || (Enabled(s, steps[0]) && Legal(Apply(s, steps[0]), steps[1..]))
  }

  function After(s: State, steps: seq<Step>): State
    requires Legal(s, steps)
    decreases |steps|
  {
    if steps == [] then s else After(Apply(s, steps[0]), steps[1..])
  }

  ghost predicate Reachable(s: State) {
    exists homes: seq<Option<nat>>, steps: seq<Step> ::
      Legal(Initial(homes), steps) && s == After(Initial(homes), steps)
  }

  /** The waiters that were signalled and have neither returned nor thrown. */
  function Pending(w: Waits.Wait): set<nat> {
    set k | k in w.waiters && k <= w.q.released
  }

  ghost predicate Inv(s: State) {
    Waits.Inv(s.w) && s.effective == s.returned + |Pending(s.w)| + s.lost
  }

  lemma EarliestWaits(w: Waits.Wait)
    requires Waits.Inv(w)
    ensures Release(w.q).1.Some? <==> Live(w.q) != []
    ensures Live(w.q) != [] ==> Live(w.q)[0] in w.waiters && w.q.released < Live(w.q)[0] == Release(w.q).0.released
  {
    ReleaseGoesFirst(w.q);
  }

  /** A release reaches the earliest waiter and no other. */
  lemma GrantReaches(w: Waits.Wait, k: nat)
    requires Waits.Inv(w) && k in w.waiters
    ensures k <= Release(w.q).0.released <==> k <= w.q.released || (Live(w.q) != [] && k == Live(w.q)[0])
  {
    ReleaseGoesFirst(w.q);
    EarliestWaits(w);
    if w.q.released < k <= Release(w.q).0.released {
      Waits.GrantReachesWaiter(w, k);
      LiveEarliest(w.q, k);
    }
  }

  /** A release adds exactly the earliest waiter to the signalled ones, if anybody waits. */
  lemma GrantAddsEarliest(w: Waits.Wait)
    requires Waits.Inv(w)
    ensures var (q, task) := Release(w.q);
            (task.Some? <==> Live(w.q) != [])
            && (task.Some? ==> Live(w.q)[0] !in Pending(w) && Pending(Waits.Granted(w)) == Pending(w) + {Live(w.q)[0]})
            && (task.None? ==> Pending(Waits.Granted(w)) == Pending(w))
  {
    EarliestWaits(w);
    var added := if Live(w.q) == [] then {} else {Live(w.q)[0]};
    forall k: nat
      ensures k in Pending(Waits.Granted(w)) <==> k in Pending(w) + added
    {
      if k in w.waiters {
        GrantReaches(w, k);
      }
    }
    assert Pending(Waits.Granted(w)) == Pending(w) + added;
  }

  lemma PassivePending(w: Waits.Wait, a: Waits.Step)
    requires Waits.Inv(w) && Passive(a) && Waits.Enabled(w, a)
    ensures Pending(Waits.Apply(w, a)) == if Waits.Leaves(w, a) then Pending(w) - {a.ticket} else Pending(w)
    ensures Waits.Leaves(w, a) ==> a.ticket in Pending(w)
  {
  }

  lemma ThrownPending(w: Waits.Wait, k: nat)
    requires k in w.waiters
    ensures Pending(Waits.Thrown(w, k)) == Pending(w) - {k}
    ensures k in Pending(w) <==> k <= w.q.released
  {
  }

  lemma KeepsThrow(s: State, k: nat)
    requires Inv(s) && Enabled(s, Throw(k))
    ensures Inv(Apply(s, Throw(k)))
  {
    var w1 := Waits.Thrown(s.w, k);
    Waits.KeepsThrow(s.w, k);
    ThrownPending(s.w, k);
    if k <= s.w.q.released {
      Waits.KeepsGrant(w1);
      GrantAddsEarliest(w1);
    }
  }

  lemma KeepsAwait(s: State, t: nat)
    requires Inv(s) && Enabled(s, Await(t))
    ensures Inv(Apply(s, Await(t)))
  {
    Waits.KeepsJoin(s.w, t);
    assert Pending(Waits.Joined(s.w, t)) == Pending(s.w);
  }

  lemma KeepsSignal(s: State)
    requires Inv(s)
    ensures Inv(Apply(s, Signal))
  {
    Waits.KeepsGrant(s.w);
    GrantAddsEarliest(s.w);
  }

  lemma KeepsOther(s: State, a: Waits.Step)
    requires Inv(s) && Enabled(s, Other(a))
    ensures Inv(Apply(s, Other(a)))
  {
    Waits.Keeps(s.w, a);
    PassivePending(s.w, a);
  }

  lemma Keeps(s: State, step: Step)
    requires Inv(s) && Enabled(s, step)
    ensures Inv(Apply(s, step))
  {
    match step
    case Await(t) => KeepsAwait(s, t);
    case Signal => KeepsSignal(s);
    case Throw(k) => KeepsThrow(s, k);
    case Other(a) => KeepsOther(s, a);
  }

  lemma {:induction false} RunKeeps(s: State, steps: seq<Step>)
    requires Inv(s) && Legal(s, steps)
    ensures Inv(After(s, steps))
    decreases |steps|
  {
    if steps != [] {
      Keeps(s, steps[0]);
      RunKeeps(Apply(s, steps[0]), steps[1..]);
    }
  }

  lemma InitialInv(homes: seq<Option<nat>>)
    ensures Inv(Initial(homes))
  {
    assert Pending(Waits.Initial(homes)) == {};
  }

  lemma ReachableInv(s: State)
    requires Reachable(s)
    ensures Inv(s)
  {
    var homes: seq<Option<nat>>, steps: seq<Step> :| Legal(Initial(homes), steps) && s == After(Initial(homes), steps);
    InitialInv(homes);
    RunKeeps(Initial(homes), steps);
  }

  /** The machine's steps move the queue as the sections of the class do. */
  lemma StepsAreSections(s: State, step: Step)
    requires Inv(s) && Enabled(s, step)
    ensures var q := Apply(s, step).w.q;
            match step
            case Await(t) => q == Join(s.w.q, t)
            case Signal => q == Release(s.w.q).0
            case Throw(k) => q == Cancelling(s.w.q, k).0
            case Other(_) => q == s.w.q
  {
    if step.Throw? && s.w.q.released < step.ticket {
      Waits.CancelFindsOwnSlot(s.w, step.ticket);
    }
  }

  // ------------------------------------------------------------------ what every run keeps

  /**
   * No signal is eaten: every signal that found a waiter has ended a wait, is held by a waiter
   * about to return, or was forwarded by a throwing waiter when nobody else was waiting.
   */
  lemma SignalsConserved(s: State)
    requires Reachable(s)
    ensures s.effective == s.returned + |Pending(s.w)| + s.lost
  {
    ReachableInv(s);
  }

  /** A signal releases the earliest waiter and nobody else, and its resume is then in flight. */
  lemma SignalReleasesEarliest(s: State)
    requires Reachable(s) && Live(s.w.q) != []
    ensures var s' := Apply(s, Signal);
            s'.effective == s.effective + 1
            && Pending(s'.w) == Pending(s.w) + {Live(s.w.q)[0]} && Live(s.w.q)[0] !in Pending(s.w)
            && Live(s'.w.q) == Live(s.w.q)[1..]
            && s'.w.waiters[Live(s.w.q)[0]].task in s'.w.inflight
  {
    ReachableInv(s);
    GrantAddsEarliest(s.w);
    ReleaseGoesFirst(s.w.q);
    Waits.GrantReachesWaiter(s.w, Live(s.w.q)[0]);
  }

  /** A waiter that throws after being signalled hands the signal to the earliest remaining waiter. */
  lemma ThrowForwards(s: State, k: nat)
    requires Reachable(s) && Enabled(s, Throw(k))
    ensures var s' := Apply(s, Throw(k));
            (k > s.w.q.released ==> Live(s'.w.q) == Without(Live(s.w.q), k) && Pending(s'.w) == Pending(s.w))
            && (k <= s.w.q.released && Live(s.w.q) != [] ==>
                  Pending(s'.w) == Pending(s.w) - {k} + {Live(s.w.q)[0]} && s'.lost == s.lost)
            && (k <= s.w.q.released && Live(s.w.q) == [] ==>
                  Pending(s'.w) == Pending(s.w) - {k} && s'.lost == s.lost + 1)
  {
    ReachableInv(s);
    var w1 := Waits.Thrown(s.w, k);
    Waits.KeepsThrow(s.w, k);
    ThrownPending(s.w, k);
    if s.w.q.released < k {
      Waits.CancelFindsOwnSlot(s.w, k);
      CancelRemovesOnlyItself(s.w.q, k);
    } else {
      GrantAddsEarliest(w1);
    }
  }

  lemma NextGrows(s: State, step: Step)
    requires Enabled(s, step)
    ensures s.w.q.next <= Apply(s, step).w.q.next
  {
    ReleaseKeepsNext(s.w.q);
    if step.Throw? {
      ReleaseKeepsNext(Waits.Thrown(s.w, step.ticket).q);
    }
  }

  lemma {:induction false} RunNextGrows(s: State, steps: seq<Step>)
    requires Legal(s, steps)
    ensures s.w.q.next <= After(s, steps).w.q.next
    decreases |steps|
  {
    if steps != [] {
      NextGrows(s, steps[0]);
      RunNextGrows(Apply(s, steps[0]), steps[1..]);
    }
  }

  /**
   * signalAll, called in s, leaves its loop when it finds the queue empty, whatever happened while
   * the lock was dropped: every waiter present at the call has then been released, and so has
   * everybody who came in between.
   */
  lemma SignalAllReleasesAll(s: State, steps: seq<Step>)
    requires Reachable(s) && Legal(s, steps) && After(s, steps).w.q.slots == []
    ensures forall k :: k in s.w.waiters ==> k <= After(s, steps).w.q.released
    ensures Pending(After(s, steps).w) == After(s, steps).w.waiters.Keys
  {
    ReachableInv(s);
    RunKeeps(s, steps);
    RunNextGrows(s, steps);
    AllReleased(After(s, steps).w);
    assert forall k :: k in s.w.waiters ==> k < s.w.q.next;
  }

  lemma AllReleased(w: Waits.Wait)
    requires Waits.Inv(w) && w.q.slots == []
    ensures Pending(w) == w.waiters.Keys && w.q.released == w.q.next - 1
  {
    forall k | k in w.waiters.Keys
      ensures k in Pending(w)
    {
      assert k in w.waiters;
    }
  }

  lemma OwnSlot(s: State, ticket: nat)
    requires Reachable(s) && ticket in s.w.waiters && s.w.q.released < ticket
    ensures 0 <= ticket - s.w.q.released - 1 < |s.w.q.slots| == s.w.q.next - 1 - s.w.q.released
    ensures s.w.q.slots[ticket - s.w.q.released - 1] == Some(s.w.waiters[ticket].task)
  {
    ReachableInv(s);
    Waits.CancelFindsOwnSlot(s.w, ticket);
  }

  /** A waiter never sleeps through its signal. */
  lemma NoSleepThroughSignal(s: State, ticket: nat)
    requires Reachable(s) && Waits.WaiterIs(s.w, ticket, Waits.Sleeping) && Waits.Released(s.w, ticket)
    requires Tasks.Asleep(s.w.tasks[s.w.waiters[ticket].task])
    ensures s.w.waiters[ticket].task in s.w.inflight || Waits.Flooded(s.w.tasks[s.w.waiters[ticket].task])
  {
    ReachableInv(s);
    Waits.NoSleepThroughGrant(s.w, ticket);
  }

  /** A waiter that was signalled and looks returns from await(). */
  lemma SignalledWaitReturns(s: State, ticket: nat)
    requires Reachable(s) && ticket in s.w.waiters && Waits.Released(s.w, ticket)
    requires s.w.waiters[ticket].at.Testing? || s.w.waiters[ticket].at.Rechecking?
    ensures var step := Other(Waits.TestOf(s.w, ticket));
            Enabled(s, step) && ticket !in Apply(s, step).w.waiters && Apply(s, step).returned == s.returned + 1
            && Apply(s, step).lost == s.lost && Apply(s, step).effective == s.effective
  {
    ReachableInv(s);
    Waits.TestsLeaveExactlyWhen(s.w, ticket);
  }

  /** Whatever a waiter, its task or a resume can do next they can do on a condition, giving up included. */
  lemma NobodyIsHeldUp(s: State, step: Waits.Step)
    requires Waits.Enabled(s.w, step) && !step.Join? && !step.Grant?
    ensures if step.Throw? then Enabled(s, Throw(step.ticket)) && step.ticket !in Apply(s, Throw(step.ticket)).w.waiters
            else Enabled(s, Other(step)) && Apply(s, Other(step)).w == Waits.Apply(s.w, step)
  {
  }

  /** Any code can await, behind everybody else, and anybody can signal. */
  lemma CallsTakeEffect(s: State, t: nat)
    requires Reachable(s) && t < |s.w.tasks| && Tasks.Executing(s.w.tasks[t]) && Waits.Free(s.w, t)
    ensures Enabled(s, Signal) && Enabled(s, Await(t))
    ensures var s' := Apply(s, Await(t));
            s'.w.waiters == s.w.waiters[s.w.q.next := Waits.Waiter(t, Waits.Testing)]
            && Live(s'.w.q) == Live(s.w.q) + [s.w.q.next] && s'.returned == s.returned
  {
    ReachableInv(s);
    Waits.AnybodyCanWait(s.w, t);
  }
}
