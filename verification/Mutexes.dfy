/**
 * Mutex.  The class carries out each critical section under the spinlock; the state machine runs
 * those sections, and the waiting loops between them, in every interleaving of any number of
 * tasks.
 */
module Mutexes {
  import opened Options
  import opened TicketQueue
  import opened FifoLock
  import LazyDeques
  import Tasks
  import Waits

  datatype Core = Core(locked: bool, q: Tickets)

  /** The first section of lock(): take the free mutex, or append to the queue and take a ticket. */
  function Locking(c: Core, task: nat): (Core, Option<nat>) {
    if !c.locked then (c.(locked := true), None) else (c.(q := Join(c.q, task)), Some(c.q.next))
  }

  /** unlock(): hand the mutex to the earliest waiter, or free it; the task to resume. */
  function Unlocking(c: Core): (Core, Option<nat>) {
    var (q, task) := Release(c.q);
    (Core(c.locked && task.Some?, q), task)
  }

  /** The catch block of lock(): null the own slot, or pass on a mutex already handed over. */
  function Cancelling(c: Core, ticket: nat): (Core, Option<nat>) {
    if c.q.released < ticket then
      (if ticket <= c.q.released + |c.q.slots| then c.(q := Cancel(c.q, ticket)) else c, None)
    else Unlocking(c)
  }

  class Mutex {
    var locked: bool
    var released: nat
    var nextTicket: nat
    const queue: LazyDeques.LazyDeque<Option<nat>>

    ghost function View(): Core
      reads this, queue
    {
      Core(locked, Tickets(released, nextTicket, queue.Items()))
    }

    constructor (locked: bool)
      ensures View() == Core(locked, Empty()) && fresh(queue)
    {
      this.locked := locked;
      released := 0;
      nextTicket := 1;
      queue := new LazyDeques.LazyDeque<Option<nat>>();
    }

    method LockSection(task: nat) returns (ticket: Option<nat>)
      modifies this, queue
      ensures (View(), ticket) == Locking(old(View()), task)
    {
      if !locked {
        locked := true;
        return None;
      }
      queue.PushBack(Some(task));
      ticket := Some(nextTicket);
      nextTicket := nextTicket + 1;
    }

    method TryLock() returns (taken: bool)
      modifies this
      ensures taken == !old(View().locked)
      ensures View() == old(View()).(locked := true)
    {
      if !locked {
        locked := true;
        taken := true;
      } else {
        taken := false;
      }
    }

    method Unlock() returns (woken: Option<nat>)
      modifies this, queue
      ensures (View(), woken) == Unlocking(old(View()))
    {
      var empty := queue.IsEmpty();
      while !empty
        invariant empty <==> queue.Items() == []
        invariant locked == old(locked)
        invariant Release(View().q) == Release(old(View().q))
        decreases |queue.Items()|
      {
        var task := queue.Front();
        queue.PopFront();
        released := released + 1;
        if task.Some? {
          return task;
        }
        empty := queue.IsEmpty();
      }
      locked := false;
      woken := None;
    }

    method CancelSection(ticket: nat) returns (woken: Option<nat>)
      requires Aligned(View().q) && 0 < ticket < nextTicket
      modifies this, queue
      ensures (View(), woken) == Cancelling(old(View()), ticket)
    {
      if released < ticket {
        var queueIndex := ticket - released - 1;
        queue.Set(queueIndex, None);
        woken := None;
      } else {
        woken := Unlock();
      }
    }
  }

  // ------------------------------------------------------------------ the machine

  /**
   * direct numbers the acquisitions that found the mutex free; inside holds the callers that
   * returned from lock() or try_lock() and have not unlocked; owner is the caller the mutex was
   * last given to; served lists the tickets granted, in order, and gaveUp those cancelled.
   */
  datatype State = State(
    w: Waits.Wait, locked: bool, direct: nat, inside: multiset<Caller>, owner: Option<Caller>,
    served: seq<nat>, gaveUp: set<nat>)

  datatype Step =
    | Lock(task: nat)
    | TryLock(task: nat)
    | Unlock(caller: Caller)
    | Throw(ticket: nat)
    | Other(step: Waits.Step)

  function CoreOf(s: State): Core { Core(s.locked, s.w.q) }

  /** A new mutex, possibly created locked, among new tasks. */
  function Initial(homes: seq<Option<nat>>, locked: bool): State {
    if locked then State(Waits.Initial(homes), true, 1, multiset{Direct(0)}, Some(Direct(0)), [], {})
    else State(Waits.Initial(homes), false, 0, multiset{}, None, [], {})
  }

  /** Steps of the waiting loop and of the tasks that do not touch the mutex. */
  predicate Passive(step: Waits.Step) {
    step.Test? || step.Processed? || step.Recheck? || step.Deliver? || step.Act?
  }

  predicate Enabled(s: State, step: Step) {
    match step
    case Lock(t) => Waits.Enabled(s.w, Waits.Join(t))
    case TryLock(t) => Waits.Enabled(s.w, Waits.Join(t))
    case Unlock(c) => c in s.inside
    case Throw(k) => Waits.Enabled(s.w, Waits.Throw(k))
    case Other(step) => Passive(step) && Waits.Enabled(s.w, step)
  }

  function Taken(s: State, t: nat): State
    requires Waits.Enabled(s.w, Waits.Join(t))
  {
    var c := Direct(s.direct);
    s.(w := Waits.Acting(s.w, t, Tasks.Work), locked := true, direct := s.direct + 1,
    inside := s.inside + multiset{c}, owner := Some(c))
  }

  /** unlock() in the machine: the core moves as Unlocking says, with the resume left in flight. */
  function HandOver(s: State): State {
    var (c, task) := Unlocking(CoreOf(s));
    s.(w := Waits.Granted(s.w), locked := c.locked,
    owner := if task.Some? then Some(Queued(c.q.released)) else None,
    served := if task.Some? then s.served + [c.q.released] else s.served)
  }

  function Apply(s: State, step: Step): State
    requires Enabled(s, step)
  {
    match step
    case Lock(t) => if !s.locked then Taken(s, t) else s.(w := Waits.Joined(s.w, t))
    case TryLock(t) => if !s.locked then Taken(s, t) else s.(w := Waits.Acting(s.w, t, Tasks.Work))
    case Unlock(c) => HandOver(s.(inside := s.inside - multiset{c}))
    case Throw(k) =>
      var s1 := s.(w := Waits.Thrown(s.w, k));
      if s.w.q.released < k then s1.(gaveUp := s.gaveUp + {k}) else HandOver(s1)
    case Other(a) =>
      s.(w := Waits.Apply(s.w, a),
      inside := if Waits.Leaves(s.w, a) then s.inside + multiset{Queued(a.ticket)} else s.inside)
  }

  predicate Legal(s: State, steps: seq<Step>)
    decreases |steps|
  {
    steps == [] || (Enabled(s, steps[0]) && Legal(Apply(s, steps[0]), steps[1..]))
  }

  function After(s: State, steps: seq<Step>): State
    requires Legal(s, steps)
    decreases |steps|
  {
    if steps == [] then s else After(Apply(s, steps[0]), steps[1..])
  }

  ghost predicate Reachable(s: State) {
    exists homes: seq<Option<nat>>, locked: bool, steps: seq<Step> ::
      Legal(Initial(homes, locked), steps) && s == After(Initial(homes, locked), steps)
  }

  // ------------------------------------------------------------------ the invariant

  /** The owner was handed the mutex and has not noticed yet. */
  predicate Pending(s: State) {
    s.owner.Some? && s.owner.value.Queued? && s.owner.value.ticket in s.w.waiters
  }

  ghost predicate OwnerOk(s: State) {
    && (s.locked <==> s.owner.Some?)
    && (!s.locked ==> s.w.q.slots == [])
    && (forall k :: k in s.w.waiters ==> (k <= s.w.q.released <==> s.owner == Some(Queued(k))))
    && s.inside == (if s.owner.None? || Pending(s) then multiset{} else multiset{s.owner.value})
  }

  ghost predicate IdsOk(s: State) {
    && (s.owner.Some? && s.owner.value.Direct? ==> s.owner.value.n < s.direct)
    && (s.owner.Some? && s.owner.value.Queued? ==> s.owner.value.ticket <= s.w.q.released)
  }

  ghost predicate HistoryOk(s: State) {
    && (forall i, j :: 0 <= i < j < |s.served| ==> s.served[i] < s.served[j])
    && (forall k :: k in s.served ==> 0 < k <= s.w.q.released && k !in s.gaveUp)
    && (forall k :: k in s.gaveUp ==> 0 < k < s.w.q.next && k !in s.w.waiters)
    && (forall k :: 0 < k <= s.w.q.released ==> k in s.served || k in s.gaveUp)
    && (forall k :: s.w.q.released < k < s.w.q.next ==> k in s.w.waiters || k in s.gaveUp)
  }

  ghost predicate Inv(s: State) {
    Waits.Inv(s.w) && OwnerOk(s) && IdsOk(s) && HistoryOk(s)
  }

  // ------------------------------------------------------------------ preservation

  lemma PassiveFrame(w: Waits.Wait, a: Waits.Step)
    requires Waits.Inv(w) && Passive(a) && Waits.Enabled(w, a)
    ensures Waits.Apply(w, a).q == w.q
    ensures Waits.Apply(w, a).waiters.Keys == if Waits.Leaves(w, a) then w.waiters.Keys - {a.ticket} else w.waiters.Keys
  {
  }

  /** The waiting loop moves, and nobody leaves it. */
  lemma KeepsStay(s: State, w: Waits.Wait)
    requires Inv(s) && Waits.Inv(w) && w.q == s.w.q && w.waiters.Keys == s.w.waiters.Keys
    ensures Inv(s.(w := w))
  {
    assert forall k :: k in w.waiters <==> k in w.waiters.Keys;
    assert forall k :: k in s.w.waiters <==> k in s.w.waiters.Keys;
  }

  /** The waiter that was handed the mutex notices, and returns from lock(). */
  lemma KeepsReturn(s: State, k: nat)
    requires Inv(s) && k in s.w.waiters && k <= s.w.q.released
    ensures Inv(s.(w := Waits.Gone(s.w, k), inside := s.inside + multiset{Queued(k)}))
  {
    Waits.KeepsLeave(s.w, k);
  }

  lemma KeepsOther(s: State, a: Waits.Step)
    requires Inv(s) && Enabled(s, Other(a))
    ensures Inv(Apply(s, Other(a)))
  {
    if Waits.Leaves(s.w, a) {
      KeepsReturn(s, a.ticket);
    } else {
      Waits.Keeps(s.w, a);
      PassiveFrame(s.w, a);
      KeepsStay(s, Waits.Apply(s.w, a));
    }
  }

  lemma KeepsTaken(s: State, t: nat)
    requires Inv(s) && Waits.Enabled(s.w, Waits.Join(t)) && !s.locked
    ensures Inv(Taken(s, t))
  {
    Waits.KeepsAct(s.w, t, Tasks.Work);
  }

  lemma KeepsJoined(s: State, t: nat)
    requires Inv(s) && Waits.Enabled(s.w, Waits.Join(t)) && s.locked
    ensures Inv(s.(w := Waits.Joined(s.w, t)))
  {
    Waits.KeepsJoin(s.w, t);
  }

  /** The owner has left and nobody has been given the mutex yet. */
  ghost predicate Vacated(s: State) {
    Waits.Inv(s.w) && HistoryOk(s) && s.locked && s.inside == multiset{}
    && (forall k :: k in s.w.waiters ==> k > s.w.q.released)
  }

  /** The tickets a hand-over skips belong to waiters that gave up. */
  lemma SkippedGaveUp(s: State, k: nat)
    requires Vacated(s)
    requires var (q, task) := Release(s.w.q); s.w.q.released < k <= q.released && (k == q.released ==> task.None?)
    ensures k in s.gaveUp
  {
    ReleaseGoesFirst(s.w.q);
    if k in s.w.waiters {
      Waits.GrantReachesWaiter(s.w, k);
      LiveEarliest(s.w.q, k);
    }
  }

  lemma HandOverServed(s: State)
    requires Vacated(s)
    ensures var served := HandOver(s).served;
            (forall i, j :: 0 <= i < j < |served| ==> served[i] < served[j])
            && (forall k :: k in served ==> 0 < k <= HandOver(s).w.q.released && k !in s.gaveUp)
  {
    GrantedWaits(s.w);
    assert forall i :: 0 <= i < |s.served| ==> s.served[i] in s.served;
  }

  lemma HandOverHistory(s: State)
    requires Vacated(s)
    ensures HistoryOk(HandOver(s))
  {
    var s' := HandOver(s);
    var (q, task) := Release(s.w.q);
    ReleaseGoesFirst(s.w.q);
    HandOverServed(s);
    assert s.served <= s'.served;
    forall k | 0 < k <= q.released
      ensures k in s'.gaveUp || k in s'.served
    {
      if s.w.q.released < k && (k < q.released || task.None?) {
        SkippedGaveUp(s, k);
      }
    }
  }

  /** The new owner is a waiter. */
  lemma GrantedWaits(w: Waits.Wait)
    requires Waits.Inv(w)
    ensures Release(w.q).1.Some? ==> Release(w.q).0.released in w.waiters && w.q.released < Release(w.q).0.released
    ensures Release(w.q).1.None? ==> Release(w.q).0.slots == []
    ensures w.q.released <= Release(w.q).0.released < w.q.next == Release(w.q).0.next
  {
    ReleaseGoesFirst(w.q);
  }

  /** A waiter that had not been released is so by a hand-over exactly if it is the new owner. */
  lemma GrantedExactlyWhen(w: Waits.Wait, k: nat)
    requires Waits.Inv(w) && k in w.waiters && w.q.released < k
    ensures k <= Release(w.q).0.released <==> Release(w.q).1.Some? && k == Release(w.q).0.released
  {
    ReleaseGoesFirst(w.q);
    if k <= Release(w.q).0.released {
      Waits.GrantReachesWaiter(w, k);
      LiveEarliest(w.q, k);
    }
  }

  lemma HandOverOwner(s: State)
    requires Vacated(s)
    ensures OwnerOk(HandOver(s)) && IdsOk(HandOver(s))
  {
    GrantedWaits(s.w);
    forall k | k in s.w.waiters
      ensures k <= HandOver(s).w.q.released <==> HandOver(s).owner == Some(Queued(k))
    {
      GrantedExactlyWhen(s.w, k);
    }
  }

  lemma KeepsHandOver(s: State)
    requires Vacated(s)
    ensures Inv(HandOver(s))
  {
    Waits.KeepsGrant(s.w);
    HandOverHistory(s);
    HandOverOwner(s);
  }

  lemma UnlockVacates(s: State, c: Caller)
    requires Inv(s) && c in s.inside
    ensures Vacated(s.(inside := s.inside - multiset{c})) && s.owner == Some(c) && !Pending(s)
  {
  }

  lemma ThrowVacates(s: State, k: nat)
    requires Inv(s) && Enabled(s, Step.Throw(k)) && k <= s.w.q.released
    ensures Vacated(s.(w := Waits.Thrown(s.w, k))) && s.owner == Some(Queued(k))
  {
    Waits.KeepsThrow(s.w, k);
  }

  lemma CancelKeepsOwner(s: State, k: nat)
    requires OwnerOk(s) && IdsOk(s) && s.w.q.released < k && k in s.w.waiters
    ensures OwnerOk(s.(w := Waits.Thrown(s.w, k))) && IdsOk(s.(w := Waits.Thrown(s.w, k)))
  {
  }

  lemma CancelKeepsHistory(s: State, k: nat)
    requires HistoryOk(s) && s.w.q.released < k < s.w.q.next && k in s.w.waiters
    ensures HistoryOk(s.(w := Waits.Thrown(s.w, k), gaveUp := s.gaveUp + {k}))
  {
  }

  lemma KeepsCancel(s: State, k: nat)
    requires Inv(s) && Enabled(s, Step.Throw(k)) && s.w.q.released < k
    ensures Inv(Apply(s, Step.Throw(k)))
  {
    Waits.KeepsThrow(s.w, k);
    CancelKeepsOwner(s, k);
    CancelKeepsHistory(s, k);
  }

  lemma Keeps(s: State, step: Step)
    requires Inv(s) && Enabled(s, step)
    ensures Inv(Apply(s, step))
  {
    match step
    case Lock(t) =>
      if s.locked {
        KeepsJoined(s, t);
      } else {
        KeepsTaken(s, t);
      }
    case TryLock(t) =>
      if s.locked {
        Waits.KeepsAct(s.w, t, Tasks.Work);
      } else {
        KeepsTaken(s, t);
      }
    case Unlock(c) =>
      UnlockVacates(s, c);
      KeepsHandOver(s.(inside := s.inside - multiset{c}));
    case Throw(k) =>
      if s.w.q.released < k {
        KeepsCancel(s, k);
      } else {
        ThrowVacates(s, k);
        KeepsHandOver(s.(w := Waits.Thrown(s.w, k)));
      }
    case Other(a) => KeepsOther(s, a);
  }

  lemma {:induction false} RunKeeps(s: State, steps: seq<Step>)
    requires Inv(s) && Legal(s, steps)
    ensures Inv(After(s, steps))
    decreases |steps|
  {
    if steps != [] {
      Keeps(s, steps[0]);
      RunKeeps(Apply(s, steps[0]), steps[1..]);
    }
  }

  lemma InitialInv(homes: seq<Option<nat>>, locked: bool)
    ensures Inv(Initial(homes, locked))
  {
    Waits.InitialInv(homes);
  }

  lemma ReachableInv(s: State)
    requires Reachable(s)
    ensures Inv(s)
  {
    var homes: seq<Option<nat>>, locked: bool, steps: seq<Step> :|
      Legal(Initial(homes, locked), steps) && s == After(Initial(homes, locked), steps);
    InitialInv(homes, locked);
    RunKeeps(Initial(homes, locked), steps);
  }

  /** The machine's steps move the mutex as the sections of the class do, and resume the same task. */
  lemma StepsAreSections(s: State, step: Step)
    requires Inv(s) && Enabled(s, step)
    ensures var c := CoreOf(Apply(s, step));
            match step
            case Lock(t) => c == Locking(CoreOf(s), t).0
            case TryLock(_) => c == CoreOf(s).(locked := true)
            case Unlock(_) => c == Unlocking(CoreOf(s)).0
            case Throw(k) => c == Cancelling(CoreOf(s), k).0
            case Other(_) => c == CoreOf(s)
    ensures step.Unlock? ==>
              Apply(s, step).w.inflight
              == s.w.inflight
                 + (var task := Unlocking(CoreOf(s)).1; if task.Some? then multiset{task.value} else multiset{})
  {
    match step
    case Throw(k) => ThrowIsSection(s, k);
    case Other(a) => PassiveFrame(s.w, a);
    case _ =>
  }

  lemma ThrowIsSection(s: State, k: nat)
    requires Inv(s) && Enabled(s, Step.Throw(k))
    ensures CoreOf(Apply(s, Step.Throw(k))) == Cancelling(CoreOf(s), k).0
  {
    if s.w.q.released < k {
      Waits.CancelFindsOwnSlot(s.w, k);
    }
  }

  // ------------------------------------------------------------------ what every run keeps

  /** At most one caller is between its lock() and its unlock(), and then nobody else has been given the mutex. */
  lemma MutualExclusion(s: State)
    requires Reachable(s)
    ensures |s.inside| <= 1
    ensures s.inside != multiset{} ==> s.locked && forall k :: k in s.w.waiters ==> k > s.w.q.released
    ensures forall k, l :: k in s.w.waiters && l in s.w.waiters && k <= s.w.q.released && l <= s.w.q.released ==> k == l
  {
    ReachableInv(s);
  }

  /** Nobody overtakes: the mutex is never free while somebody is queued. */
  lemma NoOvertaking(s: State)
    requires Reachable(s) && !s.locked
    ensures s.w.q.slots == [] && s.w.waiters == map[] && s.inside == multiset{}
  {
    ReachableInv(s);
    if k :| k in s.w.waiters {
      assert false;
    }
  }

  /** Grants go in ticket order, and skip exactly the tickets whose waiters gave up. */
  lemma GrantsInOrder(s: State)
    requires Reachable(s)
    ensures forall i, j :: 0 <= i < j < |s.served| ==> s.served[i] < s.served[j]
    ensures forall k :: 0 < k <= s.w.q.released ==> (k in s.served <==> k !in s.gaveUp)
    ensures forall i :: 0 <= i < |s.served| ==> s.served[i] <= s.w.q.released
    ensures forall k :: s.w.q.released < k < s.w.q.next ==> (k in s.w.waiters <==> k !in s.gaveUp)
  {
    ReachableInv(s);
    assert forall i :: 0 <= i < |s.served| ==> s.served[i] in s.served;
  }

  /** The slot a canceller writes is in bounds and its own, in every run. */
  lemma ReachableWaits(s: State)
    requires Reachable(s)
    ensures Waits.Inv(s.w)
  {
    ReachableInv(s);
  }

  lemma ReachableSlots(s: State)
    requires Reachable(s)
    ensures Waits.SlotsOk(s.w)
  {
    ReachableWaits(s);
  }

  lemma OwnSlot(s: State, ticket: nat)
    requires Reachable(s) && ticket in s.w.waiters && s.w.q.released < ticket
    ensures 0 <= ticket - s.w.q.released - 1 < |s.w.q.slots| == s.w.q.next - 1 - s.w.q.released
    ensures s.w.q.slots[ticket - s.w.q.released - 1] == Some(s.w.waiters[ticket].task)
    ensures Waiting(s.w.q, ticket)
  {
    ReachableSlots(s);
    Waits.CancelFindsOwnSlot(s.w, ticket);
  }

  /** A waiter never sleeps through the hand-over of the mutex. */
  lemma NoSleepThroughGrant(s: State, ticket: nat)
    requires Reachable(s) && Waits.WaiterIs(s.w, ticket, Waits.Sleeping) && Waits.Released(s.w, ticket)
    requires Tasks.Asleep(s.w.tasks[s.w.waiters[ticket].task])
    ensures s.w.waiters[ticket].task in s.w.inflight || Waits.Flooded(s.w.tasks[s.w.waiters[ticket].task])
  {
    ReachableWaits(s);
    Waits.NoSleepThroughGrant(s.w, ticket);
  }

  /** A waiter that was given the mutex and looks returns from lock(). */
  lemma GrantedLockReturns(s: State, ticket: nat)
    requires Reachable(s) && ticket in s.w.waiters && Waits.Released(s.w, ticket)
    requires s.w.waiters[ticket].at.Testing? || s.w.waiters[ticket].at.Rechecking?
    ensures var step := Other(Waits.TestOf(s.w, ticket));
            Enabled(s, step) && ticket !in Apply(s, step).w.waiters && Apply(s, step).locked
            && Apply(s, step).inside == multiset{Queued(ticket)}
  {
    ReachableInv(s);
    Waits.TestsLeaveExactlyWhen(s.w, ticket);
    assert s.owner == Some(Queued(ticket)) && s.inside == multiset{};
  }

  /** Whatever a waiter, its task or a resume can do next they can do on a mutex, giving up included. */
  lemma NobodyIsHeldUp(s: State, step: Waits.Step)
    requires Waits.Enabled(s.w, step) && !step.Join? && !step.Grant?
    ensures if step.Throw? then
              Enabled(s, Step.Throw(step.ticket)) && step.ticket !in Apply(s, Step.Throw(step.ticket)).w.waiters
            else Enabled(s, Other(step)) && Apply(s, Other(step)).w == Waits.Apply(s.w, step)
                 && Apply(s, Other(step)).locked == s.locked
  {
  }

  /**
   * Any code can call lock() and try_lock(): a free mutex is taken at once, for a locked one
   * lock() goes to the end of the line and try_lock() does nothing; and whoever is inside can unlock.
   */
  lemma CallsTakeEffect(s: State, t: nat)
    requires Reachable(s) && t < |s.w.tasks| && Tasks.Executing(s.w.tasks[t]) && Waits.Free(s.w, t)
    ensures Enabled(s, Step.Lock(t)) && Enabled(s, TryLock(t))
    ensures var l, y := Apply(s, Step.Lock(t)), Apply(s, TryLock(t));
            if !s.locked then
              l == y && l.locked && l.inside == multiset{Direct(s.direct)}
              && l.w.q == s.w.q && l.w.waiters == s.w.waiters
            else
              l.inside == y.inside == s.inside && y.w.q == s.w.q && y.w.waiters == s.w.waiters
              && l.w.waiters == s.w.waiters[s.w.q.next := Waits.Waiter(t, Waits.Testing)]
              && Live(l.w.q) == Live(s.w.q) + [s.w.q.next]
    ensures forall c :: c in s.inside ==> Enabled(s, Step.Unlock(c))
  {
    ReachableWaits(s);
    Waits.AnybodyCanWait(s.w, t);
    if !s.locked {
      NoOvertaking(s);
    }
  }

  // ------------------------------------------------------------------ refinement

  function Callers(tickets: seq<nat>): seq<Caller> {
    if tickets == [] then [] else [Queued(tickets[0])] + Callers(tickets[1..])
  }

  /** The abstract lock a state stands for. */
  function Abstract(s: State): FifoLock.Lock {
    FifoLock.Lock(s.owner, Callers(Live(s.w.q)))
  }

  /** The abstract operation a step performs, if any. */
  function Operation(s: State, step: Step): Option<Op> {
    match step
    case Lock(_) => Some(Acquire(if s.locked then Queued(s.w.q.next) else Direct(s.direct)))
    case TryLock(_) => if s.locked then None else Some(Acquire(Direct(s.direct)))
    case Unlock(c) => Some(FifoLock.Unlock(c))
    case Throw(k) => Some(FifoLock.Throw(Queued(k)))
    case Other(_) => None
  }

  lemma {:induction false} CallersAppend(a: seq<nat>, k: nat)
    ensures Callers(a + [k]) == Callers(a) + [Queued(k)]
  {
    if a == [] {
      assert a + [k] == [k];
    } else {
      assert (a + [k])[1..] == a[1..] + [k];
      CallersAppend(a[1..], k);
    }
  }

  lemma {:induction false} CallersWithout(a: seq<nat>, k: nat)
    ensures Callers(Without(a, k)) == Without(Callers(a), Queued(k))
  {
    if a != [] {
      CallersWithout(a[1..], k);
      if a[0] != k {
        assert Without(a, k)[1..] == Without(a[1..], k);
      } else {
        assert [] + Without(a[1..], k) == Without(a[1..], k);
        assert [] + Without(Callers(a[1..]), Queued(k)) == Without(Callers(a[1..]), Queued(k));
      }
      assert Callers(a)[1..] == Callers(a[1..]);
    }
  }

  lemma {:induction false} CallersMembers(a: seq<nat>, c: Caller)
    ensures c in Callers(a) <==> c.Queued? && c.ticket in a
  {
    if a != [] {
      CallersMembers(a[1..], c);
    }
  }

  lemma HandOverPasses(s: State)
    requires Vacated(s)
    ensures Abstract(HandOver(s)) == Pass(Abstract(s))
  {
    ReleaseGoesFirst(s.w.q);
    assert Live(s.w.q) != [] ==> Callers(Live(s.w.q))[1..] == Callers(Live(s.w.q)[1..]);
  }

  lemma WaiterInLine(s: State, k: nat)
    requires Waits.Inv(s.w) && OwnerOk(s) && k in s.w.waiters
    ensures k > s.w.q.released ==> Waiting(s.w.q, k) && Queued(k) in Callers(Live(s.w.q)) && s.owner != Some(Queued(k))
  {
    if k > s.w.q.released {
      Waits.CancelFindsOwnSlot(s.w, k);
      LiveMembers(s.w.q, k);
      CallersMembers(Live(s.w.q), Queued(k));
    }
  }

  lemma NewcomerIsNew(s: State, c: Caller)
    requires Inv(s) && (c == Direct(s.direct) || c == Queued(s.w.q.next))
    ensures !Present(Abstract(s), c)
  {
    CallersMembers(Live(s.w.q), c);
    if c.Queued? {
      LiveMembers(s.w.q, c.ticket);
    }
  }

  /** Every step of the mutex is the abstract lock's operation of that name, or none at all. */
  lemma Refines(s: State, step: Step)
    requires Inv(s) && Enabled(s, step)
    ensures var op := Operation(s, step);
            if op.Some? then Allowed(Abstract(s), op.value) && Abstract(Apply(s, step)) == Do(Abstract(s), op.value)
            else Abstract(Apply(s, step)) == Abstract(s)
  {
    match step
    case Lock(t) =>
      NewcomerIsNew(s, Operation(s, step).value.caller);
      if s.locked {
        JoinGoesLast(s.w.q, t);
        CallersAppend(Live(s.w.q), s.w.q.next);
      }
    case TryLock(t) =>
      if !s.locked {
        NewcomerIsNew(s, Direct(s.direct));
      }
    case Unlock(c) =>
      UnlockVacates(s, c);
      HandOverPasses(s.(inside := s.inside - multiset{c}));
    case Throw(k) => ThrowRefines(s, k);
    case Other(a) => PassiveFrame(s.w, a);
  }

  lemma ThrowRefines(s: State, k: nat)
    requires Inv(s) && Enabled(s, Step.Throw(k))
    ensures Present(Abstract(s), Queued(k))
    ensures Abstract(Apply(s, Step.Throw(k))) == Do(Abstract(s), FifoLock.Throw(Queued(k)))
  {
    if s.w.q.released < k {
      CancelRefines(s, k);
    } else {
      ThrowVacates(s, k);
      HandOverPasses(s.(w := Waits.Thrown(s.w, k)));
    }
  }

  lemma CancelRefines(s: State, k: nat)
    requires Waits.Inv(s.w) && OwnerOk(s) && k in s.w.waiters && s.w.q.released < k
    ensures Present(Abstract(s), Queued(k))
    ensures Abstract(s.(w := Waits.Thrown(s.w, k))) == Do(Abstract(s), FifoLock.Throw(Queued(k)))
  {
    WaiterInLine(s, k);
    CancelRemovesOnlyItself(s.w.q, k);
    CallersWithout(Live(s.w.q), k);
  }

  function OperationOf(s: State, step: Step): seq<Op> {
    if Operation(s, step).Some? then [Operation(s, step).value] else []
  }

  /** The abstract operations a run performs. */
  function Operations(s: State, steps: seq<Step>): seq<Op>
    requires Legal(s, steps)
    decreases |steps|
  {
    if steps == [] then []
    else OperationOf(s, steps[0]) + Operations(Apply(s, steps[0]), steps[1..])
  }

  /** A run of the mutex is a run of the first-come-first-served lock. */
  lemma {:induction false} RunRefines(s: State, steps: seq<Step>)
    requires Inv(s) && Legal(s, steps)
    ensures FifoLock.Legal(Abstract(s), Operations(s, steps))
    ensures FifoLock.Run(Abstract(s), Operations(s, steps)) == Abstract(After(s, steps))
    decreases |steps|
  {
    if steps != [] {
      Refines(s, steps[0]);
      Keeps(s, steps[0]);
      RunRefines(Apply(s, steps[0]), steps[1..]);
      FifoLock.RunFrom(Abstract(s), Operation(s, steps[0]), Operations(Apply(s, steps[0]), steps[1..]));
    }
  }

  // ------------------------------------------------------------------ a lock() that throws

  lemma AbstractWellFormed(s: State)
    requires Inv(s)
    ensures FifoLock.WellFormed(Abstract(s))
  {
    LiveSorted(s.w.q);
    CallersDistinct(Live(s.w.q));
    if s.owner.Some? {
      CallersMembers(Live(s.w.q), s.owner.value);
      if s.owner.value.Queued? {
        LiveMembers(s.w.q, s.owner.value.ticket);
      }
    }
  }

  lemma {:induction false} CallersDistinct(a: seq<nat>)
    requires forall i, j :: 0 <= i < j < |a| ==> a[i] < a[j]
    ensures FifoLock.Distinct(Callers(a))
  {
    if a != [] {
      CallersDistinct(a[1..]);
      CallersMembers(a[1..], Queued(a[0]));
      assert forall i :: 1 <= i < |Callers(a)| ==> Callers(a)[i] in Callers(a[1..]);
    }
  }

  /** A ticket taken earlier whose waiter is still there after a step was there before it. */
  lemma WaitedBefore(s: State, step: Step, k: nat)
    requires Waits.Inv(s.w) && Enabled(s, step) && k < s.w.q.next && k in Apply(s, step).w.waiters
    ensures k in s.w.waiters && (step.Throw? ==> step.ticket != k)
  {
    if step.Other? {
      PassiveFrame(s.w, step.step);
      assert k in Apply(s, step).w.waiters.Keys;
    }
  }

  /** Who waits does not unlock. */
  lemma UnlockerDoesNotWait(s: State, c: Caller, k: nat)
    requires OwnerOk(s) && c in s.inside && k in s.w.waiters
    ensures c != Queued(k)
  {
  }

  /** A waiter performs no operation but to give up. */
  lemma WaiterIsIdle(s: State, step: Step, k: nat)
    requires OwnerOk(s) && Enabled(s, step) && k in s.w.waiters && k < s.w.q.next && (step.Throw? ==> step.ticket != k)
    ensures Operation(s, step).Some? ==> Operation(s, step).value.caller != Queued(k)
  {
    if step.Unlock? {
      UnlockerDoesNotWait(s, step.caller, k);
    }
  }

  lemma NoneByConcat(a: seq<Op>, b: seq<Op>, c: Caller)
    requires FifoLock.NoneBy(a, c) && FifoLock.NoneBy(b, c)
    ensures FifoLock.NoneBy(a + b, c)
  {
  }

  lemma {:induction false} WaitedThroughout(s: State, steps: seq<Step>, k: nat)
    requires Inv(s) && Legal(s, steps) && k < s.w.q.next && k in After(s, steps).w.waiters
    ensures k in s.w.waiters && FifoLock.NoneBy(Operations(s, steps), Queued(k))
    decreases |steps|
  {
    if steps != [] {
      Keeps(s, steps[0]);
      NextGrows(s, steps[0]);
      WaitedThroughout(Apply(s, steps[0]), steps[1..], k);
      WaitedOneStep(s, steps[0], k);
      NoneByConcat(OperationOf(s, steps[0]), Operations(Apply(s, steps[0]), steps[1..]), Queued(k));
    }
  }

  lemma WaitedOneStep(s: State, step: Step, k: nat)
    requires Inv(s) && Enabled(s, step) && k < s.w.q.next && k in Apply(s, step).w.waiters
    ensures k in s.w.waiters && FifoLock.NoneBy(OperationOf(s, step), Queued(k))
  {
    WaitedBefore(s, step, k);
    WaiterIsIdle(s, step, k);
  }

  lemma NextGrows(s: State, step: Step)
    requires Enabled(s, step)
    ensures s.w.q.next <= Apply(s, step).w.q.next
  {
    ReleaseKeepsNext(s.w.q);
    if step.Throw? {
      ReleaseKeepsNext(Waits.Thrown(s.w, step.ticket).q);
    }
  }

  /**
   * A contended lock() that throws, with anything the other tasks do between its first section
   * and its catch block, leaves the lock as the others alone would have left it.
   */
  lemma ThrownLockHasNoEffect(s: State, t: nat, steps: seq<Step>)
    requires Reachable(s) && s.locked && Enabled(s, Step.Lock(t))
    requires Legal(Apply(s, Step.Lock(t)), steps)
    requires Enabled(After(Apply(s, Step.Lock(t)), steps), Step.Throw(s.w.q.next))
    ensures var s1 := Apply(s, Step.Lock(t));
            FifoLock.Legal(Abstract(s), Operations(s1, steps))
            && Abstract(Apply(After(s1, steps), Step.Throw(s.w.q.next)))
               == FifoLock.Run(Abstract(s), Operations(s1, steps))
  {
    ReachableInv(s);
    var k := s.w.q.next;
    var s1 := Apply(s, Step.Lock(t));
    LockQueues(s, t);
    ThrowAfterRun(s1, steps, k);
    AbstractWellFormed(s);
    FifoLock.ThrowingLeavesNoTrace(Abstract(s), Operations(s1, steps), Queued(k));
  }

  /** The first section of a contended lock() is the abstract lock's Acquire of a new ticket. */
  lemma LockQueues(s: State, t: nat)
    requires Inv(s) && s.locked && Enabled(s, Step.Lock(t))
    ensures var k := s.w.q.next; var s1 := Apply(s, Step.Lock(t));
            Inv(s1) && k < s1.w.q.next && !Present(Abstract(s), Queued(k))
            && Abstract(s1) == Do(Abstract(s), Acquire(Queued(k))) && Abstract(s).owner.Some?
  {
    Keeps(s, Step.Lock(t));
    Refines(s, Step.Lock(t));
  }

  /** A waiter that throws after a run in which it did nothing else. */
  lemma ThrowAfterRun(s1: State, steps: seq<Step>, k: nat)
    requires Inv(s1) && Legal(s1, steps) && k < s1.w.q.next && Enabled(After(s1, steps), Step.Throw(k))
    ensures FifoLock.Legal(Abstract(s1), Operations(s1, steps)) && FifoLock.NoneBy(Operations(s1, steps), Queued(k))
    ensures Abstract(Apply(After(s1, steps), Step.Throw(k)))
            == Do(FifoLock.Run(Abstract(s1), Operations(s1, steps)), FifoLock.Throw(Queued(k)))
  {
    RunKeeps(s1, steps);
    WaitedThroughout(s1, steps, k);
    RunRefines(s1, steps);
    Refines(After(s1, steps), Step.Throw(k));
  }
}
