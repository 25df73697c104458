/**
 * The wait queue shared by Mutex and Condition: waiters take consecutive tickets, `released`
 * counts the slots popped so far, and a waiter that gives up nulls its own slot, which it finds
 * from its ticket alone.
 */
module TicketQueue {
  import opened Options

  datatype Tickets = Tickets(released: nat, next: nat, slots: seq<Option<nat>>)

  function Empty(): Tickets { Tickets(0, 1, []) }

  /** Slot i belongs to ticket released + 1 + i, and every ticket not yet released has a slot. */
  ghost predicate Aligned(q: Tickets) { q.next == q.released + 1 + |q.slots| }

  /** The waiter of this ticket is still queued. */
  predicate Waiting(q: Tickets, ticket: nat) {
    q.released < ticket <= q.released + |q.slots| && q.slots[ticket - q.released - 1].Some?
  }

  function Join(q: Tickets, task: nat): Tickets {
    q.(slots := q.slots + [Some(task)], next := q.next + 1)
  }

  function Cancel(q: Tickets, ticket: nat): Tickets
    requires q.released < ticket <= q.released + |q.slots|
  {
    q.(slots := q.slots[ticket - q.released - 1 := None])
  }

  function Pop(q: Tickets): Tickets
    requires q.slots != []
  {
    q.(slots := q.slots[1..], released := q.released + 1)
  }

  /** Pops slots up to and including the first that is not null; returns its task. */
  function Release(q: Tickets): (Tickets, Option<nat>)
    decreases |q.slots|
  {
    if q.slots == [] then (q, None)
    else if q.slots[0].Some? then (Pop(q), q.slots[0])
    else Release(Pop(q))
  }

  /** The tickets still waiting, in the order in which they were taken. */
  function Live(q: Tickets): seq<nat>
    decreases |q.slots|
  {
    if q.slots == [] then []
    else (if q.slots[0].Some? then [q.released + 1] else []) + Live(Pop(q))
  }

  function Without<T(==)>(s: seq<T>, k: T): seq<T> {
    if s == [] then [] else (if s[0] == k then [] else [s[0]]) + Without(s[1..], k)
  }

  lemma {:induction false} LiveMembers(q: Tickets, ticket: nat)
    ensures ticket in Live(q) <==> Waiting(q, ticket)
    decreases |q.slots|
  {
    if q.slots != [] {
      LiveMembers(Pop(q), ticket);
      assert ticket > q.released + 1 ==> (Waiting(q, ticket) <==> Waiting(Pop(q), ticket));
    }
  }

  lemma {:induction false} LiveSorted(q: Tickets)
    ensures forall i, j :: 0 <= i < j < |Live(q)| ==> Live(q)[i] < Live(q)[j]
    ensures forall i :: 0 <= i < |Live(q)| ==> q.released < Live(q)[i]
    decreases |q.slots|
  {
    if q.slots != [] {
      LiveSorted(Pop(q));
    }
  }

  lemma LiveEarliest(q: Tickets, ticket: nat)
    requires Waiting(q, ticket)
    ensures Live(q) != [] && Live(q)[0] <= ticket
  {
    LiveMembers(q, ticket);
    LiveSorted(q);
  }

  /** A newcomer waits behind everybody. */
  lemma {:induction false} JoinGoesLast(q: Tickets, task: nat)
    requires Aligned(q)
    ensures Aligned(Join(q, task)) && Live(Join(q, task)) == Live(q) + [q.next]
    decreases |q.slots|
  {
    if q.slots != [] {
      assert Pop(Join(q, task)) == Join(Pop(q), task);
      JoinGoesLast(Pop(q), task);
    } else {
      assert Live(Pop(Join(q, task))) == [];
    }
  }

  lemma {:induction false} WithoutAbsent<T>(s: seq<T>, k: T)
    requires k !in s
    ensures Without(s, k) == s
  {
    if s != [] {
      WithoutAbsent(s[1..], k);
    }
  }

  /** Cancelling takes the canceller, and nobody else, out of the queue. */
  lemma {:induction false} CancelRemovesOnlyItself(q: Tickets, ticket: nat)
    requires Aligned(q) && Waiting(q, ticket)
    ensures Aligned(Cancel(q, ticket)) && Live(Cancel(q, ticket)) == Without(Live(q), ticket)
    decreases |q.slots|
  {
    var c := Cancel(q, ticket);
    if ticket == q.released + 1 {
      assert Pop(c) == Pop(q);
      LiveMembers(Pop(q), ticket);
      WithoutAbsent(Live(Pop(q)), ticket);
      assert Live(q) == [ticket] + Live(Pop(q));
    } else {
      assert Pop(c) == Cancel(Pop(q), ticket);
      CancelRemovesOnlyItself(Pop(q), ticket);
      if q.slots[0].Some? {
        assert Live(q) == [q.released + 1] + Live(Pop(q));
        assert Live(c) == [q.released + 1] + Live(Pop(c));
      } else {
        assert Live(q) == Live(Pop(q)) && Live(c) == Live(Pop(c));
      }
    }
  }

  lemma {:induction false} ReleaseKeepsNext(q: Tickets)
    ensures Release(q).0.next == q.next
    decreases |q.slots|
  {
    if q.slots != [] && q.slots[0].None? {
      ReleaseKeepsNext(Pop(q));
    }
  }

  /** A release goes to the earliest waiter, if there is one, and otherwise empties the queue. */
  lemma {:induction false} ReleaseGoesFirst(q: Tickets)
    requires Aligned(q)
    ensures var (r, task) := Release(q);
            Aligned(r) && r.next == q.next && r.released >= q.released
            && (task.None? <==> Live(q) == [])
            && (task.None? ==> r.slots == [] && Live(r) == [])
            && (task.Some? ==> r.released == Live(q)[0] && Live(r) == Live(q)[1..] && Waiting(q, r.released)
                               && task == q.slots[r.released - q.released - 1])
            && r.slots == q.slots[r.released - q.released..]
    decreases |q.slots|
  {
    if q.slots != [] && q.slots[0].None? {
      ReleaseGoesFirst(Pop(q));
    }
  }
}
