/**
 * The lock that Mutex promises to be: first come, first served, where a caller that gives up
 * leaves no trace.
 */
module FifoLock {
  import opened Options
  import opened TicketQueue

  /** A call of lock() or try_lock(): one that found the lock free, or one that took a ticket. */
  datatype Caller = Direct(n: nat) | Queued(ticket: nat)

  datatype Lock = Lock(owner: Option<Caller>, waiting: seq<Caller>)

  datatype Op = Acquire(caller: Caller) | Unlock(caller: Caller) | Throw(caller: Caller)

  /** The owner leaves; the first in line, if any, becomes the owner. */
  function Pass(l: Lock): Lock {
    if l.waiting == [] then l.(owner := None) else Lock(Some(l.waiting[0]), l.waiting[1..])
  }

  function Do(l: Lock, op: Op): Lock {
    match op
    case Acquire(c) => if l.owner.None? then l.(owner := Some(c)) else l.(waiting := l.waiting + [c])
    case Unlock(_) => Pass(l)
    case Throw(c) => if l.owner == Some(c) then Pass(l) else l.(waiting := Without(l.waiting, c))
  }

  ghost predicate Distinct(s: seq<Caller>) {
    forall i, j :: 0 <= i < j < |s| ==> s[i] != s[j]
  }

  ghost predicate WellFormed(l: Lock) {
    Distinct(l.waiting)
    && (l.owner.None? ==> l.waiting == [])
    && (l.owner.Some? ==> l.owner.value !in l.waiting)
  }

  predicate Present(l: Lock, c: Caller) { l.owner == Some(c) || c in l.waiting }

  predicate Allowed(l: Lock, op: Op) {
    match op
    case Acquire(c) => !Present(l, c)
    case Unlock(c) => l.owner == Some(c)
    case Throw(c) => Present(l, c)
  }

  predicate Legal(l: Lock, ops: seq<Op>)
    decreases |ops|
  {
    ops == [] || (Allowed(l, ops[0]) && Legal(Do(l, ops[0]), ops[1..]))
  }

  function Run(l: Lock, ops: seq<Op>): Lock
    decreases |ops|
  {
    if ops == [] then l else Run(Do(l, ops[0]), ops[1..])
  }

  /** A run that begins with one more operation, or none. */
  lemma RunFrom(l: Lock, op: Option<Op>, rest: seq<Op>)
    requires op.Some? ==> Allowed(l, op.value)
    requires Legal(if op.Some? then Do(l, op.value) else l, rest)
    ensures Legal(l, (if op.Some? then [op.value] else []) + rest)
    ensures Run(l, (if op.Some? then [op.value] else []) + rest) == Run(if op.Some? then Do(l, op.value) else l, rest)
  {
    if op.Some? {
      assert ([op.value] + rest)[1..] == rest;
    } else {
      assert [] + rest == rest;
    }
  }

  /** The lock as it would be had c not called. */
  function Erase(l: Lock, c: Caller): Lock { Do(l, Throw(c)) }

  lemma {:induction false} WithoutMembers<T>(s: seq<T>, k: T)
    ensures k !in Without(s, k)
    ensures forall x :: x in Without(s, k) <==> x in s && x != k
  {
    if s != [] {
      WithoutMembers(s[1..], k);
      assert forall x :: x in s <==> x == s[0] || x in s[1..];
      assert forall x :: x in Without(s, k) <==> x in (if s[0] == k then [] else [s[0]]) || x in Without(s[1..], k);
    }
  }

  lemma {:induction false} WithoutAppend<T>(s: seq<T>, x: T, k: T)
    ensures Without(s + [x], k) == Without(s, k) + (if x == k then [] else [x])
  {
    if s == [] {
      assert s + [x] == [x];
    } else {
      assert (s + [x])[1..] == s[1..] + [x];
      WithoutAppend(s[1..], x, k);
    }
  }

  lemma WithoutCons<T>(x: T, s: seq<T>, k: T)
    ensures Without([x] + s, k) == (if x == k then [] else [x]) + Without(s, k)
  {
    assert ([x] + s)[1..] == s;
  }

  lemma {:induction false} WithoutCommutes<T>(s: seq<T>, a: T, b: T)
    ensures Without(Without(s, a), b) == Without(Without(s, b), a)
  {
    if s != [] {
      WithoutCommutes(s[1..], a, b);
      WithoutCons(s[0], Without(s[1..], a), b);
      WithoutCons(s[0], Without(s[1..], b), a);
      assert [] + Without(s[1..], a) == Without(s[1..], a) && [] + Without(s[1..], b) == Without(s[1..], b);
    }
  }

  lemma {:induction false} WithoutDistinct(s: seq<Caller>, k: Caller)
    requires Distinct(s)
    ensures Distinct(Without(s, k))
  {
    if s != [] {
      assert Distinct(s[1..]);
      WithoutDistinct(s[1..], k);
      WithoutMembers(s[1..], k);
      assert s[0] !in s[1..];
      if s[0] == k {
        assert [] + Without(s[1..], k) == Without(s[1..], k);
      }
    }
  }

  lemma KeepsWellFormed(l: Lock, op: Op)
    requires WellFormed(l) && Allowed(l, op)
    ensures WellFormed(Do(l, op))
  {
    if op.Throw? {
      WithoutDistinct(l.waiting, op.caller);
      WithoutMembers(l.waiting, op.caller);
    }
  }

  lemma WithoutHead(s: seq<Caller>)
    requires s != [] && Distinct(s)
    ensures Without(s, s[0]) == s[1..]
  {
    WithoutAbsent(s[1..], s[0]);
  }

  /** Anybody else's operation has the same effect whether or not k ever called. */
  lemma OthersDoNotNotice(l: Lock, op: Op, k: Caller)
    requires WellFormed(l) && Present(l, k) && Allowed(l, op) && op.caller != k
    ensures Allowed(Erase(l, k), op)
    ensures Erase(Do(l, op), k) == Do(Erase(l, k), op)
    ensures Present(Do(l, op), k)
  {
    WithoutMembers(l.waiting, k);
    match op
    case Acquire(c) =>
      WithoutAppend(l.waiting, c, k);
    case Unlock(c) =>
      if l.waiting[0] == k {
        WithoutHead(l.waiting);
      } else {
        assert Without(l.waiting, k) == [l.waiting[0]] + Without(l.waiting[1..], k);
      }
    case Throw(c) =>
      WithoutMembers(l.waiting, c);
      WithoutCommutes(l.waiting, c, k);
      if l.owner == Some(k) {
        if l.waiting[0] == c {
          WithoutHead(l.waiting);
        } else {
          assert Without(l.waiting, c) == [l.waiting[0]] + Without(l.waiting[1..], c);
        }
      } else if l.owner == Some(c) {
        if l.waiting[0] == k {
          WithoutHead(l.waiting);
        } else {
          assert Without(l.waiting, k) == [l.waiting[0]] + Without(l.waiting[1..], k);
        }
      }
  }

  ghost predicate NoneBy(ops: seq<Op>, k: Caller) {
    forall i :: 0 <= i < |ops| ==> ops[i].caller != k
  }

  lemma {:induction false} EraseCommutes(l: Lock, ops: seq<Op>, k: Caller)
    requires WellFormed(l) && Present(l, k) && Legal(l, ops) && NoneBy(ops, k)
    ensures Legal(Erase(l, k), ops) && Erase(Run(l, ops), k) == Run(Erase(l, k), ops)
    decreases |ops|
  {
    if ops != [] {
      OthersDoNotNotice(l, ops[0], k);
      KeepsWellFormed(l, ops[0]);
      assert NoneBy(ops[1..], k);
      EraseCommutes(Do(l, ops[0]), ops[1..], k);
    }
  }

  /**
   * A lock() that waits and throws has no effect on the lock: whatever the others do in between,
   * the lock ends as if it had never been called, even when it had already been handed over.
   */
  lemma ThrowingLeavesNoTrace(l: Lock, ops: seq<Op>, k: Caller)
    requires WellFormed(l) && l.owner.Some? && !Present(l, k)
    requires Legal(Do(l, Acquire(k)), ops) && NoneBy(ops, k)
    ensures Legal(l, ops)
    ensures Do(Run(Do(l, Acquire(k)), ops), Throw(k)) == Run(l, ops)
  {
    var m := Do(l, Acquire(k));
    KeepsWellFormed(l, Acquire(k));
    WithoutAppend(l.waiting, k, k);
    WithoutAbsent(l.waiting, k);
    assert l.waiting + [] == l.waiting;
    assert Erase(m, k) == l;
    EraseCommutes(m, ops, k);
  }
}
