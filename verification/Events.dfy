/**
 * The mailbox, and the loops that drain it: process(), processUntil() and Event::await.  While a
 * loop dispatches an event, the event's handlers may start loops of their own, and those consume
 * the same mailbox; other threads send events at any moment.
 */
module Events {
  import opened Options
  import Tasks

  type Event = Tasks.Event

  class DequeMailbox {
    var pending: seq<Event>

    constructor ()
      ensures pending == []
    {
      pending := [];
    }

    method Enqueue(event: Event)
      modifies this
      ensures pending == old(pending) + [event]
    {
      pending := pending + [event];
    }

    method Dequeue() returns (event: Option<Event>)
      modifies this
      ensures event.None? <==> old(pending) == []
      ensures event.None? ==> pending == []
      ensures event.Some? ==> old(pending) == [event.value] + pending
    {
      if pending == [] {
        event := None;
      } else {
        event := Some(pending[0]);
        pending := pending[1..];
      }
    }
  }

  // ------------------------------------------------------------------ the machine

  /** What a loop waits for: an event of a path, an IO callback, or an empty mailbox. */
  datatype Wait = Path(path: nat) | Io | Drain

  /**
   * A loop in progress.  start is the number of events dispatched before it began, condition the
   * flag it waits for, result the event its handler was given, and current the event it is
   * dispatching; events are identified by their position among the dispatched ones.
   */
  datatype Loop = Loop(
    id: nat, wait: Wait, start: nat, condition: bool, result: Option<nat>, current: Option<nat>)

  /** An Event::await that returned event number found, when `end` events had been dispatched. */
  datatype Result = Result(id: nat, path: nat, start: nat, found: nat, end: nat)

  /**
   * One task.  takers tells which loop dispatched each event, freed the events whose payload was
   * freed, in that order, thrown those whose dispatch ended in an exception; loops is the stack
   * of nested loops, outermost first, and made the number of loops ever begun.
   */
  datatype State = State(
    mailbox: seq<Event>, arrived: seq<Event>, dispatched: seq<Event>, takers: seq<nat>, freed: seq<nat>,
    thrown: set<nat>, stopped: bool, loops: seq<Loop>, made: nat, results: seq<Result>)

  datatype Step =
      // other threads
    | Arrive(event: Event)
    | Complete(k: nat)
      // a loop
    | Take
    | End
    | Return
    | Exit
      // handlers, or the code outside all loops
    | Begin(wait: Wait)
    | Notice(k: nat)
    | Throw
    | Stop

  function Initial(): State { State([], [], [], [], [], {}, false, [], 0, []) }

  function Top(s: State): Loop
    requires s.loops != []
  {
    s.loops[|s.loops| - 1]
  }

  /** The task's code has control, in a handler of the innermost loop or outside all loops. */
  predicate InCode(s: State) { s.loops == [] || Top(s).current.Some? }

  /** The innermost loop has control. */
  predicate InLoop(s: State) { s.loops != [] && Top(s).current.None? }

  /** The path of the event that a loop is dispatching. */
  function CurrentPath(s: State, k: nat): Option<nat>
    requires k < |s.loops|
  {
    if s.loops[k].current.Some? && s.loops[k].current.value < |s.dispatched|
    then Some(s.dispatched[s.loops[k].current.value].path)
    else None
  }

  /** An event of the path is being dispatched. */
  predicate UnderDispatch(s: State, path: nat) {
    exists k :: 0 <= k < |s.loops| && CurrentPath(s, k) == Some(path)
  }

  predicate Unsatisfied(s: State, k: nat, path: nat) {
    k < |s.loops| && s.loops[k].wait == Path(path) && !s.loops[k].condition
  }

  /** Somebody still waits for an event of the path. */
  predicate Awaited(s: State, path: nat) {
    exists k :: 0 <= k < |s.loops| && Unsatisfied(s, k, path)
  }

  /** The first event's handlers would overlap with those of an event of its path under dispatch, which is awaited. */
  predicate Overlap(s: State) {
    s.mailbox != [] && UnderDispatch(s, s.mailbox[0].path) && Awaited(s, s.mailbox[0].path)
  }

  /**
   * What can happen next.  The handlers of an event are fixed while it is dispatched: nobody
   * starts to await its path then, and while somebody awaits a path no second event of it is
   * dispatched inside the dispatch of a first.
   */
  predicate Enabled(s: State, step: Step) {
    match step
    case Arrive(_) => true
    case Complete(k) => k < |s.loops| && s.loops[k].wait.Io?
    case Take =>
      InLoop(s) && s.mailbox != [] && (if Top(s).wait.Drain? then !s.stopped else !Top(s).condition)
      && !Overlap(s)
    case End =>
      s.loops != [] && CurrentPath(s, |s.loops| - 1).Some?
      && !Awaited(s, CurrentPath(s, |s.loops| - 1).value)
    case Return => InLoop(s) && !Top(s).wait.Drain? && Top(s).condition && (Top(s).wait.Path? ==> Top(s).result.Some?)
    case Exit => InLoop(s) && Top(s).wait.Drain? && (s.mailbox == [] || s.stopped)
    case Begin(w) => InCode(s) && (w.Path? ==> !UnderDispatch(s, w.path))
    case Notice(k) =>
      s.loops != [] && CurrentPath(s, |s.loops| - 1).Some?
      && Unsatisfied(s, k, CurrentPath(s, |s.loops| - 1).value)
    case Throw => s.loops != [] && Top(s).current.Some?
    case Stop => InCode(s)
  }

  function WithTop(s: State, l: Loop): seq<Loop>
    requires s.loops != []
  {
    s.loops[|s.loops| - 1 := l]
  }

  function Popped(s: State): seq<Loop>
    requires s.loops != []
  {
    s.loops[..|s.loops| - 1]
  }

  /** One turn of the inner loop: the first event leaves the mailbox and its handlers start. */
  function Taken(s: State): State
    requires s.loops != [] && s.mailbox != []
  {
    s.(mailbox := s.mailbox[1..], dispatched := s.dispatched + [s.mailbox[0]], takers := s.takers + [Top(s).id],
    loops := WithTop(s, Top(s).(current := Some(|s.dispatched|))))
  }

  /** The await handler of loop k is executed: it keeps the event and sets its loop's condition. */
  function Noticed(s: State, k: nat): State
    requires s.loops != [] && k < |s.loops|
  {
    s.(loops := s.loops[k := s.loops[k].(condition := true, result := Top(s).current)])
  }

  function Returned(s: State): State
    requires s.loops != []
  {
    var l := Top(s);
    s.(loops := Popped(s),
    results := if l.wait.Path? && l.result.Some?
               then s.results + [Result(l.id, l.wait.path, l.start, l.result.value, |s.dispatched|)]
               else s.results)
  }

  function Apply(s: State, step: Step): State
    requires Enabled(s, step)
  {
    match step
    case Arrive(e) => s.(mailbox := s.mailbox + [e], arrived := s.arrived + [e])
    case Complete(k) => s.(loops := s.loops[k := s.loops[k].(condition := true)])
    case Take => Taken(s)
    // freeData after the handlers, and freeData in the catch block
    case End => s.(freed := s.freed + [Top(s).current.value], loops := WithTop(s, Top(s).(current := None)))
    case Throw =>
      s.(freed := s.freed + [Top(s).current.value], thrown := s.thrown + {Top(s).current.value}, loops := Popped(s))
    case Return => Returned(s)
    case Exit => s.(loops := Popped(s))
    case Begin(w) =>
      s.(loops := s.loops + [Loop(s.made, w, |s.dispatched|, false, None, None)], made := s.made + 1)
    case Notice(k) => Noticed(s, k)
    case Stop => s.(stopped := true)
  }

  predicate Legal(s: State, steps: seq<Step>)
    decreases |steps|
  {
    steps == [] || (Enabled(s, steps[0]) && Legal(Apply(s, steps[0]), steps[1..]))
  }

  function After(s: State, steps: seq<Step>): State
    requires Legal(s, steps)
    decreases |steps|
  {
    if steps == [] then s else After(Apply(s, steps[0]), steps[1..])
  }

  ghost predicate Reachable(s: State) {
    exists steps: seq<Step> :: Legal(Initial(), steps) && s == After(Initial(), steps)
  }

  // ------------------------------------------------------------------ the invariant

  ghost predicate InOrder(s: State) {
    s.dispatched + s.mailbox == s.arrived && |s.takers| == |s.dispatched|
  }

  /** The loops nest: each but the innermost is dispatching an event, older than the loops inside it. */
  ghost predicate Nested(s: State) {
    && (forall k :: 0 <= k < |s.loops| ==> s.loops[k].id < s.made && s.loops[k].start <= |s.dispatched|)
    && (forall k :: 0 <= k < |s.loops| - 1 ==> s.loops[k].current.Some?)
    && (forall k :: 0 <= k < |s.loops| && s.loops[k].current.Some? ==>
          s.loops[k].start <= s.loops[k].current.value < |s.dispatched|)
    && (forall k :: 0 <= k < |s.loops| && s.loops[k].current.Some? && s.loops[k].current.value < |s.takers| ==>
          s.takers[s.loops[k].current.value] == s.loops[k].id)
    && (forall j, k :: 0 <= j < k < |s.loops| ==>
          s.loops[j].id != s.loops[k].id && s.loops[j].current.Some? && s.loops[j].current.value < s.loops[k].start)
  }

  predicate Before(o: Option<nat>, i: nat) { o.Some? && o.value < i }

  /** A loop has dispatched nothing after the event it is dispatching, or after the one it waited for. */
  ghost predicate OwnLast(s: State) {
    && (forall i :: 0 <= i < |s.takers| ==> s.takers[i] < s.made)
    && (forall k, i :: 0 <= k < |s.loops| && 0 <= i < |s.takers| && Before(s.loops[k].current, i) ==>
          s.takers[i] != s.loops[k].id)
    && (forall k, i :: 0 <= k < |s.loops| && 0 <= i < |s.takers| && Before(s.loops[k].result, i) ==>
          s.takers[i] != s.loops[k].id)
  }

  predicate IsCurrent(s: State, i: nat) {
    exists k :: 0 <= k < |s.loops| && s.loops[k].current == Some(i)
  }

  /** Each dispatched event is freed once, or is still being dispatched. */
  ghost predicate Frees(s: State) {
    && (forall a, b :: 0 <= a < b < |s.freed| ==> s.freed[a] != s.freed[b])
    && (forall i :: i in s.freed ==> i < |s.dispatched| && !IsCurrent(s, i))
    && (forall i :: 0 <= i < |s.dispatched| ==> i in s.freed || IsCurrent(s, i))
    && (forall i :: i in s.thrown ==> i in s.freed)
  }

  /** Every event of the path between two positions ended in an exception, unless it is still dispatched. */
  ghost predicate Missed(s: State, path: nat, from: nat, to: nat)
    requires to <= |s.dispatched|
  {
    forall i :: from <= i < to && s.dispatched[i].path == path ==> i in s.thrown
  }

  /** A satisfied loop was given the first event of its path; an unsatisfied one has missed none. */
  ghost predicate AwaitOk(s: State, l: Loop) {
    l.wait.Path? ==>
      (l.condition <==> l.result.Some?)
      && (l.result.Some? ==>
            l.start <= l.result.value < |s.dispatched| && s.dispatched[l.result.value].path == l.wait.path
            && Missed(s, l.wait.path, l.start, l.result.value))
      && (l.result.None? ==>
            forall i :: l.start <= i < |s.dispatched| && s.dispatched[i].path == l.wait.path ==>
              i in s.thrown || IsCurrent(s, i))
  }

  ghost predicate AwaitsOk(s: State) {
    forall k :: 0 <= k < |s.loops| ==> AwaitOk(s, s.loops[k]) && (s.loops[k].result.Some? ==> s.loops[k].wait.Path?)
  }

  /** While a path is awaited, at most one event of it is being dispatched, and it came after the await began. */
  ghost predicate Exclusive(s: State) {
    && (forall p, j, k :: 0 <= j < k < |s.loops| && CurrentPath(s, j) == Some(p) && CurrentPath(s, k) == Some(p) ==>
          !Awaited(s, p))
    && (forall p: nat, j: nat, k: nat :: j < |s.loops| && Unsatisfied(s, k, p) && CurrentPath(s, j) == Some(p) ==>
          s.loops[k].start <= s.loops[j].current.value)
  }

  /** An exception has ended the loop that dispatched the event; loops that returned are gone for good. */
  ghost predicate EndedOk(s: State) {
    && (forall i :: i in s.thrown ==> i < |s.takers|)
    && (forall i, k :: i in s.thrown && 0 <= k < |s.loops| ==> s.loops[k].id != s.takers[i])
    && (forall i, n :: i in s.thrown && 0 <= n < |s.results| ==> s.results[n].id != s.takers[i])
    && (forall n :: 0 <= n < |s.results| ==> s.results[n].id < s.made)
    && (forall n, k :: 0 <= n < |s.results| && 0 <= k < |s.loops| ==> s.results[n].id != s.loops[k].id)
  }

  ghost predicate ResultOk(s: State, r: Result) {
    r.start <= r.found < r.end <= |s.dispatched| == |s.takers| && s.dispatched[r.found].path == r.path
    && Missed(s, r.path, r.start, r.found)
    && (forall i :: r.found < i < r.end ==> s.takers[i] != r.id)
  }

  ghost predicate ResultsOk(s: State) {
    forall n :: 0 <= n < |s.results| ==> ResultOk(s, s.results[n])
  }

  ghost predicate Inv(s: State) {
    InOrder(s) && Nested(s) && OwnLast(s) && Frees(s) && AwaitsOk(s) && Exclusive(s) && ResultsOk(s)
    && EndedOk(s)
  }

  // ------------------------------------------------------------------ preservation

  lemma KeepsOrder(s: State, step: Step)
    requires InOrder(s) && Enabled(s, step)
    ensures InOrder(Apply(s, step))
  {
    if step.Take? {
      assert s.mailbox == [s.mailbox[0]] + s.mailbox[1..];
    }
  }

  lemma TakeKeepsNested(s: State)
    requires InOrder(s) && Nested(s) && Enabled(s, Take)
    ensures Nested(Taken(s))
  {
  }

  lemma PopKeepsNested(s: State, x: State)
    requires Nested(s) && s.loops != [] && x.loops == Popped(s) && x.made == s.made
    requires x.dispatched == s.dispatched && x.takers == s.takers
    ensures Nested(x)
  {
  }

  lemma BeginKeepsNested(s: State, w: Wait)
    requires Nested(s) && Enabled(s, Begin(w))
    ensures Nested(Apply(s, Begin(w)))
  {
    PushKeepsNested(s, Loop(s.made, w, |s.dispatched|, false, None, None));
  }

  lemma PushKeepsNested(s: State, l: Loop)
    requires Nested(s) && InCode(s) && l.id == s.made && l.start == |s.dispatched| && l.current.None?
    ensures Nested(s.(loops := s.loops + [l], made := s.made + 1))
  {
    assert forall k :: 0 <= k < |s.loops| ==> s.loops[k].current.Some?;
  }

  lemma KeepsNested(s: State, step: Step)
    requires InOrder(s) && Nested(s) && Enabled(s, step)
    ensures Nested(Apply(s, step))
  {
    match step
    case Take => TakeKeepsNested(s);
    case Throw => PopKeepsNested(s, Apply(s, step));
    case Return => PopKeepsNested(s, Apply(s, step));
    case Exit => PopKeepsNested(s, Apply(s, step));
    case Begin(w) => BeginKeepsNested(s, w);
    case End => LoopKeepsNested(s, Apply(s, step), |s.loops| - 1);
    case Notice(k) => LoopKeepsNested(s, Apply(s, step), k);
    case Complete(k) => LoopKeepsNested(s, Apply(s, step), k);
    case _ =>
  }

  /** Loop k changes its condition, or ends its dispatch if it is the innermost. */
  lemma LoopKeepsNested(s: State, x: State, k: nat)
    requires Nested(s) && k < |s.loops| == |x.loops| && x.loops == s.loops[k := x.loops[k]]
    requires x.loops[k].id == s.loops[k].id && x.loops[k].start == s.loops[k].start
    requires x.loops[k].current == s.loops[k].current || (k == |s.loops| - 1 && x.loops[k].current.None?)
    requires x.made == s.made && x.dispatched == s.dispatched && x.takers == s.takers
    ensures Nested(x)
  {
  }

  lemma TakeKeepsOwnLast(s: State)
    requires InOrder(s) && Nested(s) && AwaitsOk(s) && OwnLast(s) && Enabled(s, Take)
    ensures OwnLast(Taken(s))
  {
  }

  lemma NoticeKeepsOwnLast(s: State, k: nat)
    requires InOrder(s) && Nested(s) && OwnLast(s) && Enabled(s, Notice(k))
    ensures OwnLast(Noticed(s, k))
  {
  }

  lemma KeepsOwnLast(s: State, step: Step)
    requires InOrder(s) && Nested(s) && AwaitsOk(s) && OwnLast(s) && Enabled(s, step)
    ensures OwnLast(Apply(s, step))
  {
    match step
    case Take => TakeKeepsOwnLast(s);
    case Notice(k) => NoticeKeepsOwnLast(s, k);
    case Begin(_) => BeginKeepsOwnLast(s, Apply(s, step));
    case _ =>
      SameLoops(s, step);
      OthersKeepOwnLast(s, Apply(s, step));
  }

  lemma SameLoops(s: State, step: Step)
    requires Enabled(s, step) && !step.Take? && !step.Notice? && !step.Begin?
    ensures var x := Apply(s, step);
            x.takers == s.takers && x.made == s.made && |x.loops| <= |s.loops|
            && forall k :: 0 <= k < |x.loops| ==>
                 x.loops[k].id == s.loops[k].id && x.loops[k].result == s.loops[k].result
                 && (x.loops[k].current.Some? ==> x.loops[k].current == s.loops[k].current)
  {
  }

  lemma BeginKeepsOwnLast(s: State, x: State)
    requires OwnLast(s) && x.takers == s.takers && x.made == s.made + 1 && |x.loops| == |s.loops| + 1
    requires x.loops[..|s.loops|] == s.loops && x.loops[|s.loops|].current.None? && x.loops[|s.loops|].result.None?
    ensures OwnLast(x)
  {
    assert forall k :: 0 <= k < |s.loops| ==> x.loops[..|s.loops|][k] == x.loops[k];
  }

  /** Loops end, or end a dispatch. */
  lemma OthersKeepOwnLast(s: State, x: State)
    requires OwnLast(s) && x.takers == s.takers && x.made == s.made && |x.loops| <= |s.loops|
    requires forall k :: 0 <= k < |x.loops| ==>
               x.loops[k].id == s.loops[k].id && x.loops[k].result == s.loops[k].result
               && (x.loops[k].current.Some? ==> x.loops[k].current == s.loops[k].current)
    ensures OwnLast(x)
  {
  }

  /** The events being dispatched after a step. */
  lemma Currents(s: State, step: Step, i: nat)
    requires Nested(s) && Enabled(s, step)
    ensures IsCurrent(Apply(s, step), i) <==>
              match step
              case Take => IsCurrent(s, i) || i == |s.dispatched|
              case End => IsCurrent(s, i) && i != Top(s).current.value
              case Throw => IsCurrent(s, i) && i != Top(s).current.value
              case _ => IsCurrent(s, i)
  {
    match step
    case Take =>
      TopCurrents(s, WithTop(s, Top(s).(current := Some(|s.dispatched|))), i);
    case End =>
      TopCurrents(s, WithTop(s, Top(s).(current := None)), i);
    case Throw =>
      PoppedCurrents(s, i);
    case Return =>
      PoppedCurrents(s, i);
    case Exit =>
      PoppedCurrents(s, i);
    case Begin(_) =>
      BegunCurrents(s, Apply(s, step).loops, i);
    case _ =>
      assert forall k :: 0 <= k < |s.loops| ==> Apply(s, step).loops[k].current == s.loops[k].current;
  }

  /** The innermost loop changes what it dispatches. */
  lemma TopCurrents(s: State, loops: seq<Loop>, i: nat)
    requires Nested(s) && s.loops != [] && |loops| == |s.loops| && loops[..|s.loops| - 1] == Popped(s)
    ensures IsCurrent(s.(loops := loops), i) <==>
              (IsCurrent(s, i) && Top(s).current != Some(i)) || loops[|loops| - 1].current == Some(i)
  {
    assert forall k :: 0 <= k < |s.loops| - 1 ==> loops[k] == loops[..|s.loops| - 1][k] == s.loops[k];
  }

  lemma PoppedCurrents(s: State, i: nat)
    requires Nested(s) && s.loops != []
    ensures IsCurrent(s.(loops := Popped(s)), i) <==> IsCurrent(s, i) && Top(s).current != Some(i)
  {
    assert forall k :: 0 <= k < |s.loops| - 1 ==> Popped(s)[k] == s.loops[k];
  }

  lemma BegunCurrents(s: State, loops: seq<Loop>, i: nat)
    requires |loops| == |s.loops| + 1 && loops[..|s.loops|] == s.loops && loops[|s.loops|].current.None?
    ensures IsCurrent(s.(loops := loops), i) <==> IsCurrent(s, i)
  {
    assert forall k :: 0 <= k < |s.loops| ==> loops[k] == loops[..|s.loops|][k] == s.loops[k];
  }

  lemma KeepsFrees(s: State, step: Step)
    requires Nested(s) && Frees(s) && Enabled(s, step)
    ensures Frees(Apply(s, step))
  {
    var s' := Apply(s, step);
    forall i: nat
      ensures i in s'.freed ==> i < |s'.dispatched| && !IsCurrent(s', i)
      ensures i < |s'.dispatched| ==> i in s'.freed || IsCurrent(s', i)
    {
      Currents(s, step, i);
    }
    if step.End? || step.Throw? {
      assert s.loops[|s.loops| - 1].current == Some(Top(s).current.value);
      assert IsCurrent(s, Top(s).current.value);
    }
  }

  /** A loop that a step leaves alone stays in order. */
  lemma AwaitStays(s: State, step: Step, l: Loop)
    requires InOrder(s) && Nested(s) && Frees(s) && AwaitOk(s, l) && Enabled(s, step)
    requires step.End? && l.wait.Path? && l.result.None? ==> CurrentPath(s, |s.loops| - 1) != Some(l.wait.path)
    ensures AwaitOk(Apply(s, step), l)
  {
    var s' := Apply(s, step);
    if l.wait.Path? && l.result.None? {
      forall i | l.start <= i < |s'.dispatched| && s'.dispatched[i].path == l.wait.path
        ensures i in s'.thrown || IsCurrent(s', i)
      {
        Currents(s, step, i);
      }
    }
  }

  lemma KeepsAwait(s: State, step: Step, k: nat)
    requires InOrder(s) && Nested(s) && Frees(s) && AwaitsOk(s) && Exclusive(s)
    requires Enabled(s, step) && k < |Apply(s, step).loops|
    ensures AwaitOk(Apply(s, step), Apply(s, step).loops[k])
  {
    var s' := Apply(s, step);
    if step.Begin? && k == |s.loops| {
    } else if step.Notice? && step.k == k {
      NoticesFirst(s, k);
    } else {
      UnsatisfiedIsNotEnding(s, step, k);
      AwaitStays(s, step, s.loops[k]);
      AwaitIgnoresRest(Apply(s, step), s.loops[k], Apply(s, step).loops[k]);
    }
  }

  lemma UnsatisfiedIsNotEnding(s: State, step: Step, k: nat)
    requires AwaitsOk(s) && Enabled(s, step) && k < |s.loops|
    ensures AwaitOk(s, s.loops[k])
    ensures step.End? && s.loops[k].wait.Path? && s.loops[k].result.None? ==>
              CurrentPath(s, |s.loops| - 1) != Some(s.loops[k].wait.path)
  {
    if s.loops[k].wait.Path? && s.loops[k].result.None? {
      assert Unsatisfied(s, k, s.loops[k].wait.path);
    }
  }

  lemma AwaitIgnoresRest(s: State, l: Loop, m: Loop)
    requires AwaitOk(s, l) && m.wait == l.wait && m.start == l.start && m.result == l.result
    requires m.wait.Path? ==> m.condition == l.condition
    ensures AwaitOk(s, m)
  {
  }

  /** The event that an await handler is given is the first of its path, but for those that threw. */
  lemma NoticesFirst(s: State, k: nat)
    requires Nested(s) && AwaitsOk(s) && Exclusive(s) && Enabled(s, Notice(k))
    ensures AwaitOk(Noticed(s, k), Noticed(s, k).loops[k])
  {
    var path, r := s.loops[k].wait.path, Top(s).current.value;
    assert AwaitOk(s, s.loops[k]);
    forall i | s.loops[k].start <= i < r && s.dispatched[i].path == path
      ensures i in s.thrown
    {
      OthersHaveEnded(s, k, i);
    }
  }

  lemma OthersHaveEnded(s: State, k: nat, i: nat)
    requires Exclusive(s) && Enabled(s, Notice(k)) && i < |s.dispatched|
    requires i != Top(s).current.value && s.dispatched[i].path == s.loops[k].wait.path
    ensures !IsCurrent(s, i)
  {
    forall j | 0 <= j < |s.loops| && CurrentPath(s, j) == Some(s.loops[k].wait.path)
      ensures j == |s.loops| - 1
    {
      OnlyInnermost(s, k, j);
    }
  }

  /** While loop k awaits a path, no event of it but the innermost one is being dispatched. */
  lemma OnlyInnermost(s: State, k: nat, j: nat)
    requires Exclusive(s) && Enabled(s, Notice(k)) && j < |s.loops|
    requires CurrentPath(s, j) == Some(s.loops[k].wait.path)
    ensures j == |s.loops| - 1
  {
    assert Awaited(s, s.loops[k].wait.path);
  }

  lemma KeepsAwaits(s: State, step: Step)
    requires Inv(s) && Enabled(s, step)
    ensures AwaitsOk(Apply(s, step))
  {
    forall k | 0 <= k < |Apply(s, step).loops|
      ensures AwaitOk(Apply(s, step), Apply(s, step).loops[k])
    {
      KeepsAwait(s, step, k);
    }
  }

  /** Who awaited a path, and which of its events were being dispatched, before a step. */
  lemma BeforeStep(s: State, step: Step, k: nat, p: nat)
    requires InOrder(s) && Nested(s) && Enabled(s, step) && k < |Apply(s, step).loops|
    ensures Unsatisfied(Apply(s, step), k, p) ==>
              Unsatisfied(s, k, p) || (step == Begin(Path(p)) && k == |s.loops|)
    ensures CurrentPath(Apply(s, step), k) == Some(p) ==>
              (k < |s.loops| && CurrentPath(s, k) == Some(p) && Apply(s, step).loops[k].current == s.loops[k].current)
              || (step.Take? && k == |s.loops| - 1 && s.mailbox[0].path == p)
  {
  }

  lemma AwaitedBefore(s: State, step: Step, p: nat)
    requires InOrder(s) && Nested(s) && Enabled(s, step) && Awaited(Apply(s, step), p)
    ensures Awaited(s, p) || step == Begin(Path(p))
  {
    var k :| 0 <= k < |Apply(s, step).loops| && Unsatisfied(Apply(s, step), k, p);
    BeforeStep(s, step, k, p);
  }

  lemma KeepsOneDispatch(s: State, step: Step, p: nat, j: nat, k: nat)
    requires InOrder(s) && Nested(s) && Exclusive(s) && Enabled(s, step) && j < k < |Apply(s, step).loops|
    requires CurrentPath(Apply(s, step), j) == Some(p) && CurrentPath(Apply(s, step), k) == Some(p)
    ensures !Awaited(Apply(s, step), p)
  {
    BeforeStep(s, step, j, p);
    BeforeStep(s, step, k, p);
    assert UnderDispatch(s, p);
    if Awaited(Apply(s, step), p) {
      AwaitedBefore(s, step, p);
    }
  }

  lemma KeepsBoundBefore(s: State, step: Step, p: nat, j: nat, k: nat)
    requires InOrder(s) && Nested(s) && Exclusive(s) && Enabled(s, step) && j < |Apply(s, step).loops|
    requires Unsatisfied(Apply(s, step), k, p) && CurrentPath(Apply(s, step), j) == Some(p)
    ensures Apply(s, step).loops[k].start <= Apply(s, step).loops[j].current.value
  {
    BeforeStep(s, step, j, p);
    BeforeStep(s, step, k, p);
    if step.Begin? && k == |s.loops| {
      assert UnderDispatch(s, p);
    }
  }

  lemma KeepsExclusive(s: State, step: Step)
    requires InOrder(s) && Nested(s) && Exclusive(s) && Enabled(s, step)
    ensures Exclusive(Apply(s, step))
  {
    var s' := Apply(s, step);
    forall p: nat, j: nat, k: nat | j < |s'.loops| && Unsatisfied(s', k, p) && CurrentPath(s', j) == Some(p)
      ensures s'.loops[k].start <= s'.loops[j].current.value
    {
      KeepsBoundBefore(s, step, p, j, k);
    }
    forall p: nat, j: nat, k: nat | j < k < |s'.loops| && CurrentPath(s', j) == Some(p) && CurrentPath(s', k) == Some(p)
      ensures !Awaited(s', p)
    {
      KeepsOneDispatch(s, step, p, j, k);
    }
  }

  lemma KeepsResults(s: State, step: Step)
    requires Inv(s) && Enabled(s, step)
    ensures ResultsOk(Apply(s, step))
  {
  }

  lemma ThrowKeepsEnded(s: State)
    requires InOrder(s) && Nested(s) && OwnLast(s) && EndedOk(s) && Enabled(s, Throw)
    ensures EndedOk(Apply(s, Throw))
  {
    assert s.takers[Top(s).current.value] == Top(s).id;
  }

  lemma ReturnKeepsEnded(s: State)
    requires Nested(s) && EndedOk(s) && Enabled(s, Return)
    ensures EndedOk(Returned(s))
  {
  }

  /** Neither an exception nor a return. */
  lemma OthersKeepEnded(s: State, step: Step)
    requires InOrder(s) && OwnLast(s) && EndedOk(s) && Enabled(s, step) && !step.Throw? && !step.Return?
    ensures EndedOk(Apply(s, step))
  {
  }

  lemma KeepsEnded(s: State, step: Step)
    requires InOrder(s) && Nested(s) && OwnLast(s) && EndedOk(s) && Enabled(s, step)
    ensures EndedOk(Apply(s, step))
  {
    if step.Throw? {
      ThrowKeepsEnded(s);
    } else if step.Return? {
      ReturnKeepsEnded(s);
    } else {
      OthersKeepEnded(s, step);
    }
  }

  lemma Keeps(s: State, step: Step)
    requires Inv(s) && Enabled(s, step)
    ensures Inv(Apply(s, step))
  {
    KeepsOrder(s, step);
    KeepsNested(s, step);
    KeepsOwnLast(s, step);
    KeepsFrees(s, step);
    KeepsAwaits(s, step);
    KeepsExclusive(s, step);
    KeepsResults(s, step);
    KeepsEnded(s, step);
  }

  lemma InitialInv()
    ensures Inv(Initial())
  {
  }

  lemma {:induction false} RunKeeps(s: State, steps: seq<Step>)
    requires Inv(s) && Legal(s, steps)
    ensures Inv(After(s, steps))
    decreases |steps|
  {
    if steps != [] {
      Keeps(s, steps[0]);
      RunKeeps(Apply(s, steps[0]), steps[1..]);
    }
  }

  lemma ReachableInv(s: State)
    requires Reachable(s)
    ensures Inv(s)
  {
    var steps: seq<Step> :| Legal(Initial(), steps) && s == After(Initial(), steps);
    InitialInv();
    RunKeeps(Initial(), steps);
  }

  lemma {:induction false} RunSnoc(s: State, steps: seq<Step>, step: Step)
    requires Legal(s, steps) && Enabled(After(s, steps), step)
    ensures Legal(s, steps + [step]) && After(s, steps + [step]) == Apply(After(s, steps), step)
    decreases |steps|
  {
    if steps == [] {
      assert [] + [step] == [step] && [step][1..] == [];
    } else {
      assert (steps + [step])[0] == steps[0] && (steps + [step])[1..] == steps[1..] + [step];
      RunSnoc(Apply(s, steps[0]), steps[1..], step);
    }
  }

  lemma ReachableStep(s: State, step: Step)
    requires Reachable(s) && Enabled(s, step)
    ensures Reachable(Apply(s, step))
  {
    var steps: seq<Step> :| Legal(Initial(), steps) && s == After(Initial(), steps);
    RunSnoc(Initial(), steps, step);
  }

  lemma InitialReachable()
    ensures Reachable(Initial())
  {
    assert Legal(Initial(), []) && After(Initial(), []) == Initial();
  }
}
