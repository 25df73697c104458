/**
 * What every run of the nested loops keeps: which events are dispatched and freed, and what an
 * await consumes.  Whether an await consumes exactly the events up to the first of its path depends
 * on which handlers wait: a handler that waits dispatches the events behind its own.
 */
module EventTheorems {
  import opened Options
  import opened Events
  import Tasks

  /** Whatever loops are nested how deep, the events dispatched are those sent first, in order. */
  lemma ConsumedIsPrefix(s: State)
    requires Reachable(s)
    ensures s.dispatched <= s.arrived && s.mailbox == s.arrived[|s.dispatched|..]
  {
    ReachableInv(s);
  }

  /** The events that a run sends to the task, in order. */
  function Sent(steps: seq<Step>): seq<Event> {
    if steps == [] then []
    else if steps[0].Arrive? then [steps[0].event] + Sent(steps[1..])
    else Sent(steps[1..])
  }

  /** How many events its loops take. */
  function Takes(steps: seq<Step>): nat {
    if steps == [] then 0 else (if steps[0].Take? then 1 else 0) + Takes(steps[1..])
  }

  lemma {:induction false} RunHistory(s: State, steps: seq<Step>)
    requires Legal(s, steps)
    ensures After(s, steps).arrived == s.arrived + Sent(steps)
    ensures |After(s, steps).dispatched| == |s.dispatched| + Takes(steps)
    decreases |steps|
  {
    if steps != [] {
      RunHistory(Apply(s, steps[0]), steps[1..]);
    }
  }

  /**
   * However its loops are nested, a task dispatches the events sent to it in the order in which they
   * were sent, as many as its loops take, and the others wait.
   */
  lemma EventsAreThoseSent(steps: seq<Step>)
    requires Legal(Initial(), steps)
    ensures var s := After(Initial(), steps);
            Takes(steps) <= |Sent(steps)| && s.dispatched == Sent(steps)[..Takes(steps)]
            && s.mailbox == Sent(steps)[Takes(steps)..]
  {
    InitialInv();
    RunKeeps(Initial(), steps);
    RunHistory(Initial(), steps);
    assert Initial().arrived + Sent(steps) == Sent(steps);
  }

  /** The innermost loop, while it dispatches nothing, has reached what it waits for. */
  predicate Reached(s: State)
    requires s.loops != []
  {
    if Top(s).wait.Drain? then s.mailbox == [] || s.stopped else Top(s).condition
  }

  /**
   * In every reachable state a loop goes on until it has reached what it waits for, and then ends:
   * process with an empty mailbox or a stop, the others with their condition.  It takes the first
   * event before, if there is one.
   */
  lemma LoopsGoOn(s: State)
    requires Reachable(s) && InLoop(s)
    ensures Enabled(s, if Top(s).wait.Drain? then Exit else Return) <==> Reached(s)
    ensures Enabled(s, Take) <==> !Reached(s) && s.mailbox != [] && !Overlap(s)
    ensures Reached(s) ==>
              Apply(s, if Top(s).wait.Drain? then Exit else Return).loops == s.loops[..|s.loops| - 1]
  {
    ReachableInv(s);
    assert AwaitOk(s, s.loops[|s.loops| - 1]);
  }

  /** A task is stopped once some handler, or the code outside all loops, has stopped it. */
  lemma StoppedExactlyWhen(steps: seq<Step>)
    requires Legal(Initial(), steps)
    ensures After(Initial(), steps).stopped <==> Stop in steps
  {
    StopStays(Initial(), steps);
  }

  lemma {:induction false} StopStays(s: State, steps: seq<Step>)
    requires Legal(s, steps)
    ensures After(s, steps).stopped <==> s.stopped || Stop in steps
    decreases |steps|
  {
    if steps != [] {
      assert steps == [steps[0]] + steps[1..];
      StopStays(Apply(s, steps[0]), steps[1..]);
    }
  }

  /** The step gives loop k what it waits for: its request is complete, or the event under dispatch is of its path. */
  predicate Gives(step: Step, k: nat) { (step.Complete? || step.Notice?) && step.k == k }

  /**
   * A loop's condition is set by the completion of its request, at any moment, and by the dispatch
   * of an event of its path, which it then returns; by nothing else, and nothing takes it back.
   */
  lemma ConditionsAreGiven(s: State, step: Step, k: nat)
    requires Reachable(s) && Enabled(s, step) && k < |s.loops| && k < |Apply(s, step).loops|
    ensures Apply(s, step).loops[k].condition <==> s.loops[k].condition || Gives(step, k)
    ensures s.loops[k].wait.Io? ==> Enabled(s, Complete(k))
    ensures Gives(step, k) && s.loops[k].wait.Path? ==>
              Apply(s, step).loops[k].result.Some?
              && Apply(s, step).loops[k].result == s.loops[|s.loops| - 1].current
              && CurrentPath(s, |s.loops| - 1) == Some(s.loops[k].wait.path)
  {
  }

  /**
   * A payload is freed exactly once, after its dispatch has ended, normally or by an exception:
   * those not freed are those still being dispatched, and outside all loops there are none.
   */
  lemma FreedOnce(s: State)
    requires Reachable(s)
    ensures forall a, b :: 0 <= a < b < |s.freed| ==> s.freed[a] != s.freed[b]
    ensures forall i: nat :: i in s.freed <==> i < |s.dispatched| && !IsCurrent(s, i)
    ensures s.loops == [] ==> forall i: nat :: i in s.freed <==> i < |s.dispatched|
  {
    ReachableInv(s);
  }

  /**
   * An await returns an event of its path dispatched after it began.  Its own loop dispatches
   * nothing after it, and the only earlier ones of the path are events that a loop nested in it
   * dispatched, where another handler threw first.
   */
  lemma AwaitReturnsFirst(s: State, r: Result)
    requires Reachable(s) && r in s.results
    ensures r.start <= r.found < r.end <= |s.dispatched| == |s.takers|
    ensures s.dispatched[r.found].path == r.path
    ensures forall i :: r.start <= i < r.found && s.dispatched[i].path == r.path ==>
              i in s.thrown && s.takers[i] != r.id
    ensures forall i :: r.found < i < r.end ==> s.takers[i] != r.id
  {
    ReachableInv(s);
    var n :| 0 <= n < |s.results| && s.results[n] == r;
    assert ResultOk(s, s.results[n]);
  }

  /** An await that goes on behind the event it returns does so because of another loop. */
  lemma OtherTaker(s: State, r: Result)
    requires Reachable(s) && r in s.results && r.end != r.found + 1
    ensures r.start <= r.found + 1 < r.end <= |s.takers| && s.takers[r.found + 1] != r.id
  {
    AwaitReturnsFirst(s, r);
  }

  /**
   * If no loop nested in it takes an event, an await consumes the shortest prefix of the remaining
   * events that ends in an event of its path, and returns that event.
   */
  lemma AwaitWithoutNesting(s: State, r: Result)
    requires Reachable(s) && r in s.results
    requires forall i :: r.start <= i < r.end && i < |s.takers| ==> s.takers[i] == r.id
    ensures Exact(s, r)
  {
    AwaitReturnsFirst(s, r);
    if r.end != r.found + 1 {
      OtherTaker(s, r);
    }
  }

  // ------------------------------------------------------------------ which handlers wait

  /** A step in which no handler begins to wait, unless it handles an event of a path in waiters. */
  ghost predicate StepWithin(s: State, step: Step, waiters: iset<nat>) {
    step.Begin? && s.loops != [] ==>
      CurrentPath(s, |s.loops| - 1).Some? && CurrentPath(s, |s.loops| - 1).value in waiters
  }

  ghost predicate Within(s: State, steps: seq<Step>, waiters: iset<nat>)
    requires Legal(s, steps)
    decreases |steps|
  {
    steps == [] || (StepWithin(s, steps[0], waiters) && Within(Apply(s, steps[0]), steps[1..], waiters))
  }

  /** The state is reached by a run in which only handlers of paths in waiters wait. */
  ghost predicate ReachableWithin(s: State, waiters: iset<nat>) {
    exists steps: seq<Step> ::
      Legal(Initial(), steps) && Within(Initial(), steps, waiters) && s == After(Initial(), steps)
  }

  lemma {:induction false} WithinSnoc(s: State, steps: seq<Step>, step: Step, waiters: iset<nat>)
    requires Legal(s, steps) && Within(s, steps, waiters)
    requires Enabled(After(s, steps), step) && StepWithin(After(s, steps), step, waiters)
    ensures Legal(s, steps + [step]) && Within(s, steps + [step], waiters)
    decreases |steps|
  {
    RunSnoc(s, steps, step);
    if steps == [] {
      assert steps + [step] == [step] && [step][1..] == [];
    } else {
      assert (steps + [step])[0] == steps[0] && (steps + [step])[1..] == steps[1..] + [step];
      WithinSnoc(Apply(s, steps[0]), steps[1..], step, waiters);
    }
  }

  lemma Go(s: State, step: Step, waiters: iset<nat>) returns (s': State)
    requires ReachableWithin(s, waiters) && Enabled(s, step) && StepWithin(s, step, waiters)
    ensures ReachableWithin(s', waiters) && s' == Apply(s, step)
  {
    var steps: seq<Step> :|
      Legal(Initial(), steps) && Within(Initial(), steps, waiters) && s == After(Initial(), steps);
    WithinSnoc(Initial(), steps, step, waiters);
    RunSnoc(Initial(), steps, step);
    s' := Apply(s, step);
  }

  lemma InitialWithin(waiters: iset<nat>)
    ensures ReachableWithin(Initial(), waiters)
  {
    var steps: seq<Step> := [];
    assert Legal(Initial(), steps) && Within(Initial(), steps, waiters) && After(Initial(), steps) == Initial();
  }

  /** The loop dispatched, from `start` on and before event i, an event whose handlers may wait. */
  ghost predicate Opened(s: State, waiters: iset<nat>, id: nat, start: nat, i: nat) {
    exists j :: start <= j < i && j < |s.takers| && j < |s.dispatched|
                && s.takers[j] == id && s.dispatched[j].path in waiters
  }

  /** Every event that another loop took in the meantime is behind one whose handlers may wait. */
  ghost predicate Excused(s: State, waiters: iset<nat>, id: nat, start: nat, end: nat) {
    forall i :: start <= i < end && i < |s.takers| && s.takers[i] != id ==> Opened(s, waiters, id, start, i)
  }

  ghost predicate NestWithin(s: State, waiters: iset<nat>) {
    && (forall k :: 0 <= k < |s.loops| - 1 ==> CurrentPath(s, k).Some? && CurrentPath(s, k).value in waiters)
    && (forall k :: 0 <= k < |s.loops| ==> Excused(s, waiters, s.loops[k].id, s.loops[k].start, |s.dispatched|))
    && (forall n :: 0 <= n < |s.results| ==>
          Excused(s, waiters, s.results[n].id, s.results[n].start, s.results[n].end))
  }

  lemma TakeKeepsExcused(s: State, waiters: iset<nat>, id: nat, start: nat, end: nat)
    requires InOrder(s) && Enabled(s, Take) && end <= |s.dispatched| && Excused(s, waiters, id, start, end)
    ensures Excused(Taken(s), waiters, id, start, end)
  {
    forall i | start <= i < end && s.takers[i] != id
      ensures Opened(Taken(s), waiters, id, start, i)
    {
      assert Opened(s, waiters, id, start, i);
      var j :| start <= j < i && s.takers[j] == id && s.dispatched[j].path in waiters;
      assert Taken(s).takers[j] == id && Taken(s).dispatched[j] == s.dispatched[j];
    }
  }

  lemma TakeKeepsLoopExcused(s: State, waiters: iset<nat>, k: nat)
    requires InOrder(s) && Nested(s) && Enabled(s, Take) && NestWithin(s, waiters) && k < |s.loops|
    ensures Excused(Taken(s), waiters, s.loops[k].id, s.loops[k].start, |s.dispatched| + 1)
  {
    TakeKeepsExcused(s, waiters, s.loops[k].id, s.loops[k].start, |s.dispatched|);
    if k < |s.loops| - 1 {
      assert CurrentPath(s, k).Some?;
      var j := s.loops[k].current.value;
      assert s.loops[k].start <= j < |s.dispatched| && s.takers[j] == s.loops[k].id;
      assert Taken(s).takers[j] == s.loops[k].id && Taken(s).dispatched[j].path in waiters;
    }
  }

  lemma TakeKeepsWithin(s: State, waiters: iset<nat>)
    requires InOrder(s) && Nested(s) && ResultsOk(s) && NestWithin(s, waiters) && Enabled(s, Take)
    ensures NestWithin(Taken(s), waiters)
  {
    var s' := Taken(s);
    forall k | 0 <= k < |s'.loops|
      ensures Excused(s', waiters, s'.loops[k].id, s'.loops[k].start, |s'.dispatched|)
    {
      TakeKeepsLoopExcused(s, waiters, k);
    }
    forall n | 0 <= n < |s'.results|
      ensures Excused(s', waiters, s'.results[n].id, s'.results[n].start, s'.results[n].end)
    {
      assert ResultOk(s, s.results[n]);
      TakeKeepsExcused(s, waiters, s.results[n].id, s.results[n].start, s.results[n].end);
    }
    forall k | 0 <= k < |s'.loops| - 1
      ensures CurrentPath(s', k) == CurrentPath(s, k)
    {
      assert CurrentPath(s, k).Some?;
    }
  }

  lemma ExcusedStays(s: State, s': State, waiters: iset<nat>, id: nat, start: nat, end: nat)
    requires s'.dispatched == s.dispatched && s'.takers == s.takers && Excused(s, waiters, id, start, end)
    ensures Excused(s', waiters, id, start, end)
  {
    forall i | start <= i < end && i < |s.takers| && s.takers[i] != id
      ensures Opened(s', waiters, id, start, i)
    {
      assert Opened(s, waiters, id, start, i);
    }
  }

  lemma LoopsStay(s: State, step: Step, waiters: iset<nat>)
    requires InOrder(s) && NestWithin(s, waiters) && Enabled(s, step) && !step.Take?
    ensures forall k :: 0 <= k < |Apply(s, step).loops| ==>
              var l := Apply(s, step).loops[k];
              Excused(Apply(s, step), waiters, l.id, l.start, |Apply(s, step).dispatched|)
  {
    var s' := Apply(s, step);
    forall k | 0 <= k < |s'.loops|
      ensures Excused(s', waiters, s'.loops[k].id, s'.loops[k].start, |s'.dispatched|)
    {
      if k < |s.loops| {
        ExcusedStays(s, s', waiters, s.loops[k].id, s.loops[k].start, |s.dispatched|);
      }
    }
  }

  /** No step but a take changes what was dispatched. */
  lemma OthersKeepWithin(s: State, step: Step, waiters: iset<nat>)
    requires InOrder(s) && Nested(s) && NestWithin(s, waiters)
    requires Enabled(s, step) && !step.Take? && StepWithin(s, step, waiters)
    ensures NestWithin(Apply(s, step), waiters)
  {
    LoopsStay(s, step, waiters);
    OuterStay(s, step, waiters);
    ResultsStay(s, step, waiters);
  }

  lemma ResultsStay(s: State, step: Step, waiters: iset<nat>)
    requires InOrder(s) && NestWithin(s, waiters) && Enabled(s, step) && !step.Take?
    ensures forall n :: 0 <= n < |Apply(s, step).results| ==>
              var r := Apply(s, step).results[n];
              Excused(Apply(s, step), waiters, r.id, r.start, r.end)
  {
    var s' := Apply(s, step);
    forall n | 0 <= n < |s'.results|
      ensures Excused(s', waiters, s'.results[n].id, s'.results[n].start, s'.results[n].end)
    {
      if n < |s.results| {
        ExcusedStays(s, s', waiters, s.results[n].id, s.results[n].start, s.results[n].end);
      } else {
        ExcusedStays(s, s', waiters, Top(s).id, Top(s).start, |s.dispatched|);
      }
    }
  }

  lemma OuterStay(s: State, step: Step, waiters: iset<nat>)
    requires InOrder(s) && Nested(s) && NestWithin(s, waiters)
    requires Enabled(s, step) && !step.Take? && StepWithin(s, step, waiters)
    ensures forall k :: 0 <= k < |Apply(s, step).loops| - 1 ==>
              CurrentPath(Apply(s, step), k).Some? && CurrentPath(Apply(s, step), k).value in waiters
  {
    var s' := Apply(s, step);
    forall k | 0 <= k < |s'.loops| - 1
      ensures CurrentPath(s', k).Some? && CurrentPath(s', k).value in waiters
    {
      assert CurrentPath(s', k) == CurrentPath(s, k);
    }
  }

  lemma {:induction false} RunWithin(s: State, steps: seq<Step>, waiters: iset<nat>)
    requires Inv(s) && NestWithin(s, waiters) && Legal(s, steps) && Within(s, steps, waiters)
    ensures NestWithin(After(s, steps), waiters)
    decreases |steps|
  {
    if steps != [] {
      Keeps(s, steps[0]);
      if steps[0].Take? {
        TakeKeepsWithin(s, waiters);
      } else {
        OthersKeepWithin(s, steps[0], waiters);
      }
      RunWithin(Apply(s, steps[0]), steps[1..], waiters);
    }
  }

  lemma WithinIsReachable(s: State, waiters: iset<nat>)
    requires ReachableWithin(s, waiters)
    ensures Reachable(s)
  {
    var steps: seq<Step> :|
      Legal(Initial(), steps) && Within(Initial(), steps, waiters) && s == After(Initial(), steps);
  }

  lemma WithinInv(s: State, waiters: iset<nat>)
    requires ReachableWithin(s, waiters)
    ensures NestWithin(s, waiters)
  {
    var steps: seq<Step> :|
      Legal(Initial(), steps) && Within(Initial(), steps, waiters) && s == After(Initial(), steps);
    InitialInv();
    RunWithin(Initial(), steps, waiters);
  }

  // ------------------------------------------------------------------ when an await is exact

  /** The await returned the first event of its path after it began, and consumed nothing behind it. */
  ghost predicate Exact(s: State, r: Result) {
    && r.start <= r.found && r.end == r.found + 1 <= |s.dispatched|
    && s.dispatched[r.found].path == r.path
    && (forall i :: r.start <= i < r.found ==> s.dispatched[i].path != r.path)
  }

  /** In a run within waiters, an await of the path has returned. */
  ghost predicate Returns(s: State, r: Result, path: nat, waiters: iset<nat>) {
    ReachableWithin(s, waiters) && r in s.results && r.path == path
  }

  /** Where an await passed over an event of its path, or took one behind it, a handler waited earlier. */
  lemma InexactIsOpened(s: State, r: Result, i: nat, waiters: iset<nat>)
    requires ReachableWithin(s, waiters) && r in s.results
    requires r.start <= i < |s.dispatched|
    requires (i < r.found && s.dispatched[i].path == r.path) || r.found < i < r.end
    ensures Opened(s, waiters, r.id, r.start, i)
  {
    WithinInv(s, waiters);
    WithinIsReachable(s, waiters);
    AwaitReturnsFirst(s, r);
    var n :| 0 <= n < |s.results| && s.results[n] == r;
    assert Excused(s, waiters, s.results[n].id, s.results[n].start, s.results[n].end);
  }

  /**
   * If, of the events up to the one it returns, none has handlers that wait, then an await has
   * returned the first event of its path and has consumed nothing behind it.
   */
  lemma AwaitIsExact(s: State, r: Result, waiters: iset<nat>)
    requires ReachableWithin(s, waiters) && r in s.results
    requires forall i :: r.start <= i <= r.found && i < |s.dispatched| ==> s.dispatched[i].path !in waiters
    ensures Exact(s, r)
  {
    WithinIsReachable(s, waiters);
    AwaitReturnsFirst(s, r);
    if r.end != r.found + 1 {
      InexactIsOpened(s, r, r.found + 1, waiters);
    }
    forall i | r.start <= i < r.found
      ensures s.dispatched[i].path != r.path
    {
      if s.dispatched[i].path == r.path {
        InexactIsOpened(s, r, i, waiters);
      }
    }
  }

  // ------------------------------------------------------------------ runs in which it is not

  /** Of these events only the last is of the path. */
  ghost predicate EndsInFirst(events: seq<Event>, path: nat) {
    && events != [] && events[|events| - 1].path == path
    && (forall i :: 0 <= i < |events| - 1 ==> events[i].path != path)
  }

  function Waiting(mailbox: seq<Event>): State { State(mailbox, mailbox, [], [], [], {}, false, [], 0, []) }

  lemma {:induction false} Filled(events: seq<Event>, waiters: iset<nat>)
    ensures ReachableWithin(Waiting(events), waiters)
  {
    if events == [] {
      InitialWithin(waiters);
    } else {
      var init, last := events[..|events| - 1], events[|events| - 1];
      Filled(init, waiters);
      assert init + [last] == events;
      var s := Go(Waiting(init), Arrive(last), waiters);
    }
  }

  /** The events go from the mailbox to the dispatched ones; nothing else that matters changes. */
  ghost predicate Passed(s: State, s': State, events: seq<Event>) {
    && events <= s.mailbox && s'.mailbox == s.mailbox[|events|..] && s'.dispatched == s.dispatched + events
    && s'.arrived == s.arrived && s'.loops == s.loops && s'.results == s.results && s'.made == s.made
    && s'.thrown == s.thrown
  }

  /** An event that nobody awaits is dispatched. */
  lemma TakesOne(s: State, waiters: iset<nat>) returns (s': State)
    requires ReachableWithin(s, waiters) && Enabled(s, Take) && !Awaited(s, s.mailbox[0].path)
    ensures ReachableWithin(s', waiters) && Passed(s, s', s.mailbox[..1])
  {
    var s1 := Go(s, Take, waiters);
    assert CurrentPath(s1, |s1.loops| - 1) == Some(s.mailbox[0].path);
    SameAwaited(s, s1, s.mailbox[0].path);
    s' := Go(s1, End, waiters);
    assert s'.loops == s.loops;
  }

  lemma SameAwaited(s: State, s': State, path: nat)
    requires |s'.loops| == |s.loops| && !Awaited(s, path)
    requires forall k :: 0 <= k < |s.loops| ==>
               s'.loops[k].wait == s.loops[k].wait && (s'.loops[k].condition <==> s.loops[k].condition)
    ensures !Awaited(s', path)
  {
    forall k | 0 <= k < |s.loops|
      ensures !Unsatisfied(s', k, path)
    {
      assert !Unsatisfied(s, k, path);
    }
  }

  /** The innermost loop dispatches events that nobody awaits. */
  lemma {:induction false} TakesAll(s: State, events: seq<Event>, waiters: iset<nat>) returns (s': State)
    requires ReachableWithin(s, waiters) && InLoop(s) && !Top(s).wait.Drain? && !Top(s).condition
    requires events <= s.mailbox && forall i :: 0 <= i < |events| ==> !Awaited(s, events[i].path)
    ensures ReachableWithin(s', waiters) && Passed(s, s', events)
    decreases |events|
  {
    if events == [] {
      s' := s;
    } else {
      assert s.mailbox[0] == events[0];
      var s1 := TakesOne(s, waiters);
      assert s1.mailbox == s.mailbox[1..];
      forall i | 0 <= i < |events[1..]|
        ensures !Awaited(s1, events[1..][i].path)
      {
        SameAwaited(s, s1, events[1 + i].path);
      }
      s' := TakesAll(s1, events[1..], waiters);
      assert events == s.mailbox[..1] + events[1..];
    }
  }

  /**
   * Loop 0 awaits `path` and is dispatching event m, whose handler, loop 1, awaits `other`; found
   * is the event that loop 0 was given.
   */
  ghost predicate HandlerWaits(
    s: State, waiters: iset<nat>, arrived: seq<Event>, path: nat, other: nat, m: nat, found: Option<nat>)
  {
    && ReachableWithin(s, waiters) && s.arrived == arrived && s.results == [] && m < |s.dispatched|
    && s.loops == [Loop(0, Path(path), 0, found.Some?, found, Some(m)),
                   Loop(1, Path(other), m + 1, false, None, None)]
  }

  /** Loop 0 takes the events up to m, and the handler of m begins to wait. */
  lemma BeginsToWait(events: seq<Event>, path: nat, other: nat, m: nat, waiters: iset<nat>) returns (s: State)
    requires m < |events| && events[m].path in waiters && events[m].path != other
    requires forall i :: 0 <= i < m ==> events[i].path != path
    ensures HandlerWaits(s, waiters, events, path, other, m, None)
    ensures s.dispatched == events[..m + 1] && s.mailbox == events[m + 1..] && s.thrown == {}
  {
    Filled(events, waiters);
    var s1 := Go(Waiting(events), Begin(Path(path)), waiters);
    var s2 := TakesAll(s1, events[..m], waiters);
    assert s2.mailbox == events[m..] && s2.dispatched == events[..m];
    s := WaitsInside(s2, path, other, waiters);
    assert s.dispatched == events[..m + 1] && s.mailbox == events[m + 1..];
  }

  /** Loop 0 takes an event, and its handler begins to wait. */
  lemma WaitsInside(s: State, path: nat, other: nat, waiters: iset<nat>) returns (s': State)
    requires ReachableWithin(s, waiters) && s.loops == [Loop(0, Path(path), 0, false, None, None)] && s.made == 1
    requires s.mailbox != [] && s.mailbox[0].path in waiters && s.mailbox[0].path != other && s.results == []
    ensures HandlerWaits(s', waiters, s.arrived, path, other, |s.dispatched|, None) && s'.thrown == s.thrown
    ensures s'.dispatched == s.dispatched + s.mailbox[..1] && s'.mailbox == s.mailbox[1..]
  {
    var s1 := Go(s, Take, waiters);
    assert CurrentPath(s1, 0) == Some(s.mailbox[0].path);
    s' := Go(s1, Begin(Path(other)), waiters);
  }

  /** Loop 1 takes an event of the path that loop 0 awaits. */
  lemma NoticesOuter(s: State, waiters: iset<nat>, arrived: seq<Event>, path: nat, other: nat, m: nat)
    returns (s': State)
    requires HandlerWaits(s, waiters, arrived, path, other, m, None) && path != other
    requires s.dispatched[m].path != path && s.mailbox != [] && s.mailbox[0].path == path
    ensures HandlerWaits(s', waiters, arrived, path, other, m, Some(|s.dispatched|))
    ensures s'.dispatched == s.dispatched + s.mailbox[..1] && s'.mailbox == s.mailbox[1..]
  {
    assert CurrentPath(s, 0) == Some(s.dispatched[m].path);
    var s1 := Go(s, Take, waiters);
    assert CurrentPath(s1, 1) == Some(path) && Unsatisfied(s1, 0, path);
    var s2 := Go(s1, Notice(0), waiters);
    assert CurrentPath(s2, 1) == Some(path) && !Awaited(s2, path);
    s' := Go(s2, End, waiters);
  }

  /** Loop 1 takes the event it awaits and returns to the handler of event m. */
  lemma HandlerReturns(
    s: State, waiters: iset<nat>, arrived: seq<Event>, path: nat, other: nat, m: nat, found: Option<nat>)
    returns (s': State)
    requires HandlerWaits(s, waiters, arrived, path, other, m, found) && path != other
    requires s.dispatched[m].path != other && |s.mailbox| == 1 && s.mailbox[0].path == other
    ensures ReachableWithin(s', waiters) && s'.arrived == arrived && s'.mailbox == []
    ensures s'.dispatched == s.dispatched + s.mailbox
    ensures s'.loops == [Loop(0, Path(path), 0, found.Some?, found, Some(m))]
  {
    assert CurrentPath(s, 0) == Some(s.dispatched[m].path);
    var s1 := Go(s, Take, waiters);
    assert CurrentPath(s1, 1) == Some(other) && Unsatisfied(s1, 1, other);
    var s2 := Go(s1, Notice(1), waiters);
    assert CurrentPath(s2, 1) == Some(other) && !Awaited(s2, other);
    var s3 := Go(s2, End, waiters);
    s' := Go(s3, Return, waiters);
    assert s'.loops == [s.loops[0]];
  }

  /** The handler of event m ends, and only now does loop 0 look at its condition. */
  lemma OuterReturns(s: State, waiters: iset<nat>, path: nat, m: nat, found: Option<nat>) returns (s': State)
    requires ReachableWithin(s, waiters) && s.loops == [Loop(0, Path(path), 0, found.Some?, found, Some(m))]
    requires m < |s.dispatched| && (found.None? ==> s.dispatched[m].path == path)
    ensures ReachableWithin(s', waiters) && s'.loops == [] && s'.arrived == s.arrived && s'.mailbox == s.mailbox
    ensures s'.dispatched == s.dispatched && s'.thrown == s.thrown
    ensures Result(0, path, 0, if found.Some? then found.value else m, |s.dispatched|) in s'.results
  {
    var s1 := s;
    assert CurrentPath(s, 0) == Some(s.dispatched[m].path);
    if found.None? {
      assert Unsatisfied(s, 0, path);
      s1 := Go(s, Notice(0), waiters);
    }
    assert CurrentPath(s1, 0) == Some(s.dispatched[m].path) && !Awaited(s1, s.dispatched[m].path);
    var s2 := Go(s1, End, waiters);
    s' := Go(s2, Return, waiters);
    assert s'.results[|s'.results| - 1] ==
           Result(0, path, 0, if found.Some? then found.value else m, |s.dispatched|);
  }

  lemma WaitingTakes(
    s: State, events: seq<Event>, waiters: iset<nat>, arrived: seq<Event>, path: nat, other: nat, m: nat,
    found: Option<nat>) returns (s': State)
    requires HandlerWaits(s, waiters, arrived, path, other, m, found) && events <= s.mailbox
    requires forall i :: 0 <= i < |events| ==> events[i].path != path && events[i].path != other
    ensures HandlerWaits(s', waiters, arrived, path, other, m, found) && Passed(s, s', events)
  {
    s' := TakesAll(s, events, waiters);
    assert s'.dispatched[m] == s.dispatched[m];
  }

  /**
   * Whenever, of the events up to the first of the path, some event's handler waits, the await can
   * consume any further events behind it: that handler awaits the last of them.
   */
  lemma AwaitCanOverrun(
    events: seq<Event>, path: nat, m: nat, extra: seq<Event>, last: Event, waiters: iset<nat>) returns (s: State)
    requires EndsInFirst(events, path) && m < |events| && events[m].path in waiters
    requires forall i :: 0 <= i < |extra| ==> extra[i].path != path
    requires last.path != path && forall e :: e in events || e in extra ==> e.path != last.path
    ensures ReachableWithin(s, waiters)
    ensures s.arrived == events + extra + [last] && s.mailbox == [] && s.loops == []
    ensures Result(0, path, 0, |events| - 1, |events| + |extra| + 1) in s.results
  {
    var n, arrived, rest := |events| - 1, events + extra + [last], extra + [last];
    assert arrived == events + rest && arrived[..n + 1] == events && arrived[n + 1..] == rest;
    var s1 := BeginsToWait(arrived, path, last.path, m, waiters);
    var s2, found := s1, None;
    if m < n {
      s2 := AwaitsMeanwhile(s1, events, path, m, rest, waiters);
      found := Some(n);
    }
    assert s2.mailbox == rest && s2.dispatched == events;
    var s3 := WaitingTakes(s2, extra, waiters, arrived, path, last.path, m, found);
    assert rest[|extra|..] == [last] && s3.mailbox == [last] && s3.dispatched == events + extra;
    var s4 := HandlerReturns(s3, waiters, arrived, path, last.path, m, found);
    assert s4.dispatched == arrived;
    s := OuterReturns(s4, waiters, path, m, found);
  }

  /** The handler of event m is not the first of the path, and takes the events up to that one. */
  lemma AwaitsMeanwhile(s: State, events: seq<Event>, path: nat, m: nat, rest: seq<Event>, waiters: iset<nat>)
    returns (s': State)
    requires EndsInFirst(events, path) && m < |events| - 1
    requires rest != [] && rest[|rest| - 1].path != path && forall e :: e in events ==> e.path != rest[|rest| - 1].path
    requires HandlerWaits(s, waiters, events + rest, path, rest[|rest| - 1].path, m, None)
    requires s.dispatched == events[..m + 1] && s.mailbox == (events + rest)[m + 1..]
    ensures HandlerWaits(s', waiters, events + rest, path, rest[|rest| - 1].path, m, Some(|events| - 1))
    ensures s'.dispatched == events && s'.mailbox == rest
  {
    var n, other := |events| - 1, rest[|rest| - 1].path;
    assert s.mailbox == events[m + 1..n] + ([events[n]] + rest);
    var s1 := WaitingTakes(s, events[m + 1..n], waiters, events + rest, path, other, m, None);
    assert s1.mailbox == [events[n]] + rest && s1.dispatched == events[..n];
    s' := NoticesOuter(s1, waiters, events + rest, path, other, m);
    assert s'.dispatched == events;
  }

  // ------------------------------------------------------------------ exactly when it is

  /** The await consumed exactly these events, of which only the last is of its path, and returned it. */
  ghost predicate Consumed(s: State, r: Result, events: seq<Event>) {
    && r.start <= r.end <= |s.dispatched| && s.dispatched[r.start..r.end] == events
    && r.found + 1 == r.end
  }

  /** Every await of the path that finds these events waiting, or is sent them, consumes exactly these. */
  ghost predicate AlwaysConsumed(path: nat, events: seq<Event>, waiters: iset<nat>) {
    forall s, r :: Returns(s, r, path, waiters) && r.start <= |s.arrived| && events <= s.arrived[r.start..] ==>
      Consumed(s, r, events)
  }

  /**
   * Awaits of a path consume exactly the events up to the first of the path, in every run, if and
   * only if none of these events has a handler that waits.
   */
  lemma ConsumesExactlyWhen(path: nat, events: seq<Event>, waiters: iset<nat>)
    requires EndsInFirst(events, path)
    ensures AlwaysConsumed(path, events, waiters) <==>
            forall i :: 0 <= i < |events| ==> events[i].path !in waiters
  {
    if forall i :: 0 <= i < |events| ==> events[i].path !in waiters {
      forall s, r | Returns(s, r, path, waiters) && r.start <= |s.arrived| && events <= s.arrived[r.start..]
        ensures Consumed(s, r, events)
      {
        ConsumesPrefix(s, r, events, waiters);
      }
    } else {
      var m :| 0 <= m < |events| && events[m].path in waiters;
      ConsumesMore(path, events, m, waiters);
    }
  }

  lemma AreConsumed(s: State, r: Result, events: seq<Event>)
    requires Reachable(s) && r.start <= |s.arrived| && events <= s.arrived[r.start..]
    ensures forall i :: r.start <= i < r.start + |events| && i < |s.dispatched| ==>
              s.dispatched[i] == events[i - r.start]
  {
    ConsumedIsPrefix(s);
    forall i | r.start <= i < r.start + |events| && i < |s.dispatched|
      ensures s.dispatched[i] == events[i - r.start]
    {
      assert s.dispatched[i] == s.arrived[r.start..][i - r.start];
    }
  }

  lemma ConsumesPrefix(s: State, r: Result, events: seq<Event>, waiters: iset<nat>)
    requires Returns(s, r, r.path, waiters) && EndsInFirst(events, r.path)
    requires r.start <= |s.arrived| && events <= s.arrived[r.start..]
    requires forall i :: 0 <= i < |events| ==> events[i].path !in waiters
    ensures Consumed(s, r, events)
  {
    WithinIsReachable(s, waiters);
    AwaitReturnsFirst(s, r);
    AreConsumed(s, r, events);
    if r.start + |events| - 1 < r.found {
      InexactIsOpened(s, r, r.start + |events| - 1, waiters);
    }
    AwaitIsExact(s, r, waiters);
    assert s.dispatched[r.start..r.end] == events;
  }

  /** An event of a path that none of these has. */
  lemma AnotherPath(events: seq<Event>) returns (e: Event)
    ensures forall x :: x in events ==> x.path < e.path
  {
    if events == [] {
      e := Tasks.Event(0, 0);
    } else {
      e := AnotherPath(events[1..]);
      e := Tasks.Event(e.path + events[0].path + 1, 0);
      assert forall x :: x in events ==> x == events[0] || x in events[1..];
    }
  }

  lemma ConsumesMore(path: nat, events: seq<Event>, m: nat, waiters: iset<nat>)
    requires EndsInFirst(events, path) && m < |events| && events[m].path in waiters
    ensures !AlwaysConsumed(path, events, waiters)
  {
    var last := AnotherPath(events);
    assert events[|events| - 1] in events;
    var s := AwaitCanOverrun(events, path, m, [], last, waiters);
    var r := Result(0, path, 0, |events| - 1, |events| + 1);
    assert s.arrived == events + [last];
    assert Returns(s, r, path, waiters) && events <= s.arrived[r.start..] && !Consumed(s, r, events);
  }

  /**
   * Every await of a path, in every run, is exact if and only if no handlers wait, whatever the path
   * of their events; and so is that it consumes nothing behind the event it returns.
   */
  lemma ExactExactlyWhen(path: nat, waiters: iset<nat>)
    ensures (forall s, r :: Returns(s, r, path, waiters) ==> Exact(s, r)) <==> forall w :: w !in waiters
    ensures (forall s, r :: Returns(s, r, path, waiters) ==> r.end == r.found + 1) <==> forall w :: w !in waiters
  {
    if w :| w in waiters {
      var e := Tasks.Event(path, 0);
      var events := if w == path then [e] else [Tasks.Event(w, 0), e];
      var last := AnotherPath(events);
      assert e in events;
      var s := AwaitCanOverrun(events, path, 0, [], last, waiters);
      var r := Result(0, path, 0, |events| - 1, |events| + 1);
      assert Returns(s, r, path, waiters) && !Exact(s, r) && r.end != r.found + 1;
    } else {
      forall s, r | Returns(s, r, path, waiters)
        ensures Exact(s, r)
      {
        AwaitIsExact(s, r, waiters);
      }
    }
  }

  // ------------------------------------------------------------------ missing the first event

  /** The await returned the first event of its path that was dispatched after it began. */
  ghost predicate FoundFirst(s: State, r: Result) {
    && r.start <= r.found < |s.dispatched| && s.dispatched[r.found].path == r.path
    && (forall i :: r.start <= i < r.found ==> s.dispatched[i].path != r.path)
  }

  /**
   * With B, A1, A2 in the mailbox, an await of A whose B handler awaits something else, and catches
   * the exception that another handler of A throws before the await's own is executed, returns A2.
   */
  lemma AwaitCanMiss(b: Event, a1: Event, a2: Event, waiters: iset<nat>) returns (s: State)
    requires a1.path == a2.path != b.path && b.path in waiters
    ensures ReachableWithin(s, waiters) && s.arrived == [b, a1, a2] && s.mailbox == [] && s.loops == []
    ensures Result(0, a1.path, 0, 2, 3) in s.results && s.thrown == {1}
    ensures s.dispatched == [b, a1, a2]
  {
    var events, path, other := [b, a1, a2], a1.path, a1.path + b.path + 1;
    var s1 := BeginsToWait(events, path, other, 0, waiters);
    assert s1.dispatched == [b] && s1.mailbox == [a1, a2];
    var s2 := ThrowsInside(s1, waiters, events, path, other, 0);
    assert s2.dispatched == [b, a1] && s2.mailbox == [a2];
    var s3 := Go(s2, Take, waiters);
    assert s3.dispatched == [b, a1, a2];
    s := OuterReturns(s3, waiters, path, 2, None);
  }

  /** A handler of the event that loop 1 takes throws, and the handler of event m catches and ends. */
  lemma ThrowsInside(s: State, waiters: iset<nat>, arrived: seq<Event>, path: nat, other: nat, m: nat)
    returns (s': State)
    requires HandlerWaits(s, waiters, arrived, path, other, m, None)
    requires s.dispatched[m].path != path && s.mailbox != [] && s.mailbox[0].path != s.dispatched[m].path
    ensures ReachableWithin(s', waiters) && s'.arrived == arrived
    ensures s'.loops == [Loop(0, Path(path), 0, false, None, None)] && s'.thrown == s.thrown + {|s.dispatched|}
    ensures s'.dispatched == s.dispatched + s.mailbox[..1] && s'.mailbox == s.mailbox[1..]
  {
    assert CurrentPath(s, 0) == Some(s.dispatched[m].path);
    var s1 := Go(s, Take, waiters);
    var s2 := Go(s1, Throw, waiters);
    assert s2.loops == [s.loops[0]] && CurrentPath(s2, 0) == Some(s.dispatched[m].path);
    assert !Awaited(s2, s.dispatched[m].path);
    s' := Go(s2, End, waiters);
  }

  /**
   * Every await of a path, in every run, returns the first event of the path if and only if no
   * handlers wait but those of the path itself.
   */
  lemma FoundFirstExactlyWhen(path: nat, waiters: iset<nat>)
    ensures (forall s, r :: Returns(s, r, path, waiters) ==> FoundFirst(s, r)) <==>
            forall w :: w in waiters ==> w == path
  {
    if w :| w in waiters && w != path {
      var e := Tasks.Event(path, 0);
      var s := AwaitCanMiss(Tasks.Event(w, 0), e, e, waiters);
      var r := Result(0, path, 0, 2, 3);
      assert s.dispatched[1].path == path;
      assert Returns(s, r, path, waiters) && !FoundFirst(s, r);
    } else {
      forall s, r | Returns(s, r, path, waiters)
        ensures FoundFirst(s, r)
      {
        FindsFirst(s, r, waiters);
      }
    }
  }

  lemma FindsFirst(s: State, r: Result, waiters: iset<nat>)
    requires ReachableWithin(s, waiters) && r in s.results && forall w :: w in waiters ==> w == r.path
    ensures FoundFirst(s, r)
  {
    WithinIsReachable(s, waiters);
    AwaitReturnsFirst(s, r);
    forall i | r.start <= i < r.found
      ensures s.dispatched[i].path != r.path
    {
      if s.dispatched[i].path == r.path {
        // the loop took an event of the path before, and returned all the same
        InexactIsOpened(s, r, i, waiters);
      }
    }
  }
}
