/**
 * The loops of context.cpp as code: processUntil, process, and the dispatch between them, which
 * runs handlers that may call either of them again.  Every state they go through is a reachable
 * state of the machine, so what holds of every run holds of them.
 */
module EventLoops {
  import opened Options
  import opened Events

  /**
   * What the code does not decide: the events other threads send, the IO callbacks, and what each
   * handler does next.
   */
  datatype Move =
    | Arriving(event: Event)
    | Completing(k: nat)
    | Awaiting(wait: Wait)
    | Noticing(k: nat)
    | Stopping
    | Returning
    | Throwing

  /** How a call ends; Stuck: nothing further happens, or handlers of one event would overlap. */
  datatype Ending = Ended | Threw | Stuck

  /** The lowest n loops are the same calls, at the same events, as before. */
  ghost predicate Kept(a: State, b: State, n: nat)
    requires n <= |a.loops|
  {
    n <= |b.loops| && a.dispatched <= b.dispatched && a.results <= b.results && a.thrown <= b.thrown
    && forall k :: 0 <= k < n ==>
         b.loops[k].id == a.loops[k].id && b.loops[k].wait == a.loops[k].wait
         && b.loops[k].start == a.loops[k].start && b.loops[k].current == a.loops[k].current
  }

  lemma KeptTwice(a: State, b: State, c: State, n: nat)
    requires n <= |a.loops| && n <= |b.loops| && Kept(a, b, n) && Kept(b, c, n)
    ensures Kept(a, c, n)
  {
  }

  /** How many loops a step leaves alone, but for their conditions. */
  function Untouched(s: State, step: Step): nat
    requires Enabled(s, step)
  {
    if step.Arrive? || step.Complete? || step.Notice? || step.Stop? || step.Begin? then |s.loops| else |s.loops| - 1
  }

  lemma StepKeeps(s: State, step: Step)
    requires Enabled(s, step)
    ensures Kept(s, Apply(s, step), Untouched(s, step))
  {
  }

  lemma Satisfied(s: State, x: State, k: nat, path: nat)
    requires s.loops != [] && CurrentPath(s, |s.loops| - 1) == Some(path)
    requires x == if Enabled(s, Notice(k)) then Apply(s, Notice(k)) else s
    ensures forall j: nat :: Unsatisfied(x, j, path) ==> Unsatisfied(s, j, path) && j != k
  {
  }

  /** The events that other threads are still to send. */
  function Coming(moves: seq<Move>): seq<Event> {
    if moves == [] then []
    else if moves[0].Arriving? then [moves[0].event] + Coming(moves[1..])
    else Coming(moves[1..])
  }

  predicate Plain(m: Move) { m.Arriving? || m.Completing? || m.Noticing? || m.Stopping? }

  /** The step that a move stands for. */
  function StepOf(m: Move): Step
    requires Plain(m)
  {
    match m
    case Arriving(e) => Arrive(e)
    case Completing(k) => Complete(k)
    case Noticing(k) => Notice(k)
    case Stopping => Stop
  }

  lemma CurrentIsDispatched(s: State)
    requires Reachable(s) && s.loops != [] && Top(s).current.Some?
    ensures CurrentPath(s, |s.loops| - 1).Some?
  {
    ReachableInv(s);
  }

  class EventLoop {
    var s: State
    var moves: seq<Move>

    /** The events sent so far and those still to come, in order. */
    ghost function Sent(): seq<Event>
      reads this
    {
      s.arrived + Coming(moves)
    }

    ghost predicate Valid()
      reads this
    {
      Reachable(s)
    }

    constructor (moves: seq<Move>)
      ensures Valid() && s == Initial()
    {
      s := Initial();
      this.moves := moves;
      InitialReachable();
    }

    method Do(step: Step)
      requires Valid() && Enabled(s, step)
      modifies this`s
      ensures Valid() && s == Apply(old(s), step) && Kept(old(s), s, Untouched(old(s), step))
    {
      ReachableStep(s, step);
      StepKeeps(s, step);
      s := Apply(s, step);
    }

    method Next() returns (m: Move)
      requires moves != []
      modifies this`moves
      ensures m == old(moves[0]) && moves == old(moves[1..])
      ensures Coming(old(moves)) == if m.Arriving? then [m.event] + Coming(moves) else Coming(moves)
    {
      m := moves[0];
      moves := moves[1..];
    }

    /** Events sent while the lock is free. */
    method Arrivals()
      requires Valid()
      modifies this
      ensures Valid() && |moves| <= |old(moves)| && Sent() == old(Sent())
      ensures s == old(s).(mailbox := s.mailbox, arrived := s.arrived)
    {
      while moves != [] && moves[0].Arriving?
        invariant Valid() && |moves| <= |old(moves)| && Sent() == old(Sent())
        invariant s == old(s).(mailbox := s.mailbox, arrived := s.arrived)
        decreases |moves|
      {
        var m := Next();
        Do(Arrive(m.event));
      }
    }

    /** suspend(): the task is resumed for some reason, or sleeps for good. */
    method Sleep() returns (woken: bool)
      requires Valid()
      modifies this
      ensures Valid() && woken == (old(moves) != []) && |moves| <= |old(moves)| && (woken ==> |moves| < |old(moves)|)
      ensures |s.loops| == |old(s.loops)| && Kept(old(s), s, |s.loops|) && Sent() == old(Sent())
      ensures woken && (old(moves[0]).Arriving? || old(moves[0]).Completing?) ==>
                Enabled(old(s), StepOf(old(moves[0]))) ==> s == Apply(old(s), StepOf(old(moves[0])))
    {
      woken := moves != [];
      if woken {
        var m := Next();
        if m.Arriving? {
          Do(Arrive(m.event));
        } else if m.Completing? && Enabled(s, Complete(m.k)) {
          Do(Complete(m.k));
        }
      }
    }

    /** The await handler of loop k is executed, unless its loop has its event already. */
    method NoticeAt(k: nat, ghost path: nat)
      requires Valid() && s.loops != [] && CurrentPath(s, |s.loops| - 1) == Some(path)
      modifies this`s
      ensures Valid() && |s.loops| == |old(s.loops)| && Kept(old(s), s, |s.loops|) && s.arrived == old(s.arrived)
      ensures CurrentPath(s, |s.loops| - 1) == Some(path)
      ensures forall j: nat :: Unsatisfied(s, j, path) ==> Unsatisfied(old(s), j, path) && j != k
    {
      Satisfied(s, if Enabled(s, Notice(k)) then Apply(s, Notice(k)) else s, k, path);
      if Enabled(s, Notice(k)) {
        Do(Notice(k));
      }
    }

    /** The await handlers of the event that have not been executed yet. */
    method NoticeRest()
      requires Valid() && s.loops != [] && Top(s).current.Some?
      modifies this`s
      ensures Valid() && Enabled(s, End) && s.arrived == old(s.arrived)
      ensures |s.loops| == |old(s.loops)| && Kept(old(s), s, |s.loops|)
    {
      CurrentIsDispatched(s);
      ghost var path := CurrentPath(s, |s.loops| - 1).value;
      for k := 0 to |s.loops|
        invariant Valid() && |s.loops| == |old(s.loops)| && Kept(old(s), s, |s.loops|)
        invariant CurrentPath(s, |s.loops| - 1) == Some(path) && s.arrived == old(s.arrived)
        invariant forall j :: 0 <= j < k ==> !Unsatisfied(s, j, path)
      {
        ghost var was := s;
        NoticeAt(k, path);
        KeptTwice(old(s), was, s, |s.loops|);
      }
    }

    /** A move that neither begins a loop nor ends the handlers; one that is not possible does nothing. */
    method Perform(m: Move)
      requires Valid() && Plain(m) && s.loops != [] && Top(s).current.Some?
      modifies this`s
      ensures Valid() && s == if Enabled(old(s), StepOf(m)) then Apply(old(s), StepOf(m)) else old(s)
      ensures |s.loops| == |old(s.loops)| && Kept(old(s), s, |s.loops|)
      ensures s.arrived == old(s.arrived) + if m.Arriving? then [m.event] else []
    {
      var step := match m
        case Arriving(e) => Arrive(e)
        case Completing(k) => Complete(k)
        case Noticing(k) => Notice(k)
        case _ => Stop;
      if Enabled(s, step) {
        Do(step);
      }
    }

    /** A handler begins a loop of its own, if it can. */
    method Wait(w: Wait) returns (end: Ending)
      requires Valid() && s.loops != [] && Top(s).current.Some?
      modifies this
      ensures Valid() && |moves| <= |old(moves)|
      ensures !end.Stuck? ==> |s.loops| == |old(s.loops)| && Kept(old(s), s, |s.loops|)
      ensures Sent() == old(Sent()) && (end.Stuck? ==> moves == [] || Overlap(s))
      ensures end.Ended? && Enabled(old(s), Begin(w)) && w.Path? ==> |s.results| > |old(s.results)|
      ensures end.Ended? && Enabled(old(s), Begin(w)) && w.Drain? ==> s.mailbox == [] || s.stopped
      decreases |moves|, 4
    {
      if !Enabled(s, Begin(w)) {
        end := Ended;
      } else if w.Drain? {
        end := Process();
      } else {
        end := ProcessUntil(w);
      }
    }

    /** The handlers of the event being dispatched. */
    method Handlers() returns (end: Ending)
      requires Valid() && s.loops != [] && Top(s).current.Some?
      modifies this
      ensures Valid() && |moves| <= |old(moves)| && (!end.Stuck? ==> |moves| < |old(moves)|)
      ensures !end.Stuck? ==> |s.loops| == |old(s.loops)| && Kept(old(s), s, |s.loops|)
      ensures end.Ended? ==> Enabled(s, End)
      ensures Sent() == old(Sent()) && (end.Stuck? ==> moves == [] || Overlap(s))
      decreases |moves|, 0
    {
      while moves != []
        invariant Valid() && |moves| <= |old(moves)|
        invariant |s.loops| == |old(s.loops)| && Kept(old(s), s, |s.loops|) && Sent() == old(Sent())
        decreases |moves|
      {
        var m := Next();
        match m
        case Awaiting(w) =>
          // an exception from the nested loop is caught here, or thrown on by a later move
          ghost var was := s;
          end := Wait(w);
          if end.Stuck? {
            return;
          }
          KeptTwice(old(s), was, s, |s.loops|);
        case Returning =>
          NoticeRest();
          return Ended;
        case Throwing =>
          return Threw;
        case _ =>
          ghost var was := s;
          Perform(m);
          KeptTwice(old(s), was, s, |s.loops|);
      }
      end := Stuck;
    }

    /** One event: its handlers, and its payload freed on the normal path or in the catch block. */
    method Dispatch() returns (end: Ending)
      requires Valid() && Enabled(s, Take)
      modifies this
      ensures Valid() && |moves| <= |old(moves)| && (!end.Stuck? ==> |moves| < |old(moves)|)
      ensures !end.Stuck? ==> Kept(old(s), s, |old(s.loops)| - 1) && |old(s.dispatched)| in s.freed
      ensures end.Ended? ==> |s.loops| == |old(s.loops)| && Kept(old(s), s, |s.loops|)
      ensures end.Threw? ==> |s.loops| == |old(s.loops)| - 1 && |old(s.dispatched)| in s.thrown
      ensures Sent() == old(Sent()) && (end.Stuck? ==> moves == [] || Overlap(s))
      decreases |moves|, 1
    {
      Do(Take);
      end := Handlers();
      if end.Threw? {
        Do(Throw);
      } else if end.Ended? {
        Do(End);
      }
    }

    /** The inner loop of processUntil: all pending events, or until the condition is triggered. */
    method ProcessPending() returns (end: Ending)
      requires Valid() && InLoop(s) && !Top(s).wait.Drain? && !Top(s).condition
      modifies this
      ensures Valid() && |moves| <= |old(moves)|
      ensures end.Ended? ==> |s.loops| == |old(s.loops)| && Kept(old(s), s, |s.loops|)
      ensures end.Ended? ==> Top(s).condition || s.mailbox == []
      ensures end.Threw? ==> |s.loops| == |old(s.loops)| - 1 && Kept(old(s), s, |s.loops|)
      ensures Sent() == old(Sent()) && (end.Stuck? ==> moves == [] || Overlap(s))
      decreases |moves|, 2
    {
      Arrivals();
      while s.mailbox != []
        invariant Valid() && |moves| <= |old(moves)|
        invariant |s.loops| == |old(s.loops)| && Kept(old(s), s, |s.loops|) && !Top(s).condition
        invariant Sent() == old(Sent())
        decreases |moves|
      {
        if !Enabled(s, Take) {
          return Stuck;
        }
        ghost var was := s;
        end := Dispatch();
        if !end.Stuck? {
          KeptTwice(old(s), was, s, |s.loops|);
        }
        if !end.Ended? {
          return;
        }
        // short-circuit when the condition is triggered
        if Top(s).condition {
          return;
        }
        Arrivals();
      }
      end := Ended;
    }

    /** processUntil, called by Event::await or for an IO request. */
    method ProcessUntil(wait: Wait) returns (end: Ending)
      requires Valid() && !wait.Drain? && Enabled(s, Begin(wait))
      modifies this
      ensures Valid() && |moves| <= |old(moves)|
      ensures !end.Stuck? ==> |s.loops| == |old(s.loops)| && Kept(old(s), s, |s.loops|)
      ensures end.Ended? && wait.Path? ==>
                |s.results| > |old(s.results)|
                && var r := s.results[|s.results| - 1];
                   r.path == wait.path && r.start == |old(s.dispatched)| && r.end == |s.dispatched| && ResultOk(s, r)
      ensures Sent() == old(Sent()) && (end.Stuck? ==> moves == [] || Overlap(s))
      decreases |moves|, 3
    {
      ghost var n := |s.loops|;
      Do(Begin(wait));
      ghost var begun := s;
      while !Top(s).condition
        invariant Valid() && |moves| <= |old(moves)|
        invariant |s.loops| == n + 1 && Kept(begun, s, n + 1) && Sent() == old(Sent())
        decreases |moves|, if Top(s).condition then 0 else 1
      {
        ghost var was := s;
        end := ProcessPending();
        if end.Threw? {
          KeptTwice(begun, was, s, n);
          KeptTwice(old(s), begun, s, n);
        }
        if !end.Ended? {
          return;
        }
        KeptTwice(begun, was, s, n + 1);
        if !Top(s).condition {
          // no more events, the task suspends
          was := s;
          var woken := Sleep();
          if !woken {
            return Stuck;
          }
          KeptTwice(begun, was, s, n + 1);
        }
      }
      Leave();
      KeptTwice(old(s), begun, s, n);
      end := Ended;
    }

    /** The return from a loop whose condition is set. */
    method Leave()
      requires Valid() && InLoop(s) && !Top(s).wait.Drain? && Top(s).condition
      modifies this`s
      ensures Valid() && s == Returned(old(s))
      ensures old(Top(s)).wait.Path? ==>
                |s.results| > |old(s.results)|
                && var r := s.results[|s.results| - 1];
                   r.path == old(Top(s)).wait.path && r.start == old(Top(s)).start && r.end == |s.dispatched|
                   && ResultOk(s, r)
    {
      ReachableInv(s);
      assert AwaitOk(s, Top(s));
      Do(Return);
      ReachableInv(s);
    }

    /** process(). */
    method Process() returns (end: Ending)
      requires Valid() && Enabled(s, Begin(Drain))
      modifies this
      ensures Valid() && |moves| <= |old(moves)|
      ensures !end.Stuck? ==> |s.loops| == |old(s.loops)| && Kept(old(s), s, |s.loops|)
      ensures end.Ended? ==> s.mailbox == [] || s.stopped
      ensures Sent() == old(Sent()) && (end.Stuck? ==> moves == [] || Overlap(s))
      decreases |moves|, 2
    {
      ghost var n := |s.loops|;
      Do(Begin(Drain));
      ghost var begun := s;
      Arrivals();
      while s.mailbox != [] && !s.stopped
        invariant Valid() && |moves| <= |old(moves)|
        invariant |s.loops| == n + 1 && Kept(begun, s, n + 1) && Sent() == old(Sent())
        decreases |moves|
      {
        if !Enabled(s, Take) {
          return Stuck;
        }
        ghost var was := s;
        end := Dispatch();
        if end.Threw? {
          KeptTwice(begun, was, s, n);
          KeptTwice(old(s), begun, s, n);
        }
        if !end.Ended? {
          return;
        }
        KeptTwice(begun, was, s, n + 1);
        Arrivals();
      }
      Do(Exit);
      KeptTwice(old(s), begun, s, n);
      end := Ended;
    }
  }
}
