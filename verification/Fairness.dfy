/**
 * How long a scheduler can pass over one of its queues: choosePriority, dequeue and the streak
 * counter that ownedLoop (which prefers hard tasks) and unownedLoop (soft tasks) share.
 */
module Fairness {
  import opened Options
  import opened Runtime

  const LIMIT: nat := 64

  function Other(c: Class): Class { if c.Soft? then Hard else Soft }

  function Choose(streak: nat, preferred: Class): (nat, Class) {
    if streak >= LIMIT then (0, Other(preferred)) else (streak, preferred)
  }

  /** What other threads do to the queues between two attempts: pushes arrive, thieves take the back. */
  datatype Change = Push(t: nat, q: Class) | Rob(q: Class)

  function Changed(c: Scheduler, changes: seq<Change>): Scheduler
    decreases |changes|
  {
    if changes == [] then c
    else
      var d := match changes[0]
        case Push(t, q) => Delivered(c, t, q)
        case Rob(q) => if Queue(c, q) == [] then c else Robbed(c, q);
      Changed(d, changes[1..])
  }

  /** The queue that attempt k of dequeue looks into. */
  function Tried(priority: Class, k: nat): Class { if k % 2 == 0 then priority else Other(priority) }

  /** The outcome of dequeue: the scheduler, the class of the task taken, and the queues found empty. */
  datatype Found = Found(c: Scheduler, got: Option<Class>, sawEmpty: set<Class>)

  /** dequeue from attempt k on; changes[k] is what happens before attempt k. */
  function Attempts(c: Scheduler, priority: Class, changes: seq<seq<Change>>, k: nat): Found
    decreases |changes| - k
  {
    if k >= |changes| then Found(c, None, {})
    else
      var d := Changed(c, changes[k]);
      var q := Tried(priority, k);
      if Queue(d, q) != [] then Found(Dequeued(d, q), Some(q), {})
      else
        var rest := Attempts(d, priority, changes, k + 1);
        rest.(sawEmpty := rest.sawEmpty + {q})
  }

  /** Nobody touches the queues during the four attempts. */
  const QUIET: seq<seq<Change>> := [[], [], [], []]

  /**
   * One turn of a loop.  ownedLoop prefers hard tasks and unownedLoop soft ones; stolen is the
   * class of the task stolen if the attempts find nothing.
   */
  datatype Turn = Turn(preferred: Class, changes: seq<seq<Change>>, stolen: Option<Class>)

  /**
   * The scheduler with its streak; carried says that ownedLoop has found a soft task, which the
   * next turn of unownedLoop executes without looking for one.
   */
  datatype Dispatcher = Dispatcher(c: Scheduler, streak: nat, carried: bool)

  predicate Enabled(s: Dispatcher, turn: Turn) {
    |turn.changes| == 4 && (s.carried ==> turn.preferred.Soft?)
  }

  function Dequeuing(s: Dispatcher, turn: Turn): Found {
    Attempts(s.c, Choose(s.streak, turn.preferred).1, turn.changes, 0)
  }

  /** The class of the task a turn dispatches, if any. */
  function Got(s: Dispatcher, turn: Turn): Option<Class> {
    if s.carried then Some(Soft)
    else if Dequeuing(s, turn).got.Some? then Dequeuing(s, turn).got
    else turn.stolen
  }

  /** The turn looked into the queue of the other class before dispatching, and found it empty. */
  predicate SawOtherEmpty(s: Dispatcher, turn: Turn) {
    !s.carried && Other(turn.preferred) in Dequeuing(s, turn).sawEmpty
  }

  /** sameStreak after a turn; a turn of ownedLoop that finds nothing resets it. */
  function StreakAfter(s: Dispatcher, turn: Turn): nat {
    var streak := Choose(s.streak, turn.preferred).0;
    var got := Got(s, turn);
    if got == Some(turn.preferred) then streak + 1
    else if got.Some? || turn.preferred.Hard? then 0
    else streak
  }

  function After(s: Dispatcher, turn: Turn): Dispatcher {
    Dispatcher(if s.carried then s.c else Dequeuing(s, turn).c.(current := None), StreakAfter(s, turn),
          turn.preferred.Hard? && Got(s, turn) == Some(Soft))
  }

  predicate Legal(s: Dispatcher, turns: seq<Turn>)
    decreases |turns|
  {
    turns == [] || (Enabled(s, turns[0]) && Legal(After(s, turns[0]), turns[1..]))
  }

  function AfterAll(s: Dispatcher, turns: seq<Turn>): Dispatcher
    decreases |turns|
  {
    if turns == [] then s else AfterAll(After(s, turns[0]), turns[1..])
  }

  ghost predicate Inv(s: Dispatcher) { s.streak <= LIMIT && (s.carried ==> s.streak == 0) }

  lemma TurnKeepsInv(s: Dispatcher, turn: Turn)
    requires Inv(s) && Enabled(s, turn)
    ensures Inv(After(s, turn))
  {
  }

  /**
   * The counter never passes the limit, in whatever order the two loops take turns and whatever
   * happens to the queues.
   */
  lemma {:induction false} StreakBounded(s: Dispatcher, turns: seq<Turn>)
    requires Inv(s) && Legal(s, turns)
    ensures AfterAll(s, turns).streak <= 64
    decreases |turns|
  {
    if turns != [] {
      TurnKeepsInv(s, turns[0]);
      StreakBounded(After(s, turns[0]), turns[1..]);
    }
  }

  /** Every turn of the stretch dispatches a task of the class and none finds the other queue empty. */
  predicate Passing(s: Dispatcher, preferred: Class, turns: seq<Turn>)
    decreases |turns|
  {
    turns == []
    || (turns[0].preferred == preferred && Got(s, turns[0]) == Some(preferred) && !SawOtherEmpty(s, turns[0])
        && Passing(After(s, turns[0]), preferred, turns[1..]))
  }

  /** dequeue that finds nothing has found both queues empty, and so has one that finds the second choice. */
  lemma AttemptsLook(c: Scheduler, priority: Class, changes: seq<seq<Change>>)
    requires |changes| == 4
    ensures var r := Attempts(c, priority, changes, 0);
            (r.got != Some(priority) ==> priority in r.sawEmpty)
            && (r.got.None? ==> Other(priority) in r.sawEmpty)
  {
    var d := Changed(c, changes[0]);
    if Queue(d, priority) == [] {
      var e := Changed(d, changes[1]);
      assert Tried(priority, 1) == Other(priority);
      if Queue(e, Other(priority)) == [] {
        assert Other(priority) in Attempts(d, priority, changes, 1).sawEmpty;
      }
    }
  }

  /** A turn taken at the limit that dispatches a preferred task has seen the other queue empty. */
  lemma LimitLooksAtOther(s: Dispatcher, turn: Turn)
    requires Inv(s) && Enabled(s, turn) && s.streak >= LIMIT && Got(s, turn) == Some(turn.preferred)
    ensures SawOtherEmpty(s, turn)
  {
    AttemptsLook(s.c, Other(turn.preferred), turn.changes);
  }

  /**
   * At most 64 tasks in a row of the preferred class are dispatched by one loop while the other
   * queue has something to offer, counting those the streak already stands for.
   */
  lemma {:induction false} BoundedBypass(s: Dispatcher, preferred: Class, turns: seq<Turn>)
    requires Inv(s) && Legal(s, turns) && Passing(s, preferred, turns)
    ensures s.streak + |turns| <= 64
    decreases |turns|
  {
    if turns != [] {
      if s.streak >= LIMIT {
        LimitLooksAtOther(s, turns[0]);
      }
      TurnKeepsInv(s, turns[0]);
      BoundedBypass(After(s, turns[0]), preferred, turns[1..]);
    }
  }

  /** At the limit the other queue is served first if it has a task when it is looked at. */
  lemma OtherIsServed(s: Dispatcher, turn: Turn)
    requires Inv(s) && Enabled(s, turn) && s.streak >= LIMIT
    requires Queue(Changed(s.c, turn.changes[0]), Other(turn.preferred)) != []
    ensures Got(s, turn) == Some(Other(turn.preferred)) && After(s, turn).streak == 0
    ensures var d := Changed(s.c, turn.changes[0]);
            After(s, turn).c == Dequeued(d, Other(turn.preferred)).(current := None)
  {
  }

  /** Below the limit the preferred queue is served first if it has a task, and the streak grows by one. */
  lemma PreferredIsServed(s: Dispatcher, turn: Turn)
    requires Enabled(s, turn) && !s.carried && s.streak < 64
    requires Queue(Changed(s.c, turn.changes[0]), turn.preferred) != []
    ensures Got(s, turn) == Some(turn.preferred) && After(s, turn).streak == s.streak + 1
    ensures var d := Changed(s.c, turn.changes[0]);
            After(s, turn).c == Dequeued(d, turn.preferred).(current := None)
  {
  }

  /**
   * A turn that dispatches a task of the other class restarts the streak, and so does one of
   * ownedLoop that dispatches none; one of unownedLoop that dispatches none leaves a streak below
   * the limit as it is.
   */
  lemma StreakRestarts(s: Dispatcher, turn: Turn)
    requires Inv(s) && Enabled(s, turn) && Got(s, turn) != Some(turn.preferred)
    ensures Got(s, turn).Some? || turn.preferred.Hard? ==> After(s, turn).streak == 0
    ensures Got(s, turn).None? && turn.preferred.Soft? && s.streak < 64 ==> After(s, turn).streak == s.streak
  {
  }

  /**
   * A soft task that ownedLoop found is what the thread runs next: its next turn is one of
   * unownedLoop, which dispatches that task without a look at the queues, as the first of a streak.
   */
  lemma FoundIsRunNext(s: Dispatcher, turn: Turn, next: Turn)
    requires Enabled(s, turn) && turn.preferred.Hard? && Got(s, turn) == Some(Soft)
    requires Enabled(After(s, turn), next)
    ensures next.preferred.Soft? && Got(After(s, turn), next) == Some(Soft)
    ensures var u := After(After(s, turn), next); u.c == After(s, turn).c && u.streak == 1 && !u.carried
  {
  }

  /** Undisturbed, dequeue takes the front of the preferred queue, else of the other one. */
  lemma QuietAttempts(c: Scheduler, priority: Class)
    ensures var r := Attempts(c, priority, QUIET, 0);
            if Queue(c, priority) != [] then r.c == Dequeued(c, priority)
            else if Queue(c, Other(priority)) != [] then r.c == Dequeued(c, Other(priority))
            else r.c == c && r.got.None?
  {
    QuietRound(c, priority, 0);
    QuietRound(c, priority, 2);
  }

  lemma QuietRound(c: Scheduler, priority: Class, k: nat)
    requires k == 0 || k == 2
    ensures Queue(c, priority) != [] ==> Attempts(c, priority, QUIET, k).c == Dequeued(c, priority)
    ensures Queue(c, priority) == [] && Queue(c, Other(priority)) != [] ==>
              Attempts(c, priority, QUIET, k).c == Dequeued(c, Other(priority))
    ensures Queue(c, priority) == [] && Queue(c, Other(priority)) == [] ==>
              Attempts(c, priority, QUIET, k).c == Attempts(c, priority, QUIET, k + 2).c
              && Attempts(c, priority, QUIET, k).got == Attempts(c, priority, QUIET, k + 2).got
  {
    assert Changed(c, QUIET[k]) == c && Changed(c, QUIET[k + 1]) == c;
    assert Tried(priority, k) == priority && Tried(priority, k + 1) == Other(priority);
  }
}
