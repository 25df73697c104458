/** The runtime invariant is kept by every step. */
module RuntimeProofs {
  import opened Options
  import opened Runtime
  import Tasks

  // ------------------------------------------------------------------ counting

  lemma {:induction false} ClaimsUpdate(cs: seq<Scheduler>, i: nat, c: Scheduler, t: nat)
    requires i < |cs|
    ensures Claims(cs[i := c], t) + Claim(cs[i], t) == Claims(cs, t) + Claim(c, t)
  {
    if i == 0 {
      assert cs[i := c][1..] == cs[1..];
    } else {
      assert cs[i := c][1..] == cs[1..][i - 1 := c];
      ClaimsUpdate(cs[1..], i - 1, c, t);
    }
  }

  /** No two schedulers share a task's only claim. */
  lemma {:induction false} ClaimsAtLeast(cs: seq<Scheduler>, i: nat, t: nat)
    requires i < |cs|
    ensures Claims(cs, t) >= Claim(cs[i], t)
    ensures forall j :: 0 <= j < |cs| && j != i ==> Claims(cs, t) >= Claim(cs[i], t) + Claim(cs[j], t)
  {
    if i != 0 {
      ClaimsAtLeast(cs[1..], i - 1, t);
    }
    forall j | 0 <= j < |cs| && j != i
      ensures Claims(cs, t) >= Claim(cs[i], t) + Claim(cs[j], t)
    {
      if i == 0 {
        ClaimsAtLeast(cs[1..], j - 1, t);
      } else if j != 0 {
        assert cs[1..][j - 1] == cs[j];
      }
    }
  }

  lemma {:induction false} ClaimAt(cs: seq<Scheduler>, t: nat) returns (i: nat)
    requires Claims(cs, t) > 0
    ensures i < |cs| && Claim(cs[i], t) > 0
  {
    if Claim(cs[0], t) > 0 {
      i := 0;
    } else {
      i := ClaimAt(cs[1..], t);
      i := i + 1;
    }
  }

  lemma {:induction false} SchedulerHoldUpdate(cs: seq<Scheduler>, i: nat, c: Scheduler, k: nat)
    requires i < |cs|
    ensures HeldBySchedulers(cs[i := c], k) + Held(cs[i], k) == HeldBySchedulers(cs, k) + Held(c, k)
  {
    if i == 0 {
      assert cs[i := c][1..] == cs[1..];
    } else {
      assert cs[i := c][1..] == cs[1..][i - 1 := c];
      SchedulerHoldUpdate(cs[1..], i - 1, c, k);
    }
  }

  lemma {:induction false} TaskHoldUpdate(ts: seq<Task>, t: nat, x: Task, k: nat)
    requires t < |ts|
    ensures HeldByTasks(ts[t := x], k) + One(ts[t].stack, k) == HeldByTasks(ts, k) + One(x.stack, k)
  {
    if t == 0 {
      assert ts[t := x][1..] == ts[1..];
    } else {
      assert ts[t := x][1..] == ts[1..][t - 1 := x];
      TaskHoldUpdate(ts[1..], t - 1, x, k);
    }
  }

  // ------------------------------------------------------------------ one scheduler and one task

  /** Changes that another scheduler holding the task cannot notice. */
  ghost predicate Mild(t: Task, x: Task) {
    x.status == t.status && x.scheduled == t.scheduled && x.pin == t.pin && x.saved == t.saved
    && x.phase == t.phase
  }

  ghost predicate ClaimsBalance(c: Scheduler, d: Scheduler, t: nat, old_: int, new_: int) {
    forall u: nat :: Claim(d, u) - Claim(c, u) == if u == t then new_ - old_ else 0
  }

  ghost predicate ContextsBalance(s: State, s': State, i: nat, t: nat)
    requires i < |s.schedulers| == |s'.schedulers| && t < |s.tasks| == |s'.tasks|
  {
    forall k: nat ::
      Held(s'.schedulers[i], k) + One(s'.tasks[t].stack, k) + s'.freed[k] - (if k < s'.contexts then 1 else 0)
      == Held(s.schedulers[i], k) + One(s.tasks[t].stack, k) + s.freed[k] - (if k < s.contexts then 1 else 0)
  }

  lemma OtherQueues(c: Scheduler, k: nat, ts: seq<Task>, t: nat, x: Task)
    requires QueuesOk(c, k, ts) && t < |ts|
    requires Mild(ts[t], x) || Claim(c, t) == 0
    ensures QueuesOk(c, k, ts[t := x])
  {
    assert t in c.soft ==> multiset(c.soft)[t] > 0;
    assert t in c.hard ==> multiset(c.hard)[t] > 0;
  }

  lemma OtherThread(c: Scheduler, k: nat, ts: seq<Task>, t: nat, x: Task)
    requires ThreadOk(c, k, ts) && t < |ts|
    requires Mild(ts[t], x) || (c.current != Some(t) && c.suspending != Some(t))
    ensures ThreadOk(c, k, ts[t := x])
  {
  }

  lemma OtherSchedulers(c: Scheduler, k: nat, ts: seq<Task>, t: nat, x: Task)
    requires SchedulerOk(c, k, ts) && t < |ts|
    requires Mild(ts[t], x) || Claim(c, t) == 0
    ensures SchedulerOk(c, k, ts[t := x])
  {
    OtherQueues(c, k, ts, t, x);
    OtherThread(c, k, ts, t, x);
  }

  /** s' differs from s at scheduler i and task t only. */
  ghost predicate Touches(s: State, s': State, i: nat, t: nat) {
    && i < |s.schedulers| == |s'.schedulers| && s'.schedulers == s.schedulers[i := s'.schedulers[i]]
    && t < |s.tasks| == |s'.tasks| && s'.tasks == s.tasks[t := s'.tasks[t]]
  }

  lemma LocalClaims(s: State, s': State, i: nat, t: nat)
    requires Touches(s, s', i, t) && ClaimsOk(s)
    requires ClaimsBalance(s.schedulers[i], s'.schedulers[i], t, Weight(s.tasks[t]), Weight(s'.tasks[t]))
    ensures ClaimsOk(s')
  {
    forall u: nat
      ensures Claims(s'.schedulers, u) == if u < |s'.tasks| then Weight(s'.tasks[u]) else 0
    {
      ClaimsUpdate(s.schedulers, i, s'.schedulers[i], u);
    }
  }

  lemma LocalContexts(s: State, s': State, i: nat, t: nat)
    requires Touches(s, s', i, t) && ContextsOk(s) && ContextsBalance(s, s', i, t)
    ensures ContextsOk(s')
  {
    forall k: nat
      ensures Holders(s', k) == if k < s'.contexts then 1 else 0
    {
      SchedulerHoldUpdate(s.schedulers, i, s'.schedulers[i], k);
      TaskHoldUpdate(s.tasks, t, s'.tasks[t], k);
      assert Holders(s, k) == if k < s.contexts then 1 else 0;
    }
  }

  lemma LocalSchedulers(s: State, s': State, i: nat, t: nat)
    requires Touches(s, s', i, t) && SchedulersOk(s) && ClaimsOk(s)
    requires Mild(s.tasks[t], s'.tasks[t]) || Claim(s.schedulers[i], t) == Weight(s.tasks[t])
    requires SchedulerOk(s'.schedulers[i], i, s'.tasks)
    ensures SchedulersOk(s')
  {
    forall j | 0 <= j < |s'.schedulers|
      ensures SchedulerOk(s'.schedulers[j], j, s'.tasks)
    {
      if j != i {
        ClaimsAtLeast(s.schedulers, i, t);
        assert Claims(s.schedulers, t) == Weight(s.tasks[t]);
        OtherSchedulers(s.schedulers[j], j, s.tasks, t, s'.tasks[t]);
      }
    }
  }

  lemma Local(s: State, s': State, i: nat, t: nat)
    requires Inv(s) && Touches(s, s', i, t)
    requires Mild(s.tasks[t], s'.tasks[t]) || Claim(s.schedulers[i], t) == Weight(s.tasks[t])
    requires TaskOk(s'.tasks[t], |s.schedulers|)
    requires SchedulerOk(s'.schedulers[i], i, s'.tasks)
    requires ClaimsBalance(s.schedulers[i], s'.schedulers[i], t, Weight(s.tasks[t]), Weight(s'.tasks[t]))
    requires ContextsBalance(s, s', i, t)
    ensures Inv(s')
  {
    LocalClaims(s, s', i, t);
    LocalContexts(s, s', i, t);
    LocalSchedulers(s, s', i, t);
  }

  /** The thread of scheduler i moves, with its own task t. */
  lemma OwnMove(s: State, i: nat, d: Scheduler, t: nat, x: Task)
    requires Inv(s) && i < |s.schedulers| && t < |s.tasks|
    requires Claim(s.schedulers[i], t) == Weight(s.tasks[t])
    requires TaskOk(x, |s.schedulers|) && SchedulerOk(d, i, s.tasks[t := x])
    requires ClaimsBalance(s.schedulers[i], d, t, Weight(s.tasks[t]), Weight(x))
    requires d.stash == s.schedulers[i].stash
    requires (d.unowned == s.schedulers[i].unowned && x.stack == s.tasks[t].stack)
          || (d.unowned == s.tasks[t].stack && x.stack == s.schedulers[i].unowned)
    ensures Inv(Put(s, i, d, t, x))
  {
    Local(s, Put(s, i, d, t, x), i, t);
  }

  lemma LocalScheduler(s: State, s': State, i: nat)
    requires Inv(s) && i < |s.schedulers|
    requires |s'.schedulers| == |s.schedulers| && s'.schedulers == s.schedulers[i := s'.schedulers[i]]
    requires s'.tasks == s.tasks && s'.contexts == s.contexts
    requires SchedulerOk(s'.schedulers[i], i, s'.tasks)
    requires forall u: nat :: Claim(s'.schedulers[i], u) == Claim(s.schedulers[i], u)
    requires forall k: nat :: Held(s'.schedulers[i], k) + s'.freed[k] == Held(s.schedulers[i], k) + s.freed[k]
    ensures Inv(s')
  {
    forall u: nat
      ensures Claims(s'.schedulers, u) == Claims(s.schedulers, u)
    {
      ClaimsUpdate(s.schedulers, i, s'.schedulers[i], u);
    }
    forall k: nat
      ensures Holders(s', k) == Holders(s, k)
    {
      SchedulerHoldUpdate(s.schedulers, i, s'.schedulers[i], k);
    }
  }

  // ------------------------------------------------------------------ any thread

  lemma {:induction false} HeldByNewTask(ts: seq<Task>, x: Task, k: nat)
    requires x.stack.None?
    ensures HeldByTasks(ts + [x], k) == HeldByTasks(ts, k)
  {
    if ts == [] {
      assert ts + [x] == [x];
    } else {
      assert (ts + [x])[1..] == ts[1..] + [x];
      HeldByNewTask(ts[1..], x, k);
    }
  }

  lemma CreatedClaims(s: State, home: Option<nat>)
    requires ClaimsOk(s)
    ensures ClaimsOk(DoCreate(s, home))
  {
    var s' := DoCreate(s, home);
    forall t: nat
      ensures Claims(s'.schedulers, t) == if t < |s'.tasks| then Weight(s'.tasks[t]) else 0
    {
      assert Claims(s.schedulers, t) == if t < |s.tasks| then Weight(s.tasks[t]) else 0;
    }
  }

  lemma CreatedContexts(s: State, home: Option<nat>)
    requires ContextsOk(s)
    ensures ContextsOk(DoCreate(s, home))
  {
    forall k: nat
      ensures Holders(DoCreate(s, home), k) == Holders(s, k)
    {
      HeldByNewTask(s.tasks, Tasks.NewTask(home), k);
    }
  }

  lemma CreatedSchedulers(s: State, home: Option<nat>)
    requires SchedulersOk(s)
    ensures SchedulersOk(DoCreate(s, home))
  {
    forall i | 0 <= i < |s.schedulers|
      ensures SchedulerOk(s.schedulers[i], i, DoCreate(s, home).tasks)
    {
      SchedulerOkExtend(s.schedulers[i], i, s.tasks, Tasks.NewTask(home));
    }
  }

  lemma CreatedTasks(s: State, home: Option<nat>)
    requires TasksOk(s) && (home.Some? ==> home.value < |s.schedulers|)
    ensures TasksOk(DoCreate(s, home))
  {
    assert TaskOk(Tasks.NewTask(home), |s.schedulers|);
  }

  lemma KeepsCreate(s: State, home: Option<nat>)
    requires Inv(s) && Enabled(s, Create(home))
    ensures Inv(DoCreate(s, home))
  {
    CreatedClaims(s, home);
    CreatedContexts(s, home);
    CreatedSchedulers(s, home);
    CreatedTasks(s, home);
  }

  lemma SchedulerOkExtend(c: Scheduler, k: nat, ts: seq<Task>, x: Task)
    requires SchedulerOk(c, k, ts)
    ensures SchedulerOk(c, k, ts + [x])
  {
  }

  lemma PushedClaims(c: Scheduler, t: nat, status: Tasks.Status)
    ensures ClaimsBalance(c, Pushing(c, t, status), t, 0, 1)
  {
  }

  lemma PushedOk(c: Scheduler, k: nat, ts: seq<Task>, t: nat, status: Tasks.Status, x: Task)
    requires SchedulerOk(c, k, ts) && t < |ts| && Claim(c, t) == 0
    requires x.scheduled && x.status == status && PinAllows(x, k)
    requires status.Starting? || status.Listening? || status.Suspended?
    ensures SchedulerOk(Pushing(c, t, status), k, ts[t := x])
  {
    OtherSchedulers(c, k, ts, t, x);
  }

  /** Resuming a task that y describes up to the resume itself. */
  lemma KeepsResume(s: State, t: nat, y: Task, k: nat)
    requires Inv(s) && t < |s.tasks| && k < |s.schedulers| && PinAllows(s.tasks[t], k)
    requires Mild(s.tasks[t], y) && y.stack == s.tasks[t].stack
    requires TaskOk(Tasks.Resumed(y), |s.schedulers|)
    ensures Inv(DoResume(s, t, Tasks.Resumed(y), k))
  {
    var x := Tasks.Resumed(y);
    var s' := DoResume(s, t, x, k);
    var c := s.schedulers[k];
    ClaimsAtLeast(s.schedulers, k, t);
    assert Claims(s.schedulers, t) == Weight(s.tasks[t]);
    assert TaskOk(s.tasks[t], |s.schedulers|);
    assert SchedulerOk(c, k, s.tasks);
    if Tasks.Resumable(s.tasks[t]) {
      PushedClaims(c, t, s.tasks[t].status);
      PushedOk(c, k, s.tasks, t, s.tasks[t].status, x);
    } else {
      OtherSchedulers(c, k, s.tasks, t, x);
    }
    Local(s, s', k, t);
  }

  lemma KeepsExternal(s: State, t: nat, a: Tasks.Action, target: nat)
    requires Inv(s) && Enabled(s, External(t, a, target))
    ensures Inv(Apply(s, External(t, a, target)))
  {
    var task := s.tasks[t];
    Tasks.Keeps(task, a);
    var y := if a.Send? then task.(mailbox := task.mailbox + [a.event], enqueued := task.enqueued + [a.event])
             else task;
    KeepsResume(s, t, y, Route(task, target));
  }

  lemma DeliverClaims(c: Scheduler, t: nat, q: Class, u: nat)
    requires t in Pushes(c, q)
    ensures Claim(Delivered(c, t, q), u) == Claim(c, u)
  {
    assert multiset([t] + c.soft) == multiset{t} + multiset(c.soft);
    assert multiset([t] + c.hard) == multiset{t} + multiset(c.hard);
  }

  lemma DeliverOk(c: Scheduler, k: nat, ts: seq<Task>, t: nat, q: Class)
    requires SchedulerOk(c, k, ts) && t in Pushes(c, q)
    ensures SchedulerOk(Delivered(c, t, q), k, ts)
  {
    DeliverKeepsQueues(c, k, ts, t, q);
    DeliverKeepsThread(c, k, ts, t, q);
  }

  lemma DeliverKeepsQueues(c: Scheduler, k: nat, ts: seq<Task>, t: nat, q: Class)
    requires QueuesOk(c, k, ts) && t in Pushes(c, q)
    ensures QueuesOk(Delivered(c, t, q), k, ts)
  {
    assert Queued(ts, t, k, q);
    forall u | u in [t] + Queue(c, q)
      ensures Queued(ts, u, k, q)
    {
      assert u == t || u in Queue(c, q);
    }
  }

  lemma DeliverKeepsThread(c: Scheduler, k: nat, ts: seq<Task>, t: nat, q: Class)
    requires ThreadOk(c, k, ts)
    ensures ThreadOk(Delivered(c, t, q), k, ts)
  {
  }

  lemma KeepsDeliver(s: State, i: nat, t: nat, q: Class)
    requires Inv(s) && Enabled(s, Deliver(i, t, q))
    ensures Inv(DoDeliver(s, i, t, q))
  {
    var s' := DoDeliver(s, i, t, q);
    var c := s.schedulers[i];
    assert s'.schedulers[i] == Delivered(c, t, q);
    DeliverOk(c, i, s.tasks, t, q);
    forall u: nat
      ensures Claim(s'.schedulers[i], u) == Claim(c, u)
    {
      DeliverClaims(c, t, q, u);
    }
    LocalScheduler(s, s', i);
  }

  lemma ClaimMeans(c: Scheduler, t: nat)
    requires Claim(c, t) > 0
    ensures t in c.soft || t in c.hard || t in c.softPushes || t in c.hardPushes
            || c.current == Some(t) || c.suspending == Some(t)
  {
  }

  /** What an executing task's claim is. */
  lemma ExecutingAt(s: State, t: nat) returns (i: nat)
    requires Inv(s) && t < |s.tasks| && s.tasks[t].status.Running?
    ensures i < |s.schedulers| && PinAllows(s.tasks[t], i)
    ensures s.schedulers[i].current == Some(t) || s.schedulers[i].suspending == Some(t)
  {
    assert Claims(s.schedulers, t) == 1;
    i := ClaimAt(s.schedulers, t);
    ClaimMeans(s.schedulers[i], t);
    assert TaskOk(s.tasks[t], |s.schedulers|);
    assert SchedulerOk(s.schedulers[i], i, s.tasks);
  }

  /** A task that a thread polls IO for is not between the test of its condition and the write of resumesExpected. */
  lemma CallbackPlaced(s: State, i: nat, t: nat, k: nat)
    requires Inv(s) && Enabled(s, IoCallback(i, t, k))
    ensures Tasks.Placed(s.tasks[t], Tasks.Callback(k))
    ensures s.tasks[t].pin == Some(i)
  {
    assert TaskOk(s.tasks[t], |s.schedulers|);
    if s.tasks[t].phase.Checked? {
      var j := ExecutingAt(s, t);
      assert SchedulerOk(s.schedulers[j], j, s.tasks);
      CheckedIsInCode(s.schedulers[j], j, s.tasks, t);
    }
  }

  /** A task that has looked at its condition and not yet decided to sleep is executing its code. */
  lemma CheckedIsInCode(c: Scheduler, k: nat, ts: seq<Task>, t: nat)
    requires ThreadOk(c, k, ts) && t < |ts| && Tasks.Executing(ts[t]) && ts[t].phase.Checked?
    requires c.current == Some(t) || c.suspending == Some(t)
    ensures c.pc.Code?
  {
  }

  lemma KeepsCallback(s: State, i: nat, t: nat, k: nat)
    requires Inv(s) && Enabled(s, IoCallback(i, t, k))
    ensures Inv(Apply(s, IoCallback(i, t, k)))
  {
    var task := s.tasks[t];
    CallbackPlaced(s, i, t, k);
    Tasks.Keeps(task, Tasks.Callback(k));
    var f := task.frames[k];
    KeepsResume(s, t, task.(frames := task.frames[k := f.(io := Some(f.io.value.(condition := true)))]), i);
  }

  // ------------------------------------------------------------------ the thread of scheduler i

  /** c has no claim on t other than as its thread's current or suspending task. */
  ghost predicate Unqueued(c: Scheduler, t: nat) {
    t !in c.soft && t !in c.hard && t !in c.softPushes && t !in c.hardPushes
  }

  /** The thread's own task is claimed by nothing else. */
  lemma Sole(s: State, i: nat, t: nat)
    requires SchedulersOk(s) && ClaimsOk(s) && i < |s.schedulers| && t < |s.tasks|
    requires s.schedulers[i].current == Some(t) || s.schedulers[i].suspending == Some(t)
    ensures Claim(s.schedulers[i], t) == 1 == Weight(s.tasks[t])
    ensures Unqueued(s.schedulers[i], t)
    ensures s.schedulers[i].current != s.schedulers[i].suspending
  {
    ClaimsAtLeast(s.schedulers, i, t);
    assert Claims(s.schedulers, t) == Weight(s.tasks[t]);
    assert multiset(s.schedulers[i].soft)[t] == 0;
    assert multiset(s.schedulers[i].hard)[t] == 0;
  }

  /** A scheduler whose queues do not mention t keeps them when t changes. */
  lemma QueuesKept(c: Scheduler, d: Scheduler, k: nat, ts: seq<Task>, t: nat, x: Task)
    requires QueuesOk(c, k, ts) && t < |ts| && Unqueued(c, t)
    requires d.soft == c.soft && d.hard == c.hard && d.softPushes == c.softPushes && d.hardPushes == c.hardPushes
    requires |d.stash| <= STASH_SIZE
    ensures QueuesOk(d, k, ts[t := x])
  {
  }

  lemma CodeKeepsPlace(t: Task, a: Tasks.Action, i: nat)
    requires Tasks.Inv(t) && Tasks.ByCode(a) && Tasks.Guard(t, a) && PinAllows(t, i)
    requires (a.Pin? ==> a.scheduler == i) && (a.AwaitIo? ==> a.scheduler == i)
    ensures Tasks.Placed(t, a)
    ensures var x := Tasks.Apply(t, a);
            x.status.Running? && !x.saved && !x.scheduled && x.stack == t.stack && PinAllows(x, i)
            && x.home == t.home && (x.pin.Some? ==> x.pin == t.pin || x.pin == Some(i) )
  {
  }

  lemma KeepsCode(s: State, i: nat, a: Tasks.Action)
    requires Inv(s) && Enabled(s, RunCode(i, a))
    ensures Inv(Apply(s, RunCode(i, a)))
  {
    var t := s.schedulers[i].current.value;
    var task := s.tasks[t];
    assert SchedulerOk(s.schedulers[i], i, s.tasks) && TaskOk(task, |s.schedulers|);
    Sole(s, i, t);
    CodeKeepsPlace(task, a, i);
    Tasks.Keeps(task, a);
    QueuesKept(s.schedulers[i], s.schedulers[i], i, s.tasks, t, Tasks.Apply(task, a));
    Local(s, Apply(s, RunCode(i, a)), i, t);
  }

  lemma KeepsSuspend(s: State, i: nat)
    requires Inv(s) && Enabled(s, Suspend(i))
    ensures Inv(Apply(s, Suspend(i)))
  {
    assert SchedulerOk(s.schedulers[i], i, s.tasks);
    LocalScheduler(s, Place(s, i, s.schedulers[i].(pc := OwnedPoll)), i);
  }

  lemma KeepsEnterOwned(s: State, i: nat)
    requires Inv(s) && Enabled(s, EnterOwned(i))
    ensures Inv(Apply(s, EnterOwned(i)))
  {
    var c := s.schedulers[i];
    assert SchedulerOk(c, i, s.tasks);
    LocalScheduler(s, Place(s, i, c.(pc := OwnedPick, suspending := c.current, current := None)), i);
  }

  lemma KeepsIdle(s: State, i: nat)
    requires Inv(s) && Enabled(s, Idle(i))
    ensures Inv(Apply(s, Idle(i)))
  {
    assert SchedulerOk(s.schedulers[i], i, s.tasks);
    LocalScheduler(s, Place(s, i, s.schedulers[i].(pc := LoopTop)), i);
  }

  lemma KeepsJumpFromLoop(s: State, i: nat)
    requires Inv(s) && Enabled(s, JumpFromLoop(i))
    ensures Inv(Apply(s, JumpFromLoop(i)))
  {
    assert SchedulerOk(s.schedulers[i], i, s.tasks);
    LocalScheduler(s, Place(s, i, s.schedulers[i].(pc := Arrived)), i);
  }

  lemma SplitFirst(q: seq<nat>)
    requires q != []
    ensures multiset(q) == multiset{q[0]} + multiset(q[1..])
  {
    assert q == [q[0]] + q[1..];
  }

  lemma SplitLast(q: seq<nat>)
    requires q != []
    ensures multiset(q) == multiset(q[..|q| - 1]) + multiset{Last(q)}
  {
    assert q == q[..|q| - 1] + [Last(q)];
  }

  lemma DequeuedClaims(c: Scheduler, q: Class, u: nat)
    requires Queue(c, q) != [] && c.current.None?
    ensures Claim(Dequeued(c, q), u) == Claim(c, u)
  {
    SplitFirst(Queue(c, q));
  }

  lemma DequeuedOk(c: Scheduler, k: nat, ts: seq<Task>, q: Class)
    requires SchedulerOk(c, k, ts) && Queue(c, q) != [] && (c.pc.LoopPick? || c.pc.OwnedPick?)
    ensures SchedulerOk(Dequeued(c, q), k, ts)
  {
    assert Queue(c, q)[0] in Queue(c, q);
    assert forall u :: u in Queue(c, q)[1..] ==> u in Queue(c, q);
  }

  lemma KeepsDequeue(s: State, i: nat, q: Class)
    requires Inv(s) && Enabled(s, Dequeue(i, q))
    ensures Inv(DoDequeue(s, i, q))
  {
    var c := s.schedulers[i];
    var s' := DoDequeue(s, i, q);
    DequeuedOk(c, i, s.tasks, q);
    forall u: nat
      ensures Claim(s'.schedulers[i], u) == Claim(c, u)
    {
      DequeuedClaims(c, q, u);
    }
    LocalScheduler(s, s', i);
  }

  lemma RobbedClaims(c: Scheduler, q: Class, u: nat)
    requires Queue(c, q) != []
    ensures Claim(Robbed(c, q), u) + One(Some(Last(Queue(c, q))), u) == Claim(c, u)
    ensures Robbed(c, q).current == c.current
  {
    SplitLast(Queue(c, q));
  }

  lemma TakerClaims(c: Scheduler, t: nat, u: nat)
    requires c.current.None?
    ensures Claim(c.(current := Some(t)), u) == Claim(c, u) + One(Some(t), u)
  {
  }

  /** The two schedulers of a steal: j gives up a task, i takes it. */
  lemma StealClaims(s: State, i: nat, j: nat, q: Class, u: nat)
    requires i < |s.schedulers| && j < |s.schedulers| && Queue(s.schedulers[j], q) != []
    requires s.schedulers[i].current.None?
    ensures Claims(DoSteal(s, i, j, q).schedulers, u) == Claims(s.schedulers, u)
  {
    var d := Robbed(s.schedulers[j], q);
    var ds := s.schedulers[j := d];
    var t := Last(Queue(s.schedulers[j], q));
    RobbedClaims(s.schedulers[j], q, u);
    TakerClaims(ds[i], t, u);
    ClaimsUpdate(s.schedulers, j, d, u);
    ClaimsUpdate(ds, i, ds[i].(current := Some(t)), u);
  }

  lemma StealContexts(s: State, i: nat, j: nat, q: Class, k: nat)
    requires i < |s.schedulers| && j < |s.schedulers| && Queue(s.schedulers[j], q) != []
    ensures Holders(DoSteal(s, i, j, q), k) == Holders(s, k)
  {
    var d := Robbed(s.schedulers[j], q);
    var ds := s.schedulers[j := d];
    SchedulerHoldUpdate(s.schedulers, j, d, k);
    SchedulerHoldUpdate(ds, i, ds[i].(current := Some(Last(Queue(s.schedulers[j], q)))), k);
  }

  lemma PlaceOk(s: State, i: nat, c: Scheduler)
    requires SchedulersOk(s) && i < |s.schedulers| && SchedulerOk(c, i, s.tasks)
    ensures SchedulersOk(Place(s, i, c))
  {
  }

  lemma StealSchedulers(s: State, i: nat, j: nat, q: Class)
    requires SchedulersOk(s) && i < |s.schedulers| && j < |s.schedulers| && Queue(s.schedulers[j], q) != []
    requires s.schedulers[i].pc.LoopPick? || s.schedulers[i].pc.OwnedPick?
    requires Queued(s.tasks, Last(Queue(s.schedulers[j], q)), i, q)
    ensures SchedulersOk(DoSteal(s, i, j, q))
  {
    var t := Last(Queue(s.schedulers[j], q));
    var s1 := Place(s, j, Robbed(s.schedulers[j], q));
    RobbedOk(s.schedulers[j], j, s.tasks, q);
    PlaceOk(s, j, Robbed(s.schedulers[j], q));
    TakenBy(s1.schedulers[i], i, s.tasks, t, q);
    PlaceOk(s1, i, s1.schedulers[i].(current := Some(t)));
  }

  lemma KeepsSteal(s: State, i: nat, j: nat, q: Class)
    requires Inv(s) && Enabled(s, Steal(i, j, q))
    ensures Inv(DoSteal(s, i, j, q))
  {
    var s' := DoSteal(s, i, j, q);
    assert ClaimsOk(s') by {
      forall u: nat
        ensures Claims(s'.schedulers, u) == Claims(s.schedulers, u)
      {
        StealClaims(s, i, j, q, u);
      }
    }
    assert ContextsOk(s') by {
      forall k: nat
        ensures Holders(s', k) == Holders(s, k)
      {
        StealContexts(s, i, j, q, k);
      }
    }
    assert Queued(s.tasks, Last(Queue(s.schedulers[j], q)), i, q) by {
      assert SchedulerOk(s.schedulers[j], j, s.tasks);
      assert Last(Queue(s.schedulers[j], q)) in Queue(s.schedulers[j], q);
    }
    StealSchedulers(s, i, j, q);
  }

  lemma RobbedOk(c: Scheduler, k: nat, ts: seq<Task>, q: Class)
    requires SchedulerOk(c, k, ts) && Queue(c, q) != []
    ensures SchedulerOk(Robbed(c, q), k, ts)
  {
    assert forall u :: u in Queue(c, q)[..|Queue(c, q)| - 1] ==> u in Queue(c, q);
  }

  lemma TakenBy(c: Scheduler, k: nat, ts: seq<Task>, t: nat, q: Class)
    requires SchedulerOk(c, k, ts) && (c.pc.LoopPick? || c.pc.OwnedPick?)
    requires Queued(ts, t, k, q)
    ensures SchedulerOk(c.(current := Some(t)), k, ts)
  {
  }

  /** The scheduler gives up its claim on t, or turns it into a push to its own queues. */
  lemma Released(c: Scheduler, next: Scheduler, k: nat, ts: seq<Task>, t: nat, x: Task, status: Tasks.Status)
    requires t < |ts| && SchedulerOk(next, k, ts[t := x]) && PinAllows(x, k)
    requires Claim(c, t) == 1 && Claim(next, t) == 0 && ClaimsBalance(c, next, t, 1, 0)
    requires x.status == status && (status.Suspended? || status.Listening?)
    ensures var d := if x.scheduled then Pushing(next, t, status) else next;
            SchedulerOk(d, k, ts[t := x]) && ClaimsBalance(c, d, t, 1, Weight(x))
            && d.stash == next.stash && d.unowned == next.unowned
  {
  }

  lemma FinishedOk(c: Scheduler, k: nat, ts: seq<Task>, t: nat, x: Task)
    requires SchedulerOk(c, k, ts) && c.suspending == Some(t) && t < |ts| && (c.pc.LoopTop? || c.pc.Arrived?)
    requires Unqueued(c, t) && c.current != Some(t)
    ensures SchedulerOk(Finished(c), k, ts[t := x])
  {
    QueuesKept(c, Finished(c), k, ts, t, x);
  }

  lemma FinishedClaims(c: Scheduler, t: nat)
    requires c.suspending == Some(t) && Unqueued(c, t) && c.current != Some(t)
    ensures ClaimsBalance(c, Finished(c), t, 1, 0) && Claim(Finished(c), t) == 0
  {
  }

  lemma KeepsFinish(s: State, i: nat)
    requires Inv(s) && Enabled(s, Finish(i))
    ensures Inv(DoFinish(s, i))
  {
    var c := s.schedulers[i];
    if c.suspending.None? {
      assert SchedulerOk(c, i, s.tasks);
      LocalScheduler(s, DoFinish(s, i), i);
    } else {
      KeepsFinishSuspending(s, i);
    }
  }

  lemma KeepsFinishSuspending(s: State, i: nat)
    requires Inv(s) && Enabled(s, Finish(i)) && s.schedulers[i].suspending.Some?
    ensures Inv(DoFinish(s, i))
  {
    var c := s.schedulers[i];
    var t := c.suspending.value;
    OwnTask(s, i, t);
    SuspendedTask(s.tasks[t], |s.schedulers|);
    FinishMoves(c, i, s.tasks, t);
    var x := Tasks.FinishedSuspending(s.tasks[t]);
    var d := if x.scheduled then Pushing(Finished(c), t, Tasks.Suspended) else Finished(c);
    OwnMove(s, i, d, t, x);
    assert DoFinish(s, i) == Put(s, i, d, t, x);
  }

  /** What the invariant says of a scheduler and the task its thread holds. */
  lemma OwnTask(s: State, i: nat, t: nat)
    requires Inv(s) && i < |s.schedulers| && t < |s.tasks|
    requires s.schedulers[i].current == Some(t) || s.schedulers[i].suspending == Some(t)
    ensures SchedulerOk(s.schedulers[i], i, s.tasks) && TaskOk(s.tasks[t], |s.schedulers|)
    ensures Claim(s.schedulers[i], t) == 1 == Weight(s.tasks[t]) && Unqueued(s.schedulers[i], t)
    ensures s.schedulers[i].current != s.schedulers[i].suspending
  {
    Sole(s, i, t);
  }

  lemma SuspendedTask(t: Task, n: nat)
    requires TaskOk(t, n) && t.status.Running? && t.saved
    ensures TaskOk(Tasks.FinishedSuspending(t), n)
    ensures Tasks.FinishedSuspending(t).stack == t.stack
  {
    Tasks.Keeps(t, Tasks.FinishSuspending);
  }

  /** The scheduler's side of a finished suspension. */
  lemma FinishMoves(c: Scheduler, k: nat, ts: seq<Task>, t: nat)
    requires SchedulerOk(c, k, ts) && c.suspending == Some(t) && t < |ts| && (c.pc.LoopTop? || c.pc.Arrived?)
    requires Unqueued(c, t) && c.current != Some(t) && Claim(c, t) == 1 && PinAllows(ts[t], k)
    ensures var x := Tasks.FinishedSuspending(ts[t]);
            var d := if x.scheduled then Pushing(Finished(c), t, Tasks.Suspended) else Finished(c);
            SchedulerOk(d, k, ts[t := x]) && ClaimsBalance(c, d, t, 1, Weight(x))
            && d.stash == c.stash && d.unowned == c.unowned
  {
    var x := Tasks.FinishedSuspending(ts[t]);
    FinishedOk(c, k, ts, t, x);
    FinishedClaims(c, t);
    Released(c, Finished(c), k, ts, t, x, Tasks.Suspended);
  }

  lemma KeepsStart(s: State, i: nat)
    requires Inv(s) && Enabled(s, StartTask(i))
    ensures Inv(Apply(s, StartTask(i)))
  {
    var c := s.schedulers[i];
    var s' := DoStart(s, i);
    var t := c.current.value;
    assert SchedulerOk(c, i, s.tasks) && TaskOk(s.tasks[t], |s.schedulers|);
    Sole(s, i, t);
    Tasks.Keeps(s.tasks[t], Tasks.Start(c.unowned.value));
    QueuesKept(c, s'.schedulers[i], i, s.tasks, t, s'.tasks[t]);
    OwnMove(s, i, s'.schedulers[i], t, s'.tasks[t]);
  }

  lemma KeepsContinue(s: State, i: nat)
    requires Inv(s) && Enabled(s, ContinueTask(i))
    ensures Inv(Apply(s, ContinueTask(i)))
  {
    var c := s.schedulers[i];
    var s' := Apply(s, ContinueTask(i));
    var t := c.current.value;
    assert SchedulerOk(c, i, s.tasks) && TaskOk(s.tasks[t], |s.schedulers|);
    Sole(s, i, t);
    Tasks.Keeps(s.tasks[t], Tasks.Continue);
    QueuesKept(c, s'.schedulers[i], i, s.tasks, t, s'.tasks[t]);
    OwnMove(s, i, s'.schedulers[i], t, s'.tasks[t]);
  }

  function Idled(c: Scheduler, context: Option<nat>): Scheduler {
    c.(pc := LoopTop, current := None, unowned := context)
  }

  lemma IdledOk(c: Scheduler, k: nat, ts: seq<Task>, t: nat, x: Task, context: Option<nat>)
    requires SchedulerOk(c, k, ts) && c.pc.Code? && c.current == Some(t) && Unqueued(c, t) && context.Some?
    ensures SchedulerOk(Idled(c, context), k, ts[t := x])
    ensures ClaimsBalance(c, Idled(c, context), t, 1, 0)
  {
    QueuesKept(c, Idled(c, context), k, ts, t, x);
  }

  lemma KeepsKill(s: State, i: nat)
    requires Inv(s) && Enabled(s, ReturnTask(i)) && Current(s, i).stopped
    ensures Inv(Apply(s, ReturnTask(i)))
  {
    var c := s.schedulers[i];
    var t := c.current.value;
    assert SchedulerOk(c, i, s.tasks) && TaskOk(s.tasks[t], |s.schedulers|);
    Sole(s, i, t);
    Tasks.Keeps(s.tasks[t], Tasks.Return);
    var x := Tasks.Returned(s.tasks[t]);
    IdledOk(c, i, s.tasks, t, x, s.tasks[t].stack);
    OwnMove(s, i, Idled(c, s.tasks[t].stack), t, x);
  }

  lemma KeepsListen(s: State, i: nat)
    requires Inv(s) && Enabled(s, ReturnTask(i)) && !Current(s, i).stopped
    ensures Inv(Apply(s, ReturnTask(i)))
  {
    var c := s.schedulers[i];
    var t := c.current.value;
    var x := Tasks.Returned(s.tasks[t]);
    var next := Idled(c, s.tasks[t].stack);
    OwnTask(s, i, t);
    Tasks.Keeps(s.tasks[t], Tasks.Return);
    IdledOk(c, i, s.tasks, t, x, s.tasks[t].stack);
    Released(c, next, i, s.tasks, t, x, Tasks.Listening);
    var d := if x.scheduled then Pushing(next, t, Tasks.Listening) else next;
    OwnMove(s, i, d, t, x);
    assert DoReturn(s, i) == Put(s, i, d, t, x);
  }

  lemma KeepsJumpToTask(s: State, i: nat)
    requires Inv(s) && Enabled(s, JumpToTask(i))
    ensures Inv(DoJumpToTask(s, i))
  {
    var c := s.schedulers[i];
    var s' := DoJumpToTask(s, i);
    var t := c.suspending.value;
    assert SchedulerOk(c, i, s.tasks) && TaskOk(s.tasks[t], |s.schedulers|);
    Sole(s, i, t);
    Tasks.Keeps(s.tasks[t], Tasks.Park);
    JumpedOk(c, i, s.tasks, t);
    OwnMove(s, i, s'.schedulers[i], t, s'.tasks[t]);
  }

  /** The suspending task is saved, and the thread arrives at the other one. */
  lemma JumpedOk(c: Scheduler, k: nat, ts: seq<Task>, t: nat)
    requires SchedulerOk(c, k, ts) && c.pc.OwnedPick? && c.suspending == Some(t) && Unqueued(c, t)
    requires c.current.Some? && c.current != Some(t) && ts[c.current.value].status.Suspended?
    ensures SchedulerOk(c.(pc := Arrived), k, ts[t := ts[t].(saved := true)])
  {
    QueuesKept(c, c.(pc := Arrived), k, ts, t, ts[t].(saved := true));
  }

  lemma StashGetHeld(stash: seq<nat>, contexts: nat, k: nat)
    ensures var (context, rest, contexts') := StashGet(stash, contexts);
            multiset(rest)[k] + One(Some(context), k) + (if k < contexts then 1 else 0)
            == multiset(stash)[k] + (if k < contexts' then 1 else 0)
  {
    if stash != [] {
      SplitLast(stash);
    }
  }

  lemma JumpToLoopContexts(s: State, i: nat)
    requires Enabled(s, JumpToLoop(i)) && s.schedulers[i].unowned.None?
    ensures ContextsBalance(s, DoJumpToLoop(s, i), i, s.schedulers[i].suspending.value)
  {
    var s' := DoJumpToLoop(s, i);
    var t := s.schedulers[i].suspending.value;
    forall k: nat
      ensures Held(s'.schedulers[i], k) + One(s'.tasks[t].stack, k) + s'.freed[k] - (if k < s'.contexts then 1 else 0)
           == Held(s.schedulers[i], k) + One(s.tasks[t].stack, k) + s.freed[k] - (if k < s.contexts then 1 else 0)
    {
      StashGetHeld(s.schedulers[i].stash, s.contexts, k);
    }
  }

  lemma JumpToLoopOk(c: Scheduler, k: nat, ts: seq<Task>, t: nat, x: Task, context: nat, stash: seq<nat>)
    requires SchedulerOk(c, k, ts) && c.pc.OwnedPick? && c.suspending == Some(t) && Unqueued(c, t)
    requires c.current.Some? ==> Queued(ts, c.current.value, k, Soft) && c.current.value != t
    requires RunningAt(ts[t := x], t, k, true) && |stash| <= |c.stash|
    ensures SchedulerOk(c.(pc := LoopTop, unowned := Some(context), stash := stash), k, ts[t := x])
  {
    QueuesKept(c, c.(stash := stash), k, ts, t, x);
  }

  lemma KeepsJumpToLoop(s: State, i: nat)
    requires Inv(s) && Enabled(s, JumpToLoop(i))
    ensures Inv(DoJumpToLoop(s, i))
  {
    var c := s.schedulers[i];
    var s' := DoJumpToLoop(s, i);
    var t := c.suspending.value;
    assert SchedulerOk(c, i, s.tasks) && TaskOk(s.tasks[t], |s.schedulers|);
    Sole(s, i, t);
    Tasks.Keeps(s.tasks[t], Tasks.Park);
    JumpToLoopContexts(s, i);
    JumpToLoopOk(c, i, s.tasks, t, s'.tasks[t], s'.schedulers[i].unowned.value, s'.schedulers[i].stash);
    Local(s, s', i, t);
  }

  lemma KeepsStash(s: State, i: nat)
    requires Inv(s) && Enabled(s, StashUnowned(i))
    ensures Inv(DoStash(s, i))
  {
    assert SchedulerOk(s.schedulers[i], i, s.tasks);
    LocalScheduler(s, DoStash(s, i), i);
  }

  // ------------------------------------------------------------------ every step

  lemma KeepsByAnyone(s: State, step: Step)
    requires Inv(s) && Enabled(s, step)
    requires step.Create? || step.External? || step.Deliver? || step.IoCallback?
    ensures Inv(Apply(s, step))
  {
    match step
    case Create(home) => KeepsCreate(s, home);
    case External(t, a, target) => KeepsExternal(s, t, a, target);
    case Deliver(i, t, q) => KeepsDeliver(s, i, t, q);
    case IoCallback(i, t, k) => KeepsCallback(s, i, t, k);
  }

  predicate ByTask(step: Step) {
    step.RunCode? || step.Finish? || step.StartTask? || step.ContinueTask? || step.ReturnTask?
  }

  lemma KeepsByTask(s: State, step: Step)
    requires Inv(s) && Enabled(s, step) && ByTask(step)
    ensures Inv(Apply(s, step))
  {
    match step
    case RunCode(i, a) => KeepsCode(s, i, a);
    case Finish(i) => KeepsFinish(s, i);
    case StartTask(i) => KeepsStart(s, i);
    case ContinueTask(i) => KeepsContinue(s, i);
    case ReturnTask(i) =>
      if Current(s, i).stopped {
        KeepsKill(s, i);
      } else {
        KeepsListen(s, i);
      }
  }

  predicate ByLoop(step: Step) {
    step.Suspend? || step.EnterOwned? || step.Dequeue? || step.Steal? || step.Idle?
  }

  lemma KeepsByLoop(s: State, step: Step)
    requires Inv(s) && Enabled(s, step) && ByLoop(step)
    ensures Inv(Apply(s, step))
  {
    match step
    case Suspend(i) => KeepsSuspend(s, i);
    case EnterOwned(i) => KeepsEnterOwned(s, i);
    case Dequeue(i, q) => KeepsDequeue(s, i, q);
    case Steal(i, j, q) => KeepsSteal(s, i, j, q);
    case Idle(i) => KeepsIdle(s, i);
  }

  predicate Jumping(step: Step) {
    step.JumpFromLoop? || step.JumpToLoop? || step.JumpToTask? || step.StashUnowned?
  }

  lemma KeepsJumping(s: State, step: Step)
    requires Inv(s) && Enabled(s, step) && Jumping(step)
    ensures Inv(Apply(s, step))
  {
    match step
    case JumpFromLoop(i) => KeepsJumpFromLoop(s, i);
    case JumpToLoop(i) => KeepsJumpToLoop(s, i);
    case JumpToTask(i) => KeepsJumpToTask(s, i);
    case StashUnowned(i) => KeepsStash(s, i);
  }

  /** The invariant is inductive: no step of any thread breaks it. */
  lemma Keeps(s: State, step: Step)
    requires Inv(s) && Enabled(s, step)
    ensures Inv(Apply(s, step))
  {
    if ByTask(step) {
      KeepsByTask(s, step);
    } else if ByLoop(step) {
      KeepsByLoop(s, step);
    } else if Jumping(step) {
      KeepsJumping(s, step);
    } else {
      KeepsByAnyone(s, step);
    }
  }
}
