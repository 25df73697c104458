/**
 * Reference counts: when a task is deleted, and when the environment of an await-mode IO request
 * is.
 */
module Lifetimes {
  /** Number of values of the uint32_t reference count. */
  const WORD: nat := 0x1_0000_0000

  function Up(count: nat): nat { (count + 1) % WORD }

  function Down(count: nat): nat { (count + WORD - 1) % WORD }

  // ------------------------------------------------------------------ tasks

  /**
   * Live; Clearing: kill has marked the task Dead and is destroying its parts; Cleared: it has
   * destroyed them and not yet taken the lock again; Killed: it is done.
   */
  datatype Stage = Live | Clearing | Cleared | Killed

  /** references counts the references in existence, deletions the executions of `delete`. */
  datatype State = State(refCount: nat, dead: bool, references: nat, stage: Stage, deletions: nat)

  /** A new reference comes from an old one, or from the running task itself. */
  datatype Step = Grab | Drop | Kill | Clear | EndKill

  function Initial(): State { State(0, false, 0, Live, 0) }

  predicate Enabled(s: State, step: Step) {
    match step
    case Grab => s.references > 0 || s.stage.Live?
    case Drop => s.references > 0
    case Kill => s.stage.Live?
    case Clear => s.stage.Clearing?
    case EndKill => s.stage.Cleared?
  }

  function Apply(s: State, step: Step): State
    requires Enabled(s, step)
  {
    match step
    case Grab => s.(refCount := Up(s.refCount), references := s.references + 1)
    case Drop =>
      var c := Down(s.refCount);
      s.(refCount := c, references := s.references - 1,
      deletions := if c == 0 && s.dead then s.deletions + 1 else s.deletions)
    case Kill =>
      if s.refCount == 0 then s.(stage := Killed, deletions := s.deletions + 1)
      else s.(dead := true, refCount := Up(s.refCount), stage := Clearing)
    case Clear => s.(stage := Cleared)
    case EndKill =>
      var c := Down(s.refCount);
      s.(refCount := c, stage := Killed, deletions := if c == 0 then s.deletions + 1 else s.deletions)
  }

  predicate Legal(s: State, steps: seq<Step>)
    decreases |steps|
  {
    steps == [] || (Enabled(s, steps[0]) && Legal(Apply(s, steps[0]), steps[1..]))
  }

  function After(s: State, steps: seq<Step>): State
    requires Legal(s, steps)
    decreases |steps|
  {
    if steps == [] then s else After(Apply(s, steps[0]), steps[1..])
  }

  /** The task's count and status, updated in place; model is the state they belong to. */
  class TaskCount {
    var refCount: nat
    var dead: bool
    ghost var model: State

    ghost predicate Valid()
      reads this
    {
      refCount == model.refCount && dead == model.dead
    }

    constructor ()
      ensures Valid() && model == Initial()
    {
      refCount := 0;
      dead := false;
      model := Initial();
    }

    method Grab()
      requires Valid() && Enabled(model, Step.Grab)
      modifies this
      ensures Valid() && model == Apply(old(model), Step.Grab)
    {
      refCount := (refCount + 1) % WORD;
      model := Apply(model, Step.Grab);
    }

    method Drop() returns (deleted: bool)
      requires Valid() && Enabled(model, Step.Drop)
      modifies this
      ensures Valid() && model == Apply(old(model), Step.Drop)
      ensures deleted <==> model.deletions == old(model.deletions) + 1
    {
      refCount := (refCount + WORD - 1) % WORD;
      deleted := refCount == 0 && dead;
      model := Apply(model, Step.Drop);
    }

    /** kill() up to the point where it drops the lock to clear the task. */
    method KillSection() returns (deleted: bool)
      requires Valid() && Enabled(model, Kill)
      modifies this
      ensures Valid() && model == Apply(old(model), Kill)
      ensures deleted <==> model.deletions == old(model.deletions) + 1
    {
      model := Apply(model, Kill);
      if refCount == 0 {
        deleted := true;
      } else {
        dead := true;
        refCount := (refCount + 1) % WORD;
        deleted := false;
      }
    }

    /** kill() after it took the lock again. */
    method KillEnd() returns (deleted: bool)
      requires Valid() && Enabled(model, EndKill)
      modifies this
      ensures Valid() && model == Apply(old(model), EndKill)
      ensures deleted <==> model.deletions == old(model.deletions) + 1
    {
      model := Apply(model, EndKill);
      refCount := (refCount + WORD - 1) % WORD;
      deleted := refCount == 0;
    }
  }

  /** The reference kill holds while it clears the task. */
  function Held(s: State): nat { if s.stage.Clearing? || s.stage.Cleared? then 1 else 0 }

  /** What was promised: the task is deleted once, when killed, cleared and unreferenced. */
  predicate DeletedRightly(s: State) {
    s.deletions == if s.stage.Killed? && s.references == 0 then 1 else 0
  }

  ghost predicate Inv(s: State) {
    && s.refCount == (s.references + Held(s)) % WORD
    && (s.stage.Live? ==> !s.dead)
    && (s.stage.Clearing? || s.stage.Cleared? ==> s.dead)
    && (s.stage.Killed? && s.references > 0 ==> s.dead)
    && DeletedRightly(s)
  }

  /** A positive multiple of 2^32, which the count takes for zero. */
  predicate Wraps(n: nat) { n > 0 && n % WORD == 0 }

  /**
   * The references whose wrapped count deletes a task in use: those there are when kill begins or
   * ends, those that remain at a drop after kill, and, at a drop while kill is clearing and holds
   * one itself, those before the drop.
   */
  predicate Wrapping(s: State, step: Step) {
    match step
    case Kill => Wraps(s.references)
    case EndKill => Wraps(s.references)
    case Drop =>
      (s.stage.Killed? && s.references > 0 && Wraps(s.references - 1))
      || ((s.stage.Clearing? || s.stage.Cleared?) && Wraps(s.references))
    case _ => false
  }

  lemma CountDown(n: nat)
    requires n > 0
    ensures Down(n % WORD) == (n - 1) % WORD
  {
    var q, r := n / WORD, n % WORD;
    assert n == q * WORD + r;
    if r == 0 {
      assert n - 1 == (q - 1) * WORD + (WORD - 1);
    } else {
      assert n - 1 == q * WORD + (r - 1);
    }
  }

  lemma CountUp(n: nat)
    ensures Up(n % WORD) == (n + 1) % WORD
  {
    var q, r := n / WORD, n % WORD;
    assert n == q * WORD + r;
    if r + 1 == WORD {
      assert n + 1 == (q + 1) * WORD;
    } else {
      assert n + 1 == q * WORD + (r + 1);
    }
  }

  /**
   * Each step deletes the task rightly if and only if its references are not one of those
   * multiples; and then everything else stays in order too.
   */
  lemma DeletesRightlyExactlyWhen(s: State, step: Step)
    requires Inv(s) && Enabled(s, step)
    ensures DeletedRightly(Apply(s, step)) <==> !Wrapping(s, step)
    ensures Inv(Apply(s, step)) <==> !Wrapping(s, step)
    ensures s.deletions == 0
  {
    var n := s.references + Held(s);
    if step.Drop? || step.EndKill? {
      CountDown(n);
    } else {
      CountUp(n);
    }
  }

  /** The task is deleted rightly in every state of the run. */
  predicate AlwaysRight(s: State, steps: seq<Step>)
    requires Legal(s, steps)
    decreases |steps|
  {
    DeletedRightly(s) && (steps != [] ==> AlwaysRight(Apply(s, steps[0]), steps[1..]))
  }

  predicate NeverWrapping(s: State, steps: seq<Step>)
    requires Legal(s, steps)
    decreases |steps|
  {
    steps == [] || (!Wrapping(s, steps[0]) && NeverWrapping(Apply(s, steps[0]), steps[1..]))
  }

  lemma {:induction false} RunRightExactlyWhen(s: State, steps: seq<Step>)
    requires Inv(s) && Legal(s, steps)
    ensures AlwaysRight(s, steps) <==> NeverWrapping(s, steps)
    ensures NeverWrapping(s, steps) ==> Inv(After(s, steps))
    decreases |steps|
  {
    if steps != [] {
      DeletesRightlyExactlyWhen(s, steps[0]);
      if !Wrapping(s, steps[0]) {
        RunRightExactlyWhen(Apply(s, steps[0]), steps[1..]);
      } else {
        assert !DeletedRightly(Apply(s, steps[0]));
        assert !AlwaysRight(Apply(s, steps[0]), steps[1..]);
      }
    }
  }

  /**
   * Under every interleaving of grab, drop and kill, a task is deleted exactly once (when it has
   * been killed, nothing refers to it, and kill is no longer clearing it) if and only if its
   * references never stand at one of the multiples of 2^32 above; nothing touches it afterwards.
   */
  lemma DeletedOnce(steps: seq<Step>)
    requires Legal(Initial(), steps)
    ensures AlwaysRight(Initial(), steps) <==> NeverWrapping(Initial(), steps)
    ensures NeverWrapping(Initial(), steps) ==>
              forall step: Step :: Enabled(After(Initial(), steps), step) ==> After(Initial(), steps).deletions == 0
  {
    RunRightExactlyWhen(Initial(), steps);
    if NeverWrapping(Initial(), steps) {
      forall step: Step | Enabled(After(Initial(), steps), step)
        ensures After(Initial(), steps).deletions == 0
      {
        DeletesRightlyExactlyWhen(After(Initial(), steps), step);
      }
    }
  }

  /** Fewer than 2^32 references never wrap the count to zero. */
  lemma FewReferencesAreSafe(s: State, step: Step)
    requires Enabled(s, step) && s.references < WORD
    ensures !Wrapping(s, step)
  {
  }

  /** Some run of a new task leads to the state. */
  ghost predicate Reachable(s: State) {
    exists steps: seq<Step> :: Legal(Initial(), steps) && s == After(Initial(), steps)
  }

  lemma {:induction false} RunSnoc(s: State, steps: seq<Step>, step: Step)
    requires Legal(s, steps) && Enabled(After(s, steps), step)
    ensures Legal(s, steps + [step]) && After(s, steps + [step]) == Apply(After(s, steps), step)
    decreases |steps|
  {
    if steps == [] {
      assert steps + [step] == [step] && [step][1..] == [];
    } else {
      assert (steps + [step])[0] == steps[0] && (steps + [step])[1..] == steps[1..] + [step];
      RunSnoc(Apply(s, steps[0]), steps[1..], step);
    }
  }

  lemma Go(s: State, step: Step) returns (s': State)
    requires Reachable(s) && Enabled(s, step)
    ensures Reachable(s') && s' == Apply(s, step)
  {
    var steps: seq<Step> :| Legal(Initial(), steps) && s == After(Initial(), steps);
    RunSnoc(Initial(), steps, step);
    s' := Apply(s, step);
  }

  /** Whoever may grab once may grab any number of times. */
  lemma {:induction false} GrabsMany(s: State, n: nat) returns (s': State)
    requires Reachable(s) && Enabled(s, Grab) && s.refCount < WORD
    ensures Reachable(s') && s' == s.(refCount := (s.refCount + n) % WORD, references := s.references + n)
  {
    if n == 0 {
      s' := s;
    } else {
      s' := GrabsMany(s, n - 1);
      CountUp(s.refCount + n - 1);
      s' := Go(s', Grab);
    }
  }

  /** The task is killed while one reference to it exists, and others are made as kill clears it. */
  lemma KilledWhileReferenced(more: nat) returns (s: State)
    ensures Reachable(s) && s == State((more + 2) % WORD, true, more + 1, Clearing, 0)
  {
    assert Legal(Initial(), []) && After(Initial(), []) == Initial();
    s := Go(Initial(), Grab);
    s := Go(s, Kill);
    s := GrabsMany(s, more);
  }

  /** Every state in which a step fails, as given below, is reached from a new task. */
  lemma FailuresAreReached(s: State, step: Step)
    requires step.Kill? ==> s == State(0, false, WORD, Live, 0)
    requires step.EndKill? ==> s == State(1, true, WORD, Cleared, 0)
    requires step.Drop? ==> s == State(1, true, WORD + 1, Killed, 0) || s == State(1, true, WORD, Clearing, 0)
    requires step.Kill? || step.EndKill? || step.Drop?
    ensures Reachable(s)
  {
    if step.Kill? {
      assert Legal(Initial(), []) && After(Initial(), []) == Initial();
      var s1 := GrabsMany(Initial(), WORD);
    } else if s.stage.Killed? {
      var s1 := KilledWhileReferenced(0);
      s1 := Go(s1, Clear);
      s1 := Go(s1, EndKill);
      s1 := GrabsMany(s1, WORD);
    } else {
      var s1 := KilledWhileReferenced(WORD - 1);
      if s.stage.Cleared? {
        s1 := Go(s1, Clear);
      }
    }
  }

  /**
   * Each of the failures, with its references, in a state that some run leads to: kill, the end of
   * kill, and drop at both stages.
   */
  lemma WrappedCountIsFatal(s: State, step: Step)
    requires step.Kill? ==> s == State(0, false, WORD, Live, 0)
    requires step.EndKill? ==> s == State(1, true, WORD, Cleared, 0)
    requires step.Drop? ==> s == State(1, true, WORD + 1, Killed, 0) || s == State(1, true, WORD, Clearing, 0)
    requires step.Kill? || step.EndKill? || step.Drop?
    ensures Reachable(s) && Inv(s) && Enabled(s, step)
    ensures Apply(s, step).deletions == 1 && (Apply(s, step).references >= WORD || Apply(s, step).stage.Clearing?)
  {
    FailuresAreReached(s, step);
  }

  /** All references but one are dropped, while that deletes nothing. */
  lemma {:induction false} DropsAll(s: State) returns (steps: seq<Step>)
    requires Inv(s) && s.references < WORD && s.deletions == 0 && (s.stage.Live? || s.stage.Killed?)
    ensures Legal(s, steps) && After(s, steps).references == 0
    ensures After(s, steps).stage == s.stage && After(s, steps).refCount == 0
    ensures s.stage.Killed? ==> After(s, steps).deletions == 1
    ensures s.stage.Live? ==> After(s, steps).deletions == 0
    decreases s.references
  {
    if s.references == 0 {
      steps := [];
    } else {
      FewReferencesAreSafe(s, Drop);
      DeletesRightlyExactlyWhen(s, Drop);
      var s1 := Apply(s, Drop);
      if s1.deletions == 1 {
        steps := [Drop];
        assert steps[1..] == [] && After(s1, steps[1..]) == s1;
      } else {
        var rest := DropsAll(s1);
        steps := [Drop] + rest;
        assert steps[1..] == rest;
      }
    }
  }

  /** From any point on a task that is in use can be killed, lose its references, and be deleted. */
  lemma CanAlwaysBeDeleted(s: State) returns (steps: seq<Step>)
    requires Inv(s) && s.references < WORD && s.deletions == 0
    ensures Legal(s, steps) && After(s, steps).deletions == 1 && After(s, steps).stage.Killed?
  {
    if s.stage.Live? {
      steps := DropsAll(s);
      var s1 := After(s, steps);
      RunSnoc(s, steps, Kill);
      steps := steps + [Kill];
    } else if s.stage.Killed? {
      steps := DropsAll(s);
    } else if s.stage.Clearing? {
      var rest := EndsKill(Apply(s, Clear));
      steps := [Clear] + rest;
      assert steps[1..] == rest;
    } else {
      steps := EndsKill(s);
    }
  }

  lemma EndsKill(s: State) returns (steps: seq<Step>)
    requires Inv(s) && s.references < WORD && s.deletions == 0 && s.stage.Cleared?
    ensures Legal(s, steps) && After(s, steps).deletions == 1 && After(s, steps).stage.Killed?
  {
    FewReferencesAreSafe(s, EndKill);
    DeletesRightlyExactlyWhen(s, EndKill);
    var s1 := Apply(s, EndKill);
    if s1.deletions == 1 {
      steps := [EndKill];
      assert steps[1..] == [] && After(s1, steps[1..]) == s1;
    } else {
      var rest := DropsAll(s1);
      steps := [EndKill] + rest;
      assert steps[1..] == rest;
    }
  }

  // ------------------------------------------------------------------ IO request environments

  /**
   * The environment of one request.  waiter: the awaiting frame still holds its pointer;
   * outstanding: the callback is still to come.  started says that libuv accepted the request.
   */
  datatype Env = Env(count: nat, waiter: bool, outstanding: bool, started: bool, condition: bool, deletions: nat)

  datatype EnvStep = Start(accepted: bool) | Leave | Callback

  /** After the pointer was made and the callback's reference was grabbed. */
  function NewEnv(): Env { Env(2, true, true, false, false, 0) }

  /** The frame leaves when the condition is set, when a handler threw, or when the request failed at once. */
  predicate EnvEnabled(e: Env, step: EnvStep) {
    match step
    case Start(_) => e.waiter && !e.started && e.outstanding
    case Leave => e.waiter && (e.started || !e.outstanding)
    case Callback => e.started && e.outstanding
  }

  function EnvDrop(e: Env): Env {
    e.(count := Down(e.count), deletions := if e.count == 1 then e.deletions + 1 else e.deletions)
  }

  function EnvApply(e: Env, step: EnvStep): Env {
    match step
    case Start(accepted) => if accepted then e.(started := true) else EnvDrop(e.(outstanding := false))
    case Leave => EnvDrop(e.(waiter := false))
    case Callback => EnvDrop(e.(condition := true, outstanding := false))
  }

  /** The environment as an object: its atomic count, and the condition the frame waits for. */
  class AwaitRequestEnv {
    var count: nat
    var condition: bool
    ghost var model: Env

    ghost predicate Valid()
      reads this
    {
      count == model.count < WORD && condition == model.condition
    }

    /** new Env, the intrusive pointer's reference, and the grab for the callback. */
    constructor ()
      ensures Valid() && model == NewEnv()
    {
      count := 0;
      condition := false;
      model := NewEnv();
      new;
      Grab();
      Grab();
    }

    method Grab()
      modifies this`count
      ensures count == Up(old(count))
    {
      count := (count + 1) % WORD;
    }

    method Drop() returns (deleted: bool)
      requires count < WORD
      modifies this`count
      ensures count == Down(old(count)) && (deleted <==> old(count) == 1)
    {
      deleted := count == 1;
      count := (count + WORD - 1) % WORD;
    }

    /** The call of the libuv function: a request that fails at once will never call back. */
    method StartRequest(accepted: bool) returns (deleted: bool)
      requires Valid() && EnvEnabled(model, Start(accepted))
      modifies this
      ensures Valid() && model == EnvApply(old(model), Start(accepted))
      ensures deleted <==> model.deletions == old(model.deletions) + 1
    {
      deleted := false;
      if !accepted {
        deleted := Drop();
      }
      model := EnvApply(model, Start(accepted));
    }

    method RequestCompleted() returns (deleted: bool)
      requires Valid() && EnvEnabled(model, Callback)
      modifies this
      ensures Valid() && condition && model == EnvApply(old(model), Callback)
      ensures deleted <==> model.deletions == old(model.deletions) + 1
    {
      condition := true;
      deleted := Drop();
      model := EnvApply(model, Callback);
    }

    /** The intrusive pointer of the awaiting frame goes out of scope, by return or by exception. */
    method FrameLeaves() returns (deleted: bool)
      requires Valid() && EnvEnabled(model, Leave)
      modifies this
      ensures Valid() && model == EnvApply(old(model), Leave)
      ensures deleted <==> model.deletions == old(model.deletions) + 1
    {
      deleted := Drop();
      model := EnvApply(model, Leave);
    }
  }

  predicate EnvLegal(e: Env, steps: seq<EnvStep>)
    decreases |steps|
  {
    steps == [] || (EnvEnabled(e, steps[0]) && EnvLegal(EnvApply(e, steps[0]), steps[1..]))
  }

  function EnvAfter(e: Env, steps: seq<EnvStep>): Env
    decreases |steps|
  {
    if steps == [] then e else EnvAfter(EnvApply(e, steps[0]), steps[1..])
  }

  ghost predicate EnvInv(e: Env) {
    e.count == (if e.waiter then 1 else 0) + (if e.outstanding then 1 else 0)
    && e.deletions == (if e.count == 0 then 1 else 0)
  }

  lemma {:induction false} EnvRunKeeps(e: Env, steps: seq<EnvStep>)
    requires EnvInv(e) && EnvLegal(e, steps)
    ensures EnvInv(EnvAfter(e, steps))
    decreases |steps|
  {
    if steps != [] {
      EnvRunKeeps(EnvApply(e, steps[0]), steps[1..]);
    }
  }

  /**
   * The environment is deleted exactly once, when both the frame (by return or by exception) and
   * the callback are done with it, and neither touches it afterwards.
   */
  lemma EnvFreedOnce(steps: seq<EnvStep>, step: EnvStep)
    requires EnvLegal(NewEnv(), steps)
    ensures var e := EnvAfter(NewEnv(), steps);
            e.deletions == (if e.waiter || e.outstanding then 0 else 1)
            && (EnvEnabled(e, step) ==> e.deletions == 0)
  {
    EnvRunKeeps(NewEnv(), steps);
  }

  /**
   * The frame finds the condition set if and only if the callback has run; the callback of a
   * request that was accepted can still run, once, and the frame can always leave once the
   * request was started.
   */
  lemma ConditionTellsCallback(steps: seq<EnvStep>)
    requires EnvLegal(NewEnv(), steps)
    ensures var e := EnvAfter(NewEnv(), steps);
            (e.condition <==> Callback in steps)
            && (EnvEnabled(e, Callback) <==> Start(true) in steps && Callback !in steps)
            && (EnvEnabled(e, Leave) <==> (Start(true) in steps || Start(false) in steps) && Leave !in steps)
  {
    EnvHistory(NewEnv(), steps);
  }

  /** Nothing undoes a start, a callback or a leave. */
  lemma {:induction false} EnvHistory(e: Env, steps: seq<EnvStep>)
    requires EnvLegal(e, steps) && EnvInv(e) && EnvPhases(e)
    ensures var f := EnvAfter(e, steps);
            EnvPhases(f)
            && (f.condition <==> e.condition || Callback in steps)
            && (f.started <==> e.started || Start(true) in steps)
            && (f.waiter <==> e.waiter && Leave !in steps)
            && (f.outstanding <==> e.outstanding && Callback !in steps && Start(false) !in steps)
    decreases |steps|
  {
    if steps != [] {
      assert steps == [steps[0]] + steps[1..];
      EnvHistory(EnvApply(e, steps[0]), steps[1..]);
    }
  }

  /** A request ends in its callback or was refused. */
  predicate EnvPhases(e: Env) {
    (e.condition ==> e.started && !e.outstanding) && (e.started && !e.condition ==> e.outstanding)
  }
}
