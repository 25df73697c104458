/**
 * Reference counts of handlers: HandlerRef objects and the manual grabs of standard handlers; and
 * the handlers themselves, which the handler blocks of one task own and destroy.
 */
module HandlerRefs {
  import opened Options
  import Handlers

  /** A handler as the counting sees it. */
  datatype Cell = Cell(refCount: nat, hasClosure: bool)

  function Gained(c: Cell): Cell { c.(refCount := c.refCount + 1) }

  /** drop(): the last reference takes the closure with it. */
  function Lost(c: Cell): Cell
    requires c.refCount > 0
  {
    Cell(c.refCount - 1, c.hasClosure && c.refCount != 1)
  }

  class Handler {
    var refCount: nat
    var hasClosure: bool

    ghost function View(): Cell
      reads this
    {
      Cell(refCount, hasClosure)
    }

    constructor ()
      ensures View() == Cell(0, true)
    {
      refCount := 0;
      hasClosure := true;
    }

    method Grab()
      modifies this
      ensures View() == Gained(old(View()))
    {
      refCount := refCount + 1;
    }

    method Drop()
      requires refCount > 0
      modifies this
      ensures View() == Lost(old(View()))
    {
      refCount := refCount - 1;
      if refCount == 0 {
        hasClosure := false;
      }
    }
  }

  class HandlerRef {
    var handler: Handler?

    constructor (handler: Handler?)
      modifies handler
      ensures this.handler == handler
      ensures handler != null ==> handler.View() == Gained(old(handler.View()))
    {
      this.handler := handler;
      if handler != null {
        handler.Grab();
      }
    }

    constructor Copy(source: HandlerRef)
      modifies source.handler
      ensures handler == source.handler == old(source.handler)
      ensures handler != null ==> handler.View() == Gained(old(source.handler.View()))
    {
      handler := source.handler;
      new;
      if handler != null {
        handler.Grab();
      }
    }

    /** The reference moves, and no count changes. */
    constructor Move(source: HandlerRef)
      modifies source
      ensures handler == old(source.handler) && source.handler == null
    {
      handler := source.handler;
      new;
      source.handler := null;
    }

    method Release()
      requires handler != null ==> handler.refCount > 0
      modifies this, handler
      ensures handler == null
      ensures old(handler) != null ==> old(handler).View() == Lost(old(handler.View()))
    {
      if handler != null {
        handler.Drop();
        handler := null;
      }
    }

    /** Move assignment; a reference moved to itself is released. */
    method MoveAssign(source: HandlerRef)
      requires handler != null ==> handler.refCount > 0
      modifies this, handler, source
      ensures source.handler == null
      ensures source != this ==> handler == old(source.handler)
      ensures old(handler) != null ==> old(handler).View() == Lost(old(handler.View()))
    {
      if handler != null {
        handler.Drop();
      }
      handler := source.handler;
      source.handler := null;
    }

    /** Copy assignment, also from itself: the old handler is dropped before the new one is grabbed. */
    method Assign(source: HandlerRef)
      requires handler != null ==> handler.refCount > 0
      modifies this, handler, source.handler
      ensures handler == old(source.handler) && source.handler == old(source.handler)
      ensures handler != null && handler == old(handler) ==> handler.View() == Gained(Lost(old(handler.View())))
      ensures handler != null && handler != old(handler) ==> handler.View() == Gained(old(source.handler.View()))
      ensures old(handler) != null && handler != old(handler) ==> old(handler).View() == Lost(old(handler.View()))
    {
      if handler != null {
        handler.Drop();
      }
      handler := source.handler;
      if handler != null {
        handler.Grab();
      }
    }
  }

  // ------------------------------------------------------------------ any number of handlers and references

  /**
   * counts holds the handlers ever made with their counts, cleared those whose closure was
   * destroyed.  blocks are the task's handler blocks by path, home the path each handler was bound
   * to, and destroyed the handlers deleted, as often as they were.
   */
  datatype State = State(
    refs: seq<Option<nat>>, grabs: multiset<nat>, counts: map<nat, nat>, cleared: set<nat>,
    blocks: map<nat, seq<Handlers.Slot>>, home: map<nat, nat>, destroyed: multiset<nat>)

  datatype Step =
    | Bind(h: nat, path: nat)
    | BindStandard(h: nat, path: nat)
    | Grab(h: nat)
    | Copy(r: nat)
    | Move(r: nat)
    | Release(r: nat)
    | CopyAssign(to: nat, from: nat)
    | MoveAssign(to: nat, from: nat)
      // an event of the path is dispatched
    | Collect(path: nat)
      // kill clears the blocks, or deletes the task with them: one handler after the other
    | Clear(path: nat)

  function Initial(): State { State([], multiset{}, map[], {}, map[], map[], multiset{}) }

  predicate Enabled(s: State, step: Step) {
    match step
    case Bind(h, _) => h !in s.counts
    case BindStandard(h, _) => h !in s.counts
    case Grab(h) => h in s.counts && s.counts[h] > 0 && h !in s.destroyed
    case Copy(r) => r < |s.refs|
    case Move(r) => r < |s.refs|
    case Release(r) => r < |s.refs|
    case CopyAssign(d, r) => d < |s.refs| && r < |s.refs|
    case MoveAssign(d, r) => d < |s.refs| && r < |s.refs|
    case Collect(path) => path in s.blocks
    case Clear(path) => path in s.blocks && s.blocks[path] != []
  }

  function Grabbed(s: State, o: Option<nat>): State {
    if o.Some? && o.value in s.counts then s.(counts := s.counts[o.value := s.counts[o.value] + 1]) else s
  }

  /** drop(): the closure goes with the last reference. */
  function Dropped(s: State, o: Option<nat>): State {
    if o.Some? && o.value in s.counts && s.counts[o.value] > 0 then
      var n := s.counts[o.value] - 1;
      s.(counts := s.counts[o.value := n], cleared := if n == 0 then s.cleared + {o.value} else s.cleared)
    else s
  }

  /** The handlers that are not isDestroyed(). */
  function Live(s: State): set<nat> { set h | h in s.counts && s.counts[h] > 0 }

  function BlockOf(s: State, path: nat): seq<Handlers.Slot> { if path in s.blocks then s.blocks[path] else [] }

  /** A block is there as long as it has handlers. */
  function WithBlock(s: State, path: nat, block: seq<Handlers.Slot>): State {
    s.(blocks := if block == [] then s.blocks - {path} else s.blocks[path := block])
  }

  /** What a slot owns is deleted with it. */
  function Freed(slot: Handlers.Slot): seq<nat> { if slot.Some? then [slot.value] else [] }

  function Bound(s: State, h: nat, path: nat): State {
    WithBlock(s, path, BlockOf(s, path) + [Some(h)]).(home := s.home[h := path])
  }

  function Apply(s: State, step: Step): State
    requires Enabled(s, step)
  {
    match step
    case Bind(h, path) => Bound(s, h, path).(refs := s.refs + [Some(h)], counts := s.counts[h := 1])
    case BindStandard(h, path) =>
      Bound(s, h, path).(grabs := s.grabs + multiset{h}, counts := s.counts[h := 1])
    case Grab(h) => Grabbed(s, Some(h)).(grabs := s.grabs + multiset{h})
    case Copy(r) => Grabbed(s, s.refs[r]).(refs := s.refs + [s.refs[r]])
    case Move(r) => s.(refs := s.refs[r := None] + [s.refs[r]])
    case Release(r) => Dropped(s, s.refs[r]).(refs := s.refs[r := None])
    case CopyAssign(d, r) => Grabbed(Dropped(s, s.refs[d]), s.refs[r]).(refs := s.refs[d := s.refs[r]])
    case MoveAssign(d, r) => Dropped(s, s.refs[d]).(refs := s.refs[d := s.refs[r]][r := None])
    case Collect(path) =>
      WithBlock(s, path, Handlers.LiveOnly(s.blocks[path], Live(s)))
      .(destroyed := s.destroyed + multiset(Handlers.DeadOnly(s.blocks[path], Live(s))))
    case Clear(path) =>
      WithBlock(s, path, s.blocks[path][1..])
      .(destroyed := s.destroyed + multiset(Freed(s.blocks[path][0])))
  }

  /** A HandlerRef copy-assigned to itself while it is the handler's only reference. */
  predicate SoleSelfAssign(s: State, step: Step) {
    step.CopyAssign? && step.to == step.from && step.to < |s.refs| && s.refs[step.to].Some?
    && s.refs[step.to].value in s.counts && s.counts[s.refs[step.to].value] == 1
  }

  predicate Legal(s: State, steps: seq<Step>)
    decreases |steps|
  {
    steps == [] || (Enabled(s, steps[0]) && Legal(Apply(s, steps[0]), steps[1..]))
  }

  function After(s: State, steps: seq<Step>): State
    requires Legal(s, steps)
    decreases |steps|
  {
    if steps == [] then s else After(Apply(s, steps[0]), steps[1..])
  }

  predicate NoSoleSelfAssign(s: State, steps: seq<Step>)
    requires Legal(s, steps)
    decreases |steps|
  {
    steps == [] || (!SoleSelfAssign(s, steps[0]) && NoSoleSelfAssign(Apply(s, steps[0]), steps[1..]))
  }

  function One(o: Option<nat>, h: nat): nat { if o == Some(h) then 1 else 0 }

  /** How many HandlerRefs hold handler h. */
  function Uses(refs: seq<Option<nat>>, h: nat): nat {
    if refs == [] then 0 else One(refs[0], h) + Uses(refs[1..], h)
  }

  /** A handler's count is the number of references to it and grabs of it. */
  ghost predicate CountsOk(s: State) {
    && (forall h :: h in s.counts ==> s.counts[h] == Uses(s.refs, h) + s.grabs[h])
    && (forall h: nat :: Uses(s.refs, h) + s.grabs[h] > 0 ==> h in s.counts)
    && (forall h :: h in s.cleared ==> h in s.counts)
  }

  /** A closure is there exactly while something refers to its handler. */
  ghost predicate ClosuresOk(s: State) {
    forall h :: h in s.counts ==> (h in s.cleared <==> s.counts[h] == 0)
  }

  lemma {:induction false} UsesUpdate(refs: seq<Option<nat>>, r: nat, x: Option<nat>, h: nat)
    requires r < |refs|
    ensures Uses(refs[r := x], h) + One(refs[r], h) == Uses(refs, h) + One(x, h)
    ensures Uses(refs, h) >= One(refs[r], h)
  {
    if r == 0 {
      assert refs[r := x][1..] == refs[1..];
    } else {
      assert refs[r := x][1..] == refs[1..][r - 1 := x];
      UsesUpdate(refs[1..], r - 1, x, h);
    }
  }

  lemma {:induction false} UsesAppend(refs: seq<Option<nat>>, x: Option<nat>, h: nat)
    ensures Uses(refs + [x], h) == Uses(refs, h) + One(x, h)
  {
    if refs == [] {
      assert refs + [x] == [x];
    } else {
      assert (refs + [x])[1..] == refs[1..] + [x];
      UsesAppend(refs[1..], x, h);
    }
  }

  lemma {:induction false} UsesMeans(refs: seq<Option<nat>>, h: nat)
    ensures Uses(refs, h) > 0 <==> Some(h) in refs
  {
    if refs != [] {
      UsesMeans(refs[1..], h);
      assert Some(h) in refs <==> Some(h) == refs[0] || Some(h) in refs[1..];
    }
  }

  /** A reference that exists names a handler with a positive count. */
  lemma RefIsCounted(s: State, r: nat)
    requires CountsOk(s) && r < |s.refs| && s.refs[r].Some?
    ensures s.refs[r].value in s.counts && s.counts[s.refs[r].value] >= 1
  {
    UsesUpdate(s.refs, r, None, s.refs[r].value);
  }

  function CellOf(s: State, h: nat): Cell
    requires h in s.counts
  {
    Cell(s.counts[h], h !in s.cleared)
  }

  /** What the operation of a step does to the handler h that a reference holds. */
  ghost predicate ActsOn(s: State, s': State, o: Option<nat>, change: Cell -> Cell) {
    o.Some? ==> o.value in s.counts && o.value in s'.counts && CellOf(s', o.value) == change(CellOf(s, o.value))
  }

  function Losing(c: Cell): Cell { if c.refCount > 0 then Lost(c) else c }

  /** The steps move references and handlers as the methods of the classes do. */
  lemma StepsAreOperations(s: State, step: Step)
    requires CountsOk(s) && Enabled(s, step)
    ensures var s' := Apply(s, step);
            match step
            case Bind(h, _) =>
              s'.refs == s.refs + [Some(h)] && h in s'.counts && s'.counts[h] == Gained(Cell(0, true)).refCount
            case BindStandard(h, _) =>
              s'.refs == s.refs && h in s'.counts && s'.counts[h] == Gained(Cell(0, true)).refCount
            case Grab(h) => s'.refs == s.refs && ActsOn(s, s', Some(h), Gained)
            case Copy(r) => s'.refs == s.refs + [s.refs[r]] && ActsOn(s, s', s.refs[r], Gained)
            case Move(r) =>
              s'.refs == s.refs[r := None] + [s.refs[r]] && s'.counts == s.counts && s'.cleared == s.cleared
            case Release(r) => s'.refs == s.refs[r := None] && ActsOn(s, s', s.refs[r], Losing)
            case CopyAssign(d, r) =>
              s'.refs == s.refs[d := s.refs[r]]
              && if s.refs[d] == s.refs[r] then ActsOn(s, s', s.refs[r], c => Gained(Losing(c)))
                 else ActsOn(s, s', s.refs[r], Gained) && ActsOn(s, s', s.refs[d], Losing)
            case MoveAssign(d, r) => s'.refs == s.refs[d := s.refs[r]][r := None] && ActsOn(s, s', s.refs[d], Losing)
            case _ => s'.refs == s.refs && s'.counts == s.counts && s'.cleared == s.cleared
  {
    if (step.Copy? || step.Release?) && s.refs[step.r].Some? {
      RefIsCounted(s, step.r);
    }
    if step.MoveAssign? && s.refs[step.to].Some? {
      RefIsCounted(s, step.to);
    }
    if step.CopyAssign? {
      AssignIsOperation(s, step.to, step.from);
    }
  }

  lemma AssignIsOperation(s: State, d: nat, r: nat)
    requires CountsOk(s) && d < |s.refs| && r < |s.refs|
    ensures var s' := Apply(s, CopyAssign(d, r));
            s'.refs == s.refs[d := s.refs[r]]
            && if s.refs[d] == s.refs[r] then ActsOn(s, s', s.refs[r], c => Gained(Losing(c)))
               else ActsOn(s, s', s.refs[r], Gained) && ActsOn(s, s', s.refs[d], Losing)
  {
    if s.refs[r].Some? {
      RefIsCounted(s, r);
    }
    if s.refs[d].Some? {
      RefIsCounted(s, d);
    }
  }

  /** s' has the same handlers, and its counts moved with its references. */
  lemma Balanced(s: State, s': State)
    requires CountsOk(s) && s'.counts.Keys == s.counts.Keys
    requires forall h: nat :: h in s.counts ==>
               s'.counts[h] + Uses(s.refs, h) + s.grabs[h] == s.counts[h] + Uses(s'.refs, h) + s'.grabs[h]
    requires forall h: nat :: h !in s.counts ==> Uses(s'.refs, h) + s'.grabs[h] == 0
    requires forall h :: h in s'.cleared ==> h in s'.counts
    ensures CountsOk(s')
  {
    assert forall h :: h in s'.counts <==> h in s'.counts.Keys;
  }

  lemma KeepsNew(s: State, step: Step)
    requires CountsOk(s) && Enabled(s, step) && (step.Bind? || step.BindStandard?)
    ensures CountsOk(Apply(s, step))
  {
    forall h: nat
      ensures Uses(s.refs + [Some(step.h)], h) == Uses(s.refs, h) + One(Some(step.h), h)
    {
      UsesAppend(s.refs, Some(step.h), h);
    }
    assert Uses(s.refs, step.h) + s.grabs[step.h] == 0;
  }

  lemma KeepsCopy(s: State, r: nat)
    requires CountsOk(s) && r < |s.refs|
    ensures CountsOk(Apply(s, Copy(r)))
  {
    if s.refs[r].Some? {
      RefIsCounted(s, r);
    }
    forall h: nat
      ensures Uses(s.refs + [s.refs[r]], h) == Uses(s.refs, h) + One(s.refs[r], h)
    {
      UsesAppend(s.refs, s.refs[r], h);
    }
    Balanced(s, Apply(s, Copy(r)));
  }

  lemma KeepsMove(s: State, r: nat)
    requires CountsOk(s) && r < |s.refs|
    ensures CountsOk(Apply(s, Move(r)))
  {
    forall h: nat
      ensures Uses(s.refs[r := None] + [s.refs[r]], h) == Uses(s.refs, h)
    {
      UsesUpdate(s.refs, r, None, h);
      UsesAppend(s.refs[r := None], s.refs[r], h);
    }
    Balanced(s, Apply(s, Move(r)));
  }

  lemma KeepsRelease(s: State, r: nat)
    requires CountsOk(s) && r < |s.refs|
    ensures CountsOk(Apply(s, Release(r)))
  {
    if s.refs[r].Some? {
      RefIsCounted(s, r);
    }
    forall h: nat
      ensures Uses(s.refs[r := None], h) + One(s.refs[r], h) == Uses(s.refs, h)
    {
      UsesUpdate(s.refs, r, None, h);
    }
    Balanced(s, Apply(s, Release(r)));
  }

  /** A drop and a grab move the counts of the two handlers by one each. */
  lemma AssignCounts(s: State, a: Option<nat>, b: Option<nat>)
    requires a.Some? ==> a.value in s.counts && s.counts[a.value] > 0
    requires b.Some? ==> b.value in s.counts
    ensures var s' := Grabbed(Dropped(s, a), b);
            s'.counts.Keys == s.counts.Keys && s'.refs == s.refs && s'.grabs == s.grabs
            && (forall h :: h in s.counts ==> s'.counts[h] + One(a, h) == s.counts[h] + One(b, h))
            && (forall h :: h in s'.cleared ==> h in s.cleared || a == Some(h))
  {
  }

  lemma KeepsCopyAssign(s: State, d: nat, r: nat)
    requires CountsOk(s) && d < |s.refs| && r < |s.refs|
    ensures CountsOk(Apply(s, CopyAssign(d, r)))
  {
    if s.refs[d].Some? {
      RefIsCounted(s, d);
    }
    if s.refs[r].Some? {
      RefIsCounted(s, r);
    }
    AssignCounts(s, s.refs[d], s.refs[r]);
    forall h: nat
      ensures Uses(s.refs[d := s.refs[r]], h) + One(s.refs[d], h) == Uses(s.refs, h) + One(s.refs[r], h)
    {
      UsesUpdate(s.refs, d, s.refs[r], h);
    }
    Balanced(s, Apply(s, CopyAssign(d, r)));
  }

  lemma KeepsMoveAssign(s: State, d: nat, r: nat)
    requires CountsOk(s) && d < |s.refs| && r < |s.refs|
    ensures CountsOk(Apply(s, MoveAssign(d, r)))
  {
    if s.refs[d].Some? {
      RefIsCounted(s, d);
    }
    forall h: nat
      ensures Uses(s.refs[d := s.refs[r]][r := None], h) + One(s.refs[d], h) == Uses(s.refs, h)
    {
      UsesUpdate(s.refs, d, s.refs[r], h);
      UsesUpdate(s.refs[d := s.refs[r]], r, None, h);
    }
    Balanced(s, Apply(s, MoveAssign(d, r)));
  }

  lemma KeepsCounts(s: State, step: Step)
    requires CountsOk(s) && Enabled(s, step)
    ensures CountsOk(Apply(s, step))
  {
    match step
    case Bind(_, _) => KeepsNew(s, step);
    case BindStandard(_, _) => KeepsNew(s, step);
    case Grab(h) =>
    case Copy(r) => KeepsCopy(s, r);
    case Move(r) => KeepsMove(s, r);
    case Release(r) => KeepsRelease(s, r);
    case CopyAssign(d, r) => KeepsCopyAssign(s, d, r);
    case MoveAssign(d, r) => KeepsMoveAssign(s, d, r);
    case _ =>
  }

  lemma SelfAssignBreaks(s: State, d: nat)
    requires CountsOk(s) && ClosuresOk(s) && d < |s.refs| && SoleSelfAssign(s, CopyAssign(d, d))
    ensures !ClosuresOk(Apply(s, CopyAssign(d, d)))
  {
    assert s.refs[d].value in Apply(s, CopyAssign(d, d)).counts;
  }

  lemma AssignKeepsClosures(s: State, d: nat, r: nat)
    requires CountsOk(s) && ClosuresOk(s) && d < |s.refs| && r < |s.refs| && !SoleSelfAssign(s, CopyAssign(d, r))
    ensures ClosuresOk(Apply(s, CopyAssign(d, r)))
  {
    if s.refs[d].Some? {
      RefIsCounted(s, d);
    }
    if s.refs[r].Some? {
      RefIsCounted(s, r);
      var h := s.refs[r].value;
      if d != r && s.refs[d] == s.refs[r] {
        // two references hold h, so dropping one does not destroy it
        UsesUpdate(s.refs, d, None, h);
        UsesUpdate(s.refs[d := None], r, None, h);
      }
    }
  }

  /** An operation breaks the rule for closures exactly when it assigns a sole reference to itself. */
  lemma ClosuresKeptExactlyWhen(s: State, step: Step)
    requires CountsOk(s) && ClosuresOk(s) && Enabled(s, step)
    ensures ClosuresOk(Apply(s, step)) <==> !SoleSelfAssign(s, step)
  {
    match step
    case CopyAssign(d, r) =>
      if SoleSelfAssign(s, step) {
        SelfAssignBreaks(s, d);
      } else {
        AssignKeepsClosures(s, d, r);
      }
    case Copy(r) =>
      if s.refs[r].Some? {
        RefIsCounted(s, r);
      }
    case _ => OthersKeepClosures(s, step);
  }

  lemma OthersKeepClosures(s: State, step: Step)
    requires CountsOk(s) && ClosuresOk(s) && Enabled(s, step) && !step.CopyAssign? && !step.Copy?
    ensures ClosuresOk(Apply(s, step))
  {
    match step
    case Release(r) =>
      DroppingKeepsClosures(s, s.refs[r]);
      assert ClosuresOk(Dropped(s, s.refs[r]));
    case MoveAssign(d, _) =>
      DroppingKeepsClosures(s, s.refs[d]);
      assert ClosuresOk(Dropped(s, s.refs[d]));
    case Bind(h, _) => assert h !in s.cleared;
    case BindStandard(h, _) => assert h !in s.cleared;
    case _ =>
  }

  lemma DroppingKeepsClosures(s: State, o: Option<nat>)
    requires ClosuresOk(s)
    ensures ClosuresOk(Dropped(s, o))
  {
  }

  /**
   * In every run, a handler's count is the number of HandlerRefs and manual grabs that hold it;
   * without the self-assignment above its closure is there exactly while that number is positive.
   */
  lemma {:induction false} LiveWhileReferenced(s: State, steps: seq<Step>)
    requires CountsOk(s) && ClosuresOk(s) && Legal(s, steps)
    ensures CountsOk(After(s, steps))
    ensures NoSoleSelfAssign(s, steps) ==> ClosuresOk(After(s, steps))
    decreases |steps|
  {
    if steps != [] {
      KeepsCounts(s, steps[0]);
      ClosuresKeptExactlyWhen(s, steps[0]);
      if SoleSelfAssign(s, steps[0]) {
        RunKeepsCounts(Apply(s, steps[0]), steps[1..]);
      } else {
        LiveWhileReferenced(Apply(s, steps[0]), steps[1..]);
      }
    }
  }

  lemma {:induction false} RunKeepsCounts(s: State, steps: seq<Step>)
    requires CountsOk(s) && Legal(s, steps)
    ensures CountsOk(After(s, steps))
    decreases |steps|
  {
    if steps != [] {
      KeepsCounts(s, steps[0]);
      RunKeepsCounts(Apply(s, steps[0]), steps[1..]);
    }
  }

  /** What that means for the handlers of a new task. */
  lemma HandlerIsLive(steps: seq<Step>, h: nat)
    requires Legal(Initial(), steps) && NoSoleSelfAssign(Initial(), steps)
    requires h in After(Initial(), steps).counts
    ensures var s := After(Initial(), steps);
            h !in s.cleared <==> Some(h) in s.refs || h in s.grabs
  {
    LiveWhileReferenced(Initial(), steps);
    var s := After(Initial(), steps);
    UsesMeans(s.refs, h);
  }

  // ------------------------------------------------------------------ who owns the handlers

  function Slots(s: State, path: nat, h: nat): nat { multiset(Handlers.Owned(BlockOf(s, path)))[h] }

  /** A handler is in exactly one slot, in the block it was bound to, or was destroyed once. */
  ghost predicate HandlerOk(s: State, h: nat) {
    && (h in s.home <==> h in s.counts)
    && (h in s.home ==> Slots(s, s.home[h], h) + s.destroyed[h] == 1)
    && (h !in s.home ==> s.destroyed[h] == 0)
    && (forall path: nat :: Slots(s, path, h) > 0 ==> h in s.home && s.home[h] == path)
  }

  ghost predicate OwnedOk(s: State) { forall h: nat :: HandlerOk(s, h) }

  lemma BlockChanges(s: State, path: nat, block: seq<Handlers.Slot>, p: nat)
    ensures BlockOf(WithBlock(s, path, block), p) == if p == path then block else BlockOf(s, p)
  {
  }

  /** A handler whose slots and destructions stay the same. */
  lemma HandlerStays(s: State, s': State, h: nat)
    requires HandlerOk(s, h) && (h in s'.home <==> h in s.home) && (h in s'.counts <==> h in s.counts)
    requires h in s.home ==> s'.home[h] == s.home[h]
    requires s'.destroyed[h] == s.destroyed[h] && forall p: nat :: Slots(s', p, h) == Slots(s, p, h)
    ensures HandlerOk(s', h)
  {
  }

  /** A handler of the path of which n slots are destroyed. */
  lemma HandlerLeaves(s: State, s': State, path: nat, h: nat, n: nat)
    requires HandlerOk(s, h) && s'.home == s.home && s'.counts == s.counts
    requires s'.destroyed[h] == s.destroyed[h] + n && Slots(s', path, h) + n == Slots(s, path, h)
    requires forall p: nat :: p != path ==> Slots(s', p, h) == Slots(s, p, h)
    ensures HandlerOk(s', h)
  {
    if n == 0 {
      HandlerStays(s, s', h);
    } else {
      assert h in s.home && s.home[h] == path;
      assert Slots(s', path, h) + s'.destroyed[h] == 1;
    }
  }

  /** The block of one path becomes another, and the handlers it loses are destroyed. */
  lemma BlockShrinks(s: State, path: nat, block: seq<Handlers.Slot>, dead: seq<nat>, h: nat)
    requires HandlerOk(s, h)
    requires multiset(Handlers.Owned(block)) + multiset(dead) == multiset(Handlers.Owned(BlockOf(s, path)))
    ensures HandlerOk(WithBlock(s, path, block).(destroyed := s.destroyed + multiset(dead)), h)
  {
    var s' := WithBlock(s, path, block).(destroyed := s.destroyed + multiset(dead));
    forall p: nat
      ensures Slots(s', p, h) + (if p == path then multiset(dead)[h] else 0) == Slots(s, p, h)
    {
      BlockChanges(s, path, block, p);
      assert (multiset(Handlers.Owned(block)) + multiset(dead))[h] == multiset(Handlers.Owned(BlockOf(s, path)))[h];
    }
    HandlerLeaves(s, s', path, h, multiset(dead)[h]);
  }

  lemma CollectKeepsOwned(s: State, path: nat, h: nat)
    requires HandlerOk(s, h) && path in s.blocks
    ensures HandlerOk(Apply(s, Collect(path)), h)
  {
    Handlers.CollectionLosesNothing(s.blocks[path], Live(s));
    BlockShrinks(s, path, Handlers.LiveOnly(s.blocks[path], Live(s)), Handlers.DeadOnly(s.blocks[path], Live(s)), h);
  }

  lemma ClearKeepsOwned(s: State, path: nat, h: nat)
    requires HandlerOk(s, h) && Enabled(s, Clear(path))
    ensures HandlerOk(Apply(s, Clear(path)), h)
  {
    var block := s.blocks[path];
    assert block == [block[0]] + block[1..];
    Handlers.OwnedCons(block[0], block[1..]);
    BlockShrinks(s, path, block[1..], Freed(block[0]), h);
  }

  /** A new handler is in the last slot of its path's block. */
  lemma BoundSlots(s: State, h: nat, path: nat, p: nat, x: nat)
    ensures Slots(Bound(s, h, path), p, x) == Slots(s, p, x) + (if p == path then One(Some(h), x) else 0)
  {
    BlockChanges(s, path, BlockOf(s, path) + [Some(h)], p);
    assert BlockOf(Bound(s, h, path), p) == BlockOf(WithBlock(s, path, BlockOf(s, path) + [Some(h)]), p);
    Handlers.OwnedSnoc(BlockOf(s, path), Some(h));
  }

  lemma SlotsStay(s: State, s': State, p: nat, h: nat)
    requires s'.blocks == s.blocks
    ensures Slots(s', p, h) == Slots(s, p, h)
  {
    assert BlockOf(s', p) == BlockOf(s, p);
  }

  lemma BindingKeepsOwned(s: State, step: Step, x: nat)
    requires HandlerOk(s, x) && Enabled(s, step) && (step.Bind? || step.BindStandard?)
    ensures HandlerOk(Apply(s, step), x)
  {
    var s' := Apply(s, step);
    forall p: nat
      ensures Slots(s', p, x) == Slots(s, p, x) + (if p == step.path then One(Some(step.h), x) else 0)
    {
      SlotsStay(Bound(s, step.h, step.path), s', p, x);
      BoundSlots(s, step.h, step.path, p, x);
    }
    if x == step.h {
      assert Slots(s, step.path, x) == 0;
    } else {
      HandlerStays(s, s', x);
    }
  }

  /** Operations on references leave the blocks alone and destroy nothing. */
  lemma OthersKeepOwned(s: State, step: Step, h: nat)
    requires HandlerOk(s, h) && Enabled(s, step)
    requires !step.Bind? && !step.BindStandard? && !step.Collect? && !step.Clear?
    ensures HandlerOk(Apply(s, step), h)
  {
    var s' := Apply(s, step);
    BlocksStay(s, step);
    assert h in s'.counts <==> h in s'.counts.Keys;
    forall p: nat
      ensures Slots(s', p, h) == Slots(s, p, h)
    {
      SlotsStay(s, s', p, h);
    }
    HandlerStays(s, s', h);
  }

  lemma BlocksStay(s: State, step: Step)
    requires Enabled(s, step) && !step.Bind? && !step.BindStandard? && !step.Collect? && !step.Clear?
    ensures var s' := Apply(s, step);
            s'.blocks == s.blocks && s'.home == s.home && s'.destroyed == s.destroyed
            && s'.counts.Keys == s.counts.Keys
  {
    match step
    case Grab(h) => CountsMove(s, None, Some(h));
    case Copy(r) => CountsMove(s, None, s.refs[r]);
    case Release(r) => CountsMove(s, s.refs[r], None);
    case CopyAssign(d, r) => CountsMove(s, s.refs[d], s.refs[r]);
    case MoveAssign(d, r) => CountsMove(s, s.refs[d], None);
    case Move(_) =>
  }

  lemma CountsMove(s: State, dropped: Option<nat>, grabbed: Option<nat>)
    ensures Dropped(s, None) == s && Grabbed(Dropped(s, dropped), None) == Dropped(s, dropped)
    ensures var s' := Grabbed(Dropped(s, dropped), grabbed);
            s'.blocks == s.blocks && s'.home == s.home && s'.destroyed == s.destroyed
            && s'.counts.Keys == s.counts.Keys
  {
    var s1 := Dropped(s, dropped);
    assert s1.counts.Keys == s.counts.Keys;
  }

  lemma KeepsOwned(s: State, step: Step)
    requires OwnedOk(s) && Enabled(s, step)
    ensures OwnedOk(Apply(s, step))
  {
    forall h: nat
      ensures HandlerOk(Apply(s, step), h)
    {
      assert HandlerOk(s, h);
      match step
      case Bind(_, _) => BindingKeepsOwned(s, step, h);
      case BindStandard(_, _) => BindingKeepsOwned(s, step, h);
      case Collect(path) => CollectKeepsOwned(s, path, h);
      case Clear(path) => ClearKeepsOwned(s, path, h);
      case _ => OthersKeepOwned(s, step, h);
    }
  }

  /** A collection destroys, of the handlers in the block, exactly those that no reference or grab holds. */
  lemma CollectsUnreferenced(s: State, path: nat, h: nat)
    requires CountsOk(s) && OwnedOk(s) && path in s.blocks && Some(h) in s.blocks[path]
    ensures Apply(s, Collect(path)).destroyed[h] == s.destroyed[h] + 1 <==> Some(h) !in s.refs && h !in s.grabs
    ensures Some(h) in BlockOf(Apply(s, Collect(path)), path) <==> Some(h) in s.refs || h in s.grabs
  {
    var block, live := s.blocks[path], Live(s);
    Handlers.CollectionIsFilter(block, live, Some(h));
    UsesMeans(s.refs, h);
    IsInSlot(block, h);
    assert HandlerOk(s, h) && Slots(s, path, h) > 0;
    CollectKeepsOwned(s, path, h);
    assert multiset(Handlers.DeadOnly(block, live))[h] > 0 <==> h in Handlers.DeadOnly(block, live);
  }

  lemma {:induction false} IsInSlot(block: seq<Handlers.Slot>, h: nat)
    ensures Some(h) in block <==> h in Handlers.Owned(block)
  {
    if block != [] {
      IsInSlot(block[1..], h);
      assert Some(h) in block <==> Some(h) == block[0] || Some(h) in block[1..];
    }
  }

  // ------------------------------------------------------------------ references that dangle

  /** No HandlerRef points to a handler that was destroyed. */
  ghost predicate NoneDangles(s: State) {
    forall r :: 0 <= r < |s.refs| && s.refs[r].Some? ==> s.refs[r].value !in s.destroyed
  }

  /** kill destroys a handler that some HandlerRef still holds. */
  predicate ClearsReferenced(s: State, step: Step) {
    step.Clear? && Enabled(s, step) && s.blocks[step.path][0].Some? && s.blocks[step.path][0] in s.refs
  }

  /** A step leaves a HandlerRef dangling if and only if it is kill destroying a handler still held. */
  lemma DanglesExactlyWhen(s: State, step: Step)
    requires CountsOk(s) && OwnedOk(s) && NoneDangles(s) && Enabled(s, step)
    ensures NoneDangles(Apply(s, step)) <==> !ClearsReferenced(s, step)
  {
    match step
    case Collect(path) => CollectLeavesNoneDangling(s, path);
    case Clear(path) => ClearDanglesExactlyWhen(s, path);
    case _ => OthersLeaveNoneDangling(s, step);
  }

  /** No other operation destroys a handler, or points a reference to one but a new one. */
  lemma OthersLeaveNoneDangling(s: State, step: Step)
    requires OwnedOk(s) && NoneDangles(s) && Enabled(s, step) && !step.Collect? && !step.Clear?
    ensures NoneDangles(Apply(s, step))
  {
    if step.Bind? {
      assert HandlerOk(s, step.h);
    }
    RefsComeFrom(s, step);
  }

  lemma RefsComeFrom(s: State, step: Step)
    requires Enabled(s, step) && !step.Collect? && !step.Clear?
    ensures Apply(s, step).destroyed == s.destroyed
    ensures forall r :: 0 <= r < |Apply(s, step).refs| && Apply(s, step).refs[r].Some? ==>
              Apply(s, step).refs[r] in s.refs || (step.Bind? && Apply(s, step).refs[r].value == step.h)
  {
  }

  lemma CollectLeavesNoneDangling(s: State, path: nat)
    requires CountsOk(s) && OwnedOk(s) && NoneDangles(s) && path in s.blocks
    ensures NoneDangles(Apply(s, Collect(path)))
  {
    forall r | 0 <= r < |s.refs| && s.refs[r].Some?
      ensures s.refs[r].value !in Handlers.DeadOnly(s.blocks[path], Live(s))
    {
      RefIsCounted(s, r);
      Handlers.CollectionIsFilter(s.blocks[path], Live(s), s.refs[r]);
    }
  }

  lemma ClearDanglesExactlyWhen(s: State, path: nat)
    requires NoneDangles(s) && Enabled(s, Clear(path))
    ensures NoneDangles(Apply(s, Clear(path))) <==> !ClearsReferenced(s, Clear(path))
  {
    var slot := s.blocks[path][0];
    var s' := Apply(s, Clear(path));
    if slot.Some? {
      assert forall h: nat :: h in s'.destroyed <==> h in s.destroyed || h == slot.value;
      if slot in s.refs {
        var r :| 0 <= r < |s.refs| && s.refs[r] == slot;
        assert s'.refs[r].value in s'.destroyed;
      }
    }
  }

  /** No HandlerRef dangles in any state of the run. */
  ghost predicate NeverDangles(s: State, steps: seq<Step>)
    requires Legal(s, steps)
    decreases |steps|
  {
    NoneDangles(s) && (steps != [] ==> NeverDangles(Apply(s, steps[0]), steps[1..]))
  }

  predicate NeverClearsReferenced(s: State, steps: seq<Step>)
    requires Legal(s, steps)
    decreases |steps|
  {
    steps == [] || (!ClearsReferenced(s, steps[0]) && NeverClearsReferenced(Apply(s, steps[0]), steps[1..]))
  }

  lemma {:induction false} RunDanglesExactlyWhen(s: State, steps: seq<Step>)
    requires CountsOk(s) && OwnedOk(s) && NoneDangles(s) && Legal(s, steps)
    ensures NeverDangles(s, steps) <==> NeverClearsReferenced(s, steps)
    ensures OwnedOk(After(s, steps))
    decreases |steps|
  {
    if steps != [] {
      KeepsCounts(s, steps[0]);
      KeepsOwned(s, steps[0]);
      DanglesExactlyWhen(s, steps[0]);
      if ClearsReferenced(s, steps[0]) {
        assert !NeverDangles(Apply(s, steps[0]), steps[1..]);
        RunKeepsOwned(Apply(s, steps[0]), steps[1..]);
      } else {
        RunDanglesExactlyWhen(Apply(s, steps[0]), steps[1..]);
      }
    }
  }

  lemma {:induction false} RunKeepsOwned(s: State, steps: seq<Step>)
    requires OwnedOk(s) && Legal(s, steps)
    ensures OwnedOk(After(s, steps))
    decreases |steps|
  {
    if steps != [] {
      KeepsOwned(s, steps[0]);
      RunKeepsOwned(Apply(s, steps[0]), steps[1..]);
    }
  }

  /**
   * From a new task on, whatever is bound, collected and cleared: no HandlerRef ever points to a
   * destroyed handler if and only if kill destroys none that a HandlerRef still holds; and every
   * handler is in exactly one slot or was destroyed exactly once.
   */
  lemma HandlersOutliveReferences(steps: seq<Step>)
    requires Legal(Initial(), steps)
    ensures NeverDangles(Initial(), steps) <==> NeverClearsReferenced(Initial(), steps)
    ensures var s := After(Initial(), steps);
            forall h: nat :: h in s.counts ==> h in s.home && Slots(s, s.home[h], h) + s.destroyed[h] == 1
  {
    RunDanglesExactlyWhen(Initial(), steps);
    var s := After(Initial(), steps);
    forall h: nat | h in s.counts
      ensures h in s.home && Slots(s, s.home[h], h) + s.destroyed[h] == 1
    {
      assert HandlerOk(s, h);
    }
  }

  /** A handler that is held when the task is killed is destroyed under its reference. */
  lemma HeldHandlerDangles(h: nat, path: nat) returns (steps: seq<Step>)
    ensures Legal(Initial(), steps) && !NeverDangles(Initial(), steps)
    ensures var s := After(Initial(), steps); Some(h) in s.refs && h in s.destroyed
  {
    var bind, clear := Bind(h, path), Clear(path);
    steps := [bind, clear];
    var s1 := Apply(Initial(), bind);
    assert steps[1..] == [clear] && [clear][1..] == [];
    assert s1.blocks[path] == [Some(h)] && s1.refs == [Some(h)];
    var s2 := Apply(s1, clear);
    assert After(s1, [clear]) == s2;
    assert s2.refs[0] == Some(h) && h in s2.destroyed;
    HandlersOutliveReferences(steps);
    assert ClearsReferenced(s1, clear);
  }
}
