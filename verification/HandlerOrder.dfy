/**
 * The order of the handlers: a block lists them as they were bound, and a dispatch executes them
 * the other way round.
 */
module HandlerOrder {
  import opened Options
  import opened HandlerRefs
  import Handlers

  /** The handlers that a run binds to a path, in the order in which it does. */
  function Bindings(steps: seq<Step>, path: nat): seq<nat> {
    if steps == [] then []
    else if (steps[0].Bind? || steps[0].BindStandard?) && steps[0].path == path
    then [steps[0].h] + Bindings(steps[1..], path)
    else Bindings(steps[1..], path)
  }

  /** Those of the handlers that were not destroyed, as slots. */
  function Survivors(hs: seq<nat>, destroyed: multiset<nat>): seq<Handlers.Slot> {
    if hs == [] then []
    else if hs[0] in destroyed then Survivors(hs[1..], destroyed)
    else [Some(hs[0])] + Survivors(hs[1..], destroyed)
  }

  ghost predicate Distinct(hs: seq<nat>) { forall i, j :: 0 <= i < j < |hs| ==> hs[i] != hs[j] }

  /** The handlers bound to the path so far, of which its block has the survivors. */
  ghost predicate OrderOk(s: State, path: nat, hs: seq<nat>) {
    && Distinct(hs)
    && (forall h :: h in hs ==> h in s.home && s.home[h] == path)
    && BlockOf(s, path) == Survivors(hs, s.destroyed)
  }

  lemma {:induction false} SurvivorsAppend(hs: seq<nat>, h: nat, destroyed: multiset<nat>)
    requires h !in destroyed
    ensures Survivors(hs + [h], destroyed) == Survivors(hs, destroyed) + [Some(h)]
  {
    if hs == [] {
      assert hs + [h] == [h] && [h][1..] == [];
    } else {
      assert (hs + [h])[0] == hs[0] && (hs + [h])[1..] == hs[1..] + [h];
      SurvivorsAppend(hs[1..], h, destroyed);
    }
  }

  lemma {:induction false} SurvivorsSame(hs: seq<nat>, a: multiset<nat>, b: multiset<nat>)
    requires forall h :: h in hs ==> (h in a <==> h in b)
    ensures Survivors(hs, a) == Survivors(hs, b)
  {
    if hs != [] {
      SurvivorsSame(hs[1..], a, b);
    }
  }

  lemma {:induction false} SurvivorsMembers(hs: seq<nat>, destroyed: multiset<nat>, slot: Handlers.Slot)
    ensures slot in Survivors(hs, destroyed) <==> slot.Some? && slot.value in hs && slot.value !in destroyed
  {
    if hs != [] {
      SurvivorsMembers(hs[1..], destroyed, slot);
      assert slot.Some? ==> (slot.value in hs <==> slot.value == hs[0] || slot.value in hs[1..]);
    }
  }

  /** The collection of a block leaves the survivors of those that it destroys too. */
  lemma {:induction false} SurvivorsCollected(hs: seq<nat>, a: multiset<nat>, b: multiset<nat>, live: set<nat>)
    requires forall h :: h in hs ==> (h in b <==> h in a || h !in live)
    ensures Handlers.LiveOnly(Survivors(hs, a), live) == Survivors(hs, b)
  {
    if hs != [] {
      SurvivorsCollected(hs[1..], a, b, live);
      assert hs[0] in hs;
      if hs[0] !in a {
        assert Survivors(hs, a)[1..] == Survivors(hs[1..], a);
      }
    }
  }

  /** The first survivor goes, and the others stay. */
  lemma {:induction false} SurvivorsPopped(hs: seq<nat>, a: multiset<nat>, b: multiset<nat>)
    requires Distinct(hs) && Survivors(hs, a) != [] && b == a + multiset(Freed(Survivors(hs, a)[0]))
    ensures Survivors(hs, b) == Survivors(hs, a)[1..]
  {
    SurvivorsMembers(hs, a, Survivors(hs, a)[0]);
    if hs[0] in a {
      SurvivorsPopped(hs[1..], a, b);
    } else {
      assert Survivors(hs, a)[1..] == Survivors(hs[1..], a);
      SurvivorsSame(hs[1..], a, b);
    }
  }

  lemma BindKeepsOrder(s: State, step: Step, path: nat, hs: seq<nat>)
    requires OrderOk(s, path, hs) && OwnedOk(s) && Enabled(s, step) && (step.Bind? || step.BindStandard?)
    ensures OrderOk(Apply(s, step), path, if step.path == path then hs + [step.h] else hs)
  {
    assert HandlerOk(s, step.h);
    BoundBlock(s, step, path);
    if step.path == path {
      SurvivorsAppend(hs, step.h, s.destroyed);
    }
  }

  lemma BoundBlock(s: State, step: Step, path: nat)
    requires Enabled(s, step) && (step.Bind? || step.BindStandard?)
    ensures BlockOf(Apply(s, step), path)
            == if step.path == path then BlockOf(s, path) + [Some(step.h)] else BlockOf(s, path)
    ensures Apply(s, step).home == s.home[step.h := step.path] && Apply(s, step).destroyed == s.destroyed
  {
    var block := BlockOf(s, step.path) + [Some(step.h)];
    BlockChanges(s, step.path, block, path);
    assert BlockOf(Apply(s, step), path) == BlockOf(WithBlock(s, step.path, block), path);
  }

  /** A block loses handlers of its own path only. */
  lemma OtherPathStays(s: State, s': State, path: nat, other: nat, dead: seq<nat>, hs: seq<nat>)
    requires OrderOk(s, path, hs) && s'.home == s.home && s'.destroyed == s.destroyed + multiset(dead)
    requires path != other && BlockOf(s', path) == BlockOf(s, path)
    requires forall h :: h in dead ==> h in s.home && s.home[h] == other
    ensures OrderOk(s', path, hs)
  {
    SurvivorsSame(hs, s.destroyed, s'.destroyed);
  }

  /** What a block owns was bound to its path. */
  lemma OwnedAreBound(s: State, path: nat, h: nat)
    requires OwnedOk(s) && Some(h) in BlockOf(s, path)
    ensures h in s.home && s.home[h] == path
  {
    IsInSlot(BlockOf(s, path), h);
    assert HandlerOk(s, h) && Slots(s, path, h) > 0;
  }

  lemma CollectKeepsOrder(s: State, other: nat, path: nat, hs: seq<nat>)
    requires OrderOk(s, path, hs) && OwnedOk(s) && other in s.blocks
    ensures OrderOk(Apply(s, Collect(other)), path, hs)
  {
    var s', block, live := Apply(s, Collect(other)), s.blocks[other], Live(s);
    var dead := Handlers.DeadOnly(block, live);
    BlockChanges(s, other, Handlers.LiveOnly(block, live), path);
    assert BlockOf(s', path) == BlockOf(WithBlock(s, other, Handlers.LiveOnly(block, live)), path);
    forall h: nat
      ensures h in dead <==> Some(h) in block && h !in live
    {
      Handlers.CollectionIsFilter(block, live, Some(h));
    }
    if path == other {
      forall h | h in hs
        ensures h in s'.destroyed <==> h in s.destroyed || h !in live
      {
        SurvivorsMembers(hs, s.destroyed, Some(h));
      }
      SurvivorsCollected(hs, s.destroyed, s'.destroyed, live);
    } else {
      forall h | h in dead
        ensures h in s.home && s.home[h] == other
      {
        OwnedAreBound(s, other, h);
      }
      OtherPathStays(s, s', path, other, dead, hs);
    }
  }

  lemma ClearKeepsOrder(s: State, other: nat, path: nat, hs: seq<nat>)
    requires OrderOk(s, path, hs) && OwnedOk(s) && Enabled(s, Clear(other))
    ensures OrderOk(Apply(s, Clear(other)), path, hs)
  {
    var s', block := Apply(s, Clear(other)), s.blocks[other];
    BlockChanges(s, other, block[1..], path);
    assert BlockOf(s', path) == BlockOf(WithBlock(s, other, block[1..]), path);
    if path == other {
      SurvivorsPopped(hs, s.destroyed, s'.destroyed);
    } else {
      forall h | h in Freed(block[0])
        ensures h in s.home && s.home[h] == other
      {
        OwnedAreBound(s, other, h);
      }
      OtherPathStays(s, s', path, other, Freed(block[0]), hs);
    }
  }

  function Longer(step: Step, path: nat, hs: seq<nat>): seq<nat> {
    if (step.Bind? || step.BindStandard?) && step.path == path then hs + [step.h] else hs
  }

  lemma KeepsOrder(s: State, step: Step, path: nat, hs: seq<nat>)
    requires OrderOk(s, path, hs) && OwnedOk(s) && Enabled(s, step)
    ensures OrderOk(Apply(s, step), path, Longer(step, path, hs))
  {
    if step.Bind? || step.BindStandard? {
      BindKeepsOrder(s, step, path, hs);
    } else if step.Collect? {
      CollectKeepsOrder(s, step.path, path, hs);
    } else if step.Clear? {
      ClearKeepsOrder(s, step.path, path, hs);
    } else {
      BlocksStay(s, step);
      SameOrder(s, Apply(s, step), path, hs);
    }
  }

  lemma SameOrder(s: State, s': State, path: nat, hs: seq<nat>)
    requires OrderOk(s, path, hs) && s'.blocks == s.blocks && s'.home == s.home && s'.destroyed == s.destroyed
    ensures OrderOk(s', path, hs)
  {
    assert BlockOf(s', path) == BlockOf(s, path);
  }

  /** A run adds the handlers that it binds to the path behind those that were bound before. */
  lemma {:induction false} RunKeepsOrder(s: State, steps: seq<Step>, path: nat, hs: seq<nat>)
    requires OrderOk(s, path, hs) && OwnedOk(s) && Legal(s, steps)
    ensures OrderOk(After(s, steps), path, hs + Bindings(steps, path))
    decreases |steps|
  {
    if steps == [] {
      assert hs + Bindings(steps, path) == hs;
    } else {
      KeepsOwned(s, steps[0]);
      KeepsOrder(s, steps[0], path, hs);
      RunKeepsOrder(Apply(s, steps[0]), steps[1..], path, Longer(steps[0], path, hs));
      BindsFirst(steps, path, hs);
    }
  }

  lemma BindsFirst(steps: seq<Step>, path: nat, hs: seq<nat>)
    requires steps != []
    ensures Longer(steps[0], path, hs) + Bindings(steps[1..], path) == hs + Bindings(steps, path)
  {
  }

  /** A block lists its handlers in the order in which they were bound, without those destroyed. */
  lemma BlocksAreInOrder(steps: seq<Step>, path: nat)
    requires Legal(Initial(), steps)
    ensures Distinct(Bindings(steps, path))
    ensures var s := After(Initial(), steps); BlockOf(s, path) == Survivors(Bindings(steps, path), s.destroyed)
  {
    RunKeepsOrder(Initial(), steps, path, []);
    assert [] + Bindings(steps, path) == Bindings(steps, path);
  }

  lemma {:induction false} SurvivorsInOrder(hs: seq<nat>, destroyed: multiset<nat>, i: nat, j: nat, a: nat, b: nat)
    requires Distinct(hs) && i < j < |Survivors(hs, destroyed)| && a < |hs| && b < |hs|
    requires Survivors(hs, destroyed)[i] == Some(hs[a]) && Survivors(hs, destroyed)[j] == Some(hs[b])
    ensures a < b
  {
    var rest := Survivors(hs[1..], destroyed);
    if hs[0] in destroyed {
      SurvivorsMembers(hs, destroyed, Some(hs[a]));
      SurvivorsMembers(hs, destroyed, Some(hs[b]));
      SurvivorsInOrder(hs[1..], destroyed, i, j, a - 1, b - 1);
    } else {
      assert Survivors(hs, destroyed)[j] == rest[j - 1];
      SurvivorsMembers(hs[1..], destroyed, Some(hs[b]));
      if i > 0 {
        assert Survivors(hs, destroyed)[i] == rest[i - 1];
        SurvivorsMembers(hs[1..], destroyed, Some(hs[a]));
        SurvivorsInOrder(hs[1..], destroyed, i - 1, j - 1, a - 1, b - 1);
      }
    }
  }

  /** What a dispatch of an event of the path executes, as Handlers.Dispatch says. */
  function Executed(s: State, path: nat): seq<Handlers.Slot> {
    Handlers.Reversed(Handlers.LiveOnly(BlockOf(s, path), Live(s)))
  }

  lemma ExecutedMembers(s: State, path: nat, hs: seq<nat>, h: nat)
    requires BlockOf(s, path) == Survivors(hs, s.destroyed)
    ensures Some(h) in Executed(s, path) <==> h in hs && h in Live(s) && h !in s.destroyed
  {
    ReversedMembers(Handlers.LiveOnly(BlockOf(s, path), Live(s)), Some(h));
    Handlers.CollectionIsFilter(BlockOf(s, path), Live(s), Some(h));
    SurvivorsMembers(hs, s.destroyed, Some(h));
  }

  lemma LiveAreHeld(s: State, h: nat)
    requires CountsOk(s)
    ensures h in Live(s) <==> Some(h) in s.refs || h in s.grabs
  {
    UsesMeans(s.refs, h);
  }

  /**
   * After any run a dispatch executes the handlers bound to the path that some HandlerRef or grab
   * holds and kill has not destroyed.
   */
  lemma HeldAreExecuted(steps: seq<Step>, path: nat, h: nat)
    requires Legal(Initial(), steps)
    ensures var s := After(Initial(), steps);
            Some(h) in Executed(s, path) <==>
            h in Bindings(steps, path) && (Some(h) in s.refs || h in s.grabs) && h !in s.destroyed
  {
    BlocksAreInOrder(steps, path);
    RunKeepsCounts(Initial(), steps);
    ExecutedMembers(After(Initial(), steps), path, Bindings(steps, path), h);
    LiveAreHeld(After(Initial(), steps), h);
  }

  /** After any run, of two handlers that a dispatch executes, the one bound later is executed first. */
  lemma NewestRunsFirst(steps: seq<Step>, path: nat, i: nat, j: nat, a: nat, b: nat)
    requires Legal(Initial(), steps) && a < |Bindings(steps, path)| && b < |Bindings(steps, path)|
    requires i < j < |Executed(After(Initial(), steps), path)|
    requires Executed(After(Initial(), steps), path)[i] == Some(Bindings(steps, path)[a])
    requires Executed(After(Initial(), steps), path)[j] == Some(Bindings(steps, path)[b])
    ensures a > b
  {
    var s := After(Initial(), steps);
    var kept := Handlers.LiveOnly(BlockOf(s, path), Live(s));
    BlocksAreInOrder(steps, path);
    ReversedLength(kept);
    Handlers.ReversedAt(kept, i);
    Handlers.ReversedAt(kept, j);
    LiveInOrder(Bindings(steps, path), s.destroyed, Live(s), |kept| - 1 - j, |kept| - 1 - i, b, a);
  }

  lemma ReversedLength(block: seq<Handlers.Slot>)
    ensures |Handlers.Reversed(block)| == |block|
  {
    if block != [] {
      Handlers.ReversedAt(block, 0);
    }
  }

  lemma {:induction false} ReversedMembers(block: seq<Handlers.Slot>, slot: Handlers.Slot)
    ensures slot in Handlers.Reversed(block) <==> slot in block
  {
    if block != [] {
      ReversedMembers(block[1..], slot);
      assert slot in block <==> slot == block[0] || slot in block[1..];
    }
  }

  lemma LiveInOrder(hs: seq<nat>, destroyed: multiset<nat>, live: set<nat>, i: nat, j: nat, a: nat, b: nat)
    requires Distinct(hs) && a < |hs| && b < |hs|
    requires var kept := Handlers.LiveOnly(Survivors(hs, destroyed), live);
             i < j < |kept| && kept[i] == Some(hs[a]) && kept[j] == Some(hs[b])
    ensures a < b
  {
    var gone := destroyed + multiset(set h | h in hs && h !in live);
    SurvivorsCollected(hs, destroyed, gone, live);
    SurvivorsInOrder(hs, gone, i, j, a, b);
  }
}
