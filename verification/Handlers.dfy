/** Handler blocks: their garbage collection and the order in which an event is dispatched. */
module Handlers {
  import opened Options

  /** A slot of a block: the handler it owns, or null after its pointer was moved out. */
  type Slot = Option<nat>

  function LiveOnly(block: seq<Slot>, live: set<nat>): seq<Slot> {
    if block == [] then []
    else if block[0].Some? && block[0].value in live then [block[0]] + LiveOnly(block[1..], live)
    else LiveOnly(block[1..], live)
  }

  function DeadOnly(block: seq<Slot>, live: set<nat>): seq<nat> {
    if block == [] then []
    else if block[0].Some? && block[0].value !in live then [block[0].value] + DeadOnly(block[1..], live)
    else DeadOnly(block[1..], live)
  }

  /** The handlers that slots own. */
  function Owned(block: seq<Slot>): seq<nat> {
    if block == [] then []
    else if block[0].Some? then [block[0].value] + Owned(block[1..])
    else Owned(block[1..])
  }

  function Reversed<T>(s: seq<T>): seq<T> {
    if s == [] then [] else Reversed(s[1..]) + [s[0]]
  }

  lemma Associate<T>(a: seq<T>, b: seq<T>, c: seq<T>)
    ensures a + (b + c) == (a + b) + c
  {
  }

  lemma {:induction false} LiveOnlySnoc(block: seq<Slot>, x: Slot, live: set<nat>)
    ensures LiveOnly(block + [x], live) == LiveOnly(block, live) + (if x.Some? && x.value in live then [x] else [])
  {
    var last := if x.Some? && x.value in live then [x] else [];
    if block == [] {
      assert block + [x] == [x];
    } else {
      assert (block + [x])[1..] == block[1..] + [x];
      LiveOnlySnoc(block[1..], x, live);
      Associate([block[0]], LiveOnly(block[1..], live), last);
    }
  }

  lemma {:induction false} DeadOnlySnoc(block: seq<Slot>, x: Slot, live: set<nat>)
    ensures DeadOnly(block + [x], live)
            == DeadOnly(block, live) + (if x.Some? && x.value !in live then [x.value] else [])
  {
    var last := if x.Some? && x.value !in live then [x.value] else [];
    if block == [] {
      assert block + [x] == [x];
    } else {
      assert (block + [x])[1..] == block[1..] + [x];
      DeadOnlySnoc(block[1..], x, live);
      if block[0].Some? {
        Associate([block[0].value], DeadOnly(block[1..], live), last);
      }
    }
  }

  lemma {:induction false} OwnedSnoc(block: seq<Slot>, x: Slot)
    ensures Owned(block + [x]) == Owned(block) + (if x.Some? then [x.value] else [])
  {
    var last := if x.Some? then [x.value] else [];
    if block == [] {
      assert block + [x] == [x];
    } else {
      assert (block + [x])[1..] == block[1..] + [x];
      OwnedSnoc(block[1..], x);
      if block[0].Some? {
        Associate([block[0].value], Owned(block[1..]), last);
      }
    }
  }

  lemma OwnedCons(x: Slot, block: seq<Slot>)
    ensures Owned([x] + block) == if x.Some? then [x.value] + Owned(block) else Owned(block)
  {
    assert ([x] + block)[1..] == block;
  }

  /**
   * reset(release()): slot j gives up its handler to slot i, whose own handler is destroyed.
   */
  method MoveSlot(block: array<Slot>, i: nat, j: nat) returns (freed: Slot)
    requires i <= j < block.Length && block[j].Some?
    modifies block
    ensures freed == if i == j then None else old(block[i])
    ensures block[..] == MovedTo(old(block[..]), i, j)
  {
    var p := block[j];
    block[j] := None;
    freed := block[i];
    block[i] := p;
  }

  /** resize(n): the handlers beyond the new end are destroyed. */
  method Truncate(block: array<Slot>, n: nat) returns (freed: seq<nat>)
    requires n <= block.Length
    ensures freed == Owned(block[n..])
  {
    freed := [];
    var k := block.Length;
    while k > n
      invariant n <= k <= block.Length
      invariant freed == Owned(block[k..])
    {
      k := k - 1;
      assert block[k..] == [block[k]] + block[k + 1..];
      if block[k].Some? {
        freed := [block[k].value] + freed;
      }
    }
  }

  /**
   * The block `now` after the first j slots of `was` were visited: the live ones are at the
   * front, the rest is untouched, and every dead one is either destroyed or still owned between.
   */
  ghost predicate Collected(was: seq<Slot>, now: seq<Slot>, i: nat, j: nat, live: set<nat>, freed: seq<nat>) {
    i <= j <= |was| == |now|
    && now[..i] == LiveOnly(was[..j], live)
    && now[j..] == was[j..]
    && multiset(freed) + multiset(Owned(now[i..j])) == multiset(DeadOnly(was[..j], live))
  }

  lemma CollectStep(was: seq<Slot>, j: nat, live: set<nat>)
    requires j < |was|
    ensures LiveOnly(was[..j + 1], live)
            == LiveOnly(was[..j], live) + (if was[j].Some? && was[j].value in live then [was[j]] else [])
    ensures DeadOnly(was[..j + 1], live)
            == DeadOnly(was[..j], live) + (if was[j].Some? && was[j].value !in live then [was[j].value] else [])
  {
    assert was[..j + 1] == was[..j] + [was[j]];
    LiveOnlySnoc(was[..j], was[j], live);
    DeadOnlySnoc(was[..j], was[j], live);
  }

  function MovedTo(now: seq<Slot>, i: nat, j: nat): seq<Slot>
    requires i <= j < |now|
  {
    now[j := None][i := now[j]]
  }

  lemma MovedParts(now: seq<Slot>, i: nat, j: nat)
    requires i <= j < |now|
    ensures MovedTo(now, i, j)[..i + 1] == now[..i] + [now[j]]
    ensures MovedTo(now, i, j)[j + 1..] == now[j + 1..]
  {
  }

  lemma CollectLive(was: seq<Slot>, now: seq<Slot>, i: nat, j: nat, live: set<nat>, freed: seq<nat>)
    requires Collected(was, now, i, j, live, freed) && j < |was| && was[j].Some? && was[j].value in live
    ensures now[j] == was[j]
    ensures Collected(was, MovedTo(now, i, j), i + 1, j + 1, live,
                      freed + (if i < j && now[i].Some? then [now[i].value] else []))
  {
    CollectStep(was, j, live);
    assert now[j] == now[j..][0] == was[j];
    MoveKeepsOwned(now, i, j, was[j]);
    MovedParts(now, i, j);
    assert now[j + 1..] == now[j..][1..] == was[j + 1..];
    var destroyed := if i < j && now[i].Some? then [now[i].value] else [];
    assert multiset(freed + destroyed) == multiset(freed) + multiset(destroyed);
    assert DeadOnly(was[..j + 1], live) == DeadOnly(was[..j], live);
  }

  lemma CollectDead(was: seq<Slot>, now: seq<Slot>, i: nat, j: nat, live: set<nat>, freed: seq<nat>)
    requires Collected(was, now, i, j, live, freed) && j < |was| && was[j].Some? && was[j].value !in live
    ensures Collected(was, now, i, j + 1, live, freed)
  {
    VisitedIsUntouched(was, now, i, j, live, freed);
    DeadIsOwned(was, now, i, j, live, freed);
    CollectStep(was, j, live);
    assert now[j + 1..] == now[j..][1..] == was[j + 1..];
  }

  lemma DeadIsOwned(was: seq<Slot>, now: seq<Slot>, i: nat, j: nat, live: set<nat>, freed: seq<nat>)
    requires i <= j < |was| == |now| && now[j] == was[j] && was[j].Some? && was[j].value !in live
    requires multiset(freed) + multiset(Owned(now[i..j])) == multiset(DeadOnly(was[..j], live))
    ensures multiset(freed) + multiset(Owned(now[i..j + 1])) == multiset(DeadOnly(was[..j + 1], live))
  {
    assert now[i..j + 1] == now[i..j] + [was[j]];
    OwnedSnoc(now[i..j], was[j]);
    CollectStep(was, j, live);
    SumsMatch(freed, Owned(now[i..j]), DeadOnly(was[..j], live), was[j].value);
  }

  lemma SumsMatch(freed: seq<nat>, owned: seq<nat>, dead: seq<nat>, h: nat)
    requires multiset(freed) + multiset(owned) == multiset(dead)
    ensures multiset(freed) + multiset(owned + [h]) == multiset(dead + [h])
  {
  }

  lemma CollectEnd(was: seq<Slot>, now: seq<Slot>, i: nat, live: set<nat>, freed: seq<nat>, rest: seq<nat>)
    requires Collected(was, now, i, |was|, live, freed) && rest == Owned(now[i..])
    ensures now[..i] == LiveOnly(was, live)
    ensures multiset(freed + rest) == multiset(DeadOnly(was, live))
  {
    assert was[..|was|] == was && now[i..|was|] == now[i..];
  }

  /** One round of the loop of collectGarbage, at slot j. */
  method Visit(block: array<Slot>, live: set<nat>, ghost was: seq<Slot>, i: nat, j: nat, freed: seq<nat>)
    returns (i': nat, freed': seq<nat>)
    requires Collected(was, block[..], i, j, live, freed) && j < |was| && was[j].Some?
    modifies block
    ensures Collected(was, block[..], i', j + 1, live, freed')
  {
    ghost var now := block[..];
    VisitedIsUntouched(was, now, i, j, live, freed);
    i', freed' := i, freed;
    var slot := block[j];
    if slot.value in live {
      CollectLive(was, now, i, j, live, freed);
      var destroyed := MoveSlot(block, i, j);
      i', freed' := i + 1, freed + (if destroyed.Some? then [destroyed.value] else []);
    } else {
      CollectDead(was, now, i, j, live, freed);
    }
  }

  /** collectGarbage: what is left of the block, and the handlers destroyed. */
  method CollectGarbage(block: array<Slot>, live: set<nat>) returns (n: nat, freed: seq<nat>)
    requires forall k :: 0 <= k < block.Length ==> block[k].Some?
    modifies block
    ensures n <= block.Length && block[..n] == LiveOnly(old(block[..]), live)
    ensures multiset(freed) == multiset(DeadOnly(old(block[..]), live))
  {
    ghost var was := block[..];
    var i, j := 0, 0;
    freed := [];
    while j < block.Length
      invariant 0 <= j <= block.Length
      invariant Collected(was, block[..], i, j, live, freed)
    {
      i, freed := Visit(block, live, was, i, j, freed);
      j := j + 1;
    }
    var rest := Truncate(block, i);
    CollectEnd(was, block[..], i, live, freed, rest);
    freed := freed + rest;
    n := i;
  }

  lemma VisitedIsUntouched(was: seq<Slot>, now: seq<Slot>, i: nat, j: nat, live: set<nat>, freed: seq<nat>)
    requires Collected(was, now, i, j, live, freed) && j < |was|
    ensures now[j] == was[j]
  {
    assert now[j] == now[j..][0];
  }

  /** Moving slot j to slot i destroys what slot i owned and nothing else. */
  lemma MoveKeepsOwned(a: seq<Slot>, i: nat, j: nat, p: Slot)
    requires i <= j < |a| && a[j] == p
    ensures var b := MovedTo(a, i, j);
            multiset(Owned(b[i + 1..j + 1])) + (if i < j && a[i].Some? then multiset{a[i].value} else multiset{})
            == multiset(Owned(a[i..j]))
  {
    var b := MovedTo(a, i, j);
    if i < j {
      assert a[i..j] == [a[i]] + a[i + 1..j];
      assert b[i + 1..j + 1] == a[i + 1..j] + [None];
      OwnedCons(a[i], a[i + 1..j]);
      OwnedSnoc(a[i + 1..j], None);
    }
  }

  /** dispatchEvent after the collection: the handlers executed, newest binding first. */
  method Execute(block: array<Slot>, n: nat) returns (executed: seq<Slot>)
    requires n <= block.Length
    ensures executed == Reversed(block[..n])
  {
    executed := [];
    var k := n;
    while k > 0
      invariant 0 <= k <= n
      invariant Reversed(block[..n]) == executed + Reversed(block[..k])
    {
      ReversedSnoc(block[..k - 1], block[k - 1]);
      assert block[..k] == block[..k - 1] + [block[k - 1]];
      k := k - 1;
      executed := executed + [block[k]];
    }
  }

  lemma {:induction false} ReversedSnoc<T>(s: seq<T>, x: T)
    ensures Reversed(s + [x]) == [x] + Reversed(s)
  {
    if s == [] {
      assert s + [x] == [x];
    } else {
      assert (s + [x])[1..] == s[1..] + [x];
      ReversedSnoc(s[1..], x);
    }
  }

  lemma {:induction false} ReversedAt<T>(s: seq<T>, k: nat)
    requires k < |s|
    ensures |Reversed(s)| == |s| && Reversed(s)[k] == s[|s| - 1 - k]
  {
    if |s| > 1 {
      ReversedAt(s[1..], if k < |s| - 1 then k else 0);
    }
  }

  /** Dispatching an event: every handler that is live runs once, and every dead one is destroyed once. */
  method Dispatch(block: array<Slot>, live: set<nat>) returns (executed: seq<Slot>, n: nat, freed: seq<nat>)
    requires forall k :: 0 <= k < block.Length ==> block[k].Some?
    modifies block
    ensures executed == Reversed(LiveOnly(old(block[..]), live))
    ensures n <= block.Length && block[..n] == LiveOnly(old(block[..]), live)
    ensures multiset(freed) == multiset(DeadOnly(old(block[..]), live))
  {
    n, freed := CollectGarbage(block, live);
    executed := Execute(block, n);
  }

  lemma ConsMatch(h: nat, a: seq<nat>, b: seq<nat>, c: seq<nat>)
    requires multiset(a) + multiset(b) == multiset(c)
    ensures multiset([h] + a) + multiset(b) == multiset([h] + c)
    ensures multiset(a) + multiset([h] + b) == multiset([h] + c)
  {
    assert multiset([h] + a) == multiset{h} + multiset(a);
    assert multiset([h] + b) == multiset{h} + multiset(b);
    assert multiset([h] + c) == multiset{h} + multiset(c);
  }

  /** The collection loses no handler: each one of the block is kept once or destroyed once. */
  lemma {:induction false} CollectionLosesNothing(block: seq<Slot>, live: set<nat>)
    ensures multiset(Owned(LiveOnly(block, live))) + multiset(DeadOnly(block, live)) == multiset(Owned(block))
  {
    if block != [] {
      var kept, dead := LiveOnly(block[1..], live), DeadOnly(block[1..], live);
      CollectionLosesNothing(block[1..], live);
      if block[0].None? {
        assert LiveOnly(block, live) == kept && DeadOnly(block, live) == dead;
      } else {
        ConsMatch(block[0].value, Owned(kept), dead, Owned(block[1..]));
        OwnedCons(block[0], kept);
      }
    }
  }

  /** The collection keeps exactly the live handlers, in order. */
  lemma {:induction false} CollectionIsFilter(block: seq<Slot>, live: set<nat>, x: Slot)
    ensures x in LiveOnly(block, live) <==> x in block && x.Some? && x.value in live
    ensures x.Some? ==> (x.value in DeadOnly(block, live) <==> x in block && x.value !in live)
  {
    if block != [] {
      CollectionIsFilter(block[1..], live, x);
      assert x in block <==> x == block[0] || x in block[1..];
    }
  }
}
