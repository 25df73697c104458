/** Unique identifiers: generators number their tokens independently, in disjoint ranges of a 64-bit word. */
module Idents {
  /** Number of values of a uint64_t, and the bounds on tokens and generators. */
  const WORD: nat := 0x1_0000_0000_0000_0000
  const TOKENS: nat := 0x1_0000_0000_0000
  const GENERATORS: nat := 0x1_0000

  /** Bitwise or. */
  function Or(a: nat, b: nat): nat
    decreases a + b
  {
    if a == 0 then b
    else if b == 0 then a
    else (if a % 2 == 1 || b % 2 == 1 then 1 else 0) + 2 * Or(a / 2, b / 2)
  }

  /** token | (generator << 48), in 64 bits. */
  function Make(token: nat, generator: nat): nat {
    Or(token, generator * TOKENS % WORD)
  }

  class UniqueIdentGenerator {
    const generatorId: nat
    var nextToken: nat

    constructor (generatorId: nat)
      ensures this.generatorId == generatorId && nextToken == 0
    {
      this.generatorId := generatorId;
      nextToken := 0;
    }

    method Generate() returns (ident: nat)
      modifies this
      ensures ident == Make(old(nextToken), generatorId) && nextToken == (old(nextToken) + 1) % WORD
    {
      ident := Or(nextToken, generatorId * TOKENS % WORD);
      nextToken := (nextToken + 1) % WORD;
    }
  }

  function Pow2(k: nat): nat { if k == 0 then 1 else 2 * Pow2(k - 1) }

  /** Or does not mix a number below 2^k with a multiple of 2^k. */
  lemma {:induction false} OrIsSum(t: nat, g: nat, k: nat)
    requires t < Pow2(k)
    ensures Or(t, g * Pow2(k)) == t + g * Pow2(k)
    decreases k
  {
    if k > 0 && t > 0 && g * Pow2(k) > 0 {
      var b := g * Pow2(k - 1);
      assert g * Pow2(k) == 2 * b;
      OrIsSum(t / 2, g, k - 1);
      assert Or(t, 2 * b) == t % 2 + 2 * Or(t / 2, b);
    }
  }

  lemma {:induction false} Pow2Values()
    ensures Pow2(48) == TOKENS
  {
    assert Pow2(8) == 0x100;
    assert Pow2(16) == 0x1_0000;
    assert Pow2(24) == 0x100_0000;
    assert Pow2(32) == 0x1_0000_0000;
    assert Pow2(40) == 0x100_0000_0000;
  }

  /** Within the bounds, the token is the low and the generator the high part of the identifier. */
  lemma MakeIsSum(t: nat, g: nat)
    requires t < TOKENS && g < GENERATORS
    ensures Make(t, g) == t + g * TOKENS
  {
    Pow2Values();
    OrIsSum(t, g, 48);
  }

  /** Tokens below 2^48 of generators below 2^16 make different words. */
  lemma Injective(t: nat, g: nat, u: nat, h: nat)
    requires t < TOKENS && u < TOKENS && g < GENERATORS && h < GENERATORS
    ensures Make(t, g) == Make(u, h) <==> t == u && g == h
    ensures Make(t, g) < WORD
  {
    MakeIsSum(t, g);
    MakeIsSum(u, h);
  }

  // ------------------------------------------------------------------ beyond the bounds

  /** Or works bit by bit, also where one side has run out of bits. */
  lemma OrBits(a: nat, b: nat)
    ensures Or(a, b) == (if a % 2 == 1 || b % 2 == 1 then 1 else 0) + 2 * Or(a / 2, b / 2)
  {
    if a == 0 || b == 0 {
      OrZero(a / 2);
      OrZero(b / 2);
    }
  }

  /** x << k. */
  function Shift(x: nat, k: nat): nat { if k == 0 then x else 2 * Shift(x, k - 1) }

  lemma {:induction false} ShiftIsTimes(x: nat, k: nat)
    ensures Shift(x, k) == x * Pow2(k)
  {
    if k > 0 {
      ShiftIsTimes(x, k - 1);
    }
  }

  lemma OrDoubled(low: nat, x: nat, y: nat)
    ensures Or(low + 2 * x, 2 * y) == low % 2 + 2 * Or(low / 2 + x, y)
  {
    OrBits(low + 2 * x, 2 * y);
  }

  /** Or works on the high parts of two numbers when one of them has no low part. */
  lemma {:induction false} OrSplit(low: nat, x: nat, y: nat, k: nat)
    requires low < Pow2(k)
    ensures Or(low + Shift(x, k), Shift(y, k)) == low + Shift(Or(x, y), k)
    decreases k
  {
    if k > 0 {
      OrSplit(low / 2, x, y, k - 1);
      OrDoubled(low, Shift(x, k - 1), Shift(y, k - 1));
    }
  }

  lemma OrZero(a: nat)
    ensures Or(a, 0) == a == Or(0, a)
  {
  }

  /** The part of a generator's number that is left in 64 bits after the shift. */
  lemma ShiftedGenerator(g: nat)
    ensures g * TOKENS % WORD == g % GENERATORS * TOKENS
  {
    var q, r := g / GENERATORS, g % GENERATORS;
    assert g == q * GENERATORS + r;
    assert g * TOKENS == q * WORD + r * TOKENS;
    assert r * TOKENS <= (GENERATORS - 1) * TOKENS < WORD;
  }

  /** Any identifier: the low part of the token, and the or of its high part with the generator. */
  lemma MakeParts(t: nat, g: nat)
    ensures Make(t, g) == t % TOKENS + Or(t / TOKENS, g % GENERATORS) * TOKENS
  {
    Pow2Values();
    ShiftedGenerator(g);
    OrSplit(t % TOKENS, t / TOKENS, g % GENERATORS, 48);
    ShiftIsTimes(t / TOKENS, 48);
    ShiftIsTimes(g % GENERATORS, 48);
    ShiftIsTimes(Or(t / TOKENS, g % GENERATORS), 48);
  }

  /** Exactly when two identifiers coincide, for all tokens and generators. */
  lemma EqualExactlyWhen(t: nat, g: nat, u: nat, h: nat)
    ensures Make(t, g) == Make(u, h) <==>
              t % TOKENS == u % TOKENS
              && Or(t / TOKENS, g % GENERATORS) == Or(u / TOKENS, h % GENERATORS)
  {
    MakeParts(t, g);
    MakeParts(u, h);
    SamePartsExactlyWhen(t % TOKENS, Or(t / TOKENS, g % GENERATORS), u % TOKENS, Or(u / TOKENS, h % GENERATORS));
  }

  lemma SamePartsExactlyWhen(a: nat, x: nat, b: nat, y: nat)
    requires a < TOKENS && b < TOKENS
    ensures a + x * TOKENS == b + y * TOKENS <==> a == b && x == y
  {
  }

  /**
   * Token 2^48 repeats an identifier, whatever the generator: its own first one if the generator
   * is odd, and the first one of the next generator if it is even.
   */
  lemma TokenOverflow(g: nat)
    ensures Make(TOKENS, g) == Make(0, if g % 2 == 1 then g else g + 1)
  {
    Overflows(TOKENS, 0, g, if g % 2 == 1 then g else g + 1);
  }

  lemma Overflows(t: nat, u: nat, g: nat, h: nat)
    requires t == TOKENS && u == 0 && h == if g % 2 == 1 then g else g + 1
    ensures Make(t, g) == Make(u, h)
  {
    NextGenerator(g);
    OrOne(t / TOKENS, g % GENERATORS);
    OrNone(u / TOKENS, h % GENERATORS);
    EqualExactlyWhen(t, g, u, h);
  }

  lemma OrOne(a: nat, r: nat)
    requires a == 1
    ensures Or(a, r) == if r % 2 == 1 then r else r + 1
  {
    if r > 0 {
      OrNone(a / 2, r / 2);
    }
  }

  lemma OrNone(a: nat, r: nat)
    requires a == 0
    ensures Or(a, r) == r
  {
  }

  lemma NextGenerator(g: nat)
    ensures g % GENERATORS % 2 == g % 2
    ensures g % 2 == 0 ==> (g + 1) % GENERATORS == g % GENERATORS + 1
  {
    var q, r := g / GENERATORS, g % GENERATORS;
    assert g == q * GENERATORS + r;
    assert r % 2 == g % 2;
    if g % 2 == 0 {
      assert g + 1 == q * GENERATORS + (r + 1);
    }
  }

  /** Generators that differ by a multiple of 2^16 issue the same identifiers, token by token. */
  lemma GeneratorOverflow(t: nat, g: nat)
    ensures Make(t, g + GENERATORS) == Make(t, g)
  {
    assert (g + GENERATORS) % GENERATORS == g % GENERATORS by {
      var q, r := g / GENERATORS, g % GENERATORS;
      assert g + GENERATORS == (q + 1) * GENERATORS + r;
    }
    EqualExactlyWhen(t, g + GENERATORS, t, g);
  }

  /**
   * counter is the global generator counter; ids and next hold each generator's id and next
   * token; made records who made each issued identifier, as (token, generator).
   */
  datatype State = State(counter: nat, ids: seq<nat>, next: seq<nat>, made: seq<(nat, nat)>, issued: seq<nat>)

  datatype Step = NewGenerator | Generate(g: nat)

  function Initial(): State { State(0, [], [], [], []) }

  /** At most 2^16 generators are created, and none issues more than 2^48 tokens. */
  predicate Enabled(s: State, step: Step) {
    match step
    case NewGenerator => s.counter < GENERATORS
    case Generate(g) => g < |s.ids| && g < |s.next| && s.next[g] < TOKENS
  }

  function Apply(s: State, step: Step): State
    requires Enabled(s, step)
  {
    match step
    case NewGenerator => s.(counter := (s.counter + 1) % WORD, ids := s.ids + [s.counter], next := s.next + [0])
    case Generate(g) =>
      s.(next := s.next[g := (s.next[g] + 1) % WORD], made := s.made + [(s.next[g], g)],
      issued := s.issued + [Make(s.next[g], s.ids[g])])
  }

  predicate Legal(s: State, steps: seq<Step>)
    decreases |steps|
  {
    steps == [] || (Enabled(s, steps[0]) && Legal(Apply(s, steps[0]), steps[1..]))
  }

  function After(s: State, steps: seq<Step>): State
    requires Legal(s, steps)
    decreases |steps|
  {
    if steps == [] then s else After(Apply(s, steps[0]), steps[1..])
  }

  ghost predicate GeneratorsOk(s: State) {
    && s.counter <= GENERATORS && |s.next| == |s.ids|
    && (forall g :: 0 <= g < |s.ids| ==> s.ids[g] < s.counter && s.next[g] <= TOKENS)
    && (forall g, h :: 0 <= g < h < |s.ids| ==> s.ids[g] != s.ids[h])
  }

  ghost predicate MadeOk(s: State) {
    && |s.made| == |s.issued| && |s.next| == |s.ids|
    && (forall i :: 0 <= i < |s.made| ==>
          s.made[i].1 < |s.ids| && s.made[i].0 < s.next[s.made[i].1]
          && s.issued[i] == Make(s.made[i].0, s.ids[s.made[i].1]))
    && (forall i, j :: 0 <= i < j < |s.made| ==> s.made[i] != s.made[j])
  }

  lemma KeepsGenerators(s: State, step: Step)
    requires GeneratorsOk(s) && Enabled(s, step)
    ensures GeneratorsOk(Apply(s, step))
  {
  }

  lemma KeepsMade(s: State, step: Step)
    requires GeneratorsOk(s) && MadeOk(s) && Enabled(s, step)
    ensures MadeOk(Apply(s, step))
  {
  }

  lemma {:induction false} RunKeeps(s: State, steps: seq<Step>)
    requires GeneratorsOk(s) && MadeOk(s) && Legal(s, steps)
    ensures GeneratorsOk(After(s, steps)) && MadeOk(After(s, steps))
    decreases |steps|
  {
    if steps != [] {
      KeepsGenerators(s, steps[0]);
      KeepsMade(s, steps[0]);
      RunKeeps(Apply(s, steps[0]), steps[1..]);
    }
  }

  lemma IssuedOnce(s: State, i: nat, j: nat)
    requires GeneratorsOk(s) && MadeOk(s) && i < j < |s.issued|
    ensures s.issued[i] != s.issued[j]
  {
    var (t, g) := s.made[i];
    var (u, h) := s.made[j];
    assert s.made[i] != s.made[j];
    if t != u || s.ids[g] != s.ids[h] {
      Injective(t, s.ids[g], u, s.ids[h]);
    }
  }

  lemma AllIssuedOnce(s: State)
    requires GeneratorsOk(s) && MadeOk(s)
    ensures forall i, j :: 0 <= i < j < |s.issued| ==> s.issued[i] != s.issued[j]
  {
    forall i, j | 0 <= i < j < |s.issued|
      ensures s.issued[i] != s.issued[j]
    {
      IssuedOnce(s, i, j);
    }
  }

  lemma NothingIssued(s: State)
    requires s.counter == 0 && s.ids == [] && s.next == [] && s.made == [] && s.issued == []
    ensures GeneratorsOk(s) && MadeOk(s)
  {
  }

  /** Whatever order the generators work in, no identifier is issued twice. */
  lemma IdentifiersAreUnique(steps: seq<Step>)
    requires Legal(Initial(), steps)
    ensures var issued := After(Initial(), steps).issued;
            forall i, j :: 0 <= i < j < |issued| ==> issued[i] != issued[j]
  {
    NothingIssued(Initial());
    RunKeeps(Initial(), steps);
    AllIssuedOnce(After(Initial(), steps));
  }
}
