/**
 * What the calculator answers: for every expression and layout, for every way of cutting the text
 * into feed events, and for every time at which these arrive.
 */
module CalculatorTheorems {
  import opened Options
  import opened Calculator

  // ------------------------------------------------------------------ expressions and their layouts

  datatype Expr = Expr(atom: Atomic, more: Option<Expr>)

  datatype Atomic = Literal(digits: seq<char>) | Group(e: Expr)

  datatype Token = Num(digits: seq<char>) | Plus | Open | Close | Semicolon

  predicate Digits(s: seq<char>) { s != [] && forall i :: 0 <= i < |s| ==> IsDigit(s[i]) }

  predicate Blank(s: seq<char>) { forall i :: 0 <= i < |s| ==> IsSpace(s[i]) }

  predicate WellFormedAtom(a: Atomic) {
    match a case Literal(d) => Digits(d) case Group(e) => WellFormed(e)
  }

  predicate WellFormed(e: Expr) {
    WellFormedAtom(e.atom) && (e.more.Some? ==> WellFormed(e.more.value))
  }

  function Chars(t: Token): (s: seq<char>)
  {
    match t
    case Num(d) => d
    case Plus => "+"
    case Open => "("
    case Close => ")"
    case Semicolon => ";"
  }

  /** The tokens of an atom or an expression, and those that follow. */
  function AtomTokens(a: Atomic, after: seq<Token>): seq<Token>
    decreases a, 0
  {
    match a
    case Literal(d) => [Num(d)] + after
    case Group(e) => [Open] + Tokens(e, [Close] + after)
  }

  function Tokens(e: Expr, after: seq<Token>): seq<Token>
    decreases e, 1
  {
    AtomTokens(e.atom, if e.more.Some? then [Plus] + Tokens(e.more.value, after) else after)
  }

  /** The tokens of a list of statements. */
  function Program(es: seq<Expr>): seq<Token> {
    if es == [] then [] else Tokens(es[0], [Semicolon] + Program(es[1..]))
  }

  /** The text is a layout of the tokens, with white space before each of them, and then the tail. */
  predicate Lays(text: seq<char>, tokens: seq<Token>, tail: seq<char>)
    decreases |tokens|
  {
    var t := Skip(text);
    if tokens == [] then t == tail
    else
      var c := Chars(tokens[0]);
      c <= t && Lays(t[|c|..], tokens[1..], tail)
  }

  /** The number that digits denote after `value` has been read. */
  function Decimal(digits: seq<char>, value: nat): nat
    requires forall i :: 0 <= i < |digits| ==> IsDigit(digits[i])
  {
    if digits == [] then value else Decimal(digits[1..], value * 10 + Digit(digits[0]))
  }

  function AtomSum(a: Atomic): nat
    requires WellFormedAtom(a)
  {
    match a case Literal(d) => Decimal(d, 0) case Group(e) => Sum(e)
  }

  /** The sum an expression denotes, as an integer. */
  function Sum(e: Expr): nat
    requires WellFormed(e)
  {
    AtomSum(e.atom) + (if e.more.Some? then Sum(e.more.value) else 0)
  }

  // ------------------------------------------------------------------ parsing

  lemma {:induction false} SkipTwice(text: seq<char>)
    ensures Skip(Skip(text)) == Skip(text)
  {
    if text != [] && IsSpace(text[0]) {
      SkipTwice(text[1..]);
    }
  }

  lemma MulWraps(a: nat, d: nat)
    ensures ((a % WORD) * 10 + d) % WORD == (a * 10 + d) % WORD
  {
    var q := a / WORD;
    assert a == q * WORD + a % WORD;
    AddMultiple((a % WORD) * 10 + d, q * 10);
    assert a * 10 + d == (a % WORD) * 10 + d + q * 10 * WORD;
  }

  lemma AddMultiple(a: nat, k: nat)
    ensures (a + k * WORD) % WORD == a % WORD
  {
    var q := a / WORD;
    assert a + k * WORD == (q + k) * WORD + a % WORD;
  }

  lemma SumWraps(a: nat, b: nat)
    ensures (a % WORD + b % WORD) % WORD == (a + b) % WORD
  {
    AddWraps(b, a % WORD);
    AddWraps(a, b);
  }

  /** Reading digits, with the value kept modulo the word at every one of them. */
  lemma {:induction false} ReadsDigits(digits: seq<char>, value: nat, tail: seq<char>)
    requires forall i :: 0 <= i < |digits| ==> IsDigit(digits[i])
    requires tail != [] && !IsDigit(tail[0])
    ensures NumberFrom(digits + tail, value % WORD) == Parsed(Decimal(digits, value) % WORD, tail)
  {
    if digits == [] {
      assert digits + tail == tail;
    } else {
      assert (digits + tail)[1..] == digits[1..] + tail;
      MulWraps(value, Digit(digits[0]));
      ReadsDigits(digits[1..], value * 10 + Digit(digits[0]), tail);
    }
  }

  lemma ParsesLiteral(d: seq<char>, tail: seq<char>)
    requires Digits(d) && tail != [] && !IsDigit(tail[0])
    ensures Number(d + tail) == Parsed(Decimal(d, 0) % WORD, tail)
  {
    assert (d + tail)[0] == d[0] && (d + tail)[1..] == d[1..] + tail;
    ReadsDigits(d[1..], Digit(d[0]), tail);
    assert Decimal(d, 0) == Decimal(d[1..], Digit(d[0]));
  }

  /** What can come after a number: no token starting with a digit, nor such a tail. */
  predicate EndsNumber(after: seq<Token>, tail: seq<char>) {
    if after == [] then tail != [] && !IsDigit(tail[0]) else !after[0].Num?
  }

  /** What can come after an expression without becoming part of it. */
  predicate EndsExpression(after: seq<Token>, tail: seq<char>) {
    if after == [] then tail != [] && !IsSpace(tail[0]) && !IsDigit(tail[0]) && tail[0] != '+'
    else after[0].Close? || after[0].Semicolon?
  }

  lemma NoDigitNext(text: seq<char>, after: seq<Token>, tail: seq<char>)
    requires Lays(text, after, tail) && EndsNumber(after, tail)
    ensures text != [] && !IsDigit(text[0])
  {
    assert Skip(text) != [];
  }

  lemma {:induction false} ParsesAtom(a: Atomic, text: seq<char>, after: seq<Token>, tail: seq<char>)
    requires WellFormedAtom(a) && Lays(text, AtomTokens(a, after), tail) && EndsNumber(after, tail)
    ensures Atom(text).Parsed? && Atom(text).value == AtomSum(a) % WORD && Lays(Atom(text).rest, after, tail)
    decreases a, 0
  {
    var t := Skip(text);
    match a
    case Literal(d) =>
      assert ([Num(d)] + after)[1..] == after;
      assert t == d + t[|d|..] && t[0] == d[0];
      NoDigitNext(t[|d|..], after, tail);
      ParsesLiteral(d, t[|d|..]);
    case Group(e) =>
      var inner := Tokens(e, [Close] + after);
      assert ([Open] + inner)[1..] == inner && t[0] == '(';
      ParsesOnto(e, t[1..], [Close] + after, tail);
      assert ([Close] + after)[1..] == after;
  }

  /** In any context that ends it, an expression parses to its sum and leaves exactly what follows. */
  lemma {:induction false} ParsesOnto(e: Expr, text: seq<char>, after: seq<Token>, tail: seq<char>)
    requires WellFormed(e) && Lays(text, Tokens(e, after), tail) && EndsExpression(after, tail)
    ensures Expression(text).Parsed? && Expression(text).value == Sum(e) % WORD
    ensures Lays(Expression(text).rest, after, tail) && Skip(Expression(text).rest) == Expression(text).rest
    decreases e, 1
  {
    var rest := if e.more.Some? then [Plus] + Tokens(e.more.value, after) else after;
    ParsesAtom(e.atom, text, rest, tail);
    if e.more.Some? {
      PlusFirst(Atom(text).rest, Tokens(e.more.value, after), tail);
      ParsesOnto(e.more.value, Skip(Atom(text).rest)[1..], after, tail);
      GoesOn(e, text);
    } else {
      StopsHere(text, after, tail);
    }
  }

  lemma PlusFirst(text: seq<char>, tokens: seq<Token>, tail: seq<char>)
    requires Lays(text, [Plus] + tokens, tail)
    ensures Skip(text) != [] && Skip(text)[0] == '+' && Lays(Skip(text)[1..], tokens, tail)
  {
    assert ([Plus] + tokens)[1..] == tokens;
  }

  /** Behind the first atom comes a plus, and then the rest of the sum. */
  lemma GoesOn(e: Expr, text: seq<char>)
    requires WellFormed(e) && e.more.Some?
    requires Atom(text).Parsed? && Atom(text).value == AtomSum(e.atom) % WORD
    requires Skip(Atom(text).rest) != [] && Skip(Atom(text).rest)[0] == '+'
    requires var p := Expression(Skip(Atom(text).rest)[1..]); p.Parsed? && p.value == Sum(e.more.value) % WORD
    ensures Expression(text) == Parsed(Sum(e) % WORD, Expression(Skip(Atom(text).rest)[1..]).rest)
  {
    SumWraps(AtomSum(e.atom), Sum(e.more.value));
  }

  lemma StopsHere(text: seq<char>, after: seq<Token>, tail: seq<char>)
    requires Atom(text).Parsed? && Lays(Atom(text).rest, after, tail) && EndsExpression(after, tail)
    ensures Expression(text) == Parsed(Atom(text).value, Skip(Atom(text).rest))
    ensures Lays(Expression(text).rest, after, tail) && Skip(Expression(text).rest) == Expression(text).rest
  {
    SkipTwice(Atom(text).rest);
  }

  /**
   * For every expression and every layout of it, the parser consumes exactly its text and yields
   * its sum modulo 2^32.
   */
  lemma ParsesExpression(e: Expr, text: seq<char>, tail: seq<char>)
    requires WellFormed(e) && Lays(text, Tokens(e, []), tail) && EndsExpression([], tail)
    ensures Expression(text) == Parsed(Sum(e) % WORD, tail)
  {
    ParsesOnto(e, text, [], tail);
  }

  /** A statement sends its value and is read to its semicolon. */
  lemma DriverSends(e: Expr, text: seq<char>, after: seq<Token>)
    requires WellFormed(e) && Lays(text, Tokens(e, [Semicolon] + after), [])
    ensures Driven(text).0 == Some(Sum(e) % WORD) && !Driven(text).1 && Lays(Driven(text).2, after, [])
  {
    ParsesOnto(e, text, [Semicolon] + after, []);
    assert ([Semicolon] + after)[1..] == after;
  }

  // ------------------------------------------------------------------ white space does not matter

  lemma {:induction false} SkipsBlank(s: seq<char>, t: seq<char>)
    requires Blank(s)
    ensures Skip(s + t) == Skip(t)
  {
    if s == [] {
      assert s + t == t;
    } else {
      assert (s + t)[1..] == s[1..] + t;
      SkipsBlank(s[1..], t);
    }
  }

  /** The white space at the front of a text. */
  lemma {:induction false} SkipSplits(text: seq<char>) returns (s: seq<char>)
    ensures Blank(s) && text == s + Skip(text)
  {
    if text != [] && IsSpace(text[0]) {
      var r := SkipSplits(text[1..]);
      s := [text[0]] + r;
    } else {
      s := [];
    }
  }

  predicate Proper(t: Token) { t.Num? ==> Digits(t.digits) }

  predicate AllProper(tokens: seq<Token>) { forall i :: 0 <= i < |tokens| ==> Proper(tokens[i]) }

  lemma HeadStays(r: seq<char>, x: seq<char>)
    requires r != [] && !IsSpace(r[0])
    ensures Skip(r + x) == r + x
  {
  }

  lemma Associate(s: seq<char>, r: seq<char>, x: seq<char>)
    ensures (s + r) + x == s + (r + x)
  {
  }

  /** Skipping stops inside a, or goes on into what follows. */
  lemma SkipInto(a: seq<char>, x: seq<char>)
    ensures Skip(a + x) == if Skip(a) == [] then Skip(x) else Skip(a) + x
  {
    var s := SkipSplits(a);
    var r := Skip(a);
    Associate(s, r, x);
    SkipsBlank(s, r + x);
    if r == [] {
      assert r + x == x;
    } else {
      HeadStays(r, x);
    }
  }

  /** A token does not reach into white space. */
  lemma TokenFits(a: seq<char>, b: seq<char>, c: seq<char>, t: Token)
    requires Proper(t) && Blank(b) && b != [] && Chars(t) <= a + (b + c)
    ensures |Chars(t)| <= |a| && Chars(t) <= a && Chars(t) <= a + c
  {
    assert forall i :: 0 <= i < |Chars(t)| ==> !IsSpace(Chars(t)[i]) && Chars(t)[i] == (a + (b + c))[i];
    assert (a + (b + c))[|a|] == b[0] && IsSpace(b[0]);
  }

  lemma DropFirst(a: seq<char>, x: seq<char>, n: nat)
    requires n <= |a|
    ensures (a + x)[n..] == a[n..] + x
  {
  }

  /** White space taken out of a layout leaves a layout of the same tokens. */
  lemma {:induction false} RemoveBlank(a: seq<char>, b: seq<char>, c: seq<char>, tokens: seq<Token>)
    requires AllProper(tokens) && Blank(b) && Lays(a + (b + c), tokens, [])
    ensures Lays(a + c, tokens, [])
    decreases |tokens|
  {
    SkipInto(a, b + c);
    SkipInto(a, c);
    SkipsBlank(b, c);
    if b == [] {
      assert b + c == c;
    } else if Skip(a) != [] && tokens != [] {
      var r, n := Skip(a), |Chars(tokens[0])|;
      TokenFits(r, b, c, tokens[0]);
      DropFirst(r, b + c, n);
      DropFirst(r, c, n);
      RemoveBlank(r[n..], b, c, tokens[1..]);
    }
  }

  lemma {:induction false} TokensAreProper(e: Expr, after: seq<Token>)
    requires WellFormed(e) && AllProper(after)
    ensures AllProper(Tokens(e, after))
    decreases e, 1
  {
    if e.more.Some? {
      TokensAreProper(e.more.value, after);
    }
    AtomIsProper(e.atom, if e.more.Some? then [Plus] + Tokens(e.more.value, after) else after);
  }

  lemma {:induction false} AtomIsProper(a: Atomic, after: seq<Token>)
    requires WellFormedAtom(a) && AllProper(after)
    ensures AllProper(AtomTokens(a, after))
    decreases a, 0
  {
    if a.Group? {
      TokensAreProper(a.e, [Close] + after);
    }
  }

  predicate AllWellFormed(es: seq<Expr>) { forall i :: 0 <= i < |es| ==> WellFormed(es[i]) }

  lemma {:induction false} ProgramIsProper(es: seq<Expr>)
    requires AllWellFormed(es)
    ensures AllProper(Program(es))
  {
    if es != [] {
      ProgramIsProper(es[1..]);
      TokensAreProper(es[0], [Semicolon] + Program(es[1..]));
    }
  }

  /** What a layout is: white space, the first token, and a layout of the others. */
  lemma LaysExactlyWhen(text: seq<char>, token: Token, tokens: seq<Token>, tail: seq<char>)
    requires Proper(token)
    ensures Lays(text, [token] + tokens, tail) <==>
              exists b: seq<char>, rest: seq<char> ::
                Blank(b) && Lays(rest, tokens, tail) && text == b + (Chars(token) + rest)
  {
    var c := Chars(token);
    assert ([token] + tokens)[1..] == tokens;
    if Lays(text, [token] + tokens, tail) {
      var b := SkipSplits(text);
      var t := Skip(text);
      assert t == c + t[|c|..] && Blank(b) && Lays(t[|c|..], tokens, tail) && text == b + (c + t[|c|..]);
    }
    if b: seq<char>, rest: seq<char> :| Blank(b) && Lays(rest, tokens, tail) && text == b + (c + rest) {
      SkipsBlank(b, c + rest);
      HeadStays(c, rest);
    }
  }

  // ------------------------------------------------------------------ a session with the driver

  /**
   * The values the driver sends until it waits for ever.  arrived tells, for each value in turn,
   * how many of the feed events not yet awaited are in the mailbox when process() runs before it
   * is sent; k counts the values sent so far.
   */
  function Answers(s: Stream, arrived: nat -> nat, k: nat): seq<nat>
    decreases |Text(s)|
  {
    var (sent, waiting, t) := Iteration(s, arrived(k));
    if waiting then []
    else
      DriverProgresses(s, arrived(k));
      if sent.Some? then [sent.value] + Answers(t, arrived, k + 1) else Answers(t, arrived, k)
  }

  /** The feed events that process() drops in a session. */
  function Lost(s: Stream, arrived: nat -> nat, k: nat): seq<seq<char>>
    decreases |Text(s)|
  {
    var (sent, waiting, t) := Iteration(s, arrived(k));
    if waiting then []
    else
      DriverProgresses(s, arrived(k));
      var n := |Text(s)| - |Driven(Text(s)).2|;
      if sent.Some? then Pending(Take(s, n), arrived(k)) + Lost(t, arrived, k + 1) else Lost(t, arrived, k)
  }

  /** The text that the parser reads in a session, in the end by looking at all there is. */
  function Read(s: Stream, arrived: nat -> nat, k: nat): seq<char>
    decreases |Text(s)|
  {
    var (sent, waiting, t) := Iteration(s, arrived(k));
    if waiting then Text(s)
    else
      DriverProgresses(s, arrived(k));
      var n := |Text(s)| - |Driven(Text(s)).2|;
      Text(s)[..n] + Read(t, arrived, if sent.Some? then k + 1 else k)
  }

  /** How many characters of a text satisfy p. */
  function Count(text: seq<char>, p: char -> bool): nat {
    if text == [] then 0 else (if p(text[0]) then 1 else 0) + Count(text[1..], p)
  }

  const INK: char -> bool := (c: char) => !IsSpace(c)

  const SEMICOLON: char -> bool := (c: char) => c == ';'

  lemma {:induction false} CountConcat(a: seq<char>, b: seq<char>, p: char -> bool)
    ensures Count(a + b, p) == Count(a, p) + Count(b, p)
  {
    if a == [] {
      assert a + b == b;
    } else {
      assert (a + b)[1..] == a[1..] + b;
      CountConcat(a[1..], b, p);
    }
  }

  lemma {:induction false} FlattenConcat(a: seq<seq<char>>, b: seq<seq<char>>)
    ensures Flatten(a + b) == Flatten(a) + Flatten(b)
  {
    if a == [] {
      assert a + b == b;
    } else {
      assert (a + b)[1..] == a[1..] + b;
      FlattenConcat(a[1..], b);
    }
  }

  lemma CountDropped(t: Stream, k: nat, p: char -> bool)
    ensures Count(Text(t), p) == Count(Flatten(Pending(t, k)), p) + Count(Text(Dropped(t, k)), p)
  {
    var d := Dropped(t, k);
    DroppedText(t, k);
    CountConcat(t.input + Flatten(Pending(t, k)), Flatten(d.feeds), p);
    CountConcat(t.input, Flatten(Pending(t, k)), p);
    CountConcat(t.input, Flatten(d.feeds), p);
  }

  /** Where the characters of the text go in one iteration. */
  lemma CountIteration(s: Stream, arrived: nat, p: char -> bool)
    requires !Iteration(s, arrived).1
    ensures var (sent, _, t) := Iteration(s, arrived); var n := |Text(s)| - |Driven(Text(s)).2|;
            0 <= n <= |Text(s)|
            && Count(Text(s), p)
               == Count(Text(s)[..n], p)
                  + (if sent.Some? then Count(Flatten(Pending(Take(s, n), arrived)), p) else 0) + Count(Text(t), p)
  {
    DriverProgresses(s, arrived);
    var n := |Text(s)| - |Driven(Text(s)).2|;
    assert Text(s) == Text(s)[..n] + Text(s)[n..];
    CountConcat(Text(s)[..n], Text(s)[n..], p);
    CountDropped(Take(s, n), arrived, p);
  }

  /** What is lost with a statement and after it, counted. */
  lemma CountLost(a: seq<seq<char>>, b: seq<seq<char>>, p: char -> bool)
    ensures Count(Flatten(a + b), p) == Count(Flatten(a), p) + Count(Flatten(b), p)
  {
    FlattenConcat(a, b);
    CountConcat(Flatten(a), Flatten(b), p);
  }

  /** What one iteration adds to what is read and to what is lost. */
  lemma SessionStep(s: Stream, arrived: nat -> nat, k: nat)
    requires !Iteration(s, arrived(k)).1
    ensures var (sent, _, t) := Iteration(s, arrived(k)); var n := |Text(s)| - |Driven(Text(s)).2|;
            |Text(t)| < |Text(s)| && 0 <= n <= |Text(s)|
            && Read(s, arrived, k) == Text(s)[..n] + Read(t, arrived, if sent.Some? then k + 1 else k)
            && Lost(s, arrived, k)
               == if sent.Some? then Pending(Take(s, n), arrived(k)) + Lost(t, arrived, k + 1) else Lost(t, arrived, k)
  {
    DriverProgresses(s, arrived(k));
  }

  /** Every character of the text is read by the parser or dropped with its feed event. */
  lemma {:induction false} ReadOrLost(s: Stream, arrived: nat -> nat, k: nat, p: char -> bool)
    ensures Count(Text(s), p) == Count(Read(s, arrived, k), p) + Count(Flatten(Lost(s, arrived, k)), p)
    decreases |Text(s)|
  {
    var (sent, waiting, t) := Iteration(s, arrived(k));
    if !waiting {
      SessionStep(s, arrived, k);
      var n := |Text(s)| - |Driven(Text(s)).2|;
      var next := if sent.Some? then k + 1 else k;
      ReadOrLost(t, arrived, next, p);
      CountIteration(s, arrived(k), p);
      CountConcat(Text(s)[..n], Read(t, arrived, next), p);
      if sent.Some? {
        CountLost(Pending(Take(s, n), arrived(k)), Lost(t, arrived, next), p);
      }
    }
  }

  /** What a value costs: the semicolon it was read to, and what is dropped before it is sent. */
  lemma SentCosts(s: Stream, arrived: nat)
    requires !Iteration(s, arrived).1 && Iteration(s, arrived).0.Some?
    ensures var t := Take(s, |Text(s)| - |Driven(Text(s)).2|);
            1 + Count(Flatten(Pending(t, arrived)), SEMICOLON) + Count(Text(Iteration(s, arrived).2), SEMICOLON)
            <= Count(Text(s), SEMICOLON)
  {
    DriverProgresses(s, arrived);
    var text := Text(s);
    var n := |text| - |Driven(text).2|;
    SentAtSemicolon(text);
    assert text == text[..n] + text[n..] && text[..n] == text[..n - 1] + [text[n - 1]];
    CountConcat(text[..n], text[n..], SEMICOLON);
    CountConcat(text[..n - 1], [';'], SEMICOLON);
    CountDropped(Take(s, n), arrived, SEMICOLON);
  }

  lemma NotSentCosts(s: Stream, arrived: nat)
    requires !Iteration(s, arrived).1 && Iteration(s, arrived).0.None?
    ensures Count(Text(Iteration(s, arrived).2), SEMICOLON) <= Count(Text(s), SEMICOLON)
  {
    DriverProgresses(s, arrived);
    var text := Text(s);
    var n := |text| - |Driven(text).2|;
    assert text == text[..n] + text[n..];
    CountConcat(text[..n], text[n..], SEMICOLON);
  }

  /** Each value sent costs a semicolon. */
  lemma {:induction false} AnswersCost(s: Stream, arrived: nat -> nat, k: nat)
    ensures |Answers(s, arrived, k)| + Count(Flatten(Lost(s, arrived, k)), SEMICOLON) <= Count(Text(s), SEMICOLON)
    decreases |Text(s)|
  {
    var (sent, waiting, t) := Iteration(s, arrived(k));
    if !waiting {
      DriverProgresses(s, arrived(k));
      AnswersCost(t, arrived, if sent.Some? then k + 1 else k);
      if sent.Some? {
        SentCosts(s, arrived(k));
        CountLost(Pending(Take(s, |Text(s)| - |Driven(Text(s)).2|), arrived(k)), Lost(t, arrived, k + 1), SEMICOLON);
      } else {
        NotSentCosts(s, arrived(k));
      }
    }
  }

  /** The last character read before a value is sent is a semicolon. */
  lemma SentAtSemicolon(text: seq<char>)
    requires !Driven(text).1 && Driven(text).0.Some?
    ensures var n := |text| - |Driven(text).2|; 0 < n <= |text| && text[n - 1] == ';'
  {
    var rest := Expression(text).rest;
    ExpressionConsumes(text);
    SkipConsumes(rest);
    ConsumedTwice(text, rest, Skip(rest));
  }

  function Sums(es: seq<Expr>): seq<nat>
    requires AllWellFormed(es)
  {
    if es == [] then [] else [Sum(es[0]) % WORD] + Sums(es[1..])
  }

  // ------------------------------------------------------------------ when all statements are answered

  function FirstSemicolon(text: seq<char>): (n: nat)
    requires ';' in text
    ensures n < |text|
  {
    if text[0] == ';' then 0 else FirstSemicolon(text[1..]) + 1
  }

  predicate AllBlank(events: seq<seq<char>>) { forall i :: 0 <= i < |events| ==> Blank(events[i]) }

  /**
   * A condition on the schedule alone: whenever the text has been read to the semicolon of a
   * statement, the feed events then in the mailbox are white space.
   */
  predicate Undisturbed(s: Stream, arrived: nat -> nat, k: nat)
    decreases |Text(s)|
  {
    if ';' !in Text(s) then true
    else
      var n := FirstSemicolon(Text(s)) + 1;
      var t := Take(s, n);
      TakeText(s, n);
      DroppedText(t, arrived(k));
      AllBlank(Pending(t, arrived(k))) && Undisturbed(Dropped(t, arrived(k)), arrived, k + 1)
  }

  lemma {:induction false} CountBlank(s: seq<char>, p: char -> bool)
    requires forall i :: 0 <= i < |s| ==> !p(s[i])
    ensures Count(s, p) == 0
  {
    if s != [] {
      CountBlank(s[1..], p);
    }
  }

  lemma {:induction false} CountSome(s: seq<char>, p: char -> bool, i: nat)
    requires i < |s| && p(s[i])
    ensures Count(s, p) > 0
  {
    if i > 0 {
      CountSome(s[1..], p, i - 1);
    }
  }

  function Semicolons(tokens: seq<Token>): nat {
    if tokens == [] then 0 else (if tokens[0].Semicolon? then 1 else 0) + Semicolons(tokens[1..])
  }

  lemma TokenCount(t: Token)
    requires Proper(t)
    ensures Count(Chars(t), SEMICOLON) == if t.Semicolon? then 1 else 0
  {
    if !t.Semicolon? {
      CountBlank(Chars(t), SEMICOLON);
    }
  }

  /** A layout has as many semicolons as its tokens. */
  lemma {:induction false} LaysCount(text: seq<char>, tokens: seq<Token>)
    requires AllProper(tokens) && Lays(text, tokens, [])
    ensures Count(text, SEMICOLON) == Semicolons(tokens)
    decreases |tokens|
  {
    CountSkips(text);
    if tokens != [] {
      var c := Chars(tokens[0]);
      CountBehind(Skip(text), c, SEMICOLON);
      TokenCount(tokens[0]);
      LaysCount(Skip(text)[|c|..], tokens[1..]);
    }
  }

  lemma CountSkips(text: seq<char>)
    ensures Count(text, SEMICOLON) == Count(Skip(text), SEMICOLON)
  {
    var s := SkipSplits(text);
    CountConcat(s, Skip(text), SEMICOLON);
    CountBlank(s, SEMICOLON);
  }

  lemma CountBehind(text: seq<char>, start: seq<char>, p: char -> bool)
    requires start <= text
    ensures Count(text, p) == Count(start, p) + Count(text[|start|..], p)
  {
    assert text == start + text[|start|..];
    CountConcat(start, text[|start|..], p);
  }

  lemma {:induction false} SemicolonsAfter(e: Expr, after: seq<Token>)
    ensures Semicolons(Tokens(e, after)) == Semicolons(after)
    decreases e, 1
  {
    var rest := if e.more.Some? then [Plus] + Tokens(e.more.value, after) else after;
    if e.more.Some? {
      SemicolonsAfter(e.more.value, after);
      assert rest[1..] == Tokens(e.more.value, after);
    }
    AtomSemicolonsAfter(e.atom, rest);
  }

  lemma {:induction false} AtomSemicolonsAfter(a: Atomic, after: seq<Token>)
    ensures Semicolons(AtomTokens(a, after)) == Semicolons(after)
    decreases a, 0
  {
    match a
    case Literal(d) => assert ([Num(d)] + after)[1..] == after;
    case Group(e) =>
      SemicolonsAfter(e, [Close] + after);
      assert ([Close] + after)[1..] == after;
      assert ([Open] + Tokens(e, [Close] + after))[1..] == Tokens(e, [Close] + after);
  }

  lemma {:induction false} ProgramSemicolons(es: seq<Expr>)
    ensures Semicolons(Program(es)) == |es|
  {
    if es != [] {
      ProgramSemicolons(es[1..]);
      SemicolonsAfter(es[0], [Semicolon] + Program(es[1..]));
      assert ([Semicolon] + Program(es[1..]))[1..] == Program(es[1..]);
    }
  }

  /** A text whose only semicolon before n is at n - 1. */
  lemma {:induction false} OnlySemicolon(text: seq<char>, n: nat)
    requires 0 < n <= |text| && text[n - 1] == ';' && Count(text[..n], SEMICOLON) == 1
    ensures ';' in text && FirstSemicolon(text) == n - 1
  {
    if n > 1 {
      assert text[..n][1..] == text[1..][..n - 1];
      if text[0] == ';' {
        CountSome(text[1..][..n - 1], SEMICOLON, n - 2);
      }
      OnlySemicolon(text[1..], n - 1);
    }
  }

  /** The stream when the first statement has been read to its semicolon. */
  function AtSemicolon(s: Stream): Stream
    requires !Driven(Text(s)).1
  {
    Take(s, |Text(s)| - |Driven(Text(s)).2|)
  }

  /** The driver answers the first statement and has read exactly to its semicolon. */
  lemma FirstStatement(es: seq<Expr>, s: Stream)
    requires AllWellFormed(es) && es != [] && Lays(Text(s), Program(es), [])
    ensures Driven(Text(s)).0 == Some(Sum(es[0]) % WORD) && !Driven(Text(s)).1
    ensures ';' in Text(s) && FirstSemicolon(Text(s)) + 1 == |Text(s)| - |Driven(Text(s)).2|
    ensures Lays(Text(AtSemicolon(s)), Program(es[1..]), [])
  {
    ReadsToFirst(es, Text(s));
    LaysBehind(es, s);
  }

  lemma LaysBehind(es: seq<Expr>, s: Stream)
    requires AllWellFormed(es) && es != [] && Lays(Text(s), Program(es), [])
    ensures !Driven(Text(s)).1 && Lays(Text(AtSemicolon(s)), Program(es[1..]), [])
  {
    SendsFirst(es, Text(s));
    EndsAtSemicolon(Text(s), Program(es[1..]));
    LaysTaken(s, |Text(s)| - |Driven(Text(s)).2|, Program(es[1..]));
  }

  lemma LaysTaken(s: Stream, n: nat, tokens: seq<Token>)
    requires n <= |Text(s)| && Lays(Text(s)[n..], tokens, [])
    ensures Lays(Text(Take(s, n)), tokens, [])
  {
    TakeText(s, n);
  }

  lemma ReadsToFirst(es: seq<Expr>, text: seq<char>)
    requires AllWellFormed(es) && es != [] && Lays(text, Program(es), [])
    ensures Driven(text).0 == Some(Sum(es[0]) % WORD) && !Driven(text).1
    ensures var n := |text| - |Driven(text).2|;
            0 < n <= |text| && ';' in text && FirstSemicolon(text) + 1 == n
  {
    SendsFirst(es, text);
    EndsAtSemicolon(text, Program(es[1..]));
    IsFirst(es, text, |text| - |Driven(text).2|);
  }

  /** What is left behind a semicolon is a layout of the other statements: it is the first. */
  lemma IsFirst(es: seq<Expr>, text: seq<char>, n: nat)
    requires AllWellFormed(es) && es != [] && Lays(text, Program(es), [])
    requires 0 < n <= |text| && text[n - 1] == ';' && Lays(text[n..], Program(es[1..]), [])
    ensures ';' in text && FirstSemicolon(text) + 1 == n
  {
    CountsOne(es, text, n);
    OnlySemicolon(text, n);
  }

  lemma EndsAtSemicolon(text: seq<char>, tokens: seq<Token>)
    requires !Driven(text).1 && Driven(text).0.Some? && Lays(Driven(text).2, tokens, [])
    ensures var n := |text| - |Driven(text).2|; 0 < n <= |text| && text[n - 1] == ';' && Lays(text[n..], tokens, [])
  {
    DrivenConsumes(text);
    SentAtSemicolon(text);
  }

  lemma SendsFirst(es: seq<Expr>, text: seq<char>)
    requires AllWellFormed(es) && es != [] && Lays(text, Program(es), [])
    ensures Driven(text).0 == Some(Sum(es[0]) % WORD) && !Driven(text).1
    ensures Lays(Driven(text).2, Program(es[1..]), [])
  {
    DriverSends(es[0], text, Program(es[1..]));
  }

  /** The text that a statement takes from the front of a program has one semicolon. */
  lemma CountsOne(es: seq<Expr>, text: seq<char>, n: nat)
    requires AllWellFormed(es) && es != [] && Lays(text, Program(es), [])
    requires n <= |text| && Lays(text[n..], Program(es[1..]), [])
    ensures Count(text[..n], SEMICOLON) == 1
  {
    CountsStatements(es, text);
    CountsStatements(es[1..], text[n..]);
    CountSplit(text, n, SEMICOLON);
  }

  /** A text of statements has a semicolon for each. */
  lemma CountsStatements(es: seq<Expr>, text: seq<char>)
    requires AllWellFormed(es) && Lays(text, Program(es), [])
    ensures Count(text, SEMICOLON) == |es|
  {
    ProgramIsProper(es);
    LaysCount(text, Program(es));
    ProgramSemicolons(es);
  }

  lemma CountSplit(text: seq<char>, n: nat, p: char -> bool)
    requires n <= |text|
    ensures Count(text, p) == Count(text[..n], p) + Count(text[n..], p)
  {
    assert text == text[..n] + text[n..];
    CountConcat(text[..n], text[n..], p);
  }

  lemma {:induction false} BlankFlatten(events: seq<seq<char>>)
    ensures AllBlank(events) <==> Blank(Flatten(events))
  {
    if events != [] {
      BlankFlatten(events[1..]);
      BlankConcat(events[0], Flatten(events[1..]));
      assert AllBlank(events) <==> Blank(events[0]) && AllBlank(events[1..]) by {
        assert forall i :: 0 < i < |events| ==> events[i] == events[1..][i - 1];
      }
    }
  }

  lemma BlankConcat(a: seq<char>, b: seq<char>)
    ensures Blank(a + b) <==> Blank(a) && Blank(b)
  {
    assert forall i :: 0 <= i < |a| ==> (a + b)[i] == a[i];
    assert forall i :: 0 <= i < |b| ==> (a + b)[|a| + i] == b[i];
  }

  /** Dropping white space leaves a layout of the same statements. */
  lemma DroppingBlank(es: seq<Expr>, t: Stream, k: nat)
    requires AllWellFormed(es) && Lays(Text(t), Program(es), []) && AllBlank(Pending(t, k))
    ensures Lays(Text(Dropped(t, k)), Program(es), [])
  {
    var b, c := Flatten(Pending(t, k)), Flatten(Dropped(t, k).feeds);
    DroppedText(t, k);
    Associate(t.input, b, c);
    BlankFlatten(Pending(t, k));
    ProgramIsProper(es);
    RemoveBlank(t.input, b, c, Program(es));
  }

  lemma InkOfBlank(s: seq<char>)
    ensures Blank(s) <==> Count(s, INK) == 0
  {
    if Blank(s) {
      CountBlank(s, INK);
    } else {
      var i :| 0 <= i < |s| && !IsSpace(s[i]);
      CountSome(s, INK, i);
    }
  }

  /** Only blanks are left when all statements have been read. */
  lemma NoStatements(s: Stream, arrived: nat -> nat, k: nat)
    requires Lays(Text(s), [], [])
    ensures Undisturbed(s, arrived, k) && Answers(s, arrived, k) == [] && Read(s, arrived, k) == Text(s)
    ensures Lost(s, arrived, k) == []
  {
    var b := SkipSplits(Text(s));
    assert Text(s) == b;
    assert Atom(Text(s)) == Starved;
  }

  lemma AnswersStep(s: Stream, arrived: nat -> nat, k: nat, value: nat)
    requires !Driven(Text(s)).1 && Driven(Text(s)).0 == Some(value)
    ensures var d := Dropped(AtSemicolon(s), arrived(k));
            Answers(s, arrived, k) == [value] + Answers(d, arrived, k + 1)
            && Lost(s, arrived, k) == Pending(AtSemicolon(s), arrived(k)) + Lost(d, arrived, k + 1)
  {
    DriverProgresses(s, arrived(k));
    assert Iteration(s, arrived(k)) == (Some(value), false, Dropped(AtSemicolon(s), arrived(k)));
  }

  lemma UndisturbedStep(s: Stream, arrived: nat -> nat, k: nat)
    requires ';' in Text(s)
    ensures var t := Take(s, FirstSemicolon(Text(s)) + 1);
            Undisturbed(s, arrived, k) <==>
              AllBlank(Pending(t, arrived(k))) && Undisturbed(Dropped(t, arrived(k)), arrived, k + 1)
  {
  }

  lemma OneAnswer(es: seq<Expr>, s: Stream, arrived: nat -> nat, k: nat)
    requires AllWellFormed(es) && es != [] && Lays(Text(s), Program(es), [])
    ensures !Driven(Text(s)).1
    ensures var d := Dropped(AtSemicolon(s), arrived(k));
            Answers(s, arrived, k) == [Sum(es[0]) % WORD] + Answers(d, arrived, k + 1)
            && Lost(s, arrived, k) == Pending(AtSemicolon(s), arrived(k)) + Lost(d, arrived, k + 1)
  {
    FirstStatement(es, s);
    AnswersStep(s, arrived, k, Sum(es[0]) % WORD);
  }

  /** What the first statement of a list adds to a session. */
  lemma OneStatement(es: seq<Expr>, s: Stream, arrived: nat -> nat, k: nat)
    requires AllWellFormed(es) && es != [] && Lays(Text(s), Program(es), [])
    ensures !Driven(Text(s)).1 && Lays(Text(AtSemicolon(s)), Program(es[1..]), [])
    ensures var t := AtSemicolon(s);
            var d := Dropped(t, arrived(k));
            Answers(s, arrived, k) == [Sum(es[0]) % WORD] + Answers(d, arrived, k + 1)
            && Lost(s, arrived, k) == Pending(t, arrived(k)) + Lost(d, arrived, k + 1)
            && (Undisturbed(s, arrived, k) <==> AllBlank(Pending(t, arrived(k))) && Undisturbed(d, arrived, k + 1))
  {
    OneAnswer(es, s, arrived, k);
    FirstStatement(es, s);
    UndisturbedStep(s, arrived, k);
  }

  lemma BlankLosesNoInk(events: seq<seq<char>>)
    ensures AllBlank(events) <==> Count(Flatten(events), INK) == 0
  {
    BlankFlatten(events);
    InkOfBlank(Flatten(events));
  }

  lemma {:induction false} NothingLostExactlyWhen(es: seq<Expr>, s: Stream, arrived: nat -> nat, k: nat)
    requires AllWellFormed(es) && Lays(Text(s), Program(es), [])
    ensures Undisturbed(s, arrived, k) ==> Answers(s, arrived, k) == Sums(es)
    ensures Undisturbed(s, arrived, k) <==> Count(Flatten(Lost(s, arrived, k)), INK) == 0
    decreases |es|
  {
    if es == [] {
      NoStatements(s, arrived, k);
    } else {
      OneStatement(es, s, arrived, k);
      var t := AtSemicolon(s);
      var d := Dropped(t, arrived(k));
      CountLost(Pending(t, arrived(k)), Lost(d, arrived, k + 1), INK);
      BlankLosesNoInk(Pending(t, arrived(k)));
      if AllBlank(Pending(t, arrived(k))) {
        DroppingBlank(es[1..], t, arrived(k));
        NothingLostExactlyWhen(es[1..], d, arrived, k + 1);
      }
    }
  }

  /**
   * A list of statements is answered statement by statement, each from the whole of its text, if
   * and only if no feed event but white space is in the mailbox when process() runs for one of
   * them; for every text, chunking and schedule.
   */
  lemma AnsweredExactlyWhen(es: seq<Expr>, s: Stream, arrived: nat -> nat, k: nat)
    requires AllWellFormed(es) && Lays(Text(s), Program(es), [])
    ensures Undisturbed(s, arrived, k) <==>
              Answers(s, arrived, k) == Sums(es) && Count(Read(s, arrived, k), INK) == Count(Text(s), INK)
  {
    NothingLostExactlyWhen(es, s, arrived, k);
    ReadOrLost(s, arrived, k, INK);
  }

  /** Each feed event that is not blank ends a statement. */
  predicate EndsStatements(feeds: seq<seq<char>>) {
    forall i :: 0 <= i < |feeds| ==> Blank(feeds[i]) || ';' in feeds[i]
  }

  lemma {:induction false} TakeKeepsFeeds(s: Stream, n: nat)
    requires n <= |Text(s)| && EndsStatements(s.feeds)
    ensures EndsStatements(Take(s, n).feeds)
    decreases |s.feeds|
  {
    if n > |s.input| {
      TakeKeepsFeeds(Stream(s.feeds[0], s.feeds[1..]), n - |s.input|);
    }
  }

  lemma EndsKept(t: Stream, k: nat)
    requires EndsStatements(t.feeds)
    ensures EndsStatements(Pending(t, k)) && EndsStatements(Dropped(t, k).feeds)
  {
  }

  lemma {:induction false} SemicolonInFlatten(events: seq<seq<char>>)
    requires EndsStatements(events)
    ensures AllBlank(events) <==> Count(Flatten(events), SEMICOLON) == 0
  {
    if AllBlank(events) {
      BlankFlatten(events);
      CountBlank(Flatten(events), SEMICOLON);
    } else {
      CountConcat(events[0], Flatten(events[1..]), SEMICOLON);
      if Blank(events[0]) {
        assert forall i :: 0 < i < |events| ==> events[i] == events[1..][i - 1];
        SemicolonInFlatten(events[1..]);
      } else {
        var i :| 0 <= i < |events[0]| && events[0][i] == ';';
        CountSome(events[0], SEMICOLON, i);
      }
    }
  }

  lemma {:induction false} NoSemicolonLostExactlyWhen(es: seq<Expr>, s: Stream, arrived: nat -> nat, k: nat)
    requires AllWellFormed(es) && Lays(Text(s), Program(es), []) && EndsStatements(s.feeds)
    ensures Undisturbed(s, arrived, k) <==> Count(Flatten(Lost(s, arrived, k)), SEMICOLON) == 0
    decreases |es|
  {
    if es == [] {
      NoStatements(s, arrived, k);
    } else {
      OneStatement(es, s, arrived, k);
      var t := AtSemicolon(s);
      var d := Dropped(t, arrived(k));
      TakeKeepsFeeds(s, |Text(s)| - |Driven(Text(s)).2|);
      EndsKept(t, arrived(k));
      CountLost(Pending(t, arrived(k)), Lost(d, arrived, k + 1), SEMICOLON);
      SemicolonInFlatten(Pending(t, arrived(k)));
      if AllBlank(Pending(t, arrived(k))) {
        DroppingBlank(es[1..], t, arrived(k));
        NoSemicolonLostExactlyWhen(es[1..], d, arrived, k + 1);
      }
    }
  }

  /**
   * When every feed event ends a statement, as the lines the program sends do, the answers are
   * right if and only if no such event is in the mailbox when process() runs for a statement.
   */
  lemma LinesAnsweredExactlyWhen(es: seq<Expr>, s: Stream, arrived: nat -> nat, k: nat)
    requires AllWellFormed(es) && Lays(Text(s), Program(es), []) && EndsStatements(s.feeds)
    ensures Undisturbed(s, arrived, k) <==> Answers(s, arrived, k) == Sums(es)
  {
    AnsweredExactlyWhen(es, s, arrived, k);
    NoSemicolonLostExactlyWhen(es, s, arrived, k);
    AnswersCost(s, arrived, k);
    CountsStatements(es, Text(s));
    SumsLength(es);
  }

  lemma {:induction false} SumsLength(es: seq<Expr>)
    requires AllWellFormed(es)
    ensures |Sums(es)| == |es|
  {
    if es != [] {
      SumsLength(es[1..]);
    }
  }

  // ------------------------------------------------------------------ a sender that waits

  /**
   * The sender keeps its turn: it sends line k + 1 only after answer k.  So, of `total` lines, those
   * awaited or in the mailbox when the text has been read to the semicolon before answer k are at
   * most lines 0 to k.
   */
  predicate InTurn(s: Stream, arrived: nat -> nat, k: nat, total: nat)
    decreases |Text(s)|
  {
    if ';' !in Text(s) then true
    else
      var n := FirstSemicolon(Text(s)) + 1;
      var t := Take(s, n);
      TakeText(s, n);
      DroppedText(t, arrived(k));
      total - |t.feeds| + |Pending(t, arrived(k))| <= k + 1 && InTurn(Dropped(t, arrived(k)), arrived, k + 1, total)
  }

  predicate AtMostOne(lines: seq<seq<char>>) {
    forall i :: 0 <= i < |lines| ==> Count(lines[i], SEMICOLON) <= 1
  }

  predicate ExactlyOne(lines: seq<seq<char>>) {
    forall i :: 0 <= i < |lines| ==> Count(lines[i], SEMICOLON) == 1
  }

  lemma {:induction false} TakeKeepsLines(s: Stream, n: nat)
    requires n <= |Text(s)|
    ensures |Take(s, n).feeds| <= |s.feeds|
    ensures AtMostOne(s.feeds) ==> AtMostOne(Take(s, n).feeds)
    ensures ExactlyOne(s.feeds) ==> ExactlyOne(Take(s, n).feeds)
    decreases |s.feeds|
  {
    if n > |s.input| {
      assert forall i :: 0 <= i < |s.feeds| - 1 ==> s.feeds[1..][i] == s.feeds[i + 1];
      TakeKeepsLines(Stream(s.feeds[0], s.feeds[1..]), n - |s.input|);
    }
  }

  /** Lines with at most one semicolon each: so many must be awaited to read so many semicolons. */
  lemma {:induction false} TakeCosts(s: Stream, n: nat)
    requires n <= |Text(s)| && AtMostOne(s.feeds)
    ensures Count(Text(s)[..n], SEMICOLON) + Count(Take(s, n).input, SEMICOLON)
            <= Count(s.input, SEMICOLON) + |s.feeds| - |Take(s, n).feeds|
    ensures ExactlyOne(s.feeds) ==>
              Count(Text(s)[..n], SEMICOLON) + Count(Take(s, n).input, SEMICOLON)
              == Count(s.input, SEMICOLON) + |s.feeds| - |Take(s, n).feeds|
    decreases |s.feeds|
  {
    if n <= |s.input| {
      assert Text(s)[..n] == s.input[..n] && s.input == s.input[..n] + s.input[n..];
      CountConcat(s.input[..n], s.input[n..], SEMICOLON);
    } else {
      var s1 := Stream(s.feeds[0], s.feeds[1..]);
      assert forall i :: 0 <= i < |s1.feeds| ==> s1.feeds[i] == s.feeds[i + 1];
      TakeCosts(s1, n - |s.input|);
      assert Text(s)[..n] == s.input + Text(s1)[..n - |s.input|];
      CountConcat(s.input, Text(s1)[..n - |s.input|], SEMICOLON);
    }
  }

  lemma {:induction false} FirstIsOne(text: seq<char>)
    requires ';' in text
    ensures Count(text[..FirstSemicolon(text) + 1], SEMICOLON) == 1
  {
    var n := FirstSemicolon(text);
    assert text[..n + 1][0] == text[0] && text[..n + 1][1..] == text[1..][..n];
    if text[0] != ';' {
      FirstIsOne(text[1..]);
    }
  }

  /** The lines awaited when the text has been read to the first semicolon. */
  lemma AwaitedAtFirst(s: Stream, k: nat, total: nat)
    requires ';' in Text(s) && AtMostOne(s.feeds) && |s.feeds| + k + Count(s.input, SEMICOLON) <= total
    ensures var t := Take(s, FirstSemicolon(Text(s)) + 1);
            AtMostOne(t.feeds) && |t.feeds| + (k + 1) + Count(t.input, SEMICOLON) <= total
            && (ExactlyOne(s.feeds) ==> ExactlyOne(t.feeds))
            && (ExactlyOne(s.feeds) && |s.feeds| + k + Count(s.input, SEMICOLON) == total ==>
                  |t.feeds| + (k + 1) + Count(t.input, SEMICOLON) == total)
  {
    var n := FirstSemicolon(Text(s)) + 1;
    TakeCosts(s, n);
    TakeKeepsLines(s, n);
    FirstIsOne(Text(s));
  }

  lemma InTurnStep(s: Stream, arrived: nat -> nat, k: nat, total: nat)
    requires ';' in Text(s) && AtMostOne(s.feeds) && |s.feeds| + k + Count(s.input, SEMICOLON) <= total
    requires InTurn(s, arrived, k, total)
    ensures var t := Take(s, FirstSemicolon(Text(s)) + 1);
            Pending(t, arrived(k)) == [] && Dropped(t, arrived(k)) == t && InTurn(t, arrived, k + 1, total)
  {
    AwaitedAtFirst(s, k, total);
  }

  /**
   * A sender of lines with at most one semicolon each that sends line k + 1 only after answer k
   * disturbs nothing.
   */
  lemma {:induction false} WaitingIsSafe(s: Stream, arrived: nat -> nat, k: nat, total: nat)
    requires AtMostOne(s.feeds) && |s.feeds| + k + Count(s.input, SEMICOLON) <= total
    requires InTurn(s, arrived, k, total)
    ensures Undisturbed(s, arrived, k)
    decreases |Text(s)|
  {
    if ';' in Text(s) {
      var n := FirstSemicolon(Text(s)) + 1;
      var t := Take(s, n);
      TakeText(s, n);
      AwaitedAtFirst(s, k, total);
      InTurnStep(s, arrived, k, total);
      UndisturbedStep(s, arrived, k);
      WaitingIsSafe(t, arrived, k + 1, total);
    }
  }

  lemma {:induction false} FirstInFront(a: seq<char>, b: seq<char>)
    requires ';' in a
    ensures ';' in a + b && FirstSemicolon(a + b) == FirstSemicolon(a)
  {
    assert (a + b)[0] == a[0] && (a + b)[1..] == a[1..] + b;
    if a[0] != ';' {
      FirstInFront(a[1..], b);
    }
  }

  lemma {:induction false} FirstBehind(a: seq<char>, b: seq<char>)
    requires Count(a, SEMICOLON) == 0 && ';' in b
    ensures ';' in a + b && FirstSemicolon(a + b) == |a| + FirstSemicolon(b)
  {
    if a == [] {
      assert a + b == b;
    } else {
      assert (a + b)[0] == a[0] && (a + b)[1..] == a[1..] + b;
      FirstBehind(a[1..], b);
    }
  }

  lemma {:induction false} HasSemicolon(text: seq<char>)
    ensures Count(text, SEMICOLON) > 0 <==> ';' in text
  {
    if text != [] {
      assert text == [text[0]] + text[1..];
      HasSemicolon(text[1..]);
    }
  }

  /** Behind its only semicolon a line has none. */
  lemma NoneBehind(line: seq<char>)
    requires Count(line, SEMICOLON) == 1
    ensures ';' in line && Count(line[FirstSemicolon(line) + 1..], SEMICOLON) == 0
  {
    HasSemicolon(line);
    FirstIsOne(line);
    var n := FirstSemicolon(line) + 1;
    assert line == line[..n] + line[n..];
    CountConcat(line[..n], line[n..], SEMICOLON);
  }

  lemma FirstInLine(s: Stream)
    requires s.feeds != [] && Count(s.input, SEMICOLON) == 0 && ';' in s.feeds[0]
    ensures ';' in Text(s) && FirstSemicolon(Text(s)) == |s.input| + FirstSemicolon(s.feeds[0])
  {
    FirstInFront(s.feeds[0], Flatten(s.feeds[1..]));
    FirstBehind(s.input, Flatten(s.feeds));
  }

  lemma TakesInLine(s: Stream, n: nat)
    requires s.feeds != [] && 0 < n <= |s.feeds[0]|
    ensures |s.input| + n <= |Text(s)| && Take(s, |s.input| + n) == Stream(s.feeds[0][n..], s.feeds[1..])
  {
    assert Take(Stream(s.feeds[0], s.feeds[1..]), n) == Stream(s.feeds[0][n..], s.feeds[1..]);
  }

  /** Once its semicolon has been read, nothing but its end is left of a line. */
  lemma NothingLeftOver(s: Stream)
    requires ExactlyOne(s.feeds) && Count(s.input, SEMICOLON) == 0 && ';' in Text(s)
    ensures Count(Take(s, FirstSemicolon(Text(s)) + 1).input, SEMICOLON) == 0
  {
    HasSemicolon(s.input);
    assert s.feeds != [];
    NoneBehind(s.feeds[0]);
    FirstInLine(s);
    TakesInLine(s, FirstSemicolon(s.feeds[0]) + 1);
  }

  lemma LinesAreNotBlank(lines: seq<seq<char>>)
    requires ExactlyOne(lines)
    ensures AllBlank(lines) <==> lines == []
  {
    if lines != [] && Blank(lines[0]) {
      CountBlank(lines[0], SEMICOLON);
    }
  }

  /** With one semicolon a line, and none left over, a schedule is safe only if the sender waits. */
  lemma {:induction false} WaitsExactlyWhenUndisturbed(s: Stream, arrived: nat -> nat, k: nat, total: nat)
    requires ExactlyOne(s.feeds) && |s.feeds| + k + Count(s.input, SEMICOLON) == total
    requires Count(s.input, SEMICOLON) == 0
    ensures InTurn(s, arrived, k, total) <==> Undisturbed(s, arrived, k)
    decreases |Text(s)|
  {
    if ';' in Text(s) {
      var n := FirstSemicolon(Text(s)) + 1;
      var t := Take(s, n);
      TakeText(s, n);
      AwaitedAtFirst(s, k, total);
      NothingLeftOver(s);
      TurnExactly(s, arrived, k, total);
      UndisturbedStep(s, arrived, k);
      LinesAreNotBlank(Pending(t, arrived(k)));
      if Pending(t, arrived(k)) == [] {
        assert Dropped(t, arrived(k)) == t;
        WaitsExactlyWhenUndisturbed(t, arrived, k + 1, total);
      }
    }
  }

  lemma TurnExactly(s: Stream, arrived: nat -> nat, k: nat, total: nat)
    requires ';' in Text(s)
    requires var t := Take(s, FirstSemicolon(Text(s)) + 1); |t.feeds| + (k + 1) == total
    ensures var t := Take(s, FirstSemicolon(Text(s)) + 1);
            InTurn(s, arrived, k, total) <==> Pending(t, arrived(k)) == [] && InTurn(t, arrived, k + 1, total)
  {
    var t := Take(s, FirstSemicolon(Text(s)) + 1);
    if Pending(t, arrived(k)) == [] {
      assert Dropped(t, arrived(k)) == t;
    }
  }

  /**
   * Of a program sent one statement a line after k answers, all statements are answered, in order
   * and with their sums, if and only if the sender waits for each answer before it sends the next.
   */
  lemma WaitersAnsweredExactlyWhen(es: seq<Expr>, s: Stream, arrived: nat -> nat, k: nat)
    requires AllWellFormed(es) && Lays(Text(s), Program(es), []) && s.input == [] && ExactlyOne(s.feeds)
    ensures Answers(s, arrived, k) == Sums(es) <==> InTurn(s, arrived, k, k + |s.feeds|)
  {
    forall i | 0 <= i < |s.feeds|
      ensures ';' in s.feeds[i]
    {
      HasSemicolon(s.feeds[i]);
    }
    LinesAnsweredExactlyWhen(es, s, arrived, k);
    WaitsExactlyWhenUndisturbed(s, arrived, k, k + |s.feeds|);
  }

  // ------------------------------------------------------------------ what is lost

  function Statement(digit: char): Expr { Expr(Literal([digit]), None) }

  /** The layout of one-digit statements without white space. */
  function Plain(digits: seq<char>): seq<char> {
    if digits == [] then [] else [digits[0], ';'] + Plain(digits[1..])
  }

  function Statements(digits: seq<char>): seq<Expr> {
    if digits == [] then [] else [Statement(digits[0])] + Statements(digits[1..])
  }

  /** A layout gains a token of one character. */
  lemma LaysOne(text: seq<char>, c: char, rest: seq<char>, token: Token, tokens: seq<Token>)
    requires text == [c] + rest && !IsSpace(c) && Chars(token) == [c] && Lays(rest, tokens, [])
    ensures Lays(text, [token] + tokens, [])
  {
    assert text[1..] == rest && ([token] + tokens)[1..] == tokens && text[..1] == [c];
  }

  lemma ProgramOf(digit: char, es: seq<Expr>)
    ensures Program([Statement(digit)] + es) == [Num([digit])] + ([Semicolon] + Program(es))
  {
    assert ([Statement(digit)] + es)[1..] == es;
    assert Tokens(Statement(digit), [Semicolon] + Program(es)) == [Num([digit])] + ([Semicolon] + Program(es));
  }

  lemma {:induction false} PlainLays(digits: seq<char>)
    requires forall i :: 0 <= i < |digits| ==> IsDigit(digits[i])
    ensures AllWellFormed(Statements(digits)) && Lays(Plain(digits), Program(Statements(digits)), [])
  {
    if digits != [] {
      PlainLays(digits[1..]);
      var text, rest := Plain(digits), Plain(digits[1..]);
      var after := Program(Statements(digits[1..]));
      ProgramOf(digits[0], Statements(digits[1..]));
      var after1 := [';'] + rest;
      assert text == [digits[0]] + after1;
      LaysOne(after1, ';', rest, Semicolon, after);
      LaysOne(text, digits[0], after1, Num([digits[0]]), [Semicolon] + after);
    }
  }

  lemma OneDigit(digit: char)
    requires IsDigit(digit)
    ensures WellFormed(Statement(digit)) && Digit(digit) < WORD
    ensures AtomSum(Literal([digit])) == Sum(Statement(digit)) == Digit(digit)
  {
    assert [digit][1..] == [];
    assert Decimal([digit], 0) == Decimal([], Digit(digit));
  }

  /** Reading a whole feed event. */
  lemma TakeEvent(feeds: seq<seq<char>>)
    requires feeds != [] && feeds[0] != []
    ensures |feeds[0]| <= |Text(Stream([], feeds))|
    ensures Take(Stream([], feeds), |feeds[0]|) == Stream([], feeds[1..])
  {
  }

  /** The only semicolon of a line is its last character. */
  predicate IsLine(line: seq<char>) { ';' in line && FirstSemicolon(line) + 1 == |line| }

  /** A first feed event that is a line is read whole, and everything pending behind it is dropped. */
  lemma FirstLine(es: seq<Expr>, feeds: seq<seq<char>>, arrived: nat -> nat, k: nat)
    requires AllWellFormed(es) && es != [] && Sum(es[0]) == 1 && feeds != [] && IsLine(feeds[0])
    requires Lays(Flatten(feeds), Program(es), [])
    ensures var s := Stream([], feeds);
            var t := Stream([], feeds[1..]);
            Answers(s, arrived, k) == [1] + Answers(Dropped(t, arrived(k)), arrived, k + 1)
            && Lost(s, arrived, k) == Pending(t, arrived(k)) + Lost(Dropped(t, arrived(k)), arrived, k + 1)
  {
    var s := Stream([], feeds);
    assert Text(s) == Flatten(feeds);
    OneAnswer(es, s, arrived, k);
    ReadsFirstLine(es, s);
  }

  lemma ReadsFirstLine(es: seq<Expr>, s: Stream)
    requires AllWellFormed(es) && es != [] && s.input == [] && s.feeds != [] && IsLine(s.feeds[0])
    requires Lays(Text(s), Program(es), [])
    ensures !Driven(Text(s)).1 && AtSemicolon(s) == Stream([], s.feeds[1..])
  {
    ReadsToFirst(es, Text(s));
    LineIsFirst(s);
    TakesLine(s, |Text(s)| - |Driven(Text(s)).2|);
  }

  lemma LineIsFirst(s: Stream)
    requires s.input == [] && s.feeds != [] && IsLine(s.feeds[0])
    ensures ';' in Text(s) && FirstSemicolon(Text(s)) + 1 == |s.feeds[0]|
  {
    assert Text(s) == s.feeds[0] + Flatten(s.feeds[1..]);
    FirstInFront(s.feeds[0], Flatten(s.feeds[1..]));
  }

  lemma TakesLine(s: Stream, n: nat)
    requires s.input == [] && s.feeds != [] && 0 < n == |s.feeds[0]|
    ensures n <= |Text(s)| && Take(s, n) == Stream([], s.feeds[1..])
  {
    assert s == Stream([], s.feeds);
    TakeEvent(s.feeds);
  }

  lemma OneIsLine(line: seq<char>)
    requires line == "1;"
    ensures IsLine(line)
  {
    assert line[1..][0] == ';' && line[1] == ';';
  }

  lemma OneLine(feeds: seq<seq<char>>, arrived: nat -> nat, k: nat)
    requires |feeds| == 1 && feeds[0] == "1;"
    ensures Answers(Stream([], feeds), arrived, k) == [1] && Lost(Stream([], feeds), arrived, k) == []
  {
    PlainLays("1");
    OneDigit('1');
    assert "1"[1..] == "" && Statements("1") == [Statement('1')];
    assert feeds[1..] == [] && Flatten(feeds) == feeds[0] + [] == Plain("1");
    OneIsLine(feeds[0]);
    FirstLine(Statements("1"), feeds, arrived, k);
    assert Dropped(Stream([], feeds[1..]), arrived(k)) == Stream([], []);
    NoStatements(Stream([], []), arrived, k + 1);
  }

  /** With "1;" and "2;" in the mailbox together, the second statement is never answered. */
  lemma SecondStatementLost(feeds: seq<seq<char>>, digits: seq<char>, arrived: nat -> nat)
    requires feeds == ["1;", "2;"] && digits == "12" && arrived(0) == 1
    ensures AllWellFormed(Statements(digits)) && Lays(Text(Stream([], feeds)), Program(Statements(digits)), [])
    ensures Sums(Statements(digits)) == [1, 2]
    ensures Answers(Stream([], feeds), arrived, 0) == [1] && Lost(Stream([], feeds), arrived, 0) == ["2;"]
  {
    var t := Stream([], feeds[1..]);
    TwoStatements(digits, feeds);
    OneIsLine(feeds[0]);
    FirstLine(Statements(digits), feeds, arrived, 0);
    assert Dropped(t, 1) == Stream([], []) && Pending(t, 1) == ["2;"];
    NoStatements(Stream([], []), arrived, 1);
  }

  lemma TwoStatements(digits: seq<char>, feeds: seq<seq<char>>)
    requires feeds == ["1;", "2;"] && digits == "12"
    ensures AllWellFormed(Statements(digits)) && |Statements(digits)| == 2 && Sum(Statements(digits)[0]) == 1
    ensures Sums(Statements(digits)) == [1, 2]
    ensures Flatten(feeds) == Text(Stream([], feeds)) == Plain(digits)
    ensures Lays(Plain(digits), Program(Statements(digits)), [])
  {
    PlainLays(digits);
    OneDigit('1');
    OneDigit('2');
    assert digits[1..] == ['2'] && digits[1..][1..] == [] && Statements(digits[1..]) == [Statement('2')];
    assert Statements(digits) == [Statement('1'), Statement('2')] && Statements(digits)[1..] == [Statement('2')];
    assert Sums(Statements(digits)[1..]) == [2];
    assert feeds[1..] == ["2;"] && feeds[1..][1..] == [] && Flatten(feeds[1..]) == feeds[1] + [];
    assert Plain(digits[1..]) == ['2', ';'] + [];
  }

  lemma ThreeEvents(a: seq<char>, b: seq<char>, c: seq<char>)
    ensures Flatten([a, b, c]) == a + (b + c)
    ensures [a, b, c][1..] == [b, c] && [b, c][1..] == [c]
  {
    assert [a, b, c][1..] == [b, c] && [b, c][1..] == [c] && [c][1..] == [];
    assert Flatten([c]) == c + [] == c;
    assert Flatten([b, c]) == b + Flatten([c]);
  }

  /** Any session of two statements in three events of which the second is dropped. */
  lemma MiddleLost(es: seq<Expr>, feeds: seq<seq<char>>, arrived: nat -> nat)
    requires AllWellFormed(es) && es != [] && Sum(es[0]) == 1 && arrived(0) == 1
    requires |feeds| == 3 && feeds[0] == "1;" && feeds[2] == "1;" && Lays(Flatten(feeds), Program(es), [])
    ensures Answers(Stream([], feeds), arrived, 0) == [1, 1]
    ensures Lost(Stream([], feeds), arrived, 0) == [feeds[1]]
  {
    var t := Stream([], feeds[1..]);
    OneIsLine(feeds[0]);
    FirstLine(es, feeds, arrived, 0);
    OneLine(feeds[1..][1..], arrived, 1);
    assert Dropped(t, 1) == Stream([], feeds[1..][1..]) && Pending(t, 1) == [feeds[1]];
  }

  /** The statement c+1. */
  function Successor(c: char): Expr { Expr(Literal([c]), Some(Statement('1'))) }

  lemma SummandTokens(c: char)
    ensures Program([Statement('1'), Successor(c)]) == [Num(['1']), Semicolon, Num([c]), Plus, Num(['1']), Semicolon]
  {
    var es := [Statement('1'), Successor(c)];
    assert es[1..] == [Successor(c)] && [Successor(c)][1..] == [];
    assert Tokens(Statement('1'), [Semicolon]) == [Num(['1'])] + [Semicolon];
    assert Tokens(Successor(c), [Semicolon]) == [Num([c])] + ([Plus] + Tokens(Statement('1'), [Semicolon]));
    assert Program([Successor(c)]) == Tokens(Successor(c), [Semicolon] + []);
    assert Program(es) == Tokens(Statement('1'), [Semicolon] + Program([Successor(c)]));
    assert Program(es) == [Num(['1'])] + ([Semicolon] + Program([Successor(c)]));
  }

  lemma SummandLays(c: char)
    requires IsDigit(c)
    ensures Lays(['1', ';', c, '+', '1', ';'], [Num(['1']), Semicolon, Num([c]), Plus, Num(['1']), Semicolon], [])
  {
    SuccessorLays(c);
    var text, tokens := [c, '+', '1', ';'], [Num([c]), Plus, Num(['1']), Semicolon];
    text, tokens := LaysNext(';', text, Semicolon, tokens);
    text, tokens := LaysNext('1', text, Num(['1']), tokens);
    assert text == ['1', ';', c, '+', '1', ';'];
    assert tokens == [Num(['1']), Semicolon, Num([c]), Plus, Num(['1']), Semicolon];
  }

  lemma SuccessorLays(c: char)
    requires IsDigit(c)
    ensures Lays([c, '+', '1', ';'], [Num([c]), Plus, Num(['1']), Semicolon], [])
  {
    var text, tokens := LaysNext(';', [], Semicolon, []);
    text, tokens := LaysNext('1', text, Num(['1']), tokens);
    text, tokens := LaysNext('+', text, Plus, tokens);
    text, tokens := LaysNext(c, text, Num([c]), tokens);
    assert text == [c, '+', '1', ';'] && tokens == [Num([c]), Plus, Num(['1']), Semicolon];
  }

  lemma LaysNext(c: char, rest: seq<char>, token: Token, tokens: seq<Token>)
    returns (text: seq<char>, tokens': seq<Token>)
    requires !IsSpace(c) && Chars(token) == [c] && Lays(rest, tokens, [])
    ensures text == [c] + rest && tokens' == [token] + tokens && Lays(text, tokens', [])
  {
    text, tokens' := [c] + rest, [token] + tokens;
    LaysOne(text, c, rest, token, tokens);
  }

  lemma SummandSums(c: char)
    requires IsDigit(c)
    ensures AllWellFormed([Statement('1'), Successor(c)]) && Sum(Statement('1')) == 1
    ensures Sums([Statement('1'), Successor(c)]) == [1, Digit(c) + 1]
  {
    OneDigit('1');
    OneDigit(c);
    var es := [Statement('1'), Successor(c)];
    assert es[1..] == [Successor(c)] && [Successor(c)][1..] == [];
    assert Sum(Successor(c)) == AtomSum(Literal([c])) + Sum(Statement('1')) == Digit(c) + 1;
    assert Sums([Successor(c)]) == [Digit(c) + 1];
  }

  /**
   * What is lost need not be noticed: with "1;" and the start of a second statement in the mailbox
   * together, that statement is answered without its first summand.
   */
  lemma SummandLost(arrived: nat -> nat, c: char)
    requires IsDigit(c) && arrived(0) == 1
    ensures var s := Stream([], ["1;", [c, '+'], "1;"]);
            var es := [Statement('1'), Successor(c)];
            AllWellFormed(es) && Lays(Text(s), Program(es), []) && Answers(s, arrived, 0) == [1, 1]
            && Sums(es) == [1, Digit(c) + 1] && Lost(s, arrived, 0) == [[c, '+']]
  {
    var feeds := ["1;", [c, '+'], "1;"];
    SummandSums(c);
    SummandTokens(c);
    SummandLays(c);
    ThreeEvents("1;", [c, '+'], "1;");
    assert Flatten(feeds) == ['1', ';', c, '+', '1', ';'];
    assert Text(Stream([], feeds)) == Flatten(feeds);
    MiddleLost([Statement('1'), Successor(c)], feeds, arrived);
  }
}
