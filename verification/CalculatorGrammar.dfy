/**
 * What the calculator accepts: it answers exactly the texts that begin with a statement, waits
 * exactly while the text may still become one, and otherwise gives up at the first character that
 * no statement has there.
 */
module CalculatorGrammar {
  import opened Options
  import opened Calculator
  import opened CalculatorTheorems

  // ------------------------------------------------------------------ what is parsed is an expression

  /** The digits count as their places among the ten; the white space is that of the C locale. */
  lemma Characters(c: char, k: nat)
    ensures k < 10 ==> IsDigit("0123456789"[k]) && Digit("0123456789"[k]) == k
    ensures IsDigit(c) ==> Digit(c) < 10 && c == "0123456789"[Digit(c)]
    ensures IsSpace(c) <==> c == ' ' || c == '\t' || c == '\n' || c == 11 as char || c == 12 as char || c == '\r'
    ensures IsDigit(c) ==> !IsSpace(c)
  {
  }

  /** The digits that number() reads. */
  lemma {:induction false} ReadsAllDigits(text: seq<char>, value: nat) returns (d: seq<char>)
    requires NumberFrom(text, value).Parsed?
    ensures text == d + NumberFrom(text, value).rest && forall i :: 0 <= i < |d| ==> IsDigit(d[i])
    ensures NumberFrom(text, value).rest != [] && !IsDigit(NumberFrom(text, value).rest[0])
  {
    if IsDigit(text[0]) {
      var w := (value * 10 + Digit(text[0])) % WORD;
      d := ReadsAllDigits(text[1..], w);
      d := [text[0]] + d;
      assert text == [text[0]] + text[1..];
    } else {
      d := [];
    }
  }

  lemma NumberIsLiteral(text: seq<char>) returns (d: seq<char>)
    requires Number(text).Parsed?
    ensures Digits(d) && text == d + Number(text).rest && Number(text).value == Decimal(d, 0) % WORD
  {
    d := ReadsAllDigits(text[1..], Digit(text[0]));
    d := [text[0]] + d;
    assert text == [text[0]] + text[1..];
    ParsesLiteral(d, Number(text).rest);
  }

  /**
   * number() reads the whole run of digits at the front of a text, waits for its end, and rejects a
   * text that begins with anything else, without reading it.
   */
  lemma NumberExactlyWhen(text: seq<char>)
    ensures Number(text).Starved? <==> forall i :: 0 <= i < |text| ==> IsDigit(text[i])
    ensures Number(text).Invalid? <==> text != [] && !IsDigit(text[0])
    ensures Number(text).Invalid? ==> Number(text).rest == text
    ensures Number(text).Parsed? ==>
              exists d, rest :: Digits(d) && text == d + rest && rest != [] && !IsDigit(rest[0])
                                && Number(text) == Parsed(Decimal(d, 0) % WORD, rest)
  {
    if text != [] && IsDigit(text[0]) {
      EndsWithDigits(text[1..], Digit(text[0]));
      assert text == [text[0]] + text[1..];
      if Number(text).Parsed? {
        var d := NumberIsLiteral(text);
        var w := ReadsAllDigits(text[1..], Digit(text[0]));
        assert Digits(d) && text == d + Number(text).rest;
      }
    }
  }

  lemma {:induction false} EndsWithDigits(text: seq<char>, value: nat)
    ensures NumberFrom(text, value).Starved? <==> forall i :: 0 <= i < |text| ==> IsDigit(text[i])
    ensures !NumberFrom(text, value).Invalid?
  {
    if text != [] && IsDigit(text[0]) {
      EndsWithDigits(text[1..], (value * 10 + Digit(text[0])) % WORD);
      assert text == [text[0]] + text[1..];
    }
  }

  /** The text is a layout of the atom followed by rest: whatever tokens rest lays, the text lays after the atom's. */
  ghost predicate LaysAtom(text: seq<char>, a: Atomic, rest: seq<char>) {
    forall after, tail :: Lays(rest, after, tail) ==> Lays(text, AtomTokens(a, after), tail)
  }

  ghost predicate LaysExpr(text: seq<char>, e: Expr, rest: seq<char>) {
    forall after, tail :: Lays(rest, after, tail) ==> Lays(text, Tokens(e, after), tail)
  }

  lemma LaysToken(text: seq<char>, c: seq<char>, token: Token, tokens: seq<Token>, tail: seq<char>)
    requires Chars(token) == c && c <= Skip(text) && Lays(Skip(text)[|c|..], tokens, tail)
    ensures Lays(text, [token] + tokens, tail)
  {
    assert ([token] + tokens)[1..] == tokens;
  }

  lemma LaysLiteral(text: seq<char>, d: seq<char>, rest: seq<char>)
    requires Skip(text) == d + rest
    ensures LaysAtom(text, Literal(d), rest)
  {
    forall after, tail | Lays(rest, after, tail)
      ensures Lays(text, AtomTokens(Literal(d), after), tail)
    {
      assert Skip(text)[|d|..] == rest;
      LaysToken(text, d, Num(d), after, tail);
    }
  }

  lemma LaysGroup(text: seq<char>, inner: seq<char>, e: Expr, close: seq<char>, rest: seq<char>)
    requires Skip(text) == ['('] + inner && LaysExpr(inner, e, close) && close == [')'] + rest
    ensures LaysAtom(text, Group(e), rest)
  {
    forall after, tail | Lays(rest, after, tail)
      ensures Lays(text, AtomTokens(Group(e), after), tail)
    {
      assert Skip(close) == close && close[1..] == rest;
      LaysToken(close, ")", Close, after, tail);
      assert Lays(inner, Tokens(e, [Close] + after), tail);
      assert Skip(text)[1..] == inner;
      LaysToken(text, "(", Open, Tokens(e, [Close] + after), tail);
    }
  }

  lemma LaysOnlyAtom(text: seq<char>, a: Atomic, behind: seq<char>)
    requires LaysAtom(text, a, behind)
    ensures LaysExpr(text, Expr(a, None), Skip(behind))
  {
    SkipTwice(behind);
    forall after, tail | Lays(Skip(behind), after, tail)
      ensures Lays(text, Tokens(Expr(a, None), after), tail)
    {
      assert Lays(behind, after, tail);
    }
  }

  lemma LaysSum(text: seq<char>, a: Atomic, behind: seq<char>, inner: seq<char>, more: Expr, rest: seq<char>)
    requires LaysAtom(text, a, behind) && Skip(behind) == ['+'] + inner && LaysExpr(inner, more, rest)
    ensures LaysExpr(text, Expr(a, Some(more)), rest)
  {
    forall after, tail | Lays(rest, after, tail)
      ensures Lays(text, Tokens(Expr(a, Some(more)), after), tail)
    {
      assert Lays(inner, Tokens(more, after), tail);
      assert Skip(behind)[1..] == inner;
      LaysToken(behind, "+", Plus, Tokens(more, after), tail);
    }
  }

  lemma Split(text: seq<char>)
    requires text != []
    ensures text == [text[0]] + text[1..]
  {
  }

  /** What expression() makes of what is behind its first atom. */
  lemma Unfolds(text: seq<char>)
    ensures !Atom(text).Parsed? ==> Expression(text) == Atom(text)
    ensures Atom(text).Parsed? ==>
              var t := Skip(Atom(text).rest);
              Expression(text)
              == if t == [] then Starved
                 else if t[0] == '+' then Adding(Atom(text).value, Expression(t[1..]))
                 else Parsed(Atom(text).value, t)
  {
  }

  lemma {:induction false} AtomIsLaid(text: seq<char>) returns (a: Atomic)
    requires Atom(text).Parsed?
    ensures WellFormedAtom(a) && Atom(text).value == AtomSum(a) % WORD && LaysAtom(text, a, Atom(text).rest)
    decreases |text|, 0
  {
    var t := Skip(text);
    if t[0] == '(' {
      var e := ExpressionIsLaid(t[1..]);
      Split(t);
      Split(Expression(t[1..]).rest);
      LaysGroup(text, t[1..], e, Expression(t[1..]).rest, Atom(text).rest);
      a := Group(e);
    } else {
      var d := NumberIsLiteral(t);
      LaysLiteral(text, d, Atom(text).rest);
      a := Literal(d);
    }
  }

  /** What expression() reads is a layout of an expression, and the value is its sum. */
  lemma {:induction false} ExpressionIsLaid(text: seq<char>) returns (e: Expr)
    requires Expression(text).Parsed?
    ensures WellFormed(e) && Expression(text).value == Sum(e) % WORD && LaysExpr(text, e, Expression(text).rest)
    decreases |text|, 1
  {
    Unfolds(text);
    var a := AtomIsLaid(text);
    var behind := Atom(text).rest;
    if Skip(behind)[0] == '+' {
      var more := ExpressionIsLaid(Skip(behind)[1..]);
      Split(Skip(behind));
      LaysSum(text, a, behind, Skip(behind)[1..], more, Expression(text).rest);
      SumWraps(AtomSum(a), Sum(more));
      e := Expr(a, Some(more));
    } else {
      LaysOnlyAtom(text, a, behind);
      e := Expr(a, None);
    }
  }

  // ------------------------------------------------------------------ longer texts

  /** The same outcome with more text behind it. */
  function Longer(p: Parse, x: seq<char>): Parse {
    match p
    case Parsed(v, rest) => Parsed(v, rest + x)
    case Invalid(rest) => Invalid(rest + x)
    case Starved => Starved
  }

  lemma TailExtends(text: seq<char>, x: seq<char>)
    requires text != []
    ensures (text + x)[0] == text[0] && (text + x)[1..] == text[1..] + x
  {
  }

  lemma {:induction false} SkipExtends(text: seq<char>, x: seq<char>)
    ensures Skip(text + x) == if Skip(text) != [] then Skip(text) + x else Skip(x)
  {
    if text == [] {
      assert text + x == x;
    } else {
      TailExtends(text, x);
      if IsSpace(text[0]) {
        SkipExtends(text[1..], x);
      }
    }
  }

  lemma {:induction false} NumberExtends(text: seq<char>, value: nat, x: seq<char>)
    ensures !NumberFrom(text, value).Starved? ==> NumberFrom(text + x, value) == Longer(NumberFrom(text, value), x)
    ensures NumberFrom(text, value).Starved? && NumberFrom(text + x, value).Parsed? ==>
              |NumberFrom(text + x, value).rest| <= |x|
  {
    if text == [] {
      assert text + x == x;
    } else {
      TailExtends(text, x);
      if IsDigit(text[0]) {
        NumberExtends(text[1..], (value * 10 + Digit(text[0])) % WORD, x);
      }
    }
  }

  /** Where expression() stops there is a character, and no space. */
  lemma {:induction false} StopsAtCharacter(text: seq<char>)
    ensures !Expression(text).Starved? ==> Expression(text).rest != []
    ensures Expression(text).Parsed? ==> Skip(Expression(text).rest) == Expression(text).rest
    decreases |text|, 1
  {
    AtomStops(text);
    if Atom(text).Parsed? && !Expression(text).Starved? {
      Unfolds(text);
      SkipTwice(Atom(text).rest);
      if Skip(Atom(text).rest)[0] == '+' {
        StopsAtCharacter(Skip(Atom(text).rest)[1..]);
      }
    }
  }

  lemma {:induction false} AtomStops(text: seq<char>)
    ensures Atom(text).Invalid? ==> Atom(text).rest != []
    decreases |text|, 0
  {
    if Skip(text) != [] && Skip(text)[0] == '(' {
      StopsAtCharacter(Skip(text)[1..]);
    } else if Skip(text) != [] && IsDigit(Skip(text)[0]) {
      NumberConsumes(Skip(text)[1..], Digit(Skip(text)[0]));
    }
  }

  lemma ClosingExtends(p: Parse, x: seq<char>)
    requires p.Parsed? ==> p.rest != []
    ensures !p.Starved? ==> Closing(Longer(p, x)) == Longer(Closing(p), x)
    ensures Closing(p).Starved? <==> p.Starved?
  {
    if p.Parsed? {
      TailExtends(p.rest, x);
    } else if p.Invalid? {
    }
  }

  lemma {:induction false} AtomExtends(text: seq<char>, x: seq<char>)
    ensures !Atom(text).Starved? ==> Atom(text + x) == Longer(Atom(text), x)
    decreases |text|, 0
  {
    var t := Skip(text);
    SkipExtends(text, x);
    if t != [] {
      TailExtends(t, x);
      if t[0] == '(' {
        ExpressionExtends(t[1..], x);
        StopsAtCharacter(t[1..]);
        ClosingExtends(Expression(t[1..]), x);
      } else if IsDigit(t[0]) {
        NumberExtends(t[1..], Digit(t[0]), x);
      }
    }
  }

  lemma AddsLonger(value: nat, p: Parse, x: seq<char>)
    ensures Adding(value, Longer(p, x)) == Longer(Adding(value, p), x)
  {
  }

  /** What the parser makes of a text it makes of any longer one. */
  lemma {:induction false} ExpressionExtends(text: seq<char>, x: seq<char>)
    ensures !Expression(text).Starved? ==> Expression(text + x) == Longer(Expression(text), x)
    decreases |text|, 1
  {
    AtomExtends(text, x);
    Unfolds(text);
    if Atom(text).Parsed? {
      var t := Skip(Atom(text).rest);
      if t != [] {
        UnfoldsLonger(text, x);
        if t[0] == '+' {
          ExpressionExtends(t[1..], x);
          AddsLonger(Atom(text).value, Expression(t[1..]), x);
        }
      }
    } else if Atom(text).Invalid? {
      Unfolds(text + x);
    }
  }

  lemma UnfoldsLonger(text: seq<char>, x: seq<char>)
    requires Atom(text).Parsed? && Skip(Atom(text).rest) != [] && Atom(text + x) == Longer(Atom(text), x)
    ensures var t := Skip(Atom(text).rest);
            Expression(text + x)
            == if t[0] == '+' then Adding(Atom(text).value, Expression(t[1..] + x)) else Parsed(Atom(text).value, t + x)
  {
    Unfolds(text + x);
    SkipExtends(Atom(text).rest, x);
    TailExtends(Skip(Atom(text).rest), x);
  }

  // ------------------------------------------------------------------ texts that may go on

  lemma RestShrinks(text: seq<char>)
    ensures Atom(text).Parsed? && !Expression(text).Starved? ==> |Expression(text).rest| <= |Atom(text).rest|
  {
    Unfolds(text);
    if Atom(text).Parsed? && Skip(Atom(text).rest) != [] {
      ExpressionConsumes(Skip(Atom(text).rest)[1..]);
    }
  }

  /** The outcome lies behind the first |text| - n characters. */
  predicate EndsWithin(p: Parse, n: nat) { !p.Starved? ==> |p.rest| <= n }

  /** A parser that waits at the end of a text has read all of it. */
  lemma {:induction false} AtomReadsAll(text: seq<char>, x: seq<char>)
    requires Atom(text).Starved?
    ensures EndsWithin(Atom(text + x), |x|)
    decreases |text|, 0
  {
    var t := Skip(text);
    SkipExtends(text, x);
    if t == [] {
      AtomConsumes(x);
      assert Atom(text + x) == Atom(x);
    } else {
      TailExtends(t, x);
      if t[0] == '(' {
        StopsAtCharacter(t[1..]);
        ClosingExtends(Expression(t[1..]), x);
        ExpressionReadsAll(t[1..], x);
      } else {
        NumberExtends(t[1..], Digit(t[0]), x);
        NumberConsumes(t[1..] + x, Digit(t[0]));
      }
    }
  }

  lemma {:induction false} ExpressionReadsAll(text: seq<char>, x: seq<char>)
    requires Expression(text).Starved?
    ensures EndsWithin(Expression(text + x), |x|)
    decreases |text|, 1
  {
    Unfolds(text);
    if Atom(text).Starved? {
      AtomReadsAll(text, x);
      RestShrinks(text + x);
      Unfolds(text + x);
    } else {
      AtomExtends(text, x);
      if Skip(Atom(text).rest) == [] {
        UnfoldsBlank(text, x);
      } else {
        UnfoldsLonger(text, x);
        ExpressionReadsAll(Skip(Atom(text).rest)[1..], x);
      }
    }
  }

  lemma UnfoldsBlank(text: seq<char>, x: seq<char>)
    requires Atom(text).Parsed? && Skip(Atom(text).rest) == [] && Atom(text + x) == Longer(Atom(text), x)
    ensures EndsWithin(Expression(text + x), |x|)
    ensures x != [] && !IsSpace(x[0]) && x[0] != '+' ==> Expression(text + x) == Parsed(Atom(text).value, x)
  {
    Unfolds(text + x);
    SkipExtends(Atom(text).rest, x);
    if Skip(x) != [] {
      ExpressionConsumes(Skip(x)[1..]);
    }
  }

  lemma {:induction false} NumberEnds(text: seq<char>, value: nat, z: seq<char>)
    requires NumberFrom(text, value).Starved? && z != [] && !IsDigit(z[0])
    ensures NumberFrom(text + z, value).Parsed? && NumberFrom(text + z, value).rest == z
  {
    if text == [] {
      assert text + z == z;
    } else {
      TailExtends(text, z);
      NumberEnds(text[1..], (value * 10 + Digit(text[0])) % WORD, z);
    }
  }

  /** What can follow an expression: a closing bracket or a semicolon, and anything. */
  predicate Ends(z: seq<char>) { z != [] && (z[0] == ')' || z[0] == ';') }

  /** Whatever the parser waits in, it can be brought to its end. */
  lemma {:induction false} AtomCompletes(text: seq<char>, z: seq<char>) returns (w: seq<char>)
    requires Atom(text).Starved? && Ends(z)
    ensures Atom(text + (w + z)).Parsed? && Atom(text + (w + z)).rest == z
    decreases |text|, 0
  {
    var t := Skip(text);
    if t == [] {
      w := ['0'];
      SkipExtends(text, w + z);
      assert (w + z)[1..] == z && Skip(text + (w + z)) == w + z;
    } else if t[0] == '(' {
      StopsAtCharacter(t[1..]);
      ClosingExtends(Expression(t[1..]), z);
      w := ExpressionCompletes(t[1..], [')'] + z);
      GroupCompletes(text, w, z);
      w := w + [')'];
    } else {
      w := [];
      assert w + z == z;
      SkipExtends(text, z);
      TailExtends(t, z);
      NumberEnds(t[1..], Digit(t[0]), z);
    }
  }

  lemma GroupCompletes(text: seq<char>, w: seq<char>, z: seq<char>)
    requires Skip(text) != [] && Skip(text)[0] == '('
    requires var p := Expression(Skip(text)[1..] + (w + ([')'] + z))); p.Parsed? && p.rest == [')'] + z
    ensures Atom(text + ((w + [')']) + z)).Parsed? && Atom(text + ((w + [')']) + z)).rest == z
  {
    var x := w + ([')'] + z);
    assert (w + [')']) + z == x && ([')'] + z)[1..] == z;
    SkipExtends(text, x);
    TailExtends(Skip(text), x);
  }

  lemma {:induction false} ExpressionCompletes(text: seq<char>, z: seq<char>) returns (w: seq<char>)
    requires Expression(text).Starved? && Ends(z)
    ensures Expression(text + (w + z)).Parsed? && Expression(text + (w + z)).rest == z
    decreases |text|, 1
  {
    Unfolds(text);
    if Atom(text).Starved? {
      w := AtomCompletes(text, z);
      Unfolds(text + (w + z));
    } else if Skip(Atom(text).rest) == [] {
      w := [];
      assert w + z == z;
      AtomExtends(text, z);
      UnfoldsBlank(text, z);
    } else {
      w := ExpressionCompletes(Skip(Atom(text).rest)[1..], z);
      AtomExtends(text, w + z);
      UnfoldsLonger(text, w + z);
    }
  }

  // ------------------------------------------------------------------ what the driver does

  /** The text is a layout of an expression and a semicolon, of this value, that ends in the semicolon. */
  ghost predicate Statement(text: seq<char>, v: nat) {
    text != [] && text[|text| - 1] == ';'
    && exists e :: WellFormed(e) && v == Sum(e) % WORD && Lays(text, Tokens(e, [Semicolon]), [])
  }

  /** Some statement begins with the text. */
  ghost predicate Viable(text: seq<char>) {
    exists w, v :: Statement(text + w, v)
  }

  /** Where the parser stops: not before that character, and as soon as it is there. */
  lemma StopsAsSoon(text: seq<char>, n: nat)
    requires !Expression(text).Starved? && n < |text| && |text| - |Expression(text).rest| == n
    ensures Expression(text[..n]).Starved?
    ensures Expression(text) == Longer(Expression(text[..n + 1]), text[n + 1..])
    ensures !Expression(text[..n + 1]).Starved? && Expression(text[..n + 1]).rest == [text[n]]
  {
    assert text[..n] + text[n..] == text && text[..n + 1] + text[n + 1..] == text;
    StopsNotBefore(text[..n], text[n..]);
    StopsThere(text[..n + 1], text[n + 1..]);
    ExpressionConsumes(text[..n + 1]);
  }

  lemma StopsNotBefore(a: seq<char>, x: seq<char>)
    requires !Expression(a + x).Starved? && |Expression(a + x).rest| == |x|
    ensures Expression(a).Starved?
  {
    StopsAtCharacter(a);
    ExpressionExtends(a, x);
  }

  lemma StopsThere(a: seq<char>, x: seq<char>)
    requires !Expression(a + x).Starved? && |Expression(a + x).rest| == |x| + 1
    ensures !Expression(a).Starved? && |Expression(a).rest| == 1 && Expression(a + x) == Longer(Expression(a), x)
  {
    if Expression(a).Starved? {
      ExpressionReadsAll(a, x);
    } else {
      ExpressionExtends(a, x);
    }
  }

  /** How the driver decides, by what the parser makes of the text. */
  lemma Decides(text: seq<char>)
    ensures Driven(text).1 <==> Expression(text).Starved?
    ensures !Driven(text).1 ==>
              var p := Expression(text);
              p.rest != [] && Driven(text).2 == p.rest[1..]
              && Driven(text).0 == if p.Parsed? && p.rest[0] == ';' then Some(p.value) else None
  {
    StopsAtCharacter(text);
  }

  /** What was answered is a statement, read to its semicolon, and its value was sent. */
  lemma AnsweredIsStatement(text: seq<char>)
    requires !Driven(text).1 && Driven(text).0.Some?
    ensures var n := |text| - |Driven(text).2|; 0 < n <= |text| && Statement(text[..n], Driven(text).0.value)
  {
    Decides(text);
    ExpressionConsumes(text);
    var n := |text| - |Driven(text).2|;
    StopsAsSoon(text, n - 1);
    EndsInSemicolon(text[..n], Driven(text).0.value);
  }

  lemma EndsInSemicolon(text: seq<char>, v: nat)
    requires Expression(text) == Parsed(v, [';'])
    ensures Statement(text, v)
  {
    ExpressionConsumes(text);
    var e := ExpressionIsLaid(text);
    assert Lays([';'], [Semicolon], []);
    assert Lays(text, Tokens(e, [Semicolon]), []);
  }

  /** A statement is answered, whatever follows it, and read to its semicolon. */
  lemma StatementIsAnswered(text: seq<char>, v: nat, x: seq<char>)
    requires Statement(text, v)
    ensures Driven(text + x) == (Some(v), false, x)
  {
    var e :| WellFormed(e) && v == Sum(e) % WORD && Lays(text, Tokens(e, [Semicolon]), []);
    ParsesOnto(e, text, [Semicolon], []);
    ExpressionConsumes(text);
    LastIsSemicolon(text, Expression(text).rest);
    ExpressionExtends(text, x);
    Decides(text + x);
  }

  lemma LastIsSemicolon(text: seq<char>, rest: seq<char>)
    requires Consumed(text, rest) && text != [] && text[|text| - 1] == ';'
    requires Lays(rest, [Semicolon], []) && Skip(rest) == rest
    ensures rest == [';']
  {
    assert [Semicolon][1..] == [];
    var blank := SkipSplits(rest[1..]);
    assert rest == [';'] + blank;
    if blank != [] {
      LastOf(rest, blank);
    }
  }

  lemma LastOf(rest: seq<char>, blank: seq<char>)
    requires rest == [';'] + blank && blank != []
    ensures rest[|rest| - 1] == blank[|blank| - 1]
  {
  }

  /** What the driver gives up on is given up whatever follows. */
  lemma RejectsWhateverFollows(text: seq<char>, n: nat, x: seq<char>)
    requires !Driven(text).1 && Driven(text).0.None? && n == |text| - |Driven(text).2|
    ensures 0 < n <= |text| && Driven(text[..n] + x) == (None, false, x)
  {
    Decides(text);
    ExpressionConsumes(text);
    StopsAsSoon(text, n - 1);
    ExpressionExtends(text[..n], x);
    Decides(text[..n] + x);
  }

  lemma WaitingIsViable(text: seq<char>)
    requires Expression(text).Starved?
    ensures Viable(text)
  {
    var z := [';'];
    var w := ExpressionCompletes(text, z);
    var v := Expression(text + (w + z)).value;
    EndsInSemicolon(text + (w + z), v);
    assert Statement(text + (w + z), v);
  }

  lemma BeginningIsAnswered(text: seq<char>, n: nat, v: nat)
    requires n <= |text| && Statement(text[..n], v)
    ensures Driven(text) == (Some(v), false, text[n..])
  {
    StatementIsAnswered(text[..n], v, text[n..]);
    assert text[..n] + text[n..] == text;
  }

  /** A value is sent if and only if the text begins with a statement of that value. */
  lemma SendsExactlyWhen(text: seq<char>, v: nat)
    ensures Driven(text).0 == Some(v) <==> exists n :: 0 <= n <= |text| && Statement(text[..n], v)
    ensures Driven(text).0 == Some(v) ==> Statement(text[..|text| - |Driven(text).2|], v)
  {
    if Driven(text).0 == Some(v) {
      Decides(text);
      AnsweredIsStatement(text);
    } else if n :| 0 <= n <= |text| && Statement(text[..n], v) {
      BeginningIsAnswered(text, n, v);
    }
  }

  /** The driver waits if and only if the text has no statement yet and can still become one. */
  lemma WaitsExactlyWhen(text: seq<char>)
    ensures Driven(text).1 <==> Viable(text) && forall n, v :: 0 <= n <= |text| ==> !Statement(text[..n], v)
  {
    Decides(text);
    if Driven(text).1 {
      WaitingIsViable(text);
      forall n, v | 0 <= n <= |text|
        ensures !Statement(text[..n], v)
      {
        SendsExactlyWhen(text, v);
      }
    } else if Driven(text).0.Some? {
      SendsExactlyWhen(text, Driven(text).0.value);
    } else {
      GivenUpIsNotViable(text);
    }
  }

  lemma GivenUpIsNotViable(text: seq<char>)
    requires !Driven(text).1 && Driven(text).0.None?
    ensures var n := |text| - |Driven(text).2|; 0 < n <= |text| && !Viable(text[..n]) && !Viable(text)
  {
    var n := |text| - |Driven(text).2|;
    RejectsWhateverFollows(text, n, []);
    forall w, v
      ensures !Statement(text[..n] + w, v)
    {
      NoStatementFollows(text, n, w, v);
    }
    forall w, v
      ensures !Statement(text + w, v)
    {
      assert text + w == text[..n] + (text[n..] + w);
      NoStatementFollows(text, n, text[n..] + w, v);
    }
  }

  lemma NoStatementFollows(text: seq<char>, n: nat, w: seq<char>, v: nat)
    requires !Driven(text).1 && Driven(text).0.None? && n == |text| - |Driven(text).2| <= |text|
    ensures !Statement(text[..n] + w, v)
  {
    RejectsWhateverFollows(text, n, w);
    if Statement(text[..n] + w, v) {
      IsAnswered(text[..n] + w, v);
    }
  }

  lemma IsAnswered(text: seq<char>, v: nat)
    requires Statement(text, v)
    ensures Driven(text) == (Some(v), false, [])
  {
    StatementIsAnswered(text, v, []);
    assert text + [] == text;
  }

  /**
   * Otherwise the driver gives up, and skips the text up to and including the first character that
   * no statement has there: what is before it begins some statement, and with it none.
   */
  lemma SkipsOneCharacter(text: seq<char>)
    requires !Driven(text).1 && Driven(text).0.None?
    ensures var n := |text| - |Driven(text).2|;
            0 < n <= |text| && Driven(text).2 == text[n..] && Viable(text[..n - 1]) && !Viable(text[..n])
  {
    Decides(text);
    DrivenConsumes(text);
    ExpressionConsumes(text);
    var n := |text| - |Driven(text).2|;
    StopsAsSoon(text, n - 1);
    WaitingIsViable(text[..n - 1]);
    GivenUpIsNotViable(text);
  }
}
