/**
 * The calculator example: a recursive-descent parser that pulls its text out of feed events,
 * waiting for the next one whenever it runs dry.
 */
module Calculator {
  import opened Options

  /** Number of values of a uint. */
  const WORD: nat := 0x1_0000_0000

  /** What a parser function makes of the text: a value, InvalidSyntax, or a wait for more text. */
  datatype Parse = Parsed(value: nat, rest: seq<char>) | Invalid(rest: seq<char>) | Starved

  datatype Outcome = Done(value: nat) | Thrown | Waiting

  predicate IsDigit(c: char) { '0' <= c <= '9' }

  predicate IsSpace(c: char) { 9 <= c as int <= 13 || c == ' ' }

  function Digit(c: char): nat
    requires IsDigit(c)
  {
    c as int - '0' as int
  }

  function Skip(text: seq<char>): (rest: seq<char>)
    ensures |rest| <= |text|
    ensures rest != [] ==> !IsSpace(rest[0])
  {
    if text != [] && IsSpace(text[0]) then Skip(text[1..]) else text
  }

  function NumberFrom(text: seq<char>, value: nat): (p: Parse)
    ensures p.Parsed? ==> |p.rest| <= |text|
  {
    if text == [] then Starved
    else if IsDigit(text[0]) then NumberFrom(text[1..], (value * 10 + Digit(text[0])) % WORD)
    else Parsed(value, text)
  }

  function Number(text: seq<char>): (p: Parse)
    ensures p.Parsed? ==> |p.rest| < |text|
  {
    if text == [] then Starved
    else if !IsDigit(text[0]) then Invalid(text)
    else NumberFrom(text[1..], Digit(text[0]))
  }

  function Closing(p: Parse): Parse {
    if !p.Parsed? then p
    else if p.rest == [] then Starved
    else if p.rest[0] == ')' then Parsed(p.value, p.rest[1..])
    else Invalid(p.rest)
  }

  function Atom(text: seq<char>): (p: Parse)
    ensures p.Parsed? ==> |p.rest| < |text|
    decreases |text|, 0
  {
    var t := Skip(text);
    if t == [] then Starved
    else if t[0] == '(' then Closing(Expression(t[1..]))
    else Number(t)
  }

  function Expression(text: seq<char>): (p: Parse)
    ensures p.Parsed? ==> |p.rest| < |text|
    decreases |text|, 1
  {
    var a := Atom(text);
    if a.Parsed? then More(a.value, a.rest) else a
  }

  /** What may follow the first atom of an expression. */
  function More(value: nat, text: seq<char>): (p: Parse)
    ensures p.Parsed? ==> |p.rest| <= |text|
    decreases |text|, 2
  {
    var t := Skip(text);
    if t == [] then Starved
    else if t[0] != '+' then Parsed(value, t)
    else
      var e := Expression(t[1..]);
      if e.Parsed? then Parsed((value + e.value) % WORD, e.rest) else e
  }

  /** What the driver makes of what is behind an expression. */
  function Behind(text: seq<char>): Parse {
    var t := Skip(text);
    if t == [] then Starved else if t[0] == ';' then Parsed(0, t[1..]) else Invalid(t)
  }

  function Adding(value: nat, p: Parse): Parse {
    if p.Parsed? then Parsed((value + p.value) % WORD, p.rest) else p
  }

  lemma MoreIsSum(value: nat, text: seq<char>)
    requires Skip(text) != [] && Skip(text)[0] == '+'
    ensures More(value, text) == Adding(value, Expression(Skip(text)[1..]))
  {
  }

  // ------------------------------------------------------------------ the text and its feed events

  function Flatten(chunks: seq<seq<char>>): seq<char> {
    if chunks == [] then [] else chunks[0] + Flatten(chunks[1..])
  }

  /** What has been fed and not read, and the texts of the feed events not yet awaited, in order. */
  datatype Stream = Stream(input: seq<char>, feeds: seq<seq<char>>)

  function Text(s: Stream): seq<char> { s.input + Flatten(s.feeds) }

  /** After n characters have been read: a feed event is awaited only when the input has run out. */
  function Take(s: Stream, n: nat): Stream
    requires n <= |Text(s)|
    decreases |s.feeds|
  {
    if n <= |s.input| then Stream(s.input[n..], s.feeds)
    else Take(Stream(s.feeds[0], s.feeds[1..]), n - |s.input|)
  }

  /** After a look at the next character: feed events are awaited until there is one. */
  function Settle(s: Stream): Stream
    decreases |s.feeds|
  {
    if s.input == [] && s.feeds != [] then Settle(Stream(s.feeds[0], s.feeds[1..])) else s
  }

  lemma {:induction false} SettleKeepsText(s: Stream)
    ensures Text(Settle(s)) == Text(s)
    ensures Settle(s).input == [] <==> Text(s) == []
    ensures Settle(Settle(s)) == Settle(s)
    decreases |s.feeds|
  {
    if s.input == [] && s.feeds != [] {
      SettleKeepsText(Stream(s.feeds[0], s.feeds[1..]));
      assert [] + Flatten(s.feeds) == Flatten(s.feeds);
    }
  }

  lemma {:induction false} TakeText(s: Stream, n: nat)
    requires n <= |Text(s)|
    ensures Text(Take(s, n)) == Text(s)[n..]
    decreases |s.feeds|
  {
    if n > |s.input| {
      TakeText(Stream(s.feeds[0], s.feeds[1..]), n - |s.input|);
      assert Text(s)[n..] == Flatten(s.feeds)[n - |s.input|..];
    }
  }

  lemma {:induction false} TakeSettled(s: Stream, n: nat)
    requires 0 < n <= |Text(s)|
    ensures |Text(Settle(s))| == |Text(s)| && Take(Settle(s), n) == Take(s, n)
    decreases |s.feeds|
  {
    SettleKeepsText(s);
    if s.input == [] && s.feeds != [] {
      TakeSettled(Stream(s.feeds[0], s.feeds[1..]), n);
    }
  }

  lemma {:induction false} TakeTwice(s: Stream, m: nat, n: nat)
    requires m + n <= |Text(s)|
    ensures |Text(Take(s, m))| == |Text(s)| - m && Take(Take(s, m), n) == Take(s, m + n)
    decreases |s.feeds|
  {
    TakeText(s, m);
    if m > |s.input| {
      TakeTwice(Stream(s.feeds[0], s.feeds[1..]), m - |s.input|, n);
    }
  }

  /** b is a, read up to some point and perhaps looked at there. */
  ghost predicate Reads(a: Stream, b: Stream) {
    |Text(b)| <= |Text(a)| && Settle(b) == Settle(Take(a, |Text(a)| - |Text(b)|))
  }

  /** Reading on from a stream that was looked at is reading on from where it was. */
  lemma ReadsOn(a: Stream, b: Stream, n: nat)
    requires Reads(a, b) && n <= |Text(b)|
    ensures var m := |Text(a)| - |Text(b)|;
            Settle(Take(b, n)) == Settle(Take(a, m + n)) && (n > 0 ==> Take(b, n) == Take(a, m + n))
  {
    var m := |Text(a)| - |Text(b)|;
    TakeText(a, m);
    TakeTwice(a, m, n);
    if n > 0 {
      TakeSettled(b, n);
      TakeSettled(Take(a, m), n);
    } else {
      assert Take(b, 0) == b;
    }
  }

  lemma ReadsTwice(a: Stream, b: Stream, c: Stream)
    requires Reads(a, b) && Reads(b, c)
    ensures Reads(a, c)
  {
    ReadsOn(a, b, |Text(b)| - |Text(c)|);
  }

  lemma LooksAt(a: Stream)
    ensures Reads(a, Settle(a))
  {
    SettleKeepsText(a);
    assert Take(a, 0) == a;
  }

  lemma Takes(a: Stream, n: nat)
    requires n <= |Text(a)|
    ensures Reads(a, Take(a, n))
  {
    TakeText(a, n);
  }

  lemma AddWraps(a: nat, b: nat)
    ensures (a % WORD + b) % WORD == (a + b) % WORD
  {
    var q, r := a / WORD, (a % WORD + b) / WORD;
    assert a == q * WORD + a % WORD;
    assert a % WORD + b == r * WORD + (a % WORD + b) % WORD;
    assert a + b == (q + r) * WORD + (a % WORD + b) % WORD;
  }

  /** The outcome of a method, given what the parser function makes of the text. */
  ghost predicate Agrees(p: Parse, o: Outcome, text: seq<char>) {
    match p
    case Parsed(v, rest) => o == Done(v) && text == rest
    case Invalid(rest) => o == Thrown && text == rest
    case Starved => o == Waiting
  }

  /** feeds holds the feed events not yet awaited, whether they are in the mailbox or still to come. */
  class Reader {
    var input: seq<char>
    var feeds: seq<seq<char>>

    ghost function View(): Stream
      reads this
    {
      Stream(input, feeds)
    }

    constructor (feeds: seq<seq<char>>)
      ensures View() == Stream([], feeds)
    {
      input := [];
      this.feeds := feeds;
    }

    /** Returns false if it waits for a feed event that never comes. */
    method WaitForInput() returns (ready: bool)
      modifies this
      ensures View() == Settle(old(View())) && Text(View()) == Text(old(View()))
      ensures ready <==> Text(View()) != []
      ensures ready ==> input != []
    {
      SettleKeepsText(View());
      while input == [] && feeds != []
        invariant Settle(View()) == Settle(old(View()))
        decreases |feeds|
      {
        input := input + feeds[0];
        feeds := feeds[1..];
      }
      ready := input != [];
    }

    method GetChar() returns (c: Option<char>)
      modifies this
      ensures Reads(old(View()), View())
      ensures c.None? <==> Text(old(View())) == []
      ensures c.Some? ==> Text(old(View())) == [c.value] + Text(View()) && View() == Take(old(View()), 1)
    {
      var ready := WaitForInput();
      LooksAt(old(View()));
      c := None;
      if ready {
        ghost var was := View();
        c := Some(input[0]);
        input := input[1..];
        assert View() == Take(was, 1);
        TakeSettled(old(View()), 1);
        TakeText(old(View()), 1);
        Takes(old(View()), 1);
      }
    }

    method PeekChar() returns (c: Option<char>)
      modifies this
      ensures View() == Settle(old(View())) && Text(View()) == Text(old(View())) && Reads(old(View()), View())
      ensures c.None? <==> Text(View()) == []
      ensures c.Some? ==> Text(View()) != [] && c.value == Text(View())[0]
    {
      var ready := WaitForInput();
      LooksAt(old(View()));
      c := if ready then Some(input[0]) else None;
    }

    method SkipSpace() returns (ready: bool)
      modifies this
      ensures Text(View()) == Skip(Text(old(View()))) && Reads(old(View()), View())
      ensures ready <==> Text(View()) != []
    {
      var c := PeekChar();
      while c.Some? && IsSpace(c.value)
        invariant Skip(Text(View())) == Skip(Text(old(View()))) && Reads(old(View()), View())
        invariant c.None? <==> Text(View()) == []
        invariant c.Some? ==> c.value == Text(View())[0]
        decreases |Text(View())|
      {
        ghost var was := View();
        var _ := GetChar();
        ReadsTwice(old(View()), was, View());
        was := View();
        c := PeekChar();
        ReadsTwice(old(View()), was, View());
      }
      ready := c.Some?;
    }

    /** One turn of the loop of number(): the value wraps at the multiplication and at the addition. */
    method ReadDigit(value: nat) returns (value': nat)
      requires Text(View()) != [] && IsDigit(Text(View())[0])
      modifies this
      ensures Reads(old(View()), View()) && Text(View()) == Text(old(View()))[1..]
      ensures value' == (value * 10 + Digit(Text(old(View()))[0])) % WORD
    {
      value' := (value * 10) % WORD;
      var d := GetChar();
      AddWraps(value * 10, Digit(d.value));
      value' := (value' + Digit(d.value)) % WORD;
    }

    method ReadNumber() returns (o: Outcome)
      modifies this
      ensures Agrees(Number(Text(old(View()))), o, Text(View())) && Reads(old(View()), View())
    {
      var c := PeekChar();
      if c.None? {
        return Waiting;
      }
      if !IsDigit(c.value) {
        return Thrown;
      }
      var value: nat := 0;
      ghost var text := Text(View());
      while c.Some? && IsDigit(c.value)
        invariant Reads(old(View()), View())
        invariant c.None? <==> Text(View()) == []
        invariant c.Some? ==> c.value == Text(View())[0]
        invariant NumberFrom(Text(View()), value) == NumberFrom(text, 0)
        decreases |Text(View())|
      {
        ghost var was := View();
        value := ReadDigit(value);
        ReadsTwice(old(View()), was, View());
        was := View();
        c := PeekChar();
        ReadsTwice(old(View()), was, View());
      }
      o := if c.None? then Waiting else Done(value);
    }

    method Symbol(symbol: char) returns (o: Outcome)
      modifies this
      ensures Reads(old(View()), View())
      ensures Text(old(View())) == [] ==> o == Waiting && Text(View()) == []
      ensures Text(old(View())) != [] && Text(old(View()))[0] == symbol ==>
                o == Done(0) && Text(View()) == Text(old(View()))[1..] && View() == Take(old(View()), 1)
      ensures Text(old(View())) != [] && Text(old(View()))[0] != symbol ==>
                o == Thrown && Text(View()) == Text(old(View()))
    {
      var c := PeekChar();
      if c.None? {
        o := Waiting;
      } else if c.value == symbol {
        ghost var was := View();
        var _ := GetChar();
        ReadsTwice(old(View()), was, View());
        TakeSettled(old(View()), 1);
        o := Done(0);
      } else {
        o := Thrown;
      }
    }

    method ReadAtom() returns (o: Outcome)
      modifies this
      ensures Agrees(Atom(Text(old(View()))), o, Text(View())) && Reads(old(View()), View())
      decreases |Text(View())|, 0
    {
      var ready := SkipSpace();
      if !ready {
        return Waiting;
      }
      ghost var was := View();
      var c := PeekChar();
      ReadsTwice(old(View()), was, View());
      was := View();
      if c.value == '(' {
        var _ := Symbol('(');
        ReadsTwice(old(View()), was, View());
        was := View();
        o := ReadExpression();
        ReadsTwice(old(View()), was, View());
        if o.Done? {
          was := View();
          var close := Symbol(')');
          ReadsTwice(old(View()), was, View());
          if !close.Done? {
            o := close;
          }
        }
      } else {
        o := ReadNumber();
        ReadsTwice(old(View()), was, View());
      }
    }

    method ReadExpression() returns (o: Outcome)
      modifies this
      ensures Agrees(Expression(Text(old(View()))), o, Text(View())) && Reads(old(View()), View())
      decreases |Text(View())|, 1
    {
      o := ReadAtom();
      if !o.Done? {
        return;
      }
      ghost var was := View();
      o := ReadMore(o.value);
      ReadsTwice(old(View()), was, View());
    }

    /** The rest of expression(), after its first atom. */
    method ReadMore(value: nat) returns (o: Outcome)
      modifies this
      ensures Agrees(More(value, Text(old(View()))), o, Text(View())) && Reads(old(View()), View())
      decreases |Text(View())|, 2
    {
      var ready := SkipSpace();
      if !ready {
        return Waiting;
      }
      ghost var was := View();
      var c := PeekChar();
      ReadsTwice(old(View()), was, View());
      o := Done(value);
      if c.value == '+' {
        was := View();
        o := ReadSummand(value);
        ReadsTwice(old(View()), was, View());
        MoreIsSum(value, Text(old(View())));
      }
    }

    /** The symbol '+' and what is added. */
    method ReadSummand(value: nat) returns (o: Outcome)
      requires Text(View()) != [] && Text(View())[0] == '+'
      modifies this
      ensures Agrees(Adding(value, Expression(Text(old(View()))[1..])), o, Text(View())) && Reads(old(View()), View())
      decreases |Text(View())|, 0
    {
      var _ := Symbol('+');
      ghost var was := View();
      o := ReadExpression();
      ReadsTwice(old(View()), was, View());
      if o.Done? {
        o := Done((value + o.value) % WORD);
      }
    }

    /** process() outside feed.await(): the feed events in the mailbox have no handler and are dropped. */
    method Process(arrived: nat)
      modifies this
      ensures View() == Dropped(old(View()), arrived)
    {
      feeds := feeds[if arrived < |feeds| then arrived else |feeds|..];
    }

    /** The try block of the driver up to process(): an expression and a semicolon. */
    method ReadStatement() returns (o: Outcome)
      modifies this
      ensures Reads(old(View()), View())
      ensures o.Waiting? ==> Driven(Text(old(View()))) == (None, true, [])
      ensures o.Done? ==> Driven(Text(old(View()))) == (Some(o.value), false, Text(View()))
      ensures o.Done? ==> View() == Take(old(View()), |Text(old(View()))| - |Text(View())|)
      ensures o.Thrown? && Text(View()) == [] ==> Driven(Text(old(View()))) == (None, true, [])
      ensures o.Thrown? && Text(View()) != [] ==> Driven(Text(old(View()))) == (None, false, Text(View())[1..])
    {
      o := ReadExpression();
      if !o.Done? {
        return;
      }
      var value := o.value;
      ghost var was := View();
      o := ReadSemicolon();
      ReadsTwice(old(View()), was, View());
      if o.Done? {
        ReadsOn(old(View()), was, |Text(was)| - |Text(View())|);
        o := Done(value);
      }
    }

    method ReadSemicolon() returns (o: Outcome)
      modifies this
      ensures Reads(old(View()), View())
      ensures Agrees(Behind(Text(old(View()))), o, Text(View()))
      ensures o.Done? ==>
                |Text(View())| < |Text(old(View()))|
                && View() == Take(old(View()), |Text(old(View()))| - |Text(View())|)
    {
      var _ := SkipSpace();
      ghost var was := View();
      o := Symbol(';');
      ReadsTwice(old(View()), was, View());
      if o.Done? {
        ReadsOn(old(View()), was, 1);
      }
    }

    /**
     * One iteration of the driver: the value sent to the subscribers, if any.  arrived is how many
     * of the feed events not yet awaited are in the mailbox when process() runs.
     */
    method Iterate(arrived: nat) returns (sent: Option<nat>, waiting: bool)
      modifies this
      ensures var (v, w, t) := Iteration(old(View()), arrived);
              sent == v && waiting == w && (!w ==> View() == t)
    {
      sent, waiting := None, false;
      ghost var s := View();
      var o := ReadStatement();
      if o.Waiting? {
        waiting := true;
      } else if o.Done? {
        Process(arrived);
        sent := Some(o.value);
      } else {
        ghost var was := View();
        var c := GetChar();
        if c.None? {
          waiting := true;
        } else {
          ReadsOn(s, was, 1);
        }
      }
    }
  }

  // ------------------------------------------------------------------ what the parser reads

  /** rest is what remains of text after some characters were consumed from its front. */
  predicate Consumed(text: seq<char>, rest: seq<char>) {
    |rest| <= |text| && rest == text[|text| - |rest|..]
  }

  lemma ConsumedTwice(a: seq<char>, b: seq<char>, c: seq<char>)
    requires Consumed(a, b) && Consumed(b, c)
    ensures Consumed(a, c)
  {
  }

  lemma {:induction false} SkipConsumes(text: seq<char>)
    ensures Consumed(text, Skip(text))
  {
    if text != [] && IsSpace(text[0]) {
      SkipConsumes(text[1..]);
      ConsumedTwice(text, text[1..], Skip(text));
    }
  }

  lemma {:induction false} NumberConsumes(text: seq<char>, value: nat)
    ensures NumberFrom(text, value).Parsed? ==> Consumed(text, NumberFrom(text, value).rest)
    ensures !NumberFrom(text, value).Invalid?
    decreases |text|
  {
    if text != [] && IsDigit(text[0]) {
      var w := (value * 10 + Digit(text[0])) % WORD;
      NumberConsumes(text[1..], w);
      if NumberFrom(text, value).Parsed? {
        ConsumedTwice(text, text[1..], NumberFrom(text, value).rest);
      }
    }
  }

  lemma {:induction false} AtomConsumes(text: seq<char>)
    ensures !Atom(text).Starved? ==> Consumed(text, Atom(text).rest)
    decreases |text|, 0
  {
    var t := Skip(text);
    SkipConsumes(text);
    if t != [] && !Atom(text).Starved? {
      ConsumedTwice(text, t, t[1..]);
      if t[0] == '(' {
        var p := Expression(t[1..]);
        ExpressionConsumes(t[1..]);
        ConsumedTwice(text, t[1..], p.rest);
        if Atom(text).Parsed? {
          ConsumedTwice(text, p.rest, p.rest[1..]);
        }
      } else if IsDigit(t[0]) {
        NumberConsumes(t[1..], Digit(t[0]));
        ConsumedTwice(text, t[1..], Atom(text).rest);
      }
    }
  }

  lemma {:induction false} ExpressionConsumes(text: seq<char>)
    ensures !Expression(text).Starved? ==> Consumed(text, Expression(text).rest)
    decreases |text|, 1
  {
    var a := Atom(text);
    AtomConsumes(text);
    if a.Parsed? && !Expression(text).Starved? {
      var t := Skip(a.rest);
      SkipConsumes(a.rest);
      assert Expression(text) == More(a.value, a.rest) && t != [];
      ConsumedTwice(text, a.rest, t);
      if t[0] == '+' {
        ConsumedTwice(text, t, t[1..]);
        ExpressionConsumes(t[1..]);
        ConsumedTwice(text, t[1..], Expression(t[1..]).rest);
      }
    }
  }

  /** One iteration on the whole text: the value sent, whether it waits forever, and the text left. */
  function Driven(text: seq<char>): (r: (Option<nat>, bool, seq<char>))
    ensures !r.1 ==> |r.2| < |text|
  {
    ExpressionConsumes(text);
    match Expression(text)
    case Starved => (None, true, [])
    case Invalid(rest) => if rest == [] then (None, true, []) else (None, false, rest[1..])
    case Parsed(v, rest) =>
      match Behind(rest)
      case Starved => (None, true, [])
      case Parsed(_, left) => (Some(v), false, left)
      case Invalid(left) => (None, false, left[1..])
  }

  /** The stream without its first k feed events. */
  function Dropped(s: Stream, k: nat): Stream {
    Stream(s.input, s.feeds[if k < |s.feeds| then k else |s.feeds|..])
  }

  /** One iteration of the driver on a stream: the value sent, whether it waits forever, and the stream left. */
  function Iteration(s: Stream, arrived: nat): (Option<nat>, bool, Stream) {
    var (sent, waiting, rest) := Driven(Text(s));
    if waiting then (None, true, s)
    else
      var t := Take(s, |Text(s)| - |rest|);
      (sent, false, if sent.Some? then Dropped(t, arrived) else t)
  }

  /** What is left of the text after an iteration is a suffix of it. */
  lemma DrivenConsumes(text: seq<char>)
    requires !Driven(text).1
    ensures Consumed(text, Driven(text).2)
  {
    var p := Expression(text);
    ExpressionConsumes(text);
    if p.Invalid? {
      ConsumedTwice(text, p.rest, p.rest[1..]);
    } else {
      var t := Skip(p.rest);
      SkipConsumes(p.rest);
      ConsumedTwice(text, p.rest, t);
      ConsumedTwice(text, t, t[1..]);
    }
  }

  lemma {:induction false} FlattenSplit(feeds: seq<seq<char>>, k: nat)
    requires k <= |feeds|
    ensures Flatten(feeds) == Flatten(feeds[..k]) + Flatten(feeds[k..])
    decreases k
  {
    if k > 0 {
      FlattenSplit(feeds[1..], k - 1);
      assert feeds[..k][1..] == feeds[1..][..k - 1] && feeds[k..] == feeds[1..][k - 1..];
    }
  }

  /** The feed events that process() drops. */
  function Pending(s: Stream, k: nat): seq<seq<char>> {
    s.feeds[..if k < |s.feeds| then k else |s.feeds|]
  }

  lemma DroppedText(s: Stream, k: nat)
    ensures Text(s) == s.input + Flatten(Pending(s, k)) + Flatten(Dropped(s, k).feeds)
    ensures Text(Dropped(s, k)) == s.input + Flatten(Dropped(s, k).feeds)
  {
    FlattenSplit(s.feeds, if k < |s.feeds| then k else |s.feeds|);
  }

  /**
   * Every iteration of the driver that does not wait forever reads at least one character, from
   * the front; and only one that sends a value loses anything, namely whole feed events.
   */
  lemma DriverProgresses(s: Stream, arrived: nat)
    requires !Iteration(s, arrived).1
    ensures var (sent, _, t) := Iteration(s, arrived); var n := |Text(s)| - |Driven(Text(s)).2|;
            0 < n <= |Text(s)| && Text(Take(s, n)) == Driven(Text(s)).2 == Text(s)[n..]
            && t == (if sent.Some? then Dropped(Take(s, n), arrived) else Take(s, n))
            && |Text(t)| <= |Text(s)| - n
  {
    var n := |Text(s)| - |Driven(Text(s)).2|;
    DrivenConsumes(Text(s));
    TakeText(s, n);
    DroppedText(Take(s, n), arrived);
  }
}
