/** The recursive-descent parser of the current toolchain: `name:` headers
    followed by `mov <dir>, <n>` and `jal <label>` commands, built into the
    Ir program. Every panic of the parser (and of the lexer it drives) is an
    Err carrying the panic's message.

    The specification functions read the token stream the lexer produces
    (CompilerLexer.Tokens) from the current token on. Because the stream
    records where lexing would panic, an error of the lexer surfaces exactly
    when the parser asks for that token, as with the lazy lexer of the
    source. */
module CompilerParser {
  import opened Text
  import opened Ir
  import opened CompilerLexer

  /** A parsed value and the stream left after it. */
  datatype Parsed<T> = Parsed(value: T, next: Stream)

  /** Tokens left: the measure that every consumed token decreases. */
  function Size(ts: Stream): nat { |ts.tokens| }

  /** The current token: the head of the stream, Eof once it is used up. */
  function Cur(ts: Stream): Token {
    if ts.tokens == [] then Eof else ts.tokens[0]
  }

  /** Parser::new: the stream of the whole input, provided its first token
      can be lexed. */
  function Start(input: seq<char>): Result<Stream> {
    var ts := Tokens(input);
    if ts.tokens == [] && ts.end.Err? then Err(ts.end.error) else Ok(ts)
  }

  /** advance: the next token becomes the current one; lexing it may panic.
      At Eof the lexer keeps answering Eof. */
  function Advanced(ts: Stream): (r: Result<Stream>)
    ensures r.Ok? ==> r.value.end == ts.end && Size(r.value) <= Size(ts)
    ensures r.Ok? && ts.tokens != [] ==> Size(r.value) < Size(ts)
  {
    if ts.tokens == [] then Ok(ts)
    else if |ts.tokens| == 1 && ts.end.Err? then Err(ts.end.error)
    else Ok(Stream(ts.tokens[1..], ts.end))
  }

  /** peek_next_token: the token after the current one. */
  function Peeked(ts: Stream): Result<Token> {
    var next :- Advanced(ts);
    Ok(Cur(next))
  }

  /** parse_command. */
  function CommandAt(ts: Stream): (r: Result<Parsed<Command>>)
    ensures r.Ok? ==> r.value.next.end == ts.end && Size(r.value.next) < Size(ts)
  {
    if Cur(ts) == Identifier("jal") then
      var s1 :- Advanced(ts);
      if !Cur(s1).Identifier? then Err("Expected label after jal")
      else
        var s2 :- Advanced(s1);
        Ok(Parsed(Jump(Cur(s1).name), s2))
    else if Cur(ts) != Identifier("mov") then
      Err("Expected 'mov' command or 'jal'")
    else
      var s1 :- Advanced(ts);
      if !Cur(s1).Identifier? then Err("Expected direction")
      else
        var s2 :- Advanced(s1);
        if Cur(s2) != Comma then Err("Expected ',' after direction")
        else
          var s3 :- Advanced(s2);
          if !Cur(s3).Number? then Err("Expected number")
          else
            var s4 :- Advanced(s3);
            Ok(Parsed(Move(Cur(s1).name, Cur(s3).n), s4))
  }

  /** Where a section body stops: at Eof, or at an Identifier whose next
      token is a Colon (the header of the next section). */
  predicate EndsBody(ts: Stream) {
    Cur(ts) == Eof || (Cur(ts).Identifier? && Peeked(ts) == Ok(Colon))
  }

  /** The command loop of parse_section. */
  function BodyAt(ts: Stream): (r: Result<Parsed<seq<Command>>>)
    ensures r.Ok? ==> r.value.next.end == ts.end && Size(r.value.next) <= Size(ts)
    decreases Size(ts)
  {
    if Cur(ts) == Eof then Ok(Parsed([], ts))
    else
      var p :- if Cur(ts).Identifier? then Peeked(ts) else Ok(Eof);
      if Cur(ts).Identifier? && p == Colon then Ok(Parsed([], ts))
      else
        var c :- CommandAt(ts);
        var b :- BodyAt(c.next);
        Ok(Parsed([c.value] + b.value, b.next))
  }

  /** parse_section: the header, then the body. */
  function SectionAt(ts: Stream): (r: Result<Parsed<Section>>)
    ensures r.Ok? ==> r.value.next.end == ts.end && Size(r.value.next) < Size(ts)
  {
    if !Cur(ts).Identifier? then Err("Expected section name")
    else
      var s1 :- Advanced(ts);
      if Cur(s1) != Colon then Err("Expected ':' after section name")
      else
        var s2 :- Advanced(s1);
        var b :- BodyAt(s2);
        Ok(Parsed(Section(Cur(ts).name, b.value), b.next))
  }

  /** The section loop of parse. */
  function SectionsAt(ts: Stream): Result<seq<Section>>
    decreases Size(ts)
  {
    if Cur(ts) == Eof then Ok([])
    else
      var s :- SectionAt(ts);
      var rest :- SectionsAt(s.next);
      Ok([s.value] + rest)
  }

  /** Parser::new(input).parse(). */
  function ParseText(input: seq<char>): Result<Program> {
    var ts :- Start(input);
    var sections :- SectionsAt(ts);
    Ok(Program(sections))
  }

  /** The tokens of a command as the source writes it: `mov kind, amount`
      or `jal target`. */
  function CommandTokens(c: Command): seq<Token> {
    match c
    case Move(kind, amount) => [Identifier("mov"), Identifier(kind), Comma, Number(amount)]
    case Jump(target) => [Identifier("jal"), Identifier(target)]
  }

  function CommandsTokens(cs: seq<Command>): seq<Token>
    decreases |cs|
  {
    if cs == [] then [] else CommandTokens(cs[0]) + CommandsTokens(cs[1..])
  }

  /** `name :` followed by the commands. */
  function SectionTokens(s: Section): seq<Token> {
    [Identifier(s.name), Colon] + CommandsTokens(s.commands)
  }

  function SectionsTokens(ss: seq<Section>): seq<Token>
    decreases |ss|
  {
    if ss == [] then [] else SectionTokens(ss[0]) + SectionsTokens(ss[1..])
  }

  /** The current token of `ts` was lexed without a panic. */
  predicate Lexable(ts: Stream) {
    ts.tokens != [] || ts.end.Ok?
  }

  /** Stepping over one token of a stream whose next token can be lexed. */
  lemma StepOver(x: Token, ts: Stream)
    requires Lexable(ts)
    ensures Cur(Prepend([x], ts)) == x && Lexable(Prepend([x], ts))
    ensures Advanced(Prepend([x], ts)) == Ok(ts)
  {
    assert Prepend([x], ts).tokens[1..] == ts.tokens;
  }

  lemma PrependConcat(xs: seq<Token>, ys: seq<Token>, ts: Stream)
    ensures Prepend(xs + ys, ts) == Prepend(xs, Prepend(ys, ts))
  {
    assert (xs + ys) + ts.tokens == xs + (ys + ts.tokens);
  }

  /** A command's tokens parse back to that command, whatever follows. */
  lemma CommandRoundTrip(c: Command, ts: Stream)
    requires Lexable(ts)
    ensures CommandAt(Prepend(CommandTokens(c), ts)) == Ok(Parsed(c, ts))
  {
    var t := Prepend(CommandTokens(c), ts);
    match c
    case Jump(target) =>
      assert t.tokens[1..] == [Identifier(target)] + ts.tokens;
      assert t.tokens[1..][1..] == ts.tokens;
    case Move(kind, amount) =>
      assert t.tokens[1..] == [Identifier(kind), Comma, Number(amount)] + ts.tokens;
      assert t.tokens[1..][1..] == [Comma, Number(amount)] + ts.tokens;
      assert t.tokens[1..][1..][1..] == [Number(amount)] + ts.tokens;
      assert t.tokens[1..][1..][1..][1..] == ts.tokens;
  }

  /** A command at the head of a section body is parsed, and the loop goes on. */
  lemma BodyCommand(c: Command, more: Stream)
    requires Lexable(more)
    ensures BodyAt(Prepend(CommandTokens(c), more)) == Prefixed([c], BodyAt(more))
  {
    var t := Prepend(CommandTokens(c), more);
    var x := CommandTokens(c)[0];
    var y := CommandTokens(c)[1];
    var rest := Prepend(CommandTokens(c)[2..], more);
    assert t == Prepend([x], Prepend([y], rest)) by {
      assert CommandTokens(c) == [x] + ([y] + CommandTokens(c)[2..]);
      PrependConcat([x], [y] + CommandTokens(c)[2..], more);
      PrependConcat([y], CommandTokens(c)[2..], more);
    }
    assert Lexable(rest);
    StepOver(y, rest);
    StepOver(x, Prepend([y], rest));
    CommandRoundTrip(c, more);
  }

  /** Commands followed by the end of their section parse back to exactly
      those commands: the loop neither stops early nor runs on. */
  lemma {:induction false} BodyRoundTrip(cs: seq<Command>, ts: Stream)
    requires Lexable(ts) && EndsBody(ts)
    ensures BodyAt(Prepend(CommandsTokens(cs), ts)) == Ok(Parsed(cs, ts))
  {
    if cs == [] {
      assert Prepend(CommandsTokens(cs), ts) == ts;
    } else {
      var more := Prepend(CommandsTokens(cs[1..]), ts);
      PrependConcat(CommandTokens(cs[0]), CommandsTokens(cs[1..]), ts);
      assert Lexable(more);
      BodyCommand(cs[0], more);
      BodyRoundTrip(cs[1..], ts);
      assert [cs[0]] + cs[1..] == cs;
    }
  }

  /** A section written out as tokens, followed by the end of input or by
      another section, parses back to that section. */
  lemma SectionRoundTrip(s: Section, ts: Stream)
    requires Lexable(ts) && EndsBody(ts)
    ensures SectionAt(Prepend(SectionTokens(s), ts)) == Ok(Parsed(s, ts))
  {
    var body := Prepend(CommandsTokens(s.commands), ts);
    assert Lexable(body);
    StepOver(Colon, body);
    StepOver(Identifier(s.name), Prepend([Colon], body));
    assert Prepend(SectionTokens(s), ts) == Prepend([Identifier(s.name)], Prepend([Colon], body)) by {
      PrependConcat([Identifier(s.name), Colon], CommandsTokens(s.commands), ts);
      PrependConcat([Identifier(s.name)], [Colon], body);
    }
    BodyRoundTrip(s.commands, ts);
  }

  /** Sections written out as tokens parse back to the same sections, in the
      same order, duplicates included. */
  lemma {:induction false} SectionsRoundTrip(ss: seq<Section>)
    ensures SectionsAt(Stream(SectionsTokens(ss), Ok(()))) == Ok(ss)
  {
    if ss != [] {
      var more := Stream(SectionsTokens(ss[1..]), Ok(()));
      assert Stream(SectionsTokens(ss), Ok(())) == Prepend(SectionTokens(ss[0]), more);
      assert EndsBody(more) by {
        if ss[1..] != [] {
          var after := Prepend(CommandsTokens(ss[1].commands), Stream(SectionsTokens(ss[2..]), Ok(())));
          assert more == Prepend([Identifier(ss[1].name)], Prepend([Colon], after)) by {
            assert ss[1..][1..] == ss[2..];
            assert more.tokens == [Identifier(ss[1].name)] + ([Colon] + after.tokens);
          }
          StepOver(Colon, after);
          StepOver(Identifier(ss[1].name), Prepend([Colon], after));
        }
      }
      SectionRoundTrip(ss[0], more);
      SectionsRoundTrip(ss[1..]);
      assert [ss[0]] + ss[1..] == ss;
    }
  }

  /** A finished step of the parser: what it produced and the stream it
      left, or the message it stopped with. */
  function Stepped<T>(r: Result<T>, ts: Stream): Result<Parsed<T>> {
    match r
    case Ok(v) => Ok(Parsed(v, ts))
    case Err(e) => Err(e)
  }

  /** `xs` in front of what the rest of a loop produces. */
  function Prefixed<T>(xs: seq<T>, r: Result<Parsed<seq<T>>>): Result<Parsed<seq<T>>> {
    match r
    case Ok(p) => Ok(Parsed(xs + p.value, p.next))
    case Err(e) => Err(e)
  }

  function PrefixedSections(xs: seq<Section>, r: Result<seq<Section>>): Result<seq<Section>> {
    match r
    case Ok(ys) => Ok(xs + ys)
    case Err(e) => Err(e)
  }

  lemma PrefixedNone<T>(r: Result<Parsed<seq<T>>>)
    ensures Prefixed([], r) == r
  {
    if r.Ok? {
      assert [] + r.value.value == r.value.value;
    }
  }

  lemma PrefixedTwice<T>(xs: seq<T>, ys: seq<T>, r: Result<Parsed<seq<T>>>)
    ensures Prefixed(xs, Prefixed(ys, r)) == Prefixed(xs + ys, r)
  {
    if r.Ok? {
      assert xs + (ys + r.value.value) == (xs + ys) + r.value.value;
    }
  }

  lemma PrefixedSectionsNone(r: Result<seq<Section>>)
    ensures PrefixedSections([], r) == r
  {
    if r.Ok? {
      assert [] + r.value == r.value;
    }
  }

  lemma PrefixedSectionsTwice(xs: seq<Section>, ys: seq<Section>, r: Result<seq<Section>>)
    ensures PrefixedSections(xs, PrefixedSections(ys, r)) == PrefixedSections(xs + ys, r)
  {
    if r.Ok? {
      assert xs + (ys + r.value) == (xs + ys) + r.value;
    }
  }

  /** The parser object: the lexer it drives and the current token. */
  class Parser {
    const lexer: Lexer
    var current: Token

    /** Once the current token is Eof, the lexer has nothing left but
        whitespace. */
    ghost predicate Valid()
      reads this, lexer
    {
      lexer.Valid() && (current == Eof ==> Tokens(lexer.Remaining()) == Stream([], Ok(())))
    }

    /** The token stream from the current token on. */
    ghost function State(): Stream
      reads this, lexer
      requires Valid()
    {
      var more := Tokens(lexer.Remaining());
      if current == Eof then more else Stream([current] + more.tokens, more.end)
    }

    constructor Init(lx: Lexer, token: Token)
      requires lx.Valid()
      requires token == Eof ==> Tokens(lx.Remaining()) == Stream([], Ok(()))
      ensures Valid() && lexer == lx && current == token
    {
      lexer := lx;
      current := token;
    }

    /** Parser::new: lexes the first token of the input. */
    static method New(input: string) returns (r: Result<Parser>)
      ensures r.Ok? ==> fresh(r.value) && fresh(r.value.lexer) && r.value.Valid()
      ensures r.Ok? ==> Start(input) == Ok(r.value.State())
      ensures r.Err? ==> Start(input) == Err(r.error)
    {
      var lx := new Lexer(input);
      var t := lx.NextToken();
      if t.Err? {
        return Err(t.error);
      }
      if t.value == Eof {
        assert Tokens(lx.Remaining()) == Stream([], Ok(()));
      }
      var p := new Parser.Init(lx, t.value);
      return Ok(p);
    }

    method Advance() returns (r: Result<()>)
      requires Valid()
      modifies this, lexer
      ensures Valid()
      ensures r.Ok? ==> Advanced(old(State())) == Ok(State())
      ensures r.Err? ==> Advanced(old(State())) == Err(r.error)
    {
      var t := lexer.NextToken();
      if t.Err? {
        return Err(t.error);
      }
      current := t.value;
      if current == Eof {
        assert Tokens(lexer.Remaining()) == Stream([], Ok(()));
      }
      return Ok(());
    }

    method PeekNextToken() returns (r: Result<Token>)
      requires Valid()
      ensures r == Peeked(State())
    {
      r := lexer.PeekNextToken();
    }

    method ParseCommand() returns (r: Result<Command>)
      requires Valid()
      modifies this, lexer
      ensures Valid() && CommandAt(old(State())) == Stepped(r, State())
    {
      if current == Identifier("jal") {
        var a := Advance();
        if a.Err? {
          return Err(a.error);
        }
        if !current.Identifier? {
          return Err("Expected label after jal");
        }
        var target := current.name;
        a := Advance();
        if a.Err? {
          return Err(a.error);
        }
        return Ok(Jump(target));
      }
      if current != Identifier("mov") {
        return Err("Expected 'mov' command or 'jal'");
      }
      var a := Advance();
      if a.Err? {
        return Err(a.error);
      }
      if !current.Identifier? {
        return Err("Expected direction");
      }
      var direction := current.name;
      a := Advance();
      if a.Err? {
        return Err(a.error);
      }
      if current != Comma {
        return Err("Expected ',' after direction");
      }
      a := Advance();
      if a.Err? {
        return Err(a.error);
      }
      if !current.Number? {
        return Err("Expected number");
      }
      var amount := current.n;
      a := Advance();
      if a.Err? {
        return Err(a.error);
      }
      return Ok(Move(direction, amount));
    }

    method ParseSection() returns (r: Result<Section>)
      requires Valid()
      modifies this, lexer
      ensures Valid() && SectionAt(old(State())) == Stepped(r, State())
    {
      if !current.Identifier? {
        return Err("Expected section name");
      }
      var name := current.name;
      var a := Advance();
      if a.Err? {
        return Err(a.error);
      }
      if current != Colon {
        return Err("Expected ':' after section name");
      }
      a := Advance();
      if a.Err? {
        return Err(a.error);
      }
      var commands := ParseBody();
      if commands.Err? {
        return Err(commands.error);
      }
      return Ok(Section(name, commands.value));
    }

    /** The command loop of parse_section: commands until Eof or the next
        section header. */
    method ParseBody() returns (r: Result<seq<Command>>)
      requires Valid()
      modifies this, lexer
      ensures Valid() && BodyAt(old(State())) == Stepped(r, State())
    {
      var commands: seq<Command> := [];
      PrefixedNone(BodyAt(State()));
      while current != Eof
        invariant Valid()
        invariant BodyAt(old(State())) == Prefixed(commands, BodyAt(State()))
        decreases Size(State())
      {
        if current.Identifier? {
          var p := PeekNextToken();
          if p.Err? {
            return Err(p.error);
          }
          if p.value == Colon {
            assert BodyAt(State()) == Ok(Parsed([], State()));
            break;
          }
        }
        var c := ParseCommand();
        if c.Err? {
          return Err(c.error);
        }
        PrefixedTwice(commands, [c.value], BodyAt(State()));
        commands := commands + [c.value];
      }
      if current == Eof {
        assert Cur(State()) == Eof;
      }
      assert commands + [] == commands;
      return Ok(commands);
    }

    /** parse: sections until Eof. */
    method Parse() returns (r: Result<Program>)
      requires Valid()
      modifies this, lexer
      ensures Valid()
      ensures r.Ok? ==> SectionsAt(old(State())) == Ok(r.value.sections)
      ensures r.Err? ==> SectionsAt(old(State())) == Err(r.error)
    {
      var sections: seq<Section> := [];
      PrefixedSectionsNone(SectionsAt(State()));
      while current != Eof
        invariant Valid()
        invariant SectionsAt(old(State())) == PrefixedSections(sections, SectionsAt(State()))
        decreases Size(State())
      {
        var s := ParseSection();
        if s.Err? {
          return Err(s.error);
        }
        PrefixedSectionsTwice(sections, [s.value], SectionsAt(State()));
        sections := sections + [s.value];
      }
      assert Cur(State()) == Eof;
      assert sections + [] == sections;
      return Ok(Program(sections));
    }
  }
}
