/** Properties of the older parser over all inputs: what a successful parse
    can produce, where a section body stops, which messages a failed parse
    can carry, and when the program is empty. */
module LegacyParserFacts {
  import opened Text
  import opened LegacyIr
  import opened LegacyLexer
  import opened LegacyParser
  import opened LegacyRoundTrip

  /** A token the lexer can produce before Eof. */
  predicate GoodToken(t: Token) {
    match t
    case SectionKeyword => true
    case Identifier(x) => IsIdentifier(x)
    case Number(n) => n >= 0
    case Colon => true
    case Comma => true
    case Eof => false
  }

  predicate GoodTokens(ts: Stream) {
    forall i | 0 <= i < |ts.tokens| :: GoodToken(ts.tokens[i])
  }

  /** The two ways the lexer panics: an i32 overflow in a numeral, or a
      character it has no rule for. */
  predicate LexerPanic(e: string) {
    e == OverflowPanic || exists c :: e == Unexpected(c)
  }

  /** Every token the lexer produces is the keyword, a word other than the
      keyword, a non-negative number or punctuation, and lexing fails only
      with one of its two panics. */
  lemma {:induction false} TokensAreGood(s: seq<char>)
    ensures GoodTokens(Tokens(s))
    ensures Tokens(s).end.Err? ==> LexerPanic(Tokens(s).end.error)
    decreases |s|
  {
    LexErrors(s);
    if Lex(s).Ok? && Lex(s).value.token != Eof {
      var l := Lex(s).value;
      LexedShape(s);
      TokensAreGood(l.rest);
      assert Tokens(s).tokens == [l.token] + Tokens(l.rest).tokens;
    }
  }

  lemma AdvancedGood(ts: Stream)
    requires GoodTokens(ts)
    ensures Advanced(ts).Ok? ==> GoodTokens(Advanced(ts).value)
    ensures Cur(ts) == Eof || GoodToken(Cur(ts))
  {
  }

  /** A parsed command is printable (a word other than `section` for its
      direction, a non-negative amount), and the stream after it holds only
      good tokens. */
  lemma CommandGood(ts: Stream)
    requires GoodTokens(ts)
    ensures CommandAt(ts).Ok? ==>
      PrintableCommand(CommandAt(ts).value.value) && GoodTokens(CommandAt(ts).value.next)
  {
    AdvancedGood(ts);
    if Advanced(ts).Ok? {
      var s1 := Advanced(ts).value;
      AdvancedGood(s1);
      if Advanced(s1).Ok? {
        var s2 := Advanced(s1).value;
        AdvancedGood(s2);
        if Advanced(s2).Ok? {
          var s3 := Advanced(s2).value;
          AdvancedGood(s3);
        }
      }
    }
  }

  lemma {:induction false} BodyGood(ts: Stream)
    requires GoodTokens(ts)
    ensures BodyAt(ts).Ok? ==> GoodTokens(BodyAt(ts).value.next)
    ensures BodyAt(ts).Ok? ==>
      forall i | 0 <= i < |BodyAt(ts).value.value| :: PrintableCommand(BodyAt(ts).value.value[i])
    decreases Size(ts)
  {
    if !EndsBody(ts) && BodyAt(ts).Ok? {
      var c := CommandAt(ts).value;
      CommandGood(ts);
      BodyGood(c.next);
    }
  }

  lemma SectionGood(ts: Stream)
    requires GoodTokens(ts)
    ensures SectionAt(ts).Ok? ==>
      PrintableSection(SectionAt(ts).value.value) && GoodTokens(SectionAt(ts).value.next)
  {
    AdvancedGood(ts);
    if SectionAt(ts).Ok? {
      var s1 := Advanced(ts).value;
      AdvancedGood(s1);
      var s2 := Advanced(s1).value;
      AdvancedGood(s2);
      BodyGood(Advanced(s2).value);
    }
  }

  lemma {:induction false} SectionsGood(ts: Stream)
    requires GoodTokens(ts)
    ensures SectionsAt(ts).Ok? ==>
      forall i | 0 <= i < |SectionsAt(ts).value| :: PrintableSection(SectionsAt(ts).value[i])
    decreases Size(ts)
  {
    if Cur(ts) != Eof && SectionsAt(ts).Ok? {
      var s := SectionAt(ts).value;
      SectionGood(ts);
      SectionsGood(s.next);
    }
  }

  /** Whatever text parses, the program it yields has words other than
      `section` for its names and directions and non-negative amounts. */
  lemma ParsedIsPrintable(s: seq<char>)
    requires ParseText(s).Ok?
    ensures Printable(ParseText(s).value)
  {
    TokensAreGood(s);
    SectionsGood(Tokens(s));
  }

  /** Printing a parsed program in any margins and parsing the text again
      gives the same program. */
  lemma ReprintParses(s: seq<char>, ms: seq<Margin>, trail: string)
    requires ParseText(s).Ok? && |ms| == |ParseText(s).value.sections|
    requires BlankMargins(ms) && AllWhitespace(trail)
    ensures ParseText(ProgramText(ParseText(s).value, ms, trail)) == ParseText(s)
  {
    ParsedIsPrintable(s);
    ParsePrinted(ParseText(s).value, ms, trail);
  }

  /** The command loop of a section stops only at Eof or at the next
      `section` keyword. */
  lemma {:induction false} BodyStopsAtSectionEnd(ts: Stream)
    requires BodyAt(ts).Ok?
    ensures EndsBody(BodyAt(ts).value.next)
    decreases Size(ts)
  {
    if !EndsBody(ts) {
      BodyStopsAtSectionEnd(CommandAt(ts).value.next);
    }
  }

  /** The messages the parser stops with. */
  const ParserMessages: set<string> := {
    "Expected 'section' keyword", "Expected section name", "Expected ':' after section name",
    "Expected 'mov' command", "Expected direction", "Expected ',' after direction",
    "Expected number"
  }

  /** A failed step either reports one of the parser's own messages or
      passes on the lexer's panic recorded at the end of the stream. */
  predicate KnownError(e: string, ts: Stream) {
    e in ParserMessages || (ts.end.Err? && e == ts.end.error)
  }

  lemma CommandErrorKnown(ts: Stream)
    ensures CommandAt(ts).Err? ==> KnownError(CommandAt(ts).error, ts)
  {
    if Advanced(ts).Ok? {
      var s1 := Advanced(ts).value;
      if Advanced(s1).Ok? {
        var s2 := Advanced(s1).value;
        if Advanced(s2).Ok? {
          var s3 := Advanced(s2).value;
          assert s3.end == ts.end;
        }
      }
    }
  }

  lemma {:induction false} BodyErrorKnown(ts: Stream)
    ensures BodyAt(ts).Err? ==> KnownError(BodyAt(ts).error, ts)
    decreases Size(ts)
  {
    if !EndsBody(ts) {
      CommandErrorKnown(ts);
      if CommandAt(ts).Ok? {
        BodyErrorKnown(CommandAt(ts).value.next);
      }
    }
  }

  lemma SectionErrorKnown(ts: Stream)
    ensures SectionAt(ts).Err? ==> KnownError(SectionAt(ts).error, ts)
  {
    if Advanced(ts).Ok? {
      var s1 := Advanced(ts).value;
      if Advanced(s1).Ok? {
        var s2 := Advanced(s1).value;
        if Advanced(s2).Ok? {
          BodyErrorKnown(Advanced(s2).value);
        }
      }
    }
  }

  lemma {:induction false} SectionsErrorKnown(ts: Stream)
    ensures SectionsAt(ts).Err? ==> KnownError(SectionsAt(ts).error, ts)
    decreases Size(ts)
  {
    if Cur(ts) != Eof {
      SectionErrorKnown(ts);
      if SectionAt(ts).Ok? {
        SectionsErrorKnown(SectionAt(ts).value.next);
      }
    }
  }

  /** A parse fails with one of the parser's messages or with one of the
      lexer's two panics. */
  lemma ParseErrorKnown(s: seq<char>)
    requires ParseText(s).Err?
    ensures ParseText(s).error in ParserMessages || LexerPanic(ParseText(s).error)
  {
    TokensAreGood(s);
    SectionsErrorKnown(Tokens(s));
  }

  /** The lexer yields no token at all exactly for blank text. */
  lemma TokensEmptyIffBlank(s: seq<char>)
    ensures Tokens(s) == Stream([], Ok(())) <==> AllWhitespace(s)
  {
    EofIffBlank(s);
    if AllWhitespace(s) {
      TokensOfBlank(s);
    }
  }

  /** Parsing yields the program with no sections exactly for blank text. */
  lemma EmptyProgramIffBlank(s: seq<char>)
    ensures ParseText(s) == Ok(Program([])) <==> AllWhitespace(s)
  {
    TokensEmptyIffBlank(s);
  }
}
