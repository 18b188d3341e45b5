/** Equalities between the test inputs as written and the same texts put
    together token by token. Kept apart so that they are checked without
    the lexer's definitions in scope.
    They state nothing about the toolchain: they only regroup string
    concatenations so that the solver sees each text as one value. */
module CompilerTestTexts {

  lemma PaddedText()
    ensures "  " + "circle" + ("  " + ":" + ("  " + "mov" + ("  " + "direction" + ("  " + "," + ("  " + "1" + []))))) + "  "
            == "  circle  :  mov  direction  ,  1  "
  {
  }

  lemma BasicText()
    ensures " " + "circle" + ([] + ":" + (" " + "mov" + (" " + "direction" + ([] + "," + (" " + "1" + []))))) + []
            == " " + "circle: mov direction, 1"
  {
  }

  lemma CircleLines()
    ensures "\n        " + "mov " + "direction" + ", " + "1" == "\n        mov direction, 1"
    ensures "\n        " + "mov " + "forward" + ", " + "4" == "\n        mov forward, 4"
    ensures "\n        " + "mov " + "direction" + ", " + "0" == "\n        mov direction, 0"
  {
  }

  lemma UnitLines()
    ensures "\n            " + "mov " + "direction" + ", " + "1" == "\n            mov direction, 1"
    ensures "\n            " + "mov " + "forward" + ", " + "4" == "\n            mov forward, 4"
    ensures "\n            " + "mov " + "direction" + ", " + "0" == "\n            mov direction, 0"
  {
  }

  lemma UnitHeaders()
    ensures "\n        " + "circle" + ":" == "\n        circle:"
    ensures "\n        " + "main" + ":" == "\n        main:"
  {
  }

  lemma OneSectionRegroup(h: string, a: string, b: string, c: string, t: string)
    ensures h + (a + (b + (c + []))) + t == h + a + b + c + t
  {
    assert c + [] == c;
  }

  lemma UnitCalls()
    ensures "\n            " + "jal " + "circle" == "\n            jal circle"
    ensures "\n            " + "mov " + "forward" + ", " + "10" == "\n            mov forward, 10"
  {
  }

  lemma InvalidComment()
    ensures " " + "1" + ("  " + "#" + (" " + "Missing" + (" " + "comma" + []))) == " 1  # Missing comma"
  {
  }

  lemma InvalidText()
    ensures "\n    " + "invalid" + ([] + ":" + ("\n        " + "mov" + (" " + "direction" + (" " + "1" + ("  " + "#" +
            (" " + "Missing" + (" " + "comma" + []))))))) + "\n    "
            == "\n    invalid:" + "\n        mov direction 1  # Missing comma" + "\n    "
  {
    InvalidComment();
    InvalidLine();
  }

  lemma InvalidLine()
    ensures "\n        " + "mov" + (" " + "direction" + " 1  # Missing comma") ==
            "\n        mov direction 1  # Missing comma"
  {
  }
}

/** The unit tests of the current lexer and the integration tests of the
    parser, stated as lemmas about the model. */
module CompilerExamples {
  import opened Text
  import opened Ir
  import opened CompilerLexer
  import opened CompilerParser
  import opened CompilerRoundTrip
  import opened CompilerTestTexts

  lemma WordsOfTheTests()
    ensures IsWord("circle") && IsWord("direction") && IsWord("forward") && IsWord("empty")
    ensures IsWord("invalid") && IsWord("#") && IsWord("Missing") && IsWord("comma")
  {
    GraphicWord("circle");
    GraphicWord("direction");
    GraphicWord("forward");
    GraphicWord("empty");
    GraphicWord("invalid");
    GraphicWord("#");
    GraphicWord("Missing");
    GraphicWord("comma");
  }

  lemma BlankTexts()
    ensures AllWhitespace(" ") && AllWhitespace("  ") && AllWhitespace("\n    ") && AllWhitespace("\n        ")
  {
  }

  const BasicTokens: seq<Token> :=
    [Identifier("circle"), Colon, Identifier("mov"), Identifier("direction"), Comma, Number(1)]

  /** The tokens of the lexer tests, each with the whitespace before it. */
  function TestPieces(w: string, tight: string): seq<Piece> {
    [Piece(w, Identifier("circle"))] + ([Piece(tight, Colon)] + ([Piece(w, Identifier("mov"))] +
    ([Piece(w, Identifier("direction"))] + ([Piece(tight, Comma)] + ([Piece(w, Number(1))] + [])))))
  }

  lemma TestPiecesSpelled(w: string, tight: string)
    ensures Spelled(TestPieces(w, tight)) ==
            w + "circle" + (tight + ":" + (w + "mov" + (w + "direction" + (tight + "," + (w + "1" + [])))))
  {
    var e: seq<Piece> := [];
    var p6 := [Piece(w, Number(1))] + e;
    var p5 := [Piece(tight, Comma)] + p6;
    var p4 := [Piece(w, Identifier("direction"))] + p5;
    var p3 := [Piece(w, Identifier("mov"))] + p4;
    var p2 := [Piece(tight, Colon)] + p3;
    assert IntToString(1) == "1";
    SpelledCons(Piece(w, Number(1)), e);
    SpelledCons(Piece(tight, Comma), p6);
    SpelledCons(Piece(w, Identifier("direction")), p5);
    SpelledCons(Piece(w, Identifier("mov")), p4);
    SpelledCons(Piece(tight, Colon), p3);
    SpelledCons(Piece(w, Identifier("circle")), p2);
  }

  lemma TestPiecesRead(w: string, tight: string)
    requires w != [] && AllWhitespace(w) && AllWhitespace(tight)
    ensures TokensOf(TestPieces(w, tight)) == BasicTokens
    ensures PiecesOk(TestPieces(w, tight))
  {
    var ps := TestPieces(w, tight);
    WordsOfTheTests();
    PrintedSyntaxFacts();
    assert ps == [Piece(w, Identifier("circle")), Piece(tight, Colon), Piece(w, Identifier("mov")),
                  Piece(w, Identifier("direction")), Piece(tight, Comma), Piece(w, Number(1))];
    TokensOfEach(ps);
  }

  /** Extra spaces around every token do not change what is lexed. */
  lemma LexerWhitespaceHandling()
    ensures Tokens("  circle  :  mov  direction  ,  1  ") == Stream(BasicTokens, Ok(()))
  {
    BlankTexts();
    TestPiecesSpelled("  ", "  ");
    TestPiecesRead("  ", "  ");
    PaddedText();
    TokensOfSpelled(TestPieces("  ", "  "), "  ");
  }

  /** The tokens of `circle: mov direction, 1`, then Eof: the same as with
      extra whitespace. */
  lemma LexerBasic()
    ensures Tokens("circle: mov direction, 1") == Stream(BasicTokens, Ok(()))
  {
    BlankTexts();
    TestPiecesSpelled(" ", []);
    TestPiecesRead(" ", []);
    BasicText();
    TokensOfSpelled(TestPieces(" ", []), []);
    TokensSkipWhitespace(" ", "circle: mov direction, 1");
  }

  // ---------------------------------------------------------------------
  // Parser integration tests
  // ---------------------------------------------------------------------

  /** The layout of the integration tests' inputs. */
  const TestLayout: Layout := Layout("\n    ", "\n        ", "\n    ")

  lemma TestLayoutBlank()
    ensures BlankLayout(TestLayout)
  {
    BlankTexts();
  }

  const EmptySection: Program := Program([Section("empty", [])])

  /** A header with no commands gives a section with an empty command list. */
  lemma ParseEmptySection()
    ensures ParseText("\n    empty:" + "\n    ") == Ok(EmptySection)
  {
    TestLayoutBlank();
    WordsOfTheTests();
    assert SectionsText(EmptySection.sections[1..], TestLayout) == [];
    assert ProgramText(EmptySection, TestLayout) == "\n    empty:" + "\n    ";
    ParsePrinted(EmptySection, TestLayout);
  }

  const Circle: Program :=
    Program([Section("circle", [Move("direction", 1), Move("forward", 4), Move("direction", 0)])])

  lemma CircleCommandsText()
    ensures CommandsText(Circle.sections[0].commands, TestLayout.indent) ==
            "\n        mov direction, 1" + ("\n        mov forward, 4" + ("\n        mov direction, 0" + []))
  {
    var cs := Circle.sections[0].commands;
    var indent := TestLayout.indent;
    assert IntToString(1) == "1" && IntToString(4) == "4" && IntToString(0) == "0";
    CircleLines();
    assert CommandsText(cs[2..], indent) == "\n        mov direction, 0" + CommandsText(cs[3..], indent);
    assert CommandsText(cs[1..], indent) == "\n        mov forward, 4" + CommandsText(cs[2..], indent);
  }

  lemma CircleText()
    ensures ProgramText(Circle, TestLayout) ==
            "\n    circle:" + "\n        mov direction, 1" + "\n        mov forward, 4" +
            "\n        mov direction, 0" + "\n    "
  {
    CircleCommandsText();
    assert SectionsText(Circle.sections[1..], TestLayout) == [];
  }

  /** The program of the first integration test, in source order. */
  lemma ParseSimpleProgram()
    ensures ParseText("\n    circle:" + "\n        mov direction, 1" + "\n        mov forward, 4" +
                      "\n        mov direction, 0" + "\n    ") == Ok(Circle)
  {
    TestLayoutBlank();
    WordsOfTheTests();
    assert Printable(Circle);
    CircleText();
    ParsePrinted(Circle, TestLayout);
  }

  /** Stopping at the first error: after `invalid:` and `mov direction`,
      a number where the comma belongs fails, whatever follows. */
  lemma MissingCommaTokens(ts: Stream)
    ensures SectionsAt(Prepend([Identifier("invalid"), Colon, Identifier("mov"), Identifier("direction"), Number(1)], ts))
            == Err("Expected ',' after direction")
  {
    var t := Prepend([Identifier("invalid"), Colon, Identifier("mov"), Identifier("direction"), Number(1)], ts);
    assert t.tokens[1..][1..] == [Identifier("mov"), Identifier("direction"), Number(1)] + ts.tokens;
    assert t.tokens[1..][1..][1..] == [Identifier("direction"), Number(1)] + ts.tokens;
    assert t.tokens[1..][1..][1..][1..] == [Number(1)] + ts.tokens;
  }

  /** The pieces of the invalid-syntax test; the comment after the missing
      comma is three identifiers. */
  const InvalidPieces: seq<Piece> :=
    [Piece("\n    ", Identifier("invalid"))] + ([Piece([], Colon)] +
    ([Piece("\n        ", Identifier("mov"))] + ([Piece(" ", Identifier("direction"))] +
    ([Piece(" ", Number(1))] + ([Piece("  ", Identifier("#"))] +
    ([Piece(" ", Identifier("Missing"))] + ([Piece(" ", Identifier("comma"))] + [])))))))

  lemma InvalidPiecesSpelled()
    ensures Spelled(InvalidPieces) + "\n    " == "\n    invalid:" + "\n        mov direction 1  # Missing comma" + "\n    "
  {
    var e: seq<Piece> := [];
    var p8 := [Piece(" ", Identifier("comma"))] + e;
    var p7 := [Piece(" ", Identifier("Missing"))] + p8;
    var p6 := [Piece("  ", Identifier("#"))] + p7;
    var p5 := [Piece(" ", Number(1))] + p6;
    var p4 := [Piece(" ", Identifier("direction"))] + p5;
    var p3 := [Piece("\n        ", Identifier("mov"))] + p4;
    var p2 := [Piece([], Colon)] + p3;
    assert IntToString(1) == "1";
    SpelledCons(Piece(" ", Identifier("comma")), e);
    SpelledCons(Piece(" ", Identifier("Missing")), p8);
    SpelledCons(Piece("  ", Identifier("#")), p7);
    SpelledCons(Piece(" ", Number(1)), p6);
    SpelledCons(Piece(" ", Identifier("direction")), p5);
    SpelledCons(Piece("\n        ", Identifier("mov")), p4);
    SpelledCons(Piece([], Colon), p3);
    SpelledCons(Piece("\n    ", Identifier("invalid")), p2);
    InvalidText();
  }

  /** The pieces as listed, one element per token. */
  lemma InvalidPiecesListed()
    ensures InvalidPieces ==
            [Piece("\n    ", Identifier("invalid")), Piece([], Colon), Piece("\n        ", Identifier("mov")),
             Piece(" ", Identifier("direction")), Piece(" ", Number(1)), Piece("  ", Identifier("#")),
             Piece(" ", Identifier("Missing")), Piece(" ", Identifier("comma"))]
  {
  }

  lemma InvalidPiecesRead()
    ensures TokensOf(InvalidPieces) ==
            [Identifier("invalid"), Colon, Identifier("mov"), Identifier("direction"), Number(1)] +
            [Identifier("#"), Identifier("Missing"), Identifier("comma")]
  {
    var ts := TokensOf(InvalidPieces);
    InvalidPiecesListed();
    TokensOfEach(InvalidPieces);
    assert ts == [Identifier("invalid"), Colon, Identifier("mov"), Identifier("direction"), Number(1),
                  Identifier("#"), Identifier("Missing"), Identifier("comma")];
    InvalidTokensSplit();
  }

  lemma InvalidTokensSplit()
    ensures [Identifier("invalid"), Colon, Identifier("mov"), Identifier("direction"), Number(1),
             Identifier("#"), Identifier("Missing"), Identifier("comma")] ==
            [Identifier("invalid"), Colon, Identifier("mov"), Identifier("direction"), Number(1)] +
            [Identifier("#"), Identifier("Missing"), Identifier("comma")]
  {
  }

  lemma InvalidPiecesOk()
    ensures PiecesOk(InvalidPieces)
  {
    InvalidPiecesListed();
    WordsOfTheTests();
    PrintedSyntaxFacts();
    BlankTexts();
  }

  /** The invalid-syntax integration test fails with the comma message. */
  lemma ParseMissingComma()
    ensures ParseText("\n    invalid:" + "\n        mov direction 1  # Missing comma" + "\n    ")
            == Err("Expected ',' after direction")
  {
    InvalidPiecesSpelled();
    InvalidPiecesRead();
    InvalidPiecesOk();
    BlankTexts();
    TokensOfSpelled(InvalidPieces, "\n    ");
    MissingCommaTokens(Stream([Identifier("#"), Identifier("Missing"), Identifier("comma")], Ok(())));
  }

  // ---------------------------------------------------------------------
  // The parser's unit tests and the lexer's test with two sections
  // ---------------------------------------------------------------------

  /** The layout of the unit tests' inputs: eight spaces before a header,
      twelve before a command. */
  const UnitLayout: Layout := Layout("\n        ", "\n            ", "\n        ")

  lemma UnitLayoutBlank()
    ensures BlankLayout(UnitLayout)
  {
  }

  /** A program of one section, as printed. */
  lemma OneSectionProgramText(x: Section, l: Layout)
    ensures ProgramText(Program([x]), l) == (l.lead + x.name + ":") + CommandsText(x.commands, l.indent) + l.trail
  {
    assert [x][1..] == [];
    assert SectionsText([x], l) == SectionText(x, l) + SectionsText([], l);
    assert SectionText(x, l) + [] == SectionText(x, l);
  }

  lemma TwoCommandsText(c1: Command, c2: Command, indent: string)
    ensures CommandsText([c1, c2], indent) == CommandText(c1, indent) + (CommandText(c2, indent) + [])
  {
    assert [c1, c2][1..] == [c2] && [c2][1..] == [];
    assert CommandsText([c2], indent) == CommandText(c2, indent) + CommandsText([], indent);
  }

  lemma ThreeCommandsText(c1: Command, c2: Command, c3: Command, indent: string)
    ensures CommandsText([c1, c2, c3], indent) ==
            CommandText(c1, indent) + (CommandText(c2, indent) + (CommandText(c3, indent) + []))
  {
    assert [c1, c2, c3][1..] == [c2, c3];
    TwoCommandsText(c2, c3, indent);
  }

  lemma UnitCircleText()
    ensures ProgramText(Circle, UnitLayout) ==
            "\n        circle:" + "\n            mov direction, 1" + "\n            mov forward, 4" +
            "\n            mov direction, 0" + "\n        "
  {
    var x := Circle.sections[0];
    var indent := UnitLayout.indent;
    OneSectionProgramText(x, UnitLayout);
    ThreeCommandsText(x.commands[0], x.commands[1], x.commands[2], indent);
    assert IntToString(1) == "1" && IntToString(4) == "4" && IntToString(0) == "0";
    UnitLines();
    UnitHeaders();
    OneSectionRegroup("\n        circle:", "\n            mov direction, 1", "\n            mov forward, 4",
                      "\n            mov direction, 0", "\n        ");
  }

  /** The parser's single-section test: `circle` with its three moves, in
      order. */
  lemma ParseUnitSingleSection()
    ensures ParseText("\n        circle:" + "\n            mov direction, 1" + "\n            mov forward, 4" +
                      "\n            mov direction, 0" + "\n        ") == Ok(Circle)
  {
    UnitLayoutBlank();
    WordsOfTheTests();
    assert Printable(Circle);
    UnitCircleText();
    ParsePrinted(Circle, UnitLayout);
  }

  const JumpProgram: Program := Program([Section("main", [Jump("circle"), Move("forward", 10)])])

  lemma JumpText()
    ensures ProgramText(JumpProgram, UnitLayout) ==
            "\n        main:" + "\n            jal circle" + "\n            mov forward, 10" + "\n        "
  {
    var x := JumpProgram.sections[0];
    var indent := UnitLayout.indent;
    OneSectionProgramText(x, UnitLayout);
    TwoCommandsText(x.commands[0], x.commands[1], indent);
    assert IntToString(10) == "10";
    UnitCalls();
    UnitHeaders();
    assert "\n            mov forward, 10" + [] == "\n            mov forward, 10";
  }

  /** The parser's jump test: `jal circle` is a Jump to `circle`, and the
      move after it stays in the same section. */
  lemma ParseJump()
    ensures ParseText("\n        main:" + "\n            jal circle" + "\n            mov forward, 10" + "\n        ")
            == Ok(JumpProgram)
  {
    UnitLayoutBlank();
    WordsOfTheTests();
    GraphicWord("main");
    assert Printable(JumpProgram);
    JumpText();
    ParsePrinted(JumpProgram, UnitLayout);
  }

  const TwoSections: Program :=
    Program([Section("circle", [Move("direction", 1)]), Section("main", [Jump("circle")])])

  lemma TwoSectionsText()
    ensures ProgramText(TwoSections, UnitLayout) ==
            "\n        circle:" + "\n            mov direction, 1" + "\n        main:" + "\n            jal circle" +
            "\n        "
  {
    var ss := TwoSections.sections;
    var indent := UnitLayout.indent;
    assert ss[1..][1..] == [];
    assert [ss[0].commands[0]][1..] == [] && [ss[1].commands[0]][1..] == [];
    assert IntToString(1) == "1";
    UnitLines();
    UnitCalls();
    UnitHeaders();
    assert CommandsText(ss[0].commands, indent) == "\n            mov direction, 1" + [];
    assert CommandsText(ss[1].commands, indent) == "\n            jal circle" + [];
  }

  lemma TwoSectionsTokens()
    ensures SectionsTokens(TwoSections.sections) ==
            [Identifier("circle"), Colon, Identifier("mov"), Identifier("direction"), Comma, Number(1),
             Identifier("main"), Colon, Identifier("jal"), Identifier("circle")]
  {
    var ss := TwoSections.sections;
    assert ss[1..][1..] == [];
  }

  /** The lexer's test with two sections: the tokens of both headers and of
      both commands, in order, then Eof. */
  lemma LexerMultipleSections()
    ensures Tokens("\n        circle:" + "\n            mov direction, 1" + "\n        main:" + "\n            jal circle" +
                   "\n        ") ==
            Stream([Identifier("circle"), Colon, Identifier("mov"), Identifier("direction"), Comma, Number(1),
                    Identifier("main"), Colon, Identifier("jal"), Identifier("circle")], Ok(()))
  {
    UnitLayoutBlank();
    WordsOfTheTests();
    GraphicWord("main");
    assert Printable(TwoSections);
    TwoSectionsText();
    TokensOfPrinted(TwoSections, UnitLayout);
    TwoSectionsTokens();
  }
}
