/** Equalities between the older parser's test inputs as written and the
    same texts put together line by line or token by token. Kept apart so
    that they are checked without the lexer's definitions in scope.
    They state nothing about the toolchain: they only regroup string
    concatenations so that the solver sees each text as one value. */
module LegacyTestTexts {

  lemma SingleLines()
    ensures "\n        " + "section " + "start" + ":" + "" == "\n        section start:"
    ensures "\n            " + "mov " + "forward" + ", " + "10" + "" == "\n            mov forward, 10"
    ensures "\n            " + "mov " + "backward" + ", " + "4" + "" == "\n            mov backward, 4"
  {
  }

  lemma SingleRegroup(h: string, c1: string, c2: string, t: string)
    ensures h + (c1 + (c2 + [])) + [] + t == h + c1 + c2 + t
  {
  }

  lemma TwoHeaders()
    ensures "\n        " + "section " + "first" + ":" + "" == "\n        section first:"
    ensures "\n        " + "section " + "second" + ":" + "" == "\n        section second:"
  {
  }

  lemma TwoCommands()
    ensures "\n            " + "mov " + "forward" + ", " + "5" + "" == "\n            mov forward, 5"
    ensures "\n            " + "mov " + "backward" + ", " + "3" + "" == "\n            mov backward, 3"
    ensures "\n            " + "mov " + "forward" + ", " + "2" + "" == "\n            mov forward, 2"
  {
  }

  lemma TwoRegroup(h1: string, c1: string, h2: string, c2: string, c3: string, t: string)
    ensures h1 + (c1 + []) + (h2 + (c2 + (c3 + [])) + []) + t == h1 + c1 + h2 + c2 + c3 + t
  {
  }

  lemma MissingNameText()
    ensures [] + "section" + (" " + ":" + (" " + "mov" + (" " + "forward" + ([] + "," + (" " + "10" + [])))))
            == "section : mov forward, 10"
  {
  }

  lemma MissingDirectionText()
    ensures [] + "section" + (" " + "start" + ([] + ":" + (" " + "mov" + (" " + "," + (" " + "10" + [])))))
            == "section start: mov , 10"
  {
  }

  /** The generated text of one section holding one command, with the
      amount's digits after a '-', regrouped token by token. */
  lemma NegativeRegroup(name: string, kind: string, digits: string)
    ensures "" + "section " + name + ":" + "\n" + ("    " + "mov " + kind + ", " + ("-" + digits) + "\n" + []) + []
            == ([] + "section" + (" " + name + ([] + ":" + ("\n    " + "mov" + (" " + kind + ([] + "," + []))))))
               + (" " + ("-" + digits) + "\n")
  {
  }
}

/** The inputs of the older parser's unit tests and of the two property
    tests, and what parsing them gives. */
module LegacyExamples {
  import opened Text
  import opened LegacyIr
  import opened LegacyLexer
  import opened LegacyParser
  import opened LegacyRoundTrip
  import opened LegacyTestTexts

  // ---------------------------------------------------------------------
  // The property tests
  // ---------------------------------------------------------------------

  /** The generated section names `section0`, `section1`, ... are words
      other than the keyword. */
  lemma GeneratedNameIsIdentifier(i: nat)
    ensures IsIdentifier("section" + NatToString(i))
  {
    var name := "section" + NatToString(i);
    var digits := NatToString(i);
    assert forall k | 7 <= k < |name| :: name[k] == digits[k - 7];
    assert forall k | 0 <= k < 7 :: IsAlpha(name[k]);
    assert |name| > |Keyword|;
  }

  /** The program the property tests generate: section `i` is named
      `section<i>` and holds the i-th list of commands. */
  function GeneratedProgram(commands: seq<seq<Command>>): Program {
    Program(seq(|commands|, i requires 0 <= i < |commands| => Section("section" + NatToString(i), commands[i])))
  }

  /** The layout of the round-trip property test: `section sectionN:` on a
      line of its own, commands indented by four spaces. */
  function RoundTripMargins(k: nat): seq<Margin> {
    seq(k, i => Margin("", "    ", "\n"))
  }

  /** The layout of the whitespace property test: section `i` uses the
      padding ws[i % |ws|] before and after every line. */
  function PaddedMargins(ws: seq<string>, k: nat): seq<Margin>
    requires |ws| > 0
  {
    seq(k, i requires 0 <= i => var w := ws[i % |ws|]; Margin(w, w, w + "\n"))
  }

  predicate CommandsPrintable(commands: seq<seq<Command>>) {
    forall i, j | 0 <= i < |commands| && 0 <= j < |commands[i]| :: PrintableCommand(commands[i][j])
  }

  lemma GeneratedPrintable(commands: seq<seq<Command>>)
    requires CommandsPrintable(commands)
    ensures Printable(GeneratedProgram(commands))
  {
    var p := GeneratedProgram(commands);
    forall i | 0 <= i < |p.sections|
      ensures PrintableSection(p.sections[i])
    {
      GeneratedNameIsIdentifier(i);
    }
  }

  /** The round-trip property test: the generated text parses to sections
      with the generated names holding the generated commands, in order,
      for directions that are words other than `section` and non-negative
      amounts. */
  lemma RoundTripProperty(commands: seq<seq<Command>>)
    requires CommandsPrintable(commands)
    ensures ParseText(SectionsText(GeneratedProgram(commands).sections, RoundTripMargins(|commands|)))
            == Ok(GeneratedProgram(commands))
  {
    var p := GeneratedProgram(commands);
    var ms := RoundTripMargins(|commands|);
    GeneratedPrintable(commands);
    ParsePrinted(p, ms, []);
    assert ProgramText(p, ms, []) == SectionsText(p.sections, ms) + [];
    assert SectionsText(p.sections, ms) + [] == SectionsText(p.sections, ms);
  }

  /** The whitespace property test: any blank padding around the lines
      leaves the parsed program unchanged. */
  lemma WhitespaceProperty(commands: seq<seq<Command>>, ws: seq<string>)
    requires CommandsPrintable(commands)
    requires |ws| > 0 && forall k | 0 <= k < |ws| :: AllWhitespace(ws[k])
    ensures ParseText(SectionsText(GeneratedProgram(commands).sections, PaddedMargins(ws, |commands|)))
            == Ok(GeneratedProgram(commands))
  {
    var p := GeneratedProgram(commands);
    var ms := PaddedMargins(ws, |commands|);
    GeneratedPrintable(commands);
    forall i | 0 <= i < |ms|
      ensures BlankMargin(ms[i])
    {
      var w := ws[i % |ws|];
      assert AllWhitespace(w);
      assert AllWhitespace(w + "\n") by {
        assert forall k | 0 <= k < |w + "\n"| :: (w + "\n")[k] == if k < |w| then w[k] else '\n';
      }
    }
    ParsePrinted(p, ms, []);
    assert ProgramText(p, ms, []) == SectionsText(p.sections, ms) + [];
    assert SectionsText(p.sections, ms) + [] == SectionsText(p.sections, ms);
  }

  // ---------------------------------------------------------------------
  // The parser's unit tests
  // ---------------------------------------------------------------------

  /** The words of the tests are words other than the keyword. */
  lemma WordsOfTheTests()
    ensures IsIdentifier("start") && IsIdentifier("first") && IsIdentifier("second")
    ensures IsIdentifier("forward") && IsIdentifier("backward") && IsIdentifier("mov")
  {
  }

  lemma SmallNumerals()
    ensures IntToString(10) == "10" && IntToString(5) == "5" && IntToString(4) == "4"
    ensures IntToString(3) == "3" && IntToString(2) == "2"
  {
    assert DigitChar(1) == '1' && DigitChar(0) == '0';
    assert NatToString(10) == NatToString(1) + [DigitChar(0)];
    assert DigitChar(5) == '5' && DigitChar(4) == '4' && DigitChar(3) == '3' && DigitChar(2) == '2';
  }

  /** The layout of the unit tests' inputs: a line break and eight spaces
      before a header, a line break and twelve spaces before a command. */
  const TestMargin := Margin("\n        ", "\n            ", "")

  const TestTrail := "\n        "

  lemma TestLayoutBlank()
    ensures BlankMargin(TestMargin) && AllWhitespace(TestTrail)
  {
  }

  const SingleSection := Program([Section("start", [Command("forward", 10), Command("backward", 4)])])

  lemma SingleSectionPrinted()
    ensures ProgramText(SingleSection, [TestMargin], TestTrail) ==
            "\n        section start:" + "\n            mov forward, 10" + "\n            mov backward, 4" + "\n        "
  {
    SmallNumerals();
    SingleLines();
    var s := SingleSection.sections[0];
    assert CommandsText(s.commands[2..], TestMargin) == [];
    assert CommandsText(s.commands[1..], TestMargin) == "\n            mov backward, 4" + [];
    assert SectionsText(SingleSection.sections[1..], [TestMargin][1..]) == [];
    SingleRegroup("\n        section start:", "\n            mov forward, 10", "\n            mov backward, 4", "\n        ");
  }

  /** test_parse_single_section: one section `start` with `forward 10` and
      `backward 4`. */
  lemma ParseSingleSection()
    ensures ParseText("\n        section start:" + "\n            mov forward, 10" + "\n            mov backward, 4" +
                      "\n        ") == Ok(SingleSection)
  {
    SingleSectionPrinted();
    TestLayoutBlank();
    WordsOfTheTests();
    assert Printable(SingleSection);
    ParsePrinted(SingleSection, [TestMargin], TestTrail);
  }

  const TwoSections := Program([
    Section("first", [Command("forward", 5)]),
    Section("second", [Command("backward", 3), Command("forward", 2)])
  ])

  lemma TwoSectionsPrinted()
    ensures ProgramText(TwoSections, [TestMargin, TestMargin], TestTrail) ==
            "\n        section first:" + "\n            mov forward, 5" + "\n        section second:" +
            "\n            mov backward, 3" + "\n            mov forward, 2" + "\n        "
  {
    SmallNumerals();
    TwoHeaders();
    TwoCommands();
    var s0, s1 := TwoSections.sections[0], TwoSections.sections[1];
    assert CommandsText(s0.commands[1..], TestMargin) == [];
    assert CommandsText(s1.commands[2..], TestMargin) == [];
    assert CommandsText(s1.commands[1..], TestMargin) == "\n            mov forward, 2" + [];
    assert SectionsText(TwoSections.sections[2..], [TestMargin, TestMargin][2..]) == [];
    assert SectionsText(TwoSections.sections[1..], [TestMargin, TestMargin][1..]) ==
           SectionText(s1, TestMargin) + [];
    TwoRegroup("\n        section first:", "\n            mov forward, 5", "\n        section second:",
               "\n            mov backward, 3", "\n            mov forward, 2", "\n        ");
  }

  /** test_parse_multiple_sections: `first` with `forward 5`, then `second`
      with `backward 3` and `forward 2`. */
  lemma ParseTwoSections()
    ensures ParseText("\n        section first:" + "\n            mov forward, 5" + "\n        section second:" +
                      "\n            mov backward, 3" + "\n            mov forward, 2" + "\n        ")
            == Ok(TwoSections)
  {
    TwoSectionsPrinted();
    TestLayoutBlank();
    WordsOfTheTests();
    assert Printable(TwoSections);
    ParsePrinted(TwoSections, [TestMargin, TestMargin], TestTrail);
  }

  /** Pieces spelling a text, and the tokens they stand for. */
  lemma PiecesSpelled(ps: seq<Piece>, text: string, tokens: seq<Token>)
    requires PiecesOk(ps) && Spelled(ps) == text && TokensOf(ps) == tokens
    ensures Tokens(text) == Stream(tokens, Ok(()))
  {
    TokensOfSpelled(ps, []);
    assert Spelled(ps) + [] == text;
  }

  /** A colon where the section name belongs fails, whatever follows. */
  lemma MissingNameTokens(ts: Stream)
    ensures SectionsAt(Prepend([SectionKeyword, Colon], ts)) == Err("Expected section name")
  {
    var t := Prepend([SectionKeyword, Colon], ts);
    assert t.tokens[1..] == [Colon] + ts.tokens;
  }

  lemma MissingNamePieces() returns (ps: seq<Piece>)
    ensures PiecesOk(ps) && Spelled(ps) == "section : mov forward, 10"
    ensures TokensOf(ps) == [SectionKeyword, Colon] + [Identifier("mov"), Identifier("forward"), Comma, Number(10)]
  {
    var e: seq<Piece> := [];
    var p5 := [Lexeme(" ", Number(10))] + e;
    var p4 := [Lexeme([], Comma)] + p5;
    var p3 := [Lexeme(" ", Identifier("forward"))] + p4;
    var p2 := [Lexeme(" ", Identifier("mov"))] + p3;
    var p1 := [Lexeme(" ", Colon)] + p2;
    ps := [Lexeme([], SectionKeyword)] + p1;
    SmallNumerals();
    WordsOfTheTests();
    PieceCons(Lexeme(" ", Number(10)), e);
    PieceCons(Lexeme([], Comma), p5);
    PieceCons(Lexeme(" ", Identifier("forward")), p4);
    PieceCons(Lexeme(" ", Identifier("mov")), p3);
    PieceCons(Lexeme(" ", Colon), p2);
    PieceCons(Lexeme([], SectionKeyword), p1);
    MissingNameText();
  }

  /** test_parse_invalid_section: a colon where the section name belongs. */
  lemma ParseMissingName()
    ensures ParseText("section : mov forward, 10") == Err("Expected section name")
  {
    var ps := MissingNamePieces();
    PiecesSpelled(ps, "section : mov forward, 10", TokensOf(ps));
    MissingNameTokens(Stream([Identifier("mov"), Identifier("forward"), Comma, Number(10)], Ok(())));
  }

  /** A comma where the direction belongs fails, whatever follows. */
  lemma MissingDirectionTokens(ts: Stream)
    ensures SectionsAt(Prepend([SectionKeyword, Identifier("start"), Colon, Identifier("mov"), Comma], ts))
            == Err("Expected direction")
  {
    var t := Prepend([SectionKeyword, Identifier("start"), Colon, Identifier("mov"), Comma], ts);
    assert t.tokens[1..][1..] == [Colon, Identifier("mov"), Comma] + ts.tokens;
    assert t.tokens[1..][1..][1..] == [Identifier("mov"), Comma] + ts.tokens;
    assert t.tokens[1..][1..][1..][1..] == [Comma] + ts.tokens;
  }

  lemma MissingDirectionPieces() returns (ps: seq<Piece>)
    ensures PiecesOk(ps) && Spelled(ps) == "section start: mov , 10"
    ensures TokensOf(ps) == [SectionKeyword, Identifier("start"), Colon, Identifier("mov"), Comma] + [Number(10)]
  {
    var e: seq<Piece> := [];
    var p5 := [Lexeme(" ", Number(10))] + e;
    var p4 := [Lexeme(" ", Comma)] + p5;
    var p3 := [Lexeme(" ", Identifier("mov"))] + p4;
    var p2 := [Lexeme([], Colon)] + p3;
    var p1 := [Lexeme(" ", Identifier("start"))] + p2;
    ps := [Lexeme([], SectionKeyword)] + p1;
    SmallNumerals();
    WordsOfTheTests();
    PieceCons(Lexeme(" ", Number(10)), e);
    PieceCons(Lexeme(" ", Comma), p5);
    PieceCons(Lexeme(" ", Identifier("mov")), p4);
    PieceCons(Lexeme([], Colon), p3);
    PieceCons(Lexeme(" ", Identifier("start")), p2);
    PieceCons(Lexeme([], SectionKeyword), p1);
    MissingDirectionText();
  }

  /** test_parse_invalid_command: a comma where the direction belongs. */
  lemma ParseMissingDirection()
    ensures ParseText("section start: mov , 10") == Err("Expected direction")
  {
    var ps := MissingDirectionPieces();
    PiecesSpelled(ps, "section start: mov , 10", TokensOf(ps));
    MissingDirectionTokens(Stream([Number(10)], Ok(())));
  }

  // ---------------------------------------------------------------------
  // Negative amounts in the property tests
  // ---------------------------------------------------------------------

  /** The text of a negative amount starts with '-', which no token starts
      with: the lexer stops there. */
  lemma NegativeAmountUnlexable(w: string, digits: string, rest: string)
    requires AllWhitespace(w)
    ensures Tokens(w + ("-" + digits) + rest) == Stream([], Err(Unexpected('-')))
  {
    var t := "-" + digits + rest;
    assert w + ("-" + digits) + rest == w + t;
    LexSkipsWhitespace(w, t);
    assert t[0] == '-' && !IsWhitespace('-');
    assert SkipWs(t) == t;
  }

  /** `section name:` and `mov kind,` on the next line, as pieces. */
  lemma NegativePieces(name: string, kind: string) returns (ps: seq<Piece>)
    requires IsIdentifier(name) && IsIdentifier(kind)
    ensures PiecesOk(ps) && ps != [] && ps[|ps| - 1] == Lexeme([], Comma)
    ensures Spelled(ps) == [] + "section" + (" " + name + ([] + ":" + ("\n    " + "mov" + (" " + kind + ([] + "," + [])))))
    ensures TokensOf(ps) == [SectionKeyword, Identifier(name), Colon, Identifier("mov"), Identifier(kind), Comma]
  {
    var e: seq<Piece> := [];
    var p5 := [Lexeme([], Comma)] + e;
    var p4 := [Lexeme(" ", Identifier(kind))] + p5;
    var p3 := [Lexeme("\n    ", Identifier("mov"))] + p4;
    var p2 := [Lexeme([], Colon)] + p3;
    var p1 := [Lexeme(" ", Identifier(name))] + p2;
    ps := [Lexeme([], SectionKeyword)] + p1;
    MovIsName();
    PieceCons(Lexeme([], Comma), e);
    PieceCons(Lexeme(" ", Identifier(kind)), p5);
    PieceCons(Lexeme("\n    ", Identifier("mov")), p4);
    PieceCons(Lexeme([], Colon), p3);
    PieceCons(Lexeme(" ", Identifier(name)), p2);
    PieceCons(Lexeme([], SectionKeyword), p1);
  }

  /** Once `section name: mov kind,` has been read, asking for the amount
      meets the lexer's panic. */
  lemma NegativeStreamFails(text: string, name: string, kind: string, e: string)
    requires Tokens(text) == Stream([SectionKeyword, Identifier(name), Colon, Identifier("mov"), Identifier(kind), Comma],
                                    Err(e))
    ensures ParseText(text) == Err(e)
  {
    var ts := [SectionKeyword, Identifier(name), Colon, Identifier("mov"), Identifier(kind), Comma];
    assert ts[1..][1..][1..] == [Identifier("mov"), Identifier(kind), Comma];
    assert ts[1..][1..][1..][1..][1..] == [Comma];
  }

  /** The text the round-trip test generates for a section `name` whose one
      command has the amount -digits. */
  lemma NegativeText(name: string, kind: string, n: i32) returns (digits: string)
    requires n < 0 && name == "section" + NatToString(0)
    ensures SectionsText(GeneratedProgram([[Command(kind, n)]]).sections, RoundTripMargins(1)) ==
            ([] + "section" + (" " + name + ([] + ":" + ("\n    " + "mov" + (" " + kind + ([] + "," + []))))))
            + (" " + ("-" + digits) + "\n")
  {
    digits := NatToString(-(n as int));
    var c := Command(kind, n);
    var m := Margin("", "    ", "\n");
    var p := GeneratedProgram([[c]]);
    assert p.sections == [Section(name, [c])];
    assert RoundTripMargins(1) == [m];
    assert CommandsText([c], m) == "    " + "mov " + kind + ", " + ("-" + digits) + "\n" + [] by {
      assert [c][1..] == [];
    }
    assert SectionsText(p.sections, [m]) ==
           "" + "section " + name + ":" + "\n" + CommandsText([c], m) + [] by {
      assert p.sections[1..] == [] && [m][1..] == [];
    }
    NegativeRegroup(name, kind, digits);
  }

  /** The lexer reads `section name:` and `mov kind,`, then stops at the
      '-' of the amount. */
  lemma NegativeTokens(name: string, kind: string, digits: string)
    requires IsIdentifier(name) && IsIdentifier(kind)
    ensures Tokens(([] + "section" + (" " + name + ([] + ":" + ("\n    " + "mov" + (" " + kind + ([] + "," + []))))))
                   + (" " + ("-" + digits) + "\n")) ==
            Stream([SectionKeyword, Identifier(name), Colon, Identifier("mov"), Identifier(kind), Comma],
                   Err(Unexpected('-')))
  {
    var ps := NegativePieces(name, kind);
    NegativeAmountUnlexable(" ", digits, "\n");
    TokensOfSpelledBefore(ps, " " + ("-" + digits) + "\n");
  }

  /** The round-trip property as the tests state it, with any i32 for the
      amount, does not hold: the generated text of a section whose one
      command has a negative amount fails to parse, with the panic on the
      '-'. */
  lemma NegativeAmountBreaksRoundTrip(kind: string, n: i32)
    requires IsIdentifier(kind) && n < 0
    ensures ParseText(SectionsText(GeneratedProgram([[Command(kind, n)]]).sections, RoundTripMargins(1)))
            == Err(Unexpected('-'))
  {
    var name := "section" + NatToString(0);
    GeneratedNameIsIdentifier(0);
    var digits := NegativeText(name, kind, n);
    NegativeTokens(name, kind, digits);
    NegativeStreamFails(SectionsText(GeneratedProgram([[Command(kind, n)]]).sections, RoundTripMargins(1)),
                        name, kind, Unexpected('-'));
  }
}
