/** Equalities between pieces of text of the Arduino integration test,
    kept apart so that they are checked without the compiler's definitions
    in scope.
    They state nothing about the toolchain: they only regroup string
    concatenations so that the solver sees each text as one value. */
module CompilerLibTexts {

  lemma Headings()
    ensures "\n\n    " + "circle" + ":" == "\n" + "\n    circle:"
    ensures "\n\n    " + "main" + ":" == "\n" + "\n    main:"
    ensures "\n        " + "jal " + "circle" == "\n        jal circle"
  {
  }

  lemma TwoSectionsRegroup(n: string, a: string, l1: string, l2: string, l3: string,
                b: string, m1: string, m2: string, m3: string, t: string)
    ensures ((n + a) + (l1 + (l2 + (l3 + [])))) + (((n + b) + (m1 + (m2 + (m3 + [])))) + []) + t ==
            n + (a + l1 + l2 + l3 + n + b + m1 + m2 + m3 + t)
  {
    var e: string := [];
    assert l3 + e == l3 && m3 + e == m3;
    var s1 := (n + b) + (m1 + (m2 + m3));
    assert s1 + e == s1;
  }

  lemma ThreeSectionsRegroup(n: string, a: string, a1: string, a2: string, b: string, b1: string, b2: string,
                             c: string, c1: string, c2: string, t: string)
    ensures ((n + a) + (a1 + (a2 + []))) + (((n + b) + (b1 + (b2 + []))) + (((n + c) + (c1 + (c2 + []))) + [])) + t ==
            n + (a + a1 + a2 + n + b + b1 + b2 + n + c + c1 + c2 + t)
  {
    var e: string := [];
    assert a2 + e == a2 && b2 + e == b2 && c2 + e == c2;
    var s3 := (n + c) + (c1 + c2);
    assert s3 + e == s3;
  }

  lemma MultipleSectionsLines()
    ensures "\n\n    " + "section1" + ":" == "\n" + "\n    section1:"
    ensures "\n\n    " + "section2" + ":" == "\n" + "\n    section2:"
  {
  }

  lemma MultipleSectionsMoves()
    ensures "\n        " + "mov " + "forward" + ", " + "1" == "\n        mov forward, 1"
    ensures "\n        " + "mov " + "direction" + ", " + "1" == "\n        mov direction, 1"
    ensures "\n        " + "mov " + "backward" + ", " + "2" == "\n        mov backward, 2"
    ensures "\n        " + "mov " + "direction" + ", " + "2" == "\n        mov direction, 2"
  {
  }

  lemma MultipleSectionsCalls()
    ensures "\n        " + "jal " + "section1" == "\n        jal section1"
    ensures "\n        " + "jal " + "section2" == "\n        jal section2"
  {
  }

  lemma CalledNames()
    ensures "void " + "circle" + "() {\n" == "void circle()" + " {\n"
    ensures "void " + "main_loop" + "() {\n" == "void main_loop()" + " {\n"
    ensures "    " + "circle" + "();\n" == "    " + "circle();" + "\n"
    ensures "    forward(" + "4" + ");\n" == "    " + "forward(4)" + ";\n"
  {
  }
}

/** The integration tests of the library entry points, stated as lemmas
    about the model. */
module CompilerLibExamples {
  import opened Text
  import opened Ir
  import opened CompilerLexer
  import opened CompilerParser
  import opened CompilerRoundTrip
  import opened Codegen
  import opened CompilerLib
  import opened CompilerExamples
  import opened CompilerTestTexts
  import opened CompilerLibTexts

  // ---------------------------------------------------------------------
  // Occurrence of a piece of text in a larger one
  // ---------------------------------------------------------------------

  lemma ContainsWhole(x: string, y: string)
    ensures Contains(x + y, x)
  {
    assert OccursAt(x + y, x, 0);
  }

  lemma ContainsSelf(x: string)
    ensures Contains(x, x)
  {
    assert OccursAt(x, x, 0);
  }

  lemma ContainsExtended(a: string, b: string, part: string)
    requires Contains(b, part)
    ensures Contains(a + b, part) && Contains(b + a, part)
  {
    var k: nat :| k <= |b| && OccursAt(b, part, k);
    assert (a + b)[|a| + k..|a| + k + |part|] == b[k..k + |part|];
    assert OccursAt(a + b, part, |a| + k);
    assert (b + a)[k..k + |part|] == b[k..k + |part|];
    assert OccursAt(b + a, part, k);
  }

  /** A piece of one function's text is a piece of the whole program. */
  lemma ContainsInProgram(pre: string, f: string, mid: string, g: string, post: string, part: string)
    requires Contains(mid, part)
    ensures Contains(pre + (f + mid + g) + post, part)
  {
    ContainsExtended(f, mid, part);
    ContainsExtended(g, f + mid, part);
    ContainsExtended(pre, f + mid + g, part);
    ContainsExtended(post, pre + (f + mid + g), part);
  }

  // ---------------------------------------------------------------------
  // The error display of the invalid-syntax test
  // ---------------------------------------------------------------------

  /** compile on the input with a missing comma fails as a ParserError
      whose display contains the parser's message. */
  lemma CompileInvalidSyntax()
    ensures Compiled("\n    invalid:" + "\n        mov direction 1  # Missing comma" + "\n    ") ==
            Failure(ParserError("Expected ',' after direction"))
    ensures Contains(Display(ParserError("Expected ',' after direction")), "Expected ',' after direction")
  {
    ParseMissingComma();
  }

  // ---------------------------------------------------------------------
  // The Arduino test: a `circle` section and a `main` section calling it
  // ---------------------------------------------------------------------

  const CircleAndMain: Program := Program([
    Section("circle", [Move("direction", 1), Move("forward", 4), Move("direction", 0)]),
    Section("main", [Jump("circle"), Move("forward", 4), Jump("circle")])
  ])

  /** A blank line before each section heading. */
  const SpacedLayout: Layout := Layout("\n\n    ", "\n        ", "\n    ")

  lemma MainCommandsText()
    ensures CommandsText(CircleAndMain.sections[1].commands, SpacedLayout.indent) ==
            "\n        jal circle" + ("\n        mov forward, 4" + ("\n        jal circle" + []))
  {
    var cs := CircleAndMain.sections[1].commands;
    var indent := SpacedLayout.indent;
    assert IntToString(4) == "4";
    CircleLines();
    Headings();
    assert CommandsText(cs[2..], indent) == "\n        jal circle" + CommandsText(cs[3..], indent);
    assert CommandsText(cs[1..], indent) == "\n        mov forward, 4" + CommandsText(cs[2..], indent);
  }

  lemma CircleAndMainText()
    ensures ProgramText(CircleAndMain, SpacedLayout) ==
            "\n" + ("\n    circle:" + "\n        mov direction, 1" + "\n        mov forward, 4" +
                    "\n        mov direction, 0" + "\n" + "\n    main:" + "\n        jal circle" +
                    "\n        mov forward, 4" + "\n        jal circle" + "\n    ")
  {
    var ss := CircleAndMain.sections;
    assert CommandsText(ss[0].commands, SpacedLayout.indent) == CommandsText(Circle.sections[0].commands, TestLayout.indent);
    CircleCommandsText();
    MainCommandsText();
    Headings();
    assert SectionsText(ss[2..], SpacedLayout) == [];
    assert ss[1..][1..] == ss[2..];
    TwoSectionsRegroup("\n", "\n    circle:", "\n        mov direction, 1", "\n        mov forward, 4", "\n        mov direction, 0",
            "\n    main:", "\n        jal circle", "\n        mov forward, 4", "\n        jal circle", "\n    ");
  }

  lemma ParseCircleAndMain()
    ensures ParseText("\n    circle:" + "\n        mov direction, 1" + "\n        mov forward, 4" +
                      "\n        mov direction, 0" + "\n" + "\n    main:" + "\n        jal circle" +
                      "\n        mov forward, 4" + "\n        jal circle" + "\n    ") == Ok(CircleAndMain)
  {
    var x := "\n    circle:" + "\n        mov direction, 1" + "\n        mov forward, 4" +
             "\n        mov direction, 0" + "\n" + "\n    main:" + "\n        jal circle" +
             "\n        mov forward, 4" + "\n        jal circle" + "\n    ";
    WordsOfTheTests();
    GraphicWord("main");
    BlankTexts();
    assert BlankLayout(SpacedLayout);
    assert Printable(CircleAndMain);
    CircleAndMainText();
    ParsePrinted(CircleAndMain, SpacedLayout);
    TokensSkipWhitespace("\n", x);
  }

  /** The body of the generated `circle` function. */
  const CircleCode: string := "    left();\n" + ("    forward(" + "4" + ");\n" + ("    straight();\n" + []))

  /** The body of the generated `main_loop` function. */
  const MainCode: string := ("    " + "circle" + "();\n") + (("    forward(" + "4" + ");\n") + (("    " + "circle" + "();\n") + []))

  lemma CircleLinesCode()
    ensures Lines(CircleAndMain.sections[0].commands) ==
            Ok(CircleCode)
  {
    var cs := CircleAndMain.sections[0].commands;
    assert IntToString(4) == "4";
    assert cs == [cs[0]] + ([cs[1]] + ([cs[2]] + []));
    LinesCons(cs[2], []);
    LinesCons(cs[1], [cs[2]] + []);
    LinesCons(cs[0], [cs[1]] + ([cs[2]] + []));
  }

  lemma MainLinesCode()
    ensures Lines(CircleAndMain.sections[1].commands) ==
            Ok(MainCode)
  {
    var cs := CircleAndMain.sections[1].commands;
    assert IntToString(4) == "4";
    assert cs == [cs[0]] + ([cs[1]] + ([cs[2]] + []));
    LinesCons(cs[2], []);
    LinesCons(cs[1], [cs[2]] + []);
    LinesCons(cs[0], [cs[1]] + ([cs[2]] + []));
  }

  /** The functions generated for the program are those of `circle` and of
      `main`, in section order; `main` becomes `main_loop`. */
  lemma FunctionsOfCircleAndMain()
    ensures Lines(CircleAndMain.sections[0].commands) == Ok(CircleCode)
    ensures Lines(CircleAndMain.sections[1].commands) == Ok(MainCode)
    ensures Functions(CircleAndMain.sections).Ok?
    ensures Functions(CircleAndMain.sections[..0]).Ok? && Functions(CircleAndMain.sections[..1]).Ok?
    ensures Functions(CircleAndMain.sections[1..]).Ok? && Functions(CircleAndMain.sections[2..]).Ok?
    ensures Functions(CircleAndMain.sections).value ==
            Functions(CircleAndMain.sections[..0]).value + ("void circle()" + " {\n" + (CircleCode + "}\n\n")) +
            Functions(CircleAndMain.sections[1..]).value
    ensures Functions(CircleAndMain.sections).value ==
            Functions(CircleAndMain.sections[..1]).value + ("void main_loop()" + " {\n" + (MainCode + "}\n\n")) +
            Functions(CircleAndMain.sections[2..]).value
  {
    var ss := CircleAndMain.sections;
    CircleLinesCode();
    MainLinesCode();
    CalledNames();
    FunctionsCons(ss[1], []);
    assert ss == [ss[0]] + ([ss[1]] + []);
    FunctionsCons(ss[0], [ss[1]] + []);
    FunctionInPlace(ss, 0);
    FunctionInPlace(ss, 1);
  }

  /** A name followed by the rest of a function's text occurs in the
      functions around it. */
  lemma ContainsHeading(code: string, f: string, name: string, body: string, g: string)
    requires code == f + (name + " {\n" + body) + g
    ensures Contains(code, name)
  {
    ContainsWhole(name, " {\n");
    ContainsExtended(body, name + " {\n", name);
    ContainsExtended(f, name + " {\n" + body, name);
    ContainsExtended(g, f + (name + " {\n" + body), name);
  }

  /** The `circle` function calls `forward(4)`. */
  lemma ContainsForward(code: string, f: string, g: string)
    requires code == f + ("void circle()" + " {\n" + (CircleCode + "}\n\n")) + g
    ensures Contains(code, "forward(4)")
  {
    CalledNames();
    var part := "forward(4)";
    var fwd := "    " + part + ";\n";
    ContainsSelf(part);
    ContainsExtended("    ", part, part);
    ContainsExtended(";\n", "    " + part, part);
    ContainsExtended("    left();\n", fwd, part);
    ContainsExtended("    straight();\n" + [], "    left();\n" + fwd, part);
    assert CircleCode == "    left();\n" + fwd + ("    straight();\n" + []);
    ContainsExtended("}\n\n", CircleCode, part);
    ContainsExtended("void circle()" + " {\n", CircleCode + "}\n\n", part);
    ContainsExtended(f, "void circle()" + " {\n" + (CircleCode + "}\n\n"), part);
    ContainsExtended(g, f + ("void circle()" + " {\n" + (CircleCode + "}\n\n")), part);
  }

  /** The `main_loop` function calls `circle`. */
  lemma ContainsCall(code: string, f: string, g: string)
    requires code == f + ("void main_loop()" + " {\n" + (MainCode + "}\n\n")) + g
    ensures Contains(code, "circle();")
  {
    CalledNames();
    var part := "circle();";
    var call := "    " + part + "\n";
    var rest1 := ("    forward(" + "4" + ");\n") + (call + []);
    ContainsSelf(part);
    ContainsExtended("    ", part, part);
    ContainsExtended("\n", "    " + part, part);
    assert MainCode == call + rest1;
    ContainsExtended(rest1, call, part);
    ContainsExtended("}\n\n", MainCode, part);
    ContainsExtended("void main_loop()" + " {\n", MainCode + "}\n\n", part);
    ContainsExtended(f, "void main_loop()" + " {\n" + (MainCode + "}\n\n"), part);
    ContainsExtended(g, f + ("void main_loop()" + " {\n" + (MainCode + "}\n\n")), part);
  }

  /** The generated functions hold a `circle` function, a `main_loop`
      function, a `forward(4)` call and a call of `circle`. */
  lemma FunctionsHold()
    ensures Functions(CircleAndMain.sections).Ok?
    ensures Contains(Functions(CircleAndMain.sections).value, "void circle()")
    ensures Contains(Functions(CircleAndMain.sections).value, "void main_loop()")
    ensures Contains(Functions(CircleAndMain.sections).value, "forward(4)")
    ensures Contains(Functions(CircleAndMain.sections).value, "circle();")
  {
    var ss := CircleAndMain.sections;
    FunctionsOfCircleAndMain();
    var code := Functions(ss).value;
    ContainsHeading(code, Functions(ss[..0]).value, "void circle()", CircleCode + "}\n\n", Functions(ss[1..]).value);
    ContainsHeading(code, Functions(ss[..1]).value, "void main_loop()", MainCode + "}\n\n", Functions(ss[2..]).value);
    ContainsForward(code, Functions(ss[..0]).value, Functions(ss[1..]).value);
    ContainsCall(code, Functions(ss[..1]).value, Functions(ss[2..]).value);
  }

  /** What the functions hold, the whole code holds. */
  lemma ContainsFramed(code: string, pre: string, functions: string, post: string, part: string)
    requires code == pre + functions + post && Contains(functions, part)
    ensures Contains(code, part)
  {
    ContainsExtended(pre, functions, part);
    ContainsExtended(post, pre + functions, part);
  }

  /** The Arduino code of the `circle`/`main` program has a `circle`
      function, a `main_loop` function, a `forward(4)` call and a call of
      `circle`. */
  lemma ArduinoOfCircleAndMain()
    ensures Generate(CircleAndMain).Ok?
    ensures Contains(Generate(CircleAndMain).value, "void circle()")
    ensures Contains(Generate(CircleAndMain).value, "void main_loop()")
    ensures Contains(Generate(CircleAndMain).value, "forward(4)")
    ensures Contains(Generate(CircleAndMain).value, "circle();")
  {
    var ss := CircleAndMain.sections;
    FunctionsHold();
    EmitSectionsAfter(Prelude, ss);
    GenerateFramed(CircleAndMain);
    var code := Generate(CircleAndMain).value;
    var functions := Functions(ss).value;
    ContainsFramed(code, Prelude, functions, Postlude, "void circle()");
    ContainsFramed(code, Prelude, functions, Postlude, "void main_loop()");
    ContainsFramed(code, Prelude, functions, Postlude, "forward(4)");
    ContainsFramed(code, Prelude, functions, Postlude, "circle();");
  }

  /** compile_to_arduino on the test's input succeeds with that code. */
  lemma CompileToArduinoExample()
    ensures CompiledToArduino("\n    circle:" + "\n        mov direction, 1" + "\n        mov forward, 4" +
                              "\n        mov direction, 0" + "\n" + "\n    main:" + "\n        jal circle" +
                              "\n        mov forward, 4" + "\n        jal circle" + "\n    ") ==
            Success(Generate(CircleAndMain).value)
  {
    ParseCircleAndMain();
    ArduinoOfCircleAndMain();
  }

  // ---------------------------------------------------------------------
  // The test with several sections: two of moves, then `main` calling them
  // ---------------------------------------------------------------------

  const MultipleSections: Program := Program([
    Section("section1", [Move("forward", 1), Move("direction", 1)]),
    Section("section2", [Move("backward", 2), Move("direction", 2)]),
    Section("main", [Jump("section1"), Jump("section2")])
  ])

  lemma MultipleSectionsPrintable()
    ensures Printable(MultipleSections) && BlankLayout(SpacedLayout)
  {
    WordsOfTheTests();
    GraphicWord("main");
    GraphicWord("section1");
    GraphicWord("section2");
    GraphicWord("backward");
    BlankTexts();
    var ss := MultipleSections.sections;
    assert PrintableSection(ss[0]) && PrintableSection(ss[1]) && PrintableSection(ss[2]);
  }

  lemma ThreeSectionsText(s1: Section, s2: Section, s3: Section, l: Layout)
    ensures SectionsText([s1, s2, s3], l) == SectionText(s1, l) + (SectionText(s2, l) + (SectionText(s3, l) + []))
  {
    var ss := [s1, s2, s3];
    assert ss[1..] == [s2, s3] && [s2, s3][1..] == [s3] && [s3][1..] == [];
    assert SectionsText([s3], l) == SectionText(s3, l) + SectionsText([], l);
    assert SectionsText([s2, s3], l) == SectionText(s2, l) + SectionsText([s3], l);
  }

  lemma MultipleSectionsText()
    ensures ProgramText(MultipleSections, SpacedLayout) ==
            "\n" + ("\n    section1:" + "\n        mov forward, 1" + "\n        mov direction, 1" + "\n" +
                    "\n    section2:" + "\n        mov backward, 2" + "\n        mov direction, 2" + "\n" +
                    "\n    main:" + "\n        jal section1" + "\n        jal section2" + "\n    ")
  {
    var ss := MultipleSections.sections;
    var indent := SpacedLayout.indent;
    assert IntToString(1) == "1" && IntToString(2) == "2";
    TwoCommandsText(ss[0].commands[0], ss[0].commands[1], indent);
    TwoCommandsText(ss[1].commands[0], ss[1].commands[1], indent);
    TwoCommandsText(ss[2].commands[0], ss[2].commands[1], indent);
    ThreeSectionsText(ss[0], ss[1], ss[2], SpacedLayout);
    MultipleSectionsLines();
    MultipleSectionsMoves();
    MultipleSectionsCalls();
    Headings();
    ThreeSectionsRegroup("\n", "\n    section1:", "\n        mov forward, 1", "\n        mov direction, 1",
                         "\n    section2:", "\n        mov backward, 2", "\n        mov direction, 2",
                         "\n    main:", "\n        jal section1", "\n        jal section2", "\n    ");
  }

  /** compile on the input with sections `section1`, `section2` and `main`
      yields those three sections in source order, each with its commands
      in order; the calls in `main` are kept as Jump commands. */
  lemma CompileMultipleSections()
    ensures Compiled("\n    section1:" + "\n        mov forward, 1" + "\n        mov direction, 1" + "\n" +
                     "\n    section2:" + "\n        mov backward, 2" + "\n        mov direction, 2" + "\n" +
                     "\n    main:" + "\n        jal section1" + "\n        jal section2" + "\n    ") ==
            Success(MultipleSections)
  {
    var x := "\n    section1:" + "\n        mov forward, 1" + "\n        mov direction, 1" + "\n" +
             "\n    section2:" + "\n        mov backward, 2" + "\n        mov direction, 2" + "\n" +
             "\n    main:" + "\n        jal section1" + "\n        jal section2" + "\n    ";
    MultipleSectionsPrintable();
    MultipleSectionsText();
    ParsePrinted(MultipleSections, SpacedLayout);
    TokensSkipWhitespace("\n", x);
  }
}
