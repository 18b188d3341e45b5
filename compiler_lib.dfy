/** The library entry points of the current compiler: parsing, then either
    handing the program over for serialisation or generating Arduino code,
    with every failure labelled by the stage it came from. */
module CompilerLib {
  import opened Text
  import opened Ir
  import opened CompilerParser
  import opened CompilerParserFacts
  import opened Codegen

  /** A failed compilation, by stage. */
  datatype CompilerError =
    | LexerError(message: string)
    | ParserError(message: string)
    | CodegenError(message: string)

  /** `part` occurs in `text` at position k. */
  predicate OccursAt(text: string, part: string, k: nat) {
    k + |part| <= |text| && text[k..k + |part|] == part
  }

  /** `part` occurs somewhere in `text`. */
  predicate Contains(text: string, part: string) {
    exists k: nat | k <= |text| :: OccursAt(text, part, k)
  }

  lemma ContainsSuffix(prefix: string, part: string)
    ensures Contains(prefix + part, part)
  {
    assert OccursAt(prefix + part, part, |prefix|);
  }

  /** The text an error is shown as: the stage, then the original message,
      which the display therefore ends with and contains. */
  function Display(e: CompilerError): (s: string)
    ensures |s| > |e.message| && s[|s| - |e.message|..] == e.message
    ensures Contains(s, e.message)
  {
    var prefix :=
      match e
      case LexerError(_) => "Lexer error: "
      case ParserError(_) => "Parser error: "
      case CodegenError(_) => "Codegen error: ";
    ContainsSuffix(prefix, e.message);
    prefix + e.message
  }

  /** Different errors are displayed differently: the display tells the
      stage and the message apart. */
  lemma DisplayInjective(e1: CompilerError, e2: CompilerError)
    requires Display(e1) == Display(e2)
    ensures e1 == e2
  {
    var s := Display(e1);
    assert s[0] == Display(e2)[0];
    assert e1.LexerError? <==> s[0] == 'L';
    assert e1.ParserError? <==> s[0] == 'P';
    assert e2.LexerError? <==> s[0] == 'L';
    assert e2.ParserError? <==> s[0] == 'P';
    var n := |s| - |e1.message|;
    assert e1.message == s[n..];
    assert e2.message == s[n..];
  }

  /** What a compilation ends with. */
  datatype Outcome<T> = Success(value: T) | Failure(error: CompilerError)

  /** compile: the program the input parses to, which the source then
      serialises to JSON, or the parser's message as a ParserError. */
  function Compiled(input: string): Outcome<Program> {
    match ParseText(input)
    case Err(m) => Failure(ParserError(m))
    case Ok(p) => Success(p)
  }

  /** compile_to_arduino: the Arduino code of the program the input parses
      to; code generation runs only on a parsed program. */
  function CompiledToArduino(input: string): Outcome<string> {
    match ParseText(input)
    case Err(m) => Failure(ParserError(m))
    case Ok(p) =>
      match Generate(p)
      case Err(m) => Failure(CodegenError(m))
      case Ok(code) => Success(code)
  }

  /** Parses the input with a fresh parser; a parse failure becomes a
      ParserError. */
  method Compile(input: string) returns (r: Outcome<Program>)
    ensures r == Compiled(input)
  {
    var parser := Parser.New(input);
    if parser.Err? {
      return Failure(ParserError(parser.error));
    }
    var parsed := parser.value.Parse();
    if parsed.Err? {
      return Failure(ParserError(parsed.error));
    }
    return Success(parsed.value);
  }

  /** Parses the input, then generates the Arduino code of the program; a
      parse failure becomes a ParserError and a generation failure a
      CodegenError. */
  method CompileToArduino(input: string) returns (r: Outcome<string>)
    ensures r == CompiledToArduino(input)
  {
    var parser := Parser.New(input);
    if parser.Err? {
      return Failure(ParserError(parser.error));
    }
    var parsed := parser.value.Parse();
    if parsed.Err? {
      return Failure(ParserError(parsed.error));
    }
    var code := GenerateArduinoCode(parsed.value);
    if code.Err? {
      return Failure(CodegenError(code.error));
    }
    return Success(code.value);
  }

  /** compile fails exactly when parsing fails, always as a ParserError
      carrying one of the parser's messages or the panic of an i32
      overflow; it never reports a LexerError or a CodegenError. */
  lemma CompileErrors(input: string)
    ensures Compiled(input).Failure? <==> ParseText(input).Err?
    ensures Compiled(input).Failure? ==>
      Compiled(input).error.ParserError? &&
      (Compiled(input).error.message in ParserMessages || Compiled(input).error.message == OverflowPanic)
  {
    if ParseText(input).Err? {
      ParseErrorKnown(input);
    }
  }

  /** compile_to_arduino fails at the parser exactly when compile does, with
      the same error; it fails at code generation only for a parsed
      program, with the generator's message for the first command it cannot
      translate; it never reports a LexerError. */
  lemma ArduinoErrors(input: string)
    ensures Compiled(input).Failure? <==> CompiledToArduino(input).Failure? && CompiledToArduino(input).error.ParserError?
    ensures Compiled(input).Failure? ==> CompiledToArduino(input).error == Compiled(input).error
    ensures CompiledToArduino(input).Failure? && CompiledToArduino(input).error.CodegenError? ==>
      ParseText(input).Ok? && Generate(ParseText(input).value) == Err(CompiledToArduino(input).error.message) &&
      exists t :: CompiledToArduino(input).error.message in {"Invalid direction value: " + t, "Unknown command type: " + t}
    ensures CompiledToArduino(input).Failure? ==> !CompiledToArduino(input).error.LexerError?
  {
    if ParseText(input).Ok? && Generate(ParseText(input).value).Err? {
      GenerateError(ParseText(input).value);
    }
  }

  /** compile_to_arduino succeeds exactly when the input parses and every
      move of the program is one the generator knows, with an accepted
      direction value. */
  lemma ArduinoSucceedsIff(input: string)
    ensures CompiledToArduino(input).Success? <==>
      ParseText(input).Ok? && AllValid(AllCommands(ParseText(input).value.sections))
  {
    if ParseText(input).Ok? {
      GenerateOkIffValid(ParseText(input).value);
    }
  }
}
