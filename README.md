# Robot assembly toolchain, modelled in Dafny

The repository holds a Rust toolchain for a tiny robot-movement assembly
language. Programs are made of labelled sections of `mov <direction>, <amount>`
commands; the current variant also has `jal <label>` calls. Two variants of the
front end exist, and this model keeps them apart:

* the **current compiler** (`compiler/src/`):
  * a lexer producing `Colon`, `Comma`, `Number(i32)`, `Identifier` and `Eof`;
  * a recursive-descent parser for `name:` sections holding `mov`/`jal`
    commands;
  * the IR (`Move`/`Jump` commands, sections, programs);
  * a code generator that writes Arduino C;
  * the library entry points `compile` and `compile_to_arduino` with their
    `CompilerError` classification;
* the **older front end** (`src/`): a lexer with a `section` keyword and
  alphanumeric identifiers, and a parser for `section name:` headers and `mov`
  commands.

Layout of the model:

| file | module | models |
|---|---|---|
| `text.dfy` | `Text` | Rust library behaviour both variants rely on: `char::is_whitespace`, `is_digit(10)`, `str::parse::<i32>().unwrap()` on a digit run, `i32`, integer formatting |
| `ir.dfy` | `Ir` | `compiler/src/ir.rs` |
| `compiler_lexer.dfy` | `CompilerLexer` | `compiler/src/lexer.rs`; class `Lexer` over `chars` and `position` |
| `compiler_parser.dfy` | `CompilerParser` | `compiler/src/parser.rs`; class `Parser` over a `Lexer` and the current token |
| `compiler_parser_facts.dfy` | `CompilerParserFacts` | all-input facts about the current parser |
| `compiler_roundtrip.dfy` | `CompilerRoundTrip` | printing a program as text and parsing it back |
| `codegen.dfy` | `Codegen` | `compiler/src/codegen.rs` |
| `compiler_lib.dfy` | `CompilerLib` | `compiler/src/lib.rs` |
| `compiler_examples.dfy`, `compiler_lib_examples.dfy` | `CompilerExamples`, `CompilerLibExamples` (and text helpers) | the unit tests in `compiler/src/*.rs` and `compiler/tests/integration.rs`, stated as lemmas |
| `legacy_lexer.dfy` | `LegacyLexer` | `src/lexer.rs` |
| `legacy_parser.dfy` | `LegacyIr`, `LegacyParser` | `src/parser.rs` |
| `legacy_parser_facts.dfy`, `legacy_roundtrip.dfy` | `LegacyParserFacts`, `LegacyRoundTrip` | all-input facts and the print/parse round trip for the older front end |
| `legacy_examples.dfy` | `LegacyExamples` (and text helpers) | the unit tests in `src/parser.rs` and the property tests in `tests/property.rs` |

How the code is modelled:

* **Panics become errors.** Every `panic!` in the lexers and parsers is an
  `Err` carrying the exact message. So is the `.parse().unwrap()` of a digit
  run, which can fail only on i32 overflow; its message is Rust's unwrap text
  for `PosOverflow`.
* **Lexers.** Each lexer is a class whose methods move `position` through
  `while` loops, as the source does. Each method is proved against a function
  on the input still ahead of the cursor:
  * `Lex` specifies one `next_token`;
  * `Tokens` specifies the whole run of tokens up to `Eof` or a panic.
* **Parsers.** Each parser is a class holding the lexer and the current token.
  Its methods are proved against functions over the token stream still to be
  read (`CommandAt`, `BodyAt`, `SectionAt`, `SectionsAt`).
* **Code generator.** The loop methods that append to the output buffer are
  proved equal to `EmitLines`/`EmitSections`.
* **Partner properties.** Each specification function then has its own
  lemmas:
  * round trips from printed text back to the program;
  * if-and-only-if characterisations of success;
  * the first error that aborts generation;
  * the shapes of tokens.

Where the design description of the wider repository differs from this code,
the model follows the code:

* Sections with the same name are all kept, in order, rather than the last
  one replacing the earlier ones (`CompilerParser.SectionsRoundTrip`).
* Malformed command text is an error carrying the parser's message, not a
  silent no-op (`CompilerParserFacts.ParseErrorKnown`).
* There is no executor, animator or `main`-label check in these files, so
  none is modelled.

## Model

| member | source | states |
|---|---|---|
| Text.SkipWs | compiler/src/lexer.rs:71-79 | the result is no longer than the input and does not start with whitespace |
| Text.SkipWsSuffix | compiler/src/lexer.rs:71-79 | what `skip_whitespace` passes over is all whitespace, and it stops at the first non-whitespace character |
| Text.SkipWsPrefix | src/lexer.rs:66-70 | skipping whitespace in front of a text gives the same place as skipping in the text alone |
| Text.Run | compiler/src/lexer.rs:44-46 | the scan stops at the first character the test rejects, and every character before it passes |
| Text.RunOfPrefix | compiler/src/lexer.rs:44-46 | a run of accepted characters followed by a rejected one is scanned to exactly its length |
| Text.ParseDigits | compiler/src/lexer.rs:47-48 | `parse::<i32>().unwrap()` on digits is Ok exactly when the value is at most i32::MAX, the value is that non-negative number, and otherwise it is the overflow panic |
| Text.DigitsValueOfNatToString | src/lexer.rs:42-49 | reading the printed decimal of n gives n back |
| Text.IntToString | compiler/src/codegen.rs:56 | `{}` of an integer is a non-empty digit string, with a leading `-` exactly for negative values |
| CompilerLexer.LexAt | compiler/src/lexer.rs:27-63 | after whitespace, every token but Eof consumes input, and Eof is given only at the end of the input |
| CompilerLexer.Lex | compiler/src/lexer.rs:24-64 | every non-Eof token consumes input and Eof leaves nothing; this gives the termination measure |
| CompilerLexer.LexedShape | compiler/src/lexer.rs:42-61 | the rest is a suffix of the input; a Number is non-negative and followed by no digit; an Identifier is a non-empty word not starting with a digit, followed by whitespace, `:`, `,` or the end |
| CompilerLexer.LexAtDispatch | compiler/src/lexer.rs:42-50 | a digit starts a Number and any other non-separator starts an Identifier |
| CompilerLexer.LexSkipsWhitespace | compiler/src/lexer.rs:25 | leading whitespace never changes the next token |
| CompilerLexer.EofIffBlank | compiler/src/lexer.rs:25-29 | Eof is given exactly when only whitespace is left, and after it Eof repeats with nothing consumed |
| CompilerLexer.LexPunctuation | compiler/src/lexer.rs:34-41 | `:` and `,` are one-character tokens that consume exactly that character |
| CompilerLexer.LexDigits | compiler/src/lexer.rs:42-49 | a maximal digit run gives Number(its value), or the overflow panic when the value exceeds i32::MAX |
| CompilerLexer.LexAtDigits | compiler/src/lexer.rs:43-48 | the number rule consumes exactly the digit run |
| CompilerLexer.LexNumeral | compiler/src/lexer.rs:42-49 | the decimal text of any amount up to i32::MAX lexes back as that Number |
| CompilerLexer.LexWord | compiler/src/lexer.rs:50-61 | a word followed by whitespace, `:`, `,` or the end lexes back as that Identifier |
| CompilerLexer.LexFailsOnlyOnOverflow | compiler/src/lexer.rs:50-62 | the "Unexpected character" panic is unreachable; the only lexer failure is i32 overflow |
| CompilerLexer.TokensSkipWhitespace | compiler/src/lexer.rs:25 | leading whitespace does not change the token stream |
| CompilerLexer.TokensOfBlank | compiler/src/lexer.rs:27-29 | blank text gives no tokens and ends cleanly |
| CompilerLexer.TokensWord | compiler/src/lexer.rs:50-61 | a separated word contributes exactly one Identifier to the stream |
| CompilerLexer.TokensPunctuation | compiler/src/lexer.rs:34-41 | `:`/`,` contribute exactly one Colon/Comma to the stream |
| CompilerLexer.TokensNumeral | compiler/src/lexer.rs:42-49 | a separated numeral contributes exactly one Number to the stream |
| CompilerLexer.Lexer.constructor | compiler/src/lexer.rs:17-22 | a new lexer is at position 0 of the input's characters |
| CompilerLexer.Lexer.Clone | compiler/src/lexer.rs:67 | the copy has the same characters and position |
| CompilerLexer.Lexer.NextToken | compiler/src/lexer.rs:24-64 | the token or panic and the new cursor are exactly what `Lex` gives on the old remaining input |
| CompilerLexer.Lexer.ReadNumber | compiler/src/lexer.rs:42-49 | the digit branch gives the `LexNumber` token or overflow panic and moves past the digits |
| CompilerLexer.Lexer.ReadIdentifier | compiler/src/lexer.rs:50-61 | the identifier branch gives `LexIdentifier`'s token and moves past the word |
| CompilerLexer.Lexer.ScanDigits | compiler/src/lexer.rs:44-46 | the loop advances `position` by the length of the maximal digit run |
| CompilerLexer.Lexer.ScanIdentifier | compiler/src/lexer.rs:52-58 | the loop advances `position` by the length of the maximal run of non-separators |
| CompilerLexer.Lexer.PeekNextToken | compiler/src/lexer.rs:66-69 | gives exactly what the next `NextToken` would give, and changes no state (no modifies clause) |
| CompilerLexer.Lexer.SkipWhitespace | compiler/src/lexer.rs:71-79 | the remaining input becomes `SkipWs` of the old one |
| CompilerParser.Advanced | compiler/src/parser.rs:114-116 | advancing keeps the stream's ending and shrinks a non-empty stream |
| CompilerParser.CommandAt | compiler/src/parser.rs:59-112 | a parsed command consumes tokens and keeps the stream's ending |
| CompilerParser.BodyAt | compiler/src/parser.rs:45-54 | the command loop never grows the stream and keeps its ending |
| CompilerParser.SectionAt | compiler/src/parser.rs:29-57 | a parsed section consumes tokens and keeps the stream's ending |
| CompilerParser.StepOver | compiler/src/parser.rs:114-116 | advancing over a token gives the stream after it |
| CompilerParser.CommandRoundTrip | compiler/src/parser.rs:59-112 | the tokens of any `mov`/`jal` command parse back to that command, leaving the rest untouched |
| CompilerParser.BodyCommand | compiler/src/parser.rs:45-54 | a command in front of a body is prepended to what the body parses to |
| CompilerParser.BodyRoundTrip | compiler/src/parser.rs:45-54 | the tokens of a command list, followed by Eof or `name :`, parse back to that list in order |
| CompilerParser.SectionRoundTrip | compiler/src/parser.rs:29-57 | the tokens of a section parse back to that section |
| CompilerParser.SectionsRoundTrip | compiler/src/parser.rs:19-27 | the tokens of any section list parse back to it, in order, with duplicate names all kept |
| CompilerParser.Parser.Init | compiler/src/parser.rs:13-16 | the parser holds the lexer and the current token |
| CompilerParser.Parser.New | compiler/src/parser.rs:10-17 | a new parser's stream is the input's token stream, or the first token's panic |
| CompilerParser.Parser.Advance | compiler/src/parser.rs:114-116 | the new stream is `Advanced` of the old one, or its panic |
| CompilerParser.Parser.PeekNextToken | compiler/src/parser.rs:118-120 | gives the token after the current one without changing state |
| CompilerParser.Parser.ParseCommand | compiler/src/parser.rs:59-112 | result and new state agree with `CommandAt` on the old stream, including each error message in order |
| CompilerParser.Parser.ParseSection | compiler/src/parser.rs:29-57 | result and new state agree with `SectionAt`, with the header messages |
| CompilerParser.Parser.ParseBody | compiler/src/parser.rs:45-54 | the body loop agrees with `BodyAt`: it stops at Eof or at an identifier followed by `:` |
| CompilerParser.Parser.Parse | compiler/src/parser.rs:19-27 | the sections returned are `SectionsAt` of the old stream, or its error |
| CompilerParserFacts.TokensAreGood | compiler/src/lexer.rs:24-64 | every token before Eof is a word, a non-negative number or punctuation, and the stream fails only by overflow |
| CompilerParserFacts.ParsedIsPrintable | compiler/src/parser.rs:100-106 | every parsed amount is non-negative, and every name, direction and label is a word |
| CompilerParserFacts.ReprintParses | compiler/src/parser.rs:19-111 | printing a parsed program in any blank layout and parsing it again gives the same program |
| CompilerParserFacts.BodyStopsAtSectionEnd | compiler/src/parser.rs:45-54 | a section body stops only at Eof or at `name :` |
| CompilerParserFacts.ParseErrorKnown | compiler/src/parser.rs:35-105 | a failed parse carries one of the seven parser messages or the overflow panic |
| CompilerParserFacts.TokensEmptyIffBlank | compiler/src/lexer.rs:25-29 | the token stream is empty and clean exactly for blank text |
| CompilerParserFacts.EmptyProgramIffBlank | compiler/src/parser.rs:19-27 | parsing yields zero sections exactly for blank text |
| CompilerRoundTrip.TokensOfSpelled | compiler/src/lexer.rs:24-64 | text spelled from separated tokens lexes back to exactly those tokens |
| CompilerRoundTrip.TokensOfPrinted | compiler/src/lexer.rs:24-64 | a printed printable program lexes to its token sequence, then Eof |
| CompilerRoundTrip.ParsePrinted | compiler/src/parser.rs:19-111 | printing a program with words for names, directions and labels and amounts of at least 0, in any blank layout, and parsing it gives the program back |
| Codegen.CommandLine | compiler/src/codegen.rs:53-76 | a command translates exactly when it is forward/backward/wait, direction 0/1/2, or a jump; the error text is "Invalid direction value: n" or "Unknown command type: t"; a line is indented by four spaces and ends in a newline |
| Codegen.LineOfCommand | compiler/src/codegen.rs:53-76 | which line each valid command becomes: `forward` and `wait` call the function of the same name with the amount, `backward` calls `backwards` with the amount, direction 0, 1 and 2 call `straight()`, `left()` and `right()`, and a jump to `t` calls `t()` (`main_loop()` for `main`); each is `    f(arg);` followed by a newline |
| Codegen.GenerateArduinoCode | compiler/src/codegen.rs:3-138 | the method's result is `Generate(program)` |
| Codegen.AppendSections | compiler/src/codegen.rs:44-80 | the section loop gives `EmitSections` of the buffer and sections |
| Codegen.AppendLines | compiler/src/codegen.rs:52-77 | the command loop gives `EmitLines` of the buffer and commands |
| Codegen.EmitLinesAfter | compiler/src/codegen.rs:52-77 | appending lines to a buffer equals the buffer followed by the lines alone |
| Codegen.EmitSectionsAfter | compiler/src/codegen.rs:44-80 | appending functions to a buffer equals the buffer followed by the functions alone |
| Codegen.FunctionsCons | compiler/src/codegen.rs:44-80 | the first section's block comes first, then the others' |
| Codegen.FunctionsAppend | compiler/src/codegen.rs:44-80 | the functions of two section lists are the two outputs in order |
| Codegen.LinesCons | compiler/src/codegen.rs:52-77 | the first command's line comes first, then the others' |
| Codegen.GenerateFramed | compiler/src/codegen.rs:7-41 | on success the output is the prelude, the section functions, then the postlude |
| Codegen.FunctionInPlace | compiler/src/codegen.rs:44-80 | block i is `void name() {`, its lines and `}`, between the blocks of the sections before and after it, with `main` renamed `main_loop` |
| Codegen.EmitLinesOkIffValid | compiler/src/codegen.rs:52-77 | the command loop succeeds exactly when every command is valid |
| Codegen.EmitSectionsOkIffValid | compiler/src/codegen.rs:44-80 | the section loop succeeds exactly when every command of every section is valid |
| Codegen.GenerateOkIffValid | compiler/src/codegen.rs:3-138 | generation succeeds exactly when every command is valid; jumps never fail, even to undefined labels |
| Codegen.EmitLinesFirstError | compiler/src/codegen.rs:65-70 | the command loop fails with the message of the first invalid command |
| Codegen.EmitSectionsFirstError | compiler/src/codegen.rs:65-70 | the section loop fails with the message of the first invalid command over all sections |
| Codegen.GenerateFirstError | compiler/src/codegen.rs:65-70 | generation returns the first invalid command's error and no partial output |
| Codegen.FirstInvalid | compiler/src/codegen.rs:52-77 | the index of the first invalid command |
| Codegen.GenerateError | compiler/src/codegen.rs:65-70 | a failure is the first invalid command's "Invalid direction value: …" or "Unknown command type: …" |
| CompilerLib.Display | compiler/src/lib.rs:8-16 | the displayed error ends with, and contains, the original message |
| CompilerLib.DisplayInjective | compiler/src/lib.rs:8-16 | different errors display differently |
| CompilerLib.Compile | compiler/src/lib.rs:31-35 | the method's result is the parsed program or the parser's error |
| CompilerLib.CompileToArduino | compiler/src/lib.rs:46-50 | the method's result is codegen applied to the parse result |
| CompilerLib.CompileErrors | compiler/src/lib.rs:31-35 | compile fails exactly when parsing fails, always as a ParserError with a parser message or the overflow panic |
| CompilerLib.ArduinoErrors | compiler/src/lib.rs:46-50 | parse failures surface first as the same ParserError; a CodegenError carries generation's own message; LexerError never appears |
| CompilerLib.ArduinoSucceedsIff | compiler/src/lib.rs:46-50 | `compile_to_arduino` succeeds exactly when parsing succeeds and every command is valid |
| CompilerExamples.LexerBasic | compiler/src/lexer.rs:86-98 | `circle: mov direction, 1` lexes to its six tokens, then Eof |
| CompilerExamples.LexerWhitespaceHandling | compiler/src/lexer.rs:123-135 | extra spaces give the same six tokens |
| CompilerExamples.LexerMultipleSections | compiler/src/lexer.rs:100-121 | the two-section text lexes to its ten tokens, then Eof |
| CompilerExamples.ParseUnitSingleSection | compiler/src/parser.rs:127-150 | the `circle` test text parses to one section of three moves, starting with direction 1 |
| CompilerExamples.ParseJump | compiler/src/parser.rs:152-173 | `main:` with `jal circle` and `mov forward, 10` parses to a Jump then a Move |
| CompilerExamples.ParseEmptySection | compiler/tests/integration.rs:142-160 | `empty:` parses to one section with no commands |
| CompilerExamples.ParseSimpleProgram | compiler/tests/integration.rs:3-43 | the circle program text parses to its one section of three moves |
| CompilerExamples.ParseMissingComma | compiler/tests/integration.rs:162-173 | the invalid-syntax text fails with "Expected ',' after direction" |
| CompilerLibExamples.CompileInvalidSyntax | compiler/tests/integration.rs:162-173 | compile fails with a ParserError whose display contains "Expected ',' after direction" |
| CompilerLibExamples.ParseCircleAndMain | compiler/tests/integration.rs:45-65 | the circle/main text parses to its two sections |
| CompilerLibExamples.ArduinoOfCircleAndMain | compiler/tests/integration.rs:45-65 | the generated code contains `void circle()`, `void main_loop()`, `forward(4)` and `circle();` |
| CompilerLibExamples.CompileToArduinoExample | compiler/tests/integration.rs:45-65 | compile_to_arduino succeeds on the circle/main text, giving the generated code of the parsed program |
| CompilerLibExamples.CompileMultipleSections | compiler/tests/integration.rs:67-140 | the three-section text compiles to section1, section2 and main, in order, with their commands |
| LegacyLexer.LexNumber | src/lexer.rs:42-49 | a number token consumes input |
| LegacyLexer.LexWord | src/lexer.rs:50-61 | a word token consumes input |
| LegacyLexer.LexAt | src/lexer.rs:27-63 | every token but Eof consumes input, and Eof only at the end |
| LegacyLexer.Lex | src/lexer.rs:24-64 | every non-Eof token consumes input and Eof leaves nothing |
| LegacyLexer.LexedShape | src/lexer.rs:42-61 | the rest is a suffix; a Number is non-negative and maximal; an Identifier is alphabetic-first, alphanumeric, not `section`, and maximal; the keyword is maximal |
| LegacyLexer.LexAtShape | src/lexer.rs:33-62 | the same shapes for the token after the whitespace |
| LegacyLexer.LexAtDispatch | src/lexer.rs:42-50 | a digit starts a Number and a letter starts a word |
| LegacyLexer.NumberShape | src/lexer.rs:42-49 | the digit rule yields a non-negative Number and stops at a non-digit |
| LegacyLexer.WordShape | src/lexer.rs:50-61 | the word rule yields the keyword or an Identifier other than `section`, and stops at a non-alphanumeric |
| LegacyLexer.LexErrors | src/lexer.rs:42-62 | lexing fails exactly on overflow or on a character that is not `:`, `,` or alphanumeric, with the overflow or "Unexpected character: c" message |
| LegacyLexer.LexSkipsWhitespace | src/lexer.rs:66-70 | leading whitespace never changes the next token |
| LegacyLexer.EofIffBlank | src/lexer.rs:25-29 | Eof exactly when only whitespace is left, and it repeats |
| LegacyLexer.LexPunctuation | src/lexer.rs:34-41 | `:` and `,` are one-character tokens |
| LegacyLexer.LexNumeral | src/lexer.rs:42-49 | the decimal text of any amount up to i32::MAX lexes back as that Number |
| LegacyLexer.LexAtDigits | src/lexer.rs:43-48 | the number rule consumes exactly the digit run, or panics on overflow |
| LegacyLexer.LexName | src/lexer.rs:50-61 | a separated name lexes as the keyword exactly when it is `section`, otherwise as that Identifier (so `section1` is an Identifier) |
| LegacyLexer.TokensSkipWhitespace | src/lexer.rs:66-70 | leading whitespace does not change the token stream |
| LegacyLexer.TokensOfBlank | src/lexer.rs:27-29 | blank text gives no tokens |
| LegacyLexer.TokensName | src/lexer.rs:50-61 | a separated name contributes one token |
| LegacyLexer.TokensPunctuation | src/lexer.rs:34-41 | `:`/`,` contribute one token |
| LegacyLexer.TokensNumeral | src/lexer.rs:42-49 | a separated numeral contributes one Number |
| LegacyLexer.Lexer.constructor | src/lexer.rs:17-22 | a new lexer is at position 0 |
| LegacyLexer.Lexer.NextToken | src/lexer.rs:24-64 | token or panic and new cursor are exactly what `Lex` gives |
| LegacyLexer.Lexer.ReadNumber | src/lexer.rs:42-49 | the digit branch agrees with `LexNumber` |
| LegacyLexer.Lexer.ReadWord | src/lexer.rs:50-61 | the word branch agrees with `LexWord` |
| LegacyLexer.Lexer.ScanDigits | src/lexer.rs:44-46 | the loop advances by the maximal digit run |
| LegacyLexer.Lexer.ScanWord | src/lexer.rs:52-54 | the loop advances by the maximal alphanumeric run |
| LegacyLexer.Lexer.SkipWhitespace | src/lexer.rs:66-70 | the remaining input becomes `SkipWs` of the old one |
| LegacyParser.Advanced | src/parser.rs:100-102 | advancing keeps the ending and shrinks a non-empty stream |
| LegacyParser.CommandAt | src/parser.rs:60-98 | a parsed command consumes tokens |
| LegacyParser.BodyAt | src/parser.rs:52-55 | the command loop never grows the stream |
| LegacyParser.SectionAt | src/parser.rs:29-58 | a parsed section consumes tokens |
| LegacyParser.StepOver | src/parser.rs:100-102 | advancing over a token gives the stream after it |
| LegacyParser.CommandRoundTrip | src/parser.rs:60-98 | the tokens of a `mov` command parse back to it |
| LegacyParser.BodyRoundTrip | src/parser.rs:52-55 | a command list followed by Eof or `section` parses back in order |
| LegacyParser.SectionRoundTrip | src/parser.rs:29-58 | the tokens of a section parse back to it |
| LegacyParser.SectionsRoundTrip | src/parser.rs:19-27 | the tokens of any section list parse back in order |
| LegacyParser.Parser.Init | src/parser.rs:13-16 | the parser holds the lexer and current token |
| LegacyParser.Parser.New | src/parser.rs:10-17 | a new parser's stream is the input's token stream, or the first token's panic |
| LegacyParser.Parser.Advance | src/parser.rs:100-102 | the new stream is `Advanced` of the old, or its panic |
| LegacyParser.Parser.ParseCommand | src/parser.rs:60-98 | agrees with `CommandAt`, including the four messages in order |
| LegacyParser.Parser.ParseSection | src/parser.rs:29-58 | agrees with `SectionAt`, including the three header messages |
| LegacyParser.Parser.ParseBody | src/parser.rs:52-55 | agrees with `BodyAt`: stops at Eof or the next `section` |
| LegacyParser.Parser.Parse | src/parser.rs:19-27 | the sections are `SectionsAt` of the old stream, or its error |
| LegacyParser.ParseInput | src/parser.rs:10-27 | `Parser::new(input).parse()` gives `ParseText(input)` |
| LegacyParserFacts.TokensAreGood | src/lexer.rs:24-64 | every token is the keyword, an identifier other than `section`, a non-negative number or punctuation, and failures are the lexer's two panics |
| LegacyParserFacts.ParsedIsPrintable | src/parser.rs:86-92 | parsed amounts are non-negative and names and directions are identifiers |
| LegacyParserFacts.ReprintParses | src/parser.rs:19-98 | reprinting a parsed program in any blank margins parses back to it |
| LegacyParserFacts.BodyStopsAtSectionEnd | src/parser.rs:52-55 | a body stops only at Eof or the `section` keyword |
| LegacyParserFacts.ParseErrorKnown | src/parser.rs:29-98 | a failure carries one of the seven parser messages or a lexer panic |
| LegacyParserFacts.TokensEmptyIffBlank | src/lexer.rs:24-29 | no tokens exactly for blank text |
| LegacyParserFacts.EmptyProgramIffBlank | src/parser.rs:19-27 | zero sections exactly for blank text |
| LegacyRoundTrip.TokensOfSpelled | src/lexer.rs:24-64 | text spelled from separated pieces lexes back to their tokens |
| LegacyRoundTrip.TokensOfPrinted | src/lexer.rs:24-64 | a printed printable program lexes to its tokens, then Eof |
| LegacyRoundTrip.ParsePrinted | src/parser.rs:19-98 | a program with identifier names and directions and amounts of at least 0, printed in any whitespace margins, parses back to itself |
| LegacyExamples.ParseSingleSection | src/parser.rs:109-129 | the single-section text parses to `start` with its two moves |
| LegacyExamples.ParseTwoSections | src/parser.rs:131-157 | the two-section text parses to both sections in order |
| LegacyExamples.ParseMissingName | src/parser.rs:159-165 | `section : mov forward, 10` fails with "Expected section name" |
| LegacyExamples.ParseMissingDirection | src/parser.rs:167-173 | `section start: mov , 10` fails with "Expected direction" |
| LegacyExamples.GeneratedNameIsIdentifier | tests/property.rs:20 | every generated name `section<i>` is an identifier other than the keyword |
| LegacyExamples.RoundTripProperty | tests/property.rs:5-41 | the generated program text parses back to the generated structure, for identifier directions and amounts of at least 0 |
| LegacyExamples.WhitespaceProperty | tests/property.rs:43-89 | the same with any whitespace padding |
| LegacyExamples.NegativeAmountUnlexable | src/lexer.rs:62 | a `-` where a token should start is the "Unexpected character: -" panic |
| LegacyExamples.NegativeAmountBreaksRoundTrip | tests/property.rs:5-41 | the property test's text for a negative amount fails to parse |

## Left out

- `compile`'s JSON serialisation (compiler/src/lib.rs:34) is serde library behaviour. `CompilerLib.Compile` returns the program that would be serialised.
- `lib.rs` applies `map_err` to `parse()`, which as written returns a `Program` and panics on bad input. The model follows the integration test's reading (compiler/tests/integration.rs:162-173): every lexer and parser panic becomes an error that surfaces as `ParserError`. The `LexerError` variant is therefore never produced, because no code constructs it.
- Panics are modelled as error results carrying the exact message. Unwinding itself is not modelled.
- The lexer inside the parser is lazy: the model represents the token stream as the tokens before the first Eof or panic, together with how that run ends. Each parser method is proved to agree with it step by step.
- The Arduino prelude and postlude are constant strings. The meaning of the generated C (`delay`, `digitalWrite`, pins) is not modelled.
- `src/ir.rs` is not part of this model. `LegacyIr` gives the older front end's `Command { type, amount }`, `Section` and `Program` as its parser uses them.
- Older lexer: `position` mixes byte offsets (`len`, slicing) with char indices (`chars().nth`). The model indexes characters, which agrees with the source only on ASCII input.
- Older lexer: `is_alphabetic`/`is_alphanumeric` are modelled as ASCII letters and digits. Non-ASCII letters are treated as unexpected characters.
- Current lexer: `is_whitespace` is the full Unicode White_Space set, and `is_digit(10)` is `0`–`9`, as in Rust.
- CompilerRoundTrip.ParsePrinted: the layout must put whitespace before each section name and each command. Without it, adjacent words would run together, since the lexer separates words only by whitespace, `:` or `,`.
- LegacyExamples.RoundTripProperty: stated only for directions that are identifiers other than `section` and for amounts of at least 0. The lexer rejects anything else (see Findings).
- LegacyExamples.WhitespaceProperty: the same restriction as `LegacyExamples.RoundTripProperty`.
- The property tests import the current compiler crate but write the older `section name:` syntax. They are stated against the older parser, whose grammar they follow.
- UI, server, demo mains and the float-based visualiser are outside the toolchain and not modelled.

## Findings

| source | as written | input that shows it | evidently intended | confidence | as-written member | corrected member |
|---|---|---|---|---|---|---|
| tests/property.rs:5-41 | amounts are drawn from any i32 and directions from any non-empty string, and the printed text is expected to reparse to them | one section with `mov forward, -1` (any negative amount): the lexer stops at `-` with "Unexpected character: -" | amounts of at least 0 and directions that are identifiers other than `section` | not executed | LegacyExamples.NegativeAmountBreaksRoundTrip | LegacyExamples.RoundTripProperty |

The test file imports `compile` from the current crate. Against that crate, every text it generates is refused at the `section section0:` header: the current parser reads `section` as the section's name and stops with "Expected ':' after section name", whatever the amounts. The file also does not type-check as written: `serde_json::from_str` is handed the `Result` that `compile` returns, and `command.r#type` is read from `Command`, which is an enum. The row above therefore states the property against the older parser, whose grammar (`section <name>:` and `mov <direction>, <amount>`) the test follows.
