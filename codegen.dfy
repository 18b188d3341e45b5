/** The Arduino code generator of the current compiler: a fixed prelude
    (pin numbers, `setup` and `loop`), then one C function per section with
    one call line per command, then a fixed postlude holding the motor
    functions those lines call. */
module Codegen {
  import opened Text
  import opened Ir

  /** Pin definitions, `setup`, and a `loop` that calls `main_loop`. */
  const Prelude: string :=
    "// Automatically Generated From IR\n" +
    "// Motor A connections\n" +
    "int enA = 9;\n" +
    "int in1 = 3;\n" +
    "int in2 = 4;\n" +
    "// Motor B connections\n" +
    "int enB = 10;\n" +
    "int in3 = 5;\n" +
    "int in4 = 6;\n" +
    "\n" +
    "void setup() {\n" +
    "    // Set all the motor control pins to outputs\n" +
    "    pinMode(enA, OUTPUT);\n" +
    "    pinMode(enB, OUTPUT);\n" +
    "    pinMode(in1, OUTPUT);\n" +
    "    pinMode(in2, OUTPUT);\n" +
    "    pinMode(in3, OUTPUT);\n" +
    "    pinMode(in4, OUTPUT);\n" +
    "    \n" +
    "    // Turn off motors - Initial state\n" +
    "    digitalWrite(in1, LOW);\n" +
    "    digitalWrite(in2, LOW);\n" +
    "    digitalWrite(in3, LOW);\n" +
    "    digitalWrite(in4, LOW);\n" +
    "    analogWrite(enA, 255);\n" +
    "    analogWrite(enB, 255);\n" +
    "}\n" +
    "\n" +
    "void loop() {\n" +
    "    main_loop();\n" +
    "}\n" +
    "\n"

  /** The motor functions `forward`, `backwards`, `right`, `wait`, `left`
      and `straight` that the generated lines call. */
  const Postlude: string :=
    "void forward(int time){\n" +
    "        \tdelay(500);\n" +
    "\tdigitalWrite(in2, HIGH);\n" +
    "\tdigitalWrite(in1, LOW);\n" +
    "\tdelay(time*1000);\n" +
    "\tdigitalWrite(in1, LOW);\n" +
    "\tdigitalWrite(in2, LOW);\n" +
    "\tdelay(500);\n" +
    "\n" +
    "}\n" +
    "\n" +
    "void backwards(int time){\n" +
    "\tdelay(500);\n" +
    "\tdigitalWrite(in1, HIGH);\n" +
    "\tdigitalWrite(in2, LOW);\n" +
    "\tdelay(time*1000);\t\n" +
    "\tdigitalWrite(in1, LOW);\n" +
    "\tdigitalWrite(in2, LOW);\n" +
    "\tdelay(500);\n" +
    "}\n" +
    "\n" +
    "void right(){\n" +
    "    \tstraight();\n" +
    "\tdelay(500);\n" +
    "\tdigitalWrite(in3, LOW);\n" +
    "\tdigitalWrite(in4, HIGH);\n" +
    "\tdelay(500);\n" +
    "}\n" +
    "\n" +
    "void wait(int time){\n" +
    "    \tdigitalWrite(in1, LOW);\n" +
    "\tdigitalWrite(in2, LOW);\n" +
    "\t// float delayTime = time*1000;\n" +
    "\t// long delayLong = (long)delayTime;\n" +
    "\tdelay(time*1000);\n" +
    "}\n" +
    "\n" +
    "void left(){\n" +
    "    \tstraight();\n" +
    "\tdelay(500);\n" +
    "\tdigitalWrite(in4, LOW);\n" +
    "\tdigitalWrite(in3, HIGH);\n" +
    "\tdelay(500);\n" +
    "}\n" +
    "\n" +
    "void straight(){\n" +
    "    \tdigitalWrite(in4, LOW);\n" +
    "\tdigitalWrite(in3, LOW);\n" +
    "\tdelay(500);\n" +
    "}\n"

  /** The C name of a section or of a call target: `main` becomes
      `main_loop`, the function that `loop` in the prelude calls; every
      other name is kept as it is. */
  function CFunctionName(name: string): string {
    if name == "main" then "main_loop" else name
  }

  /** The commands the generator can translate: every call, whatever its
      target, and the four known moves, a direction only with 0, 1 or 2. */
  predicate CommandValid(c: Command) {
    match c
    case Jump(_) => true
    case Move(kind, amount) =>
      kind in {"forward", "backward", "wait"} || (kind == "direction" && amount in {0, 1, 2})
  }

  /** The line of C for one command, or the message generation stops with. */
  function CommandLine(c: Command): (r: Result<string>)
    ensures r.Ok? <==> CommandValid(c)
    ensures r.Err? && c.kind == "direction" ==> r.error == "Invalid direction value: " + IntToString(c.amount as int)
    ensures r.Err? && c.kind != "direction" ==> r.error == "Unknown command type: " + c.kind
    ensures r.Ok? ==> |r.value| > 4 && r.value[..4] == "    " && r.value[|r.value| - 1] == '\n'
  {
    match c
    case Move(kind, amount) =>
      if kind == "forward" then Ok("    forward(" + IntToString(amount as int) + ");\n")
      else if kind == "backward" then Ok("    backwards(" + IntToString(amount as int) + ");\n")
      else if kind == "direction" then
        if amount == 1 then Ok("    left();\n")
        else if amount == 2 then Ok("    right();\n")
        else if amount == 0 then Ok("    straight();\n")
        else Err("Invalid direction value: " + IntToString(amount as int))
      else if kind == "wait" then Ok("    wait(" + IntToString(amount as int) + ");\n")
      else Err("Unknown command type: " + kind)
    case Jump(target) => Ok("    " + CFunctionName(target) + "();\n")
  }

  /** The Arduino function a move of one of the three counted kinds calls:
      a backward move calls `backwards`, the others their own name. */
  function MotorCall(kind: string): string {
    if kind == "backward" then "backwards" else kind
  }

  /** The Arduino function a direction calls: 0 straight, 1 left, 2 right. */
  function Steering(amount: i32): string {
    if amount == 0 then "straight" else if amount == 1 then "left" else "right"
  }

  /** One indented call statement of the generated loop body. */
  function CallLine(f: string, arg: string): string {
    "    " + f + "(" + arg + ");\n"
  }

  /** Which line each valid command becomes: a counted move calls its motor
      function with the amount, a direction calls its steering function with
      no argument, and a jump calls the section's C function. */
  lemma LineOfCommand(c: Command)
    ensures c.Move? && c.kind == "forward" ==> CommandLine(c) == Ok(CallLine("forward", IntToString(c.amount as int)))
    ensures c.Move? && c.kind == "backward" ==> CommandLine(c) == Ok(CallLine("backwards", IntToString(c.amount as int)))
    ensures c.Move? && c.kind == "wait" ==> CommandLine(c) == Ok(CallLine("wait", IntToString(c.amount as int)))
    ensures c.Move? && c.kind in {"forward", "backward", "wait"} ==>
      CommandLine(c) == Ok(CallLine(MotorCall(c.kind), IntToString(c.amount as int)))
    ensures c.Move? && c.kind == "direction" && c.amount == 0 ==> CommandLine(c) == Ok(CallLine("straight", ""))
    ensures c.Move? && c.kind == "direction" && c.amount == 1 ==> CommandLine(c) == Ok(CallLine("left", ""))
    ensures c.Move? && c.kind == "direction" && c.amount == 2 ==> CommandLine(c) == Ok(CallLine("right", ""))
    ensures c.Move? && c.kind == "direction" && c.amount in {0, 1, 2} ==>
      CommandLine(c) == Ok(CallLine(Steering(c.amount), ""))
    ensures c.Jump? ==> CommandLine(c) == Ok(CallLine(CFunctionName(c.target), ""))
  {
    match c
    case Move(kind, amount) =>
      var n := IntToString(amount as int);
      assert "    " + "backwards" + "(" + n + ");\n" == "    backwards(" + n + ");\n";
      assert "    " + "forward" + "(" + n + ");\n" == "    forward(" + n + ");\n";
      assert "    " + "wait" + "(" + n + ");\n" == "    wait(" + n + ");\n";
      assert "    " + "straight" + "(" + "" + ");\n" == "    straight();\n";
      assert "    " + "left" + "(" + "" + ");\n" == "    left();\n";
      assert "    " + "right" + "(" + "" + ");\n" == "    right();\n";
    case Jump(target) =>
      var f := CFunctionName(target);
      assert "    " + f + "(" + "" + ");\n" == "    " + f + "();\n";
  }

  /** Two pieces of output one after the other; the first error wins. */
  function Append(x: Result<string>, y: Result<string>): Result<string> {
    if x.Err? then x else if y.Err? then y else Ok(x.value + y.value)
  }

  /** The heading of the C function of a section. */
  function Header(name: string): string {
    "void " + CFunctionName(name) + "() {\n"
  }

  /** The buffer after the lines of `cs` are appended to `out` one command
      at a time, or the message of the first command that cannot be
      translated. */
  function EmitLines(out: string, cs: seq<Command>): Result<string>
    decreases |cs|
  {
    if cs == [] then Ok(out)
    else
      match CommandLine(cs[0])
      case Err(e) => Err(e)
      case Ok(line) => EmitLines(out + line, cs[1..])
  }

  /** The buffer after the C function of each section in turn is appended
      to `out`, or the first error. */
  function EmitSections(out: string, ss: seq<Section>): Result<string>
    decreases |ss|
  {
    if ss == [] then Ok(out)
    else
      match EmitLines(out + Header(ss[0].name), ss[0].commands)
      case Err(e) => Err(e)
      case Ok(o) => EmitSections(o + "}\n\n", ss[1..])
  }

  /** The whole Arduino program: the prelude, the functions of the sections
      and the postlude, or the first error met. */
  function Generate(p: Program): Result<string> {
    match EmitSections(Prelude, p.sections)
    case Err(e) => Err(e)
    case Ok(o) => Ok(o + Postlude)
  }

  /** Builds the output as the source does: the prelude, then the
      functions of the sections appended to the same buffer, then the
      postlude; at the first command it cannot translate it returns the
      error and no partial output. */
  method GenerateArduinoCode(program: Program) returns (r: Result<string>)
    ensures r == Generate(program)
  {
    var output := Prelude;
    var emitted := AppendSections(output, program.sections);
    if emitted.Err? {
      return Err(emitted.error);
    }
    output := emitted.value + Postlude;
    return Ok(output);
  }

  /** The loop over the sections: appends to `output` the function of
      each section in turn. */
  method AppendSections(output: string, sections: seq<Section>) returns (r: Result<string>)
    ensures r == EmitSections(output, sections)
  {
    var buffer := output;
    var i := 0;
    assert sections[i..] == sections;
    while i < |sections|
      invariant 0 <= i <= |sections|
      invariant EmitSections(buffer, sections[i..]) == EmitSections(output, sections)
    {
      var section := sections[i];
      assert sections[i..][0] == section && sections[i..][1..] == sections[i + 1..];
      var name := if section.name == "main" then "main_loop" else section.name;
      buffer := buffer + ("void " + name + "() {\n");
      var lines := AppendLines(buffer, section.commands);
      if lines.Err? {
        return Err(lines.error);
      }
      buffer := lines.value + "}\n\n";
      i := i + 1;
    }
    assert sections[i..] == [];
    return Ok(buffer);
  }

  /** The loop over the commands of one section: appends the line of each
      command in turn, and stops at the first one it cannot translate. */
  method AppendLines(output: string, commands: seq<Command>) returns (r: Result<string>)
    ensures r == EmitLines(output, commands)
  {
    var buffer := output;
    var j := 0;
    assert commands[j..] == commands;
    while j < |commands|
      invariant 0 <= j <= |commands|
      invariant EmitLines(buffer, commands[j..]) == EmitLines(output, commands)
    {
      assert commands[j..][0] == commands[j] && commands[j..][1..] == commands[j + 1..];
      var line := CommandLine(commands[j]);
      if line.Err? {
        return Err(line.error);
      }
      buffer := buffer + line.value;
      j := j + 1;
    }
    assert commands[j..] == [];
    return Ok(buffer);
  }

  // ---------------------------------------------------------------------
  // Properties of the generator
  // ---------------------------------------------------------------------

  /** The lines of a command list alone, and the functions of a section
      list alone. */
  function Lines(cs: seq<Command>): Result<string> {
    EmitLines([], cs)
  }

  function Functions(ss: seq<Section>): Result<string> {
    EmitSections([], ss)
  }

  lemma AppendAssociative(x: Result<string>, y: Result<string>, z: Result<string>)
    ensures Append(Append(x, y), z) == Append(x, Append(y, z))
  {
    if x.Ok? && y.Ok? && z.Ok? {
      assert x.value + y.value + z.value == x.value + (y.value + z.value);
    }
  }

  /** What is already in the buffer plays no part: the lines are appended
      after it, and an error does not depend on it. */
  lemma {:induction false} EmitLinesAfter(out: string, cs: seq<Command>)
    ensures EmitLines(out, cs) == Append(Ok(out), Lines(cs))
    decreases |cs|
  {
    if cs == [] {
      assert out + [] == out;
    } else if CommandLine(cs[0]).Ok? {
      var line := CommandLine(cs[0]).value;
      EmitLinesAfter(out + line, cs[1..]);
      EmitLinesAfter([] + line, cs[1..]);
      assert [] + line == line;
      AppendAssociative(Ok(out), Ok(line), Lines(cs[1..]));
    }
  }

  lemma {:induction false} EmitSectionsAfter(out: string, ss: seq<Section>)
    ensures EmitSections(out, ss) == Append(Ok(out), Functions(ss))
    decreases |ss|
  {
    if ss != [] {
      var header := Header(ss[0].name);
      var cs := ss[0].commands;
      EmitLinesAfter(out + header, cs);
      EmitLinesAfter([] + header, cs);
      if Lines(cs).Ok? {
        var l := Lines(cs).value;
        EmitSectionsAfter(out + header + l + "}\n\n", ss[1..]);
        EmitSectionsAfter([] + header + l + "}\n\n", ss[1..]);
        if Functions(ss[1..]).Ok? {
          Regroup(out, header, l, "}\n\n", Functions(ss[1..]).value);
        }
      }
    } else {
      assert out + [] == out;
    }
  }

  /** A regrouping of concatenations only, with no content of its own; it
      keeps the proof about one section's function short. */
  lemma Regroup(out: string, h: string, l: string, c: string, f: string)
    ensures out + ([] + h + l + c + f) == out + h + l + c + f
  {
    assert [] + h == h;
  }

  /** The C function of one section: its heading, the lines of its
      commands, and `}` with a blank line. */
  function SectionFunction(s: Section): Result<string> {
    Append(Ok(Header(s.name)), Append(Lines(s.commands), Ok("}\n\n")))
  }

  /** The functions of a section list, one section after the other. */
  lemma {:induction false} FunctionsCons(s: Section, ss: seq<Section>)
    ensures Functions([s] + ss) == Append(SectionFunction(s), Functions(ss))
  {
    var all := [s] + ss;
    assert all[0] == s && all[1..] == ss;
    EmitLinesAfter(Header(s.name), s.commands);
    assert [] + Header(s.name) == Header(s.name);
    if Lines(s.commands).Ok? {
      var o := Header(s.name) + Lines(s.commands).value;
      EmitSectionsAfter(o + "}\n\n", ss);
      assert o + "}\n\n" == Header(s.name) + (Lines(s.commands).value + "}\n\n");
    }
  }

  /** The functions of two section lists one after the other. */
  lemma {:induction false} FunctionsAppend(a: seq<Section>, b: seq<Section>)
    ensures Functions(a + b) == Append(Functions(a), Functions(b))
    decreases |a|
  {
    if a == [] {
      assert a + b == b;
      assert Functions(a) == Ok([]);
      assert Functions(b).Ok? ==> [] + Functions(b).value == Functions(b).value;
    } else {
      assert a + b == [a[0]] + (a[1..] + b);
      assert a == [a[0]] + a[1..];
      FunctionsCons(a[0], a[1..] + b);
      FunctionsCons(a[0], a[1..]);
      FunctionsAppend(a[1..], b);
      AppendAssociative(SectionFunction(a[0]), Functions(a[1..]), Functions(b));
    }
  }

  /** The lines of a command list, one command after the other. */
  lemma LinesCons(c: Command, cs: seq<Command>)
    ensures Lines([c] + cs) == Append(CommandLine(c), Lines(cs))
  {
    var all := [c] + cs;
    assert all[0] == c && all[1..] == cs;
    if CommandLine(c).Ok? {
      EmitLinesAfter([] + CommandLine(c).value, cs);
      assert [] + CommandLine(c).value == CommandLine(c).value;
    }
  }

  /** A successful output is the prelude, then the C functions of the
      sections, then the postlude. */
  lemma GenerateFramed(p: Program)
    requires Generate(p).Ok?
    ensures Functions(p.sections).Ok? && Generate(p).value == Prelude + Functions(p.sections).value + Postlude
  {
    EmitSectionsAfter(Prelude, p.sections);
  }

  /** One C function per section, in program order: the function of
      section i follows those of the sections before it and precedes those
      after it; it is headed `void main_loop() {` for a section named `main`
      and `void <name>() {` for any other, holds the lines of its commands
      in order, and is closed by `}` and a blank line. */
  lemma FunctionInPlace(ss: seq<Section>, i: nat)
    requires Functions(ss).Ok? && i < |ss|
    ensures Functions(ss[..i]).Ok? && Lines(ss[i].commands).Ok? && Functions(ss[i + 1..]).Ok?
    ensures Functions(ss).value ==
            Functions(ss[..i]).value +
            ("void " + (if ss[i].name == "main" then "main_loop" else ss[i].name) + "() {\n" +
             (Lines(ss[i].commands).value + "}\n\n")) +
            Functions(ss[i + 1..]).value
  {
    assert ss == ss[..i] + ([ss[i]] + ss[i + 1..]);
    FunctionsAppend(ss[..i], [ss[i]] + ss[i + 1..]);
    FunctionsCons(ss[i], ss[i + 1..]);
  }

  /** Every command of the sections, section by section, in order. */
  function AllCommands(ss: seq<Section>): seq<Command>
    decreases |ss|
  {
    if ss == [] then [] else ss[0].commands + AllCommands(ss[1..])
  }

  predicate AllValid(cs: seq<Command>) {
    forall i | 0 <= i < |cs| :: CommandValid(cs[i])
  }

  lemma {:induction false} EmitLinesOkIffValid(out: string, cs: seq<Command>)
    ensures EmitLines(out, cs).Ok? <==> AllValid(cs)
    decreases |cs|
  {
    if cs != [] {
      if CommandLine(cs[0]).Ok? {
        EmitLinesOkIffValid(out + CommandLine(cs[0]).value, cs[1..]);
        assert forall i | 1 <= i < |cs| :: cs[i] == cs[1..][i - 1];
      }
    }
  }

  lemma AllValidAppend(a: seq<Command>, b: seq<Command>)
    ensures AllValid(a + b) <==> AllValid(a) && AllValid(b)
  {
    if AllValid(a) && AllValid(b) {
      forall i | 0 <= i < |a + b|
        ensures CommandValid((a + b)[i])
      {
        if i >= |a| {
          assert (a + b)[i] == b[i - |a|];
        }
      }
    }
    if AllValid(a + b) {
      forall i | 0 <= i < |a|
        ensures CommandValid(a[i])
      {
        assert (a + b)[i] == a[i];
      }
      forall i | 0 <= i < |b|
        ensures CommandValid(b[i])
      {
        assert (a + b)[|a| + i] == b[i];
      }
    }
  }

  lemma {:induction false} EmitSectionsOkIffValid(out: string, ss: seq<Section>)
    ensures EmitSections(out, ss).Ok? <==> AllValid(AllCommands(ss))
    decreases |ss|
  {
    if ss != [] {
      var o := out + Header(ss[0].name);
      EmitLinesOkIffValid(o, ss[0].commands);
      AllValidAppend(ss[0].commands, AllCommands(ss[1..]));
      if EmitLines(o, ss[0].commands).Ok? {
        EmitSectionsOkIffValid(EmitLines(o, ss[0].commands).value + "}\n\n", ss[1..]);
      }
    }
  }

  /** Generation succeeds exactly when every move of every section is a
      known one with an accepted value; calls never make it fail, whether or
      not a section of that name exists. */
  lemma GenerateOkIffValid(p: Program)
    ensures Generate(p).Ok? <==> AllValid(AllCommands(p.sections))
  {
    EmitSectionsOkIffValid(Prelude, p.sections);
  }

  lemma {:induction false} EmitLinesFirstError(out: string, cs: seq<Command>, k: nat)
    requires k < |cs| && !CommandValid(cs[k]) && AllValid(cs[..k])
    ensures EmitLines(out, cs) == Err(CommandLine(cs[k]).error)
    decreases |cs|
  {
    if k > 0 {
      assert CommandValid(cs[..k][0]);
      assert cs[1..][k - 1] == cs[k];
      assert cs[1..][..k - 1] == cs[..k][1..];
      EmitLinesFirstError(out + CommandLine(cs[0]).value, cs[1..], k - 1);
    }
  }

  lemma {:induction false} EmitSectionsFirstError(out: string, ss: seq<Section>, k: nat)
    requires k < |AllCommands(ss)| && !CommandValid(AllCommands(ss)[k]) && AllValid(AllCommands(ss)[..k])
    ensures EmitSections(out, ss) == Err(CommandLine(AllCommands(ss)[k]).error)
    decreases |ss|
  {
    var cs := ss[0].commands;
    var rest := AllCommands(ss[1..]);
    var o := out + Header(ss[0].name);
    assert AllCommands(ss) == cs + rest;
    if k < |cs| {
      assert cs[k] == AllCommands(ss)[k];
      assert cs[..k] == AllCommands(ss)[..k];
      EmitLinesFirstError(o, cs, k);
    } else {
      assert rest[k - |cs|] == AllCommands(ss)[k];
      assert AllCommands(ss)[..k] == cs + rest[..k - |cs|];
      AllValidAppend(cs, rest[..k - |cs|]);
      EmitLinesOkIffValid(o, cs);
      EmitSectionsFirstError(EmitLines(o, cs).value + "}\n\n", ss[1..], k - |cs|);
    }
  }

  /** When generation fails, its message is the one of the first command,
      in section order and then command order, that cannot be translated:
      "Invalid direction value: n" or "Unknown command type: t". */
  lemma GenerateFirstError(p: Program, k: nat)
    requires k < |AllCommands(p.sections)| && !CommandValid(AllCommands(p.sections)[k])
    requires AllValid(AllCommands(p.sections)[..k])
    ensures Generate(p) == Err(CommandLine(AllCommands(p.sections)[k]).error)
  {
    EmitSectionsFirstError(Prelude, p.sections, k);
  }

  /** The position of the first command that cannot be translated. */
  function FirstInvalid(cs: seq<Command>): (k: nat)
    requires !AllValid(cs)
    ensures k < |cs| && !CommandValid(cs[k]) && AllValid(cs[..k])
    decreases |cs|
  {
    if !CommandValid(cs[0]) then 0
    else
      assert !AllValid(cs[1..]);
      var k := FirstInvalid(cs[1..]);
      assert cs[..k + 1] == [cs[0]] + cs[1..][..k];
      1 + k
  }

  /** A failed generation reports the first untranslatable command of the
      program, and with it one of the generator's two messages. */
  lemma GenerateError(p: Program)
    requires Generate(p).Err?
    ensures !AllValid(AllCommands(p.sections))
    ensures Generate(p).error == CommandLine(AllCommands(p.sections)[FirstInvalid(AllCommands(p.sections))]).error
    ensures exists t :: Generate(p).error == "Invalid direction value: " + t || Generate(p).error == "Unknown command type: " + t
  {
    var cs := AllCommands(p.sections);
    GenerateOkIffValid(p);
    var k := FirstInvalid(cs);
    GenerateFirstError(p, k);
    var c := cs[k];
    if c.kind == "direction" {
      assert Generate(p).error == "Invalid direction value: " + IntToString(c.amount as int);
    } else {
      assert Generate(p).error == "Unknown command type: " + c.kind;
    }
  }
}
