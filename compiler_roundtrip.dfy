/** Printing a program in the syntax the current parser reads, and the
    proof that parsing the printed text gives the program back. The layout
    (the whitespace before headers, before commands and at the end) is a
    parameter; the first integration test's input is an instance. */
module CompilerRoundTrip {
  import opened Text
  import opened Ir
  import opened CompilerLexer
  import opened CompilerParser

  // ---------------------------------------------------------------------
  // Spelled token lists
  // ---------------------------------------------------------------------

  /** One token as written in a text, with the whitespace before it. */
  datatype Piece = Piece(space: string, token: Token)

  function Spelling(t: Token): string {
    match t
    case Identifier(x) => x
    case Number(n) => IntToString(n as int)
    case Colon => ":"
    case Comma => ","
    case Eof => ""
  }

  /** A piece the lexer reads back as its own token, whatever follows it:
      a word or numeral has whitespace before it (so it cannot run into
      the text before), and a numeral is non-negative (a '-' would start
      an Identifier). */
  predicate PieceOk(p: Piece) {
    AllWhitespace(p.space) &&
    match p.token
    case Identifier(x) => IsWord(x) && p.space != []
    case Number(n) => n >= 0 && p.space != []
    case Colon => true
    case Comma => true
    case Eof => false
  }

  predicate PiecesOk(ps: seq<Piece>) {
    forall i | 0 <= i < |ps| :: PieceOk(ps[i])
  }

  function Spelled(ps: seq<Piece>): string
    decreases |ps|
  {
    if ps == [] then [] else ps[0].space + Spelling(ps[0].token) + Spelled(ps[1..])
  }

  function TokensOf(ps: seq<Piece>): seq<Token>
    decreases |ps|
  {
    if ps == [] then [] else [ps[0].token] + TokensOf(ps[1..])
  }

  /** The tokens of pieces, one for each piece, in order. */
  lemma {:induction false} TokensOfEach(ps: seq<Piece>)
    ensures |TokensOf(ps)| == |ps|
    ensures forall i | 0 <= i < |ps| :: TokensOf(ps)[i] == ps[i].token
    decreases |ps|
  {
    if ps != [] {
      TokensOfEach(ps[1..]);
      assert forall i | 1 <= i < |ps| :: ps[1..][i - 1] == ps[i];
    }
  }

  /** Spelled pieces followed by blank text start with whitespace or
      punctuation, so nothing before them can run into them. */
  lemma {:induction false} SpelledHead(ps: seq<Piece>, trail: string)
    requires PiecesOk(ps) && AllWhitespace(trail)
    ensures var r := Spelled(ps) + trail;
      r == [] || IsWhitespace(r[0]) || r[0] == ':' || r[0] == ','
  {
    if ps != [] {
      var p := ps[0];
      assert PieceOk(p);
      var r := Spelled(ps) + trail;
      assert r == p.space + (Spelling(p.token) + Spelled(ps[1..]) + trail);
      if p.space != [] {
        assert r[0] == p.space[0];
      } else {
        assert r[0] == Spelling(p.token)[0];
      }
    }
  }

  /** One well-formed piece in front of text that starts with whitespace
      or punctuation (or is empty). */
  lemma TokensOfPiece(p: Piece, rest: string)
    requires PieceOk(p)
    requires rest == [] || IsWhitespace(rest[0]) || rest[0] == ':' || rest[0] == ','
    ensures Tokens(p.space + Spelling(p.token) + rest) == Prepend([p.token], Tokens(rest))
  {
    PrintedSyntaxFacts();
    match p.token
    case Identifier(x) =>
      TokensWord(p.space, x, rest);
    case Number(n) =>
      TokensNumeral(p.space, n as int, rest);
    case Colon =>
      TokensPunctuation(p.space, ':', rest);
    case Comma =>
      TokensPunctuation(p.space, ',', rest);
  }

  /** The lexer reads well-formed spelled pieces back as their tokens,
      ending with Eof. */
  lemma {:induction false} TokensOfSpelled(ps: seq<Piece>, trail: string)
    requires PiecesOk(ps) && AllWhitespace(trail)
    ensures Tokens(Spelled(ps) + trail) == Stream(TokensOf(ps), Ok(()))
  {
    if ps == [] {
      assert Spelled(ps) + trail == trail;
      TokensOfBlank(trail);
    } else {
      var p := ps[0];
      assert PieceOk(p);
      var rest := Spelled(ps[1..]) + trail;
      assert PiecesOk(ps[1..]) by {
        assert forall i | 0 <= i < |ps[1..]| :: ps[1..][i] == ps[i + 1];
      }
      TokensOfSpelled(ps[1..], trail);
      SpelledHead(ps[1..], trail);
      assert Spelled(ps) + trail == p.space + Spelling(p.token) + rest;
      TokensOfPiece(p, rest);
    }
  }

  lemma SpelledCons(p: Piece, ps: seq<Piece>)
    ensures Spelled([p] + ps) == p.space + Spelling(p.token) + Spelled(ps)
    ensures TokensOf([p] + ps) == [p.token] + TokensOf(ps)
    ensures PiecesOk([p] + ps) <==> PieceOk(p) && PiecesOk(ps)
  {
    assert ([p] + ps)[1..] == ps;
    if PieceOk(p) && PiecesOk(ps) {
      assert forall i | 1 <= i < |[p] + ps| :: ([p] + ps)[i] == ps[i - 1];
    }
  }

  lemma {:induction false} SpelledConcat(a: seq<Piece>, b: seq<Piece>)
    ensures Spelled(a + b) == Spelled(a) + Spelled(b)
    ensures TokensOf(a + b) == TokensOf(a) + TokensOf(b)
  {
    if a == [] {
      assert a + b == b;
    } else {
      assert (a + b)[0] == a[0] && (a + b)[1..] == a[1..] + b;
      SpelledConcat(a[1..], b);
    }
  }

  /** The characters the printed syntax relies on, classified. */
  lemma PrintedSyntaxFacts()
    ensures IsWord("mov") && IsWord("jal")
    ensures IsWhitespace(' ') && !IsIdentChar(':') && !IsIdentChar(',')
    ensures !IsDigit(':') && !IsDigit(',')
    ensures forall c | IsWhitespace(c) :: !IsIdentChar(c) && !IsDigit(c)
  {
    PunctuationIsNotWhitespace();
  }

  // ---------------------------------------------------------------------
  // The printer
  // ---------------------------------------------------------------------

  /** The whitespace of a printed program: before each section header,
      before each command, and after the last line. Headers and commands
      need some whitespace before them (a line break, typically), or a
      word could run into the one before. */
  datatype Layout = Layout(lead: string, indent: string, trail: string)

  predicate BlankLayout(l: Layout) {
    AllWhitespace(l.lead) && AllWhitespace(l.indent) && AllWhitespace(l.trail) &&
    l.lead != [] && l.indent != []
  }

  function CommandText(c: Command, indent: string): string {
    match c
    case Move(kind, amount) => indent + "mov " + kind + ", " + IntToString(amount as int)
    case Jump(target) => indent + "jal " + target
  }

  function CommandsText(cs: seq<Command>, indent: string): string
    decreases |cs|
  {
    if cs == [] then [] else CommandText(cs[0], indent) + CommandsText(cs[1..], indent)
  }

  function SectionText(s: Section, l: Layout): string {
    l.lead + s.name + ":" + CommandsText(s.commands, l.indent)
  }

  function SectionsText(ss: seq<Section>, l: Layout): string
    decreases |ss|
  {
    if ss == [] then [] else SectionText(ss[0], l) + SectionsText(ss[1..], l)
  }

  function ProgramText(p: Program, l: Layout): string {
    SectionsText(p.sections, l) + l.trail
  }

  /** A command whose text the lexer reads back token for token. */
  predicate PrintableCommand(c: Command) {
    match c
    case Move(kind, amount) => IsWord(kind) && amount >= 0
    case Jump(target) => IsWord(target)
  }

  predicate PrintableSection(s: Section) {
    IsWord(s.name) && forall i | 0 <= i < |s.commands| :: PrintableCommand(s.commands[i])
  }

  predicate Printable(p: Program) {
    forall i | 0 <= i < |p.sections| :: PrintableSection(p.sections[i])
  }

  function CommandPieces(c: Command, indent: string): seq<Piece> {
    match c
    case Move(kind, amount) =>
      [Piece(indent, Identifier("mov")), Piece(" ", Identifier(kind)), Piece([], Comma), Piece(" ", Number(amount))]
    case Jump(target) =>
      [Piece(indent, Identifier("jal")), Piece(" ", Identifier(target))]
  }

  function CommandsPieces(cs: seq<Command>, indent: string): seq<Piece>
    decreases |cs|
  {
    if cs == [] then [] else CommandPieces(cs[0], indent) + CommandsPieces(cs[1..], indent)
  }

  function SectionPieces(s: Section, l: Layout): seq<Piece> {
    [Piece(l.lead, Identifier(s.name)), Piece([], Colon)] + CommandsPieces(s.commands, l.indent)
  }

  function SectionsPieces(ss: seq<Section>, l: Layout): seq<Piece>
    decreases |ss|
  {
    if ss == [] then [] else SectionPieces(ss[0], l) + SectionsPieces(ss[1..], l)
  }

  lemma CommandSpelled(c: Command, indent: string)
    requires PrintableCommand(c) && AllWhitespace(indent) && indent != []
    ensures Spelled(CommandPieces(c, indent)) == CommandText(c, indent)
    ensures TokensOf(CommandPieces(c, indent)) == CommandTokens(c)
    ensures PiecesOk(CommandPieces(c, indent))
  {
    CommandPiecesText(c, indent);
    CommandPiecesTokens(c, indent);
    CommandPiecesOk(c, indent);
  }

  lemma MoveRegroup(indent: string, kind: string, n: string)
    ensures indent + "mov" + (" " + kind + ([] + "," + (" " + n + []))) == indent + "mov " + kind + ", " + n
  {
    assert "mov " == "mov" + " ";
    assert ", " == "," + " ";
  }

  lemma JumpRegroup(indent: string, target: string)
    ensures indent + "jal" + (" " + target + []) == indent + "jal " + target
  {
    assert "jal " == "jal" + " ";
  }

  lemma CommandPiecesText(c: Command, indent: string)
    ensures Spelled(CommandPieces(c, indent)) == CommandText(c, indent)
  {
    var ps := CommandPieces(c, indent);
    match c
    case Move(kind, amount) =>
      var n := IntToString(amount as int);
      assert ps[3..][1..] == [];
      assert Spelled(ps[3..]) == " " + n + [];
      assert ps[2..][1..] == ps[3..];
      assert Spelled(ps[2..]) == [] + "," + Spelled(ps[3..]);
      assert ps[1..][1..] == ps[2..];
      assert Spelled(ps[1..]) == " " + kind + Spelled(ps[2..]);
      MoveRegroup(indent, kind, n);
    case Jump(target) =>
      assert ps[1..][1..] == [];
      assert Spelled(ps[1..]) == " " + target + [];
      JumpRegroup(indent, target);
  }

  lemma CommandPiecesTokens(c: Command, indent: string)
    ensures TokensOf(CommandPieces(c, indent)) == CommandTokens(c)
  {
    var ps := CommandPieces(c, indent);
    match c
    case Move(kind, amount) =>
      assert TokensOf(ps[3..]) == [Number(amount)];
      assert TokensOf(ps[1..]) == [Identifier(kind), Comma, Number(amount)];
    case Jump(target) =>
      assert TokensOf(ps[1..]) == [Identifier(target)];
  }

  lemma CommandPiecesOk(c: Command, indent: string)
    requires PrintableCommand(c) && AllWhitespace(indent) && indent != []
    ensures PiecesOk(CommandPieces(c, indent))
  {
    PrintedSyntaxFacts();
  }

  lemma {:induction false} CommandsSpelled(cs: seq<Command>, indent: string)
    requires forall i | 0 <= i < |cs| :: PrintableCommand(cs[i])
    requires AllWhitespace(indent) && indent != []
    ensures Spelled(CommandsPieces(cs, indent)) == CommandsText(cs, indent)
    ensures TokensOf(CommandsPieces(cs, indent)) == CommandsTokens(cs)
    ensures PiecesOk(CommandsPieces(cs, indent))
  {
    if cs != [] {
      CommandSpelled(cs[0], indent);
      CommandsSpelled(cs[1..], indent);
      SpelledConcat(CommandPieces(cs[0], indent), CommandsPieces(cs[1..], indent));
    }
  }

  lemma SectionSpelled(s: Section, l: Layout)
    requires PrintableSection(s) && BlankLayout(l)
    ensures Spelled(SectionPieces(s, l)) == SectionText(s, l)
    ensures TokensOf(SectionPieces(s, l)) == SectionTokens(s)
    ensures PiecesOk(SectionPieces(s, l))
  {
    var head := [Piece(l.lead, Identifier(s.name)), Piece([], Colon)];
    CommandsSpelled(s.commands, l.indent);
    SpelledConcat(head, CommandsPieces(s.commands, l.indent));
    SectionHead(s.name, l.lead);
  }

  lemma SectionHead(name: string, lead: string)
    requires IsWord(name) && AllWhitespace(lead) && lead != []
    ensures var head := [Piece(lead, Identifier(name)), Piece([], Colon)];
      Spelled(head) == lead + name + ":" && TokensOf(head) == [Identifier(name), Colon] && PiecesOk(head)
  {
    var head := [Piece(lead, Identifier(name)), Piece([], Colon)];
    assert Spelled(head[1..]) == ":";
    assert TokensOf(head[1..]) == [Colon];
  }

  lemma {:induction false} SectionsSpelled(ss: seq<Section>, l: Layout)
    requires forall i | 0 <= i < |ss| :: PrintableSection(ss[i])
    requires BlankLayout(l)
    ensures Spelled(SectionsPieces(ss, l)) == SectionsText(ss, l)
    ensures TokensOf(SectionsPieces(ss, l)) == SectionsTokens(ss)
    ensures PiecesOk(SectionsPieces(ss, l))
  {
    if ss != [] {
      SectionSpelled(ss[0], l);
      SectionsSpelled(ss[1..], l);
      SpelledConcat(SectionPieces(ss[0], l), SectionsPieces(ss[1..], l));
    }
  }

  /** The printed text lexes to the program's tokens, then Eof. */
  lemma TokensOfPrinted(p: Program, l: Layout)
    requires Printable(p) && BlankLayout(l)
    ensures Tokens(ProgramText(p, l)) == Stream(SectionsTokens(p.sections), Ok(()))
  {
    SectionsSpelled(p.sections, l);
    TokensOfSpelled(SectionsPieces(p.sections, l), l.trail);
  }

  /** Printing then parsing gives the program back: names, directions and
      labels are words, amounts are non-negative, and any whitespace layout
      is allowed. Sections and commands keep their order, and sections with
      equal names are all kept. */
  lemma ParsePrinted(p: Program, l: Layout)
    requires Printable(p) && BlankLayout(l)
    ensures ParseText(ProgramText(p, l)) == Ok(p)
  {
    TokensOfPrinted(p, l);
    SectionsRoundTrip(p.sections);
  }
}
