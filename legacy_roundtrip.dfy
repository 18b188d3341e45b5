/** Printing a program in the syntax the older parser reads, and the proof
    that parsing the printed text gives the program back. Every section has
    its own margin (the whitespace before its header, before each of its
    commands and at the end of each line), so the texts of both property
    tests and of the parser's unit tests are instances. */
module LegacyRoundTrip {
  import opened Text
  import opened LegacyIr
  import opened LegacyLexer
  import opened LegacyParser

  /** The whitespace of one section: before the header, before each command
      and after each line. */
  datatype Margin = Margin(lead: string, indent: string, close: string)

  predicate BlankMargin(m: Margin) {
    AllWhitespace(m.lead) && AllWhitespace(m.indent) && AllWhitespace(m.close)
  }

  predicate BlankMargins(ms: seq<Margin>) {
    forall i | 0 <= i < |ms| :: BlankMargin(ms[i])
  }

  /** `mov kind, amount` */
  function CommandText(c: Command, m: Margin): string {
    m.indent + "mov " + c.kind + ", " + IntToString(c.amount as int) + m.close
  }

  function CommandsText(cs: seq<Command>, m: Margin): string
    decreases |cs|
  {
    if cs == [] then [] else CommandText(cs[0], m) + CommandsText(cs[1..], m)
  }

  /** `section name:` and its commands. */
  function SectionText(s: Section, m: Margin): string {
    m.lead + "section " + s.name + ":" + m.close + CommandsText(s.commands, m)
  }

  /** The sections, each in its own margin. */
  function SectionsText(ss: seq<Section>, ms: seq<Margin>): string
    requires |ms| == |ss|
    decreases |ss|
  {
    if ss == [] then [] else SectionText(ss[0], ms[0]) + SectionsText(ss[1..], ms[1..])
  }

  function ProgramText(p: Program, ms: seq<Margin>, trail: string): string
    requires |ms| == |p.sections|
  {
    SectionsText(p.sections, ms) + trail
  }

  /** A command the lexer reads back as written: its direction is a word
      other than `section`, and its amount has no sign. */
  predicate PrintableCommand(c: Command) {
    IsIdentifier(c.kind) && c.amount >= 0
  }

  predicate PrintableSection(s: Section) {
    IsIdentifier(s.name) && forall i | 0 <= i < |s.commands| :: PrintableCommand(s.commands[i])
  }

  predicate Printable(p: Program) {
    forall i | 0 <= i < |p.sections| :: PrintableSection(p.sections[i])
  }

  // ---------------------------------------------------------------------
  // Spelled pieces
  // ---------------------------------------------------------------------

  /** A stretch of printed text: whitespace alone, or one token with the
      whitespace before it. */
  datatype Piece = Gap(blank: string) | Lexeme(space: string, token: Token)

  function Spelling(t: Token): string {
    match t
    case SectionKeyword => Keyword
    case Identifier(x) => x
    case Number(n) => IntToString(n as int)
    case Colon => ":"
    case Comma => ","
    case Eof => ""
  }

  function PieceText(p: Piece): string {
    match p
    case Gap(w) => w
    case Lexeme(space, t) => space + Spelling(t)
  }

  function Spelled(ps: seq<Piece>): string
    decreases |ps|
  {
    if ps == [] then [] else PieceText(ps[0]) + Spelled(ps[1..])
  }

  function TokensOf(ps: seq<Piece>): seq<Token>
    decreases |ps|
  {
    if ps == [] then []
    else (if ps[0].Gap? then [] else [ps[0].token]) + TokensOf(ps[1..])
  }

  /** A piece the lexer reads back as written: blank gaps, and tokens that
      are words other than the keyword, unsigned numbers or punctuation. */
  predicate PieceOk(p: Piece) {
    match p
    case Gap(w) => w != [] && AllWhitespace(w)
    case Lexeme(space, t) =>
      AllWhitespace(space) &&
      match t
      case SectionKeyword => true
      case Identifier(x) => IsIdentifier(x)
      case Number(n) => n >= 0
      case Colon => true
      case Comma => true
      case Eof => false
  }

  /** The piece's text starts with a digit. */
  predicate StartsDigit(p: Piece) {
    p.Lexeme? && p.space == [] && p.token.Number?
  }

  /** The piece's text starts with a letter or a digit. */
  predicate StartsAlphanumeric(p: Piece) {
    p.Lexeme? && p.space == [] && (p.token.Number? || p.token.Identifier? || p.token.SectionKeyword?)
  }

  /** A word-like token in the piece could run on into the next piece. */
  predicate IsWordPiece(p: Piece) {
    p.Lexeme? && (p.token.Identifier? || p.token.SectionKeyword?)
  }

  /** `q` after `p` does not run into it: no digit right after a number, no
      letter or digit right after a word. */
  predicate Fits(p: Piece, q: Piece) {
    (p.Lexeme? && p.token.Number? ==> !StartsDigit(q)) &&
    (IsWordPiece(p) ==> !StartsAlphanumeric(q))
  }

  predicate PiecesOk(ps: seq<Piece>)
    decreases |ps|
  {
    ps == [] || (PieceOk(ps[0]) && (|ps| > 1 ==> Fits(ps[0], ps[1])) && PiecesOk(ps[1..]))
  }

  /** What a printed line or header is: pieces the lexer reads back, that
      do not start with a digit and do not end with a word, so lines can be
      put side by side. */
  predicate Chunk(ps: seq<Piece>) {
    PiecesOk(ps) && (ps == [] || !StartsDigit(ps[0])) && (ps == [] || !IsWordPiece(ps[|ps| - 1]))
  }

  lemma {:induction false} SpelledConcat(a: seq<Piece>, b: seq<Piece>)
    ensures Spelled(a + b) == Spelled(a) + Spelled(b)
    decreases |a|
  {
    if a == [] {
      assert a + b == b;
    } else {
      assert (a + b)[0] == a[0] && (a + b)[1..] == a[1..] + b;
      SpelledConcat(a[1..], b);
      calc {
        Spelled(a + b);
        PieceText(a[0]) + Spelled(a[1..] + b);
        PieceText(a[0]) + (Spelled(a[1..]) + Spelled(b));
        (PieceText(a[0]) + Spelled(a[1..])) + Spelled(b);
      }
    }
  }

  lemma {:induction false} TokensOfConcat(a: seq<Piece>, b: seq<Piece>)
    ensures TokensOf(a + b) == TokensOf(a) + TokensOf(b)
    decreases |a|
  {
    if a == [] {
      assert a + b == b;
    } else {
      assert (a + b)[0] == a[0] && (a + b)[1..] == a[1..] + b;
      TokensOfConcat(a[1..], b);
    }
  }

  lemma {:induction false} PiecesOkConcat(a: seq<Piece>, b: seq<Piece>)
    requires PiecesOk(a) && PiecesOk(b)
    requires a != [] && b != [] ==> Fits(a[|a| - 1], b[0])
    ensures PiecesOk(a + b)
    decreases |a|
  {
    if a != [] {
      assert (a + b)[0] == a[0] && (a + b)[1..] == a[1..] + b;
      PiecesOkConcat(a[1..], b);
    } else {
      assert a + b == b;
    }
  }

  /** Lines put side by side are a line again. */
  lemma ChunkJoin(a: seq<Piece>, b: seq<Piece>)
    requires Chunk(a) && Chunk(b)
    ensures Chunk(a + b)
    ensures Spelled(a + b) == Spelled(a) + Spelled(b)
    ensures TokensOf(a + b) == TokensOf(a) + TokensOf(b)
  {
    PiecesOkConcat(a, b);
    SpelledConcat(a, b);
    TokensOfConcat(a, b);
    if a == [] {
      assert a + b == b;
    } else if b == [] {
      assert a + b == a;
    }
  }

  /** A token's spelling is not empty, and starts with a digit only for a
      number and with a letter or digit only for a word or number. */
  lemma SpellingHead(t: Token)
    requires PieceOk(Lexeme([], t))
    ensures Spelling(t) != []
    ensures !t.Number? ==> !IsDigit(Spelling(t)[0])
    ensures t.Colon? || t.Comma? ==> !IsAlphanumeric(Spelling(t)[0])
  {
    CharacterClasses();
  }

  /** What the text of a piece followed by anything starts with. */
  lemma PieceHead(p: Piece, r: string)
    requires PieceOk(p)
    ensures PieceText(p) + r != []
    ensures !StartsDigit(p) ==> !IsDigit((PieceText(p) + r)[0])
    ensures !StartsAlphanumeric(p) ==> !IsAlphanumeric((PieceText(p) + r)[0])
  {
    CharacterClasses();
    PunctuationIsNotWhitespace();
    match p
    case Gap(w) =>
      assert (PieceText(p) + r)[0] == w[0];
    case Lexeme(space, t) =>
      SpellingHead(t);
      if space != [] {
        assert (PieceText(p) + r)[0] == space[0];
      } else {
        assert (PieceText(p) + r)[0] == Spelling(t)[0];
      }
  }

  /** Text after the piece `p` that the lexer does not read as part of
      `p`'s token. */
  predicate Separated(p: Piece, rest: string) {
    (p.Lexeme? && p.token.Number? ==> rest == [] || !IsDigit(rest[0])) &&
    (IsWordPiece(p) ==> rest == [] || !IsAlphanumeric(rest[0]))
  }

  /** Pieces that fit after `p`, then blank text, are separated from it. */
  lemma FollowsFits(p: Piece, qs: seq<Piece>, trail: string)
    requires PiecesOk(qs) && AllWhitespace(trail)
    requires qs != [] ==> Fits(p, qs[0])
    ensures Separated(p, Spelled(qs) + trail)
  {
    if qs == [] {
      CharacterClasses();
      PunctuationIsNotWhitespace();
      assert Spelled(qs) + trail == trail;
    } else {
      PieceHead(qs[0], Spelled(qs[1..]) + trail);
      assert Spelled(qs) + trail == PieceText(qs[0]) + (Spelled(qs[1..]) + trail);
    }
  }

  /** One piece in front of text it does not run into. */
  lemma TokensOfPiece(p: Piece, rest: string)
    requires PieceOk(p) && Separated(p, rest)
    ensures Tokens(PieceText(p) + rest) == Prepend(if p.Gap? then [] else [p.token], Tokens(rest))
  {
    match p
    case Gap(w) =>
      TokensSkipWhitespace(w, rest);
      assert Prepend([], Tokens(rest)) == Tokens(rest);
    case Lexeme(space, t) =>
      match t
      case SectionKeyword =>
        CharacterClasses();
        TokensName(space, Keyword, rest);
      case Identifier(x) =>
        TokensName(space, x, rest);
      case Number(n) =>
        TokensNumeral(space, n as int, rest);
      case Colon =>
        TokensPunctuation(space, ':', rest);
      case Comma =>
        TokensPunctuation(space, ',', rest);
  }

  /** The first of some pieces, in front of the rest and blank text. */
  lemma TokensOfFirst(ps: seq<Piece>, trail: string)
    requires ps != [] && PiecesOk(ps) && AllWhitespace(trail)
    ensures PiecesOk(ps[1..])
    ensures Tokens(Spelled(ps) + trail) ==
            Prepend(if ps[0].Gap? then [] else [ps[0].token], Tokens(Spelled(ps[1..]) + trail))
  {
    var rest := Spelled(ps[1..]) + trail;
    FollowsFits(ps[0], ps[1..], trail);
    TokensOfPiece(ps[0], rest);
    assert Spelled(ps) + trail == PieceText(ps[0]) + rest;
  }

  /** The lexer reads spelled pieces back as their tokens, then Eof. */
  lemma {:induction false} TokensOfSpelled(ps: seq<Piece>, trail: string)
    requires PiecesOk(ps) && AllWhitespace(trail)
    ensures Tokens(Spelled(ps) + trail) == Stream(TokensOf(ps), Ok(()))
    decreases |ps|
  {
    if ps == [] {
      assert Spelled(ps) + trail == trail;
      TokensOfBlank(trail);
    } else {
      TokensOfFirst(ps, trail);
      TokensOfSpelled(ps[1..], trail);
    }
  }

  /** The first of some pieces is separated from everything after it when
      the last of them is separated from the text that follows. */
  lemma FirstSeparated(ps: seq<Piece>, rest: string)
    requires ps != [] && PiecesOk(ps) && Separated(ps[|ps| - 1], rest)
    ensures PiecesOk(ps[1..]) && (ps[1..] != [] ==> Separated(ps[1..][|ps[1..]| - 1], rest))
    ensures Separated(ps[0], Spelled(ps[1..]) + rest)
  {
    var qs := ps[1..];
    if qs != [] {
      assert qs[|qs| - 1] == ps[|ps| - 1];
      PieceHead(qs[0], Spelled(qs[1..]) + rest);
      SpelledFirst(qs, rest);
    } else {
      assert Spelled(qs) + rest == rest;
    }
  }

  lemma SpelledFirst(ps: seq<Piece>, rest: string)
    requires ps != []
    ensures Spelled(ps) + rest == PieceText(ps[0]) + (Spelled(ps[1..]) + rest)
  {
  }

  /** Spelled pieces in front of text the last of them does not run into:
      their tokens, then whatever that text lexes to (a panic included). */
  lemma {:induction false} TokensOfSpelledBefore(ps: seq<Piece>, rest: string)
    requires PiecesOk(ps) && (ps != [] ==> Separated(ps[|ps| - 1], rest))
    ensures Tokens(Spelled(ps) + rest) == Prepend(TokensOf(ps), Tokens(rest))
    decreases |ps|
  {
    if ps == [] {
      assert Spelled(ps) + rest == rest;
      assert Prepend([], Tokens(rest)) == Tokens(rest);
    } else {
      var after := Spelled(ps[1..]) + rest;
      FirstSeparated(ps, rest);
      TokensOfSpelledBefore(ps[1..], rest);
      TokensOfPiece(ps[0], after);
      SpelledFirst(ps, rest);
      PrependConcat(if ps[0].Gap? then [] else [ps[0].token], TokensOf(ps[1..]), Tokens(rest));
    }
  }

  /** Putting one piece in front of others. */
  lemma PieceCons(p: Piece, ps: seq<Piece>)
    ensures Spelled([p] + ps) == PieceText(p) + Spelled(ps)
    ensures TokensOf([p] + ps) == (if p.Gap? then [] else [p.token]) + TokensOf(ps)
    ensures PiecesOk([p] + ps) <==> PieceOk(p) && (ps != [] ==> Fits(p, ps[0])) && PiecesOk(ps)
  {
    assert ([p] + ps)[0] == p && ([p] + ps)[1..] == ps;
  }

  // ---------------------------------------------------------------------
  // The printed program as pieces
  // ---------------------------------------------------------------------

  /** Whitespace as pieces: none for the empty text. */
  function Gaps(w: string): seq<Piece> {
    if w == [] then [] else [Gap(w)]
  }

  function MovPieces(c: Command, m: Margin): seq<Piece> {
    [Lexeme(m.indent, Identifier("mov")), Lexeme(" ", Identifier(c.kind)), Lexeme([], Comma),
     Lexeme(" ", Number(c.amount))]
  }

  function CommandPieces(c: Command, m: Margin): seq<Piece> {
    MovPieces(c, m) + Gaps(m.close)
  }

  function CommandsPieces(cs: seq<Command>, m: Margin): seq<Piece>
    decreases |cs|
  {
    if cs == [] then [] else CommandPieces(cs[0], m) + CommandsPieces(cs[1..], m)
  }

  function HeaderLexemes(name: string, m: Margin): seq<Piece> {
    [Lexeme(m.lead, SectionKeyword), Lexeme(" ", Identifier(name)), Lexeme([], Colon)]
  }

  function HeaderPieces(name: string, m: Margin): seq<Piece> {
    HeaderLexemes(name, m) + Gaps(m.close)
  }

  function SectionPieces(s: Section, m: Margin): seq<Piece> {
    HeaderPieces(s.name, m) + CommandsPieces(s.commands, m)
  }

  function SectionsPieces(ss: seq<Section>, ms: seq<Margin>): seq<Piece>
    requires |ms| == |ss|
    decreases |ss|
  {
    if ss == [] then [] else SectionPieces(ss[0], ms[0]) + SectionsPieces(ss[1..], ms[1..])
  }

  lemma GapsChunk(w: string)
    requires AllWhitespace(w)
    ensures Chunk(Gaps(w)) && Spelled(Gaps(w)) == w && TokensOf(Gaps(w)) == []
  {
    if w != [] {
      assert Gaps(w)[1..] == [];
      assert w + [] == w;
    }
  }

  lemma MovIsName()
    ensures IsName("mov") && "mov" != Keyword
  {
    assert IsAlpha("mov"[0]) && IsAlpha("mov"[1]) && IsAlpha("mov"[2]);
  }

  lemma MovChunk(c: Command, m: Margin)
    requires PrintableCommand(c) && BlankMargin(m)
    ensures Chunk(MovPieces(c, m))
    ensures Spelled(MovPieces(c, m)) == m.indent + "mov " + c.kind + ", " + IntToString(c.amount as int)
    ensures TokensOf(MovPieces(c, m)) == CommandTokens(c)
  {
    MovIsName();
    var p0, p1, p2, p3 := Lexeme(m.indent, Identifier("mov")), Lexeme(" ", Identifier(c.kind)),
                          Lexeme([], Comma), Lexeme(" ", Number(c.amount));
    assert MovPieces(c, m) == [p0] + ([p1] + ([p2] + [p3]));
    PieceCons(p3, []);
    assert [p3] + [] == [p3];
    PieceCons(p2, [p3]);
    PieceCons(p1, [p2] + [p3]);
    PieceCons(p0, [p1] + ([p2] + [p3]));
    assert Spelled(MovPieces(c, m)) == m.indent + "mov" + (" " + c.kind + ("," + (" " + IntToString(c.amount as int) + [])));
  }

  lemma CommandChunk(c: Command, m: Margin)
    requires PrintableCommand(c) && BlankMargin(m)
    ensures Chunk(CommandPieces(c, m))
    ensures Spelled(CommandPieces(c, m)) == CommandText(c, m)
    ensures TokensOf(CommandPieces(c, m)) == CommandTokens(c)
  {
    MovChunk(c, m);
    GapsChunk(m.close);
    ChunkJoin(MovPieces(c, m), Gaps(m.close));
    assert CommandTokens(c) + [] == CommandTokens(c);
  }

  lemma {:induction false} CommandsChunk(cs: seq<Command>, m: Margin)
    requires forall i | 0 <= i < |cs| :: PrintableCommand(cs[i])
    requires BlankMargin(m)
    ensures Chunk(CommandsPieces(cs, m))
    ensures Spelled(CommandsPieces(cs, m)) == CommandsText(cs, m)
    ensures TokensOf(CommandsPieces(cs, m)) == CommandsTokens(cs)
    decreases |cs|
  {
    if cs != [] {
      assert PrintableCommand(cs[0]);
      CommandChunk(cs[0], m);
      CommandsChunk(cs[1..], m);
      ChunkJoin(CommandPieces(cs[0], m), CommandsPieces(cs[1..], m));
    }
  }

  lemma HeaderLexemesChunk(name: string, m: Margin)
    requires IsIdentifier(name) && BlankMargin(m)
    ensures Chunk(HeaderLexemes(name, m))
    ensures Spelled(HeaderLexemes(name, m)) == m.lead + "section " + name + ":"
    ensures TokensOf(HeaderLexemes(name, m)) == [SectionKeyword, Identifier(name), Colon]
  {
    var p0, p1, p2 := Lexeme(m.lead, SectionKeyword), Lexeme(" ", Identifier(name)), Lexeme([], Colon);
    assert HeaderLexemes(name, m) == [p0] + ([p1] + [p2]);
    PieceCons(p2, []);
    assert [p2] + [] == [p2];
    PieceCons(p1, [p2]);
    PieceCons(p0, [p1] + [p2]);
    assert Spelled(HeaderLexemes(name, m)) == m.lead + "section" + (" " + name + (":" + []));
  }

  lemma HeaderChunk(name: string, m: Margin)
    requires IsIdentifier(name) && BlankMargin(m)
    ensures Chunk(HeaderPieces(name, m))
    ensures Spelled(HeaderPieces(name, m)) == m.lead + "section " + name + ":" + m.close
    ensures TokensOf(HeaderPieces(name, m)) == [SectionKeyword, Identifier(name), Colon]
  {
    HeaderLexemesChunk(name, m);
    GapsChunk(m.close);
    ChunkJoin(HeaderLexemes(name, m), Gaps(m.close));
    assert [SectionKeyword, Identifier(name), Colon] + [] == [SectionKeyword, Identifier(name), Colon];
  }

  lemma SectionChunk(s: Section, m: Margin)
    requires PrintableSection(s) && BlankMargin(m)
    ensures Chunk(SectionPieces(s, m))
    ensures Spelled(SectionPieces(s, m)) == SectionText(s, m)
    ensures TokensOf(SectionPieces(s, m)) == SectionTokens(s)
  {
    HeaderChunk(s.name, m);
    CommandsChunk(s.commands, m);
    ChunkJoin(HeaderPieces(s.name, m), CommandsPieces(s.commands, m));
  }

  lemma {:induction false} SectionsChunk(ss: seq<Section>, ms: seq<Margin>)
    requires |ms| == |ss| && BlankMargins(ms)
    requires forall i | 0 <= i < |ss| :: PrintableSection(ss[i])
    ensures Chunk(SectionsPieces(ss, ms))
    ensures Spelled(SectionsPieces(ss, ms)) == SectionsText(ss, ms)
    ensures TokensOf(SectionsPieces(ss, ms)) == SectionsTokens(ss)
    decreases |ss|
  {
    if ss != [] {
      assert PrintableSection(ss[0]) && BlankMargin(ms[0]);
      SectionChunk(ss[0], ms[0]);
      SectionsChunk(ss[1..], ms[1..]);
      ChunkJoin(SectionPieces(ss[0], ms[0]), SectionsPieces(ss[1..], ms[1..]));
    }
  }

  /** A printed program lexes to the program's tokens, then Eof. */
  lemma TokensOfPrinted(p: Program, ms: seq<Margin>, trail: string)
    requires |ms| == |p.sections| && BlankMargins(ms) && AllWhitespace(trail) && Printable(p)
    ensures Tokens(ProgramText(p, ms, trail)) == Stream(SectionsTokens(p.sections), Ok(()))
  {
    SectionsChunk(p.sections, ms);
    TokensOfSpelled(SectionsPieces(p.sections, ms), trail);
  }

  /** Parsing a printed program gives the program back, for any margins and
      trailing whitespace, provided its names and directions are words other
      than `section` and its amounts are not negative. */
  lemma ParsePrinted(p: Program, ms: seq<Margin>, trail: string)
    requires |ms| == |p.sections| && BlankMargins(ms) && AllWhitespace(trail) && Printable(p)
    ensures ParseText(ProgramText(p, ms, trail)) == Ok(p)
  {
    TokensOfPrinted(p, ms, trail);
    SectionsRoundTrip(p.sections);
  }
}
