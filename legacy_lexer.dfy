/** The lexer of the older toolchain: it turns the source text into the
    section keyword (SectionKeyword here, Token::Section in the source),
    Colon, Identifier, Number, Comma and Eof tokens, one token per call. A
    word starts with a letter and runs over letters and digits; the word
    `section` is the keyword; any other character stops the lexer. */
module LegacyLexer {
  import opened Text

  datatype Token = SectionKeyword | Colon | Identifier(name: string) | Number(n: i32) | Comma | Eof

  /** A token and the input that follows it. */
  datatype Lexed = Lexed(token: Token, rest: seq<char>)

  /** char::is_alphabetic, on the ASCII letters. */
  predicate IsAlpha(c: char) { 'a' <= c <= 'z' || 'A' <= c <= 'Z' }

  /** char::is_alphanumeric, on the ASCII letters and digits. */
  predicate IsAlphanumeric(c: char) { IsAlpha(c) || IsDigit(c) }

  /** The keyword that opens a section. */
  const Keyword: string := "section"

  /** A text the lexer reads back as a single word: a letter, then letters
      and digits. */
  predicate IsName(w: string) {
    |w| > 0 && IsAlpha(w[0]) && forall i | 0 <= i < |w| :: IsAlphanumeric(w[i])
  }

  /** A word the lexer reads back as an Identifier (any word but the keyword). */
  predicate IsIdentifier(w: string) { IsName(w) && w != Keyword }

  /** The keyword is a word; letters, digits, whitespace and punctuation are
      told apart. */
  lemma CharacterClasses()
    ensures IsName(Keyword)
    ensures forall c | IsWhitespace(c) :: !IsAlphanumeric(c)
    ensures !IsAlphanumeric(':') && !IsAlphanumeric(',') && !IsAlphanumeric(' ')
    ensures !IsDigit(':') && !IsDigit(',') && !IsDigit(' ')
    ensures forall c | IsAlpha(c) :: !IsDigit(c) && !IsWhitespace(c)
  {
    PunctuationIsNotWhitespace();
    GraphicIsNotWhitespace();
  }

  /** A maximal digit run at the head of `t`, read as an i32. */
  function LexNumber(t: seq<char>): (r: Result<Lexed>)
    requires t != [] && IsDigit(t[0])
    ensures r.Ok? ==> |r.value.rest| < |t|
  {
    var n := Run(t, IsDigit);
    var v :- ParseDigits(t[..n]);
    Ok(Lexed(Number(v), t[n..]))
  }

  /** A maximal letter-and-digit run at the head of `t`: the keyword or an
      Identifier. */
  function LexWord(t: seq<char>): (r: Lexed)
    requires t != [] && IsAlpha(t[0])
    ensures |r.rest| < |t|
  {
    var n := Run(t, IsAlphanumeric);
    var w := t[..n];
    Lexed(if w == Keyword then SectionKeyword else Identifier(w), t[n..])
  }

  /** The message next_token panics with on a character no token starts with. */
  function Unexpected(c: char): string {
    "Unexpected character: " + [c]
  }

  /** The token at the head of `t`, which starts with no whitespace. */
  function LexAt(t: seq<char>): (r: Result<Lexed>)
    requires t == [] || !IsWhitespace(t[0])
    ensures r.Ok? && r.value.token != Eof ==> |r.value.rest| < |t|
    ensures r.Ok? && r.value.token == Eof ==> r.value.rest == [] == t
  {
    if |t| == 0 then Ok(Lexed(Eof, t))
    else
      var c := t[0];
      if c == ':' then Ok(Lexed(Colon, t[1..]))
      else if c == ',' then Ok(Lexed(Comma, t[1..]))
      else if IsDigit(c) then LexNumber(t)
      else if IsAlpha(c) then Ok(LexWord(t))
      else Err(Unexpected(c))
  }

  /** What one call of next_token yields on the input still ahead of the
      cursor: whitespace is skipped, then one token is read. Every token
      but Eof consumes input, so repeated calls end. */
  function Lex(s: seq<char>): (r: Result<Lexed>)
    ensures r.Ok? && r.value.token != Eof ==> |r.value.rest| < |s|
    ensures r.Ok? && r.value.token == Eof ==> r.value.rest == []
  {
    LexAt(SkipWs(s))
  }

  predicate IsSuffix(a: seq<char>, b: seq<char>) {
    |a| <= |b| && a == b[|b| - |a|..]
  }

  /** What a token is made of: the input after it is a suffix of the input;
      a Number is the maximal digit run and never negative; an Identifier is
      a maximal word other than the keyword, and the keyword is a whole word
      too. */
  lemma LexedShape(s: seq<char>)
    requires Lex(s).Ok?
    ensures IsSuffix(Lex(s).value.rest, s)
    ensures Lex(s).value.token.Number? ==>
              Lex(s).value.token.n >= 0 && (Lex(s).value.rest == [] || !IsDigit(Lex(s).value.rest[0]))
    ensures Lex(s).value.token.Identifier? ==>
              IsIdentifier(Lex(s).value.token.name) &&
              (Lex(s).value.rest == [] || !IsAlphanumeric(Lex(s).value.rest[0]))
    ensures Lex(s).value.token.SectionKeyword? ==>
              Lex(s).value.rest == [] || !IsAlphanumeric(Lex(s).value.rest[0])
  {
    var t := SkipWs(s);
    SkipWsSuffix(s);
    LexAtShape(t);
    SuffixOfSuffix(LexAt(t).value.rest, t, s);
  }

  /** LexedShape once the whitespace is gone. */
  lemma LexAtShape(t: seq<char>)
    requires (t == [] || !IsWhitespace(t[0])) && LexAt(t).Ok?
    ensures IsSuffix(LexAt(t).value.rest, t)
    ensures LexAt(t).value.token.Number? ==>
              LexAt(t).value.token.n >= 0 && (LexAt(t).value.rest == [] || !IsDigit(LexAt(t).value.rest[0]))
    ensures LexAt(t).value.token.Identifier? ==>
              IsIdentifier(LexAt(t).value.token.name) &&
              (LexAt(t).value.rest == [] || !IsAlphanumeric(LexAt(t).value.rest[0]))
    ensures LexAt(t).value.token.SectionKeyword? ==>
              LexAt(t).value.rest == [] || !IsAlphanumeric(LexAt(t).value.rest[0])
  {
    if t != [] && IsDigit(t[0]) {
      LexAtDispatch(t);
      NumberShape(t);
    } else if t != [] && IsAlpha(t[0]) {
      LexAtDispatch(t);
      WordShape(t);
    } else if t != [] {
      assert t[1..] == t[|t| - |t[1..]|..];
    }
  }

  lemma SuffixOfSuffix(a: seq<char>, b: seq<char>, c: seq<char>)
    requires IsSuffix(a, b) && IsSuffix(b, c)
    ensures IsSuffix(a, c)
  {
    assert c[|c| - |a|..] == c[|c| - |b|..][|b| - |a|..];
  }

  /** Which rule of next_token applies to a digit and to a letter. */
  lemma LexAtDispatch(t: seq<char>)
    requires t != []
    ensures IsDigit(t[0]) ==> LexAt(t) == LexNumber(t)
    ensures IsAlpha(t[0]) ==> LexAt(t) == Ok(LexWord(t))
  {
    PunctuationIsNotWhitespace();
  }

  lemma NumberShape(t: seq<char>)
    requires t != [] && IsDigit(t[0]) && LexNumber(t).Ok?
    ensures IsSuffix(LexNumber(t).value.rest, t)
    ensures LexNumber(t).value.token.Number? && LexNumber(t).value.token.n >= 0
    ensures LexNumber(t).value.rest == [] || !IsDigit(LexNumber(t).value.rest[0])
  {
    var n := Run(t, IsDigit);
    assert LexNumber(t).value.rest == t[n..];
  }

  lemma WordShape(t: seq<char>)
    requires t != [] && IsAlpha(t[0])
    ensures IsSuffix(LexWord(t).rest, t)
    ensures LexWord(t).token.Identifier? ==> IsIdentifier(LexWord(t).token.name)
    ensures LexWord(t).token.Identifier? || LexWord(t).token.SectionKeyword?
    ensures LexWord(t).rest == [] || !IsAlphanumeric(LexWord(t).rest[0])
  {
    var n := Run(t, IsAlphanumeric);
    assert LexWord(t).rest == t[n..];
    assert LexWord(t).token.Identifier? ==> LexWord(t).token.name == t[..n];
  }

  /** next_token fails on an i32 overflow or on the first character after
      the whitespace when it is neither punctuation, a digit nor a letter
      (such as '-', '_' or '#'); on nothing else. */
  lemma LexErrors(s: seq<char>)
    ensures Lex(s).Err? <==>
      (SkipWs(s) != [] && IsDigit(SkipWs(s)[0]) && LexNumber(SkipWs(s)).Err?) ||
      (SkipWs(s) != [] && SkipWs(s)[0] !in {':', ','} && !IsAlphanumeric(SkipWs(s)[0]))
    ensures Lex(s).Err? ==>
      Lex(s).error == OverflowPanic || Lex(s).error == Unexpected(SkipWs(s)[0])
  {
  }

  /** Leading whitespace never changes the next token. */
  lemma LexSkipsWhitespace(w: seq<char>, s: seq<char>)
    requires AllWhitespace(w)
    ensures Lex(w + s) == Lex(s)
  {
    SkipWsPrefix(w, s);
  }

  /** The lexer reports Eof exactly when only whitespace is left, and once it
      has, it keeps reporting Eof with nothing left to read. */
  lemma EofIffBlank(s: seq<char>)
    ensures Lex(s).Ok? && Lex(s).value.token == Eof <==> AllWhitespace(s)
    ensures AllWhitespace(s) ==> Lex(s) == Ok(Lexed(Eof, [])) && Lex(Lex(s).value.rest) == Lex(s)
  {
    var t := SkipWs(s);
    if AllWhitespace(s) {
      assert s + [] == s;
      SkipWsPrefix(s, []);
      assert t == [];
    }
    if t == [] {
      SkipWsSuffix(s);
      assert s[..|s|] == s;
    }
  }

  /** ':' and ',' are one-character tokens. */
  lemma LexPunctuation(w: seq<char>, c: char, rest: seq<char>)
    requires AllWhitespace(w) && (c == ':' || c == ',')
    ensures Lex(w + [c] + rest) == Ok(Lexed(if c == ':' then Colon else Comma, rest))
  {
    var t := [c] + rest;
    assert w + [c] + rest == w + t;
    SkipWsPrefix(w, t);
    assert SkipWs(t) == t by {
      PunctuationIsNotWhitespace();
    }
    assert t[0] == c && t[1..] == rest;
  }

  /** The decimal text of an i32 amount, followed by a non-digit, reads back
      as that Number. */
  lemma LexNumeral(w: seq<char>, n: nat, rest: seq<char>)
    requires AllWhitespace(w) && n <= I32Max
    requires rest == [] || !IsDigit(rest[0])
    ensures Lex(w + NatToString(n) + rest) == Ok(Lexed(Number(n as i32), rest))
  {
    var digits := NatToString(n);
    var t := digits + rest;
    assert w + digits + rest == w + t;
    SkipWsPrefix(w, t);
    DigitsValueOfNatToString(n);
    LexAtDigits(digits, rest);
    assert t[0] == digits[0];
    PunctuationIsNotWhitespace();
    LexAtDispatch(t);
  }

  /** The number case, once the whitespace is gone. */
  lemma LexAtDigits(digits: seq<char>, rest: seq<char>)
    requires |digits| > 0 && AllDigits(digits)
    requires rest == [] || !IsDigit(rest[0])
    ensures (digits + rest)[0] == digits[0]
    ensures ParseDigits(digits).Ok? ==>
              LexNumber(digits + rest) == Ok(Lexed(Number(ParseDigits(digits).value), rest))
    ensures ParseDigits(digits).Err? ==> LexNumber(digits + rest) == Err(OverflowPanic)
  {
    var t := digits + rest;
    RunOfPrefix(digits, rest, IsDigit);
    assert t[..|digits|] == digits && t[|digits|..] == rest;
  }

  /** A word followed by something that cannot continue it reads back as the
      keyword when it is `section`, and as that Identifier otherwise. */
  lemma LexName(w: seq<char>, x: string, rest: seq<char>)
    requires AllWhitespace(w) && IsName(x)
    requires rest == [] || !IsAlphanumeric(rest[0])
    ensures Lex(w + x + rest) == Ok(Lexed(if x == Keyword then SectionKeyword else Identifier(x), rest))
  {
    var t := x + rest;
    assert w + x + rest == w + t;
    SkipWsPrefix(w, t);
    CharacterClasses();
    assert t[0] == x[0];
    RunOfPrefix(x, rest, IsAlphanumeric);
    assert t[..|x|] == x && t[|x|..] == rest;
  }

  /** The tokens that successive calls of next_token yield before the first
      Eof, and how that run ends: Ok(()) when the next call yields Eof (as
      does every call after it), Err(message) when the next call panics. */
  datatype Stream = Stream(tokens: seq<Token>, end: Result<()>)

  /** `xs` lexed in front of the stream `ts`. */
  function Prepend(xs: seq<Token>, ts: Stream): Stream {
    Stream(xs + ts.tokens, ts.end)
  }

  function Tokens(s: seq<char>): Stream
    decreases |s|
  {
    match Lex(s)
    case Err(e) => Stream([], Err(e))
    case Ok(l) =>
      if l.token == Eof then Stream([], Ok(()))
      else
        var more := Tokens(l.rest);
        Stream([l.token] + more.tokens, more.end)
  }

  /** Leading whitespace does not change the stream. */
  lemma TokensSkipWhitespace(w: seq<char>, s: seq<char>)
    requires AllWhitespace(w)
    ensures Tokens(w + s) == Tokens(s)
  {
    LexSkipsWhitespace(w, s);
  }

  /** Input that is all whitespace yields Eof at once, and Eof ever after. */
  lemma TokensOfBlank(w: seq<char>)
    requires AllWhitespace(w)
    ensures Tokens(w) == Stream([], Ok(()))
  {
    EofIffBlank(w);
  }

  lemma TokensName(w: seq<char>, x: string, rest: seq<char>)
    requires AllWhitespace(w) && IsName(x)
    requires rest == [] || !IsAlphanumeric(rest[0])
    ensures Tokens(w + x + rest) == Prepend([if x == Keyword then SectionKeyword else Identifier(x)], Tokens(rest))
  {
    LexName(w, x, rest);
  }

  lemma TokensPunctuation(w: seq<char>, c: char, rest: seq<char>)
    requires AllWhitespace(w) && (c == ':' || c == ',')
    ensures Tokens(w + [c] + rest) == Prepend([if c == ':' then Colon else Comma], Tokens(rest))
  {
    LexPunctuation(w, c, rest);
  }

  lemma TokensNumeral(w: seq<char>, n: nat, rest: seq<char>)
    requires AllWhitespace(w) && n <= I32Max
    requires rest == [] || !IsDigit(rest[0])
    ensures Tokens(w + NatToString(n) + rest) == Prepend([Number(n as i32)], Tokens(rest))
  {
    LexNumeral(w, n, rest);
  }

  /** The step a call of next_token took, given what it returned and the
      input left after it; on an error the cursor no longer matters. */
  function Emitted(r: Result<Token>, rest: seq<char>): Result<Lexed> {
    match r
    case Ok(token) => Ok(Lexed(token, rest))
    case Err(e) => Err(e)
  }

  /** The lexer object: the input and a cursor into it. */
  class Lexer {
    const input: seq<char>
    var position: nat

    ghost predicate Valid()
      reads this
    {
      position <= |input|
    }

    /** The input still ahead of the cursor. */
    ghost function Remaining(): seq<char>
      reads this
      requires Valid()
    {
      input[position..]
    }

    constructor (text: string)
      ensures Valid() && input == text && position == 0
    {
      input := text;
      position := 0;
    }

    method NextToken() returns (r: Result<Token>)
      requires Valid()
      modifies this
      ensures Valid() && Lex(old(Remaining())) == Emitted(r, Remaining())
    {
      SkipWhitespace();
      ghost var t := Remaining();
      if position >= |input| {
        return Ok(Eof);
      }
      var c := input[position];
      if c == ':' {
        position := position + 1;
        return Ok(Colon);
      } else if c == ',' {
        position := position + 1;
        return Ok(Comma);
      } else if IsDigit(c) {
        assert LexAt(t) == LexNumber(t);
        r := ReadNumber();
      } else if IsAlpha(c) {
        assert LexAt(t) == Ok(LexWord(t));
        r := ReadWord();
      } else {
        return Err(Unexpected(c));
      }
    }

    /** The digit branch of next_token: the run of digits at the cursor, read
        as an i32. */
    method ReadNumber() returns (r: Result<Token>)
      requires Valid() && position < |input| && IsDigit(input[position])
      modifies this
      ensures Valid() && LexNumber(old(Remaining())) == Emitted(r, Remaining())
    {
      var start := position;
      ScanDigits();
      var parsed := ParseDigits(input[start..position]);
      if parsed.Err? {
        return Err(parsed.error);
      }
      return Ok(Number(parsed.value));
    }

    /** The letter branch of next_token: the run of letters and digits at the
        cursor, which is the keyword or an identifier. */
    method ReadWord() returns (r: Result<Token>)
      requires Valid() && position < |input| && IsAlpha(input[position])
      modifies this
      ensures Valid() && Ok(LexWord(old(Remaining()))) == Emitted(r, Remaining())
    {
      var start := position;
      ScanWord();
      var word := input[start..position];
      if word == Keyword {
        return Ok(SectionKeyword);
      }
      return Ok(Identifier(word));
    }

    /** The digit loop of next_token: moves the cursor past the maximal digit run. */
    method ScanDigits()
      requires Valid()
      modifies this
      ensures Valid() && position == old(position) + Run(old(Remaining()), IsDigit)
      ensures input[old(position)..position] == old(Remaining())[..position - old(position)]
      ensures Remaining() == old(Remaining())[position - old(position)..]
    {
      ghost var t := Remaining();
      ghost var start := position;
      while position < |input| && IsDigit(input[position])
        invariant start <= position <= |input|
        invariant Run(t, IsDigit) == (position - start) + Run(input[position..], IsDigit)
      {
        assert input[position..][1..] == input[position + 1..];
        position := position + 1;
      }
      assert Run(input[position..], IsDigit) == 0;
    }

    /** The word loop of next_token: moves the cursor past the maximal run of
        letters and digits. */
    method ScanWord()
      requires Valid()
      modifies this
      ensures Valid() && position == old(position) + Run(old(Remaining()), IsAlphanumeric)
      ensures input[old(position)..position] == old(Remaining())[..position - old(position)]
      ensures Remaining() == old(Remaining())[position - old(position)..]
    {
      ghost var t := Remaining();
      ghost var start := position;
      while position < |input| && IsAlphanumeric(input[position])
        invariant start <= position <= |input|
        invariant Run(t, IsAlphanumeric) == (position - start) + Run(input[position..], IsAlphanumeric)
      {
        assert input[position..][1..] == input[position + 1..];
        position := position + 1;
      }
      assert Run(input[position..], IsAlphanumeric) == 0;
    }

    method SkipWhitespace()
      requires Valid()
      modifies this
      ensures Valid() && Remaining() == SkipWs(old(Remaining()))
    {
      while position < |input| && IsWhitespace(input[position])
        invariant old(position) <= position <= |input|
        invariant SkipWs(input[old(position)..]) == SkipWs(input[position..])
      {
        assert input[position..][0] == input[position] && input[position..][1..] == input[position + 1..];
        position := position + 1;
      }
    }
  }
}
