/** The lexer of the current toolchain: it turns the source text into Colon,
    Comma, Number, Identifier and Eof tokens, one token per call. */
module CompilerLexer {
  import opened Text

  datatype Token = Colon | Identifier(name: string) | Number(n: i32) | Comma | Eof

  /** A token and the input that follows it. */
  datatype Lexed = Lexed(token: Token, rest: seq<char>)

  /** Characters that may continue an identifier: anything but whitespace, ':' and ','. */
  predicate IsIdentChar(c: char) { !IsWhitespace(c) && c != ':' && c != ',' }

  predicate IsSuffix(a: seq<char>, b: seq<char>) {
    |a| <= |b| && a == b[|b| - |a|..]
  }

  /** A text the lexer reads back as a single Identifier: non-empty, made of
      identifier characters, and not starting with a digit. */
  predicate IsWord(w: string) {
    |w| > 0 && !IsDigit(w[0]) && forall i | 0 <= i < |w| :: IsIdentChar(w[i])
  }

  /** A printable ASCII text without ':' or ',' that does not start with a
      digit is a word. */
  lemma GraphicWord(w: string)
    requires |w| > 0 && !IsDigit(w[0])
    requires forall i | 0 <= i < |w| :: '!' <= w[i] <= '~' && w[i] != ':' && w[i] != ','
    ensures IsWord(w)
  {
    GraphicIsNotWhitespace();
  }

  /** A maximal digit run at the head of `t`, read as an i32. */
  function LexNumber(t: seq<char>): (r: Result<Lexed>)
    requires t != [] && IsDigit(t[0])
    ensures r.Ok? ==> |r.value.rest| < |t|
  {
    var n := Run(t, IsDigit);
    var v :- ParseDigits(t[..n]);
    Ok(Lexed(Number(v), t[n..]))
  }

  /** A maximal run of identifier characters at the head of `t`. */
  function LexIdentifier(t: seq<char>): (r: Lexed)
    requires t != [] && IsIdentChar(t[0])
    ensures |r.rest| < |t|
  {
    var n := Run(t, IsIdentChar);
    Lexed(Identifier(t[..n]), t[n..])
  }

  /** The token at the head of `t`, which starts with no whitespace. */
  function LexAt(t: seq<char>): (r: Result<Lexed>)
    requires t == [] || !IsWhitespace(t[0])
    ensures r.Ok? && r.value.token != Eof ==> |r.value.rest| < |t|
    ensures r.Ok? && r.value.token == Eof ==> r.value.rest == [] == t
  {
    if |t| == 0 then Ok(Lexed(Eof, t))
    else
      var c := t[0];
      if c == ':' then Ok(Lexed(Colon, t[1..]))
      else if c == ',' then Ok(Lexed(Comma, t[1..]))
      else if IsDigit(c) then LexNumber(t)
      else if !IsWhitespace(c) then Ok(LexIdentifier(t))
      else Err("Unexpected character: " + [c])
  }

  /** What one call of next_token yields on the input still ahead of the
      cursor: whitespace is skipped, then one token is read. Every token
      but Eof consumes input, so repeated calls end. */
  function Lex(s: seq<char>): (r: Result<Lexed>)
    ensures r.Ok? && r.value.token != Eof ==> |r.value.rest| < |s|
    ensures r.Ok? && r.value.token == Eof ==> r.value.rest == []
  {
    LexAt(SkipWs(s))
  }

  /** What a token is made of: the input after it is a suffix of the input;
      a Number is the maximal digit run and never negative; an Identifier is
      a word, the maximal run of identifier characters. */
  lemma LexedShape(s: seq<char>)
    requires Lex(s).Ok?
    ensures IsSuffix(Lex(s).value.rest, s)
    ensures Lex(s).value.token.Number? ==>
              Lex(s).value.token.n >= 0 && (Lex(s).value.rest == [] || !IsDigit(Lex(s).value.rest[0]))
    ensures Lex(s).value.token.Identifier? ==>
              IsWord(Lex(s).value.token.name) && (Lex(s).value.rest == [] || !IsIdentChar(Lex(s).value.rest[0]))
  {
    var t := SkipWs(s);
    SkipWsSuffix(s);
    var l := Lex(s).value;
    if t != [] && (t[0] == ':' || t[0] == ',') {
      assert l.rest == t[1..];
    } else if t != [] && IsDigit(t[0]) {
      var n := Run(t, IsDigit);
      assert l.rest == t[n..];
    } else if t != [] {
      var n := Run(t, IsIdentChar);
      assert l.rest == t[n..];
      assert l.token.name == t[..n];
    }
  }

  /** How next_token dispatches on the first character after the whitespace. */
  lemma LexAtDispatch(t: seq<char>)
    requires t != []
    ensures IsDigit(t[0]) ==> LexAt(t) == LexNumber(t)
    ensures IsIdentChar(t[0]) && !IsDigit(t[0]) ==> LexAt(t) == Ok(LexIdentifier(t))
  {
    PunctuationIsNotWhitespace();
  }

  /** Leading whitespace never changes the next token. */
  lemma LexSkipsWhitespace(w: seq<char>, s: seq<char>)
    requires AllWhitespace(w)
    ensures Lex(w + s) == Lex(s)
  {
    SkipWsPrefix(w, s);
  }

  /** The lexer reports Eof exactly when only whitespace is left, and once it
      has, it keeps reporting Eof with nothing left to read. */
  lemma EofIffBlank(s: seq<char>)
    ensures Lex(s).Ok? && Lex(s).value.token == Eof <==> AllWhitespace(s)
    ensures AllWhitespace(s) ==> Lex(s) == Ok(Lexed(Eof, [])) && Lex(Lex(s).value.rest) == Lex(s)
  {
    var t := SkipWs(s);
    if AllWhitespace(s) {
      assert s + [] == s;
      SkipWsPrefix(s, []);
      assert t == [];
    }
    if t == [] {
      SkipWsSuffix(s);
      assert s[..|s|] == s;
    }
  }

  /** ':' and ',' are one-character tokens. */
  lemma LexPunctuation(w: seq<char>, c: char, rest: seq<char>)
    requires AllWhitespace(w) && (c == ':' || c == ',')
    ensures Lex(w + [c] + rest) == Ok(Lexed(if c == ':' then Colon else Comma, rest))
  {
    var t := [c] + rest;
    assert w + [c] + rest == w + t;
    SkipWsPrefix(w, t);
    assert SkipWs(t) == t by {
      PunctuationIsNotWhitespace();
    }
    assert t[0] == c && t[1..] == rest;
  }

  /** A maximal digit run is read as one Number when its value fits in an
      i32, and stops the lexer with the unwrap panic when it does not. */
  lemma LexDigits(w: seq<char>, digits: seq<char>, rest: seq<char>)
    requires AllWhitespace(w) && |digits| > 0 && AllDigits(digits)
    requires rest == [] || !IsDigit(rest[0])
    ensures ParseDigits(digits).Ok? ==>
              Lex(w + digits + rest) == Ok(Lexed(Number(ParseDigits(digits).value), rest))
    ensures ParseDigits(digits).Err? ==> Lex(w + digits + rest) == Err(OverflowPanic)
  {
    var t := digits + rest;
    assert Lex(w + digits + rest) == LexAt(t) by {
      assert w + digits + rest == w + t;
      SkipWsPrefix(w, t);
      assert t[0] == digits[0];
      PunctuationIsNotWhitespace();
    }
    assert LexAt(t) == LexNumber(t) by {
      assert t[0] == digits[0];
      LexAtDispatch(t);
    }
    LexAtDigits(digits, rest);
    assert t == digits + rest;
  }

  /** The number case of LexDigits, once the whitespace is gone. */
  lemma LexAtDigits(digits: seq<char>, rest: seq<char>)
    requires |digits| > 0 && AllDigits(digits)
    requires rest == [] || !IsDigit(rest[0])
    ensures (digits + rest)[0] == digits[0]
    ensures ParseDigits(digits).Ok? ==>
              LexNumber(digits + rest) == Ok(Lexed(Number(ParseDigits(digits).value), rest))
    ensures ParseDigits(digits).Err? ==> LexNumber(digits + rest) == Err(OverflowPanic)
  {
    var t := digits + rest;
    RunOfPrefix(digits, rest, IsDigit);
    assert t[..|digits|] == digits && t[|digits|..] == rest;
  }

  /** The decimal text of an i32 amount, followed by a non-digit, reads back as
      that Number. */
  lemma LexNumeral(w: seq<char>, n: nat, rest: seq<char>)
    requires AllWhitespace(w) && n <= I32Max
    requires rest == [] || !IsDigit(rest[0])
    ensures Lex(w + NatToString(n) + rest) == Ok(Lexed(Number(n as i32), rest))
  {
    DigitsValueOfNatToString(n);
    LexDigits(w, NatToString(n), rest);
  }

  /** A word followed by whitespace, ':', ',' or the end reads back as that
      Identifier. */
  lemma LexWord(w: seq<char>, x: string, rest: seq<char>)
    requires AllWhitespace(w) && IsWord(x)
    requires rest == [] || !IsIdentChar(rest[0])
    ensures Lex(w + x + rest) == Ok(Lexed(Identifier(x), rest))
  {
    var t := x + rest;
    assert w + x + rest == w + t;
    SkipWsPrefix(w, t);
    RunOfPrefix(x, rest, IsIdentChar);
    assert t[..|x|] == x && t[|x|..] == rest;
    LexAtDispatch(t);
  }

  /** The "Unexpected character" panic cannot happen: after whitespace is
      skipped every remaining character starts some token. The only failure
      left is i32 overflow. */
  lemma LexFailsOnlyOnOverflow(s: seq<char>)
    ensures Lex(s).Err? ==> Lex(s).error == OverflowPanic
  {
    var t := SkipWs(s);
    if t != [] && t[0] != ':' && t[0] != ',' && !IsDigit(t[0]) {
      assert !IsWhitespace(t[0]);
    }
  }

  /** The tokens that successive calls of next_token yield before the first
      Eof, and how that run ends: Ok(()) when the next call yields Eof (as
      does every call after it), Err(message) when the next call panics. */
  datatype Stream = Stream(tokens: seq<Token>, end: Result<()>)

  /** `xs` lexed in front of the stream `ts`. */
  function Prepend(xs: seq<Token>, ts: Stream): Stream {
    Stream(xs + ts.tokens, ts.end)
  }

  function Tokens(s: seq<char>): Stream
    decreases |s|
  {
    match Lex(s)
    case Err(e) => Stream([], Err(e))
    case Ok(l) =>
      if l.token == Eof then Stream([], Ok(()))
      else
        var more := Tokens(l.rest);
        Stream([l.token] + more.tokens, more.end)
  }

  /** Leading whitespace does not change the stream. */
  lemma TokensSkipWhitespace(w: seq<char>, s: seq<char>)
    requires AllWhitespace(w)
    ensures Tokens(w + s) == Tokens(s)
  {
    LexSkipsWhitespace(w, s);
  }

  /** Input that is all whitespace yields Eof at once, and Eof ever after. */
  lemma TokensOfBlank(w: seq<char>)
    requires AllWhitespace(w)
    ensures Tokens(w) == Stream([], Ok(()))
  {
    EofIffBlank(w);
  }

  lemma TokensWord(w: seq<char>, x: string, rest: seq<char>)
    requires AllWhitespace(w) && IsWord(x)
    requires rest == [] || !IsIdentChar(rest[0])
    ensures Tokens(w + x + rest) == Prepend([Identifier(x)], Tokens(rest))
  {
    LexWord(w, x, rest);
  }

  lemma TokensPunctuation(w: seq<char>, c: char, rest: seq<char>)
    requires AllWhitespace(w) && (c == ':' || c == ',')
    ensures Tokens(w + [c] + rest) == Prepend([if c == ':' then Colon else Comma], Tokens(rest))
  {
    LexPunctuation(w, c, rest);
  }

  lemma TokensNumeral(w: seq<char>, n: nat, rest: seq<char>)
    requires AllWhitespace(w) && n <= I32Max
    requires rest == [] || !IsDigit(rest[0])
    ensures Tokens(w + NatToString(n) + rest) == Prepend([Number(n as i32)], Tokens(rest))
  {
    LexNumeral(w, n, rest);
  }

  /** The step a call of next_token took, given what it returned and the
      input left after it; on an error the cursor no longer matters. */
  function Emitted(r: Result<Token>, rest: seq<char>): Result<Lexed> {
    match r
    case Ok(token) => Ok(Lexed(token, rest))
    case Err(e) => Err(e)
  }

  /** The lexer object: the characters of the input and a cursor into them. */
  class Lexer {
    const chars: seq<char>
    var position: nat

    ghost predicate Valid()
      reads this
    {
      position <= |chars|
    }

    /** The input still ahead of the cursor. */
    ghost function Remaining(): seq<char>
      reads this
      requires Valid()
    {
      chars[position..]
    }

    constructor (input: string)
      ensures Valid() && chars == input && position == 0
    {
      chars := input;
      position := 0;
    }

    /** The copy that peek_next_token works on. */
    constructor Clone(other: Lexer)
      requires other.Valid()
      ensures Valid() && chars == other.chars && position == other.position
    {
      chars := other.chars;
      position := other.position;
    }

    method NextToken() returns (r: Result<Token>)
      requires Valid()
      modifies this
      ensures Valid() && Lex(old(Remaining())) == Emitted(r, Remaining())
    {
      SkipWhitespace();
      ghost var t := Remaining();
      if position >= |chars| {
        return Ok(Eof);
      }
      var c := chars[position];
      if c == ':' {
        position := position + 1;
        return Ok(Colon);
      } else if c == ',' {
        position := position + 1;
        return Ok(Comma);
      } else if IsDigit(c) {
        assert LexAt(t) == LexNumber(t);
        r := ReadNumber();
      } else if !IsWhitespace(c) {
        assert LexAt(t) == Ok(LexIdentifier(t));
        r := ReadIdentifier();
      } else {
        return Err("Unexpected character: " + [c]);
      }
    }

    /** The digit branch of next_token: the run of digits at the cursor, read
        as an i32. */
    method ReadNumber() returns (r: Result<Token>)
      requires Valid() && position < |chars| && IsDigit(chars[position])
      modifies this
      ensures Valid() && LexNumber(old(Remaining())) == Emitted(r, Remaining())
    {
      var start := position;
      ScanDigits();
      var parsed := ParseDigits(chars[start..position]);
      if parsed.Err? {
        return Err(parsed.error);
      }
      return Ok(Number(parsed.value));
    }

    /** The identifier branch of next_token: the run of identifier characters
        at the cursor. */
    method ReadIdentifier() returns (r: Result<Token>)
      requires Valid() && position < |chars| && IsIdentChar(chars[position])
      modifies this
      ensures Valid() && Ok(LexIdentifier(old(Remaining()))) == Emitted(r, Remaining())
    {
      var start := position;
      ScanIdentifier();
      return Ok(Identifier(chars[start..position]));
    }

    /** The digit loop of next_token: moves the cursor past the maximal digit run. */
    method ScanDigits()
      requires Valid()
      modifies this
      ensures Valid() && position == old(position) + Run(old(Remaining()), IsDigit)
      ensures chars[old(position)..position] == old(Remaining())[..position - old(position)]
      ensures Remaining() == old(Remaining())[position - old(position)..]
    {
      ghost var t := Remaining();
      ghost var start := position;
      while position < |chars| && IsDigit(chars[position])
        invariant start <= position <= |chars|
        invariant Run(t, IsDigit) == (position - start) + Run(chars[position..], IsDigit)
      {
        assert chars[position..][1..] == chars[position + 1..];
        position := position + 1;
      }
      assert Run(chars[position..], IsDigit) == 0;
    }

    /** The identifier loop of next_token: moves the cursor up to the next
        whitespace, ':' or ',' (or the end). */
    method ScanIdentifier()
      requires Valid()
      modifies this
      ensures Valid() && position == old(position) + Run(old(Remaining()), IsIdentChar)
      ensures chars[old(position)..position] == old(Remaining())[..position - old(position)]
      ensures Remaining() == old(Remaining())[position - old(position)..]
    {
      ghost var t := Remaining();
      ghost var start := position;
      while position < |chars|
        invariant start <= position <= |chars|
        invariant Run(t, IsIdentChar) == (position - start) + Run(chars[position..], IsIdentChar)
      {
        var c := chars[position];
        if IsWhitespace(c) || c == ':' || c == ',' {
          assert !IsIdentChar(chars[position..][0]);
          break;
        }
        assert chars[position..][1..] == chars[position + 1..];
        position := position + 1;
      }
      assert Run(chars[position..], IsIdentChar) == 0;
    }

    /** The token the next call of NextToken would give, read from a copy. */
    method PeekNextToken() returns (r: Result<Token>)
      requires Valid()
      ensures Lex(Remaining()).Ok? ==> r == Ok(Lex(Remaining()).value.token)
      ensures Lex(Remaining()).Err? ==> r == Err(Lex(Remaining()).error)
    {
      var copy := new Lexer.Clone(this);
      r := copy.NextToken();
    }

    method SkipWhitespace()
      requires Valid()
      modifies this
      ensures Valid() && Remaining() == SkipWs(old(Remaining()))
    {
      while position < |chars|
        invariant old(position) <= position <= |chars|
        invariant SkipWs(chars[old(position)..]) == SkipWs(chars[position..])
      {
        var c := chars[position];
        if !IsWhitespace(c) {
          break;
        }
        assert chars[position..][0] == c && chars[position..][1..] == chars[position + 1..];
        position := position + 1;
      }
    }
  }
}
