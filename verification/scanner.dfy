/** The Lox scanner as the object it is: the source text, a cursor (`start`,
    `current`), the line counter and the growing token list, all updated in
    place. Every method is proved to do what the pure functions of `Lexing`
    describe, so the properties proved there hold of the object's tokens. */
module Scanning {
  import opened Utils
  import opened Tokens
  import opened Lexing

  class Scanner {
    var tokens: seq<Token>
    const source: string
    var start: nat
    var current: nat
    var line: nat

    /** The cursor never passes the end, and the lexeme start never passes the cursor. */
    ghost predicate Valid()
      reads this
    {
      start <= current <= |source|
    }

    constructor (source: string)
      ensures Valid()
      ensures this.source == source && tokens == []
      ensures start == 0 && current == 0 && line == 1
    {
      this.source := source;
      tokens := [];
      start, current, line := 0, 0, 1;
    }

    /** Scans from the cursor to the end. On success the tokens of every lexeme
        and one end-of-input token are appended; on the first failing lexeme the
        scan stops with its message, keeping the tokens added before it. */
    method ScanTokens() returns (r: Result<()>)
      requires Valid()
      modifies this
      ensures Valid()
      ensures tokens == old(tokens) + Scan(source, old(current), old(line)).tokens
      ensures current == Scan(source, old(current), old(line)).next
      ensures line == Scan(source, old(current), old(line)).line
      ensures r == Scan(source, old(current), old(line)).status
    {
      ScanIntoAppends(source, current, line, tokens);
      while !IsAtEnd()
        invariant Valid()
        invariant ScanInto(source, current, line, tokens) == ScanInto(source, old(current), old(line), old(tokens))
        decreases |source| - current
      {
        start := current;
        ScanIntoStep(source, current, line, tokens);
        var _ :- ScanToken();
      }
      tokens := tokens + [Token(Eof, "", None, line)];
      r := Ok(());
    }

    function IsAtEnd(): (b: bool)
      reads this
      ensures b <==> |source| <= current
    {
      current >= |source|
    }

    /** One lexeme, starting at the cursor. */
    method ScanToken() returns (r: Result<()>)
      requires Valid() && start == current < |source|
      modifies this`current, this`line, this`tokens
      ensures Valid()
      ensures var st := ScanStep(source, old(current), old(line));
        current == st.next && line == st.line &&
        tokens == old(tokens) + Emitted(st.outcome) && r == StatusOf(st.outcome)
    {
      var c := Advance();
      match c {
      case '(' => AddToken(LeftParen);
      case ')' => AddToken(RightParen);
      case '{' => AddToken(LeftBrace);
      case '}' => AddToken(RightBrace);
      case ',' => AddToken(Comma);
      case '.' => AddToken(Dot);
      case '-' => AddToken(Minus);
      case '+' => AddToken(Plus);
      case ';' => AddToken(Semicolon);
      case '*' => AddToken(Star);
      case '!' => AddOperator(Bang, BangEqual);
      case '=' => AddOperator(Equal, EqualEqual);
      case '<' => AddOperator(Less, LessEqual);
      case '>' => AddOperator(Greater, GreaterEqual);
      case '/' =>
        var isComment := NextIs('/');
        if isComment {
          SkipComment();
        } else {
          AddToken(Slash);
        }
      case ' ' | '\r' | '\t' =>
      case '\n' =>
        line := line + 1;
      case '"' =>
        r := AddString();
        return;
      case _ =>
        if IsDigit(c) {
          AddNumber();
        } else if IsAlpha(c) {
          AddWord();
        } else {
          return Error(line, UnexpectedCharacter(c));
        }
      }
      r := Ok(());
    }

    method AddString() returns (r: Result<()>)
      requires Valid() && start + 1 == current
      modifies this`current, this`line, this`tokens
      ensures Valid()
      ensures var st := StringStep(source, start, old(line));
        current == st.next && line == st.line &&
        tokens == old(tokens) + Emitted(st.outcome) && r == StatusOf(st.outcome)
    {
      var literal :- ScanString();
      AddTokenLiteral(String, literal);
      r := Ok(());
    }

    method AddNumber()
      requires Valid() && start + 1 == current && IsDigit(source[start])
      modifies this`current, this`tokens
      ensures Valid()
      ensures var st := NumberStep(source, start, line);
        current == st.next && tokens == old(tokens) + Emitted(st.outcome)
    {
      var literal := ScanNumber();
      AddTokenLiteral(Number, literal);
    }

    method AddWord()
      requires Valid() && start + 1 == current
      modifies this`current, this`tokens
      ensures Valid()
      ensures var st := WordStep(source, start, line);
        current == st.next && tokens == old(tokens) + Emitted(st.outcome)
    {
      var text := ScanIdentifier();
      AddToken(KeywordKind(text));
    }

    /** `!`, `=`, `<` or `>` has just been consumed: the two-character kind when
        `=` follows (consumed too), the one-character kind otherwise. */
    method AddOperator(one: TokenType, two: TokenType)
      requires Valid() && start < current && start + 1 == current
      modifies this`current, this`tokens
      ensures Valid()
      ensures var st := WithEqual(source, start, line, one, two);
        current == st.next && tokens == old(tokens) + [st.outcome.token]
    {
      var isTwo := NextIs('=');
      AddToken(if isTwo then two else one);
    }

    /** The rest of a `//` comment: up to, not including, the next line break
        or the end. It adds no token. */
    method SkipComment()
      requires Valid()
      modifies this`current
      ensures Valid()
      ensures current == RunEnd(source, old(current), NotNewline)
    {
      while Peek() != '\n' && !IsAtEnd()
        invariant Valid() && old(current) <= current
        invariant forall k | old(current) <= k < current :: NotNewline(source[k])
        decreases |source| - current
      {
        var _ := Advance();
      }
      RunEndAt(source, old(current), current, NotNewline);
    }

    /** Consumes one character. Every caller has checked that one is left, so
        the "no character at position" panic cannot happen. */
    method Advance() returns (c: char)
      requires Valid() && current < |source|
      modifies this`current
      ensures Valid()
      ensures current == old(current) + 1 && c == source[old(current)]
    {
      c := source[current];
      current := current + 1;
    }

    /** Appends a token without literal whose lexeme is the current lexeme. */
    method AddToken(tokenType: TokenType)
      requires Valid()
      modifies this`tokens
      ensures tokens == old(tokens) + [Token(tokenType, source[start..current], None, line)]
    {
      tokens := tokens + [Token(tokenType, TokenText(), None, line)];
    }

    function Substring(from: nat, to: nat): (t: string)
      requires from <= to <= |source|
      ensures |t| == to - from
      ensures forall k | from <= k < to :: t[k - from] == source[k]
    {
      source[from..to]
    }

    /** The current lexeme: from `start` up to, not including, the cursor. */
    function TokenText(): (t: string)
      reads this
      requires Valid()
      ensures t == source[start..current]
    {
      Substring(start, current)
    }

    method AddTokenLiteral(tokenType: TokenType, literal: string)
      requires Valid()
      modifies this`tokens
      ensures tokens == old(tokens) + [Token(tokenType, source[start..current], Some(literal), line)]
    {
      var text := source[start..current];
      tokens := tokens + [Token(tokenType, text, Some(literal), line)];
    }

    /** Consumes the next character only when it is `expected`. */
    method NextIs(expected: char) returns (b: bool)
      requires Valid()
      modifies this`current
      ensures Valid()
      ensures b <==> old(current) < |source| && source[old(current)] == expected
      ensures current == if b then old(current) + 1 else old(current)
    {
      if IsAtEnd() {
        return false;
      }
      if source[current] != expected {
        return false;
      }
      current := current + 1;
      return true;
    }

    /** The character at the cursor, or the sentinel `'\0'` at the end. */
    function Peek(): (c: char)
      reads this
      requires Valid()
      ensures current < |source| ==> c == source[current]
      ensures current == |source| ==> c == '\0'
    {
      if IsAtEnd() then '\0' else source[current]
    }

    /** The character `n` places after the cursor, or `'\0'` past the end. */
    function PeekN(n: nat): (c: char)
      reads this
      ensures current + n < |source| ==> c == source[current + n]
      ensures current + n >= |source| ==> c == '\0'
    {
      if current + n >= |source| then '\0' else source[current + n]
    }

    /** The body of a string literal, after its opening quote: everything up to
        the closing quote, counting the line breaks inside. The literal is the
        text between the quotes; without a closing quote the scan fails at the end. */
    method ScanString() returns (r: Result<string>)
      requires Valid() && start < current
      modifies this`current, this`line
      ensures Valid()
      ensures var q := RunEnd(source, old(current), NotQuote);
        line == old(line) + Newlines(source[old(current)..q]) &&
        if q == |source| then current == q && r == Err(UnterminatedString)
        else current == q + 1 && r == Ok(source[start + 1..q])
    {
      while Peek() != '"' && !IsAtEnd()
        invariant Valid() && old(current) <= current
        invariant forall k | old(current) <= k < current :: NotQuote(source[k])
        invariant line == old(line) + Newlines(source[old(current)..current])
        decreases |source| - current
      {
        if Peek() == '\n' {
          line := line + 1;
        }
        NewlinesExtend(source, old(current), current);
        var _ := Advance();
      }
      RunEndAt(source, old(current), current, NotQuote);
      if IsAtEnd() {
        return Error(line, UnterminatedString);
      }
      var _ := Advance();
      var out := Substring(start + 1, current - 1);
      return Ok(out);
    }

    /** The rest of a number whose digits so far are `source[start..current]`.
        The text is always a well-formed decimal literal, so the `f64` parse
        that the scanner performs cannot fail and its panic cannot happen. */
    method ScanNumber() returns (literal: string)
      requires Valid() && start < current
      requires AllDigits(source[start..current])
      modifies this`current
      ensures Valid()
      ensures current == NumberEnd(source, old(current))
      ensures literal == source[start..current] && IsDecimalLiteral(literal)
    {
      SkipDigits();
      ghost var integerEnd := current;
      if Peek() == '.' && IsDigit(PeekN(1)) {
        var _ := Advance();
        SkipDigits();
        assert current == RunEnd(source, integerEnd + 1, IsDigit);
      }
      literal := TokenText();
      DecimalLiteralOfNumber(source, start, old(current));
    }

    /** A run of digits: the integer part of a number, or its fraction. */
    method SkipDigits()
      requires Valid()
      modifies this`current
      ensures Valid()
      ensures current == RunEnd(source, old(current), IsDigit)
    {
      while IsDigit(Peek())
        invariant Valid() && old(current) <= current
        invariant forall k | old(current) <= k < current :: IsDigit(source[k])
        decreases |source| - current
      {
        var _ := Advance();
      }
      RunEndAt(source, old(current), current, IsDigit);
    }

    /** The rest of an identifier: letters, digits and underscores. */
    method ScanIdentifier() returns (text: string)
      requires Valid()
      modifies this`current
      ensures Valid()
      ensures current == RunEnd(source, old(current), IsAlphanumeric)
      ensures text == source[start..current]
    {
      while IsAlphanumeric(Peek())
        invariant Valid() && old(current) <= current
        invariant forall k | old(current) <= k < current :: IsAlphanumeric(source[k])
        decreases |source| - current
      {
        var _ := Advance();
      }
      RunEndAt(source, old(current), current, IsAlphanumeric);
      text := TokenText();
    }
  }
}
