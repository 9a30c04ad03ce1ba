/** The scanner's behaviour as pure functions over the source text: one lexeme
    at a time (`ScanStep`) and the whole pass (`Scan`). The imperative `Scanner`
    class is proved to follow these functions exactly. The properties of the
    scanner (one final end-of-input token, line counting, maximal munch, the
    shape of every lexeme, stopping at the first error) are proved about them
    in `ScanProperties` and `ScanWalks`. */
module Lexing {
  import opened Utils
  import opened Tokens

  /** Number of line breaks in a piece of text, counted from its end. */
  function Newlines(t: string): nat {
    if |t| == 0 then 0 else Newlines(t[..|t| - 1]) + (if t[|t| - 1] == '\n' then 1 else 0)
  }

  /** Extending a piece of the source by one character counts that character. */
  lemma NewlinesExtend(s: string, a: nat, b: nat)
    requires a <= b < |s|
    ensures Newlines(s[a..b + 1]) == Newlines(s[a..b]) + (if s[b] == '\n' then 1 else 0)
  {
    assert s[a..b + 1][..b - a] == s[a..b];
  }

  /** The count of line breaks adds up over concatenation. */
  lemma {:induction false} NewlinesConcat(a: string, b: string)
    ensures Newlines(a + b) == Newlines(a) + Newlines(b)
    decreases |b|
  {
    if |b| == 0 {
      assert a + b == a;
    } else {
      assert (a + b)[..|a + b| - 1] == a + b[..|b| - 1];
      NewlinesConcat(a, b[..|b| - 1]);
    }
  }

  /** Splitting a piece of the source splits its line breaks. */
  lemma NewlinesSplit(s: string, a: nat, b: nat, c: nat)
    requires a <= b <= c <= |s|
    ensures Newlines(s[a..c]) == Newlines(s[a..b]) + Newlines(s[b..c])
  {
    assert s[a..c] == s[a..b] + s[b..c];
    NewlinesConcat(s[a..b], s[b..c]);
  }

  /** `Newlines` is the number of occurrences of the line break. */
  lemma {:induction false} NewlinesIsCount(t: string)
    ensures Newlines(t) == multiset(t)['\n']
    decreases |t|
  {
    if |t| > 0 {
      var init := t[..|t| - 1];
      assert t == init + [t[|t| - 1]];
      assert multiset(t) == multiset(init) + multiset{t[|t| - 1]};
      NewlinesIsCount(init);
    }
  }

  /** Text without a line break counts none. */
  lemma {:induction false} NoNewlines(t: string)
    requires forall k | 0 <= k < |t| :: t[k] != '\n'
    ensures Newlines(t) == 0
    decreases |t|
  {
    if |t| > 0 {
      NoNewlines(t[..|t| - 1]);
    }
  }

  predicate NotNewline(c: char) {
    c != '\n'
  }

  predicate NotQuote(c: char) {
    c != '"'
  }

  /** End of the longest run of characters satisfying `p` that starts at `i`. */
  function RunEnd(s: string, i: nat, p: char -> bool): (j: nat)
    requires i <= |s|
    ensures i <= j <= |s|
    ensures forall k | i <= k < j :: p(s[k])
    ensures j == |s| || !p(s[j])
    decreases |s| - i
  {
    if i == |s| || !p(s[i]) then i else RunEnd(s, i + 1, p)
  }

  /** `RunEnd` is the first position from `i` on whose character fails `p`. */
  lemma {:induction false} RunEndAt(s: string, i: nat, j: nat, p: char -> bool)
    requires i <= j <= |s|
    requires forall k | i <= k < j :: p(s[k])
    requires j == |s| || !p(s[j])
    ensures RunEnd(s, i, p) == j
    decreases j - i
  {
    if i < j {
      RunEndAt(s, i + 1, j, p);
    }
  }

  /** Where the number scanner stops once the first digit, before `i`, is taken:
      the rest of the integer part, then `.` and the fraction only when a digit
      follows the `.`. */
  function NumberEnd(s: string, i: nat): (j: nat)
    requires i <= |s|
    ensures i <= j <= |s|
  {
    var j := RunEnd(s, i, IsDigit);
    if j + 1 < |s| && s[j] == '.' && IsDigit(s[j + 1]) then RunEnd(s, j + 1, IsDigit) else j
  }

  /** Message of the error for a character that starts no lexeme. */
  function UnexpectedCharacter(c: char): string {
    "Unexpected character '" + [c] + "'"
  }

  const UnterminatedString: string := "Unterminated string"

  /** What scanning one lexeme does: it adds a token, adds nothing (whitespace,
      newline, comment), or fails with a message. */
  datatype Outcome = Emit(token: Token) | Skip | Fail(message: string)

  /** One lexeme: the cursor and the line counter after it, and its outcome. */
  datatype Step = Step(next: nat, line: nat, outcome: Outcome)

  /** The tokens an outcome adds: one for `Emit`, none otherwise. */
  function Emitted(o: Outcome): seq<Token> {
    if o.Emit? then [o.token] else []
  }

  /** What `scan_token` returns for an outcome. */
  function StatusOf(o: Outcome): Result<()> {
    if o.Fail? then Err(o.message) else Ok(())
  }

  function Single(s: string, i: nat, l: nat, k: TokenType): Step
    requires i < |s|
  {
    Step(i + 1, l, Emit(Token(k, s[i..i + 1], None, l)))
  }

  /** `!`, `=`, `<` or `>`, and the two-character form when `=` follows. */
  function WithEqual(s: string, i: nat, l: nat, one: TokenType, two: TokenType): Step
    requires i < |s|
  {
    if i + 1 < |s| && s[i + 1] == '=' then Step(i + 2, l, Emit(Token(two, s[i..i + 2], None, l)))
    else Single(s, i, l, one)
  }

  /** The lexeme that starts at `i` (which is not the end of the source) when
      the line counter is `l`. */
  function ScanStep(s: string, i: nat, l: nat): (st: Step)
    requires i < |s|
    ensures i < st.next <= |s|
    ensures l <= st.line
  {
    match s[i]
    case '(' => Single(s, i, l, LeftParen)
    case ')' => Single(s, i, l, RightParen)
    case '{' => Single(s, i, l, LeftBrace)
    case '}' => Single(s, i, l, RightBrace)
    case ',' => Single(s, i, l, Comma)
    case '.' => Single(s, i, l, Dot)
    case '-' => Single(s, i, l, Minus)
    case '+' => Single(s, i, l, Plus)
    case ';' => Single(s, i, l, Semicolon)
    case '*' => Single(s, i, l, Star)
    case '!' => WithEqual(s, i, l, Bang, BangEqual)
    case '=' => WithEqual(s, i, l, Equal, EqualEqual)
    case '<' => WithEqual(s, i, l, Less, LessEqual)
    case '>' => WithEqual(s, i, l, Greater, GreaterEqual)
    case '/' =>
      if i + 1 < |s| && s[i + 1] == '/' then Step(RunEnd(s, i + 2, NotNewline), l, Skip)
      else Single(s, i, l, Slash)
    case ' ' | '\r' | '\t' => Step(i + 1, l, Skip)
    case '\n' => Step(i + 1, l + 1, Skip)
    case '"' => StringStep(s, i, l)
    case c =>
      if IsDigit(c) then NumberStep(s, i, l)
      else if IsAlpha(c) then WordStep(s, i, l)
      else Step(i + 1, l, Fail(UnexpectedCharacter(c)))
  }

  /** A string literal whose opening quote is at `i`. */
  function StringStep(s: string, i: nat, l: nat): (st: Step)
    requires i < |s|
    ensures i < st.next <= |s| && l <= st.line
  {
    var q := RunEnd(s, i + 1, NotQuote);
    var l' := l + Newlines(s[i + 1..q]);
    if q == |s| then Step(q, l', Fail(UnterminatedString))
    else Step(q + 1, l', Emit(Token(String, s[i..q + 1], Some(s[i + 1..q]), l')))
  }

  /** A number whose first digit is at `i`. */
  function NumberStep(s: string, i: nat, l: nat): (st: Step)
    requires i < |s|
    ensures i < st.next <= |s| && st.line == l
  {
    var j := NumberEnd(s, i + 1);
    Step(j, l, Emit(Token(Number, s[i..j], Some(s[i..j]), l)))
  }

  /** An identifier or keyword whose first letter is at `i`. */
  function WordStep(s: string, i: nat, l: nat): (st: Step)
    requires i < |s|
    ensures i < st.next <= |s| && st.line == l
  {
    var j := RunEnd(s, i + 1, IsAlphanumeric);
    Step(j, l, Emit(Token(KeywordKind(s[i..j]), s[i..j], None, l)))
  }

  /** Result of a whole pass: the tokens added, the final cursor and line
      counter, and whether the pass succeeded. */
  datatype Scanned = Scanned(tokens: seq<Token>, next: nat, line: nat, status: Result<()>)

  /** `scan_tokens` from cursor `i` and line `l`: lexemes one after another until
      the end, then the end-of-input token; the first failing lexeme ends the
      pass with its message and without an end-of-input token. */
  function Scan(s: string, i: nat, l: nat): Scanned
    requires i <= |s|
    decreases |s| - i
  {
    if i == |s| then Scanned([Token(Eof, "", None, l)], i, l, Ok(()))
    else
      var st := ScanStep(s, i, l);
      match st.outcome
      case Fail(m) => Scanned([], st.next, st.line, Err(m))
      case Skip => Scan(s, st.next, st.line)
      case Emit(t) =>
        var rest := Scan(s, st.next, st.line);
        rest.(tokens := [t] + rest.tokens)
  }

  /** The `scan_tokens` loop as it runs: each token is appended to the tokens
      already there, `acc`. */
  function ScanInto(s: string, i: nat, l: nat, acc: seq<Token>): Scanned
    requires i <= |s|
    decreases |s| - i
  {
    if i == |s| then Scanned(acc + [Token(Eof, "", None, l)], i, l, Ok(()))
    else
      var st := ScanStep(s, i, l);
      match st.outcome
      case Fail(m) => Scanned(acc, st.next, st.line, Err(m))
      case Skip => ScanInto(s, st.next, st.line, acc)
      case Emit(t) => ScanInto(s, st.next, st.line, acc + [t])
  }

  /** One turn of the `scan_tokens` loop. */
  lemma ScanIntoStep(s: string, i: nat, l: nat, acc: seq<Token>)
    requires i < |s|
    ensures var st := ScanStep(s, i, l);
      ScanInto(s, i, l, acc) ==
        if st.outcome.Fail? then Scanned(acc, st.next, st.line, Err(st.outcome.message))
        else ScanInto(s, st.next, st.line, acc + Emitted(st.outcome))
  {
    assert acc + [] == acc;
  }

  /** Appending while scanning is scanning, then appending. */
  lemma {:induction false} ScanIntoAppends(s: string, i: nat, l: nat, acc: seq<Token>)
    requires i <= |s|
    ensures ScanInto(s, i, l, acc) == Scan(s, i, l).(tokens := acc + Scan(s, i, l).tokens)
    decreases |s| - i
  {
    if i < |s| {
      var st := ScanStep(s, i, l);
      match st.outcome
      case Fail(_) =>
        assert acc + [] == acc;
      case Skip =>
        ScanIntoAppends(s, st.next, st.line, acc);
      case Emit(t) =>
        ScanIntoAppends(s, st.next, st.line, acc + [t]);
        assert acc + [t] + Scan(s, st.next, st.line).tokens == acc + ([t] + Scan(s, st.next, st.line).tokens);
    }
  }

  /** A run of digits, continued as `number` continues it, is a well-formed
      decimal literal. */
  lemma DecimalLiteralOfNumber(s: string, from: nat, i: nat)
    requires from < i <= |s| && AllDigits(s[from..i])
    ensures i <= NumberEnd(s, i) <= |s|
    ensures IsDecimalLiteral(s[from..NumberEnd(s, i)])
  {
    var j := RunEnd(s, i, IsDigit);
    assert AllDigits(s[from..j]) by {
      forall k | 0 <= k < j - from
        ensures IsDigit(s[from..j][k])
      {
        if from + k < i {
          assert s[from..i][k] == s[from + k];
        }
      }
    }
    if j + 1 < |s| && s[j] == '.' && IsDigit(s[j + 1]) {
      var e := RunEnd(s, j + 1, IsDigit);
      var t := s[from..e];
      assert t[..j - from] == s[from..j];
      assert t[j - from + 1..] == s[j + 1..e];
      assert t[j - from] == '.' && AllDigits(t[..j - from]) && AllDigits(t[j - from + 1..]);
    }
  }
}
