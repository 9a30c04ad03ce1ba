/** What the scanner promises, proved about the pure description in `Lexing`:
    lexeme by lexeme (operators, comments, strings, numbers, words, errors) and
    for a whole pass (one final end-of-input token, stop at the first error,
    line counting, where every lexeme lies in the source). Since the
    `Scanner` class is proved to produce exactly `Scan`'s tokens, all of this
    holds of the object's `tokens` too. */
module ScanProperties {
  import opened Utils
  import opened Tokens
  import opened Lexing

  /** The characters that start some lexeme; every other one is an error. */
  predicate StartsLexeme(c: char) {
    c in "(){},.-+;*!=<>/ \r\t\n\"" || IsDigit(c) || IsAlpha(c)
  }

  /** Inside one lexeme other than a string or a line break, no line break is consumed. */
  lemma StepNoNewline(s: string, i: nat, l: nat)
    requires i < |s| && s[i] != '\n' && s[i] != '"'
    ensures forall k | i <= k < ScanStep(s, i, l).next :: s[k] != '\n'
    ensures ScanStep(s, i, l).line == l
  {
  }

  /** The line counter after a lexeme has risen by the line breaks it consumed. */
  lemma StepLine(s: string, i: nat, l: nat)
    requires i < |s|
    ensures var st := ScanStep(s, i, l); st.line == l + Newlines(s[i..st.next])
  {
    var st := ScanStep(s, i, l);
    if s[i] == '\n' {
      assert s[i..i + 1][..0] == [];
    } else if s[i] == '"' {
      var q := RunEnd(s, i + 1, NotQuote);
      NewlinesSplit(s, i, i + 1, q);
      assert s[i..i + 1][..0] == [];
      if q < |s| {
        NewlinesExtend(s, i, q);
      }
    } else {
      StepNoNewline(s, i, l);
      NoNewlines(s[i..st.next]);
    }
  }

  /** A token added for the lexeme at `i` is well formed, is not the
      end-of-input token, spells exactly the consumed text, and carries the
      line counter as it is after the lexeme. */
  predicate TokenFits(s: string, i: nat, st: Step)
    requires i <= st.next <= |s|
  {
    st.outcome.Emit? ==>
      var t := st.outcome.token;
      t.tokenType != Eof && t.lexeme == s[i..st.next] && t.line == st.line && WellFormed(t)
  }

  /** A quote with another quote after it opens a string that is closed. */
  lemma ClosedString(s: string, i: nat, l: nat)
    requires i < |s| && s[i] == '"'
    ensures (exists q | i < q < |s| :: s[q] == '"') ==>
      StringStep(s, i, l).outcome.Emit? && StringStep(s, i, l).outcome.token.tokenType == String
  {
    if p :| i < p < |s| && s[p] == '"' {
      assert !NotQuote(s[p]);
      assert RunEnd(s, i + 1, NotQuote) <= p;
    }
  }

  lemma StringToken(s: string, i: nat, l: nat)
    requires i < |s| && s[i] == '"'
    ensures TokenFits(s, i, StringStep(s, i, l))
    ensures (exists q | i < q < |s| :: s[q] == '"') ==>
      StringStep(s, i, l).outcome.Emit? && StringStep(s, i, l).outcome.token.tokenType == String
  {
    ClosedString(s, i, l);
    var q := RunEnd(s, i + 1, NotQuote);
    if q < |s| {
      var t := s[i..q + 1];
      assert |t| == q + 1 - i;
      assert t[1..|t| - 1] == s[i + 1..q];
      assert forall k | 0 < k < |t| - 1 :: t[k] == s[i + k];
    }
  }

  lemma NumberToken(s: string, i: nat, l: nat)
    requires i < |s| && IsDigit(s[i])
    ensures TokenFits(s, i, NumberStep(s, i, l))
  {
    DecimalLiteralOfNumber(s, i, i + 1);
  }

  lemma WordToken(s: string, i: nat, l: nat)
    requires i < |s| && IsAlpha(s[i])
    ensures TokenFits(s, i, WordStep(s, i, l))
  {
    var j := RunEnd(s, i + 1, IsAlphanumeric);
    var t := s[i..j];
    assert forall k | 1 <= k < |t| :: t[k] == s[i + k];
  }

  lemma SingleToken(s: string, i: nat, l: nat, k: TokenType)
    requires i < |s| && k != Eof && FixedLexeme(k) == Some([s[i]])
    requires k !in {String, Number, Identifier}
    ensures TokenFits(s, i, Single(s, i, l, k))
  {
    assert s[i..i + 1] == [s[i]];
  }

  lemma OperatorToken(s: string, i: nat, l: nat, one: TokenType, two: TokenType)
    requires i < |s| && FixedLexeme(one) == Some([s[i]]) && FixedLexeme(two) == Some([s[i], '='])
    requires one !in {String, Number, Identifier, Eof} && two !in {String, Number, Identifier, Eof}
    ensures TokenFits(s, i, WithEqual(s, i, l, one, two))
  {
    assert s[i..i + 1] == [s[i]];
    if i + 1 < |s| {
      assert s[i..i + 2] == [s[i], s[i + 1]];
    }
  }

  lemma StepToken(s: string, i: nat, l: nat)
    requires i < |s|
    ensures TokenFits(s, i, ScanStep(s, i, l))
  {
    match s[i]
    case '(' => SingleToken(s, i, l, LeftParen);
    case ')' => SingleToken(s, i, l, RightParen);
    case '{' => SingleToken(s, i, l, LeftBrace);
    case '}' => SingleToken(s, i, l, RightBrace);
    case ',' => SingleToken(s, i, l, Comma);
    case '.' => SingleToken(s, i, l, Dot);
    case '-' => SingleToken(s, i, l, Minus);
    case '+' => SingleToken(s, i, l, Plus);
    case ';' => SingleToken(s, i, l, Semicolon);
    case '*' => SingleToken(s, i, l, Star);
    case '!' => OperatorToken(s, i, l, Bang, BangEqual);
    case '=' => OperatorToken(s, i, l, Equal, EqualEqual);
    case '<' => OperatorToken(s, i, l, Less, LessEqual);
    case '>' => OperatorToken(s, i, l, Greater, GreaterEqual);
    case '/' => SingleToken(s, i, l, Slash);
    case ' ' | '\r' | '\t' | '\n' =>
    case '"' => StringToken(s, i, l);
    case c =>
      if IsDigit(c) {
        NumberToken(s, i, l);
      } else if IsAlpha(c) {
        WordToken(s, i, l);
      }
  }

  /** The placement half of `StepToken`, without the shape of the token. The
      pass lemmas call this one: carrying `WellFormed` through them as well made
      their proofs too costly. */
  lemma StepLexeme(s: string, i: nat, l: nat)
    requires i < |s|
    ensures var st := ScanStep(s, i, l);
      st.outcome.Emit? ==>
        var t := st.outcome.token;
        t.tokenType != Eof && t.lexeme == s[i..st.next] && t.line == st.line
  {
    StepToken(s, i, l);
  }

  /** A lexeme that adds no token is one blank character, one line break or a
      `//` comment, and a comment stops before the next line break (or at the end). */
  lemma StepSkip(s: string, i: nat, l: nat)
    requires i < |s|
    ensures var st := ScanStep(s, i, l);
      st.outcome.Skip? <==>
        s[i] in " \r\t\n" || (i + 1 < |s| && s[i] == '/' && s[i + 1] == '/')
    ensures var st := ScanStep(s, i, l);
      s[i] in " \r\t\n" ==> st.next == i + 1
    ensures var st := ScanStep(s, i, l);
      i + 1 < |s| && s[i] == '/' && s[i + 1] == '/' ==>
        st.line == l && i + 2 <= st.next &&
        (forall k | i + 2 <= k < st.next :: s[k] != '\n') &&
        (st.next == |s| || s[st.next] == '\n')
  {
  }

  /** Maximal munch for `!`, `=`, `<` and `>`: both characters are taken exactly
      when `=` follows, and the kind is the one spelled by what was taken. */
  lemma OperatorStep(s: string, i: nat, l: nat)
    requires i < |s| && s[i] in "!=<>"
    ensures var st := ScanStep(s, i, l);
      st.outcome.Emit? && st.line == l &&
      (st.next == i + 2 <==> i + 1 < |s| && s[i + 1] == '=') &&
      (st.next == i + 1 <==> !(i + 1 < |s| && s[i + 1] == '=')) &&
      FixedLexeme(st.outcome.token.tokenType) == Some(s[i..st.next])
  {
    StepToken(s, i, l);
  }

  /** A `/` not followed by another `/` is the division operator. */
  lemma SlashStep(s: string, i: nat, l: nat)
    requires i < |s| && s[i] == '/' && !(i + 1 < |s| && s[i + 1] == '/')
    ensures ScanStep(s, i, l) == Step(i + 1, l, Emit(Token(Slash, "/", None, l)))
  {
    assert s[i..i + 1] == "/";
  }

  /** Which description a lexeme follows, by its first character. */
  lemma StepDispatch(s: string, i: nat, l: nat)
    requires i < |s|
    ensures s[i] == '"' ==> ScanStep(s, i, l) == StringStep(s, i, l)
    ensures IsDigit(s[i]) ==> ScanStep(s, i, l) == NumberStep(s, i, l)
    ensures IsAlpha(s[i]) ==> ScanStep(s, i, l) == WordStep(s, i, l)
    ensures !StartsLexeme(s[i]) ==> ScanStep(s, i, l) == Step(i + 1, l, Fail(UnexpectedCharacter(s[i])))
  {
  }

  /** The two error messages differ. */
  lemma MessagesDiffer(c: char)
    ensures UnexpectedCharacter(c) != UnterminatedString
  {
    assert UnexpectedCharacter(c)[2] != UnterminatedString[2];
  }

  /** A lexeme fails with "unexpected character" exactly on a character that
      starts no lexeme, and then consumes that character alone. */
  lemma StepUnexpected(s: string, i: nat, l: nat)
    requires i < |s|
    ensures var st := ScanStep(s, i, l);
      st.outcome == Fail(UnexpectedCharacter(s[i])) <==> !StartsLexeme(s[i])
    ensures !StartsLexeme(s[i]) ==> ScanStep(s, i, l).next == i + 1
  {
    StepDispatch(s, i, l);
    MessagesDiffer(s[i]);
  }

  /** A lexeme fails with "unterminated string" exactly on a quote with no
      quote after it, and then consumes the rest of the source. */
  lemma StepUnterminated(s: string, i: nat, l: nat)
    requires i < |s|
    ensures var st := ScanStep(s, i, l);
      st.outcome == Fail(UnterminatedString) <==>
        s[i] == '"' && forall k | i < k < |s| :: s[k] != '"'
    ensures var st := ScanStep(s, i, l);
      st.outcome == Fail(UnterminatedString) ==> st.next == |s|
  {
    StepDispatch(s, i, l);
    MessagesDiffer(s[i]);
    if s[i] == '"' && forall k | i < k < |s| :: s[k] != '"' {
      RunEndAt(s, i + 1, |s|, NotQuote);
    }
  }

  /** There are no other errors than these two. */
  lemma StepFail(s: string, i: nat, l: nat)
    requires i < |s|
    ensures var st := ScanStep(s, i, l);
      st.outcome.Fail? ==> st.outcome.message in {UnexpectedCharacter(s[i]), UnterminatedString}
  {
  }

  /** In a decimal literal whose first non-digit is at `m`, the `.` is at `m`. */
  lemma DotIsFirstNonDigit(t: string, m: nat, k: nat)
    requires m < |t| && k < |t| && !IsDigit(t[m])
    requires forall x | 0 <= x < m :: IsDigit(t[x])
    requires t[k] == '.' && AllDigits(t[..k])
    ensures k == m
  {
  }

  /** In a text that runs past where the number scanner stops, nothing after a
      leading run of digits and a `.` is all digits: the scanner only stops
      before the first non-digit of the fraction, or before a `.` that no digit
      follows. */
  lemma NoFractionPastEnd(s: string, i: nat, e: nat, k: nat)
    requires i < |s| && IsDigit(s[i]) && NumberEnd(s, i + 1) < e <= |s|
    requires 0 < k < e - i - 1 && s[i + k] == '.' && AllDigits(s[i..e][..k])
    ensures !AllDigits(s[i..e][k + 1..])
  {
    var j1 := RunEnd(s, i + 1, IsDigit);
    var t := s[i..e];
    var m := j1 - i;
    assert forall x | 0 <= x < m :: t[x] == s[i + x];
    assert t[m] == s[j1];
    DotIsFirstNonDigit(t, m, k);
    if j1 + 1 < |s| && IsDigit(s[j1 + 1]) {
      var j2 := RunEnd(s, j1 + 1, IsDigit);
      assert t[k + 1..][j2 - j1 - 1] == s[j2];
    } else {
      assert t[k + 1..][0] == s[j1 + 1];
    }
  }

  /** No text that runs past where the number scanner stops is a decimal literal. */
  lemma PastNumberEnd(s: string, i: nat, e: nat)
    requires i < |s| && IsDigit(s[i]) && NumberEnd(s, i + 1) < e <= |s|
    ensures !IsDecimalLiteral(s[i..e])
  {
    var j1 := RunEnd(s, i + 1, IsDigit);
    var t := s[i..e];
    assert t[j1 - i] == s[j1];
    forall k | 0 < k < |t| - 1 && t[k] == '.' && AllDigits(t[..k])
      ensures !AllDigits(t[k + 1..])
    {
      NoFractionPastEnd(s, i, e, k);
    }
  }

  /** A number is the longest decimal literal that starts at `i`: the scanner
      never stops early, so `123.` is the number `123` followed by a `.`. */
  lemma NumberIsLongest(s: string, i: nat, l: nat)
    requires i < |s| && IsDigit(s[i])
    ensures var st := ScanStep(s, i, l);
      st.outcome.Emit? && st.outcome.token.tokenType == Number && st.line == l &&
      IsDecimalLiteral(s[i..st.next]) &&
      forall e | st.next < e <= |s| :: !IsDecimalLiteral(s[i..e])
  {
    NumberToken(s, i, l);
    forall e | NumberEnd(s, i + 1) < e <= |s|
      ensures !IsDecimalLiteral(s[i..e])
    {
      PastNumberEnd(s, i, e);
    }
  }

  /** A word is the longest run of letters, digits and `_` from `i`; it is a
      keyword kind exactly when the whole word spells that keyword, and an
      identifier otherwise. */
  lemma WordStepLongest(s: string, i: nat, l: nat)
    requires i < |s| && IsAlpha(s[i])
    ensures var st := WordStep(s, i, l);
      st.outcome.Emit? && st.line == l &&
      IsIdentifierText(s[i..st.next]) &&
      (st.next == |s| || !IsAlphanumeric(s[st.next])) &&
      (st.outcome.token.tokenType == Identifier <==>
        forall k | IsKeyword(k) :: FixedLexeme(k) != Some(s[i..st.next])) &&
      (st.outcome.token.tokenType != Identifier ==>
        FixedLexeme(st.outcome.token.tokenType) == Some(s[i..st.next]))
  {
    var st := WordStep(s, i, l);
    WordToken(s, i, l);
    KeywordKindExact(s[i..st.next]);
  }

  /** `WordStepLongest` for the scanner's dispatch on a letter: whatever
      starts with a letter is scanned as a word, so `forest` is one identifier.
      It is kept apart from `WordStepLongest` because one proof of both facts
      together was too costly. */
  lemma WordIsLongest(s: string, i: nat, l: nat)
    requires i < |s| && IsAlpha(s[i])
    ensures var st := ScanStep(s, i, l);
      st.outcome.Emit? && st.line == l &&
      IsIdentifierText(s[i..st.next]) &&
      (st.next == |s| || !IsAlphanumeric(s[st.next])) &&
      (st.outcome.token.tokenType == Identifier <==>
        forall k | IsKeyword(k) :: FixedLexeme(k) != Some(s[i..st.next]))
  {
    StepDispatch(s, i, l);
    WordStepLongest(s, i, l);
  }

  /** A whole pass consumes from `i` up to `next`, and the line counter has risen
      by the line breaks consumed; a pass that succeeds consumes everything. */
  lemma {:induction false} ScanEnds(s: string, i: nat, l: nat)
    requires i <= |s|
    ensures var r := Scan(s, i, l);
      i <= r.next <= |s| && r.line == l + Newlines(s[i..r.next]) &&
      (r.status.Ok? ==> r.next == |s|)
    decreases |s| - i
  {
    if i < |s| {
      var st := ScanStep(s, i, l);
      StepLine(s, i, l);
      if !st.outcome.Fail? {
        ScanEnds(s, st.next, st.line);
        NewlinesSplit(s, i, st.next, Scan(s, st.next, st.line).next);
      }
    }
  }

  /** A pass that succeeds ends with one end-of-input token, with an empty
      lexeme, no literal and the final line counter; no other token is an
      end-of-input token, and a pass that fails has none at all. */
  lemma {:induction false} ScanEof(s: string, i: nat, l: nat)
    requires i <= |s|
    ensures var r := Scan(s, i, l);
      r.status.Ok? ==> |r.tokens| > 0 && r.tokens[|r.tokens| - 1] == Token(Eof, "", None, r.line)
    ensures var r := Scan(s, i, l);
      forall k | 0 <= k < |r.tokens| && r.tokens[k].tokenType == Eof :: r.status.Ok? && k == |r.tokens| - 1
    decreases |s| - i
  {
    if i < |s| {
      var st := ScanStep(s, i, l);
      if !st.outcome.Fail? {
        ScanEof(s, st.next, st.line);
        StepLexeme(s, i, l);
      }
    }
  }

  /** Every token of a pass is well formed. */
  lemma {:induction false} ScanWellFormed(s: string, i: nat, l: nat)
    requires i <= |s|
    ensures var ts := Scan(s, i, l).tokens; forall k | 0 <= k < |ts| :: WellFormed(ts[k])
    decreases |s| - i
  {
    if i < |s| {
      var st := ScanStep(s, i, l);
      if !st.outcome.Fail? {
        ScanWellFormed(s, st.next, st.line);
        StepToken(s, i, l);
        if st.outcome.Emit? {
          var ts := Scan(s, i, l).tokens;
          assert forall k | 1 <= k < |ts| :: ts[k] == Scan(s, st.next, st.line).tokens[k - 1];
        }
      }
    }
  }

  /** How a lexeme at `p` fails: on a character that starts no lexeme, which
      it consumes alone, or on a quote never closed, which consumes the rest. */
  predicate FailsAt(s: string, p: nat, message: string, next: nat)
    requires p < |s|
  {
    (message == UnexpectedCharacter(s[p]) && !StartsLexeme(s[p]) && next == p + 1) ||
    (message == UnterminatedString && s[p] == '"' && (forall k | p < k < |s| :: s[k] != '"') && next == |s|)
  }

  /** A pass fails only at a lexeme that fails, and it stops right after it. */
  lemma {:induction false} ScanFailure(s: string, i: nat, l: nat)
    requires i <= |s|
    ensures var r := Scan(s, i, l);
      r.status.Err? ==> exists p | i <= p < |s| :: FailsAt(s, p, r.status.message, r.next)
    decreases |s| - i
  {
    if i < |s| {
      var st := ScanStep(s, i, l);
      StepFail(s, i, l);
      StepUnexpected(s, i, l);
      StepUnterminated(s, i, l);
      if !st.outcome.Fail? {
        ScanFailure(s, st.next, st.line);
      } else {
        assert FailsAt(s, i, st.outcome.message, st.next);
      }
    }
  }
  /** Where the lexeme of each token of `Scan(s, i, l)` starts (the end of the
      source for the end-of-input token). */
  ghost function Starts(s: string, i: nat, l: nat): seq<nat>
    requires i <= |s|
    decreases |s| - i
  {
    if i == |s| then [i]
    else
      var st := ScanStep(s, i, l);
      match st.outcome
      case Fail(_) => []
      case Skip => Starts(s, st.next, st.line)
      case Emit(_) => [i] + Starts(s, st.next, st.line)
  }

  /** Each token's lexeme is the source text at its start `ps[k]` (from `i`
      on), and the lexemes come in source order without overlapping. */
  ghost predicate LexemesInPlace(s: string, i: nat, ts: seq<Token>, ps: seq<nat>) {
    |ps| == |ts| &&
    (forall k | 0 <= k < |ts| ::
      i <= ps[k] && ps[k] + |ts[k].lexeme| <= |s| && s[ps[k]..ps[k] + |ts[k].lexeme|] == ts[k].lexeme) &&
    (forall k | 0 <= k < |ts| - 1 :: ps[k] + |ts[k].lexeme| <= ps[k + 1])
  }

  lemma LexemesCons(s: string, i: nat, next: nat, t: Token, ts: seq<Token>, ps: seq<nat>)
    requires i <= next <= |s| && t.lexeme == s[i..next] && LexemesInPlace(s, next, ts, ps)
    ensures LexemesInPlace(s, i, [t] + ts, [i] + ps)
  {
    var ts2, ps2 := [t] + ts, [i] + ps;
    assert forall k | 1 <= k < |ts2| :: ts2[k] == ts[k - 1] && ps2[k] == ps[k - 1];
  }

  lemma {:induction false} ScanLexemes(s: string, i: nat, l: nat)
    requires i <= |s|
    ensures LexemesInPlace(s, i, Scan(s, i, l).tokens, Starts(s, i, l))
    decreases |s| - i
  {
    if i < |s| {
      var st := ScanStep(s, i, l);
      if !st.outcome.Fail? {
        ScanLexemes(s, st.next, st.line);
        if st.outcome.Emit? {
          StepLexeme(s, i, l);
          LexemesCons(s, i, st.next, st.outcome.token, Scan(s, st.next, st.line).tokens, Starts(s, st.next, st.line));
        }
      }
    }
  }

  /** Each token carries the line counter as it stood right after its lexeme:
      the first line `l` plus the line breaks from `i` to the end of the lexeme. */
  ghost predicate LinesCounted(s: string, i: nat, l: nat, ts: seq<Token>, ps: seq<nat>) {
    |ps| == |ts| &&
    forall k | 0 <= k < |ts| ::
      i <= ps[k] + |ts[k].lexeme| <= |s| && ts[k].line == l + Newlines(s[i..ps[k] + |ts[k].lexeme|])
  }

  lemma LinesFrom(s: string, i: nat, l: nat, next: nat, ts: seq<Token>, ps: seq<nat>)
    requires i <= next <= |s| && LinesCounted(s, next, l + Newlines(s[i..next]), ts, ps)
    ensures LinesCounted(s, i, l, ts, ps)
  {
    forall k | 0 <= k < |ts|
      ensures ts[k].line == l + Newlines(s[i..ps[k] + |ts[k].lexeme|])
    {
      NewlinesSplit(s, i, next, ps[k] + |ts[k].lexeme|);
    }
  }

  lemma LinesCons(s: string, i: nat, l: nat, next: nat, t: Token, ts: seq<Token>, ps: seq<nat>)
    requires i <= next <= |s| && |t.lexeme| == next - i && t.line == l + Newlines(s[i..next])
    requires LinesCounted(s, i, l, ts, ps)
    ensures LinesCounted(s, i, l, [t] + ts, [i] + ps)
  {
    var ts2, ps2 := [t] + ts, [i] + ps;
    assert forall k | 1 <= k < |ts2| :: ts2[k] == ts[k - 1] && ps2[k] == ps[k - 1];
  }

  lemma {:induction false} ScanTokenLines(s: string, i: nat, l: nat)
    requires i <= |s|
    ensures LinesCounted(s, i, l, Scan(s, i, l).tokens, Starts(s, i, l))
    decreases |s| - i
  {
    if i < |s| {
      var st := ScanStep(s, i, l);
      if !st.outcome.Fail? {
        ScanTokenLines(s, st.next, st.line);
        StepLine(s, i, l);
        var ts, ps := Scan(s, st.next, st.line).tokens, Starts(s, st.next, st.line);
        LinesFrom(s, i, l, st.next, ts, ps);
        if st.outcome.Emit? {
          var t := st.outcome.token;
          StepLexeme(s, i, l);
          LinesCons(s, i, l, st.next, t, ts, ps);
          assert Scan(s, i, l).tokens == [t] + ts && Starts(s, i, l) == [i] + ps;
        } else {
          assert Scan(s, i, l).tokens == ts && Starts(s, i, l) == ps;
        }
      }
    }
  }

  /** Token lines lie between `lo` and `hi` and never decrease. */
  predicate LinesBetween(ts: seq<Token>, lo: nat, hi: nat) {
    (forall k | 0 <= k < |ts| :: lo <= ts[k].line <= hi) &&
    (forall j, k | 0 <= j <= k < |ts| :: ts[j].line <= ts[k].line)
  }

  lemma LinesBetweenCons(t: Token, ts: seq<Token>, lo: nat, mid: nat, hi: nat)
    requires lo <= t.line <= mid <= hi && LinesBetween(ts, mid, hi)
    ensures LinesBetween([t] + ts, lo, hi)
  {
    var ts2 := [t] + ts;
    assert forall k | 1 <= k < |ts2| :: ts2[k] == ts[k - 1];
  }

  /** Token lines never decrease, and they lie between the first line and the
      final value of the line counter. */
  lemma {:induction false} ScanLinesOrdered(s: string, i: nat, l: nat)
    requires i <= |s|
    ensures var r := Scan(s, i, l); LinesBetween(r.tokens, l, r.line)
    decreases |s| - i
  {
    if i < |s| {
      var st := ScanStep(s, i, l);
      if !st.outcome.Fail? {
        ScanLinesOrdered(s, st.next, st.line);
        ScanEnds(s, st.next, st.line);
        var r := Scan(s, st.next, st.line);
        if st.outcome.Emit? {
          StepLexeme(s, i, l);
          LinesBetweenCons(st.outcome.token, r.tokens, l, st.line, r.line);
        } else {
          assert LinesBetween(r.tokens, l, r.line);
        }
      }
    }
  }
}
