/** Small sources scanned in full, one per behaviour the scanner is known for. */
module ScanExamples {
  import opened Utils
  import opened Tokens
  import opened Lexing

  /** A `.` with no digit after it is not part of the number. */
  lemma NumberThenDot()
    ensures Scan("123.", 0, 1) ==
      Scanned([Token(Number, "123", Some("123"), 1), Token(Dot, ".", None, 1), Token(Eof, "", None, 1)], 4, 1, Ok(()))
  {
    var s := "123.";
    RunEndAt(s, 1, 3, IsDigit);
    assert NumberEnd(s, 1) == 3;
    assert s[0..3] == "123" && s[3..4] == ".";
    assert ScanStep(s, 0, 1) == Step(3, 1, Emit(Token(Number, "123", Some("123"), 1)));
    assert ScanStep(s, 3, 1) == Step(4, 1, Emit(Token(Dot, ".", None, 1)));
  }

  /** A keyword must match the whole word: `forest` is an identifier. */
  lemma KeywordPrefixIsIdentifier()
    ensures Scan("forest", 0, 1) ==
      Scanned([Token(Identifier, "forest", None, 1), Token(Eof, "", None, 1)], 6, 1, Ok(()))
  {
    var s := "forest";
    RunEndAt(s, 1, 6, IsAlphanumeric);
    assert s[0..6] == "forest";
    assert ScanStep(s, 0, 1) == Step(6, 1, Emit(Token(Identifier, "forest", None, 1)));
  }

  /** `!=` is one token, `! =` is two. */
  lemma TwoCharacterOperator()
    ensures Scan("!=", 0, 1).tokens == [Token(BangEqual, "!=", None, 1), Token(Eof, "", None, 1)]
    ensures Scan("! =", 0, 1).tokens ==
      [Token(Bang, "!", None, 1), Token(Equal, "=", None, 1), Token(Eof, "", None, 1)]
  {
    var s, u := "!=", "! =";
    assert s[0..2] == "!=";
    assert ScanStep(s, 0, 1) == Step(2, 1, Emit(Token(BangEqual, "!=", None, 1)));
    assert u[0..1] == "!" && u[2..3] == "=";
    assert ScanStep(u, 0, 1) == Step(1, 1, Emit(Token(Bang, "!", None, 1)));
    assert ScanStep(u, 1, 1) == Step(2, 1, Skip);
    assert ScanStep(u, 2, 1) == Step(3, 1, Emit(Token(Equal, "=", None, 1)));
  }

  /** A comment runs to the line break, which is still counted. */
  lemma CommentThenNumber()
    ensures Scan("// hi\n1", 0, 1) ==
      Scanned([Token(Number, "1", Some("1"), 2), Token(Eof, "", None, 2)], 7, 2, Ok(()))
  {
    var s := "// hi\n1";
    RunEndAt(s, 2, 5, NotNewline);
    assert ScanStep(s, 0, 1) == Step(5, 1, Skip);
    assert ScanStep(s, 5, 1) == Step(6, 2, Skip);
    RunEndAt(s, 7, 7, IsDigit);
    assert s[6..7] == "1";
    assert ScanStep(s, 6, 2) == Step(7, 2, Emit(Token(Number, "1", Some("1"), 2)));
  }

  /** A string may span lines; its token carries the line where it ends. */
  lemma MultiLineString()
    ensures Scan("\"a\nb\"", 0, 1) ==
      Scanned([Token(String, "\"a\nb\"", Some("a\nb"), 2), Token(Eof, "", None, 2)], 5, 2, Ok(()))
  {
    var s := "\"a\nb\"";
    RunEndAt(s, 1, 4, NotQuote);
    assert s[1..4] == "a\nb" && s[0..5] == s;
    assert Newlines("a\nb") == 1 by {
      assert "a\nb"[..2] == "a\n" && "a\n"[..1] == "a" && "a"[..0] == "";
    }
    assert ScanStep(s, 0, 1) == Step(5, 2, Emit(Token(String, s, Some("a\nb"), 2)));
  }

  /** A quote never closed fails the whole pass, with no end-of-input token. */
  lemma UnclosedString()
    ensures Scan("\"ab", 0, 1) == Scanned([], 3, 1, Err(UnterminatedString))
  {
    var s := "\"ab";
    RunEndAt(s, 1, 3, NotQuote);
    assert Newlines(s[1..3]) == 0 by {
      NoNewlines(s[1..3]);
    }
  }

  /** The first unexpected character stops the pass: the tokens before it are
      kept, and no end-of-input token follows. */
  lemma StopsAtUnexpected()
    ensures Scan("a @ b", 0, 1) ==
      Scanned([Token(Identifier, "a", None, 1)], 3, 1, Err(UnexpectedCharacter('@')))
  {
    var s := "a @ b";
    RunEndAt(s, 1, 1, IsAlphanumeric);
    assert s[0..1] == "a";
    assert ScanStep(s, 0, 1) == Step(1, 1, Emit(Token(Identifier, "a", None, 1)));
    assert ScanStep(s, 1, 1) == Step(2, 1, Skip);
    assert ScanStep(s, 2, 1) == Step(3, 1, Fail(UnexpectedCharacter('@')));
  }
}
