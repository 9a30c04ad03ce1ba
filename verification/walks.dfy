/** A pass described without `Scan`'s recursion: a walk is a chain of lexeme
    boundaries, each lexeme starting where `ScanStep` ended the one before it,
    none of them failing. A pass is exactly its walk: it stops with the error of
    the first failing lexeme the walk reaches, keeping only the tokens emitted
    before it, and otherwise reaches the end and adds the end-of-input token.
    The walk also cuts the source into consecutive pieces, each of them either
    the lexeme of a token or text passed over (a blank, a line break, a comment). */
module ScanWalks {
  import opened Utils
  import opened Tokens
  import opened Lexing
  import opened ScanProperties

  /** `ps[k]` and `ls[k]` are the cursor and the line counter where the k-th
      lexeme of the walk starts, and the last entries are where the walk stops. */
  ghost predicate Walk(s: string, ps: seq<nat>, ls: seq<nat>) {
    |ps| == |ls| > 0 && ps[|ps| - 1] <= |s| &&
    forall k | 0 <= k < |ps| - 1 ::
      ps[k] < |s| &&
      ScanStep(s, ps[k], ls[k]).next == ps[k + 1] &&
      ScanStep(s, ps[k], ls[k]).line == ls[k + 1] &&
      !ScanStep(s, ps[k], ls[k]).outcome.Fail?
  }

  /** The tokens the lexemes of a walk emit, in order. */
  ghost function WalkTokens(s: string, ps: seq<nat>, ls: seq<nat>): seq<Token>
    requires |ps| == |ls| > 0
    decreases |ps|
  {
    if |ps| == 1 || |s| <= ps[0] then []
    else Emitted(ScanStep(s, ps[0], ls[0]).outcome) + WalkTokens(s, ps[1..], ls[1..])
  }

  /** Text the scanner passes over without a token: one blank or line break
      character, or a `//` comment that holds no line break. */
  predicate Skipped(t: string) {
    (|t| == 1 && t[0] in " \r\t\n") ||
    (2 <= |t| && t[0] == '/' && t[1] == '/' && forall k | 2 <= k < |t| :: t[k] != '\n')
  }

  /** The lexeme at `p` is a non-empty piece of the source: the lexeme of the
      token it emits, which carries the line counter after it, or text passed over. */
  ghost predicate Piece(s: string, p: nat, l: nat)
    requires p < |s|
  {
    var st := ScanStep(s, p, l);
    p < st.next &&
    ((st.outcome.Emit? && st.outcome.token.lexeme == s[p..st.next] && st.outcome.token.line == st.line) ||
     (st.outcome.Skip? && Skipped(s[p..st.next])))
  }

  /** Every lexeme of the walk is a piece; consecutive pieces meet at the
      walk's boundaries, so together they cover the source from the first
      boundary to the last. */
  ghost predicate Covered(s: string, ps: seq<nat>, ls: seq<nat>)
    requires Walk(s, ps, ls)
  {
    forall k | 0 <= k < |ps| - 1 :: Piece(s, ps[k], ls[k])
  }

  /** A lexeme that does not fail is a piece. */
  lemma StepPiece(s: string, p: nat, l: nat)
    requires p < |s| && !ScanStep(s, p, l).outcome.Fail?
    ensures Piece(s, p, l)
  {
    var st := ScanStep(s, p, l);
    StepLexeme(s, p, l);
    StepSkip(s, p, l);
    if st.outcome.Skip? {
      var t := s[p..st.next];
      if s[p] in " \r\t\n" {
        assert t == [s[p]];
      } else {
        assert forall k | 2 <= k < |t| :: t[k] == s[p + k];
      }
    }
  }

  lemma WalkTail(s: string, ps: seq<nat>, ls: seq<nat>)
    requires Walk(s, ps, ls) && |ps| > 1
    ensures Walk(s, ps[1..], ls[1..])
  {
    assert forall k | 0 <= k < |ps| - 1 :: ps[1..][k] == ps[k + 1] && ls[1..][k] == ls[k + 1];
  }

  lemma WalkCons(s: string, i: nat, l: nat, ps: seq<nat>, ls: seq<nat>)
    requires i < |s| && !ScanStep(s, i, l).outcome.Fail?
    requires Walk(s, ps, ls) && ps[0] == ScanStep(s, i, l).next && ls[0] == ScanStep(s, i, l).line
    ensures Walk(s, [i] + ps, [l] + ls)
  {
    var ps2, ls2 := [i] + ps, [l] + ls;
    assert forall k | 1 <= k < |ps2| :: ps2[k] == ps[k - 1] && ls2[k] == ls[k - 1];
  }

  /** Putting a piece in front of a covered walk keeps it covered, and keeps
      it as far-reaching as it was. */
  lemma CoveredCons(s: string, i: nat, l: nat, ps: seq<nat>, ls: seq<nat>)
    requires i < |s| && Piece(s, i, l)
    requires Walk(s, ps, ls) && Walk(s, [i] + ps, [l] + ls)
    requires Covered(s, ps, ls) && Maximal(s, ps, ls)
    ensures Covered(s, [i] + ps, [l] + ls) && Maximal(s, [i] + ps, [l] + ls)
  {
    var ps2, ls2 := [i] + ps, [l] + ls;
    assert forall k | 1 <= k < |ps2| :: ps2[k] == ps[k - 1] && ls2[k] == ls[k - 1];
  }

  /** Scanning along a walk: the pass from its start is the pass from where it
      stops, after the tokens the walk emitted. */
  lemma {:induction false} ScanAlongWalk(s: string, ps: seq<nat>, ls: seq<nat>)
    requires Walk(s, ps, ls)
    ensures var r := Scan(s, ps[|ps| - 1], ls[|ls| - 1]);
      Scan(s, ps[0], ls[0]) == r.(tokens := WalkTokens(s, ps, ls) + r.tokens)
    decreases |ps|
  {
    if |ps| > 1 {
      WalkTail(s, ps, ls);
      ScanAlongWalk(s, ps[1..], ls[1..]);
      var r := Scan(s, ps[|ps| - 1], ls[|ls| - 1]);
      var st := ScanStep(s, ps[0], ls[0]);
      assert st.next == ps[1] && st.line == ls[1];
      assert ps[1..][|ps| - 2] == ps[|ps| - 1] && ls[1..][|ls| - 2] == ls[|ls| - 1];
      assert Emitted(st.outcome) + (WalkTokens(s, ps[1..], ls[1..]) + r.tokens)
        == (Emitted(st.outcome) + WalkTokens(s, ps[1..], ls[1..])) + r.tokens;
    }
  }

  /** A pass stops at the first failing lexeme it reaches: when a walk from `i`
      and `l` ends at a lexeme that fails, the pass fails with that lexeme's
      message, its cursor and line are those after that lexeme, and its tokens
      are exactly those the walk emitted, with no end-of-input token. */
  lemma ScanStopsAtFailure(s: string, ps: seq<nat>, ls: seq<nat>)
    requires Walk(s, ps, ls) && ps[|ps| - 1] < |s|
    requires ScanStep(s, ps[|ps| - 1], ls[|ls| - 1]).outcome.Fail?
    ensures var st := ScanStep(s, ps[|ps| - 1], ls[|ls| - 1]);
      Scan(s, ps[0], ls[0]) == Scanned(WalkTokens(s, ps, ls), st.next, st.line, Err(st.outcome.message))
  {
    ScanAlongWalk(s, ps, ls);
    assert WalkTokens(s, ps, ls) + [] == WalkTokens(s, ps, ls);
  }

  /** A walk that reaches the end is a successful pass: the walk's tokens, then
      the end-of-input token with the final line counter. */
  lemma ScanSucceedsAtEnd(s: string, ps: seq<nat>, ls: seq<nat>)
    requires Walk(s, ps, ls) && ps[|ps| - 1] == |s|
    ensures Scan(s, ps[0], ls[0]) ==
      Scanned(WalkTokens(s, ps, ls) + [Token(Eof, "", None, ls[|ls| - 1])], |s|, ls[|ls| - 1], Ok(()))
  {
    ScanAlongWalk(s, ps, ls);
  }

  /** A walk, as far as it goes: it stops at the end or at a failing lexeme. */
  ghost predicate Maximal(s: string, ps: seq<nat>, ls: seq<nat>)
    requires Walk(s, ps, ls)
  {
    ps[|ps| - 1] == |s| || ScanStep(s, ps[|ps| - 1], ls[|ls| - 1]).outcome.Fail?
  }

  /** From every cursor a walk goes as far as it can, and it covers the source
      piece by piece. */
  lemma {:induction false} WalkExists(s: string, i: nat, l: nat)
    requires i <= |s|
    ensures exists ps: seq<nat>, ls: seq<nat> ::
      Walk(s, ps, ls) && ps[0] == i && ls[0] == l && Maximal(s, ps, ls) && Covered(s, ps, ls)
    decreases |s| - i
  {
    if i == |s| || ScanStep(s, i, l).outcome.Fail? {
      assert Walk(s, [i], [l]) && Maximal(s, [i], [l]) && Covered(s, [i], [l]);
    } else {
      var st := ScanStep(s, i, l);
      WalkExists(s, st.next, st.line);
      var ps: seq<nat>, ls: seq<nat> :|
        Walk(s, ps, ls) && ps[0] == st.next && ls[0] == st.line && Maximal(s, ps, ls) && Covered(s, ps, ls);
      WalkCons(s, i, l, ps, ls);
      StepPiece(s, i, l);
      CoveredCons(s, i, l, ps, ls);
    }
  }

  /** A pass is its walk. From any cursor, the walk of non-failing lexemes runs
      either to the end, and then the pass succeeds with the walk's tokens and
      one end-of-input token, or to a failing lexeme, and then the pass fails
      with that lexeme's message and only the walk's tokens. Either way the
      walk's pieces are token lexemes or blanks, line breaks and comments. */
  lemma ScanIsWalk(s: string, i: nat, l: nat)
    requires i <= |s|
    ensures exists ps: seq<nat>, ls: seq<nat> ::
      Walk(s, ps, ls) && ps[0] == i && ls[0] == l && Covered(s, ps, ls) &&
      var e, le := ps[|ps| - 1], ls[|ls| - 1];
      if e == |s| then
        Scan(s, i, l) == Scanned(WalkTokens(s, ps, ls) + [Token(Eof, "", None, le)], e, le, Ok(()))
      else
        var st := ScanStep(s, e, le);
        st.outcome.Fail? &&
        Scan(s, i, l) == Scanned(WalkTokens(s, ps, ls), st.next, st.line, Err(st.outcome.message))
  {
    WalkExists(s, i, l);
    var ps: seq<nat>, ls: seq<nat> :|
      Walk(s, ps, ls) && ps[0] == i && ls[0] == l && Maximal(s, ps, ls) && Covered(s, ps, ls);
    if ps[|ps| - 1] == |s| {
      ScanSucceedsAtEnd(s, ps, ls);
    } else {
      ScanStopsAtFailure(s, ps, ls);
    }
  }
}
