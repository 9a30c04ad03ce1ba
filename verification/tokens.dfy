/** The token vocabulary of the Lox scanner: the closed set of token kinds, the
    token record, the fixed spelling of every punctuation, operator and keyword
    kind, the exact-match keyword lookup, and what a well-formed token looks like. */
module Tokens {
  import opened Utils

  datatype TokenType =
    // Single-character tokens.
    | LeftParen | RightParen | LeftBrace | RightBrace
    | Comma | Dot | Minus | Plus | Semicolon | Slash | Star
    // One or two character tokens.
    | Bang | BangEqual
    | Equal | EqualEqual
    | Greater | GreaterEqual
    | Less | LessEqual
    // Literals.
    | Identifier | String | Number
    // Keywords.
    | And | Class | Else | False | Fun | For | If | Nil | Or
    | Print | Return | Super | This | True | Var | While
    | Eof

  /** `literal` is present only for strings (the text between the quotes) and
      numbers (the digits themselves); `line` is the scanner's line counter at
      the moment the token was added. */
  datatype Token = Token(tokenType: TokenType, lexeme: string, literal: Option<string>, line: nat)

  predicate IsKeyword(k: TokenType) {
    match k
    case And | Class | Else | False | Fun | For | If | Nil | Or => true
    case Print | Return | Super | This | True | Var | While => true
    case _ => false
  }

  /** The one lexeme a punctuation, operator or keyword kind can have; `None`
      for the kinds whose lexeme varies (identifiers, strings, numbers) and for
      the end-of-input marker. */
  function FixedLexeme(k: TokenType): Option<string> {
    match k
    case LeftParen => Some("(")
    case RightParen => Some(")")
    case LeftBrace => Some("{")
    case RightBrace => Some("}")
    case Comma => Some(",")
    case Dot => Some(".")
    case Minus => Some("-")
    case Plus => Some("+")
    case Semicolon => Some(";")
    case Slash => Some("/")
    case Star => Some("*")
    case Bang => Some("!")
    case BangEqual => Some("!=")
    case Equal => Some("=")
    case EqualEqual => Some("==")
    case Greater => Some(">")
    case GreaterEqual => Some(">=")
    case Less => Some("<")
    case LessEqual => Some("<=")
    case And => Some("and")
    case Class => Some("class")
    case Else => Some("else")
    case False => Some("false")
    case Fun => Some("fun")
    case For => Some("for")
    case If => Some("if")
    case Nil => Some("nil")
    case Or => Some("or")
    case Print => Some("print")
    case Return => Some("return")
    case Super => Some("super")
    case This => Some("this")
    case True => Some("true")
    case Var => Some("var")
    case While => Some("while")
    case Identifier | String | Number | Eof => None
  }

  /** The keyword table of `scan_token`: the whole identifier text is compared
      with each keyword; anything else is an identifier. */
  function KeywordKind(text: string): (k: TokenType)
    ensures k == Identifier || (IsKeyword(k) && FixedLexeme(k) == Some(text))
  {
    match text
    case "and" => And
    case "class" => Class
    case "else" => Else
    case "false" => False
    case "for" => For
    case "fun" => Fun
    case "if" => If
    case "nil" => Nil
    case "or" => Or
    case "print" => Print
    case "return" => Return
    case "super" => Super
    case "this" => This
    case "true" => True
    case "var" => Var
    case "while" => While
    case _ => Identifier
  }

  /** Every keyword is found by the lookup when its own spelling is scanned. */
  lemma KeywordLookupComplete(k: TokenType)
    requires IsKeyword(k)
    ensures FixedLexeme(k).Some? && KeywordKind(FixedLexeme(k).value) == k
  {
  }

  /** The lookup finds a keyword exactly when the text is some keyword's spelling. */
  lemma KeywordKindExact(text: string)
    ensures KeywordKind(text) != Identifier <==> exists k :: IsKeyword(k) && FixedLexeme(k) == Some(text)
  {
    if exists k :: IsKeyword(k) && FixedLexeme(k) == Some(text) {
      var k :| IsKeyword(k) && FixedLexeme(k) == Some(text);
      KeywordLookupComplete(k);
    }
  }

  /** A word of the identifier grammar: a letter or `_`, then letters, digits, `_`. */
  predicate IsIdentifierText(t: string) {
    |t| > 0 && IsAlpha(t[0]) && forall k | 1 <= k < |t| :: IsAlphanumeric(t[k])
  }

  predicate AllDigits(t: string) {
    forall k | 0 <= k < |t| :: IsDigit(t[k])
  }

  /** The syntax a number lexeme has: digits, then optionally `.` and more digits.
      This stands for the `f64` parse the scanner performs on every number. */
  predicate IsDecimalLiteral(t: string) {
    (|t| > 0 && AllDigits(t)) ||
    exists k | 0 < k < |t| - 1 :: t[k] == '.' && AllDigits(t[..k]) && AllDigits(t[k + 1..])
  }

  /** What a token produced by the scanner looks like, kind by kind. */
  predicate WellFormed(t: Token) {
    match t.tokenType
    case Eof => t.lexeme == "" && t.literal == None
    case String =>
      2 <= |t.lexeme| && t.lexeme[0] == '"' && t.lexeme[|t.lexeme| - 1] == '"' &&
      (forall k | 0 < k < |t.lexeme| - 1 :: t.lexeme[k] != '"') &&
      t.literal == Some(t.lexeme[1..|t.lexeme| - 1])
    case Number => IsDecimalLiteral(t.lexeme) && t.literal == Some(t.lexeme)
    case Identifier => IsIdentifierText(t.lexeme) && KeywordKind(t.lexeme) == Identifier && t.literal == None
    case _ => FixedLexeme(t.tokenType) == Some(t.lexeme) && t.literal == None
  }
}
