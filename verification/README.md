# Lox scanner, modelled and proved in Dafny

This project models the lexical scanner of a Lox interpreter written in Rust
(`src/scanner.rs` and the character classes and error helper of
`src/utils.rs`). The scanner turns source text into a flat list of tokens in
one pass. A `Scanner` object keeps the source, a cursor (`start`, `current`),
a line counter and the token list it appends to. `scan_tokens` loops over
lexemes. `scan_token` reads one lexeme:

- single-character punctuation;
- `!`, `=`, `<` and `>`, with `=` lookahead;
- `//` comments;
- blanks and line breaks;
- string literals, which may span lines;
- number literals;
- identifiers and keywords;
- anything else, which is an error.

On the first error the pass stops. On success one end-of-input token (`Eof`)
is appended.

The project has these files:

- `utils.dfy` (module `Utils`): `Option`, the `Result` type standing for
  Rust's `Result<T, String>`, `Error`, and the character classes `IsDigit`,
  `IsAlpha` and `IsAlphanumeric`.
- `tokens.dfy` (module `Tokens`): the token kinds, the token record, the
  fixed spelling of every punctuation, operator and keyword kind, the
  keyword lookup, and `WellFormed` (what a token of each kind looks like).
- `lexing.dfy` (module `Lexing`): the scanner's behaviour as pure
  functions. `ScanStep` is one lexeme. `Scan` is a whole pass.
  `RunEnd` is where a `while class(peek()) advance()` loop stops.
- `scanner.dfy` (module `Scanning`): the `Scanner` class. Its fields are
  updated in place and its methods keep the source's loops. Each method is
  proved to leave the object exactly as the functions of `Lexing` say. In
  particular, `ScanTokens` appends `Scan(source, current, line).tokens`.
- `properties.dfy` (module `ScanProperties`): what the scanner promises,
  proved about `ScanStep` and `Scan`. Through the method contracts this also
  holds of the object's tokens.
- `walks.dfy` (module `ScanWalks`): a pass described as a walk, a chain of
  lexeme boundaries each starting where `ScanStep` ended the one before,
  without going through `Scan`. A pass is proved to be its walk: it stops at
  the first failing lexeme the walk reaches, and the walk cuts the source
  into token lexemes, blanks, line breaks and comments.
- `examples.dfy` (module `ScanExamples`): small sources scanned in full.
- `driver.dfy` (module `Driver`): the driver's `run` (a fresh scanner and one
  pass), without the printing.

Where this scanner behaves differently from the usual description of a Lox
scanner, the model follows the code:

- **Errors.** The first failing lexeme ends the whole pass through `?` at
  `src/scanner.rs:27`. The tokens added before it stay in the list, no
  `Eof` token is added, and the error is returned. Scanning does not go on
  past an error.
- **String lines.** A string token carries the line counter as it is at the
  closing quote, i.e. the line on which the string ends, not the one on
  which it starts. The token is added after the embedded line breaks have
  been counted.
- **Unterminated strings.** The "Unterminated string" error is raised at the
  end of the source, after all line breaks of the unclosed string have been
  counted.
- **Characters.** The source is indexed by characters only. The Rust code
  mixes character positions (`chars().nth`) with byte positions (`len()`,
  slicing), which agree only for ASCII text. The model uses one index into a
  `seq<char>`, which is the code's behaviour on ASCII input.

## Model

| member | source | states |
|---|---|---|
| Utils.Error | src/utils.rs:1-4 | `error` always fails, and its message is the one it was given |
| Utils.CharacterClasses | src/utils.rs:10-20 | the digits are exactly `0`-`9`; the letters are exactly `a`-`z`, `A`-`Z` and `_`; alphanumeric is the union of the two; no letter is a digit |
| Utils.IsDigit | src/utils.rs:10-12 | no contract of its own; what it accepts is stated by `Utils.CharacterClasses` |
| Utils.IsAlpha | src/utils.rs:14-16 | no contract of its own; what it accepts is stated by `Utils.CharacterClasses` |
| Utils.IsAlphanumeric | src/utils.rs:18-20 | no contract of its own; what it accepts is stated by `Utils.CharacterClasses` |
| Utils.SentinelInNoClass | src/utils.rs:10-20 | the `'\0'` that `peek` returns at the end is in none of the three classes, so every class-driven loop stops at the end |
| Tokens.KeywordKind | src/scanner.rs:97-115 | the keyword lookup yields `Identifier` or a keyword kind whose spelling is exactly the looked-up text |
| Tokens.KeywordLookupComplete | src/scanner.rs:97-115 | each of the 16 keywords is found when its own spelling is looked up |
| Tokens.KeywordKindExact | src/scanner.rs:97-115 | the lookup finds a keyword exactly when the whole text is some keyword's spelling, in both directions |
| Lexing.NewlinesExtend | src/scanner.rs:197-201 | counting one more character adds one line break exactly when that character is `\n` |
| Lexing.NewlinesConcat | src/scanner.rs:86 | line breaks of a concatenation add up |
| Lexing.NewlinesSplit | src/scanner.rs:86 | line breaks of a piece of the source split at any point |
| Lexing.NewlinesIsCount | src/scanner.rs:86 | the line-break count equals the number of `\n` characters |
| Lexing.NoNewlines | src/scanner.rs:86 | text with no `\n` counts no line break |
| Lexing.RunEnd | src/scanner.rs:239-241 | where a "skip while the class holds" loop stops: every character before is in the class, and the one there is not (or it is the end) |
| Lexing.RunEndAt | src/scanner.rs:239-241 | that stopping place is unique: the first position whose character fails the class |
| Lexing.NumberEnd | src/scanner.rs:215-226 | the number scanner stops at or after where it starts and never past the end |
| Lexing.Single | src/scanner.rs:48-57 | no contract of its own; the one-character token it gives is stated by `ScanProperties.SingleToken` |
| Lexing.WithEqual | src/scanner.rs:58-73 | no contract of its own; one or two characters and the kind are stated by `ScanProperties.OperatorStep` and `ScanProperties.OperatorToken` |
| Lexing.ScanStep | src/scanner.rs:44-124 | one lexeme always consumes at least one character and never lowers the line counter |
| Lexing.StringStep | src/scanner.rs:87-90 | a string lexeme consumes at least its quote and never lowers the line counter |
| Lexing.NumberStep | src/scanner.rs:91-94 | a number lexeme consumes at least one digit and leaves the line unchanged |
| Lexing.WordStep | src/scanner.rs:95-118 | a word lexeme consumes at least one character and leaves the line unchanged |
| Lexing.Scan | src/scanner.rs:24-38 | no contract of its own; what a pass produces is stated by `ScanProperties.ScanEnds`, `ScanEof`, `ScanFailure`, `ScanWellFormed`, `ScanTokenLines`, `ScanLinesOrdered` and `ScanWalks.ScanIsWalk` |
| Lexing.ScanInto | src/scanner.rs:24-38 | no contract of its own; the loop with its tokens so far is `Scan` appended to them, by `Lexing.ScanIntoAppends` |
| Lexing.ScanIntoStep | src/scanner.rs:25-28 | one turn of the loop: a failing lexeme ends the pass with the tokens so far, and any other lexeme appends its token and goes on |
| Lexing.ScanIntoAppends | src/scanner.rs:24-38 | appending while scanning is the same as scanning and then appending to what was there |
| Lexing.DecimalLiteralOfNumber | src/scanner.rs:215-236 | what the number scanner takes is always digits, optionally followed by `.` and digits, so the `f64` parse cannot fail and its panic is unreachable |
| Scanning.Scanner.constructor | src/scanner.rs:14-22 | a new scanner has no tokens, the cursor at 0 and the line at 1 |
| Scanning.Scanner.ScanTokens | src/scanner.rs:24-38 | the tokens appended, the final cursor and line, and the result are those of `Scan` from the old cursor and line |
| Scanning.Scanner.IsAtEnd | src/scanner.rs:40-42 | true exactly when the cursor has reached the end |
| Scanning.Scanner.ScanToken | src/scanner.rs:44-124 | the cursor, line counter, token list and result after one lexeme are those given by `ScanStep` |
| Scanning.Scanner.AddString | src/scanner.rs:87-90 | the `"` arm: the cursor, line, tokens and result follow `StringStep` |
| Scanning.Scanner.AddNumber | src/scanner.rs:91-94 | the digit arm: the cursor and tokens follow `NumberStep` |
| Scanning.Scanner.AddWord | src/scanner.rs:95-118 | the letter arm: the cursor and tokens follow `WordStep`, with the kind from the keyword lookup |
| Scanning.Scanner.AddOperator | src/scanner.rs:58-73 | `!`, `=`, `<`, `>`: the two-character kind and lexeme when `=` follows (consumed), the one-character kind otherwise |
| Scanning.Scanner.SkipComment | src/scanner.rs:74-80 | the comment loop stops at the first `\n` or at the end, leaving the `\n` unconsumed |
| Scanning.Scanner.Advance | src/scanner.rs:126-133 | returns the character at the cursor and moves past it; callers always have a character left, so the panic is unreachable |
| Scanning.Scanner.AddToken | src/scanner.rs:135-142 | appends one token whose lexeme is `source[start..current]`, with no literal, at the current line |
| Scanning.Scanner.Substring | src/scanner.rs:144-146 | the text between two positions, character by character |
| Scanning.Scanner.TokenText | src/scanner.rs:148-150 | the current lexeme `source[start..current]` |
| Scanning.Scanner.AddTokenLiteral | src/scanner.rs:152-160 | appends one token whose lexeme is `source[start..current]`, with the given literal, at the current line |
| Scanning.Scanner.NextIs | src/scanner.rs:162-174 | true exactly when a character is left and it is the expected one; only then the cursor moves, by one |
| Scanning.Scanner.Peek | src/scanner.rs:176-184 | the character at the cursor, or `'\0'` at the end; the panic is unreachable |
| Scanning.Scanner.PeekN | src/scanner.rs:186-194 | the character `n` places ahead, or `'\0'` past the end |
| Scanning.Scanner.ScanString | src/scanner.rs:196-213 | stops at the first `"` after the opening one and counts every `\n` on the way; with a closing quote it consumes it and returns the text between the quotes, without one it fails with "Unterminated string" at the end |
| Scanning.Scanner.ScanNumber | src/scanner.rs:215-236 | consumes the integer digits, then `.` and the fraction digits only when a digit follows the `.`; the text is a well-formed decimal literal |
| Scanning.Scanner.SkipDigits | src/scanner.rs:216-218 | the digit loop stops at the first non-digit or at the end |
| Scanning.Scanner.ScanIdentifier | src/scanner.rs:238-243 | consumes the longest run of letters, digits and `_` and returns the whole lexeme |
| ScanProperties.StepLine | src/scanner.rs:86 | after any lexeme the line counter has risen by exactly the `\n` characters it consumed, inside strings included |
| ScanProperties.ClosedString | src/scanner.rs:196-213 | a quote with another quote somewhere after it opens a string that is closed: the lexeme gives a `String` token, not an error |
| ScanProperties.StringToken | src/scanner.rs:87-90 | a quote with a later quote somewhere after it always gives a `String` token; any token the string lexeme gives has the quoted text, quotes included, as lexeme and the text between the quotes, which contains no quote, as literal |
| ScanProperties.NumberToken | src/scanner.rs:91-94 | a number gives a `Number` token whose lexeme and literal are the same decimal literal |
| ScanProperties.WordToken | src/scanner.rs:95-118 | a word gives an identifier with identifier syntax that is no keyword, or a keyword kind spelled exactly by the word |
| ScanProperties.SingleToken | src/scanner.rs:48-57 | a punctuation character gives its kind with that one character as lexeme |
| ScanProperties.OperatorToken | src/scanner.rs:58-73 | an operator gives a kind whose fixed spelling is exactly the consumed text |
| ScanProperties.StepToken | src/scanner.rs:44-124 | every token added for a lexeme is well formed, is not `Eof`, has the consumed text as lexeme and carries the line after the lexeme |
| ScanProperties.StepLexeme | src/scanner.rs:135-160 | a token's lexeme is exactly `source[start..current]` for its lexeme, and its line is the counter after it |
| ScanProperties.StepSkip | src/scanner.rs:74-86 | a lexeme adds no token exactly when it is a blank, a line break or a `//` comment; a comment runs up to, not including, the next `\n` or the end, and changes no line |
| ScanProperties.OperatorStep | src/scanner.rs:58-73 | maximal munch: `!`, `=`, `<`, `>` take two characters exactly when `=` follows, and one otherwise; the kind is the one spelled by what was taken |
| ScanProperties.SlashStep | src/scanner.rs:74-84 | a `/` not followed by `/` is the `Slash` token `/` |
| ScanProperties.StepDispatch | src/scanner.rs:87-121 | quotes, digits and letters lead to the string, number and word lexemes; any other character not handled above is an unexpected character |
| ScanProperties.MessagesDiffer | src/scanner.rs:119-121 | the two error messages can be told apart |
| ScanProperties.StepUnexpected | src/scanner.rs:119-121 | a lexeme fails with "Unexpected character 'c'" exactly when `c` starts no lexeme, and then only `c` is consumed |
| ScanProperties.StepUnterminated | src/scanner.rs:204-206 | a lexeme fails with "Unterminated string" exactly at a quote with no quote after it, and then the rest of the source is consumed |
| ScanProperties.StepFail | src/scanner.rs:119-121 | no lexeme fails with any other message |
| ScanProperties.DotIsFirstNonDigit | src/scanner.rs:220 | in a decimal literal, the `.` sits at the first non-digit |
| ScanProperties.NoFractionPastEnd | src/scanner.rs:215-226 | past where the number scanner stops, what follows the integer digits and a `.` is not all digits, so no fraction can extend the number |
| ScanProperties.PastNumberEnd | src/scanner.rs:215-226 | no text that goes past where the number scanner stops is a decimal literal |
| ScanProperties.NumberIsLongest | src/scanner.rs:215-236 | a number token is the longest decimal literal at its start, so `123.` leaves the `.` for the next lexeme |
| ScanProperties.WordStepLongest | src/scanner.rs:95-118 | a word is the longest run of letters, digits and `_`; it is a keyword kind exactly when the whole word spells it |
| ScanProperties.WordIsLongest | src/scanner.rs:95-118 | the same, for the lexeme `scan_token` reads at a letter: `forest` is an identifier, not `for` |
| ScanProperties.ScanEnds | src/scanner.rs:24-38 | a pass consumes from its start up to its end point, the line counter rises by the line breaks consumed, and a pass that succeeds consumes the whole source |
| ScanProperties.ScanEof | src/scanner.rs:24-38 | on success the last token is `Eof`, with an empty lexeme, no literal and the final line; no other token is `Eof`; a failed pass has no `Eof` at all |
| ScanProperties.ScanWellFormed | src/scanner.rs:44-124 | every token of a pass is well formed for its kind |
| ScanProperties.ScanFailure | src/scanner.rs:27 | a pass that fails does so at some lexeme that fails (unexpected character or unclosed quote), with its message, and stops right after it; the converse, that reaching a failing lexeme makes the pass fail there, is `ScanWalks.ScanStopsAtFailure` |
| ScanProperties.LexemesCons | src/scanner.rs:135-160 | a lexeme placed before other lexemes, all in place, keeps them in place and in order |
| ScanProperties.ScanLexemes | src/scanner.rs:148-150 | every token's lexeme is the source text at the place its lexeme started, and lexemes come in source order without overlapping |
| ScanProperties.LinesFrom | src/scanner.rs:86 | line values counted from a later point are also counted from an earlier one |
| ScanProperties.LinesCons | src/scanner.rs:135-160 | a token whose line is counted correctly can be put in front of others that are |
| ScanProperties.ScanTokenLines | src/scanner.rs:86 | every token's line is the first line plus the `\n` characters from the start of the pass to the end of its lexeme |
| ScanProperties.LinesBetweenCons | src/scanner.rs:135-160 | putting a token with a small enough line in front keeps the lines ordered |
| ScanProperties.ScanLinesOrdered | src/scanner.rs:24-38 | token lines never decrease and lie between the first line and the final line counter |
| ScanWalks.StepPiece | src/scanner.rs:44-124 | a lexeme that does not fail is a non-empty piece of the source: either exactly the lexeme of the token it adds, with the line after it, or one blank, one line break, or a `//` comment holding no line break |
| ScanWalks.WalkCons | src/scanner.rs:24-28 | a non-failing lexeme followed by a walk from where it ends is again a walk |
| ScanWalks.CoveredCons | src/scanner.rs:24-28 | a piece put in front of a covered walk keeps it covered and as far-reaching |
| ScanWalks.ScanAlongWalk | src/scanner.rs:24-28 | along any walk of non-failing lexemes, the pass from its start adds the walk's tokens and then does what the pass from its end does |
| ScanWalks.ScanStopsAtFailure | src/scanner.rs:24-28 | when a walk reaches a failing lexeme, the pass returns `Err` with that lexeme's message, ends right after that lexeme, and holds exactly the tokens of the lexemes before it, with no `Eof` |
| ScanWalks.ScanSucceedsAtEnd | src/scanner.rs:24-37 | when a walk reaches the end of the source, the pass returns `Ok` with the walk's tokens followed by one `Eof` token carrying the final line |
| ScanWalks.WalkExists | src/scanner.rs:24-28 | from every position a walk of non-failing lexemes runs to the end or to a failing lexeme, and covers the source piece by piece |
| ScanWalks.ScanIsWalk | src/scanner.rs:24-37 | every pass is its walk: it either reaches the end and succeeds with the walk's tokens and `Eof`, or reaches a failing lexeme and fails with its message and only the tokens before it; the token lexemes, in order, are the source with the blanks, line breaks and comments between them removed |
| ScanExamples.NumberThenDot | src/scanner.rs:220 | `123.` scans to `Number 123`, `Dot`, `Eof` |
| ScanExamples.KeywordPrefixIsIdentifier | src/scanner.rs:97-115 | `forest` scans to one identifier |
| ScanExamples.TwoCharacterOperator | src/scanner.rs:58-61 | `!=` is one `BangEqual`; `! =` is `Bang` then `Equal` |
| ScanExamples.CommentThenNumber | src/scanner.rs:74-86 | `// hi` then a line break then `1` gives the number `1` on line 2 and nothing for the comment |
| ScanExamples.MultiLineString | src/scanner.rs:196-213 | a string spanning two lines has the inner text as literal and carries line 2 |
| ScanExamples.UnclosedString | src/scanner.rs:204-206 | an unclosed quote fails the pass with no tokens at all |
| ScanExamples.StopsAtUnexpected | src/scanner.rs:119-121 | `a @ b` keeps the identifier `a`, fails at `@`, and never reaches `b` |
| Driver.Run | src/main.rs:60-65 | a fresh scanner's tokens are those of `Scan` from line 1; all are well formed, lines never decrease, and the pass succeeded exactly when the list ends with `Eof` |

## Left out

- The printing and the command line of `src/main.rs` (file reading, the stdin loop, `println!`, the exit macro) are input and output; only `run`'s scanning is modelled.
- The `eprintln!` diagnostic of `report` (`src/utils.rs:6-8`) is output; `Error` models only the returned `Err(message)`, so its `line` argument is unused.
- The `f64` parse in `number` (`src/scanner.rs:231`) is floating point; it is replaced by `IsDecimalLiteral`, and the number scanner is proved to produce only such text. `Scanning.Scanner.ScanNumber` therefore returns the literal directly instead of a `Result` that is never an error.
- The `Display` and `Debug` formatting of `TokenType` and `Token` (`src/scanner.rs:270-293`) is string formatting for output and is not modelled.
- Unicode: a single character index is used throughout, which is what the code does on ASCII text; multi-byte text, where byte and character positions differ, is not modelled.
- Scanning.Scanner.ScanTokens: the value of `start` after the pass is not stated; it is only ever read inside one lexeme.
- Scanning.Scanner.AddString, Scanning.Scanner.AddNumber, Scanning.Scanner.AddWord, Scanning.Scanner.AddOperator, Scanning.Scanner.SkipComment and Scanning.Scanner.SkipDigits hold the statements of one arm of `scan_token` (or one loop of `number`) unchanged, as separate methods; the code inlines them.
- Scanning.Scanner.PeekN: only `n = 1` is ever used by the code; the model allows any `n`.
- Lexing.ScanStep, Lexing.StringStep, Lexing.NumberStep, Lexing.WordStep and Lexing.NumberEnd: their own contracts state only progress and bounds; what each lexeme produces is stated by the lemmas of `ScanProperties` (`StepToken`, `StepLine`, `StepSkip`, `OperatorStep`, `NumberIsLongest`, `WordIsLongest`, `StepUnexpected`, `StepUnterminated`).
