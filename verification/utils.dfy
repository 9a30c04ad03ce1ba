/** Shared helpers of the Lox scanner: the result type that stands for Rust's
    `Result<T, String>`, the error constructor used by every failing lexeme, and
    the ASCII character classes that drive the number and identifier scanners. */
module Utils {

  datatype Option<+T> = None | Some(value: T)

  /** `Result<T, String>`: every failure the scanner reports carries a message. */
  datatype Result<+T> = Ok(value: T) | Err(message: string) {

    predicate IsFailure() {
      Err?
    }

    function PropagateFailure<U>(): Result<U>
      requires Err?
    {
      Err(message)
    }

    function Extract(): T
      requires Ok?
    {
      value
    }
  }

  /** The digits, in order; an independent description of what `IsDigit` accepts. */
  const Digits: string := "0123456789"

  /** The ASCII letters, lower case and upper case. */
  const LowerCase: string := "abcdefghijklmnopqrstuvwxyz"
  const UpperCase: string := "ABCDEFGHIJKLMNOPQRSTUVWXYZ"

  /** `error(line, message)`: always fails, handing back the message unchanged.
      The diagnostic it also writes to stderr is not modelled, so `line` is unused. */
  function Error<T>(line: nat, message: string): (r: Result<T>)
    ensures r.Err? && r.message == message
  {
    Err(message)
  }

  predicate IsDigit(c: char) {
    '0' <= c <= '9'
  }

  predicate IsAlpha(c: char) {
    ('a' <= c <= 'z') || ('A' <= c <= 'Z') || c == '_'
  }

  predicate IsAlphanumeric(c: char) {
    IsDigit(c) || IsAlpha(c)
  }

  /** The three classes are exactly the ASCII digits, the ASCII letters and `_`,
      and the letters, with `_`, are not digits. */
  lemma CharacterClasses(c: char)
    ensures IsDigit(c) <==> c in Digits
    ensures IsAlpha(c) <==> c in LowerCase || c in UpperCase || c == '_'
    ensures IsAlphanumeric(c) <==> c in Digits || c in LowerCase || c in UpperCase || c == '_'
    ensures IsAlpha(c) ==> !IsDigit(c)
  {
  }

  /** The end-of-input sentinel that the scanner's `peek` returns belongs to no
      character class, so every scanning loop driven by a class stops at the end. */
  lemma SentinelInNoClass()
    ensures !IsDigit('\0') && !IsAlpha('\0') && !IsAlphanumeric('\0')
  {
  }
}
