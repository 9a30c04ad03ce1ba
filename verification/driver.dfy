/** What the command-line driver does with a piece of source text: scan it
    with a fresh scanner and keep the tokens, whatever the result. */
module Driver {
  import opened Utils
  import opened Tokens
  import opened Lexing
  import opened Scanning
  import opened ScanProperties

  /** `run` without the printing: a new scanner from line 1, one pass. The
      tokens are those of `Scan`, so everything proved about `Scan` holds; the
      three facts a consumer relies on are stated here. */
  method Run(source: string) returns (tokens: seq<Token>, r: Result<()>)
    ensures tokens == Scan(source, 0, 1).tokens && r == Scan(source, 0, 1).status
    ensures forall k | 0 <= k < |tokens| :: WellFormed(tokens[k])
    ensures r.Ok? <==> |tokens| > 0 && tokens[|tokens| - 1].tokenType == Eof
    ensures forall j, k | 0 <= j <= k < |tokens| :: 1 <= tokens[j].line <= tokens[k].line
  {
    var scanner := new Scanner(source);
    r := scanner.ScanTokens();
    tokens := scanner.tokens;
    ScanWellFormed(source, 0, 1);
    ScanEof(source, 0, 1);
    ScanLinesOrdered(source, 0, 1);
  }
}
