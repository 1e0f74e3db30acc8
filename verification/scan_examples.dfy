/** Whole-input scans of a few short sources. */
module Examples {
  import opened Tokens
  import opened Scanning
  import opened ScannerProperties

  /** A lone unexpected character: one error on line 1, and only the
      end-of-input token. */
  lemma UnexpectedOnly()
    ensures ScanTokens("@").errors == [LexError(1, UnexpectedCharacter)]
    ensures ScanTokens("@").tokens == [Token(Eof, "", NoLiteral, 1)]
  {
  }

  const Commented: string := "/* a */"

  /** The comment body ends at index 5, the `*` of the closing pair. */
  lemma CommentStopsAtStar()
    ensures ScanToken(Init(Commented)) == Init(Commented).(current := 5)
  {
    var s0 := Init(Commented);
    assert s0.source[0] == '/' && s0.source[1] == '*' && s0.source[5] == '*';
    BlockCommentAsWritten(s0);
  }

  /** From the `*`, the rest of the input scans as `Star` then `Slash`. */
  lemma StarThenSlash()
    ensures var r := ScanLoop(Init(Commented).(current := 5));
            r.tokens == [Token(Star, "*", NoLiteral, 1), Token(Slash, "/", NoLiteral, 1)]
  {
    var s1 := Init(Commented).(start := 5, current := 5);
    assert s1.source[5] == '*' && s1.source[6] == '/';
    PunctuationEmitsOneToken(s1);
    var r2 := ScanToken(s1);
    var s2 := r2.(start := 6);
    LoneSlashEmitted(s2);
    var r3 := ScanToken(s2);
    assert Substring(Commented, 5, 6) == "*" && Substring(Commented, 6, 7) == "/";
    assert r3.current == 7 && r3.tokens == [Token(Star, "*", NoLiteral, 1), Token(Slash, "/", NoLiteral, 1)];
    assert ScanLoop(Init(Commented).(current := 5)) == ScanLoop(r2) == ScanLoop(r3) == r3;
  }

  /** A block comment stops at its `*`, so the closing `*` and `/` are
      scanned as tokens of their own. */
  lemma BlockCommentLeavesStarSlash()
    ensures var r := ScanTokens(Commented);
            && |r.tokens| == 3
            && r.tokens[0].kind == Star && r.tokens[1].kind == Slash && r.tokens[2].kind == Eof
  {
    CommentStopsAtStar();
    StarThenSlash();
    assert ScanLoop(Init(Commented)) == ScanLoop(Init(Commented).(current := 5));
  }

  const OpenQuote: string := "\"a\nb"

  /** The opening quote's scan runs to the end, counting one newline. */
  lemma OpenQuoteRunsToEnd()
    ensures ScanToken(Init(OpenQuote))
         == Init(OpenQuote).(current := 4, line := 2, errors := [LexError(2, UnterminatedString)])
  {
    assert !Occurs(OpenQuote, 1, 4, '"') by {
      assert OpenQuote[1] == 'a' && OpenQuote[2] == '\n' && OpenQuote[3] == 'b';
    }
    UnterminatedStringLogged(Init(OpenQuote));
    assert NewlinesIn(OpenQuote, 3, 4) == 0;
  }

  /** An unterminated string is reported on the line the scan reached, after
      the newlines inside it were counted, not on the line it opened. */
  lemma UnterminatedReportsLastLine()
    ensures var r := ScanTokens(OpenQuote);
            && r.errors == [LexError(2, UnterminatedString)]
            && r.tokens == [Token(Eof, "", NoLiteral, 2)]
  {
    var s0 := Init(OpenQuote);
    OpenQuoteRunsToEnd();
    var r1 := ScanToken(s0);
    assert ScanLoop(s0) == ScanLoop(r1) == r1;
  }

  const TrailingDot: string := "10."

  /** `10` is a number on its own: no digit follows the `.`. */
  lemma NumberStopsBeforeDot()
    ensures ScanToken(Init(TrailingDot))
         == Init(TrailingDot).(current := 2, tokens := [Token(Number, "10", Decimal("10", ""), 1)],
                               spans := [Span(0, 2)])
  {
    var s0 := Init(TrailingDot);
    assert TrailingDot[0] == '1' && TrailingDot[1] == '0' && TrailingDot[2] == '.';
    NumberScanned(s0);
    assert DigitsEnd(TrailingDot, 0) == DigitsEnd(TrailingDot, 1) == DigitsEnd(TrailingDot, 2) == 2;
    assert NumberEnd(TrailingDot, 0) == 2;
    assert Substring(TrailingDot, 0, 2) == "10";
    assert NumberLiteral(TrailingDot, 0) == Decimal("10", "");
  }

  /** The `.` left over is a `Dot` token. */
  lemma DotAfterNumber()
    ensures var s := Init(TrailingDot).(current := 2, tokens := [Token(Number, "10", Decimal("10", ""), 1)],
                                        spans := [Span(0, 2)]);
            ScanLoop(s).tokens == s.tokens + [Token(Dot, ".", NoLiteral, 1)]
  {
    var s := Init(TrailingDot).(current := 2, tokens := [Token(Number, "10", Decimal("10", ""), 1)],
                                spans := [Span(0, 2)]);
    var s1 := s.(start := 2);
    assert s1.source[2] == '.';
    PunctuationEmitsOneToken(s1);
    var r := ScanToken(s1);
    assert Substring(TrailingDot, 2, 3) == ".";
    assert ScanLoop(s) == ScanLoop(r) == r;
  }

  /** `10.` scans as the number `10`, then `Dot`, then end of input. */
  lemma TrailingDotIsSeparate()
    ensures ScanTokens(TrailingDot).tokens
         == [Token(Number, "10", Decimal("10", ""), 1), Token(Dot, ".", NoLiteral, 1), Token(Eof, "", NoLiteral, 1)]
  {
    NumberStopsBeforeDot();
    DotAfterNumber();
    var r1 := ScanToken(Init(TrailingDot));
    assert ScanLoop(Init(TrailingDot)) == ScanLoop(r1);
  }

  const SlashPair: string := "/*//x"

  /** A `/` right after the opener stops the comment loop when another `/`
      follows it; the `//` then makes the rest of the line a line comment. */
  lemma OpenerThenLineComment()
    ensures ScanToken(Init(SlashPair)) == Init(SlashPair).(current := 2)
  {
    var s0 := Init(SlashPair);
    assert SlashPair[0] == '/' && SlashPair[1] == '*' && SlashPair[3] == '/';
    BlockCommentAsWritten(s0);
  }
}
