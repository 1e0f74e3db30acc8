# Nex scanner in Dafny

This project models the lexical scanner of the Nex interpreter (jnex), the
Java class `Scanner`. The scanner turns source text into tokens. It keeps two
cursors, `start` and `current`, and a `line` counter. `scanTokens` repeatedly
sets `start := current` and calls `scanToken`. `scanToken` reads one
character and dispatches on it:

- punctuation;
- the one- or two-character operators `!` `=` `<` `>` (through `match('=')`);
- `/`, which starts a line comment, a block comment or a `Slash` token;
- whitespace and newlines;
- string literals, number literals and identifiers;
- anything else, which is reported as an unexpected character.

At the end of the source, one end-of-input token is appended.

The model is a functional state machine:

- `Tokens` (tokens.dfy) defines token kinds, literals, tokens, errors, the
  sixteen-entry reserved-word table and the ASCII character classes.
- `Scanning` (scanner.dfy) defines the scanner state as an immutable record.
  Each Java helper (`advance`, `peek`, `peekNext`, `match`, `addToken`,
  `identifier`, `number`, `string`) is a pure function. Each inner `while`
  loop is a recursive function. `ScanToken` is one `scanToken` call, and
  `ScanTokens` is `scanTokens`.
  - The error sink `Nex.error(line, message)` becomes an append to an error
    log held in the state.
  - The state also records the source span of each emitted token. The Java
    object keeps spans only implicitly, as `start` and `current` at
    `addToken` time.
  - `ScanToken` states, for every input, that it consumes at least one
    character and appends at most one token or one error, never both.
  - `ScanTokens` proves these whole-scan facts:
    - exactly one end-of-input token, last;
    - lexemes are the source text at their spans;
    - every span but the end-of-input one is non-empty, and spans are
      increasing and non-overlapping;
    - lines are non-decreasing;
    - only the two known error messages occur.
- `ScannerProperties` (scanner_properties.dfy) states each `scanToken`
  branch against the characters it reads. It relies on independent reference
  definitions: `DigitsEnd`, `NumberEnd` and `NumberLiteral` for numbers,
  `Occurs` for the closing quote, and `Emit` for "one token over
  `[current, hi)`".
- `WholeScan` (whole_scan.dfy) composes the one-call lemmas over a whole
  scan: input made only of blanks, newlines and `//` comments yields the
  end-of-input token alone and no error.
- `Examples` (scan_examples.dfy) shows the scan of a few concrete short sources.

Three Java quirks are modelled as the code is written.

The block-comment loop is
`while (peek() != '*' && peekNext() != '/' && !isAtEnd()) advance();`:

- It stops at a `*`, at a position whose next character is `/`, or at the
  end. A `/` directly after the opening `/*` is passed over unless another
  `/` follows it (`Examples.OpenerThenLineComment`).
- It never consumes the closing `*/`. When the loop stops at the closing
  `*`, those two characters are usually scanned next as `Star` and `Slash`. When it
  stops earlier, at a character followed by `/`, scanning resumes at that
  character; if a second `/` comes next, the rest of that line, a closing
  `*/` included, is skipped as a line comment.
- It does not count the newlines it passes.
- It reports nothing when the comment is not terminated.

The model follows the loop as written and makes no assumption about what it
was meant to do (see `Examples.BlockCommentLeavesStarSlash`).

An unterminated string is reported at the line the scan reached, after the
newlines inside the string were counted. It is not reported at the line of
the opening quote (see `Examples.UnterminatedReportsLastLine`).

A terminated string that spans lines is tagged with the line of its closing
quote, not the line it starts on, because `line` is read when the token is
emitted (see `ScannerProperties.TerminatedString`).

## Model

| member | source | states |
|---|---|---|
| Tokens.KeywordTableShape | Scanner.java:16-37 | The table's keys are exactly the sixteen reserved words, and every entry maps to a reserved-word kind |
| Tokens.KeywordTableSpelling | Scanner.java:21-36 | Looking a word up and spelling the kind gives the word back, stated against an independent spelling function |
| Tokens.KeywordTableInjective | Scanner.java:21-36 | No two reserved words map to the same kind |
| Tokens.DecimalTextSplits | Scanner.java:128-135 | A number's text splits back into its whole and fraction digit strings at the `.`, and has a `.` exactly when the fraction is non-empty |
| Tokens.Keywords | Scanner.java:16-37 | No contract of its own (a constant); its contents are stated by `Tokens.KeywordTableShape`, `Tokens.KeywordTableSpelling` and `Tokens.KeywordTableInjective` |
| Tokens.IsDigit | Scanner.java:197-200 | No contract of its own; what a digit run is and where it stops is stated by `ScannerProperties.DigitsEndIsMaximal` and `ScannerProperties.NumberIsMaximal` |
| Tokens.IsAlpha | Scanner.java:188-192 | No contract of its own; `ScannerProperties.IdentifierIsMaximal` states that these characters start an identifier |
| Tokens.IsAlphaNumeric | Scanner.java:194-196 | No contract of its own; `Scanning.SkipAlphaNumeric` and `ScannerProperties.IdentifierIsMaximal` state that an identifier is the maximal run of these characters |
| Scanning.SubstringIsSlice | Scanner.java:206-209 | The recursive model of `source.substring(lo, hi)` is the slice `[lo, hi)` of the source |
| Scanning.SkipLineComment | Scanner.java:77 | The line-comment loop changes only `current`, passes no newline, and stops at a newline or the end |
| Scanning.SkipBlockComment | Scanner.java:81 | The block-comment loop changes only `current` (not `line`), passes no `*` and no position followed by `/` (a `/` itself may be passed), and stops at a `*`, at a position followed by `/`, or at the end |
| Scanning.SkipDigits | Scanner.java:125 | The digit loop changes only `current` and keeps it in range (where it stops: `ScannerProperties.SkipDigitsEnd`) |
| Scanning.SkipAlphaNumeric | Scanner.java:113 | The identifier loop changes only `current`, passes only letters, digits and `_`, and stops at the end or at any other character |
| Scanning.SkipStringBody | Scanner.java:140-143 | The string-body loop passes no quote, stops at a quote or the end, and raises `line` by exactly the number of newlines passed |
| Scanning.Init | Scanner.java:40-42 | No contract of its own; `Scanning.ScanTokens` and `WholeScan.QuietSource` state what a scan from it yields (line 1, no tokens, no errors) |
| Scanning.IsAtEnd | Scanner.java:168-170 | No contract of its own; `Scanning.ScanLoop` states the loop it guards stops exactly at the end of the source |
| Scanning.Advance | Scanner.java:173-176 | No contract of its own; it moves `current` forward by one. Every loop contract (`Scanning.SkipLineComment` and the rest) states the cursor only moves forward, within the source |
| Scanning.Peek | Scanner.java:178-181 | No contract of its own; the loop contracts state each stop condition on the character at `current` (the block-comment loop also on the next one), with the end as its own `r.current == |s.source|` case |
| Scanning.PeekNext | Scanner.java:183-186 | No contract of its own; `Scanning.SkipBlockComment` and `ScannerProperties.NumberEndIsMaximal` state its use, including the past-the-end case |
| Scanning.Match | Scanner.java:159-165 | No contract of its own; `ScannerProperties.OperatorMatchesEqual` and `ScannerProperties.LineCommentSkipped` state that it consumes the next character exactly when it exists and is the expected one |
| Scanning.AddToken | Scanner.java:202-209 | No contract of its own; `Scanning.ScanToken` states that the appended token's lexeme is `[start, current)`, its line is the current line, and its span is recorded |
| Scanning.ReportError | Nex.java:60-66 | No contract of its own; `ScannerProperties.UnexpectedCharacterLogged` and `ScannerProperties.UnterminatedStringLogged` state the one `(line, message)` entry it appends |
| Scanning.ScanOperator | Scanner.java:70-73 | No contract of its own; stated by `ScannerProperties.OperatorMatchesEqual` |
| Scanning.ScanSlash | Scanner.java:74-86 | No contract of its own; stated by `ScannerProperties.LineCommentSkipped`, `ScannerProperties.BlockCommentAsWritten` and `ScannerProperties.LoneSlashEmitted` |
| Scanning.ScanIdentifier | Scanner.java:112-121 | No contract of its own; stated by `ScannerProperties.IdentifierIsMaximal` |
| Scanning.AddWord | Scanner.java:116-120 | No contract of its own; the keyword lookup it performs is stated by `ScannerProperties.IdentifierIsMaximal` |
| Scanning.ScanNumber | Scanner.java:124-136 | No contract of its own; stated by `ScannerProperties.NumberScanned` and `ScannerProperties.NumberIsMaximal` |
| Scanning.NumberAfterWhole | Scanner.java:128-133 | No contract of its own; the fraction rule is stated by `ScannerProperties.NumberEndIsMaximal` and `ScannerProperties.FractionLoopEnd` |
| Scanning.AddNumber | Scanner.java:135 | No contract of its own; the literal it builds is stated by `ScannerProperties.NumberLiteralDigits` and `ScannerProperties.NumberLiteralText` |
| Scanning.ScanString | Scanner.java:139-157 | No contract of its own; stated by `ScannerProperties.TerminatedString` and `ScannerProperties.UnterminatedStringLogged` |
| Scanning.CloseString | Scanner.java:145-156 | No contract of its own; its two outcomes are stated by `ScannerProperties.TerminatedString` and `ScannerProperties.UnterminatedStringLogged` |
| Scanning.ScanToken | Scanner.java:57-109 | One call consumes at least one character, keeps the source and `start`, and appends at most one token or one error (never both); a token's lexeme is `[start, current)`, its line is the line at emit time, and it is never end-of-input |
| Scanning.ScanLoop | Scanner.java:46-50 | The loop ends with `current` at the end of the source and only appends tokens and errors |
| Scanning.ValidAppendToken | Scanner.java:206-209 | Appending a non-empty token cut just after the last span preserves the scanner invariant |
| Scanning.ValidAppendError | Scanner.java:105 | Appending a known error at the reached line preserves the invariant |
| Scanning.ValidStep | Scanner.java:57-109 | One `scanToken` call preserves the invariant: cursors in range, spans increasing and non-overlapping with lexemes equal to their text, lines ordered, only known errors |
| Scanning.ScanLoopValid | Scanner.java:46-50 | The whole loop preserves the invariant (by induction on the unread length) |
| Scanning.ScanTokens | Scanner.java:45-54 | The whole scan ends at the end of the source with exactly one end-of-input token, last, with lexeme `""` and the final line; every other token is a non-empty cut of the source at increasing, non-overlapping spans; token and error lines are ordered and bounded by the final line; errors carry only the two known messages |
| ScannerProperties.PunctuationEmitsOneToken | Scanner.java:60-69 | Each punctuation character emits its kind over exactly that character and changes nothing else |
| ScannerProperties.OperatorMatchesEqual | Scanner.java:70-73 | `!` `=` `<` `>` emit the two-character kind over two characters exactly when the next character is `=`, and otherwise (including at the end) the one-character kind over one character |
| ScannerProperties.BlankSkipped | Scanner.java:87-91 | Space, carriage return and tab only advance the cursor |
| ScannerProperties.NewlineCounted | Scanner.java:92-94 | A newline advances the cursor and adds exactly one to `line`, emitting nothing |
| ScannerProperties.LineCommentSkipped | Scanner.java:74-78 | `//` emits nothing and skips to the next newline (left unread) or the end |
| ScannerProperties.BlockCommentAsWritten | Scanner.java:79-82 | `/` then `*` emits and logs nothing, leaves `line` unchanged, and stops at the first position that holds `*` or is followed by `/`, or at the end |
| ScannerProperties.LoneSlashEmitted | Scanner.java:83-85 | A `/` not followed by `/` or `*` emits one `Slash` over one character |
| ScannerProperties.UnexpectedCharacterLogged | Scanner.java:97-107 | Any unrecognised character logs exactly one "Unexpected character" at the current line, emits nothing, and consumes one character |
| ScannerProperties.DigitsEndIsMaximal | Scanner.java:198-200 | The reference digit run is all digits and ends at the end or at a non-digit |
| ScannerProperties.SkipDigitsEnd | Scanner.java:125 | The digit loop stops exactly where the reference digit run ends |
| ScannerProperties.NumberEndIsMaximal | Scanner.java:124-133 | A number lexeme ends at the end or at a non-digit, and stops after its whole part only when no `.` followed by a digit comes next |
| ScannerProperties.NumberScanned | Scanner.java:124-136 | A digit emits one `Number` token over `[current, NumberEnd)` with the reference literal |
| ScannerProperties.NumberLiteralDigits | Scanner.java:128-135 | The literal's whole part is a non-empty digit string, the fraction is a digit string, and the fraction is empty exactly when the lexeme stops after the whole part |
| ScannerProperties.NumberLiteralText | Scanner.java:135 | The lexeme is the literal's whole part and fraction joined at the `.` |
| ScannerProperties.NumberIsMaximal | Scanner.java:124-136 | A number token is the maximal digit run, plus `.` and a digit run only when a digit follows the `.`; its literal splits the lexeme at the point |
| ScannerProperties.IdentifierIsMaximal | Scanner.java:112-121 | A letter or `_` emits one token over the maximal run of letters, digits and `_`; its kind is `Identifier` exactly when the text is not a reserved word, and is the table's kind otherwise |
| ScannerProperties.StringBodyFindsQuote | Scanner.java:140-143 | When a quote lies ahead, the body loop stops at the first one |
| ScannerProperties.TerminatedString | Scanner.java:139-157 | With a quote ahead, the token runs through the first closing quote; its literal is the quote-free text strictly between the quotes; `line` grows by the newlines in it; the token carries the line at the closing quote |
| ScannerProperties.UnterminatedStringLogged | Scanner.java:139-149 | With no quote ahead, the scan runs to the end, counts every newline, logs exactly one "Unterminated string" at the reached line, and emits no token |
| ScannerProperties.WholeLoopEnd | Scanner.java:125-128 | The whole-part loop of a number stops at `DigitsEnd`, and the fraction test there sees a `.` followed by a digit exactly when the source has one |
| ScannerProperties.FractionLoopEnd | Scanner.java:128-133 | When a `.` and a digit follow the whole part, the fraction loop stops at `NumberEnd` |
| WholeScan.LineEndUnique | Scanner.java:77 | A line comment's loop can stop in only one place: the first newline at or after its start, or the end |
| WholeScan.CommentQuiet | Scanner.java:75-78 | A `//` comment appends nothing, passes no newline, and leaves quiet text quiet |
| WholeScan.QuietLoop | Scanner.java:46-50 | Over text of blanks, newlines and `//` comments, the loop appends no token and no error and raises `line` by exactly the number of newlines |
| WholeScan.QuietSource | Scanner.java:45-54 | A source of only blanks, newlines and `//` comments scans to the end-of-input token alone, on the line after its last newline, with no error |
| Examples.UnexpectedOnly | Scanner.java:105 | Scanning `@` logs one "Unexpected character" on line 1, and yields only the end-of-input token |
| Examples.BlockCommentLeavesStarSlash | Scanner.java:79-82 | Scanning `/* a */` yields `Star`, `Slash`, end-of-input: the comment loop stops at the closing `*` |
| Examples.OpenerThenLineComment | Scanner.java:79-81 | In `/*//x` the comment loop stops at index 2, before the `/` that another `/` follows, so it does not pass that `/` |
| Examples.TrailingDotIsSeparate | Scanner.java:128-135 | Scanning `10.` yields the number `10` (no fraction, since no digit follows the `.`), then `Dot`, then end-of-input |
| Examples.UnterminatedReportsLastLine | Scanner.java:141-147 | Scanning a quote, `a`, a newline and `b` logs "Unterminated string" on line 2, not line 1 |

## Left out

- Double.parseDouble: a number's literal is kept as its two digit strings (`Decimal(whole, fraction)`) rather than as a double, because floating point is outside the model.
- `Nex.error` and the rest of Nex.java (file and prompt I/O, `hadError`): the error sink is an append to the state's error log, and the driver is not part of this model.
- Token.java and TokenType.java are not part of this model. The model uses its own `Token` record and `Kind` datatype, and a token's `toString` is not modelled.
- The keyword `HashMap` is a map literal; hashing is irrelevant to the lookup result.
- Java `String` and `char` are UTF-16 code units; the model's `char` is a Unicode scalar value. Every character class the scanner dispatches on is ASCII, but a character outside the Basic Multilingual Plane is one `char` in the model and two code units in Java, so Java logs two "Unexpected character" errors (and string lexemes count it twice) where the model logs one.
- `ScanTokens` models one `scanTokens` call on a fresh `Scanner`, as the driver makes it. A second call on the same object would append a second end-of-input token to the same list, because the token list is a field and the loop is skipped once `current` is at the end.
- Java `int` overflow of `current` and `line` is not modelled, because a source would need over two billion characters to reach it.
- Scanning.SkipDigits: its contract states only the frame and bounds. Where the loop stops is stated by ScannerProperties.SkipDigitsEnd against the reference `DigitsEnd`, which keeps the recursive contract cheap.
- The span list in the scanner state does not exist in Java. It only records `start` and `current` at each `addToken`, so that lexeme and ordering properties can be stated.
