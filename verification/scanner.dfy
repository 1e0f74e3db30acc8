/** The Nex scanner as a functional state machine. A `Scanner` value holds
    everything the Java object holds (the source, the `start` and `current`
    cursors, the `line` counter, the emitted tokens) plus the error sink's
    log and, for stating properties, the source span of every emitted token.
    Every Java helper is a pure function from state to state; every inner
    `while` loop is a recursive function that decreases the unread length. */
module Scanning {
  import opened Tokens

  /** Source offsets `[lo, hi)` a token was cut from. The Java scanner keeps
      these only implicitly, as `start` and `current` at `addToken` time. */
  datatype Span = Span(lo: nat, hi: nat)

  datatype Scanner = Scanner(
    source: string,
    start: nat,
    current: nat,
    line: nat,
    tokens: seq<Token>,
    spans: seq<Span>,
    errors: seq<LexError>)

  /** `source.substring(lo, hi)`: the characters of `t` from `lo` up to,
      not including, `hi`. It equals the slice `t[lo..hi]`
      (`SubstringIsSlice`); it is written as a recursive function with its
      facts in separate lemmas so that proofs about scanner states, which
      mention many lexemes, only unfold it where a lemma asks for it. */
  function Substring(t: string, lo: nat, hi: nat): string
    requires lo <= hi <= |t|
    decreases hi - lo
  {
    if lo == hi then [] else [t[lo]] + Substring(t, lo + 1, hi)
  }

  lemma {:induction false} SubstringLength(t: string, lo: nat, hi: nat)
    requires lo <= hi <= |t|
    ensures |Substring(t, lo, hi)| == hi - lo
    decreases hi - lo
  {
    if lo < hi {
      SubstringLength(t, lo + 1, hi);
    }
  }

  /** The character of a substring at offset `k - lo` is the source's `k`. */
  lemma {:induction false} SubstringAt(t: string, lo: nat, hi: nat, k: nat)
    requires lo <= k < hi <= |t|
    ensures |Substring(t, lo, hi)| == hi - lo
    ensures Substring(t, lo, hi)[k - lo] == t[k]
    decreases k - lo
  {
    SubstringLength(t, lo, hi);
    if lo < k {
      SubstringAt(t, lo + 1, hi, k);
    }
  }

  /** A substring splits at any point between its ends. */
  lemma {:induction false} SubstringSplit(t: string, lo: nat, mid: nat, hi: nat)
    requires lo <= mid <= hi <= |t|
    ensures Substring(t, lo, hi) == Substring(t, lo, mid) + Substring(t, mid, hi)
    decreases mid - lo
  {
    if lo < mid {
      SubstringSplit(t, lo + 1, mid, hi);
    }
  }

  /** `Substring` is Dafny's slice. */
  lemma SubstringIsSlice(t: string, lo: nat, hi: nat)
    requires lo <= hi <= |t|
    ensures Substring(t, lo, hi) == t[lo..hi]
  {
    SubstringLength(t, lo, hi);
    forall k | lo <= k < hi
      ensures Substring(t, lo, hi)[k - lo] == t[k]
    {
      SubstringAt(t, lo, hi, k);
    }
  }

  /** `tokens` were cut from `source` at `spans`: each lexeme is its span's
      text, spans lie below `bound` and follow one another without overlap. */
  predicate WellSpanned(source: string, tokens: seq<Token>, spans: seq<Span>, bound: nat) {
    && bound <= |source|
    && |spans| == |tokens|
    && (forall i :: 0 <= i < |spans| ==> spans[i].lo <= spans[i].hi <= bound)
    && (forall i :: 0 <= i < |spans| ==> tokens[i].lexeme == Substring(source, spans[i].lo, spans[i].hi))
    && (forall i, j :: 0 <= i < j < |spans| ==> spans[i].hi <= spans[j].lo)
  }

  /** Token and error lines are positive, never ahead of `line`, and never
      decrease along the list. */
  predicate LinesOrdered(tokens: seq<Token>, errors: seq<LexError>, line: nat) {
    && (forall i :: 0 <= i < |tokens| ==> 1 <= tokens[i].line <= line)
    && (forall i, j :: 0 <= i < j < |tokens| ==> tokens[i].line <= tokens[j].line)
    && (forall i :: 0 <= i < |errors| ==> 1 <= errors[i].line <= line)
    && (forall i, j :: 0 <= i < j < |errors| ==> errors[i].line <= errors[j].line)
  }

  /** Every logged error carries one of the scanner's two messages. */
  predicate KnownErrors(errors: seq<LexError>) {
    forall i :: 0 <= i < |errors| ==>
      errors[i].message == UnexpectedCharacter || errors[i].message == UnterminatedString
  }

  /** The invariant that holds between two calls of `scanToken`: cursors in
      range, every token a non-empty, non-end-of-input cut of the source
      ending by `current`, lines ordered, errors of the two known kinds. */
  predicate Valid(s: Scanner) {
    && s.start <= s.current <= |s.source|
    && s.line >= 1
    && WellSpanned(s.source, s.tokens, s.spans, s.current)
    && (forall i :: 0 <= i < |s.spans| ==> s.spans[i].lo < s.spans[i].hi)
    && (forall i :: 0 <= i < |s.tokens| ==> s.tokens[i].kind != Eof)
    && LinesOrdered(s.tokens, s.errors, s.line)
    && KnownErrors(s.errors)
  }

  /** The state at which `scanToken` is entered: `start` set to `current`,
      and at least one unread character. */
  predicate Ready(s: Scanner) {
    s.start == s.current < |s.source|
  }

  /** `r` is `s` with one token appended, cut from `[s.start, r.current)`,
      tagged with `r.line`, and not an end-of-input token. */
  predicate Emitted(s: Scanner, r: Scanner) {
    && s.start < r.current <= |r.source|
    && |r.tokens| == |s.tokens| + 1
    && r.tokens[..|s.tokens|] == s.tokens
    && r.spans == s.spans + [Span(s.start, r.current)]
    && r.tokens[|s.tokens|].kind != Eof
    && r.tokens[|s.tokens|].lexeme == Substring(r.source, s.start, r.current)
    && r.tokens[|s.tokens|].line == r.line
  }

  /** `r` is `s` with one error of a known kind appended at `r.line`. */
  predicate Logged(s: Scanner, r: Scanner) {
    && |r.errors| == |s.errors| + 1
    && r.errors[..|s.errors|] == s.errors
    && r.errors[|s.errors|].line == r.line
    && (r.errors[|s.errors|].message == UnexpectedCharacter
        || r.errors[|s.errors|].message == UnterminatedString)
  }

  /** What the rest of one `scanToken` call does to a state `s` it has
      reached: the source and `start` are kept, `current` never moves back,
      `line` never drops, and either nothing is appended, or one token, or
      one error, never both. */
  predicate StepFrom(s: Scanner, r: Scanner) {
    && r.source == s.source
    && r.start == s.start
    && s.current <= r.current <= |r.source|
    && s.line <= r.line
    && ((r.tokens == s.tokens && r.spans == s.spans) || Emitted(s, r))
    && (r.errors == s.errors || Logged(s, r))
    && (r.tokens == s.tokens || r.errors == s.errors)
  }

  /** A whole `scanToken` call: a `StepFrom` that consumes at least one
      character. */
  predicate Follows(s: Scanner, r: Scanner) {
    StepFrom(s, r) && s.current < r.current
  }

  function Init(source: string): Scanner {
    Scanner(source, 0, 0, 1, [], [], [])
  }

  predicate IsAtEnd(s: Scanner) {
    s.current >= |s.source|
  }

  /** The next unread character, or NUL past the end. */
  function Peek(s: Scanner): char {
    if IsAtEnd(s) then '\0' else s.source[s.current]
  }

  /** The character after the next one, or NUL past the end. */
  function PeekNext(s: Scanner): char {
    if s.current + 1 >= |s.source| then '\0' else s.source[s.current + 1]
  }

  /** Consumes one character; the character is `s.source[s.current]`. */
  function Advance(s: Scanner): Scanner
    requires s.current < |s.source|
  {
    s.(current := s.current + 1)
  }

  /** Consumes the next character only if it is `expected`. */
  function Match(s: Scanner, expected: char): (bool, Scanner) {
    if IsAtEnd(s) then (false, s)
    else if s.source[s.current] != expected then (false, s)
    else (true, s.(current := s.current + 1))
  }

  /** Emits a token of `kind` whose lexeme is the text from `start` to
      `current`, tagged with the current line. */
  function AddToken(s: Scanner, kind: Kind, literal: Literal): Scanner
    requires s.start <= s.current <= |s.source|
  {
    s.(tokens := s.tokens + [Token(kind, Substring(s.source, s.start, s.current), literal, s.line)],
       spans := s.spans + [Span(s.start, s.current)])
  }

  /** The error sink: appends `(line, message)` to the log. */
  function ReportError(s: Scanner, message: string): Scanner {
    s.(errors := s.errors + [LexError(s.line, message)])
  }

  /** The line-comment loop: skips up to, not including, the next newline. */
  function SkipLineComment(s: Scanner): (r: Scanner)
    requires s.current <= |s.source|
    ensures s.current <= r.current <= |s.source|
    ensures r == s.(current := r.current)
    ensures forall k :: s.current <= k < r.current ==> s.source[k] != '\n'
    ensures r.current == |s.source| || s.source[r.current] == '\n'
    decreases |s.source| - s.current
  {
    if Peek(s) != '\n' && !IsAtEnd(s) then SkipLineComment(Advance(s)) else s
  }

  /** The block-comment loop as written: it stops at the first position
      whose character is `*` or whose following character is `/`, or at the
      end. It consumes neither, and does not count newlines. */
  function SkipBlockComment(s: Scanner): (r: Scanner)
    requires s.current <= |s.source|
    ensures s.current <= r.current <= |s.source|
    ensures r == s.(current := r.current)
    ensures forall k :: s.current <= k < r.current ==> s.source[k] != '*'
    ensures forall k :: s.current < k <= r.current && k < |s.source| ==> s.source[k] != '/'
    ensures || r.current == |s.source|
            || s.source[r.current] == '*'
            || (r.current + 1 < |s.source| && s.source[r.current + 1] == '/')
    decreases |s.source| - s.current
  {
    if Peek(s) != '*' && PeekNext(s) != '/' && !IsAtEnd(s) then SkipBlockComment(Advance(s)) else s
  }

  /** The digit loop: skips the run of digits starting at `current`. */
  function SkipDigits(s: Scanner): (r: Scanner)
    requires s.current <= |s.source|
    ensures s.current <= r.current <= |s.source|
    ensures r == s.(current := r.current)
    decreases |s.source| - s.current
  {
    if IsDigit(Peek(s)) then SkipDigits(Advance(s)) else s
  }

  /** The identifier loop: skips the run of letters, digits and `_`
      starting at `current`. */
  function SkipAlphaNumeric(s: Scanner): (r: Scanner)
    requires s.current <= |s.source|
    ensures s.current <= r.current <= |s.source|
    ensures r == s.(current := r.current)
    ensures forall k :: s.current <= k < r.current ==> IsAlphaNumeric(s.source[k])
    ensures r.current == |s.source| || !IsAlphaNumeric(s.source[r.current])
    decreases |s.source| - s.current
  {
    if IsAlphaNumeric(Peek(s)) then SkipAlphaNumeric(Advance(s)) else s
  }

  /** Number of newline characters in `Substring(source, lo, hi)`. */
  function NewlinesIn(source: string, lo: nat, hi: nat): nat
    requires lo <= hi <= |source|
    decreases hi - lo
  {
    if lo == hi then 0 else (if source[lo] == '\n' then 1 else 0) + NewlinesIn(source, lo + 1, hi)
  }

  /** The string-body loop: skips to the closing quote or the end, counting
      every newline it passes. */
  function SkipStringBody(s: Scanner): (r: Scanner)
    requires s.current <= |s.source|
    ensures s.current <= r.current <= |s.source|
    ensures r == s.(current := r.current, line := s.line + NewlinesIn(s.source, s.current, r.current))
    ensures forall k :: s.current <= k < r.current ==> s.source[k] != '"'
    ensures r.current == |s.source| || s.source[r.current] == '"'
    decreases |s.source| - s.current
  {
    if Peek(s) != '"' && !IsAtEnd(s) then
      var s' := if Peek(s) == '\n' then s.(line := s.line + 1) else s;
      SkipStringBody(Advance(s'))
    else
      s
  }

  /** `identifier()`: the maximal alphanumeric run, classified through the
      reserved-word table. */
  function ScanIdentifier(s: Scanner): Scanner
    requires s.start < s.current <= |s.source|
  {
    AddWord(SkipAlphaNumeric(s))
  }

  /** The rest of `identifier()` once its loop has stopped: the text from
      `start` is looked up in the table. */
  function AddWord(s1: Scanner): Scanner
    requires s1.start < s1.current <= |s1.source|
  {
    var text := Substring(s1.source, s1.start, s1.current);
    AddToken(s1, if text in Keywords then Keywords[text] else Identifier, NoLiteral)
  }

  /** `number()`: a digit run, then a fraction only when a `.` is directly
      followed by a digit. */
  function ScanNumber(s: Scanner): Scanner
    requires s.start < s.current <= |s.source|
  {
    NumberAfterWhole(SkipDigits(s))
  }

  /** The rest of `number()` once the whole-part loop has stopped at
      `s1.current`. */
  function NumberAfterWhole(s1: Scanner): Scanner
    requires s1.start < s1.current <= |s1.source|
  {
    if Peek(s1) == '.' && IsDigit(PeekNext(s1)) then
      AddNumber(SkipDigits(Advance(s1)), s1.current)
    else
      AddNumber(s1, s1.current)
  }

  /** Emits the number from `start` to `current`, its literal split at
      `point`: the digits before it, and those after the `.` at `point` when
      the lexeme goes on past it. */
  function AddNumber(s2: Scanner, point: nat): Scanner
    requires s2.start < point <= s2.current <= |s2.source|
  {
    var whole := Substring(s2.source, s2.start, point);
    var fraction := if point < s2.current then Substring(s2.source, point + 1, s2.current) else "";
    AddToken(s2, Number, Decimal(whole, fraction))
  }

  /** `string()`: the body loop, then the closing step. */
  function ScanString(s: Scanner): Scanner
    requires s.start < s.current <= |s.source|
  {
    CloseString(SkipStringBody(s))
  }

  /** The rest of `string()` once its body loop has stopped: an
      unterminated string at the end of input, otherwise the closing quote
      is consumed and the text between the quotes emitted. */
  function CloseString(s1: Scanner): Scanner
    requires s1.start < s1.current <= |s1.source|
  {
    if IsAtEnd(s1) then
      ReportError(s1, UnterminatedString)
    else
      var s2 := Advance(s1);
      AddToken(s2, Str, Text(Substring(s2.source, s2.start + 1, s2.current - 1)))
  }

  /** `addToken(match('=') ? two : one)` for `!`, `=`, `<` and `>`. */
  function ScanOperator(s: Scanner, one: Kind, two: Kind): Scanner
    requires s.start < s.current <= |s.source|
  {
    var (m, s1) := Match(s, '=');
    AddToken(s1, if m then two else one, NoLiteral)
  }

  /** The `/` case: a line comment, a block comment, or a `Slash` token. */
  function ScanSlash(s: Scanner): Scanner
    requires s.start < s.current <= |s.source|
  {
    var (slash, s1) := Match(s, '/');
    if slash then SkipLineComment(s1)
    else
      var (star, s2) := Match(s1, '*');
      if star then SkipBlockComment(s2)
      else AddToken(s2, Slash, NoLiteral)
  }

  /** Each branch helper of `scanToken` is one scanning step from the
      state after the first character: it emits at most one token, cut from
      `start` to where it stops, or logs at most one error. */
  lemma IdentifierSteps(s: Scanner)
    requires s.start < s.current <= |s.source|
    ensures StepFrom(s, ScanIdentifier(s))
  {
    KeywordTableShape();
  }

  lemma NumberSteps(s: Scanner)
    requires s.start < s.current <= |s.source|
    ensures StepFrom(s, ScanNumber(s))
  {
  }

  lemma StringSteps(s: Scanner)
    requires s.start < s.current <= |s.source|
    ensures StepFrom(s, ScanString(s))
  {
  }

  lemma OperatorSteps(s: Scanner, one: Kind, two: Kind)
    requires s.start < s.current <= |s.source| && one != Eof && two != Eof
    ensures StepFrom(s, ScanOperator(s, one, two))
  {
  }

  lemma SlashSteps(s: Scanner)
    requires s.start < s.current <= |s.source|
    ensures StepFrom(s, ScanSlash(s))
  {
  }

  /** `scanToken()`: consumes one character and dispatches on it. */
  function ScanToken(s: Scanner): (r: Scanner)
    requires Ready(s)
    ensures Follows(s, r)
  {
    var c := s.source[s.current];
    var s1 := Advance(s);
    match c
    case '(' => AddToken(s1, LeftParen, NoLiteral)
    case ')' => AddToken(s1, RightParen, NoLiteral)
    case '{' => AddToken(s1, LeftBrace, NoLiteral)
    case '}' => AddToken(s1, RightBrace, NoLiteral)
    case ',' => AddToken(s1, Comma, NoLiteral)
    case '.' => AddToken(s1, Dot, NoLiteral)
    case '-' => AddToken(s1, Minus, NoLiteral)
    case '+' => AddToken(s1, Plus, NoLiteral)
    case ';' => AddToken(s1, Semicolon, NoLiteral)
    case '*' => AddToken(s1, Star, NoLiteral)
    case '!' => OperatorSteps(s1, Bang, BangEqual); ScanOperator(s1, Bang, BangEqual)
    case '=' => OperatorSteps(s1, Equal, EqualEqual); ScanOperator(s1, Equal, EqualEqual)
    case '<' => OperatorSteps(s1, Less, LessEqual); ScanOperator(s1, Less, LessEqual)
    case '>' => OperatorSteps(s1, Greater, GreaterEqual); ScanOperator(s1, Greater, GreaterEqual)
    case '/' => SlashSteps(s1); ScanSlash(s1)
    case ' ' => s1
    case '\r' => s1
    case '\t' => s1
    case '\n' => s1.(line := s1.line + 1)
    case '"' => StringSteps(s1); ScanString(s1)
    case _ =>
      if IsDigit(c) then NumberSteps(s1); ScanNumber(s1)
      else if IsAlpha(c) then IdentifierSteps(s1); ScanIdentifier(s1)
      else ReportError(s1, UnexpectedCharacter)
  }

  /** The `while (!isAtEnd())` loop of `scanTokens`. */
  function ScanLoop(s: Scanner): (r: Scanner)
    requires s.start <= s.current <= |s.source|
    ensures r.source == s.source && r.current == |s.source|
    ensures s.tokens <= r.tokens && s.spans <= r.spans && s.errors <= r.errors
    ensures s.line <= r.line
    decreases |s.source| - s.current
  {
    if IsAtEnd(s) then s else ScanLoop(ScanToken(s.(start := s.current)))
  }

  lemma WellSpannedAppend(source: string, tokens: seq<Token>, spans: seq<Span>, bound: nat,
                          t: Token, sp: Span, bound': nat)
    requires WellSpanned(source, tokens, spans, bound)
    requires bound <= sp.lo <= sp.hi <= bound' <= |source|
    requires t.lexeme == Substring(source, sp.lo, sp.hi)
    ensures WellSpanned(source, tokens + [t], spans + [sp], bound')
  {
  }

  lemma LinesAppendToken(tokens: seq<Token>, errors: seq<LexError>, line: nat, t: Token, line': nat)
    requires LinesOrdered(tokens, errors, line)
    requires line <= line' && 1 <= t.line == line'
    ensures LinesOrdered(tokens + [t], errors, line')
  {
  }

  lemma LinesAppendError(tokens: seq<Token>, errors: seq<LexError>, line: nat, e: LexError, line': nat)
    requires LinesOrdered(tokens, errors, line)
    requires line <= line' && 1 <= e.line == line'
    ensures LinesOrdered(tokens, errors + [e], line')
  {
  }

  /** Appending one non-empty, non-end-of-input token cut from just after
      the last span keeps the invariant. */
  lemma ValidAppendToken(s: Scanner, r: Scanner, t: Token)
    requires Valid(s) && s.start == s.current
    requires r.source == s.source && r.start == s.start
    requires s.current < r.current <= |r.source| && s.line <= r.line
    requires r.tokens == s.tokens + [t] && r.spans == s.spans + [Span(s.start, r.current)]
    requires r.errors == s.errors
    requires t.kind != Eof && t.lexeme == Substring(r.source, s.start, r.current) && t.line == r.line
    ensures Valid(r)
  {
    WellSpannedAppend(s.source, s.tokens, s.spans, s.current, t, Span(s.start, r.current), r.current);
    LinesAppendToken(s.tokens, s.errors, s.line, t, r.line);
    assert forall i :: 0 <= i < |r.spans| ==> r.spans[i].lo < r.spans[i].hi by {
      forall i | 0 <= i < |r.spans| ensures r.spans[i].lo < r.spans[i].hi {
        if i < |s.spans| { assert r.spans[i] == s.spans[i]; }
      }
    }
    assert forall i :: 0 <= i < |r.tokens| ==> r.tokens[i].kind != Eof by {
      forall i | 0 <= i < |r.tokens| ensures r.tokens[i].kind != Eof {
        if i < |s.tokens| { assert r.tokens[i] == s.tokens[i]; }
      }
    }
  }

  /** Appending one known error at the reached line keeps the invariant. */
  lemma ValidAppendError(s: Scanner, r: Scanner, e: LexError)
    requires Valid(s)
    requires r.source == s.source && r.start == s.start
    requires s.current <= r.current <= |r.source| && s.line <= r.line
    requires r.tokens == s.tokens && r.spans == s.spans && r.errors == s.errors + [e]
    requires e.line == r.line
    requires e.message == UnexpectedCharacter || e.message == UnterminatedString
    ensures Valid(r)
  {
    LinesAppendError(s.tokens, s.errors, s.line, e, r.line);
    assert KnownErrors(r.errors) by {
      forall i | 0 <= i < |r.errors|
        ensures r.errors[i].message == UnexpectedCharacter || r.errors[i].message == UnterminatedString
      {
        if i < |s.errors| { assert r.errors[i] == s.errors[i]; }
      }
    }
  }

  /** Moving the cursor and the line forward keeps the invariant. */
  lemma ValidQuiet(s: Scanner, r: Scanner)
    requires Valid(s)
    requires r.source == s.source && r.start == s.start
    requires s.current <= r.current <= |r.source| && s.line <= r.line
    requires r.tokens == s.tokens && r.spans == s.spans && r.errors == s.errors
    ensures Valid(r)
  {
  }

  /** One `scanToken` call keeps the invariant. */
  lemma ValidStep(s: Scanner, r: Scanner)
    requires Valid(s) && Ready(s) && Follows(s, r)
    ensures Valid(r)
  {
    if r.tokens != s.tokens {
      assert Emitted(s, r);
      var t := r.tokens[|s.tokens|];
      assert r.tokens == s.tokens + [t];
      ValidAppendToken(s, r, t);
    } else if r.errors != s.errors {
      assert Logged(s, r);
      var e := r.errors[|s.errors|];
      assert r.errors == s.errors + [e];
      ValidAppendError(s, r, e);
    } else {
      ValidQuiet(s, r);
    }
  }

  /** The scanning loop keeps the invariant from its first iteration to its
      last. */
  lemma {:induction false} ScanLoopValid(s: Scanner)
    requires Valid(s)
    ensures Valid(ScanLoop(s))
    decreases |s.source| - s.current
  {
    if !IsAtEnd(s) {
      var s' := s.(start := s.current);
      var r := ScanToken(s');
      ValidStep(s', r);
      ScanLoopValid(r);
    }
  }

  /** `scanTokens()`: scans the whole source, then appends the end-of-input
      token, whose lexeme is empty and whose line is the final line. */
  function ScanTokens(source: string): (r: Scanner)
    ensures r.source == source && r.current == |source|
    ensures |r.tokens| >= 1
    ensures r.tokens[|r.tokens| - 1] == Token(Eof, "", NoLiteral, r.line)
    ensures forall i :: 0 <= i < |r.tokens| - 1 ==> r.tokens[i].kind != Eof
    ensures WellSpanned(source, r.tokens, r.spans, |source|)
    ensures forall i :: 0 <= i < |r.tokens| - 1 ==> r.spans[i].lo < r.spans[i].hi
    ensures LinesOrdered(r.tokens, r.errors, r.line)
    ensures KnownErrors(r.errors)
  {
    var s := ScanLoop(Init(source));
    ScanLoopValid(Init(source));
    var eof := Token(Eof, "", NoLiteral, s.line);
    WellSpannedAppend(source, s.tokens, s.spans, s.current, eof, Span(|source|, |source|), |source|);
    LinesAppendToken(s.tokens, s.errors, s.line, eof, s.line);
    s.(tokens := s.tokens + [eof], spans := s.spans + [Span(|source|, |source|)])
  }
}
