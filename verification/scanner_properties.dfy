/** What one `scanToken` call does, branch by branch, stated against the
    characters it reads rather than against the dispatch code. Each lemma
    starts from a state where `start == current` and a character is left. */
module ScannerProperties {
  import opened Tokens
  import opened Scanning

  /** The one-character punctuation and the kind each emits. */
  const Punctuation: set<char> := {'(', ')', '{', '}', ',', '.', '-', '+', ';', '*'}

  function PunctuationKind(c: char): Kind
    requires c in Punctuation
  {
    match c
    case '(' => LeftParen
    case ')' => RightParen
    case '{' => LeftBrace
    case '}' => RightBrace
    case ',' => Comma
    case '.' => Dot
    case '-' => Minus
    case '+' => Plus
    case ';' => Semicolon
    case _ => Star
  }

  /** The operators that have a two-character form ending in `=`. */
  const Operators: set<char> := {'!', '=', '<', '>'}

  function OneCharKind(c: char): Kind
    requires c in Operators
  {
    match c
    case '!' => Bang
    case '=' => Equal
    case '<' => Less
    case _ => Greater
  }

  function TwoCharKind(c: char): Kind
    requires c in Operators
  {
    match c
    case '!' => BangEqual
    case '=' => EqualEqual
    case '<' => LessEqual
    case _ => GreaterEqual
  }

  /** Characters that are skipped without effect. */
  const Blanks: set<char> := {' ', '\r', '\t'}

  /** Characters that start some lexeme, or are skipped on purpose. */
  predicate Recognized(c: char) {
    c in Punctuation || c in Operators || c in Blanks || c == '/' || c == '\n' || c == '"'
    || IsDigit(c) || IsAlpha(c)
  }

  /** The state after `s` with one token emitted over `[s.current, hi)`.
      This is `addToken` seen from the token's first character rather than
      from `start` (`AddTokenIsEmit`), which is how every branch lemma below
      states its result. */
  function Emit(s: Scanner, kind: Kind, hi: nat, literal: Literal): Scanner
    requires s.current <= hi <= |s.source|
  {
    s.(current := hi,
       tokens := s.tokens + [Token(kind, Substring(s.source, s.current, hi), literal, s.line)],
       spans := s.spans + [Span(s.current, hi)])
  }

  /** A punctuation character emits its one-character token and nothing else
      changes but the cursor. */
  lemma PunctuationEmitsOneToken(s: Scanner)
    requires Ready(s) && s.source[s.current] in Punctuation
    ensures ScanToken(s) == Emit(s, PunctuationKind(s.source[s.current]), s.current + 1, NoLiteral)
  {
  }

  /** `!`, `=`, `<`, `>` emit the two-character kind exactly when the next
      character is `=`, which is then consumed; otherwise (including at the
      end) the one-character kind, and only the operator is consumed. */
  lemma OperatorMatchesEqual(s: Scanner)
    requires Ready(s) && s.source[s.current] in Operators
    ensures var c := s.source[s.current];
            var two := s.current + 1 < |s.source| && s.source[s.current + 1] == '=';
            ScanToken(s) == if two then Emit(s, TwoCharKind(c), s.current + 2, NoLiteral)
                            else Emit(s, OneCharKind(c), s.current + 1, NoLiteral)
  {
    var c := s.source[s.current];
    DispatchOperator(s);
    OperatorIsEmit(s, OneCharKind(c), TwoCharKind(c));
  }

  lemma DispatchOperator(s: Scanner)
    requires Ready(s) && s.source[s.current] in Operators
    ensures var c := s.source[s.current];
            ScanToken(s) == ScanOperator(Advance(s), OneCharKind(c), TwoCharKind(c))
  {
  }

  lemma OperatorIsEmit(s: Scanner, one: Kind, two: Kind)
    requires Ready(s)
    ensures var m := s.current + 1 < |s.source| && s.source[s.current + 1] == '=';
            ScanOperator(Advance(s), one, two)
              == if m then Emit(s, two, s.current + 2, NoLiteral) else Emit(s, one, s.current + 1, NoLiteral)
  {
  }

  /** Space, carriage return and tab only move the cursor. */
  lemma BlankSkipped(s: Scanner)
    requires Ready(s) && s.source[s.current] in Blanks
    ensures ScanToken(s) == s.(current := s.current + 1)
  {
  }

  /** A newline moves the cursor and adds exactly one to `line`. */
  lemma NewlineCounted(s: Scanner)
    requires Ready(s) && s.source[s.current] == '\n'
    ensures ScanToken(s) == s.(current := s.current + 1, line := s.line + 1)
  {
  }

  /** `//` skips up to, not including, the next newline or the end, and
      emits nothing. */
  lemma LineCommentSkipped(s: Scanner)
    requires Ready(s) && s.source[s.current] == '/'
    requires s.current + 1 < |s.source| && s.source[s.current + 1] == '/'
    ensures var r := ScanToken(s);
            && r == s.(current := r.current)
            && s.current + 2 <= r.current
            && (forall k :: s.current + 2 <= k < r.current ==> s.source[k] != '\n')
            && (r.current == |s.source| || s.source[r.current] == '\n')
  {
  }

  /** A block comment (slash, star) as written: characters are skipped only while the next one is not
      `*`, the one after it is not `/`, and the end is not reached. Nothing
      is emitted or logged, `line` is not changed even across newlines, and
      the stopping `*` (or the character before a `/`) is left unread. */
  lemma BlockCommentAsWritten(s: Scanner)
    requires Ready(s) && s.source[s.current] == '/'
    requires s.current + 1 < |s.source| && s.source[s.current + 1] == '*'
    ensures var r := ScanToken(s);
            && r == s.(current := r.current)
            && s.current + 2 <= r.current
            && (forall k :: s.current + 2 <= k < r.current ==> s.source[k] != '*')
            && (forall k :: s.current + 2 < k <= r.current && k < |s.source| ==> s.source[k] != '/')
            && (|| r.current == |s.source|
                || s.source[r.current] == '*'
                || (r.current + 1 < |s.source| && s.source[r.current + 1] == '/'))
  {
  }

  /** A `/` followed by neither `/` nor `*` (or by nothing) is a `Slash`. */
  lemma LoneSlashEmitted(s: Scanner)
    requires Ready(s) && s.source[s.current] == '/'
    requires !(s.current + 1 < |s.source| && (s.source[s.current + 1] == '/' || s.source[s.current + 1] == '*'))
    ensures ScanToken(s) == Emit(s, Slash, s.current + 1, NoLiteral)
  {
  }

  /** Any other character logs exactly one "Unexpected character" at the
      current line; scanning resumes at the next character. */
  lemma UnexpectedCharacterLogged(s: Scanner)
    requires Ready(s) && !Recognized(s.source[s.current])
    ensures ScanToken(s) == s.(current := s.current + 1,
                               errors := s.errors + [LexError(s.line, UnexpectedCharacter)])
  {
  }

  lemma DispatchDigit(s: Scanner)
    requires Ready(s) && IsDigit(s.source[s.current])
    ensures ScanToken(s) == ScanNumber(Advance(s))
  {
  }

  lemma DispatchAlpha(s: Scanner)
    requires Ready(s) && IsAlpha(s.source[s.current])
    ensures ScanToken(s) == ScanIdentifier(Advance(s))
  {
  }

  /** `addToken` is `Emit` from the token's start. */
  lemma AddTokenIsEmit(s: Scanner, kind: Kind, literal: Literal)
    requires s.start <= s.current <= |s.source|
    ensures AddToken(s, kind, literal) == Emit(s.(current := s.start), kind, s.current, literal)
  {
  }

  lemma NumberUnfolds(s: Scanner)
    requires s.start < s.current <= |s.source|
    ensures ScanNumber(s) == NumberAfterWhole(SkipDigits(s))
  {
  }

  /** The characters from `lo` up to `hi` are all digits. */
  lemma DigitRun(t: string, lo: nat, hi: nat)
    requires lo <= hi <= |t|
    requires forall k :: lo <= k < hi ==> IsDigit(t[k])
    ensures AllDigits(Substring(t, lo, hi))
  {
    var w := Substring(t, lo, hi);
    SubstringLength(t, lo, hi);
    forall k | 0 <= k < |w| ensures IsDigit(w[k]) {
      SubstringAt(t, lo, hi, lo + k);
    }
  }

  /** Text with a `.` at `p` is its two sides joined by `DecimalText`. */
  lemma PointSplit(t: string, lo: nat, p: nat, hi: nat)
    requires lo <= p && p + 1 < hi <= |t| && t[p] == '.'
    ensures Substring(t, lo, hi) == DecimalText(Substring(t, lo, p), Substring(t, p + 1, hi))
  {
    SubstringSplit(t, lo, p, hi);
    SubstringSplit(t, p, p + 1, hi);
    SubstringLength(t, p + 1, hi);
    var w := Substring(t, lo, p);
    var f := Substring(t, p + 1, hi);
    assert Substring(t, p, p + 1) == ".";
    assert w + ("." + f) == w + "." + f;
  }

  /** Where the digit run starting at `i` ends. */
  function DigitsEnd(t: string, i: nat): (j: nat)
    requires i <= |t|
    ensures i <= j <= |t|
    decreases |t| - i
  {
    if i < |t| && IsDigit(t[i]) then DigitsEnd(t, i + 1) else i
  }

  /** The run is all digits and cannot be extended. */
  lemma {:induction false} DigitsEndIsMaximal(t: string, i: nat)
    requires i <= |t|
    ensures forall k :: i <= k < DigitsEnd(t, i) ==> IsDigit(t[k])
    ensures DigitsEnd(t, i) == |t| || !IsDigit(t[DigitsEnd(t, i)])
    decreases |t| - i
  {
    if i < |t| && IsDigit(t[i]) {
      DigitsEndIsMaximal(t, i + 1);
    }
  }

  /** The end of a number lexeme whose first digit is at `i`: the whole
      part, then a `.` and a second digit run when a digit follows the `.`. */
  function NumberEnd(t: string, i: nat): (e: nat)
    requires i <= |t|
    ensures DigitsEnd(t, i) <= e <= |t|
  {
    var w := DigitsEnd(t, i);
    if w + 1 < |t| && t[w] == '.' && IsDigit(t[w + 1]) then DigitsEnd(t, w + 1) else w
  }

  /** The literal of the number whose first digit is at `i`: the digits
      before the point and, when the lexeme goes past it, after it. */
  function NumberLiteral(t: string, i: nat): Literal
    requires i <= |t|
  {
    var w := DigitsEnd(t, i);
    var e := NumberEnd(t, i);
    Decimal(Substring(t, i, w), if w < e then Substring(t, w + 1, e) else "")
  }

  /** The digit loop stops where the digit run ends. */
  lemma {:induction false} SkipDigitsEnd(s: Scanner)
    requires s.current <= |s.source|
    ensures SkipDigits(s).current == DigitsEnd(s.source, s.current)
    decreases |s.source| - s.current
  {
    if IsDigit(Peek(s)) {
      SkipDigitsEnd(Advance(s));
    }
  }

  /** The digit run from a digit ends where the run from the next
      character ends, and so does the number. */
  lemma NumberEndStep(t: string, i: nat)
    requires i < |t| && IsDigit(t[i])
    ensures DigitsEnd(t, i) == DigitsEnd(t, i + 1)
    ensures NumberEnd(t, i) == NumberEnd(t, i + 1)
  {
  }

  /** Where the whole-part loop `d` of a number whose first digit is at
      `a.start` stops, and what it sees there. */
  lemma WholeLoopEnd(a: Scanner, d: Scanner)
    requires a.current == a.start + 1 <= |a.source| && IsDigit(a.source[a.start])
    requires d == SkipDigits(a)
    ensures d == a.(current := DigitsEnd(a.source, a.start))
    ensures (Peek(d) == '.' && IsDigit(PeekNext(d)))
            == (d.current + 1 < |a.source| && a.source[d.current] == '.' && IsDigit(a.source[d.current + 1]))
  {
    SkipDigitsEnd(a);
    NumberEndStep(a.source, a.start);
  }

  /** Where the fraction loop `e` of that number stops. */
  lemma FractionLoopEnd(a: Scanner, d: Scanner, e: Scanner)
    requires a.current == a.start + 1 <= |a.source| && IsDigit(a.source[a.start])
    requires d == a.(current := DigitsEnd(a.source, a.start))
    requires d.current + 1 < |a.source| && a.source[d.current] == '.' && IsDigit(a.source[d.current + 1])
    requires e == SkipDigits(Advance(d))
    ensures e == a.(current := NumberEnd(a.source, a.start))
  {
    SkipDigitsEnd(Advance(d));
  }

  /** `number()` entered after its first digit, in terms of `NumberEnd`. */
  lemma NumberUnfoldsAt(a: Scanner)
    requires a.current == a.start + 1 <= |a.source| && IsDigit(a.source[a.start])
    ensures ScanNumber(a)
            == AddNumber(a.(current := NumberEnd(a.source, a.start)), DigitsEnd(a.source, a.start))
  {
    var d := SkipDigits(a);
    NumberUnfolds(a);
    WholeLoopEnd(a, d);
    if Peek(d) == '.' && IsDigit(PeekNext(d)) {
      FractionLoopEnd(a, d, SkipDigits(Advance(d)));
    }
  }

  /** `number()` entered after its first digit: the token runs to
      `NumberEnd` and carries `NumberLiteral`. */
  lemma NumberFromFirstDigit(a: Scanner)
    requires a.current == a.start + 1 <= |a.source| && IsDigit(a.source[a.start])
    ensures ScanNumber(a)
            == AddToken(a.(current := NumberEnd(a.source, a.start)), Number, NumberLiteral(a.source, a.start))
  {
    var t := a.source;
    var x := a.(current := NumberEnd(t, a.start));
    var w := DigitsEnd(t, a.start);
    NumberUnfoldsAt(a);
    assert x.source == t && x.start == a.start && x.current == NumberEnd(t, a.start);
    assert NumberLiteral(t, a.start)
           == Decimal(Substring(x.source, x.start, w), if w < x.current then Substring(x.source, w + 1, x.current) else "");
  }

  /** A digit starts a number: the token spans `NumberEnd` and carries
      `NumberLiteral`. */
  lemma NumberScanned(s: Scanner)
    requires Ready(s) && IsDigit(s.source[s.current])
    ensures ScanToken(s) == Emit(s, Number, NumberEnd(s.source, s.current), NumberLiteral(s.source, s.current))
  {
    var a := Advance(s);
    var e := a.(current := NumberEnd(s.source, s.current));
    DispatchDigit(s);
    NumberFromFirstDigit(a);
    AddTokenIsEmit(e, Number, NumberLiteral(s.source, s.current));
    assert e.(current := e.start) == s;
  }

  /** The number lexeme cannot be extended: it ends at a non-digit or the
      end, and stops after its whole part only when no `.` and digit follow. */
  lemma NumberEndIsMaximal(t: string, i: nat)
    requires i < |t| && IsDigit(t[i])
    ensures var e := NumberEnd(t, i);
            && i < e
            && (e == |t| || !IsDigit(t[e]))
            && (e == DigitsEnd(t, i) ==> !(e + 1 < |t| && t[e] == '.' && IsDigit(t[e + 1])))
  {
    var w := DigitsEnd(t, i);
    DigitsEndIsMaximal(t, i);
    if w + 1 < |t| && t[w] == '.' && IsDigit(t[w + 1]) {
      DigitsEndIsMaximal(t, w + 1);
    }
  }

  /** A digit run that starts at a digit is a non-empty digit string. */
  lemma DigitRunFrom(t: string, i: nat)
    requires i < |t| && IsDigit(t[i])
    ensures i < DigitsEnd(t, i)
    ensures |Substring(t, i, DigitsEnd(t, i))| > 0
    ensures AllDigits(Substring(t, i, DigitsEnd(t, i)))
  {
    DigitsEndIsMaximal(t, i);
    DigitRun(t, i, DigitsEnd(t, i));
    SubstringLength(t, i, DigitsEnd(t, i));
  }

  /** Both halves of the literal are digit strings, the whole part is not
      empty, and the fraction is empty exactly when the lexeme stops after
      the whole part. */
  lemma NumberLiteralDigits(t: string, i: nat)
    requires i < |t| && IsDigit(t[i])
    ensures var lit := NumberLiteral(t, i);
            && |lit.whole| > 0 && AllDigits(lit.whole) && AllDigits(lit.fraction)
            && (lit.fraction == [] <==> NumberEnd(t, i) == DigitsEnd(t, i))
  {
    var w := DigitsEnd(t, i);
    DigitRunFrom(t, i);
    if w + 1 < |t| && t[w] == '.' && IsDigit(t[w + 1]) {
      var e := DigitsEnd(t, w + 1);
      DigitRunFrom(t, w + 1);
      assert NumberEnd(t, i) == e && NumberLiteral(t, i) == Decimal(Substring(t, i, w), Substring(t, w + 1, e));
    } else {
      assert NumberEnd(t, i) == w && NumberLiteral(t, i) == Decimal(Substring(t, i, w), "");
    }
  }

  /** The lexeme is the literal's text: the two halves joined at the point. */
  lemma NumberLiteralText(t: string, i: nat)
    requires i < |t| && IsDigit(t[i])
    ensures var lit := NumberLiteral(t, i);
            Substring(t, i, NumberEnd(t, i)) == DecimalText(lit.whole, lit.fraction)
  {
    var w := DigitsEnd(t, i);
    if w + 1 < |t| && t[w] == '.' && IsDigit(t[w + 1]) {
      var e := DigitsEnd(t, w + 1);
      SubstringLength(t, w + 1, e);
      assert NumberEnd(t, i) == e && NumberLiteral(t, i) == Decimal(Substring(t, i, w), Substring(t, w + 1, e));
      PointSplit(t, i, w, e);
    } else {
      assert NumberEnd(t, i) == w && NumberLiteral(t, i) == Decimal(Substring(t, i, w), "");
    }
  }

  /** A digit starts a number: a maximal digit run, then `.` and a digit run
      only when the `.` is directly followed by a digit. The literal splits
      the lexeme at the point. */
  lemma NumberIsMaximal(s: Scanner)
    requires Ready(s) && IsDigit(s.source[s.current])
    ensures var r := ScanToken(s);
            && s.current < r.current <= |s.source|
            && |r.tokens| == |s.tokens| + 1
            && var lit := r.tokens[|s.tokens|].literal;
               && lit.Decimal?
               && r == Emit(s, Number, r.current, lit)
               && Substring(s.source, s.current, r.current) == DecimalText(lit.whole, lit.fraction)
               && |lit.whole| > 0 && AllDigits(lit.whole) && AllDigits(lit.fraction)
               && (r.current == |s.source| || !IsDigit(s.source[r.current]))
               && (lit.fraction == [] ==>
                     !(r.current + 1 < |s.source| && s.source[r.current] == '.'
                       && IsDigit(s.source[r.current + 1])))
  {
    var e := NumberEnd(s.source, s.current);
    var lit := NumberLiteral(s.source, s.current);
    NumberScanned(s);
    NumberEndIsMaximal(s.source, s.current);
    NumberLiteralDigits(s.source, s.current);
    NumberLiteralText(s.source, s.current);
    assert ScanToken(s).current == e && ScanToken(s).tokens[|s.tokens|].literal == lit;
  }

  /** The characters from `lo` up to `hi` are all letters, digits or `_`. */
  lemma AlphaNumericRun(t: string, lo: nat, hi: nat)
    requires lo <= hi <= |t|
    requires forall k :: lo <= k < hi ==> IsAlphaNumeric(t[k])
    ensures AllAlphaNumeric(Substring(t, lo, hi))
  {
    var w := Substring(t, lo, hi);
    SubstringLength(t, lo, hi);
    forall k | 0 <= k < |w| ensures IsAlphaNumeric(w[k]) {
      SubstringAt(t, lo, hi, lo + k);
    }
  }

  /** Emitting a word whose loop moved the cursor from `s` to `e`. */
  lemma AddWordIsEmit(s: Scanner, e: Scanner)
    requires s.start < s.current <= e.current <= |s.source|
    requires e == s.(current := e.current)
    ensures var text := Substring(s.source, s.start, e.current);
            AddWord(e) == Emit(s.(current := s.start), if text in Keywords then Keywords[text] else Identifier,
                               e.current, NoLiteral)
  {
  }

  lemma IdentifierUnfolds(s: Scanner)
    requires s.start < s.current <= |s.source|
    ensures ScanIdentifier(s) == AddWord(SkipAlphaNumeric(s))
  {
  }

  /** A letter or `_` starts an identifier: the maximal run of letters,
      digits and `_`. Its kind is the reserved word's kind exactly when the
      text is in the table, and `Identifier` otherwise. */
  lemma IdentifierIsMaximal(s: Scanner)
    requires Ready(s) && IsAlpha(s.source[s.current])
    ensures var r := ScanToken(s);
            var text := Substring(s.source, s.current, r.current);
            && s.current < r.current <= |s.source|
            && |r.tokens| == |s.tokens| + 1
            && var kind := r.tokens[|s.tokens|].kind;
               && r == Emit(s, kind, r.current, NoLiteral)
               && AllAlphaNumeric(text)
               && (r.current == |s.source| || !IsAlphaNumeric(s.source[r.current]))
               && (kind == Identifier <==> text !in ReservedWords)
               && (text in ReservedWords ==> kind == Keywords[text])
  {
    var a := Advance(s);
    DispatchAlpha(s);
    IdentifierUnfolds(a);
    var e := SkipAlphaNumeric(a);
    var text := Substring(s.source, s.current, e.current);
    SubstringLength(s.source, s.current, e.current);
    AlphaNumericRun(s.source, s.current, e.current);
    KeywordTableShape();
    AddWordIsEmit(a, e);
  }

  lemma DispatchQuote(s: Scanner)
    requires Ready(s) && s.source[s.current] == '"'
    ensures ScanToken(s) == ScanString(Advance(s))
  {
  }

  /** `c` occurs in `t` at some index in `[lo, hi)`. */
  predicate Occurs(t: string, lo: nat, hi: nat, c: char) {
    exists k :: lo <= k < hi && k < |t| && t[k] == c
  }

  /** The string-body loop stops at the first quote when one is ahead. */
  lemma StringBodyFindsQuote(s: Scanner, b: Scanner)
    requires s.current <= |s.source| && b == SkipStringBody(s)
    requires Occurs(s.source, s.current, |s.source|, '"')
    ensures b.current < |s.source| && s.source[b.current] == '"'
    ensures !Occurs(s.source, s.current, b.current, '"')
  {
    if b.current == |s.source| {
      assert false;
    }
  }

  /** Closing a string whose body loop moved the cursor from `s` to the
      quote at `b.current`. */
  lemma CloseStringIsEmit(s: Scanner, b: Scanner)
    requires s.current == s.start + 1 <= b.current < |s.source|
    requires b == s.(current := b.current, line := b.line)
    ensures CloseString(b) == Emit(s.(current := s.start, line := b.line), Str, b.current + 1,
                                   Text(Substring(s.source, s.current, b.current)))
  {
  }

  lemma StringUnfolds(s: Scanner)
    requires s.start < s.current <= |s.source|
    ensures ScanString(s) == CloseString(SkipStringBody(s))
  {
  }

  /** `string()` when its body loop `b` stops at a quote. */
  lemma StringClosesAt(s: Scanner, b: Scanner)
    requires s.current == s.start + 1 <= |s.source|
    requires b == SkipStringBody(s) && b.current < |s.source|
    ensures ScanString(s) == Emit(s.(current := s.start, line := b.line), Str, b.current + 1,
                                  Text(Substring(s.source, s.current, b.current)))
  {
    StringUnfolds(s);
    CloseStringIsEmit(s, b);
  }

  /** `string()` when its body loop `b` reaches the end. */
  lemma StringReachesEnd(s: Scanner, b: Scanner)
    requires s.current == s.start + 1 <= |s.source|
    requires b == SkipStringBody(s) && b.current == |s.source|
    ensures ScanString(s) == b.(errors := s.errors + [LexError(b.line, UnterminatedString)])
  {
    StringUnfolds(s);
  }

  /** A string with a closing quote: the token runs from the opening quote
      through the closing one, its literal is the text strictly between
      them, which holds no quote, and `line` grows by the newlines in it;
      the token carries the line reached at the closing quote. */
  lemma TerminatedString(s: Scanner)
    requires Ready(s) && s.source[s.current] == '"'
    requires Occurs(s.source, s.current + 1, |s.source|, '"')
    ensures var r := ScanToken(s);
            && s.current + 2 <= r.current <= |s.source|
            && s.source[r.current - 1] == '"'
            && !Occurs(s.source, s.current + 1, r.current - 1, '"')
            && r.line == s.line + NewlinesIn(s.source, s.current + 1, r.current - 1)
            && r == Emit(s.(line := r.line), Str, r.current,
                         Text(Substring(s.source, s.current + 1, r.current - 1)))
  {
    var a := Advance(s);
    var b := SkipStringBody(a);
    DispatchQuote(s);
    StringBodyFindsQuote(a, b);
    StringClosesAt(a, b);
    assert a.(current := a.start) == s;
  }

  /** A string reaching the end of input: one "Unterminated string" at the
      line reached after counting its newlines, no token, cursor at end. */
  lemma UnterminatedStringLogged(s: Scanner)
    requires Ready(s) && s.source[s.current] == '"'
    requires !Occurs(s.source, s.current + 1, |s.source|, '"')
    ensures var line := s.line + NewlinesIn(s.source, s.current + 1, |s.source|);
            ScanToken(s) == s.(current := |s.source|, line := line,
                               errors := s.errors + [LexError(line, UnterminatedString)])
  {
    var a := Advance(s);
    var b := SkipStringBody(a);
    DispatchQuote(s);
    if b.current < |s.source| {
      assert false;
    }
    StringReachesEnd(a, b);
  }
}
