/** Facts about a whole `scanTokens` run, composed from the one-call
    lemmas by induction on the scanning loop. */
module WholeScan {
  import opened Tokens
  import opened Scanning
  import opened ScannerProperties

  /** Index of the first newline at or after `j`, or the length. */
  function LineEnd(t: string, j: nat): (e: nat)
    requires j <= |t|
    ensures j <= e <= |t|
    decreases |t| - j
  {
    if j == |t| || t[j] == '\n' then j else LineEnd(t, j + 1)
  }

  /** The one place a line-comment loop from `j` can stop. */
  lemma {:induction false} LineEndUnique(t: string, j: nat, e: nat)
    requires j <= e <= |t|
    requires forall k :: j <= k < e ==> t[k] != '\n'
    requires e == |t| || t[e] == '\n'
    ensures LineEnd(t, j) == e
    decreases e - j
  {
    if j < e {
      LineEndUnique(t, j + 1, e);
    }
  }

  /** From `i` on, the text is only blanks, newlines and `//` comments. */
  predicate QuietFrom(t: string, i: nat)
    requires i <= |t|
    decreases |t| - i
  {
    if i == |t| then true
    else if t[i] in Blanks || t[i] == '\n' then QuietFrom(t, i + 1)
    else if t[i] == '/' && i + 1 < |t| && t[i + 1] == '/' then QuietFrom(t, LineEnd(t, i + 2))
    else false
  }

  lemma {:induction false} NoNewlines(t: string, lo: nat, hi: nat)
    requires lo <= hi <= |t|
    requires forall k :: lo <= k < hi ==> t[k] != '\n'
    ensures NewlinesIn(t, lo, hi) == 0
    decreases hi - lo
  {
    if lo < hi {
      NoNewlines(t, lo + 1, hi);
    }
  }

  lemma {:induction false} NewlinesSplit(t: string, lo: nat, mid: nat, hi: nat)
    requires lo <= mid <= hi <= |t|
    ensures NewlinesIn(t, lo, hi) == NewlinesIn(t, lo, mid) + NewlinesIn(t, mid, hi)
    decreases mid - lo
  {
    if lo < mid {
      NewlinesSplit(t, lo + 1, mid, hi);
    }
  }

  /** A `//` comment in quiet text leaves the rest quiet, passes no
      newline, and appends nothing. */
  lemma CommentQuiet(s: Scanner)
    requires Ready(s) && s.source[s.current] == '/'
    requires s.current + 1 < |s.source| && s.source[s.current + 1] == '/'
    requires QuietFrom(s.source, s.current)
    ensures var r := ScanToken(s);
            && r == s.(current := r.current)
            && s.current < r.current && QuietFrom(s.source, r.current)
            && NewlinesIn(s.source, s.current, |s.source|) == NewlinesIn(s.source, r.current, |s.source|)
  {
    var t := s.source;
    var r := ScanToken(s);
    LineCommentSkipped(s);
    LineEndUnique(t, s.current + 2, r.current);
    NoNewlines(t, s.current, r.current);
    NewlinesSplit(t, s.current, r.current, |t|);
  }

  /** Over quiet text the loop appends nothing and counts every newline. */
  lemma {:induction false} QuietLoop(s: Scanner)
    requires s.start <= s.current <= |s.source| && QuietFrom(s.source, s.current)
    ensures var r := ScanLoop(s);
            && r.tokens == s.tokens && r.spans == s.spans && r.errors == s.errors
            && r.line == s.line + NewlinesIn(s.source, s.current, |s.source|)
    decreases |s.source| - s.current
  {
    var t := s.source;
    var i := s.current;
    if i < |t| {
      var s' := s.(start := i);
      var r := ScanToken(s');
      assert ScanLoop(s) == ScanLoop(r);
      if t[i] in Blanks {
        BlankSkipped(s');
        QuietLoop(r);
      } else if t[i] == '\n' {
        NewlineCounted(s');
        QuietLoop(r);
      } else {
        CommentQuiet(s');
        QuietLoop(r);
      }
    }
  }

  /** The line a scan of `source` ends on: one more than its newlines. */
  function FinalLine(source: string): nat {
    1 + NewlinesIn(source, 0, |source|)
  }

  /** Input made only of blanks, newlines and `//` comments scans to the
      end-of-input token alone, on the line after the last newline, with
      no error. */
  lemma QuietSource(source: string)
    requires QuietFrom(source, 0)
    ensures ScanTokens(source).tokens == [Token(Eof, "", NoLiteral, FinalLine(source))]
    ensures ScanTokens(source).errors == []
  {
    QuietLoop(Init(source));
  }
}
