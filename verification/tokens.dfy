/** The vocabulary of the Nex scanner: token kinds, decoded literals, tokens,
    lexical errors, the reserved-word table and the ASCII character classes
    the scanner dispatches on. */
module Tokens {

  /** The closed set of token kinds. Constructor names are the CamelCase
      spelling of the `TokenType` constants the scanner emits
      (`LEFT_PAREN` is `LeftParen`, `EOF` is `Eof`, and so on), except that
      `STRING` is `Str`. */
  datatype Kind =
    // single-character punctuation
    | LeftParen | RightParen | LeftBrace | RightBrace
    | Comma | Dot | Minus | Plus | Semicolon | Slash | Star
    // one- or two-character operators
    | Bang | BangEqual | Equal | EqualEqual
    | Greater | GreaterEqual | Less | LessEqual
    // literals
    | Identifier | Str | Number
    // reserved words
    | And | Class | Else | False | Fun | For | If | Nil | Or
    | Print | Return | Super | This | True | Var | While
    // end of input
    | Eof

  /** The decoded value a token carries. A number is kept as its digit
      strings on either side of the decimal point rather than as a double. */
  datatype Literal =
    | NoLiteral
    | Text(value: string)
    | Decimal(whole: string, fraction: string)

  datatype Token = Token(kind: Kind, lexeme: string, literal: Literal, line: nat)

  /** One report to the error sink: the line and the message. */
  datatype LexError = LexError(line: nat, message: string)

  const UnexpectedCharacter: string := "Unexpected character"
  const UnterminatedString: string := "Unterminated string"

  /** The reserved-word table. */
  const Keywords: map<string, Kind> := map[
    "and"    := And,
    "class"  := Class,
    "else"   := Else,
    "false"  := False,
    "for"    := For,
    "fun"    := Fun,
    "if"     := If,
    "nil"    := Nil,
    "or"     := Or,
    "print"  := Print,
    "return" := Return,
    "super"  := Super,
    "this"   := This,
    "true"   := True,
    "var"    := Var,
    "while"  := While
  ]

  /** The kinds a reserved word can have: none of them is a kind the scanner
      emits for anything other than a reserved word. */
  predicate IsReservedKind(k: Kind) {
    k in {And, Class, Else, False, Fun, For, If, Nil, Or,
          Print, Return, Super, This, True, Var, While}
  }

  predicate IsDigit(c: char) {
    '0' <= c <= '9'
  }

  predicate IsAlpha(c: char) {
    ('a' <= c <= 'z') || ('A' <= c <= 'Z') || c == '_'
  }

  predicate IsAlphaNumeric(c: char) {
    IsAlpha(c) || IsDigit(c)
  }

  predicate AllDigits(t: string) {
    forall k :: 0 <= k < |t| ==> IsDigit(t[k])
  }

  predicate AllAlphaNumeric(t: string) {
    forall k :: 0 <= k < |t| ==> IsAlphaNumeric(t[k])
  }

  /** The text a number literal was decoded from. */
  function DecimalText(whole: string, fraction: string): string {
    if fraction == [] then whole else whole + "." + fraction
  }

  /** The table's keys: sixteen reserved words. */
  const ReservedWords: set<string> :=
    {"and", "class", "else", "false", "for", "fun", "if", "nil",
     "or", "print", "return", "super", "this", "true", "var", "while"}

  /** The spelling of each reserved-word kind, and `""` for every other
      kind: an independent inverse of the table. */
  function Spelling(k: Kind): string {
    match k
    case And => "and"
    case Class => "class"
    case Else => "else"
    case False => "false"
    case For => "for"
    case Fun => "fun"
    case If => "if"
    case Nil => "nil"
    case Or => "or"
    case Print => "print"
    case Return => "return"
    case Super => "super"
    case This => "this"
    case True => "true"
    case Var => "var"
    case While => "while"
    case _ => ""
  }

  /** The table's keys are exactly the sixteen reserved words, and each
      maps to a reserved-word kind. */
  lemma KeywordTableShape()
    ensures Keywords.Keys == ReservedWords
    ensures forall w :: w in Keywords ==> IsReservedKind(Keywords[w])
  {
    KeywordTableKeys();
    KeywordTableKinds();
  }

  lemma KeywordTableKeys()
    ensures Keywords.Keys == ReservedWords
  {
  }

  lemma KeywordTableKinds()
    ensures forall w :: w in Keywords ==> IsReservedKind(Keywords[w])
  {
  }

  /** Looking a word up and spelling the kind gives the word back. */
  lemma KeywordTableSpelling()
    ensures forall w :: w in Keywords ==> Spelling(Keywords[w]) == w
  {
  }

  /** No two reserved words share a kind. */
  lemma KeywordTableInjective()
    ensures forall w, v :: w in Keywords && v in Keywords && w != v ==> Keywords[w] != Keywords[v]
  {
    KeywordTableSpelling();
  }

  /** A decimal's text splits back into its two digit strings at the point. */
  lemma {:induction false} DecimalTextSplits(whole: string, fraction: string)
    requires AllDigits(whole) && AllDigits(fraction)
    ensures var t := DecimalText(whole, fraction);
            && t[..|whole|] == whole
            && (fraction == [] <==> |t| == |whole|)
            && (fraction != [] ==> t[|whole|] == '.' && t[|whole| + 1..] == fraction)
            && ('.' in t <==> fraction != [])
  {
    var t := DecimalText(whole, fraction);
    if fraction == [] {
      assert '.' !in t by {
        forall k | 0 <= k < |t| ensures t[k] != '.' {
          assert IsDigit(whole[k]);
        }
      }
    } else {
      assert t[|whole|] == '.';
    }
  }
}
