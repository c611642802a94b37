/** Token kinds, token records and source locations that the scanner produces,
    with the ASCII character classes it dispatches on and the fixed spellings
    of punctuation marks and keywords. */
module Tokens {

  datatype Option<+T> = None | Some(value: T)

  /** The closed set of token kinds, in the order the scanner's switch lists them. */
  datatype TokenKind =
    | Eof
    | LParen | RParen | LBrace | RBrace | LBracket | RBracket
    | Comma | Colon | DoubleColon | Semicolon
    | Plus | Minus | Star | Slash | Equal | LessThan | GreaterThan
    | Period | Ampersand | Pipe | Exclamation | Caret | Percent
    | If | Else | While | Func | Return
    | StringLiteral | Identifier | NumberLiteral

  /** One stored token: its kind, the copy of its lexeme (None stands for the
      NULL lexeme of the end marker) and the length recorded for that copy. */
  datatype TokenData = TokenData(kind: TokenKind, lexeme: Option<string>, length: nat)

  /** Where a token was recorded: 1-based line, 0-based column, 0-based offset. */
  datatype Location = Location(line: nat, column: nat, offset: nat)

  // ASCII character classes, as isdigit/isalpha/isalnum behave in the C locale.

  predicate IsDigit(c: char) { '0' <= c <= '9' }

  predicate IsAlpha(c: char) { 'a' <= c <= 'z' || 'A' <= c <= 'Z' }

  predicate IsIdentChar(c: char) { IsDigit(c) || IsAlpha(c) || c == '_' }

  /** Whitespace that is skipped without touching the line counter. */
  predicate IsBlank(c: char) { c == ' ' || c == '\t' || c == '\r' }

  /** The length push_token records for a lexeme: strlen of the copy, or 0 for NULL. */
  function LexemeLength(lexeme: Option<string>): nat
  {
    match lexeme
    case None => 0
    case Some(x) => |x|
  }

  /** The punctuation marks that are emitted as soon as they are seen, without
      lookahead (':' and '/' need one character of lookahead and are not here).
      A character the table knows is the whole spelling of its kind. */
  function SingleCharKind(c: char): (r: Option<TokenKind>)
    ensures r.Some? ==> r.value != Colon && r.value != Slash && FixedSpelling(r.value) == Some([c])
  {
    match c
    case '(' => Some(LParen)
    case ')' => Some(RParen)
    case '{' => Some(LBrace)
    case '}' => Some(RBrace)
    case '[' => Some(LBracket)
    case ']' => Some(RBracket)
    case ',' => Some(Comma)
    case ';' => Some(Semicolon)
    case '+' => Some(Plus)
    case '-' => Some(Minus)
    case '*' => Some(Star)
    case '=' => Some(Equal)
    case '<' => Some(LessThan)
    case '>' => Some(GreaterThan)
    case '.' => Some(Period)
    case '&' => Some(Ampersand)
    case '|' => Some(Pipe)
    case '!' => Some(Exclamation)
    case '^' => Some(Caret)
    case '%' => Some(Percent)
    case _ => None
  }

  predicate IsKeyword(k: TokenKind) { k.If? || k.Else? || k.While? || k.Func? || k.Return? }

  /** The text a punctuation or keyword kind stands for; None for the end marker
      and the three kinds whose text varies. */
  function FixedSpelling(k: TokenKind): Option<string>
  {
    match k
    case Eof => None
    case LParen => Some("(")
    case RParen => Some(")")
    case LBrace => Some("{")
    case RBrace => Some("}")
    case LBracket => Some("[")
    case RBracket => Some("]")
    case Comma => Some(",")
    case Colon => Some(":")
    case DoubleColon => Some("::")
    case Semicolon => Some(";")
    case Plus => Some("+")
    case Minus => Some("-")
    case Star => Some("*")
    case Slash => Some("/")
    case Equal => Some("=")
    case LessThan => Some("<")
    case GreaterThan => Some(">")
    case Period => Some(".")
    case Ampersand => Some("&")
    case Pipe => Some("|")
    case Exclamation => Some("!")
    case Caret => Some("^")
    case Percent => Some("%")
    case If => Some("if")
    case Else => Some("else")
    case While => Some("while")
    case Func => Some("func")
    case Return => Some("return")
    case StringLiteral => None
    case Identifier => None
    case NumberLiteral => None
  }

  /** The kind an identifier-shaped run gets: a keyword only on an exact,
      case-sensitive match of the whole run, otherwise Identifier. */
  function KeywordKind(x: string): (k: TokenKind)
    ensures k == Identifier || (IsKeyword(k) && FixedSpelling(k) == Some(x))
  {
    if x == "if" then If
    else if x == "else" then Else
    else if x == "while" then While
    else if x == "return" then Return
    else if x == "func" then Func
    else Identifier
  }

  /** Converse of KeywordKind's contract: a keyword's own spelling is matched to it. */
  lemma KeywordSpellingMatches(k: TokenKind)
    requires IsKeyword(k)
    ensures KeywordKind(FixedSpelling(k).value) == k
  {
  }

  /** Every fixed spelling other than "::" and the keywords' is one character long. */
  lemma MarkSpellingLength(k: TokenKind)
    requires FixedSpelling(k).Some? && k != DoubleColon && !IsKeyword(k)
    ensures |FixedSpelling(k).value| == 1
  {
  }

  /** A single-character punctuation kind is spelled by exactly that character,
      and it is the only kind the table gives that character. */
  lemma SingleCharSpelling(c: char, k: TokenKind)
    requires k != Colon && k != Slash
    ensures SingleCharKind(c) == Some(k) <==> FixedSpelling(k) == Some([c])
  {
    if FixedSpelling(k) == Some([c]) {
      var x := FixedSpelling(k).value;
      assert x[0] == c;
    }
  }
}
