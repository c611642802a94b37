/** token_type_to_string: the display name of each token kind, as the
    switch writes it and as its evident intent wants it. */
module TypeNames {
  import opened Tokens

  /** The name the switch returns when no case matches. */
  const UnknownName := "Unknown Token Type"

  /** The switch exactly as written: it has a case for every kind but "::",
      which falls through to the default. Every other kind gets a name of
      its own. */
  function TypeNameAsWritten(k: TokenKind): (name: string)
    ensures k != DoubleColon ==> name != UnknownName
  {
    match k
    case Eof => "EOF"
    case LParen => "Left Parenthesis"
    case RParen => "Right Parenthesis"
    case LBrace => "Left Brace"
    case RBrace => "Right Brace"
    case LBracket => "Left Bracket"
    case RBracket => "Right Bracket"
    case Comma => "Comma"
    case Colon => "Colon"
    case Semicolon => "Semicolon"
    case Plus => "Plus"
    case Minus => "Minus"
    case Star => "Star"
    case Slash => "Slash"
    case Equal => "Equal"
    case Ampersand => "Ampersand"
    case Pipe => "Pipe"
    case Exclamation => "Exclamation"
    case Caret => "Caret"
    case Percent => "Percent"
    case LessThan => "Less Than"
    case GreaterThan => "Greater Than"
    case Period => "Period"
    case If => "If Keyword"
    case Else => "Else Keyword"
    case While => "While Keyword"
    case Func => "Func Keyword"
    case Return => "Return Keyword"
    case StringLiteral => "String Literal"
    case Identifier => "Identifier"
    case NumberLiteral => "Number Literal"
    case _ => UnknownName
  }

  /** The switch's gap: "::" is the one kind without a name of its own,
      reported as an unknown kind although it is a real one. */
  lemma DoubleColonIsUnnamed(k: TokenKind)
    ensures TypeNameAsWritten(k) == UnknownName <==> k == DoubleColon
  {
  }

  /** The switch as its cases intend it: every kind with a name of its own. */
  function TypeName(k: TokenKind): (name: string)
    ensures name != UnknownName
    ensures k != DoubleColon ==> name == TypeNameAsWritten(k)
  {
    match k
    case Eof => "EOF"
    case LParen => "Left Parenthesis"
    case RParen => "Right Parenthesis"
    case LBrace => "Left Brace"
    case RBrace => "Right Brace"
    case LBracket => "Left Bracket"
    case RBracket => "Right Bracket"
    case Comma => "Comma"
    case Colon => "Colon"
    case DoubleColon => "Double Colon"
    case Semicolon => "Semicolon"
    case Plus => "Plus"
    case Minus => "Minus"
    case Star => "Star"
    case Slash => "Slash"
    case Equal => "Equal"
    case Ampersand => "Ampersand"
    case Pipe => "Pipe"
    case Exclamation => "Exclamation"
    case Caret => "Caret"
    case Percent => "Percent"
    case LessThan => "Less Than"
    case GreaterThan => "Greater Than"
    case Period => "Period"
    case If => "If Keyword"
    case Else => "Else Keyword"
    case While => "While Keyword"
    case Func => "Func Keyword"
    case Return => "Return Keyword"
    case StringLiteral => "String Literal"
    case Identifier => "Identifier"
    case NumberLiteral => "Number Literal"
  }

  /** The inverse of TypeName: which kind, if any, has this name. */
  function KindNamed(name: string): Option<TokenKind>
  {
    match name
    case "EOF" => Some(Eof)
    case "Left Parenthesis" => Some(LParen)
    case "Right Parenthesis" => Some(RParen)
    case "Left Brace" => Some(LBrace)
    case "Right Brace" => Some(RBrace)
    case "Left Bracket" => Some(LBracket)
    case "Right Bracket" => Some(RBracket)
    case "Comma" => Some(Comma)
    case "Colon" => Some(Colon)
    case "Double Colon" => Some(DoubleColon)
    case "Semicolon" => Some(Semicolon)
    case "Plus" => Some(Plus)
    case "Minus" => Some(Minus)
    case "Star" => Some(Star)
    case "Slash" => Some(Slash)
    case "Equal" => Some(Equal)
    case "Ampersand" => Some(Ampersand)
    case "Pipe" => Some(Pipe)
    case "Exclamation" => Some(Exclamation)
    case "Caret" => Some(Caret)
    case "Percent" => Some(Percent)
    case "Less Than" => Some(LessThan)
    case "Greater Than" => Some(GreaterThan)
    case "Period" => Some(Period)
    case "If Keyword" => Some(If)
    case "Else Keyword" => Some(Else)
    case "While Keyword" => Some(While)
    case "Func Keyword" => Some(Func)
    case "Return Keyword" => Some(Return)
    case "String Literal" => Some(StringLiteral)
    case "Identifier" => Some(Identifier)
    case "Number Literal" => Some(NumberLiteral)
    case _ => None
  }

  /** Every kind is recovered from its name. */
  lemma KindNamedInverts(k: TokenKind)
    ensures KindNamed(TypeName(k)) == Some(k)
  {
    match k
    case Eof => assert KindNamed("EOF") == Some(Eof);
    case LParen => assert KindNamed("Left Parenthesis") == Some(LParen);
    case RParen => assert KindNamed("Right Parenthesis") == Some(RParen);
    case LBrace => assert KindNamed("Left Brace") == Some(LBrace);
    case RBrace => assert KindNamed("Right Brace") == Some(RBrace);
    case LBracket => assert KindNamed("Left Bracket") == Some(LBracket);
    case RBracket => assert KindNamed("Right Bracket") == Some(RBracket);
    case Comma => assert KindNamed("Comma") == Some(Comma);
    case Colon => assert KindNamed("Colon") == Some(Colon);
    case DoubleColon => assert KindNamed("Double Colon") == Some(DoubleColon);
    case Semicolon => assert KindNamed("Semicolon") == Some(Semicolon);
    case Plus => assert KindNamed("Plus") == Some(Plus);
    case Minus => assert KindNamed("Minus") == Some(Minus);
    case Star => assert KindNamed("Star") == Some(Star);
    case Slash => assert KindNamed("Slash") == Some(Slash);
    case Equal => assert KindNamed("Equal") == Some(Equal);
    case Ampersand => assert KindNamed("Ampersand") == Some(Ampersand);
    case Pipe => assert KindNamed("Pipe") == Some(Pipe);
    case Exclamation => assert KindNamed("Exclamation") == Some(Exclamation);
    case Caret => assert KindNamed("Caret") == Some(Caret);
    case Percent => assert KindNamed("Percent") == Some(Percent);
    case LessThan => assert KindNamed("Less Than") == Some(LessThan);
    case GreaterThan => assert KindNamed("Greater Than") == Some(GreaterThan);
    case Period => assert KindNamed("Period") == Some(Period);
    case If => assert KindNamed("If Keyword") == Some(If);
    case Else => assert KindNamed("Else Keyword") == Some(Else);
    case While => assert KindNamed("While Keyword") == Some(While);
    case Func => assert KindNamed("Func Keyword") == Some(Func);
    case Return => assert KindNamed("Return Keyword") == Some(Return);
    case StringLiteral => assert KindNamed("String Literal") == Some(StringLiteral);
    case Identifier => assert KindNamed("Identifier") == Some(Identifier);
    case NumberLiteral => assert KindNamed("Number Literal") == Some(NumberLiteral);
  }

  /** No two kinds share a name, so a name identifies its kind. */
  lemma TypeNameInjective(j: TokenKind, k: TokenKind)
    requires TypeName(j) == TypeName(k)
    ensures j == k
  {
    KindNamedInverts(j);
    KindNamedInverts(k);
  }
}
