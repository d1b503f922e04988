/** Token kinds and the token record that the scanner produces. */
module Tokens {

  /** The closed set of token kinds. Only `Number` and `Error` carry a payload. */
  datatype TokenType =
    // One-character tokens
    | Bang | Carrot | Colon | Comma | Dot | Equal | Greater
    | LeftBrace | LeftBracket | LeftParen | Less | Minus | Percent | Plus
    | RightBrace | RightBracket | RightParen | Star | SemiColon | Slash
    // Two-character tokens
    | LessEq | GreaterEq | DoubleEq | BangEq
    // Literals; a number carries its numeral, which stands for the f64 it denotes
    | Identifier | Number(numeral: string) | CroxStr
    // Keywords
    | And | Class | Else | False | For | Fn | If | Let | Null | Or
    | Return | Super | This | True | While
    | Eof
    // Lexical errors carry a fixed message
    | Error(message: string)

  /** A token is an immutable value. Its lexeme is the slice `start..end` of the
      scanned source; `line` is the line counter when the token was emitted. */
  datatype Token = Token(ty: TokenType, start: nat, end: nat, line: nat)

  /** The token constructor: it stores its arguments unchanged. */
  function New(ty: TokenType, start: nat, end: nat, line: nat): (t: Token)
    ensures t.ty == ty && t.start == start && t.end == end && t.line == line
  {
    Token(ty, start, end, line)
  }

  /** The text of a token, as a slice of the source it was scanned from. */
  function Lexeme(src: string, t: Token): string
    requires t.start <= t.end <= |src|
  {
    src[t.start..t.end]
  }

  predicate IsTwoCharKind(ty: TokenType) {
    ty == LessEq || ty == GreaterEq || ty == DoubleEq || ty == BangEq
  }

  predicate IsKeyword(ty: TokenType) {
    match ty
    case And | Class | Else | False | For | Fn | If | Let | Null | Or => true
    case Return | Super | This | True | While => true
    case _ => false
  }

  const KeywordKinds: seq<TokenType> :=
    [And, Class, Else, False, For, Fn, If, Let, Null, Or, Return, Super, This, True, While]

  /** The position of a keyword kind in `KeywordKinds`. */
  function KeywordIndex(ty: TokenType): nat {
    match ty
    case And => 0 case Class => 1 case Else => 2 case False => 3 case For => 4
    case Fn => 5 case If => 6 case Let => 7 case Null => 8 case Or => 9
    case Return => 10 case Super => 11 case This => 12 case True => 13 case While => 14
    case _ => 15
  }

  /** The keyword kinds are exactly fifteen distinct kinds. */
  lemma KeywordKindsClosed()
    ensures |KeywordKinds| == 15
    ensures forall j, k :: 0 <= j < k < |KeywordKinds| ==> KeywordKinds[j] != KeywordKinds[k]
    ensures forall ty :: IsKeyword(ty) <==> ty in KeywordKinds
  {
    KeywordIndexInverts();
    assert forall ty :: IsKeyword(ty) ==> KeywordKinds[KeywordIndex(ty)] == ty;
  }

  /** `KeywordIndex` undoes indexing into `KeywordKinds`. */
  lemma KeywordIndexInverts()
    ensures forall k :: 0 <= k < |KeywordKinds| ==> KeywordIndex(KeywordKinds[k]) == k
  {
  }
}
