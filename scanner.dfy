/** The tokenizer: one left-to-right pass over the source with one character of
    lookahead, a line counter, and a trailing `Eof` token. */
module Scanner {
  import opened Tokens

  const InvalidFloat := "Invalid Float literal"
  const UnterminatedString := "Unterminated String"
  const UnrecognizedChar := "Unrecognized character"

  // ---------------------------------------------------------------------------
  // Character classes (the source is taken to be ASCII)
  // ---------------------------------------------------------------------------

  predicate IsAscii(src: string) {
    forall k :: 0 <= k < |src| ==> src[k] < 128 as char
  }

  predicate IsDigit(c: char) { '0' <= c <= '9' }

  predicate IsAsciiAlpha(c: char) { 'A' <= c <= 'Z' || 'a' <= c <= 'z' }

  /** Characters that continue a numeral: digits and the decimal point. */
  predicate IsNumeralChar(c: char) { IsDigit(c) || c == '.' }

  /** Characters that start and continue an identifier; digits are not among them. */
  predicate IsIdentChar(c: char) { IsAsciiAlpha(c) || c == '_' }

  predicate IsNotQuote(c: char) { c != '"' }

  predicate IsNotNewline(c: char) { c != '\n' }

  /** Characters that always make a one-character token. */
  predicate IsPunctuation(c: char) {
    c == '^' || c == ',' || c == '.' || c == '{' || c == '[' || c == '(' || c == '-' || c == '%' ||
    c == '+' || c == ')' || c == ']' || c == '}' || c == '*' || c == ';' || c == ':'
  }

  /** Characters that combine with a following '='. */
  predicate IsOperatorStart(c: char) { c == '!' || c == '=' || c == '<' || c == '>' }

  /** Blank characters that advance the line counter. */
  predicate IsLineBlank(c: char) { c == '\n' || c == '\r' || c == '\t' }

  /** Characters the scanner dispatches on; any other character is a lexical error. */
  predicate IsRecognized(c: char) {
    IsPunctuation(c) || IsOperatorStart(c) || c == '/' || c == '"' || c == ' ' || IsLineBlank(c) ||
    IsDigit(c) || IsIdentChar(c)
  }

  // ---------------------------------------------------------------------------
  // Numerals
  // ---------------------------------------------------------------------------

  function DotCount(s: string): nat {
    if s == [] then 0 else DotCount(s[..|s| - 1]) + (if s[|s| - 1] == '.' then 1 else 0)
  }

  /** Whether a numeral parses as an f64. On strings of digits and points that
      start with a digit, the f64 grammar (digits, an optional point, digits)
      accepts exactly those with at most one point. */
  predicate ParsesAsFloat(numeral: string) {
    DotCount(numeral) <= 1
  }

  // ---------------------------------------------------------------------------
  // Keywords
  // ---------------------------------------------------------------------------

  /** Keyword recognition as the scanner does it: dispatch on the first
      character `c`, then compare the whole lexeme. The entry for `For` is
      spelt "for " with a trailing space, so no word reaches it (see
      `IdentOrKeywordIntended` for the evidently intended lookup). A keyword
      kind comes only from its own table spelling, dispatched on its first
      character. */
  function IdentOrKeyword(lexeme: string, c: char): (ty: TokenType)
    ensures ty == Identifier ||
      (IsKeyword(ty) && lexeme == KeywordSpelling(ty) && |lexeme| > 0 && c == lexeme[0])
  {
    if c == 'a' && lexeme == "and" then And
    else if c == 'c' && lexeme == "class" then Class
    else if c == 'e' && lexeme == "else" then Else
    else if c == 'f' && lexeme == "false" then False
    else if c == 'f' && lexeme == "fn" then Fn
    else if c == 'f' && lexeme == "for " then For
    else if c == 'i' && lexeme == "if" then If
    else if c == 'n' && lexeme == "null" then Null
    else if c == 'o' && lexeme == "or" then Or
    else if c == 'r' && lexeme == "return" then Return
    else if c == 's' && lexeme == "super" then Super
    else if c == 't' && lexeme == "this" then This
    else if c == 't' && lexeme == "true" then True
    else if c == 'l' && lexeme == "let" then Let
    else if c == 'w' && lexeme == "while" then While
    else Identifier
  }

  /** The keyword table as a plain map from whole lexemes to kinds. */
  const Keywords: map<string, TokenType> := map[
    "and" := And, "class" := Class, "else" := Else, "false" := False,
    "fn" := Fn, "for " := For, "if" := If, "null" := Null, "or" := Or,
    "return" := Return, "super" := Super, "this" := This, "true" := True,
    "let" := Let, "while" := While]

  /** A lexeme outside the table is an identifier, whatever character the
      dispatch starts from. */
  lemma DispatchOffTable(lexeme: string, c: char)
    requires lexeme !in Keywords
    ensures IdentOrKeyword(lexeme, c) == Identifier
  {
    assert lexeme != "and" && lexeme != "class" && lexeme != "else" && lexeme != "false" && lexeme != "fn";
    assert lexeme != "for " && lexeme != "if" && lexeme != "null" && lexeme != "or" && lexeme != "return";
    assert lexeme != "super" && lexeme != "this" && lexeme != "true" && lexeme != "let" && lexeme != "while";
  }

  /** A lexeme in the table gets its table kind when the dispatch starts from
      its first character. */
  lemma DispatchOnTable(lexeme: string)
    requires lexeme in Keywords
    ensures IdentOrKeyword(lexeme, lexeme[0]) == Keywords[lexeme]
  {
    TableKeysAreSpellings(lexeme);
    DispatchOnSpelling(Keywords[lexeme]);
  }

  lemma TableKeysAreSpellings(lexeme: string)
    requires lexeme in Keywords
    ensures IsKeyword(Keywords[lexeme]) && KeywordSpelling(Keywords[lexeme]) == lexeme
  {
    if lexeme[0] == 'f' {
    } else if lexeme[0] == 't' {
    } else {
    }
  }

  lemma DispatchOnSpelling(ty: TokenType)
    requires IsKeyword(ty)
    ensures var w := KeywordSpelling(ty); IdentOrKeyword(w, w[0]) == ty
  {
  }

  /** First-character dispatch is the same as looking the whole lexeme up in
      the table, whenever `c` is the lexeme's first character. */
  lemma DispatchIsWholeLexemeLookup(lexeme: string, c: char)
    requires |lexeme| > 0 && c == lexeme[0]
    ensures IdentOrKeyword(lexeme, c) == if lexeme in Keywords then Keywords[lexeme] else Identifier
  {
    if lexeme in Keywords {
      DispatchOnTable(lexeme);
    } else {
      DispatchOffTable(lexeme, c);
    }
  }

  /** The table maps onto exactly the fifteen keyword kinds. */
  lemma KeywordTableKinds()
    ensures forall w | w in Keywords :: IsKeyword(Keywords[w])
    ensures forall ty | IsKeyword(ty) :: exists w :: w in Keywords && Keywords[w] == ty
  {
    forall ty | IsKeyword(ty) ensures exists w :: w in Keywords && Keywords[w] == ty {
      var w := KeywordSpelling(ty);
      assert w in Keywords && Keywords[w] == ty;
    }
  }

  /** The table key of each keyword kind. */
  function KeywordSpelling(ty: TokenType): string
    requires IsKeyword(ty)
  {
    match ty
    case And => "and" case Class => "class" case Else => "else" case False => "false"
    case Fn => "fn" case For => "for " case If => "if" case Null => "null" case Or => "or"
    case Return => "return" case Super => "super" case This => "this" case True => "true"
    case Let => "let" case While => "while"
  }

  /** Keyword recognition as evidently intended: the same dispatch, with the
      entry for `For` spelt "for". */
  function IdentOrKeywordIntended(lexeme: string, c: char): (ty: TokenType)
    ensures ty == Identifier ||
      (IsKeyword(ty) && lexeme == IntendedSpelling(ty) && |lexeme| > 0 && c == lexeme[0])
  {
    if c == 'a' && lexeme == "and" then And
    else if c == 'c' && lexeme == "class" then Class
    else if c == 'e' && lexeme == "else" then Else
    else if c == 'f' && lexeme == "false" then False
    else if c == 'f' && lexeme == "fn" then Fn
    else if c == 'f' && lexeme == "for" then For
    else if c == 'i' && lexeme == "if" then If
    else if c == 'n' && lexeme == "null" then Null
    else if c == 'o' && lexeme == "or" then Or
    else if c == 'r' && lexeme == "return" then Return
    else if c == 's' && lexeme == "super" then Super
    else if c == 't' && lexeme == "this" then This
    else if c == 't' && lexeme == "true" then True
    else if c == 'l' && lexeme == "let" then Let
    else if c == 'w' && lexeme == "while" then While
    else Identifier
  }

  /** The word the intended lookup sends to each keyword kind. */
  function IntendedSpelling(ty: TokenType): string
    requires IsKeyword(ty)
  {
    if ty == For then "for" else KeywordSpelling(ty)
  }

  // ---------------------------------------------------------------------------
  // The fixed spellings of punctuation and operators
  // ---------------------------------------------------------------------------

  function Spelling(ty: TokenType): string {
    match ty
    case Bang => "!" case Carrot => "^" case Colon => ":" case Comma => ","
    case Dot => "." case Equal => "=" case Greater => ">" case LeftBrace => "{"
    case LeftBracket => "[" case LeftParen => "(" case Less => "<" case Minus => "-"
    case Percent => "%" case Plus => "+" case RightBrace => "}" case RightBracket => "]"
    case RightParen => ")" case Star => "*" case SemiColon => ";" case Slash => "/"
    case LessEq => "<=" case GreaterEq => ">=" case DoubleEq => "==" case BangEq => "!="
    case _ => ""
  }

  // ---------------------------------------------------------------------------
  // The specification of one pass: a single dispatch, then the whole scan
  // ---------------------------------------------------------------------------

  /** The end of the maximal run of characters satisfying `p` from `j` on. */
  function RunEnd(src: string, j: nat, p: char -> bool): (k: nat)
    requires j <= |src|
    ensures j <= k <= |src|
    ensures forall m :: j <= m < k ==> p(src[m])
    ensures k == |src| || !p(src[k])
    decreases |src| - j
  {
    if j == |src| || !p(src[j]) then j else RunEnd(src, j + 1, p)
  }

  /** The number of line feeds in `s`. */
  function NewlineCount(s: string): nat {
    if s == [] then 0 else NewlineCount(s[..|s| - 1]) + (if s[|s| - 1] == '\n' then 1 else 0)
  }

  lemma NewlineCountExtend(src: string, a: nat, k: nat)
    requires a <= k < |src|
    ensures NewlineCount(src[a..k + 1]) == NewlineCount(src[a..k]) + (if src[k] == '\n' then 1 else 0)
  {
    assert src[a..k + 1][..k - a] == src[a..k];
  }

  /** What one dispatch does: the tokens it emits (none or one), where scanning
      resumes, and the new value of the line counter. */
  datatype Step = Step(emitted: seq<Token>, next: nat, line: nat)

  /** A dispatch at `i` makes progress, never lowers the line counter, and
      emits at most one token, which lies between `i` and the resume position
      and carries the new line counter. */
  predicate Advances(src: string, i: nat, line: nat, s: Step) {
    i < s.next <= |src| && line <= s.line && |s.emitted| <= 1 &&
    forall t | t in s.emitted :: i <= t.start <= t.end <= s.next && t.line == s.line && t.ty != Eof
  }

  function Single(src: string, i: nat, line: nat, ty: TokenType): (s: Step)
    requires i < |src| && ty != Eof
    ensures Advances(src, i, line, s) && |s.emitted| == 1
  {
    Step([New(ty, i, i + 1, line)], i + 1, line)
  }

  /** `one` alone, or `two` when the next character is '='. */
  function WithEquals(src: string, i: nat, line: nat, one: TokenType, two: TokenType): (s: Step)
    requires i < |src| && one != Eof && two != Eof
    ensures Advances(src, i, line, s) && |s.emitted| == 1
  {
    if i + 1 < |src| && src[i + 1] == '=' then Step([New(two, i, i + 2, line)], i + 2, line)
    else Single(src, i, line, one)
  }

  /** A line comment whose text starts at `j`: skip through the next line feed. */
  function CommentStep(src: string, j: nat, line: nat): (s: Step)
    requires 2 <= j <= |src|
    ensures Advances(src, j - 2, line, s) && s.emitted == []
  {
    var k := RunEnd(src, j, IsNotNewline);
    if k < |src| then Step([], k + 1, line + 1) else Step([], k, line)
  }

  function StringStep(src: string, i: nat, line: nat): (s: Step)
    requires i < |src|
    ensures Advances(src, i, line, s) && |s.emitted| == 1
  {
    var k := RunEnd(src, i + 1, IsNotQuote);
    var l := line + NewlineCount(src[i + 1..k]);
    if k < |src| then Step([New(CroxStr, i + 1, k, l)], k + 1, l)
    else Step([New(Error(UnterminatedString), i + 1, k, l)], k, l)
  }

  function NumberStep(src: string, i: nat, line: nat): (s: Step)
    requires i < |src|
    ensures Advances(src, i, line, s) && |s.emitted| == 1
  {
    var k := RunEnd(src, i + 1, IsNumeralChar);
    var numeral := src[i..k];
    Step([New(if ParsesAsFloat(numeral) then Number(numeral) else Error(InvalidFloat), i, k, line)], k, line)
  }

  function WordStep(src: string, i: nat, line: nat): (s: Step)
    requires i < |src|
    ensures Advances(src, i, line, s) && |s.emitted| == 1
  {
    var k := RunEnd(src, i + 1, IsIdentChar);
    Step([New(IdentOrKeyword(src[i..k], src[i]), i, k, line)], k, line)
  }

  /** The kind of each one-character token that never combines with the next character. */
  function PunctuationKind(c: char): (ty: TokenType)
    requires IsPunctuation(c)
    ensures Spelling(ty) == [c]
  {
    if c == '^' then Carrot else if c == ',' then Comma else if c == '.' then Dot
    else if c == '{' then LeftBrace else if c == '[' then LeftBracket else if c == '(' then LeftParen
    else if c == '-' then Minus else if c == '%' then Percent else if c == '+' then Plus
    else if c == ')' then RightParen else if c == ']' then RightBracket else if c == '}' then RightBrace
    else if c == '*' then Star else if c == ';' then SemiColon else Colon
  }

  /** The kind of '!', '=', '<' and '>' on their own. */
  function OperatorKind(c: char): (ty: TokenType)
    requires IsOperatorStart(c)
    ensures Spelling(ty) == [c] && (ty.Bang? || ty.Equal? || ty.Less? || ty.Greater?)
  {
    if c == '!' then Bang else if c == '=' then Equal else if c == '<' then Less else Greater
  }

  /** The kind of '!', '=', '<' and '>' followed by '='. */
  function CombinedKind(c: char): (ty: TokenType)
    requires IsOperatorStart(c)
    ensures Spelling(ty) == [c, '='] && IsTwoCharKind(ty)
  {
    if c == '!' then BangEq else if c == '=' then DoubleEq else if c == '<' then LessEq else GreaterEq
  }

  /** One dispatch on the character at `i`. */
  function StepAt(src: string, i: nat, line: nat): (s: Step)
    requires i < |src|
    ensures Advances(src, i, line, s)
  {
    var c := src[i];
    if IsPunctuation(c) then Single(src, i, line, PunctuationKind(c))
    else if IsOperatorStart(c) then WithEquals(src, i, line, OperatorKind(c), CombinedKind(c))
    else if c == '/' then
      if i + 1 < |src| && src[i + 1] == '/' then CommentStep(src, i + 2, line)
      else Single(src, i, line, Slash)
    else if c == '"' then StringStep(src, i, line)
    else if c == ' ' then Step([], i + 1, line)
    else if IsLineBlank(c) then Step([], i + 1, line + 1)
    else if IsDigit(c) then NumberStep(src, i, line)
    else if IsIdentChar(c) then WordStep(src, i, line)
    else Single(src, i, line, Error(UnrecognizedChar))
  }

  /** The tokens scanned from position `i` with line counter `line`, ending
      with the `Eof` token. */
  function ScanFrom(src: string, i: nat, line: nat): seq<Token>
    decreases |src| - i
  {
    if i < |src| then
      var s := StepAt(src, i, line);
      s.emitted + ScanFrom(src, s.next, s.line)
    else
      [New(Eof, |src|, |src|, line)]
  }

  /** The tokens of a whole source: scanning starts at line 0. */
  function Scan(src: string): seq<Token> {
    ScanFrom(src, 0, 0)
  }

  // ---------------------------------------------------------------------------
  // The scanning loop
  // ---------------------------------------------------------------------------

  /** The scanner proper: the tokens it pushes are exactly `Scan(src)`. */
  method Tokenize(src: string) returns (tokens: seq<Token>)
    requires IsAscii(src)
    ensures tokens == Scan(src)
  {
    tokens := [];
    var i, line := 0, 0;
    while i < |src|
      invariant i <= |src|
      invariant tokens + ScanFrom(src, i, line) == Scan(src)
      decreases |src| - i
    {
      var s := ScanToken(src, i, line);
      tokens, i, line := tokens + s.emitted, s.next, s.line;
    }
    tokens := tokens + [New(Eof, |src|, |src|, line)];
  }

  /** One iteration of the scanning loop: dispatch on the character at `i`. */
  method ScanToken(src: string, i: nat, line: nat) returns (s: Step)
    requires i < |src|
    ensures s == StepAt(src, i, line)
  {
    var c := src[i];
    match c
    case '!' =>
      if i + 1 < |src| && src[i + 1] == '=' { s := Step([New(BangEq, i, i + 2, line)], i + 2, line); }
      else { s := Single(src, i, line, Bang); }
    case '^' => s := Single(src, i, line, Carrot);
    case ',' => s := Single(src, i, line, Comma);
    case '.' => s := Single(src, i, line, Dot);
    case '=' =>
      if i + 1 < |src| && src[i + 1] == '=' { s := Step([New(DoubleEq, i, i + 2, line)], i + 2, line); }
      else { s := Single(src, i, line, Equal); }
    case '>' =>
      if i + 1 < |src| && src[i + 1] == '=' { s := Step([New(GreaterEq, i, i + 2, line)], i + 2, line); }
      else { s := Single(src, i, line, Greater); }
    case '{' => s := Single(src, i, line, LeftBrace);
    case '[' => s := Single(src, i, line, LeftBracket);
    case '(' => s := Single(src, i, line, LeftParen);
    case '<' =>
      if i + 1 < |src| && src[i + 1] == '=' { s := Step([New(LessEq, i, i + 2, line)], i + 2, line); }
      else { s := Single(src, i, line, Less); }
    case '-' => s := Single(src, i, line, Minus);
    case '%' => s := Single(src, i, line, Percent);
    case '+' => s := Single(src, i, line, Plus);
    case ')' => s := Single(src, i, line, RightParen);
    case ']' => s := Single(src, i, line, RightBracket);
    case '}' => s := Single(src, i, line, RightBrace);
    case '*' => s := Single(src, i, line, Star);
    case ';' => s := Single(src, i, line, SemiColon);
    case ':' => s := Single(src, i, line, Colon);
    case '/' =>
      if i + 1 < |src| && src[i + 1] == '/' {
        s := SkipComment(src, i + 2, line);
      } else {
        s := Single(src, i, line, Slash);
      }
    case '"' => s := ScanString(src, i, line);
    case ' ' => s := Step([], i + 1, line);
    case '\n' => s := Step([], i + 1, line + 1);
    case '\r' => s := Step([], i + 1, line + 1);
    case '\t' => s := Step([], i + 1, line + 1);
    case _ =>
      if IsDigit(c) {
        s := ScanNumber(src, i, line);
      } else if IsIdentChar(c) {
        s := ScanWord(src, i, line);
      } else {
        s := Single(src, i, line, Error(UnrecognizedChar));
      }
  }

  /** A string literal opened at `i`: scan to the closing quote, counting line feeds. */
  method ScanString(src: string, i: nat, line: nat) returns (s: Step)
    requires i < |src|
    ensures s == StringStep(src, i, line)
  {
    var curr, l := StringBody(src, i, line);
    if curr < |src| { s := Step([New(CroxStr, i + 1, curr, l)], curr + 1, l); }
    else { s := Step([New(Error(UnterminatedString), i + 1, curr, l)], curr, l); }
  }

  /** The loop over a string's characters: where the body ends, and the line
      counter after its line feeds. */
  method StringBody(src: string, i: nat, line: nat) returns (curr: nat, l: nat)
    requires i < |src|
    ensures curr == RunEnd(src, i + 1, IsNotQuote)
    ensures l == line + NewlineCount(src[i + 1..curr])
  {
    curr, l := i + 1, line;
    while curr < |src| && src[curr] != '"'
      invariant i + 1 <= curr <= |src|
      invariant RunEnd(src, curr, IsNotQuote) == RunEnd(src, i + 1, IsNotQuote)
      invariant l == line + NewlineCount(src[i + 1..curr])
      decreases |src| - curr
    {
      NewlineCountExtend(src, i + 1, curr);
      if src[curr] == '\n' { l := l + 1; }
      curr := curr + 1;
    }
  }

  /** A numeral starting at `i`: its maximal run of digits and points. */
  method ScanNumber(src: string, i: nat, line: nat) returns (s: Step)
    requires i < |src|
    ensures s == NumberStep(src, i, line)
  {
    var k := TakeWhile(src, i + 1, IsNumeralChar);
    var numeral := src[i..k];
    if ParsesAsFloat(numeral) { s := Step([New(Number(numeral), i, k, line)], k, line); }
    else { s := Step([New(Error(InvalidFloat), i, k, line)], k, line); }
  }

  /** An identifier or keyword starting at `i`: its maximal run of letters and underscores. */
  method ScanWord(src: string, i: nat, line: nat) returns (s: Step)
    requires i < |src|
    ensures s == WordStep(src, i, line)
  {
    var k := TakeWhile(src, i + 1, IsIdentChar);
    s := Step([New(IdentOrKeyword(src[i..k], src[i]), i, k, line)], k, line);
  }

  /** A line comment whose text starts at `j`: skip the rest of the line, line feed included. */
  method SkipComment(src: string, j: nat, line: nat) returns (s: Step)
    requires 2 <= j <= |src|
    ensures s == CommentStep(src, j, line)
  {
    var k := TakeWhile(src, j, IsNotNewline);
    if k < |src| { s := Step([], k + 1, line + 1); } else { s := Step([], k, line); }
  }

  /** Advance past the maximal run of characters satisfying `p`. */
  method TakeWhile(src: string, j: nat, p: char -> bool) returns (k: nat)
    requires j <= |src|
    ensures k == RunEnd(src, j, p)
  {
    k := j;
    while k < |src| && p(src[k])
      invariant j <= k <= |src|
      invariant RunEnd(src, k, p) == RunEnd(src, j, p)
      decreases |src| - k
    {
      k := k + 1;
    }
  }
}
