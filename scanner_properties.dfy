/** What the scanner promises about the tokens it produces. */
module ScannerProperties {
  import opened Tokens
  import opened Scanner

  // ---------------------------------------------------------------------------
  // What each kind of token means, independently of how it is scanned
  // ---------------------------------------------------------------------------

  /** `s..e` is a maximal run of digits and points that starts with a digit. */
  predicate IsNumeralRun(src: string, s: nat, e: nat) {
    s < e <= |src| && IsDigit(src[s]) &&
    (forall m :: s <= m < e ==> IsNumeralChar(src[m])) &&
    (e == |src| || !IsNumeralChar(src[e]))
  }

  /** `s..e` is a maximal run of ASCII letters and underscores. */
  predicate IsWordRun(src: string, s: nat, e: nat) {
    s < e <= |src| &&
    (forall m :: s <= m < e ==> IsIdentChar(src[m])) &&
    (e == |src| || !IsIdentChar(src[e]))
  }

  /** `s..e` holds no quote and directly follows an opening quote. */
  predicate IsQuotedText(src: string, s: nat, e: nat) {
    0 < s <= e <= |src| && src[s - 1] == '"' &&
    forall m :: s <= m < e ==> src[m] != '"'
  }

  predicate IsOperatorKind(ty: TokenType) { ty.Bang? || ty.Equal? || ty.Less? || ty.Greater? }

  /** A one-character operator that could have started a two-character one is
      not followed by the character that would have extended it. */
  predicate NotExtended(src: string, t: Token)
    requires t.end <= |src|
  {
    (IsOperatorKind(t.ty) ==> t.end == |src| || src[t.end] != '=') &&
    (t.ty == Slash ==> t.end == |src| || src[t.end] != '/')
  }

  /** A token is a slice of the source whose text fits its kind. */
  predicate ValidToken(src: string, t: Token) {
    t.start <= t.end <= |src| &&
    var lex := Lexeme(src, t);
    match t.ty
    case Eof => t.start == t.end == |src|
    case Number(numeral) => numeral == lex && IsNumeralRun(src, t.start, t.end) && ParsesAsFloat(lex)
    case Identifier => IsWordRun(src, t.start, t.end) && lex !in Keywords
    case CroxStr => IsQuotedText(src, t.start, t.end) && t.end < |src| && src[t.end] == '"'
    case Error(m) =>
      (m == InvalidFloat && IsNumeralRun(src, t.start, t.end) && !ParsesAsFloat(lex)) ||
      (m == UnterminatedString && IsQuotedText(src, t.start, t.end) && t.end == |src|) ||
      (m == UnrecognizedChar && t.end == t.start + 1 && !IsRecognized(src[t.start]))
    case _ =>
      if IsKeyword(t.ty) then IsWordRun(src, t.start, t.end) && lex in Keywords && Keywords[lex] == t.ty
      else lex == Spelling(t.ty) && lex != [] && NotExtended(src, t)
  }

  /** Line numbers never decrease along a token sequence. */
  predicate LinesNonDecreasing(ts: seq<Token>) {
    forall j, k :: 0 <= j < k < |ts| ==> ts[j].line <= ts[k].line
  }

  /** Lexemes appear in source order and do not overlap. */
  predicate InSourceOrder(ts: seq<Token>) {
    forall j, k :: 0 <= j < k < |ts| ==> ts[j].end <= ts[k].start
  }

  // ---------------------------------------------------------------------------
  // What one scan step does at each kind of character
  // ---------------------------------------------------------------------------

  lemma RunEndIs(src: string, j: nat, p: char -> bool, k: nat)
    requires j <= k <= |src|
    requires forall m :: j <= m < k ==> p(src[m])
    requires k == |src| || !p(src[k])
    ensures RunEnd(src, j, p) == k
  {
  }

  /** '!', '=', '<' and '>' followed by '=' make one two-character token. */
  lemma StepAtCombinedOperator(src: string, i: nat, line: nat)
    requires i + 1 < |src| && IsOperatorStart(src[i]) && src[i + 1] == '='
    ensures StepAt(src, i, line) == Step([Token(CombinedKind(src[i]), i, i + 2, line)], i + 2, line)
    ensures Spelling(CombinedKind(src[i])) == src[i..i + 2] && IsTwoCharKind(CombinedKind(src[i]))
  {
    var c := src[i];
    assert WithEquals(src, i, line, OperatorKind(c), CombinedKind(c)) == Step([Token(CombinedKind(c), i, i + 2, line)], i + 2, line);
    assert src[i..i + 2] == [c, '='];
  }

  /** Without an '=' after them they make a one-character token. */
  lemma StepAtSingleOperator(src: string, i: nat, line: nat)
    requires i < |src| && IsOperatorStart(src[i]) && !(i + 1 < |src| && src[i + 1] == '=')
    ensures StepAt(src, i, line) == Step([Token(OperatorKind(src[i]), i, i + 1, line)], i + 1, line)
    ensures Spelling(OperatorKind(src[i])) == [src[i]] && !IsTwoCharKind(OperatorKind(src[i]))
  {
    var c := src[i];
    assert WithEquals(src, i, line, OperatorKind(c), CombinedKind(c)) == Step([Token(OperatorKind(c), i, i + 1, line)], i + 1, line);
  }

  /** The other punctuation characters make one-character tokens. */
  lemma StepAtPunctuation(src: string, i: nat, line: nat)
    requires i < |src| && IsPunctuation(src[i])
    ensures StepAt(src, i, line) == Step([Token(PunctuationKind(src[i]), i, i + 1, line)], i + 1, line)
    ensures Spelling(PunctuationKind(src[i])) == [src[i]]
  {
  }

  /** A '/' not followed by another '/' is a `Slash` token. */
  lemma StepAtSlash(src: string, i: nat, line: nat)
    requires i < |src| && src[i] == '/' && !(i + 1 < |src| && src[i + 1] == '/')
    ensures StepAt(src, i, line) == Step([Token(Slash, i, i + 1, line)], i + 1, line)
  {
  }

  /** A line comment emits nothing and resumes after the next line feed, with
      the line counter advanced once. */
  lemma StepAtCommentLine(src: string, i: nat, line: nat, k: nat)
    requires i + 2 <= k < |src| && src[i] == '/' && src[i + 1] == '/' && src[k] == '\n'
    requires forall m :: i + 2 <= m < k ==> src[m] != '\n'
    ensures StepAt(src, i, line) == Step([], k + 1, line + 1)
  {
    RunEndIs(src, i + 2, IsNotNewline, k);
    assert CommentStep(src, i + 2, line) == Step([], k + 1, line + 1);
  }

  /** A line comment with no line feed after it runs to the end of the source. */
  lemma StepAtCommentToEnd(src: string, i: nat, line: nat)
    requires i + 2 <= |src| && src[i] == '/' && src[i + 1] == '/'
    requires forall m :: i + 2 <= m < |src| ==> src[m] != '\n'
    ensures StepAt(src, i, line) == Step([], |src|, line)
  {
    RunEndIs(src, i + 2, IsNotNewline, |src|);
    assert CommentStep(src, i + 2, line) == Step([], |src|, line);
  }

  /** A numeral is the maximal run of digits and points; it is a `Number`
      exactly when it parses as a float, and an error token with the same
      lexeme otherwise. */
  lemma StepAtNumeral(src: string, i: nat, line: nat, k: nat)
    requires IsNumeralRun(src, i, k)
    ensures var numeral := src[i..k];
      StepAt(src, i, line) ==
        Step([Token(if ParsesAsFloat(numeral) then Number(numeral) else Error(InvalidFloat), i, k, line)], k, line)
  {
    StepAtDigit(src, i, line);
    RunEndIs(src, i + 1, IsNumeralChar, k);
  }

  lemma StepAtDigit(src: string, i: nat, line: nat)
    requires i < |src| && IsDigit(src[i])
    ensures StepAt(src, i, line) == NumberStep(src, i, line)
  {
  }

  /** A word is the maximal run of letters and underscores; it is a keyword
      exactly when the whole word is in the keyword table. */
  lemma StepAtWord(src: string, i: nat, line: nat, k: nat)
    requires IsWordRun(src, i, k)
    ensures var word := src[i..k];
      StepAt(src, i, line) ==
        Step([Token(if word in Keywords then Keywords[word] else Identifier, i, k, line)], k, line)
  {
    StepAtLetter(src, i, line);
    RunEndIs(src, i + 1, IsIdentChar, k);
    DispatchIsWholeLexemeLookup(src[i..k], src[i]);
  }

  lemma StepAtLetter(src: string, i: nat, line: nat)
    requires i < |src| && IsIdentChar(src[i])
    ensures StepAt(src, i, line) == WordStep(src, i, line)
  {
  }

  /** A terminated string: its lexeme is the text strictly between the quotes,
      and the line counter advances once per line feed in it. */
  lemma StepAtString(src: string, i: nat, line: nat, k: nat)
    requires i < k < |src| && src[i] == '"' && src[k] == '"'
    requires forall m :: i < m < k ==> src[m] != '"'
    ensures var l := line + NewlineCount(src[i + 1..k]);
      StepAt(src, i, line) == Step([Token(CroxStr, i + 1, k, l)], k + 1, l)
  {
    StepAtQuote(src, i, line);
    RunEndIs(src, i + 1, IsNotQuote, k);
  }

  lemma StepAtQuote(src: string, i: nat, line: nat)
    requires i < |src| && src[i] == '"'
    ensures StepAt(src, i, line) == StringStep(src, i, line)
  {
  }

  /** An unterminated string: an error token whose lexeme runs to the end of
      the source; the scan then ends. */
  lemma StepAtUnterminatedString(src: string, i: nat, line: nat)
    requires i < |src| && src[i] == '"'
    requires forall m :: i < m < |src| ==> src[m] != '"'
    ensures var l := line + NewlineCount(src[i + 1..]);
      StepAt(src, i, line) == Step([Token(Error(UnterminatedString), i + 1, |src|, l)], |src|, l)
  {
    StepAtQuote(src, i, line);
    RunEndIs(src, i + 1, IsNotQuote, |src|);
    assert src[i + 1..] == src[i + 1..|src|];
  }

  /** A space emits nothing; a line feed, carriage return or tab emits nothing
      and advances the line counter by one. */
  lemma StepAtBlank(src: string, i: nat, line: nat)
    requires i < |src| && (src[i] == ' ' || IsLineBlank(src[i]))
    ensures StepAt(src, i, line) == Step([], i + 1, if src[i] == ' ' then line else line + 1)
  {
    if src[i] == ' ' {
    } else if src[i] == '\n' {
    } else if src[i] == '\r' {
    } else {
    }
  }

  /** Any other character is one error token holding that character. */
  lemma StepAtUnrecognized(src: string, i: nat, line: nat)
    requires i < |src| && !IsRecognized(src[i])
    ensures StepAt(src, i, line) == Step([Token(Error(UnrecognizedChar), i, i + 1, line)], i + 1, line)
  {
  }

  // ---------------------------------------------------------------------------
  // Every dispatch emits valid tokens
  // ---------------------------------------------------------------------------

  lemma NumberStepValid(src: string, i: nat, line: nat)
    requires i < |src| && IsDigit(src[i])
    ensures forall t | t in StepAt(src, i, line).emitted :: ValidToken(src, t)
  {
    var k := RunEnd(src, i + 1, IsNumeralChar);
    assert IsNumeralRun(src, i, k);
    StepAtNumeral(src, i, line, k);
    var numeral := src[i..k];
    var t := Token(if ParsesAsFloat(numeral) then Number(numeral) else Error(InvalidFloat), i, k, line);
    assert ValidToken(src, t);
    assert StepAt(src, i, line).emitted == [t];
  }

  lemma WordStepValid(src: string, i: nat, line: nat)
    requires i < |src| && IsIdentChar(src[i])
    ensures forall t | t in StepAt(src, i, line).emitted :: ValidToken(src, t)
  {
    var k := RunEnd(src, i + 1, IsIdentChar);
    var lex := src[i..k];
    assert IsWordRun(src, i, k);
    StepAtWord(src, i, line, k);
    KeywordTableKinds();
    if lex in Keywords {
      assert IsKeyword(Keywords[lex]);
    }
  }

  lemma StringStepValid(src: string, i: nat, line: nat)
    requires i < |src| && src[i] == '"'
    ensures forall t | t in StepAt(src, i, line).emitted :: ValidToken(src, t)
  {
    var k := RunEnd(src, i + 1, IsNotQuote);
    if k < |src| {
      TerminatedStringValid(src, i, line, k);
    } else {
      UnterminatedStringValid(src, i, line);
    }
  }

  lemma TerminatedStringValid(src: string, i: nat, line: nat, k: nat)
    requires i < k < |src| && src[i] == '"' && src[k] == '"'
    requires forall m :: i < m < k ==> src[m] != '"'
    ensures forall t | t in StepAt(src, i, line).emitted :: ValidToken(src, t)
  {
    StepAtString(src, i, line, k);
    assert IsQuotedText(src, i + 1, k);
  }

  lemma UnterminatedStringValid(src: string, i: nat, line: nat)
    requires i < |src| && src[i] == '"'
    requires forall m :: i < m < |src| ==> src[m] != '"'
    ensures forall t | t in StepAt(src, i, line).emitted :: ValidToken(src, t)
  {
    StepAtUnterminatedString(src, i, line);
    assert IsQuotedText(src, i + 1, |src|);
  }

  lemma PunctuationStepValid(src: string, i: nat, line: nat)
    requires i < |src| && IsPunctuation(src[i])
    ensures forall t | t in StepAt(src, i, line).emitted :: ValidToken(src, t)
  {
    StepAtPunctuation(src, i, line);
    assert src[i..i + 1] == [src[i]];
  }

  lemma OperatorStepValid(src: string, i: nat, line: nat)
    requires i < |src| && IsOperatorStart(src[i])
    ensures forall t | t in StepAt(src, i, line).emitted :: ValidToken(src, t)
  {
    if i + 1 < |src| && src[i + 1] == '=' {
      StepAtCombinedOperator(src, i, line);
    } else {
      StepAtSingleOperator(src, i, line);
      assert src[i..i + 1] == [src[i]];
    }
  }

  lemma SlashStepValid(src: string, i: nat, line: nat)
    requires i < |src| && src[i] == '/'
    ensures forall t | t in StepAt(src, i, line).emitted :: ValidToken(src, t)
    ensures i + 1 < |src| && src[i + 1] == '/' ==> StepAt(src, i, line).emitted == []
  {
    if !(i + 1 < |src| && src[i + 1] == '/') {
      StepAtSlash(src, i, line);
      assert src[i..i + 1] == [src[i]];
    }
  }

  lemma UnrecognizedStepValid(src: string, i: nat, line: nat)
    requires i < |src| && !IsRecognized(src[i])
    ensures forall t | t in StepAt(src, i, line).emitted :: ValidToken(src, t)
  {
    StepAtUnrecognized(src, i, line);
  }

  lemma StepValid(src: string, i: nat, line: nat)
    requires i < |src|
    ensures forall t | t in StepAt(src, i, line).emitted :: ValidToken(src, t)
  {
    var c := src[i];
    if IsPunctuation(c) {
      PunctuationStepValid(src, i, line);
    } else if IsOperatorStart(c) {
      OperatorStepValid(src, i, line);
    } else if c == '/' {
      SlashStepValid(src, i, line);
    } else if c == '"' {
      StringStepValid(src, i, line);
    } else if IsDigit(c) {
      NumberStepValid(src, i, line);
    } else if IsIdentChar(c) {
      WordStepValid(src, i, line);
    } else if !IsRecognized(c) {
      UnrecognizedStepValid(src, i, line);
    } else {
      assert StepAt(src, i, line).emitted == [];
    }
  }

  // ---------------------------------------------------------------------------
  // Properties of a whole scan
  // ---------------------------------------------------------------------------

  /** Every token of a scan is valid for the source it came from. */
  lemma {:induction false} ScanFromValid(src: string, i: nat, line: nat)
    ensures forall t | t in ScanFrom(src, i, line) :: ValidToken(src, t)
    decreases |src| - i
  {
    if i < |src| {
      var s := StepAt(src, i, line);
      StepValid(src, i, line);
      ScanFromValid(src, s.next, s.line);
    }
  }

  /** A scan ends with exactly one `Eof`, whose lexeme is empty. */
  lemma {:induction false} ScanFromEndsWithEof(src: string, i: nat, line: nat)
    ensures var ts := ScanFrom(src, i, line);
      |ts| >= 1 && ts[|ts| - 1].ty == Eof && ts[|ts| - 1].start == ts[|ts| - 1].end == |src| &&
      forall k :: 0 <= k < |ts| - 1 ==> ts[k].ty != Eof
    decreases |src| - i
  {
    if i < |src| {
      var s := StepAt(src, i, line);
      ScanFromEndsWithEof(src, s.next, s.line);
      var rest := ScanFrom(src, s.next, s.line);
      assert ScanFrom(src, i, line) == s.emitted + rest;
      forall k | 0 <= k < |s.emitted + rest| - 1 ensures (s.emitted + rest)[k].ty != Eof {
        if k < |s.emitted| {
          assert (s.emitted + rest)[k] in s.emitted;
        } else {
          assert (s.emitted + rest)[k] == rest[k - |s.emitted|];
        }
      }
    }
  }

  /** From position `i` with counter `line`, every lexeme lies in `i..|src|`,
      lexemes come in source order, and line numbers start at `line` or above
      and never decrease. */
  lemma {:induction false} ScanFromLayout(src: string, i: nat, line: nat)
    requires i <= |src|
    ensures var ts := ScanFrom(src, i, line);
      (forall t | t in ts :: i <= t.start <= t.end <= |src| && line <= t.line) &&
      InSourceOrder(ts) && LinesNonDecreasing(ts)
    decreases |src| - i
  {
    if i < |src| {
      var s := StepAt(src, i, line);
      ScanFromLayout(src, s.next, s.line);
      var rest := ScanFrom(src, s.next, s.line);
      var ts := s.emitted + rest;
      assert ScanFrom(src, i, line) == ts;
      forall j, k | 0 <= j < k < |ts| ensures ts[j].end <= ts[k].start && ts[j].line <= ts[k].line {
        if j < |s.emitted| {
          assert ts[j] in s.emitted && ts[k] == rest[k - |s.emitted|];
          assert ts[k] in rest;
        } else {
          assert ts[j] == rest[j - |s.emitted|] && ts[k] == rest[k - |s.emitted|];
        }
      }
    }
  }

  /** The whole scan: one trailing `Eof` with an empty lexeme, only valid
      tokens, source order, and line numbers that start at 0 and never decrease. */
  lemma ScanProperties(src: string)
    ensures var ts := Scan(src);
      |ts| >= 1 && ts[|ts| - 1].ty == Eof && ts[|ts| - 1].start == ts[|ts| - 1].end &&
      (forall k :: 0 <= k < |ts| - 1 ==> ts[k].ty != Eof) &&
      (forall t | t in ts :: ValidToken(src, t)) &&
      InSourceOrder(ts) && LinesNonDecreasing(ts)
  {
    assert Scan(src) == ScanFrom(src, 0, 0);
    ScanFromAll(src, 0, 0);
  }

  /** Everything known about a scan from any position at once: one trailing
      `Eof` with an empty lexeme, only valid tokens, lexemes in source order
      and line numbers that never decrease. */
  lemma ScanFromAll(src: string, i: nat, line: nat)
    requires i <= |src|
    ensures var ts := ScanFrom(src, i, line);
      |ts| >= 1 && ts[|ts| - 1].ty == Eof && ts[|ts| - 1].start == ts[|ts| - 1].end &&
      (forall k :: 0 <= k < |ts| - 1 ==> ts[k].ty != Eof) &&
      (forall t | t in ts :: ValidToken(src, t)) &&
      InSourceOrder(ts) && LinesNonDecreasing(ts)
  {
    ScanFromEndsWithEof(src, i, line);
    ScanFromValid(src, i, line);
    ScanFromLayout(src, i, line);
  }

  // ---------------------------------------------------------------------------
  // The "for " keyword entry
  // ---------------------------------------------------------------------------

  predicate IsWord(w: string) {
    |w| > 0 && forall m :: 0 <= m < |w| ==> IsIdentChar(w[m])
  }

  /** The scanner reads the word "for" as an identifier; the intended lookup
      gives `For`. */
  lemma ForWordIsIdentifier(src: string, i: nat, line: nat)
    requires IsWordRun(src, i, i + 3) && src[i..i + 3] == "for"
    ensures StepAt(src, i, line).emitted == [Token(Identifier, i, i + 3, line)]
    ensures IdentOrKeywordIntended(src[i..i + 3], src[i]) == For
  {
    ForIsNoKey();
    var w := src[i..i + 3];
    assert w !in Keywords && IdentOrKeywordIntended(w, src[i]) == For;
    StepAtWord(src, i, line, i + 3);
  }

  /** "for" is no key of the scanner's table; the intended lookup sends it to `For`. */
  lemma ForIsNoKey()
    ensures "for" !in Keywords
    ensures IdentOrKeyword("for", 'f') == Identifier && IdentOrKeywordIntended("for", 'f') == For
  {
  }

  /** No scan ever produces a `For` token: the only table entry for it
      contains a space, which no word does. */
  lemma ForNeverScanned(src: string)
    ensures forall t | t in Scan(src) :: t.ty != For
  {
    ScanFromValid(src, 0, 0);
    forall t | t in Scan(src) && IsKeyword(t.ty) ensures t.ty != For {
      NoWordIsForKey(src, t.start, t.end);
    }
  }

  /** No word is the table's key for `For`. */
  lemma NoWordIsForKey(src: string, s: nat, e: nat)
    requires IsWordRun(src, s, e)
    ensures src[s..e] !in Keywords || Keywords[src[s..e]] != For
  {
    var w := src[s..e];
    assert forall m :: 0 <= m < |w| ==> w[m] == src[s + m];
    NotSpacedFor(w);
    OnlyKeyForFor(w);
  }

  lemma NotSpacedFor(w: string)
    requires IsWord(w)
    ensures w != "for "
  {
    if |w| == 4 {
      assert IsIdentChar(w[3]) && w[3] != "for "[3];
    }
  }

  lemma OnlyKeyForFor(w: string)
    ensures w in Keywords && Keywords[w] == For ==> w == "for "
  {
    if |w| > 0 && w[0] == 'f' {
    } else if |w| > 0 && w[0] == 't' {
    } else {
    }
  }

  /** With the intended lookup every keyword kind is the lookup of some word,
      "for" among them. */
  lemma IntendedKeywordsReachable(ty: TokenType)
    requires IsKeyword(ty)
    ensures exists w :: IsWord(w) && IdentOrKeywordIntended(w, w[0]) == ty
  {
    var w := IntendedSpelling(ty);
    IntendedSpellingIsWord(ty);
    IntendedDispatchOnSpelling(ty);
    assert IsWord(w) && IdentOrKeywordIntended(w, w[0]) == ty;
  }

  lemma IntendedSpellingIsWord(ty: TokenType)
    requires IsKeyword(ty)
    ensures IsWord(IntendedSpelling(ty))
  {
  }

  lemma IntendedDispatchOnSpelling(ty: TokenType)
    requires IsKeyword(ty)
    ensures var w := IntendedSpelling(ty); |w| > 0 && IdentOrKeywordIntended(w, w[0]) == ty
  {
  }

  /** The intended lookup agrees with the scanner's on every word but "for". */
  lemma IntendedAgreesElsewhere(w: string)
    requires IsWord(w) && w != "for"
    ensures IdentOrKeywordIntended(w, w[0]) == IdentOrKeyword(w, w[0])
  {
    NotSpacedFor(w);
  }
}
