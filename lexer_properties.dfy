/**
 * What the scanner promises, stated over `TokenizeFrom` and `StepAt`: white
 * space and comments make no tokens, how strings, numbers, operators and words
 * are cut, and which inputs are rejected with which error.
 */
module LexerProperties {
  import opened Wrappers
  import opened JsText
  import opened Lexicon
  import opened Lexer

  /** Input that is only white space from `cur` on scans to no tokens. */
  lemma {:induction false} WhitespaceMakesNoTokens(input: string, cur: nat)
    requires cur <= |input|
    requires forall j :: cur <= j < |input| ==> IsWhitespace(input[j])
    ensures TokenizeFrom(input, cur) == Ok([])
    decreases |input| - cur
  {
    if cur < |input| {
      WhitespaceMakesNoTokens(input, cur + 1);
    }
  }

  /** A `//` comment is skipped up to, not including, the next line feed. */
  lemma LineCommentSkipped(input: string, cur: nat)
    requires StartsWithAt(input, cur, "//")
    ensures TokenizeFrom(input, cur) == TokenizeFrom(input, LineCommentEnd(input, cur + 2))
  {
    assert input[cur] == '/' && input[cur + 1] == '/' by {
      assert input[cur..cur + 2] == "//";
    }
  }

  // A block comment whose first `*/` starts at `j` and leaves at least two
  // characters after it is skipped entirely.
  lemma BlockCommentSkipped(input: string, cur: nat, j: nat)
    requires StartsWithAt(input, cur, "/*")
    requires cur + 2 <= j && CloseAt(input, j) && j + 2 < |input| - 1
    requires forall k :: cur + 2 <= k < j ==> !CloseAt(input, k)
    ensures TokenizeFrom(input, cur) == TokenizeFrom(input, j + 2)
  {
    BlockCommentStep(input, cur, j);
    assert TokenizeFrom(input, cur) == TokenizeFrom(input, j + 2);
  }

  /** The step at a closed block comment skips to just past its first close. */
  lemma BlockCommentStep(input: string, cur: nat, j: nat)
    requires StartsWithAt(input, cur, "/*")
    requires cur + 2 <= j && CloseAt(input, j) && j + 2 < |input| - 1
    requires forall k :: cur + 2 <= k < j ==> !CloseAt(input, k)
    ensures StepAt(input, cur) == Skip(j + 2)
  {
    assert input[cur] == '/' && input[cur + 1] == '*' by {
      assert input[cur..cur + 2] == "/*";
    }
    BlockCommentStops(input, cur + 2, j);
  }

  /**
   * The check after the comment loop compares against the last index, so a
   * block comment is rejected as unterminated when it is never closed and also
   * when its first close ends at the last or next-to-last character.
   */
  lemma BlockCommentAtEnd(input: string, cur: nat)
    requires StartsWithAt(input, cur, "/*")
    requires forall k :: cur + 2 <= k < |input| - 3 ==> !CloseAt(input, k)
    ensures TokenizeFrom(input, cur).Err? && TokenizeFrom(input, cur).error.kind == UNTERMINATED_COMMENT
  {
    assert input[cur] == '/' && input[cur + 1] == '*' by {
      assert input[cur..cur + 2] == "/*";
    }
  }

  // `/**/` alone is an unterminated comment.
  lemma EmptyBlockCommentAtEnd()
    ensures TokenizeFrom("/**/", 0) == Err(LexError(UNTERMINATED_COMMENT, "Unterminated multi-line comment", 3))
  {
    BlockCommentStops("/**/", 2, 2);
  }

  lemma {:induction false} BlockCommentStops(input: string, k: nat, j: nat)
    requires k <= j && CloseAt(input, j)
    requires forall i :: k <= i < j ==> !CloseAt(input, i)
    ensures BlockCommentScan(input, k) == j + 2
    decreases j - k
  {
    if k < j {
      BlockCommentStops(input, k + 1, j);
    }
  }

  /**
   * Between the quotes, a string without backslashes is taken as it stands, up
   * to the closing quote or, when there is none, to the end of the input.
   */
  lemma {:induction false} StringWithoutEscapes(input: string, quote: char, cur: nat, e: nat, value: string)
    requires cur <= e <= |input| && (e == |input| || input[e] == quote)
    requires forall j :: cur <= j < e ==> input[j] != quote && input[j] != '\\'
    ensures StringLoop(input, quote, cur, value) == (e, value + input[cur..e])
    decreases e - cur
  {
    if cur < e {
      assert StringLoop(input, quote, cur, value) == StringLoop(input, quote, cur + 1, value + [input[cur]]);
      StringWithoutEscapes(input, quote, cur + 1, e, value + [input[cur]]);
      assert value + [input[cur]] + input[cur + 1..e] == value + input[cur..e];
    } else {
      assert value + input[cur..e] == value;
    }
  }

  /**
   * The string loop started at an unescaped position `p` of contents that begin
   * at `start` stops at the first quote there not escaped by a backslash, or at
   * the end of the input when there is none: a backslash always takes the
   * character after it.
   */
  lemma {:induction false} StringLoopFirst(input: string, quote: char, start: nat, p: nat, value: string)
    requires start <= p <= |input| && quote != '\\' && !EscapedAt(input, start, p)
    ensures var e := StringLoop(input, quote, p, value).0;
      (e < |input| ==> input[e] == quote && !EscapedAt(input, start, e)) &&
      forall j :: p <= j < e ==> !(input[j] == quote && !EscapedAt(input, start, j))
    decreases |input| - p
  {
    if p < |input| && input[p] != quote {
      assert EscapedAt(input, start, p + 1) == (input[p] == '\\');
      if input[p] == '\\' && p + 1 < |input| {
        assert !EscapedAt(input, start, p + 2);
        StringLoopFirst(input, quote, start, p + 2, value + [EscapeMap(input[p + 1])]);
      } else if input[p] != '\\' {
        StringLoopFirst(input, quote, start, p + 1, value + [input[p]]);
      }
    }
  }

  /** A string token holds its decoded contents, and the scan goes on after the closing quote. */
  lemma StringToken(input: string, cur: nat, e: nat)
    requires cur < e < |input| && (input[cur] == '"' || input[cur] == '\'') && input[e] == input[cur]
    requires forall j :: cur < j < e ==> input[j] != input[cur] && input[j] != '\\'
    ensures StepAt(input, cur) == Emit(Token(STRING, Text(input[cur + 1..e])), e + 1)
  {
    StringWithoutEscapes(input, input[cur], cur + 1, e, "");
    assert "" + input[cur + 1..e] == input[cur + 1..e];
  }

  /** An escaped quote does not end the string, and the escape map decodes it. */
  lemma EscapedQuote()
    ensures TokenizeFrom("\"a\\\"b\"", 0) == Ok([Token(STRING, Text("a\"b"))])
  {
    var input := "\"a\\\"b\"";
    assert StringLoop(input, '"', 5, "a\"b") == (5, "a\"b");
    assert "a\"" + ['b'] == "a\"b";
    assert StringLoop(input, '"', 4, "a\"") == (5, "a\"b");
    assert "a" + [EscapeMap('"')] == "a\"";
    assert StringLoop(input, '"', 2, "a") == StringLoop(input, '"', 4, "a\"");
    assert "" + ['a'] == "a";
    assert StringLoop(input, '"', 1, "") == (5, "a\"b");
    assert StepAt(input, 0) == Emit(Token(STRING, Text("a\"b")), 6);
    assert TokenizeFrom(input, 6) == Ok([]);
    assert [Token(STRING, Text("a\"b"))] + [] == [Token(STRING, Text("a\"b"))];
  }

  /** Every escape sequence the map knows decodes to its character; any other escaped character stands for itself. */
  lemma EscapeSequences(c: char)
    ensures EscapeMap('n') == '\n' && EscapeMap('t') == '\t' && EscapeMap('r') == '\r'
    ensures EscapeMap('\\') == '\\' && EscapeMap('"') == '"' && EscapeMap('\'') == '\''
    ensures c !in "ntr\\\"'" ==> EscapeMap(c) == c
  {
  }

  /**
   * A quote starts a string that ends at the first same quote not escaped by a
   * backslash: the token is emitted there, and the scan resumes after it; when
   * no such quote follows, the literal is UNTERMINATED_STRING.
   */
  lemma StringEndsAtUnescapedQuote(input: string, cur: nat)
    requires cur < |input| && (input[cur] == '"' || input[cur] == '\'')
    ensures var (e, value) := StringLoop(input, input[cur], cur + 1, "");
      (forall j :: cur < j < e ==> !(input[j] == input[cur] && !EscapedAt(input, cur + 1, j))) &&
      (e < |input| ==> !EscapedAt(input, cur + 1, e) && StepAt(input, cur) == Emit(Token(STRING, Text(value)), e + 1)) &&
      (e == |input| ==> StepAt(input, cur) == Fail(LexError(UNTERMINATED_STRING, "Unterminated string literal", |input| - |value| - 1)))
  {
    StringLoopFirst(input, input[cur], cur + 1, cur + 1, "");
  }

  /**
   * A quote with no same quote after it is UNTERMINATED_STRING; the reported
   * position is the opening quote when the literal holds no backslash.
   */
  lemma UnterminatedStringAt(input: string, cur: nat)
    requires cur < |input| && (input[cur] == '"' || input[cur] == '\'')
    requires forall j :: cur < j < |input| ==> input[j] != input[cur]
    ensures StepAt(input, cur).Fail?
    ensures StepAt(input, cur).error.kind == UNTERMINATED_STRING && StepAt(input, cur).error.message == "Unterminated string literal"
    ensures (forall j :: cur < j < |input| ==> input[j] != '\\') ==> StepAt(input, cur).error.position == cur
  {
    var (e, value) := StringLoop(input, input[cur], cur + 1, "");
    assert e == |input|;
    if forall j :: cur < j < |input| ==> input[j] != '\\' {
      StringWithoutEscapes(input, input[cur], cur + 1, |input|, "");
    }
  }

  /** A string with no closing quote is rejected. */
  lemma UnterminatedString()
    ensures TokenizeFrom("\"abc", 0) == Err(LexError(UNTERMINATED_STRING, "Unterminated string literal", 0))
  {
    UnterminatedStringAt("\"abc", 0);
  }

  /**
   * The position of an unterminated string is counted back from the end by
   * the decoded length, so each escape sequence moves it one place past the
   * opening quote: in `"\nx` it is 1.
   */
  lemma UnterminatedEscapePosition()
    ensures TokenizeFrom("\"\\nx", 0) == Err(LexError(UNTERMINATED_STRING, "Unterminated string literal", 1))
  {
    var input := "\"\\nx";
    assert "\n" + ['x'] == "\nx";
    assert StringLoop(input, '"', 3, "\n") == (4, "\nx");
    assert "" + [EscapeMap('n')] == "\n";
    assert StringLoop(input, '"', 1, "") == StringLoop(input, '"', 3, "\n");
  }

  /** The number loop takes a run of digits one by one, whatever follows it. */
  lemma {:induction false} DigitRun(input: string, start: nat, cur: nat, e: nat, value: string, hasDecimal: bool)
    requires cur <= e <= |input|
    requires forall j :: cur <= j < e ==> IsDigit(input[j])
    ensures NumberLoop(input, start, cur, value, hasDecimal) == NumberLoop(input, start, e, value + input[cur..e], hasDecimal)
    decreases e - cur
  {
    if cur < e {
      DigitRun(input, start, cur + 1, e, value + [input[cur]], hasDecimal);
      ExtendLexeme(input, cur, value, e);
    } else {
      assert value + input[cur..e] == value;
    }
  }

  /** A run of digits ends the number at the first other character and gives its value. */
  lemma DigitsOnly(input: string, start: nat, cur: nat, e: nat, value: string)
    requires cur <= e <= |input| && NumberChars(value, false)
    requires forall j :: cur <= j < e ==> IsDigit(input[j])
    requires e == |input| || (!IsDigit(input[e]) && input[e] != '.')
    ensures NumberLoop(input, start, cur, value, false) == Scanned(e, value + input[cur..e], false)
  {
    DigitRun(input, start, cur, e, value, false);
  }

  /**
   * Digits, one `.` at `d` with a digit after it, and digits up to `e`, where
   * neither a digit nor a `.` follows: the loop reads the whole lexeme and
   * sets the decimal flag.
   */
  lemma FractionScan(input: string, cur: nat, d: nat, e: nat)
    requires cur <= d && d + 1 < e <= |input| && input[d] == '.'
    requires forall j :: cur <= j < e && j != d ==> IsDigit(input[j])
    requires e == |input| || (!IsDigit(input[e]) && input[e] != '.')
    ensures NumberLoop(input, cur, cur, "", false) == Scanned(e, input[cur..e], true)
  {
    var whole := input[cur..d];
    DigitRun(input, cur, cur, d, "", false);
    assert "" + whole == whole;
    assert NumberLoop(input, cur, d, whole, false) == NumberLoop(input, cur, d + 1, whole + ['.'], true);
    DigitRun(input, cur, d + 1, e, whole + ['.'], true);
    FractionLexeme(input, cur, d, e);
  }

  lemma FractionLexeme(input: string, cur: nat, d: nat, e: nat)
    requires cur <= d < e <= |input| && input[d] == '.'
    ensures input[cur..d] + ['.'] + input[d + 1..e] == input[cur..e]
  {
    assert input[cur..e] == input[cur..d] + input[d..e];
    assert input[d..e] == [input[d]] + input[d + 1..e];
  }

  /** A run of digits followed by neither a digit nor a `.` is one NUMBER token with its decimal value. */
  lemma IntegerToken(input: string, cur: nat, e: nat)
    requires cur < e <= |input| && AllDigits(input[cur..e])
    requires e == |input| || (!IsDigit(input[e]) && input[e] != '.')
    ensures StepAt(input, cur) == Emit(Token(NUMBER, IntValue(DigitsValue(input[cur..e]))), e)
  {
    var w := input[cur..e];
    forall j | cur <= j < e
      ensures IsDigit(input[j])
    {
      assert input[j] == w[j - cur];
    }
    DigitsOnly(input, cur, cur, e, "");
    assert "" + w == w;
    IntegerStep(input, cur, e);
    NumberDispatch(input, cur);
  }

  lemma IntegerStep(input: string, cur: nat, e: nat)
    requires cur < e <= |input| && IsDigit(input[cur]) && AllDigits(input[cur..e])
    requires NumberLoop(input, cur, cur, "", false) == Scanned(e, input[cur..e], false)
    ensures NumberStep(input, cur) == Emit(Token(NUMBER, IntValue(DigitsValue(input[cur..e]))), e)
  {
    var w := input[cur..e];
    assert w[0] == input[cur];
    assert w != "." && w != "";
  }

  /**
   * Digits with one `.` among them that a digit follows, followed by neither a
   * digit nor a `.`, are one FLOAT token holding that lexeme; the `.` may come
   * first.
   */
  lemma FloatToken(input: string, cur: nat, d: nat, e: nat)
    requires cur <= d && d + 1 < e <= |input| && input[d] == '.'
    requires forall j :: cur <= j < e && j != d ==> IsDigit(input[j])
    requires e == |input| || (!IsDigit(input[e]) && input[e] != '.')
    ensures StepAt(input, cur) == Emit(Token(FLOAT, FloatValue(input[cur..e])), e)
  {
    FloatEntry(input, cur, d, e);
    FloatStep(input, cur, e);
    NumberDispatch(input, cur);
  }

  /** The scan the number branch starts reads a fraction whole, whether or not it starts with its `.`. */
  lemma FloatEntry(input: string, cur: nat, d: nat, e: nat)
    requires cur <= d && d + 1 < e <= |input| && input[d] == '.'
    requires forall j :: cur <= j < e && j != d ==> IsDigit(input[j])
    requires e == |input| || (!IsDigit(input[e]) && input[e] != '.')
    ensures input[cur] == '.' ==> NumberLoop(input, cur, cur + 1, ".", true) == Scanned(e, input[cur..e], true)
    ensures input[cur] != '.' ==> NumberLoop(input, cur, cur, "", false) == Scanned(e, input[cur..e], true)
  {
    if cur == d {
      LeadingPointScan(input, cur, e);
    } else {
      FractionScan(input, cur, d, e);
    }
  }

  lemma LeadingPointScan(input: string, cur: nat, e: nat)
    requires cur + 1 < e <= |input| && input[cur] == '.'
    requires forall j :: cur < j < e ==> IsDigit(input[j])
    requires e == |input| || (!IsDigit(input[e]) && input[e] != '.')
    ensures NumberLoop(input, cur, cur + 1, ".", true) == Scanned(e, input[cur..e], true)
  {
    DigitRun(input, cur, cur + 1, e, ".", true);
    assert input[cur..e] == "." + input[cur + 1..e];
  }

  lemma FloatStep(input: string, cur: nat, e: nat)
    requires cur + 1 < e <= |input| && (IsDigit(input[cur]) || (input[cur] == '.' && DigitAt(input, cur + 1)))
    requires input[cur] == '.' ==> NumberLoop(input, cur, cur + 1, ".", true) == Scanned(e, input[cur..e], true)
    requires input[cur] != '.' ==> NumberLoop(input, cur, cur, "", false) == Scanned(e, input[cur..e], true)
    ensures NumberStep(input, cur) == Emit(Token(FLOAT, FloatValue(input[cur..e])), e)
  {
    assert |input[cur..e]| > 1;
  }

  /**
   * A second `.` fails the whole literal with INVALID_NUMBER_FORMAT, reported
   * at the literal's start: digits, a `.` at `d` with digits after it, digits,
   * then another `.` at `d2`.
   */
  lemma SecondPointFails(input: string, cur: nat, d: nat, d2: nat)
    requires cur <= d && d + 1 < d2 < |input| && input[d] == '.' && input[d2] == '.'
    requires forall j :: cur <= j < d2 && j != d ==> IsDigit(input[j])
    ensures StepAt(input, cur) == Fail(LexError(INVALID_NUMBER_FORMAT, "Number contains multiple decimal points", cur))
  {
    var e := LexError(INVALID_NUMBER_FORMAT, "Number contains multiple decimal points", cur);
    if cur == d {
      DigitRun(input, cur, cur + 1, d2, ".", true);
      assert NumberLoop(input, cur, cur + 1, ".", true) == Malformed(e);
    } else {
      var whole := input[cur..d];
      DigitRun(input, cur, cur, d, "", false);
      assert "" + whole == whole;
      assert NumberLoop(input, cur, d, whole, false) == NumberLoop(input, cur, d + 1, whole + ['.'], true);
      DigitRun(input, cur, d + 1, d2, whole + ['.'], true);
      assert NumberLoop(input, cur, cur, "", false) == Malformed(e);
    }
    NumberDispatch(input, cur);
  }

  /**
   * A `.` after a run of digits that no digit follows fails the literal with
   * INVALID_DECIMAL_FORMAT, reported at the `.`.
   */
  lemma DanglingPointFails(input: string, cur: nat, d: nat)
    requires cur < d < |input| && input[d] == '.' && !DigitAt(input, d + 1)
    requires forall j :: cur <= j < d ==> IsDigit(input[j])
    ensures StepAt(input, cur) == Fail(LexError(INVALID_DECIMAL_FORMAT, "Decimal point must be followed by digits", d))
  {
    DigitRun(input, cur, cur, d, "", false);
    NumberDispatch(input, cur);
  }

  /** A digit, or a `.` followed by a digit, takes the number branch. */
  lemma NumberDispatch(input: string, cur: nat)
    requires cur < |input| && (IsDigit(input[cur]) || (input[cur] == '.' && DigitAt(input, cur + 1)))
    ensures StepAt(input, cur) == NumberStep(input, cur)
  {
    var c := input[cur];
    assert !IsWhitespace(c) && c != '/' && c != '"' && c != '\'';
  }

  /** `42` is a NUMBER. */
  lemma IntegerLiteral()
    ensures TokenizeFrom("42", 0) == Ok([Token(NUMBER, IntValue(42))])
  {
    IntegerToken("42", 0, 2);
    assert "42"[0..2] == "42";
    assert DigitsValue("42") == 42 by {
      assert "42"[..1] == "4";
      assert "4"[..0] == "";
    }
    assert TokenizeFrom("42", 2) == Ok([]);
    assert [Token(NUMBER, IntValue(42))] + [] == [Token(NUMBER, IntValue(42))];
  }

  /** The number loop reads `10.5` whole, with the decimal flag set. */
  lemma FloatScan()
    ensures NumberLoop("10.5", 0, 0, "", false) == Scanned(4, "10.5", true)
  {
    FractionScan("10.5", 0, 2, 4);
    assert "10.5"[0..4] == "10.5";
  }

  /** `10.5` is a FLOAT with that lexeme. */
  lemma FloatLiteral()
    ensures TokenizeFrom("10.5", 0) == Ok([Token(FLOAT, FloatValue("10.5"))])
  {
    var input := "10.5";
    var t := Token(FLOAT, FloatValue("10.5"));
    FloatToken(input, 0, 2, 4);
    assert input[0..4] == input;
    assert TokenizeFrom(input, 4) == Ok([]);
    assert [t] + [] == [t];
  }

  /** A second decimal point is rejected, at the start of the number. */
  lemma SecondDecimalPoint()
    ensures TokenizeFrom("10.5.2", 0) == Err(LexError(INVALID_NUMBER_FORMAT, "Number contains multiple decimal points", 0))
  {
    SecondPointFails("10.5.2", 0, 2, 4);
  }

  /** A decimal point not followed by a digit is rejected, at the point. */
  lemma DanglingDecimalPoint()
    ensures TokenizeFrom("10.", 0) == Err(LexError(INVALID_DECIMAL_FORMAT, "Decimal point must be followed by digits", 2))
  {
    DanglingPointFails("10.", 0, 2);
  }

  /** Only the word operators start with a letter. */
  lemma LetterOperatorsAreWords(i: nat)
    requires i < |Operators| && |Operators[i]| > 0 && IsAlpha(Operators[i][0])
    ensures Operators[i] in WordOperators
  {
  }

  /**
   * A word that is not a word operator is scanned greedily as one token,
   * a KEYWORD exactly when the keyword table holds it and an IDENTIFIER
   * otherwise; so `naam` and `satyaHai` are identifiers.
   */
  lemma WordToken(input: string, cur: nat)
    requires cur < |input| && IsAlpha(input[cur])
    requires input[cur..IdentEnd(input, cur)] !in WordOperators
    ensures var w := input[cur..IdentEnd(input, cur)];
      StepAt(input, cur) == Emit(Token(if w in Keywords then KEYWORD else IDENTIFIER, Text(w)), IdentEnd(input, cur))
  {
    NoOperatorBeforeWord(input, cur);
    AlphaStep(input, cur);
  }

  /** A letter that no operator matches starts an identifier-or-keyword token. */
  lemma AlphaStep(input: string, cur: nat)
    requires cur < |input| && IsAlpha(input[cur]) && FindOperator(input, cur, 0).None?
    ensures var w := input[cur..IdentEnd(input, cur)];
      StepAt(input, cur) == Emit(Token(if w in Keywords then KEYWORD else IDENTIFIER, Text(w)), IdentEnd(input, cur))
  {
    LetterFacts(input[cur]);
  }

  /** A letter is no white space, comment start, quote, digit, `.` or symbol. */
  lemma LetterFacts(c: char)
    requires IsAlpha(c)
    ensures !IsWhitespace(c) && c != '/' && c != '"' && c != '\'' && !IsDigit(c) && c != '.'
    ensures [c] !in Symbols
  {
  }

  /** No operator is accepted in front of a word that is not a word operator. */
  lemma NoOperatorBeforeWord(input: string, cur: nat)
    requires cur < |input| && IsAlpha(input[cur])
    requires input[cur..IdentEnd(input, cur)] !in WordOperators
    ensures FindOperator(input, cur, 0).None?
  {
    if FindOperator(input, cur, 0).Some? {
      var i := FindOperator(input, cur, 0).value;
      var op := Operators[i];
      OperatorsNonEmpty();
      assert op[0] == input[cur];
      LetterOperatorsAreWords(i);
      WordOperatorIsRun(input, cur, op);
      assert false;
    }
  }

  /** An accepted word operator is exactly the identifier run at its position. */
  lemma WordOperatorIsRun(input: string, cur: nat, op: string)
    requires cur < |input| && IsAlpha(input[cur]) && op in WordOperators && OperatorAccepted(input, cur, op)
    ensures input[cur..IdentEnd(input, cur)] == op
  {
    var e := IdentEnd(input, cur);
    assert forall k :: 0 <= k < |op| ==> IsIdentChar(op[k]) by {
      assert WordOperators[0] == "ca" && WordOperators[1] == "va" && WordOperators[2] == "na";
      assert WordOperators[3] == "chintan" && WordOperators[4] == "satya" && WordOperators[5] == "asatya";
    }
    forall k | cur <= k < cur + |op|
      ensures IsIdentChar(input[k])
    {
      assert input[k] == op[k - cur];
    }
    IdentEndPast(input, cur, cur + |op|);
  }

  lemma {:induction false} IdentEndPast(input: string, k: nat, m: nat)
    requires k <= m <= |input|
    requires forall j :: k <= j < m ==> IsIdentChar(input[j])
    requires m == |input| || !IsIdentChar(input[m])
    ensures IdentEnd(input, k) == m
    decreases m - k
  {
    if k < m {
      IdentEndPast(input, k + 1, m);
    }
  }

  /** A string starting at `k` has its first character there. */
  lemma StartsWithFirst(s: string, k: nat, p: string)
    requires |p| > 0
    ensures StartsWithAt(s, k, p) ==> s[k] == p[0]
  {
    if StartsWithAt(s, k, p) {
      assert s[k..k + |p|][0] == s[k];
    }
  }

  /** No operator is accepted at a character no operator starts with. */
  lemma {:induction false} NoOperatorAt(input: string, cur: nat, from: nat)
    requires cur < |input| && input[cur] !in OperatorInitials && from <= |Operators|
    ensures FindOperator(input, cur, from) == None
    decreases |Operators| - from
  {
    if from < |Operators| {
      OperatorsStartWithInitials();
      StartsWithFirst(input, cur, Operators[from]);
      NoOperatorAt(input, cur, from + 1);
    }
  }

  /** `[a-zA-Z_][a-zA-Z0-9_]*`: a string the identifier scan takes whole. */
  predicate IsWordShape(w: string) {
    |w| > 0 && IsAlpha(w[0]) && forall k :: 0 <= k < |w| ==> IsIdentChar(w[k])
  }

  /** Every keyword is identifier-shaped and none is a word operator, so the scanner can produce each one as a KEYWORD. */
  lemma KeywordsAreWords()
    ensures forall i :: 0 <= i < |Keywords| ==> IsWordShape(Keywords[i]) && Keywords[i] !in WordOperators
  {
    KeywordsAreNotOperators();
    forall i | 0 <= i < |Keywords|
      ensures IsWordShape(Keywords[i])
    {
      var w := Keywords[i];
      assert w == Keywords[i];
    }
  }

  /** `naam` is an identifier: the guard keeps `na` from matching inside a word. */
  lemma NaamIsIdentifier()
    ensures TokenizeFrom("naam", 0) == Ok([Token(IDENTIFIER, Text("naam"))])
  {
    IdentEndPast("naam", 0, 4);
    assert "naam"[0..4] == "naam";
    assert "naam" !in WordOperators;
    assert "naam" !in Keywords;
    WordToken("naam", 0);
    var t := Token(IDENTIFIER, Text("naam"));
    assert StepAt("naam", 0) == Emit(t, 4);
    assert TokenizeFrom("naam", 4) == Ok([]);
    assert TokenizeFrom("naam", 0) == Prepended([t], Ok([]));
    assert [t] + [] == [t];
  }

  /** A word operator standing alone is an operator. */
  lemma NaIsOperator()
    ensures StepAt("na x", 0) == Emit(Token(OPERATOR, Text("na")), 2)
  {
    var input := "na x";
    assert input[0..2] == "na";
    assert Operators[7] == "na";
    assert OperatorAccepted(input, 0, "na");
    assert FindOperator(input, 0, 7) == Some(7);
    assert forall j :: 0 <= j < 7 ==> !OperatorAccepted(input, 0, Operators[j]) by {
      OperatorsStartWithInitials();
      forall j | 0 <= j < 7
        ensures !OperatorAccepted(input, 0, Operators[j])
      {
        StartsWithFirst(input, 0, Operators[j]);
        if j == 5 {
          assert Operators[5] == "ca";
        } else if j == 6 {
          assert Operators[6] == "va";
        }
      }
    }
    FindOperatorSkips(input, 0, 0, 7);
  }

  lemma {:induction false} FindOperatorSkips(input: string, cur: nat, from: nat, upto: nat)
    requires from <= upto <= |Operators|
    requires forall j :: from <= j < upto ==> !OperatorAccepted(input, cur, Operators[j])
    ensures FindOperator(input, cur, from) == FindOperator(input, cur, upto)
    decreases upto - from
  {
    if from < upto {
      FindOperatorSkips(input, cur, from + 1, upto);
    }
  }

  /** Two strings that both start at `cur` are prefixes of one another. */
  lemma SharedStart(input: string, cur: nat, a: string, b: string)
    requires StartsWithAt(input, cur, a) && StartsWithAt(input, cur, b) && |a| < |b|
    ensures IsProperPrefix(a, b)
  {
    assert input[cur..cur + |b|][..|a|] == input[cur..cur + |a|];
  }

  /**
   * The operator the scanner takes is the longest one accepted there: the table
   * lists no operator before one it is a proper prefix of.
   */
  lemma FirstMatchIsLongest(input: string, cur: nat)
    requires FindOperator(input, cur, 0).Some?
    ensures var i := FindOperator(input, cur, 0).value;
      forall j :: 0 <= j < |Operators| && OperatorAccepted(input, cur, Operators[j]) ==> |Operators[j]| <= |Operators[i]|
  {
    var i := FindOperator(input, cur, 0).value;
    forall j | 0 <= j < |Operators| && OperatorAccepted(input, cur, Operators[j])
      ensures |Operators[j]| <= |Operators[i]|
    {
      if i <= j {
        LaterAcceptedNotLonger(input, cur, i, j);
      }
    }
  }

  lemma LaterAcceptedNotLonger(input: string, cur: nat, i: nat, j: nat)
    requires i <= j < |Operators|
    requires OperatorAccepted(input, cur, Operators[i]) && OperatorAccepted(input, cur, Operators[j])
    ensures |Operators[j]| <= |Operators[i]|
  {
    if i < j {
      LaterNotExtended(i, j);
      AcceptedNotLonger(input, cur, Operators[i], Operators[j]);
    }
  }

  /** Of two strings starting at `cur`, one that is no proper prefix of the other is not the shorter. */
  lemma AcceptedNotLonger(input: string, cur: nat, a: string, b: string)
    requires StartsWithAt(input, cur, a) && StartsWithAt(input, cur, b) && !IsProperPrefix(a, b)
    ensures |b| <= |a|
  {
    if |a| < |b| {
      SharedStart(input, cur, a, b);
    }
  }

  lemma LaterNotExtended(i: nat, j: nat)
    requires i < j < |Operators|
    ensures !IsProperPrefix(Operators[i], Operators[j])
  {
    OperatorTableOrdered();
  }

  /** A character no rule accepts is rejected where it stands. */
  lemma UnknownCharacter()
    ensures TokenizeFrom("[", 0) == Err(LexError(UNKNOWN_CHARACTER, "Encountered unknown character", 0))
  {
    StrayFacts('[');
    NoOperatorAt("[", 0, 0);
    UnknownStep("[", 0);
  }

  /** The characters below start no comment, string, number, symbol or word. */
  lemma StrayFacts(c: char)
    requires c in ":[.&|"
    ensures !IsWhitespace(c) && !IsAlpha(c) && !IsDigit(c) && c !in "/\"'" && [c] !in Symbols
    ensures c in ":[." ==> c !in OperatorInitials
  {
  }

  /**
   * A character that starts no token is an error at its own position: not
   * white space, a comment, a quote, a digit or a `.` before a digit, where
   * no operator is accepted, that is no symbol and no letter.
   */
  lemma UnknownStep(input: string, cur: nat)
    requires cur < |input| && !IsWhitespace(input[cur]) && !IsAlpha(input[cur]) && !IsDigit(input[cur])
    requires input[cur] !in "/\"'" && !(input[cur] == '.' && DigitAt(input, cur + 1))
    requires FindOperator(input, cur, 0).None? && [input[cur]] !in Symbols
    ensures StepAt(input, cur) == Fail(LexError(UNKNOWN_CHARACTER, "Encountered unknown character", cur))
  {
  }

  /** A `.` that no digit follows starts no token: it is an unknown character. */
  lemma LonePointStep(input: string, cur: nat)
    requires cur < |input| && input[cur] == '.' && !DigitAt(input, cur + 1)
    ensures StepAt(input, cur) == Fail(LexError(UNKNOWN_CHARACTER, "Encountered unknown character", cur))
  {
    StrayFacts('.');
    NoOperatorAt(input, cur, 0);
    UnknownStep(input, cur);
  }

  /**
   * A single `&` or `|` is no operator (only `&&` and `||` are), so it is an
   * unknown character.
   */
  lemma HalfLogicalStep(input: string, cur: nat)
    requires cur < |input| && (input[cur] == '&' || input[cur] == '|')
    requires !(cur + 1 < |input| && input[cur + 1] == input[cur])
    ensures StepAt(input, cur) == Fail(LexError(UNKNOWN_CHARACTER, "Encountered unknown character", cur))
  {
    StrayFacts(input[cur]);
    NoOperatorForHalf(input, cur);
    UnknownStep(input, cur);
  }

  lemma NoOperatorForHalf(input: string, cur: nat)
    requires cur < |input| && (input[cur] == '&' || input[cur] == '|')
    requires !(cur + 1 < |input| && input[cur + 1] == input[cur])
    ensures FindOperator(input, cur, 0) == None
  {
    forall j | 0 <= j < |Operators|
      ensures !OperatorAccepted(input, cur, Operators[j])
    {
      OperatorsStartWithInitials();
      StartsWithFirst(input, cur, Operators[j]);
      if j == 4 || j == 11 {
        assert |Operators[j]| == 2 && Operators[j][1] == Operators[j][0];
      } else {
        assert Operators[j][0] != '&' && Operators[j][0] != '|';
      }
    }
    FindOperatorSkips(input, cur, 0, |Operators|);
  }

  /** A lone `&` is rejected. */
  lemma SingleAmpersand()
    ensures TokenizeFrom("&", 0) == Err(LexError(UNKNOWN_CHARACTER, "Encountered unknown character", 0))
  {
    HalfLogicalStep("&", 0);
  }

  /** Scanning stops at the first error, here after one identifier and a space. */
  lemma UnknownCharacterAfterToken()
    ensures TokenizeFrom("x :", 0) == Err(LexError(UNKNOWN_CHARACTER, "Encountered unknown character", 2))
  {
    var input := "x :";
    ColonStep(input, 2);
    SingleLetterStep(input);
    assert StepAt(input, 1) == Skip(2);
  }

  /** A `:` starts no token. */
  lemma ColonStep(input: string, cur: nat)
    requires cur < |input| && input[cur] == ':'
    ensures StepAt(input, cur) == Fail(LexError(UNKNOWN_CHARACTER, "Encountered unknown character", cur))
  {
    StrayFacts(':');
    NoOperatorAt(input, cur, 0);
    UnknownStep(input, cur);
  }

  /** A one-letter identifier `x` is a token of its own. */
  lemma SingleLetterStep(input: string)
    requires |input| > 1 && input[0] == 'x' && !IsIdentChar(input[1])
    ensures StepAt(input, 0) == Emit(Token(IDENTIFIER, Text("x")), 1)
  {
    IdentEndPast(input, 0, 1);
    assert input[0..1] == "x";
    assert "x" !in WordOperators && "x" !in Keywords;
    WordToken(input, 0);
  }
}
