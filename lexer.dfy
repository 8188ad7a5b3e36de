/**
 * The VishwaguruScript tokenizer: one left-to-right scan over the input.
 *
 * `StepAt` says what the scanner does at one position (skip, emit one token,
 * or fail) by the priority order of the source; `TokenizeFrom` chains the
 * steps; the method `Tokenize` is the imperative scan with its index
 * `current` and the growing `tokens` list, proved equal to `TokenizeFrom`.
 */
module Lexer {
  import opened Wrappers
  import opened Lexicon
  import opened JsText

  datatype Kind = KEYWORD | IDENTIFIER | NUMBER | FLOAT | STRING | OPERATOR | SYMBOL

  /**
   * A token's `value`: a string, or the number a literal was parsed to.
   * An integer literal keeps its value; a decimal literal keeps its lexeme.
   */
  datatype Value = Text(s: string) | IntValue(n: nat) | FloatValue(lexeme: string)

  datatype Token = Token(kind: Kind, value: Value)

  /** The `type` string of a token. */
  function KindName(k: Kind): string {
    match k
    case KEYWORD => "KEYWORD"
    case IDENTIFIER => "IDENTIFIER"
    case NUMBER => "NUMBER"
    case FLOAT => "FLOAT"
    case STRING => "STRING"
    case OPERATOR => "OPERATOR"
    case SYMBOL => "SYMBOL"
  }

  /** `String(token.value)`. */
  function ValueText(v: Value): string {
    match v
    case Text(s) => s
    case IntValue(n) => NatToDecimal(n)
    case FloatValue(lexeme) => lexeme
  }

  datatype LexErrorKind =
    | UNTERMINATED_COMMENT
    | UNTERMINATED_STRING
    | INVALID_NUMBER_FORMAT
    | INVALID_DECIMAL_FORMAT
    | UNKNOWN_CHARACTER

  datatype LexError = LexError(kind: LexErrorKind, message: string, position: int)

  // Character classes

  /** `/[a-zA-Z_]/` */
  predicate IsAlpha(c: char) {
    ('a' <= c <= 'z') || ('A' <= c <= 'Z') || c == '_'
  }

  /** `/[0-9]/` */
  predicate IsDigit(c: char) {
    IsDecimalDigit(c)
  }

  /** `/[a-zA-Z0-9_]/` */
  predicate IsIdentChar(c: char) {
    IsAlpha(c) || IsDigit(c)
  }

  /** `/\s/`: the ECMAScript white-space and line-terminator characters. */
  predicate IsWhitespace(c: char) {
    c == ' ' || c == '\t' || c == '\n' || c == '\U{B}' || c == '\U{C}' || c == '\r'
    || c == '\U{A0}' || c == '\U{1680}' || ('\U{2000}' <= c <= '\U{200A}')
    || c == '\U{2028}' || c == '\U{2029}' || c == '\U{202F}' || c == '\U{205F}'
    || c == '\U{3000}' || c == '\U{FEFF}'
  }

  /** `isDigit(input[k])`, which is false past the end of the input. */
  predicate DigitAt(input: string, k: nat) {
    k < |input| && IsDigit(input[k])
  }

  // Operators

  /** The operators that are words and so must not run into an identifier. */
  const WordOperators: seq<string> := ["ca", "va", "na", "chintan", "satya", "asatya"]

  /**
   * The `find` predicate: `op` starts at `cur`, and a word operator is not
   * immediately followed by an identifier character.
   */
  predicate OperatorAccepted(input: string, cur: nat, op: string) {
    StartsWithAt(input, cur, op)
    && (op in WordOperators ==> !(cur + |op| < |input| && IsIdentChar(input[cur + |op|])))
  }

  /** The index of the first table operator at or after `from` that is accepted at `cur`. */
  function FindOperator(input: string, cur: nat, from: nat): (r: Option<nat>)
    requires from <= |Operators|
    ensures r.Some? ==> from <= r.value < |Operators| && OperatorAccepted(input, cur, Operators[r.value])
    ensures r.Some? ==> forall j :: from <= j < r.value ==> !OperatorAccepted(input, cur, Operators[j])
    ensures r.None? ==> forall j :: from <= j < |Operators| ==> !OperatorAccepted(input, cur, Operators[j])
    decreases |Operators| - from
  {
    if from == |Operators| then None
    else if OperatorAccepted(input, cur, Operators[from]) then Some(from)
    else FindOperator(input, cur, from + 1)
  }

  // The inner scans

  /** Where a `//` comment whose text starts at `k` stops: the next `\n`, or the end. */
  function LineCommentEnd(input: string, k: nat): (r: nat)
    requires k <= |input|
    ensures k <= r <= |input|
    ensures r < |input| ==> input[r] == '\n'
    ensures forall j :: k <= j < r ==> input[j] != '\n'
    decreases |input| - k
  {
    if k < |input| && input[k] != '\n' then LineCommentEnd(input, k + 1) else k
  }

  // A `*/` starts at `j`.
  predicate CloseAt(input: string, j: nat) {
    j + 1 < |input| && input[j] == '*' && input[j + 1] == '/'
  }

  // The index the `/*` loop stops at when started at `k`: just past the first
  // `*/`, or `|input| - 1` (or `k` itself, if that is already past it).
  function BlockCommentScan(input: string, k: nat): (r: nat)
    requires k <= |input|
    ensures k <= r <= |input|
    ensures (k + 2 <= r && CloseAt(input, r - 2) && forall j :: k <= j < r - 2 ==> !CloseAt(input, j))
         || ((forall j :: k <= j < |input| ==> !CloseAt(input, j)) && r == if k < |input| then |input| - 1 else k)
    decreases |input| - k
  {
    if k + 1 < |input| then
      if input[k] == '*' && input[k + 1] == '/' then k + 2 else BlockCommentScan(input, k + 1)
    else k
  }

  /** The escape map: `\n \t \r \\ \" \'`; any other escaped character stands for itself. */
  function EscapeMap(c: char): char {
    match c
    case 'n' => '\n'
    case 't' => '\t'
    case 'r' => '\r'
    case '\\' => '\\'
    case '"' => '"'
    case '\'' => '\''
    case _ => c
  }

  /**
   * The string-literal loop from `current` with `value` collected so far: the
   * index it stops at (the closing quote, or the end) and the decoded value.
   */
  function StringLoop(input: string, quote: char, current: nat, value: string): (r: (nat, string))
    requires current <= |input|
    ensures current <= r.0 <= |input|
    ensures r.0 < |input| ==> input[r.0] == quote
    decreases |input| - current
  {
    if current < |input| && input[current] != quote then
      if input[current] == '\\' && current + 1 < |input| then
        StringLoop(input, quote, current + 2, value + [EscapeMap(input[current + 1])])
      else
        StringLoop(input, quote, current + 1, value + [input[current]])
    else (current, value)
  }

  datatype NumberScan =
    | Scanned(end: nat, lexeme: string, hasDecimal: bool)
    | Malformed(error: LexError)

  /** A number lexeme so far: digits, and a `.` only once the decimal flag is set. */
  predicate NumberChars(value: string, hasDecimal: bool) {
    forall i :: 0 <= i < |value| ==> IsDigit(value[i]) || (value[i] == '.' && hasDecimal)
  }

  /**
   * The number loop from `current`, with the lexeme `value` and the flag
   * `hasDecimal` so far, for a literal that began at `start`.
   */
  function NumberLoop(input: string, start: nat, current: nat, value: string, hasDecimal: bool): (r: NumberScan)
    requires current <= |input|
    ensures r.Scanned? ==> current <= r.end <= |input| && r.lexeme == value + input[current..r.end]
    ensures r.Scanned? ==> (NumberChars(value, hasDecimal) ==> NumberChars(r.lexeme, r.hasDecimal)) && (hasDecimal ==> r.hasDecimal)
    decreases |input| - current
  {
    if current < |input| then
      var ch := input[current];
      if IsDigit(ch) then
        var r := NumberLoop(input, start, current + 1, value + [ch], hasDecimal);
        if r.Scanned? then ExtendLexeme(input, current, value, r.end); r else r
      else if ch == '.' then
        if hasDecimal then
          Malformed(LexError(INVALID_NUMBER_FORMAT, "Number contains multiple decimal points", start))
        else if DigitAt(input, current + 1) then
          var r := NumberLoop(input, start, current + 1, value + [ch], true);
          if r.Scanned? then ExtendLexeme(input, current, value, r.end); r else r
        else
          Malformed(LexError(INVALID_DECIMAL_FORMAT, "Decimal point must be followed by digits", current))
      else Scanned(current, value, hasDecimal)
    else Scanned(current, value, hasDecimal)
  }

  lemma ExtendLexeme(input: string, current: nat, value: string, end: nat)
    requires current < end <= |input|
    ensures (value + [input[current]]) + input[current + 1..end] == value + input[current..end]
  {
    assert input[current..end] == [input[current]] + input[current + 1..end];
  }

  /** Where the identifier run starting at `k` ends. */
  function IdentEnd(input: string, k: nat): (r: nat)
    requires k <= |input|
    ensures k <= r <= |input|
    ensures forall j :: k <= j < r ==> IsIdentChar(input[j])
    ensures r < |input| ==> !IsIdentChar(input[r])
    decreases |input| - k
  {
    if k < |input| && IsIdentChar(input[k]) then IdentEnd(input, k + 1) else k
  }

  // One step of the scan

  datatype Step = Skip(next: nat) | Emit(token: Token, next: nat) | Fail(error: LexError)

  /** The number branch, entered on a digit or on a `.` followed by a digit. */
  function NumberStep(input: string, cur: nat): (s: Step)
    requires cur < |input|
    requires IsDigit(input[cur]) || (input[cur] == '.' && DigitAt(input, cur + 1))
    ensures !s.Skip?
    ensures s.Emit? ==> cur < s.next <= |input|
  {
    var scan :=
      if input[cur] == '.' then NumberLoop(input, cur, cur + 1, ".", true)
      else NumberLoop(input, cur, cur, "", false);
    match scan
    case Malformed(e) => Fail(e)
    case Scanned(end, lexeme, hasDecimal) =>
      if lexeme == "." || lexeme == "" then
        Fail(LexError(INVALID_NUMBER_FORMAT, "Standalone decimal point or empty number is not valid", cur))
      else if hasDecimal then
        Emit(Token(FLOAT, FloatValue(lexeme)), end)
      else
        Emit(Token(NUMBER, IntValue(DigitsValue(lexeme))), end)
  }

  /** What the scanner does at position `cur`, trying the rules in the source's order. */
  function StepAt(input: string, cur: nat): (s: Step)
    requires cur < |input|
    ensures s.Skip? ==> cur < s.next <= |input|
    ensures s.Emit? ==> cur < s.next <= |input|
  {
    var c := input[cur];
    if IsWhitespace(c) then Skip(cur + 1)
    else if c == '/' && cur + 1 < |input| && input[cur + 1] == '/' then
      Skip(LineCommentEnd(input, cur + 2))
    else if c == '/' && cur + 1 < |input| && input[cur + 1] == '*' then
      var r := BlockCommentScan(input, cur + 2);
      if r >= |input| - 1 then
        Fail(LexError(UNTERMINATED_COMMENT, "Unterminated multi-line comment", r - 1))
      else Skip(r)
    else if c == '"' || c == '\'' then
      var (end, value) := StringLoop(input, c, cur + 1, "");
      if end >= |input| then
        Fail(LexError(UNTERMINATED_STRING, "Unterminated string literal", end - |value| - 1))
      else Emit(Token(STRING, Text(value)), end + 1)
    else if IsDigit(c) || (c == '.' && DigitAt(input, cur + 1)) then
      NumberStep(input, cur)
    else
      match FindOperator(input, cur, 0)
      case Some(i) =>
        OperatorsNonEmpty();
        Emit(Token(OPERATOR, Text(Operators[i])), cur + |Operators[i]|)
      case None =>
        if [c] in Symbols then Emit(Token(SYMBOL, Text([c])), cur + 1)
        else if IsAlpha(c) then
          var e := IdentEnd(input, cur);
          var w := input[cur..e];
          Emit(Token(if w in Keywords then KEYWORD else IDENTIFIER, Text(w)), e)
        else Fail(LexError(UNKNOWN_CHARACTER, "Encountered unknown character", cur))
  }

  /** `ts` in front of the tokens of a successful scan; an error passes through. */
  function Prepended(ts: seq<Token>, r: Result<seq<Token>, LexError>): Result<seq<Token>, LexError> {
    match r
    case Ok(rest) => Ok(ts + rest)
    case Err(e) => Err(e)
  }

  /** The scan from `cur` to the end: every emitted token in order, or the first error. */
  function TokenizeFrom(input: string, cur: nat): Result<seq<Token>, LexError>
    requires cur <= |input|
    decreases |input| - cur
  {
    if cur == |input| then Ok([])
    else
      match StepAt(input, cur)
      case Skip(n) => TokenizeFrom(input, n)
      case Emit(t, n) => Prepended([t], TokenizeFrom(input, n))
      case Fail(e) => Err(e)
  }

  lemma PrependedTwice(a: seq<Token>, b: seq<Token>, r: Result<seq<Token>, LexError>)
    ensures Prepended(a, Prepended(b, r)) == Prepended(a + b, r)
  {
    if r.Ok? {
      assert a + (b + r.value) == (a + b) + r.value;
    }
  }

  // The imperative scan. Each inner loop of `tokenize` is a method of its own,
  // proved against the function that specifies it.

  /** The `//` loop: advance to the next `\n` or the end. */
  method SkipLineComment(input: string, k: nat) returns (current: nat)
    requires k <= |input|
    ensures current == LineCommentEnd(input, k)
  {
    current := k;
    while current < |input| && input[current] != '\n'
      invariant k <= current <= |input|
      invariant LineCommentEnd(input, current) == LineCommentEnd(input, k)
      decreases |input| - current
    {
      current := current + 1;
    }
  }

  // The `/*` loop: advance past the first `*/`, or stop at `|input| - 1`.
  method SkipBlockComment(input: string, k: nat) returns (current: nat)
    requires k <= |input|
    ensures current == BlockCommentScan(input, k)
  {
    current := k;
    while current < |input| - 1
      invariant k <= current <= |input|
      invariant BlockCommentScan(input, current) == BlockCommentScan(input, k)
      decreases |input| - current
    {
      if input[current] == '*' && input[current + 1] == '/' {
        current := current + 2;
        break;
      }
      current := current + 1;
    }
  }

  /** The string-literal loop, from just after the opening quote at `k - 1`. */
  method ScanString(input: string, quoteType: char, k: nat) returns (current: nat, value: string)
    requires k <= |input|
    ensures (current, value) == StringLoop(input, quoteType, k, "")
  {
    value := "";
    current := k;
    while current < |input| && input[current] != quoteType
      invariant k <= current <= |input|
      invariant StringLoop(input, quoteType, current, value) == StringLoop(input, quoteType, k, "")
      decreases |input| - current
    {
      if input[current] == '\\' && current + 1 < |input| {
        current := current + 1;
        var escapeChar := input[current];
        value := value + [EscapeMap(escapeChar)];
      } else {
        value := value + [input[current]];
      }
      current := current + 1;
    }
  }

  /** The number branch: an optional leading `.`, then the digit loop. */
  method ScanNumber(input: string, start: nat) returns (s: Step)
    requires start < |input|
    requires IsDigit(input[start]) || (input[start] == '.' && DigitAt(input, start + 1))
    ensures s == NumberStep(input, start)
  {
    var current := start;
    var value := "";
    var hasDecimal := false;
    if input[start] == '.' {
      value := value + [input[start]];
      hasDecimal := true;
      current := current + 1;
      assert value == ".";
    }
    var scan := ScanDigits(input, start, current, value, hasDecimal);
    if scan.Malformed? {
      return Fail(scan.error);
    }
    current, value, hasDecimal := scan.end, scan.lexeme, scan.hasDecimal;
    if value == "." || value == "" {
      return Fail(LexError(INVALID_NUMBER_FORMAT, "Standalone decimal point or empty number is not valid", start));
    }
    if hasDecimal {
      s := Emit(Token(FLOAT, FloatValue(value)), current);
    } else {
      s := Emit(Token(NUMBER, IntValue(DigitsValue(value))), current);
    }
  }

  /** The `while` loop of the number branch, from `current` with the lexeme `value` so far. */
  method ScanDigits(input: string, start: nat, current0: nat, value0: string, hasDecimal0: bool) returns (r: NumberScan)
    requires current0 <= |input|
    ensures r == NumberLoop(input, start, current0, value0, hasDecimal0)
  {
    var current, value, hasDecimal := current0, value0, hasDecimal0;
    while current < |input|
      invariant current0 <= current <= |input|
      invariant NumberLoop(input, start, current, value, hasDecimal) == NumberLoop(input, start, current0, value0, hasDecimal0)
      decreases |input| - current
    {
      var ch := input[current];
      if IsDigit(ch) {
        value := value + [ch];
      } else if ch == '.' {
        if hasDecimal {
          return Malformed(LexError(INVALID_NUMBER_FORMAT, "Number contains multiple decimal points", start));
        }
        if DigitAt(input, current + 1) {
          value := value + [ch];
          hasDecimal := true;
        } else {
          return Malformed(LexError(INVALID_DECIMAL_FORMAT, "Decimal point must be followed by digits", current));
        }
      } else {
        break;
      }
      current := current + 1;
    }
    r := Scanned(current, value, hasDecimal);
  }

  /** The identifier loop: the greedy run of `[a-zA-Z0-9_]` from `k`. */
  method ScanIdentifier(input: string, k: nat) returns (current: nat, value: string)
    requires k <= |input|
    ensures current == IdentEnd(input, k) && value == input[k..current]
  {
    value := "";
    current := k;
    while current < |input| && IsIdentChar(input[current])
      invariant k <= current <= |input|
      invariant value == input[k..current]
      invariant IdentEnd(input, current) == IdentEnd(input, k)
      decreases |input| - current
    {
      value := value + [input[current]];
      current := current + 1;
    }
  }

  /** One iteration of the main loop of `tokenize`, at position `current`. */
  method ScanAt(input: string, current: nat) returns (s: Step)
    requires current < |input|
    ensures s == StepAt(input, current)
  {
    var c := input[current];
    if IsWhitespace(c) {
      s := Skip(current + 1);
    } else if c == '/' && current + 1 < |input| && input[current + 1] == '/' {
      var next := SkipLineComment(input, current + 2);
      s := Skip(next);
    } else if c == '/' && current + 1 < |input| && input[current + 1] == '*' {
      var next := SkipBlockComment(input, current + 2);
      if next >= |input| - 1 {
        s := Fail(LexError(UNTERMINATED_COMMENT, "Unterminated multi-line comment", next - 1));
      } else {
        s := Skip(next);
      }
    } else if c == '"' || c == '\'' {
      var next, value := ScanString(input, c, current + 1);
      if next >= |input| {
        s := Fail(LexError(UNTERMINATED_STRING, "Unterminated string literal", next - |value| - 1));
      } else {
        s := Emit(Token(STRING, Text(value)), next + 1);
      }
    } else if IsDigit(c) || (c == '.' && DigitAt(input, current + 1)) {
      s := ScanNumber(input, current);
    } else {
      var matched := FindOperator(input, current, 0);
      if matched.Some? {
        var op := Operators[matched.value];
        OperatorsNonEmpty();
        s := Emit(Token(OPERATOR, Text(op)), current + |op|);
      } else if [c] in Symbols {
        s := Emit(Token(SYMBOL, Text([c])), current + 1);
      } else if IsAlpha(c) {
        var next, value := ScanIdentifier(input, current);
        s := Emit(Token(if value in Keywords then KEYWORD else IDENTIFIER, Text(value)), next);
      } else {
        s := Fail(LexError(UNKNOWN_CHARACTER, "Encountered unknown character", current));
      }
    }
  }

  /** `tokenize(input)`: scan to the end, collecting tokens; stop at the first error. */
  method Tokenize(input: string) returns (r: Result<seq<Token>, LexError>)
    ensures r == TokenizeFrom(input, 0)
  {
    var tokens: seq<Token> := [];
    var current: nat := 0;
    if TokenizeFrom(input, 0).Ok? {
      assert [] + TokenizeFrom(input, 0).value == TokenizeFrom(input, 0).value;
    }
    while current < |input|
      invariant current <= |input|
      invariant TokenizeFrom(input, 0) == Prepended(tokens, TokenizeFrom(input, current))
      decreases |input| - current
    {
      var step := ScanAt(input, current);
      match step
      case Skip(next) =>
        current := next;
      case Emit(token, next) =>
        PrependedTwice(tokens, [token], TokenizeFrom(input, next));
        tokens := tokens + [token];
        current := next;
      case Fail(e) =>
        return Err(e);
    }
    assert tokens + [] == tokens;
    return Ok(tokens);
  }
}
