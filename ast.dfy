/**
 * The VishwaguruScript statement tree and its grammar.
 *
 * Each function below is one helper of the recursive-descent parser, stated
 * on the token sequence it starts from: it returns the parsed value together
 * with the tokens it leaves unconsumed (`Parsed(value, rest)`), or the first
 * error. The parser class in module `Parser` performs the same steps by
 * consuming a token queue in place and is proved equal to these functions.
 */
module Ast {
  import opened Wrappers
  import opened Lexicon
  import opened Lexer

  /** Statement nodes. Values and conditions stay raw token slices. */
  datatype Stmt =
    | VarDecl(name: string, value: seq<Token>)
    | ConstDecl(name: string, value: seq<Token>)
    | Assignment(name: string, value: seq<Token>)
    | Output(value: seq<Token>)
    | While(condition: seq<Token>, body: seq<Stmt>)
    | For(init: seq<Token>, condition: seq<Token>, increment: seq<Token>, body: seq<Stmt>)
    | If(branches: seq<Branch>, elseBody: ElseClause)
    | Break
    | Continue

  /** One `yadi` or `anyatha_yadi` clause. */
  datatype Branch = Branch(condition: seq<Token>, body: seq<Stmt>)

  /** The `elseBody` of an if node: `null`, or the statements of the `anyatha` block (possibly none). */
  datatype ElseClause = NoElse | Else(body: seq<Stmt>)

  /** The node's `type` tag, taken from the `Declaration` object. */
  function TypeTag(s: Stmt): string {
    DeclarationTagsAreKeys();
    match s
    case VarDecl(_, _) => Declaration["VarDeclaration"]
    case ConstDecl(_, _) => Declaration["ConstDeclaration"]
    case Assignment(_, _) => Declaration["AssignmentDeclaration"]
    case Output(_) => Declaration["OutputDeclaration"]
    case While(_, _) => Declaration["WhileDeclaration"]
    case For(_, _, _, _) => Declaration["ForDeclaration"]
    case If(_, _) => Declaration["IfDeclaration"]
    case Break => Declaration["BreakDeclaration"]
    case Continue => Declaration["ContinueDeclaration"]
  }

  datatype ParseErrorKind =
    | UNEXPECTED_END_OF_INPUT
    | UNEXPECTED_TOKEN
    | MISSING_IDENTIFIER
    | MISSING_VALUE
    | EMPTY_PRINT
    | MISSING_RIGHT_PAREN
    | MISSING_CLOSING_BRACE
    | MISSING_END_KEYWORD
    | MULTIPLE_DECLARATIONS
    | WRONG_SYNTAX
    | ConditionError
    | SyntaxError

  datatype ParseError = ParseError(kind: ParseErrorKind, message: string)

  /** A parsed value and the tokens left after it. */
  datatype Parsed<T> = Parsed(value: T, rest: seq<Token>)

  /** `rest` is what is left of `ts` after at least one token was taken from its front. */
  predicate Consumed(ts: seq<Token>, rest: seq<Token>) {
    |rest| < |ts| && rest == ts[|ts| - |rest|..]
  }

  /** `rest` is what is left of `ts` after zero or more tokens were taken from its front. */
  predicate Suffix(ts: seq<Token>, rest: seq<Token>) {
    |rest| <= |ts| && rest == ts[|ts| - |rest|..]
  }

  lemma SuffixTrans(a: seq<Token>, b: seq<Token>, c: seq<Token>)
    requires Suffix(a, b) && Suffix(b, c)
    ensures Suffix(a, c)
  {
  }

  predicate IsToken(t: Token, kind: Kind, v: string) {
    t.kind == kind && t.value == Text(v)
  }

  /** `token.value === v`, whatever the token's type. */
  predicate HasValue(t: Token, v: string) {
    t.value == Text(v)
  }

  const RightParen := Token(SYMBOL, Text(")"))

  // `expected(type, value)` and `expectIdentifier`

  function ExpectedText(kind: Kind, v: string): string {
    "Expected " + KindName(kind) + " '" + v + "'"
  }

  /** `expected(kind, v, t)` on a token already in hand: it matches or is UNEXPECTED_TOKEN. */
  function ExpectToken(t: Token, kind: Kind, v: string): (r: Result<Token, ParseError>)
    ensures r.Ok? <==> IsToken(t, kind, v)
    ensures r.Ok? ==> r.value == t
    ensures r.Err? ==> r.error.kind == UNEXPECTED_TOKEN
  {
    if IsToken(t, kind, v) then Ok(t)
    else Err(ParseError(UNEXPECTED_TOKEN,
      ExpectedText(kind, v) + ", but got " + KindName(t.kind) + " '" + ValueText(t.value) + "'"))
  }

  /** `expected(kind, v)` on the front token, consuming it when it matches. */
  function Expect(ts: seq<Token>, kind: Kind, v: string): (r: Result<Parsed<Token>, ParseError>)
    ensures r.Ok? <==> |ts| > 0 && IsToken(ts[0], kind, v)
    ensures r.Ok? ==> r.value == Parsed(ts[0], ts[1..])
    ensures r.Err? ==> r.error.kind == if |ts| == 0 then UNEXPECTED_END_OF_INPUT else UNEXPECTED_TOKEN
  {
    if |ts| == 0 then
      Err(ParseError(UNEXPECTED_END_OF_INPUT, ExpectedText(kind, v) + " but reached end of input"))
    else
      var t :- ExpectToken(ts[0], kind, v);
      Ok(Parsed(t, ts[1..]))
  }

  /** `expectIdentifier()`. */
  function ExpectIdentifier(ts: seq<Token>): (r: Result<Parsed<string>, ParseError>)
    ensures r.Ok? <==> |ts| > 0 && ts[0].kind == IDENTIFIER
    ensures r.Ok? ==> r.value == Parsed(ValueText(ts[0].value), ts[1..])
    ensures r.Err? ==> r.error.kind == MISSING_IDENTIFIER
  {
    if |ts| == 0 || ts[0].kind != IDENTIFIER then
      Err(ParseError(MISSING_IDENTIFIER, "Expected an identifier"))
    else Ok(Parsed(ValueText(ts[0].value), ts[1..]))
  }

  // `parseParenthesesContent`

  /** The change a token makes to the parenthesis depth. */
  function Delta(t: Token): int {
    if IsToken(t, SYMBOL, "(") then 1 else if IsToken(t, SYMBOL, ")") then -1 else 0
  }

  /** The net parenthesis depth of a token slice. */
  function Depth(ts: seq<Token>): int {
    if ts == [] then 0 else Delta(ts[0]) + Depth(ts[1..])
  }

  /** `t` in front of the collected tokens of a successful scan. */
  function PushFront(t: Token, r: Result<Parsed<seq<Token>>, ParseError>): Result<Parsed<seq<Token>>, ParseError> {
    match r
    case Ok(p) => Ok(Parsed([t] + p.value, p.rest))
    case Err(e) => Err(e)
  }

  const MissingRightParen := ParseError(MISSING_RIGHT_PAREN, "Unmatched '(' in expression")

  /**
   * The depth loop, at `depth` open parentheses: the tokens before the `)`
   * that brings the depth to zero, and the tokens after that `)`.
   */
  function ParenScan(ts: seq<Token>, depth: nat): (r: Result<Parsed<seq<Token>>, ParseError>)
    requires depth >= 1
    ensures r.Ok? ==> ts == r.value.value + [RightParen] + r.value.rest
    ensures r.Err? ==> r.error == MissingRightParen
    decreases |ts|
  {
    if |ts| == 0 then Err(MissingRightParen)
    else
      var t := ts[0];
      if IsToken(t, SYMBOL, "(") then PushFront(t, ParenScan(ts[1..], depth + 1))
      else if IsToken(t, SYMBOL, ")") then
        if depth == 1 then Ok(Parsed([], ts[1..]))
        else PushFront(t, ParenScan(ts[1..], depth - 1))
      else PushFront(t, ParenScan(ts[1..], depth))
  }

  /** `parseParenthesesContent()`, called just after a `(` was consumed. */
  function ParenContent(ts: seq<Token>): (r: Result<Parsed<seq<Token>>, ParseError>)
    ensures r.Ok? ==> Consumed(ts, r.value.rest)
  {
    var r := ParenScan(ts, 1);
    if r.Ok? then
      assert ts == r.value.value + [RightParen] + r.value.rest;
      assert ts[|ts| - |r.value.rest|..] == r.value.rest;
      r
    else r
  }

  // `parseExpression`

  /**
   * The expression run stops at the end, at a keyword, at any token whose
   * value is `;`, or at an identifier followed by a token whose value is `=`.
   */
  predicate EndsExpression(u: seq<Token>) {
    |u| == 0 || u[0].kind == KEYWORD || HasValue(u[0], ";")
    || (u[0].kind == IDENTIFIER && |u| > 1 && HasValue(u[1], "="))
  }

  /** `parseExpression()`: the longest run of tokens before the first stopping point. */
  function ExpressionRun(ts: seq<Token>): (r: Parsed<seq<Token>>)
    ensures ts == r.value + r.rest
    ensures EndsExpression(r.rest)
    ensures forall k :: 0 <= k < |r.value| ==> !EndsExpression(ts[k..])
  {
    if EndsExpression(ts) then Parsed([], ts)
    else
      var p := ExpressionRun(ts[1..]);
      assert forall k :: 1 <= k <= |p.value| ==> ts[k..] == ts[1..][k - 1..];
      Parsed([ts[0]] + p.value, p.rest)
  }

  // Statements

  /** A statement helper's node, or none for a skipped token. */
  function AsStatement(r: Result<Parsed<Stmt>, ParseError>): Result<Parsed<Option<Stmt>>, ParseError> {
    match r
    case Ok(p) => Ok(Parsed(Some(p.value), p.rest))
    case Err(e) => Err(e)
  }

  /** `parseDeclaration()`, at a `ghoshit_kar` or `nishchit_kar` keyword. */
  function ParseDeclaration(ts: seq<Token>): (r: Result<Parsed<Stmt>, ParseError>)
    requires |ts| > 0
    ensures r.Ok? ==> Consumed(ts, r.value.rest)
  {
    var keyword := ts[0];
    var id :- ExpectIdentifier(ts[1..]);
    var assign :- Expect(id.rest, OPERATOR, "=");
    var next := assign.rest;
    if |next| == 0 || next[0].kind == KEYWORD || HasValue(next[0], ";") then
      Err(ParseError(MISSING_VALUE, "Expected value after '=' in declaration of '" + id.value + "'"))
    else
      var e := ExpressionRun(next);
      assert ts[3..] == next;
      var node := if HasValue(keyword, "ghoshit_kar") then VarDecl(id.value, e.value) else ConstDecl(id.value, e.value);
      Ok(Parsed(node, e.rest))
  }

  /** `parsePrint()`, at a `prakashit_kar` keyword. */
  function ParsePrint(ts: seq<Token>): (r: Result<Parsed<Stmt>, ParseError>)
    requires |ts| > 0
    ensures r.Ok? ==> Consumed(ts, r.value.rest)
  {
    var open :- Expect(ts[1..], SYMBOL, "(");
    var content :- ParenContent(open.rest);
    if |content.value| == 0 then Err(ParseError(EMPTY_PRINT, "Print statement cannot be empty"))
    else Ok(Parsed(Output(content.value), content.rest))
  }

  /** `parseAssignment()`, at an identifier. */
  function ParseAssignment(ts: seq<Token>): (r: Result<Parsed<Stmt>, ParseError>)
    requires |ts| > 0
    ensures r.Ok? ==> Consumed(ts, r.value.rest)
  {
    var identifier := ValueText(ts[0].value);
    var assign :- Expect(ts[1..], OPERATOR, "=");
    var e := ExpressionRun(assign.rest);
    assert ts[2..] == assign.rest;
    Ok(Parsed(Assignment(identifier, e.value), e.rest))
  }

  /** `parseBreakOrContinue()`, at a `viram` or `agla_ghaatak` keyword. */
  function ParseBreakOrContinue(ts: seq<Token>): (r: Result<Parsed<Stmt>, ParseError>)
    requires |ts| > 0
    ensures r.Ok? && Consumed(ts, r.value.rest)
  {
    Ok(Parsed(if HasValue(ts[0], "viram") then Break else Continue, ts[1..]))
  }

  predicate IsSkeletonKeyword(v: Value) {
    v == Text("arambha") || v == Text("systummm") || v == Text("bihari_sramik")
  }

  /** `parseStatement()`: dispatch on the front token. */
  function ParseStatement(ts: seq<Token>): (r: Result<Parsed<Option<Stmt>>, ParseError>)
    requires |ts| > 0
    ensures r.Ok? ==> Consumed(ts, r.value.rest)
    decreases |ts|, 4
  {
    var t := ts[0];
    if t.kind == KEYWORD then
      var w := t.value;
      if w == Text("ghoshit_kar") || w == Text("nishchit_kar") then AsStatement(ParseDeclaration(ts))
      else if w == Text("prakashit_kar") then AsStatement(ParsePrint(ts))
      else if w == Text("yatha") then AsStatement(ParseWhile(ts))
      else if w == Text("prati_ghatak") then AsStatement(ParseFor(ts))
      else if w == Text("yadi") then AsStatement(ParseIf(ts))
      else if w == Text("viram") || w == Text("agla_ghaatak") then AsStatement(ParseBreakOrContinue(ts))
      else if IsSkeletonKeyword(w) then
        Err(ParseError(MULTIPLE_DECLARATIONS, "Multiple declarations of '" + ValueText(w) + "' are not allowed"))
      else if w == Text("anyatha_yadi") || w == Text("anyatha") then
        Err(ParseError(WRONG_SYNTAX, "Invalid syntax for '" + ValueText(w) + "'"))
      else Ok(Parsed(None, ts[1..]))
    else if t.kind == IDENTIFIER then AsStatement(ParseAssignment(ts))
    else Ok(Parsed(None, ts[1..]))
  }

  /** The node, if any, as a list of zero or one statements. */
  function Nodes(s: Option<Stmt>): seq<Stmt> {
    if s.Some? then [s.value] else []
  }

  const MissingClosingBrace := ParseError(MISSING_CLOSING_BRACE, "Expected '}' at end of block")

  /** The statement loop of `parseBlock()` and its closing-brace check. */
  function BlockBody(ts: seq<Token>): (r: Result<Parsed<seq<Stmt>>, ParseError>)
    ensures r.Ok? ==> Consumed(ts, r.value.rest)
    ensures r.Ok? ==> IsToken(ts[|ts| - |r.value.rest| - 1], SYMBOL, "}")
    decreases |ts|, 5
  {
    if |ts| > 0 && !HasValue(ts[0], "}") then
      var s :- ParseStatement(ts);
      var tail :- BlockBody(s.rest);
      ConsumedTwice(ts, s.rest, tail.rest);
      Ok(Parsed(Nodes(s.value) + tail.value, tail.rest))
    else if |ts| > 0 && IsToken(ts[0], SYMBOL, "}") then Ok(Parsed([], ts[1..]))
    else Err(MissingClosingBrace)
  }

  /** Two consumptions in a row are one, and the token just before what is left is the same in both. */
  lemma ConsumedTwice(ts: seq<Token>, a: seq<Token>, b: seq<Token>)
    requires Consumed(ts, a) && Consumed(a, b)
    ensures Consumed(ts, b) && ts[|ts| - |b| - 1] == a[|a| - |b| - 1]
  {
    assert ts[|ts| - |b| - 1] == ts[|ts| - |a|..][|a| - |b| - 1];
    assert b == ts[|ts| - |a|..][|a| - |b|..];
  }

  /** `parseBlock()`: a `{`, statements, and the matching `}`. */
  function ParseBlock(ts: seq<Token>): (r: Result<Parsed<seq<Stmt>>, ParseError>)
    ensures r.Ok? ==> Consumed(ts, r.value.rest)
    decreases |ts|, 0
  {
    var open :- Expect(ts, SYMBOL, "{");
    BlockBody(open.rest)
  }

  /** `parseWhileLoop()`, at a `yatha` keyword. */
  function ParseWhile(ts: seq<Token>): (r: Result<Parsed<Stmt>, ParseError>)
    requires |ts| > 0
    ensures r.Ok? ==> Consumed(ts, r.value.rest)
    decreases |ts|, 1
  {
    var open :- Expect(ts[1..], SYMBOL, "(");
    match ParenContent(open.rest)
    case Err(_) => Err(ParseError(ConditionError, "Expression is not valid"))
    case Ok(cond) =>
      if |cond.value| == 0 then Err(ParseError(ConditionError, "Condition cannot be empty"))
      else
        var body :- ParseBlock(cond.rest);
        Ok(Parsed(While(cond.value, body.value), body.rest))
  }

  /** The positions of the SYMBOL `;` tokens at or after `from`, in increasing order. */
  function SemicolonIndices(ts: seq<Token>, from: nat): (r: seq<nat>)
    requires from <= |ts|
    ensures forall i :: 0 <= i < |r| ==> from <= r[i] < |ts| && IsToken(ts[r[i]], SYMBOL, ";")
    ensures forall i, j :: 0 <= i < j < |r| ==> r[i] < r[j]
    ensures forall k :: from <= k < |ts| && IsToken(ts[k], SYMBOL, ";") ==> k in r
    decreases |ts| - from
  {
    if from == |ts| then []
    else if IsToken(ts[from], SYMBOL, ";") then [from] + SemicolonIndices(ts, from + 1)
    else SemicolonIndices(ts, from + 1)
  }

  /** `parseForLoop()`, at a `prati_ghatak` keyword. */
  function ParseFor(ts: seq<Token>): (r: Result<Parsed<Stmt>, ParseError>)
    requires |ts| > 0
    ensures r.Ok? ==> Consumed(ts, r.value.rest)
    decreases |ts|, 1
  {
    var open :- Expect(ts[1..], SYMBOL, "(");
    match ParenContent(open.rest)
    case Err(_) => Err(ParseError(ConditionError, "Expression is not valid"))
    case Ok(header) =>
      var r := ForRest(header.value, header.rest);
      if r.Ok? then ConsumedChain(ts, open.rest, header.rest, r.value.rest); r else r
  }

  /** The rest of `parseForLoop()` once the header `h` was read: its two semicolons, then the body. */
  function ForRest(h: seq<Token>, ts: seq<Token>): (r: Result<Parsed<Stmt>, ParseError>)
    ensures r.Ok? ==> Consumed(ts, r.value.rest)
    decreases |ts|, 1
  {
    var semis := SemicolonIndices(h, 0);
    if |semis| != 2 then Err(ParseError(SyntaxError, "Invalid 'for' loop syntax"))
    else
      var body :- ParseBlock(ts);
      Ok(Parsed(For(h[..semis[0]], h[semis[0] + 1..semis[1]], h[semis[1] + 1..], body.value), body.rest))
  }

  /** A condition in parentheses, for `yadi` and `anyatha_yadi`, with the relabelled error. */
  function BranchCondition(ts: seq<Token>, message: string): (r: Result<Parsed<seq<Token>>, ParseError>)
    ensures r.Ok? ==> Consumed(ts, r.value.rest)
  {
    var open :- Expect(ts, SYMBOL, "(");
    match ParenContent(open.rest)
    case Err(_) => Err(ParseError(ConditionError, message))
    case Ok(cond) => Ok(cond)
  }

  /** A parenthesised condition and the block after it: one branch of an if chain. */
  function ConditionalBranch(ts: seq<Token>, message: string): (r: Result<Parsed<Branch>, ParseError>)
    ensures r.Ok? ==> Consumed(ts, r.value.rest)
    decreases |ts|, 1
  {
    var cond :- BranchCondition(ts, message);
    var block :- ParseBlock(cond.rest);
    Ok(Parsed(Branch(cond.value, block.value), block.rest))
  }

  /** The `anyatha_yadi` loop of `parseIfStatement()`. */
  function ParseElseIfs(ts: seq<Token>): (r: Result<Parsed<seq<Branch>>, ParseError>)
    ensures r.Ok? ==> Suffix(ts, r.value.rest)
    ensures r.Ok? ==> !(|r.value.rest| > 0 && IsToken(r.value.rest[0], KEYWORD, "anyatha_yadi"))
    decreases |ts|, 2
  {
    if |ts| > 0 && IsToken(ts[0], KEYWORD, "anyatha_yadi") then
      var branch :- ConditionalBranch(ts[1..], "Invalid 'else-if' condition");
      var more :- ParseElseIfs(branch.rest);
      Ok(Parsed([branch.value] + more.value, more.rest))
    else Ok(Parsed([], ts))
  }

  /** The optional `anyatha` block that ends an if chain with the given branches. */
  function ParseElse(branches: seq<Branch>, ts: seq<Token>): (r: Result<Parsed<Stmt>, ParseError>)
    ensures r.Ok? ==> Suffix(ts, r.value.rest)
    decreases |ts|, 0
  {
    if |ts| > 0 && IsToken(ts[0], KEYWORD, "anyatha") then
      var elseBlock :- ParseBlock(ts[1..]);
      Ok(Parsed(If(branches, Else(elseBlock.value)), elseBlock.rest))
    else Ok(Parsed(If(branches, NoElse), ts))
  }

  /** `parseIfStatement()`, at a `yadi` keyword. */
  function ParseIf(ts: seq<Token>): (r: Result<Parsed<Stmt>, ParseError>)
    requires |ts| > 0
    ensures r.Ok? ==> Consumed(ts, r.value.rest)
    decreases |ts|, 3
  {
    var first :- ConditionalBranch(ts[1..], "Invalid 'if' condition expression");
    var elseIfs :- ParseElseIfs(first.rest);
    var r := ParseElse([first.value] + elseIfs.value, elseIfs.rest);
    if r.Ok? then ConsumedChain(ts, first.rest, elseIfs.rest, r.value.rest); r else r
  }

  lemma ConsumedChain(ts: seq<Token>, a: seq<Token>, b: seq<Token>, c: seq<Token>)
    requires |ts| > 0 && Consumed(ts[1..], a) && Suffix(a, b) && Suffix(b, c)
    ensures Consumed(ts, c)
  {
    assert a == ts[|ts| - |a|..];
    assert b == ts[|ts| - |b|..];
  }

  // The program

  /** The top-level statement loop, after the trailing keyword was popped. */
  function ParseBody(ts: seq<Token>): (r: Result<seq<Stmt>, ParseError>)
    decreases |ts|
  {
    if |ts| == 0 then Ok([])
    else
      var s :- ParseStatement(ts);
      var tail :- ParseBody(s.rest);
      Ok(Nodes(s.value) + tail)
  }

  const MissingEndKeyword := ParseError(MISSING_END_KEYWORD, "Program must end with 'bihari_sramik' keyword")

  /** `parse(tokens)`: `arambha systummm`, then the statements, then `bihari_sramik`. */
  function ParseProgram(ts: seq<Token>): (r: Result<seq<Stmt>, ParseError>)
  {
    var start :- Expect(ts, KEYWORD, "arambha");
    var main :- Expect(start.rest, KEYWORD, "systummm");
    var body := main.rest;
    if |body| == 0 then Err(MissingEndKeyword)
    else
      var _ :- ExpectToken(body[|body| - 1], KEYWORD, "bihari_sramik");
      ParseBody(body[..|body| - 1])
  }
}
