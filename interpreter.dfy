/**
 * The translator from the VishwaguruScript statement tree to JavaScript
 * source text: the per-token translation of an expression, the two-space
 * indentation of nested bodies, and one text fragment per statement.
 *
 * The functions are the specification; `TranslateExpression` and `AstToJs`
 * are the accumulating `for … of` loops, proved to build the same text.
 */
module Interpreter {
  import opened Wrappers
  import opened JsText
  import opened Lexer
  import opened Ast

  // Expressions

  /** The JavaScript spelling of an operator: the six word operators are substituted. */
  function OperatorJs(v: string): string {
    if v == "na" then "!"
    else if v == "va" then "||"
    else if v == "ca" then "&&"
    else if v == "chintan" then "null"
    else if v == "satya" then "true"
    else if v == "asatya" then "false"
    else v
  }

  /** A keyword inside an expression: the declaration keywords become `let`/`const`, padded with spaces. */
  function KeywordJs(v: string): string {
    if v == "ghoshit_kar" then " let "
    else if v == "nishchit_kar" then " const "
    else " " + v + " "
  }

  /** The text one token contributes to an expression. */
  function TokenJs(t: Token): string {
    var value := ValueText(t.value);
    match t.kind
    case NUMBER => value
    case FLOAT => value
    case STRING => "\"" + value + "\""
    case IDENTIFIER => value
    case OPERATOR => OperatorJs(value)
    case KEYWORD => KeywordJs(value)
    case SYMBOL => value
  }

  /** The texts of `xs` under `f`, in order, with nothing between them. */
  function ConcatMap<T>(f: T -> string, xs: seq<T>): string {
    if xs == [] then "" else ConcatMap(f, xs[..|xs| - 1]) + f(xs[|xs| - 1])
  }

  lemma {:induction false} ConcatMapAppend<T>(f: T -> string, a: seq<T>, b: seq<T>)
    ensures ConcatMap(f, a + b) == ConcatMap(f, a) + ConcatMap(f, b)
    decreases |b|
  {
    if b == [] {
      assert a + b == a;
    } else {
      var front, last := b[..|b| - 1], b[|b| - 1];
      ConcatMapAppend(f, a, front);
      var ab := a + b;
      assert ab[..|ab| - 1] == a + front;
    }
  }

  /** The translation of a token slice: the token texts, in order, with nothing between them. */
  function ExpressionJs(ts: seq<Token>): string {
    ConcatMap(TokenJs, ts)
  }

  /** Translating two slices one after the other is translating their concatenation. */
  lemma ExpressionJsAppend(a: seq<Token>, b: seq<Token>)
    ensures ExpressionJs(a + b) == ExpressionJs(a) + ExpressionJs(b)
  {
    ConcatMapAppend(TokenJs, a, b);
  }

  /** A string token is re-quoted with double quotes around its decoded value, and nothing else. */
  lemma StringTokenJs(s: string)
    ensures ExpressionJs([Token(STRING, Text(s))]) == "\"" + s + "\""
  {
    var t := Token(STRING, Text(s));
    assert [t][..0] == [];
    assert ConcatMap(TokenJs, [t]) == ConcatMap(TokenJs, []) + TokenJs(t);
  }

  /** An operator that is not one of the six word operators is emitted as it is. */
  lemma {:induction false} NonWordOperatorsVerbatim(v: string)
    requires v !in WordOperators
    ensures OperatorJs(v) == v
  {
    assert WordOperators == ["ca", "va", "na", "chintan", "satya", "asatya"];
    assert v != "ca" && v != "va" && v != "na" && v != "chintan" && v != "satya" && v != "asatya" by {
      assert WordOperators[0] == "ca" && WordOperators[1] == "va" && WordOperators[2] == "na";
      assert WordOperators[3] == "chintan" && WordOperators[4] == "satya" && WordOperators[5] == "asatya";
    }
  }

  /** The `for … of` loop of `parseExpression(tokens)`. */
  method TranslateExpression(tokens: seq<Token>) returns (expression: string)
    ensures expression == ExpressionJs(tokens)
  {
    expression := "";
    for i := 0 to |tokens|
      invariant expression == ExpressionJs(tokens[..i])
    {
      var token := tokens[i];
      var value := ValueText(token.value);
      match token.kind {
        case NUMBER => expression := expression + value;
        case FLOAT => expression := expression + value;
        case STRING => expression := expression + "\"" + value + "\"";
        case IDENTIFIER => expression := expression + value;
        case OPERATOR => expression := expression + OperatorJs(value);
        case KEYWORD => expression := expression + KeywordJs(value);
        case SYMBOL => expression := expression + value;
      }
      assert tokens[..i + 1][..i] == tokens[..i];
    }
    assert tokens[..|tokens|] == tokens;
  }

  // Indentation

  /** `line.trim() === ""`: the line holds only white space and line terminators. */
  predicate IsBlank(line: string) {
    forall i :: 0 <= i < |line| ==> IsWhitespace(line[i])
  }

  /** One line of `indent`: two spaces in front unless the line is blank. */
  function IndentLine(line: string): string {
    if IsBlank(line) then line else "  " + line
  }

  function IndentLines(lines: seq<string>): (r: seq<string>)
    ensures |r| == |lines|
    ensures forall k :: 0 <= k < |lines| ==> r[k] == IndentLine(lines[k])
  {
    if lines == [] then [] else [IndentLine(lines[0])] + IndentLines(lines[1..])
  }

  /** `indent(code)`: split at line feeds, indent each line, join again. */
  function Indent(code: string): string {
    Join(IndentLines(Split(code, '\n')), "\n")
  }

  /** The inverse of `IndentLine` on indented lines: strip the two spaces a non-blank line received. */
  function DedentLine(line: string): string {
    if IsBlank(line) || |line| < 2 then line else line[2..]
  }

  function DedentLines(lines: seq<string>): (r: seq<string>)
    ensures |r| == |lines|
    ensures forall k :: 0 <= k < |lines| ==> r[k] == DedentLine(lines[k])
  {
    if lines == [] then [] else [DedentLine(lines[0])] + DedentLines(lines[1..])
  }

  function Dedent(code: string): string {
    Join(DedentLines(Split(code, '\n')), "\n")
  }

  lemma IndentLineNoNewline(line: string)
    requires '\n' !in line
    ensures '\n' !in IndentLine(line)
  {
    if !IsBlank(line) {
      assert IndentLine(line) == "  " + line;
      forall i | 0 <= i < |IndentLine(line)|
        ensures IndentLine(line)[i] != '\n'
      {
        if i >= 2 {
          assert IndentLine(line)[i] == line[i - 2];
        }
      }
    }
  }

  /**
   * `indent` keeps the number of lines, and line `k` of the result is line `k`
   * of the input with two spaces in front, or unchanged when it is blank.
   */
  lemma IndentLinesOfCode(code: string)
    ensures Split(Indent(code), '\n') == IndentLines(Split(code, '\n'))
    ensures |Split(Indent(code), '\n')| == |Split(code, '\n')|
  {
    var lines := Split(code, '\n');
    var indented := IndentLines(lines);
    forall k | 0 <= k < |indented|
      ensures '\n' !in indented[k]
    {
      IndentLineNoNewline(lines[k]);
    }
    SplitJoin(indented, '\n');
  }

  /** Stripping the indentation again gives the original text back: `indent` loses nothing. */
  lemma DedentIndent(code: string)
    ensures Dedent(Indent(code)) == code
  {
    var lines := Split(code, '\n');
    IndentLinesOfCode(code);
    var back := DedentLines(IndentLines(lines));
    forall k | 0 <= k < |lines|
      ensures back[k] == lines[k]
    {
      var line := lines[k];
      if !IsBlank(line) {
        assert !IsBlank("  " + line) by {
          var i :| 0 <= i < |line| && !IsWhitespace(line[i]);
          assert ("  " + line)[i + 2] == line[i];
        }
        assert ("  " + line)[2..] == line;
      }
    }
    assert back == lines;
    JoinSplit(code, '\n');
  }

  // Statements

  /** The fragment of `astToJs` for one statement, ending in a line feed. */
  function StatementJs(s: Stmt): string
    decreases s
  {
    match s
    case VarDecl(name, value) => "let " + name + " = " + ExpressionJs(value) + ";\n"
    case ConstDecl(name, value) => "const " + name + " = " + ExpressionJs(value) + ";\n"
    case Assignment(name, value) => name + " = " + ExpressionJs(value) + ";\n"
    case Output(value) => "__captureOutput(() => [" + ExpressionJs(value) + "]);\n"
    case While(condition, body) =>
      "while (" + ExpressionJs(condition) + ") {\n" + Indent(BlockJs(body)) + "\n}\n"
    case For(init, condition, increment, body) =>
      "for (" + ExpressionJs(init) + "; " + ExpressionJs(condition) + "; " + ExpressionJs(increment) + ") {\n"
      + Indent(BlockJs(body)) + "\n}\n"
    case Break => if TypeTag(s) == "BreakDeclaration" then "break;\n" else "continue;\n"
    case Continue => if TypeTag(s) == "BreakDeclaration" then "break;\n" else "continue;\n"
    case If(branches, elseBody) => BranchesJs(branches) + ElseJs(elseBody)
  }

  /** `astToJs({ body })`: the statement fragments in order. */
  function BlockJs(body: seq<Stmt>): string
    decreases body
  {
    if body == [] then "" else BlockJs(body[..|body| - 1]) + StatementJs(body[|body| - 1])
  }

  /** One branch of an if chain, introduced by `keyword`. */
  function BranchJs(keyword: string, b: Branch): string
    decreases b
  {
    keyword + " (" + ExpressionJs(b.condition) + ") {\n" + Indent(BlockJs(b.body)) + "\n}\n"
  }

  /** The `forEach` over the branches: `if` for the first, `else if` for the others. */
  function BranchesJs(bs: seq<Branch>): string
    decreases bs
  {
    if bs == [] then "" else BranchesJs(bs[..|bs| - 1]) + BranchJs(if |bs| == 1 then "if" else "else if", bs[|bs| - 1])
  }

  /** The `else` block of an if node's text; empty exactly when the node has no else body. */
  function ElseJs(elseBody: ElseClause): string
    decreases elseBody
  {
    match elseBody
    case NoElse => ""
    case Else(body) => "else {\n" + Indent(BlockJs(body)) + "\n}\n"
  }

  /** Reference reading of an if chain: one `if` branch, then every later branch as `else if`. */
  function ElseIfsJs(bs: seq<Branch>): string {
    if bs == [] then "" else BranchJs("else if", bs[0]) + ElseIfsJs(bs[1..])
  }

  /** A later branch of an if chain. */
  function ElseIfJs(b: Branch): string {
    BranchJs("else if", b)
  }

  /** Past the first branch, each branch is written as an `else if`. */
  lemma BranchesJsStep(bs: seq<Branch>)
    requires |bs| >= 2
    ensures BranchesJs(bs) == BranchesJs(bs[..|bs| - 1]) + ElseIfJs(bs[|bs| - 1])
  {
  }

  /** A lone branch is written as an `if`. */
  lemma BranchesJsSingle(first: Branch)
    ensures BranchesJs([first]) == BranchJs("if", first)
  {
    assert [first][..0] == [];
  }

  /** After the first branch, `BranchesJs` folds `ElseIfJs` over the others. */
  lemma {:induction false} BranchesJsFold(first: Branch, rest: seq<Branch>)
    ensures BranchesJs([first] + rest) == BranchJs("if", first) + ConcatMap(ElseIfJs, rest)
    decreases |rest|
  {
    var all := [first] + rest;
    if rest == [] {
      BranchesJsSingle(first);
      assert all == [first];
    } else {
      var front, last := rest[..|rest| - 1], rest[|rest| - 1];
      BranchesJsFold(first, front);
      assert all[..|all| - 1] == [first] + front;
      assert all[|all| - 1] == last;
      BranchesJsStep(all);
      var head, tail := BranchJs("if", first), ElseIfJs(last);
      calc {
        BranchesJs(all);
        BranchesJs([first] + front) + tail;
        (head + ConcatMap(ElseIfJs, front)) + tail;
        { ConcatAssoc(head, ConcatMap(ElseIfJs, front), tail); }
        head + (ConcatMap(ElseIfJs, front) + tail);
        head + ConcatMap(ElseIfJs, rest);
      }
    }
  }

  /** The front-recursive reading agrees with the fold. */
  lemma {:induction false} ElseIfsJsFold(bs: seq<Branch>)
    ensures ElseIfsJs(bs) == ConcatMap(ElseIfJs, bs)
    decreases |bs|
  {
    if bs != [] {
      ElseIfsJsFold(bs[1..]);
      assert [bs[0]] + bs[1..] == bs;
      ConcatMapAppend(ElseIfJs, [bs[0]], bs[1..]);
      assert [bs[0]][..0] == [];
      assert ConcatMap(ElseIfJs, [bs[0]]) == ElseIfJs(bs[0]);
    }
  }

  /** The branch loop writes `if` for the first branch and `else if` for every later one. */
  lemma BranchesJsChain(first: Branch, rest: seq<Branch>)
    ensures BranchesJs([first] + rest) == BranchJs("if", first) + ElseIfsJs(rest)
  {
    BranchesJsFold(first, rest);
    ElseIfsJsFold(rest);
  }

  /** An if node's text is its branch chain followed by its else block, which is empty exactly without an else body. */
  lemma IfJs(first: Branch, rest: seq<Branch>, elseBody: ElseClause)
    ensures StatementJs(If([first] + rest, elseBody)) == BranchJs("if", first) + ElseIfsJs(rest) + ElseJs(elseBody)
    ensures ElseJs(elseBody) == "" <==> elseBody.NoElse?
  {
    var bs := [first] + rest;
    BranchesJsChain(first, rest);
    if elseBody.Else? {
      assert ElseJs(elseBody)[0] == 'e';
    }
  }

  /** `BlockJs` is the generic fold of `StatementJs`. */
  lemma {:induction false} BlockJsFold(body: seq<Stmt>)
    ensures BlockJs(body) == ConcatMap(StatementJs, body)
    decreases |body|
  {
    if body != [] {
      BlockJsFold(body[..|body| - 1]);
    }
  }

  /** Translating two statement lists one after the other is translating their concatenation. */
  lemma BlockJsAppend(a: seq<Stmt>, b: seq<Stmt>)
    ensures BlockJs(a + b) == BlockJs(a) + BlockJs(b)
  {
    BlockJsFold(a);
    BlockJsFold(b);
    BlockJsFold(a + b);
    ConcatMapAppend(StatementJs, a, b);
  }

  /** Every statement other than a branchless if ends its fragment with a line feed. */
  lemma StatementJsEndsLine(s: Stmt)
    requires s.If? ==> |s.branches| > 0
    ensures |StatementJs(s)| > 0 && StatementJs(s)[|StatementJs(s)| - 1] == '\n'
  {
    if s.If? {
      var bs := s.branches;
      if s.elseBody.NoElse? {
        assert StatementJs(s) == BranchesJs(bs[..|bs| - 1]) + BranchJs(if |bs| == 1 then "if" else "else if", bs[|bs| - 1]);
      }
    }
  }

  /** `break;` and `continue;` are told apart through the node tag, which reads the literal `"BreakDeclaration"`. */
  lemma BreakContinueJs()
    ensures StatementJs(Break) == "break;\n"
    ensures StatementJs(Continue) == "continue;\n"
  {
    Lexicon.DeclarationTagsAreKeys();
  }

  /** `astToJs({ body })`: the `for … of` loop over the statements, recursing into nested bodies. */
  method AstToJs(body: seq<Stmt>) returns (code: string)
    ensures code == BlockJs(body)
    decreases body, 2
  {
    code := "";
    for i := 0 to |body|
      invariant code == BlockJs(body[..i])
    {
      var fragment := StatementToJs(body[i]);
      assert body[..i + 1][..i] == body[..i];
      code := code + fragment;
    }
    assert body[..|body|] == body;
  }

  /** The `switch` of `astToJs` for one statement. */
  method StatementToJs(statement: Stmt) returns (code: string)
    ensures code == StatementJs(statement)
    decreases statement, 1
  {
    match statement {
      case VarDecl(name, value) =>
        var v := TranslateExpression(value);
        code := "let " + name + " = " + v + ";\n";
      case ConstDecl(name, value) =>
        var v := TranslateExpression(value);
        code := "const " + name + " = " + v + ";\n";
      case Assignment(name, value) =>
        var v := TranslateExpression(value);
        code := name + " = " + v + ";\n";
      case Output(value) =>
        var v := TranslateExpression(value);
        code := "__captureOutput(() => [" + v + "]);\n";
      case While(condition, body) =>
        var c := TranslateExpression(condition);
        var bodyCode := AstToJs(body);
        code := "while (" + c + ") {\n" + Indent(bodyCode) + "\n}\n";
      case For(init, condition, increment, body) =>
        var i := TranslateExpression(init);
        var c := TranslateExpression(condition);
        var s := TranslateExpression(increment);
        var bodyCode := AstToJs(body);
        code := "for (" + i + "; " + c + "; " + s + ") {\n" + Indent(bodyCode) + "\n}\n";
      case Break =>
        code := if TypeTag(statement) == "BreakDeclaration" then "break;\n" else "continue;\n";
      case Continue =>
        code := if TypeTag(statement) == "BreakDeclaration" then "break;\n" else "continue;\n";
      case If(branches, elseBody) =>
        code := IfToJs(branches, elseBody);
    }
  }

  /** The `if` case of `astToJs`: the `forEach` over the branches, then the optional `else`. */
  method IfToJs(branches: seq<Branch>, elseBody: ElseClause) returns (code: string)
    ensures code == StatementJs(If(branches, elseBody))
    decreases If(branches, elseBody), 0
  {
    code := "";
    for index := 0 to |branches|
      invariant code == BranchesJs(branches[..index])
    {
      var keyword := if index == 0 then "if" else "else if";
      var condition := TranslateExpression(branches[index].condition);
      var branchBody := AstToJs(branches[index].body);
      assert branches[..index + 1][..index] == branches[..index];
      code := code + (keyword + " (" + condition + ") {\n" + Indent(branchBody) + "\n}\n");
    }
    assert branches[..|branches|] == branches;
    match elseBody {
      case NoElse =>
      case Else(body) =>
        var elseCode := AstToJs(body);
        code := code + ("else {\n" + Indent(elseCode) + "\n}\n");
    }
  }
}
