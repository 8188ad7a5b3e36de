/**
 * The parser as the program runs it: a closure over one token queue that its
 * helpers `shift()` from, step by step. Each method below consumes from the
 * queue in place and is proved to produce what the corresponding grammar
 * function of module `Ast` produces from the queue it started with, leaving
 * exactly that function's unconsumed tokens in the queue.
 */
module Parser {
  import opened Wrappers
  import opened Lexer
  import opened Ast

  /**
   * A method outcome `r` and the queue `tokens` after it agree with the
   * grammar function's result `spec`: on success the same value and the same
   * unconsumed tokens, on failure the same error.
   */
  predicate Mirrors<T(==)>(r: Result<T, ParseError>, spec: Result<Parsed<T>, ParseError>, tokens: seq<Token>) {
    match spec
    case Ok(p) => r == Ok(p.value) && tokens == p.rest
    case Err(e) => r == Err(e)
  }

  /** `pre` in front of the collected list of a successful result. */
  function Prefixed<T>(pre: seq<T>, r: Result<Parsed<seq<T>>, ParseError>): Result<Parsed<seq<T>>, ParseError> {
    match r
    case Ok(p) => Ok(Parsed(pre + p.value, p.rest))
    case Err(e) => Err(e)
  }

  lemma PrefixedEmpty<T>(r: Result<Parsed<seq<T>>, ParseError>)
    ensures Prefixed([], r) == r
  {
    if r.Ok? {
      assert [] + r.value.value == r.value.value;
    }
  }

  lemma PrefixedAppend<T>(a: seq<T>, b: seq<T>, r: Result<Parsed<seq<T>>, ParseError>)
    ensures Prefixed(a, Prefixed(b, r)) == Prefixed(a + b, r)
  {
    if r.Ok? {
      assert a + (b + r.value.value) == (a + b) + r.value.value;
    }
  }

  lemma PushFrontPrefixed(t: Token, r: Result<Parsed<seq<Token>>, ParseError>)
    ensures PushFront(t, r) == Prefixed([t], r)
  {
  }

  /** `pre` in front of the statement list of a successful program body. */
  function PrefixedBody(pre: seq<Stmt>, r: Result<seq<Stmt>, ParseError>): Result<seq<Stmt>, ParseError> {
    match r
    case Ok(body) => Ok(pre + body)
    case Err(e) => Err(e)
  }

  lemma PrefixedBodyEmpty(r: Result<seq<Stmt>, ParseError>)
    ensures PrefixedBody([], r) == r
  {
    if r.Ok? {
      assert [] + r.value == r.value;
    }
  }

  lemma PrefixedBodyAppend(a: seq<Stmt>, b: seq<Stmt>, r: Result<seq<Stmt>, ParseError>)
    ensures PrefixedBody(a, PrefixedBody(b, r)) == PrefixedBody(a + b, r)
  {
    if r.Ok? {
      assert a + (b + r.value) == (a + b) + r.value;
    }
  }

  /** A statement helper's node as the dispatcher returns it. */
  function Lift(r: Result<Stmt, ParseError>): Result<Option<Stmt>, ParseError> {
    match r
    case Ok(s) => Ok(Some(s))
    case Err(e) => Err(e)
  }

  /** The `forEach` of `parseForLoop()` that collects the positions of the `;` symbols. */
  method SemicolonPositions(h: seq<Token>) returns (positions: seq<nat>)
    ensures positions == SemicolonIndices(h, 0)
    ensures forall k :: 0 <= k < |h| ==> (k in positions <==> IsToken(h[k], SYMBOL, ";"))
    ensures forall i, j :: 0 <= i < j < |positions| ==> positions[i] < positions[j]
  {
    positions := [];
    assert [] + SemicolonIndices(h, 0) == SemicolonIndices(h, 0);
    for index := 0 to |h|
      invariant SemicolonIndices(h, 0) == positions + SemicolonIndices(h, index)
    {
      if IsToken(h[index], SYMBOL, ";") {
        assert SemicolonIndices(h, index) == [index] + SemicolonIndices(h, index + 1);
        assert positions + ([index] + SemicolonIndices(h, index + 1)) == (positions + [index]) + SemicolonIndices(h, index + 1);
        positions := positions + [index];
      }
    }
    assert positions + SemicolonIndices(h, |h|) == positions;
  }

  class Parser {
    /** The queue of tokens not yet consumed. */
    var tokens: seq<Token>

    constructor (ts: seq<Token>)
      ensures tokens == ts
    {
      tokens := ts;
    }

    /** `consume()`: shift the front token off the queue. */
    method Consume() returns (t: Token)
      requires |tokens| > 0
      modifies this
      ensures t == old(tokens)[0] && tokens == old(tokens)[1..]
    {
      t := tokens[0];
      tokens := tokens[1..];
    }

    /** `expected(kind, v)`: check the front token and consume it only when it matches. */
    method Expected(kind: Kind, v: string) returns (r: Result<Token, ParseError>)
      modifies this
      ensures Mirrors(r, Ast.Expect(old(tokens), kind, v), tokens)
      ensures r.Err? ==> tokens == old(tokens)
    {
      if |tokens| == 0 {
        return Err(ParseError(UNEXPECTED_END_OF_INPUT, ExpectedText(kind, v) + " but reached end of input"));
      }
      r := ExpectToken(tokens[0], kind, v);
      if r.Ok? {
        var _ := Consume();
      }
    }

    /** `expectIdentifier()`. */
    method ExpectIdentifier() returns (r: Result<string, ParseError>)
      modifies this
      ensures Mirrors(r, Ast.ExpectIdentifier(old(tokens)), tokens)
      ensures r.Err? ==> tokens == old(tokens)
    {
      if |tokens| == 0 || tokens[0].kind != IDENTIFIER {
        return Err(ParseError(MISSING_IDENTIFIER, "Expected an identifier"));
      }
      var t := Consume();
      r := Ok(ValueText(t.value));
    }

    /** `parseParenthesesContent()`: the depth loop, just after a `(` was consumed. */
    method ParenthesesContent() returns (r: Result<seq<Token>, ParseError>)
      modifies this
      ensures Mirrors(r, ParenScan(old(tokens), 1), tokens)
      ensures Mirrors(r, Ast.ParenContent(old(tokens)), tokens)
    {
      var exprTokens: seq<Token> := [];
      var depth: int := 1;
      PrefixedEmpty(ParenScan(tokens, 1));
      while |tokens| > 0 && depth > 0
        invariant depth >= 1
        invariant ParenScan(old(tokens), 1) == Prefixed(exprTokens, ParenScan(tokens, depth))
        decreases |tokens|
      {
        ghost var before, was := tokens, depth;
        var token := tokens[0];
        if IsToken(token, SYMBOL, "(") {
          depth := depth + 1;
        } else if IsToken(token, SYMBOL, ")") {
          depth := depth - 1;
          if depth == 0 {
            var _ := Consume();
            assert ParenScan(before, was) == Ok(Parsed([], tokens));
            assert exprTokens + [] == exprTokens;
            break;
          }
        }
        var t := Consume();
        assert ParenScan(before, was) == PushFront(t, ParenScan(tokens, depth));
        PushFrontPrefixed(t, ParenScan(tokens, depth));
        PrefixedAppend(exprTokens, [t], ParenScan(tokens, depth));
        exprTokens := exprTokens + [t];
      }
      if depth != 0 {
        return Err(MissingRightParen);
      }
      r := Ok(exprTokens);
    }

    /** `parseExpression()`: consume tokens up to the first stopping point. */
    method ParseExpression() returns (e: seq<Token>)
      modifies this
      ensures ExpressionRun(old(tokens)) == Parsed(e, tokens)
    {
      e := [];
      assert [] + ExpressionRun(tokens).value == ExpressionRun(tokens).value;
      while |tokens| > 0 && tokens[0].kind != KEYWORD && !HasValue(tokens[0], ";")
        invariant ExpressionRun(old(tokens)) == Parsed(e + ExpressionRun(tokens).value, ExpressionRun(tokens).rest)
        decreases |tokens|
      {
        if tokens[0].kind == IDENTIFIER && |tokens| > 1 && HasValue(tokens[1], "=") {
          assert EndsExpression(tokens);
          break;
        }
        ghost var before := tokens;
        var t := Consume();
        assert ExpressionRun(before) == Parsed([t] + ExpressionRun(tokens).value, ExpressionRun(tokens).rest);
        assert e + ([t] + ExpressionRun(tokens).value) == (e + [t]) + ExpressionRun(tokens).value;
        e := e + [t];
      }
      assert EndsExpression(tokens);
      assert e + ExpressionRun(tokens).value == e;
    }

    /** `parseDeclaration()`. */
    method ParseDeclaration() returns (r: Result<Stmt, ParseError>)
      requires |tokens| > 0
      modifies this
      ensures Mirrors(r, Ast.ParseDeclaration(old(tokens)), tokens)
    {
      var keyword := Consume();
      var id := ExpectIdentifier();
      if id.Err? {
        return Err(id.error);
      }
      var name := id.value;
      var assign := Expected(OPERATOR, "=");
      if assign.Err? {
        return Err(assign.error);
      }
      if |tokens| == 0 || tokens[0].kind == KEYWORD || HasValue(tokens[0], ";") {
        return Err(ParseError(MISSING_VALUE, "Expected value after '=' in declaration of '" + name + "'"));
      }
      var value := ParseExpression();
      r := Ok(if HasValue(keyword, "ghoshit_kar") then VarDecl(name, value) else ConstDecl(name, value));
    }

    /** `parsePrint()`. */
    method ParsePrint() returns (r: Result<Stmt, ParseError>)
      requires |tokens| > 0
      modifies this
      ensures Mirrors(r, Ast.ParsePrint(old(tokens)), tokens)
    {
      var _ := Consume();
      var paren := Expected(SYMBOL, "(");
      if paren.Err? {
        return Err(paren.error);
      }
      var content := ParenthesesContent();
      if content.Err? {
        return Err(content.error);
      }
      if |content.value| == 0 {
        return Err(ParseError(EMPTY_PRINT, "Print statement cannot be empty"));
      }
      r := Ok(Output(content.value));
    }

    /** `parseAssignment()`. */
    method ParseAssignment() returns (r: Result<Stmt, ParseError>)
      requires |tokens| > 0
      modifies this
      ensures Mirrors(r, Ast.ParseAssignment(old(tokens)), tokens)
    {
      var t := Consume();
      var identifier := ValueText(t.value);
      var assign := Expected(OPERATOR, "=");
      if assign.Err? {
        return Err(assign.error);
      }
      var value := ParseExpression();
      r := Ok(Assignment(identifier, value));
    }

    /** `parseBreakOrContinue()`. */
    method ParseBreakOrContinue() returns (r: Result<Stmt, ParseError>)
      requires |tokens| > 0
      modifies this
      ensures Mirrors(r, Ast.ParseBreakOrContinue(old(tokens)), tokens)
    {
      var keyword := Consume();
      r := Ok(if HasValue(keyword, "viram") then Break else Continue);
    }

    /** `parseStatement()`: dispatch on the front token; `None` for a skipped token. */
    method ParseStatement() returns (r: Result<Option<Stmt>, ParseError>)
      requires |tokens| > 0
      modifies this
      ensures Mirrors(r, Ast.ParseStatement(old(tokens)), tokens)
      decreases |tokens|, 2
    {
      var token := tokens[0];
      if token.kind == KEYWORD {
        var w := token.value;
        if w == Text("ghoshit_kar") || w == Text("nishchit_kar") {
          var s := ParseDeclaration();
          r := Lift(s);
        } else if w == Text("prakashit_kar") {
          var s := ParsePrint();
          r := Lift(s);
        } else if w == Text("yatha") {
          var s := ParseWhileLoop();
          r := Lift(s);
        } else if w == Text("prati_ghatak") {
          var s := ParseForLoop();
          r := Lift(s);
        } else if w == Text("yadi") {
          var s := ParseIfStatement();
          r := Lift(s);
        } else if w == Text("viram") || w == Text("agla_ghaatak") {
          var s := ParseBreakOrContinue();
          r := Lift(s);
        } else if IsSkeletonKeyword(w) {
          r := Err(ParseError(MULTIPLE_DECLARATIONS, "Multiple declarations of '" + ValueText(w) + "' are not allowed"));
        } else if w == Text("anyatha_yadi") || w == Text("anyatha") {
          r := Err(ParseError(WRONG_SYNTAX, "Invalid syntax for '" + ValueText(w) + "'"));
        } else {
          var _ := Consume();
          r := Ok(None);
        }
      } else if token.kind == IDENTIFIER {
        var s := ParseAssignment();
        r := Lift(s);
      } else {
        var _ := Consume();
        r := Ok(None);
      }
    }

    /** `parseBlock()`: `{`, the statement loop, and the closing-brace check. */
    method ParseBlock() returns (r: Result<seq<Stmt>, ParseError>)
      modifies this
      ensures Mirrors(r, Ast.ParseBlock(old(tokens)), tokens)
      decreases |tokens|, 0
    {
      var brace := Expected(SYMBOL, "{");
      if brace.Err? {
        return Err(brace.error);
      }
      ghost var start := tokens;
      var body: seq<Stmt> := [];
      PrefixedEmpty(BlockBody(start));
      while |tokens| > 0 && !HasValue(tokens[0], "}")
        invariant |tokens| < |old(tokens)|
        invariant BlockBody(start) == Prefixed(body, BlockBody(tokens))
        decreases |tokens|
      {
        ghost var before := tokens;
        var result := ParseStatement();
        if result.Err? {
          return Err(result.error);
        }
        assert BlockBody(before) == Prefixed(Nodes(result.value), BlockBody(tokens));
        PrefixedAppend(body, Nodes(result.value), BlockBody(tokens));
        body := body + Nodes(result.value);
      }
      if |tokens| > 0 && IsToken(tokens[0], SYMBOL, "}") {
        var _ := Consume();
        assert body + [] == body;
      } else {
        return Err(MissingClosingBrace);
      }
      r := Ok(body);
    }

    /** `parseWhileLoop()`. */
    method ParseWhileLoop() returns (r: Result<Stmt, ParseError>)
      requires |tokens| > 0
      modifies this
      ensures Mirrors(r, Ast.ParseWhile(old(tokens)), tokens)
      decreases |tokens|, 1
    {
      var _ := Consume();
      var paren := Expected(SYMBOL, "(");
      if paren.Err? {
        return Err(paren.error);
      }
      var condition := ParenthesesContent();
      if condition.Err? {
        return Err(ParseError(ConditionError, "Expression is not valid"));
      }
      if |condition.value| == 0 {
        return Err(ParseError(ConditionError, "Condition cannot be empty"));
      }
      var body := ParseBlock();
      if body.Err? {
        return Err(body.error);
      }
      r := Ok(While(condition.value, body.value));
    }

    /** `parseForLoop()`. */
    method ParseForLoop() returns (r: Result<Stmt, ParseError>)
      requires |tokens| > 0
      modifies this
      ensures Mirrors(r, Ast.ParseFor(old(tokens)), tokens)
      decreases |tokens|, 1
    {
      var _ := Consume();
      var paren := Expected(SYMBOL, "(");
      if paren.Err? {
        return Err(paren.error);
      }
      var content := ParenthesesContent();
      if content.Err? {
        return Err(ParseError(ConditionError, "Expression is not valid"));
      }
      r := ParseForRest(content.value);
    }

    /** The rest of `parseForLoop()` with the header `loopTokens` read: its semicolons, then the body. */
    method ParseForRest(loopTokens: seq<Token>) returns (r: Result<Stmt, ParseError>)
      modifies this
      ensures Mirrors(r, Ast.ForRest(loopTokens, old(tokens)), tokens)
      decreases |tokens|, 1
    {
      var semis := SemicolonPositions(loopTokens);
      if |semis| != 2 {
        return Err(ParseError(SyntaxError, "Invalid 'for' loop syntax"));
      }
      var body := ParseBlock();
      if body.Err? {
        return Err(body.error);
      }
      r := Ok(For(loopTokens[..semis[0]], loopTokens[semis[0] + 1..semis[1]], loopTokens[semis[1] + 1..], body.value));
    }

    /** A parenthesised condition and its block, with `message` for a malformed condition. */
    method ParseConditionalBranch(message: string) returns (r: Result<Branch, ParseError>)
      modifies this
      ensures Mirrors(r, ConditionalBranch(old(tokens), message), tokens)
      decreases |tokens|, 1
    {
      var paren := Expected(SYMBOL, "(");
      if paren.Err? {
        return Err(paren.error);
      }
      var condition := ParenthesesContent();
      if condition.Err? {
        return Err(ParseError(ConditionError, message));
      }
      var block := ParseBlock();
      if block.Err? {
        return Err(block.error);
      }
      r := Ok(Branch(condition.value, block.value));
    }

    /** The `anyatha_yadi` loop of `parseIfStatement()`. */
    method ParseElseIfChain() returns (r: Result<seq<Branch>, ParseError>)
      modifies this
      ensures Mirrors(r, ParseElseIfs(old(tokens)), tokens)
      decreases |tokens|, 0
    {
      var elseIfs: seq<Branch> := [];
      PrefixedEmpty(ParseElseIfs(tokens));
      while |tokens| > 0 && IsToken(tokens[0], KEYWORD, "anyatha_yadi")
        invariant ParseElseIfs(old(tokens)) == Prefixed(elseIfs, ParseElseIfs(tokens))
        decreases |tokens|
      {
        ghost var before := tokens;
        var _ := Consume();
        var branch := ParseConditionalBranch("Invalid 'else-if' condition");
        if branch.Err? {
          return Err(branch.error);
        }
        assert ParseElseIfs(before) == Prefixed([branch.value], ParseElseIfs(tokens));
        PrefixedAppend(elseIfs, [branch.value], ParseElseIfs(tokens));
        elseIfs := elseIfs + [branch.value];
      }
      assert elseIfs + [] == elseIfs;
      r := Ok(elseIfs);
    }

    /** `parseIfStatement()`: the `yadi` branch, the `anyatha_yadi` loop, the optional `anyatha`. */
    method ParseIfStatement() returns (r: Result<Stmt, ParseError>)
      requires |tokens| > 0
      modifies this
      ensures Mirrors(r, Ast.ParseIf(old(tokens)), tokens)
      decreases |tokens|, 1
    {
      var _ := Consume();
      var first := ParseConditionalBranch("Invalid 'if' condition expression");
      if first.Err? {
        return Err(first.error);
      }
      var elseIfs := ParseElseIfChain();
      if elseIfs.Err? {
        return Err(elseIfs.error);
      }
      var branches := [first.value] + elseIfs.value;
      var elseBody := NoElse;
      if |tokens| > 0 && IsToken(tokens[0], KEYWORD, "anyatha") {
        var _ := Consume();
        var elseBlock := ParseBlock();
        if elseBlock.Err? {
          return Err(elseBlock.error);
        }
        elseBody := Else(elseBlock.value);
      }
      r := Ok(If(branches, elseBody));
    }

    /** The main logic of `parse(tokens)`: the opening keywords, the trailing one, and the statement loop. */
    method ParseProgram() returns (r: Result<seq<Stmt>, ParseError>)
      modifies this
      ensures r == Ast.ParseProgram(old(tokens))
    {
      var arambha := Expected(KEYWORD, "arambha");
      if arambha.Err? {
        return Err(arambha.error);
      }
      var systummm := Expected(KEYWORD, "systummm");
      if systummm.Err? {
        return Err(systummm.error);
      }
      ghost var rest := tokens;
      assert Ast.ParseProgram(old(tokens)) == AfterPrologue(rest);
      if |tokens| == 0 {
        return Err(MissingEndKeyword);
      }
      var bihari := ExpectToken(tokens[|tokens| - 1], KEYWORD, "bihari_sramik");
      if bihari.Err? {
        return Err(bihari.error);
      }
      tokens := tokens[..|tokens| - 1];
      r := ParseStatements();
    }

    /** The statement loop of `parse(tokens)`, once the trailing keyword was popped. */
    method ParseStatements() returns (r: Result<seq<Stmt>, ParseError>)
      modifies this
      ensures r == ParseBody(old(tokens))
    {
      ghost var statements := tokens;
      var body: seq<Stmt> := [];
      PrefixedBodyEmpty(ParseBody(statements));
      while |tokens| > 0
        invariant ParseBody(statements) == PrefixedBody(body, ParseBody(tokens))
        decreases |tokens|
      {
        ghost var before := tokens;
        var result := ParseStatement();
        if result.Err? {
          return Err(result.error);
        }
        assert ParseBody(before) == PrefixedBody(Nodes(result.value), ParseBody(tokens));
        PrefixedBodyAppend(body, Nodes(result.value), ParseBody(tokens));
        body := body + Nodes(result.value);
      }
      assert body + [] == body;
      r := Ok(body);
    }
  }

  /** What `parse(tokens)` yields once `arambha systummm` were consumed and `rest` is left. */
  function AfterPrologue(rest: seq<Token>): Result<seq<Stmt>, ParseError> {
    if |rest| == 0 then Err(MissingEndKeyword)
    else
      match ExpectToken(rest[|rest| - 1], KEYWORD, "bihari_sramik")
      case Err(e) => Err(e)
      case Ok(_) => ParseBody(rest[..|rest| - 1])
  }

  /** `parse(tokens)` on a fresh queue holding the given tokens. */
  method Parse(ts: seq<Token>) returns (r: Result<seq<Stmt>, ParseError>)
    ensures r == Ast.ParseProgram(ts)
  {
    var p := new Parser(ts);
    r := p.ParseProgram();
  }
}
