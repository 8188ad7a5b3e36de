/**
 * Properties of the grammar in module `Ast`: how a program is framed by its
 * skeleton keywords, what `parseParenthesesContent` takes, how statements
 * are dispatched, and the shape of declarations, loops and if chains.
 */
module AstProperties {
  import opened Wrappers
  import opened Lexer
  import opened Ast

  // The program frame

  /**
   * The first two tokens must be the KEYWORDs `arambha` and `systummm`; the
   * first check that fails gives the error, and it is an end-of-input error
   * exactly when the tokens ran out.
   */
  lemma PrologueErrors(ts: seq<Token>)
    ensures |ts| == 0 ==> ParseProgram(ts).Err? && ParseProgram(ts).error.kind == UNEXPECTED_END_OF_INPUT
    ensures |ts| > 0 && !IsToken(ts[0], KEYWORD, "arambha") ==>
      ParseProgram(ts) == Err(ExpectToken(ts[0], KEYWORD, "arambha").error)
    ensures |ts| == 1 && IsToken(ts[0], KEYWORD, "arambha") ==>
      ParseProgram(ts).Err? && ParseProgram(ts).error.kind == UNEXPECTED_END_OF_INPUT
    ensures |ts| > 1 && IsToken(ts[0], KEYWORD, "arambha") && !IsToken(ts[1], KEYWORD, "systummm") ==>
      ParseProgram(ts) == Err(ExpectToken(ts[1], KEYWORD, "systummm").error)
  {
    if |ts| > 0 && IsToken(ts[0], KEYWORD, "arambha") {
      assert Expect(ts, KEYWORD, "arambha") == Ok(Parsed(ts[0], ts[1..]));
    }
  }

  /**
   * After the prologue: nothing left is MISSING_END_KEYWORD; otherwise the last
   * token must be the KEYWORD `bihari_sramik`, and the statements are parsed
   * from what lies strictly between the prologue and that last token.
   */
  lemma EndKeyword(ts: seq<Token>)
    requires |ts| >= 2 && IsToken(ts[0], KEYWORD, "arambha") && IsToken(ts[1], KEYWORD, "systummm")
    ensures |ts| == 2 ==> ParseProgram(ts) == Err(MissingEndKeyword)
    ensures |ts| > 2 && !IsToken(ts[|ts| - 1], KEYWORD, "bihari_sramik") ==>
      ParseProgram(ts).Err? && ParseProgram(ts).error.kind == UNEXPECTED_TOKEN
    ensures |ts| > 2 && IsToken(ts[|ts| - 1], KEYWORD, "bihari_sramik") ==>
      ParseProgram(ts) == ParseBody(ts[2..|ts| - 1])
  {
    assert Expect(ts, KEYWORD, "arambha") == Ok(Parsed(ts[0], ts[1..]));
    assert Expect(ts[1..], KEYWORD, "systummm") == Ok(Parsed(ts[1], ts[2..]));
    var body := ts[2..];
    if |ts| > 2 {
      assert body[|body| - 1] == ts[|ts| - 1];
      assert body[..|body| - 1] == ts[2..|ts| - 1];
    }
  }

  // `parseParenthesesContent`

  /** The depth of `[t] + u` is `t`'s change plus the depth of `u`. */
  lemma DepthCons(t: Token, u: seq<Token>)
    ensures Depth([t] + u) == Delta(t) + Depth(u)
  {
    assert ([t] + u)[1..] == u;
  }

  /** The depth of a prefix one token longer. */
  lemma DepthPrefixStep(ts: seq<Token>, k: nat)
    requires 0 <= k < |ts|
    ensures Depth(ts[..k + 1]) == Delta(ts[0]) + Depth(ts[1..][..k])
  {
    assert ts[..k + 1] == [ts[0]] + ts[1..][..k];
    DepthCons(ts[0], ts[1..][..k]);
  }

  /**
   * The scan at `depth` open parentheses stops at the first `)` that closes
   * the outermost one: after every proper prefix of the collected tokens at
   * least one parenthesis is still open, the collected tokens leave exactly
   * one open, and the next token is that `)`. It fails only when the tokens
   * run out with a parenthesis still open after every prefix.
   */
  lemma {:induction false} ParenScanMatches(ts: seq<Token>, depth: nat)
    requires depth >= 1
    ensures ParenScan(ts, depth).Ok? ==>
      var v := ParenScan(ts, depth).value.value;
      |v| < |ts| && IsToken(ts[|v|], SYMBOL, ")") && depth + Depth(v) == 1
      && forall k :: 0 <= k <= |v| ==> depth + Depth(ts[..k]) >= 1
    ensures ParenScan(ts, depth).Err? ==> forall k :: 0 <= k <= |ts| ==> depth + Depth(ts[..k]) >= 1
    decreases |ts|
  {
    assert ts[..0] == [];
    if |ts| > 0 {
      var t := ts[0];
      var d: int := depth + Delta(t);
      if d >= 1 {
        ParenScanMatches(ts[1..], d);
        assert ParenScan(ts, depth) == PushFront(t, ParenScan(ts[1..], d));
        forall k | 1 <= k <= |ts|
          ensures depth + Depth(ts[..k]) == d + Depth(ts[1..][..k - 1])
        {
          DepthPrefixStep(ts, k - 1);
        }
        var r := ParenScan(ts[1..], d);
        if r.Ok? {
          DepthCons(t, r.value.value);
        }
      } else {
        assert IsToken(t, SYMBOL, ")") && depth == 1;
        assert ParenScan(ts, depth) == Ok(Parsed([], ts[1..]));
      }
    }
  }

  /** An empty pair of parentheses has no content, and the `)` is consumed. */
  lemma EmptyParens(ts: seq<Token>)
    requires |ts| > 0 && IsToken(ts[0], SYMBOL, ")")
    ensures ParenContent(ts) == Ok(Parsed([], ts[1..]))
  {
  }

  // Declarations, print and dispatch

  /**
   * `ghoshit_kar`/`nishchit_kar` must be followed by an identifier, then `=`,
   * then the start of a value; the node is a VarDeclaration for `ghoshit_kar`
   * and a ConstDeclaration otherwise, and its value is the expression after `=`.
   */
  lemma DeclarationCases(ts: seq<Token>)
    requires |ts| > 0
    ensures (|ts| == 1 || ts[1].kind != IDENTIFIER) ==>
      ParseDeclaration(ts).Err? && ParseDeclaration(ts).error.kind == MISSING_IDENTIFIER
    ensures |ts| > 1 && ts[1].kind == IDENTIFIER && !(|ts| > 2 && IsToken(ts[2], OPERATOR, "=")) ==>
      ParseDeclaration(ts).Err? && ParseDeclaration(ts).error.kind == (if |ts| == 2 then UNEXPECTED_END_OF_INPUT else UNEXPECTED_TOKEN)
    ensures (|ts| > 2 && ts[1].kind == IDENTIFIER && IsToken(ts[2], OPERATOR, "=")
             && (|ts| == 3 || ts[3].kind == KEYWORD || HasValue(ts[3], ";"))) ==>
      ParseDeclaration(ts).Err? && ParseDeclaration(ts).error.kind == MISSING_VALUE
    ensures ParseDeclaration(ts).Ok? <==>
      |ts| > 3 && ts[1].kind == IDENTIFIER && IsToken(ts[2], OPERATOR, "=") && ts[3].kind != KEYWORD && !HasValue(ts[3], ";")
    ensures ParseDeclaration(ts).Ok? ==>
      var name := ValueText(ts[1].value);
      var e := ExpressionRun(ts[3..]);
      ParseDeclaration(ts).value
      == Parsed(if HasValue(ts[0], "ghoshit_kar") then VarDecl(name, e.value) else ConstDecl(name, e.value), e.rest)
  {
    if |ts| > 2 && ts[1].kind == IDENTIFIER {
      assert ts[1..][1..] == ts[2..];
      if IsToken(ts[2], OPERATOR, "=") {
        assert ts[2..][1..] == ts[3..];
      }
    }
  }

  /** Empty parentheses after `prakashit_kar` are EMPTY_PRINT; a print that parses prints something. */
  lemma PrintCases(ts: seq<Token>)
    requires |ts| > 0
    ensures |ts| > 2 && IsToken(ts[1], SYMBOL, "(") && IsToken(ts[2], SYMBOL, ")") ==>
      ParsePrint(ts) == Err(ParseError(EMPTY_PRINT, "Print statement cannot be empty"))
    ensures ParsePrint(ts).Ok? ==> ParsePrint(ts).value.value.Output? && |ParsePrint(ts).value.value.value| > 0
  {
    if |ts| > 2 && IsToken(ts[1], SYMBOL, "(") && IsToken(ts[2], SYMBOL, ")") {
      assert ts[1..][1..] == ts[2..];
      EmptyParens(ts[2..]);
    }
  }

  /** A skeleton keyword inside the program body is MULTIPLE_DECLARATIONS. */
  lemma SkeletonKeywordInBody(ts: seq<Token>)
    requires |ts| > 0 && ts[0].kind == KEYWORD && IsSkeletonKeyword(ts[0].value)
    ensures ParseStatement(ts).Err? && ParseStatement(ts).error.kind == MULTIPLE_DECLARATIONS
  {
    var w := ts[0].value;
    assert w.Text? && (|w.s| == 7 || |w.s| == 8 || |w.s| == 13);
    assert w != Text("ghoshit_kar") && w != Text("nishchit_kar") && w != Text("prakashit_kar");
    assert w != Text("yatha") && w != Text("prati_ghatak") && w != Text("yadi");
    assert w != Text("viram") && w != Text("agla_ghaatak");
  }

  /** An `anyatha_yadi` or `anyatha` that does not follow an if chain is WRONG_SYNTAX. */
  lemma BareElse(ts: seq<Token>)
    requires |ts| > 0 && (IsToken(ts[0], KEYWORD, "anyatha_yadi") || IsToken(ts[0], KEYWORD, "anyatha"))
    ensures ParseStatement(ts).Err? && ParseStatement(ts).error.kind == WRONG_SYNTAX
  {
    ElseIsNotDispatched(ts[0].value);
  }

  /** No statement form and no skeleton keyword is spelled `anyatha_yadi` or `anyatha`. */
  lemma ElseIsNotDispatched(w: Value)
    requires w == Text("anyatha_yadi") || w == Text("anyatha")
    ensures w != Text("ghoshit_kar") && w != Text("nishchit_kar") && w != Text("prakashit_kar")
    ensures w != Text("yatha") && w != Text("prati_ghatak") && w != Text("yadi")
    ensures w != Text("viram") && w != Text("agla_ghaatak") && !IsSkeletonKeyword(w)
  {
    assert |w.s| == 12 || |w.s| == 7;
  }

  /** A token that is neither a keyword nor an identifier, such as a stray `;`, is dropped without a node. */
  lemma StrayTokenSkipped(ts: seq<Token>)
    requires |ts| > 0 && ts[0].kind != KEYWORD && ts[0].kind != IDENTIFIER
    ensures ParseStatement(ts) == Ok(Parsed(None, ts[1..]))
  {
  }

  /**
   * An identifier starts an assignment: it must be followed by the OPERATOR
   * `=`, and the value is the expression after it.
   */
  lemma AssignmentStatement(ts: seq<Token>)
    requires |ts| > 0 && ts[0].kind == IDENTIFIER
    ensures !(|ts| > 1 && IsToken(ts[1], OPERATOR, "=")) ==>
      (ParseStatement(ts).Err? && ParseStatement(ts).error.kind == if |ts| == 1 then UNEXPECTED_END_OF_INPUT else UNEXPECTED_TOKEN)
    ensures |ts| > 1 && IsToken(ts[1], OPERATOR, "=") ==>
      var e := ExpressionRun(ts[2..]);
      ParseStatement(ts) == Ok(Parsed(Some(Assignment(ValueText(ts[0].value), e.value)), e.rest))
  {
    assert ParseStatement(ts) == AsStatement(ParseAssignment(ts));
    if |ts| > 1 {
      assert ts[1..][1..] == ts[2..];
    }
  }

  // Loops

  /** An empty `yatha()` condition is a ConditionError, and so is every failure inside the parentheses. */
  lemma WhileConditionErrors(ts: seq<Token>)
    requires |ts| > 1 && IsToken(ts[1], SYMBOL, "(")
    ensures ParenContent(ts[2..]).Err? ==> ParseWhile(ts) == Err(ParseError(ConditionError, "Expression is not valid"))
    ensures |ts| > 2 && IsToken(ts[2], SYMBOL, ")") ==> ParseWhile(ts) == Err(ParseError(ConditionError, "Condition cannot be empty"))
    ensures ParseWhile(ts).Ok? ==> ParseWhile(ts).value.value.While? && |ParseWhile(ts).value.value.condition| > 0
  {
    assert ts[1..][1..] == ts[2..];
    if |ts| > 2 && IsToken(ts[2], SYMBOL, ")") {
      EmptyParens(ts[2..]);
    }
  }

  /** No SYMBOL `;` in the slice. */
  predicate NoSemicolon(u: seq<Token>) {
    forall k :: 0 <= k < |u| ==> !IsToken(u[k], SYMBOL, ";")
  }

  /**
   * A `for` header must hold exactly two SYMBOL `;` tokens, at any depth; the
   * loop's init, condition and increment are the three semicolon-free slices
   * around them, which put back together give the header.
   */
  lemma ForHeader(ts: seq<Token>)
    requires |ts| > 1 && IsToken(ts[1], SYMBOL, "(") && ParenContent(ts[2..]).Ok?
    ensures var h := ParenContent(ts[2..]).value.value;
      |SemicolonIndices(h, 0)| != 2 ==> ParseFor(ts) == Err(ParseError(SyntaxError, "Invalid 'for' loop syntax"))
    ensures ParseFor(ts).Ok? ==>
      var h := ParenContent(ts[2..]).value.value;
      var semis := SemicolonIndices(h, 0);
      var s := ParseFor(ts).value.value;
      |semis| == 2 && s.For? && s.init == h[..semis[0]] && s.condition == h[semis[0] + 1..semis[1]] && s.increment == h[semis[1] + 1..]
      && h == s.init + [h[semis[0]]] + s.condition + [h[semis[1]]] + s.increment
      && NoSemicolon(s.init) && NoSemicolon(s.condition) && NoSemicolon(s.increment)
  {
    assert ts[1..][1..] == ts[2..];
    var header := ParenContent(ts[2..]).value;
    assert ParseFor(ts) == ForRest(header.value, header.rest);
    var h := header.value;
    var semis := SemicolonIndices(h, 0);
    if |semis| == 2 {
      var i, j := semis[0], semis[1];
      assert forall k :: 0 <= k < |h| && IsToken(h[k], SYMBOL, ";") ==> k == i || k == j;
      HeaderSplit(h, i, j);
    }
  }

  /** A header whose only semicolons are at `i` and `j` is three semicolon-free parts around them. */
  lemma HeaderSplit(h: seq<Token>, i: nat, j: nat)
    requires i < j < |h| && IsToken(h[i], SYMBOL, ";") && IsToken(h[j], SYMBOL, ";")
    requires forall k :: 0 <= k < |h| && IsToken(h[k], SYMBOL, ";") ==> k == i || k == j
    ensures h == h[..i] + [h[i]] + h[i + 1..j] + [h[j]] + h[j + 1..]
    ensures NoSemicolon(h[..i]) && NoSemicolon(h[i + 1..j]) && NoSemicolon(h[j + 1..])
  {
    assert h == h[..i] + [h[i]] + h[i + 1..j] + [h[j]] + h[j + 1..];
    SliceNoSemicolon(h, 0, i);
    SliceNoSemicolon(h, i + 1, j);
    SliceNoSemicolon(h, j + 1, |h|);
    assert h[j + 1..|h|] == h[j + 1..];
  }

  /** A stretch of tokens without a semicolon, taken out as a slice. */
  lemma SliceNoSemicolon(h: seq<Token>, a: nat, b: nat)
    requires a <= b <= |h|
    requires forall k :: a <= k < b ==> !IsToken(h[k], SYMBOL, ";")
    ensures NoSemicolon(h[a..b])
  {
    var u := h[a..b];
    forall k | 0 <= k < |u|
      ensures !IsToken(u[k], SYMBOL, ";")
    {
      assert u[k] == h[a + k];
    }
  }

  // If chains and blocks

  /** The else-if loop takes a clause for each `anyatha_yadi` in a row, and none when there is none. */
  lemma ElseIfsCases(ts: seq<Token>)
    ensures !(|ts| > 0 && IsToken(ts[0], KEYWORD, "anyatha_yadi")) ==> ParseElseIfs(ts) == Ok(Parsed([], ts))
    ensures |ts| > 0 && IsToken(ts[0], KEYWORD, "anyatha_yadi") && ParseElseIfs(ts).Ok? ==>
      |ParseElseIfs(ts).value.value| > 0
      && ParseElseIfs(ts).value.value[0] == ConditionalBranch(ts[1..], "Invalid 'else-if' condition").value.value
  {
  }

  /**
   * An if node holds the `yadi` branch first, then one branch per else-if
   * clause, and has an else body exactly when an `anyatha` follows them.
   */
  lemma IfChainShape(ts: seq<Token>)
    requires |ts| > 0 && ParseIf(ts).Ok?
    ensures var first := ConditionalBranch(ts[1..], "Invalid 'if' condition expression").value;
      var elseIfs := ParseElseIfs(first.rest).value;
      var s := ParseIf(ts).value.value;
      s.If? && s.branches == [first.value] + elseIfs.value
      && (s.elseBody.Else? <==> |elseIfs.rest| > 0 && IsToken(elseIfs.rest[0], KEYWORD, "anyatha"))
  {
    var first := ConditionalBranch(ts[1..], "Invalid 'if' condition expression").value;
    var elseIfs := ParseElseIfs(first.rest).value;
    ElseCases([first.value] + elseIfs.value, elseIfs.rest);
  }

  /** The else part keeps the branches it is given and adds an else body exactly at an `anyatha`. */
  lemma ElseCases(branches: seq<Branch>, ts: seq<Token>)
    ensures ParseElse(branches, ts).Ok? ==>
      var s := ParseElse(branches, ts).value.value;
      s.If? && s.branches == branches && (s.elseBody.Else? <==> |ts| > 0 && IsToken(ts[0], KEYWORD, "anyatha"))
    ensures !(|ts| > 0 && IsToken(ts[0], KEYWORD, "anyatha")) ==> ParseElse(branches, ts) == Ok(Parsed(If(branches, NoElse), ts))
  {
  }

  /** An empty `yadi()` condition is accepted: `yadi ( ) { }` is an if with one empty branch. */
  lemma EmptyIfCondition(ts: seq<Token>)
    requires |ts| >= 5 && IsToken(ts[1], SYMBOL, "(") && IsToken(ts[2], SYMBOL, ")")
    requires IsToken(ts[3], SYMBOL, "{") && IsToken(ts[4], SYMBOL, "}")
    requires !(|ts| > 5 && ts[5].kind == KEYWORD && (ts[5].value == Text("anyatha_yadi") || ts[5].value == Text("anyatha")))
    ensures ParseIf(ts) == Ok(Parsed(If([Branch([], [])], NoElse), ts[5..]))
  {
    EmptyBranch(ts[1..], "Invalid 'if' condition expression");
    assert ts[1..][4..] == ts[5..];
    assert ParseElseIfs(ts[5..]) == Ok(Parsed([], ts[5..]));
    assert [Branch([], [])] + [] == [Branch([], [])];
    ElseCases([Branch([], [])], ts[5..]);
  }

  /** `( ) { }` is a branch with an empty condition and an empty block. */
  lemma EmptyBranch(ts: seq<Token>, message: string)
    requires |ts| >= 4 && IsToken(ts[0], SYMBOL, "(") && IsToken(ts[1], SYMBOL, ")")
    requires IsToken(ts[2], SYMBOL, "{") && IsToken(ts[3], SYMBOL, "}")
    ensures ConditionalBranch(ts, message) == Ok(Parsed(Branch([], []), ts[4..]))
  {
    EmptyParens(ts[1..]);
    assert ts[1..][1..] == ts[2..];
    assert BranchCondition(ts, message) == Ok(Parsed([], ts[2..]));
    assert ParseBlock(ts[2..]) == Ok(Parsed([], ts[4..])) by {
      assert ts[2..][1..] == ts[3..];
      assert ts[3..][1..] == ts[4..];
      assert BlockBody(ts[3..]) == Ok(Parsed([], ts[4..]));
    }
  }

  /** A block must open with `{`; a block that runs out of tokens before its `}` is MISSING_CLOSING_BRACE. */
  lemma BlockErrors(ts: seq<Token>)
    ensures !(|ts| > 0 && IsToken(ts[0], SYMBOL, "{")) ==>
      (ParseBlock(ts).Err? && ParseBlock(ts).error.kind == if |ts| == 0 then UNEXPECTED_END_OF_INPUT else UNEXPECTED_TOKEN)
    ensures |ts| > 0 && IsToken(ts[0], SYMBOL, "{") && |ts| == 1 ==> ParseBlock(ts) == Err(MissingClosingBrace)
    ensures |ts| > 1 && IsToken(ts[0], SYMBOL, "{") && HasValue(ts[1], "}") && !IsToken(ts[1], SYMBOL, "}") ==>
      ParseBlock(ts) == Err(MissingClosingBrace)
  {
    if |ts| > 0 {
      assert Expect(ts, SYMBOL, "{").Ok? ==> Expect(ts, SYMBOL, "{").value.rest == ts[1..];
    }
  }

  /**
   * A block body whose statements all parse but which holds no `}` value runs
   * out of tokens: MISSING_CLOSING_BRACE.
   */
  lemma {:induction false} BlockRunsOut(ts: seq<Token>)
    requires forall k :: 0 <= k < |ts| ==> !HasValue(ts[k], "}")
    requires ParseBody(ts).Ok?
    ensures BlockBody(ts) == Err(MissingClosingBrace)
    decreases |ts|
  {
    if |ts| > 0 {
      var s := ParseStatement(ts).value;
      assert forall k :: 0 <= k < |s.rest| ==> s.rest[k] == ts[|ts| - |s.rest| + k];
      BlockRunsOut(s.rest);
    }
  }

  /**
   * A block body fails either for want of its `}` or with the error of a
   * statement that starts somewhere inside it.
   */
  lemma {:induction false} BlockErrorSource(ts: seq<Token>)
    requires BlockBody(ts).Err?
    ensures BlockBody(ts).error == MissingClosingBrace
      || exists k :: 0 <= k < |ts| && ParseStatement(ts[k..]) == Err(BlockBody(ts).error)
    decreases |ts|
  {
    if |ts| > 0 && !HasValue(ts[0], "}") {
      assert ts[0..] == ts;
      if ParseStatement(ts).Ok? {
        var rest := ParseStatement(ts).value.rest;
        BlockErrorSource(rest);
        if BlockBody(rest).error != MissingClosingBrace {
          var k :| 0 <= k < |rest| && ParseStatement(rest[k..]) == Err(BlockBody(rest).error);
          assert rest[k..] == ts[|ts| - |rest| + k..];
        }
      }
    }
  }
}
