# VishwaguruScript front end, modelled in Dafny

VishwaguruScript is a toy language with Hindi keywords. A program is framed by `arambha systummm … bihari_sramik`. Its statements are:

- declarations: `ghoshit_kar` is `let`, `nishchit_kar` is `const`;
- assignments;
- `prakashit_kar(…)` for printing;
- `yatha` while loops and `prati_ghatak` for loops;
- `yadi` / `anyatha_yadi` / `anyatha` if chains;
- `viram` (break) and `agla_ghaatak` (continue).

The web application compiles a program to JavaScript in four stages:

1. It tokenizes the text (`src/VSG/lexer.js`).
2. It parses the tokens into a statement tree, consuming them as a queue (`src/VSG/ast.js`).
3. It translates the tree into JavaScript text (`src/VSG/interpreter.js`). The module-level array `__capturedLogs` collects what the program prints.
4. It runs that text with `eval`.

The code editor (`src/shared/components/Editor.jsx`) cuts the source text into comment, string and code segments for highlighting. It also numbers the lines and turns the Tab key into two spaces.

This project models each of these, file by file.

| file | models | form |
|---|---|---|
| `wrappers.dfy` | `Option` and `Result` | datatypes |
| `jstext.dfy` | the JavaScript string built-ins the code calls: `split`, `join`, `indexOf`, `startsWith`, `substring`, `String(n)` | functions with round-trip lemmas |
| `lexicon.dfy` | `src/VSG/helper.js`: the keyword, operator and symbol tables, and the `Declaration` tags | constants with lemmas about them |
| `lexer.dfy` | `tokenize` | `StepAt`/`TokenizeFrom` specify one scanner step and the whole scan. The methods `Tokenize`, `ScanAt`, `ScanString`, `ScanNumber`, … are the source's loops, each proved equal to its function. |
| `lexer_properties.dfy` | what the scanner promises | lemmas |
| `ast.dfy` | the statement tree and the grammar of `parse` | One function per helper of the parser, on the tokens it starts from: it returns the value and the tokens left over, or the error. |
| `ast_properties.dfy` | what the grammar promises | lemmas |
| `parser.dfy` | `parse` as written | A class whose field `tokens` is the queue `shift`/`pop` consume. Each helper is a method proved to return what the matching `Ast` function returns and to leave the queue as that function says. |
| `interpreter.dfy` | `parseExpression`, `indent` and `astToJs` | `ExpressionJs`, `Indent` and `BlockJs`/`StatementJs` specify the text. `TranslateExpression`, `AstToJs`, `StatementToJs` and `IfToJs` are the loops and are proved equal to those functions. |
| `engine.dfy` | `__captureOutput`, `compileToJs`, `executeCompiledJs` around `eval`, and `runViswaguru` | The shared log is the field `capturedLogs` of class `Runtime`; `Compile` and `Run` specify the methods. |
| `editor.dfy` | `parseCodeWithComments`, `getLineNumbers` and the Tab splice | `Step`/`LineScan`/`Highlight` specify the segmenter. `ParseCodeWithComments` and its inner loops are methods proved equal to them. |

## Model

| member | source | states |
|---|---|---|
| Lexicon.OperatorsNonEmpty | src/VSG/helper.js:23-46 | Every operator in the table has at least one character. |
| Lexicon.OperatorTableOrdered | src/VSG/helper.js:23-46 | No operator is a proper prefix of an operator listed after it. So taking the first match in table order never cuts a longer operator short. |
| Lexicon.OperatorsStartWithInitials | src/VSG/helper.js:23-46 | Each operator starts with one of the characters `=!<>&cvnsa\|+-*/%`. |
| Lexicon.KeywordsDistinct | src/VSG/helper.js:3-20 | There are thirteen keywords and they are pairwise distinct. |
| Lexicon.KeywordsAreNotOperators | src/VSG/helper.js:3-46 | No keyword is also an operator. |
| Lexicon.SymbolsAreSingleCharacters | src/VSG/helper.js:49 | There are six symbols. Each is one character, they are pairwise distinct, and none is an operator. |
| Lexicon.DeclarationTagsAreKeys | src/VSG/helper.js:59-72 | Every `Declaration` tag equals its key, so the tags are distinct. `BreakDeclaration` is present, as the translator's literal comparison needs. |
| JsText.JoinSplit | src/VSG/interpreter.js:62-67 | Joining the pieces of a `split` with the separator gives the text back. `indent` and the editor rely on this. |
| JsText.SplitJoin | src/VSG/interpreter.js:62-67 | Splitting separator-free pieces joined with the separator gives the pieces back. |
| JsText.DecimalRoundTrip | src/VSG/lexer.js:149 | Reading the decimal rendering of a NUMBER value back with `parseInt` gives the value. |
| Lexer.FindOperator | src/VSG/lexer.js:158-167 | Returns the first operator in table order that starts at the position and, for a word operator, is not followed by `[a-zA-Z0-9_]`. No earlier entry is accepted. None means no entry is accepted. |
| Lexer.LineCommentEnd | src/VSG/lexer.js:27-31 | The `//` loop stops at the first line feed, or at the end of the input. |
| Lexer.BlockCommentScan | src/VSG/lexer.js:34-42 | The `/*` loop stops just past the first `*/`. If there is no `*/`, it stops at the last index. |
| Lexer.StringLoop | src/VSG/lexer.js:62-79 | The string loop stops at the closing quote or at the end of the input. |
| Lexer.NumberLoop | src/VSG/lexer.js:107-138 | A scanned number's lexeme is the lexeme so far followed by exactly the characters the loop passed. If the lexeme so far held only digits, and a `.` only with the decimal flag set, so does the result; the flag is never cleared. |
| Lexer.IdentEnd | src/VSG/lexer.js:183-188 | The identifier run takes every `[a-zA-Z0-9_]` character from the start and stops at the first other character. |
| Lexer.NumberStep | src/VSG/lexer.js:96-154 | The number branch emits a token past its start, or fails; it never skips. |
| Lexer.StepAt | src/VSG/lexer.js:17-201 | Every step that does not return strictly advances `current`, so the scan terminates. |
| Lexer.SkipLineComment | src/VSG/lexer.js:28-29 | The inner `//` loop computes `LineCommentEnd`. |
| Lexer.SkipBlockComment | src/VSG/lexer.js:35-42 | The inner `/*` loop computes `BlockCommentScan`. |
| Lexer.ScanString | src/VSG/lexer.js:58-79 | The escape-decoding loop computes `StringLoop`. |
| Lexer.ScanNumber | src/VSG/lexer.js:96-154 | The number branch computes `NumberStep`. |
| Lexer.ScanDigits | src/VSG/lexer.js:107-138 | The `while` loop of the number branch, from any starting position, lexeme and flag, computes `NumberLoop` from that state. |
| Lexer.ScanIdentifier | src/VSG/lexer.js:184-188 | The identifier loop stops at `IdentEnd` and collects the characters it passed. |
| Lexer.ScanAt | src/VSG/lexer.js:18-201 | One turn of the main loop, with its rules tried in the source's order, computes `StepAt`. |
| Lexer.Tokenize | src/VSG/lexer.js:8-205 | `tokenize` returns every token in source order, or the first error: `TokenizeFrom(input, 0)`. |
| LexerProperties.WhitespaceMakesNoTokens | src/VSG/lexer.js:21-24 | Input that is only white space from a position on scans to no tokens. |
| LexerProperties.LineCommentSkipped | src/VSG/lexer.js:27-31 | A `//` comment is skipped up to, but not past, the next line feed. |
| LexerProperties.BlockCommentSkipped | src/VSG/lexer.js:34-54 | A `/*` comment whose first `*/` ends before the last two characters is skipped as a whole. |
| LexerProperties.BlockCommentAtEnd | src/VSG/lexer.js:36-51 | A `/*` comment never closed is UNTERMINATED_COMMENT. So is one whose first `*/` ends at the last or next-to-last character. |
| LexerProperties.EmptyBlockCommentAtEnd | src/VSG/lexer.js:44-51 | `/**/` on its own is UNTERMINATED_COMMENT at position 3. |
| LexerProperties.BlockCommentStops | src/VSG/lexer.js:36-42 | The comment loop stops just past the first `*/`. |
| LexerProperties.StringWithoutEscapes | src/VSG/lexer.js:62-79 | Without backslashes, the string loop takes the characters up to the closing quote, or up to the end of the input, unchanged. |
| LexerProperties.StringLoopFirst | src/VSG/lexer.js:62-79 | From any position not escaped, the string loop stops at the first quote not escaped by a backslash, or at the end of the input when there is none. A backslash always takes the character after it. |
| LexerProperties.StringEndsAtUnescapedQuote | src/VSG/lexer.js:57-92 | At a quote, the literal ends at the first same quote not escaped by a backslash. The STRING token holds the decoded value and the scan resumes after that quote. With no such quote it is UNTERMINATED_STRING, at the end position minus the decoded length minus one. |
| LexerProperties.StringToken | src/VSG/lexer.js:57-92 | A string literal without escapes becomes a STRING token holding the text between the quotes. The scan resumes after the closing quote. |
| LexerProperties.EscapedQuote | src/VSG/lexer.js:62-79 | Example: `"a\"b"` is the one STRING `a"b`. The escaped quote does not end the string and decodes to the quote. |
| LexerProperties.EscapeSequences | src/VSG/lexer.js:66-74 | `\n`, `\t`, `\r`, `\\`, `\"` and `\'` decode to their characters. Any other escaped character stands for itself. |
| LexerProperties.UnterminatedStringAt | src/VSG/lexer.js:57-88 | A quote with no same quote after it is UNTERMINATED_STRING with its message. When the literal holds no backslash, the error is reported at the opening quote. |
| LexerProperties.UnterminatedString | src/VSG/lexer.js:81-88 | Example: `"abc` is UNTERMINATED_STRING at position 0. |
| LexerProperties.UnterminatedEscapePosition | src/VSG/lexer.js:65-88 | Example: in `"\nx` the reported position is 1, not the opening quote, because it is counted back by the decoded length. |
| LexerProperties.DigitRun | src/VSG/lexer.js:107-111 | The number loop takes a run of digits into the lexeme one by one, whatever the flag and whatever follows. |
| LexerProperties.DigitsOnly | src/VSG/lexer.js:107-138 | A run of digits ends at the first character that is neither a digit nor a `.`. |
| LexerProperties.FractionScan | src/VSG/lexer.js:107-138 | Digits, one `.` followed by a digit, digits, then neither a digit nor a `.`: the loop reads the whole lexeme and sets the decimal flag. |
| LexerProperties.IntegerToken | src/VSG/lexer.js:96-154 | A run of digits followed by neither a digit nor a `.` is one NUMBER token whose value is the run's decimal value. The scan resumes after the run. |
| LexerProperties.FloatToken | src/VSG/lexer.js:96-154 | Digits with one `.` among them that a digit follows, the `.` possibly first, followed by neither a digit nor a `.`, are one FLOAT token holding that lexeme. |
| LexerProperties.SecondPointFails | src/VSG/lexer.js:101-120 | A `.` met once the literal already holds one is INVALID_NUMBER_FORMAT, reported at the literal's start, whatever follows. |
| LexerProperties.DanglingPointFails | src/VSG/lexer.js:107-132 | After a run of digits, a `.` that no digit follows is INVALID_DECIMAL_FORMAT, reported at the `.`. |
| LexerProperties.IntegerLiteral | src/VSG/lexer.js:96-154 | Example: `42` is one NUMBER token with value 42. |
| LexerProperties.FloatScan | src/VSG/lexer.js:107-138 | Example: the number loop reads `10.5` whole and sets the decimal flag. |
| LexerProperties.FloatLiteral | src/VSG/lexer.js:96-154 | Example: `10.5` is one FLOAT token. |
| LexerProperties.SecondDecimalPoint | src/VSG/lexer.js:112-120 | Example: `10.5.2` is INVALID_NUMBER_FORMAT at position 0, the start of the number. |
| LexerProperties.DanglingDecimalPoint | src/VSG/lexer.js:122-132 | Example: `10.` is INVALID_DECIMAL_FORMAT at position 2, the point. |
| LexerProperties.LetterOperatorsAreWords | src/VSG/lexer.js:160 | Every operator that starts with a letter is one of the six guarded word operators. |
| LexerProperties.WordToken | src/VSG/lexer.js:183-192 | A letter that does not start a word operator begins a greedy `[a-zA-Z_][a-zA-Z0-9_]*` run. The run is a KEYWORD exactly when it is in the keyword table, otherwise an IDENTIFIER. |
| LexerProperties.WordOperatorIsRun | src/VSG/lexer.js:158-163 | An accepted word operator is the whole identifier run at its position. |
| LexerProperties.IdentEndPast | src/VSG/lexer.js:185-188 | The identifier run ends exactly at the first non-identifier character. |
| LexerProperties.NoOperatorAt | src/VSG/lexer.js:158-167 | At a character that no operator starts with, no operator is accepted. |
| LexerProperties.KeywordsAreWords | src/VSG/helper.js:3-20 | Every keyword is identifier-shaped and none is a word operator, so the scanner can produce each of them as a KEYWORD. |
| LexerProperties.NaamIsIdentifier | src/VSG/lexer.js:158-192 | `naam` is one IDENTIFIER: the guard keeps `na` from matching inside a word. |
| LexerProperties.NaIsOperator | src/VSG/lexer.js:158-173 | `na` followed by a space is the OPERATOR `na`. |
| LexerProperties.FindOperatorSkips | src/VSG/lexer.js:158-167 | Entries that are not accepted can be skipped over when searching the table. |
| LexerProperties.FirstMatchIsLongest | src/VSG/lexer.js:158-171 | The operator taken is at least as long as every operator accepted at that position. |
| LexerProperties.UnknownStep | src/VSG/lexer.js:18-201 | A character that is not white space, a comment, a quote, a digit or a `.` before a digit, where no operator is accepted, and that is no symbol and no letter, is UNKNOWN_CHARACTER at its own position. |
| LexerProperties.LonePointStep | src/VSG/lexer.js:96-201 | A `.` that no digit follows is UNKNOWN_CHARACTER at its position. |
| LexerProperties.HalfLogicalStep | src/VSG/lexer.js:158-201 | A single `&` or `|` not doubled is no operator, so it is UNKNOWN_CHARACTER at its position. |
| LexerProperties.UnknownCharacter | src/VSG/lexer.js:195-201 | Example: `[` is UNKNOWN_CHARACTER at position 0. |
| LexerProperties.SingleAmpersand | src/VSG/lexer.js:158-201 | Example: a lone `&` is UNKNOWN_CHARACTER at position 0. |
| LexerProperties.UnknownCharacterAfterToken | src/VSG/lexer.js:17-204 | Scanning stops at the first error: `x :` is UNKNOWN_CHARACTER at position 2, and no tokens are returned. |
| Ast.ExpectToken | src/VSG/ast.js:19-51 | `expected` on a token already in hand succeeds exactly when both kind and value match. Otherwise it is UNEXPECTED_TOKEN. |
| Ast.Expect | src/VSG/ast.js:19-51 | `expected` on the front token consumes exactly that token on a match. No token is UNEXPECTED_END_OF_INPUT; a mismatch is UNEXPECTED_TOKEN. |
| Ast.ExpectIdentifier | src/VSG/ast.js:53-64 | Succeeds exactly when the front token is an IDENTIFIER, taking its name. Otherwise it is MISSING_IDENTIFIER. |
| Ast.ParenScan | src/VSG/ast.js:67-96 | On success the tokens are the collected ones, a `)`, and the rest. A failure is always MISSING_RIGHT_PAREN. |
| Ast.ParenContent | src/VSG/ast.js:67-96 | On success at least the closing `)` was consumed. |
| Ast.ExpressionRun | src/VSG/ast.js:98-113 | The expression is the longest prefix before the first stopping point: the end, a KEYWORD, a `;` value, or an IDENTIFIER followed by a value `=`. The stopping token is not consumed. |
| Ast.ParseDeclaration | src/VSG/ast.js:115-151 | A declaration that parses consumed at least one token. |
| Ast.ParsePrint | src/VSG/ast.js:153-177 | A print that parses consumed at least one token. |
| Ast.ParseAssignment | src/VSG/ast.js:227-247 | An assignment that parses consumed at least one token. |
| Ast.ParseBreakOrContinue | src/VSG/ast.js:364-373 | Always succeeds, consuming the keyword. |
| Ast.ParseStatement | src/VSG/ast.js:180-225 | Every statement that parses consumes at least one token, so the statement loops terminate. |
| Ast.BlockBody | src/VSG/ast.js:253-275 | A block body that parses ends with the SYMBOL `}` it consumed. |
| Ast.ParseBlock | src/VSG/ast.js:249-276 | A block that parses consumed at least one token. |
| Ast.ParseWhile | src/VSG/ast.js:278-312 | A while loop that parses consumed at least one token. |
| Ast.SemicolonIndices | src/VSG/ast.js:330-336 | Returns, in increasing order, exactly the positions of the SYMBOL `;` tokens. |
| Ast.ParseFor | src/VSG/ast.js:314-362 | A for loop that parses consumed at least one token. |
| Ast.ForRest | src/VSG/ast.js:329-361 | After the header, the semicolon check and the body of a for loop that parse consumed at least one token. |
| Ast.BranchCondition | src/VSG/ast.js:387-397 | A parenthesised condition that parses consumed at least one token. |
| Ast.ConditionalBranch | src/VSG/ast.js:387-406 | A branch that parses consumed at least one token. |
| Ast.ParseElseIfs | src/VSG/ast.js:408-428 | The else-if loop only takes tokens from the front. It stops at the first token that is not the KEYWORD `anyatha_yadi`. |
| Ast.ParseElse | src/VSG/ast.js:430-435 | The optional else part only takes tokens from the front. |
| Ast.ParseIf | src/VSG/ast.js:374-438 | An if chain that parses consumed at least one token. |
| AstProperties.PrologueErrors | src/VSG/ast.js:441-452 | The first token must be the KEYWORD `arambha` and the second the KEYWORD `systummm`. The first failing check's error is returned; it is UNEXPECTED_END_OF_INPUT exactly when the tokens ran out. |
| AstProperties.EndKeyword | src/VSG/ast.js:454-483 | After the prologue, no tokens left is MISSING_END_KEYWORD. A last token other than the KEYWORD `bihari_sramik` is UNEXPECTED_TOKEN. Otherwise the statements are parsed from the tokens strictly between the prologue and that last token. |
| AstProperties.DepthCons | src/VSG/ast.js:74-77 | The parenthesis depth of a token in front of a slice is its own change plus the slice's depth. |
| AstProperties.DepthPrefixStep | src/VSG/ast.js:71-85 | The depth of a prefix one token longer. |
| AstProperties.ParenScanMatches | src/VSG/ast.js:67-96 | The collected tokens end just before the `)` that closes the first `(`, so nested parentheses are kept. At least one parenthesis stays open after every proper prefix. The scan fails only if one stays open to the end. |
| AstProperties.EmptyParens | src/VSG/ast.js:67-96 | `()` has no content, and its `)` is consumed. |
| AstProperties.DeclarationCases | src/VSG/ast.js:115-151 | MISSING_IDENTIFIER without a name. UNEXPECTED_TOKEN, or end of input, without `=`. MISSING_VALUE at the end, at a KEYWORD or at `;`. A declaration parses exactly when none of these applies. `ghoshit_kar` gives a VarDeclaration and `nishchit_kar` a ConstDeclaration, whose value is the expression after `=`. |
| AstProperties.PrintCases | src/VSG/ast.js:153-177 | `prakashit_kar()` is EMPTY_PRINT. A print that parses holds at least one token. |
| AstProperties.SkeletonKeywordInBody | src/VSG/ast.js:199-206 | `arambha`, `systummm` or `bihari_sramik` in the body is MULTIPLE_DECLARATIONS. |
| AstProperties.BareElse | src/VSG/ast.js:207-213 | An `anyatha_yadi` or `anyatha` outside an if chain is WRONG_SYNTAX. |
| AstProperties.StrayTokenSkipped | src/VSG/ast.js:221-224 | A token that is neither a keyword nor an identifier, such as a stray `;`, is consumed without producing a node. |
| AstProperties.AssignmentStatement | src/VSG/ast.js:219-247 | An identifier statement must be followed by the OPERATOR `=`. Without one it is UNEXPECTED_TOKEN, or end of input. With one it is an assignment of the expression that follows. |
| AstProperties.WhileConditionErrors | src/VSG/ast.js:278-299 | Any failure inside the parentheses of `yatha` becomes ConditionError "Expression is not valid". An empty condition is ConditionError "Condition cannot be empty". A while loop that parses has a non-empty condition. |
| AstProperties.ForHeader | src/VSG/ast.js:329-361 | A header that does not hold exactly two SYMBOL `;` tokens, at any depth, is SyntaxError. A for loop that parses has exactly two; its init, condition and increment are the slices before, between and after them, none holds a semicolon, and with the two semicolons they rebuild the header. |
| AstProperties.HeaderSplit | src/VSG/ast.js:353-358 | A header whose only semicolons are at two positions is the three semicolon-free slices around them, put back together with the semicolons. |
| AstProperties.ElseIfsCases | src/VSG/ast.js:408-428 | Without a leading `anyatha_yadi` the else-if loop takes nothing. With one, its first branch is that clause. |
| AstProperties.ElseCases | src/VSG/ast.js:430-438 | The else part keeps the branches it is given. It has an else body exactly when the next token is the KEYWORD `anyatha`. |
| AstProperties.IfChainShape | src/VSG/ast.js:374-438 | An if node holds the `yadi` branch followed by the branches of the else-if chain, in order. It has an else body exactly when `anyatha` follows the clauses. |
| AstProperties.EmptyIfCondition | src/VSG/ast.js:387-406 | An empty `yadi()` condition is accepted: `yadi ( ) { }` is an if with one empty branch and no else. |
| AstProperties.BlockErrors | src/VSG/ast.js:249-275 | A block must open with the SYMBOL `{`: otherwise UNEXPECTED_END_OF_INPUT or UNEXPECTED_TOKEN. `{` alone, or `{` followed by a non-SYMBOL `}` value, is MISSING_CLOSING_BRACE. |
| AstProperties.BlockRunsOut | src/VSG/ast.js:253-275 | A block body whose statements all parse and that holds no `}` value runs out of tokens: MISSING_CLOSING_BRACE. |
| AstProperties.BlockErrorSource | src/VSG/ast.js:253-275 | A block body fails either with MISSING_CLOSING_BRACE or with the error of a statement that starts at some position inside it. |
| Parser.SemicolonPositions | src/VSG/ast.js:330-336 | The `forEach` collects exactly the positions of the SYMBOL `;` tokens, in increasing order. |
| Parser.Parser.Consume | src/VSG/ast.js:11 | `consume` returns the front token and removes it from the queue. |
| Parser.Parser.Expected | src/VSG/ast.js:19-51 | Returns what `Ast.Expect` returns and leaves the queue at its rest. On an error the queue is unchanged. |
| Parser.Parser.ExpectIdentifier | src/VSG/ast.js:53-64 | Returns what `Ast.ExpectIdentifier` returns and leaves the queue at its rest. On an error the queue is unchanged. |
| Parser.Parser.ParenthesesContent | src/VSG/ast.js:67-96 | The depth loop returns what `ParenScan` and `ParenContent` return and consumes exactly what they consume. |
| Parser.Parser.ParseExpression | src/VSG/ast.js:98-113 | The loop collects `ExpressionRun`'s tokens and leaves the stopping token in the queue. |
| Parser.Parser.ParseDeclaration | src/VSG/ast.js:115-151 | Mirrors `Ast.ParseDeclaration` on the queue. |
| Parser.Parser.ParsePrint | src/VSG/ast.js:153-177 | Mirrors `Ast.ParsePrint` on the queue. |
| Parser.Parser.ParseAssignment | src/VSG/ast.js:227-247 | Mirrors `Ast.ParseAssignment` on the queue. |
| Parser.Parser.ParseBreakOrContinue | src/VSG/ast.js:364-373 | Mirrors `Ast.ParseBreakOrContinue` on the queue. |
| Parser.Parser.ParseStatement | src/VSG/ast.js:180-225 | Mirrors `Ast.ParseStatement` on the queue. |
| Parser.Parser.ParseBlock | src/VSG/ast.js:249-276 | The statement loop and the brace check mirror `Ast.ParseBlock` on the queue. |
| Parser.Parser.ParseWhileLoop | src/VSG/ast.js:278-312 | Mirrors `Ast.ParseWhile` on the queue. |
| Parser.Parser.ParseForLoop | src/VSG/ast.js:314-362 | Mirrors `Ast.ParseFor` on the queue. |
| Parser.Parser.ParseForRest | src/VSG/ast.js:329-361 | Mirrors `Ast.ForRest` on the queue: the semicolon positions, the body and the node. |
| Parser.Parser.ParseConditionalBranch | src/VSG/ast.js:387-406 | A condition and block of an if chain mirror `Ast.ConditionalBranch` on the queue. |
| Parser.Parser.ParseElseIfChain | src/VSG/ast.js:408-428 | The else-if `while` loop mirrors `Ast.ParseElseIfs` on the queue. |
| Parser.Parser.ParseIfStatement | src/VSG/ast.js:374-438 | Mirrors `Ast.ParseIf` on the queue. |
| Parser.Parser.ParseProgram | src/VSG/ast.js:441-483 | The prologue checks, the `pop` of the last token and the statement loop return `Ast.ParseProgram` of the queue. |
| Parser.Parser.ParseStatements | src/VSG/ast.js:474-483 | The statement loop returns `Ast.ParseBody` of the queue: every node in order, or the first error. |
| Parser.Parse | src/VSG/ast.js:4-483 | `parse(tokens)` on a fresh queue is `Ast.ParseProgram(tokens)`. |
| Interpreter.ConcatMapAppend | src/VSG/interpreter.js:24-57 | Concatenating the per-item texts distributes over joining two sequences. |
| Interpreter.ExpressionJsAppend | src/VSG/interpreter.js:21-60 | Translating two token slices one after the other is translating their concatenation: no separators. |
| Interpreter.StringTokenJs | src/VSG/interpreter.js:31-33 | A STRING token becomes its value in double quotes, with no re-escaping. |
| Interpreter.NonWordOperatorsVerbatim | src/VSG/interpreter.js:37-46 | Every operator other than the six word operators is emitted as it stands. |
| Interpreter.TranslateExpression | src/VSG/interpreter.js:21-60 | The `for … of` loop over the tokens computes `ExpressionJs`, the per-token texts in order. |
| Interpreter.IndentLines | src/VSG/interpreter.js:62-67 | Keeps the number of lines, and indents each line on its own. |
| Interpreter.DedentLines | src/VSG/interpreter.js:62-67 | Not code of the source: the reference inverse of the indentation at these lines, used by `DedentIndent`. It keeps the number of lines and strips each line on its own. |
| Interpreter.IndentLineNoNewline | src/VSG/interpreter.js:65 | Indenting a line adds no line feed. |
| Interpreter.IndentLinesOfCode | src/VSG/interpreter.js:62-67 | `indent` preserves the number of lines. Its lines are the input's lines, each prefixed with two spaces unless it is blank after trimming. |
| Interpreter.DedentIndent | src/VSG/interpreter.js:62-67 | `indent` loses nothing: removing the two spaces from every non-blank line gives the text back. |
| Interpreter.BranchesJsStep | src/VSG/interpreter.js:114-119 | Every branch after the first is written as `else if`. |
| Interpreter.BranchesJsSingle | src/VSG/interpreter.js:114-119 | The first branch is written as `if`. |
| Interpreter.BranchesJsFold | src/VSG/interpreter.js:114-119 | The branch loop gives the `if` branch followed by the `else if` text of every later branch. |
| Interpreter.ElseIfsJsFold | src/VSG/interpreter.js:114-119 | The loop's `else if` text agrees with the front-to-back reference reading. |
| Interpreter.BranchesJsChain | src/VSG/interpreter.js:112-119 | An if chain's branches are one `if` followed by the `else if` branches, in order. |
| Interpreter.IfJs | src/VSG/interpreter.js:112-125 | An if node is `if (…) {…}`, then `else if (…) {…}` per later branch, then the else block. The else block is present exactly when the node has an else body, even an empty one. |
| Interpreter.BlockJsFold | src/VSG/interpreter.js:69-130 | `astToJs` is the concatenation of one fragment per statement, in order. |
| Interpreter.BlockJsAppend | src/VSG/interpreter.js:69-130 | Translating two statement lists one after the other is translating their concatenation. |
| Interpreter.StatementJsEndsLine | src/VSG/interpreter.js:76-125 | Every statement's fragment is non-empty and ends in a line feed. The exception is an if node without branches, which the parser never makes. |
| Interpreter.BreakContinueJs | src/VSG/interpreter.js:107-110 | Break becomes `break;` and continue becomes `continue;`. |
| Interpreter.AstToJs | src/VSG/interpreter.js:69-130 | The statement loop computes `BlockJs`. |
| Interpreter.StatementToJs | src/VSG/interpreter.js:75-126 | The `switch` computes each statement's fragment. |
| Interpreter.IfToJs | src/VSG/interpreter.js:112-125 | The `forEach` over the branches and the else test compute the if node's fragment. |
| Engine.CaptureLinesAppend | src/VSG/interpreter.js:8-19 | Capturing two runs of outcomes logs their lines one after the other. |
| Engine.CaptureLinesCount | src/VSG/interpreter.js:8-19 | The log gains one line per callback result that is not `undefined`. |
| Engine.PrintedLine | src/VSG/interpreter.js:8-19 | A print's callback returns an array, one element per part its argument's commas outside parentheses separate. The logged line is the elements' texts joined by single spaces: a one-element array logs its element's text, and elements without spaces are read back by splitting the line at its spaces. |
| Engine.CompileLogs | src/VSG/interpreter.js:133-151 | `compileToJs` fails exactly when tokenizing or parsing fails, and then the log has exactly one line, naming the stage. A tokenizing error hides every parse error. On success the log is empty and the code is `astToJs` of the tree. |
| Engine.RunFailure | src/VSG/interpreter.js:165-167 | A program that does not compile prints its one error line, whatever running it would have done. |
| Engine.RunSuccess | src/VSG/interpreter.js:154-170 | A program that compiles prints only the lines it logs itself, then the escaped error if any. No line of an earlier run survives. |
| Engine.Runtime.constructor | src/VSG/interpreter.js:6 | The log starts empty. |
| Engine.Runtime.CaptureOutput | src/VSG/interpreter.js:8-19 | Appends the array's elements joined by spaces, a defined value's text, or `Error: ` and the message. An `undefined` result appends nothing. |
| Engine.Runtime.CompileToJs | src/VSG/interpreter.js:133-151 | Returns `Compile(code)`. The log is the result's `logs`. |
| Engine.Runtime.ExecuteCompiledJs | src/VSG/interpreter.js:154-162 | Appends the captured lines and the escaped error to the log, then returns the log joined by line feeds. |
| Engine.Runtime.RunViswaguru | src/VSG/interpreter.js:134-171 | Returns `Run(code, run)`, whatever the log held before. Leaves the log holding the one compile-failure line, or the run's captured lines and escaped error. |
| Editor.StringEnd | src/shared/components/Editor.jsx:158-170 | The string scan stops inside the line. |
| Editor.CodeEnd | src/shared/components/Editor.jsx:189-199 | The code scan stops at the first quote, `/` or `*` after its start, or at the end of the line. |
| Editor.Step | src/shared/components/Editor.jsx:107-207 | Each turn of the inner loop cuts the segment `line[currentPos..next]` and advances `currentPos` by at least one. |
| Editor.LineScan | src/shared/components/Editor.jsx:107-208 | A line's segments, put back together, are the rest of the line. |
| Editor.HighlightLines | src/shared/components/Editor.jsx:102-211 | There is one segment list per line, and each list's contents are that line. |
| Editor.Texts | src/shared/components/Editor.jsx:102-211 | The text of each line of a highlighting, in order. |
| Editor.HighlightRoundTrip | src/shared/components/Editor.jsx:97-214 | `parseCodeWithComments` returns one list per `\n`-separated line. Joining the lists' texts with line feeds gives the code back. |
| Editor.LineScanStep | src/shared/components/Editor.jsx:107-208 | A line's scan is the segment cut at the position, then the scan from where that segment ends. |
| Editor.HighlightLinesStep | src/shared/components/Editor.jsx:102-211 | Each line is scanned in the comment state the previous line left. |
| Editor.LineCommentRule | src/shared/components/Editor.jsx:146-152 | Outside a comment, `//` makes the rest of the line one comment segment. |
| Editor.BlockCommentRule | src/shared/components/Editor.jsx:109-127 | Outside a comment, `/*` makes one comment segment up to and including the first `*/` after it, and the scan goes on just past it, outside a comment. If there is no `*/`, the rest of the line is one comment segment and the comment stays open for the next line. |
| Editor.OpenCommentLine | src/shared/components/Editor.jsx:128-145 | Inside a comment, a line without `*/` is one comment segment, or none when empty, and the comment stays open. |
| Editor.OpenCommentCarries | src/shared/components/Editor.jsx:100-145 | Lines without `*/` after an open comment are all comment. |
| Editor.StringEndFirst | src/shared/components/Editor.jsx:158-170 | The string scan stops at the first same quote not escaped by a backslash, or at the end. |
| Editor.StringRule | src/shared/components/Editor.jsx:154-186 | A quote opens a string segment that runs to the next unescaped same quote, inclusive, or to the end of the line. The string never carries over to the next line. |
| Editor.CodeRule | src/shared/components/Editor.jsx:187-205 | A code segment holds no quote, `/` or `*` after its first character. The next segment starts at one. |
| Editor.ScanString | src/shared/components/Editor.jsx:158-170 | The `while` loop with its `escaped` flag computes `StringEnd`. |
| Editor.ScanCode | src/shared/components/Editor.jsx:189-199 | The `for` loop computes `CodeEnd`. |
| Editor.NextSegment | src/shared/components/Editor.jsx:108-206 | One turn of the inner loop computes `Step`. |
| Editor.ParseLine | src/shared/components/Editor.jsx:104-208 | The inner `while` loop computes `LineScan`. |
| Editor.ParseCodeWithComments | src/shared/components/Editor.jsx:97-214 | The nested loops compute `Highlight`. |
| Editor.LineNumbers | src/shared/components/Editor.jsx:92-95 | `getLineNumbers` returns `1 … n`, where n is the number of `\n`-separated lines. |
| Editor.TabSplice | src/shared/components/Editor.jsx:57-68 | Tab replaces the selection `[start, end)` with two spaces, and the caret lands just after them at `start + 2`. Taking the spaces out again leaves the text with the selection deleted. |

## Left out

- `eval` in `executeCompiledJs` is not modelled (`src/VSG/interpreter.js:156`). What the compiled program does becomes the parameter `Execution`: the outcomes of its `__captureOutput` calls, in order, and the text of the error that escapes it, if any.
- The evaluation of `fn()` inside `__captureOutput` is not modelled. Its result is the datatype `Outcome`: an array of already-stringified elements, another defined value as `String` renders it, `undefined`, or the message of a thrown error.
- `parseInt`/`parseFloat` and JavaScript number formatting (`src/VSG/lexer.js:149`) are simplified:
  - a NUMBER token holds the natural number of its digits and is rendered in decimal;
  - a FLOAT token keeps its lexeme, so `10.50` or `.5` are not re-rendered as `10.5` or `0.5`;
  - integers beyond 2^53 are not rounded.
- Error positions are kept for lexer errors. Parse-error `context` strings are not modelled, because they never reach the log. The rewriting of an error's `type` and `message` in while, for and if is modelled.
- Characters are Dafny `char`s, not UTF-16 code units. A character outside the Basic Multilingual Plane counts as one position here, but two in JavaScript.
- `/\s/` and `trim()` are modelled with the full ECMAScript white-space and line-terminator set, not only ASCII white space.
- The `comments` table of `src/VSG/helper.js:52-56` is not modelled, because no core code reads it. The comment syntax is written into the scanner.
- The editor's rendering, `getHighlightedCode`, scrolling, the clipboard and React state are not modelled. Neither is the `setTimeout` that moves the caret: `InsertTab` returns the new text with the caret position it sets.
- Parser.Parser.ParseStatement: after a parse error, the methods leave the queue's contents unspecified, except for `Expected` and `ExpectIdentifier`, whose queue is unchanged. No caller reads the queue after an error.
- The if-statement helper of `src/VSG/ast.js:374-438` is split into `ParseConditionalBranch`, `ParseElseIfChain` and an else step. `parseForLoop` is split after its header (`ParseForRest`), the program's statement loop is `ParseStatements`, and the number branch's loop is `ScanDigits`. The editor's inner loop is split into `ParseLine`, `NextSegment`, `ScanString` and `ScanCode`. The code is the same, divided into smaller methods.
- The call `parseExpression(statement.value ?? [])` before the `switch` of `astToJs` (`src/VSG/interpreter.js:73`) is folded into the cases that use it; its result is unused for loops, if nodes, break and continue.
- `BlockCommentAtEnd` states the behaviour as written: a `/*` comment whose first `*/` ends at the last or next-to-last character of the input is reported as unterminated, because the loop's end test at src/VSG/lexer.js:36 and :44 compares against `input.length - 1`.
- `UnterminatedStringAt` and `UnterminatedEscapePosition` state the position as written: `current - value.length - 1` at src/VSG/lexer.js:85 counts back by the decoded length, so every escape sequence in an unterminated literal moves the reported position one place past the opening quote.
- The console driver `src/VSG/testCodes.js` and the sample programs of the home pages are not part of this model.
