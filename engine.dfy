/**
 * The engine around the translator: the module-level log that the compiled
 * program writes through `__captureOutput`, `compileToJs`, which clears the
 * log and runs the lexer, the parser and the translator, and `runViswaguru`,
 * which reports a compile failure as the log's lines or else hands the
 * compiled text to execution.
 *
 * JavaScript's `eval` is not modelled: what the compiled program does when it
 * runs is a parameter, the outcomes of the `__captureOutput` calls it makes
 * in order and the text of the error that ends it, if one escapes.
 */
module Engine {
  import opened Wrappers
  import opened JsText
  import opened Lexer
  import opened Ast
  import Parser
  import opened Interpreter

  /** What the callback handed to `__captureOutput` produced. */
  datatype Outcome =
    | ArrayValue(elements: seq<string>)  // an array, its elements already passed through `String`
    | Scalar(text: string)               // any other defined value, as `String` renders it
    | Undefined
    | Thrown(message: string)            // the `message` of the error the callback threw

  /** The line `__captureOutput` adds to the log for one outcome, if any. */
  function CaptureLine(o: Outcome): Option<string> {
    match o
    case ArrayValue(elements) => Some(Join(elements, " "))
    case Scalar(text) => Some(text)
    case Undefined => None
    case Thrown(message) => Some("Error: " + message)
  }

  /** The lines a run of `__captureOutput` calls adds to the log, in call order. */
  function CaptureLines(os: seq<Outcome>): seq<string> {
    if os == [] then []
    else
      var line := CaptureLine(os[|os| - 1]);
      CaptureLines(os[..|os| - 1]) + if line.Some? then [line.value] else []
  }

  /** How the compiled program runs: its captured outcomes, then the error that escaped it, if any. */
  datatype Execution = Execution(captures: seq<Outcome>, escaped: Option<string>)

  /** The result object of `compileToJs`. */
  datatype Compiled =
    | Failure(logs: seq<string>)
    | Success(jsCode: string, logs: seq<string>)

  /** `compileToJs(code)`, starting from the log it has just cleared. */
  function Compile(code: string): Compiled {
    match TokenizeFrom(code, 0)
    case Err(e) => Failure(["Tokenization Error: " + e.message])
    case Ok(tokens) =>
      match Ast.ParseProgram(tokens)
      case Err(e) => Failure(["Parse Error: " + e.message])
      case Ok(body) => Success(BlockJs(body), [])
  }

  /** The log after `executeCompiledJs` has run a program that found the log holding `logs`. */
  function Executed(logs: seq<string>, run: Execution): seq<string> {
    logs + CaptureLines(run.captures) + if run.escaped.Some? then ["Execution Error: " + run.escaped.value] else []
  }

  /** `runViswaguru(code)`: the log's lines joined with line feeds. */
  function Run(code: string, run: Execution): string {
    match Compile(code)
    case Failure(logs) => Join(logs, "\n")
    case Success(jsCode, logs) => Join(Executed(logs, run), "\n")
  }

  /** The number of outcomes that write a line: every one but `undefined`. */
  function Defined(os: seq<Outcome>): nat {
    if os == [] then 0 else Defined(os[..|os| - 1]) + if os[|os| - 1].Undefined? then 0 else 1
  }

  /** Capturing two runs of outcomes one after the other logs their lines one after the other. */
  lemma {:induction false} CaptureLinesAppend(a: seq<Outcome>, b: seq<Outcome>)
    ensures CaptureLines(a + b) == CaptureLines(a) + CaptureLines(b)
    decreases |b|
  {
    if b == [] {
      assert a + b == a;
    } else {
      var ab := a + b;
      CaptureLinesAppend(a, b[..|b| - 1]);
      assert ab[..|ab| - 1] == a + b[..|b| - 1];
      assert ab[|ab| - 1] == b[|b| - 1];
    }
  }

  /** One log line per outcome other than `undefined`. */
  lemma {:induction false} CaptureLinesCount(os: seq<Outcome>)
    ensures |CaptureLines(os)| == Defined(os)
    decreases |os|
  {
    if os != [] {
      CaptureLinesCount(os[..|os| - 1]);
    }
  }

  /**
   * The callback of a print returns an array holding one element per part of
   * its argument that a comma outside parentheses separates, and the logged
   * line is the elements' texts joined by single spaces: a one-element array
   * logs its element's text, and elements holding no space are read back by
   * splitting the line at its spaces.
   */
  lemma PrintedLine(elements: seq<string>)
    ensures CaptureLine(ArrayValue(elements)).Some?
    ensures |elements| == 1 ==> CaptureLine(ArrayValue(elements)).value == elements[0]
    ensures |elements| >= 1 && (forall i :: 0 <= i < |elements| ==> ' ' !in elements[i]) ==>
      Split(CaptureLine(ArrayValue(elements)).value, ' ') == elements
  {
    if |elements| >= 1 && forall i :: 0 <= i < |elements| ==> ' ' !in elements[i] {
      SplitJoin(elements, ' ');
      assert [' '] == " ";
    }
  }

  /**
   * `compileToJs` fails with exactly one log line, naming the stage that failed,
   * and succeeds with an empty log; tokenizing comes first, so a lexical error
   * hides every parse error.
   */
  lemma CompileLogs(code: string)
    ensures Compile(code).Failure? <==> TokenizeFrom(code, 0).Err? || Ast.ParseProgram(TokenizeFrom(code, 0).value).Err?
    ensures Compile(code).Failure? ==> |Compile(code).logs| == 1
    ensures TokenizeFrom(code, 0).Err? ==> Compile(code).logs == ["Tokenization Error: " + TokenizeFrom(code, 0).error.message]
    ensures Compile(code).Success? ==> Compile(code).logs == []
    ensures Compile(code).Success? ==> Compile(code).jsCode == BlockJs(Ast.ParseProgram(TokenizeFrom(code, 0).value).value)
  {
  }

  /** A program that does not compile prints its one error line, whatever its execution would have done. */
  lemma RunFailure(code: string, run: Execution)
    requires Compile(code).Failure?
    ensures Run(code, run) == Compile(code).logs[0]
  {
    CompileLogs(code);
  }

  /**
   * A program that compiles prints only what it logs itself, then the escaped
   * error, if any: no line of a previous run and no compile message is left in the log.
   */
  lemma RunSuccess(code: string, run: Execution)
    requires Compile(code).Success?
    ensures Run(code, run) == Join(CaptureLines(run.captures) + if run.escaped.Some? then ["Execution Error: " + run.escaped.value] else [], "\n")
  {
    CompileLogs(code);
    assert [] + CaptureLines(run.captures) == CaptureLines(run.captures);
  }

  /** The engine's module state: the array `__capturedLogs`. */
  class Runtime {
    var capturedLogs: seq<string>

    constructor()
      ensures capturedLogs == []
    {
      capturedLogs := [];
    }

    /** `__captureOutput(fn)`, given what `fn()` did. */
    method CaptureOutput(o: Outcome)
      modifies this
      ensures capturedLogs == old(capturedLogs) + if CaptureLine(o).Some? then [CaptureLine(o).value] else []
    {
      match o {
        case ArrayValue(elements) =>
          capturedLogs := capturedLogs + [Join(elements, " ")];
        case Scalar(text) =>
          capturedLogs := capturedLogs + [text];
        case Undefined =>
        case Thrown(message) =>
          capturedLogs := capturedLogs + ["Error: " + message];
      }
    }

    /** `compileToJs(code)`: the result's `logs` is the log itself, which holds exactly the result's lines. */
    method CompileToJs(code: string) returns (result: Compiled)
      modifies this
      ensures result == Compile(code)
      ensures capturedLogs == result.logs
    {
      capturedLogs := [];
      var tokens := Tokenize(code);
      if tokens.Err? {
        capturedLogs := capturedLogs + ["Tokenization Error: " + tokens.error.message];
        return Failure(capturedLogs);
      }
      var parsed := Parser.Parse(tokens.value);
      if parsed.Err? {
        capturedLogs := capturedLogs + ["Parse Error: " + parsed.error.message];
        return Failure(capturedLogs);
      }
      var jsCode := AstToJs(parsed.value);
      return Success(jsCode, capturedLogs);
    }

    /** `executeCompiledJs(jsCode)`: the program's captured lines, then the escaped error, all joined. */
    method ExecuteCompiledJs(run: Execution) returns (output: string)
      modifies this
      ensures capturedLogs == Executed(old(capturedLogs), run)
      ensures output == Join(capturedLogs, "\n")
    {
      ghost var start := capturedLogs;
      for i := 0 to |run.captures|
        invariant capturedLogs == start + CaptureLines(run.captures[..i])
      {
        CaptureOutput(run.captures[i]);
        assert run.captures[..i + 1][..i] == run.captures[..i];
        assert capturedLogs == start + CaptureLines(run.captures[..i + 1]);
      }
      assert run.captures[..|run.captures|] == run.captures;
      if run.escaped.Some? {
        capturedLogs := capturedLogs + ["Execution Error: " + run.escaped.value];
      } else {
        assert capturedLogs == capturedLogs + [];
      }
      output := Join(capturedLogs, "\n");
    }

    /**
     * `runViswaguru(code)`: the output does not depend on what the log held
     * before, and the log is left holding the compile failure's line or the
     * run's lines.
     */
    method RunViswaguru(code: string, run: Execution) returns (output: string)
      modifies this
      ensures output == Run(code, run)
      ensures capturedLogs == match Compile(code) case Failure(logs) => logs case Success(_, logs) => Executed(logs, run)
    {
      var result := CompileToJs(code);
      if result.Failure? {
        return Join(result.logs, "\n");
      }
      output := ExecuteCompiledJs(run);
    }
  }
}
