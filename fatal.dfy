/**
 * `Fatal`: the error that carries a process exit code from the place that
 * raises it to the reporter that raises `SystemExit` with it. Its text form is
 * `"(<code>) <message>"`, which a log reader can take apart again.
 */
module Errors {
  import opened Options
  import opened Text

  datatype Fatal = Fatal(message: string, code: int)

  /** `str(Fatal(message, code))`: the code in parentheses, then the message word for word. */
  function Render(f: Fatal): (s: string)
    ensures |s| >= |f.message| + 4 && s[0] == '('
    ensures s[|s| - |f.message|..] == f.message
  {
    "(" + IntToString(f.code) + ") " + f.message
  }

  /** The first index at or after `from` where `c` occurs, if any. */
  function Find(s: string, c: char, from: nat): (r: Option<nat>)
    requires from <= |s|
    ensures r.Some? ==> from <= r.value < |s| && s[r.value] == c
    ensures r.Some? ==> forall k :: from <= k < r.value ==> s[k] != c
    ensures r.None? ==> forall k :: from <= k < |s| ==> s[k] != c
    decreases |s| - from
  {
    if from == |s| then None
    else if s[from] == c then Some(from)
    else Find(s, c, from + 1)
  }

  /**
   * Reads a rendered Fatal back: `(`, an integer, `) `, then the message up to
   * the end. Only renderings are accepted: whatever it reads back, the text
   * is exactly that Fatal's rendering.
   */
  function ParseFatal(s: string): (r: Option<Fatal>)
    ensures r.Some? ==> s == Render(r.value)
  {
    if |s| == 0 || s[0] != '(' then
      None
    else
      match Find(s, ')', 1)
      case None => None
      case Some(k) =>
        if k + 1 < |s| && s[k + 1] == ' ' then
          match ParseInt(s[1..k])
          case Some(code) =>
            assert s == s[..1] + s[1..k] + s[k..k + 2] + s[k + 2..];
            assert s[..1] == "(" && s[k..k + 2] == ") ";
            Some(Fatal(s[k + 2..], code))
          case None => None
        else
          None
  }

  /** `Find` stops at the first occurrence. */
  lemma {:induction false} FindFirst(s: string, c: char, from: nat, k: nat)
    requires from <= k < |s| && s[k] == c
    requires forall i :: from <= i < k ==> s[i] != c
    ensures Find(s, c, from) == Some(k)
    decreases k - from
  {
    if from < k {
      FindFirst(s, c, from + 1, k);
    }
  }

  /** The rendering can be read back: the code and the whole message survive. */
  lemma RenderRoundTrip(f: Fatal)
    ensures ParseFatal(Render(f)) == Some(f)
  {
    var digits := IntToString(f.code);
    var s := Render(f);
    var k := |digits| + 1;
    assert s[1..k] == digits;
    assert s[k..k + 2] == ") ";
    forall i | 1 <= i < k
      ensures s[i] != ')'
    {
      assert s[i] == digits[i - 1];
    }
    FindFirst(s, ')', 1, k);
    IntRoundTrip(f.code);
    assert s[k + 2..] == f.message;
  }

  /** A text reads back as a Fatal exactly when it is that Fatal's rendering. */
  lemma ParseExactlyRenderings(s: string, f: Fatal)
    ensures ParseFatal(s) == Some(f) <==> s == Render(f)
  {
    RenderRoundTrip(f);
  }

  /** Two Fatals with the same text are the same Fatal. */
  lemma RenderInjective(f: Fatal, g: Fatal)
    requires Render(f) == Render(g)
    ensures f == g
  {
    RenderRoundTrip(f);
    RenderRoundTrip(g);
  }

  /** Text after a rendered Fatal extends its message: the code is still read back. */
  lemma RenderAppend(f: Fatal, suffix: string)
    ensures Render(f) + suffix == Render(Fatal(f.message + suffix, f.code))
  {
  }
}

/**
 * The two ways of running a command. The run itself (process start, privilege
 * drop, working directory, reading both streams, waiting) is not modelled:
 * its outcome is the `CommandResult` the functions below receive.
 */
module Process {
  import opened Options
  import opened Errors

  /** The exit status and the full captured standard output and error of one run. */
  datatype CommandResult = CommandResult(status: int, stdout: string, stderr: string)

  /**
   * `exec_cmd_fail_hard`: status 0 returns the result unchanged; any other
   * status raises a Fatal whose code is the status and whose message is the
   * captured standard error, word for word.
   */
  function FailHard(run: CommandResult): (r: Result<CommandResult, Fatal>)
    ensures r.Ok? <==> run.status == 0
    ensures r.Ok? ==> r.value == run
    ensures r.Err? ==> r.error.code == run.status && r.error.message == run.stderr
  {
    if run.status == 0 then Ok(run) else Err(Fatal(run.stderr, run.status))
  }
}

/**
 * The reporters: each turns a caught Fatal into the log records it emits, what
 * it writes to standard error itself, and the code it hands to `SystemExit`
 * (none for `log_exception`, which returns).
 */
module Reporting {
  import opened Options
  import opened Text
  import opened Errors

  datatype Level = Info | Critical

  datatype LogRecord = LogRecord(level: Level, message: string)

  datatype Report = Report(records: seq<LogRecord>, stderr: string, exit: Option<int>)

  /** The code `log_exception_and_exit` always exits with. */
  const REPORTED_EXIT_CODE := 1
  /** The code of an interactive interrupt (128 + SIGINT). */
  const INTERRUPT_EXIT_CODE := 130
  /** The code of a failed privilege check. */
  const NOT_ROOT_EXIT_CODE := 77

  const HALTED_MESSAGE := "Halted via KeyboardInterrupt."
  const NOT_ROOT_MESSAGE := "Must be root or equivalent (ex. sudo)."

  predicate StartsWith(s: string, prefix: string) {
    |prefix| <= |s| && s[..|prefix|] == prefix
  }

  /**
   * The Fatal that `log_exception` wraps around the one it caught: its text
   * follows `"Fatal: "`, then a colon and whatever the logger adds about the
   * exception (`detail`), all under the code 1.
   */
  function Wrap(caught: Fatal, detail: string): (outer: Fatal)
    ensures outer.code == REPORTED_EXIT_CODE
    ensures StartsWith(outer.message, "Fatal: " + Render(caught) + ":")
  {
    PrefixStarts("Fatal: " + Render(caught) + ":", detail);
    Fatal("Fatal: " + Render(caught) + ":" + detail, REPORTED_EXIT_CODE)
  }

  /** `log_exception()`: one CRITICAL record about the caught Fatal; the process goes on. */
  function LogException(caught: Fatal, detail: string): (r: Report)
    ensures |r.records| == 1 && r.records[0].level == Critical
    ensures StartsWith(r.records[0].message, "(1) Fatal: " + Render(caught) + ":")
    ensures r.stderr == "" && r.exit == None
  {
    var text := Render(Wrap(caught, detail));
    WrappedText(caught, detail);
    PrefixStarts("(1) Fatal: " + Render(caught) + ":", detail);
    Report([LogRecord(Critical, text)], "", None)
  }

  /** The text of the wrapping Fatal, spelled out. */
  lemma WrappedText(caught: Fatal, detail: string)
    ensures Render(Wrap(caught, detail)) == "(1) Fatal: " + Render(caught) + ":" + detail
  {
    var code := IntToString(1);
    assert code == "1";
    Regroup("(" + code + ") ", "Fatal: ", Render(caught), ":", detail);
    assert "(" + code + ") " + "Fatal: " == "(1) Fatal: ";
  }

  // Proof helpers: regrouping string concatenations so the solver need not
  // search for the grouping that the next step matches. They model nothing.

  lemma Regroup(p: string, a: string, b: string, c: string, d: string)
    ensures p + (a + b + c + d) == p + a + b + c + d
  {
  }

  lemma Regroup4(a: string, b: string, c: string, d: string)
    ensures a + b + c + d == a + (b + c + d)
  {
  }

  lemma Regroup3(a: string, b: string, c: string)
    ensures a + b + c == a + (b + c)
  {
  }

  /** Proof helper: a string starts with its prefix, and the rest follows the prefix. */
  lemma PrefixStarts(prefix: string, rest: string)
    ensures StartsWith(prefix + rest, prefix)
    ensures (prefix + rest)[|prefix|..] == rest
  {
    assert (prefix + rest)[..|prefix|] == prefix;
  }

  /** `log_exception_and_exit()`: the same record, then exit 1 whatever the caught code. */
  function LogExceptionAndExit(caught: Fatal, detail: string): (r: Report)
    ensures |r.records| == 1 && r.records[0].level == Critical
    ensures StartsWith(r.records[0].message, "(1) Fatal: " + Render(caught) + ":")
    ensures r.stderr == "" && r.exit == Some(REPORTED_EXIT_CODE)
  {
    LogException(caught, detail).(exit := Some(REPORTED_EXIT_CODE))
  }

  /** `log_fatal_and_exit()`: one CRITICAL record reading as the Fatal, then exit with its own code. */
  function LogFatalAndExit(caught: Fatal): (r: Report)
    ensures |r.records| == 1 && r.records[0].level == Critical
    ensures ParseFatal(r.records[0].message) == Some(caught)
    ensures r.stderr == "" && r.exit == Some(caught.code)
  {
    RenderRoundTrip(caught);
    Report([LogRecord(Critical, Render(caught))], "", Some(caught.code))
  }

  /** `log_ctrlc_and_exit()`: a newline on standard error, one INFO record, exit 130. */
  function LogCtrlCAndExit(): (r: Report)
    ensures |r.records| == 1 && r.records[0].level == Info
    ensures ParseFatal(r.records[0].message) == Some(Fatal(HALTED_MESSAGE, INTERRUPT_EXIT_CODE))
    ensures r.stderr == "\n" && r.exit == Some(INTERRUPT_EXIT_CODE)
  {
    var halted := Fatal(HALTED_MESSAGE, INTERRUPT_EXIT_CODE);
    RenderRoundTrip(halted);
    Report([LogRecord(Info, Render(halted))], "\n", Some(INTERRUPT_EXIT_CODE))
  }

  /** `verify_root()`: raises the privilege Fatal unless the process is privileged. */
  function VerifyRoot(privileged: bool): (r: Option<Fatal>)
    ensures r.None? <==> privileged
    ensures r.Some? ==> r.value.code == NOT_ROOT_EXIT_CODE
  {
    if privileged then None else Some(Fatal(NOT_ROOT_MESSAGE, NOT_ROOT_EXIT_CODE))
  }

  /**
   * The line logged by `log_exception` holds both codes: read back, it is a
   * Fatal with code 1 whose message, after `"Fatal: "`, reads back as the
   * caught Fatal's code and message with the detail appended.
   */
  lemma NestedFatalReadsBack(caught: Fatal, detail: string)
    ensures var outer := ParseFatal(LogException(caught, detail).records[0].message);
      outer.Some? && outer.value.code == REPORTED_EXIT_CODE
      && StartsWith(outer.value.message, "Fatal: ")
      && ParseFatal(outer.value.message[|"Fatal: "|..]) == Some(Fatal(caught.message + ":" + detail, caught.code))
  {
    var wrapped := Wrap(caught, detail);
    var text := Render(caught);
    assert LogException(caught, detail).records[0].message == Render(wrapped);
    RenderRoundTrip(wrapped);
    var inner := Fatal(caught.message + ":" + detail, caught.code);
    assert wrapped.message == "Fatal: " + text + ":" + detail;
    AfterPrefix("Fatal: ", text, ":", detail);
    Regroup3(text, ":", detail);
    RenderAppend(caught, ":" + detail);
    assert wrapped.message[|"Fatal: "|..] == Render(inner);
    RenderRoundTrip(inner);
  }

  /** Proof helper: after its first piece, a string of four pieces is the other three. */
  lemma AfterPrefix(p: string, a: string, b: string, c: string)
    ensures StartsWith(p + a + b + c, p)
    ensures (p + a + b + c)[|p|..] == a + b + c
  {
    Regroup4(p, a, b, c);
    PrefixStarts(p, a + b + c);
  }
}

/**
 * The path a failed command takes: `exec_cmd_fail_hard` raises, the caller
 * hands the Fatal to `log_fatal_and_exit`, which raises `SystemExit` with
 * the Fatal's code.
 */
module ExitProtocol {
  import opened Options
  import opened Errors
  import opened Process
  import opened Reporting

  /**
   * A command that fails is reported with its own exit status as the
   * `SystemExit` code, and the one CRITICAL line logged reads back as that
   * status and the command's standard error, unchanged. A command that
   * succeeds raises nothing.
   */
  lemma FailedCommandExit(run: CommandResult)
    ensures run.status == 0 ==> FailHard(run) == Ok(run)
    ensures run.status != 0 ==>
      var r := LogFatalAndExit(FailHard(run).error);
      r.exit == Some(run.status)
      && |r.records| == 1 && r.records[0].level == Critical
      && ParseFatal(r.records[0].message) == Some(Fatal(run.stderr, run.status))
  {
    if run.status != 0 {
      assert FailHard(run).error == Fatal(run.stderr, run.status);
    }
  }
}
