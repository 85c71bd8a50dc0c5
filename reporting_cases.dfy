/** The command-execution and reporting cases of the test suite, each proved of the model. */
module ReportingCases {
  import opened Options
  import opened Text
  import opened Errors
  import opened Process
  import opened Reporting

  /** A mocked command that exits 0 comes back from `exec_cmd_fail_hard` as it ran. */
  lemma FailHardSuccessCase()
    ensures FailHard(CommandResult(0, "This is output", "This is error"))
      == Ok(CommandResult(0, "This is output", "This is error"))
  {
  }

  /** A mocked command that exits 1 makes `exec_cmd_fail_hard` raise a Fatal. */
  lemma FailHardFailCase()
    ensures FailHard(CommandResult(1, "This is output", "This is error"))
      == Err(Fatal("This is error", 1))
  {
  }

  /** Proof helper: the code rendered in each case. */
  lemma CodeTexts()
    ensures IntToString(1) == "1" && IntToString(2) == "2" && IntToString(3) == "3" && IntToString(4) == "4"
  {
  }

  /** Proof helper: the two-digit and three-digit codes rendered. */
  lemma LongCodeTexts()
    ensures IntToString(77) == "77" && IntToString(130) == "130"
  {
    assert NatToString(7) == "7" && NatToString(13) == "13";
  }

  /**
   * Proof helper. A Fatal whose code renders as `code` reads as `(code) ` and its message,
   * and the record `log_exception` makes of it as `(1) Fatal: (code) `, the
   * message and a colon, then the detail.
   */
  lemma RenderWith(f: Fatal, code: string)
    requires IntToString(f.code) == code
    ensures Render(f) == ("(" + code + ") ") + f.message
    ensures "(1) Fatal: " + Render(f) + ":" == ("(1) Fatal: " + ("(" + code + ") ")) + f.message + ":"
  {
  }

  // The expected texts below are the test's literals, written as the rendered
  // code followed by the message.

  /** `log_ctrlc_and_exit`: one newline on standard error, one INFO record, exit 130. */
  lemma CtrlCCase()
    ensures LogCtrlCAndExit()
      == Report([LogRecord(Info, "(130) " + "Halted via KeyboardInterrupt.")], "\n", Some(130))
  {
    LongCodeTexts();
    RenderWith(Fatal(HALTED_MESSAGE, INTERRUPT_EXIT_CODE), "130");
    assert "(" + "130" + ") " == "(130) ";
  }

  /** `log_exception` after `Fatal("test_log_exception", 4)`: one CRITICAL record, no exit. */
  lemma LogExceptionCase(caught: Fatal, detail: string)
    requires caught == Fatal("test_log_exception", 4)
    ensures var r := LogException(caught, detail);
      |r.records| == 1 && r.records[0].level == Critical
      && StartsWith(r.records[0].message, "(1) Fatal: (4) " + "test_log_exception" + ":")
      && r.stderr == "" && r.exit == None
  {
    CodeTexts();
    RenderWith(caught, "4");
    assert "(1) Fatal: " + ("(" + "4" + ") ") == "(1) Fatal: (4) ";
  }

  /** `log_exception_and_exit` after `Fatal("test_log_exception_and_exit", 3)`: exit 1, not 3. */
  lemma LogExceptionAndExitCase(caught: Fatal, detail: string)
    requires caught == Fatal("test_log_exception_and_exit", 3)
    ensures var r := LogExceptionAndExit(caught, detail);
      |r.records| == 1 && r.records[0].level == Critical
      && StartsWith(r.records[0].message, "(1) Fatal: (3) " + "test_log_exception_and_exit" + ":")
      && r.stderr == "" && r.exit == Some(1)
  {
    CodeTexts();
    RenderWith(caught, "3");
    assert "(1) Fatal: " + ("(" + "3" + ") ") == "(1) Fatal: (3) ";
  }

  /** `log_fatal_and_exit` after `Fatal("test_log_fatal_and_exit", 2)`: the record is the Fatal's text, exit 2. */
  lemma LogFatalAndExitCase(caught: Fatal)
    requires caught == Fatal("test_log_fatal_and_exit", 2)
    ensures LogFatalAndExit(caught)
      == Report([LogRecord(Critical, "(2) " + "test_log_fatal_and_exit")], "", Some(2))
  {
    CodeTexts();
    RenderWith(caught, "2");
    assert "(" + "2" + ") " == "(2) ";
  }

  /** `verify_root` as an unprivileged user raises `(77) Must be root or equivalent (ex. sudo).` */
  lemma VerifyRootCase(raised: Option<Fatal>)
    requires raised == VerifyRoot(false)
    ensures raised.Some?
    ensures Render(raised.value) == "(77) " + "Must be root or equivalent (ex. sudo)."
  {
    LongCodeTexts();
    RenderWith(raised.value, "77");
    assert "(" + "77" + ") " == "(77) ";
  }
}
