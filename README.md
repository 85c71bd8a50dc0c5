# OpScripts utilities (v5): hostname validation, column layout, Fatal reporting

This project models the behaviour of the OpScripts utility library
`opscripts.utils.v5`, as pinned down by its test module `tests/utils_v5.py`.
The library itself is not part of this model. Every definition here follows
what those tests assert and the standards the validator follows. Where the
tests leave a choice open, the model's choice is named under "## Left out".
There are three parts:

- **`is_valid_hostname`** (`hostname.dfy`). It strips at most one trailing
  dot, then splits the name on dots. Each label must hold 1 to 63 letters,
  digits or hyphens, and must start and end with a letter or digit. This is
  the label syntax of RFC 1035 section 2.3.1, as relaxed by RFC 1123
  section 2.1. The name without its trailing dot must be at most 253
  characters (RFC 1035 section 2.3.4). A name made only of digits and dots is
  refused.
  - Splitting and joining are proved inverse to each other.
  - A valid name is proved to be exactly a dot-join of valid labels.
  - One bad label, or a second trailing dot, makes any name invalid.
  - Every hostname test is a lemma in `hostname_cases.dfy`, together with
    the loops the tests use to build their inputs.
- **`format_columns`** (`columns.dfy`). A cell is a string or an integer
  rendered as text. Each column is as wide as its widest cell. Each cell is
  padded with spaces to that width: `<` keeps the text at the start, `>` at
  the end. The cells of a row are joined by two spaces.
  - Every line has the same length.
  - Column `j` fills the same span of every line, with the text on its
    aligned side and spaces on the other.
  - The test's `DOC` table is reproduced exactly (`columns_cases.dfy`).
- **`Fatal` and its reporters** (`fatal.dfy`). A `Fatal` is a value
  `(message, code)`, rendered as `"(" + code + ") " + message`.
  - The rendering is proved to read back to the same Fatal, and only
    renderings read back at all: leading zeros and `-0` are refused.
  - `exec_cmd_fail_hard` is modelled as a decision over an already captured
    `(status, stdout, stderr)`.
  - Each reporter yields its log records, what it writes to standard error,
    and the code it hands to `SystemExit`.
  - The test cases are lemmas in `reporting_cases.dfy`.

What the reporters log, as the model has it:

- **`log_fatal_and_exit`.** Its one record is the rendered Fatal, such as
  `(2) test_log_fatal_and_exit` (lines 271-292).
- **`log_exception` and `log_exception_and_exit`.** Their record starts
  with `(1) Fatal: `, then the caught Fatal's text, then a colon, as in
  `(1) Fatal: (4) test_log_exception:` (lines 223-268). The tests assert
  only that prefix. The model reads it as the rendering of a wrapping
  Fatal with code 1 whose message is `Fatal: `, the caught Fatal's text, a
  colon and a free detail (`Reporting.Wrap`).

Two comments in the tests do not match their assertions:

- Line 259 says the exit status is 2, but line 264 asserts 1. The model
  uses 1.
- Line 123 says the overlong name has 260 characters. Twenty-six
  ten-character labels and 25 dots make 285. `HostnameCases.OverlongName`
  proves 285.

## Model

| member | source | states |
|---|---|---|
| Text.IntToString | tests/utils_v5.py:88-98 | `str(n)` for an integer cell: at least one character, no parenthesis, and a leading minus sign exactly when `n` is negative |
| Text.ParseInt | tests/utils_v5.py:292 | reads back only canonical integer texts (no leading zeros, no `-0`), and every text it reads back is `str` of its value |
| Text.IntRoundTrip | tests/utils_v5.py:88-98 | an integer cell's text, `str(n)`, reads back as `n` with an optional minus sign and digits only |
| Text.JoinWith | tests/utils_v5.py:96 | `sep.join(parts)`; JoinLength and JoinSlice state its length and where each part lands |
| Text.JoinLength | tests/utils_v5.py:96 | a join is as long as its parts plus one separator between each two |
| Text.JoinSlice | tests/utils_v5.py:96 | in a join, part `j` sits at its offset, followed by the separator unless it is the last part |
| Hostname.IsValidLabel | tests/utils_v5.py:143-179 | a valid label is non-empty, holds no dot, and neither starts nor ends with a hyphen |
| Hostname.IsValidHostname | tests/utils_v5.py:101-179 | a valid hostname holds 1 to 254 characters and is not made only of digits and dots; ValidDecomposes and ValidFromLabels give the exact characterisation |
| Hostname.StripTrailingDot | tests/utils_v5.py:101-119 | only one dot is removed, and only when the name ends with one; otherwise the name is unchanged |
| Hostname.Join | tests/utils_v5.py:127 | `".".join(labels)`; JoinSplit and SplitJoin prove it inverse to Split |
| Hostname.Split | tests/utils_v5.py:122-131 | `split(".")` yields at least one piece, and no piece contains a dot |
| Hostname.JoinSplit | tests/utils_v5.py:127 | joining the pieces of a split with dots gives back the string |
| Hostname.SplitJoin | tests/utils_v5.py:127 | splitting a dot-join of dot-free labels gives back the labels |
| Hostname.ValidDecomposes | tests/utils_v5.py:101-179 | a valid name is a dot-join of valid labels of at most 253 characters, optionally followed by one dot, and holds a character that is neither a dot nor a digit |
| Hostname.ValidLabelCount | tests/utils_v5.py:122-131 | a valid name has at most 127 labels |
| Hostname.ValidFromLabels | tests/utils_v5.py:101-110 | conversely, valid labels whose dot-join is at most 253 characters and not all digits make a valid name, with or without one trailing dot |
| Hostname.RejectsInvalidLabel | tests/utils_v5.py:143-179 | one label that is empty, longer than 63 characters, badly delimited or holding a character other than a letter, digit or hyphen makes the name invalid |
| Hostname.RejectsEmptyLabel | tests/utils_v5.py:113-119 | an empty label, as between two dots, makes the name invalid |
| Hostname.RejectsLongLabel | tests/utils_v5.py:143-152 | a label longer than 63 characters makes the name invalid |
| Hostname.RejectsTwoTrailingDots | tests/utils_v5.py:113-119 | no name followed by two dots is valid |
| Hostname.TrailingDotIrrelevant | tests/utils_v5.py:101-110 | for a name not ending in a dot, adding one dot never changes the verdict |
| HostnameCases.LongestLabel | tests/utils_v5.py:102-105 | 63 `a`s form a valid label of the maximum length |
| HostnameCases.TooLongLabel | tests/utils_v5.py:144-147 | 64 `a`s form a label that is not valid |
| HostnameCases.OverlongName | tests/utils_v5.py:123-127 | 26 labels `a123456789` joined by dots make 285 characters, and every label is valid |
| HostnameCases.OneTrailingDotAccepted | tests/utils_v5.py:101-110 | 63 `a`s followed by `.example.com.` is valid |
| HostnameCases.TwoTrailingDotsRejected | tests/utils_v5.py:113-119 | `example.com..` is invalid |
| HostnameCases.TooLongRejected | tests/utils_v5.py:122-131 | the 285-character name is invalid although all its labels are valid |
| HostnameCases.NumericNameSplit | tests/utils_v5.py:134-140 | `127.0.0.1` splits into the labels `127`, `0`, `0`, `1` |
| HostnameCases.AllNumericRejected | tests/utils_v5.py:134-140 | every label of `127.0.0.1` is valid, yet the name is invalid |
| HostnameCases.MixedNumericAccepted | tests/utils_v5.py:134-140 | `a.1` holds a letter, so it is not numeric, and it is valid |
| HostnameCases.LabelTooLongRejected | tests/utils_v5.py:143-152 | 64 `a`s followed by `.example.com` is invalid |
| HostnameCases.LeadingHyphenRejected | tests/utils_v5.py:155-161 | `-bad.example.com` is invalid |
| HostnameCases.TrailingHyphenRejected | tests/utils_v5.py:164-170 | `bad-.example.com` is invalid |
| HostnameCases.IllegalCharRejected | tests/utils_v5.py:173-179 | `greater>than.example.com` is invalid |
| HostnameCases.Repeat | tests/utils_v5.py:102-105 | appending `x` to an empty list `n` times gives `n` copies of `x` |
| HostnameCases.OneTrailingDotHostname | tests/utils_v5.py:102-110 | the hostname built by the test's loop is 63 `a`s followed by `.example.com.`, and it is valid |
| HostnameCases.LabelTooLongHostname | tests/utils_v5.py:144-152 | the hostname built by the test's loop is 64 `a`s followed by `.example.com`, and it is invalid |
| HostnameCases.OverlongHostname | tests/utils_v5.py:123-131 | the hostname built by the test's loop is the 285-character name, and it is invalid |
| Columns.Render | tests/utils_v5.py:88-98 | an integer cell's text reads back as that integer |
| Columns.Pad | tests/utils_v5.py:88-98 | a padded cell is as wide as the column, or as the text if the text is wider |
| Columns.PadLayout | tests/utils_v5.py:88-98 | `<` keeps the text at the start and `>` at the end, with spaces in the rest |
| Columns.ColumnWidthIsWidest | tests/utils_v5.py:21-27 | a column's width is at least each of its cells' widths and equals one of them; it is 0 when there are no rows |
| Columns.ColumnWidth | tests/utils_v5.py:21-27 | the width of column `j`; ColumnWidthIsWidest proves it is the widest of the column's cells |
| Columns.Widths | tests/utils_v5.py:88-98 | there is one width per column, and each is that column's widest cell |
| Columns.PaddedCells | tests/utils_v5.py:88-98 | each cell is padded to its column's width on the side its flag gives |
| Columns.FormatRow | tests/utils_v5.py:88-98 | one row's padded cells joined by two spaces; RowLayout states where each cell and gap lands |
| Columns.FormatColumns | tests/utils_v5.py:88-98 | there is one line per row: the row's padded cells joined by two spaces; ColumnLayout states where each column lands in every line |
| Columns.RowLayout | tests/utils_v5.py:21-27 | in a row whose cells fit, cell `j` fills the span at its column's start, followed by the gap unless it is the last |
| Columns.CellsFit | tests/utils_v5.py:21-27 | every cell fits the width of its column |
| Columns.ColumnLayout | tests/utils_v5.py:21-27 | every line has the same length; column `j` spans the same characters in every line, with left-aligned text at the start, right-aligned text at the end, spaces in the rest, and two spaces after it unless it is the last column |
| ColumnsCases.DocRows | tests/utils_v5.py:90-94 | the test's five rows have three cells each |
| ColumnsCases.DocWidths | tests/utils_v5.py:21-27 | the column widths of the test table are 10, 5 and 9 |
| ColumnsCases.DocExample | tests/utils_v5.py:88-98 | with flags `<`, `>`, `>`, the formatted rows joined by newlines equal `DOC` exactly |
| Errors.Render | tests/utils_v5.py:271-303 | `str(Fatal)` starts with `(` and ends with the message, word for word |
| Errors.ParseFatal | tests/utils_v5.py:271-292 | whatever a text reads back as, the text is exactly that Fatal's rendering |
| Errors.RenderRoundTrip | tests/utils_v5.py:295-303 | reading a rendered Fatal back gives the same message and code |
| Errors.ParseExactlyRenderings | tests/utils_v5.py:271-292 | a text reads back as a Fatal if and only if it is that Fatal's rendering |
| Errors.RenderInjective | tests/utils_v5.py:295-303 | two Fatals with the same text are equal |
| Errors.RenderAppend | tests/utils_v5.py:223-242 | text after a rendered Fatal extends its message and keeps its code |
| Process.FailHard | tests/utils_v5.py:56-85 | status 0 returns the captured result unchanged; any other status raises a Fatal with that status as its code and the captured stderr as its message |
| Reporting.Wrap | tests/utils_v5.py:223-268 | the wrapping Fatal has code 1, and its message starts with `Fatal: `, the caught Fatal's text and a colon |
| Reporting.LogException | tests/utils_v5.py:223-242 | one CRITICAL record starting `(1) Fatal: <caught Fatal>:`, nothing on stderr, no exit |
| Reporting.LogExceptionAndExit | tests/utils_v5.py:245-268 | the same single CRITICAL record, nothing on stderr, then exit 1 whatever the caught code |
| Reporting.LogFatalAndExit | tests/utils_v5.py:271-292 | one CRITICAL record that reads back as the caught Fatal, which makes it exactly `str(caught)` (Errors.ParseFatal), nothing on stderr, then exit with the Fatal's own code |
| Reporting.LogCtrlCAndExit | tests/utils_v5.py:182-199 | a newline on stderr, one INFO record that reads back as code 130 with the halt message, then exit 130 |
| Reporting.VerifyRoot | tests/utils_v5.py:295-303 | raises exactly when not privileged, with code 77 |
| Reporting.WrappedText | tests/utils_v5.py:223-268 | the wrapping Fatal renders as `(1) Fatal: `, then the caught Fatal's text, a colon and the detail |
| Reporting.NestedFatalReadsBack | tests/utils_v5.py:223-268 | the line logged by `log_exception` reads back as code 1, and after `Fatal: ` it reads back as the caught code and message followed by the detail |
| ExitProtocol.FailedCommandExit | tests/utils_v5.py:56-85 | a failed command's status becomes the `SystemExit` code, and its one CRITICAL line reads back as, and so is exactly the rendering of, that status and its stderr; a successful command raises nothing |
| ReportingCases.FailHardSuccessCase | tests/utils_v5.py:71-85 | status 0 with `This is output` / `This is error` comes back unchanged |
| ReportingCases.FailHardFailCase | tests/utils_v5.py:56-67 | status 1 raises `Fatal("This is error", 1)` |
| ReportingCases.CtrlCCase | tests/utils_v5.py:182-199 | the Ctrl-C report is exactly one INFO record `(130) Halted via KeyboardInterrupt.`, stderr `\n`, and exit 130 |
| ReportingCases.LogExceptionCase | tests/utils_v5.py:223-242 | after `Fatal("test_log_exception", 4)`: one CRITICAL record starting `(1) Fatal: (4) test_log_exception:`, no stderr, no exit |
| ReportingCases.LogExceptionAndExitCase | tests/utils_v5.py:245-268 | after `Fatal("test_log_exception_and_exit", 3)`: one CRITICAL record starting `(1) Fatal: (3) test_log_exception_and_exit:`, no stderr, exit 1 |
| ReportingCases.LogFatalAndExitCase | tests/utils_v5.py:271-292 | after `Fatal("test_log_fatal_and_exit", 2)`: exactly one CRITICAL record `(2) test_log_fatal_and_exit`, no stderr, exit 2 |
| ReportingCases.VerifyRootCase | tests/utils_v5.py:295-303 | an unprivileged caller gets `(77) Must be root or equivalent (ex. sudo).` |

## Left out

- **Running commands.**
  - Not modelled: starting a process, dropping to a uid/gid, the working
    directory, reading the pipes and waiting for the child.
  - `exec_cmd_debug` (lines 38-52) runs a real `pwd`, so there is nothing
    to prove about it.
  - `exec_cmd_fail_hard` receives the captured `(status, stdout, stderr)`
    as a value, `Process.CommandResult`.
  - The mocked `Popen` of lines 30-35 is that value.
- **Ending the process and handling signals.**
  - `SystemExit` and the wiring of `KeyboardInterrupt` are not modelled.
    The exit code is a field of `Reporting.Report`.
  - Reporters that exit are modelled as returning their report, so nothing
    in the model runs after them.
  - The exit field is the code handed to `SystemExit`, which the tests read
    back. The operating system keeps only its low 8 bits as the process
    status, so a command killed by a signal (status `-9`) would end the
    process with 247, and a code of 256 with 0. That reduction is not
    modelled.
- **The logging library.**
  - Not modelled: the fallback "No handlers could be found" line printed
    when the root handler is removed (lines 202-220), and the capture
    through `capfd`/`caplog`. These belong to Python's logging library.
  - Records are modelled as a list of level and message pairs, which is
    what the tests inspect.
- **Traceback detail.**
  - `Reporting.LogException`, `Reporting.LogExceptionAndExit`: whatever the
    record's message holds after the colon is the free parameter `detail`.
    The tests check only the prefix up to the colon.
- Process.FailHard: the tests (lines 56-67) check only that a `Fatal` is
  raised for a non-zero status. That its code is the status and its message
  the captured standard error is the model's choice.
- **Exceptions that are not `Fatal`.** The reporters are modelled only for
  a caught `Fatal`, the only kind the tests raise.
- **`verify_root`'s privilege check.** Reading the effective user id is
  left out. Whether the process is privileged is a parameter of
  `Reporting.VerifyRoot`.
- **Column layout choices the tests leave open.**
  - Every cell is padded, including the last column's. A left-aligned last
    column would therefore end in spaces. The `DOC` test right-aligns its
    last column, so it cannot tell.
  - Rows of unequal length, flags other than `<` and `>`, and centred
    alignment are not modelled. Rows must have one cell per flag.
- **Determinism.** `Hostname.IsValidHostname` is a function of the string
  alone, so two calls on the same name always agree. No separate lemma is
  needed.
- Hostname.IsValidHostname: the model refuses a name as numeric only when
  every character is a digit or a dot. So `a.1` is accepted. A rule on the
  last label alone, as RFC 1123 section 2.1 reasons ("the highest-level
  component label will be alphabetic"), would refuse it. The test of lines
  134-140 uses only `127.0.0.1`, which both rules refuse.
- **Non-ASCII names.** The model accepts only the ASCII letters and digits
  of RFC 1035. The tests use only ASCII, so they do not show how other
  characters are treated.
