# coala `Linter` adapter — a Dafny model

coala's `Linter(executable, **options)` is a class decorator. It turns a
plain handler class into a bear that runs a command-line analysis tool on a
file and converts the tool's output into coala `Result`s. This project
models the behaviour that the repository's `LinterTest.py` pins down:

- **Validation** (`validation.dfy`): the decorator checks the option set
  once, when the adapter is defined, and either builds the configuration or
  raises `ValueError`. A correcting adapter (`provides_correction`) may not
  have an `output_regex` or a `severity_map`. A pattern adapter needs an
  `output_regex` and may not have `diff_severity` or `diff_message`. Unknown
  keyword arguments are rejected. `get_executable` returns the executable
  unchanged.
- **Prerequisites** (`prerequisites.dfy`): `check_prerequisites` returns true,
  or exactly `"'<executable>' is not installed."`.
- **Routing** (`routing.dfy`):
  - `_grab_output` picks stderr or stdout according to `use_stderr`.
  - `_pass_file_as_stdin_if_needed` gives the file or `None` according to
    `use_stdin`.
  - `_create_config` gives nothing when the handler has no
    `generate_config`. Otherwise it gives a temporary file holding the
    generated text verbatim.
- **Output processing** (`extraction.dfy`): `_process_output` turns each
  regex match into one `Result`, in order. Positions are parsed as integers.
  `message` is copied. `origin` is copied, or is the linter itself when the
  regex has no `origin` group. The severity is looked up in the user's
  `severity_map`, or in the default map `error`/`warning`/`info` ↦
  MAJOR/NORMAL/MINOR. A match is a record of the named groups it captured;
  there is no general regex engine.
- **Issue-line matcher** (`issue_lines.dfy`): a hand-written matcher for
  the test suite's issue-line regex with the regex's greedy semantics. It is
  proved to read a printed issue back when the issue is printable: no
  newline in its message, severity or origin, no ` (` in its severity, and
  no `) -> ORIGIN=` in its origin. For other issues the greedy groups split
  the line elsewhere. It also gives the exact expected results for the test
  suite's sample output.
- **Run** (`orchestration.dfy`): `run` composes the steps above. The
  subprocess, the regex engine and the correction strategy are function
  parameters.

Two decisions of the model rest on the tests:

- The severity label is looked up exactly as printed. The labels printed at
  `LinterTest.py:84-86` are spelled as the keys of the default map, and the
  regex at `LinterTest.py:171-174` with the map `{"MAJOR": MAJOR}` at line
  175 needs the printed label `MAJOR`. The test at `LinterTest.py:338-371`
  passes no `severity_map` and expects MAJOR. Under exact lookup in the
  default map, it agrees only if the test tool prints `error` in its
  `--config` mode, and that tool is not part of this model.
- When neither `provides_correction` nor `output_regex` is given,
  construction fails. Every pattern adapter in the tests passes
  `output_regex`, even the empty one, and the configuration holds exactly
  one of the two strategies.

## Model

| member | source | states |
|---|---|---|
| `LinterTypes.DefaultSeverityMap` | coalib/tests/bearlib/abstractions/LinterTest.py:84-120 | The default map has exactly the labels `error`, `warning`, `info`, mapped to MAJOR, NORMAL, MINOR |
| `Validation.Validate` | coalib/tests/bearlib/abstractions/LinterTest.py:31-49 | Construction succeeds iff the option set is acceptable: no unknown option; correction excludes `output_regex` and `severity_map`; a pattern adapter has `output_regex` and no diff option. Each of the rejected combinations fails. On success the executable, `use_stdin` and `use_stderr` are kept, and the strategy carries the given regex and map, or the default map when none was given |
| `Validation.Decorate` | coalib/tests/bearlib/abstractions/LinterTest.py:51-53 | Decorating a handler succeeds exactly for acceptable options, and the bear keeps the handler and the validated configuration |
| `Validation.GetExecutableRoundTrip` | coalib/tests/bearlib/abstractions/LinterTest.py:51-53 | `get_executable` of a decorated handler is the executable string given to `Linter` |
| `Validation.RejectedOptionSets` | coalib/tests/bearlib/abstractions/LinterTest.py:31-49 | `invalid_arg`, lone `diff_severity`, lone `diff_message`, `provides_correction` with `output_regex`, and `provides_correction` with `severity_map` are all rejected |
| `Validation.AcceptedOptionSets` | coalib/tests/bearlib/abstractions/LinterTest.py:311-316 | Accepted: `output_regex` alone (with any `use_stdin`/`use_stderr`), `output_regex` with `severity_map` (lines 194-196), `provides_correction` alone (line 277), and `provides_correction` with `diff_severity` and `diff_message` |
| `Prerequisites.CheckPrerequisites` | coalib/tests/bearlib/abstractions/LinterTest.py:55-62 | True iff the executable is found; otherwise the reason is `"'" + executable + "' is not installed."`, from which the executable can be read back |
| `Prerequisites.NotInstalledMessage` | coalib/tests/bearlib/abstractions/LinterTest.py:61-62 | The reason is one quote, the executable and the fixed suffix, so its length is the executable's plus 20 |
| `Prerequisites.NotInstalledMessageNamesExecutable` | coalib/tests/bearlib/abstractions/LinterTest.py:59-62 | The executable is recovered verbatim from the reason, which ends in `' is not installed.` |
| `Prerequisites.NotInstalledMessageInjective` | coalib/tests/bearlib/abstractions/LinterTest.py:59-62 | Different executables never give the same reason |
| `Prerequisites.MissingProgramReason` | coalib/tests/bearlib/abstractions/LinterTest.py:59-62 | For `invalid_nonexisting_programv412` the reason is exactly `'invalid_nonexisting_programv412' is not installed.` |
| `Routing.GrabOutput` | coalib/tests/bearlib/abstractions/LinterTest.py:129-136 | The stream parsed is stderr when `use_stderr` is set and stdout when it is not |
| `Routing.PassFileAsStdinIfNeeded` | coalib/tests/bearlib/abstractions/LinterTest.py:138-145 | The file is passed unchanged iff `use_stdin` is set; otherwise `None` |
| `Routing.CreateConfig` | coalib/tests/bearlib/abstractions/LinterTest.py:147-161 | There is no config file iff the handler has no `generate_config`; otherwise the file at the temporary path holds the generated text verbatim, generated from the same file name, file and settings |
| `Routing.CreateConfigExamples` | coalib/tests/bearlib/abstractions/LinterTest.py:147-161 | The empty handler gets `None`; a handler generating `"config_value = " + val` with `val=88` gets a file holding `config_value = 88` |
| `Extraction.ParseInt` | coalib/tests/bearlib/abstractions/LinterTest.py:97-120 | A captured position parses exactly when it is a non-empty string of decimal digits |
| `Extraction.ParseIntNatToString` | coalib/tests/bearlib/abstractions/LinterTest.py:97-120 | Parsing the printed form of any natural number gives that number back |
| `Extraction.ParseIntZeroPadded` | coalib/tests/bearlib/abstractions/LinterTest.py:97-120 | Leading zeros do not change the value: any number of zeros followed by the printed form of `n` parses to `n`, as `int("07") == 7` |
| `Extraction.NumeralIsZeroPadded` | coalib/tests/bearlib/abstractions/LinterTest.py:97-120 | Every numeral is some zeros followed by the printed form of its value, so with `ParseIntZeroPadded` the value `ParseInt` gives is fixed on every numeral |
| `Extraction.Position` | coalib/tests/bearlib/abstractions/LinterTest.py:97-120 | An absent position group stays absent; a present one parses to its value or fails naming the group and its text |
| `Extraction.ToDiagnostic` | coalib/tests/bearlib/abstractions/LinterTest.py:96-120 | A match converts iff its positions are numerals, it has a message, and its severity label is in the map. Then the `Result` has the file name, the message, the named origin (or the linter itself when there is no `origin` group), the mapped severity and the four parsed positions |
| `Extraction.ProcessOutput` | coalib/tests/bearlib/abstractions/LinterTest.py:83-122 | One `Result` per match, in match order, each the conversion of its match; if any match fails, the error is that of the first failing match |
| `Extraction.ProcessOutputAppend` | coalib/tests/bearlib/abstractions/LinterTest.py:84-96 | Processing two stretches of matches one after the other gives the first's results followed by the second's; an error in the first wins |
| `Extraction.UserSeverityMapExample` | coalib/tests/bearlib/abstractions/LinterTest.py:194-226 | With `severity_map = {"MAJOR": MAJOR}` and no origin group, the three invalid-char matches give MAJOR results whose origin is the linter |
| `IssueLines.SplitTailOfIssue` | coalib/tests/bearlib/abstractions/LinterTest.py:89-90 | The greedy `message` and `severity` groups split ` (…) -> ORIGIN=` exactly where the line was joined, when the severity has no ` (` and the origin has no `) -> ORIGIN=` |
| `IssueLines.MatchAtFormatIssue` | coalib/tests/bearlib/abstractions/LinterTest.py:84-90 | The regex matches the printed line of a printable issue (no newline in message, severity or origin; no ` (` in the severity; no `) -> ORIGIN=` in the origin) from its first character and captures each field as printed |
| `IssueLines.ScanFormatReport` | coalib/tests/bearlib/abstractions/LinterTest.py:84-96 | Scanning a report of printable issues (no newline in message, severity or origin; no ` (` in the severity; no `) -> ORIGIN=` in the origin), one per line, gives one match per issue in report order |
| `IssueLines.ReportRoundTrip` | coalib/tests/bearlib/abstractions/LinterTest.py:83-122 | Scanning and processing a printed report gives back every issue, in order, with its positions, message, origin, mapped severity and the file name, provided each issue is printable (no newline in message, severity or origin; no ` (` in the severity; no `) -> ORIGIN=` in the origin) and its severity is a key of the map |
| `IssueLines.SampleOutputDiagnostics` | coalib/tests/bearlib/abstractions/LinterTest.py:83-122 | The test's three-line output gives exactly the expected three `Result`s (X/12:4-14:0/MAJOR, Y/0:0-0:1/NORMAL, Z/813:77-1024:32/MINOR) |
| `Orchestration.Command` | coalib/tests/bearlib/abstractions/LinterTest.py:185-192 | The command is the executable followed by `create_arguments(filename, file, config_file, settings)`, where `config_file` is `None` iff the handler has no `generate_config`; there is no command without `create_arguments` |
| `Orchestration.Run` | coalib/tests/bearlib/abstractions/LinterTest.py:185-200 | `run` fails for want of `create_arguments` exactly when the handler has none |
| `Orchestration.RunProcessesSelectedStream` | coalib/tests/bearlib/abstractions/LinterTest.py:228-266 | For a pattern adapter, `run` yields exactly what output processing makes of the regex's matches in the selected stream, and reports its error otherwise |
| `Orchestration.SelectedOutput` | coalib/tests/bearlib/abstractions/LinterTest.py:129-145 | When there is a command, the text parsed is the tool's stderr if `use_stderr` is set and its stdout otherwise, for the tool run on that command with the file as stdin exactly when `use_stdin` is set |
| `Orchestration.RunSeesFileOnlyThroughStdin` | coalib/tests/bearlib/abstractions/LinterTest.py:228-266 | A tool that reports issues read from its stdin yields exactly those issues' diagnostics (or their extraction error) when `use_stdin` is set, and no diagnostic when it is not |
| `Orchestration.RunIgnoresOtherStream` | coalib/tests/bearlib/abstractions/LinterTest.py:129-136 | Tools that agree on the stream the adapter reads give the same diagnostics, whatever they print on the other stream |
| `Orchestration.RunIndependentOfStdinForStdinBlindTool` | coalib/tests/bearlib/abstractions/LinterTest.py:138-145 | Turning `use_stdin` on or off does not change the result for a tool whose output ignores stdin |
| `Orchestration.RunOriginDefaultsToLinter` | coalib/tests/bearlib/abstractions/LinterTest.py:200-224 | When the regex has no `origin` group, every result of a successful run names the linter itself as origin and carries the file name |
| `Orchestration.SampleRun` | coalib/tests/bearlib/abstractions/LinterTest.py:92-122 | Through the whole of `run`, with the issue-line regex of lines 87-90 (`IssueLines.IssueRegex`, matched by `ScanIssues`) and the default map, a tool printing the sample output on the stream the adapter reads yields the three expected results, for every `use_stdin`/`use_stderr` setting |

## Left out

- `_execute_command` and the subprocess are not modelled. `run` takes the tool as a function from the command line and optional stdin to (stdout, stderr). Text decoding, exit codes and process start failures are not modelled.
- The lifetime of the temporary config file is not modelled: its creation, its unique name and its deletion after the `with` block. The path is a parameter. Only the file's content and whether there is a file are modelled.
- The correction strategy is not modelled: diffing the corrected output against the file, and the `diff_severity`/`diff_message` defaults. Its tests are unfinished, and their expected results depend on files that are not part of this model. `run` takes the strategy as a function parameter, and the configuration keeps `diff_severity` and `diff_message` as given.
- Forwarding section settings to the handler is not modelled. Settings are passed through unchanged to `generate_config` and `create_arguments`. Where the values come from is not part of this model.
- Python's regex engine is not modelled. `run` takes `re.finditer` as a function parameter. The only concrete matcher is for the issue-line regex.
- `IssueLines.MatchAtFormatIssue`: covers only lines printed from printable issues (no newline in message, severity or origin; no ` (` in the severity; no `) -> ORIGIN=` in the origin), with ASCII digits only. For other issues the regex splits the line elsewhere or the line breaks apart. Python's `\d` also matches other Unicode decimal digits.
- `Extraction.ParseInt`: accepts only non-empty ASCII digit strings. A `\d+` group can capture other Unicode decimal digits, which `int` accepts and the model rejects. A sign, surrounding whitespace or (from Python 3.6) underscores reach `int` only through a group that is not `\d+`.
- `Prerequisites.CheckPrerequisites`: executable lookup is a predicate parameter. That covers the direct check of a path and the search of the executable search path.
- Severity labels are looked up case-sensitively. The lifelike test at `LinterTest.py:338-371` has no `severity_map` and expects MAJOR. Under the default map that holds only if the tool prints `error`; `test_linter.py` is not part of this model.
- Type checks on option values are not modelled: options are a typed record. Decorator options that no test uses (such as a config suffix) are not modelled either.
- `_process_output` is a generator. The model returns the list it produces once collected. The partial results yielded before an error are not modelled: collecting the list discards them.
