/**
 * `run(filename, file, **settings)`: the composition of the adapter's steps
 * for one file. The subprocess, the regex engine and the correction strategy
 * are parameters: what they do is outside this model.
 */
module Orchestration {
  import opened Wrappers
  import opened LinterTypes
  import opened Routing
  import opened Extraction
  import opened IssueLines

  /** The process boundary: the command line and optional stdin give (stdout, stderr). */
  type Executor = (seq<string>, Option<seq<string>>) -> (string, string)

  /** The regex engine: the matches `re.finditer(regex, text)` yields, in order. */
  type Finder = (string, string) -> seq<Match>

  /** The correction strategy: the corrected output, the file name and the file give diagnostics. */
  type Corrector = (string, string, seq<string>) -> seq<Diagnostic>

  /** Why `run` raised. */
  datatype RunError = NoCreateArguments | ExtractionFailed(error: ExtractionError)

  /**
   * The command line `run` executes: the executable followed by the
   * handler's arguments. `create_arguments` is handed `None` as its config
   * file exactly when the handler has no `generate_config`, and otherwise the
   * path of the temporary file the generated config was written to.
   */
  function Command(bear: LinterBear, filename: string, file: seq<string>, settings: Settings,
                   tempPath: string): (r: Option<seq<string>>)
    ensures r.None? <==> bear.handler.createArguments.None?
    ensures r.Some? ==> |r.value| >= 1 && r.value[0] == bear.config.executable
    ensures r.Some? ==> r.value[1..] == bear.handler.createArguments.value(
      filename, file, if bear.handler.generateConfig.None? then None else Some(tempPath), settings)
  {
    match bear.handler.createArguments
    case None => None
    case Some(createArguments) =>
      var configFile := CreateConfig(bear.handler, filename, file, settings, tempPath);
      var args := createArguments(filename, file, ConfigPath(configFile), settings);
      assert ([bear.config.executable] + args)[1..] == args;
      Some([bear.config.executable] + args)
  }

  /** The stream a tool's run is parsed from: stderr when `use_stderr` is set, else stdout. */
  function SelectedOutput(bear: LinterBear, filename: string, file: seq<string>, settings: Settings,
                          tempPath: string, execute: Executor): (o: Option<string>)
    ensures o.Some? <==> bear.handler.createArguments.Some?
    ensures o.Some? ==>
      var streams := execute(Command(bear, filename, file, settings, tempPath).value,
                             PassFileAsStdinIfNeeded(bear.config, file));
      o.value == (if bear.config.useStderr then streams.1 else streams.0)
  {
    match Command(bear, filename, file, settings, tempPath)
    case None => None
    case Some(argv) =>
      var streams := execute(argv, PassFileAsStdinIfNeeded(bear.config, file));
      Some(GrabOutput(bear.config, streams.0, streams.1))
  }

  /** The diagnostics `run` yields for one file, or why it raised. */
  function Run(bear: LinterBear, filename: string, file: seq<string>, settings: Settings, tempPath: string,
               execute: Executor, finditer: Finder, correct: Corrector): (r: Result<seq<Diagnostic>, RunError>)
    ensures r == Failure(NoCreateArguments) <==> bear.handler.createArguments.None?
  {
    match SelectedOutput(bear, filename, file, settings, tempPath, execute)
    case None => Failure(NoCreateArguments)
    case Some(output) =>
      match bear.config.strategy
      case Pattern(regex, severityMap) =>
        (match ProcessOutput(severityMap, filename, finditer(regex, output))
         case Success(ds) => Success(ds)
         case Failure(e) => Failure(ExtractionFailed(e)))
      case Correction(_, _) => Success(correct(output, filename, file))
  }

  /**
   * For a pattern adapter, `run` yields exactly what `_process_output` makes
   * of the regex's matches in the selected stream; the other stream is never
   * looked at.
   */
  lemma RunProcessesSelectedStream(
    bear: LinterBear, filename: string, file: seq<string>, settings: Settings, tempPath: string,
    execute: Executor, finditer: Finder, correct: Corrector)
    requires bear.config.strategy.Pattern? && bear.handler.createArguments.Some?
    ensures var output := SelectedOutput(bear, filename, file, settings, tempPath, execute).value;
            var sm := bear.config.strategy.severityMap;
            var expected := ProcessOutput(sm, filename, finditer(bear.config.strategy.outputRegex, output));
            var r := Run(bear, filename, file, settings, tempPath, execute, finditer, correct);
            && (r.Success? <==> expected.Success?)
            && (r.Success? ==> r.value == expected.value)
            && (r.Failure? ==> r.error == ExtractionFailed(expected.error))
  {
  }

  /**
   * Two tools that print the same text on the stream the adapter reads give
   * the same diagnostics, whatever they print on the other stream.
   */
  lemma RunIgnoresOtherStream(
    bear: LinterBear, filename: string, file: seq<string>, settings: Settings, tempPath: string,
    execute1: Executor, execute2: Executor, finditer: Finder, correct: Corrector)
    requires SelectedOutput(bear, filename, file, settings, tempPath, execute1)
          == SelectedOutput(bear, filename, file, settings, tempPath, execute2)
    ensures Run(bear, filename, file, settings, tempPath, execute1, finditer, correct)
         == Run(bear, filename, file, settings, tempPath, execute2, finditer, correct)
  {
  }

  /**
   * Whether the file goes to stdin changes nothing for a tool whose output
   * does not depend on its stdin.
   */
  lemma RunIndependentOfStdinForStdinBlindTool(
    bear: LinterBear, filename: string, file: seq<string>, settings: Settings, tempPath: string,
    execute: Executor, finditer: Finder, correct: Corrector)
    requires forall argv, a, b :: execute(argv, a) == execute(argv, b)
    ensures Run(bear, filename, file, settings, tempPath, execute, finditer, correct)
         == Run(bear.(config := bear.config.(useStdin := !bear.config.useStdin)),
                filename, file, settings, tempPath, execute, finditer, correct)
  {
  }

  /**
   * When the regex has no `origin` group, every diagnostic of a pattern
   * adapter's run names the linter itself as its origin.
   */
  lemma RunOriginDefaultsToLinter(
    bear: LinterBear, filename: string, file: seq<string>, settings: Settings, tempPath: string,
    execute: Executor, finditer: Finder, correct: Corrector)
    requires bear.config.strategy.Pattern? && bear.handler.createArguments.Some?
    requires forall text :: forall m :: m in finditer(bear.config.strategy.outputRegex, text) ==> m.origin.None?
    ensures var r := Run(bear, filename, file, settings, tempPath, execute, finditer, correct);
            r.Success? ==> forall d :: d in r.value ==> d.origin == OwnLinter && d.file == filename
  {
    RunProcessesSelectedStream(bear, filename, file, settings, tempPath, execute, finditer, correct);
    var output := SelectedOutput(bear, filename, file, settings, tempPath, execute).value;
    var ms := finditer(bear.config.strategy.outputRegex, output);
    var r := Run(bear, filename, file, settings, tempPath, execute, finditer, correct);
    if r.Success? {
      forall d | d in r.value
        ensures d.origin == OwnLinter && d.file == filename
      {
        var i :| 0 <= i < |r.value| && r.value[i] == d;
        assert ms[i] in ms;
      }
    }
  }

  /**
   * The sample of the test suite through the whole of `run`: whichever
   * stream the adapter reads and whether or not the file goes to stdin, a
   * tool that prints the sample output there yields the three expected
   * diagnostics. `ScanIssues` stands for `re.finditer` on `IssueRegex`.
   */
  lemma SampleRun(bear: LinterBear, settings: Settings, tempPath: string, execute: Executor, correct: Corrector)
    requires bear.config.strategy.Pattern? && bear.config.strategy.severityMap == DefaultSeverityMap()
    requires bear.config.strategy.outputRegex == IssueRegex
    requires bear.handler.createArguments.Some?
    requires forall argv, stdin :: GrabOutput(bear.config, execute(argv, stdin).0, execute(argv, stdin).1) == SampleOutput
    ensures Run(bear, "some-file.xtx", [""], settings, tempPath, execute, (regex, text) => ScanIssues(text), correct)
         == Success(SampleDiagnostics)
  {
    RunProcessesSelectedStream(bear, "some-file.xtx", [""], settings, tempPath, execute,
                               (regex, text) => ScanIssues(text), correct);
    SampleOutputDiagnostics();
  }

  /**
   * A tool that reports, on both streams, issues read from its stdin: its
   * issues reach the diagnostics when `use_stdin` is set, and a run without
   * stdin yields no diagnostic at all.
   */
  lemma RunSeesFileOnlyThroughStdin(
    bear: LinterBear, filename: string, file: seq<string>, settings: Settings, tempPath: string,
    report: Option<seq<string>> -> string, finditer: Finder, correct: Corrector)
    requires bear.config.strategy.Pattern? && bear.handler.createArguments.Some?
    requires finditer(bear.config.strategy.outputRegex, report(None)) == []
    ensures var execute: Executor := (argv, stdin) => (report(stdin), report(stdin));
            var r := Run(bear, filename, file, settings, tempPath, execute, finditer, correct);
            var expected := ProcessOutput(bear.config.strategy.severityMap, filename,
                                          finditer(bear.config.strategy.outputRegex, report(Some(file))));
            && (!bear.config.useStdin ==> r == Success([]))
            && (bear.config.useStdin && expected.Success? ==> r == Success(expected.value))
            && (bear.config.useStdin && expected.Failure? ==> r == Failure(ExtractionFailed(expected.error)))
  {
  }
}
