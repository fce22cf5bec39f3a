/**
 * The values a linter adapter is built from and produces: result severities,
 * the validated adapter configuration, the handler it wraps, and the
 * diagnostics (coala `Result`s) it yields.
 */
module LinterTypes {
  import opened Wrappers

  /** coala's RESULT_SEVERITY levels, ordered MINOR < NORMAL < MAJOR. */
  datatype Severity = Minor | Normal | Major

  /** Maps a severity label printed by the tool to a severity level. */
  type SeverityMap = map<string, Severity>

  /** The map used when the adapter is given an output regex but no severity map. */
  function DefaultSeverityMap(): (m: SeverityMap)
    ensures m.Keys == {"error", "warning", "info"}
    ensures m["error"] == Major && m["warning"] == Normal && m["info"] == Minor
  {
    map["error" := Major, "warning" := Normal, "info" := Minor]
  }

  /** How the tool's output is turned into diagnostics; fixed when the adapter is built. */
  datatype Strategy =
    | Pattern(outputRegex: string, severityMap: SeverityMap)
    | Correction(diffSeverity: Option<Severity>, diffMessage: Option<string>)

  /** The immutable adapter configuration accepted by the `Linter` decorator. */
  datatype Config = Config(executable: string, useStdin: bool, useStderr: bool, strategy: Strategy)

  /** Extra keyword settings forwarded from a section to the handler. */
  type Settings = map<string, string>

  /**
   * The decorated class. Both capabilities are optional, as on a Python class:
   * `createArguments(filename, file, configFile, settings)` builds the tool's
   * arguments; `generateConfig(filename, file, settings)` gives config text.
   */
  datatype Handler = Handler(
    createArguments: Option<(string, seq<string>, Option<string>, Settings) -> seq<string>>,
    generateConfig: Option<(string, seq<string>, Settings) -> string>)

  /** A linter bear: a handler wrapped with a validated configuration. */
  datatype LinterBear = LinterBear(config: Config, handler: Handler)

  /** Where a diagnostic comes from: the `origin` group's text or the linter itself. */
  datatype Origin = OwnLinter | Named(name: string)

  /** The fields of `Result.from_values(origin, message, file, line, column, end_line, end_column, severity)`. */
  datatype Diagnostic = Diagnostic(
    origin: Origin,
    message: string,
    file: string,
    line: Option<nat>,
    column: Option<nat>,
    endLine: Option<nat>,
    endColumn: Option<nat>,
    severity: Severity)
}
