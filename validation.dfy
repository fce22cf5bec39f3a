/**
 * The `Linter(executable, **options)` decorator factory: it checks the option
 * set once, when the adapter is defined, and either builds the configuration
 * or raises `ValueError`.
 */
module Validation {
  import opened Wrappers
  import opened LinterTypes

  /**
   * The keyword arguments given to `Linter`. Options the caller leaves out take
   * their defaults (false or absent); `unknown` holds the names of keyword
   * arguments the decorator does not recognise (such as `invalid_arg`).
   */
  datatype Options = Options(
    providesCorrection: bool,
    useStdin: bool,
    useStderr: bool,
    outputRegex: Option<string>,
    severityMap: Option<SeverityMap>,
    diffSeverity: Option<Severity>,
    diffMessage: Option<string>,
    unknown: set<string>)

  /** No keyword arguments at all. */
  const NoOptions := Options(false, false, false, None, None, None, None, {})

  /** Why `Linter` raised `ValueError`. */
  datatype ConfigError =
    | UnknownOptions(names: set<string>)
    | CorrectionWithOutputRegex
    | CorrectionWithSeverityMap
    | DiffOptionWithoutCorrection
    | MissingOutputRegex

  /** The rules an option set must obey, stated independently of the order they are checked in. */
  ghost predicate Acceptable(o: Options) {
    && o.unknown == {}
    && (o.providesCorrection ==> o.outputRegex.None? && o.severityMap.None?)
    && (!o.providesCorrection ==> o.diffSeverity.None? && o.diffMessage.None? && o.outputRegex.Some?)
  }

  /**
   * Validates the options and builds the configuration. A correcting adapter
   * keeps its diff options; a pattern adapter keeps its regex and its severity
   * map, or gets the default map when none was given.
   */
  function Validate(executable: string, o: Options): (r: Result<Config, ConfigError>)
    ensures r.Success? <==> Acceptable(o)
    ensures o.unknown != {} ==> r == Failure(UnknownOptions(o.unknown))
    ensures !o.providesCorrection && (o.diffSeverity.Some? || o.diffMessage.Some?) ==> r.Failure?
    ensures o.providesCorrection && o.outputRegex.Some? ==> r.Failure?
    ensures o.providesCorrection && o.severityMap.Some? ==> r.Failure?
    ensures r.Success? ==>
      && r.value.executable == executable
      && r.value.useStdin == o.useStdin
      && r.value.useStderr == o.useStderr
      && (o.providesCorrection ==> r.value.strategy == Correction(o.diffSeverity, o.diffMessage))
      && (!o.providesCorrection ==> r.value.strategy.Pattern? && r.value.strategy.outputRegex == o.outputRegex.value)
      && (!o.providesCorrection && o.severityMap.Some? ==> r.value.strategy.severityMap == o.severityMap.value)
      && (!o.providesCorrection && o.severityMap.None? ==> r.value.strategy.severityMap == DefaultSeverityMap())
  {
    if o.unknown != {} then
      Failure(UnknownOptions(o.unknown))
    else if o.providesCorrection then
      if o.outputRegex.Some? then Failure(CorrectionWithOutputRegex)
      else if o.severityMap.Some? then Failure(CorrectionWithSeverityMap)
      else Success(Config(executable, o.useStdin, o.useStderr, Correction(o.diffSeverity, o.diffMessage)))
    else
      if o.diffSeverity.Some? || o.diffMessage.Some? then Failure(DiffOptionWithoutCorrection)
      else if o.outputRegex.None? then Failure(MissingOutputRegex)
      else
        var sm := if o.severityMap.Some? then o.severityMap.value else DefaultSeverityMap();
        Success(Config(executable, o.useStdin, o.useStderr, Pattern(o.outputRegex.value, sm)))
  }

  /** `Linter(executable, **options)(handler)`: the decorated class, or the `ValueError`. */
  function Decorate(executable: string, o: Options, handler: Handler): (r: Result<LinterBear, ConfigError>)
    ensures r.Success? <==> Acceptable(o)
    ensures r.Success? ==> r.value.handler == handler && r.value.config == Validate(executable, o).value
  {
    match Validate(executable, o)
    case Success(c) => Success(LinterBear(c, handler))
    case Failure(e) => Failure(e)
  }

  /** `get_executable()`: the executable the adapter was defined with. */
  function GetExecutable(bear: LinterBear): string {
    bear.config.executable
  }

  /** The executable given to `Linter` is the one `get_executable` reports. */
  lemma GetExecutableRoundTrip(executable: string, o: Options, handler: Handler)
    requires Acceptable(o)
    ensures Decorate(executable, o, handler).Success?
    ensures GetExecutable(Decorate(executable, o, handler).value) == executable
  {
  }

  /** The five option sets the decorator must reject. */
  lemma RejectedOptionSets(executable: string, regex: string, message: string, sev: Severity, sm: SeverityMap)
    ensures Validate(executable, NoOptions.(unknown := {"invalid_arg"})).Failure?
    ensures Validate(executable, NoOptions.(diffSeverity := Some(sev))).Failure?
    ensures Validate(executable, NoOptions.(diffMessage := Some(message))).Failure?
    ensures Validate(executable, NoOptions.(providesCorrection := true, outputRegex := Some(regex))).Failure?
    ensures Validate(executable, NoOptions.(providesCorrection := true, severityMap := Some(sm))).Failure?
  {
  }

  /** Option sets the decorator accepts, so the checks above are not vacuous. */
  lemma AcceptedOptionSets(executable: string, regex: string, message: string, sev: Severity, sm: SeverityMap,
                           useStdin: bool, useStderr: bool)
    ensures Validate(executable, NoOptions.(outputRegex := Some(regex), useStdin := useStdin, useStderr := useStderr)).Success?
    ensures Validate(executable, NoOptions.(outputRegex := Some(regex), severityMap := Some(sm))).Success?
    ensures Validate(executable, NoOptions.(providesCorrection := true)).Success?
    ensures Validate(executable, NoOptions.(providesCorrection := true, diffSeverity := Some(sev), diffMessage := Some(message))).Success?
  {
  }
}
