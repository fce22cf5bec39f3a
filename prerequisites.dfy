/**
 * `check_prerequisites()`: whether the adapter's executable can be run. How
 * the executable is looked up (a path checked directly, a bare name searched
 * on the executable search path) is a parameter of the model.
 */
module Prerequisites {
  import opened LinterTypes

  /** `True`, or the human-readable reason the prerequisite is unmet. */
  datatype Prerequisite = Installed | NotInstalled(reason: string)

  const NotInstalledSuffix := "' is not installed."

  /** The reason given when the executable is missing. */
  function NotInstalledMessage(executable: string): (m: string)
    ensures |m| == |executable| + 1 + |NotInstalledSuffix|
    ensures m[0] == '\''
  {
    "'" + executable + NotInstalledSuffix
  }

  /** Recovers the executable named in a "not installed" message. */
  function NamedExecutable(m: string): (exe: string)
    requires |m| >= 1 + |NotInstalledSuffix|
  {
    m[1..|m| - |NotInstalledSuffix|]
  }

  /** The message names the executable verbatim: it can be read back out of the message. */
  lemma NotInstalledMessageNamesExecutable(executable: string)
    ensures NamedExecutable(NotInstalledMessage(executable)) == executable
    ensures NotInstalledMessage(executable)[|executable| + 1..] == NotInstalledSuffix
  {
    var m := NotInstalledMessage(executable);
    assert m == ['\''] + executable + NotInstalledSuffix;
    assert m[1..|m| - |NotInstalledSuffix|] == executable;
  }

  /** Different executables are never reported with the same message. */
  lemma NotInstalledMessageInjective(a: string, b: string)
    requires NotInstalledMessage(a) == NotInstalledMessage(b)
    ensures a == b
  {
    NotInstalledMessageNamesExecutable(a);
    NotInstalledMessageNamesExecutable(b);
  }

  /** `check_prerequisites()`, given whether the executable is found and runnable. */
  function CheckPrerequisites(bear: LinterBear, isInstalled: string -> bool): (r: Prerequisite)
    ensures r.Installed? <==> isInstalled(bear.config.executable)
    ensures r.NotInstalled? ==> r.reason == "'" + bear.config.executable + "' is not installed."
    ensures r.NotInstalled? ==> NamedExecutable(r.reason) == bear.config.executable
    ensures r.NotInstalled? ==> r.reason[|bear.config.executable| + 1..] == NotInstalledSuffix
  {
    if isInstalled(bear.config.executable) then Installed
    else
      NotInstalledMessageNamesExecutable(bear.config.executable);
      NotInstalled(NotInstalledMessage(bear.config.executable))
  }

  /** The exact reason reported for a program that cannot be found. */
  lemma MissingProgramReason(bear: LinterBear, isInstalled: string -> bool)
    requires bear.config.executable == "invalid_nonexisting_programv412"
    requires !isInstalled(bear.config.executable)
    ensures CheckPrerequisites(bear, isInstalled)
         == NotInstalled("'invalid_nonexisting_programv412' is not installed.")
  {
    var exe := bear.config.executable;
    assert NotInstalledMessage(exe) == "'invalid_nonexisting_programv412' is not installed." by {
      assert "'" + "invalid_nonexisting_programv412" == "'invalid_nonexisting_programv412";
    }
  }
}
