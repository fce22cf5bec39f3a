/**
 * The adapter's per-file plumbing: which stream carries the file, which
 * stream is parsed, and the optional generated configuration file.
 */
module Routing {
  import opened Wrappers
  import opened LinterTypes

  /** `_grab_output(stdout, stderr)`: the stream the diagnostics are read from. */
  function GrabOutput(cfg: Config, stdout: string, stderr: string): (r: string)
    ensures cfg.useStderr ==> r == stderr
    ensures !cfg.useStderr ==> r == stdout
  {
    if cfg.useStderr then stderr else stdout
  }

  /** `_pass_file_as_stdin_if_needed(file)`: the file when it goes to stdin, else `None`. */
  function PassFileAsStdinIfNeeded(cfg: Config, file: seq<string>): (r: Option<seq<string>>)
    ensures r.Some? <==> cfg.useStdin
    ensures r.Some? ==> r.value == file
  {
    if cfg.useStdin then Some(file) else None
  }

  /** A generated configuration file: where it lives and what is written to it. */
  datatype ConfigFile = ConfigFile(path: string, content: string)

  /**
   * `_create_config(filename, file, **settings)`: nothing when the handler
   * cannot generate a configuration; otherwise the handler's text, written
   * verbatim to the fresh temporary file `tempPath`.
   */
  function CreateConfig(handler: Handler, filename: string, file: seq<string>, settings: Settings,
                        tempPath: string): (r: Option<ConfigFile>)
    ensures r.None? <==> handler.generateConfig.None?
    ensures r.Some? ==> r.value.path == tempPath
    ensures r.Some? ==> r.value.content == handler.generateConfig.value(filename, file, settings)
  {
    match handler.generateConfig
    case None => None
    case Some(generate) => Some(ConfigFile(tempPath, generate(filename, file, settings)))
  }

  /** The `config_file` argument handed to `create_arguments`: the path, or `None`. */
  function ConfigPath(c: Option<ConfigFile>): Option<string> {
    match c
    case None => None
    case Some(f) => Some(f.path)
  }

  /**
   * A handler without `generate_config` gets no config file; one whose
   * `generate_config` returns `"config_value = " + val` gets exactly that
   * text in its file.
   */
  lemma CreateConfigExamples(tempPath: string)
    ensures CreateConfig(Handler(None, None), "filename", [], map[], tempPath) == None
    ensures CreateConfig(Handler(None, Some((filename, file, settings: Settings) =>
                           "config_value = " + (if "val" in settings then settings["val"] else ""))),
                         "filename", [], map["val" := "88"], tempPath)
         == Some(ConfigFile(tempPath, "config_value = 88"))
  {
    assert "config_value = " + "88" == "config_value = 88";
  }
}
