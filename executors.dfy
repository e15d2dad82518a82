/**
 * The two JavaScript test executors of bzt/modules/javascript.py:
 * `MochaTester` and `NewmanExecutor`. `prepare` resolves the tools
 * directory, records the NODE_PATH contributions and refuses a missing
 * script; `startup` builds the runner's command line and launches it;
 * `_dump_vars` turns Newman's `globals` / `environment` settings into a
 * flag, writing a JSON artifact when the setting is not a plain string.
 *
 * What lives outside the file is taken as input: `get_full_path` as the
 * function `fullPath`, the Node tool's resolved path, the report file,
 * `get_load()`, the scenario settings (durations already in milliseconds)
 * and the artifact names `create_artifact` hands out.
 */
module Executors {
  import opened Wrappers
  import opened Text
  import opened Npm

  /** One `env.add_path` call: the variable, the path, and whether `finish=True`. */
  datatype PathContribution = PathContribution(variable: string, path: string, finish: bool)

  /** The process `_execute` starts: its command line and working directory (`None`: the current one). */
  datatype Launch = Launch(cmd: seq<string>, cwd: Option<string>)

  /** The part of `get_load()` used here; 0 stands for an unset (falsy) value. */
  datatype Load = Load(iterations: int, hold: int)

  /** `prepare` either finishes or raises `TaurusConfigError`. */
  datatype PrepareResult = Prepared | ConfigurationError(message: string)

  const MOCHA_TOOLS_DIR := "~/.bzt/selenium-taurus/mocha"
  const NEWMAN_TOOLS_DIR := "~/.bzt/newman"
  const MOCHA_PLUGIN_FILE := "mocha-taurus-plugin.js"

  /** `get_script_path()` gave a truthy path. */
  predicate ScriptGiven(script: Option<string>) { script.Some? && script.value != "" }

  /** `get_full_path(settings.get("tools-dir", current))` */
  function ResolveToolsDir(setting: Option<string>, current: string, fullPath: string -> string): string
  {
    fullPath(setting.GetOr(current))
  }

  /** `JavaScriptExecutor.prepare`'s contribution: the tools' node_modules on NODE_PATH. */
  function ToolsNodePath(toolsDir: string): PathContribution
  {
    PathContribution("NODE_PATH", NodeModulesDir(toolsDir), false)
  }

  // ---------------------------------------------------------------------
  // Mocha
  // ---------------------------------------------------------------------

  /** The Mocha command line `startup` builds. */
  function MochaCommandLine(nodePath: string, pluginPath: string, reportFile: string, script: string,
                            load: Load): seq<string>
  {
    [nodePath, pluginPath, "--report-file", reportFile, "--test-suite", script]
      + (if load.iterations != 0 then ["--iterations", IntToString(load.iterations)] else [])
      + (if load.hold != 0 then ["--hold-for", IntToString(load.hold)] else [])
  }

  /**
   * The Mocha command line: the fixed six-element head, then
   * `--iterations n` exactly when iterations are set, then `--hold-for h`
   * exactly when hold is set, each value readable back as the number.
   */
  lemma MochaCommandLineLayout(nodePath: string, pluginPath: string, reportFile: string, script: string, load: Load)
    ensures var cmd := MochaCommandLine(nodePath, pluginPath, reportFile, script, load);
      && cmd[..6] == [nodePath, pluginPath, "--report-file", reportFile, "--test-suite", script]
      && |cmd| == 6 + (if load.iterations != 0 then 2 else 0) + (if load.hold != 0 then 2 else 0)
      && ("--iterations" in cmd[6..] <==> load.iterations != 0)
      && ("--hold-for" in cmd[6..] <==> load.hold != 0)
      && (load.iterations != 0 ==> cmd[6] == "--iterations" && ParseInt(cmd[7]) == load.iterations)
      && (load.hold != 0 ==> cmd[|cmd| - 2] == "--hold-for" && ParseInt(cmd[|cmd| - 1]) == load.hold)
  {
    var cmd := MochaCommandLine(nodePath, pluginPath, reportFile, script, load);
    var iters := if load.iterations != 0 then ["--iterations", IntToString(load.iterations)] else [];
    var hold := if load.hold != 0 then ["--hold-for", IntToString(load.hold)] else [];
    assert cmd[6..] == iters + hold;
    NumberIsNotFlag(load.iterations);
    NumberIsNotFlag(load.hold);
    assert IsFlag("--iterations") && IsFlag("--hold-for");
    IntToStringRoundTrip(load.iterations);
    IntToStringRoundTrip(load.hold);
  }

  /** The load `{iterations: 5, hold: 10s}` gives `--iterations 5 --hold-for 10` after the head. */
  lemma MochaExample(nodePath: string, pluginPath: string, reportFile: string, script: string)
    ensures MochaCommandLine(nodePath, pluginPath, reportFile, script, Load(5, 10))
         == [nodePath, pluginPath, "--report-file", reportFile, "--test-suite", script,
             "--iterations", "5", "--hold-for", "10"]
  {
    assert Digit(5) == '5' && Digit(1) == '1' && Digit(0) == '0';
    assert IntToString(5) == "5";
    assert IntToString(10) == NatToString(1) + [Digit(0)] == "10";
    var head := [nodePath, pluginPath, "--report-file", reportFile, "--test-suite", script];
    assert MochaCommandLine(nodePath, pluginPath, reportFile, script, Load(5, 10))
        == head + ["--iterations", "5"] + ["--hold-for", "10"];
  }

  /** `MochaTester` */
  class MochaTester {
    var toolsDir: string
    var script: Option<string>
    var pathContributions: seq<PathContribution>
    var toolsRequested: bool
    var nodePath: string
    var pluginPath: string
    var process: Option<Launch>

    constructor ()
      ensures toolsDir == MOCHA_TOOLS_DIR && script == None && pathContributions == []
      ensures !toolsRequested && process == None
    {
      toolsDir := MOCHA_TOOLS_DIR;
      script := None;
      pathContributions := [];
      toolsRequested := false;
      nodePath := "";
      pluginPath := "";
      process := None;
    }

    /**
     * `prepare`: resolves the tools directory, puts its node_modules and then
     * the local node_modules (with `finish=True`) on NODE_PATH, and refuses
     * a missing script before any tool is set up. On success the tools are
     * requested: node at the path it resolved to, the Taurus Mocha plugin
     * in the resources directory.
     */
    method Prepare(setting: Option<string>, fullPath: string -> string, scriptPath: Option<string>,
                   resourcesDir: string, nodeToolPath: string) returns (r: PrepareResult)
      modifies this`toolsDir, this`script, this`pathContributions, this`toolsRequested,
               this`nodePath, this`pluginPath
      ensures toolsDir == ResolveToolsDir(setting, old(toolsDir), fullPath)
      ensures pathContributions == old(pathContributions)
                + [ToolsNodePath(toolsDir), PathContribution("NODE_PATH", "node_modules", true)]
      ensures script == scriptPath
      ensures r.ConfigurationError? <==> !ScriptGiven(scriptPath)
      ensures r.ConfigurationError? ==>
                toolsRequested == old(toolsRequested) && nodePath == old(nodePath) && pluginPath == old(pluginPath)
      ensures r.Prepared? ==>
                toolsRequested && nodePath == nodeToolPath && pluginPath == PathJoin(resourcesDir, MOCHA_PLUGIN_FILE)
    {
      toolsDir := fullPath(setting.GetOr(toolsDir));
      pathContributions := pathContributions + [PathContribution("NODE_PATH", PathJoin(toolsDir, "node_modules"), false)];
      pathContributions := pathContributions + [PathContribution("NODE_PATH", "node_modules", true)];
      script := scriptPath;
      if script.None? || script.value == "" {
        return ConfigurationError("Script not passed to runner");
      }
      nodePath := nodeToolPath;
      pluginPath := PathJoin(resourcesDir, MOCHA_PLUGIN_FILE);
      toolsRequested := true;
      return Prepared;
    }

    /** `get_launch_cmdline`: node and the plugin, then the arguments. */
    function LaunchCommandLine(args: seq<string>): (cmd: seq<string>)
      reads this
      ensures |cmd| == |args| + 2 && cmd[0] == nodePath && cmd[1] == pluginPath && cmd[2..] == args
    {
      [nodePath, pluginPath] + args
    }

    /**
     * `startup`: builds the command line step by step and launches it.
     * The working directory is `get_launch_cwd()`, which is declared
     * abstract with an empty body and overridden by neither executor, so
     * it is `None` and the process runs in the current directory.
     */
    method Startup(reportFile: string, load: Load)
      requires script.Some?
      modifies this`process
      ensures process == Some(Launch(MochaCommandLine(nodePath, pluginPath, reportFile, script.value, load), None))
    {
      var cmdline := LaunchCommandLine(["--report-file", reportFile, "--test-suite", script.value]);
      ghost var head := cmdline;
      if load.iterations != 0 {
        cmdline := cmdline + ["--iterations", IntToString(load.iterations)];
      }
      ghost var withIterations := cmdline;
      if load.hold != 0 {
        cmdline := cmdline + ["--hold-for", IntToString(load.hold)];
      }
      assert head == [nodePath, pluginPath, "--report-file", reportFile, "--test-suite", script.value];
      assert withIterations == head + (if load.iterations != 0 then ["--iterations", IntToString(load.iterations)] else []);
      assert cmdline == withIterations + (if load.hold != 0 then ["--hold-for", IntToString(load.hold)] else []);
      process := Some(Launch(cmdline, None));
    }
  }

  // ---------------------------------------------------------------------
  // Newman: variable dumps
  // ---------------------------------------------------------------------

  /** The JSON values a scenario setting may hold. */
  datatype Json =
    | JNull
    | JBool(b: bool)
    | JInt(n: int)
    | JStr(s: string)
    | JArray(items: seq<Json>)
    | JObject(fields: seq<(string, Json)>)

  /** A `globals` / `environment` setting: a string, a list, or a mapping in iteration order. */
  datatype VarGroup =
    | StrVars(text: string)
    | ListVars(items: seq<Json>)
    | MapVars(entries: seq<(string, Json)>)

  /** A file written through `create_artifact`, with the document written to it. */
  datatype Artifact = Artifact(path: string, document: Json)

  /** What `_dump_vars` contributes: its flag and value, and the files it wrote. */
  datatype VarDumpResult = VarDumpResult(args: seq<string>, written: seq<Artifact>)

  /** The object one mapping entry becomes. */
  function EntryObject(name: string, value: Json): Json
  {
    JObject([("key", JStr(name)), ("value", value), ("type", JStr("any")), ("enabled", JBool(true))])
  }

  /** `data["values"]` after the dump: the list itself, or the object of the LAST mapping entry. */
  function DumpedValues(vals: VarGroup): Json
    requires !vals.StrVars?
  {
    match vals
    case ListVars(items) => JArray(items)
    case MapVars(entries) =>
      if entries == [] then JArray([])
      else EntryObject(entries[|entries| - 1].0, entries[|entries| - 1].1)
  }

  /**
   * `_dump_vars(key)`: a string is passed as it is; anything else is written
   * as `{"values": ...}` to the artifact and the artifact's path is passed.
   */
  function VarDump(key: string, vals: VarGroup, artifactPath: string): (d: VarDumpResult)
    ensures |d.args| == 2 && d.args[0] == "--" + key
    ensures vals.StrVars? ==> d.args[1] == vals.text && d.written == []
    ensures !vals.StrVars? ==>
              d.args[1] == artifactPath && d.written == [Artifact(artifactPath, JObject([("values", DumpedValues(vals))]))]
  {
    match vals
    case StrVars(text) => VarDumpResult(["--" + key, text], [])
    case _ => VarDumpResult(["--" + key, artifactPath], [Artifact(artifactPath, JObject([("values", DumpedValues(vals))]))])
  }

  /**
   * The loop over a mapping's entries: each entry overwrites the value
   * built so far, so only the last one survives.
   */
  method MappingValues(entries: seq<(string, Json)>) returns (values: Json)
    ensures values == DumpedValues(MapVars(entries))
    ensures entries != [] ==> values.JObject? && values.fields[0] == ("key", JStr(entries[|entries| - 1].0))
  {
    values := JArray([]);
    var i := 0;
    while i < |entries|
      invariant 0 <= i <= |entries|
      invariant values == if i == 0 then JArray([]) else EntryObject(entries[i - 1].0, entries[i - 1].1)
    {
      values := EntryObject(entries[i].0, entries[i].1);
      i := i + 1;
    }
  }

  /**
   * As written, a mapping with two differently named entries loses the
   * first one: the document names only the second.
   */
  lemma MappingDumpLosesEarlierEntries(first: (string, Json), second: (string, Json))
    requires first.0 != second.0
    ensures DumpedValues(MapVars([first, second])) == EntryObject(second.0, second.1)
    ensures DumpedValues(MapVars([first, second])) != EntryObject(first.0, first.1)
    ensures !DumpedValues(MapVars([first, second])).JArray?
  {
    assert EntryObject(first.0, first.1).fields[0] != EntryObject(second.0, second.1).fields[0];
  }

  /**
   * The evidently intended loop: every entry is appended to the `values`
   * list, in iteration order.
   */
  method AccumulatedValues(entries: seq<(string, Json)>) returns (values: Json)
    ensures values.JArray? && |values.items| == |entries|
    ensures forall k :: 0 <= k < |entries| ==> values.items[k] == EntryObject(entries[k].0, entries[k].1)
  {
    var items: seq<Json> := [];
    var i := 0;
    while i < |entries|
      invariant 0 <= i <= |entries|
      invariant |items| == i
      invariant forall k :: 0 <= k < i ==> items[k] == EntryObject(entries[k].0, entries[k].1)
    {
      items := items + [EntryObject(entries[i].0, entries[i].1)];
      i := i + 1;
    }
    values := JArray(items);
  }

  // ---------------------------------------------------------------------
  // Newman: command line
  // ---------------------------------------------------------------------

  /** `["--<flag>", str(ms)]` when a duration is configured (`is not None`), else nothing. */
  function DurationFlag(flag: string, ms: Option<int>): seq<string>
  {
    if ms.Some? then [flag, IntToString(ms.value)] else []
  }

  /** The scenario settings `startup` reads, durations already in milliseconds. */
  datatype Scenario = Scenario(timeoutMs: Option<int>, thinkTimeMs: Option<int>, globals: VarGroup, environment: VarGroup)

  /** The fixed head of every Newman command line. */
  function NewmanHead(nodePath: string, newmanPath: string, script: string, reportFile: string): seq<string>
  {
    [nodePath, newmanPath, "run", Basename(script), "--reporters", "taurus",
     "--reporter-taurus-filename", reportFile, "--suppress-exit-code", "--insecure"]
  }

  /** The Newman command line `startup` builds. */
  function NewmanCommandLine(nodePath: string, newmanPath: string, script: string, reportFile: string,
                             scenario: Scenario, load: Load, globalsArtifact: string, environmentArtifact: string)
    : seq<string>
  {
    NewmanHead(nodePath, newmanPath, script, reportFile)
      + DurationFlag("--timeout-request", scenario.timeoutMs)
      + DurationFlag("--delay-request", scenario.thinkTimeMs)
      + VarDump("globals", scenario.globals, globalsArtifact).args
      + VarDump("environment", scenario.environment, environmentArtifact).args
      + (if load.iterations != 0 then ["--iteration-count", IntToString(load.iterations)] else [])
  }

  /** `get_full_path(script, step_up=1)`: the directory Newman runs in. */
  function ScriptDirectory(script: string, fullPath: string -> string): string
  {
    Dirname(fullPath(script))
  }

  /**
   * The Newman command line: the ten-element head, then the optional
   * request timeout and delay, the `--globals` and `--environment` pairs,
   * and `--iteration-count` exactly when iterations are set; the
   * durations are readable back as their millisecond values.
   */
  lemma NewmanCommandLineLayout(nodePath: string, newmanPath: string, script: string, reportFile: string,
                                scenario: Scenario, load: Load, globalsArtifact: string, environmentArtifact: string)
    ensures var cmd := NewmanCommandLine(nodePath, newmanPath, script, reportFile, scenario, load,
                                         globalsArtifact, environmentArtifact);
      var t := if scenario.timeoutMs.Some? then 2 else 0;
      var k := 10 + t + (if scenario.thinkTimeMs.Some? then 2 else 0);
      && cmd[..10] == [nodePath, newmanPath, "run", Basename(script), "--reporters", "taurus",
                       "--reporter-taurus-filename", reportFile, "--suppress-exit-code", "--insecure"]
      && |cmd| == k + 4 + (if load.iterations != 0 then 2 else 0)
      && (scenario.timeoutMs.Some? ==>
            cmd[10] == "--timeout-request" && ParseInt(cmd[11]) == scenario.timeoutMs.value)
      && (scenario.thinkTimeMs.Some? ==>
            cmd[10 + t] == "--delay-request" && ParseInt(cmd[11 + t]) == scenario.thinkTimeMs.value)
      && cmd[k] == "--globals" && cmd[k + 2] == "--environment"
      && cmd[k..k + 4] == VarDump("globals", scenario.globals, globalsArtifact).args
                          + VarDump("environment", scenario.environment, environmentArtifact).args
      && (load.iterations != 0 ==>
            cmd[k + 4] == "--iteration-count" && ParseInt(cmd[k + 5]) == load.iterations)
  {
    var head := NewmanHead(nodePath, newmanPath, script, reportFile);
    var timeout := DurationFlag("--timeout-request", scenario.timeoutMs);
    var delay := DurationFlag("--delay-request", scenario.thinkTimeMs);
    var g := VarDump("globals", scenario.globals, globalsArtifact).args;
    var e := VarDump("environment", scenario.environment, environmentArtifact).args;
    var iters := if load.iterations != 0 then ["--iteration-count", IntToString(load.iterations)] else [];
    var cmd := head + timeout + delay + g + e + iters;
    assert cmd == NewmanCommandLine(nodePath, newmanPath, script, reportFile, scenario, load,
                                    globalsArtifact, environmentArtifact);
    var k := |head| + |timeout| + |delay|;
    assert cmd[..10] == head;
    assert cmd[k] == g[0] && cmd[k + 2] == e[0];
    NewmanVarDumpArguments(nodePath, newmanPath, script, reportFile, scenario, load,
                           globalsArtifact, environmentArtifact);
    if scenario.timeoutMs.Some? {
      assert cmd[10] == timeout[0] && cmd[11] == timeout[1];
      IntToStringRoundTrip(scenario.timeoutMs.value);
    }
    if scenario.thinkTimeMs.Some? {
      assert cmd[10 + |timeout|] == delay[0] && cmd[11 + |timeout|] == delay[1];
      IntToStringRoundTrip(scenario.thinkTimeMs.value);
    }
    if load.iterations != 0 {
      assert cmd[k + 4] == iters[0] && cmd[k + 5] == iters[1];
      IntToStringRoundTrip(load.iterations);
    }
  }

  /** After the head and the optional durations come `_dump_vars("globals")` then `_dump_vars("environment")`. */
  lemma NewmanVarDumpArguments(nodePath: string, newmanPath: string, script: string, reportFile: string,
                               scenario: Scenario, load: Load, globalsArtifact: string, environmentArtifact: string)
    ensures var cmd := NewmanCommandLine(nodePath, newmanPath, script, reportFile, scenario, load,
                                         globalsArtifact, environmentArtifact);
      var k := 10 + (if scenario.timeoutMs.Some? then 2 else 0) + (if scenario.thinkTimeMs.Some? then 2 else 0);
      |cmd| >= k + 4
      && cmd[k..k + 4] == VarDump("globals", scenario.globals, globalsArtifact).args
                          + VarDump("environment", scenario.environment, environmentArtifact).args
  {
    var x := NewmanHead(nodePath, newmanPath, script, reportFile)
      + DurationFlag("--timeout-request", scenario.timeoutMs)
      + DurationFlag("--delay-request", scenario.thinkTimeMs);
    var m := VarDump("globals", scenario.globals, globalsArtifact).args
      + VarDump("environment", scenario.environment, environmentArtifact).args;
    var y := if load.iterations != 0 then ["--iteration-count", IntToString(load.iterations)] else [];
    assert NewmanCommandLine(nodePath, newmanPath, script, reportFile, scenario, load,
                             globalsArtifact, environmentArtifact) == x + m + y;
    assert (x + m + y)[|x|..|x| + |m|] == m;
  }

  /** A `timeout` of 2s gives `--timeout-request 2000`; a string `globals` is passed as it is, with no file. */
  lemma NewmanExample(nodePath: string, newmanPath: string, script: string, reportFile: string,
                      globalsArtifact: string, environmentArtifact: string)
    ensures var cmd := NewmanCommandLine(nodePath, newmanPath, script, reportFile,
                                         Scenario(Some(2000), None, StrVars("foo=bar"), MapVars([])),
                                         Load(0, 0), globalsArtifact, environmentArtifact);
      cmd[10..] == ["--timeout-request", "2000", "--globals", "foo=bar", "--environment", environmentArtifact]
    ensures VarDump("globals", StrVars("foo=bar"), globalsArtifact).written == []
    ensures VarDump("globals", MapVars([("a", JInt(1))]), globalsArtifact).written
         == [Artifact(globalsArtifact, JObject([("values", EntryObject("a", JInt(1)))]))]
  {
    assert Digit(2) == '2' && Digit(0) == '0';
    assert NatToString(2) == "2";
    assert NatToString(20) == NatToString(2) + [Digit(0)] == "20";
    assert NatToString(200) == NatToString(20) + [Digit(0)] == "200";
    assert IntToString(2000) == NatToString(200) + [Digit(0)] == "2000";
    var head := NewmanHead(nodePath, newmanPath, script, reportFile);
    var cmd := NewmanCommandLine(nodePath, newmanPath, script, reportFile,
                                 Scenario(Some(2000), None, StrVars("foo=bar"), MapVars([])),
                                 Load(0, 0), globalsArtifact, environmentArtifact);
    assert "--" + "globals" == "--globals" && "--" + "environment" == "--environment";
    assert VarDump("globals", StrVars("foo=bar"), globalsArtifact).args == ["--globals", "foo=bar"];
    assert VarDump("environment", MapVars([]), environmentArtifact).args == ["--environment", environmentArtifact];
    assert cmd == head + ["--timeout-request", "2000"] + ["--globals", "foo=bar"] + ["--environment", environmentArtifact];
    assert |head| == 10;
  }

  /**
   * Newman runs in the script's directory with the script's base name, so
   * it opens the script itself, whenever the full path ends in
   * `<directory>/<name>` with the same name the configured path ends in.
   */
  lemma NewmanOpensTheScript(script: string, fullPath: string -> string)
    requires var p := fullPath(script); SplitPoint(p) >= 2 && p[SplitPoint(p) - 2] != '/'
    requires Basename(fullPath(script)) == Basename(script)
    ensures PathJoin(ScriptDirectory(script, fullPath), Basename(script)) == fullPath(script)
  {
    DirnameJoinBasename(fullPath(script));
  }

  /** `NewmanExecutor` */
  class NewmanExecutor {
    var toolsDir: string
    var script: Option<string>
    var pathContributions: seq<PathContribution>
    var toolsRequested: bool
    var nodePath: string
    var newmanPath: string
    var process: Option<Launch>
    var artifacts: seq<Artifact>

    constructor ()
      ensures toolsDir == NEWMAN_TOOLS_DIR && script == None && pathContributions == []
      ensures !toolsRequested && process == None && artifacts == []
    {
      toolsDir := NEWMAN_TOOLS_DIR;
      script := None;
      pathContributions := [];
      toolsRequested := false;
      nodePath := "";
      newmanPath := "";
      process := None;
      artifacts := [];
    }

    /**
     * `prepare`: resolves the tools directory, puts its node_modules and then
     * the resources directory on NODE_PATH, and refuses a missing script
     * before any tool is set up. On success the tools directory is resolved
     * once more and the tools are requested: node at the path it resolved
     * to, newman under the tools directory.
     */
    method Prepare(setting: Option<string>, fullPath: string -> string, scriptPath: Option<string>,
                   resourcesDir: string, nodeToolPath: string) returns (r: PrepareResult)
      modifies this`toolsDir, this`script, this`pathContributions, this`toolsRequested,
               this`nodePath, this`newmanPath
      ensures pathContributions == old(pathContributions)
                + [ToolsNodePath(ResolveToolsDir(setting, old(toolsDir), fullPath)),
                   PathContribution("NODE_PATH", resourcesDir, false)]
      ensures script == scriptPath
      ensures r.ConfigurationError? <==> !ScriptGiven(scriptPath)
      ensures r.ConfigurationError? ==>
                && toolsDir == ResolveToolsDir(setting, old(toolsDir), fullPath)
                && toolsRequested == old(toolsRequested) && nodePath == old(nodePath) && newmanPath == old(newmanPath)
      ensures r.Prepared? ==>
                && toolsDir == ResolveToolsDir(setting, ResolveToolsDir(setting, old(toolsDir), fullPath), fullPath)
                && toolsRequested && nodePath == nodeToolPath && newmanPath == NewmanToolPath(toolsDir)
    {
      toolsDir := fullPath(setting.GetOr(toolsDir));
      pathContributions := pathContributions + [PathContribution("NODE_PATH", PathJoin(toolsDir, "node_modules"), false)];
      pathContributions := pathContributions + [PathContribution("NODE_PATH", resourcesDir, false)];
      script := scriptPath;
      if script.None? || script.value == "" {
        return ConfigurationError("Script not passed to executor");
      }
      toolsDir := fullPath(setting.GetOr(toolsDir));
      nodePath := nodeToolPath;
      newmanPath := toolsDir + "/node_modules/" + NEWMAN_PACKAGE + "/bin/newman.js";
      toolsRequested := true;
      return Prepared;
    }

    /** `get_launch_cmdline`: node and newman, then the arguments. */
    function LaunchCommandLine(args: seq<string>): (cmd: seq<string>)
      reads this
      ensures |cmd| == |args| + 2 && cmd[0] == nodePath && cmd[1] == newmanPath && cmd[2..] == args
    {
      [nodePath, newmanPath] + args
    }

    /** `_dump_vars`: the flag and its value; for a list or mapping the document is written first. */
    method DumpVars(key: string, vals: VarGroup, artifactPath: string) returns (args: seq<string>)
      modifies this`artifacts
      ensures args == VarDump(key, vals, artifactPath).args
      ensures artifacts == old(artifacts) + VarDump(key, vals, artifactPath).written
    {
      args := [];
      if vals.StrVars? {
        args := args + ["--" + key, vals.text];
      } else {
        var values: Json := JArray([]);
        if vals.ListVars? {
          values := JArray(vals.items);
        } else {
          values := MappingValues(vals.entries);
        }
        artifacts := artifacts + [Artifact(artifactPath, JObject([("values", values)]))];
        args := args + ["--" + key, artifactPath];
      }
    }

    /**
     * `startup`: builds the command line step by step, dumping `globals` and
     * then `environment`, and launches it in the script's directory.
     */
    method Startup(reportFile: string, scenario: Scenario, load: Load, fullPath: string -> string,
                   globalsArtifact: string, environmentArtifact: string)
      requires script.Some?
      modifies this`process, this`artifacts
      ensures process == Some(Launch(NewmanCommandLine(nodePath, newmanPath, script.value, reportFile, scenario, load,
                                                       globalsArtifact, environmentArtifact),
                                     Some(ScriptDirectory(script.value, fullPath))))
      ensures artifacts == old(artifacts)
                + VarDump("globals", scenario.globals, globalsArtifact).written
                + VarDump("environment", scenario.environment, environmentArtifact).written
    {
      var scriptDir := Dirname(fullPath(script.value));
      var scriptFile := Basename(script.value);
      var cmdline := LaunchCommandLine(["run", scriptFile, "--reporters", "taurus",
                                        "--reporter-taurus-filename", reportFile,
                                        "--suppress-exit-code", "--insecure"]);
      assert cmdline == NewmanHead(nodePath, newmanPath, script.value, reportFile);
      if scenario.timeoutMs.Some? {
        cmdline := cmdline + ["--timeout-request", IntToString(scenario.timeoutMs.value)];
      }
      assert cmdline == NewmanHead(nodePath, newmanPath, script.value, reportFile)
                        + DurationFlag("--timeout-request", scenario.timeoutMs);
      if scenario.thinkTimeMs.Some? {
        cmdline := cmdline + ["--delay-request", IntToString(scenario.thinkTimeMs.value)];
      }
      ghost var timed := cmdline;
      assert timed == NewmanHead(nodePath, newmanPath, script.value, reportFile)
                      + DurationFlag("--timeout-request", scenario.timeoutMs)
                      + DurationFlag("--delay-request", scenario.thinkTimeMs);
      var globalsArgs := DumpVars("globals", scenario.globals, globalsArtifact);
      cmdline := cmdline + globalsArgs;
      var environmentArgs := DumpVars("environment", scenario.environment, environmentArtifact);
      cmdline := cmdline + environmentArgs;
      ghost var dumped := cmdline;
      if load.iterations != 0 {
        cmdline := cmdline + ["--iteration-count", IntToString(load.iterations)];
      }
      assert cmdline == dumped + (if load.iterations != 0 then ["--iteration-count", IntToString(load.iterations)] else []);
      process := Some(Launch(cmdline, Some(scriptDir)));
    }
  }
}
