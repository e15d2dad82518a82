# Taurus JavaScript executors: a Dafny model

This project models the decision logic of `bzt/modules/javascript.py` in
Taurus. That file runs JavaScript test tools: Mocha through the Taurus Mocha
plugin, and Newman with the Taurus reporter. It also manages the npm packages
those tools depend on. The model covers five parts:

- **Package-name parsing.** `NPMPackage.__init__` splits `PACKAGE_NAME`
  (`mocha@10.6.0`, `@scope/pkg@1.2`, `newman`) into a name and a version. A
  scoped name keeps its leading `@`. An unscoped name with two `@` raises
  `ValueError`.
- **npm install.** `install` builds `npm install <name[@version]> --prefix
  <tools_dir>`, or the local-module variant. Together with the parser it forms
  a round trip.
- **Presence probe.** `check_if_installed` chooses a `require` probe or a
  dynamic-`import` probe and the working directory to run it in. It then looks
  for `"<name> is installed"` in the output.
- **npm discovery.** `NPM.check_if_installed` tries `npm`, then `npm.cmd` on
  Windows. The first one that answers `--version` becomes the tool path.
- **The executors.** `MochaTester` and `NewmanExecutor` each have `prepare`,
  `get_launch_cmdline` and `startup`, and Newman also has `_dump_vars`. The
  model covers the tools directory, the NODE_PATH contributions, the
  missing-script error, the exact command lines, and the `{"values": ...}`
  documents written for `globals` and `environment`.

Files:

- `wrappers.dfy` holds `Option` and `Result`.
- `text.dfy` holds the Python string and path operations the code relies on:
  `str.split`, `str(int)`, substring `in`, and `posixpath.join`/`basename`/
  `dirname`/`isabs`. Partner lemmas: `Join(Split(s), sep) == s` (a
  postcondition of `Split`), `IntToStringRoundTrip` (`int(str(i)) == i`),
  `ContainsInside` (a string embedding the needle contains it; one direction
  only), and `DirnameJoinBasename` (`dirname` and `basename` rejoin the path).
  `isabs` is a one-line predicate with no lemma of its own.
- `npm.dfy` holds `NPM`, `NPMPackage` and its module and local-module
  variants, the bundled package names, and Newman's tool path.
- `executors.dfy` holds `MochaTester` and `NewmanExecutor`.

Objects whose fields the source updates are Dafny classes: `NpmTool`,
`NpmPackage`, `MochaTester` and `NewmanExecutor`. Their methods say what each
field becomes. A `startup` method builds its command line by successive
appends, as the source does. Its contract ties the launched command to a
specification function (`MochaCommandLine`, `NewmanCommandLine`), and the
layout lemmas state what those functions guarantee.

The outside world is given to the model as inputs:

- a subprocess call is a function from `Invocation` (command line and working
  directory) to `CallOutcome` (output, or failure);
- `is_windows()`, the existence of `./node_modules`, `get_full_path`, the
  resources directory, the path the Node tool resolved to, `get_load()`, the
  scenario settings (timeout and think time already in milliseconds) and
  the artifact names are all parameters.

Three behaviours of the code worth knowing:

- Mocha's `--hold-for` value is `str(load.hold)`. This file converts nothing
  to seconds.
- Mocha is launched with `cwd=self.get_launch_cwd()`. That method is declared
  abstract with the body `pass` (lines 41-43), and neither executor overrides
  it. So it returns `None`, and Mocha runs in the current directory. This
  matters for the relative NODE_PATH entry `node_modules` and for a relative
  script path.
- The Newman command line ends with `--iteration-count n` when iterations are
  set.
- A mapping-valued `globals` or `environment` keeps only its last entry. See
  Findings.

## Model

| member | source | states |
|---|---|---|
| `Npm.NpmCandidates` | bzt/modules/javascript.py:201-203 | npm candidates are `"npm"`, then `"npm.cmd"` on Windows only |
| `Npm.FirstRespondingIsEarliest` | bzt/modules/javascript.py:204-218 | discovery finds a candidate iff some candidate answers `--version`, and the one found is the earliest that answers; all before it failed |
| `Npm.NpmTool.CheckIfInstalled` | bzt/modules/javascript.py:200-218 | the loop returns true iff a candidate answers; `tool_path` becomes the first that answers, or is left unchanged when none does |
| `Npm.ParsePackageName` | bzt/modules/javascript.py:226-234 | the parsed name is always a prefix of `PACKAGE_NAME`; a scoped name keeps its leading `@` and has no other `@` |
| `Npm.ParseFailsIff` | bzt/modules/javascript.py:228-234 | parsing raises exactly when the name is unscoped and has two or more `@` (tuple unpacking of three or more pieces) |
| `Npm.ParseNameAtVersion` | bzt/modules/javascript.py:228-234 | `n@v` and `@scope/n@v` split into name `n` / `@scope/n` and version `v`; the scope `@` is never the separator |
| `Npm.ParseBareName` | bzt/modules/javascript.py:228-234 | `@scope/n` and a name without `@` are kept whole, and the version already set is kept |
| `Npm.ScopedExtraPiecesDropped` | bzt/modules/javascript.py:229-232 | for a scoped name, `@` pieces after index 2 are dropped |
| `Npm.InstallArgument` | bzt/modules/javascript.py:267-269 | the install argument starts with the name and is longer than it exactly when the version is truthy |
| `Npm.InstallArgumentRoundTrip` | bzt/modules/javascript.py:226-270 | for `n@v` and `@scope/n@v` with a non-empty version, install gives back the original `PACKAGE_NAME`; so does a bare name when no version was set |
| `Npm.EmptyVersionDropped` | bzt/modules/javascript.py:228-269 | `n@` parses to version `""`, which is falsy, so the install argument is `n` without the `@` |
| `Npm.ProbeScript` | bzt/modules/javascript.py:247-252 | both probe scripts name the package and print the sentinel the verdict looks for; the classic script starts with `require('<name>')`, the module script with `import('<name>')` and contains the `process.exit(1)` failure exit |
| `Npm.ProbeCommand` | bzt/modules/javascript.py:245-252 | classic probe is `[node, "-e", script]` with the `require('<name>')` script; module probe is `[node, "--input-type=module", "-e", script]` with the `import('<name>')` script that exits with `process.exit(1)` on failure; the script prints the sentinel |
| `Npm.ProbeCwd` | bzt/modules/javascript.py:245-254 | the probe runs in `tools_dir/node_modules` iff the package is a module package and `./node_modules` does not exist; otherwise in the current directory |
| `Npm.ProbeVerdictOnOutput` | bzt/modules/javascript.py:259-264 | output that contains the sentinel anywhere means installed; a failed call never does |
| `Npm.NpmPackage.CheckIfInstalled` | bzt/modules/javascript.py:240-264 | returns true iff the call of the kind's probe in the chosen directory completes and its output contains `"<name> is installed"` |
| `Npm.NpmPackage.InstallInvocation` | bzt/modules/javascript.py:266-309 | install runs exactly `[npm, "install", arg, "--prefix", tools_dir]` in the current directory, with `arg` from the parsed name and version; a local module runs exactly `[npm, "install", ".", "--install-links", "--prefix", tools_dir]` in `package_local_path` |
| `Npm.NpmPackage.constructor` | bzt/modules/javascript.py:224-238 | the fields hold the parsed name and version, the kind, the tools directory and the node and npm tools |
| `Npm.NewPackage` | bzt/modules/javascript.py:224-238 | construction fails exactly when parsing raises; otherwise a fresh package with the parsed fields |
| `Npm.LocalPackagePath` | bzt/modules/javascript.py:294-296 | an absolute `PACKAGE_LOCAL_PATH` is kept; a relative one goes under the resources directory, so it is absolute when that directory is |
| `Npm.MochaPackageName` | bzt/modules/javascript.py:312-313 | `mocha@10.6.0` parses to (`mocha`, `10.6.0`) and installs as `mocha@10.6.0` |
| `Npm.SeleniumWebdriverPackageName` | bzt/modules/javascript.py:316-317 | `selenium-webdriver@4.23.0` parses to its name and version and installs as itself |
| `Npm.TsxPackageName` | bzt/modules/javascript.py:319-320 | `tsx@4.19.2` parses to (`tsx`, `4.19.2`) and installs as itself |
| `Npm.NewmanPackageName` | bzt/modules/javascript.py:322-323 | `newman` is kept whole with the version already set |
| `Npm.NewmanToolPathInInstallTree` | bzt/modules/javascript.py:325-327 | Newman's tool path is `bin/newman.js` inside the `newman` package directory under `tools_dir/node_modules` |
| `Npm.NewNewman` | bzt/modules/javascript.py:322-327 | a Newman tool is a classic `newman` package whose tool path is computed from `tools_dir` |
| `Executors.MochaCommandLineLayout` | bzt/modules/javascript.py:83-98 | the Mocha command starts with `[node, plugin, "--report-file", report, "--test-suite", script]`; `--iterations` appears iff iterations are set, `--hold-for` iff hold is set, in that order; length is 6 plus 2 per flag; the values read back as the numbers |
| `Executors.MochaExample` | bzt/modules/javascript.py:86-98 | iterations 5 and hold 10 give `--iterations 5 --hold-for 10` after the head |
| `Executors.MochaTester.constructor` | bzt/modules/javascript.py:54-58 | the default tools directory is `~/.bzt/selenium-taurus/mocha`, with nothing prepared or launched |
| `Executors.MochaTester.Prepare` | bzt/modules/javascript.py:60-68 | resolves the tools directory; adds tools `node_modules`, then local `node_modules` with `finish=True`, to NODE_PATH; raises a configuration error iff no script is given, before any tool is requested |
| `Executors.MochaTester.LaunchCommandLine` | bzt/modules/javascript.py:83-84 | node path, plugin path, then the arguments unchanged |
| `Executors.MochaTester.Startup` | bzt/modules/javascript.py:86-100 | the launched process is `MochaCommandLine` with no working directory (`None`), since `get_launch_cwd()` is never overridden; Mocha runs in the current directory |
| `Executors.VarDump` | bzt/modules/javascript.py:170-193 | the result is always `["--<key>", x]`; a string is passed as itself with no file; otherwise `x` is the artifact, which holds `{"values": ...}` |
| `Executors.MappingValues` | bzt/modules/javascript.py:180-187 | the mapping loop leaves `values` as the object of the last entry, or `[]` for an empty mapping |
| `Executors.MappingDumpLosesEarlierEntries` | bzt/modules/javascript.py:181-187 | with two differently named entries the document holds only the second, and `values` is not a list |
| `Executors.AccumulatedValues` | bzt/modules/javascript.py:181-187 | the corrected loop gives a list with one object per entry, in iteration order |
| `Executors.NewmanCommandLineLayout` | bzt/modules/javascript.py:138-168 | the fixed 10-element head; then optional `--timeout-request ms`; optional `--delay-request ms`; the `--globals` and `--environment` pairs exactly as `_dump_vars` returns them; `--iteration-count n` iff iterations are set; values read back as the numbers |
| `Executors.NewmanVarDumpArguments` | bzt/modules/javascript.py:161-162 | right after the head and the optional durations come the four arguments of `_dump_vars("globals")` then `_dump_vars("environment")` |
| `Executors.NewmanExample` | bzt/modules/javascript.py:152-162 | timeout 2000 ms gives `--timeout-request 2000`; string globals `foo=bar` gives `--globals foo=bar` with no file; a mapping writes an artifact |
| `Executors.NewmanOpensTheScript` | bzt/modules/javascript.py:142-143 | running in the script's directory with the script's basename names the script's full path |
| `Executors.NewmanExecutor.constructor` | bzt/modules/javascript.py:110-113 | the default tools directory is `~/.bzt/newman`, with nothing prepared, launched or written |
| `Executors.NewmanExecutor.Prepare` | bzt/modules/javascript.py:115-125 | adds tools `node_modules`, then the resources directory, to NODE_PATH; raises a configuration error iff no script is given, before tools are requested; on success resolves the tools directory again and sets newman's path under it |
| `Executors.NewmanExecutor.LaunchCommandLine` | bzt/modules/javascript.py:138-139 | node path, newman path, then the arguments unchanged |
| `Executors.NewmanExecutor.DumpVars` | bzt/modules/javascript.py:170-193 | returns `VarDump`'s arguments; appends its artifact, if any, to the written files |
| `Executors.NewmanExecutor.Startup` | bzt/modules/javascript.py:141-168 | the launched process is `NewmanCommandLine` run in the script's directory; the `globals` then `environment` artifacts are written in that order |

## Left out

- Subprocess execution (`self.call`, `self._execute`, the process handle) is not modelled. A call's outcome is an input. The install call's outcome is only logged, so `install` is modelled as the invocation it makes.
- Logging is not modelled, including the `out += err` that only feeds a log line in `NPM.check_if_installed`.
- The tool lifecycle is not part of this model: `RequiredTool`, `_get_tool`, `_check_tools`, the check → install → re-check cycle, the `installable=False` flag, `TclLibrary` and `reporting_setup`. `install_required_tools` appears only as the `toolsRequested` flag and the node, plugin and newman paths.
- The model assumes that `_get_tool` keeps the `tool_path` that a tool's constructor computes.
- The merge semantics of `env.add_path` (the `finish=True` precedence) are not modelled. Only the order of the contributions is recorded.
- `get_full_path`, `get_script_path`, `get_load`, `get_scenario`, `get_think_time`, `dehumanize_time`, `engine.create_artifact`, `is_windows` and `os.path.exists("./node_modules")` are not modelled. Their results are inputs.
- Artifacts are recorded as JSON document values. `to_json` serialisation and the file write are not modelled.
- Paths follow `posixpath`. Windows path rules are not modelled.
- `Npm.LocalPackagePath` does not apply `os.path.normpath`, so `.` and `..` segments of a relative `PACKAGE_LOCAL_PATH` are not collapsed.
- `Npm.NpmPackage.constructor` requires that `PACKAGE_NAME` parses. The raising case is covered by `Npm.NewPackage`.
- `Executors.VarDump` covers string, list and mapping values only. Other values, such as `None` or a number, make the source raise in `iteritems`, and they are not modelled.
- `Executors.MochaTester.Startup` takes iterations and hold as integers, with 0 for unset. A float hold would be rendered by `str` differently.
- `Executors.NewmanExecutor.Startup` takes the timeout and think time as integer milliseconds. The float `dehumanize_time(...) * 1000` and its truncation by `int` are not modelled.
- The Taurus Newman reporter's tool path (lines 335-338) is not modelled. The command line never uses it; the reporter is found through the NODE_PATH entry for the resources directory.
- `NodeTSXModule` appears only through its package name (`Npm.TsxPackageName`). Its use as an ES-module package is the `EsModule` kind.

## Findings

| source | as written | input that shows it | evidently intended | confidence | as-written member | corrected member |
|---|---|---|---|---|---|---|
| bzt/modules/javascript.py:181-187 | each mapping entry overwrites `data["values"]` with a single object | `globals: {"a": 1, "b": 2}` writes `{"values": {"key": "b", ...}}`, so `a` is lost and `values` is not a list | append one `{"key", "value", "type", "enabled"}` object per entry to the `values` list | high, not executed | `Executors.MappingDumpLosesEarlierEntries` | `Executors.AccumulatedValues` |

The executor model (`Executors.NewmanExecutor.DumpVars`) keeps the behaviour
as written, because it models what the code does. `Executors.AccumulatedValues`
is the intended loop, with its property proved.
