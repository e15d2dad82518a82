/**
 * The npm side of the JavaScript executors (bzt/modules/javascript.py):
 * finding the npm executable (`NPM`), and the tools that are npm packages
 * (`NPMPackage` and its variants): how a `PACKAGE_NAME` such as
 * `mocha@10.6.0` or `@scope/pkg@1.2` splits into name and version, how
 * presence is probed with node, and which `npm install` command is issued.
 *
 * Subprocesses are not run: a call is an `Invocation` and its outcome is
 * whatever the `call` argument says.
 */
module Npm {
  import opened Wrappers
  import opened Text

  /** A command line and its working directory (`None`: the current one). */
  datatype Invocation = Invocation(cmd: seq<string>, cwd: Option<string>)

  /** What `RequiredTool.call` gives back: its output, or one of `CALL_PROBLEMS`. */
  datatype CallOutcome = Completed(out: string, err: string) | CallFailed

  /** The node runtime tool; only its `tool_path` is used here. */
  class NodeTool {
    var toolPath: string

    constructor (toolPath: string)
      ensures this.toolPath == toolPath
    {
      this.toolPath := toolPath;
    }
  }

  // ---------------------------------------------------------------------
  // NPM: discovering the npm executable
  // ---------------------------------------------------------------------

  /** The names tried as the npm executable, in order. */
  function NpmCandidates(isWindows: bool): (c: seq<string>)
    ensures |c| == if isWindows then 2 else 1
    ensures c[0] == "npm"
    ensures isWindows ==> c[1] == "npm.cmd"
  {
    if isWindows then ["npm", "npm.cmd"] else ["npm"]
  }

  /** The call that tests one candidate. */
  function VersionQuery(candidate: string): Invocation
  {
    Invocation([candidate, "--version"], None)
  }

  /** Calling `candidate --version` did not fail. */
  predicate Responds(call: Invocation -> CallOutcome, candidate: string)
  {
    call(VersionQuery(candidate)).Completed?
  }

  /** The first candidate that responds, if any. */
  function FirstResponding(candidates: seq<string>, call: Invocation -> CallOutcome): Option<string>
  {
    if candidates == [] then None
    else if Responds(call, candidates[0]) then Some(candidates[0])
    else FirstResponding(candidates[1..], call)
  }

  /**
   * The discovery picks a responding candidate exactly when there is one,
   * and it is the earliest: every candidate before it failed.
   */
  lemma {:induction false} FirstRespondingIsEarliest(candidates: seq<string>, call: Invocation -> CallOutcome)
    ensures FirstResponding(candidates, call).Some? <==>
              exists k :: 0 <= k < |candidates| && Responds(call, candidates[k])
    ensures FirstResponding(candidates, call).Some? ==>
              exists k :: 0 <= k < |candidates| && candidates[k] == FirstResponding(candidates, call).value
                && Responds(call, candidates[k])
                && forall j :: 0 <= j < k ==> !Responds(call, candidates[j])
  {
    if candidates != [] && !Responds(call, candidates[0]) {
      var rest := candidates[1..];
      FirstRespondingIsEarliest(rest, call);
      if FirstResponding(rest, call).Some? {
        var k :| 0 <= k < |rest| && rest[k] == FirstResponding(rest, call).value
                 && Responds(call, rest[k])
                 && forall j :: 0 <= j < k ==> !Responds(call, rest[j]);
        assert candidates[k + 1] == rest[k];
        assert forall j :: 0 <= j < k + 1 ==> !Responds(call, candidates[j]) by {
          forall j | 0 <= j < k + 1 ensures !Responds(call, candidates[j]) {
            if j > 0 { assert candidates[j] == rest[j - 1]; }
          }
        }
      } else {
        forall k | 0 <= k < |candidates| ensures !Responds(call, candidates[k]) {
          if k > 0 { assert candidates[k] == rest[k - 1]; }
        }
      }
    }
  }

  /** `NPM`: not installable; usable when one of its candidate names answers `--version`. */
  class NpmTool {
    var toolPath: string

    constructor (toolPath: string)
      ensures this.toolPath == toolPath
    {
      this.toolPath := toolPath;
    }

    /**
     * Tries "npm", then "npm.cmd" on Windows; the first that answers becomes
     * the tool path. When none answers, the tool path is left as it was.
     */
    method CheckIfInstalled(isWindows: bool, call: Invocation -> CallOutcome) returns (installed: bool)
      modifies this`toolPath
      ensures installed <==> FirstResponding(NpmCandidates(isWindows), call).Some?
      ensures toolPath == FirstResponding(NpmCandidates(isWindows), call).GetOr(old(toolPath))
    {
      var candidates := ["npm"];
      if isWindows {
        candidates := candidates + ["npm.cmd"];
      }
      var i := 0;
      while i < |candidates|
        invariant 0 <= i <= |candidates|
        invariant FirstResponding(NpmCandidates(isWindows), call) == FirstResponding(candidates[i..], call)
        invariant toolPath == old(toolPath)
      {
        var outcome := call(VersionQuery(candidates[i]));
        if outcome.CallFailed? {
          assert candidates[i..][1..] == candidates[i + 1..];
          i := i + 1;
          continue;
        }
        toolPath := candidates[i];
        return true;
      }
      return false;
    }
  }

  // ---------------------------------------------------------------------
  // NPMPackage: name and version
  // ---------------------------------------------------------------------

  /** A package name and its version (`None` is Python's `None`). */
  datatype PackageId = PackageId(name: string, version: Option<string>)

  /** `name, version = spec.split("@")` raises when there are more than two pieces. */
  datatype ParseError = TooManyValuesToUnpack(packageSpec: string)

  /** A scoped package name begins with '@' (`@scope/name`). */
  predicate IsScoped(spec: string) { |spec| > 0 && spec[0] == '@' }

  /** A package name as npm writes it: non-empty, '@' at most as its first character. */
  predicate ValidName(name: string) { |name| > 0 && '@' !in name[1..] }

  /** Python truthiness of the version: neither `None` nor the empty string. */
  predicate Truthy(version: Option<string>) { version.Some? && version.value != "" }

  /**
   * How `NPMPackage.__init__` reads `PACKAGE_NAME`. A scoped name keeps
   * its '@' and takes the third '@'-piece, if any, as its version; an
   * unscoped name with one '@' is split in two; with more it fails; without
   * any it is the name. `defaultVersion` is the version the base class
   * already set, kept when the name carries none.
   */
  function ParsePackageName(spec: string, defaultVersion: Option<string>): (r: Result<PackageId, ParseError>)
    ensures r.Ok? ==> r.value.name <= spec
    ensures r.Ok? && IsScoped(spec) ==> |r.value.name| > 0 && r.value.name[0] == '@' && '@' !in r.value.name[1..]
  {
    if IsScoped(spec) then
      SplitAfterHead("", '@', spec[1..]);
      assert [] + ['@'] + spec[1..] == spec;
      var parts := Split(spec, '@');
      assert parts[1..] == Split(spec[1..], '@');
      assert spec == "@" + spec[1..];
      Ok(PackageId("@" + parts[1], if |parts| > 2 then Some(parts[2]) else defaultVersion))
    else if '@' in spec then
      var parts := Split(spec, '@');
      if |parts| == 2 then Ok(PackageId(parts[0], Some(parts[1])))
      else Err(TooManyValuesToUnpack(spec))
    else
      Ok(PackageId(spec, defaultVersion))
  }

  /** The argument given to `npm install`: the name, with `@version` when the version is truthy. */
  function InstallArgument(id: PackageId): (arg: string)
    ensures id.name <= arg
    ensures |arg| > |id.name| <==> Truthy(id.version)
  {
    if Truthy(id.version) then id.name + "@" + id.version.value else id.name
  }

  /** Parsing fails exactly for unscoped names with two or more '@'. */
  lemma ParseFailsIff(spec: string, defaultVersion: Option<string>)
    ensures ParsePackageName(spec, defaultVersion).Err? <==> !IsScoped(spec) && Count(spec, '@') >= 2
  {
    SplitLength(spec, '@');
  }

  /** `name@version` splits at the '@' that follows the name, scoped or not. */
  lemma ParseNameAtVersion(name: string, version: string, defaultVersion: Option<string>)
    requires ValidName(name) && '@' !in version
    ensures ParsePackageName(name + "@" + version, defaultVersion) == Ok(PackageId(name, Some(version)))
  {
    var spec := name + "@" + version;
    if name[0] == '@' {
      var scope := name[1..];
      assert spec == [] + ['@'] + (scope + ['@'] + version);
      SplitAfterHead([], '@', scope + ['@'] + version);
      SplitAfterHead(scope, '@', version);
      assert Split(version, '@') == [version];
      assert "@" + scope == name;
    } else {
      assert '@' !in name by {
        forall k | 0 <= k < |name| ensures name[k] != '@' {
          if k > 0 { assert name[k] == name[1..][k - 1]; }
        }
      }
      assert spec == name + ['@'] + version;
      SplitAfterHead(name, '@', version);
      assert Split(version, '@') == [version];
    }
  }

  /** A name without a version is kept whole, and so is the version already set. */
  lemma ParseBareName(name: string, defaultVersion: Option<string>)
    requires ValidName(name)
    ensures ParsePackageName(name, defaultVersion) == Ok(PackageId(name, defaultVersion))
  {
    if name[0] == '@' {
      var scope := name[1..];
      assert name == [] + ['@'] + scope;
      SplitAfterHead([], '@', scope);
      assert Split(scope, '@') == [scope];
      assert "@" + scope == name;
    } else {
      assert '@' !in name by {
        forall k | 0 <= k < |name| ensures name[k] != '@' {
          if k > 0 { assert name[k] == name[1..][k - 1]; }
        }
      }
    }
  }

  /** For a scoped name, '@'-pieces after the version are dropped. */
  lemma ScopedExtraPiecesDropped(scope: string, version: string, tail: string, defaultVersion: Option<string>)
    requires '@' !in scope && '@' !in version
    ensures ParsePackageName("@" + scope + "@" + version + "@" + tail, defaultVersion)
         == ParsePackageName("@" + scope + "@" + version, defaultVersion)
  {
    var spec := "@" + scope + "@" + version + "@" + tail;
    assert spec == [] + ['@'] + (scope + ['@'] + (version + ['@'] + tail));
    SplitAfterHead([], '@', scope + ['@'] + (version + ['@'] + tail));
    SplitAfterHead(scope, '@', version + ['@'] + tail);
    SplitAfterHead(version, '@', tail);
    assert Split(spec, '@')[1] == scope && Split(spec, '@')[2] == version;
    ParseNameAtVersion("@" + scope, version, defaultVersion);
  }

  /**
   * Install after parse gives back `PACKAGE_NAME` for `name@version`
   * (version non-empty) and, when no version was set before, for a bare name.
   */
  lemma InstallArgumentRoundTrip(name: string, version: string, defaultVersion: Option<string>)
    requires ValidName(name) && '@' !in version
    ensures version != "" ==>
              InstallArgument(ParsePackageName(name + "@" + version, defaultVersion).value) == name + "@" + version
    ensures !Truthy(defaultVersion) ==>
              InstallArgument(ParsePackageName(name, defaultVersion).value) == name
  {
    ParseNameAtVersion(name, version, defaultVersion);
    ParseBareName(name, defaultVersion);
  }

  /** A trailing '@' with nothing after it is not given back: the empty version is falsy. */
  lemma EmptyVersionDropped(name: string, defaultVersion: Option<string>)
    requires ValidName(name)
    ensures ParsePackageName(name + "@", defaultVersion) == Ok(PackageId(name, Some("")))
    ensures InstallArgument(ParsePackageName(name + "@", defaultVersion).value) == name
  {
    assert name + "@" == name + "@" + "";
    ParseNameAtVersion(name, "", defaultVersion);
  }

  // ---------------------------------------------------------------------
  // NPMPackage: presence probe
  // ---------------------------------------------------------------------

  /** The sentinel the probe prints and the check looks for. */
  function OkMessage(name: string): string { name + " is installed" }

  /**
   * The facts about a probe script of the form
   * `<pre><name><close...><ok><before><needle><after>`, stated on opaque
   * pieces so that the literal text of the scripts is never unfolded.
   */
  lemma ProbeScriptPieces(pre: string, name: string, close: string, rest: string, ok: string,
                          before: string, needle: string, after: string)
    ensures var s := pre + name + (close + rest) + ok + (before + needle + after);
      && Contains(s, name) && Contains(s, ok) && Contains(s, needle)
      && pre + name + close <= s
  {
    var s := pre + name + (close + rest) + ok + (before + needle + after);
    assert s == pre + name + (close + rest + ok + before + needle + after);
    ContainsInside(pre, name, close + rest + ok + before + needle + after);
    assert s == (pre + name + close + rest) + ok + (before + needle + after);
    ContainsInside(pre + name + close + rest, ok, before + needle + after);
    assert s == (pre + name + close + rest + ok + before) + needle + after;
    ContainsInside(pre + name + close + rest + ok + before, needle, after);
    assert s == (pre + name + close) + (rest + ok + before + needle + after);
  }

  /**
   * The node script of the probe: `require('<name>')` for classic packages;
   * for ES modules a dynamic `import('<name>')` that prints the sentinel on
   * success and ends with `process.exit(1)` on failure.
   */
  function ProbeScript(name: string, isModule: bool): (script: string)
    ensures Contains(script, OkMessage(name))
    ensures Contains(script, name)
    ensures !isModule ==> "require('" + name + "')" <= script
    ensures isModule ==> "import('" + name + "')" <= script && Contains(script, "process.exit(1)")
  {
    var ok := OkMessage(name);
    if !isModule then
      ProbeScriptPieces("require('", name, "')", "; console.log('", ok, "", "');", "");
      "require('" + name + ("')" + "; console.log('") + ok + ("" + "');" + "")
    else
      ProbeScriptPieces("import('", name, "')", ".then(() => { console.log('", ok,
                        "'); process.exit(0); }).catch(() => ", "process.exit(1)", ");");
      "import('" + name + ("')" + ".then(() => { console.log('") + ok
        + ("'); process.exit(0); }).catch(() => " + "process.exit(1)" + ");")
  }

  /** The probe's command line: node, `--input-type=module` for ES modules, `-e` and the script. */
  function ProbeCommand(nodePath: string, name: string, isModule: bool): (cmd: seq<string>)
    ensures |cmd| == if isModule then 4 else 3
    ensures cmd[0] == nodePath && cmd[|cmd| - 2] == "-e"
    ensures isModule ==> cmd[1] == "--input-type=module"
    ensures Contains(cmd[|cmd| - 1], OkMessage(name))
    ensures !isModule ==> "require('" + name + "')" <= cmd[|cmd| - 1]
    ensures isModule ==> "import('" + name + "')" <= cmd[|cmd| - 1] && Contains(cmd[|cmd| - 1], "process.exit(1)")
  {
    if isModule then [nodePath, "--input-type=module", "-e", ProbeScript(name, true)]
    else [nodePath, "-e", ProbeScript(name, false)]
  }

  /** `os.path.join(tools_dir, "node_modules")`: where `npm install --prefix tools_dir` puts packages. */
  function NodeModulesDir(toolsDir: string): string
  {
    PathJoin(toolsDir, "node_modules")
  }

  /**
   * The probe's working directory: ES-module imports ignore NODE_PATH, so
   * they run inside the tools' node_modules unless ./node_modules exists.
   */
  function ProbeCwd(isModule: bool, localNodeModulesExists: bool, toolsDir: string): (cwd: Option<string>)
    ensures cwd.Some? <==> isModule && !localNodeModulesExists
    ensures cwd.Some? ==> cwd.value == NodeModulesDir(toolsDir)
  {
    if isModule && !localNodeModulesExists then Some(NodeModulesDir(toolsDir)) else None
  }

  /** The package is present when the probe ran and its output contains the sentinel. */
  predicate ProbeVerdict(outcome: CallOutcome, name: string)
  {
    outcome.Completed? && Contains(outcome.out, OkMessage(name))
  }

  /** A probe that printed the sentinel amid any other output counts as present; a failed call never does. */
  lemma ProbeVerdictOnOutput(name: string, before: string, after: string, err: string)
    ensures ProbeVerdict(Completed(before + OkMessage(name) + after, err), name)
    ensures !ProbeVerdict(CallFailed, name)
  {
    ContainsInside(before, OkMessage(name), after);
  }

  // ---------------------------------------------------------------------
  // NPMPackage and its variants
  // ---------------------------------------------------------------------

  /**
   * The package variants: `NPMPackage` (classic, probed with `require`),
   * `NPMModulePackage` (ES module) and `NPMLocalModulePackage` (ES module
   * installed from a local directory).
   */
  datatype PackageKind = Classic | EsModule | LocalModule(localPath: string)

  /** `PACKAGE_LOCAL_PATH`, taken relative to the resources directory unless absolute. */
  function LocalPackagePath(path: string, resourcesDir: string): (p: string)
    ensures IsAbs(path) ==> p == path
    ensures IsAbs(resourcesDir) ==> IsAbs(p)
    ensures !IsAbs(path) ==> resourcesDir <= p
  {
    if IsAbs(path) then path else PathJoin(resourcesDir, path)
  }

  function ResolveKind(kind: PackageKind, resourcesDir: string): PackageKind
  {
    match kind
    case LocalModule(path) => LocalModule(LocalPackagePath(path, resourcesDir))
    case _ => kind
  }

  class NpmPackage {
    var packageName: string
    var version: Option<string>
    var kind: PackageKind
    var toolPath: string
    var toolsDir: string
    var node: NodeTool
    var npm: NpmTool

    /** `NPMPackage.__init__` (and its variants') once `PACKAGE_NAME` has split without error. */
    constructor (spec: string, defaultVersion: Option<string>, kind: PackageKind, resourcesDir: string,
                 toolPath: string, toolsDir: string, node: NodeTool, npm: NpmTool)
      requires ParsePackageName(spec, defaultVersion).Ok?
      ensures PackageId(packageName, version) == ParsePackageName(spec, defaultVersion).value
      ensures this.kind == ResolveKind(kind, resourcesDir)
      ensures this.toolPath == toolPath && this.toolsDir == toolsDir
      ensures this.node == node && this.npm == npm
    {
      var id := ParsePackageName(spec, defaultVersion).value;
      packageName := id.name;
      version := id.version;
      this.kind := ResolveKind(kind, resourcesDir);
      this.toolPath := toolPath;
      this.toolsDir := toolsDir;
      this.node := node;
      this.npm := npm;
    }

    /** `is_module_package` */
    predicate IsModulePackage()
      reads this
    {
      !kind.Classic?
    }

    /**
     * `check_if_installed`: runs the probe matching the package kind, in the
     * directory `ProbeCwd` picks, and reports whether the sentinel was printed.
     * Nothing is changed.
     */
    method CheckIfInstalled(call: Invocation -> CallOutcome, localNodeModulesExists: bool) returns (installed: bool)
      ensures installed <==>
        ProbeVerdict(call(Invocation(ProbeCommand(node.toolPath, packageName, IsModulePackage()),
                                     ProbeCwd(IsModulePackage(), localNodeModulesExists, toolsDir))),
                     packageName)
    {
      var okMsg := OkMessage(packageName);
      var processCwd: Option<string> := None;
      var cmdline: seq<string>;
      if !kind.Classic? {
        cmdline := [node.toolPath, "--input-type=module", "-e", ProbeScript(packageName, true)];
        if !localNodeModulesExists {
          processCwd := Some(PathJoin(toolsDir, "node_modules"));
        }
      } else {
        cmdline := [node.toolPath, "-e", ProbeScript(packageName, false)];
      }
      var outcome := call(Invocation(cmdline, processCwd));
      if outcome.CallFailed? {
        return false;
      }
      installed := Contains(outcome.out, okMsg);
    }

    /**
     * The call `install` makes: `npm install <name[@version]> --prefix <tools_dir>`,
     * or for a local module `npm install . --install-links --prefix <tools_dir>`
     * run inside the module's directory. Its outcome is only logged.
     */
    function InstallInvocation(): (inv: Invocation)
      reads this, npm
      ensures |inv.cmd| >= 5 && inv.cmd[0] == npm.toolPath && inv.cmd[1] == "install"
      ensures inv.cmd[|inv.cmd| - 2..] == ["--prefix", toolsDir]
      ensures inv.cwd.Some? <==> kind.LocalModule?
      ensures !kind.LocalModule? ==> |inv.cmd| == 5 && inv.cwd == None
      ensures !kind.LocalModule? ==> inv.cmd[2] == InstallArgument(PackageId(packageName, version))
      ensures kind.LocalModule? ==>
        inv.cmd == [npm.toolPath, "install", ".", "--install-links", "--prefix", toolsDir]
        && inv.cwd == Some(kind.localPath)
    {
      match kind
      case LocalModule(path) =>
        Invocation([npm.toolPath, "install", ".", "--install-links", "--prefix", toolsDir], Some(path))
      case _ =>
        Invocation([npm.toolPath, "install", InstallArgument(PackageId(packageName, version)), "--prefix", toolsDir], None)
    }
  }

  /** `NPMPackage.__init__` as a whole: the `ValueError` of an unscoped name with two '@' included. */
  method NewPackage(spec: string, defaultVersion: Option<string>, kind: PackageKind, resourcesDir: string,
                    toolPath: string, toolsDir: string, node: NodeTool, npm: NpmTool)
    returns (r: Result<NpmPackage, ParseError>)
    ensures r.Err? <==> ParsePackageName(spec, defaultVersion).Err?
    ensures r.Err? ==> r.error == ParsePackageName(spec, defaultVersion).error
    ensures r.Ok? ==> fresh(r.value)
    ensures r.Ok? ==> PackageId(r.value.packageName, r.value.version) == ParsePackageName(spec, defaultVersion).value
    ensures r.Ok? ==> r.value.kind == ResolveKind(kind, resourcesDir)
    ensures r.Ok? ==> r.value.toolPath == toolPath && r.value.toolsDir == toolsDir
    ensures r.Ok? ==> r.value.node == node && r.value.npm == npm
  {
    var parsed := ParsePackageName(spec, defaultVersion);
    if parsed.Err? {
      return Err(parsed.error);
    }
    var p := new NpmPackage(spec, defaultVersion, kind, resourcesDir, toolPath, toolsDir, node, npm);
    return Ok(p);
  }

  // ---------------------------------------------------------------------
  // The packages the executors use
  // ---------------------------------------------------------------------

  const MOCHA_PACKAGE := "mocha@10.6.0"
  const SELENIUM_WEBDRIVER_PACKAGE := "selenium-webdriver@4.23.0"
  const TSX_PACKAGE := "tsx@4.19.2"
  const NEWMAN_PACKAGE := "newman"

  /** Mocha's `PACKAGE_NAME` splits at its '@', and install gives it back. */
  lemma MochaPackageName(defaultVersion: Option<string>)
    ensures ParsePackageName(MOCHA_PACKAGE, defaultVersion) == Ok(PackageId("mocha", Some("10.6.0")))
    ensures InstallArgument(ParsePackageName(MOCHA_PACKAGE, defaultVersion).value) == MOCHA_PACKAGE
  {
    BundledName("mocha", "10.6.0", MOCHA_PACKAGE, defaultVersion);
  }

  /** The selenium-webdriver `PACKAGE_NAME` splits at its '@', and install gives it back. */
  lemma SeleniumWebdriverPackageName(defaultVersion: Option<string>)
    ensures ParsePackageName(SELENIUM_WEBDRIVER_PACKAGE, defaultVersion)
         == Ok(PackageId("selenium-webdriver", Some("4.23.0")))
    ensures InstallArgument(ParsePackageName(SELENIUM_WEBDRIVER_PACKAGE, defaultVersion).value)
         == SELENIUM_WEBDRIVER_PACKAGE
  {
    BundledName("selenium-webdriver", "4.23.0", SELENIUM_WEBDRIVER_PACKAGE, defaultVersion);
  }

  /** The tsx `PACKAGE_NAME` splits at its '@', and install gives it back. */
  lemma TsxPackageName(defaultVersion: Option<string>)
    ensures ParsePackageName(TSX_PACKAGE, defaultVersion) == Ok(PackageId("tsx", Some("4.19.2")))
    ensures InstallArgument(ParsePackageName(TSX_PACKAGE, defaultVersion).value) == TSX_PACKAGE
  {
    BundledName("tsx", "4.19.2", TSX_PACKAGE, defaultVersion);
  }

  /** Newman's bare `PACKAGE_NAME` keeps the version the base class set. */
  lemma NewmanPackageName(defaultVersion: Option<string>)
    ensures ParsePackageName(NEWMAN_PACKAGE, defaultVersion) == Ok(PackageId(NEWMAN_PACKAGE, defaultVersion))
  {
    NoAt(NEWMAN_PACKAGE);
    ParseBareName(NEWMAN_PACKAGE, defaultVersion);
  }

  lemma BundledName(name: string, version: string, spec: string, defaultVersion: Option<string>)
    requires spec == name + "@" + version
    requires forall k :: 0 <= k < |name| ==> 'a' <= name[k] <= 'z' || name[k] == '-'
    requires forall k :: 0 <= k < |version| ==> '0' <= version[k] <= '9' || version[k] == '.'
    requires name != "" && version != ""
    ensures ParsePackageName(spec, defaultVersion) == Ok(PackageId(name, Some(version)))
    ensures InstallArgument(ParsePackageName(spec, defaultVersion).value) == spec
  {
    NoAt(name);
    ParseNameAtVersion(name, version, defaultVersion);
  }

  lemma NoAt(name: string)
    requires name != ""
    requires forall k :: 0 <= k < |name| ==> 'a' <= name[k] <= 'z' || name[k] == '-'
    ensures ValidName(name)
  {
    assert '@' !in name[1..] by {
      forall k | 0 <= k < |name[1..]| ensures name[1..][k] != '@' { assert name[1..][k] == name[k + 1]; }
    }
  }

  /** `Newman.__init__`: the tool path is newman's script under the tools' node_modules. */
  function NewmanToolPath(toolsDir: string): string
  {
    toolsDir + "/node_modules/" + NEWMAN_PACKAGE + "/bin/newman.js"
  }

  /**
   * Newman's tool path lies in the package directory that
   * `npm install newman --prefix tools_dir` fills (its name is the whole
   * `PACKAGE_NAME`, see `NewmanPackageName`), inside the same node_modules
   * that NODE_PATH and the module probe point at.
   */
  lemma NewmanToolPathInInstallTree(toolsDir: string)
    requires toolsDir != "" && toolsDir[|toolsDir| - 1] != '/'
    ensures NewmanToolPath(toolsDir) == PathJoin(NodeModulesDir(toolsDir), NEWMAN_PACKAGE) + "/bin/newman.js"
  {
    var dir := toolsDir + "/node_modules";
    assert NodeModulesDir(toolsDir) == dir;
    assert dir[|dir| - 1] == 's';
    assert PathJoin(dir, NEWMAN_PACKAGE) == dir + "/" + NEWMAN_PACKAGE;
  }

  /** `Newman(tools_dir=...)`: a classic package whose tool path is computed from the tools directory. */
  method NewNewman(toolsDir: string, defaultVersion: Option<string>, resourcesDir: string, node: NodeTool, npm: NpmTool)
    returns (p: NpmPackage)
    ensures fresh(p)
    ensures p.packageName == NEWMAN_PACKAGE && p.version == defaultVersion && p.kind == Classic
    ensures p.toolPath == NewmanToolPath(toolsDir) && p.toolsDir == toolsDir
    ensures p.node == node && p.npm == npm
  {
    NewmanPackageName(defaultVersion);
    var toolPath := toolsDir + "/node_modules/" + NEWMAN_PACKAGE + "/bin/newman.js";
    p := new NpmPackage(NEWMAN_PACKAGE, defaultVersion, Classic, resourcesDir, toolPath, toolsDir, node, npm);
  }
}
