/** The configuration tree and its three-level validation (src/config.rs).

    Every `validate` is a chain of early-return checks: the first check that
    fails decides the error, and a check over a list stops at the first
    failing element. The one impure input, whether a working directory exists
    on disk, is the oracle `pathExists` supplied by the caller. */
module Config {
  import opened Errors

  type Path = string

  const DirMissing := "project directory no longer exists"
  const NoCommand := "startup command needs to be specified"
  const EmptySegment := "malformed command, a segment cannot be empty"
  const EmptyName := "project name cannot be empty"
  const NoApplication := "project must contain at least one application"
  const NoProjects := "no projects in config"

  /** A task: a working directory and the command line to run there. */
  datatype TerminalConfig = TerminalConfig(workdir: Path, command: seq<string>)

  /** A named project. `programs` is read by the launcher but never validated. */
  datatype ProjectConfig = ProjectConfig(projectName: string, terminals: seq<TerminalConfig>, programs: seq<TerminalConfig>)

  datatype WorkonConfig = WorkonConfig(projects: seq<ProjectConfig>)

  /** A value that may be absent: the home directory, the project name on the command line. */
  datatype Option<T> = None | Some(value: T)

  // ---------------------------------------------------------------------------
  // What a valid configuration is, stated declaratively
  // ---------------------------------------------------------------------------

  ghost predicate WellFormedTask(t: TerminalConfig, pathExists: Path -> bool) {
    && pathExists(t.workdir)
    && |t.command| > 0
    && forall i :: 0 <= i < |t.command| ==> t.command[i] != ""
  }

  ghost predicate WellFormedProject(p: ProjectConfig, pathExists: Path -> bool) {
    && p.projectName != ""
    && |p.terminals| > 0
    && forall i :: 0 <= i < |p.terminals| ==> WellFormedTask(p.terminals[i], pathExists)
  }

  ghost predicate WellFormedConfig(c: WorkonConfig, pathExists: Path -> bool) {
    && |c.projects| > 0
    && forall i :: 0 <= i < |c.projects| ==> WellFormedProject(c.projects[i], pathExists)
  }

  /** Index `i` holds the first element of `xs` that `check` rejects. */
  ghost predicate FailsFirstAt<T>(xs: seq<T>, check: T -> Result<T>, i: int) {
    && 0 <= i < |xs|
    && check(xs[i]).Err?
    && forall j :: 0 <= j < i ==> check(xs[j]).Ok?
  }

  // ---------------------------------------------------------------------------
  // The checks
  // ---------------------------------------------------------------------------

  /** `iter().map(check).collect::<Result<Vec<_>>>()`: checks the elements in
      order, stops at the first error and returns it, and otherwise returns
      the checked values in order. */
  function Collect<T>(xs: seq<T>, check: T -> Result<T>): (r: Result<seq<T>>)
    ensures r.Ok? <==> forall i :: 0 <= i < |xs| ==> check(xs[i]).Ok?
    ensures r.Ok? ==> |r.value| == |xs| && forall i :: 0 <= i < |xs| ==> check(xs[i]) == Ok(r.value[i])
    ensures forall i :: FailsFirstAt(xs, check, i) ==> r == Err(check(xs[i]).error)
    decreases |xs|
  {
    if xs == [] then Ok([])
    else match check(xs[0])
      case Err(e) => Err(e)
      case Ok(v) =>
        match Collect(xs[1..], check)
        case Err(e) => Err(e)
        case Ok(vs) => Ok([v] + vs)
  }

  /** The segment loop of `TerminalConfig::validate`: every segment must be non-empty. */
  function ValidateSegments(segments: seq<string>): (r: Result<()>)
    ensures r.Ok? <==> forall i :: 0 <= i < |segments| ==> segments[i] != ""
    ensures r.Err? ==> r.error == InvalidConfig(EmptySegment)
    decreases |segments|
  {
    if segments == [] then Ok(())
    else if segments[0] == "" then Err(InvalidConfig(EmptySegment))
    else ValidateSegments(segments[1..])
  }

  /** `TerminalConfig::validate`: directory, then command, then segments. */
  function ValidateTerminal(t: TerminalConfig, pathExists: Path -> bool): (r: Result<TerminalConfig>)
    ensures r.Ok? <==> WellFormedTask(t, pathExists)
    ensures r.Ok? ==> r.value == t
    ensures !pathExists(t.workdir) ==> r == Err(InvalidConfig(DirMissing))
    ensures pathExists(t.workdir) && t.command == [] ==> r == Err(InvalidConfig(NoCommand))
    ensures pathExists(t.workdir) && (exists i :: 0 <= i < |t.command| && t.command[i] == "") ==>
              r == Err(InvalidConfig(EmptySegment))
  {
    if !pathExists(t.workdir) then Err(InvalidConfig(DirMissing))
    else if t.command == [] then Err(InvalidConfig(NoCommand))
    else match ValidateSegments(t.command)
      case Err(e) => Err(e)
      case Ok(_) => Ok(t)
  }

  /** `ValidateTerminal` with the oracle fixed, as the closure handed to `Collect`. */
  function TerminalCheck(pathExists: Path -> bool): TerminalConfig -> Result<TerminalConfig> {
    t => ValidateTerminal(t, pathExists)
  }

  /** `ProjectConfig::validate`: name, then the terminals in order, then
      "at least one terminal". The `programs` list is not looked at. */
  function ValidateProject(p: ProjectConfig, pathExists: Path -> bool): (r: Result<ProjectConfig>)
    ensures r.Ok? <==> WellFormedProject(p, pathExists)
    ensures r.Ok? ==> r.value == p
    ensures p.projectName == "" ==> r == Err(InvalidConfig(EmptyName))
    ensures p.projectName != "" ==>
              forall i :: FailsFirstAt(p.terminals, TerminalCheck(pathExists), i) ==>
                r == Err(ValidateTerminal(p.terminals[i], pathExists).error)
    ensures p.projectName != "" && p.terminals == [] ==> r == Err(InvalidConfig(NoApplication))
  {
    if p.projectName == "" then Err(InvalidConfig(EmptyName))
    else match Collect(p.terminals, TerminalCheck(pathExists))
      case Err(e) => Err(e)
      case Ok(terminals) =>
        if terminals == [] then Err(InvalidConfig(NoApplication)) else Ok(p)
  }

  function ProjectCheck(pathExists: Path -> bool): ProjectConfig -> Result<ProjectConfig> {
    p => ValidateProject(p, pathExists)
  }

  /** `WorkonConfig::validate`: the projects in order, then "at least one project". */
  function ValidateConfig(c: WorkonConfig, pathExists: Path -> bool): (r: Result<WorkonConfig>)
    ensures r.Ok? <==> WellFormedConfig(c, pathExists)
    ensures r.Ok? ==> r.value == c
    ensures forall i :: FailsFirstAt(c.projects, ProjectCheck(pathExists), i) ==>
              r == Err(ValidateProject(c.projects[i], pathExists).error)
    ensures c.projects == [] ==> r == Err(InvalidConfig(NoProjects))
  {
    match Collect(c.projects, ProjectCheck(pathExists))
    case Err(e) => Err(e)
    case Ok(projects) =>
      if projects == [] then Err(InvalidConfig(NoProjects)) else Ok(c)
  }

  /** The step of `WorkonConfig::current` after the file has been read and
      deserialized: the loaded configuration is returned only if it validates. */
  function Current(loaded: WorkonConfig, pathExists: Path -> bool): (r: Result<WorkonConfig>)
    ensures r.Ok? <==> WellFormedConfig(loaded, pathExists)
    ensures r.Ok? ==> r.value == loaded
    ensures r.Err? ==> r == ValidateConfig(loaded, pathExists)
  {
    match ValidateConfig(loaded, pathExists)
    case Err(e) => Err(e)
    case Ok(_) => Ok(loaded)
  }

  // ---------------------------------------------------------------------------
  // Defaults
  // ---------------------------------------------------------------------------

  /** The user's home directory when it can be resolved, the root otherwise. */
  function DefaultWorkdir(home: Option<Path>): Path {
    match home
    case Some(h) => h
    case None => "/"
  }

  function DefaultTerminal(home: Option<Path>): TerminalConfig {
    TerminalConfig(DefaultWorkdir(home), ["ls", "-la"])
  }

  function DefaultProject(home: Option<Path>): ProjectConfig {
    ProjectConfig("example project", [DefaultTerminal(home)], [])
  }

  function DefaultConfig(home: Option<Path>): WorkonConfig {
    WorkonConfig([DefaultProject(home)])
  }

  // ---------------------------------------------------------------------------
  // Lemmas
  // ---------------------------------------------------------------------------

  /** The default configuration: one project, "example project", with one
      terminal task running `ls -la` in the home directory (or `/` when the
      home directory cannot be resolved), and no programs. */
  lemma DefaultConfigShape(home: Option<Path>)
    ensures |DefaultConfig(home).projects| == 1
    ensures DefaultConfig(home).projects[0].projectName == "example project"
    ensures DefaultConfig(home).projects[0].terminals == [TerminalConfig(DefaultWorkdir(home), ["ls", "-la"])]
    ensures DefaultConfig(home).projects[0].programs == []
    ensures DefaultWorkdir(home) == if home.Some? then home.value else "/"
  {
  }

  /** The default configuration validates, unchanged, exactly when its working
      directory exists; otherwise the missing directory is what is reported. */
  lemma DefaultConfigIsValid(home: Option<Path>, pathExists: Path -> bool)
    ensures pathExists(DefaultWorkdir(home)) ==>
              ValidateConfig(DefaultConfig(home), pathExists) == Ok(DefaultConfig(home))
    ensures !pathExists(DefaultWorkdir(home)) ==>
              ValidateConfig(DefaultConfig(home), pathExists) == Err(InvalidConfig(DirMissing))
  {
  }

  /** Validation never looks at `programs`: replacing them changes nothing but
      the returned value itself. */
  lemma ProgramsAreNotValidated(p: ProjectConfig, programs: seq<TerminalConfig>, pathExists: Path -> bool)
    ensures ValidateProject(p.(programs := programs), pathExists).Ok? == ValidateProject(p, pathExists).Ok?
    ensures ValidateProject(p, pathExists).Err? ==>
              ValidateProject(p.(programs := programs), pathExists) == ValidateProject(p, pathExists)
  {
  }

  /** A valid configuration makes every terminal task of every project well formed. */
  lemma ValidConfigHasValidTerminals(c: WorkonConfig, pathExists: Path -> bool, i: int, j: int)
    requires ValidateConfig(c, pathExists).Ok?
    requires 0 <= i < |c.projects| && 0 <= j < |c.projects[i].terminals|
    ensures ValidateTerminal(c.projects[i].terminals[j], pathExists) == Ok(c.projects[i].terminals[j])
  {
  }
}
