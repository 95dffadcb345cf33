/** Project selection and the top-level flow of the launcher (src/main.rs):
    validate the loaded configuration, pick the project named on the command
    line, and start it. Without a name the launcher aborts with a message
    listing a `workon <name>` line for every project. */
module Workon {
  import opened Errors
  import opened Config
  import opened Terminal

  /** The first line of the abort message. It is written as two literals
      because the solver cannot check a single 62-character literal for a
      newline within its budget; each half it can. */
  const UsagePrefix := "you haven't provided a project " + "name, try one of the following:"

  /** How a run of the launcher ends. */
  datatype Exit =
    | Success                    // every task dispatched and joined
    | Failure(error: WorkonError) // an error returned from `main`
    | Panic(message: string)     // the abort taken when no project name is given

  /** `find(|p| p.project_name == name).ok_or(InvalidProjectNameError)`. */
  function FindProject(projects: seq<ProjectConfig>, name: string): (r: Result<ProjectConfig>)
    ensures r.Ok? ==> r.value.projectName == name && r.value in projects
    ensures r.Err? <==> forall i :: 0 <= i < |projects| ==> projects[i].projectName != name
    ensures r.Err? ==> r.error == InvalidProjectNameError
    ensures forall i :: 0 <= i < |projects| && projects[i].projectName == name &&
                        (forall j :: 0 <= j < i ==> projects[j].projectName != name) ==>
              r == Ok(projects[i])
    decreases |projects|
  {
    if projects == [] then Err(InvalidProjectNameError)
    else if projects[0].projectName == name then Ok(projects[0])
    else FindProject(projects[1..], name)
  }

  /** The suggested command line for each project, in configuration order. */
  function Suggestions(projects: seq<ProjectConfig>): seq<string> {
    seq(|projects|, i requires 0 <= i < |projects| => "workon " + projects[i].projectName)
  }

  /** `lines.join(sep)`. */
  function Join(lines: seq<string>, sep: char): string
    decreases |lines|
  {
    if lines == [] then ""
    else if |lines| == 1 then lines[0]
    else lines[0] + [sep] + Join(lines[1..], sep)
  }

  /** The pieces of `s` between occurrences of `sep`; the inverse of `Join`. */
  function Split(s: string, sep: char): (pieces: seq<string>)
    ensures |pieces| > 0
    decreases |s|
  {
    if s == [] then [""]
    else if s[0] == sep then [""] + Split(s[1..], sep)
    else
      var rest := Split(s[1..], sep);
      [[s[0]] + rest[0]] + rest[1..]
  }

  /** The text of the abort taken when no project name is given. */
  function UsageMessage(projects: seq<ProjectConfig>): string {
    UsagePrefix + "\n" + Join(Suggestions(projects), '\n')
  }

  /** `main`, after argument parsing and loading: validate, select, and
      start the project with the Alacritty descriptor. */
  method Run(loaded: WorkonConfig, pathExists: Path -> bool, projectName: Option<string>)
    returns (exit: Exit, tasks: seq<Invocation>)
    ensures !WellFormedConfig(loaded, pathExists) ==>
              exit == Failure(ValidateConfig(loaded, pathExists).error) && tasks == []
    ensures WellFormedConfig(loaded, pathExists) && projectName.None? ==>
              exit == Panic(UsageMessage(loaded.projects)) && tasks == []
    ensures WellFormedConfig(loaded, pathExists) && projectName.Some? &&
            FindProject(loaded.projects, projectName.value).Err? ==>
              exit == Failure(InvalidProjectNameError) && tasks == []
    ensures WellFormedConfig(loaded, pathExists) && projectName.Some? &&
            FindProject(loaded.projects, projectName.value).Ok? ==>
              exit == Success && tasks == Dispatches(Alacritty, FindProject(loaded.projects, projectName.value).value)
  {
    var config := Current(loaded, pathExists);
    if config.Err? {
      return Failure(config.error), [];
    }
    match projectName {
      case None =>
        exit, tasks := Panic(UsageMessage(config.value.projects)), [];
      case Some(name) =>
        var project := FindProject(config.value.projects, name);
        if project.Err? {
          return Failure(project.error), [];
        }
        var r;
        r, tasks := Startup(Alacritty, project.value);
        match r {
          case Ok(_) => exit := Success;
          case Err(e) => exit := Failure(e);
        }
    }
  }

  // ---------------------------------------------------------------------------
  // Lemmas
  // ---------------------------------------------------------------------------

  lemma {:induction false} SplitWithoutSeparator(s: string, sep: char)
    requires sep !in s
    ensures Split(s, sep) == [s]
    decreases |s|
  {
    if s != [] {
      SplitWithoutSeparator(s[1..], sep);
      assert [s[0]] + s[1..] == s;
    }
  }

  lemma {:induction false} SplitAtFirstSeparator(a: string, b: string, sep: char)
    requires sep !in a
    ensures Split(a + [sep] + b, sep) == [a] + Split(b, sep)
    decreases |a|
  {
    if a == [] {
      assert a + [sep] + b == [sep] + b;
    } else {
      assert (a + [sep] + b)[1..] == a[1..] + [sep] + b;
      SplitAtFirstSeparator(a[1..], b, sep);
      assert [a[0]] + a[1..] == a;
    }
  }

  /** Splitting a join gives back the joined pieces, provided none of them
      contains the separator and there is at least one. */
  lemma {:induction false} SplitJoin(lines: seq<string>, sep: char)
    requires |lines| > 0
    requires forall i :: 0 <= i < |lines| ==> sep !in lines[i]
    ensures Split(Join(lines, sep), sep) == lines
    decreases |lines|
  {
    if |lines| == 1 {
      SplitWithoutSeparator(lines[0], sep);
    } else {
      SplitJoin(lines[1..], sep);
      SplitAtFirstSeparator(lines[0], Join(lines[1..], sep), sep);
      assert [lines[0]] + lines[1..] == lines;
    }
  }

  /** The fixed prefix is a single line (see `UsagePrefix` for why it is written in halves). */
  lemma PrefixIsOneLine()
    ensures '\n' !in UsagePrefix
  {
  }

  /** The abort message is the fixed prefix line followed by one
      `workon <name>` line per project, in configuration order. */
  lemma UsageListsEveryProject(projects: seq<ProjectConfig>)
    requires |projects| > 0
    requires forall i :: 0 <= i < |projects| ==> '\n' !in projects[i].projectName
    ensures Split(UsageMessage(projects), '\n') == [UsagePrefix] + Suggestions(projects)
  {
    var lines := Suggestions(projects);
    forall i | 0 <= i < |lines| ensures '\n' !in lines[i] {
      assert lines[i] == "workon " + projects[i].projectName;
    }
    SplitJoin(lines, '\n');
    PrefixIsOneLine();
    SplitAtFirstSeparator(UsagePrefix, Join(lines, '\n'), '\n');
  }

  /** A configuration with one project `demo` holding one terminal task that
      runs `echo hi` in `/tmp`: selecting `demo` dispatches exactly one
      Alacritty invocation with that directory and command. */
  lemma DemoScenario(pathExists: Path -> bool)
    requires pathExists("/tmp")
    ensures var demo := ProjectConfig("demo", [TerminalConfig("/tmp", ["echo", "hi"])], []);
            && ValidateConfig(WorkonConfig([demo]), pathExists).Ok?
            && FindProject([demo], "demo") == Ok(demo)
            && Dispatches(Alacritty, demo) ==
                 [Invocation("alacritty", ["--working-directory", "/tmp", "-e", "echo", "hi"])]
  {
    var t := TerminalConfig("/tmp", ["echo", "hi"]);
    var demo := ProjectConfig("demo", [t], []);
    assert WellFormedTask(t, pathExists);
    assert WellFormedProject(demo, pathExists);
    assert WellFormedConfig(WorkonConfig([demo]), pathExists);
    assert InvocationsOf(Alacritty, demo.terminals) == [InvocationOf(Alacritty, t)];
    assert InvocationsOf(Alacritty, demo.programs) == [];
    assert ["--working-directory", "/tmp", "-e"] + t.command ==
           ["--working-directory", "/tmp", "-e", "echo", "hi"];
  }
}
