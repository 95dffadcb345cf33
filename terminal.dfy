/** Turning a project's tasks into terminal-emulator invocations
    (src/terminal.rs).

    A terminal emulator is described by three strings: its executable, the
    flag that sets the working directory and the flag that runs a command.
    `Startup` builds one invocation per task, terminals first and programs
    after, each list in its own order. Spawning a thread per invocation is
    modelled as appending the invocation to the dispatch sequence. */
module Terminal {
  import opened Errors
  import opened Config

  /** The `RunTerminal` capability, as a value. */
  datatype RunTerminal = RunTerminal(execName: string, workingDirArg: string, runCommandArg: string)

  /** The one descriptor the launcher ships with. */
  const Alacritty := RunTerminal("alacritty", "--working-directory", "-e")

  /** A process to start: the executable and its argument vector. */
  datatype Invocation = Invocation(program: string, args: seq<string>)

  /** The invocation that runs task `t` through terminal `d`. */
  function InvocationOf(d: RunTerminal, t: TerminalConfig): Invocation {
    Invocation(d.execName, [d.workingDirArg, t.workdir, d.runCommandArg] + t.command)
  }

  /** The invocations for `tasks`, in list order. */
  function InvocationsOf(d: RunTerminal, tasks: seq<TerminalConfig>): seq<Invocation> {
    seq(|tasks|, i requires 0 <= i < |tasks| => InvocationOf(d, tasks[i]))
  }

  /** Everything `startup` dispatches for `project`, in dispatch order. */
  function Dispatches(d: RunTerminal, project: ProjectConfig): seq<Invocation> {
    InvocationsOf(d, project.terminals) + InvocationsOf(d, project.programs)
  }

  /** `startup`: builds and dispatches one invocation per task and reports
      success once every task has been joined, whatever the joins yielded. */
  method Startup(d: RunTerminal, project: ProjectConfig) returns (r: Result<()>, tasks: seq<Invocation>)
    ensures r == Ok(())
    ensures tasks == Dispatches(d, project)
  {
    tasks := [];
    var i := 0;
    while i < |project.terminals|
      invariant 0 <= i <= |project.terminals|
      invariant tasks == InvocationsOf(d, project.terminals[..i])
    {
      var t := project.terminals[i];
      var args := [d.workingDirArg, t.workdir, d.runCommandArg];
      args := args + t.command;
      tasks := tasks + [Invocation(d.execName, args)];
      i := i + 1;
    }
    assert project.terminals[..i] == project.terminals;
    var j := 0;
    while j < |project.programs|
      invariant 0 <= j <= |project.programs|
      invariant tasks == InvocationsOf(d, project.terminals) + InvocationsOf(d, project.programs[..j])
    {
      var t := project.programs[j];
      var args := [d.workingDirArg, t.workdir, d.runCommandArg];
      args := args + t.command;
      tasks := tasks + [Invocation(d.execName, args)];
      j := j + 1;
    }
    assert project.programs[..j] == project.programs;
    r := Ok(());
  }

  /** Each invocation runs the descriptor's executable with the working
      directory flag, the task's directory, the command flag and then the
      task's command, unchanged. */
  lemma InvocationShape(d: RunTerminal, t: TerminalConfig)
    ensures InvocationOf(d, t).program == d.execName
    ensures |InvocationOf(d, t).args| == 3 + |t.command|
    ensures InvocationOf(d, t).args[..3] == [d.workingDirArg, t.workdir, d.runCommandArg]
    ensures InvocationOf(d, t).args[3..] == t.command
  {
  }

  /** One invocation per task, all terminals in list order, then all programs
      in list order. */
  lemma DispatchOrder(d: RunTerminal, project: ProjectConfig)
    ensures |Dispatches(d, project)| == |project.terminals| + |project.programs|
    ensures forall i :: 0 <= i < |project.terminals| ==>
              Dispatches(d, project)[i] == InvocationOf(d, project.terminals[i])
    ensures forall j :: 0 <= j < |project.programs| ==>
              Dispatches(d, project)[|project.terminals| + j] == InvocationOf(d, project.programs[j])
  {
  }

  /** With the shipped descriptor a task runs as
      `alacritty --working-directory <workdir> -e <command...>`. */
  lemma AlacrittyInvocation(t: TerminalConfig)
    ensures InvocationOf(Alacritty, t) ==
              Invocation("alacritty", ["--working-directory", t.workdir, "-e"] + t.command)
  {
  }
}
