# workon — a Dafny model of the launcher's decision logic

`workon` is a personal workspace launcher. A YAML configuration lists
projects. Each project has a name, a list of *terminal* tasks and a list of
*program* tasks. Each task is a working directory plus a command line.
`workon <name>` validates the whole configuration and picks the first project
with that name. It then opens one terminal-emulator window per task
(Alacritty by default), all running in parallel, and waits for them all.

This project models the decisions the launcher makes and proves what it
promises:

- `errors.dfy` (module `Errors`): the `InvalidConfig(reason)` and
  `InvalidProjectNameError` errors, plus the `Result` wrapper.
- `config.dfy` (module `Config`): the configuration tree and its three-level
  validation.
  - Each level is an early-return chain. The first failing check decides the
    reason string.
  - Each list is checked in order and stops at its first failing element.
    This is `Collect`, the model of `collect::<Result<Vec<_>>>`.
  - On success each level returns its input unchanged.
  - Whether a working directory exists on disk is an oracle,
    `pathExists: Path -> bool`, passed in by the caller.
  - Also here: the default configuration. Its working directory is the home
    directory, or `/` when there is none.
- `terminal.dfy` (module `Terminal`): the terminal descriptor as a record
  value, `Alacritty` = `("alacritty", "--working-directory", "-e")`.
  `Startup` is a method. It builds one `Invocation` (program plus argv) per
  task, with two loops: terminals first, then programs. Starting a thread is
  modelled as appending the invocation to the dispatch sequence.
- `workon.dfy` (module `Workon`): `main`'s flow after argument parsing:
  - validate the loaded configuration;
  - without a name, abort with the usage message;
  - with a name, look up the first matching project or fail with
    `InvalidProjectNameError`;
  - start the project.

The project is a Dafny value, so `Startup` can only read it: task commands
are copied into the argument vectors, never consumed.

Two facts about the code shape the model:

- `ProjectConfig` (src/config.rs:75-78) declares no `programs` field, yet
  `startup` iterates `project.programs` (src/terminal.rs:53). The model's
  `ProjectConfig` carries both lists.
- Only terminal tasks are validated (src/config.rs:92-93). Program tasks are
  dispatched without any check. A project needs at least one *terminal*: a
  named project with only programs is rejected with "project must contain at
  least one application". `ProgramsAreNotValidated` states this behaviour,
  and the model keeps it as it is.

## Model

| member | source | states |
|---|---|---|
| `Config.Collect` | src/config.rs:92 | checks elements in order; succeeds iff every element passes, then yields the checked values in order; otherwise returns exactly the error of the first failing element |
| `Config.ValidateSegments` | src/config.rs:67-69 | succeeds iff no command segment is empty; its only error is "malformed command, a segment cannot be empty" |
| `Config.ValidateTerminal` | src/config.rs:63-71 | succeeds iff the workdir exists, the command is non-empty and no segment is empty, returning the task unchanged; a missing workdir is reported first whatever the command; then an empty command; then an empty segment |
| `Config.ValidateProject` | src/config.rs:89-95 | succeeds iff the name is non-empty, there is at least one terminal and every terminal is valid, returning the project unchanged; an empty name is reported first; then the error of the first invalid terminal; an empty terminal list gives "project must contain at least one application" |
| `Config.ValidateConfig` | src/config.rs:122-131 | succeeds iff there is at least one project and every project is valid, returning the config unchanged; otherwise the first failing project's error, or "no projects in config" for an empty list |
| `Config.Current` | src/config.rs:116-118 | a loaded configuration is returned, unchanged, exactly when it is well formed; otherwise the validation error |
| `Config.DefaultConfigShape` | src/config.rs:50-109 | the default config holds one project "example project" with one terminal running `ls -la` in the home directory (or `/`), and no programs |
| `Config.DefaultConfigIsValid` | src/config.rs:139-142 | the default config validates, unchanged, whenever its workdir exists; otherwise it fails with "project directory no longer exists" |
| `Config.ProgramsAreNotValidated` | src/config.rs:89-95 | replacing a project's programs never changes whether it validates, nor which error it reports |
| `Config.ValidConfigHasValidTerminals` | src/config.rs:122-131 | in a config that validates, every terminal task of every project passes its own validation |
| `Terminal.Startup` | src/terminal.rs:26-86 | returns `Ok(())` always and dispatches exactly the invocations of the terminals, then those of the programs |
| `Terminal.InvocationShape` | src/terminal.rs:30-36 | an invocation runs the descriptor's executable with argv `[working-dir flag, workdir, command flag] ++ command`, the command unchanged |
| `Terminal.DispatchOrder` | src/terminal.rs:27-76 | `|terminals| + |programs|` invocations: all terminals in list order, then all programs in list order |
| `Terminal.AlacrittyInvocation` | src/terminal.rs:12-24 | with the Alacritty descriptor a task runs as `alacritty --working-directory <workdir> -e <command...>` |
| `Workon.FindProject` | src/main.rs:33-38 | returns the first project (lowest index) whose name equals the query, which is an element of the list; fails with `InvalidProjectNameError` iff no project has that name |
| `Workon.SplitJoin` | src/main.rs:47-49 | splitting the `\n`-joined lines at `\n` gives back the lines, when there is at least one and none contains `\n` |
| `Workon.UsageListsEveryProject` | src/main.rs:39-50 | the abort message's lines are the fixed prefix line, then `workon <name>` for each project in config order |
| `Workon.Run` | src/main.rs:30-55 | an invalid config fails with its validation error and dispatches nothing; no name aborts with the usage message and dispatches nothing; an unknown name fails with `InvalidProjectNameError` and dispatches nothing; otherwise succeeds after dispatching exactly the chosen project's invocations through the Alacritty descriptor |
| `Workon.DemoScenario` | src/main.rs:33-53 | a config with one project `demo` with one terminal `echo hi` in `/tmp` validates, selects `demo`, and dispatches the single invocation `alacritty --working-directory /tmp -e echo hi` |

## Left out

- Locating and creating the configuration directory and file (`config_dir`, `config_path`): filesystem I/O. The file name `workon.yaml` and the manifest constants play no part in the decisions.
- Reading the file and deserializing YAML in `WorkonConfig::current`: a foreign library. `Current` takes the deserialized value as a parameter and models only the validate-after-load step.
- The `Other`, `IoError` and `ConfigSerializeError` error variants: they only wrap errors of the code left out above.
- Whether a path exists on disk: the oracle `pathExists`. Resolving the home directory for the default task: a parameter `home: Option<Path>`. Paths are plain strings, so `to_string_lossy` is the identity.
- Spawning a thread per task, `Command::status().unwrap()`, and joining with a printed `DONE` or error line: OS processes and concurrency. Dispatch is appending to a sequence. Join outcomes never affect `startup`'s result, so they are not represented.
- All `println!`/`eprintln!` logging.
- clap argument parsing: the optional project name is a parameter of `Run`. The `panic!` taken without a name is modelled as the outcome `Panic(message)`, not as an abort.
- Workon.UsageListsEveryProject: assumes at least one project and no project name containing a newline. With no projects the message is the prefix line followed by a single `\n`. A name containing `\n` would split into several lines.
