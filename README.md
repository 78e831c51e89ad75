# open-here: opener commands and log-level selection

open-here lets a remote shell open a URL or file on the local desktop. A
small HTTP server on the workstation passes each open request to a
*runner*. The runner builds the platform opener's command line and spawns
it: `xdg-open T` on Linux, `open T` on macOS, `cmd /c start T` on Windows.
In dry-run mode the runner only describes that command, as
`Would run: <program> <args>`. The command-line front end also turns the
number of `-v` flags into a default log level.

This model covers those two pure pieces.

- `cli.dfy` (module `Cli`) holds the open target: a record with one string
  field, `target`, as declared in `src/cli.rs`.
- `cmd.dfy` (module `Cmd`) models `src/cmd.rs`:
  - the `OpenError` type and how it is displayed;
  - `OpenCommand` and how it is displayed (program, a space, then the
    arguments joined by single spaces);
  - the three runners' `cmd`;
  - the trait's default `run` and `dry_run` (`RunWith`, `DryRunWith`).
    These are stated for any way of building the command, so passing on a
    build error is covered too. `Run` and `DryRun` apply them to the three
    platform runners;
  - the compile-time choice of runner (`SystemRunner`).
- `logger.dfy` (module `Logger`) models `clamp` and the level choice in
  `setup_logger`. These appear in both `src/lib.rs` and `src/main.rs`.
  `src/main.rs` has a private copy that matches `src/lib.rs` token for
  token, so the model defines them once. The table cites each file for the
  lemmas about its copy.

The runners are a datatype `Runner`, not three structs behind a trait
object. The operating system the program was built for is a datatype
`TargetOs` given as input. Spawning a process is an abstract outcome
`Spawn`: either `Spawned`, or `SpawnFailed(reason)` with the operating
system's error text.

The main results:

- Every runner's command is a fixed template with the target appended
  verbatim as the single last argument.
- Its display is the runner's banner followed by the target.
- A dry run is `Would run: ` + banner + target. The dry-run text determines
  both the runner and the target (injectivity in both directions).
- The dry-run text contains `Would run:` and the target, which is what the
  integration test checks.
- Joining arguments with spaces and splitting on spaces are inverse to each
  other. So for a target without spaces, the dry-run text splits back into
  exactly the argument vector that would be spawned.
- `clamp` behaves as its three branches say. On a non-empty range it is the
  projection onto that range: the nearest point, and the only nearest one.
  It is idempotent and monotone there.
- The level index is always a valid position in the five-name list. It
  rises one step per `-v` until it reaches `trace`.

## Model

| member | source | states |
|---|---|---|
| `Cmd.ErrorText` | src/cmd.rs:13-19 | an error displays as the prefix `Could not run: ` followed by the message, and nothing else |
| `Cmd.ErrorTextInjective` | src/cmd.rs:13-19 | two errors display identically exactly when they are equal, so the message can be recovered from the text |
| `Cmd.JoinWithSpaces` | src/cmd.rs:37-41 | joining no arguments gives the empty string; otherwise the length is the sum of the argument lengths plus one separator between neighbours, and the first argument starts the text |
| `Cmd.JoinEndsWithLast` | src/cmd.rs:37-41 | the last argument is the suffix of the joined text |
| `Cmd.SplitJoin` | src/cmd.rs:37-41 | splitting on spaces undoes joining, for a non-empty list of arguments that contain no spaces |
| `Cmd.JoinSplit` | src/cmd.rs:37-41 | joining undoes splitting on spaces, for every string |
| `Cmd.Render` | src/cmd.rs:31-44 | a command displays as its program and one space, followed by exactly the arguments joined with single spaces, with the length that implies |
| `Cmd.RenderSplitsIntoArgv` | src/cmd.rs:31-44 | when no word holds a space, the displayed command splits back into exactly the program followed by its arguments |
| `Cmd.RenderEndsWithLastArg` | src/cmd.rs:31-44 | the last argument is the suffix of the displayed command |
| `Cmd.Cmd` | src/cmd.rs:77-108 | every runner's `cmd` succeeds, with at least one argument, and the last argument is the target exactly as given |
| `Cmd.CmdIsTemplate` | src/cmd.rs:79-107 | the command is `xdg-open [t]`, `open [t]` or `cmd ["/c", "start", t]`, so program and leading arguments do not depend on the target |
| `Cmd.CmdInjective` | src/cmd.rs:79-107 | under each runner, two targets give the same command exactly when they are the same target |
| `Cmd.RenderedCmd` | src/cmd.rs:79-107 | a runner's command displays as `xdg-open `, `open ` or `cmd /c start ` followed by the target |
| `Cmd.RenderedCmdSplitsIntoArgv` | src/cmd.rs:31-44 | for a target without spaces, the displayed command splits into exactly the program, the leading arguments and the target |
| `Cmd.RunWith` | src/cmd.rs:58-65 | `run` succeeds exactly when the command was built and the spawn succeeded. Success is the empty string. A build error is passed on unchanged, and a spawn failure becomes `CouldNotRun` with the system's reason |
| `Cmd.DryRunWith` | src/cmd.rs:67-74 | `dry_run` succeeds exactly when the command was built. Its text is `Would run: ` followed by the displayed command, and a build error is passed on unchanged |
| `Cmd.BuildFailureSharedByRunAndDryRun` | src/cmd.rs:58-74 | when building the command fails, `run` and `dry_run` return the same error, whatever the spawn would have done |
| `Cmd.Run` | src/cmd.rs:58-65 | for a platform runner, `run` succeeds exactly when the spawn does, returns the empty string, and otherwise displays as `Could not run: ` followed by the reason |
| `Cmd.DryRun` | src/cmd.rs:67-74 | for a platform runner, `dry_run` always succeeds |
| `Cmd.DryRunText` | src/cmd.rs:67-74 | the dry-run text is `Would run: `, then the runner's banner, then the target |
| `Cmd.DryRunMentions` | tests/open_check.rs:32 | the dry-run text contains `Would run:` and the target. It also contains `xdg-open`, `open`, or both `cmd` and `start`, depending on the runner |
| `Cmd.DryRunInjective` | src/cmd.rs:67-74 | two dry-run texts are equal exactly when they come from the same runner and the same target |
| `Cmd.SystemRunner` | src/cmd.rs:110-123 | Linux builds start `xdg-open`, macOS builds start `open`, and Windows builds start `cmd` |
| `Cmd.SystemRunnerBijective` | src/cmd.rs:110-123 | each operating system gets its own runner, and every runner belongs to some operating system |
| `Logger.Clamp` | src/lib.rs:8-16 | on a non-empty range, the result lies within the range |
| `Logger.ClampCases` | src/lib.rs:8-16 | below `min` gives `min`; at least `min` and above `max` gives `max`; within the range gives `x` unchanged |
| `Logger.ClampMonotone` | src/lib.rs:8-16 | on a non-empty range, a larger input never gives a smaller result |
| `Logger.ClampIdempotent` | src/main.rs:7-15 | on a non-empty range, clamping twice equals clamping once |
| `Logger.ClampIsNearestPoint` | src/main.rs:7-15 | on a non-empty range, the result is the point of the range nearest to `x`, and the only point that near |
| `Logger.LevelIndex` | src/lib.rs:19-20 | the chosen index is always a valid position in the five-element level list. It equals the verbosity below 5 and is the last position from 5 on |
| `Logger.LevelIndexStep` | src/lib.rs:19-20 | one more `-v` raises the index by exactly one until `trace`, then leaves it there |
| `Logger.DefaultLevel` | src/lib.rs:19-22 | the default filter is always one of the five level names |
| `Logger.DefaultLevelNames` | src/main.rs:17-21 | verbosity 0, 1, 2 and 3 select `error`, `warn`, `info` and `debug`; any verbosity of 4 or more selects `trace` |
| `Logger.LevelIndexMonotone` | src/main.rs:18-19 | more `-v` flags never select a less verbose level |

## Left out

- Spawning the process and the conversion of `OpenCommand` into a
  `std::process::Command` (src/cmd.rs:46-53, 59-62) are calls into the
  operating system. They become the `Spawn` input.
- The `#[cfg(target_os)]` selection in `get_system_runner` happens at
  compile time. It becomes the `TargetOs` input.
- Logger initialisation by `env_logger`, including its reading of the
  environment, and the `tracing` calls (src/lib.rs:22, src/main.rs:21,
  src/cmd.rs:71) are side effects in foreign libraries. The model stops at
  the level name passed as the default filter.
- `main`'s argument parsing (src/main.rs:24-30), the structopt derive in
  src/cli.rs, the HTTP client in src/client.rs and the actix-web server in
  src/server.rs are framework plumbing and network I/O. The server handler
  only delegates to the system runner's `run`.
- URL-or-path targets, file payloads written under a temporary directory,
  path sanitisation, a JSON result envelope, error kinds beyond
  `CouldNotRun` and a maximum upload size have no code in src/cmd.rs,
  src/lib.rs or src/main.rs, so the model has none of them.
- Determinism of `dry_run` needs no lemma: every Dafny function gives equal
  results on equal arguments.
- Logger.ClampMonotone: assumes `min <= max`, because with `min > max`
  `clamp` is not monotone: with `min = 5` and `max = 2`, input 4 gives 5 and
  input 6 gives 2. The source only calls it with `0` and `4`.
- Cmd.RenderedCmdSplitsIntoArgv: holds only for targets without spaces. The
  display joins arguments with bare spaces and no quoting, so a target with
  a space reads the same as two separate arguments.
