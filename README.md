# subcommands — a Dafny model of the dispatch rule

The Go package `subcommands` lets one program offer several subcommands. A
program registers commands, each with a name, a one-line intro, its own flags
and an `Execute` entry point. One call of `Execute` then does one of four things:

- It prints the usage text when the first positional argument is missing or empty.
- It prints the usage text for a bare `help`.
- For `help X`, it shows the flag usage of the first command named `X`.
- For `X ...`, it runs the first command named `X`, handing it the arguments after `X`, and returns that command's error.

If no command matches, it prints an "unknown command" message. Every path
except running a command returns `nil`.

The model has two modules:

- `Subcommands` (`subcommands.dfy`) holds the data, the dispatch decision and the usage text:
  - `Cmd` is a registered command.
  - `Resolve` is the decision as a pure function of the positional arguments and the registry.
  - `FirstMatch` is the first-match lookup.
  - `UsageText` and `UnknownText` are the texts the dispatcher prints.
  - The class `Dispatcher` holds the registry as a `seq<Cmd>` field. `Register` appends to it. `PrintUsage` builds the usage text with the source's loop. `Execute` is the source's scan with early return, proved against `Resolve`.
- `SubcommandsProperties` (`properties.dfy`) holds the lemmas:
  - exactly when each path is taken;
  - that a command named `help` never runs;
  - that a later command with an already-registered name is never reached;
  - what registering one more command changes;
  - the layout and order of the usage text.
  - It also replays the package's test on the model.

`Execute` takes the program name (the process's `os.Args[0]`) and the positional
arguments left after top-level flag parsing as parameters. It returns the error,
what was written to the output, and the calls it made into registered commands.
Those calls are the flag registration, the parse of the handed arguments, and the run.
The reads of a command's name and intro are not recorded among them.

## Model

| member | source | states |
|---|---|---|
| `Subcommands.FirstMatch` | subcommands.go:68-71 | the result is the lowest index whose command has the target name; it is None exactly when no registered command has that name |
| `Subcommands.Resolve` | subcommands.go:51-86 | the index chosen for help or run always names a registered command |
| `Subcommands.ListingStep` | subcommands.go:95-99 | listing one more command of the registry appends exactly its `\t<name>    \t<intro>\n` line |
| `Subcommands.UsageText` | subcommands.go:89-103 | the usage text starts with `Usage:\n` and always ends with the `help <command>` hint; with an empty registry it is exactly those two parts |
| `Subcommands.UnknownText` | subcommands.go:82-85 | the unknown-command message is `<prog> `, then the offending name verbatim, then `: unknown command\nRun '<prog> help' for usage.\n` |
| `Subcommands.Dispatcher.constructor` | subcommands.go:105-107 | a new dispatcher starts with an empty registry |
| `Subcommands.Dispatcher.Register` | subcommands.go:109-111 | the command is appended at the end; earlier entries and their order are unchanged |
| `Subcommands.Dispatcher.PrintUsage` | subcommands.go:89-103 | the text built line by line equals `UsageText` of the current registry |
| `Subcommands.Dispatcher.Execute` | subcommands.go:47-87 | usage: nil, usage text printed, no command's flags registered or parsed, none run; help: nil, only that command's flags registered and its flag usage shown, never run; run: exactly the flags, the parse of the arguments after the command token, and the run of the chosen command, and its error returned unchanged; unknown: nil and the unknown-command message |
| `SubcommandsProperties.UsageExactly` | subcommands.go:51-65 | usage is chosen if and only if the first argument is missing or empty, or it is `help` with no non-empty second argument |
| `SubcommandsProperties.HelpExactly` | subcommands.go:57-77 | help for index i is chosen if and only if the arguments are `help X`, X is non-empty, and i is the first command named X |
| `SubcommandsProperties.RunExactly` | subcommands.go:68-79 | command i runs with `rest` if and only if the first argument is neither empty nor `help`, i is the first command with that name, and `rest` is everything after the first argument |
| `SubcommandsProperties.UnknownExactly` | subcommands.go:51-86 | the unknown path reports name n if and only if n is non-empty, no command is named n, and n is the first argument (not `help`) or the argument after `help` |
| `SubcommandsProperties.HelpCommandNeverRuns` | subcommands.go:57-79 | a command registered under the name `help` is never run |
| `SubcommandsProperties.FirstIsLowest` | subcommands.go:68-71 | a command with the target name is the one the scan stops at if and only if no earlier command has that name |
| `SubcommandsProperties.ShadowedNeverDispatched` | subcommands.go:68-71 | a command whose name an earlier registration already has is never run and never shown as help |
| `SubcommandsProperties.FirstMatchAppend` | subcommands.go:68-71 | after appending a command, the first match is the old one if there was one, else the new command if it has the name, else none |
| `SubcommandsProperties.RegisterKeepsResolution` | subcommands.go:109-111 | registering a command leaves every usage, help and run decision unchanged |
| `SubcommandsProperties.RegisterResolvesUnknown` | subcommands.go:109-111 | a name that was unknown stays unknown after registering a differently named command, and resolves to the new command when it has that name |
| `SubcommandsProperties.ListingAppend` | subcommands.go:95-99 | the command lines of two registries in sequence are the lines of the first followed by those of the second |
| `SubcommandsProperties.ListingInOrder` | subcommands.go:95-99 | the k-th command's line comes after the lines of all earlier commands and before all later ones |
| `SubcommandsProperties.UsageListsInOrder` | subcommands.go:89-103 | with a non-empty registry the usage text is the `Usage:` line, the program header and `The commands are:`, one `\t<name>    \t<intro>\n` line per command in registry order, then the hint |
| `SubcommandsProperties.UsageAfterRegister` | subcommands.go:92-101 | after registering a command, the usage text is the header, the lines of the earlier commands in their order, then the new command's line, then the hint; the header appears once a command is registered |
| `SubcommandsProperties.UnknownTextInjective` | subcommands.go:83-84 | the unknown-command message determines the offending name |
| `SubcommandsProperties.SubCmdTest` | subcommands_test.go:26-40 | with `foo` registered, `foo -bar` registers foo's flags, parses `-bar`, runs foo and returns nil |
| `SubcommandsProperties.BogusTest` | subcommands.go:82-86 | with only `foo` registered, `bogus` returns nil, registers or parses no command's flags, runs none, and prints the unknown-command message for `bogus` |

## Left out

- Top-level flag parsing (`topFlags.Parse`, subcommands.go:50) belongs to Go's `flag` package, whose source is not part of this model. The model starts from the positional arguments that parsing leaves. When that parse fails, the process exits, which is also not modelled.
- The commands' own `SetFlags`, `flags.Parse` and `Execute` are opaque. Each `Cmd` carries one function from the handed arguments to its error. The model records the three calls in order instead of their effects.
- Subcommand flag-parse failure is not modelled: the model assumes the subcommand's arguments parse. On a parse error the source exits the process (`flag.ExitOnError`, subcommands.go:72,78) before `cmd.Execute()`, so the run-path trace and returned error of `Execute` describe only the successful parse.
- The interface methods `Name()` and `Intro()` are called afresh at each use in the source (subcommands.go:69, 98). The model takes them as fixed fields of `Cmd`, so a `Name()` or `Intro()` with side effects or a changing value is not modelled, and those calls are not recorded in `calls`.
- The text of `flags.Usage()` on the help path comes from the `flag` package. The model reports it as `FlagUsage(i)`. A `-help` flag handled inside `flags.Parse` is left out for the same reason.
- Output goes to `topFlags.Output()` in the source. The model returns the text instead. The program name is a parameter, not read from `os.Args`.
- The package-level `root` value and the wrappers `Register` and `Execute` (subcommands.go:105-115) become an explicit `Dispatcher` object and its methods.
- The source tests `c.cmds != nil` (subcommands.go:92). The registry only grows by `append` from nil, so the model uses "the registry is non-empty".
- On `help X`, the source shows only the flag set's usage (subcommands.go:74-76). It does not print the command's intro, and the model follows the source.
- `example/main.go` is a host program that prints a returned error and exits with status 1. It is not part of this model.
