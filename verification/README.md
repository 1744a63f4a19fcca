# Notion `help` command, modelled in Dafny

This project models the `help` subcommand of Notion, a JavaScript toolchain
manager (`src/command/help.rs`). The command takes an optional command name.
With no name it shows Notion's general usage. With a known name it shows that
command's usage. With an unknown name it fails with a `CliParseError` whose
message is ``no such command: `<name>` `` and which carries no usage hint.
Running the command records a start event and a successful end event for the
help activity on the session, and always succeeds.

Files:

- `wrappers.dfy`: `Option` and `Result`, standing for Rust's `Option` and
  Notion's `Fallible`.
- `session.dfy`: the session's event log (`SessionLog.Session`). It has the
  two operations the command calls, plus start/end counts per activity kind
  and the `Balanced` invariant (no end comes before a matching start, and every
  activity ended as often as it started).
- `help.dfy`: the `CommandName` enumeration and the `Help` request. It holds
  resolution (`Parse`), the `--help` request (`HelpSelf`), usage selection
  (`UsageOf`, `SelectUsage`) and `Run`.

Abstractions:

- Command names are turned into `CommandName` by a `FromStr` implementation
  that is not part of this model. `Parse` takes it as a parameter
  `fromStr: string -> Option<CommandName>`, so no spelling or case rule is
  assumed.
- The help command's own usage text is the constant `HelpUsage`, copied from
  the source. Notion's general usage and the other nine commands' usage texts
  are not part of this model. They are the fields of a `UsageTable` value,
  supplied once and read by `SelectUsage`.
- `Parse` is a function over values and takes no session. So by construction
  it records no events, and on the error path the event log is untouched.
  `Run` can only be reached with a resolved request, and it never fails.

## Model

| member | source | states |
|---|---|---|
| `HelpCommand.Parse` | src/command/help.rs:40-54 | No name gives `Notion`. A name that `fromStr` resolves to `n` gives `Command(n)`. A name it rejects gives `CliParseError` with no usage and the message ``no such command: `s` ``, from which the offending name reads back verbatim. A successful result is `Notion` exactly when no name was given. |
| `HelpCommand.NoSuchCommand` | src/command/help.rs:49 | The error message is the fixed prefix, then the offending name verbatim, then a closing backtick, and nothing else. |
| `HelpCommand.OffendingCommandRoundTrip` | src/command/help.rs:49 | Reading the offending name back out of an unknown-command message returns exactly the name that was formatted into it. |
| `HelpCommand.NoSuchCommandInjective` | src/command/help.rs:49 | Two different unknown names never produce the same error message. |
| `HelpCommand.HelpSelf` | src/command/help.rs:36-38 | The help command's own help request is `Command(Help)`. |
| `HelpCommand.SelectUsage` | src/command/help.rs:60-72 | Selection is total: `Notion` shows Notion's usage, and `Command(n)` shows the registry's usage for `n`. `Command(Help)` shows the help command's own usage literal (lines 25-34), whatever the table holds. |
| `HelpCommand.UsageOf` | src/command/help.rs:62-71 | The registry lookup is total over the ten command names and pairs each name with its own text: `Pin` with Pin's usage, `Use` with Use's, and so on for all ten, the help command with its own literal. |
| `HelpCommand.SelectUsageInjective` | src/command/help.rs:60-72 | Each request has its own usage text: when the table's eleven texts are pairwise different, two requests that select the same text are the same request. |
| `HelpCommand.HelpSelfUsage` | src/command/help.rs:36-38 | The `help()` request selects the help command's own usage literal (lines 25-34, arm at line 68), for every table. |
| `HelpCommand.ParseThenSelect` | src/command/help.rs:41-45 | After a successful resolution, no name shows the general usage and a known name shows that command's usage. |
| `HelpCommand.Run` | src/command/help.rs:56-76 | Appends exactly a start event for the help activity, then an end event for it with `ExitCode::Success`. It shows the selected usage text and returns `Ok(())`. It keeps the session's log balanced. |
| `SessionLog.Session.AddEventStart` | src/command/help.rs:57 | Appends one start event of the given kind and changes nothing else. |
| `SessionLog.Session.AddEventEnd` | src/command/help.rs:74 | Appends one end event of the given kind and outcome and changes nothing else. |
| `SessionLog.StartsAppend` | src/command/help.rs:57 | Start events of a kind in a concatenated log are the sum of the counts in its parts. |
| `SessionLog.EndsAppend` | src/command/help.rs:74 | End events of a kind in a concatenated log are the sum of the counts in its parts. |
| `SessionLog.PairKeepsBalance` | src/command/help.rs:57-74 | A start/end pair of one kind adds exactly one start and one end of that kind and none of any other kind. So a balanced log stays balanced: no prefix ends a kind more often than it started it, and the counts agree. |
| `SessionLog.EndBeforeStartUnbalanced` | src/command/help.rs:57-74 | Balance depends on order: an end recorded before its start is not balanced, although the counts agree. |

## Left out

- Writing the usage text to standard error (`eprintln!`, lines 58-73) is I/O. `Run` returns the selected text as `shown` instead.
- Deserialising `Args` with serde/docopt (lines 12-15) is library plumbing. `Parse` takes the `Option<string>` argument directly.
- The `FromStr` implementation of `CommandName` is not part of this model. It is the `fromStr` parameter of `Parse`.
- The texts of `Notion::USAGE` and of the other commands' `USAGE` constants are not part of this model. They are opaque fields of `UsageTable`.
- The unused `Notion` argument of `parse` is dropped.
- `throw!`, `Fallible` and `ErrorDetails` are reduced to `Result` and a single `CliParseError` constructor.
- The rest of the session (timestamps, other activity kinds, publishing events) is not part of this model. `ActivityKind` has `Help` and a catch-all `Other`. `ExitCode` has `Success` and a catch-all `NonSuccess`.
- When resolution fails, `parse` returns the error before `run` is reached, so the help command records neither a start nor an end event. Whatever the caller records on that path is not part of this model.
