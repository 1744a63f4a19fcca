/**
 * The `notion help [<command>]` command: resolving an optional command name
 * into a help request, selecting the usage text for that request, and running
 * the command against the session's event log.
 */
module HelpCommand {
  import opened Wrappers
  import SessionLog

  /** The closed set of Notion's command names, one per subcommand. */
  datatype CommandName =
    | Pin | Use | Config | Current | Deactivate | Activate | Help | Version | Fetch | Install

  /** A help request: general help for Notion, or help for one command. */
  datatype Help = Notion | Command(name: CommandName)

  /** The error details this command can raise. */
  datatype ErrorDetails = CliParseError(usage: Option<string>, error: string)

  /** The help command's own usage text. */
  const HelpUsage: string :=
    "\nGet some help with a Notion command\n\nUsage:\n    notion help [<command>]\n    notion help -h | --help\n\nOptions:\n    -h, --help     Display this message\n"

  /** The fixed text that precedes the offending name in an unknown-command error. */
  const NoSuchCommandPrefix: string := "no such command: `"

  /**
   * The usage texts defined by Notion itself and by the other commands. Their
   * contents live outside this model, so they are fields of a table given once.
   */
  datatype UsageTable = UsageTable(
    notion: string,
    pin: string, use: string, config: string, current: string, deactivate: string,
    activate: string, version: string, fetch: string, install: string)

  /** The error message for an unrecognised command name `command`. */
  function NoSuchCommand(command: string): (msg: string)
    ensures |msg| == |NoSuchCommandPrefix| + |command| + 1
    ensures msg[..|NoSuchCommandPrefix|] == NoSuchCommandPrefix
    ensures msg[|NoSuchCommandPrefix|..|msg| - 1] == command
    ensures msg[|msg| - 1] == '`'
  {
    NoSuchCommandPrefix + command + "`"
  }

  /**
   * Recovers the offending name from an unknown-command message, or None when
   * `msg` does not have that shape.
   */
  function OffendingCommand(msg: string): Option<string>
  {
    var n := |NoSuchCommandPrefix|;
    if |msg| > n && msg[..n] == NoSuchCommandPrefix && msg[|msg| - 1] == '`'
    then Some(msg[n..|msg| - 1])
    else None
  }

  /** The offending name can be read back from the message, verbatim. */
  lemma OffendingCommandRoundTrip(command: string)
    ensures OffendingCommand(NoSuchCommand(command)) == Some(command)
  {
  }

  /** Distinct offending names give distinct messages. */
  lemma NoSuchCommandInjective(a: string, b: string)
    ensures NoSuchCommand(a) == NoSuchCommand(b) ==> a == b
  {
    OffendingCommandRoundTrip(a);
    OffendingCommandRoundTrip(b);
  }

  /**
   * Resolves the optional command argument of `notion help`. `fromStr` is the
   * string parser of command names, whose accepted spellings are not part of
   * this model.
   */
  function Parse(fromStr: string -> Option<CommandName>, command: Option<string>): (r: Result<Help, ErrorDetails>)
    ensures command.None? ==> r == Success(Notion)
    ensures command.Some? && fromStr(command.value).Some? ==>
              r == Success(Command(fromStr(command.value).value))
    ensures command.Some? && fromStr(command.value).None? ==>
              r.Failure? && r.error.usage.None? &&
              r.error.error == NoSuchCommandPrefix + command.value + "`"
    ensures r.Success? ==> (r.value.Notion? <==> command.None?)
    ensures r.Failure? ==> OffendingCommand(r.error.error) == command
  {
    match command
    case None => Success(Notion)
    case Some(s) =>
      match fromStr(s)
      case Some(name) => Success(Command(name))
      case None =>
        OffendingCommandRoundTrip(s);
        Failure(CliParseError(None, NoSuchCommand(s)))
  }

  /** The request `notion help --help` stands for: help about the help command. */
  function HelpSelf(): (h: Help)
    ensures h.Command? && h.name == CommandName.Help
  {
    Command(CommandName.Help)
  }

  /** The eleven usage texts of a table, the help command's own included, are pairwise different. */
  ghost predicate DistinctUsages(t: UsageTable)
  {
    |{t.notion, t.pin, t.use, t.config, t.current, t.deactivate, t.activate,
      HelpUsage, t.version, t.fetch, t.install}| == 11
  }

  /** The usage text of command `name`: the registry lookup. */
  function UsageOf(table: UsageTable, name: CommandName): (u: string)
    ensures name == CommandName.Pin ==> u == table.pin
    ensures name == CommandName.Use ==> u == table.use
    ensures name == CommandName.Config ==> u == table.config
    ensures name == CommandName.Current ==> u == table.current
    ensures name == CommandName.Deactivate ==> u == table.deactivate
    ensures name == CommandName.Activate ==> u == table.activate
    ensures name == CommandName.Help ==> u == HelpUsage
    ensures name == CommandName.Version ==> u == table.version
    ensures name == CommandName.Fetch ==> u == table.fetch
    ensures name == CommandName.Install ==> u == table.install
    ensures u in {table.pin, table.use, table.config, table.current, table.deactivate,
                  table.activate, HelpUsage, table.version, table.fetch, table.install}
  {
    match name
    case Pin => table.pin
    case Use => table.use
    case Config => table.config
    case Current => table.current
    case Deactivate => table.deactivate
    case Activate => table.activate
    case Help => HelpUsage
    case Version => table.version
    case Fetch => table.fetch
    case Install => table.install
  }

  /** The usage text shown for help request `h`. */
  function SelectUsage(table: UsageTable, h: Help): (u: string)
    ensures h.Notion? ==> u == table.notion
    ensures h.Command? ==> u == UsageOf(table, h.name)
    ensures h == Command(CommandName.Help) ==> u == HelpUsage
  {
    match h
    case Notion => table.notion
    case Command(name) => UsageOf(table, name)
  }

  /**
   * Each command name has its own usage text: when the table's texts are all
   * different, different requests never select the same text.
   */
  lemma SelectUsageInjective(t: UsageTable, a: Help, b: Help)
    requires DistinctUsages(t)
    ensures SelectUsage(t, a) == SelectUsage(t, b) ==> a == b
  {
  }

  /** `notion help --help` shows the help command's own usage text, whatever the table. */
  lemma HelpSelfUsage(t: UsageTable)
    ensures SelectUsage(t, HelpSelf()) == HelpUsage
  {
  }

  /**
   * What `notion help` shows when it resolves, for every usage table: the
   * general usage with no argument, the named command's usage for a known name.
   */
  lemma ParseThenSelect(table: UsageTable, fromStr: string -> Option<CommandName>, command: Option<string>)
    ensures command.None? ==>
              Parse(fromStr, command).Success? && SelectUsage(table, Parse(fromStr, command).value) == table.notion
    ensures command.Some? && fromStr(command.value).Some? ==>
              Parse(fromStr, command).Success? &&
              SelectUsage(table, Parse(fromStr, command).value) == UsageOf(table, fromStr(command.value).value)
  {
  }

  /** The two events `Run` records: the help activity starts, then ends successfully. */
  const RunEvents: seq<SessionLog.Event> :=
    [SessionLog.Start(SessionLog.Help), SessionLog.End(SessionLog.Help, SessionLog.Success)]

  /**
   * Runs the help command for request `h`: records the start of the help
   * activity, selects the usage text (returned as `shown` in place of writing
   * it to standard error), records the successful end, and succeeds.
   */
  method Run(h: Help, table: UsageTable, session: SessionLog.Session) returns (shown: string, r: Result<(), ErrorDetails>)
    modifies session
    ensures session.events == old(session.events) + RunEvents
    ensures shown == SelectUsage(table, h)
    ensures r == Success(())
    ensures SessionLog.Balanced(old(session.events)) ==> SessionLog.Balanced(session.events)
  {
    session.AddEventStart(SessionLog.Help);
    shown := SelectUsage(table, h);
    session.AddEventEnd(SessionLog.Help, SessionLog.Success);
    r := Success(());
    SessionLog.PairKeepsBalance(old(session.events), SessionLog.Help, SessionLog.Success);
  }
}
