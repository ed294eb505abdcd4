/**
 * Argument decoding of the `hago` command-line tool (cmd/hago/main.go): which command a
 * name and its positional arguments select, the log-level names, and environment
 * defaults. The commands' own REST calls and output are not part of this module.
 */
module Cli {

  import opened Wrappers
  import opened Strings
  import opened Errors
  import opened Scan

  /** A decoded command with every argument filled in. */
  datatype Command =
    | Status
    | Config
    | Components
    | States
    | State(entityID: string)
    | Services
    | Call(domain: string, service: string, entityID: string, jsonData: string)
    | Events
    | Fire(eventType: string, jsonData: string)
    | History(entityID: string, duration: string)
    | Logbook(duration: string)
    | ErrorLog
    | Template(template: string)
    | Calendars
    | Calendar(entityID: string, days: int)

  const DefaultDuration: string := "24h"
  const DefaultCalendarDays: int := 7

  /** The name that selects each command. */
  function Name(c: Command): string {
    match c
    case Status => "status"
    case Config => "config"
    case Components => "components"
    case States => "states"
    case State(_) => "state"
    case Services => "services"
    case Call(_, _, _, _) => "call"
    case Events => "events"
    case Fire(_, _) => "fire"
    case History(_, _) => "history"
    case Logbook(_) => "logbook"
    case ErrorLog => "errorlog"
    case Template(_) => "template"
    case Calendars => "calendars"
    case Calendar(_, _) => "calendar"
  }

  /** How many positional arguments each known command needs at least; None for an unknown name. */
  function MinArgs(name: string): Option<nat> {
    match name
    case "status" => Some(0)
    case "config" => Some(0)
    case "components" => Some(0)
    case "states" => Some(0)
    case "state" => Some(1)
    case "services" => Some(0)
    case "call" => Some(2)
    case "events" => Some(0)
    case "fire" => Some(1)
    case "history" => Some(1)
    case "logbook" => Some(0)
    case "errorlog" => Some(0)
    case "template" => Some(1)
    case "calendars" => Some(0)
    case "calendar" => Some(1)
    case _ => None
  }

  /** The usage line printed when a command has too few arguments. */
  function Usage(name: string): string {
    match name
    case "state" => "usage: hago state <entity_id>"
    case "call" => "usage: hago call <domain> <service> [entity_id] [json_data]"
    case "fire" => "usage: hago fire <event_type> [json_data]"
    case "history" => "usage: hago history <entity_id> [duration]"
    case "template" => "usage: hago template <template>"
    case "calendar" => "usage: hago calendar <entity_id> [days]"
    case _ => "usage: hago " + name
  }

  /** The argument at `i`, or "" when there are not that many (Go's zero-valued string). */
  function ArgOr(args: seq<string>, i: nat, default: string): string {
    if i < |args| then args[i] else default
  }

  /**
   * executeCommand's decoding: the name picks the command, missing required arguments
   * give its usage error, and missing optional ones take their defaults.
   */
  function ExecuteCommand(cmd: string, args: seq<string>): (r: Result<Command, Error>)
    ensures MinArgs(cmd).None? ==> r == Failure(Plain("unknown command: " + cmd))
    ensures MinArgs(cmd).Some? ==> (r.Success? <==> |args| >= MinArgs(cmd).value)
    ensures MinArgs(cmd).Some? && r.Failure? ==> r.error == Plain(Usage(cmd))
    ensures r.Success? ==> Name(r.value) == cmd
    ensures r.Success? && r.value.Call? ==>
      r.value == Call(args[0], args[1], ArgOr(args, 2, ""), ArgOr(args, 3, ""))
    ensures r.Success? && r.value.Fire? ==> r.value == Fire(args[0], ArgOr(args, 1, ""))
    ensures r.Success? && r.value.History? ==> r.value == History(args[0], ArgOr(args, 1, DefaultDuration))
    ensures r.Success? && r.value.Logbook? ==> r.value == Logbook(ArgOr(args, 0, DefaultDuration))
    ensures r.Success? && r.value.State? ==> r.value == State(args[0])
    ensures r.Success? && r.value.Template? ==> r.value == Template(args[0])
    ensures r.Success? && r.value.Calendar? ==>
      r.value == Calendar(args[0], if |args| > 1 && ScanInt(args[1]).Success? then ScanInt(args[1]).value.0
                                   else DefaultCalendarDays)
  {
    match cmd
    case "status" => Success(Status)
    case "config" => Success(Config)
    case "components" => Success(Components)
    case "states" => Success(States)
    case "state" =>
      if |args| < 1 then Failure(Plain(Usage(cmd))) else Success(State(args[0]))
    case "services" => Success(Services)
    case "call" =>
      if |args| < 2 then Failure(Plain(Usage(cmd)))
      else
        var entityID := if |args| > 2 then args[2] else "";
        var jsonData := if |args| > 3 then args[3] else "";
        Success(Call(args[0], args[1], entityID, jsonData))
    case "events" => Success(Events)
    case "fire" =>
      if |args| < 1 then Failure(Plain(Usage(cmd)))
      else Success(Fire(args[0], if |args| > 1 then args[1] else ""))
    case "history" =>
      if |args| < 1 then Failure(Plain(Usage(cmd)))
      else Success(History(args[0], if |args| > 1 then args[1] else DefaultDuration))
    case "logbook" => Success(Logbook(if |args| > 0 then args[0] else DefaultDuration))
    case "errorlog" => Success(ErrorLog)
    case "template" =>
      if |args| < 1 then Failure(Plain(Usage(cmd))) else Success(Template(args[0]))
    case "calendars" => Success(Calendars)
    case "calendar" =>
      if |args| < 1 then Failure(Plain(Usage(cmd)))
      else
        // fmt.Sscanf(args[1], "%d", &days) leaves days at 7 when nothing can be scanned
        var days := if |args| > 1 && ScanInt(args[1]).Success? then ScanInt(args[1]).value.0
                    else DefaultCalendarDays;
        Success(Calendar(args[0], days))
    case _ => Failure(Plain("unknown command: " + cmd))
  }

  /** The full argument list that spells out a command, optional arguments included. */
  function Args(c: Command): seq<string> {
    match c
    case State(e) => [e]
    case Call(d, s, e, j) => [d, s, e, j]
    case Fire(t, j) => [t, j]
    case History(e, d) => [e, d]
    case Logbook(d) => [d]
    case Template(t) => [t]
    case Calendar(e, days) => [e, IntToString(days)]
    case _ => []
  }

  /** Decoding the spelled-out arguments of a command gives that command back. */
  lemma DecodeArgsRoundTrip(c: Command)
    requires c.Calendar? ==> InInt64(c.days)
    ensures ExecuteCommand(Name(c), Args(c)) == Success(c)
  {
    match c
    case Calendar(e, days) =>
      ScanIntOfDecimal(days, "");
      assert IntToString(days) + "" == IntToString(days);
      assert ExecuteCommand("calendar", [e, IntToString(days)]) == Success(c);
    case State(_) => RoundTripWithArgs(c);
    case Call(_, _, _, _) => RoundTripWithArgs(c);
    case Fire(_, _) => RoundTripWithArgs(c);
    case History(_, _) => RoundTripWithArgs(c);
    case Logbook(_) => RoundTripWithArgs(c);
    case Template(_) => RoundTripWithArgs(c);
    case _ => RoundTripWithoutArgs(c);
  }

  lemma RoundTripWithArgs(c: Command)
    requires c.State? || c.Call? || c.Fire? || c.History? || c.Logbook? || c.Template?
    ensures ExecuteCommand(Name(c), Args(c)) == Success(c)
  {
  }

  lemma RoundTripWithoutArgs(c: Command)
    requires Args(c) == [] && !c.Calendar?
    ensures ExecuteCommand(Name(c), Args(c)) == Success(c)
  {
  }

  /** A calendar day count that does not scan leaves the default of 7 days. */
  lemma CalendarDaysDefault(entityID: string, days: string)
    requires ScanInt(days).Failure?
    ensures ExecuteCommand("calendar", [entityID, days]) == Success(Calendar(entityID, DefaultCalendarDays))
  {
  }

  /** log/slog's levels. */
  const LevelDebug: int := -4
  const LevelInfo: int := 0
  const LevelWarn: int := 4
  const LevelError: int := 8

  datatype Logger = Logger(level: int, json: bool)

  /** setupLogger: a level name in any ASCII letter case, and JSON output only for "json". */
  function SetupLogger(level: string, format: string): (r: Result<Logger, Error>)
    ensures r.Success? <==> ToLowerASCII(level) in {"debug", "info", "warn", "error"}
    ensures r.Failure? ==> r.error == Plain("invalid log level: " + level)
    ensures r.Success? ==> (r.value.json <==> format == "json")
    ensures r.Success? ==> r.value.level == LevelOf(ToLowerASCII(level))
  {
    var lowered := ToLowerASCII(level);
    var lvl :- match lowered
      case "debug" => Success(LevelDebug)
      case "info" => Success(LevelInfo)
      case "warn" => Success(LevelWarn)
      case "error" => Success(LevelError)
      case _ => Failure(Plain("invalid log level: " + level));
    Success(Logger(lvl, format == "json"))
  }

  /** The slog level of each accepted level name, in increasing severity. */
  function LevelOf(name: string): int {
    if name == "debug" then LevelDebug
    else if name == "info" then LevelInfo
    else if name == "warn" then LevelWarn
    else LevelError
  }

  /** Any spelling of a level name selects the same logger as its lower-case spelling. */
  lemma LevelNamesIgnoreCase(level: string, format: string)
    ensures SetupLogger(level, format).Success? == SetupLogger(ToLowerASCII(level), format).Success?
    ensures SetupLogger(level, format).Success? ==>
      SetupLogger(level, format) == SetupLogger(ToLowerASCII(level), format)
  {
    assert ToLowerASCII(ToLowerASCII(level)) == ToLowerASCII(level);
  }

  /** getEnv: the variable's value when it is set to something non-empty, else the default. */
  function GetEnv(env: map<string, string>, key: string, default: string): (r: string)
    ensures key in env && env[key] != "" ==> r == env[key]
    ensures (key !in env || env[key] == "") ==> r == default
  {
    var value := if key in env then env[key] else "";
    if value != "" then value else default
  }
}
