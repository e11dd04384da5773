/**
 * The level gate of the application logger: a message is written to the
 * console only when its level is at least the configured level.
 */
module Logger {
  import opened Wrappers
  import Js

  datatype LogLevel = Debug | Info | Warn | Error

  /** The `levelOrder` table. */
  function LevelOrder(l: LogLevel): (n: nat)
    ensures n % 10 == 0 && 10 <= n <= 40
    ensures l == Debug ==> n == 10
    ensures l == Info ==> n == 20
    ensures l == Warn ==> n == 30
    ensures l == Error ==> n == 40
  {
    match l
    case Debug => 10
    case Info => 20
    case Warn => 30
    case Error => 40
  }

  /** The level names accepted as `VITE_LOG_LEVEL`; any other string is not a level. */
  function ParseLevel(name: string): (r: Option<LogLevel>)
    ensures r.Some? ==> name == LevelName(r.value)
    ensures forall l :: name == LevelName(l) ==> r == Some(l)
  {
    if name == "debug" then Some(Debug)
    else if name == "info" then Some(Info)
    else if name == "warn" then Some(Warn)
    else if name == "error" then Some(Error)
    else None
  }

  function LevelName(l: LogLevel): string {
    match l
    case Debug => "debug"
    case Info => "info"
    case Warn => "warn"
    case Error => "error"
  }

  /**
   * `envLevel || 'info'`: the configured level name. An absent or empty
   * environment value falls back to "info"; any other string is taken as is,
   * even one that names no level.
   */
  function CurrentLevel(env: Option<string>): (name: string)
    ensures name != ""
    ensures env.Some? && env.value != "" ==> name == env.value
    ensures env.None? || env.value == "" ==> name == "info"
  {
    if env.None? || env.value == "" then "info" else env.value
  }

  /**
   * The gate `levelOrder[level] < levelOrder[currentLevel]`, negated. When the
   * current level names no level its order is `undefined`, the comparison is
   * false, and every message passes.
   */
  predicate Emits(level: LogLevel, current: string) {
    match ParseLevel(current)
    case None => true
    case Some(c) => LevelOrder(level) >= LevelOrder(c)
  }

  /** The console method a message goes to. */
  datatype ConsoleMethod = ConsoleLog | ConsoleInfo | ConsoleWarn | ConsoleError

  /** `level === 'debug' ? 'log' : level` */
  function ConsoleMethodFor(level: LogLevel): ConsoleMethod {
    match level
    case Debug => ConsoleLog
    case Info => ConsoleInfo
    case Warn => ConsoleWarn
    case Error => ConsoleError
  }

  /** Debug goes to `console.log`; no two levels share a console method. */
  lemma ConsoleMethodsDistinct(a: LogLevel, b: LogLevel)
    ensures ConsoleMethodFor(Debug) == ConsoleLog
    ensures a != b ==> ConsoleMethodFor(a) != ConsoleMethodFor(b)
  {
  }

  /** One call on the console: the method and its arguments. */
  datatype ConsoleCall = ConsoleCall(target: ConsoleMethod, args: seq<Js.Value>)

  /**
   * `logger.log(level, message, meta)`: the console call it makes, or None
   * when the gate suppresses the message.
   */
  function Log(level: LogLevel, message: string, meta: Js.Value, env: Option<string>): (r: Option<ConsoleCall>)
    ensures r.Some? <==> Emits(level, CurrentLevel(env))
    ensures r.Some? ==> |r.value.args| >= 1 && r.value.args[0] == Js.Str(message)
    ensures r.Some? ==> (|r.value.args| == 2 <==> Js.Truthy(meta)) && |r.value.args| <= 2
    ensures r.Some? && |r.value.args| == 2 ==> r.value.args[1] == meta
    ensures r.Some? ==> r.value.target == ConsoleMethodFor(level)
  {
    if !Emits(level, CurrentLevel(env)) then None
    else
      var payload := if Js.Truthy(meta) then [Js.Str(message), meta] else [Js.Str(message)];
      Some(ConsoleCall(ConsoleMethodFor(level), payload))
  }

  function LogDebug(message: string, meta: Js.Value, env: Option<string>): Option<ConsoleCall> {
    Log(Debug, message, meta, env)
  }

  function LogInfo(message: string, meta: Js.Value, env: Option<string>): Option<ConsoleCall> {
    Log(Info, message, meta, env)
  }

  function LogWarn(message: string, meta: Js.Value, env: Option<string>): Option<ConsoleCall> {
    Log(Warn, message, meta, env)
  }

  function LogError(message: string, meta: Js.Value, env: Option<string>): Option<ConsoleCall> {
    Log(Error, message, meta, env)
  }

  /** For a valid configured level, a message passes iff its level is at least that level. */
  lemma GateIsThreshold(level: LogLevel, configured: LogLevel)
    ensures Emits(level, LevelName(configured)) <==> LevelOrder(level) >= LevelOrder(configured)
    ensures LevelOrder(Debug) < LevelOrder(Info) < LevelOrder(Warn) < LevelOrder(Error)
  {
  }

  /** The gate is upward closed: whatever passes at one level passes at every higher one. */
  lemma GateMonotone(low: LogLevel, high: LogLevel, env: Option<string>)
    requires LevelOrder(low) <= LevelOrder(high)
    ensures Emits(low, CurrentLevel(env)) ==> Emits(high, CurrentLevel(env))
  {
  }

  /** Without VITE_LOG_LEVEL the level is info: debug is suppressed, info is written. */
  lemma DefaultSuppressesDebug(message: string, meta: Js.Value)
    ensures LogDebug(message, meta, None) == None
    ensures LogInfo(message, meta, None).Some?
  {
  }

  /** Error messages are written whatever the configuration. */
  lemma ErrorAlwaysEmitted(message: string, meta: Js.Value, env: Option<string>)
    ensures LogError(message, meta, env).Some?
  {
  }

  /** The four shorthands are `log` at their own level. */
  lemma ShorthandsUseOwnLevel(message: string, meta: Js.Value, env: Option<string>)
    ensures LogDebug(message, meta, env) == Log(Debug, message, meta, env)
    ensures LogInfo(message, meta, env) == Log(Info, message, meta, env)
    ensures LogWarn(message, meta, env) == Log(Warn, message, meta, env)
    ensures LogError(message, meta, env) == Log(Error, message, meta, env)
  {
  }
}
