/**
 * The client's environment-based configuration: each of five settings is
 * taken from an environment variable when it is set, else from the caller's
 * argument (host and port only), else from a default.
 */
module ClientSetup {
  import opened Wrappers
  import opened Numerals
  import opened Settings

  /** The process environment: variable name to value, for the variables that are set. */
  type Environment = map<string, string>

  const HostVariable: string := "RABBITMQ_HOST"
  const PortVariable: string := "RABBITMQ_PORT"
  const UserVariable: string := "RABBITMQ_USERNAME"
  const PasswordVariable: string := "RABBITMQ_PASSWORD"
  const VirtualHostVariable: string := "RABBITMQ_VHOST"

  /** `Environment.GetEnvironmentVariable`: null for a variable that is not set. */
  function GetVariable(env: Environment, name: string): (v: Option<string>)
    ensures v.Some? <==> name in env
    ensures v.Some? ==> v.value == env[name]
  {
    if name in env then Some(env[name]) else None
  }

  /** `GetEnvironmentVariable("RABBITMQ_HOST") ?? rabbitMQHost ?? "localhost"`. */
  function ResolveHost(env: Environment, rabbitMQHost: Option<string>): (host: string)
    ensures HostVariable in env ==> host == env[HostVariable]
    ensures HostVariable !in env && rabbitMQHost.Some? ==> host == rabbitMQHost.value
    ensures HostVariable !in env && rabbitMQHost.None? ==> host == "localhost"
  {
    GetVariable(env, HostVariable).GetOr(rabbitMQHost.GetOr("localhost"))
  }

  /** `int.TryParse(GetEnvironmentVariable("RABBITMQ_PORT"), out var port) ? port : (rabbitMQPort ?? 5672)`. */
  function ResolvePort(env: Environment, rabbitMQPort: Option<int>): (port: int)
    ensures TryParseInt32(GetVariable(env, PortVariable)).Some? ==> port == TryParseInt32(GetVariable(env, PortVariable)).value
    ensures TryParseInt32(GetVariable(env, PortVariable)).None? ==> port == rabbitMQPort.GetOr(5672)
  {
    match TryParseInt32(GetVariable(env, PortVariable))
    case Some(p) => p
    case None => rabbitMQPort.GetOr(5672)
  }

  /** A setting with no argument: the variable's value, else the default. */
  function ResolveOrDefault(env: Environment, name: string, default: string): (v: string)
    ensures name in env ==> v == env[name]
    ensures name !in env ==> v == default
  {
    GetVariable(env, name).GetOr(default)
  }

  /**
   * The configuration callback of the third `AddCalculatorClientServices`
   * overload: it assigns host, port, user name, password and virtual host in
   * turn and leaves every other setting as it was.
   */
  method ConfigureFromEnvironment(config: RabbitMQConfiguration, env: Environment,
                                  rabbitMQHost: Option<string>, rabbitMQPort: Option<int>)
    returns (c: RabbitMQConfiguration)
    ensures c.hostName == ResolveHost(env, rabbitMQHost)
    ensures c.port == ResolvePort(env, rabbitMQPort)
    ensures c.userName == ResolveOrDefault(env, UserVariable, "guest")
    ensures c.password == ResolveOrDefault(env, PasswordVariable, "guest")
    ensures c.virtualHost == ResolveOrDefault(env, VirtualHostVariable, "/")
    ensures c.(hostName := config.hostName, port := config.port, userName := config.userName,
               password := config.password, virtualHost := config.virtualHost) == config
  {
    c := config;
    c := c.(hostName := ResolveHost(env, rabbitMQHost));
    c := c.(port := ResolvePort(env, rabbitMQPort));
    c := c.(userName := ResolveOrDefault(env, UserVariable, "guest"));
    c := c.(password := ResolveOrDefault(env, PasswordVariable, "guest"));
    c := c.(virtualHost := ResolveOrDefault(env, VirtualHostVariable, "/"));
  }

  /** A port variable holding the numeral of a 32-bit integer wins over the argument. */
  lemma EnvironmentPortWins(env: Environment, rabbitMQPort: Option<int>, n: int)
    requires IsInt32(n) && PortVariable in env && env[PortVariable] == IntToString(n)
    ensures ResolvePort(env, rabbitMQPort) == n
  {
    ParsePrintRoundTrip(n);
  }

  /** A port variable that is unset, or set to text without digits, falls back without error. */
  lemma UnparsablePortFallsBack(env: Environment, rabbitMQPort: Option<int>)
    requires PortVariable in env ==> forall i :: 0 <= i < |env[PortVariable]| ==> !IsDigit(env[PortVariable][i])
    ensures ResolvePort(env, rabbitMQPort) == (if rabbitMQPort.Some? then rabbitMQPort.value else 5672)
  {
    if PortVariable in env {
      NoDigitsNoNumber(env[PortVariable]);
    }
  }

  /** With nothing in the environment and no arguments, the defaults of the record are kept. */
  lemma EmptyEnvironmentKeepsDefaults()
    ensures var d := DefaultConfiguration();
      d.(hostName := ResolveHost(map[], None), port := ResolvePort(map[], None),
         userName := ResolveOrDefault(map[], UserVariable, "guest"),
         password := ResolveOrDefault(map[], PasswordVariable, "guest"),
         virtualHost := ResolveOrDefault(map[], VirtualHostVariable, "/")) == d
  {
  }
}
