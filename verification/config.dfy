/** Configuration loading: the two listening ports and the bind address,
    read from a snapshot of the process environment with defaults for
    unset variables. A set port variable must hold `u16` decimal text;
    the bind address is taken as it is.
 */
module Configuration {
  import opened Wrappers
  import opened Decimal
  import AppErrors

  /** A snapshot of the process environment: variable name to value. */
  type Env = map<string, string>

  datatype Config = Config(mainPort: uint16, appPort: uint16, bindAddress: string)

  const MainPortVar: string := "PORT"
  const AppPortVar: string := "PORT_APP"
  const BindAddressVar: string := "BIND_ADDRESS"

  const DefaultMainPort: uint16 := 8080
  const DefaultAppPort: uint16 := 4242
  const DefaultBindAddress: string := "0.0.0.0"

  /** Opens the message of a port error; the offending text follows. The
      range it quotes is not enforced: 0 is accepted like any other `u16`. */
  const PortMessagePrefix: string := "must be a valid port number (1-65535), got: "

  /** `env::var`: the value of a set variable. */
  function Lookup(env: Env, name: string): (v: Option<string>)
    ensures v.Some? <==> name in env
    ensures v.Some? ==> v.value == env[name]
  {
    if name in env then Some(env[name]) else None
  }

  /** A port variable is acceptable when it is unset or holds a `u16`. */
  predicate PortVarValid(env: Env, name: string) {
    name !in env || IsU16Literal(env[name])
  }

  /** The port an acceptable variable denotes. */
  function PortValue(env: Env, name: string, default: uint16): nat
    requires PortVarValid(env, name)
  {
    if name in env then Value(Unsigned(env[name])) else default
  }

  /** The error reported for a port variable holding `raw`. */
  function PortError(name: string, raw: string): AppErrors.AppError {
    AppErrors.EnvironmentError(name, PortMessagePrefix + raw)
  }

  /** Reads one port variable. An unset variable falls back to `default`,
      rendered as text and parsed like a set one; that parse cannot fail. */
  function ParsePortEnv(env: Env, name: string, default: uint16): (r: Result<uint16, AppErrors.AppError>)
    ensures r.Ok? <==> PortVarValid(env, name)
    ensures r.Ok? ==> r.value == PortValue(env, name, default)
    ensures r.Err? ==> name in env && r.error == PortError(name, env[name])
  {
    var portText := Lookup(env, name).GetOr(ToDecimal(default));
    ParseToDecimal(default);
    match ParseU16(portText)
    case Some(port) => Ok(port)
    case None => Err(AppErrors.EnvironmentError(name, PortMessagePrefix + portText))
  }

  /** Loads the configuration: `PORT` first, then `PORT_APP`, stopping at the
      first port that does not parse; `BIND_ADDRESS` is never checked. */
  function FromEnv(env: Env): (r: Result<Config, AppErrors.AppError>)
    ensures r.Ok? <==> PortVarValid(env, MainPortVar) && PortVarValid(env, AppPortVar)
    ensures r.Ok? ==>
      && r.value.mainPort == PortValue(env, MainPortVar, DefaultMainPort)
      && r.value.appPort == PortValue(env, AppPortVar, DefaultAppPort)
      && r.value.bindAddress == Lookup(env, BindAddressVar).GetOr(DefaultBindAddress)
    ensures !PortVarValid(env, MainPortVar) ==>
      r == Err(PortError(MainPortVar, env[MainPortVar]))
    ensures PortVarValid(env, MainPortVar) && !PortVarValid(env, AppPortVar) ==>
      r == Err(PortError(AppPortVar, env[AppPortVar]))
  {
    var mainPort :- ParsePortEnv(env, MainPortVar, DefaultMainPort);
    var appPort :- ParsePortEnv(env, AppPortVar, DefaultAppPort);
    var bindAddress := Lookup(env, BindAddressVar).GetOr(DefaultBindAddress);
    Ok(Config(mainPort, appPort, bindAddress))
  }

  /** With nothing set, every field takes its default. */
  lemma DefaultsWhenUnset(env: Env)
    requires MainPortVar !in env && AppPortVar !in env && BindAddressVar !in env
    ensures FromEnv(env) == Ok(Config(8080, 4242, "0.0.0.0"))
  {
  }

  /** A port variable holding the rendering of `n` yields `n`. */
  lemma {:induction false} RenderedPortIsRead(env: Env, name: string, default: uint16, n: uint16)
    requires name in env && env[name] == ToDecimal(n)
    ensures ParsePortEnv(env, name, default) == Ok(n)
  {
    ParseToDecimal(n);
  }

  /** Both port variables holding renderings of `u16`s load those ports. */
  lemma {:induction false} RenderedPortsAreLoaded(env: Env, main: uint16, app: uint16)
    requires MainPortVar in env && env[MainPortVar] == ToDecimal(main)
    requires AppPortVar in env && env[AppPortVar] == ToDecimal(app)
    ensures FromEnv(env).Ok?
    ensures FromEnv(env).value.mainPort == main && FromEnv(env).value.appPort == app
  {
    RenderedPortIsRead(env, MainPortVar, DefaultMainPort, main);
    RenderedPortIsRead(env, AppPortVar, DefaultAppPort, app);
  }

  /** An error naming `PORT_APP` is only ever reported once `PORT` has been
      read successfully; an invalid `PORT` is reported whatever `PORT_APP`
      holds. */
  lemma ErrorOrder(env: Env, appValue: string)
    ensures FromEnv(env).Err? && FromEnv(env).error.varName == AppPortVar ==>
      PortVarValid(env, MainPortVar)
    ensures !PortVarValid(env, MainPortVar) ==>
      FromEnv(env[AppPortVar := appValue]) == FromEnv(env)
  {
  }

  /** Every load error is an environment error naming one of the two port
      variables and echoing the text it found there. */
  lemma LoadErrorsAreAttributed(env: Env)
    requires FromEnv(env).Err?
    ensures var e := FromEnv(env).error;
      && e.Environment?
      && (e.varName == MainPortVar || e.varName == AppPortVar)
      && e.varName in env
      && e.message == PortMessagePrefix + env[e.varName]
  {
  }

  /** `BIND_ADDRESS` is never validated: setting it to anything changes
      neither whether loading succeeds nor the ports, and the value is kept
      verbatim. */
  lemma BindAddressUnchecked(env: Env, address: string)
    ensures var r := FromEnv(env[BindAddressVar := address]);
      && (r.Ok? <==> FromEnv(env).Ok?)
      && (r.Ok? ==> r.value == FromEnv(env).value.(bindAddress := address))
      && (r.Err? ==> r.error == FromEnv(env).error)
  {
    var env' := env[BindAddressVar := address];
    assert Lookup(env', MainPortVar) == Lookup(env, MainPortVar);
    assert Lookup(env', AppPortVar) == Lookup(env, AppPortVar);
  }

  /** No lower bound beyond the `u16` parse: port 0 is accepted, while text
      above 65535 is rejected and echoed in the error. */
  lemma PortRangeAsParsed(env: Env)
    requires AppPortVar !in env
    ensures FromEnv(env[MainPortVar := "0"]).Ok?
    ensures FromEnv(env[MainPortVar := "0"]).value.mainPort == 0
    ensures FromEnv(env[MainPortVar := "65536"]) == Err(AppErrors.Environment(
      "PORT", "must be a valid port number (1-65535), got: 65536"))
  {
    assert ParseU16("0") == Some(0);
    var tooLarge := env[MainPortVar := "65536"];
    assert ParseU16("65536") == None;
    assert !PortVarValid(tooLarge, MainPortVar);
    assert PortMessagePrefix + "65536" == "must be a valid port number (1-65535), got: 65536";
  }

  /** The unit test in config.rs with custom values: both ports and the address are
      read as set. */
  lemma CustomValuesLoaded()
    ensures FromEnv(map["PORT" := "3000", "PORT_APP" := "5000", "BIND_ADDRESS" := "127.0.0.1"])
      == Ok(Config(3000, 5000, "127.0.0.1"))
  {
    var env := map["PORT" := "3000", "PORT_APP" := "5000", "BIND_ADDRESS" := "127.0.0.1"];
    assert ParseU16(env[MainPortVar]) == Some(3000);
    assert ParseU16(env[AppPortVar]) == Some(5000);
  }

  /** The unit tests in config.rs with unparsable values: they are errors. */
  lemma InvalidValuesRejected()
    ensures FromEnv(map["PORT" := "invalid"])
      == Err(AppErrors.Environment("PORT", "must be a valid port number (1-65535), got: invalid"))
    ensures ParsePortEnv(map["TEST_INVALID_PORT" := "not_a_number"], "TEST_INVALID_PORT", 9000).Err?
  {
    var env := map["PORT" := "invalid"];
    assert ParseU16(env[MainPortVar]) == None;
    assert PortMessagePrefix + "invalid" == "must be a valid port number (1-65535), got: invalid";
    assert ParseU16("not_a_number") == None;
  }

  /** The unit test in config.rs of a default for an unset variable. */
  lemma UnsetUsesDefault()
    ensures ParsePortEnv(map[], "NONEXISTENT_PORT", 9000) == Ok(9000)
  {
  }
}
