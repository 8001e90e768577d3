/** The entry point's error handling: a configuration failure is wrapped as
    a configuration error before any server starts, and a failure of the
    servers is wrapped as a server error. Starting the servers is I/O, so it
    is a parameter here: `start` stands for the server manager, returning the
    text of its I/O error when it fails.
 */
module Startup {
  import opened Wrappers
  import opened AppErrors
  import opened Configuration

  const LoadFailurePrefix: string := "Failed to load configuration: "
  const StartFailurePrefix: string := "Failed to start servers: "

  /** Loads the configuration, reporting a failure as a configuration error
      whose message carries the rendering of the underlying error. */
  function LoadConfig(env: Env): (r: Result<Config, AppError>)
    ensures r.Ok? <==> FromEnv(env).Ok?
    ensures r.Ok? ==> r.value == FromEnv(env).value
    ensures r.Err? ==> r.error == ConfigError(LoadFailurePrefix + Display(FromEnv(env).error))
  {
    FromEnv(env).MapErr((e: AppError) => ConfigError(LoadFailurePrefix + Display(e)))
  }

  /** Loads the configuration and then starts the servers with it. */
  function Run(env: Env, start: Config -> Result<(), string>): (r: Result<(), AppError>)
    ensures FromEnv(env).Err? ==> r == Err(ConfigError(LoadFailurePrefix + Display(FromEnv(env).error)))
    ensures FromEnv(env).Ok? ==> (r.Ok? <==> start(FromEnv(env).value).Ok?)
    ensures FromEnv(env).Ok? && r.Err? ==>
      r.error == ServerError(StartFailurePrefix + start(FromEnv(env).value).error)
  {
    var config :- LoadConfig(env);
    start(config).MapErr((e: string) => ServerError(StartFailurePrefix + e))
  }

  /** A configuration failure is reported before any server is started: the
      outcome does not depend on what starting the servers would do. */
  lemma ConfigFailureStartsNothing(env: Env, start1: Config -> Result<(), string>,
                                   start2: Config -> Result<(), string>)
    requires FromEnv(env).Err?
    ensures Run(env, start1) == Run(env, start2)
    ensures Run(env, start1).Err? && Run(env, start1).error.Config?
  {
  }

  /** The servers are started with exactly the loaded configuration. */
  lemma ServersGetLoadedConfig(env: Env, start1: Config -> Result<(), string>,
                               start2: Config -> Result<(), string>)
    requires FromEnv(env).Ok? && start1(FromEnv(env).value) == start2(FromEnv(env).value)
    ensures Run(env, start1) == Run(env, start2)
  {
  }

  /** The full text reported for an invalid `PORT`: it names the variable and
      echoes its value. */
  lemma {:induction false} InvalidPortReport(env: Env, start: Config -> Result<(), string>)
    requires MainPortVar in env && !PortVarValid(env, MainPortVar)
    ensures Run(env, start).Err?
    ensures Run(env, start).error.message ==
      LoadFailurePrefix + "Environment variable error: " + MainPortVar + " - "
      + PortMessagePrefix + env[MainPortVar]
  {
    var raw := env[MainPortVar];
    var e := FromEnv(env).error;
    assert e == Environment(MainPortVar, PortMessagePrefix + raw);
    var head := "Environment variable error: " + MainPortVar + " - ";
    assert Display(e) == head + (PortMessagePrefix + raw);
    assert Run(env, start) == Err(ConfigError(LoadFailurePrefix + (head + (PortMessagePrefix + raw))));
    Regroup(LoadFailurePrefix, "Environment variable error: ", MainPortVar, " - ", PortMessagePrefix, raw);
  }

  /** Only regroups the concatenated message in `InvalidPortReport`. */
  lemma Regroup(a: string, b: string, c: string, d: string, e: string, f: string)
    ensures a + ((b + c + d) + (e + f)) == a + b + c + d + e + f
  {
  }
}
