/** The script's entry point: dispatch on the check mode and map every
    exception that escapes to the plugin's exit code. */
module Probe {
  import opened Json
  import opened Outcome
  import CloudIQ
  import Nagios

  /** The parsed command line; the alarm window bounds are supplied by the
      caller instead of being read from the clock. */
  datatype Config = Config(
    mode: string,
    user: Option<string>,
    password: Option<string>,
    exclude: Option<string>,
    startTime: int,
    endTime: int)

  /** The except clauses of the entry point, tried in order. */
  function ExitCode(e: Error): (code: int)
    ensures code in {1, 2, 3}
    ensures code == 2 <==> e.TokenExpired?
    ensures code == 3 <==> e == ConnectTimeout
  {
    match e
    case TokenExpired(_) => 2
    case ApiConnectionError(_, _, _) => 1
    case ConnectTimeout => 3
    case Unexpected(_) => 1
  }

  /** The code `alert` exits with, or the code of the exception that escaped. */
  function CodeOf<R>(r: Result<Nagios.Verdict<R>>): (code: int)
    ensures r.Ok? ==> code == r.value.code
    ensures r.Err? ==> code == ExitCode(r.error) && code != 0
  {
    match r
    case Ok(v) => v.code
    case Err(e) => ExitCode(e)
  }

  /** The exit status of one run. */
  function ExitStatus(config: Config, net: CloudIQ.Network): (code: int)
    ensures code in {0, 1, 2, 3}
    ensures config.mode !in {"generate-token", "device", "alarm"} ==> code == 1
  {
    if config.mode == "generate-token" then
      match Nagios.GenerateToken(config.user, config.password, net).result
      case Ok(_) => 0
      case Err(e) => ExitCode(e)
    else if config.mode == "device" then CodeOf(Nagios.DeviceMode(net, config.exclude))
    else if config.mode == "alarm" then CodeOf(Nagios.AlarmMode(net, config.startTime, config.endTime))
    else 1
  }

  method Run(config: Config, net: CloudIQ.Network) returns (code: int)
    ensures code == ExitStatus(config, net)
  {
    if config.mode == "generate-token" {
      var attempt := Nagios.GenerateToken(config.user, config.password, net);
      code := if attempt.result.Ok? then 0 else ExitCode(attempt.result.error);
    } else if config.mode == "device" {
      var verdict := Nagios.ModeDevice(net, config.exclude);
      code := if verdict.Ok? then verdict.value.code else ExitCode(verdict.error);
    } else if config.mode == "alarm" {
      var verdict := Nagios.ModeAlarm(net, config.startTime, config.endTime);
      code := if verdict.Ok? then verdict.value.code else ExitCode(verdict.error);
    } else {
      code := 1;
    }
  }

  /** Token generation exits 0 exactly when a credential is missing: with
      both present the run cannot get past the shadowed `token` method. */
  lemma TokenModeExit(config: Config, net: CloudIQ.Network)
    requires config.mode == "generate-token"
    ensures ExitStatus(config, net) == 0 <==> config.user.None? || config.password.None?
  {
  }

  /** A device run exits 0 only when every fetched device is healthy or
      excluded, and 2 exactly when some device is an issue or the token has
      expired. */
  lemma DeviceModeExit(config: Config, net: CloudIQ.Network)
    requires config.mode == "device"
    ensures var r := Nagios.DeviceMode(net, config.exclude);
            ExitStatus(config, net) == 0 <==> r.Ok? && r.value.info.NoProblems?
    ensures var r := Nagios.DeviceMode(net, config.exclude);
            ExitStatus(config, net) == 2 <==>
              (r.Ok? && r.value.info.ProblemsDetected?) || (r.Err? && r.error.TokenExpired?)
  {
  }

  /** An alarm run exits 2 exactly when some alarm was fetched (or the token
      expired), and 0 exactly when the window holds none. */
  lemma AlarmModeExit(config: Config, net: CloudIQ.Network)
    requires config.mode == "alarm"
    ensures var r := Nagios.AlarmMode(net, config.startTime, config.endTime);
            ExitStatus(config, net) == 0 <==> r.Ok? && r.value.info == Nagios.NoAlerts
    ensures var r := Nagios.AlarmMode(net, config.startTime, config.endTime);
            ExitStatus(config, net) == 2 <==>
              (r.Ok? && r.value.info.AlertsFound?) || (r.Err? && r.error.TokenExpired?)
  {
  }
}
