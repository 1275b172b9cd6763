/**
 * middleware/options.py: the agent's options. Each option is taken from an
 * environment variable when it is set, otherwise from the constructor's
 * parameter, otherwise from a default.
 */
module Options {
  import opened Wrappers
  import opened Strings
  import opened Environment
  import opened Detectors

  // Environment variable names.
  const OTEL_SERVICE_NAME := "OTEL_SERVICE_NAME"
  const OTEL_LOG_LEVEL := "OTEL_LOG_LEVEL"
  const OTEL_EXPORTER_OTLP_ENDPOINT := "OTEL_EXPORTER_OTLP_ENDPOINT"
  const OTEL_PROPAGATORS := "OTEL_PROPAGATORS"
  const MW_API_KEY := "MW_API_KEY"
  const MW_SERVICE_NAME := "MW_SERVICE_NAME"
  const MW_AGENT_SERVICE := "MW_AGENT_SERVICE"
  const MW_TARGET := "MW_TARGET"
  const MW_CUSTOM_RESOURCE_ATTRIBUTES := "MW_CUSTOM_RESOURCE_ATTRIBUTES"
  const MW_APM_COLLECT_TRACES := "MW_APM_COLLECT_TRACES"
  const MW_APM_COLLECT_METRICS := "MW_APM_COLLECT_METRICS"
  const MW_APM_COLLECT_LOGS := "MW_APM_COLLECT_LOGS"
  const MW_PROPAGATORS := "MW_PROPAGATORS"
  const MW_CONSOLE_EXPORTER := "MW_CONSOLE_EXPORTER"
  const MW_DEBUG_LOG_FILE := "MW_DEBUG_LOG_FILE"
  const MW_PROJECT_NAME := "MW_PROJECT_NAME"
  const MW_SAMPLE_RATE := "MW_SAMPLE_RATE"
  const MW_LOG_LEVEL := "MW_LOG_LEVEL"
  const MW_DETECTORS := "MW_DETECTORS"

  // Defaults.
  const DEFAULT_TARGET := "http://localhost:9319"
  const DEFAULT_PORT := "9319"
  const DEFAULT_AGENT_SERVICE := "localhost"
  const DEFAULT_SERVICE_NAME := "unknown_service:python"
  const DEFAULT_LOG_LEVEL := "INFO"
  const DEFAULT_PROPAGATORS := "b3"
  const DEFAULT_SAMPLE_RATE := 1

  /** The keys of `log_levels`. */
  const LogLevelNames: set<string> :=
    {"NOTSET", "DEBUG", "INFO", "WARN", "WARNING", "ERROR", "FATAL", "CRITICAL"}

  /** `os.environ.get(first, os.environ.get(second, param))`. */
  function Chain(env: Environ, first: string, second: string, param: Option<string>): Option<string> {
    GetOpt(env, first, GetOpt(env, second, param))
  }

  /** The variable's value when it is set to a non-empty string (`if val:` on `os.getenv`). */
  predicate SetNonEmpty(env: Environ, name: string) {
    name in env && env[name] != ""
  }

  /** `parse_bool`: "true" and "false" in any case; any other non-empty value is false. */
  function ParseBool(env: Environ, name: string, default: bool): (r: bool)
    ensures !SetNonEmpty(env, name) ==> r == default
    ensures SetNonEmpty(env, name) ==> (r <==> Upper(env[name]) == "TRUE")
  {
    var val := Get(env, name, "");
    if val != "" then
      if Upper(val) == "FALSE" then false
      else if Upper(val) == "TRUE" then true
      else false
    else default
  }

  /** Two values that differ only in the case of their letters parse the same. */
  lemma ParseBoolCaseInsensitive(env: Environ, name: string, other: string, default: bool)
    requires SetNonEmpty(env, name) && other != "" && Upper(other) == Upper(env[name])
    ensures ParseBool(env[name := other], name, default) == ParseBool(env, name, default)
  {
  }

  /** Only a set, non-empty variable overrides the default; a value that is not a boolean is false. */
  lemma ParseBoolOverride(env: Environ, name: string, default: bool)
    ensures SetNonEmpty(env, name) && ParseBool(env, name, default) ==> Upper(env[name]) == "TRUE"
    ensures !SetNonEmpty(env, name) ==> ParseBool(env, name, default) == default
    ensures ParseBool(env[name := "true"], name, default) && !ParseBool(env[name := "yes"], name, default)
  {
    assert Upper("true") == "TRUE";
    assert Upper("yes") == "YES";
  }

  /** `parse_int`: `int(val)` for a set value, the default when it does not parse,
      and `param` (when it is an int) or the default for an unset variable. */
  function ParseInt(env: Environ, name: string, param: Option<int>, default: int): (r: int)
    ensures SetNonEmpty(env, name) && ParsePyInt(env[name]).Some? ==> r == ParsePyInt(env[name]).value
    ensures SetNonEmpty(env, name) && ParsePyInt(env[name]).None? ==> r == default
    ensures !SetNonEmpty(env, name) ==> r == param.GetOr(default)
  {
    var val := Get(env, name, "");
    if val != "" then
      match ParsePyInt(val)
      case Some(n) => n
      case None => default
    else if param.Some? then param.value
    else default
  }

  /** The decimal form of a number reads back as that number, whatever the parameter and default. */
  lemma ParseIntDecimal(env: Environ, name: string, n: nat, param: Option<int>, default: int)
    ensures ParseInt(env[name := NatToString(n)], name, param, default) == n
  {
    ParseNatToString(n);
  }

  /** `service_name`: the first of OTEL_SERVICE_NAME, MW_SERVICE_NAME and the parameter that is
      present, replaced by the default when it is None or empty. */
  function ResolveServiceName(env: Environ, param: Option<string>): (r: string)
    ensures r != ""
    ensures SetNonEmpty(env, OTEL_SERVICE_NAME) ==> r == env[OTEL_SERVICE_NAME]
    ensures OTEL_SERVICE_NAME !in env && SetNonEmpty(env, MW_SERVICE_NAME) ==> r == env[MW_SERVICE_NAME]
    ensures OTEL_SERVICE_NAME !in env && MW_SERVICE_NAME !in env && param.Some? && param.value != "" ==> r == param.value
    ensures var v := Chain(env, OTEL_SERVICE_NAME, MW_SERVICE_NAME, param);
      r == if v.None? || v.value == "" then DEFAULT_SERVICE_NAME else v.value
  {
    match Chain(env, OTEL_SERVICE_NAME, MW_SERVICE_NAME, param)
    case Some(v) => if v != "" then v else DEFAULT_SERVICE_NAME
    case None => DEFAULT_SERVICE_NAME
  }

  /** `log_level`: the resolved value upper-cased when that is a known level, otherwise "INFO". */
  function ResolveLogLevel(env: Environ, param: Option<string>): (r: string)
    ensures r in LogLevelNames
    ensures var v := Chain(env, OTEL_LOG_LEVEL, MW_LOG_LEVEL, param);
      if v.Some? && v.value != "" && Upper(v.value) in LogLevelNames then r == Upper(v.value)
      else r == DEFAULT_LOG_LEVEL
  {
    var v := Chain(env, OTEL_LOG_LEVEL, MW_LOG_LEVEL, param);
    if v.Some? && v.value != "" && Upper(v.value) in LogLevelNames then Upper(v.value)
    else DEFAULT_LOG_LEVEL
  }

  /** A resolved level resolves to itself: resolution is idempotent. */
  lemma LogLevelIdempotent(env: Environ, param: Option<string>)
    ensures ResolveLogLevel(map[], Some(ResolveLogLevel(env, param))) == ResolveLogLevel(env, param)
  {
    var r := ResolveLogLevel(env, param);
    var v := Chain(env, OTEL_LOG_LEVEL, MW_LOG_LEVEL, param);
    if v.Some? && v.value != "" && Upper(v.value) in LogLevelNames {
      UpperIdempotent(v.value);
    } else {
      assert Upper("INFO") == "INFO";
    }
  }

  /** The export target and the agent host that may have rewritten it. */
  datatype Endpoint = Endpoint(target: string, agent: Option<string>)

  /** `target` and `mw_agent_service`: a target without "https" is rewritten to the agent
      host on the default port when an agent host is given. */
  function ResolveTarget(env: Environ, target: string, agent: Option<string>): (r: Endpoint)
    ensures var t := Get(env, OTEL_EXPORTER_OTLP_ENDPOINT, Get(env, MW_TARGET, target));
      if Contains(t, "https") then r == Endpoint(t, Some(DEFAULT_AGENT_SERVICE))
      else
        r.agent == GetOpt(env, MW_AGENT_SERVICE, agent) &&
        r.target == (if r.agent.Some? then "http://" + r.agent.value + ":" + DEFAULT_PORT else t)
  {
    var t := Get(env, OTEL_EXPORTER_OTLP_ENDPOINT, Get(env, MW_TARGET, target));
    if Contains(t, "https") then Endpoint(t, Some(DEFAULT_AGENT_SERVICE))
    else
      var a := GetOpt(env, MW_AGENT_SERVICE, agent);
      if a.Some? then Endpoint("http://" + a.value + ":" + DEFAULT_PORT, a)
      else Endpoint(t, a)
  }

  /** A target rewritten from an agent host is an `http://` URL on port 9319. */
  lemma RewrittenTargetShape(env: Environ, target: string, agent: Option<string>)
    requires !Contains(Get(env, OTEL_EXPORTER_OTLP_ENDPOINT, Get(env, MW_TARGET, target)), "https")
    requires GetOpt(env, MW_AGENT_SERVICE, agent).Some?
    ensures var t := ResolveTarget(env, target, agent).target;
      IsPrefix("http://", t) && t[|t| - 5..] == ":9319"
  {
    var a := GetOpt(env, MW_AGENT_SERVICE, agent).value;
    var t := ResolveTarget(env, target, agent).target;
    assert t == "http://" + a + ":" + DEFAULT_PORT;
    assert t[..7] == "http://";
  }

  /** An HTTPS target is never rewritten, whatever the agent host. */
  lemma HttpsTargetKept(env: Environ, target: string, agent: Option<string>)
    requires OTEL_EXPORTER_OTLP_ENDPOINT !in env && MW_TARGET !in env && Contains(target, "https")
    ensures ResolveTarget(env, target, agent) == Endpoint(target, Some(DEFAULT_AGENT_SERVICE))
  {
  }

  /** The parameters of `MWOptions(...)`. */
  datatype Params = Params(
    accessToken: Option<string>,
    serviceName: Option<string>,
    collectTraces: bool,
    collectMetrics: bool,
    collectLogs: bool,
    logLevel: Option<string>,
    mwAgentService: Option<string>,
    target: string,
    customResourceAttributes: Option<string>,
    otelPropagators: Option<string>,
    consoleExporter: bool,
    debugLogFile: bool,
    projectName: Option<string>,
    sampleRate: Option<int>,
    detectors: Option<DetectorInput>)

  /** The parameters of a bare `MWOptions()`. */
  function DefaultParams(): Params {
    Params(None, None, true, true, true, Some(DEFAULT_LOG_LEVEL), None, DEFAULT_TARGET,
           None, None, false, false, None, None, None)
  }

  /** Lines 234-239: the service name, defaulted when missing or empty. */
  method ServiceNameStep(env: Environ, param: Option<string>) returns (name: string)
    ensures name == ResolveServiceName(env, param)
  {
    var found := Chain(env, OTEL_SERVICE_NAME, MW_SERVICE_NAME, param);
    if found.None? || found.value == "" {
      found := Some(DEFAULT_SERVICE_NAME);
    }
    name := found.value;
  }

  /** Lines 245-252: the log level, kept at the class attribute unless the value names a level. */
  method LogLevelStep(env: Environ, param: Option<string>) returns (level: string)
    ensures level == ResolveLogLevel(env, param)
  {
    level := DEFAULT_LOG_LEVEL;
    var requested := Chain(env, OTEL_LOG_LEVEL, MW_LOG_LEVEL, param);
    if requested.Some? && requested.value != "" && Upper(requested.value) in LogLevelNames {
      level := Upper(requested.value);
    }
  }

  /** Lines 254-261: the target, rewritten from the agent host unless it is an HTTPS URL. */
  method TargetStep(env: Environ, target: string, agentParam: Option<string>) returns (url: string, agent: Option<string>)
    ensures Endpoint(url, agent) == ResolveTarget(env, target, agentParam)
  {
    agent := Some(DEFAULT_AGENT_SERVICE);  // the class attribute, kept for an HTTPS target
    url := Get(env, OTEL_EXPORTER_OTLP_ENDPOINT, Get(env, MW_TARGET, target));
    if !Contains(url, "https") {
      agent := GetOpt(env, MW_AGENT_SERVICE, agentParam);
      if agent.Some? {
        url := "http://" + agent.value + ":" + DEFAULT_PORT;
      }
    }
  }

  /** An `MWOptions` instance after `__init__`. It has no `collect_profiling` attribute. */
  class MWOptions {
    var accessToken: Option<string>
    var serviceName: string
    var collectTraces: bool
    var collectMetrics: bool
    var collectLogs: bool
    var logLevel: string
    var mwAgentService: Option<string>
    var target: string
    var customResourceAttributes: Option<string>
    var otelPropagators: Option<string>
    var consoleExporter: bool
    var debugLogFile: bool
    var projectName: Option<string>
    var sampleRate: int
    var detectors: Option<DetectorInput>

    /** `MWOptions.__init__`: each option resolved in turn, starting from the class attribute
        where the source may leave it in place. */
    constructor (env: Environ, p: Params)
      ensures accessToken == GetOpt(env, MW_API_KEY, p.accessToken)
      ensures serviceName == ResolveServiceName(env, p.serviceName)
      ensures collectTraces == ParseBool(env, MW_APM_COLLECT_TRACES, p.collectTraces)
      ensures collectMetrics == ParseBool(env, MW_APM_COLLECT_METRICS, p.collectMetrics)
      ensures collectLogs == ParseBool(env, MW_APM_COLLECT_LOGS, p.collectLogs)
      ensures logLevel == ResolveLogLevel(env, p.logLevel)
      ensures Endpoint(target, mwAgentService) == ResolveTarget(env, p.target, p.mwAgentService)
      ensures customResourceAttributes == GetOpt(env, MW_CUSTOM_RESOURCE_ATTRIBUTES, p.customResourceAttributes)
      ensures otelPropagators == Chain(env, OTEL_PROPAGATORS, MW_PROPAGATORS, p.otelPropagators)
      ensures consoleExporter == ParseBool(env, MW_CONSOLE_EXPORTER, p.consoleExporter)
      ensures debugLogFile == ParseBool(env, MW_DEBUG_LOG_FILE, p.debugLogFile)
      ensures projectName == GetOpt(env, MW_PROJECT_NAME, p.projectName)
      ensures sampleRate == ParseInt(env, MW_SAMPLE_RATE, p.sampleRate, DEFAULT_SAMPLE_RATE)
      ensures detectors == (if MW_DETECTORS in env then Some(Names(env[MW_DETECTORS])) else p.detectors)
    {
      var token := GetOpt(env, MW_API_KEY, p.accessToken);
      var name := ServiceNameStep(env, p.serviceName);
      var level := LogLevelStep(env, p.logLevel);
      var url, agent := TargetStep(env, p.target, p.mwAgentService);
      accessToken := token;
      serviceName := name;
      collectTraces := ParseBool(env, MW_APM_COLLECT_TRACES, p.collectTraces);
      collectMetrics := ParseBool(env, MW_APM_COLLECT_METRICS, p.collectMetrics);
      collectLogs := ParseBool(env, MW_APM_COLLECT_LOGS, p.collectLogs);
      logLevel := level;
      target := url;
      mwAgentService := agent;
      customResourceAttributes := GetOpt(env, MW_CUSTOM_RESOURCE_ATTRIBUTES, p.customResourceAttributes);
      otelPropagators := Chain(env, OTEL_PROPAGATORS, MW_PROPAGATORS, p.otelPropagators);
      consoleExporter := ParseBool(env, MW_CONSOLE_EXPORTER, p.consoleExporter);
      debugLogFile := ParseBool(env, MW_DEBUG_LOG_FILE, p.debugLogFile);
      projectName := GetOpt(env, MW_PROJECT_NAME, p.projectName);
      sampleRate := ParseInt(env, MW_SAMPLE_RATE, p.sampleRate, DEFAULT_SAMPLE_RATE);
      detectors := if MW_DETECTORS in env then Some(Names(env[MW_DETECTORS])) else p.detectors;
    }
  }
}
