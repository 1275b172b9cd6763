/**
 * middleware/lib/mw_tracker.py: the `MwTracker` configured from the package
 * configuration. Its constructor copies the project name, service name and
 * access token and starts the metrics, logs and profiling collectors its flags
 * select; its log-record factory stamps records with the names.
 *
 * The configuration object and `psutil.WINDOWS` are inputs. The collectors are
 * recorded, in the order they are started, instead of being run.
 * `_get_project_name` is the same code as in mw_tracker/mw_tracker.py and is
 * modelled once, by `MwTracker.GetProjectName`.
 */
module LibMwTracker {
  import opened Wrappers
  import MwTracker

  /** The fields of `middleware.config.config` the constructor reads. */
  datatype Config = Config(
    projectName: Option<string>,
    serviceName: string,
    accessToken: Option<string>,
    collectMetrics: bool,
    collectLogs: bool,
    collectProfiling: bool)

  /** A collector the tracker starts: `collect_metrics()`, `collect_logs()`, `collect_profiling(service, token)`. */
  datatype Collector =
    | MetricsCollector
    | LogsCollector
    | ProfilingCollector(serviceName: string, accessToken: string)

  /** The AttributeError of reading an attribute that was never assigned. */
  datatype InitError = AttributeError(name: string)

  /** Python truthiness of an optional string. */
  predicate Truthy(x: Option<string>) {
    x.Some? && x.value != ""
  }

  /** The position of a collector in the constructor's sequence of `if` statements. */
  function Rank(c: Collector): nat {
    match c
    case MetricsCollector => 0
    case LogsCollector => 1
    case ProfilingCollector(_, _) => 2
  }

  /** The collectors started before profiling is considered. */
  function EarlyCollectors(config: Config): seq<Collector> {
    (if config.collectMetrics then [MetricsCollector] else [])
    + (if config.collectLogs then [LogsCollector] else [])
  }

  /** The collectors the constructor starts, profiling with the given token. */
  function Collectors(config: Config, windows: bool, token: string): seq<Collector> {
    EarlyCollectors(config)
    + (if config.collectProfiling && !windows then [ProfilingCollector(config.serviceName, token)] else [])
  }

  /** Each collector is started exactly when its flag is set (profiling never on Windows), each once, in the order metrics, logs, profiling. */
  lemma CollectorsSelection(config: Config, windows: bool, token: string)
    ensures MetricsCollector in Collectors(config, windows, token) <==> config.collectMetrics
    ensures LogsCollector in Collectors(config, windows, token) <==> config.collectLogs
    ensures ProfilingCollector(config.serviceName, token) in Collectors(config, windows, token)
      <==> config.collectProfiling && !windows
    ensures forall c :: c in Collectors(config, windows, token) && c.ProfilingCollector? ==>
      c == ProfilingCollector(config.serviceName, token)
    ensures var r := Collectors(config, windows, token);
      forall i, j :: 0 <= i < j < |r| ==> Rank(r[i]) < Rank(r[j])
  {
  }

  /**
   * The dict `_set_custom_log_attr` applies: the service name and the language
   * always, the project name only when there is one.
   */
  function UpdateJson(serviceName: string, projectName: Option<string>): (m: map<string, string>)
    ensures "service.name" in m && m["service.name"] == serviceName
    ensures "mw.app.lang" in m && m["mw.app.lang"] == "python"
    ensures MwTracker.PROJECT_NAME_KEY in m <==> projectName.Some?
    ensures projectName.Some? ==> m[MwTracker.PROJECT_NAME_KEY] == projectName.value
    ensures m.Keys <= {"service.name", "mw.app.lang", MwTracker.PROJECT_NAME_KEY}
  {
    var base := map["service.name" := serviceName, "mw.app.lang" := "python"];
    if projectName.Some? then base[MwTracker.PROJECT_NAME_KEY := projectName.value] else base
  }

  class Tracker {
    var projectName: Option<string>
    var serviceName: string
    /** None while the attribute `access_token` has not been assigned. */
    var accessToken: Option<string>
    /** The collectors started so far, oldest first. */
    var started: seq<Collector>

    /** The object before `__init__` has run. */
    constructor Allocate()
      ensures projectName == None && serviceName == "" && accessToken == None && started == []
    {
      projectName := None;
      serviceName := "";
      accessToken := None;
      started := [];
    }

    /**
     * `__init__` as written: `access_token` is assigned only for a truthy token,
     * so `collect_profiling` then reads an attribute that does not exist.
     */
    method InitAsWritten(config: Config, windows: bool) returns (raised: Option<InitError>)
      modifies this
      ensures projectName == config.projectName && serviceName == config.serviceName
      ensures accessToken == if Truthy(config.accessToken) then config.accessToken else old(accessToken)
      ensures raised.Some? <==> config.collectProfiling && !windows && accessToken.None?
      ensures raised.Some? ==> raised == Some(AttributeError("access_token"))
      ensures raised.Some? ==> started == old(started) + EarlyCollectors(config)
      ensures raised.None? ==>
        started == old(started) + Collectors(config, windows, if accessToken.Some? then accessToken.value else "")
    {
      projectName := config.projectName;
      serviceName := config.serviceName;
      if Truthy(config.accessToken) {
        accessToken := Some(MwTracker.OrDefault(config.accessToken, ""));
      }
      if config.collectMetrics {
        started := started + [MetricsCollector];
      }
      if config.collectLogs {
        started := started + [LogsCollector];
      }
      if config.collectProfiling && !windows {
        if accessToken.None? {
          return Some(AttributeError("access_token"));
        }
        started := started + [ProfilingCollector(serviceName, accessToken.value)];
      }
      raised := None;
    }

    /** `__init__` with the token always assigned, `config.access_token or ""`, so it never raises. */
    method Init(config: Config, windows: bool)
      modifies this
      ensures projectName == config.projectName && serviceName == config.serviceName
      ensures accessToken == Some(MwTracker.OrDefault(config.accessToken, ""))
      ensures started == old(started) + Collectors(config, windows, MwTracker.OrDefault(config.accessToken, ""))
    {
      projectName := config.projectName;
      serviceName := config.serviceName;
      accessToken := Some(MwTracker.OrDefault(config.accessToken, ""));
      if config.collectMetrics {
        started := started + [MetricsCollector];
      }
      if config.collectLogs {
        started := started + [LogsCollector];
      }
      if config.collectProfiling && !windows {
        started := started + [ProfilingCollector(serviceName, accessToken.value)];
      }
    }

    /** `_set_custom_log_attr`. */
    method SetCustomLogAttr(record: MwTracker.LogRecord)
      modifies record
      ensures record.fields == old(record.fields) + UpdateJson(serviceName, projectName)
    {
      var updateJson := map["service.name" := serviceName, "mw.app.lang" := "python"];
      if projectName.Some? {
        updateJson := updateJson[MwTracker.PROJECT_NAME_KEY := projectName.value];
      }
      record.fields := record.fields + updateJson;
    }
  }

  /** A configuration with profiling on and an empty access token (the fallback of
      middleware/config.py:27 when the file sets none), off Windows. */
  function ProfilingOnlyConfig(): Config {
    Config(None, "svc", Some(""), false, false, true)
  }

  /** As written, such a configuration makes the constructor raise. */
  method ProfilingWithoutTokenAsWritten() returns (raised: Option<InitError>)
    ensures raised == Some(AttributeError("access_token"))
  {
    var tracker := new Tracker.Allocate();
    raised := tracker.InitAsWritten(ProfilingOnlyConfig(), false);
  }

  /** With the token always assigned, the same configuration starts profiling with an empty token. */
  method ProfilingWithoutToken() returns (started: seq<Collector>)
    ensures started == [ProfilingCollector("svc", "")]
  {
    var tracker := new Tracker.Allocate();
    tracker.Init(ProfilingOnlyConfig(), false);
    started := tracker.started;
  }
}
