/**
 * mw_tracker/mw_tracker.py: the stand-alone `MwTracker`, which switches the
 * three OpenTelemetry exporters to OTLP, takes its project name from
 * OTEL_RESOURCE_ATTRIBUTES and its service name from OTEL_SERVICE_NAME, and
 * stamps log records with them.
 *
 * The process environment is an `Environ` object, since the constructor writes
 * to it; the process id is a parameter.
 */
module MwTracker {
  import opened Wrappers
  import opened Strings
  import opened Environment

  const OTEL_TRACES_EXPORTER := "OTEL_TRACES_EXPORTER"
  const OTEL_METRICS_EXPORTER := "OTEL_METRICS_EXPORTER"
  const OTEL_LOGS_EXPORTER := "OTEL_LOGS_EXPORTER"
  const OTEL_RESOURCE_ATTRIBUTES := "OTEL_RESOURCE_ATTRIBUTES"
  const OTEL_SERVICE_NAME := "OTEL_SERVICE_NAME"
  const PROJECT_NAME_KEY := "project.name"

  /** `os.environ`, which the tracker writes. */
  class Environ {
    var vars: map<string, string>

    constructor (vars: map<string, string>)
      ensures this.vars == vars
    {
      this.vars := vars;
    }
  }

  /** The ValueError of `key, value = attribute.split('=')` when the item does not have exactly one "=". */
  datatype UnpackError = ValueError

  /** `attribute.split('=')` unpacked into a key and a value, or None when it does not have two parts. */
  function Unpack(item: string): (r: Option<(string, string)>)
    ensures r.Some? ==> item == r.value.0 + "=" + r.value.1
    ensures r.Some? ==> '=' !in r.value.0 && '=' !in r.value.1
  {
    JoinSplit(item, '=');
    var parts := Split(item, '=');
    if |parts| == 2 then Some((parts[0], parts[1])) else None
  }

  /** An item unpacks exactly when it holds one "=". */
  lemma UnpackOneSeparator(item: string)
    ensures Unpack(item).Some? <==> multiset(item)['='] == 1
  {
    SplitCount(item, '=');
  }

  /** The value of the last item whose key is exactly "project.name"; items that do not unpack are passed over. */
  function LastProjectName(items: seq<string>): Option<string>
    decreases |items|
  {
    if items == [] then None
    else
      var last := Unpack(items[|items| - 1]);
      if last.Some? && last.value.0 == PROJECT_NAME_KEY then Some(last.value.1)
      else LastProjectName(items[..|items| - 1])
  }

  predicate HasProjectKey(item: string) {
    Unpack(item).Some? && Unpack(item).value.0 == PROJECT_NAME_KEY
  }

  /** The last "project.name" item wins, and there is a name exactly when such an item exists. */
  lemma {:induction false} LastProjectNameWins(items: seq<string>)
    ensures LastProjectName(items).None? <==> forall i :: 0 <= i < |items| ==> !HasProjectKey(items[i])
    ensures LastProjectName(items).Some? ==>
      exists i :: 0 <= i < |items| && HasProjectKey(items[i])
        && Unpack(items[i]).value.1 == LastProjectName(items).value
        && forall j :: i < j < |items| ==> !HasProjectKey(items[j])
    decreases |items|
  {
    if items != [] {
      var n := |items| - 1;
      var init := items[..n];
      assert forall i :: 0 <= i < n ==> init[i] == items[i];
      if !HasProjectKey(items[n]) {
        LastProjectNameWins(init);
        if LastProjectName(init).Some? {
          var i :| 0 <= i < |init| && HasProjectKey(init[i])
            && Unpack(init[i]).value.1 == LastProjectName(init).value
            && forall j :: i < j < |init| ==> !HasProjectKey(init[j]);
          assert forall j :: i < j < |items| ==> !HasProjectKey(items[j]) by {
            forall j | i < j < |items| ensures !HasProjectKey(items[j]) {
              if j < n {
                assert items[j] == init[j];
              }
            }
          }
        }
      }
    }
  }

  /** What `_get_project_name` returns for the items of the split string, or the error it raises. */
  function ProjectNameOfItems(items: seq<string>): Result<Option<string>, UnpackError> {
    if forall i :: 0 <= i < |items| ==> Unpack(items[i]).Some? then Ok(LastProjectName(items))
    else Err(ValueError)
  }

  /** The items fail exactly when one of them does not hold exactly one "=". */
  lemma ProjectNameMalformed(items: seq<string>)
    ensures ProjectNameOfItems(items).Err? <==> exists i :: 0 <= i < |items| && multiset(items[i])['='] != 1
    ensures ProjectNameOfItems(items).Err? <==> !EachHoldsOnce(items, '=')
  {
    forall i | 0 <= i < |items| ensures Unpack(items[i]).Some? <==> multiset(items[i])['='] == 1 {
      UnpackOneSeparator(items[i]);
    }
  }

  /** `_get_project_name(resource_attributes)`. */
  function ProjectName(resourceAttributes: Option<string>): (r: Result<Option<string>, UnpackError>)
    ensures resourceAttributes.None? ==> r == Ok(None)
    ensures resourceAttributes.Some? ==> (r.Err? <==> !EachHoldsOnce(Split(resourceAttributes.value, ','), '='))
  {
    match resourceAttributes
    case None => Ok(None)
    case Some(s) =>
      ProjectNameMalformed(Split(s, ','));
      ProjectNameOfItems(Split(s, ','))
  }

  /** `_get_project_name`: the loop over the comma-separated items. */
  method GetProjectName(resourceAttributes: Option<string>) returns (r: Result<Option<string>, UnpackError>)
    ensures r == ProjectName(resourceAttributes)
  {
    var projectName: Option<string> := None;
    if resourceAttributes.Some? {
      var attributesList := Split(resourceAttributes.value, ',');
      var i := 0;
      while i < |attributesList|
        invariant 0 <= i <= |attributesList|
        invariant forall k :: 0 <= k < i ==> Unpack(attributesList[k]).Some?
        invariant projectName == LastProjectName(attributesList[..i])
      {
        assert attributesList[..i + 1][..i] == attributesList[..i];
        var unpacked := Unpack(attributesList[i]);
        if unpacked.None? {
          return Err(ValueError);
        }
        var (key, value) := unpacked.value;
        if key == PROJECT_NAME_KEY {
          projectName := Some(value);
        }
        i := i + 1;
      }
      assert attributesList[..i] == attributesList;
    }
    r := Ok(projectName);
  }

  /** Python's `x or default` for an optional string: None and "" are falsy. */
  function OrDefault(x: Option<string>, default: string): (r: string)
    ensures x.Some? && x.value != "" ==> r == x.value
    ensures x.None? || x.value == "" ==> r == default
  {
    if x.Some? && x.value != "" then x.value else default
  }

  /** `logging.LogRecord`: the part of its `__dict__` the factory updates. */
  class LogRecord {
    var fields: map<string, string>

    constructor (fields: map<string, string>)
      ensures this.fields == fields
    {
      this.fields := fields;
    }
  }

  class Tracker {
    var projectName: string
    var serviceName: string
    var accessToken: string

    /** The object before `__init__` has run. */
    constructor Allocate()
      ensures projectName == "" && serviceName == "" && accessToken == ""
    {
      projectName := "";
      serviceName := "";
      accessToken := "";
    }

    /**
     * `MwTracker.__init__(access_token)`: the exporter variables are set first; a
     * malformed OTEL_RESOURCE_ATTRIBUTES then raises before any field is set.
     */
    method Init(env: Environ, pid: nat, accessToken: Option<string>) returns (raised: Option<UnpackError>)
      modifies this, env
      ensures env.vars == old(env.vars)[OTEL_TRACES_EXPORTER := "otlp"][OTEL_METRICS_EXPORTER := "otlp"][OTEL_LOGS_EXPORTER := "otlp"]
      ensures ProjectName(GetOpt(env.vars, OTEL_RESOURCE_ATTRIBUTES, None)).Err? ==>
        && raised == Some(ProjectName(GetOpt(env.vars, OTEL_RESOURCE_ATTRIBUTES, None)).error)
        && projectName == old(projectName) && serviceName == old(serviceName)
        && this.accessToken == old(this.accessToken)
      ensures ProjectName(GetOpt(env.vars, OTEL_RESOURCE_ATTRIBUTES, None)).Ok? ==>
        && raised == None
        && projectName == OrDefault(ProjectName(GetOpt(env.vars, OTEL_RESOURCE_ATTRIBUTES, None)).value,
                                    "Project-" + NatToString(pid))
        && serviceName == OrDefault(GetOpt(env.vars, OTEL_SERVICE_NAME, None), "Service-" + NatToString(pid))
        && this.accessToken == OrDefault(accessToken, "")
    {
      env.vars := env.vars[OTEL_TRACES_EXPORTER := "otlp"];
      env.vars := env.vars[OTEL_METRICS_EXPORTER := "otlp"];
      env.vars := env.vars[OTEL_LOGS_EXPORTER := "otlp"];
      var resourceAttributes := GetOpt(env.vars, OTEL_RESOURCE_ATTRIBUTES, None);
      var serviceNameVar := GetOpt(env.vars, OTEL_SERVICE_NAME, None);
      var found := GetProjectName(resourceAttributes);
      if found.Err? {
        return Some(found.error);
      }
      projectName := OrDefault(found.value, "Project-" + NatToString(pid));
      serviceName := OrDefault(serviceNameVar, "Service-" + NatToString(pid));
      this.accessToken := OrDefault(accessToken, "");
      raised := None;
    }

    /** `_set_custom_log_attr`: the record always gets the project name, the service name and the language. */
    method SetCustomLogAttr(record: LogRecord)
      modifies record
      ensures record.fields == old(record.fields)[PROJECT_NAME_KEY := projectName][
        "service.name" := serviceName]["mw.app.lang" := "python"]
    {
      record.fields := record.fields[PROJECT_NAME_KEY := projectName];
      record.fields := record.fields["service.name" := serviceName];
      record.fields := record.fields["mw.app.lang" := "python"];
    }
  }
}
