/**
 * middleware/distro.py: the one-shot configuration guard of `mw_tracker`, the
 * distro hook `_configure` that enables it, and `record_exception`.
 *
 * The module-level flags `mw_tracker_called`, `distro_called` and `isTracker`
 * are the fields of `DistroState`. Creating the tracer and meter providers and
 * attaching the log handler to the root logger is recorded as a sequence of
 * effects; what those providers do, and which one the set-once global setters
 * of OpenTelemetry keep, is not part of this model.
 */
module Distro {
  import opened Wrappers
  import opened Environment
  import opened Tracing
  import opened Detectors
  import opened Options
  import opened Resource

  const MW_TRACKER := "MW_TRACKER"

  /** What `mw_tracker` sets up: a provider it creates and hands to the set-once global
      setter, a handler it attaches to the root logger, or the profiler. */
  datatype Effect = TracerProvider | MeterProvider | LogHandler | Profiler

  /** Why `mw_tracker` returned without configuring anything. */
  datatype Skip =
    | DistroNotConfigured   // `_configure` has not run yet
    | UseTrackerFlag        // already configured; the warning suggests `MW_TRACKER=True`
    | OverrideRefused       // already configured with `MW_TRACKER` set

  datatype DistroError = DetectorError(error: InputError) | AttributeError(name: string)

  datatype TrackerOutcome = Skipped(reason: Skip) | Configured | Raised(error: DistroError)

  /** The providers enabled by the three collect flags, in the order they are set up. */
  function Providers(traces: bool, metrics: bool, logs: bool): (r: seq<Effect>)
    ensures (TracerProvider in r <==> traces) && (MeterProvider in r <==> metrics) && (LogHandler in r <==> logs)
    ensures Profiler !in r && |r| <= 3
  {
    (if traces then [TracerProvider] else []) + (if metrics then [MeterProvider] else []) +
    (if logs then [LogHandler] else [])
  }

  /** The collect flags `mw_tracker` acts on: those of `options`, or of `MWOptions()` for None. */
  function Flags(env: Environ, options: MWOptions?): (bool, bool, bool)
    reads options
  {
    if options == null then
      (ParseBool(env, MW_APM_COLLECT_TRACES, true), ParseBool(env, MW_APM_COLLECT_METRICS, true),
       ParseBool(env, MW_APM_COLLECT_LOGS, true))
    else (options.collectTraces, options.collectMetrics, options.collectLogs)
  }

  /** `create_resource` raises: the options name detectors that do not resolve. */
  predicate ResourceFails(options: MWOptions?)
    reads options
  {
    options != null && options.detectors.Some? && Resolve(options.detectors.value).Err?
  }

  function FlagsProviders(env: Environ, options: MWOptions?): seq<Effect>
    reads options
  {
    var f := Flags(env, options);
    Providers(f.0, f.1, f.2)
  }

  /** `if options is None: options = MWOptions()`. */
  method OptionsOrDefault(env: Environ, options: MWOptions?) returns (opts: MWOptions)
    ensures options != null ==> opts == options
    ensures Flags(env, opts) == Flags(env, options)
    ensures ResourceFails(opts) == ResourceFails(options)
  {
    if options == null {
      opts := new MWOptions(env, DefaultParams());
    } else {
      opts := options;
    }
  }

  /** The error `create_resource(options)` raises, if any. */
  method ResourceFailure(options: MWOptions, sdkVersion: string) returns (failure: Option<InputError>)
    ensures failure.Some? <==> ResourceFails(options)
    ensures failure.Some? ==> failure.value == Resolve(options.detectors.value).error
  {
    var resource := CreateResource(options, sdkVersion);
    failure := if resource.Err? then Some(resource.error) else None;
  }

  class DistroState {
    var mwTrackerCalled: bool
    var distroCalled: bool
    var isTracker: bool
    /** What has been set up so far, oldest first. */
    var effects: seq<Effect>

    /** The guard is only ever set after the distro ran. */
    predicate Valid()
      reads this
    {
      mwTrackerCalled ==> distroCalled
    }

    /** The module state at import: `isTracker` read from MW_TRACKER, both flags clear. */
    constructor (env: Environ)
      ensures Valid()
      ensures !mwTrackerCalled && !distroCalled && effects == []
      ensures isTracker == ParseBool(env, MW_TRACKER, false)
    {
      mwTrackerCalled := false;
      distroCalled := false;
      isTracker := ParseBool(env, MW_TRACKER, false);
      effects := [];
    }

    /** The provider creation of `mw_tracker`, one provider per set collect flag. */
    method InstallProviders(traces: bool, metrics: bool, logs: bool)
      modifies this`effects
      ensures effects == old(effects) + Providers(traces, metrics, logs)
    {
      if traces {
        effects := effects + [TracerProvider];
      }
      if metrics {
        effects := effects + [MeterProvider];
      }
      if logs {
        effects := effects + [LogHandler];
      }
    }

    /** `mw_tracker` with the `collect_profiling` read taken as absent, hence off: it configures
        once, after the distro ran, and sets the guard when configuration completes. */
    method MwTracker(env: Environ, options: MWOptions?, sdkVersion: string) returns (outcome: TrackerOutcome)
      requires Valid()
      modifies this`mwTrackerCalled, this`effects
      ensures Valid()
      ensures !old(distroCalled) ==> outcome == Skipped(DistroNotConfigured)
      ensures old(distroCalled) && old(mwTrackerCalled) ==>
        outcome == Skipped(if isTracker then OverrideRefused else UseTrackerFlag)
      ensures outcome.Skipped? ==> mwTrackerCalled == old(mwTrackerCalled) && effects == old(effects)
      ensures old(distroCalled) && !old(mwTrackerCalled) && ResourceFails(options) ==>
        outcome == Raised(DetectorError(Resolve(options.detectors.value).error)) &&
        !mwTrackerCalled && effects == old(effects)
      ensures old(distroCalled) && !old(mwTrackerCalled) && !ResourceFails(options) ==>
        outcome == Configured && mwTrackerCalled && effects == old(effects) + FlagsProviders(env, options)
      ensures mwTrackerCalled <==> old(mwTrackerCalled) || outcome == Configured
    {
      if !distroCalled {
        return Skipped(DistroNotConfigured);
      }
      if !isTracker && mwTrackerCalled {
        return Skipped(UseTrackerFlag);
      }
      if isTracker && mwTrackerCalled {
        return Skipped(OverrideRefused);
      }
      var opts := OptionsOrDefault(env, options);
      var failure := ResourceFailure(opts, sdkVersion);
      if failure.Some? {
        return Raised(DetectorError(failure.value));
      }
      InstallProviders(opts.collectTraces, opts.collectMetrics, opts.collectLogs);
      mwTrackerCalled := true;
      outcome := Configured;
    }

    /** `mw_tracker` as written: reading `options.collect_profiling`, which `MWOptions` does not
        define, raises after the providers are set up, so the guard is never set. */
    method MwTrackerAsWritten(env: Environ, options: MWOptions?, sdkVersion: string) returns (outcome: TrackerOutcome)
      requires Valid()
      modifies this`mwTrackerCalled, this`effects
      ensures Valid()
      ensures mwTrackerCalled == old(mwTrackerCalled)
      ensures !old(distroCalled) ==> outcome == Skipped(DistroNotConfigured) && effects == old(effects)
      ensures old(distroCalled) && old(mwTrackerCalled) ==>
        outcome == Skipped(if isTracker then OverrideRefused else UseTrackerFlag) && effects == old(effects)
      ensures old(distroCalled) && !old(mwTrackerCalled) && ResourceFails(options) ==>
        outcome == Raised(DetectorError(Resolve(options.detectors.value).error)) && effects == old(effects)
      ensures old(distroCalled) && !old(mwTrackerCalled) && !ResourceFails(options) ==>
        outcome == Raised(AttributeError("collect_profiling")) && effects == old(effects) + FlagsProviders(env, options)
    {
      if !distroCalled {
        return Skipped(DistroNotConfigured);
      }
      if !isTracker && mwTrackerCalled {
        return Skipped(UseTrackerFlag);
      }
      if isTracker && mwTrackerCalled {
        return Skipped(OverrideRefused);
      }
      var opts := OptionsOrDefault(env, options);
      var failure := ResourceFailure(opts, sdkVersion);
      if failure.Some? {
        return Raised(DetectorError(failure.value));
      }
      InstallProviders(opts.collectTraces, opts.collectMetrics, opts.collectLogs);
      return Raised(AttributeError("collect_profiling"));
    }

    /** `MiddlewareDistro._configure`: marks the distro as run and, unless MW_TRACKER is set,
        configures with the default options. */
    method Configure(env: Environ, sdkVersion: string) returns (outcome: Option<TrackerOutcome>)
      requires Valid()
      modifies this`distroCalled, this`mwTrackerCalled, this`effects
      ensures Valid() && distroCalled
      ensures isTracker ==> outcome == None && mwTrackerCalled == old(mwTrackerCalled) && effects == old(effects)
      ensures !isTracker && !old(mwTrackerCalled) ==>
        outcome == Some(Configured) && mwTrackerCalled && effects == old(effects) + FlagsProviders(env, null)
      ensures !isTracker && old(mwTrackerCalled) ==>
        outcome == Some(Skipped(UseTrackerFlag)) && effects == old(effects)
    {
      distroCalled := true;
      outcome := None;
      if !isTracker {
        var o := MwTracker(env, null, sdkVersion);
        outcome := Some(o);
      }
    }

    /** `_configure` calling the as-written `mw_tracker`. */
    method ConfigureAsWritten(env: Environ, sdkVersion: string) returns (outcome: Option<TrackerOutcome>)
      requires Valid()
      modifies this`distroCalled, this`mwTrackerCalled, this`effects
      ensures Valid() && distroCalled && mwTrackerCalled == old(mwTrackerCalled)
      ensures isTracker ==> outcome == None && effects == old(effects)
      ensures !isTracker && !old(mwTrackerCalled) ==>
        outcome == Some(Raised(AttributeError("collect_profiling"))) && effects == old(effects) + FlagsProviders(env, null)
    {
      distroCalled := true;
      outcome := None;
      if !isTracker {
        var o := MwTrackerAsWritten(env, null, sdkVersion);
        outcome := Some(o);
      }
    }
  }

  /** As written, the distro hook followed by an explicit `mw_tracker()` in an empty environment
      creates a second tracer provider (the global setter keeps the first) and attaches a
      second handler to the root logger, so every log record is exported twice. */
  method RepeatedConfigurationAsWritten() returns (tracerProviders: nat, rootHandlers: nat)
    ensures tracerProviders == 2
    ensures rootHandlers == 2
  {
    var state := new DistroState(map[]);
    assert ParseBool(map[], MW_TRACKER, false) == false;
    var _ := state.ConfigureAsWritten(map[], "");
    var _ := state.MwTrackerAsWritten(map[], null, "");
    assert FlagsProviders(map[], null) == [TracerProvider, MeterProvider, LogHandler];
    tracerProviders := multiset(state.effects)[TracerProvider];
    rootHandlers := multiset(state.effects)[LogHandler];
  }

  /** With the guard set on completion, the second call is skipped: one tracer provider is
      created and the root logger gets one handler. */
  method RepeatedConfiguration() returns (tracerProviders: nat, rootHandlers: nat)
    ensures tracerProviders == 1
    ensures rootHandlers == 1
  {
    var state := new DistroState(map[]);
    assert ParseBool(map[], MW_TRACKER, false) == false;
    var _ := state.Configure(map[], "");
    var second := state.MwTracker(map[], null, "");
    assert second == Skipped(UseTrackerFlag);
    assert FlagsProviders(map[], null) == [TracerProvider, MeterProvider, LogHandler];
    tracerProviders := multiset(state.effects)[TracerProvider];
    rootHandlers := multiset(state.effects)[LogHandler];
  }

  /** `record_exception`: on a recording current span the exception is recorded there and nothing
      is started. Otherwise a span named `spanName` (default: the exception's type name) is started,
      records the exception, gets status ERROR with the exception's text, and is ended.
      `sampled` says whether the tracer hands out a recording span: false when no SDK tracer
      provider is installed or the sampler drops the span, and then `start_span` returns a
      non-recording span that ignores the three calls. */
  method RecordException(current: Span, exc: PyException, spanName: Option<string>, sampled: bool)
    returns (started: Span?)
    modifies current`exceptions
    ensures old(current.recording) ==> started == null && current.exceptions == old(current.exceptions) + [exc]
    ensures !old(current.recording) ==> current.exceptions == old(current.exceptions)
    ensures !old(current.recording) ==> started != null && fresh(started)
    ensures started != null ==>
      && started.name == (if sampled then spanName.GetOr(exc.typeName) else "")
      && started.exceptions == (if sampled then [exc] else [])
      && started.status == (if sampled then Status(StatusError, Some(exc.message)) else Status(StatusUnset, None))
      && !started.recording
  {
    if current.recording {
      current.RecordException(exc);
      return null;
    }
    var name := spanName.GetOr(exc.typeName);
    var span: Span;
    if sampled {
      span := new Span.Start(name);
    } else {
      span := new Span.NonRecording();
    }
    span.RecordException(exc);
    span.SetStatus(Status(StatusError, Some(exc.message)));
    span.End();
    started := span;
  }
}
