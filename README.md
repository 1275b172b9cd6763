# Middleware APM for Python: configuration and capture logic in Dafny

This project models the decision and parsing logic of the Middleware APM Python
agent and proves properties of it. The agent configures OpenTelemetry to send
traces, metrics, logs and profiles to Middleware. The parts modelled are:

- **Option resolution** (`Options`, middleware/options.py). Each option comes from
  an environment variable, then from the constructor parameter, then from a default.
  `parse_bool` and `parse_int` read variables, and the export target may be
  rewritten from the agent host. `MWOptions` is a class whose constructor sets
  its fields in the source's order.
- **Detector selection** (`Detectors`, middleware/detectors/detector.py). This
  covers the `Detector` enum, `process_detector_input` (a name string, a list of
  members, or anything else) and `get_detectors`, which maps members to detector
  kinds.
- **AWS classification** (`Aws`, middleware/detectors/aws.py). This is the
  `get_aws_environment` priority chain, with the outcomes of the two metadata probes
  as inputs.
- **Resource assembly** (`Resource`, middleware/resource.py). This covers the
  initial attribute dict, the all-or-nothing parse of
  `MW_CUSTOM_RESOURCE_ATTRIBUTES`, and the detector list passed to
  `get_aggregated_resources`.
- **Tracker configuration and `record_exception`** (`Distro`, middleware/distro.py).
  The three module flags are fields of `DistroState`. The tracer and meter providers
  `mw_tracker` creates and the handler it attaches to the root logger are recorded as
  effects, in the order they are set up. The current span is a
  `Tracing.Span` object.
- **Surrounding-code capture** (`SurroundCode`, middleware/profiling/surround_code.py).
  `on_start` selects the calling frame, clips a window of source lines and stores
  the numbered codeblock on the span. The stack, the interpreter version and the
  readable files are inputs.
- **The stand-alone tracker** (`MwTracker`, mw_tracker/mw_tracker.py). It writes
  the exporter variables, parses the project name from `OTEL_RESOURCE_ATTRIBUTES`
  and stamps log records. The environment it writes is an `Environ` object. The
  process id is a parameter.
- **The configured tracker** (`LibMwTracker`, middleware/lib/mw_tracker.py). This
  covers the collector selection of its constructor and its log-record dict. The
  configuration and `psutil.WINDOWS` are inputs. The collectors are recorded in
  start order.
- **The command line** (`Installer`, middleware/installer/__init__.py). This is
  the `_commands` registry with its `command` decorator, `help` with its sorted
  listing, and `main` dispatch. Printed output is a sequence of lines, and
  `sys.exit(1)` is an outcome.

Shared modules:

- `Strings` models the Python string operations the code relies on: `split`,
  `join`, `strip`, `upper`, `in`, `int()` in base 10, `str()` of a natural number,
  and `<` on strings.
- `Environment` models the environment as a `map<string, string>`. A stored empty
  value is returned by `os.environ.get` like any other value.
- `Wrappers` provides `Option` and `Result`. A raised exception is an `Err`, an
  `Option` of an error, or an outcome constructor, depending on the module.

In three places the code does something other than a reader of it would
expect. The model follows the code:

- `process_detector_input` logs and skips an unknown name
  (middleware/detectors/detector.py:57-58) instead of raising.
- `mw_tracker` reads `options.collect_profiling` (middleware/distro.py:78), an
  option `MWOptions` never defines (see Findings).
- `on_start` stores the "Could not retrieve source" text in its `except` branch
  (middleware/profiling/surround_code.py:52-53), but line 56 then reads
  `start_line`, which is unbound when the file could not be read. It raises
  `NameError`, and the text never reaches the span.

## Model

| member | source | states |
|---|---|---|
| Options.ParseBool | middleware/options.py:293-304 | an unset or empty variable gives the default; a set one is true exactly when its upper-cased value is "TRUE" |
| Options.ParseBoolOverride | middleware/options.py:294-300 | only a set, non-empty variable overrides the default; "true" gives true and a non-boolean such as "yes" gives false rather than the default |
| Options.ParseBoolCaseInsensitive | middleware/options.py:296-299 | two values that agree after upper-casing parse to the same boolean |
| Options.ParseInt | middleware/options.py:323-334 | a set variable gives `int(val)`, or the default when it does not parse; an unset one gives an integer parameter, else the default |
| Options.ParseIntDecimal | middleware/options.py:324-326 | the decimal numeral of any natural number set in the variable is read back as that number |
| Options.ResolveServiceName | middleware/options.py:234-239 | the name is never empty; OTEL_SERVICE_NAME, then MW_SERVICE_NAME, then the parameter win in that order; None or "" becomes "unknown_service:python" |
| Options.ServiceNameStep | middleware/options.py:234-239 | the assignments compute the resolved service name |
| Options.ResolveLogLevel | middleware/options.py:245-252 | the level is always a key of `log_levels`; it is the upper-cased request when that names a level, otherwise "INFO" |
| Options.LogLevelStep | middleware/options.py:245-252 | the assignments compute the resolved level, starting from the class attribute |
| Options.LogLevelIdempotent | middleware/options.py:245-252 | resolving an already resolved level gives it back unchanged |
| Options.ResolveTarget | middleware/options.py:254-261 | a target containing "https" is kept with the class-default agent; otherwise the agent comes from MW_AGENT_SERVICE or the parameter, and a set agent rewrites the target to `http://{agent}:9319` |
| Options.RewrittenTargetShape | middleware/options.py:254-261 | a non-HTTPS target with an agent host becomes an `http://` URL ending in ":9319" |
| Options.HttpsTargetKept | middleware/options.py:254-257 | a target containing "https" is kept whatever agent host is given, and the agent stays the class default |
| Options.TargetStep | middleware/options.py:254-261 | the reassignments of `target` and `mw_agent_service` compute the resolved endpoint |
| Options.MWOptions.constructor | middleware/options.py:215-275 | every field holds its environment-over-parameter-over-default resolution; env vars override the parameter for the token, custom attributes, project name and detectors |
| Detectors.FromName | middleware/detectors/detector.py:27-39 | a name looks up the member of that name, and an unknown name (the KeyError) gives None |
| Detectors.ValueSelectsMember | middleware/detectors/detector.py:27-39 | upper-casing any member's value gives its name, so a lower-case value selects that member |
| Detectors.ChosenMembers | middleware/detectors/detector.py:52-58 | a result is collected exactly when some item picks it; rejected items add nothing |
| Detectors.NamedSetMembers | middleware/detectors/detector.py:49-58 | a member is selected from a name string exactly when some stripped, upper-cased item names it |
| Detectors.Collect | middleware/detectors/detector.py:52-58 | the loop with `add` collects exactly the chosen set |
| Detectors.SetToList | middleware/detectors/detector.py:72 | `list(set)` holds every element of the set once |
| Detectors.ProcessDetectorInput | middleware/detectors/detector.py:42-72 | a string gives the named members; an all-member list gives its members; a list with a non-member raises ValueError, anything else TypeError; the result has no duplicates |
| Detectors.KindOfInjective | middleware/detectors/detector.py:80-99 | distinct members give distinct detector kinds, and none of them is one of the four default kinds |
| Detectors.Resolve | middleware/detectors/detector.py:42-72 | it raises exactly for a value that is neither a string nor a list (TypeError) and for a list holding a non-member (ValueError); an all-member list gives exactly its members |
| Detectors.GetDetectors | middleware/detectors/detector.py:75-100 | None or an empty list gives nothing; otherwise, as a multiset, one detector per member counted with repetition, each the kind of its member |
| Aws.GetAwsEnvironment | middleware/detectors/aws.py:32-44 | the code is one of LF, BS, ECS, EKS, EC2, NA; it is the first check that holds, in that order; NA exactly when none holds; the ECS endpoint is probed only after the Lambda and Beanstalk checks fail, the EC2 endpoint only after the first four fail |
| Aws.EnvChecksOnlyPresence | middleware/detectors/aws.py:4-9 | the result depends only on whether the three variables are set, not on their values |
| Resource.ParseItemUnpacks | middleware/resource.py:47 | an item unpacks into key and value exactly when it holds one "=" |
| Resource.ParseItemsAll | middleware/resource.py:44-50 | the items parse together exactly when each does, and then to the pairs in order |
| Resource.LastPairWins | middleware/resource.py:44-50 | a key of the dict comprehension is present exactly when some pair has it, with the value of the last such pair |
| Resource.ParseCustomAttributes | middleware/resource.py:43-50 | the custom string gives a dict exactly when every comma-separated item holds exactly one "=" |
| Resource.ItemsSeparators | middleware/resource.py:47 | every item unpacks exactly when every item holds exactly one "=" |
| Resource.ItemsAttributesAllOrNothing | middleware/resource.py:43-55 | the custom dict exists exactly when every item unpacks; one bad item discards all of them |
| Resource.ItemsAttributesValues | middleware/resource.py:44-50 | each stripped key holds the stripped value of its last item |
| Resource.ItemsAttributesKeys | middleware/resource.py:44-50 | the keys are exactly the stripped keys of the items |
| Resource.MissingSeparatorExample | middleware/resource.py:43-55 | "a=1,b" applies no custom attribute at all |
| Resource.ExtraSeparatorExample | middleware/resource.py:43-55 | "a=1=2" applies no custom attribute at all |
| Resource.ResourceAttributes | middleware/resource.py:30-51 | the four fixed keys are always present, and every custom key holds its custom value |
| Resource.BaseAttributes | middleware/resource.py:30-41 | the four fixed keys always hold their values; mw.serverless, mw.account_key and project.name are present exactly when the target contains "https", the token is set, the project name is set; no other key appears |
| Resource.CustomOverrides | middleware/resource.py:51 | custom keys override the base keys, other base keys keep their values, and the key set is the union |
| Resource.BuildAttributes | middleware/resource.py:30-55 | the mutated dict equals the resolved initial attributes of the options |
| Resource.BuildDetectors | middleware/resource.py:57-67 | the four default detectors come first in order, followed by one detector per selected member; an unresolvable selection raises its error |
| Resource.CreateResource | middleware/resource.py:19-67 | what `get_aggregated_resources` is given: the attributes and the detector list, or the error of `process_detector_input`; after the four defaults come exactly as many detectors as selected members, and exactly their kinds |
| Resource.DistinctLength | middleware/detectors/detector.py:72 | a duplicate-free list of a set's elements is as long as the set is large |
| Distro.Providers | middleware/distro.py:71-77 | each provider is set up exactly when its collect flag is set, and the profiler never is |
| Distro.OptionsOrDefault | middleware/distro.py:66-67 | None is replaced by a fresh `MWOptions()`, and given options are used as they are |
| Distro.ResourceFailure | middleware/distro.py:70 | `create_resource` raises exactly when the options name detectors that do not resolve, with that error |
| Distro.DistroState.constructor | middleware/distro.py:16-22 | at import both guards are clear and `isTracker` is MW_TRACKER parsed with default false |
| Distro.DistroState.InstallProviders | middleware/distro.py:71-77 | the providers of the set flags are appended in order |
| Distro.DistroState.MwTracker | middleware/distro.py:55-81 | nothing happens before the distro ran or after a completed configuration; a failing resource raises with nothing set up; otherwise the providers are set up and the guard is set; the guard is set exactly when a configuration completes |
| Distro.DistroState.MwTrackerAsWritten | middleware/distro.py:55-81 | as written, every configuration that gets past the resource raises AttributeError after setting up the providers, and the guard never changes |
| Distro.DistroState.Configure | middleware/distro.py:134-138 | the distro flag is always set, and `mw_tracker()` runs with default options only when MW_TRACKER is false |
| Distro.DistroState.ConfigureAsWritten | middleware/distro.py:134-138 | `_configure` with the as-written `mw_tracker`: the providers are set up and the guard stays clear |
| Distro.RepeatedConfigurationAsWritten | middleware/distro.py:78-81 | as written, `_configure` then `mw_tracker()` in an empty environment creates two tracer providers and attaches two handlers to the root logger |
| Distro.RepeatedConfiguration | middleware/distro.py:57-61 | with the guard set on completion, the same calls create one tracer provider and attach one root-logger handler |
| Distro.RecordException | middleware/distro.py:103-115 | a recording current span records the exception and no span is started; otherwise a new span is started and ended and the current span is unchanged; when the tracer samples it, the new span is named `span_name` or the type name, records the exception and gets status ERROR with the message, and when it does not, the new span records nothing and keeps an unset status |
| SurroundCode.OutermostApplicationSpec | middleware/profiling/surround_code.py:25-32 | the found frame is an application frame with no application frame after it; none is found exactly when no frame qualifies |
| SurroundCode.CallingFrame | middleware/profiling/surround_code.py:25-35 | it fails with IndexError exactly on an empty stack; otherwise the chosen frame is one of the stack's |
| SurroundCode.SelectCallingFrame | middleware/profiling/surround_code.py:25-35 | the for/else loop computes the calling frame, or the IndexError of an empty stack |
| SurroundCode.CallingFrameChoice | middleware/profiling/surround_code.py:25-35 | it fails exactly on an empty stack; the outermost application frame is chosen; with none, `stack[0]` |
| SurroundCode.Window | middleware/profiling/surround_code.py:48-51 | the window has at most 10 lines, the clipped length, and line i is file line `start_line + i` |
| SurroundCode.WindowHoldsCallLine | middleware/profiling/surround_code.py:48-51 | a call line inside the file is in the window at its offset from the first line |
| SurroundCode.WindowReadLines | middleware/profiling/surround_code.py:45-51 | the lines of a window of read lines are read lines |
| SurroundCode.StripReadLine | middleware/profiling/surround_code.py:56 | stripping a line as `readlines()` returns it removes its newline |
| SurroundCode.CodeLinesNoNewline | middleware/profiling/surround_code.py:56 | no formatted line of the comprehension holds a newline |
| SurroundCode.CodeLinesSplit | middleware/profiling/surround_code.py:56 | splitting the joined codeblock at newlines gives the formatted lines back |
| SurroundCode.CodeblockNumbering | middleware/profiling/surround_code.py:56 | the codeblock has one line per window line, and line i is numbered with its 1-based file line `start_line + i + 1` |
| SurroundCode.CodeblockLines | middleware/profiling/surround_code.py:48-56 | `Codeblock`: a file of read lines gives one codeblock line per window line, and line i is file line `start_line + i` numbered `start_line + i + 1` |
| SurroundCode.SurroundingTextParts | middleware/profiling/surround_code.py:59 | `SurroundingText`: the attribute value begins with "path = " and the file name, and ends with a newline, "codeblock = " and the codeblock |
| SurroundCode.OnStart | middleware/profiling/surround_code.py:11-59 | an empty stack raises IndexError and an unreadable file raises NameError, leaving the span unchanged; otherwise a recording span gets `code.surrounding` = "path = … at line …\ncodeblock = …" |
| MwTracker.Unpack | mw_tracker/mw_tracker.py:73 | a successful unpack cuts the item at its only "=": key, "=" and value make up the item, and neither part holds "=" |
| MwTracker.UnpackOneSeparator | mw_tracker/mw_tracker.py:73 | `key, value = attribute.split('=')` succeeds exactly when the item holds one "=" |
| MwTracker.LastProjectNameWins | mw_tracker/mw_tracker.py:71-77 | the name is that of the last item whose key is exactly "project.name"; None exactly when there is no such item |
| MwTracker.ProjectNameMalformed | mw_tracker/mw_tracker.py:72-73 | the parse raises exactly when some item does not hold exactly one "=" |
| MwTracker.ProjectName | mw_tracker/mw_tracker.py:68-77 | None gives None; a string raises exactly when one of its comma-separated items does not hold exactly one "=" |
| MwTracker.GetProjectName | mw_tracker/mw_tracker.py:68-77 | the loop computes the last project name, None for None, or the ValueError of a malformed item; `_get_project_name` of middleware/lib/mw_tracker.py:68-77 is the same code |
| MwTracker.OrDefault | mw_tracker/mw_tracker.py:31-33 | `x or default`: a non-empty string is kept, and None or "" gives the default |
| MwTracker.Environ.constructor | mw_tracker/mw_tracker.py:13-16 | the environment object holds the given variables |
| MwTracker.LogRecord.constructor | mw_tracker/mw_tracker.py:60 | a record holds the given fields |
| MwTracker.Tracker.Init | mw_tracker/mw_tracker.py:12-38 | the three exporters become "otlp"; a malformed OTEL_RESOURCE_ATTRIBUTES raises with the fields unset; otherwise the project and service names default to "Project-{pid}" and "Service-{pid}", and the token to "" |
| MwTracker.Tracker.SetCustomLogAttr | mw_tracker/mw_tracker.py:59-66 | the record always gets project.name, service.name and mw.app.lang = "python", over what it held |
| LibMwTracker.CollectorsSelection | middleware/lib/mw_tracker.py:22-29 | each collector is started exactly when its flag is set, profiling never on Windows, in the order metrics, logs, profiling |
| LibMwTracker.UpdateJson | middleware/lib/mw_tracker.py:57-63 | service.name and mw.app.lang = "python" are always present, project.name exactly when there is a project name, and no other key |
| LibMwTracker.Tracker.SetCustomLogAttr | middleware/lib/mw_tracker.py:54-66 | the record's dict is updated with exactly that dict |
| LibMwTracker.Tracker.InitAsWritten | middleware/lib/mw_tracker.py:10-29 | as written, the token is assigned only when truthy; profiling off Windows without it raises AttributeError after the earlier collectors started |
| LibMwTracker.Tracker.Init | middleware/lib/mw_tracker.py:10-29 | with `config.access_token or ""` always assigned, the selected collectors start in order and profiling gets the token or "" |
| LibMwTracker.ProfilingWithoutTokenAsWritten | middleware/lib/mw_tracker.py:19-20 | as written, profiling with no token raises AttributeError("access_token") |
| LibMwTracker.ProfilingWithoutToken | middleware/lib/mw_tracker.py:19-20 | corrected, the same configuration starts profiling with an empty token |
| Installer.InsertSorted | middleware/installer/__init__.py:38 | inserting a new name keeps the listing strictly sorted and adds exactly that name |
| Installer.SortedNames | middleware/installer/__init__.py:38 | `sorted(_commands.keys())` is strictly increasing and holds exactly the keys |
| Installer.SortedUnique | middleware/installer/__init__.py:38 | two strictly sorted sequences with the same elements are equal, so the sorted order is unique |
| Installer.ListingUnique | middleware/installer/__init__.py:38-42 | any two listings of the same registry are the same sequence |
| Installer.VisibleOfSpec | middleware/installer/__init__.py:39-42 | the loop keeps exactly the non-hidden registered names and keeps their sorted order |
| Installer.Registry.constructor | middleware/installer/__init__.py:28 | line 28 registers only `help`, hidden, with options "[command]" |
| Installer.Registry.Command | middleware/installer/__init__.py:16-25 | the callback is stored under its name with its options, description and hidden flag, replacing any earlier entry, and returned |
| Installer.Registry.Help | middleware/installer/__init__.py:29-54 | no args: the banner, then exactly the non-hidden names in sorted order; an unknown name gets the unknown-command line; a known one gets its usage, plus the description only when non-empty |
| Installer.Registry.Dispatch | middleware/installer/__init__.py:57-71 | the command is argv[1], or "help"; an unknown one exits with status 1 after its message; a known one is called with argv[2:] |
| Installer.FreshListing | middleware/installer/__init__.py:28-42 | `help` never lists itself: the registry line 28 creates lists the banner and no command |
| Installer.ImportPackage | middleware/installer/run.py:7-12 | after `default_imports()` (middleware/installer/__init__.py:74) exactly `help`, hidden, and `run`, visible with options "...", are registered |
| Installer.ImportedListing | middleware/installer/__init__.py:36-42 | after the import, `help` with no arguments prints the banner and the one line "  run" |
| Strings.Split | middleware/detectors/detector.py:50 | `str.split` with one separator gives at least one part and no part holds the separator |
| Strings.JoinSplit | middleware/profiling/surround_code.py:56 | `Join` inverts `Split`: joining the parts of a split gives the string back |
| Strings.SplitJoin | middleware/profiling/surround_code.py:56 | `Split` inverts `Join`: splitting a join of separator-free parts gives the parts back |
| Strings.ContainsAt | middleware/resource.py:36 | `Contains`: an occurrence of the substring at any offset makes `sub in s` true |
| Strings.ContainsWitness | middleware/resource.py:36 | `Contains`: when `sub in s` holds, there is an offset where it occurs |
| Strings.SplitCount | mw_tracker/mw_tracker.py:73 | a split has one part more than there are separators |
| Strings.Strip | middleware/detectors/detector.py:50 | the stripped string is no longer and neither starts nor ends with whitespace |
| Strings.StripTrims | middleware/detectors/detector.py:50 | only surrounding whitespace goes: the stripped string is the slice of the string between an all-whitespace prefix and an all-whitespace suffix |
| Strings.Upper | middleware/detectors/detector.py:55 | upper-casing maps each character and keeps the length |
| Strings.UpperIdempotent | middleware/options.py:249 | upper-casing twice is upper-casing once |
| Strings.NatToString | mw_tracker/mw_tracker.py:31-32 | `str(n)` of a natural number is a non-empty string of decimal digits |
| Strings.NatToStringValue | mw_tracker/mw_tracker.py:31-32 | the digits of `str(n)` have the value n |
| Strings.ParseDigits | middleware/options.py:326 | `ParsePyInt`: a non-empty string of decimal digits parses to its decimal value |
| Strings.ParseNatToString | middleware/options.py:326 | `int(str(n)) == n` for every natural n |
| Strings.IntSpaceSkipped | middleware/options.py:326 | `int()` skips the ASCII whitespace around a numeral: `int(" 5\n")` is 5 |
| Strings.IntSpaceIsNarrower | middleware/options.py:326-330 | `int()` does not skip U+001C, which `str.strip()` removes: `int("\x1c5")` raises ValueError, so `parse_int` returns its default |
| Strings.LessTotal | middleware/installer/__init__.py:38 | two different names are ordered one way or the other |
| Strings.LessTransitive | middleware/installer/__init__.py:38 | the order of `sorted` on strings is transitive |
| Strings.LessIrreflexive | middleware/installer/__init__.py:38 | `Less`: no string sorts before itself |

## Left out

- Logging output is not modelled: warnings, `_logger.debug(vars(options))` and `logging.basicConfig` at middleware/options.py:250. An error message passed to `parse_bool` or `parse_int` is therefore not modelled.
- Provider, exporter and handler creation (middleware/trace.py, metrics.py, log.py, profiler.py) are calls into the OpenTelemetry SDK. They are recorded as effects or collectors, without their internals.
- The global setters `set_tracer_provider` (middleware/trace.py:60) and `set_meter_provider` (middleware/metrics.py:65) are set-once in OpenTelemetry: a second call only logs a warning. An effect records that a provider was created and handed to the setter, not which provider stays global. The root logger keeps every handler attached to it (middleware/distro.py:77).
- `get_aggregated_resources` and `Resource.create` (middleware/resource.py:68-72) are SDK calls, as are the detector constructors. The model ends at their inputs.
- The HTTP requests of middleware/detectors/aws.py:14 and :23 come from the network. Their outcomes are the `Probe` inputs.
- The SDK version is a parameter. middleware/resource.py:13 imports `__version__` from middleware/version.py, but version.py:1-8 defines only `SDK_VERSION` and `PYTHON_VERSION`, so as written that import raises ImportError and `create_resource` is never reached. The model assumes the import succeeds with some version string.
- Detectors.ProcessDetectorInput: Python set iteration order is unspecified. The model fixes one order, and the contracts state only what holds for every order: contents, no duplicates, length. Detectors.GetDetectors states its result as a multiset for the same reason.
- Strings.Upper: only ASCII letters are upper-cased. Python also maps some non-ASCII letters onto ASCII ones, such as U+0131 to "I" and U+017F to "S", which the detector, boolean and log-level lookups would then accept.
- Strings.ParsePyInt: non-ASCII decimal digits, which Python's `int()` accepts, are not modelled. Neither is CPython's default limit of 4300 digits on `int()` of a string: a longer numeral raises ValueError there, so `parse_int` returns its default, while Strings.ParseNatToString and Options.ParseIntDecimal are stated for every n.
- Options.ParseInt: a parameter that is not an int is `None`, because the model's parameter is an optional integer.
- Options.ResolveTarget: its ensures follows the code's two branches. The lemmas RewrittenTargetShape and HttpsTargetKept state what the rewriting means.
- Options.ParseIntDecimal: only non-negative numerals are read back. The model of signs is in `Strings.ParseSigned`, but no round-trip lemma for negative numbers is stated.
- The option `collect_profiling`, which `mw_tracker` reads, does not exist in MWOptions. Distro.DistroState.MwTracker therefore treats it as off and never starts the profiler (see Findings).
- `custom_record_exception_wrapper`: middleware/__init__.py:33 installs it as the SDK's `Span.record_exception`, so on an SDK span the calls at middleware/distro.py:105 and :113 run that wrapper, not the plain recording Tracing.Span.RecordException models. Its definition is not part of this model, and middleware/distro.py defines no such name, so as written middleware/__init__.py:1 raises ImportError.
- `extract_stack` and `LRUCache` are imported by the package, but their definitions are not part of this model.
- `on_end`, `shutdown` and `force_flush` of the span processor do nothing and are not modelled. Neither is the unused `frame` attribute of the calling frame.
- `inspect.stack()`, `sys.version_info` and `open(...).readlines()` are inputs. Any error while reading a file is modelled as the file being absent from `files`.
- `record_error`, `collect_metrics`, `collect_logs` and `collect_profiling` of both trackers call foreign code. Only the order of their calls is modelled.
- The module-level `mw_agent_target` (mw_tracker/mw_tracker.py:8, middleware/lib/mw_tracker.py:6) is read but never used.
- The body of the `run` command (middleware/installer/run.py:13-42) builds and runs a shell command and is not modelled. Its registration is modelled by Installer.ImportPackage, whose long description is a parameter. Registered callbacks other than `help` are tags.
- Installer.Registry.constructor: models line 28 alone. Importing the package also runs `default_imports()` (middleware/installer/__init__.py:74), which registers the visible `run` command; Installer.ImportPackage models the whole import.
- Installer.FreshListing: the empty listing is that of the line-28 registry. After the whole import, `help` lists `run` (Installer.ImportedListing).
- Installer.Registry.Command: entries are stored per name. The decorator sets the attributes on the callback object itself (middleware/installer/__init__.py:18-21), so one function registered under two names would show the last registration's options, description and hidden flag under both. The model does not capture that aliasing.
- Distro.RecordException: whether the tracer hands out a recording span (an installed SDK provider and its sampler) is the input `sampled`.
- middleware/config.py is not modelled. The configured tracker receives its values as a `Config`.
- Installer.ImportPackage: assumes the import of middleware.config (middleware/installer/run.py:2) succeeds, that is, argv[1] is "help" or MIDDLEWARE_CONFIG_FILE names an existing file. Otherwise `Config()` runs at import time (middleware/config.py:42) inside `default_imports()` (middleware/installer/__init__.py:74), before `main` dispatches. With the variable unset or empty it prints "MIDDLEWARE_CONFIG_FILE environment variable is missing." and exits with status 1 (config.py:11-14); with a missing file it raises FileNotFoundError (config.py:16-17). Installer.ImportedListing and the dispatch after the import rest on the same assumption.

## Findings

| source | as written | input that shows it | evidently intended | confidence | as-written member | corrected member |
|---|---|---|---|---|---|---|
| middleware/distro.py:78 | `mw_tracker` reads `options.collect_profiling`, but `MWOptions` (middleware/options.py:199-275) defines no such attribute. Every configuration that reaches line 78 raises AttributeError after setting up its providers, so `mw_tracker_called` (line 81) is never set. | MW_TRACKER unset, empty environment: `_configure()` then `mw_tracker()` creates a second tracer provider and attaches a second handler to the root logger (middleware/distro.py:77), so every log record is exported twice (Distro.RepeatedConfigurationAsWritten) | configuration completes, sets the guard, and a second call is skipped | not executed | Distro.DistroState.MwTrackerAsWritten | Distro.DistroState.MwTracker |
| middleware/lib/mw_tracker.py:19-20 | `self.access_token` is assigned only when `config.access_token` is truthy, which makes the `or ""` dead code. `collect_profiling` (line 39) then reads an attribute that was never set. | access_token missing or empty (middleware/config.py:27 falls back to ""), collect_profiling True, not Windows: the constructor raises AttributeError (LibMwTracker.ProfilingWithoutTokenAsWritten) | the token is always assigned as `config.access_token or ""` | not executed | LibMwTracker.Tracker.InitAsWritten | LibMwTracker.Tracker.Init |
