/**
 * The part of an OpenTelemetry span that the instrumentation code touches:
 * `is_recording()`, `record_exception`, `set_status`, `set_attribute` and
 * `end()`. A span that is not recording (the SDK's ended span, the API's
 * non-recording span) ignores every mutation.
 */
module Tracing {
  import opened Wrappers

  /** A Python exception as seen by the tracing calls: `type(exc).__name__` and `str(exc)`. */
  datatype PyException = PyException(typeName: string, message: string)

  datatype StatusCode = StatusUnset | StatusOk | StatusError

  datatype Status = Status(code: StatusCode, description: Option<string>)

  class Span {
    var name: string
    var recording: bool
    /** The exceptions recorded as span events, oldest first. */
    var exceptions: seq<PyException>
    var status: Status
    var attributes: map<string, string>

    /** `tracer.start_span(name)` under a sampler that records. */
    constructor Start(name: string)
      ensures this.name == name && recording
      ensures exceptions == [] && status == Status(StatusUnset, None) && attributes == map[]
    {
      this.name := name;
      recording := true;
      exceptions := [];
      status := Status(StatusUnset, None);
      attributes := map[];
    }

    /** The span `get_current_span()` returns when no span is active, and the span a tracer
        hands out when it does not record: a no-op tracer or a dropping sampler. */
    constructor NonRecording()
      ensures name == "" && !recording
      ensures exceptions == [] && status == Status(StatusUnset, None) && attributes == map[]
    {
      name := "";
      recording := false;
      exceptions := [];
      status := Status(StatusUnset, None);
      attributes := map[];
    }

    method RecordException(exc: PyException)
      modifies this`exceptions
      ensures exceptions == if recording then old(exceptions) + [exc] else old(exceptions)
    {
      if recording {
        exceptions := exceptions + [exc];
      }
    }

    method SetStatus(s: Status)
      modifies this`status
      ensures status == if recording then s else old(status)
    {
      if recording {
        status := s;
      }
    }

    method SetAttribute(key: string, value: string)
      modifies this`attributes
      ensures attributes == if recording then old(attributes)[key := value] else old(attributes)
    {
      if recording {
        attributes := attributes[key := value];
      }
    }

    method End()
      modifies this`recording
      ensures !recording
    {
      recording := false;
    }
  }
}
