/** Correlation metadata and its form as transport headers. */
module Correlations {
  import opened Executions

  const CORRELATION_HEADER := "taskferry-correlation-id"
  const CAUSATION_HEADER := "taskferry-causation-id"

  /** The only header names carried for tracing (W3C Trace Context, sections 3.2 and 3.3). */
  const TRACE_FIELDS: set<string> := {"traceparent", "tracestate"}

  type Headers = map<string, string>

  datatype Correlation = Correlation(
    correlationId: string, causationId: Option<string>, traceContext: Headers)
  {
    function ToHeaders(): Headers {
      var headers := map[CORRELATION_HEADER := correlationId] + traceContext;
      if causationId.Some? then headers[CAUSATION_HEADER := causationId.value] else headers
    }

    /** A correlation whose ids are usable and whose trace carries only trace fields. */
    predicate Portable() {
      && correlationId != ""
      && causationId != Some("")
      && traceContext.Keys <= TRACE_FIELDS
    }
  }

  /** A fresh flow; `freshId` is the newly minted id. */
  function Start(freshId: string): Correlation {
    Correlation(freshId, None, map[])
  }

  function FromHeaders(headers: Headers, freshId: string): Correlation {
    if CORRELATION_HEADER !in headers || headers[CORRELATION_HEADER] == "" then Start(freshId)
    else
      Correlation(
        headers[CORRELATION_HEADER],
        if CAUSATION_HEADER in headers && headers[CAUSATION_HEADER] != ""
        then Some(headers[CAUSATION_HEADER]) else None,
        map k | k in headers && k in TRACE_FIELDS :: headers[k])
  }

  lemma HeaderNamesAreNotTraceFields()
    ensures CORRELATION_HEADER !in TRACE_FIELDS && CAUSATION_HEADER !in TRACE_FIELDS
    ensures CORRELATION_HEADER != CAUSATION_HEADER
  {
    assert CORRELATION_HEADER[10] == 'c' && CORRELATION_HEADER[11] == 'o' && CAUSATION_HEADER[11] == 'a';
    assert |"traceparent"| == 11 && |"tracestate"| == 10;
    assert |CORRELATION_HEADER| > 11 && |CAUSATION_HEADER| > 11;
  }

  /** Headers carry a correlation faithfully exactly when it is portable. */
  lemma HeadersRoundTrip(c: Correlation, freshId: string)
    requires freshId != ""
    ensures FromHeaders(c.ToHeaders(), freshId) == c <==> c.Portable()
  {
    var h := c.ToHeaders();
    var back := FromHeaders(h, freshId);
    HeaderNamesAreNotTraceFields();
    if c.Portable() {
      assert h[CORRELATION_HEADER] == c.correlationId;
      assert back.traceContext == c.traceContext;
    } else {
      assert back.correlationId != "";
      assert back.causationId != Some("");
      assert back.traceContext.Keys <= TRACE_FIELDS;
    }
  }

  /** The headers by name; an id always comes from the correlation itself, the trace fields as they are. */
  lemma HeadersInPlain(c: Correlation)
    requires c.traceContext.Keys <= {"traceparent", "tracestate"}
    ensures var h := c.ToHeaders();
            && "taskferry-correlation-id" in h && h["taskferry-correlation-id"] == c.correlationId
            && ("taskferry-causation-id" in h <==> c.causationId.Some?)
            && (c.causationId.Some? ==> h["taskferry-causation-id"] == c.causationId.value)
            && (forall k :: k in c.traceContext ==> k in h && h[k] == c.traceContext[k])
            && h.Keys <= {"taskferry-correlation-id", "taskferry-causation-id", "traceparent", "tracestate"}
  {
    HeaderNamesAreNotTraceFields();
  }

  /** What a worker makes of any headers: a fresh flow without a usable id; else that id, a nonempty cause,
      and the trace fields, whatever other headers there are. */
  lemma ReadingHeadersInPlain(h: Headers, freshId: string)
    ensures var c := FromHeaders(h, freshId);
            if "taskferry-correlation-id" !in h || h["taskferry-correlation-id"] == ""
            then c.correlationId == freshId && c.causationId == None && c.traceContext == map[]
            else
              && c.correlationId == h["taskferry-correlation-id"]
              && (c.causationId.Some? <==> "taskferry-causation-id" in h && h["taskferry-causation-id"] != "")
              && (c.causationId.Some? ==> c.causationId.value == h["taskferry-causation-id"])
              && (forall k :: k in c.traceContext <==> k in h && (k == "traceparent" || k == "tracestate"))
              && (forall k :: k in c.traceContext ==> c.traceContext[k] == h[k])
  {
  }
}
