/**
 * The servlet filter that gives every request a correlation ID: it adopts the
 * inbound X-Correlation-Id header or generates a UUID, publishes the ID in the
 * MDC and on the response while the rest of the chain runs, and always removes
 * it from the MDC afterwards.
 */
module CorrelationFilter {
  import opened Wrappers
  import opened JavaText
  import opened Uuid
  import opened Mdc

  const CORRELATION_ID_HEADER := "X-Correlation-Id"
  const CORRELATION_ID_KEY := "correlationId"

  /** The inbound request: the first value of each header, by exact name. */
  datatype HttpRequest = HttpRequest(headers: map<string, string>)

  /** HttpServletRequest.getHeader: the header's value, or null when it is missing. */
  function GetHeader(request: HttpRequest, name: string): (r: Option<string>)
    ensures r.None? <==> name !in request.headers
    ensures r.Some? ==> r.value == request.headers[name]
  {
    Lookup(request.headers, name)
  }

  /** The outbound response, whose headers the filter and the chain set in place. */
  class HttpResponse {
    var headers: map<string, string>

    constructor ()
      ensures headers == map[]
    {
      headers := map[];
    }

    /** HttpServletResponse.setHeader: replaces any value the header had. */
    method SetHeader(name: string, value: string)
      modifies this
      ensures headers == old(headers)[name := value]
    {
      headers := headers[name := value];
    }
  }

  /** An IOException or ServletException (or unchecked exception) thrown downstream. */
  datatype ChainFailure = ChainFailure(description: string)

  /** What the downstream chain can observe and change: the MDC and the response headers. */
  datatype Exchange = Exchange(context: map<string, string>, responseHeaders: map<string, string>)

  /** The state the chain leaves behind, and whether it returned normally or threw. */
  datatype ChainRun = ChainRun(after: Exchange, outcome: Outcome<ChainFailure>)

  /** The rest of the filter chain (later filters, the controller, the audit call). */
  type FilterChain = Exchange -> ChainRun

  /**
   * The correlation ID a request is handled under: the inbound header when it
   * is neither null nor blank, verbatim; otherwise the text of the generated UUID.
   */
  function ResolveCorrelationId(header: Option<string>, generated: Uuid): (id: string)
    ensures !IsBlank(id)
    ensures !NullOrBlank(header) ==> id == header.value
    ensures NullOrBlank(header) ==> id == UuidToString(generated)
  {
    if header.None? || IsBlank(header.value) then UuidToString(generated) else header.value
  }

  /** Binding a key and then removing it leaves the other entries as they were. */
  lemma PutThenRemove(m: map<string, string>, key: string, value: string)
    ensures m[key := value] - {key} == m - {key}
  {
  }

  /**
   * Filter.doFilter. `generated` is what UUID.randomUUID would return; it is
   * used only when the header is null or blank. `seen` is the state the chain
   * is invoked in. Whatever the chain does, and whether or not it throws, the
   * correlation key is gone from the MDC afterwards and the chain's outcome is
   * passed on unchanged.
   */
  method DoFilter(request: HttpRequest, response: HttpResponse, chain: FilterChain, mdc: MdcContext, generated: Uuid)
    returns (outcome: Outcome<ChainFailure>, ghost seen: Exchange)
    modifies mdc, response
    ensures var id := ResolveCorrelationId(GetHeader(request, CORRELATION_ID_HEADER), generated);
      seen == Exchange(old(mdc.entries)[CORRELATION_ID_KEY := id], old(response.headers)[CORRELATION_ID_HEADER := id])
    ensures outcome == chain(seen).outcome
    ensures mdc.entries == chain(seen).after.context - {CORRELATION_ID_KEY}
    ensures response.headers == chain(seen).after.responseHeaders
    ensures CORRELATION_ID_KEY !in mdc.entries
    ensures chain(seen).after.context == seen.context ==> mdc.entries == old(mdc.entries) - {CORRELATION_ID_KEY}
  {
    var header := GetHeader(request, CORRELATION_ID_HEADER);
    var correlationId: string;
    if header.None? || IsBlank(header.value) {
      correlationId := UuidToString(generated);
    } else {
      correlationId := header.value;
    }
    assert correlationId == ResolveCorrelationId(header, generated);

    mdc.Put(CORRELATION_ID_KEY, correlationId);
    response.SetHeader(CORRELATION_ID_HEADER, correlationId);

    // The chain runs between the put and the remove; its effects stay, its failure propagates.
    var during := Exchange(mdc.entries, response.headers);
    seen := during;
    var run := chain(during);
    mdc.entries := run.after.context;
    response.headers := run.after.responseHeaders;

    // The finally block: executed on the normal and the exceptional path alike.
    mdc.Remove(CORRELATION_ID_KEY);
    outcome := run.outcome;
    PutThenRemove(old(mdc.entries), CORRELATION_ID_KEY, correlationId);
  }
}
