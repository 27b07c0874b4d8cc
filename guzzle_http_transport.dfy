/**
 * The HTTP network transport: each operation shapes one HTTP request
 * (a fixed method, the arguments as query, the message as body for create
 * and update, the tracing header), records it as the last request, sends
 * it through the HTTP client and translates the client's transfer errors
 * into the transport's network exceptions.
 */
module HttpTransport {
  import opened Wrappers
  import opened Php
  import opened Arguments
  import opened Collaborators
  import opened Orchestrator

  /** The header name the trace identifier travels under by default. */
  const TraceHttpHeader: string := "X-DGT-TRACE"

  /** The status codes of NotFoundException and ForbiddenException. */
  const NotFoundStatus: int := 404
  const ForbiddenStatus: int := 403

  /** The HTTP methods the transport uses. */
  datatype HttpMethod = POST | GET | PUT | DELETE

  /**
   * A transfer error raised by the HTTP client: a ClientException (a 4xx
   * response, the code is the status) or any other TransferException
   * (a 5xx response, a connect or read timeout, ...).
   */
  datatype TransferError =
    | ClientError(code: int, message: string)
    | OtherTransferError(code: int, message: string)

  /** What sending one request gives: a response body or a transfer error. */
  datatype SendOutcome = Response(body: PhpValue) | TransferFailed(error: TransferError)

  /** A network exception of the transport, chaining the transfer error it stands for. */
  datatype NetworkException = NetworkException(kind: NetworkFault, message: string, code: int, previous: TransferError)

  /**
   * What one transport operation ends with: the response body, a network
   * exception, or a PHP Error that is not an exception (`throw null`, or a
   * member call on an empty argument slot while building the query).
   */
  datatype HttpOutcome = Body(content: PhpValue) | Raised(exception: NetworkException) | FatalError

  /** One request as built by the HTTP client: the endpoint is resolved by the client against its base URL. */
  datatype Request = Request(
    httpMethod: HttpMethod,
    endpoint: string,
    body: Option<PhpValue>,
    query: map<string, PhpValue>,
    headers: map<string, string>)

  /**
   * The classification of transfer errors. A 404 client error becomes
   * NotFound and a 403 one Forbidden; every other transfer error becomes
   * TransportUnavailable; a client error with any other code has no
   * exception at all. Message, code and cause are carried over.
   */
  function ExceptionFactory(exc: TransferError): (e: Option<NetworkException>)
    ensures e.None? <==> exc.ClientError? && exc.code != NotFoundStatus && exc.code != ForbiddenStatus
    ensures e.Some? ==> e.value.previous == exc && e.value.message == exc.message && e.value.code == exc.code
    ensures e.Some? ==> (e.value.kind == NotFound <==> exc.ClientError? && exc.code == NotFoundStatus)
    ensures e.Some? ==> (e.value.kind == Forbidden <==> exc.ClientError? && exc.code == ForbiddenStatus)
    ensures e.Some? ==> (e.value.kind == TransportUnavailable <==> exc.OtherTransferError?)
  {
    match exc
    case ClientError(code, message) =>
      if code == NotFoundStatus then Some(NetworkException(NotFound, message, NotFoundStatus, exc))
      else if code == ForbiddenStatus then Some(NetworkException(Forbidden, message, code, exc))
      else None
    case OtherTransferError(code, message) =>
      Some(NetworkException(TransportUnavailable, message, code, exc))
  }

  /** What an operation gives for the outcome of its send: `throw` of the factory's result on a transfer error. */
  function Answer(sent: SendOutcome): (r: HttpOutcome)
    ensures r.Body? <==> sent.Response?
    ensures r.Body? ==> r.content == sent.body
    ensures r.FatalError? <==> sent.TransferFailed? && ExceptionFactory(sent.error).None?
    ensures r.Raised? ==> sent.TransferFailed? && Some(r.exception) == ExceptionFactory(sent.error)
  {
    match sent
    case Response(body) => Body(body)
    case TransferFailed(error) =>
      match ExceptionFactory(error)
      case Some(e) => Raised(e)
      case None => FatalError
  }

  /** An ASCII letter in upper case; every other character unchanged. */
  function UpperCase(c: char): char {
    if 'a' <= c <= 'z' then (c as int - 32) as char else c
  }

  /** strtoupper on ASCII text. */
  function ToUpper(s: string): (u: string)
    ensures |u| == |s|
    ensures forall i :: 0 <= i < |s| ==> u[i] == UpperCase(s[i])
    ensures forall i :: 0 <= i < |s| ==> !('a' <= u[i] <= 'z')
  {
    if s == [] then [] else [UpperCase(s[0])] + ToUpper(s[1..])
  }

  /** The server variable the trace identifier of the incoming request is read from. */
  function ServerKey(headerTraceName: string): (key: string)
    ensures |key| == 5 + |headerTraceName| && key[..5] == "HTTP_" && key[5..] == ToUpper(headerTraceName)
  {
    "HTTP_" + ToUpper(headerTraceName)
  }

  /**
   * The tracing headers of a request: the configured header, carrying the
   * value of its server variable, when that variable is set; none otherwise.
   */
  function TracingHeaders(headerTraceName: string, server: map<string, string>): (headers: map<string, string>)
    ensures headers.Keys <= {headerTraceName}
    ensures headerTraceName in headers <==> ServerKey(headerTraceName) in server
    ensures headerTraceName in headers ==> headers[headerTraceName] == server[ServerKey(headerTraceName)]
  {
    var serverKey := ServerKey(headerTraceName);
    if serverKey in server then map[headerTraceName := server[serverKey]] else map[]
  }

  /**
   * Two header names read the same server variable exactly when they differ
   * only in the case of ASCII letters.
   */
  lemma ServerKeyIgnoresCase(a: string, b: string)
    ensures ServerKey(a) == ServerKey(b) <==>
              |a| == |b| && forall i :: 0 <= i < |a| ==> UpperCase(a[i]) == UpperCase(b[i])
  {
    if ServerKey(a) == ServerKey(b) {
      assert ToUpper(a) == ServerKey(a)[5..] == ToUpper(b);
    }
  }

  /** The query an operation sends: the flattened arguments, or none without arguments. */
  ghost function QueryOf(arguments: RequestArguments?): Result<map<string, PhpValue>, ArgumentsError>
    reads if arguments == null then {} else {arguments.slots}
    reads if arguments == null then {} else set i | 0 <= i < arguments.slots.Length :: arguments.slots[i]
  {
    if arguments == null then Success(map[]) else Flatten(arguments.slots[..])
  }

  /** The view the service transport has of an operation's outcome. */
  function AsTransportOutcome(h: HttpOutcome): (t: TransportOutcome)
    ensures t.Responded? <==> h.Body?
    ensures t.Responded? ==> t.raw == h.content
    ensures t.Failed? ==> h.Raised? && t.fault == h.exception.kind
    ensures t.Errored? <==> h.FatalError?
  {
    match h
    case Body(content) => Responded(content)
    case Raised(e) => Failed(e.kind)
    case FatalError => Errored
  }

  class GuzzleHttpTransport {
    /** The HTTP client's send, seen through its outcome. */
    const send: Request -> SendOutcome
    const headerTraceName: string
    var lastRequest: Option<Request>

    constructor (send: Request -> SendOutcome, headerTraceName: string := TraceHttpHeader)
      ensures this.send == send && this.headerTraceName == headerTraceName && lastRequest == None
    {
      this.send := send;
      this.headerTraceName := headerTraceName;
      lastRequest := None;
    }

    /**
     * One operation with the given method and body. When the query cannot
     * be built, the PHP Error escapes and nothing is recorded. Otherwise the
     * request (query, body, tracing headers) is recorded as the last request
     * before it is sent, so it stays recorded when sending fails, and the
     * outcome is the answer to what sending it gave.
     */
    ghost predicate Exchanged(httpMethod: HttpMethod, endpoint: string, body: Option<PhpValue>,
                              query: Result<map<string, PhpValue>, ArgumentsError>, server: map<string, string>,
                              before: Option<Request>, after: Option<Request>, r: HttpOutcome)
    {
      match query
      case Failure(_) => r == FatalError && after == before
      case Success(q) =>
        var request := Request(httpMethod, endpoint, body, q, TracingHeaders(headerTraceName, server));
        after == Some(request) && r == Answer(send(request))
    }

    /** create: a POST carrying the message (an empty string by default). */
    method Create(server: map<string, string>, endpoint: string, arguments: RequestArguments? := null,
                  message: PhpValue := Str(""))
      returns (r: HttpOutcome)
      modifies this
      ensures Exchanged(POST, endpoint, Some(message), QueryOf(arguments), server, old(lastRequest), lastRequest, r)
    {
      r := SendRequest(POST, endpoint, arguments, Some(message), server);
    }

    /** retrieve: a GET without body. */
    method Retrieve(server: map<string, string>, endpoint: string, arguments: RequestArguments? := null)
      returns (r: HttpOutcome)
      modifies this
      ensures Exchanged(GET, endpoint, None, QueryOf(arguments), server, old(lastRequest), lastRequest, r)
    {
      r := SendRequest(GET, endpoint, arguments, None, server);
    }

    /** update: a PUT carrying the message (an empty string by default). */
    method Update(server: map<string, string>, endpoint: string, arguments: RequestArguments? := null,
                  message: PhpValue := Str(""))
      returns (r: HttpOutcome)
      modifies this
      ensures Exchanged(PUT, endpoint, Some(message), QueryOf(arguments), server, old(lastRequest), lastRequest, r)
    {
      r := SendRequest(PUT, endpoint, arguments, Some(message), server);
    }

    /** delete: a DELETE without body. */
    method Delete(server: map<string, string>, endpoint: string, arguments: RequestArguments? := null)
      returns (r: HttpOutcome)
      modifies this
      ensures Exchanged(DELETE, endpoint, None, QueryOf(arguments), server, old(lastRequest), lastRequest, r)
    {
      r := SendRequest(DELETE, endpoint, arguments, None, server);
    }

    /** The steps the four operations share: build, record, send, translate. */
    method SendRequest(httpMethod: HttpMethod, endpoint: string, arguments: RequestArguments?, body: Option<PhpValue>,
                       server: map<string, string>)
      returns (r: HttpOutcome)
      modifies this
      ensures Exchanged(httpMethod, endpoint, body, QueryOf(arguments), server, old(lastRequest), lastRequest, r)
    {
      var query: map<string, PhpValue> := map[];
      if arguments != null {
        var built := arguments.ToArray();
        if built.Failure? {
          return FatalError;
        }
        query := built.value;
      }
      var request := Request(httpMethod, endpoint, body, query, TracingHeaders(headerTraceName, server));
      lastRequest := Some(request);
      var sent := send(request);
      r := Answer(sent);
    }
  }

  /**
   * The gap of the classification, seen from the service transport: a client
   * error other than 404 and 403 reaches a guarded retrieve or delete as a
   * PHP Error, which it lets through untranslated and reports to the
   * breaker neither as a success nor as a failure.
   */
  lemma UnmappedClientErrorIsNotReported(st: ServiceTransport, op: Operation, endpoint: string,
                                         arguments: RequestArguments?, code: int, message: string,
                                         r: CallResult, calls: seq<Call>)
    requires code != NotFoundStatus && code != ForbiddenStatus
    requires st.circuitBreaker.Some? && st.circuitBreaker.value.isAvailable(st.CircuitBreakerServiceName(endpoint))
    requires st.transport.exchange(op, endpoint, arguments, None) ==
             AsTransportOutcome(Answer(TransferFailed(ClientError(code, message))))
    requires st.WithoutBodyBehaviour(op, endpoint, arguments, r, calls)
    ensures r == Threw(Propagated(PhpError))
    ensures CountOf(calls, ReportFailure(st.CircuitBreakerServiceName(endpoint))) == 0
    ensures CountOf(calls, ReportSuccess(st.CircuitBreakerServiceName(endpoint))) == 0
  {
    WithoutBodyBreakerReports(st, op, endpoint, arguments, r, calls);
  }

  /**
   * An unavailable transport, by contrast, is reported: a transfer error
   * that is not a client error reaches a guarded retrieve or delete as
   * TransportUnavailable, which is reported once as a failure and becomes
   * the "unreachable" ServiceUnavailableException.
   */
  lemma TransferFailureIsReported(st: ServiceTransport, op: Operation, endpoint: string,
                                  arguments: RequestArguments?, code: int, message: string,
                                  r: CallResult, calls: seq<Call>)
    requires st.circuitBreaker.Some? && st.circuitBreaker.value.isAvailable(st.CircuitBreakerServiceName(endpoint))
    requires st.transport.exchange(op, endpoint, arguments, None) ==
             AsTransportOutcome(Answer(TransferFailed(OtherTransferError(code, message))))
    requires st.WithoutBodyBehaviour(op, endpoint, arguments, r, calls)
    ensures r == Unreachable(endpoint)
    ensures CountOf(calls, ReportFailure(st.CircuitBreakerServiceName(endpoint))) == 1
    ensures CountOf(calls, ReportSuccess(st.CircuitBreakerServiceName(endpoint))) == 0
  {
    WithoutBodyBreakerReports(st, op, endpoint, arguments, r, calls);
  }
}
