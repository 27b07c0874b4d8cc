/**
 * The service transport: every create, retrieve, update and delete goes
 * through the network transport and the serializer, optionally behind a
 * circuit-breaker gate. With a breaker configured, every lower-level fault
 * except a PHP Error is translated into one of three service exceptions;
 * without one, faults propagate as they are. Each operation returns its
 * result together with the trace of the calls it made to its collaborators.
 */
module Orchestrator {
  import opened Wrappers
  import opened Php
  import opened Arguments
  import opened Collaborators

  /** A lower-level exception, kept as the chained cause of a service exception. */
  datatype Fault = Network(kind: NetworkFault) | Serialization | PhpError

  /** The three service-facing exception classes. */
  datatype ServiceErrorKind = ServiceUnavailable | ServiceLogic | UnexpectedResponse

  /** What a failed call throws: a service exception, or a lower-level one left untranslated. */
  datatype Thrown =
    | ServiceException(kind: ServiceErrorKind, message: string, code: int, previous: Option<Fault>)
    | Propagated(fault: Fault)

  datatype CallResult = Returned(value: PhpValue) | Threw(thrown: Thrown)

  /** The outcome of a (un)serialize step together with the serializer calls it made. */
  datatype Coded = Coded(outcome: SerializerOutcome, calls: seq<Call>)

  /** `new ServiceUnavailableException()`: the breaker refused the call. */
  const BreakerOpen: CallResult := Threw(ServiceException(ServiceUnavailable, "", 0, None))

  /** The transport was unavailable. */
  function Unreachable(endpoint: string): CallResult {
    Threw(ServiceException(ServiceUnavailable, "Unreacheable service at endpoint " + endpoint, 0,
                           Some(Network(TransportUnavailable))))
  }

  /** The remote service refused the request (not found or forbidden). */
  function Refused(endpoint: string, fault: NetworkFault): CallResult {
    Threw(ServiceException(ServiceLogic, "Service report an error at endpoint " + endpoint, 1, Some(Network(fault))))
  }

  /** A payload could not be (un)serialized. */
  function BadResponse(endpoint: string): CallResult {
    Threw(ServiceException(UnexpectedResponse, "Bad response from endpoint " + endpoint, 1, Some(Serialization)))
  }

  class ServiceTransport {
    const transport: NetworkTransport
    const circuitBreaker: Option<CircuitBreaker>
    const serializer: Option<Serializer>

    constructor (transport: NetworkTransport, circuitBreaker: Option<CircuitBreaker> := None,
                 serializer: Option<Serializer> := None)
      ensures this.transport == transport
      ensures this.circuitBreaker == circuitBreaker && this.serializer == serializer
    {
      this.transport := transport;
      this.circuitBreaker := circuitBreaker;
      this.serializer := serializer;
    }

    /** The key the breaker tracks the endpoint under. */
    function CircuitBreakerServiceName(endpoint: string): (key: string)
      ensures transport.baseUrl <= key && |key| == |transport.baseUrl| + |endpoint|
    {
      transport.baseUrl + endpoint
    }

    /**
     * Outbound serialization: a value loosely equal to null becomes null
     * without consulting the serializer; without a serializer the value is
     * passed on as it is.
     */
    function Serialize(data: PhpValue): (c: Coded)
      ensures LooselyNull(data) ==> c == Coded(Serialized(Null), [])
      ensures serializer.None? ==> c.calls == [] && c.outcome.Serialized?
      ensures serializer.None? && !LooselyNull(data) ==> c.outcome.value == data
      ensures c.calls != [] <==> serializer.Some? && !LooselyNull(data)
      ensures c.calls != [] ==> c.calls == [SerializeCall(data)] && c.outcome == serializer.value.serialize(data)
    {
      if LooselyNull(data) then Coded(Serialized(Null), [])
      else if serializer.Some? then Coded(serializer.value.serialize(data), [SerializeCall(data)])
      else Coded(Serialized(data), [])
    }

    /** Inbound unserialization: the identity without a serializer; no null shortcut. */
    function Unserialize(raw: PhpValue): (c: Coded)
      ensures serializer.None? ==> c == Coded(Serialized(raw), [])
      ensures serializer.Some? ==> c.calls == [UnserializeCall(raw)] && c.outcome == serializer.value.unserialize(raw)
    {
      if serializer.Some? then Coded(serializer.value.unserialize(raw), [UnserializeCall(raw)])
      else Coded(Serialized(raw), [])
    }

    /**
     * Without a breaker, after the transport call (the trace so far is
     * `before`): the response is unserialized and every exception propagates
     * as it is.
     */
    ghost predicate Untranslated(sent: TransportOutcome, before: seq<Call>, r: CallResult, calls: seq<Call>) {
      match sent
      case Responded(raw) =>
        var u := Unserialize(raw);
        && calls == before + u.calls
        && r == (if u.outcome.Serialized? then Returned(u.outcome.value) else Threw(Propagated(Serialization)))
      case Failed(fault) => calls == before && r == Threw(Propagated(Network(fault)))
      case Errored => calls == before && r == Threw(Propagated(PhpError))
    }

    /**
     * With a breaker that let the call through, after the transport call
     * (the trace so far is `before`): success is reported only once the
     * response has been unserialized; a transport failure is reported and
     * becomes ServiceUnavailable; a refusal becomes ServiceLogic and an
     * unreadable response UnexpectedResponse, neither reported; a PHP Error
     * escapes every catch block.
     */
    ghost predicate Translated(endpoint: string, sent: TransportOutcome, before: seq<Call>,
                               r: CallResult, calls: seq<Call>)
    {
      var key := CircuitBreakerServiceName(endpoint);
      match sent
      case Responded(raw) =>
        var u := Unserialize(raw);
        if u.outcome.Serialized? then r == Returned(u.outcome.value) && calls == before + u.calls + [ReportSuccess(key)]
        else r == BadResponse(endpoint) && calls == before + u.calls
      case Failed(fault) =>
        if fault == TransportUnavailable then r == Unreachable(endpoint) && calls == before + [ReportFailure(key)]
        else r == Refused(endpoint, fault) && calls == before
      case Errored => r == Threw(Propagated(PhpError)) && calls == before
    }

    /** What retrieve and delete do (op is the operation named). */
    ghost predicate WithoutBodyBehaviour(op: Operation, endpoint: string, arguments: RequestArguments?,
                                         r: CallResult, calls: seq<Call>)
    {
      var key := CircuitBreakerServiceName(endpoint);
      var contact := TransportCall(op, endpoint, arguments, None);
      var sent := transport.exchange(op, endpoint, arguments, None);
      if circuitBreaker.None? then Untranslated(sent, [contact], r, calls)
      else if !circuitBreaker.value.isAvailable(key) then r == BreakerOpen && calls == [IsAvailable(key)]
      else Translated(endpoint, sent, [IsAvailable(key), contact], r, calls)
    }

    /**
     * What create and update do (op is the operation named). Without a
     * breaker the transport's update is called whatever op is; with one, a
     * serialization failure of the outgoing data stops the call before the
     * transport and is reported as UnexpectedResponse.
     */
    ghost predicate WithBodyBehaviour(op: Operation, endpoint: string, arguments: RequestArguments?, data: PhpValue,
                                      r: CallResult, calls: seq<Call>)
    {
      var key := CircuitBreakerServiceName(endpoint);
      var s := Serialize(data);
      if circuitBreaker.None? then
        if s.outcome.SerializationFault? then r == Threw(Propagated(Serialization)) && calls == s.calls
        else
          var body := Some(s.outcome.value);
          Untranslated(transport.exchange(Operation.Update, endpoint, arguments, body),
                       s.calls + [TransportCall(Operation.Update, endpoint, arguments, body)], r, calls)
      else if !circuitBreaker.value.isAvailable(key) then r == BreakerOpen && calls == [IsAvailable(key)]
      else if s.outcome.SerializationFault? then r == BadResponse(endpoint) && calls == [IsAvailable(key)] + s.calls
      else
        var body := Some(s.outcome.value);
        Translated(endpoint, transport.exchange(op, endpoint, arguments, body),
                   [IsAvailable(key)] + s.calls + [TransportCall(op, endpoint, arguments, body)], r, calls)
    }

    method Create(endpoint: string, arguments: RequestArguments? := null, data: PhpValue := Null)
      returns (r: CallResult, calls: seq<Call>)
      ensures WithBodyBehaviour(Operation.Create, endpoint, arguments, data, r, calls)
    {
      r, calls := CallMethodWithBody(Operation.Create, endpoint, arguments, data);
    }

    method Retrieve(endpoint: string, arguments: RequestArguments? := null)
      returns (r: CallResult, calls: seq<Call>)
      ensures WithoutBodyBehaviour(Operation.Retrieve, endpoint, arguments, r, calls)
    {
      r, calls := CallMethodWithoutBody(Operation.Retrieve, endpoint, arguments);
    }

    method Update(endpoint: string, arguments: RequestArguments? := null, data: PhpValue := Null)
      returns (r: CallResult, calls: seq<Call>)
      ensures WithBodyBehaviour(Operation.Update, endpoint, arguments, data, r, calls)
    {
      r, calls := CallMethodWithBody(Operation.Update, endpoint, arguments, data);
    }

    method Delete(endpoint: string, arguments: RequestArguments? := null)
      returns (r: CallResult, calls: seq<Call>)
      ensures WithoutBodyBehaviour(Operation.Delete, endpoint, arguments, r, calls)
    {
      r, calls := CallMethodWithoutBody(Operation.Delete, endpoint, arguments);
    }

    method CallMethodWithoutBody(op: Operation, endpoint: string, arguments: RequestArguments?)
      returns (r: CallResult, calls: seq<Call>)
      ensures WithoutBodyBehaviour(op, endpoint, arguments, r, calls)
    {
      if circuitBreaker.None? {
        var response := transport.exchange(op, endpoint, arguments, None);
        calls := [TransportCall(op, endpoint, arguments, None)];
        match response {
          case Responded(raw) =>
            var u := Unserialize(raw);
            calls := calls + u.calls;
            r := if u.outcome.Serialized? then Returned(u.outcome.value) else Threw(Propagated(Serialization));
          case Failed(fault) => r := Threw(Propagated(Network(fault)));
          case Errored => r := Threw(Propagated(PhpError));
        }
        return;
      }

      var cbKey := CircuitBreakerServiceName(endpoint);
      calls := [IsAvailable(cbKey)];
      if circuitBreaker.value.isAvailable(cbKey) {
        var response := transport.exchange(op, endpoint, arguments, None);
        calls := calls + [TransportCall(op, endpoint, arguments, None)];
        match response {
          case Responded(raw) =>
            var u := Unserialize(raw);
            calls := calls + u.calls;
            if u.outcome.Serialized? {
              calls := calls + [ReportSuccess(cbKey)];
              r := Returned(u.outcome.value);
            } else {
              r := BadResponse(endpoint);
            }
          case Failed(fault) =>
            if fault == TransportUnavailable {
              calls := calls + [ReportFailure(cbKey)];
              r := Unreachable(endpoint);
            } else {
              r := Refused(endpoint, fault);
            }
          case Errored => r := Threw(Propagated(PhpError));
        }
      } else {
        r := BreakerOpen;
      }
    }

    method CallMethodWithBody(op: Operation, endpoint: string, arguments: RequestArguments?, data: PhpValue)
      returns (r: CallResult, calls: seq<Call>)
      ensures WithBodyBehaviour(op, endpoint, arguments, data, r, calls)
    {
      if circuitBreaker.None? {
        var s := Serialize(data);
        calls := s.calls;
        if s.outcome.SerializationFault? {
          return Threw(Propagated(Serialization)), calls;
        }
        var body := Some(s.outcome.value);
        var response := transport.exchange(Operation.Update, endpoint, arguments, body);
        calls := calls + [TransportCall(Operation.Update, endpoint, arguments, body)];
        match response {
          case Responded(raw) =>
            var u := Unserialize(raw);
            calls := calls + u.calls;
            r := if u.outcome.Serialized? then Returned(u.outcome.value) else Threw(Propagated(Serialization));
          case Failed(fault) => r := Threw(Propagated(Network(fault)));
          case Errored => r := Threw(Propagated(PhpError));
        }
        return;
      }

      var cbKey := CircuitBreakerServiceName(endpoint);
      calls := [IsAvailable(cbKey)];
      if circuitBreaker.value.isAvailable(cbKey) {
        // the outgoing data is serialized inside the try block, before the transport call
        var s := Serialize(data);
        calls := calls + s.calls;
        if s.outcome.SerializationFault? {
          return BadResponse(endpoint), calls;
        }
        var body := Some(s.outcome.value);
        var response := transport.exchange(op, endpoint, arguments, body);
        calls := calls + [TransportCall(op, endpoint, arguments, body)];
        match response {
          case Responded(raw) =>
            var u := Unserialize(raw);
            calls := calls + u.calls;
            if u.outcome.Serialized? {
              calls := calls + [ReportSuccess(cbKey)];
              r := Returned(u.outcome.value);
            } else {
              r := BadResponse(endpoint);
            }
          case Failed(fault) =>
            if fault == TransportUnavailable {
              calls := calls + [ReportFailure(cbKey)];
              r := Unreachable(endpoint);
            } else {
              r := Refused(endpoint, fault);
            }
          case Errored => r := Threw(Propagated(PhpError));
        }
      } else {
        r := BreakerOpen;
      }
    }
  }

  /** The breaker tracks every endpoint of a transport under a key of its own. */
  lemma BreakerKeysSeparateEndpoints(st: ServiceTransport, e1: string, e2: string)
    ensures st.CircuitBreakerServiceName(e1) == st.CircuitBreakerServiceName(e2) <==> e1 == e2
  {
    var n := |st.transport.baseUrl|;
    if st.CircuitBreakerServiceName(e1) == st.CircuitBreakerServiceName(e2) {
      assert e1 == st.CircuitBreakerServiceName(e1)[n..] == st.CircuitBreakerServiceName(e2)[n..] == e2;
    }
  }

  /** The serializer calls of one (un)serialize step are not breaker calls. */
  lemma CodedCallsAreNotBreakerCalls(c: Coded, before: seq<Call>)
    requires NoBreakerCalls(before)
    requires c.calls == [] || (|c.calls| == 1 && !c.calls[0].IsBreakerCall())
    ensures NoBreakerCalls(before + c.calls)
  {
  }

  /** Without a breaker, the path after the transport call adds no breaker call. */
  lemma UntranslatedAddsNoBreakerCall(st: ServiceTransport, sent: TransportOutcome, before: seq<Call>,
                                      r: CallResult, calls: seq<Call>)
    requires st.Untranslated(sent, before, r, calls)
    requires NoBreakerCalls(before)
    ensures NoBreakerCalls(calls)
  {
    if sent.Responded? {
      CodedCallsAreNotBreakerCalls(st.Unserialize(sent.raw), before);
    }
  }

  /**
   * After the transport call of a guarded call, the trace so far is kept as
   * a prefix and every breaker call added concerns the call's key.
   */
  lemma TranslatedKeepsPrefix(st: ServiceTransport, endpoint: string, sent: TransportOutcome,
                              before: seq<Call>, r: CallResult, calls: seq<Call>)
    requires st.Translated(endpoint, sent, before, r, calls)
    ensures |before| <= |calls| && calls[..|before|] == before
    ensures BreakerCallsAbout(before, st.CircuitBreakerServiceName(endpoint)) ==>
              BreakerCallsAbout(calls, st.CircuitBreakerServiceName(endpoint))
  {
    if sent.Responded? {
      assert calls[..|before|] == before;
    } else if sent == Failed(TransportUnavailable) {
      assert calls[..|before|] == before;
    }
  }

  /**
   * After the transport call of a guarded call, success is reported once
   * exactly when a value is returned, and is then the last call; failure is
   * reported once exactly when the transport was unavailable, which is
   * exactly when the caller gets the "unreachable" exception.
   */
  lemma TranslatedReports(st: ServiceTransport, endpoint: string, sent: TransportOutcome,
                          before: seq<Call>, r: CallResult, calls: seq<Call>)
    requires st.Translated(endpoint, sent, before, r, calls)
    requires ReportSuccess(st.CircuitBreakerServiceName(endpoint)) !in before
    requires ReportFailure(st.CircuitBreakerServiceName(endpoint)) !in before
    ensures CountOf(calls, ReportSuccess(st.CircuitBreakerServiceName(endpoint))) == (if r.Returned? then 1 else 0)
    ensures CountOf(calls, ReportFailure(st.CircuitBreakerServiceName(endpoint))) ==
              (if r == Unreachable(endpoint) then 1 else 0)
    ensures r.Returned? ==> calls[|calls| - 1] == ReportSuccess(st.CircuitBreakerServiceName(endpoint))
  {
    var key := st.CircuitBreakerServiceName(endpoint);
    var success, failure := ReportSuccess(key), ReportFailure(key);
    match sent {
      case Responded(raw) =>
        var u := st.Unserialize(raw);
        assert success !in before + u.calls && failure !in before + u.calls;
        CountOfAbsent(before + u.calls, success);
        CountOfAbsent(before + u.calls, failure);
        if u.outcome.Serialized? {
          CountOfAppend(before + u.calls, [success], success);
          CountOfAppend(before + u.calls, [success], failure);
        }
      case Failed(fault) =>
        CountOfAbsent(before, success);
        CountOfAbsent(before, failure);
        if fault == TransportUnavailable {
          CountOfAppend(before, [failure], success);
          CountOfAppend(before, [failure], failure);
        }
      case Errored =>
        CountOfAbsent(before, success);
        CountOfAbsent(before, failure);
    }
  }

  /**
   * The breaker protocol of retrieve and delete. Without a breaker none is
   * consulted. With one, the call first asks about baseUrl + endpoint and
   * every breaker call concerns that key.
   */
  lemma WithoutBodyBreakerKey(st: ServiceTransport, op: Operation, endpoint: string,
                              arguments: RequestArguments?, r: CallResult, calls: seq<Call>)
    requires st.WithoutBodyBehaviour(op, endpoint, arguments, r, calls)
    ensures st.circuitBreaker.None? ==> NoBreakerCalls(calls)
    ensures st.circuitBreaker.Some? ==>
              var key := st.transport.baseUrl + endpoint;
              |calls| > 0 && calls[0] == IsAvailable(key) && BreakerCallsAbout(calls, key)
  {
    var key := st.CircuitBreakerServiceName(endpoint);
    var contact := TransportCall(op, endpoint, arguments, None);
    var sent := st.transport.exchange(op, endpoint, arguments, None);
    if st.circuitBreaker.None? {
      assert st.Untranslated(sent, [contact], r, calls);
      UntranslatedAddsNoBreakerCall(st, sent, [contact], r, calls);
    } else if st.circuitBreaker.value.isAvailable(key) {
      var before := [IsAvailable(key), contact];
      assert st.Translated(endpoint, sent, before, r, calls);
      TranslatedKeepsPrefix(st, endpoint, sent, before, r, calls);
      assert calls[0] == calls[..|before|][0];
    }
  }

  /**
   * Reports made by retrieve and delete: success once, as the last call,
   * exactly when a value is returned under a breaker; failure once exactly
   * when the caller gets the "unreachable" ServiceUnavailableException.
   */
  lemma WithoutBodyBreakerReports(st: ServiceTransport, op: Operation, endpoint: string,
                                  arguments: RequestArguments?, r: CallResult, calls: seq<Call>)
    requires st.WithoutBodyBehaviour(op, endpoint, arguments, r, calls)
    ensures CountOf(calls, ReportSuccess(st.transport.baseUrl + endpoint)) ==
              (if st.circuitBreaker.Some? && r.Returned? then 1 else 0)
    ensures CountOf(calls, ReportFailure(st.transport.baseUrl + endpoint)) ==
              (if st.circuitBreaker.Some? && r == Unreachable(endpoint) then 1 else 0)
    ensures st.circuitBreaker.Some? && r.Returned? ==> calls[|calls| - 1] == ReportSuccess(st.transport.baseUrl + endpoint)
  {
    var key := st.CircuitBreakerServiceName(endpoint);
    if st.circuitBreaker.None? {
      WithoutBodyBreakerKey(st, op, endpoint, arguments, r, calls);
      CountOfNoBreakerCalls(calls, ReportSuccess(key));
      CountOfNoBreakerCalls(calls, ReportFailure(key));
    } else if st.circuitBreaker.value.isAvailable(key) {
      var contact := TransportCall(op, endpoint, arguments, None);
      var sent := st.transport.exchange(op, endpoint, arguments, None);
      assert st.Translated(endpoint, sent, [IsAvailable(key), contact], r, calls);
      TranslatedReports(st, endpoint, sent, [IsAvailable(key), contact], r, calls);
    } else {
      assert calls == [IsAvailable(key)] && r == BreakerOpen;
      CountOfAbsent(calls, ReportSuccess(key));
      CountOfAbsent(calls, ReportFailure(key));
    }
  }

  /**
   * What create and update do around the transport call. Without a breaker
   * every transport call is an update and no breaker is consulted; an
   * outgoing serialization failure stops the call before the transport.
   * With a breaker, the call first asks about baseUrl + endpoint and every
   * breaker call concerns that key.
   */
  lemma WithBodyBreakerKey(st: ServiceTransport, op: Operation, endpoint: string,
                           arguments: RequestArguments?, data: PhpValue, r: CallResult, calls: seq<Call>)
    requires st.WithBodyBehaviour(op, endpoint, arguments, data, r, calls)
    ensures st.circuitBreaker.None? ==> NoBreakerCalls(calls)
    ensures st.circuitBreaker.None? ==> forall c <- calls :: c.TransportCall? ==> c.op == Operation.Update
    ensures st.Serialize(data).outcome.SerializationFault? ==> forall c <- calls :: !c.TransportCall?
    ensures st.circuitBreaker.Some? ==>
              var key := st.transport.baseUrl + endpoint;
              |calls| > 0 && calls[0] == IsAvailable(key) && BreakerCallsAbout(calls, key)
  {
    var key := st.CircuitBreakerServiceName(endpoint);
    var s := st.Serialize(data);
    if s.outcome.Serialized? {
      var body := Some(s.outcome.value);
      if st.circuitBreaker.None? {
        var sent := st.transport.exchange(Operation.Update, endpoint, arguments, body);
        var before := s.calls + [TransportCall(Operation.Update, endpoint, arguments, body)];
        assert st.Untranslated(sent, before, r, calls);
        UntranslatedAddsNoBreakerCall(st, sent, before, r, calls);
      } else if st.circuitBreaker.value.isAvailable(key) {
        var sent := st.transport.exchange(op, endpoint, arguments, body);
        var before := [IsAvailable(key)] + s.calls + [TransportCall(op, endpoint, arguments, body)];
        assert st.Translated(endpoint, sent, before, r, calls);
        TranslatedKeepsPrefix(st, endpoint, sent, before, r, calls);
        assert calls[0] == calls[..|before|][0];
      }
    }
  }

  /** Reports made by create and update, as for retrieve and delete. */
  lemma WithBodyBreakerReports(st: ServiceTransport, op: Operation, endpoint: string,
                               arguments: RequestArguments?, data: PhpValue, r: CallResult, calls: seq<Call>)
    requires st.WithBodyBehaviour(op, endpoint, arguments, data, r, calls)
    ensures CountOf(calls, ReportSuccess(st.transport.baseUrl + endpoint)) ==
              (if st.circuitBreaker.Some? && r.Returned? then 1 else 0)
    ensures CountOf(calls, ReportFailure(st.transport.baseUrl + endpoint)) ==
              (if st.circuitBreaker.Some? && r == Unreachable(endpoint) then 1 else 0)
    ensures st.circuitBreaker.Some? && r.Returned? ==> calls[|calls| - 1] == ReportSuccess(st.transport.baseUrl + endpoint)
  {
    var key := st.CircuitBreakerServiceName(endpoint);
    var s := st.Serialize(data);
    if st.circuitBreaker.None? {
      WithBodyBreakerKey(st, op, endpoint, arguments, data, r, calls);
      CountOfNoBreakerCalls(calls, ReportSuccess(key));
      CountOfNoBreakerCalls(calls, ReportFailure(key));
    } else if !st.circuitBreaker.value.isAvailable(key) {
      assert calls == [IsAvailable(key)] && r == BreakerOpen;
      CountOfAbsent(calls, ReportSuccess(key));
      CountOfAbsent(calls, ReportFailure(key));
    } else if s.outcome.SerializationFault? {
      assert calls == [IsAvailable(key)] + s.calls && r == BadResponse(endpoint);
      CountOfAbsent(calls, ReportSuccess(key));
      CountOfAbsent(calls, ReportFailure(key));
    } else {
      var body := Some(s.outcome.value);
      var before := [IsAvailable(key)] + s.calls + [TransportCall(op, endpoint, arguments, body)];
      var sent := st.transport.exchange(op, endpoint, arguments, body);
      assert st.Translated(endpoint, sent, before, r, calls);
      TranslatedReports(st, endpoint, sent, before, r, calls);
    }
  }

  /** The behaviour of one public operation: with or without a body. */
  ghost predicate Behaviour(st: ServiceTransport, withBody: bool, op: Operation, endpoint: string,
                            arguments: RequestArguments?, data: PhpValue, r: CallResult, calls: seq<Call>)
    reads st
  {
    if withBody then st.WithBodyBehaviour(op, endpoint, arguments, data, r, calls)
    else st.WithoutBodyBehaviour(op, endpoint, arguments, r, calls)
  }

  /**
   * An open breaker short-cuts every operation: the caller gets a
   * ServiceUnavailableException without cause, and neither the transport,
   * nor the serializer, nor any report is called.
   */
  lemma OpenBreakerCallsNothingElse(st: ServiceTransport, withBody: bool, op: Operation, endpoint: string,
                                    arguments: RequestArguments?, data: PhpValue, r: CallResult, calls: seq<Call>)
    requires Behaviour(st, withBody, op, endpoint, arguments, data, r, calls)
    requires st.circuitBreaker.Some? && !st.circuitBreaker.value.isAvailable(st.transport.baseUrl + endpoint)
    ensures r == Threw(ServiceException(ServiceUnavailable, "", 0, None))
    ensures calls == [IsAvailable(st.transport.baseUrl + endpoint)]
  {
  }

  /**
   * Faults are translated exactly under a breaker: with one, every exception
   * the caller sees is a service exception, except a PHP Error, which no
   * catch block handles; without one, no service exception is ever made.
   */
  lemma FaultTranslationNeedsBreaker(st: ServiceTransport, withBody: bool, op: Operation, endpoint: string,
                                     arguments: RequestArguments?, data: PhpValue, r: CallResult, calls: seq<Call>)
    requires Behaviour(st, withBody, op, endpoint, arguments, data, r, calls)
    ensures st.circuitBreaker.Some? && r.Threw? ==> r.thrown.ServiceException? || r.thrown == Propagated(PhpError)
    ensures r.Threw? && r.thrown.ServiceException? ==> st.circuitBreaker.Some?
  {
  }
}
