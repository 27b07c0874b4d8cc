/**
 * The three pluggable collaborators of the service transport, seen only
 * through what they answer, and the trace of the calls made to them.
 */
module Collaborators {
  import opened Wrappers
  import opened Php
  import opened Arguments

  /** The four CRUD operations a call is made for. */
  datatype Operation = Create | Retrieve | Update | Delete

  /** The three network exceptions a transport raises. */
  datatype NetworkFault = NotFound | Forbidden | TransportUnavailable

  /**
   * What one transport operation does: return a raw response, raise one of
   * the network exceptions, or fail with a PHP Error that is not an
   * exception at all (what `throw null` produces).
   */
  datatype TransportOutcome = Responded(raw: PhpValue) | Failed(fault: NetworkFault) | Errored

  /** What one serializer call does: return a value or raise a SerializationException. */
  datatype SerializerOutcome = Serialized(value: PhpValue) | SerializationFault

  /**
   * The network transport: its base URL and the answer it gives to an
   * operation on an endpoint with arguments and, for a call that sends one,
   * a body.
   */
  datatype NetworkTransport = NetworkTransport(
    baseUrl: string,
    exchange: (Operation, string, RequestArguments?, Option<PhpValue>) -> TransportOutcome)

  /** The circuit breaker's availability answer per service key. */
  datatype CircuitBreaker = CircuitBreaker(isAvailable: string -> bool)

  /** The serializer's answers in both directions. */
  datatype Serializer = Serializer(
    serialize: PhpValue -> SerializerOutcome,
    unserialize: PhpValue -> SerializerOutcome)

  /** One call made to a collaborator, in the order made. */
  datatype Call =
    | IsAvailable(key: string)
    | ReportSuccess(key: string)
    | ReportFailure(key: string)
    | TransportCall(op: Operation, endpoint: string, arguments: RequestArguments?, body: Option<PhpValue>)
    | SerializeCall(data: PhpValue)
    | UnserializeCall(raw: PhpValue)
  {
    predicate IsBreakerCall() {
      IsAvailable? || ReportSuccess? || ReportFailure?
    }
  }

  /** No call of the trace goes to the circuit breaker. */
  ghost predicate NoBreakerCalls(calls: seq<Call>) {
    forall c <- calls :: !c.IsBreakerCall()
  }

  /** Every breaker call of the trace is about the given key. */
  ghost predicate BreakerCallsAbout(calls: seq<Call>, key: string) {
    forall c <- calls :: c.IsBreakerCall() ==> c.key == key
  }

  /** How many times the call c occurs in the trace. */
  function CountOf(calls: seq<Call>, c: Call): nat {
    if |calls| == 0 then 0
    else (if calls[0] == c then 1 else 0) + CountOf(calls[1..], c)
  }

  lemma {:induction false} CountOfAppend(a: seq<Call>, b: seq<Call>, c: Call)
    ensures CountOf(a + b, c) == CountOf(a, c) + CountOf(b, c)
    decreases |a|
  {
    if |a| == 0 {
      assert a + b == b;
    } else {
      assert (a + b)[1..] == a[1..] + b;
      CountOfAppend(a[1..], b, c);
    }
  }

  /** A call that does not occur in the trace is counted zero times. */
  lemma {:induction false} CountOfAbsent(calls: seq<Call>, c: Call)
    requires c !in calls
    ensures CountOf(calls, c) == 0
    decreases |calls|
  {
    if |calls| > 0 {
      assert forall x <- calls[1..] :: x in calls;
      CountOfAbsent(calls[1..], c);
    }
  }

  /** A trace without breaker calls holds no breaker report. */
  lemma CountOfNoBreakerCalls(calls: seq<Call>, c: Call)
    requires NoBreakerCalls(calls) && c.IsBreakerCall()
    ensures CountOf(calls, c) == 0
  {
    CountOfAbsent(calls, c);
  }
}
