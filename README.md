# service-transport, modelled in Dafny

service-transport is a PHP client-side layer for calling remote REST
services. A `ServiceTransport` offers create, retrieve, update and delete
on an endpoint. Each call:

- optionally passes through a circuit breaker, keyed by the transport's
  base URL followed by the endpoint;
- goes through a network transport;
- optionally (un)serializes the payload;
- with a breaker configured, translates every lower-level fault except a PHP
  Error into one of three service exceptions: ServiceUnavailable,
  ServiceLogic or UnexpectedResponse; without one, faults propagate as they
  are.

Query arguments travel as a `RequestArguments` list. It is a fixed-size
array of `RequestArgument` name/value records, built slot by slot or from a
PHP array, and flattened into a name => value map. The HTTP transport
(`GuzzleHttpTransport`) turns each operation into one HTTP request:

- a fixed method;
- the arguments as the query;
- the message as the body, for create and update;
- an optional tracing header copied from the incoming request.

It records that request as the last request before sending it, and maps
the HTTP client's transfer errors to the transport's network exceptions.

The model has seven modules:

- `Wrappers` (`wrappers.dfy`): Option, Result and Outcome.
- `Php` (`php.dfy`): the PHP values the layer passes around, and PHP's
  loose `== null`.
- `Argument` (`request_argument.dfy`): the `RequestArgument` class, a
  mutable record.
- `Arguments` (`request_arguments.dfy`): the `RequestArguments` class over
  a fixed array. It holds `offsetSet`, `fromArray` and `toArray`, proved
  against the specification functions `FromArraySpec` and `Flatten`.
- `Collaborators` (`collaborators.dfy`): the circuit breaker, the network
  transport and the serializer. Each is an abstract answer function. A call
  trace records every call made to them.
- `Orchestrator` (`service_transport.dfy`): the `ServiceTransport` class.
  Every operation returns its result together with the trace of its calls.
  Its contract is a behaviour predicate, and lemmas derive the breaker
  protocol from that predicate.
- `HttpTransport` (`guzzle_http_transport.dfy`): the `GuzzleHttpTransport`
  class. The HTTP client's `send` is a function field, the server variables
  (`$_SERVER`) are a parameter, and `lastRequest` is a field.

## Model

| member | source | states |
|---|---|---|
| Argument.RequestArgument.constructor | src/Digitick/Bridge/ServiceTransport/Request/RequestArgument.php:17-21 | the getters return exactly the name and value given |
| Argument.RequestArgument.GetName | src/Digitick/Bridge/ServiceTransport/Request/RequestArgument.php:26-29 | reads the name field; what it returns is fixed by the constructor and setter contracts |
| Argument.RequestArgument.GetValue | src/Digitick/Bridge/ServiceTransport/Request/RequestArgument.php:44-47 | reads the value field; what it returns is fixed by the constructor and setter contracts |
| Argument.RequestArgument.SetName | src/Digitick/Bridge/ServiceTransport/Request/RequestArgument.php:35-39 | the name becomes the given one, the value is unchanged, and the same object is returned |
| Argument.RequestArgument.SetValue | src/Digitick/Bridge/ServiceTransport/Request/RequestArgument.php:53-57 | the value becomes the given one, the name is unchanged, and the same object is returned |
| Argument.RenameAndRevalue | src/Digitick/Bridge/ServiceTransport/Request/RequestArgument.php:35-57 | chaining setName and then setValue on the returned object updates both fields of the one original object |
| Arguments.RequestArguments.constructor | src/Digitick/Bridge/ServiceTransport/Request/RequestArguments.php:36 | a new list of the requested size with every slot empty |
| Arguments.RequestArguments.Count | src/Digitick/Bridge/ServiceTransport/Request/RequestArguments.php:5 | the fixed size of the list (inherited `count()`); after fromArray it equals the number of input entries (`FromArray`'s contract) |
| Arguments.RequestArguments.OffsetSet | src/Digitick/Bridge/ServiceTransport/Request/RequestArguments.php:10-16 | a value that is not a RequestArgument raises InvalidArgumentException; an index outside the list raises the fixed array's RuntimeException; in both cases nothing is stored; it succeeds exactly otherwise, and then only that slot changes |
| Arguments.MaxKey | src/Digitick/Bridge/ServiceTransport/Request/RequestArguments.php:30 | the result is one of the keys and no key exceeds it |
| Arguments.MinKey | src/Digitick/Bridge/ServiceTransport/Request/RequestArguments.php:29-34 | the result is one of the keys and no key is below it (the bound the corrected guard adds) |
| Arguments.KeepIndexesExactlyWhenKeysFit | src/Digitick/Bridge/ServiceTransport/Request/RequestArguments.php:29-34 | the corrected guard keeps the original keys if and only if this is requested and every key is a slot index in [0, count) |
| Arguments.FillFails | src/Digitick/Bridge/ServiceTransport/Request/RequestArguments.php:39-42 | when every position is a slot, the filling loop fails exactly when a later value is not a RequestArgument, and then with InvalidArgumentException |
| Arguments.FillStores | src/Digitick/Bridge/ServiceTransport/Request/RequestArguments.php:38-48 | when all values are arguments and the positions are distinct slots, each argument lands at its position and every slot no later entry targets keeps its content |
| Arguments.FromArrayEmpty | src/Digitick/Bridge/ServiceTransport/Request/RequestArguments.php:25-27 | fromArray of an empty array builds an empty list |
| Arguments.FromArrayOutcome | src/Digitick/Bridge/ServiceTransport/Request/RequestArguments.php:21-52 | (corrected guard) fromArray raises InvalidArgumentException if and only if some value is not a RequestArgument; otherwise the list has one slot per input entry |
| Arguments.FromArrayKeepsKeys | src/Digitick/Bridge/ServiceTransport/Request/RequestArguments.php:29-47 | (corrected guard, whose keeping implies the guard as written keeps too) when the keys are kept, every argument is stored at its own key |
| Arguments.FromArrayReindexes | src/Digitick/Bridge/ServiceTransport/Request/RequestArguments.php:38-48 | (corrected guard) when the keys are not kept, the arguments are stored at 0, 1, 2, … in iteration order (keys 1..3 become 0..2) |
| Arguments.KeepIndexesAsWritten | src/Digitick/Bridge/ServiceTransport/Request/RequestArguments.php:29-34 | the guard as written keeps the keys if and only if they are asked for and every key is below the count; nothing bounds them from below |
| Arguments.FromArrayAsWrittenSpec | src/Digitick/Bridge/ServiceTransport/Request/RequestArguments.php:21-52 | fromArray as written; it equals the corrected `FromArraySpec` whenever the input is empty, the as-written guard does not keep the keys, or no key is negative, so every corrected-guard lemma holds of the source on those inputs |
| Arguments.FromArrayAsWrittenRaisesOnNegativeKey | src/Digitick/Bridge/ServiceTransport/Request/RequestArguments.php:29-47 | as written, for arguments only: keys asked for, all below the count, one negative, gives the fixed array's RuntimeException |
| Arguments.FillOutOfRange | src/Digitick/Bridge/ServiceTransport/Request/RequestArguments.php:43-47 | when all remaining values are arguments, the loop raises the fixed array's RuntimeException as soon as one of their positions is not a slot |
| Arguments.NegativeKeyPassesAsWrittenGuard | src/Digitick/Bridge/ServiceTransport/Request/RequestArguments.php:29-47 | with keys -1 and 0, the guard as written keeps the keys and the store at -1 fails; the corrected guard re-indexes to [a, b] |
| Arguments.RequestArguments.FromArray | src/Digitick/Bridge/ServiceTransport/Request/RequestArguments.php:21-52 | the loop fills a fresh list through offsetSet; its success, its error and the final slots are exactly those of `FromArraySpec` (the corrected guard), and the list's count is the number of input entries |
| Arguments.FlattenFailsOnEmptySlot | src/Digitick/Bridge/ServiceTransport/Request/RequestArguments.php:57-66 | flattening fails (getName() on null) exactly when some slot is empty |
| Arguments.FlattenKeys | src/Digitick/Bridge/ServiceTransport/Request/RequestArguments.php:57-66 | the keys of the flattened map are exactly the names of the arguments |
| Arguments.FlattenLastWins | src/Digitick/Bridge/ServiceTransport/Request/RequestArguments.php:57-66 | each name maps to the value of the last argument carrying it, so a later duplicate overwrites an earlier one |
| Arguments.FlattenDistinctNames | src/Digitick/Bridge/ServiceTransport/Request/RequestArguments.php:57-66 | three arguments with distinct names flatten to the map holding each name with its own value |
| Arguments.RequestArguments.ToArray | src/Digitick/Bridge/ServiceTransport/Request/RequestArguments.php:57-66 | the loop's result is `Flatten` of the slots, for which the three lemmas above hold |
| Orchestrator.ServiceTransport.constructor | src/Digitick/Bridge/ServiceTransport/ServiceTransport.php:40-45 | the transport is stored; the breaker and serializer are stored and are absent by default |
| Orchestrator.ServiceTransport.CircuitBreakerServiceName | src/Digitick/Bridge/ServiceTransport/ServiceTransport.php:157-159 | the breaker key begins with the transport's base URL and is exactly as long as base URL and endpoint together |
| Orchestrator.BreakerKeysSeparateEndpoints | src/Digitick/Bridge/ServiceTransport/ServiceTransport.php:157-159 | two endpoints of one transport share a breaker key if and only if they are the same endpoint |
| Orchestrator.ServiceTransport.Serialize | src/Digitick/Bridge/ServiceTransport/ServiceTransport.php:161-169 | data loosely equal to null becomes null without a serializer call; with no serializer the data passes unchanged; the serializer is called (once, on the data) if and only if one exists and the data is not loosely null |
| Orchestrator.ServiceTransport.Unserialize | src/Digitick/Bridge/ServiceTransport/ServiceTransport.php:171-176 | identity without a serializer; otherwise exactly one unserialize call on the raw value, whose answer is the outcome (no null shortcut) |
| Orchestrator.ServiceTransport.Create | src/Digitick/Bridge/ServiceTransport/ServiceTransport.php:50-53 | create behaves as the with-body call for Create |
| Orchestrator.ServiceTransport.Retrieve | src/Digitick/Bridge/ServiceTransport/ServiceTransport.php:58-61 | retrieve behaves as the without-body call for Retrieve |
| Orchestrator.ServiceTransport.Update | src/Digitick/Bridge/ServiceTransport/ServiceTransport.php:66-69 | update behaves as the with-body call for Update |
| Orchestrator.ServiceTransport.Delete | src/Digitick/Bridge/ServiceTransport/ServiceTransport.php:74-77 | delete behaves as the without-body call for Delete and returns the unserialized response |
| Orchestrator.ServiceTransport.CallMethodWithoutBody | src/Digitick/Bridge/ServiceTransport/ServiceTransport.php:79-110 | result and call trace for each case. No breaker: the transport op, then unserialize, with faults left untranslated. Breaker open (unavailable): ServiceUnavailable with no cause, after only the availability check. Breaker available: the fault translation and reports of `Translated` |
| Orchestrator.ServiceTransport.CallMethodWithBody | src/Digitick/Bridge/ServiceTransport/ServiceTransport.php:112-155 | as above, with serialize before the transport call. With no breaker the transport's update is called, whatever the operation. With a breaker, an outgoing serialization failure becomes UnexpectedResponse before any transport call |
| Orchestrator.UntranslatedAddsNoBreakerCall | src/Digitick/Bridge/ServiceTransport/ServiceTransport.php:82-85 | the unguarded path after the transport call makes no breaker call |
| Orchestrator.TranslatedKeepsPrefix | src/Digitick/Bridge/ServiceTransport/ServiceTransport.php:89-104 | the guarded path after the transport call only appends to the trace, and every breaker call it adds concerns the call's key |
| Orchestrator.TranslatedReports | src/Digitick/Bridge/ServiceTransport/ServiceTransport.php:89-104 | reportSuccess happens once, as the last call, exactly when a value is returned; reportFailure happens once exactly when the result is the "Unreacheable service" ServiceUnavailableException; otherwise neither happens |
| Orchestrator.WithoutBodyBreakerKey | src/Digitick/Bridge/ServiceTransport/ServiceTransport.php:79-110 | without a breaker, retrieve and delete make no breaker call; with one, the first call asks about base URL + endpoint, and every breaker call concerns that key |
| Orchestrator.WithoutBodyBreakerReports | src/Digitick/Bridge/ServiceTransport/ServiceTransport.php:79-110 | retrieve and delete report success once, last, exactly when a breaker exists and a value is returned; they report failure once exactly when a breaker exists and the caller gets the unreachable exception; there are no other reports |
| Orchestrator.WithBodyBreakerKey | src/Digitick/Bridge/ServiceTransport/ServiceTransport.php:112-155 | without a breaker, create and update make no breaker call and every transport call is update; an outgoing serialization failure means no transport call; with a breaker, the first call asks about base URL + endpoint and every breaker call concerns that key |
| Orchestrator.WithBodyBreakerReports | src/Digitick/Bridge/ServiceTransport/ServiceTransport.php:112-155 | the same report counts and order as for retrieve and delete, outgoing serialization failures included |
| Orchestrator.OpenBreakerCallsNothingElse | src/Digitick/Bridge/ServiceTransport/ServiceTransport.php:87-107 | when the breaker says unavailable (lines 124-152 for create and update): the result is a ServiceUnavailableException with empty message, code 0 and no cause, and the only call made is the availability check |
| Orchestrator.FaultTranslationNeedsBreaker | src/Digitick/Bridge/ServiceTransport/ServiceTransport.php:79-155 | with a breaker, every exception the caller sees is a service exception, except a PHP Error; a service exception is thrown only when a breaker exists |
| HttpTransport.ExceptionFactory | src/Digitick/Bridge/ServiceTransport/HttpTransport/GuzzleHttpTransport.php:226-236 | a client error maps to NotFound exactly for 404 and to Forbidden exactly for 403; every other transfer error maps to TransportUnavailable; a client error with any other code maps to nothing; message, code and cause are carried over |
| HttpTransport.Answer | src/Digitick/Bridge/ServiceTransport/HttpTransport/GuzzleHttpTransport.php:58-64 | the response body is returned unchanged (the empty body included); a transfer error is thrown as exactly the exception `ExceptionFactory` makes of it (kind, message, code, and the transfer error as cause); `throw null` (a PHP Error) happens exactly when the factory gives nothing |
| HttpTransport.ToUpper | src/Digitick/Bridge/ServiceTransport/HttpTransport/GuzzleHttpTransport.php:219 | same length, each ASCII lower-case letter raised and every other character kept; no lower-case letter remains |
| HttpTransport.ServerKeyIgnoresCase | src/Digitick/Bridge/ServiceTransport/HttpTransport/GuzzleHttpTransport.php:219 | two header names read the same server variable (`HTTP_` + upper-cased name) if and only if they differ only in the case of ASCII letters |
| HttpTransport.TracingHeaders | src/Digitick/Bridge/ServiceTransport/HttpTransport/GuzzleHttpTransport.php:216-224 | at most the configured header is sent; it is present if and only if its server variable is set, and it then carries that variable's value |
| HttpTransport.AsTransportOutcome | src/Digitick/Bridge/ServiceTransport/HttpTransport/GuzzleHttpTransport.php:58-64 | how the service transport sees an operation's outcome: a body as a response carrying that body, a network exception as that kind of fault, a PHP Error as an error |
| HttpTransport.GuzzleHttpTransport.constructor | src/Digitick/Bridge/ServiceTransport/HttpTransport/GuzzleHttpTransport.php:37-41 | the client and header name are stored (`X-DGT-TRACE` by default), and there is no last request yet |
| HttpTransport.GuzzleHttpTransport.Create | src/Digitick/Bridge/ServiceTransport/HttpTransport/GuzzleHttpTransport.php:46-65 | a POST whose body is the message ('' by default); see `Exchanged` |
| HttpTransport.GuzzleHttpTransport.Retrieve | src/Digitick/Bridge/ServiceTransport/HttpTransport/GuzzleHttpTransport.php:70-87 | a GET without body; see `Exchanged` |
| HttpTransport.GuzzleHttpTransport.Update | src/Digitick/Bridge/ServiceTransport/HttpTransport/GuzzleHttpTransport.php:92-111 | a PUT whose body is the message ('' by default); see `Exchanged` |
| HttpTransport.GuzzleHttpTransport.Delete | src/Digitick/Bridge/ServiceTransport/HttpTransport/GuzzleHttpTransport.php:116-134 | a DELETE without body; see `Exchanged` |
| HttpTransport.GuzzleHttpTransport.SendRequest | src/Digitick/Bridge/ServiceTransport/HttpTransport/GuzzleHttpTransport.php:48-63 | (`Exchanged`) the query is the flattened arguments, or empty with no arguments; the built request is recorded as the last request before it is sent, so it stays recorded when sending fails; the outcome is `Answer` of what sending gave; if the query cannot be built, a PHP Error escapes and the last request is unchanged |
| HttpTransport.UnmappedClientErrorIsNotReported | src/Digitick/Bridge/ServiceTransport/HttpTransport/GuzzleHttpTransport.php:226-236 | a client error other than 404/403, seen by a guarded retrieve or delete, escapes as a PHP Error; it is reported to the breaker neither as a success nor as a failure |
| HttpTransport.TransferFailureIsReported | src/Digitick/Bridge/ServiceTransport/HttpTransport/GuzzleHttpTransport.php:233-234 | a non-client transfer error, seen by a guarded retrieve or delete, is reported once as a failure and becomes the unreachable ServiceUnavailableException |

## Left out

- The circuit breaker's algorithm (ApcCircuitBreaker over the external APC breaker): its thresholds, timeouts and shared-memory state are not in the repository. `isAvailable` is an oracle, and the reports are trace events.
- The JSON serializer and its exception: these are `json_encode`/`json_decode` calls. A serializer is an abstract answer function that either gives a value or raises a SerializationException.
- The HTTP client itself is left out: `createRequest`, `send`, URL resolution against the base URL, and the stream handling of `getLastRequestBody`. A request records the endpoint as given, and `send` is a function field.
- The getters of the HTTP transport are left out: base URL, header trace name, and the last request's URL, query string, headers, host, port, method and body. They only read the client's request object. The service transport's `getBaseUrl()` is the `baseUrl` field of the abstract transport.
- The default connection and read timeouts (constants that the code shown never uses) are left out.
- Other exception types that the HTTP client's `send` may raise, beyond transfer errors, are not modelled.
- Argument names are strings. In PHP a name may be any value, and `$arr[$item->getName()]` coerces null, bool and integer names to array keys (null to "", true to 1); the flattened map, keyed by strings, does not model that coercion.
- Arguments.FromArrayOutcome, Arguments.FromArrayReindexes, Arguments.FromArrayKeepsKeys: these are proved for the corrected guard. They hold of fromArray as written on every input where the as-written guard keeps no negative key (`FromArrayAsWrittenSpec`'s contract). When it does keep a negative key and every value is an argument, the code as written raises RuntimeException instead (`FromArrayAsWrittenRaisesOnNegativeKey`); a value that is not an argument, met in the loop before the item whose key is negative, raises InvalidArgumentException first.
- PHP arrays handed to `fromArray` have integer keys only. String keys and PHP's normalisation of numeric-string keys are not modelled.
- `toArray`'s map is compared as a map. PHP arrays keep insertion order, but the order of the flattened map is not modelled.
- PHP values: floats, resources and keyed (associative) arrays are not modelled. Arrays are element sequences, and objects are identities.
- `strtoupper` is modelled on ASCII letters only. Locale-dependent upper-casing is not modelled.
- `isset` on a server variable holding null is not modelled, since server variables are strings.
- Concurrency, I/O and the process-wide `$_SERVER` superglobal are not modelled. The latter is a parameter of each HTTP operation.
- Arguments.RequestArguments.FromArray: it follows the corrected guard (see Findings), not the guard as written. The as-written behaviour is `FromArrayAsWrittenSpec`, and `NegativeKeyPassesAsWrittenGuard` shows where the two differ.

## Findings

| source | as written | input that shows it | evidently intended | confidence | as-written member | corrected member |
|---|---|---|---|---|---|---|
| src/Digitick/Bridge/ServiceTransport/Request/RequestArguments.php:29-34 | the original keys are kept when `max(keys) < count`; the smallest key is never checked | `fromArray([-1 => $a, 0 => $b])`: the largest key 0 is below the count 2, so `$a` is stored at slot -1 and the fixed array raises a RuntimeException | keep the keys only when every key is a slot (`0 <= key < count`); otherwise re-index to 0, 1, … | not executed | Arguments.KeepIndexesAsWritten, Arguments.FromArrayAsWrittenSpec, Arguments.NegativeKeyPassesAsWrittenGuard | Arguments.KeepIndexes, Arguments.FromArraySpec, Arguments.KeepIndexesExactlyWhenKeysFit |
