# sirelas JSON-RPC core, modelled in Dafny

This project models the message layer of the sirelas LSP client: the JSON-RPC 2.0 message
shapes, the engine that correlates requests with responses and dispatches inbound messages
(`JsonRpcClient`), and the session object above it (`Client`) with its per-method handler
registries. Every module verifies with Dafny 4.11.

- `wrappers.dfy` (`Wrappers`): `Option` (`None` is JavaScript's `undefined`, never JSON
  `null`) and `Result` (a call that throws before doing anything).
- `json.dfy` (`Json`): decoded JSON values (`Null`, `Bool`, `Num` over integers, `Str`, `Arr`,
  `Obj` over a map) and property access.
- `message.dfy` (`Message`): the predicates of `src/json_rpc/message.ts`, built from the same
  elementary tests (number, string, boolean, array, record, null, optional) and the facts
  about them: inclusions, rejections, optional fields.
- `handlers.dfy` (`Handlers`): the "first defined answer wins" search shared by the engine's
  request loop and the session's request dispatcher.
- `rpc.dfy` (`Rpc`): the engine. Each operation is a pure step on an `Engine` value (next
  id, pending table, outbox, settled promises, log of handler calls), with the lemmas about
  it, and a method of the class `JsonRpcClient`, whose fields the source updates in place and
  whose contract equates the new state with the step.
- `session.dfy` (`Session`): the class `Client` of `src/client.ts`, the `languageId`
  derivation, and the `initialize` and `didOpen` parameters.

How the model represents the source:

- Handlers are total functions. An engine request handler maps the request to
  `Option<JsonValue>`; a session handler maps `msg.params` (possibly `undefined`) to
  `Option<JsonValue>`. Notification handlers return nothing. Their effects are outside the
  model, so what the model records is which handler ran, in which order, on what argument.
- A promise returned by `request` is a handle (the request's id). The pending table maps an
  id to `Resolvers(promise)`, and settling a promise appends `Resolved` or `Rejected` to an
  outcome log.
- Each call and each inbound value runs to completion. The write and the table insertion of
  `request` are one step.
- `Number(received.id)` is `IdKey`. A number maps to itself and `null` to 0. A string maps
  to 0 when empty, to its value when it is an optional sign followed by decimal digits, and
  to no key otherwise.
- The session's dispatcher closure reads the registry as it is when the closure runs. Dafny's
  function values cannot read the heap, so each subscription installs the dispatcher over the
  new registry. `Session.Client.Valid()` states that the engine's only request handler is
  always the dispatcher over the current registry, which is what the live lookup gives.
- `initialize` awaits its request's promise before it sends `initialized`. It is split into
  `BeginInitialize` (the request) and `FinishInitialize` (the notification, sent only once
  the outcome log shows the promise fulfilled).
- The file's text and URL in `open` are inputs of `Open`.

Behaviour of the code that departs from JSON-RPC 2.0, or that a reader might not expect:

- A response needs neither `result` nor `error`, and may carry both (src/json_rpc/message.ts:53-63).
- An error's `code` must be a number, not necessarily an integer (src/json_rpc/message.ts:30).
- The session's `request` and `notify` reject an absent `params` as well as a scalar one,
  because the guard at src/client.ts:67 and :75 asserts an array or a record.
- `request` writes the message first and inserts the pending entry after the write
  (src/json_rpc/client.ts:90-92).
- There is no closed state, no timeout, and no isolation of a failing handler.
- A response with neither `result` nor `error` removes its pending entry and leaves the
  promise unsettled forever (src/json_rpc/client.ts:60-65).

## Model

| member | source | states |
|---|---|---|
| Message.IsMessage | src/json_rpc/message.ts:4-6 | definition: an object whose `jsonrpc` is exactly the string "2.0"; other keys are allowed |
| Message.IsRequestMessage | src/json_rpc/message.ts:10-25 | definition: a message with a numeric or string `id`, a string `method`, and a `params` that is absent or an array or an object |
| Message.IsResponseError | src/json_rpc/message.ts:29-42 | definition: an object with a numeric `code`, a string `message`, and a `data` that is absent or any JSON value |
| Message.IsResponseMessage | src/json_rpc/message.ts:45-65 | definition: a message with a numeric, string or null `id`, a `result` that is absent or any JSON value, and an `error` that is absent or a response error |
| Message.IsNotificationMessage | src/json_rpc/message.ts:69-80 | definition: a message with a string `method` and a `params` that is absent or an array or an object |
| Message.RequestMessageIff | src/json_rpc/message.ts:10-25 | a value is a request iff it is an object with `jsonrpc` "2.0", a numeric or string `id`, a string `method`, and `params` absent or an array or object |
| Message.ResponseErrorIff | src/json_rpc/message.ts:29-42 | a response error is exactly an object with a numeric `code` and a string `message`; an optional `data` constrains nothing |
| Message.RequestIsNotification | src/json_rpc/message.ts:69-80 | every request also has the notification shape, because that shape does not forbid `id` |
| Message.RequestAndNotificationOverlap | src/json_rpc/message.ts:10-80 | some value is both a request and a notification |
| Message.TagRequired | src/json_rpc/message.ts:4-6 | a missing or non-"2.0" `jsonrpc` rejects the message, request, notification and response shapes |
| Message.ScalarParamsRejected | src/json_rpc/message.ts:18-23 | a present `params` that is null, a boolean, a number or a string rejects both the request and notification shapes |
| Message.NullIdIsResponseOnly | src/json_rpc/message.ts:48-52 | `id: null` is never a request, and such a value is a response iff its `error`, if any, is well formed |
| Message.ResultAndErrorOptional | src/json_rpc/message.ts:53-63 | given the tag and a valid id, being a response depends only on a present `error` being well formed: `result` may be anything or absent |
| Message.ResponseWithNeitherOrBoth | src/json_rpc/message.ts:53-63 | a response with neither `result` nor `error`, and one with both, are accepted |
| Message.MalformedErrorRejected | src/json_rpc/message.ts:29-31 | a present `error` without a numeric `code` or a string `message` rejects the response |
| Handlers.FirstDefined | src/client.ts:17-22 | definition: the answer at the first defined index, or undefined when no handler answers |
| Handlers.FirstDefinedIndex | src/json_rpc/client.ts:41-50 | the index where the handler search stops: every earlier answer is undefined, the answer there is defined, or it is the end of the list |
| Handlers.FirstDefinedIndexIs | src/json_rpc/client.ts:41-50 | those properties determine the index uniquely |
| Handlers.FirstDefinedMeaning | src/client.ts:17-22 | the search's answer is defined iff some handler's answer is, and it is the answer of a handler after only undefined answers |
| Handlers.FirstDefinedAppend | src/client.ts:79-87 | appending a handler keeps an existing defined answer, and otherwise the new handler's answer becomes the answer |
| Rpc.Classify | src/json_rpc/client.ts:40-56 | request first, then notification, then response: a notification is any non-request with that shape, and a value is unrecognized iff it fails both the notification and the response shape |
| Rpc.RequestMessageOf | src/json_rpc/client.ts:82-89 | the written request carries `jsonrpc` "2.0", the id and the method, and carries `params` exactly when it is non-null; it is request-shaped iff `params` is absent, null, an array or an object |
| Rpc.NotificationMessageOf | src/json_rpc/client.ts:100-106 | the written notification has no `id`, so it is never a request; it carries `params` exactly when that is non-null |
| Rpc.ResponseMessageOf | src/json_rpc/client.ts:44-48 | the written response holds exactly `jsonrpc`, the request's `id` and the result; it is response-shaped and never notification-shaped |
| Rpc.StringToNumber | src/json_rpc/client.ts:57 | definition: `Number` on a string, for the integer forms: "" is 0, an optional sign and decimal digits are that integer, and every other string has no key |
| Rpc.IdKey | src/json_rpc/client.ts:57 | definition: `Number(received.id)`: a number is itself, null is 0, true and false are 1 and 0, and a string goes through `StringToNumber` |
| Rpc.DecimalStringRoundTrip | src/json_rpc/client.ts:57 | parsing the decimal text of n gives back n |
| Rpc.StringIdFindsNumericId | src/json_rpc/client.ts:57-58 | a response whose id is the string form of an issued id is looked up under that id |
| Rpc.Inv | src/json_rpc/client.ts:18-19 | definition: the next id is at least 1; each pending key was issued and maps to its own promise; each settled promise was issued and is no longer pending; no promise is settled twice |
| Rpc.RequestStep | src/json_rpc/client.ts:77-94 | definition: take the next id and advance the counter, write the request with that id, and insert the id's pending entry; return the id |
| Rpc.NotifyStep | src/json_rpc/client.ts:96-108 | definition: write the notification and change nothing else |
| Rpc.SettleStep | src/json_rpc/client.ts:56-66 | definition: look up `Number(id)`; if it is pending, resolve with a defined `result`, or else reject with a non-null `error`, and delete the entry either way; otherwise no change |
| Rpc.InboundStep | src/json_rpc/client.ts:38-68 | definition: by classification, answer a request with the first defined handler answer (logging the calls made), call every notification handler, settle a response, or ignore the value |
| Rpc.RequestIssuesNextId | src/json_rpc/client.ts:81-93 | `request` returns the counter's value, advances it by one, writes one request with that id and method, puts the unused id in the table, and changes nothing else |
| Rpc.NotifyWritesOnly | src/json_rpc/client.ts:96-108 | `notify` writes one notification and changes nothing else |
| Rpc.InboundKeepsInv | src/json_rpc/client.ts:38-68 | inbound handling keeps the invariant: pending ids are issued and keyed to their own promise, settled promises are no longer pending, and no promise is settled twice |
| Rpc.RequestAnsweredOnce | src/json_rpc/client.ts:41-50 | when handler k gives the first defined answer (null included), exactly one response with the request's id and that answer is written, handlers 0..k ran in order, the later ones did not, and nothing else changes |
| Rpc.RequestUnansweredWritesNothing | src/json_rpc/client.ts:41-51 | when every handler answers undefined, or there are none, nothing is written and only the handler calls are logged |
| Rpc.RequestNeverNotifies | src/json_rpc/client.ts:40-55 | a request-shaped value calls no notification handler |
| Rpc.NotificationFansOut | src/json_rpc/client.ts:52-55 | a notification that is not a request calls every notification handler once, in order, and writes nothing |
| Rpc.ResponseSettlesPending | src/json_rpc/client.ts:57-66 | a response for a pending id resolves with a defined `result`, or else rejects with `error`; the entry is removed in every case and the other entries stay |
| Rpc.UnmatchedResponseIgnored | src/json_rpc/client.ts:57-59 | a response whose converted id is not pending changes nothing |
| Rpc.NullIdResponseIgnored | src/json_rpc/client.ts:57-59 | a response with `id: null` (key 0, never issued) changes nothing |
| Rpc.UnrecognizedIgnored | src/json_rpc/client.ts:40-67 | an unrecognized value writes nothing, calls no handler and leaves the table unchanged |
| Rpc.ResponseResolvesItsRequest | src/json_rpc/client.ts:57-66 | the response to a request resolves exactly the promise that request returned, with the response's result, and clears its entry; a repeated response is dropped |
| Rpc.ErrorRejectsItsRequest | src/json_rpc/client.ts:62-63 | a response with no result and an error rejects the request's promise with that error object verbatim |
| Rpc.RunIssuesConsecutiveIds | src/json_rpc/client.ts:81-92 | along any run of requests, notifications and inbound values the invariant holds and requests get consecutive ids from the counter on |
| Rpc.IdsAreUnique | src/json_rpc/client.ts:18 | from a fresh client the ids are 1, 2, 3, … in call order, so they are pairwise distinct |
| Rpc.JsonRpcClient.constructor | src/json_rpc/client.ts:15-19 | a new client has no handlers, no pending entries, nothing written, and next id 1 |
| Rpc.JsonRpcClient.Send | src/json_rpc/client.ts:73-75 | one write appended to the outbound stream, nothing else changed |
| Rpc.JsonRpcClient.Request | src/json_rpc/client.ts:77-94 | the new state is the request step of the old one; the returned promise is the old counter value, now pending |
| Rpc.JsonRpcClient.Notify | src/json_rpc/client.ts:96-108 | the new state is the notify step of the old one |
| Rpc.JsonRpcClient.Receive | src/json_rpc/client.ts:38-68 | the new state is the inbound step of the old one, the invariant is kept, and the handler lists are unchanged |
| Rpc.TryRequestHandlers | src/json_rpc/client.ts:41-50 | returns the answer of the first request handler whose answer is defined (undefined when none is) and records exactly the calls up to and including that handler |
| Rpc.RunNotifyHandlers | src/json_rpc/client.ts:53-55 | records one call of every notification handler, in registration order |
| Rpc.JsonRpcClient.ReceiveRequest | src/json_rpc/client.ts:41-51 | the loop calls handlers up to the first defined answer and writes one response with it, or calls all and writes nothing |
| Rpc.JsonRpcClient.ReceiveNotification | src/json_rpc/client.ts:52-55 | the loop calls every notification handler in order and changes nothing else |
| Rpc.JsonRpcClient.ReceiveResponse | src/json_rpc/client.ts:56-66 | the new state is the settle step of the old one |
| Session.Lookup | src/client.ts:84 | definition: `registry[name] ?? []` |
| Session.Subscribed | src/client.ts:83-86 | definition: the registry with the named list replaced by its old list (or the empty one) followed by the new handler; the same at src/client.ts:93-96 |
| Session.RequestDispatcher | src/client.ts:16-23 | definition: on a message, the first defined answer of the handlers registered under `msg.method`, each called on `msg.params` |
| Session.NotifyDispatcher | src/client.ts:24-28 | definition: one engine handler that returns nothing; the calls it makes are what `Session.Client.DispatchNotify` returns |
| Session.IsParams | src/client.ts:67 | definition: the guard `UnionOf([Array, Record])`: present and an array or an object; the same at src/client.ts:75 |
| Session.StripThroughLastDot | src/client.ts:48 | definition: `replace(/.*\./, "")`: on the first line that holds a '.', remove everything from the start of that line through its last '.'; a path with no '.' is unchanged |
| Session.LanguageId | src/client.ts:47-49 | definition: the language id derived when none is given, which is `StripThroughLastDot(path)` |
| Session.SubscribeAppends | src/client.ts:79-97 | subscribing makes the method's list its old list plus the handler at the end, and leaves every other method's list unchanged |
| Session.LanguageIdIsExtension | src/client.ts:47-49 | for a one-line path the derived id is a suffix of the path with no '.', preceded by a '.' when the path has one, and the whole path when it has none |
| Session.LanguageIdOfTwoLines | src/client.ts:48 | on a path of several lines only the first line holding a '.' is cut, so the id can keep a '.' |
| Session.DidOpenParams | src/client.ts:52-59 | the didOpen params are an object (so the guard accepts them) holding the uri, the language id, version 1 and the text |
| Session.InitializeParams | src/client.ts:34-38 | the initialize params are an object with `processId` null, `rootUri` null and `capabilities` {} |
| Session.SessionAnswersRequest | src/client.ts:16-23 | through the engine, an inbound request gets a response iff a handler registered under its method answers, with the first such answer and the request's id |
| Session.InitializeHandshake | src/client.ts:31-41 | from a fresh engine, `initialize` is id 1 and its answer fulfils its promise; after that, `initialized` is sent, and these are the only two messages written |
| Session.Client.constructor | src/client.ts:13-29 | a new session over a fresh engine, with empty registries and the two dispatchers as the engine's only handlers |
| Session.Client.DispatchRequest | src/client.ts:16-23 | the dispatcher calls only the handlers under `msg.method`, in order, on `msg.params`, up to the first defined answer, and returns that answer or undefined |
| Session.Client.DispatchNotify | src/client.ts:24-28 | the dispatcher calls every handler under `msg.method` once, in order, on `msg.params` |
| Session.Client.SubscribeRequest | src/client.ts:79-87 | the registry becomes the subscribed registry, the engine's dispatcher follows it, and the engine's state is unchanged |
| Session.Client.SubscribeNotify | src/client.ts:89-97 | the same for notification handlers |
| Session.Client.Request | src/client.ts:63-69 | params that are not an array or an object fail before anything is written; otherwise it is the engine's request step |
| Session.Client.Notify | src/client.ts:71-77 | params that are not an array or an object fail before anything is written; otherwise it is the engine's notify step |
| Session.Client.Open | src/client.ts:43-61 | exactly one `textDocument/didOpen` notification with version 1 and the given language id, or the derived one when none is given |
| Session.Client.BeginInitialize | src/client.ts:31-39 | writes the `initialize` request with its parameters and returns its promise |
| Session.Client.FinishInitialize | src/client.ts:40 | sends `initialized` with `{}` iff the promise was fulfilled, and otherwise changes nothing |

## Left out

- Process spawning and stream piping (src/json_rpc/client.ts:21-37): operating-system I/O.
- The LSP `Content-Length` framing, the JSON text encoder and `JSON.parse`: library code. The
  model takes and writes decoded values.
- Promises and interleaving: each call and each inbound value runs to completion. The race
  between a request's write and its table insertion is not modelled.
- Session.Client.Open: `toFileUrl` and `Deno.readTextFile` are library URL encoding and file
  I/O, so the URL and the text are inputs. Their failures are not modelled: in the source,
  `toFileUrl` throws on a relative path and `readTextFile` throws when the file cannot be
  read, and then `open` sends nothing (src/client.ts:50-51). `Open` always writes.
- Rpc.StringToNumber: the model has integers only. Unlike `Number`, it gives no value for
  strings of white space only (which `Number` maps to 0, a key never issued), strings with
  surrounding blanks, the hexadecimal, binary or octal prefixes "0x", "0b" and "0o",
  exponents, "Infinity" or a fraction such as "1.0".
- Rpc.IdKey: through `StringToNumber`, a response whose id is such a string gets no key. A
  response whose id is "0b1" or "0x1" settles pending request 1 in the source and is dropped
  by the model.
- Session.Lookup: for a method name inherited from `Object.prototype` (such as
  "constructor", "toString" or "__proto__") that was never subscribed, `registry[name] ?? []` at
  src/client.ts:17, 25, 84 and 94 yields a function or `Object.prototype`, which is not
  iterable. The model's registry holds only the keys that were stored, so `Lookup` gives `[]`.
- Session.Subscribed: for such an inherited name the spread at src/client.ts:84 and 94
  throws, so `subscribeRequest` and `subscribeNotify` fail. The model appends the handler to an
  empty list.
- Session.RequestDispatcher: for an inbound request whose method is such an inherited name, the
  closure's loop at src/client.ts:17 throws, which rejects the inbound callback with an uncaught
  exception. The model answers undefined, and processing goes on.
- Exceptions thrown by handlers: the source does not catch them, and the model's handlers are
  total functions.
- Rpc.JsonRpcClient.ReceiveNotification: the notification handlers' own effects are not
  modelled. The contract states which handlers ran, in what order and on what value.
- Session.Client.DispatchNotify: the same; it states the calls, not what the handlers do.
- Session.NotifyDispatcher: to the engine it is one handler with no result; its per-method calls
  are what `Session.Client.DispatchNotify` returns, and the registry is read only there. For an
  inbound notification whose method is an inherited name, the loop at src/client.ts:25 throws and
  rejects the inbound callback; the model calls no handler and processing goes on.
- Session.Client.BeginInitialize: `initialize` is one async function in the source. This model
  splits it at its `await`, and the caller decides when to run `FinishInitialize`.
- src/interface.ts holds type aliases only.
