/** The JSON-RPC correlation and dispatch engine, `JsonRpcClient` of src/json_rpc/client.ts.

    The engine issues requests with consecutive integer ids, remembers each outstanding one in
    a pending table until its response arrives, writes every outbound message to one ordered
    outbox, and routes each inbound decoded value: a request to the request handlers (the first
    defined answer is sent back), a notification to every notification handler, a response to
    the pending entry it names, and anything else nowhere.

    Every operation is written twice: as a pure step function on an `Engine` value, about which
    the lemmas speak, and as a method of the class `JsonRpcClient`, whose fields the source
    updates in place and whose contract ties the new state to the step function. Each call and
    each inbound value runs to completion; the awaits of the source are sequential here. */
module Rpc {
  import opened Wrappers
  import opened Json
  import opened Message
  import opened Handlers

  /** A request handler receives the whole request; `None` means it returned `undefined`. */
  type RequestHandler = JsonValue -> Option<JsonValue>
  /** A notification handler's effects are outside the model; the engine records its call. */
  type NotifyHandler = JsonValue -> ()

  /** The pair of resolvers stored in the pending table, standing for the promise that
      `request` returned; `promise` is that promise's handle. */
  datatype Resolvers = Resolvers(promise: nat)

  /** How a promise returned by `request` was settled. */
  datatype Outcome =
    | Resolved(promise: nat, value: JsonValue)
    | Rejected(promise: nat, error: JsonValue)

  /** One call of a registered handler, by its position in its list. */
  datatype Invocation =
    | RequestHandlerCall(index: nat, msg: JsonValue)
    | NotifyHandlerCall(index: nat, msg: JsonValue)

  /** The branch the inbound callback takes. */
  datatype Kind = RequestKind | NotificationKind | ResponseKind | Unrecognized

  /** The classification of the inbound callback: the request test first, then the
      notification test, then the response test (src/json_rpc/client.ts:40, 52, 56). */
  function Classify(v: JsonValue): (k: Kind)
    ensures k == RequestKind <==> IsRequestMessage(v)
    ensures k == NotificationKind <==> IsNotificationMessage(v) && !IsRequestMessage(v)
    ensures k == ResponseKind <==> IsResponseMessage(v) && !IsNotificationMessage(v)
    ensures k == Unrecognized <==> !IsNotificationMessage(v) && !IsResponseMessage(v)
  {
    if IsRequestMessage(v) then RequestKind
    else if IsNotificationMessage(v) then NotificationKind
    else if IsResponseMessage(v) then ResponseKind
    else Unrecognized
  }

  // ---------------------------------------------------------------------------------------
  // The messages the engine writes

  /** `params != null`: the value is included unless it is absent or `null`. */
  function ParamsField(params: Option<JsonValue>): map<string, JsonValue> {
    if params.Some? && params.value != Null then map["params" := params.value] else map[]
  }

  /** The request written by `request` (src/json_rpc/client.ts:82-89). */
  function RequestMessageOf(id: int, name: string, params: Option<JsonValue>): (m: JsonValue)
    ensures m.Obj?
    ensures Get(m, "jsonrpc") == Some(Str("2.0"))
    ensures Get(m, "id") == Some(Num(id)) && Get(m, "method") == Some(Str(name))
    ensures Get(m, "params") == if params.Some? && params.value != Null then params else None
    ensures "params" in m.fields <==> params.Some? && params.value != Null
    ensures m.fields.Keys <= {"jsonrpc", "id", "method", "params"}
    ensures IsRequestMessage(m) <==>
      (params.None? || params.value.Null? || params.value.Arr? || params.value.Obj?)
  {
    Obj(map["jsonrpc" := Str("2.0"), "id" := Num(id), "method" := Str(name)] + ParamsField(params))
  }

  /** The notification written by `notify` (src/json_rpc/client.ts:100-106). It has no `id`, so
      it is never request-shaped. */
  function NotificationMessageOf(name: string, params: Option<JsonValue>): (m: JsonValue)
    ensures m.Obj?
    ensures Get(m, "jsonrpc") == Some(Str("2.0")) && Get(m, "method") == Some(Str(name))
    ensures Get(m, "id").None?
    ensures Get(m, "params") == if params.Some? && params.value != Null then params else None
    ensures m.fields.Keys <= {"jsonrpc", "method", "params"}
    ensures !IsRequestMessage(m)
    ensures IsNotificationMessage(m) <==>
      (params.None? || params.value.Null? || params.value.Arr? || params.value.Obj?)
  {
    Obj(map["jsonrpc" := Str("2.0"), "method" := Str(name)] + ParamsField(params))
  }

  /** The response written back for an answered request (src/json_rpc/client.ts:44-48). */
  function ResponseMessageOf(id: JsonValue, result: JsonValue): (m: JsonValue)
    ensures m.Obj? && m.fields.Keys == {"jsonrpc", "id", "result"}
    ensures Get(m, "id") == Some(id) && Get(m, "result") == Some(result)
    ensures !IsNotificationMessage(m)
    ensures IsResponseMessage(m) <==> (id.Num? || id.Str? || id.Null?)
  {
    Obj(map["jsonrpc" := Str("2.0"), "id" := id, "result" := result])
  }

  /** The `id` of a classified message (`received.id`); every shape that reads it has one. */
  function IdOf(v: JsonValue): JsonValue {
    match Get(v, "id")
    case Some(id) => id
    case None => Null
  }

  // ---------------------------------------------------------------------------------------
  // Number(received.id): the key a response is looked up under

  predicate IsDigit(c: char) { '0' <= c <= '9' }

  predicate AllDigits(s: string) { forall i :: 0 <= i < |s| ==> IsDigit(s[i]) }

  /** The value of a string of decimal digits. */
  function DigitsValue(s: string): nat
    requires AllDigits(s)
  {
    if |s| == 0 then 0
    else DigitsValue(s[..|s| - 1]) * 10 + (s[|s| - 1] as int - '0' as int)
  }

  /** `Number(s)` for the strings the model gives an integer: the empty string is 0, and an
      optional sign followed by decimal digits is that integer. Every other string is `None`:
      either `NaN`, or a form `Number` does give a value (surrounding white space, the "0x",
      "0b" and "0o" prefixes, exponents, fractions, "Infinity") that is not modelled. */
  function StringToNumber(s: string): Option<int> {
    if s == "" then Some(0)
    else if s[0] == '-' && |s| > 1 && AllDigits(s[1..]) then Some(-(DigitsValue(s[1..]) as int))
    else if s[0] == '+' && |s| > 1 && AllDigits(s[1..]) then Some(DigitsValue(s[1..]))
    else if AllDigits(s) then Some(DigitsValue(s))
    else None
  }

  /** `Number(received.id)`: a number is itself, `null` is 0, `true`/`false` are 1/0, a string
      is parsed; `None` is a key no table entry can have. Arrays and objects never reach it
      (the response shape excludes them). */
  function IdKey(id: JsonValue): Option<int> {
    match id
    case Num(n) => Some(n)
    case Null => Some(0)
    case Bool(b) => Some(if b then 1 else 0)
    case Str(s) => StringToNumber(s)
    case _ => None
  }

  /** The decimal text of a natural number: the string id a peer may echo for id `n`. */
  function DecimalString(n: nat): string {
    if n < 10 then [('0' as int + n) as char]
    else DecimalString(n / 10) + [('0' as int + n % 10) as char]
  }

  /** Parsing the decimal text of `n` gives `n` back. */
  lemma {:induction false} DecimalStringRoundTrip(n: nat)
    ensures |DecimalString(n)| > 0 && AllDigits(DecimalString(n))
    ensures DigitsValue(DecimalString(n)) == n
  {
    if n >= 10 {
      DecimalStringRoundTrip(n / 10);
      var s := DecimalString(n);
      assert s[..|s| - 1] == DecimalString(n / 10);
    }
  }

  /** So a response whose id is the string form of an issued id finds that request. */
  lemma StringIdFindsNumericId(n: nat)
    ensures IdKey(Str(DecimalString(n))) == Some(n)
  {
    DecimalStringRoundTrip(n);
    var s := DecimalString(n);
    assert s[0] != '-' && s[0] != '+' by { assert IsDigit(s[0]); }
  }

  // ---------------------------------------------------------------------------------------
  // The engine's state and its steps

  /** The state the class keeps in fields: the next id, the pending table, everything
      written so far, how promises were settled, and which handlers ran. */
  datatype Engine = Engine(
    nextId: nat,
    pending: map<int, Resolvers>,
    outbox: seq<JsonValue>,
    outcomes: seq<Outcome>,
    invoked: seq<Invocation>)

  /** A fresh engine: the first id is 1 (src/json_rpc/client.ts:18-19). */
  const Initial: Engine := Engine(1, map[], [], [], [])

  /** The invariant of every reachable state: pending ids were issued and are keyed to their
      own promise, every settled promise was issued and is no longer pending, and no promise
      is settled twice. */
  ghost predicate Inv(e: Engine) {
    && e.nextId >= 1
    && (forall k :: k in e.pending ==> 1 <= k < e.nextId && e.pending[k] == Resolvers(k))
    && (forall i :: 0 <= i < |e.outcomes| ==>
          1 <= e.outcomes[i].promise < e.nextId && e.outcomes[i].promise !in e.pending)
    && (forall i, j :: 0 <= i < j < |e.outcomes| ==> e.outcomes[i].promise != e.outcomes[j].promise)
  }

  /** `request`: take the next id, write the request, record the pending entry
      (src/json_rpc/client.ts:81-93; the write and the insertion are one step here). */
  function RequestStep(e: Engine, name: string, params: Option<JsonValue>): (Engine, nat) {
    var id := e.nextId;
    (e.(nextId := id + 1,
        pending := e.pending[id := Resolvers(id)],
        outbox := e.outbox + [RequestMessageOf(id, name, params)]),
     id)
  }

  /** `notify`: write the notification (src/json_rpc/client.ts:100-107). */
  function NotifyStep(e: Engine, name: string, params: Option<JsonValue>): Engine {
    e.(outbox := e.outbox + [NotificationMessageOf(name, params)])
  }

  /** The calls of the first `n` request handlers, in order, on `msg`. */
  function RequestCalls(n: nat, msg: JsonValue): (calls: seq<Invocation>)
    ensures |calls| == n
    ensures forall i :: 0 <= i < n ==> calls[i] == RequestHandlerCall(i, msg)
  {
    if n == 0 then [] else RequestCalls(n - 1, msg) + [RequestHandlerCall(n - 1, msg)]
  }

  /** The calls of the first `n` notification handlers, in order, on `msg`. */
  function NotifyCalls(n: nat, msg: JsonValue): (calls: seq<Invocation>)
    ensures |calls| == n
    ensures forall i :: 0 <= i < n ==> calls[i] == NotifyHandlerCall(i, msg)
  {
    if n == 0 then [] else NotifyCalls(n - 1, msg) + [NotifyHandlerCall(n - 1, msg)]
  }

  /** A response: look the converted id up; if an entry is there, resolve with `result` when it
      is defined, otherwise reject with `error` when it is non-null, and delete the entry in
      every case (src/json_rpc/client.ts:57-66). */
  function SettleStep(e: Engine, received: JsonValue): Engine {
    var key := IdKey(IdOf(received));
    if key.Some? && key.value in e.pending then
      var cb := e.pending[key.value];
      var result := Get(received, "result");
      var error := Get(received, "error");
      var outcomes :=
        if result.Some? then e.outcomes + [Resolved(cb.promise, result.value)]
        else if error.Some? && error.value != Null then e.outcomes + [Rejected(cb.promise, error.value)]
        else e.outcomes;
      e.(pending := e.pending - {key.value}, outcomes := outcomes)
    else e
  }

  /** The inbound callback on one decoded value (src/json_rpc/client.ts:38-68). */
  function InboundStep(e: Engine, rh: seq<RequestHandler>, nh: seq<NotifyHandler>, received: JsonValue): Engine {
    match Classify(received)
    case RequestKind =>
      var k := FirstDefinedIndex(rh, received);
      if k < |rh| then
        e.(outbox := e.outbox + [ResponseMessageOf(IdOf(received), rh[k](received).value)],
           invoked := e.invoked + RequestCalls(k + 1, received))
      else e.(invoked := e.invoked + RequestCalls(|rh|, received))
    case NotificationKind => e.(invoked := e.invoked + NotifyCalls(|nh|, received))
    case ResponseKind => SettleStep(e, received)
    case Unrecognized => e
  }

  // ---------------------------------------------------------------------------------------
  // Properties of single steps

  /** `request` returns the next id, advances the counter by one, writes
      `{jsonrpc: "2.0", id, method}` with `params` exactly when it is non-null, leaves the id
      pending, and changes nothing else. */
  lemma RequestIssuesNextId(e: Engine, name: string, params: Option<JsonValue>)
    requires Inv(e)
    ensures var (e', id) := RequestStep(e, name, params);
      && Inv(e')
      && id == e.nextId && e'.nextId == id + 1
      && id !in e.pending && e'.pending == e.pending[id := Resolvers(id)]
      && |e'.outbox| == |e.outbox| + 1 && e'.outbox[..|e.outbox|] == e.outbox
      && Get(e'.outbox[|e.outbox|], "id") == Some(Num(id))
      && Get(e'.outbox[|e.outbox|], "method") == Some(Str(name))
      && (Get(e'.outbox[|e.outbox|], "params").Some? <==> params.Some? && params.value != Null)
      && e'.outcomes == e.outcomes && e'.invoked == e.invoked
  {
    var (e', id) := RequestStep(e, name, params);
    assert e'.outbox[..|e.outbox|] == e.outbox;
  }

  /** `notify` writes one notification and changes nothing else. */
  lemma NotifyWritesOnly(e: Engine, name: string, params: Option<JsonValue>)
    requires Inv(e)
    ensures var e' := NotifyStep(e, name, params);
      && Inv(e')
      && e'.outbox == e.outbox + [NotificationMessageOf(name, params)]
      && e'.nextId == e.nextId && e'.pending == e.pending
      && e'.outcomes == e.outcomes && e'.invoked == e.invoked
  {
  }

  /** Handling an inbound value keeps the invariant and never issues an id. */
  lemma InboundKeepsInv(e: Engine, rh: seq<RequestHandler>, nh: seq<NotifyHandler>, received: JsonValue)
    requires Inv(e)
    ensures Inv(InboundStep(e, rh, nh, received))
    ensures InboundStep(e, rh, nh, received).nextId == e.nextId
  {
    if Classify(received) == ResponseKind {
      var key := IdKey(IdOf(received));
      if key.Some? && key.value in e.pending {
        var e' := InboundStep(e, rh, nh, received);
        assert e'.pending == e.pending - {key.value};
        assert forall i :: 0 <= i < |e.outcomes| ==> e.outcomes[i].promise != key.value;
        assert e.pending[key.value].promise == key.value;
      }
    }
  }

  /** An inbound request whose handlers answer `undefined` up to position `k` and defined at `k`
      (JSON `null` included) gets exactly one response `{jsonrpc, id: received.id, result}` with
      that answer; the handlers after `k` are not called, and nothing else changes. */
  lemma RequestAnsweredOnce(e: Engine, rh: seq<RequestHandler>, nh: seq<NotifyHandler>, received: JsonValue, k: nat)
    requires IsRequestMessage(received)
    requires k < |rh| && rh[k](received).Some?
    requires forall j :: 0 <= j < k ==> rh[j](received).None?
    ensures var e' := InboundStep(e, rh, nh, received);
      && e'.outbox == e.outbox + [ResponseMessageOf(Get(received, "id").value, rh[k](received).value)]
      && e'.invoked == e.invoked + RequestCalls(k + 1, received)
      && e'.pending == e.pending && e'.outcomes == e.outcomes && e'.nextId == e.nextId
  {
    FirstDefinedIndexIs(rh, received, k);
  }

  /** An inbound request that no handler answers (every answer `undefined`, or no handlers at
      all) writes nothing; every handler was called once, in order. */
  lemma RequestUnansweredWritesNothing(e: Engine, rh: seq<RequestHandler>, nh: seq<NotifyHandler>, received: JsonValue)
    requires IsRequestMessage(received)
    requires forall j :: 0 <= j < |rh| ==> rh[j](received).None?
    ensures InboundStep(e, rh, nh, received) == e.(invoked := e.invoked + RequestCalls(|rh|, received))
  {
    FirstDefinedIndexIs(rh, received, |rh|);
  }

  /** A request-shaped value never reaches a notification handler. */
  lemma RequestNeverNotifies(e: Engine, rh: seq<RequestHandler>, nh: seq<NotifyHandler>, received: JsonValue)
    requires IsRequestMessage(received)
    ensures var e' := InboundStep(e, rh, nh, received);
      && e'.invoked[..|e.invoked|] == e.invoked
      && forall i :: |e.invoked| <= i < |e'.invoked| ==> e'.invoked[i].RequestHandlerCall?
  {
    var e' := InboundStep(e, rh, nh, received);
    assert e'.invoked[..|e.invoked|] == e.invoked;
  }

  /** A notification that is not a request calls every notification handler once, in order,
      and writes nothing. */
  lemma NotificationFansOut(e: Engine, rh: seq<RequestHandler>, nh: seq<NotifyHandler>, received: JsonValue)
    requires IsNotificationMessage(received) && !IsRequestMessage(received)
    ensures var e' := InboundStep(e, rh, nh, received);
      && e' == e.(invoked := e.invoked + NotifyCalls(|nh|, received))
      && |e'.invoked| == |e.invoked| + |nh|
      && forall i :: 0 <= i < |nh| ==> e'.invoked[|e.invoked| + i] == NotifyHandlerCall(i, received)
  {
  }

  /** A response whose converted id is pending settles that entry's promise: resolved with
      `result` whenever it is defined (even `null`, `0`, `false` or `""`), otherwise rejected with
      a non-null `error`; the entry is removed in every case and the rest of the table,
      the outbox and the handler log are untouched. */
  lemma ResponseSettlesPending(e: Engine, rh: seq<RequestHandler>, nh: seq<NotifyHandler>, received: JsonValue, k: int)
    requires Inv(e)
    requires IsResponseMessage(received) && !IsNotificationMessage(received)
    requires IdKey(Get(received, "id").value) == Some(k) && k in e.pending
    ensures var e' := InboundStep(e, rh, nh, received);
      && e'.pending == e.pending - {k}
      && (forall k' :: k' != k ==> (k' in e'.pending <==> k' in e.pending))
      && e'.outcomes == (
           if Get(received, "result").Some? then e.outcomes + [Resolved(k, Get(received, "result").value)]
           else if Get(received, "error").Some? then e.outcomes + [Rejected(k, Get(received, "error").value)]
           else e.outcomes)
      && e'.outbox == e.outbox && e'.invoked == e.invoked && e'.nextId == e.nextId
  {
  }

  /** A response whose converted id is not pending (never issued, already settled, or not a
      number at all) changes nothing. */
  lemma UnmatchedResponseIgnored(e: Engine, rh: seq<RequestHandler>, nh: seq<NotifyHandler>, received: JsonValue)
    requires IsResponseMessage(received) && !IsNotificationMessage(received)
    requires IdKey(Get(received, "id").value).None? || IdKey(Get(received, "id").value).value !in e.pending
    ensures InboundStep(e, rh, nh, received) == e
  {
  }

  /** `id: null` converts to 0, which is never issued, so such a response changes nothing. */
  lemma NullIdResponseIgnored(e: Engine, rh: seq<RequestHandler>, nh: seq<NotifyHandler>, received: JsonValue)
    requires Inv(e)
    requires IsResponseMessage(received) && !IsNotificationMessage(received)
    requires Get(received, "id") == Some(Null)
    ensures InboundStep(e, rh, nh, received) == e
  {
    assert IdKey(Null) == Some(0);
  }

  /** An unrecognized value writes nothing, calls no handler and leaves the table alone. */
  lemma UnrecognizedIgnored(e: Engine, rh: seq<RequestHandler>, nh: seq<NotifyHandler>, received: JsonValue)
    requires !IsNotificationMessage(received) && !IsResponseMessage(received)
    ensures InboundStep(e, rh, nh, received) == e
  {
  }

  /** Round-trip correlation: after `request`, the peer's response carrying the same id and a
      result resolves exactly the promise `request` returned, with that value, and clears the
      entry; a second copy of the response is dropped. */
  lemma ResponseResolvesItsRequest(e: Engine, rh: seq<RequestHandler>, nh: seq<NotifyHandler>,
                                   name: string, params: Option<JsonValue>, result: JsonValue)
    requires Inv(e)
    ensures var (e1, promise) := RequestStep(e, name, params);
      var response := ResponseMessageOf(Num(promise), result);
      var e2 := InboundStep(e1, rh, nh, response);
      && e2.outcomes == e.outcomes + [Resolved(promise, result)]
      && e2.pending == e.pending && e2.outbox == e1.outbox
      && InboundStep(e2, rh, nh, response) == e2
  {
    var (e1, promise) := RequestStep(e, name, params);
    var response := ResponseMessageOf(Num(promise), result);
    assert Classify(response) == ResponseKind;
    assert promise !in e.pending;
    assert e1.pending - {promise} == e.pending;
  }

  /** Error propagation: a response with no result and an error rejects the promise with
      that error object verbatim. */
  lemma ErrorRejectsItsRequest(e: Engine, rh: seq<RequestHandler>, nh: seq<NotifyHandler>,
                               name: string, params: Option<JsonValue>, code: int, message: string)
    requires Inv(e)
    ensures var (e1, promise) := RequestStep(e, name, params);
      var error := Obj(map["code" := Num(code), "message" := Str(message)]);
      var response := Obj(map["jsonrpc" := Str("2.0"), "id" := Num(promise), "error" := error]);
      var e2 := InboundStep(e1, rh, nh, response);
      && e2.outcomes == e.outcomes + [Rejected(promise, error)]
      && e2.pending == e.pending
  {
    var (e1, promise) := RequestStep(e, name, params);
    var error := Obj(map["code" := Num(code), "message" := Str(message)]);
    var response := Obj(map["jsonrpc" := Str("2.0"), "id" := Num(promise), "error" := error]);
    assert Get(response, "error") == Some(error);
    assert Get(response, "id") == Some(Num(promise));
    assert IsResponseError(error) by {
      assert Get(error, "code") == Some(Num(code));
      assert Get(error, "message") == Some(Str(message));
    }
    assert Classify(response) == ResponseKind;
    assert e1.pending - {promise} == e.pending;
  }

  // ---------------------------------------------------------------------------------------
  // Runs of many operations

  /** One operation a caller or the peer can perform. */
  datatype Call =
    | CallRequest(name: string, params: Option<JsonValue>)
    | CallNotify(name: string, params: Option<JsonValue>)
    | Deliver(received: JsonValue)

  /** The state after a run of operations, and the ids its requests were given, in order. */
  function Run(e: Engine, rh: seq<RequestHandler>, nh: seq<NotifyHandler>, calls: seq<Call>): (Engine, seq<nat>)
    decreases |calls|
  {
    if |calls| == 0 then (e, [])
    else
      var (e1, ids1) :=
        match calls[0]
        case CallRequest(m, p) => var (e', id) := RequestStep(e, m, p); (e', [id])
        case CallNotify(m, p) => (NotifyStep(e, m, p), [])
        case Deliver(v) => (InboundStep(e, rh, nh, v), []);
      var (e2, ids2) := Run(e1, rh, nh, calls[1..]);
      (e2, ids1 + ids2)
  }

  /** Along any run, the invariant holds and the requests get consecutive ids from the
      counter's value on: the counter ends exactly past the last id issued. */
  lemma {:induction false} RunIssuesConsecutiveIds(e: Engine, rh: seq<RequestHandler>, nh: seq<NotifyHandler>, calls: seq<Call>)
    requires Inv(e)
    ensures var (e', ids) := Run(e, rh, nh, calls);
      && Inv(e')
      && e'.nextId == e.nextId + |ids|
      && forall i :: 0 <= i < |ids| ==> ids[i] == e.nextId + i
    decreases |calls|
  {
    if |calls| > 0 {
      var e1: Engine, ids1: seq<nat>;
      match calls[0] {
        case CallRequest(m, p) =>
          RequestIssuesNextId(e, m, p);
          var (e', id) := RequestStep(e, m, p);
          e1, ids1 := e', [id];
        case CallNotify(m, p) =>
          NotifyWritesOnly(e, m, p);
          e1, ids1 := NotifyStep(e, m, p), [];
        case Deliver(v) =>
          InboundKeepsInv(e, rh, nh, v);
          e1, ids1 := InboundStep(e, rh, nh, v), [];
      }
      RunIssuesConsecutiveIds(e1, rh, nh, calls[1..]);
      var (e2, ids2) := Run(e1, rh, nh, calls[1..]);
      assert Run(e, rh, nh, calls) == (e2, ids1 + ids2);
    }
  }

  /** From a fresh engine the ids are 1, 2, 3, ... in call order, so no two requests of one
      client share an id. */
  lemma IdsAreUnique(rh: seq<RequestHandler>, nh: seq<NotifyHandler>, calls: seq<Call>)
    ensures var (_, ids) := Run(Initial, rh, nh, calls);
      && (forall i :: 0 <= i < |ids| ==> ids[i] == i + 1)
      && (forall i, j :: 0 <= i < j < |ids| ==> ids[i] < ids[j])
  {
    RunIssuesConsecutiveIds(Initial, rh, nh, calls);
  }

  // ---------------------------------------------------------------------------------------
  // The handler loops of the inbound callback

  /** The loop over the request handlers: call each in order until one gives a defined
      answer, and return that answer (or `undefined`) with the calls made
      (src/json_rpc/client.ts:41-50). */
  method TryRequestHandlers(hs: seq<RequestHandler>, received: JsonValue)
    returns (result: Option<JsonValue>, calls: seq<Invocation>)
    ensures var k := FirstDefinedIndex(hs, received);
      && result == (if k < |hs| then hs[k](received) else None)
      && calls == RequestCalls(if k < |hs| then k + 1 else k, received)
  {
    calls := [];
    var i := 0;
    while i < |hs|
      invariant 0 <= i <= |hs|
      invariant forall j :: 0 <= j < i ==> hs[j](received).None?
      invariant calls == RequestCalls(i, received)
    {
      var r := hs[i](received);
      calls := calls + [RequestHandlerCall(i, received)];
      if r.Some? {
        FirstDefinedIndexIs(hs, received, i);
        return r, calls;
      }
      i := i + 1;
    }
    FirstDefinedIndexIs(hs, received, i);
    result := None;
  }

  /** The loop over the notification handlers: call every one, in order
      (src/json_rpc/client.ts:53-55). */
  method RunNotifyHandlers(hs: seq<NotifyHandler>, received: JsonValue) returns (calls: seq<Invocation>)
    ensures calls == NotifyCalls(|hs|, received)
  {
    calls := [];
    for i := 0 to |hs|
      invariant calls == NotifyCalls(i, received)
    {
      var _ := hs[i](received);
      calls := calls + [NotifyHandlerCall(i, received)];
    }
  }

  // ---------------------------------------------------------------------------------------
  // The class

  class JsonRpcClient {
    var requestHandlers: seq<RequestHandler>
    var notifyHandlers: seq<NotifyHandler>

    var nextId: nat
    var pending: map<int, Resolvers>
    /** Everything written to the outbound stream, in order. */
    var outbox: seq<JsonValue>
    /** How the promises returned by `Request` were settled, in order. */
    var outcomes: seq<Outcome>
    /** Which handlers ran, in order. */
    var invoked: seq<Invocation>

    function State(): Engine
      reads this
    {
      Engine(nextId, pending, outbox, outcomes, invoked)
    }

    ghost predicate Valid()
      reads this
    {
      Inv(State())
    }

    /** A new client: no handlers, nothing pending or written, and the first id is 1. The
        process and the stream plumbing of src/json_rpc/client.ts:21-37 are not modelled. */
    constructor ()
      ensures Valid()
      ensures State() == Initial
      ensures requestHandlers == [] && notifyHandlers == []
    {
      requestHandlers, notifyHandlers := [], [];
      nextId, pending, outbox, outcomes, invoked := 1, map[], [], [], [];
    }

    /** `#send`: one write to the outbound stream. */
    method Send(msg: JsonValue)
      modifies this
      ensures outbox == old(outbox) + [msg]
      ensures nextId == old(nextId) && pending == old(pending) && outcomes == old(outcomes)
      ensures invoked == old(invoked)
      ensures requestHandlers == old(requestHandlers) && notifyHandlers == old(notifyHandlers)
    {
      outbox := outbox + [msg];
    }

    method Request(name: string, params: Option<JsonValue>) returns (promise: nat)
      requires Valid()
      modifies this
      ensures Valid()
      ensures (State(), promise) == RequestStep(old(State()), name, params)
      ensures promise == old(nextId) && nextId == old(nextId) + 1 && promise in pending
      ensures requestHandlers == old(requestHandlers) && notifyHandlers == old(notifyHandlers)
    {
      RequestIssuesNextId(State(), name, params);
      var id := nextId;
      nextId := nextId + 1;
      var msg := RequestMessageOf(id, name, params);
      Send(msg);
      pending := pending[id := Resolvers(id)];
      promise := id;
    }

    method Notify(name: string, params: Option<JsonValue>)
      requires Valid()
      modifies this
      ensures Valid()
      ensures State() == NotifyStep(old(State()), name, params)
      ensures requestHandlers == old(requestHandlers) && notifyHandlers == old(notifyHandlers)
    {
      var msg := NotificationMessageOf(name, params);
      Send(msg);
    }

    /** The inbound callback: one decoded value, run to completion. */
    method Receive(received: JsonValue)
      requires Valid()
      modifies this
      ensures Valid()
      ensures State() == InboundStep(old(State()), requestHandlers, notifyHandlers, received)
      ensures requestHandlers == old(requestHandlers) && notifyHandlers == old(notifyHandlers)
    {
      InboundKeepsInv(State(), requestHandlers, notifyHandlers, received);
      var kind := Classify(received);
      if kind == RequestKind {
        ReceiveRequest(received);
      } else if kind == NotificationKind {
        ReceiveNotification(received);
      } else if kind == ResponseKind {
        ReceiveResponse(received);
      }
    }

    /** The request branch: the handlers' loop, then the one response if an answer came
        (src/json_rpc/client.ts:41-51). */
    method ReceiveRequest(received: JsonValue)
      modifies this
      ensures var k := FirstDefinedIndex(requestHandlers, received);
        && invoked == old(invoked) + RequestCalls(if k < |requestHandlers| then k + 1 else k, received)
        && outbox == old(outbox) + (if k < |requestHandlers| then
             [ResponseMessageOf(IdOf(received), requestHandlers[k](received).value)] else [])
      ensures nextId == old(nextId) && pending == old(pending) && outcomes == old(outcomes)
      ensures requestHandlers == old(requestHandlers) && notifyHandlers == old(notifyHandlers)
    {
      var result, calls := TryRequestHandlers(requestHandlers, received);
      invoked := invoked + calls;
      if result.Some? {
        Send(ResponseMessageOf(IdOf(received), result.value));
      }
    }

    /** The notification branch: every handler, in order (src/json_rpc/client.ts:53-55). */
    method ReceiveNotification(received: JsonValue)
      modifies this
      ensures invoked == old(invoked) + NotifyCalls(|notifyHandlers|, received)
      ensures nextId == old(nextId) && pending == old(pending)
      ensures outbox == old(outbox) && outcomes == old(outcomes)
      ensures requestHandlers == old(requestHandlers) && notifyHandlers == old(notifyHandlers)
    {
      var calls := RunNotifyHandlers(notifyHandlers, received);
      invoked := invoked + calls;
    }

    /** The response branch (src/json_rpc/client.ts:57-66). */
    method ReceiveResponse(received: JsonValue)
      modifies this
      ensures State() == SettleStep(old(State()), received)
      ensures requestHandlers == old(requestHandlers) && notifyHandlers == old(notifyHandlers)
    {
      var key := IdKey(IdOf(received));
      if key.Some? && key.value in pending {
        var cb := pending[key.value];
        var result := Get(received, "result");
        var error := Get(received, "error");
        if result.Some? {
          outcomes := outcomes + [Resolved(cb.promise, result.value)];
        } else if error.Some? && error.value != Null {
          outcomes := outcomes + [Rejected(cb.promise, error.value)];
        }
        pending := pending - {key.value};
      }
    }
  }
}
