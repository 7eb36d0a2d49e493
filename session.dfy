/** The LSP session object, `Client` of src/client.ts: per-method handler registries layered
    over the engine's two handler lists, a guard on outgoing `params`, and the `initialize`
    and `textDocument/didOpen` messages.

    The session pushes one request dispatcher and one notification dispatcher into the engine
    when it is built; each looks up the handlers registered under the inbound message's
    `method` when it runs. A Dafny function value cannot read the registry as it stands at
    call time, so every subscription installs the dispatcher over the new registry, and
    `Client.Valid()` states that the engine's only request handler is always the dispatcher
    over the current registry: the behaviour of the live lookup. */
module Session {
  import opened Wrappers
  import opened Json
  import opened Message
  import opened Handlers
  import Rpc

  /** A per-method request handler receives `msg.params`, which may be `undefined`. */
  type RequestHandler = Option<JsonValue> -> Option<JsonValue>
  /** A per-method notification handler; its effects are outside the model. */
  type NotifyHandler = Option<JsonValue> -> ()

  /** `registry[name] ?? []`. */
  function Lookup<H>(registry: map<string, seq<H>>, name: string): seq<H> {
    if name in registry then registry[name] else []
  }

  /** The registry after `subscribe…(name, h)`: a new list, the old one with `h` at its end. */
  function Subscribed<H>(registry: map<string, seq<H>>, name: string, h: H): map<string, seq<H>> {
    registry[name := Lookup(registry, name) + [h]]
  }

  /** Subscribing appends to the named list alone: every other method's list is unchanged
      (src/client.ts:79-97). */
  lemma SubscribeAppends<H>(registry: map<string, seq<H>>, name: string, h: H)
    ensures Lookup(Subscribed(registry, name, h), name) == Lookup(registry, name) + [h]
    ensures forall other :: other != name ==>
      Lookup(Subscribed(registry, name, h), other) == Lookup(registry, other)
  {
  }

  /** `msg.method` of a message the engine hands to a dispatcher (always a string there). */
  function MethodOf(msg: JsonValue): string {
    match Get(msg, "method")
    case Some(Str(s)) => s
    case _ => ""
  }

  /** `msg.params`. */
  function ParamsOf(msg: JsonValue): Option<JsonValue> {
    Get(msg, "params")
  }

  /** The request dispatcher pushed into the engine (src/client.ts:16-23), over a registry:
      the first defined answer of the handlers registered under `msg.method`, on `msg.params`. */
  function RequestDispatcher(registry: map<string, seq<RequestHandler>>): Rpc.RequestHandler {
    (msg: JsonValue) => FirstDefined(Lookup(registry, MethodOf(msg)), ParamsOf(msg))
  }

  /** The notification dispatcher pushed into the engine (src/client.ts:24-28). To the engine it
      is one handler returning nothing, whatever the registry: the registry is read only by
      `Client.DispatchNotify`, whose result is the per-method calls the closure makes. The
      parameter keeps the installed handler's shape parallel to `RequestDispatcher`. */
  function NotifyDispatcher(registry: map<string, seq<NotifyHandler>>): Rpc.NotifyHandler {
    (msg: JsonValue) => ()
  }

  /** One call of a per-method handler: the method it is registered under, its position in
      that method's list, and the `params` it received. */
  datatype HandlerCall = HandlerCall(name: string, index: nat, params: Option<JsonValue>)

  /** The calls of the first `n` handlers registered under `name`, in order, on `params`. */
  function MethodCalls(name: string, n: nat, params: Option<JsonValue>): (calls: seq<HandlerCall>)
    ensures |calls| == n
    ensures forall i :: 0 <= i < n ==> calls[i] == HandlerCall(name, i, params)
  {
    if n == 0 then [] else MethodCalls(name, n - 1, params) + [HandlerCall(name, n - 1, params)]
  }

  /** The guard `assert(params, is.UnionOf([is.Array, is.Record]))`: an array or an object.
      An absent `params` fails it too. */
  predicate IsParams(params: Option<JsonValue>) {
    params.Some? && (params.value.Arr? || params.value.Obj?)
  }

  /** The error the guard throws. */
  datatype GuardError = ParamsNotArrayOrObject

  // ---------------------------------------------------------------------------------------
  // languageId: path.replace(/.*\./, "")

  /** The characters JavaScript's `.` does not match. */
  predicate IsLineTerminator(c: char) {
    c == '\n' || c == '\r' || c == '\U{2028}' || c == '\U{2029}'
  }

  /** The end of the first line: the index of the first line terminator, or `|s|`. */
  function LineEnd(s: string): (n: nat)
    ensures n <= |s|
    ensures forall i :: 0 <= i < n ==> !IsLineTerminator(s[i])
    ensures n < |s| ==> IsLineTerminator(s[n])
  {
    if |s| == 0 || IsLineTerminator(s[0]) then 0 else 1 + LineEnd(s[1..])
  }

  /** The index of the last '.' in `s`, if there is one. */
  function LastDot(s: string): (d: Option<nat>)
    ensures d.Some? ==> d.value < |s| && s[d.value] == '.'
                        && forall j :: d.value < j < |s| ==> s[j] != '.'
    ensures d.None? ==> forall j :: 0 <= j < |s| ==> s[j] != '.'
  {
    if |s| == 0 then None
    else if s[|s| - 1] == '.' then Some(|s| - 1)
    else LastDot(s[..|s| - 1])
  }

  /** `path.replace(/.*\./, "")`. The leftmost match starts at the beginning of the first line
      that holds a '.', and the greedy `.*` runs to that line's last '.': that many characters
      go, and everything else stays. A path with no '.' is unchanged. */
  function StripThroughLastDot(path: string): string
    decreases |path|
  {
    var n := LineEnd(path);
    match LastDot(path[..n])
    case Some(d) => path[d + 1..]
    case None => if n == |path| then path else path[..n + 1] + StripThroughLastDot(path[n + 1..])
  }

  /** The language id `open` derives (src/client.ts:47-49). */
  function LanguageId(path: string): string {
    StripThroughLastDot(path)
  }

  /** On a one-line path the derived id is the part after the last '.', or the whole path
      when it has none: a suffix of the path, free of '.', preceded by a '.' whenever the path
      has one. */
  lemma LanguageIdIsExtension(path: string)
    requires forall i :: 0 <= i < |path| ==> !IsLineTerminator(path[i])
    ensures var id := LanguageId(path);
      && |id| <= |path| && path[|path| - |id|..] == id
      && (forall j :: 0 <= j < |id| ==> id[j] != '.')
      && ((exists j :: 0 <= j < |path| && path[j] == '.') ==>
            |id| < |path| && path[|path| - |id| - 1] == '.')
      && ((forall j :: 0 <= j < |path| ==> path[j] != '.') ==> id == path)
  {
    var n := LineEnd(path);
    assert n == |path|;
    assert path[..n] == path;
    match LastDot(path) {
      case Some(d) =>
        assert LanguageId(path) == path[d + 1..];
      case None =>
    }
  }

  /** On a path of several lines only the first line holding a '.' is cut, so the derived
      id may still hold a '.': the one-line condition above is needed. */
  lemma LanguageIdOfTwoLines()
    ensures LanguageId("a.b\nc.d") == "b\nc.d"
  {
    var p := "a.b\nc.d";
    assert LineEnd(p[3..]) == 0;
    assert LineEnd(p) == 3;
    assert p[..3] == "a.b";
    assert LastDot("a.b") == Some(1);
  }

  // ---------------------------------------------------------------------------------------
  // The parameters the session builds

  /** The `DidOpenTextDocumentParams` of `open` (src/client.ts:52-59). */
  function DidOpenParams(uri: string, languageId: string, text: string): (p: JsonValue)
    ensures IsParams(Some(p)) && p.Obj? && p.fields.Keys == {"textDocument"}
    ensures Get(p, "textDocument").Some? && IsRecord(Get(p, "textDocument"))
    ensures Get(Get(p, "textDocument").value, "version") == Some(Num(1))
    ensures Get(Get(p, "textDocument").value, "languageId") == Some(Str(languageId))
    ensures Get(Get(p, "textDocument").value, "uri") == Some(Str(uri))
    ensures Get(Get(p, "textDocument").value, "text") == Some(Str(text))
    ensures Get(p, "textDocument").value.fields.Keys == {"uri", "languageId", "version", "text"}
  {
    Obj(map["textDocument" := Obj(map[
      "uri" := Str(uri), "languageId" := Str(languageId), "version" := Num(1), "text" := Str(text)])])
  }

  /** The `initialize` parameters (src/client.ts:34-38). */
  function InitializeParams(): (p: JsonValue)
    ensures IsParams(Some(p)) && p.Obj? && p.fields.Keys == {"processId", "rootUri", "capabilities"}
    ensures Get(p, "processId") == Some(Null) && Get(p, "rootUri") == Some(Null)
    ensures Get(p, "capabilities") == Some(Obj(map[]))
  {
    Obj(map["processId" := Null, "rootUri" := Null, "capabilities" := Obj(map[])])
  }

  /** Whether the promise was fulfilled: what `await` needs before it continues. */
  predicate IsResolved(outcomes: seq<Rpc.Outcome>, promise: nat) {
    exists i :: 0 <= i < |outcomes| && outcomes[i].Resolved? && outcomes[i].promise == promise
  }

  /** Through the engine, an inbound request is answered exactly when some handler registered
      under its method answers, and then with the first such answer; the request id is kept. */
  lemma SessionAnswersRequest(e: Rpc.Engine, registry: map<string, seq<RequestHandler>>,
                              nh: seq<Rpc.NotifyHandler>, msg: JsonValue)
    requires IsRequestMessage(msg)
    ensures var e' := Rpc.InboundStep(e, [RequestDispatcher(registry)], nh, msg);
      var answer := FirstDefined(Lookup(registry, MethodOf(msg)), ParamsOf(msg));
      && (answer.Some? ==> e'.outbox == e.outbox + [Rpc.ResponseMessageOf(Get(msg, "id").value, answer.value)])
      && (answer.None? ==> e'.outbox == e.outbox)
      && e'.pending == e.pending && e'.outcomes == e.outcomes
  {
    var hs := [RequestDispatcher(registry)];
    if hs[0](msg).Some? {
      Rpc.RequestAnsweredOnce(e, hs, nh, msg, 0);
    } else {
      Rpc.RequestUnansweredWritesNothing(e, hs, nh, msg);
    }
  }

  // ---------------------------------------------------------------------------------------
  // The class

  class Client {
    var rpc: Rpc.JsonRpcClient
    var requestHandlers: map<string, seq<RequestHandler>>
    var notifyHandlers: map<string, seq<NotifyHandler>>

    ghost predicate Valid()
      reads this, rpc
    {
      && rpc.Valid()
      && rpc.requestHandlers == [RequestDispatcher(requestHandlers)]
      && rpc.notifyHandlers == [NotifyDispatcher(notifyHandlers)]
    }

    /** A new session over a new engine, with the two dispatchers pushed into it
        (src/client.ts:13-29). */
    constructor ()
      ensures Valid() && fresh(rpc)
      ensures rpc.State() == Rpc.Initial
      ensures requestHandlers == map[] && notifyHandlers == map[]
    {
      rpc := new Rpc.JsonRpcClient();
      requestHandlers := map[];
      notifyHandlers := map[];
      new;
      rpc.requestHandlers := rpc.requestHandlers + [RequestDispatcher(requestHandlers)];
      rpc.notifyHandlers := rpc.notifyHandlers + [NotifyDispatcher(notifyHandlers)];
    }

    /** The body of the request dispatcher closure: the handlers under `msg.method`, in order,
        each on `msg.params`, until one answers (src/client.ts:16-23). It returns the closure's
        value and the calls it made. */
    method DispatchRequest(msg: JsonValue) returns (result: Option<JsonValue>, calls: seq<HandlerCall>)
      ensures result == RequestDispatcher(requestHandlers)(msg)
      ensures var hs := Lookup(requestHandlers, MethodOf(msg));
        var k := FirstDefinedIndex(hs, ParamsOf(msg));
        && result == (if k < |hs| then hs[k](ParamsOf(msg)) else None)
        && calls == MethodCalls(MethodOf(msg), if k < |hs| then k + 1 else |hs|, ParamsOf(msg))
    {
      var name, params := MethodOf(msg), ParamsOf(msg);
      var hs := Lookup(requestHandlers, name);
      calls := [];
      var i := 0;
      while i < |hs|
        invariant 0 <= i <= |hs|
        invariant forall j :: 0 <= j < i ==> hs[j](params).None?
        invariant calls == MethodCalls(name, i, params)
      {
        var r := hs[i](params);
        calls := calls + [HandlerCall(name, i, params)];
        if r.Some? {
          FirstDefinedIndexIs(hs, params, i);
          return r, calls;
        }
        i := i + 1;
      }
      FirstDefinedIndexIs(hs, params, i);
      result := None;
    }

    /** The body of the notification dispatcher closure: every handler under `msg.method`, in
        order, on `msg.params` (src/client.ts:24-28). It returns the calls it made. */
    method DispatchNotify(msg: JsonValue) returns (calls: seq<HandlerCall>)
      ensures calls == MethodCalls(MethodOf(msg), |Lookup(notifyHandlers, MethodOf(msg))|, ParamsOf(msg))
    {
      var name, params := MethodOf(msg), ParamsOf(msg);
      var hs := Lookup(notifyHandlers, name);
      calls := [];
      for i := 0 to |hs|
        invariant calls == MethodCalls(name, i, params)
      {
        var _ := hs[i](params);
        calls := calls + [HandlerCall(name, i, params)];
      }
    }

    method SubscribeRequest(name: string, h: RequestHandler)
      requires Valid()
      modifies this, rpc
      ensures Valid() && rpc == old(rpc)
      ensures requestHandlers == Subscribed(old(requestHandlers), name, h)
      ensures notifyHandlers == old(notifyHandlers)
      ensures rpc.State() == old(rpc.State())
    {
      requestHandlers := Subscribed(requestHandlers, name, h);
      rpc.requestHandlers := [RequestDispatcher(requestHandlers)];
    }

    method SubscribeNotify(name: string, h: NotifyHandler)
      requires Valid()
      modifies this, rpc
      ensures Valid() && rpc == old(rpc)
      ensures notifyHandlers == Subscribed(old(notifyHandlers), name, h)
      ensures requestHandlers == old(requestHandlers)
      ensures rpc.State() == old(rpc.State())
    {
      notifyHandlers := Subscribed(notifyHandlers, name, h);
      rpc.notifyHandlers := [NotifyDispatcher(notifyHandlers)];
    }

    /** `request`: the guard, then the engine's `request` (src/client.ts:63-69). A failed guard
        writes nothing. */
    method Request(name: string, params: Option<JsonValue>) returns (r: Result<nat, GuardError>)
      requires Valid()
      modifies rpc
      ensures Valid()
      ensures IsParams(params) ==> r.Ok? && (rpc.State(), r.value) == Rpc.RequestStep(old(rpc.State()), name, params)
      ensures !IsParams(params) ==> r == Err(ParamsNotArrayOrObject) && rpc.State() == old(rpc.State())
    {
      if !IsParams(params) {
        return Err(ParamsNotArrayOrObject);
      }
      var promise := rpc.Request(name, params);
      r := Ok(promise);
    }

    /** `notify`: the guard, then the engine's `notify` (src/client.ts:71-77). */
    method Notify(name: string, params: Option<JsonValue>) returns (r: Result<(), GuardError>)
      requires Valid()
      modifies rpc
      ensures Valid()
      ensures IsParams(params) ==> r.Ok? && rpc.State() == Rpc.NotifyStep(old(rpc.State()), name, params)
      ensures !IsParams(params) ==> r == Err(ParamsNotArrayOrObject) && rpc.State() == old(rpc.State())
    {
      if !IsParams(params) {
        return Err(ParamsNotArrayOrObject);
      }
      rpc.Notify(name, params);
      r := Ok(());
    }

    /** `open`: one `textDocument/didOpen` notification with version 1 and the given or derived
        language id (src/client.ts:43-61). The file's URL and text are inputs. */
    method Open(path: string, languageId: Option<string>, uri: string, text: string)
      requires Valid()
      modifies rpc
      ensures Valid()
      ensures var id := if languageId.Some? then languageId.value else LanguageId(path);
        rpc.State() == Rpc.NotifyStep(old(rpc.State()), "textDocument/didOpen", Some(DidOpenParams(uri, id, text)))
    {
      var id := if languageId.Some? then languageId.value else LanguageId(path);
      var params := DidOpenParams(uri, id, text);
      var _ := Notify("textDocument/didOpen", Some(params));
    }

    /** The first half of `initialize`: the `initialize` request (src/client.ts:32-39). It
        returns the promise the second half waits for. */
    method BeginInitialize() returns (promise: nat)
      requires Valid()
      modifies rpc
      ensures Valid()
      ensures (rpc.State(), promise) == Rpc.RequestStep(old(rpc.State()), "initialize", Some(InitializeParams()))
    {
      var r := Request("initialize", Some(InitializeParams()));
      promise := r.value;
    }

    /** The second half of `initialize`: once the promise is fulfilled, the `initialized`
        notification with `{}` (src/client.ts:40). While it is pending, or when it was
        rejected, nothing is sent. */
    method FinishInitialize(promise: nat) returns (sent: bool)
      requires Valid()
      modifies rpc
      ensures Valid()
      ensures sent == IsResolved(old(rpc.outcomes), promise)
      ensures sent ==> rpc.State() == Rpc.NotifyStep(old(rpc.State()), "initialized", Some(Obj(map[])))
      ensures !sent ==> rpc.State() == old(rpc.State())
    {
      sent := IsResolved(rpc.outcomes, promise);
      if sent {
        var _ := Notify("initialized", Some(Obj(map[])));
      }
    }
  }

  /** The handshake end to end, on the engine's state: from a fresh engine, `initialize` is
      request 1; once the server answers it with any result its promise is fulfilled, so the
      second half of `initialize` sends `initialized`, and these two are all that is written. */
  lemma InitializeHandshake(rh: seq<Rpc.RequestHandler>, nh: seq<Rpc.NotifyHandler>, result: JsonValue)
    ensures var (e1, promise) := Rpc.RequestStep(Rpc.Initial, "initialize", Some(InitializeParams()));
      var e2 := Rpc.InboundStep(e1, rh, nh, Rpc.ResponseMessageOf(Num(promise), result));
      var e3 := Rpc.NotifyStep(e2, "initialized", Some(Obj(map[])));
      && promise == 1
      && IsResolved(e2.outcomes, promise)
      && e3.outbox == [Rpc.RequestMessageOf(1, "initialize", Some(InitializeParams())),
                       Rpc.NotificationMessageOf("initialized", Some(Obj(map[])))]
  {
    Rpc.ResponseResolvesItsRequest(Rpc.Initial, rh, nh, "initialize", Some(InitializeParams()), result);
    var (e1, promise) := Rpc.RequestStep(Rpc.Initial, "initialize", Some(InitializeParams()));
    var e2 := Rpc.InboundStep(e1, rh, nh, Rpc.ResponseMessageOf(Num(promise), result));
    assert e2.outcomes[0] == Rpc.Resolved(promise, result);
  }
}
