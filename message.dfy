/** The message shapes of JSON-RPC 2.0 (sections 4, 4.1, 5 and 5.1 of the JSON-RPC 2.0
    specification, as the LSP 3.17 specification cites them), written as the structural
    predicates of src/json_rpc/message.ts. Each predicate looks at a property that may be
    `undefined`, so the elementary tests take an `Option<JsonValue>`. Objects may carry keys
    the predicates do not mention: the checks are not strict. */
module Message {
  import opened Wrappers
  import opened Json

  // The elementary type tests, applied to a possibly absent property.

  predicate IsNumber(x: Option<JsonValue>) { x.Some? && x.value.Num? }
  predicate IsString(x: Option<JsonValue>) { x.Some? && x.value.Str? }
  predicate IsBoolean(x: Option<JsonValue>) { x.Some? && x.value.Bool? }
  predicate IsArray(x: Option<JsonValue>) { x.Some? && x.value.Arr? }
  /** A record is an object that is not an array (and not `null`). */
  predicate IsRecord(x: Option<JsonValue>) { x.Some? && x.value.Obj? }
  predicate IsNull(x: Option<JsonValue>) { x == Some(Null) }

  /** `params`: absent, or an array or an object. */
  predicate IsOptionalParams(x: Option<JsonValue>) { x.None? || IsArray(x) || IsRecord(x) }

  /** The union used for `result` and for an error's `data`: any of the six JSON kinds. */
  predicate IsAnyJson(x: Option<JsonValue>) {
    IsString(x) || IsNumber(x) || IsBoolean(x) || IsArray(x) || IsRecord(x) || IsNull(x)
  }

  /** The abstract message: an object whose `jsonrpc` is exactly the string "2.0". */
  predicate IsMessage(v: JsonValue) {
    v.Obj? && Get(v, "jsonrpc") == Some(Str("2.0"))
  }

  predicate IsRequestMessage(v: JsonValue) {
    && IsMessage(v)
    && v.Obj?
    && (IsNumber(Get(v, "id")) || IsString(Get(v, "id")))
    && IsString(Get(v, "method"))
    && IsOptionalParams(Get(v, "params"))
  }

  predicate IsResponseError(v: JsonValue) {
    && v.Obj?
    && IsNumber(Get(v, "code"))
    && IsString(Get(v, "message"))
    && (Get(v, "data").None? || IsAnyJson(Get(v, "data")))
  }

  predicate IsResponseMessage(v: JsonValue) {
    && IsMessage(v)
    && v.Obj?
    && (IsNumber(Get(v, "id")) || IsString(Get(v, "id")) || IsNull(Get(v, "id")))
    && (Get(v, "result").None? || IsAnyJson(Get(v, "result")))
    && (Get(v, "error").None? || IsResponseError(Get(v, "error").value))
  }

  predicate IsNotificationMessage(v: JsonValue) {
    && IsMessage(v)
    && v.Obj?
    && IsString(Get(v, "method"))
    && IsOptionalParams(Get(v, "params"))
  }

  // ---------------------------------------------------------------------------------------
  // Properties of the shapes

  /** A request is exactly an object with the "2.0" tag, a numeric or string `id`, a string
      `method`, and a `params` that is absent or an array or an object. */
  lemma RequestMessageIff(v: JsonValue)
    ensures IsRequestMessage(v) <==>
      && v.Obj?
      && "jsonrpc" in v.fields && v.fields["jsonrpc"] == Str("2.0")
      && "id" in v.fields && (v.fields["id"].Num? || v.fields["id"].Str?)
      && "method" in v.fields && v.fields["method"].Str?
      && ("params" in v.fields ==> v.fields["params"].Arr? || v.fields["params"].Obj?)
  {
  }

  /** A response error is an object with a numeric `code` and a string `message`; `data`, when
      present, may be any JSON value, so it constrains nothing. */
  lemma ResponseErrorIff(v: JsonValue)
    ensures IsResponseError(v) <==>
      && v.Obj?
      && "code" in v.fields && v.fields["code"].Num?
      && "message" in v.fields && v.fields["message"].Str?
  {
  }

  /** Every request also has the notification shape: the notification predicate does not
      forbid an `id`. */
  lemma RequestIsNotification(v: JsonValue)
    requires IsRequestMessage(v)
    ensures IsNotificationMessage(v)
  {
  }

  /** So the two shapes overlap: some value is both a request and a notification. */
  lemma RequestAndNotificationOverlap()
    ensures exists v :: IsRequestMessage(v) && IsNotificationMessage(v)
  {
    var v := Obj(map["jsonrpc" := Str("2.0"), "id" := Num(1), "method" := Str("exit")]);
    assert Get(v, "id") == Some(Num(1));
    assert Get(v, "method") == Some(Str("exit"));
    assert IsRequestMessage(v);
  }

  /** A value whose `jsonrpc` is missing, or is anything but the string "2.0", has none of the
      shapes. */
  lemma TagRequired(v: JsonValue)
    requires Get(v, "jsonrpc") != Some(Str("2.0"))
    ensures !IsMessage(v)
    ensures !IsRequestMessage(v) && !IsNotificationMessage(v) && !IsResponseMessage(v)
  {
  }

  /** A `params` that is present but a scalar or `null` rejects both the request and the
      notification shape. */
  lemma ScalarParamsRejected(v: JsonValue)
    requires v.Obj? && "params" in v.fields
    requires v.fields["params"].Null? || v.fields["params"].Bool?
          || v.fields["params"].Num? || v.fields["params"].Str?
    ensures !IsRequestMessage(v) && !IsNotificationMessage(v)
  {
  }

  /** An `id` of `null` is no request id, but it is a response id: such a value is a response
      exactly when its `error`, if any, is well formed. */
  lemma NullIdIsResponseOnly(v: JsonValue)
    requires IsMessage(v) && Get(v, "id") == Some(Null)
    ensures !IsRequestMessage(v)
    ensures IsResponseMessage(v) <==> (Get(v, "error").None? || IsResponseError(Get(v, "error").value))
  {
  }

  /** `result` accepts every JSON value, and neither `result` nor `error` is required: the
      shape holds with both absent, with both present, or with one of them. */
  lemma ResultAndErrorOptional(v: JsonValue)
    requires IsMessage(v)
    requires IsNumber(Get(v, "id")) || IsString(Get(v, "id")) || IsNull(Get(v, "id"))
    ensures IsResponseMessage(v) <==> (Get(v, "error").None? || IsResponseError(Get(v, "error").value))
  {
  }

  /** Two concrete responses the predicate accepts: one with neither `result` nor `error`, and
      one with both. */
  lemma ResponseWithNeitherOrBoth()
    ensures IsResponseMessage(Obj(map["jsonrpc" := Str("2.0"), "id" := Num(3)]))
    ensures IsResponseMessage(Obj(map["jsonrpc" := Str("2.0"), "id" := Num(3), "result" := Null,
      "error" := Obj(map["code" := Num(-32601), "message" := Str("Method not found")])]))
  {
    var both := Obj(map["jsonrpc" := Str("2.0"), "id" := Num(3), "result" := Null,
      "error" := Obj(map["code" := Num(-32601), "message" := Str("Method not found")])]);
    assert Get(both, "error").value.fields["code"] == Num(-32601);
    assert Get(both, "error").value.fields["message"] == Str("Method not found");
  }

  /** A present `error` without a numeric `code` or without a string `message` rejects the
      response shape. */
  lemma MalformedErrorRejected(v: JsonValue)
    requires Get(v, "error").Some?
    requires !IsNumber(Get(Get(v, "error").value, "code")) || !IsString(Get(Get(v, "error").value, "message"))
    ensures !IsResponseMessage(v)
  {
  }
}
