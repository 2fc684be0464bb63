/** The `ai-finance` edge function: it dispatches on the request's `action`,
    asks the model to analyse a transaction description, and checks that
    the reply names every required field. */
module AiFinanceFunction {
  import opened Wrappers
  import opened JsonValues
  import opened Http

  /** The keys the model's reply must have, in the order they are checked. */
  const RequiredFields: seq<string> := ["type", "amount", "category", "description", "analysis"]

  const InvalidAction := "Invalid action"
  const InvalidFormat := "Invalid AI response format"

  /** The start of the inner missing-fields message. */
  const MissingPrefix := "Missing required fields: "

  /** The action strings the handler accepts. */
  predicate KnownAction(action: Option<Json>)
  {
    action == Some(JString("analyze")) || action == Some(JString("process"))
  }

  /** The text to analyse: `data.text || data.description` for "analyze"
      (reading from a missing or `null` `data` throws), `data` itself for
      "process". */
  function Description(action: Option<Json>, data: Option<Json>): (r: Result<Option<Json>, Fault>)
    requires KnownAction(action)
    ensures action == Some(JString("process")) ==> r == Success(data)
    ensures action == Some(JString("analyze")) ==>
      (r.Failure? <==> data == None || data == Some(JNull))
    ensures action == Some(JString("analyze")) && data.Some? && data.value.JObject? ==>
      var text := Lookup(data.value.members, "text");
      r == Success(if Truthy(text) then text else Lookup(data.value.members, "description"))
    ensures action == Some(JString("analyze")) && data.Some? && !data.value.JObject? && data.value != JNull ==>
      r == Success(None)
  {
    if action == Some(JString("process")) then Success(data)
    else if data == None || data == Some(JNull) then Failure(ReadOfNullish("text"))
    else
      var text := Get(data.value, "text");
      Success(if Truthy(text) then text else Get(data.value, "description"))
  }

  /** `[key]` when `key in v` is false, else `[]`. */
  function MissingOne(key: string, v: Json): seq<string>
    requires v.JObject? || v.JArray?
  {
    if Has(v, key) == Some(false) then [key] else []
  }

  /** `keys.filter(field => !(field in v))` on an object or array. */
  function MissingAmong(keys: seq<string>, v: Json): (r: seq<string>)
    requires v.JObject? || v.JArray?
    ensures forall k :: k in r <==> k in keys && Has(v, k) == Some(false)
    ensures |r| <= |keys|
  {
    if keys == [] then [] else MissingOne(keys[0], v) + MissingAmong(keys[1..], v)
  }

  /** The filter keeps the order of `keys`: filtering a concatenation is
      the concatenation of the filtered parts. */
  lemma {:induction false} MissingAmongAppend(a: seq<string>, b: seq<string>, v: Json)
    requires v.JObject? || v.JArray?
    ensures MissingAmong(a + b, v) == MissingAmong(a, v) + MissingAmong(b, v)
  {
    if a == [] {
      assert a + b == b;
    } else {
      assert (a + b)[0] == a[0] && (a + b)[1..] == a[1..] + b;
      MissingAmongAppend(a[1..], b, v);
      var h := MissingOne(a[0], v);
      assert h + (MissingAmong(a[1..], v) + MissingAmong(b, v)) == (h + MissingAmong(a[1..], v)) + MissingAmong(b, v);
    }
  }

  /** A value that has every key misses none. */
  lemma {:induction false} NothingMissing(keys: seq<string>, v: Json)
    requires v.JObject? || v.JArray?
    requires forall k :: k in keys ==> Has(v, k) == Some(true)
    ensures MissingAmong(keys, v) == []
  {
    if keys != [] {
      assert keys[0] in keys;
      NothingMissing(keys[1..], v);
    }
  }

  /** `missingFields`: the required keys the reply lacks, or the
      `TypeError` of `in` on a reply that is not an object. */
  function MissingFields(j: Json): (r: Result<seq<string>, Fault>)
    ensures r.Failure? <==> !(j.JObject? || j.JArray?)
    ensures r.Success? ==> r.value == MissingAmong(RequiredFields, j)
    ensures r.Failure? ==> r.error == InOnPrimitive("type")
  {
    if j.JObject? || j.JArray? then Success(MissingAmong(RequiredFields, j)) else Failure(InOnPrimitive("type"))
  }

  /** `keys.join(sep)` */
  function Join(keys: seq<string>, sep: string): string
  {
    if keys == [] then "" else if |keys| == 1 then keys[0] else keys[0] + sep + Join(keys[1..], sep)
  }

  /** The required-field check on a parsed reply: it throws the `TypeError`
      of `in`, or an error naming the missing keys. */
  function ValidateReply(j: Json): (r: Result<Json, Fault>)
    ensures r.Success? <==> j.JObject? && forall k :: k in RequiredFields ==> Lookup(j.members, k).Some?
    ensures r.Success? ==> r.value == j
    ensures (j.JObject? || j.JArray?) && r.Failure? ==>
      r.error == Raised(MissingPrefix + Join(MissingAmong(RequiredFields, j), ", "))
  {
    match MissingFields(j)
    case Failure(f) => Failure(f)
    case Success(missing) =>
      assert j.JArray? ==> "type" in missing;
      assert |missing| > 0 ==> missing[0] in missing;
      if |missing| > 0 then Failure(Raised(MissingPrefix + Join(missing, ", "))) else Success(j)
  }

  /** The inner `try` with its `catch`: `JSON.parse` and the validation,
      every error rethrown as `InvalidFormat`. */
  function CheckReply(parsed: Option<Json>): (r: Result<Json, Fault>)
    ensures r.Success? <==> parsed.Some? && ValidateReply(parsed.value).Success?
    ensures r.Success? ==> r.value == parsed.value
    ensures r.Failure? ==> r.error == Raised(InvalidFormat)
  {
    match parsed
    case None => Failure(Raised(InvalidFormat))
    case Some(j) =>
      match ValidateReply(j) {
        case Success(v) => Success(v)
        case Failure(_) => Failure(Raised(InvalidFormat))
      }
  }

  /** The success body: the reply encoded as a JSON string inside
      `{ "result": ... }`, so a client must decode twice. */
  function ResultBody(j: Json): Body
  {
    Data(JObject([Member("result", JString(Stringify(j)))]))
  }

  /** The `result` member holds the reply's own JSON text as a string
      literal, and reading that literal back gives the text unchanged. */
  lemma ResultIsEncodedReply(j: Json)
    ensures Lookup(ResultBody(j).value.members, "result") == Some(JString(Stringify(j)))
    ensures Stringify(JString(Stringify(j))) == "\"" + Escaped(Stringify(j)) + "\""
    ensures Unescaped(Escaped(Stringify(j))) == Some(Stringify(j))
  {
    UnescapeEscaped(Stringify(j));
  }

  /** The handler with the model client in scope. `reply` is what the model
      call settles to; it runs only for a known action whose description
      could be read. */
  function Handle(req: Request, reply: ModelReply): (r: Response)
    ensures req.verb == "OPTIONS" ==> r == Preflight
    ensures r.status == 200 || r.status == 500
    ensures r.status == 500 <==> r.body.ErrorOf?
    ensures req.verb != "OPTIONS" ==>
      (r.status == 200 <==>
        && req.payload.Success? && req.payload.value != JNull
        && KnownAction(Get(req.payload.value, "action"))
        && Description(Get(req.payload.value, "action"), Get(req.payload.value, "data")).Success?
        && reply.Replied? && CheckReply(reply.parsed).Success?)
    ensures req.verb != "OPTIONS" && r.status == 200 ==> r.body == ResultBody(reply.parsed.value)
    ensures (req.verb != "OPTIONS" && req.payload.Success? && req.payload.value != JNull
      && !KnownAction(Get(req.payload.value, "action"))) ==> r == ErrorResponse(Raised(InvalidAction))
  {
    if req.verb == "OPTIONS" then Preflight
    else
      match req.payload
      case Failure(m) => ErrorResponse(Foreign(m))
      case Success(body) =>
        if body == JNull then ErrorResponse(NullDestructure)
        else
          var action, data := Get(body, "action"), Get(body, "data");
          if !KnownAction(action) then ErrorResponse(Raised(InvalidAction))
          else
            match Description(action, data) {
              case Failure(f) => ErrorResponse(f)
              case Success(_) =>
                match reply {
                  case Threw(m) => ErrorResponse(Foreign(m))
                  case Replied(parsed) =>
                    match CheckReply(parsed) {
                      case Success(j) => Response(200, ResultBody(j))
                      case Failure(f) => ErrorResponse(f)
                    }
                }
            }
  }

  /** The handler as written: `GoogleGenerativeAI` is never imported, so
      constructing the client throws a `ReferenceError` once the body has
      been destructured. */
  function HandleAsWritten(req: Request, reply: ModelReply): (r: Response)
    ensures req.verb == "OPTIONS" ==> r == Preflight
    ensures req.verb != "OPTIONS" && req.payload.Success? && req.payload.value != JNull ==>
      r == ErrorResponse(NotDefined("GoogleGenerativeAI"))
  {
    if req.verb == "OPTIONS" then Preflight
    else
      match req.payload
      case Failure(m) => ErrorResponse(Foreign(m))
      case Success(body) =>
        if body == JNull then ErrorResponse(NullDestructure)
        else ErrorResponse(NotDefined("GoogleGenerativeAI"))
  }

  /** As written, every request but a preflight fails with status 500,
      whatever the model would reply. */
  lemma AsWrittenAlwaysFails(req: Request, reply: ModelReply)
    requires req.verb != "OPTIONS"
    ensures HandleAsWritten(req, reply).status == 500
  {
  }

  /** A "process" request with a complete model reply fails as written and
      succeeds once the client is in scope. */
  lemma MissingImportShows(body: Json, j: Json)
    requires body.JObject? && Lookup(body.members, "action") == Some(JString("process"))
    requires ValidateReply(j).Success?
    ensures HandleAsWritten(Request("POST", Success(body)), Replied(Some(j))) == ErrorResponse(NotDefined("GoogleGenerativeAI"))
    ensures Handle(Request("POST", Success(body)), Replied(Some(j))) == Response(200, ResultBody(j))
  {
  }

  /** The missing-fields message is built, then replaced by the `catch`:
      a reply lacking only `analysis` is reported as `InvalidFormat`. */
  lemma MissingMessageReplaced(j: Json)
    requires j.JObject? && Lookup(j.members, "analysis") == None
    requires forall k :: k in RequiredFields[..4] ==> Lookup(j.members, k).Some?
    ensures ValidateReply(j) == Failure(Raised(MissingPrefix + "analysis"))
    ensures CheckReply(Some(j)) == Failure(Raised(InvalidFormat))
  {
    var rf := RequiredFields;
    assert rf == rf[..4] + rf[4..];
    MissingAmongAppend(rf[..4], rf[4..], j);
    NothingMissing(rf[..4], j);
    assert MissingAmong(rf[4..], j) == ["analysis"];
    assert Join(["analysis"], ", ") == "analysis";
  }

  /** Any other action fails with "Invalid action", before the model runs. */
  lemma UnknownActionRejected(body: Json, reply: ModelReply)
    requires body.JObject? && Lookup(body.members, "action") == Some(JString("summarize"))
    ensures Handle(Request("POST", Success(body)), reply) == ErrorResponse(Raised(InvalidAction))
  {
    assert "summarize" != "analyze" && "summarize" != "process";
  }
}
