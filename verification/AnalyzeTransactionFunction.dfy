/** The `analyze-transaction` edge function: it asks the model to turn an
    Arabic description into a transaction and checks the reply's shape. */
module AnalyzeTransactionFunction {
  import opened Wrappers
  import opened JsonValues
  import opened Http

  /** The message every unusable model reply is reported with. */
  const ParseFailure := "Failed to parse transaction details"

  /** The inner message of a reply of the wrong shape; never sent. */
  const InvalidFormat := "Invalid response format"

  /** The reply has the shape the function promises its caller: an object
      whose `transaction` is an object with a `type` of "income" or
      "expense", a number `amount` of any sign, and non-empty `category` and
      `description`. */
  predicate TransactionReply(j: Json)
  {
    && j.JObject?
    && var t := Lookup(j.members, "transaction");
    && t.Some? && t.value.JObject?
    && var ms := t.value.members;
    && (Lookup(ms, "type") == Some(JString("income")) || Lookup(ms, "type") == Some(JString("expense")))
    && Lookup(ms, "amount").Some? && Lookup(ms, "amount").value.JNumber?
    && Truthy(Lookup(ms, "category")) && Truthy(Lookup(ms, "description"))
  }

  /** The "basic validation" inside the inner `try`, evaluated left to right:
      reading `transaction` of `null` throws, a failed test throws
      `InvalidFormat`. */
  function CheckReply(j: Json): (r: Result<Json, Fault>)
    ensures r.Success? <==> TransactionReply(j)
    ensures r.Success? ==> r.value == j
    ensures j == JNull ==> r == Failure(ReadOfNullish("transaction"))
  {
    if j == JNull then Failure(ReadOfNullish("transaction"))
    else
      var t := Get(j, "transaction");
      if !Truthy(t)
        || !(Get(t.value, "type") == Some(JString("income")) || Get(t.value, "type") == Some(JString("expense")))
        || !(Get(t.value, "amount").Some? && Get(t.value, "amount").value.JNumber?)
        || !Truthy(Get(t.value, "category"))
        || !Truthy(Get(t.value, "description"))
      then Failure(Raised(InvalidFormat))
      else Success(j)
  }

  /** The inner `try` with its `catch`: `JSON.parse` and the validation, any
      error rethrown as `ParseFailure`. */
  function ParseReply(parsed: Option<Json>): (r: Result<Json, Fault>)
    ensures r.Success? <==> parsed.Some? && TransactionReply(parsed.value)
    ensures r.Success? ==> r.value == parsed.value
    ensures r.Failure? ==> r.error == Raised(ParseFailure)
  {
    match parsed
    case None => Failure(Raised(ParseFailure))
    case Some(j) =>
      match CheckReply(j) {
        case Success(v) => Success(v)
        case Failure(_) => Failure(Raised(ParseFailure))
      }
  }

  /** The request handler. `reply` is what the model call settles to; the
      model only runs for a request that is not a preflight and whose body
      destructures. */
  function Handle(req: Request, reply: ModelReply): (r: Response)
    ensures req.verb == "OPTIONS" ==> r == Preflight
    ensures r.status == 200 || r.status == 500
    ensures r.status == 500 <==> r.body.ErrorOf?
    ensures req.verb != "OPTIONS" ==>
      (r.status == 200 <==>
        req.payload.Success? && req.payload.value != JNull
        && reply.Replied? && reply.parsed.Some? && TransactionReply(reply.parsed.value))
    ensures req.verb != "OPTIONS" && r.status == 200 ==> r.body == Data(reply.parsed.value)
  {
    if req.verb == "OPTIONS" then Preflight
    else
      match req.payload
      case Failure(m) => ErrorResponse(Foreign(m))
      case Success(body) =>
        if body == JNull then ErrorResponse(NullDestructure)
        else
          match reply
          case Threw(m) => ErrorResponse(Foreign(m))
          case Replied(parsed) =>
            match ParseReply(parsed) {
              case Success(v) => Response(200, Data(v))
              case Failure(f) => ErrorResponse(f)
            }
  }

  /** A reply that is not JSON and a JSON reply of the wrong shape get the
      same response: status 500 with `ParseFailure`. */
  lemma UnparseableLikeInvalid(req: Request, j: Json)
    requires req.verb != "OPTIONS" && req.payload.Success? && req.payload.value != JNull
    requires !TransactionReply(j)
    ensures Handle(req, Replied(None)) == Handle(req, Replied(Some(j))) == ErrorResponse(Raised(ParseFailure))
  {
  }

  /** A reply with the given transaction type and amount. */
  function ReplyWith(kind: Json, amount: Json): Json
  {
    JObject([Member("transaction", JObject(FieldsWith(kind, amount)))])
  }

  function FieldsWith(kind: Json, amount: Json): seq<Member>
  {
    [Member("type", kind), Member("amount", amount), Member("category", JString("Shopping")), Member("description", JString("x"))]
  }

  lemma ReplyWithFields(kind: Json, amount: Json)
    ensures var ms := FieldsWith(kind, amount);
      && Lookup(ReplyWith(kind, amount).members, "transaction") == Some(JObject(ms))
      && Lookup(ms, "type") == Some(kind) && Lookup(ms, "amount") == Some(amount)
      && Truthy(Lookup(ms, "category")) && Truthy(Lookup(ms, "description"))
  {
    var ms := FieldsWith(kind, amount);
    assert ms[3..] == [Member("description", JString("x"))];
    assert ms[2..] == [Member("category", JString("Shopping"))] + ms[3..];
    assert ms[1..] == [Member("amount", amount)] + ms[2..];
    assert Lookup(ms[3..], "description") == Some(JString("x"));
    assert Lookup(ms[2..], "category") == Some(JString("Shopping"));
    assert "category" != "description";
    assert Lookup(ms[2..], "description") == Some(JString("x"));
    assert "amount" != "category" && "amount" != "description";
    assert Lookup(ms[1..], "category") == Some(JString("Shopping"));
    assert Lookup(ms[1..], "description") == Some(JString("x"));
    assert "type" != "amount" && "type" != "category" && "type" != "description";
  }

  /** Of the replies built by `ReplyWith`, exactly those with a known type
      and a number amount pass. */
  lemma ReplyWithAccepted(kind: Json, amount: Json)
    ensures TransactionReply(ReplyWith(kind, amount)) <==>
      (kind == JString("income") || kind == JString("expense")) && amount.JNumber?
  {
    ReplyWithFields(kind, amount);
  }

  /** The sign of the amount is not checked: zero and negative amounts pass,
      while an amount written as a string, or an unknown type, does not. */
  lemma AmountSignNotChecked()
    ensures TransactionReply(ReplyWith(JString("expense"), JNumber(0)))
    ensures TransactionReply(ReplyWith(JString("income"), JNumber(-50)))
    ensures !TransactionReply(ReplyWith(JString("expense"), JString("50")))
    ensures !TransactionReply(ReplyWith(JString("transfer"), JNumber(50)))
  {
    ReplyWithAccepted(JString("expense"), JNumber(0));
    ReplyWithAccepted(JString("income"), JNumber(-50));
    ReplyWithAccepted(JString("expense"), JString("50"));
    ReplyWithAccepted(JString("transfer"), JNumber(50));
    assert "transfer" != "income" && "transfer" != "expense";
  }
}
