/**
 * The Paddle payment webhook: an early-return ladder that checks the secret,
 * the `paddle-signature` header, the body and the HMAC-SHA256 signature,
 * classifies the event, extracts the customer and price ids, and credits the
 * `user_credits` table by reading a row and then updating or inserting it.
 */
module PaddleWebhook {
  import opened JsValue

  /** The amount credited when the price id has no entry in the credit table. */
  const DefaultCredits: nat := 5

  /** The amount the single configured price id is worth. */
  const ConfiguredPriceCredits: nat := 5

  /** The event types that reach the ledger. */
  const HandledEventTypes: set<string> :=
    {"subscription.created", "subscription.updated", "transaction.completed"}

  /** The process environment: `PADDLE_SECRET_KEY` and `NEXT_PUBLIC_PADDLE_PRICE_ID`. */
  datatype Config = Config(secretKey: Option<string>, priceId: Option<string>)

  /**
   * What the handler takes from the platform: the base64 HMAC-SHA256 digest of
   * a body under a key (`None` when the crypto call throws) and `JSON.parse`
   * (`None` when it throws).
   */
  datatype Primitives = Primitives(
    hmacBase64: (string, string) -> Option<string>,
    parseJson: string -> Option<Json>)

  /**
   * The request body: absent, or a stream whose text `streamToString` reads
   * (`None` when reading it rejects).
   */
  datatype Body = NoBody | Stream(text: Option<string>)

  /** An incoming request: the `paddle-signature` header and the body. */
  datatype Request = Request(signature: Option<string>, body: Body)

  /** The raw body text, once it has been read. */
  predicate HasRawBody(req: Request) {
    req.body.Stream? && req.body.text.Some?
  }

  /** The responses the handler sends. */
  datatype Reply =
    | Received                     // 200 {received: true}
    | BadRequest(message: string)  // 400 {message}
    | InvalidSignature             // 401 {message: "Invalid signature"}
    | ProcessingError              // 500 {message: "Webhook processing error", error}

  function Status(r: Reply): int {
    match r
    case Received => 200
    case BadRequest(_) => 400
    case InvalidSignature => 401
    case ProcessingError => 500
  }

  /** Where the ladder ends: a reply without touching the ledger, or a credit to apply. */
  datatype Decision = Respond(reply: Reply) | Credit(customer: Json, amount: nat)

  /** `priceIdCredits`: the configured price id (or "" when unset) is worth 5 credits. */
  function PriceIdCredits(cfg: Config): map<string, nat> {
    map[(if cfg.priceId.Some? then cfg.priceId.value else "") := ConfiguredPriceCredits]
  }

  /** `priceIdCredits[priceId] || 5`; a price id that is not a string is a miss. */
  function CreditsFor(table: map<string, nat>, priceId: Json): (r: nat)
    ensures r > 0
    ensures priceId.JStr? && priceId.s in table && table[priceId.s] > 0 ==> r == table[priceId.s]
    ensures !priceId.JStr? || priceId.s !in table || table[priceId.s] == 0 ==> r == DefaultCredits
  {
    if priceId.JStr? && priceId.s in table && table[priceId.s] != 0 then table[priceId.s]
    else DefaultCredits
  }

  /** With the table the route is configured with, every price id is worth 5 credits. */
  lemma EveryPriceIdYieldsFive(cfg: Config, priceId: Json)
    ensures CreditsFor(PriceIdCredits(cfg), priceId) == 5
  {
  }

  /** `verifyPaddleSignature`: the digest of the exact raw body equals the header. */
  predicate VerifySignature(prims: Primitives, signature: string, body: string, secretKey: string): (ok: bool)
    ensures ok <==> prims.hmacBase64(secretKey, body) == Some(signature)
  {
    match prims.hmacBase64(secretKey, body)
    case None => false
    case Some(digest) => digest == signature
  }

  /**
   * For a given body and key at most one header is accepted, the computed
   * digest itself; when computing the digest throws, none is.
   */
  lemma OnlyTheDigestIsAccepted(prims: Primitives, sig1: string, sig2: string, body: string, key: string)
    requires VerifySignature(prims, sig1, body, key)
    ensures prims.hmacBase64(key, body) == Some(sig1)
    ensures VerifySignature(prims, sig2, body, key) <==> sig2 == sig1
  {
  }

  /** `data.customerId || data.customer?.id` */
  function CustomerIdOf(data: Value): (r: Value)
    requires !Nullish(data)
    ensures Truthy(r) <==> Truthy(Get(data, "customerId")) || Truthy(OptGet(Get(data, "customer"), "id"))
    ensures Truthy(Get(data, "customerId")) ==> r == Get(data, "customerId")
    ensures !Truthy(Get(data, "customerId")) ==> r == OptGet(Get(data, "customer"), "id")
  {
    Or(Get(data, "customerId"), OptGet(Get(data, "customer"), "id"))
  }

  /** `data.items?.[0]?.priceId || data.priceId` */
  function PriceIdOf(data: Value): (r: Value)
    requires !Nullish(data)
    ensures Truthy(r) <==> Truthy(OptGet(OptFirst(Get(data, "items")), "priceId")) || Truthy(Get(data, "priceId"))
    ensures Truthy(OptGet(OptFirst(Get(data, "items")), "priceId")) ==> r == OptGet(OptFirst(Get(data, "items")), "priceId")
    ensures !Truthy(OptGet(OptFirst(Get(data, "items")), "priceId")) ==> r == Get(data, "priceId")
  {
    Or(OptGet(OptFirst(Get(data, "items")), "priceId"), Get(data, "priceId"))
  }

  /** `event.eventType` is one of the three handled types (an `event` that is `null` throws first). */
  predicate IsHandledEvent(event: Json)
    requires !event.JNull?
  {
    var t := Get(Some(event), "eventType");
    t.Some? && t.value.JStr? && t.value.s in HandledEventTypes
  }

  /** The steps after `JSON.parse`: classification, extraction and the credit amount. */
  function Dispatch(cfg: Config, event: Json): (d: Decision)
    ensures d.Credit? ==> !event.JNull? && IsHandledEvent(event) && d.amount == DefaultCredits
    ensures d.Credit? ==>
      !Nullish(Get(Some(event), "data")) && Some(d.customer) == CustomerIdOf(Get(Some(event), "data"))
    ensures event.JNull? ==> d == Respond(ProcessingError)
    ensures !event.JNull? && !IsHandledEvent(event) ==> d == Respond(Received)
    ensures !event.JNull? && IsHandledEvent(event) && Nullish(Get(Some(event), "data")) ==>
      d == Respond(ProcessingError)
    ensures (!event.JNull? && IsHandledEvent(event) && !Nullish(Get(Some(event), "data"))) ==>
      var data := Get(Some(event), "data");
      (d.Credit? <==> Truthy(CustomerIdOf(data)) && Truthy(PriceIdOf(data)))
      && (!d.Credit? ==> d == Respond(BadRequest("Missing customer or price data")))
    ensures d.Respond? ==> d.reply != InvalidSignature
  {
    if event.JNull? then Respond(ProcessingError)
    else if !IsHandledEvent(event) then Respond(Received)
    else
      var data := Get(Some(event), "data");
      if Nullish(data) then Respond(ProcessingError)
      else
        var customerId := CustomerIdOf(data);
        var priceId := PriceIdOf(data);
        if !Truthy(customerId) || !Truthy(priceId) then
          Respond(BadRequest("Missing customer or price data"))
        else
          EveryPriceIdYieldsFive(cfg, priceId.value);
          Credit(customerId.value, CreditsFor(PriceIdCredits(cfg), priceId.value))
  }

  /** The whole ladder of `POST` up to the ledger block. */
  function Decide(cfg: Config, prims: Primitives, req: Request): (d: Decision)
    ensures !Present(cfg.secretKey) ==> d == Respond(BadRequest("Missing paddleSecretKey"))
    ensures Present(cfg.secretKey) && !Present(req.signature) ==> d == Respond(BadRequest("Missing signature"))
    ensures Present(cfg.secretKey) && Present(req.signature) && req.body.NoBody? ==> d == Respond(BadRequest("Missing body"))
    ensures Present(cfg.secretKey) && Present(req.signature) && req.body == Stream(None) ==> d == Respond(ProcessingError)
    ensures d == Respond(InvalidSignature) <==>
      Present(cfg.secretKey) && Present(req.signature) && HasRawBody(req)
      && !VerifySignature(prims, req.signature.value, req.body.text.value, cfg.secretKey.value)
    ensures d.Credit? ==>
      Present(cfg.secretKey) && Present(req.signature) && HasRawBody(req)
      && VerifySignature(prims, req.signature.value, req.body.text.value, cfg.secretKey.value)
      && prims.parseJson(req.body.text.value).Some?
      && d == Dispatch(cfg, prims.parseJson(req.body.text.value).value)
      && d.amount == DefaultCredits
    ensures Verified(cfg, prims, req) ==> d == Dispatch(cfg, prims.parseJson(req.body.text.value).value)
    ensures (Present(cfg.secretKey) && Present(req.signature) && HasRawBody(req)
             && VerifySignature(prims, req.signature.value, req.body.text.value, cfg.secretKey.value)
             && prims.parseJson(req.body.text.value).None?) ==>
      d == Respond(ProcessingError)
  {
    if !Present(cfg.secretKey) then Respond(BadRequest("Missing paddleSecretKey"))
    else if !Present(req.signature) then Respond(BadRequest("Missing signature"))
    else if req.body.NoBody? then Respond(BadRequest("Missing body"))
    else if req.body.text.None? then Respond(ProcessingError)
    else if !VerifySignature(prims, req.signature.value, req.body.text.value, cfg.secretKey.value) then
      Respond(InvalidSignature)
    else
      match prims.parseJson(req.body.text.value)
      case None => Respond(ProcessingError)
      case Some(event) => Dispatch(cfg, event)
  }

  /** A request that passes the signature check and parses. */
  predicate Verified(cfg: Config, prims: Primitives, req: Request) {
    Present(cfg.secretKey) && Present(req.signature) && HasRawBody(req)
    && VerifySignature(prims, req.signature.value, req.body.text.value, cfg.secretKey.value)
    && prims.parseJson(req.body.text.value).Some?
  }

  /** An unhandled event type (`refund.issued`, say) is acknowledged with 200 and credits nothing. */
  lemma UnhandledEventAcknowledged(cfg: Config, prims: Primitives, req: Request)
    requires Verified(cfg, prims, req)
    requires !prims.parseJson(req.body.text.value).value.JNull?
    requires !IsHandledEvent(prims.parseJson(req.body.text.value).value)
    ensures Decide(cfg, prims, req) == Respond(Received)
  {
  }

  /** A handled event without a customer id in either shape is a 400 and credits nothing. */
  lemma MissingCustomerRejected(cfg: Config, prims: Primitives, req: Request)
    requires Verified(cfg, prims, req)
    requires var event := prims.parseJson(req.body.text.value).value;
      !event.JNull? && IsHandledEvent(event) && !Nullish(Get(Some(event), "data"))
      && !Truthy(Get(Get(Some(event), "data"), "customerId"))
      && !Truthy(OptGet(Get(Get(Some(event), "data"), "customer"), "id"))
    ensures Decide(cfg, prims, req) == Respond(BadRequest("Missing customer or price data"))
  {
  }

  /** A handled event whose customer appears only as `data.customer.id` credits 5 to that id. */
  lemma NestedCustomerCredited(cfg: Config, prims: Primitives, req: Request)
    requires Verified(cfg, prims, req)
    requires var event := prims.parseJson(req.body.text.value).value;
      !event.JNull? && IsHandledEvent(event) && !Nullish(Get(Some(event), "data"))
      && !Truthy(Get(Get(Some(event), "data"), "customerId"))
      && Truthy(OptGet(Get(Get(Some(event), "data"), "customer"), "id"))
      && Truthy(PriceIdOf(Get(Some(event), "data")))
    ensures var data := Get(Some(prims.parseJson(req.body.text.value).value), "data");
      Decide(cfg, prims, req) == Credit(OptGet(Get(data, "customer"), "id").value, 5)
  {
  }

  /** A handled event with a customer id but no price id in either shape is a 400 and credits nothing. */
  lemma MissingPriceRejected(cfg: Config, prims: Primitives, req: Request)
    requires Verified(cfg, prims, req)
    requires var event := prims.parseJson(req.body.text.value).value;
      !event.JNull? && IsHandledEvent(event) && !Nullish(Get(Some(event), "data"))
      && !Truthy(OptGet(OptFirst(Get(Get(Some(event), "data"), "items")), "priceId"))
      && !Truthy(Get(Get(Some(event), "data"), "priceId"))
    ensures Decide(cfg, prims, req) == Respond(BadRequest("Missing customer or price data"))
  {
  }

  /** A handled event carrying both ids credits 5 to the customer id the event names. */
  lemma BothIdsCredit(cfg: Config, prims: Primitives, req: Request)
    requires Verified(cfg, prims, req)
    requires var event := prims.parseJson(req.body.text.value).value;
      !event.JNull? && IsHandledEvent(event) && !Nullish(Get(Some(event), "data"))
      && Truthy(Get(Get(Some(event), "data"), "customerId"))
      && Truthy(Get(Get(Some(event), "data"), "priceId"))
    ensures var data := Get(Some(prims.parseJson(req.body.text.value).value), "data");
      Decide(cfg, prims, req) == Credit(Get(data, "customerId").value, 5)
  {
  }

  /** A body that does not parse, or a handled event without `data`, is a 500. */
  lemma ThrowingPayloadIsProcessingError(cfg: Config, prims: Primitives, req: Request)
    requires Present(cfg.secretKey) && Present(req.signature) && HasRawBody(req)
    requires VerifySignature(prims, req.signature.value, req.body.text.value, cfg.secretKey.value)
    requires var parsed := prims.parseJson(req.body.text.value);
      || parsed.None?
      || parsed.value.JNull?
      || (IsHandledEvent(parsed.value) && Nullish(Get(parsed, "data")))
    ensures Decide(cfg, prims, req) == Respond(ProcessingError)
  {
  }

  /**
   * How the store answers: the initial `select` either returns (a row or
   * "no rows"), returns another error, or throws; the later write either
   * succeeds or fails (an error or a throw).
   */
  datatype Fetch = Fetched | FetchError | FetchThrew
  datatype StoreBehaviour = StoreBehaviour(fetch: Fetch, writeFails: bool)

  const Healthy := StoreBehaviour(Fetched, false)

  /** The credits a customer holds, 0 without a row. */
  function Balance(ledger: map<Json, nat>, customer: Json): nat {
    if customer in ledger then ledger[customer] else 0
  }

  /**
   * The `user_credits` table after crediting `amount` to `customer`: an existing
   * row is raised by `amount`, a missing one is created with `amount`; a fetch
   * error leads to an insert, which the one-row-per-user key refuses when a row
   * exists; a thrown fetch or a failed write leaves the table as it was.
   */
  function Credited(ledger: map<Json, nat>, customer: Json, amount: nat, store: StoreBehaviour): (r: map<Json, nat>)
    ensures forall k :: k in ledger ==> k in r
    ensures forall k :: k in r ==> k in ledger || k == customer
    ensures forall k :: k in r && k != customer ==> r[k] == ledger[k]
    ensures r == ledger || (customer in r && r[customer] == Balance(ledger, customer) + amount)
    ensures store == Healthy ==> customer in r && r[customer] == Balance(ledger, customer) + amount
    ensures store.fetch == FetchThrew || store.writeFails ==> r == ledger
    ensures store.fetch == FetchError && !store.writeFails ==>
      r == (if customer in ledger then ledger else ledger[customer := amount])
  {
    match store.fetch
    case FetchThrew => ledger
    case FetchError =>
      if store.writeFails || customer in ledger then ledger else ledger[customer := amount]
    case Fetched =>
      if store.writeFails then ledger
      else if customer in ledger then ledger[customer := ledger[customer] + amount]
      else ledger[customer := amount]
  }

  function Sum(amounts: seq<nat>): nat {
    if amounts == [] then 0 else Sum(amounts[..|amounts| - 1]) + amounts[|amounts| - 1]
  }

  /** The table after a run of sequential, healthy credits to one customer. */
  function CreditedAll(ledger: map<Json, nat>, customer: Json, amounts: seq<nat>): map<Json, nat> {
    if amounts == [] then ledger
    else Credited(CreditedAll(ledger, customer, amounts[..|amounts| - 1]), customer, amounts[|amounts| - 1], Healthy)
  }

  /** Sequential healthy credits add up: the balance grows by the sum of the amounts. */
  lemma {:induction false} SequentialCreditsAddUp(ledger: map<Json, nat>, customer: Json, amounts: seq<nat>)
    ensures Balance(CreditedAll(ledger, customer, amounts), customer) == Balance(ledger, customer) + Sum(amounts)
    ensures forall k :: k != customer ==> Balance(CreditedAll(ledger, customer, amounts), k) == Balance(ledger, k)
  {
    if amounts != [] {
      SequentialCreditsAddUp(ledger, customer, amounts[..|amounts| - 1]);
    }
  }

  /** Two events worth 5 and then 3 on a customer without a row leave 8 credits. */
  lemma FiveThenThreeMakeEight(ledger: map<Json, nat>, customer: Json)
    requires customer !in ledger
    ensures customer in CreditedAll(ledger, customer, [5, 3])
    ensures CreditedAll(ledger, customer, [5, 3])[customer] == 8
  {
    SequentialCreditsAddUp(ledger, customer, [5, 3]);
    assert [5, 3][..1] == [5];
    assert [5][..0] == [];
  }

  /** The `user_credits` table, keyed by customer id, as the handler updates it. */
  class CreditLedger {
    var credits: map<Json, nat>

    constructor (initial: map<Json, nat>)
      ensures credits == initial
    {
      credits := initial;
    }

    /**
     * `POST`: every exit before the ledger block leaves the table alone; a
     * credit reads the row, then updates or inserts it, and always ends in 200.
     */
    method Post(cfg: Config, prims: Primitives, req: Request, store: StoreBehaviour) returns (reply: Reply)
      modifies this
      ensures Decide(cfg, prims, req).Respond? ==>
        reply == Decide(cfg, prims, req).reply && credits == old(credits)
      ensures Decide(cfg, prims, req).Credit? ==>
        reply == Received
        && credits == Credited(old(credits), Decide(cfg, prims, req).customer, Decide(cfg, prims, req).amount, store)
    {
      var decision := Decide(cfg, prims, req);
      if decision.Respond? {
        return decision.reply;
      }
      var customer, amount := decision.customer, decision.amount;
      reply := Received;
      if store.fetch == FetchThrew {
        return;
      }
      var existing: Option<nat> :=
        if store.fetch == Fetched && customer in credits then Some(credits[customer]) else None;
      if existing.Some? {
        if !store.writeFails {
          credits := credits[customer := existing.value + amount];
        }
      } else if !store.writeFails && customer !in credits {
        credits := credits[customer := amount];
      }
    }
  }
}
