/**
 * The Astria prompt webhook: it validates the query parameters in a fixed
 * order (a case-insensitive secret among them), looks the user up, e-mails
 * them when e-mail is configured, looks the model up, and writes one `images`
 * row per image of the prompt.
 */
module AstriaPromptWebhook {
  import opened JsValue
  import opened Text

  /** The process environment: `RESEND_API_KEY` and `APP_WEBHOOK_SECRET`. */
  datatype Config = Config(resendApiKey: Option<string>, appWebhookSecret: string)

  /** The parsed JSON body (`None` when it does not parse) and the URL's query parameters. */
  datatype Request = Request(body: Option<Json>, searchParams: map<string, string>)

  /** `searchParams.get(name)` */
  function Param(req: Request, name: string): Option<string> {
    if name in req.searchParams then Some(req.searchParams[name]) else None
  }

  /** `getUserById`: an error with its message, no user, or a user and their e-mail address. */
  datatype UserLookup = LookupFailed(message: string) | NoSuchUser | FoundUser(email: Option<string>)

  /**
   * The store as the handler queries it: the user lookup, and the model
   * lookup by `model_id`, giving the model's id or `None` on an error.
   */
  datatype Services = Services(
    getUserById: string -> UserLookup,
    findModel: string -> Option<int>)

  /** The responses of the handler. */
  datatype Reply =
    | Crashed                        // 500: the body threw before the handler's own error handling
    | MalformedUrl(message: string)  // 500 {message: "Malformed URL, no ... detected!"}
    | Unauthorized(message: string)  // 401 {message}
    | SomethingWentWrong             // 500 {message: "Something went wrong!"}
    | Success                        // 200 {message: "success"}

  function Status(r: Reply): int {
    match r
    case Crashed => 500
    case MalformedUrl(_) => 500
    case Unauthorized(_) => 401
    case SomethingWentWrong => 500
    case Success => 200
  }

  /** `webhook_secret.toLowerCase() === appWebhookSecret.toLowerCase()` */
  predicate SecretMatches(given: string, secret: string) {
    ToLower(given) == ToLower(secret)
  }

  /** The secret check compares character by character, ignoring case. */
  lemma SecretMatchesPointwise(given: string, secret: string)
    ensures SecretMatches(given, secret) <==>
      |given| == |secret| && forall i :: 0 <= i < |given| ==> LowerChar(given[i]) == LowerChar(secret[i])
  {
  }

  /** The secret written in lower case is accepted. */
  lemma LowerCaseSecretAccepted(secret: string)
    ensures SecretMatches(ToLower(secret), secret)
  {
  }

  /**
   * E-mail is sent only with a key that is set and is not a placeholder: one in
   * which neither `your-resend` nor `placeholder` occurs anywhere.
   */
  predicate EmailEnabled(key: Option<string>): (ok: bool)
    ensures ok <==>
      Present(key)
      && (forall i :: !OccursAt(key.value, "your-resend", i))
      && (forall i :: !OccursAt(key.value, "placeholder", i))
  {
    if !Present(key) then false
    else
      IncludesIffOccurs(key.value, "your-resend");
      IncludesIffOccurs(key.value, "placeholder");
      !Includes(key.value, "your-resend") && !Includes(key.value, "placeholder")
  }

  /**
   * Where the handler ends before the inserts: a reply, or the images to insert
   * for a model. `emailTo` is the address an e-mail is sent to, when one is.
   */
  datatype Stage =
    | Respond(reply: Reply, emailTo: Option<string>)
    | InsertImages(modelId: int, images: seq<Json>, emailTo: Option<string>)

  const NoModelId := "Malformed URL, no model_id detected!"
  const NoWebhookSecret := "Malformed URL, no webhook_secret detected!"
  const NoUserId := "Malformed URL, no user_id detected!"

  /** The query parameters pass the checks in the order the handler makes them. */
  predicate QueryAccepted(cfg: Config, req: Request) {
    Present(Param(req, "model_id")) && Present(Param(req, "webhook_secret"))
    && SecretMatches(Param(req, "webhook_secret").value, cfg.appWebhookSecret)
    && Present(Param(req, "user_id"))
  }

  /** `prompt`, destructured from the body. */
  function Prompt(req: Request): Value
    requires Readable(req)
  {
    Get(req.body, "prompt")
  }

  /** `prompt.images`, the images `allHeadshots` holds. */
  function PromptImages(req: Request): Value
    requires Readable(req) && !Nullish(Prompt(req))
  {
    Get(Prompt(req), "images")
  }

  /** The query is accepted and the user it names exists. */
  predicate UserFound(cfg: Config, services: Services, req: Request) {
    Readable(req) && QueryAccepted(cfg, req) && services.getUserById(Param(req, "user_id").value).FoundUser?
  }

  /** `POST` up to the image inserts. */
  function Process(cfg: Config, services: Services, req: Request): (s: Stage)
    ensures req.body.None? || req.body.value.JNull? ==> s == Respond(Crashed, None)
    ensures Readable(req) && !Present(Param(req, "model_id")) ==> s == Respond(MalformedUrl(NoModelId), None)
    ensures Readable(req) && Present(Param(req, "model_id")) && !Present(Param(req, "webhook_secret")) ==>
      s == Respond(MalformedUrl(NoWebhookSecret), None)
    ensures (Readable(req) && Present(Param(req, "model_id")) && Present(Param(req, "webhook_secret"))
             && !SecretMatches(Param(req, "webhook_secret").value, cfg.appWebhookSecret)) ==>
      s == Respond(Unauthorized("Unauthorized!"), None)
    ensures (Readable(req) && Present(Param(req, "model_id")) && Present(Param(req, "webhook_secret"))
             && SecretMatches(Param(req, "webhook_secret").value, cfg.appWebhookSecret)
             && !Present(Param(req, "user_id"))) ==>
      s == Respond(MalformedUrl(NoUserId), None)
    ensures Readable(req) && QueryAccepted(cfg, req) && !services.getUserById(Param(req, "user_id").value).FoundUser? ==>
      s.Respond? && s.reply.Unauthorized? && s.emailTo == None
    ensures Readable(req) && QueryAccepted(cfg, req) && services.getUserById(Param(req, "user_id").value).LookupFailed? ==>
      s == Respond(Unauthorized(services.getUserById(Param(req, "user_id").value).message), None)
    ensures Readable(req) && QueryAccepted(cfg, req) && services.getUserById(Param(req, "user_id").value).NoSuchUser? ==>
      s == Respond(Unauthorized("Unauthorized"), None)
    ensures s.emailTo.Some? ==> EmailEnabled(cfg.resendApiKey)
    ensures s.InsertImages? ==>
      Readable(req) && QueryAccepted(cfg, req)
      && services.getUserById(Param(req, "user_id").value).FoundUser?
      && services.findModel(Param(req, "model_id").value) == Some(s.modelId)
    ensures s.InsertImages? ==>
      Readable(req) && !Nullish(Prompt(req)) && PromptImages(req) == Some(JArr(s.images))
    ensures UserFound(cfg, services, req) && services.findModel(Param(req, "model_id").value).None? ==>
      s.Respond? && s.reply == SomethingWentWrong
    ensures UserFound(cfg, services, req) && (Nullish(Prompt(req)) || !(PromptImages(req).Some? && PromptImages(req).value.JArr?)) ==>
      s.Respond? && s.reply == SomethingWentWrong
    ensures (UserFound(cfg, services, req) && !Nullish(Prompt(req))
             && PromptImages(req).Some? && PromptImages(req).value.JArr?
             && services.findModel(Param(req, "model_id").value).Some?) ==>
      s == InsertImages(services.findModel(Param(req, "model_id").value).value, PromptImages(req).value.elems, s.emailTo)
    ensures s.emailTo.Some? <==>
      UserFound(cfg, services, req) && !Nullish(Prompt(req)) && EmailEnabled(cfg.resendApiKey) && !Nullish(PromptImages(req))
    ensures s.emailTo.Some? ==>
      var email := services.getUserById(Param(req, "user_id").value).email;
      s.emailTo.value == if email.Some? then email.value else ""
  {
    if !Readable(req) then Respond(Crashed, None)
    else
      var prompt := Prompt(req);
      var modelId, secret, userId := Param(req, "model_id"), Param(req, "webhook_secret"), Param(req, "user_id");
      if !Present(modelId) then Respond(MalformedUrl(NoModelId), None)
      else if !Present(secret) then Respond(MalformedUrl(NoWebhookSecret), None)
      else if !SecretMatches(secret.value, cfg.appWebhookSecret) then Respond(Unauthorized("Unauthorized!"), None)
      else if !Present(userId) then Respond(MalformedUrl(NoUserId), None)
      else
        match services.getUserById(userId.value)
        case LookupFailed(message) => Respond(Unauthorized(message), None)
        case NoSuchUser => Respond(Unauthorized("Unauthorized"), None)
        case FoundUser(email) =>
          if Nullish(prompt) then Respond(SomethingWentWrong, None)
          else
            var images := PromptImages(req);
            var emailTo := if EmailEnabled(cfg.resendApiKey) && !Nullish(images)
                           then Some(if email.Some? then email.value else "") else None;
            match services.findModel(modelId.value)
            case None => Respond(SomethingWentWrong, emailTo)
            case Some(id) =>
              if images.Some? && images.value.JArr? then InsertImages(id, images.value.elems, emailTo)
              else Respond(SomethingWentWrong, emailTo)
  }

  /** The body parsed and `const { prompt } = ...` did not throw. */
  predicate Readable(req: Request) {
    req.body.Some? && !req.body.value.JNull?
  }

  /** A row of the `images` table. */
  datatype ImageRow = ImageRow(modelId: int, uri: Json)

  /** The rows the per-image inserts add, skipping the inserts that fail. */
  function Inserted(modelId: int, images: seq<Json>, insertFails: Json -> bool): (r: seq<ImageRow>)
    ensures |r| <= |images|
    ensures forall i :: 0 <= i < |r| ==> r[i].modelId == modelId && r[i].uri in images
    ensures forall i :: 0 <= i < |r| ==> !insertFails(r[i].uri)
    ensures (forall i :: 0 <= i < |images| ==> !insertFails(images[i])) ==>
      |r| == |images| && forall i :: 0 <= i < |images| ==> r[i] == ImageRow(modelId, images[i])
  {
    if images == [] then []
    else
      var last := images[|images| - 1];
      Inserted(modelId, images[..|images| - 1], insertFails) + (if insertFails(last) then [] else [ImageRow(modelId, last)])
  }

  /** The inserts of one part of the images do not depend on those of another. */
  lemma {:induction false} InsertedAppend(modelId: int, a: seq<Json>, b: seq<Json>, insertFails: Json -> bool)
    ensures Inserted(modelId, a + b, insertFails) == Inserted(modelId, a, insertFails) + Inserted(modelId, b, insertFails)
    decreases |b|
  {
    if b == [] {
      assert a + b == a;
    } else {
      assert (a + b)[..|a + b| - 1] == a + b[..|b| - 1];
      InsertedAppend(modelId, a, b[..|b| - 1], insertFails);
    }
  }

  /** An image whose insert works gets its row, whatever happens to the others. */
  lemma {:induction false} WorkingInsertsLand(modelId: int, images: seq<Json>, insertFails: Json -> bool)
    ensures forall x :: x in images && !insertFails(x) ==> ImageRow(modelId, x) in Inserted(modelId, images, insertFails)
  {
    if images != [] {
      var init := images[..|images| - 1];
      WorkingInsertsLand(modelId, init, insertFails);
      assert images == init + [images[|images| - 1]];
    }
  }

  /** One more image adds its row unless its insert fails. */
  lemma InsertedStep(modelId: int, images: seq<Json>, i: nat, insertFails: Json -> bool)
    requires i < |images|
    ensures Inserted(modelId, images[..i + 1], insertFails) ==
      Inserted(modelId, images[..i], insertFails) + (if insertFails(images[i]) then [] else [ImageRow(modelId, images[i])])
  {
    assert images[..i + 1][..i] == images[..i];
  }

  /** The `images` table. */
  class ImagesTable {
    var rows: seq<ImageRow>

    constructor ()
      ensures rows == []
    {
      rows := [];
    }

    /** `Promise.all` over the per-image inserts, each failure only logged. */
    method InsertAll(modelId: int, images: seq<Json>, insertFails: Json -> bool)
      modifies this
      ensures rows == old(rows) + Inserted(modelId, images, insertFails)
    {
      for i := 0 to |images|
        invariant rows == old(rows) + Inserted(modelId, images[..i], insertFails)
      {
        InsertedStep(modelId, images, i, insertFails);
        if !insertFails(images[i]) {
          rows := rows + [ImageRow(modelId, images[i])];
        }
      }
      assert images[..|images|] == images;
    }

    /**
     * `POST`: every early exit leaves the table alone; on success one row per
     * image is inserted for the model, and a failed insert still ends in 200.
     */
    method Post(cfg: Config, services: Services, req: Request, insertFails: Json -> bool) returns (reply: Reply)
      modifies this
      ensures Process(cfg, services, req).Respond? ==>
        reply == Process(cfg, services, req).reply && rows == old(rows)
      ensures Process(cfg, services, req).InsertImages? ==>
        var s := Process(cfg, services, req);
        reply == Success && rows == old(rows) + Inserted(s.modelId, s.images, insertFails)
    {
      var stage := Process(cfg, services, req);
      if stage.Respond? {
        return stage.reply;
      }
      InsertAll(stage.modelId, stage.images, insertFails);
      reply := Success;
    }
  }
}
