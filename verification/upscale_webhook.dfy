/**
 * The upscale status webhook: a callback from the upscaling service whose
 * `status` field decides the reply.
 */
module UpscaleWebhook {
  import opened JsValue

  /** The responses of the handler. */
  datatype Reply =
    | Acknowledged      // 200 {success: true}
    | UpscalingFailed   // 500 {error: 'Upscaling failed'}
    | ProcessingFailed  // 500 {error: 'Webhook processing failed'}

  function Status(r: Reply): int {
    match r
    case Acknowledged => 200
    case UpscalingFailed => 500
    case ProcessingFailed => 500
  }

  /**
   * `POST` on the parsed body (`None` when it does not parse). A `null` body
   * throws when it is destructured.
   */
  function Handle(payload: Option<Json>): (r: Reply)
    ensures r == ProcessingFailed <==> Nullish(payload)
    ensures r == UpscalingFailed <==> !Nullish(payload) && Get(payload, "status") == Some(JStr("failed"))
    ensures r == Acknowledged <==> !Nullish(payload) && Get(payload, "status") != Some(JStr("failed"))
    ensures Status(r) == 200 <==> r == Acknowledged
  {
    if Nullish(payload) then ProcessingFailed
    else
      var status, upscaledUrl := Get(payload, "status"), Get(payload, "upscaled_url");
      if status == Some(JStr("completed")) && Truthy(upscaledUrl) then Acknowledged
      else if status == Some(JStr("failed")) then UpscalingFailed
      else Acknowledged
  }

  /** A completed job without an upscaled URL is acknowledged just the same. */
  lemma CompletedWithoutUrlAcknowledged(payload: Json)
    requires !payload.JNull?
    requires Get(Some(payload), "status") == Some(JStr("completed"))
    requires !Truthy(Get(Some(payload), "upscaled_url"))
    ensures Handle(Some(payload)) == Acknowledged
  {
  }
}
