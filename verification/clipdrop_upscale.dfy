/**
 * The CLIPDROP upscale route: it validates the JSON request, turns `imageData`
 * (a data URL, a path or raw base64) into image bytes, sends them to
 * CLIPDROP, wraps the upscaled bytes in a PNG data URL, and records the job
 * in the `upscale_history` table when the store is configured and a user is
 * known.
 */
module ClipdropUpscale {
  import opened JsValue
  import opened Text

  newtype byte = x: int | 0 <= x < 256

  /** The prefix of every upscaled image URL the route returns. */
  const PngDataUrlPrefix: string := "data:image/png;base64,"

  /** The status recorded with every history row. */
  const CompletedStatus: string := "completed"

  /** The `provider` field of every successful reply. */
  const ProviderLabel: string := "clipdrop"

  /** The characters of the base64 alphabet of section 4 of RFC 4648, with the pad. */
  predicate IsBase64Char(c: char) {
    ('A' <= c <= 'Z') || ('a' <= c <= 'z') || ('0' <= c <= '9') || c == '+' || c == '/' || c == '='
  }

  /** `CLIPDROP_API_KEY`, `NEXT_PUBLIC_SUPABASE_URL` and `SUPABASE_SERVICE_ROLE_KEY`. */
  datatype Config = Config(apiKey: Option<string>, supabaseUrl: Option<string>, serviceRoleKey: Option<string>)

  /** A store client is created only when both of its settings are present. */
  predicate StoreConfigured(cfg: Config) {
    Present(cfg.supabaseUrl) && Present(cfg.serviceRoleKey)
  }

  /** CLIPDROP's answer: a status, its text and the body bytes; or a `fetch` that rejects. */
  datatype ProviderResponse = Answered(status: int, statusText: string, body: seq<byte>) | Unreachable

  /** `response.ok` */
  predicate IsOk(status: int) {
    200 <= status <= 299
  }

  /**
   * What the route calls out to: base64 decoding and encoding (`Buffer`),
   * fetching a path (`None` when it rejects), and the CLIPDROP upscale call
   * with the image bytes and the file name.
   */
  datatype Services = Services(
    base64Decode: string -> seq<byte>,
    base64Encode: seq<byte> -> string,
    fetchPath: string -> Option<seq<byte>>,
    clipdrop: (seq<byte>, Json) -> ProviderResponse)

  /** The responses of the route. */
  datatype Reply =
    | MissingInput                                // 400 {error: 'Image data and filename are required'}
    | ApiKeyMissing                               // 500 {error: 'CLIPDROP_API_KEY not configured'}
    | ProviderError(status: int, details: string) // CLIPDROP's status {error: 'CLIPDROP API request failed', details}
    | Upscaled(upscaledUrl: string, originalUrl: Json, recordId: Option<nat>, provider: string)
                                                  // 200 {success: true, upscaledUrl, originalUrl, jobId, recordId, provider}
    | Failed                                      // 500 {error: 'Failed to upscale image with CLIPDROP', details}

  function Status(r: Reply): int {
    match r
    case MissingInput => 400
    case ApiKeyMissing => 500
    case ProviderError(status, _) => status
    case Upscaled(_, _, _, _) => 200
    case Failed => 500
  }

  /** The three forms `imageData` may take, tried in this order. */
  datatype ImageSource =
    | DataUrl(payload: Option<string>)  // starts with "data:image": the text after the first comma
    | Path(url: string)                 // starts with "/": fetched
    | RawBase64(data: string)           // anything else: decoded as base64

  function Classify(imageData: string): (r: ImageSource)
    ensures r.DataUrl? <==> StartsWith(imageData, "data:image")
    ensures r.Path? <==> !StartsWith(imageData, "data:image") && StartsWith(imageData, "/")
    ensures r.DataUrl? ==> r.payload == SplitSecond(imageData, ',')
    ensures r.Path? ==> r.url == imageData
    ensures r.RawBase64? ==> r.data == imageData
  {
    if StartsWith(imageData, "data:image") then DataUrl(SplitSecond(imageData, ','))
    else if StartsWith(imageData, "/") then Path(imageData)
    else RawBase64(imageData)
  }

  /** `imageBuffer`; `None` when computing it throws (no comma in a data URL, a failed fetch). */
  function ImageBytes(src: ImageSource, services: Services): (r: Option<seq<byte>>)
    ensures r.None? <==> src == DataUrl(None) || (src.Path? && services.fetchPath(src.url).None?)
    ensures src.DataUrl? && src.payload.Some? ==> r == Some(services.base64Decode(src.payload.value))
    ensures src.RawBase64? ==> r == Some(services.base64Decode(src.data))
    ensures src.Path? ==> r == services.fetchPath(src.url)
  {
    match src
    case DataUrl(None) => None
    case DataUrl(Some(payload)) => Some(services.base64Decode(payload))
    case Path(url) => services.fetchPath(url)
    case RawBase64(data) => Some(services.base64Decode(data))
  }

  /** `data:image/png;base64,${upscaledBase64}` */
  function ResultUrl(services: Services, image: seq<byte>): string {
    PngDataUrlPrefix + services.base64Encode(image)
  }

  /**
   * A result URL sent back as `imageData` is read as a data URL whose payload
   * is the base64 text it was built from, whenever that text is in the base64
   * alphabet.
   */
  lemma ResultUrlRoundTrip(services: Services, image: seq<byte>)
    requires forall i :: 0 <= i < |services.base64Encode(image)| ==> IsBase64Char(services.base64Encode(image)[i])
    ensures Classify(ResultUrl(services, image)) == DataUrl(Some(services.base64Encode(image)))
  {
    var encoded := services.base64Encode(image);
    var url := ResultUrl(services, image);
    assert url[..|PngDataUrlPrefix|] == PngDataUrlPrefix;
    assert PngDataUrlPrefix[..10] == "data:image";
    assert url[..10] == "data:image";
    assert forall k :: 0 <= k < |encoded| ==> encoded[k] != ',';
    var head := PngDataUrlPrefix[..21];
    assert url == head + ("," + encoded);
    IndexOfAfter(head, "," + encoded, ',');
    assert IndexOf(url, ',') == Some(21);
    assert url[22..] == encoded;
    assert IndexOf(encoded, ',') == None;
  }

  /** The bytes sent to CLIPDROP and its answer; `None` when the bytes cannot be obtained. */
  function Upload(services: Services, imageData: string, filename: Json): Option<ProviderResponse> {
    match ImageBytes(Classify(imageData), services)
    case None => None
    case Some(bytes) => Some(services.clipdrop(bytes, filename))
  }

  /**
   * `${status}: ${statusText}`: the status in decimal, which reads back as the
   * status, then a colon and a space, then the status text.
   */
  function Details(status: int, statusText: string): (r: string)
    ensures |r| >= |statusText| + 3
    ensures r[|r| - |statusText| - 2..] == ": " + statusText
    ensures SignedValue(r[..|r| - |statusText| - 2]) == status
    ensures r[..|r| - |statusText| - 2] == IntDecimal(status)
  {
    var code := IntDecimal(status);
    assert (code + ": " + statusText)[..|code|] == code;
    assert (code + ": " + statusText)[|code|..] == ": " + statusText;
    code + ": " + statusText
  }

  /** Where the route ends before the store: a reply, or an upscaled image to return. */
  datatype Stage =
    | Respond(reply: Reply)
    | Completed(upscaledUrl: string, imageData: Json, filename: Json, userId: Value)

  /** The request's body has been parsed and destructured without throwing. */
  predicate Readable(body: Option<Json>) {
    body.Some? && !body.value.JNull?
  }

  /** `POST` up to the history insert: validation, decoding, the CLIPDROP call and the result URL. */
  function Process(cfg: Config, services: Services, body: Option<Json>): (s: Stage)
    ensures !Readable(body) ==> s == Respond(Failed)
    ensures s == Respond(MissingInput) <==>
      Readable(body) && (!Truthy(Get(body, "imageData")) || !Truthy(Get(body, "filename")))
    ensures s == Respond(ApiKeyMissing) <==>
      Readable(body) && Truthy(Get(body, "imageData")) && Truthy(Get(body, "filename")) && !Present(cfg.apiKey)
    ensures s.Respond? && s.reply.ProviderError? ==>
      Readable(body) && Get(body, "imageData").value.JStr?
      && var answer := Upload(services, Get(body, "imageData").value.s, Get(body, "filename").value);
         answer.Some? && answer.value.Answered?
         && answer.value.status == Status(s.reply) && !IsOk(answer.value.status)
    ensures s.Completed? ==>
      Readable(body) && Present(cfg.apiKey)
      && Some(s.imageData) == Get(body, "imageData") && s.imageData.JStr?
      && Some(s.filename) == Get(body, "filename") && s.userId == Get(body, "userId")
      && var answer := Upload(services, s.imageData.s, s.filename);
         answer.Some? && answer.value.Answered? && IsOk(answer.value.status)
         && s.upscaledUrl == ResultUrl(services, answer.value.body)
         && StartsWith(s.upscaledUrl, PngDataUrlPrefix)
    ensures (Readable(body) && Truthy(Get(body, "imageData")) && Truthy(Get(body, "filename")) && Present(cfg.apiKey)) ==>
      var imageData, filename := Get(body, "imageData").value, Get(body, "filename").value;
      (!imageData.JStr? ==> s == Respond(Failed))
      && (imageData.JStr? ==>
            match Upload(services, imageData.s, filename)
            case None => s == Respond(Failed)
            case Some(Unreachable) => s == Respond(Failed)
            case Some(Answered(status, statusText, upscaled)) =>
              if IsOk(status) then s == Completed(ResultUrl(services, upscaled), imageData, filename, Get(body, "userId"))
              else s == Respond(ProviderError(status, Details(status, statusText))))
  {
    if !Readable(body) then Respond(Failed)
    else
      var imageData, filename, userId := Get(body, "imageData"), Get(body, "filename"), Get(body, "userId");
      if !Truthy(imageData) || !Truthy(filename) then Respond(MissingInput)
      else if !Present(cfg.apiKey) then Respond(ApiKeyMissing)
      else if !imageData.value.JStr? then Respond(Failed)
      else
        match Upload(services, imageData.value.s, filename.value)
        case None => Respond(Failed)
        case Some(Unreachable) => Respond(Failed)
        case Some(Answered(status, statusText, upscaled)) =>
          if !IsOk(status) then Respond(ProviderError(status, Details(status, statusText)))
          else Completed(ResultUrl(services, upscaled), imageData.value, filename.value, userId)
  }

  /** A history row is written only with a configured store and a truthy user id. */
  predicate ShouldRecord(cfg: Config, s: Stage)
    requires s.Completed?
  {
    StoreConfigured(cfg) && Truthy(s.userId)
  }

  /** A row of `upscale_history`. */
  datatype HistoryRow = HistoryRow(
    id: nat, userId: Json, originalImage: Json, upscaledImage: string, filename: Json, status: string)

  /**
   * The `upscale_history` table. Its `id` column is drawn from a sequence:
   * every insert attempt takes the next value, so ids grow in insertion order
   * and a failed insert leaves a gap.
   */
  class HistoryTable {
    var rows: seq<HistoryRow>
    var nextId: nat

    /** Every id is below the next sequence value, and ids grow along the table. */
    ghost predicate Valid()
      reads this
    {
      (forall i :: 0 <= i < |rows| ==> rows[i].id < nextId)
      && (forall i, j :: 0 <= i < j < |rows| ==> rows[i].id < rows[j].id)
    }

    constructor ()
      ensures Valid()
      ensures rows == [] && nextId == 1
    {
      rows, nextId := [], 1;
    }

    /**
     * `POST`: a completed upscale is recorded when the store is configured and
     * the user is known; a failed insert only leaves `recordId` null.
     */
    method Post(cfg: Config, services: Services, body: Option<Json>, insertFails: bool) returns (reply: Reply)
      requires Valid()
      modifies this
      ensures Valid()
      ensures Process(cfg, services, body).Respond? ==>
        reply == Process(cfg, services, body).reply && rows == old(rows) && nextId == old(nextId)
      ensures Process(cfg, services, body).Completed? ==>
        var s := Process(cfg, services, body);
        reply.Upscaled? && Status(reply) == 200
        && reply.upscaledUrl == s.upscaledUrl && reply.originalUrl == s.imageData
        && reply.provider == ProviderLabel
      ensures Process(cfg, services, body).Completed? ==>
        var s := Process(cfg, services, body);
        nextId == (if ShouldRecord(cfg, s) then old(nextId) + 1 else old(nextId))
        && if ShouldRecord(cfg, s) && !insertFails then
          var row := HistoryRow(old(nextId), s.userId.value, s.imageData, s.upscaledUrl, s.filename, CompletedStatus);
          rows == old(rows) + [row] && reply.recordId == Some(row.id)
          && forall r :: r in old(rows) ==> r.id < row.id
        else
          rows == old(rows) && reply.recordId == None
    {
      var stage := Process(cfg, services, body);
      if stage.Respond? {
        return stage.reply;
      }
      var recordId: Option<nat> := None;
      if StoreConfigured(cfg) && Truthy(stage.userId) {
        var id := nextId;
        nextId := nextId + 1;
        if !insertFails {
          var row := HistoryRow(id, stage.userId.value, stage.imageData, stage.upscaledUrl, stage.filename, CompletedStatus);
          rows := rows + [row];
          recordId := Some(row.id);
        }
      }
      reply := Upscaled(stage.upscaledUrl, stage.imageData, recordId, ProviderLabel);
    }
  }
}
