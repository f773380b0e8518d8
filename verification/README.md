# Upscaling and credits backend: a Dafny model of its decision logic

This project models the parts of the headshots/upscaling web application that
make their own decisions, leaving the vendors it calls (Supabase, Paddle,
CLIPDROP, fal.ai, Resend) as parameters:

- **Paddle payment webhook** (`PaddleWebhook`): the early-return ladder
  (secret key, `paddle-signature` header, body, HMAC-SHA256 signature), the
  event classification, the two-shape extraction of `customerId` and
  `priceId`, the credit amount (default 5), and the read-then-update-or-insert
  on the `user_credits` table, modelled as a class `CreditLedger` whose field
  maps a customer id to its credits.
- **Upload selection** (`ImageUpscaleZone`): `onDrop` admits image files within
  10 files and 50 MiB, `removeFile` filters by name, `upscaleImages` posts the
  files in order to the endpoint of the chosen provider and publishes the
  results only when every request succeeds; a file read that never completes
  leaves the run suspended with the spinner on. The component's state is the
  class `UploadZone`.
- **CLIPDROP upscale route** (`ClipdropUpscale`): input validation, the
  three-way reading of `imageData` (data URL, path, raw base64), the provider
  call, the `data:image/png;base64,` result URL, and the conditional
  `upscale_history` insert (class `HistoryTable`).
- **Astria prompt webhook** (`AstriaPromptWebhook`): the query-parameter ladder
  with its case-insensitive secret, the user and model lookups, the e-mail
  gate, and one `images` row per prompt image (class `ImagesTable`).
- **Upscale status webhook** (`UpscaleWebhook`): the three-way status reply.

Shared modules: `JsValue` (JSON values, JavaScript truthiness, `.`, `?.`,
`?.[0]` and `||`) and `Text` (`startsWith`, `includes`, `toLowerCase`,
`split(',')[1]`, decimal rendering).

Each route is a pure function from its inputs to either a reply or the write it
will perform, plus a class method that performs the write step by step and
states the new table in terms of the old one. HMAC-SHA256, base64,
`JSON.parse`, `fetch`, `FileReader` and every database query are function-valued
parameters or plain inputs; a thrown exception or a rejected promise is a
`None` result.

Facts of the code that the model follows as written: a missing
`PADDLE_SECRET_KEY` gives 400, as do a missing `paddle-signature` header and a
missing body; a body stream that cannot be read, a body that `JSON.parse`
rejects after a good signature, and a handled event whose `data` is absent all
give 500; the signature comparison is plain string equality.

## Model

| member | source | states |
|---|---|---|
| `PaddleWebhook.CreditsFor` | app/stripe/paddle-webhook/route.ts:124 | `priceIdCredits[priceId] \|\| 5`: a truthy table entry for the price id is used, any miss or zero entry gives the default 5; the amount is never 0 |
| `PaddleWebhook.EveryPriceIdYieldsFive` | app/stripe/paddle-webhook/route.ts:23-25 | with the single configured entry, `priceIdCredits[priceId] \|\| 5` is 5 for every price id |
| `PaddleWebhook.VerifySignature` | app/stripe/paddle-webhook/route.ts:28-44 | a header verifies exactly when the digest computation succeeds and yields that header; a throwing digest verifies nothing |
| `PaddleWebhook.OnlyTheDigestIsAccepted` | app/stripe/paddle-webhook/route.ts:28-44 | a header is accepted only if it equals the base64 HMAC-SHA256 of the exact raw body under the key; at most one header is accepted per body and key; a throwing digest accepts none |
| `PaddleWebhook.CustomerIdOf` | app/stripe/paddle-webhook/route.ts:109 | the customer id is truthy iff `data.customerId` or `data.customer.id` is, is `data.customerId` whenever that is truthy, and is `data.customer?.id` otherwise |
| `PaddleWebhook.PriceIdOf` | app/stripe/paddle-webhook/route.ts:110 | the price id is truthy iff `data.items[0].priceId` or `data.priceId` is, is the first whenever that is truthy, and is `data.priceId` otherwise |
| `PaddleWebhook.Dispatch` | app/stripe/paddle-webhook/route.ts:104-124 | the handled types (`IsHandledEvent`) are `subscription.created`, `subscription.updated` and `transaction.completed`; a `null` event or a handled event without `data` is a 500; any other type is acknowledged with 200; a handled event credits exactly when both the customer id and the price id are truthy, and then credits 5 to `data.customerId \|\| data.customer?.id`; otherwise it is the 400 "Missing customer or price data" |
| `PaddleWebhook.Decide` | app/stripe/paddle-webhook/route.ts:53-88 | missing secret, then missing header, then missing body give 400 in that order; an unreadable body stream gives 500; the reply is 401 exactly when those pass and the signature does not verify; a credit requires a verified, parsed body and is 5; a verified body that does not parse gives 500, and a verified parsed body is decided by `Dispatch` |
| `PaddleWebhook.UnhandledEventAcknowledged` | app/stripe/paddle-webhook/route.ts:177-178 | a verified event of any other type is answered 200 `{received: true}` with nothing credited |
| `PaddleWebhook.MissingCustomerRejected` | app/stripe/paddle-webhook/route.ts:115-121 | a handled event with neither `data.customerId` nor `data.customer.id` is a 400 with nothing credited |
| `PaddleWebhook.MissingPriceRejected` | app/stripe/paddle-webhook/route.ts:115-121 | a handled event with neither `data.items[0].priceId` nor `data.priceId` is a 400 with nothing credited |
| `PaddleWebhook.BothIdsCredit` | app/stripe/paddle-webhook/route.ts:108-124 | a verified handled event carrying `data.customerId` and `data.priceId` credits 5 to `data.customerId` |
| `PaddleWebhook.NestedCustomerCredited` | app/stripe/paddle-webhook/route.ts:108-124 | a verified handled event with a falsy `data.customerId`, a truthy `data.customer.id` and a price id credits 5 to `data.customer.id` |
| `JsValue.Or` | app/stripe/paddle-webhook/route.ts:109-110 | `a \|\| b` is truthy iff either operand is, is `a` when `a` is truthy and `b` otherwise |
| `PaddleWebhook.ThrowingPayloadIsProcessingError` | app/stripe/paddle-webhook/route.ts:180-186 | a verified body that `JSON.parse` rejects, a `null` event, or a handled event without `data` gives 500 |
| `PaddleWebhook.Credited` | app/stripe/paddle-webhook/route.ts:129-168 | with a healthy store the customer's credits become old balance + amount (a new row holds the amount); a thrown fetch or a failed write leaves the table as it was; a fetch error inserts a row only for a customer without one; no other customer's row changes or appears |
| `PaddleWebhook.SequentialCreditsAddUp` | app/stripe/paddle-webhook/route.ts:139-167 | sequential healthy credits to one customer raise the balance by their sum and leave every other balance alone |
| `PaddleWebhook.FiveThenThreeMakeEight` | app/stripe/paddle-webhook/route.ts:139-167 | two events of 5 and 3 on a customer without a row leave 8 credits |
| `PaddleWebhook.CreditLedger.Post` | app/stripe/paddle-webhook/route.ts:46-187 | every exit before the ledger block leaves the table unchanged; a credit updates the table as `Credited` says and is always answered 200 `{received: true}`, whatever the store does |
| `Text.IncludesIffOccurs` | app/astria/prompt-webhook/route.ts:133 | `includes` holds exactly when the substring occurs at some position |
| `Text.ToLower` | app/astria/prompt-webhook/route.ts:75 | `toLowerCase` keeps the length and lower-cases each character in place |
| `Text.SplitSecond` | app/api/clipdrop-upscale/route.ts:43 | `split(',')[1]` is undefined iff there is no comma, and otherwise is the comma-free text from just after the first comma up to the next comma or the end |
| `Text.Decimal` | app/api/clipdrop-upscale/route.ts:79 | a non-negative status renders as decimal digits that denote it, without leading zeros |
| `Text.IntDecimal` | app/api/clipdrop-upscale/route.ts:79 | any integer status renders as digits, after a minus sign when negative, that read back as the status, with no leading zero, `0` for zero; a negative status is `-` followed by the rendering of its magnitude, as `String(i)` prints it |
| `ImageUpscaleZone.Images` | components/ImageUpscaleZone.tsx:51-53 | the filter keeps exactly the dropped files whose type starts with `image/`, and keeps all of them iff every dropped file is an image |
| `ImageUpscaleZone.ImagesAppend` | components/ImageUpscaleZone.tsx:51-53 | the filter distributes over concatenation, so the kept files keep their order and multiplicity |
| `ImageUpscaleZone.TotalSizeAppend` | components/ImageUpscaleZone.tsx:72-75 | the size of the old files plus the new images is the size of the combined list |
| `ImageUpscaleZone.Drop` | components/ImageUpscaleZone.tsx:49-92 | a non-image warning iff some dropped file is not an image; the count check comes before the size check; an accepted drop appends the images in order, a rejected one leaves the list unchanged |
| `ImageUpscaleZone.DropKeepsLimits` | components/ImageUpscaleZone.tsx:63-82 | a list with at most 10 files and at most 50 MiB keeps both bounds after any drop |
| `ImageUpscaleZone.DropAddsOnlyDroppedImages` | components/ImageUpscaleZone.tsx:84 | a drop keeps the old files as a prefix and adds only dropped image files |
| `ImageUpscaleZone.ExactlyFiftyMiBIsAdmitted` | components/ImageUpscaleZone.tsx:75 | any drop that fits the count and brings the total to exactly 50 MiB is accepted and appends its images |
| `ImageUpscaleZone.RemoveByName` | components/ImageUpscaleZone.tsx:94-99 | removal drops every file with that name and keeps every other file; count and total size never grow |
| `ImageUpscaleZone.RemoveKeepsOrder` | components/ImageUpscaleZone.tsx:96 | removal distributes over concatenation, so the kept files stay in their order |
| `ImageUpscaleZone.RemoveKeepsLimits` | components/ImageUpscaleZone.tsx:94-99 | removal keeps a list within 10 files and 50 MiB |
| `ImageUpscaleZone.Endpoint` | components/ImageUpscaleZone.tsx:117 | the endpoint is `/api/clipdrop-upscale` exactly for CLIPDROP and `/api/upscale` for fal.ai |
| `ImageUpscaleZone.Attempt` | components/ImageUpscaleZone.tsx:108-143 | one file stalls exactly when its read never completes, and uploads exactly when it is read and the post to the provider's endpoint answers OK; its entry holds the data URL, the file name and the provider, and its upscaled URL and record id are the reply's `upscaledUrl` and `recordId` |
| `ImageUpscaleZone.UpscaleAll` | components/ImageUpscaleZone.tsx:105-146 | the run completes iff every file uploads, and then holds one entry per file in file order; otherwise it ends at the first file that does not upload, as a failure or a stall according to that file |
| `ImageUpscaleZone.RequestsSent` | components/ImageUpscaleZone.tsx:108-134 | requests are sent only for files that were read, in order up to the first that does not upload: exactly `index + 1` requests when the run fails at `index` (its request was sent), exactly `index` when it stalls there (its read never completed), and one per file when the run completes |
| `ImageUpscaleZone.FailureIsFinal` | components/ImageUpscaleZone.tsx:108-134 | the first file that does not upload after successful ones settles the run as a failure or a stall at that position |
| `ImageUpscaleZone.UploadZone.constructor` | components/ImageUpscaleZone.tsx:23-27 | the component starts with no files, not loading, no results, no user and CLIPDROP selected |
| `ImageUpscaleZone.UploadZone.SessionLoaded` | components/ImageUpscaleZone.tsx:37-46 | a truthy session user id is stored, anything else leaves the user id alone |
| `ImageUpscaleZone.UploadZone.SelectProvider` | components/ImageUpscaleZone.tsx:225-241 | the provider buttons set the provider |
| `ImageUpscaleZone.UploadZone.OnDrop` | components/ImageUpscaleZone.tsx:49-92 | `files` becomes the drop's resulting list and stays within 10 files and 50 MiB |
| `ImageUpscaleZone.UploadZone.RemoveFile` | components/ImageUpscaleZone.tsx:94-99 | `files` becomes the list without the files of that name and stays within both bounds |
| `ImageUpscaleZone.UploadZone.UpscaleImages` | components/ImageUpscaleZone.tsx:101-163 | with no files nothing changes; otherwise the results replace `upscaledImages` only when the run completes, `isLoading` stays true exactly when the run stalls on a read, and the number of requests sent is `RequestsSent` |
| `ClipdropUpscale.Classify` | app/api/clipdrop-upscale/route.ts:41-52 | `imageData` is a data URL iff it starts with `data:image` (its payload is `split(',')[1]`), else a path iff it starts with `/`, else raw base64 |
| `ClipdropUpscale.ImageBytes` | app/api/clipdrop-upscale/route.ts:41-52 | the image bytes are missing exactly for a data URL without a comma or a path whose fetch fails; a data URL's payload and raw base64 are decoded, a path is fetched |
| `ClipdropUpscale.ResultUrlRoundTrip` | app/api/clipdrop-upscale/route.ts:86-90 | a returned `data:image/png;base64,` URL fed back as `imageData` is read as a data URL whose payload is exactly the provider bytes' base64 text |
| `ClipdropUpscale.Details` | app/api/clipdrop-upscale/route.ts:79 | the error details are exactly `IntDecimal(status)`, which reads back as the status, then `: ` and the status text |
| `ClipdropUpscale.Process` | app/api/clipdrop-upscale/route.ts:12-90 | a missing `imageData` or `filename` gives 400, checked before the missing API key's 500; past those, the bytes are obtained and sent to CLIPDROP (`Upload`); a non-string `imageData`, missing image bytes or an unreachable provider give 500, a non-OK answer gives `ProviderError` with the provider's own status and details, and an OK answer completes with `ResultUrl`: the PNG data-URL prefix followed by the base64 of the provider's bytes |
| `ClipdropUpscale.HistoryTable.Post` | app/api/clipdrop-upscale/route.ts:92-132 | a history row holding the user, original `imageData`, URL, filename and status `completed` is added only for a configured store and a truthy user id (`ShouldRecord`, route.ts:95) and a working insert; otherwise the reply is still a success with `recordId` null; a success carries `originalUrl` = `imageData` and provider `clipdrop`; error replies write nothing; each attempted insert takes the next id of the table's sequence, so a failed insert leaves a gap, and a new row's id exceeds every earlier row's id |
| `AstriaPromptWebhook.SecretMatchesPointwise` | app/astria/prompt-webhook/route.ts:75 | the secret check holds iff both have the same length and agree character by character after lower-casing |
| `AstriaPromptWebhook.LowerCaseSecretAccepted` | app/astria/prompt-webhook/route.ts:75 | the configured secret written in lower case is accepted |
| `AstriaPromptWebhook.EmailEnabled` | app/astria/prompt-webhook/route.ts:133 | e-mail is enabled exactly for a set, non-empty key in which neither `your-resend` nor `placeholder` occurs at any position |
| `AstriaPromptWebhook.Process` | app/astria/prompt-webhook/route.ts:46-174 | missing `model_id`, then missing `webhook_secret` give 500, then a secret mismatch 401, then a missing `user_id` 500; a failed user lookup gives 401 with the lookup error's message and an absent user 401 `Unauthorized`, both with no e-mail; past those, a missing prompt, non-array images or a failed model lookup give 500, and otherwise the rows to insert are exactly `prompt.images` for the found model; an e-mail goes to the user's address (or "") exactly when the user is found, the key is enabled and the images are present |
| `AstriaPromptWebhook.Inserted` | app/astria/prompt-webhook/route.ts:176-186 | every inserted row carries the model's id and one of the prompt's images whose insert worked; with no failing insert there is exactly one row per image, in order |
| `AstriaPromptWebhook.WorkingInsertsLand` | app/astria/prompt-webhook/route.ts:176-186 | every image whose insert works gets its row, whatever the other inserts do |
| `AstriaPromptWebhook.InsertedAppend` | app/astria/prompt-webhook/route.ts:176-186 | the rows of two runs of inserts are the rows of each, so one image's failure does not affect another's row |
| `AstriaPromptWebhook.ImagesTable.InsertAll` | app/astria/prompt-webhook/route.ts:176-186 | the per-image inserts append exactly the rows of `Inserted` |
| `AstriaPromptWebhook.ImagesTable.Post` | app/astria/prompt-webhook/route.ts:176-192 | early exits leave the `images` table unchanged; on success the rows of `Inserted` are appended and the reply is 200 even when an insert fails |
| `UpscaleWebhook.Handle` | app/api/upscale-webhook/route.ts:3-25 | an unparseable or `null` body gives 500 `Webhook processing failed`; `status` `failed` gives 500 `Upscaling failed`; anything else, `completed` without a URL included, gives 200 |
| `UpscaleWebhook.CompletedWithoutUrlAcknowledged` | app/api/upscale-webhook/route.ts:10-21 | a `completed` status without a truthy `upscaled_url` is still answered 200 `{success: true}` |

## Left out

- HMAC-SHA256, base64 (section 4 of RFC 4648), `JSON.parse`, `FileReader` and `fetch` are parameters; only the base64 alphabet is stated, as a premise of `ResultUrlRoundTrip`. The text `streamToString` reads is an input, with a read that rejects as `None`.
- All database and network I/O: each Supabase query, the CLIPDROP call and the Resend e-mail are inputs giving their result; the tables are in-memory fields.
- Concurrency: webhook deliveries are sequential. The read-then-write credit update is not atomic in the code and concurrent deliveries can lose an update; interleavings are not modelled.
- The per-image inserts of the Astria webhook run concurrently; the model appends them in list order.
- `Date.now()`, `updated_at` and the `jobId`/`job_id` strings; logging and toasts beyond the drop verdict.
- The `user_credits` table is keyed by the JSON value of the customer id; the store's conversion of non-string ids to text is not modelled. An insert for a customer that already has a row (reached when the initial fetch errors) is modelled as refused by a one-row-per-user key; the table's schema is not part of this model.
- `priceIdCredits` lookups of inherited object property names (such as `constructor`) and of non-string price ids are modelled as misses.
- `ClipdropUpscale.HistoryTable.Post`: the id sequence advances on every attempted insert, including a failure that may not have reached the database.
- `toLowerCase` is modelled on ASCII letters only.
- JSON numbers are integers; property reads model only the own keys of objects (no prototype properties, no `length`).
- Paddle: the `status` local is computed only for logging and is not modelled.
- CLIPDROP: the `Blob`/`FormData` packaging and the MIME type it sends; whether `fetch` can resolve a leading-`/` path on the server is left to the `fetchPath` parameter; `text()` or `arrayBuffer()` on the provider's response rejecting is not modelled.
- `ImageUpscaleZone.UploadZone.UpscaleImages`: a read that never completes suspends the run forever; the method returns the state the component then stays in rather than not returning.
- Astria: an e-mail that fails to send does not change the reply; the model has no send-failure input because the reply does not depend on it. The module-load checks on missing environment variables are outside the handler.
- UI rendering, downloads, dropzone configuration, and the other pages and components; the fal.ai and Replicate wrapper routes; session middleware; diagnostic scripts.
