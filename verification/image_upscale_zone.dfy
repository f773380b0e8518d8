/**
 * The upload widget of the upscaling page: `onDrop` admits dropped image files
 * into the selection within a count and a size budget, `removeFile` drops
 * files by name, and `upscaleImages` posts the files one by one to the
 * endpoint of the chosen provider and publishes the results only when every
 * request succeeds.
 */
module ImageUpscaleZone {
  import opened JsValue
  import opened Text

  /** At most this many files may be selected. */
  const MaxFiles: nat := 10

  /** The selected files may total at most 50 MiB. */
  const MaxTotalBytes: nat := 50 * 1024 * 1024

  /** A browser `File`: its name, MIME type and size in bytes. */
  datatype File = File(name: string, mimeType: string, size: nat)

  predicate IsImage(f: File) {
    StartsWith(f.mimeType, "image/")
  }

  /** `acceptedFiles.filter(file => file.type.startsWith('image/'))` */
  function Images(dropped: seq<File>): (r: seq<File>)
    ensures |r| <= |dropped|
    ensures forall i :: 0 <= i < |r| ==> IsImage(r[i]) && r[i] in dropped
    ensures forall i :: 0 <= i < |dropped| && IsImage(dropped[i]) ==> dropped[i] in r
    ensures |r| == |dropped| <==> forall i :: 0 <= i < |dropped| ==> IsImage(dropped[i])
  {
    if dropped == [] then []
    else if IsImage(dropped[0]) then [dropped[0]] + Images(dropped[1..])
    else Images(dropped[1..])
  }

  /** Filtering keeps the kept files in their order: it distributes over concatenation. */
  lemma {:induction false} ImagesAppend(a: seq<File>, b: seq<File>)
    ensures Images(a + b) == Images(a) + Images(b)
  {
    if a != [] {
      assert (a + b)[1..] == a[1..] + b;
      ImagesAppend(a[1..], b);
    } else {
      assert a + b == b;
    }
  }

  /** `files.reduce((acc, file) => acc + file.size, 0)` */
  function TotalSize(files: seq<File>): nat {
    if files == [] then 0 else files[0].size + TotalSize(files[1..])
  }

  lemma {:induction false} TotalSizeAppend(a: seq<File>, b: seq<File>)
    ensures TotalSize(a + b) == TotalSize(a) + TotalSize(b)
  {
    if a != [] {
      assert (a + b)[1..] == a[1..] + b;
      TotalSizeAppend(a[1..], b);
    } else {
      assert a + b == b;
    }
  }

  /** The selection respects both budgets. */
  predicate WithinLimits(files: seq<File>) {
    |files| <= MaxFiles && TotalSize(files) <= MaxTotalBytes
  }

  /** The toast that ends a drop. */
  datatype Verdict = TooManyImages | FilesTooLarge | ImagesAdded(count: nat)

  /**
   * What a drop does: whether it warns about non-image files, how it ends,
   * and the selection afterwards.
   */
  datatype DropOutcome = DropOutcome(warnedInvalid: bool, verdict: Verdict, files: seq<File>)

  /** `onDrop`: the count check comes first, then the size check, then the append. */
  function Drop(files: seq<File>, dropped: seq<File>): (r: DropOutcome)
    ensures r.warnedInvalid <==> exists i :: 0 <= i < |dropped| && !IsImage(dropped[i])
    ensures r.verdict == TooManyImages <==> |files| + |Images(dropped)| > MaxFiles
    ensures r.verdict == FilesTooLarge <==>
      |files| + |Images(dropped)| <= MaxFiles && TotalSize(files + Images(dropped)) > MaxTotalBytes
    ensures r.verdict.ImagesAdded? ==>
      r.files == files + Images(dropped) && r.verdict.count == |Images(dropped)|
    ensures !r.verdict.ImagesAdded? ==> r.files == files
  {
    var images := Images(dropped);
    var warned := |images| != |dropped|;
    TotalSizeAppend(files, images);
    if |images| + |files| > MaxFiles then DropOutcome(warned, TooManyImages, files)
    else if TotalSize(files) + TotalSize(images) > MaxTotalBytes then DropOutcome(warned, FilesTooLarge, files)
    else DropOutcome(warned, ImagesAdded(|images|), files + images)
  }

  /** A drop keeps a selection within both budgets. */
  lemma DropKeepsLimits(files: seq<File>, dropped: seq<File>)
    requires WithinLimits(files)
    ensures WithinLimits(Drop(files, dropped).files)
  {
    TotalSizeAppend(files, Images(dropped));
  }

  /** A drop adds only image files that were dropped, and keeps every file already selected. */
  lemma DropAddsOnlyDroppedImages(files: seq<File>, dropped: seq<File>)
    ensures files <= Drop(files, dropped).files
    ensures forall i :: |files| <= i < |Drop(files, dropped).files| ==>
      IsImage(Drop(files, dropped).files[i]) && Drop(files, dropped).files[i] in dropped
  {
  }

  /** A drop that fits the count and brings the total to exactly 50 MiB is admitted. */
  lemma ExactlyFiftyMiBIsAdmitted(files: seq<File>, dropped: seq<File>)
    requires |files| + |Images(dropped)| <= MaxFiles
    requires TotalSize(files + Images(dropped)) == MaxTotalBytes
    ensures Drop(files, dropped).verdict == ImagesAdded(|Images(dropped)|)
    ensures Drop(files, dropped).files == files + Images(dropped)
  {
  }

  /** `files.filter((f) => f.name !== name)` */
  function RemoveByName(files: seq<File>, name: string): (r: seq<File>)
    ensures |r| <= |files|
    ensures TotalSize(r) <= TotalSize(files)
    ensures forall i :: 0 <= i < |r| ==> r[i].name != name
    ensures forall f :: f in r <==> f in files && f.name != name
  {
    if files == [] then []
    else if files[0].name != name then [files[0]] + RemoveByName(files[1..], name)
    else RemoveByName(files[1..], name)
  }

  /** Removal keeps the remaining files in their order: it distributes over concatenation. */
  lemma {:induction false} RemoveKeepsOrder(a: seq<File>, b: seq<File>, name: string)
    ensures RemoveByName(a + b, name) == RemoveByName(a, name) + RemoveByName(b, name)
  {
    if a != [] {
      assert (a + b)[1..] == a[1..] + b;
      RemoveKeepsOrder(a[1..], b, name);
    } else {
      assert a + b == b;
    }
  }

  /** Removal keeps a selection within both budgets. */
  lemma RemoveKeepsLimits(files: seq<File>, name: string)
    requires WithinLimits(files)
    ensures WithinLimits(RemoveByName(files, name))
  {
  }

  /** The upscaling service the widget posts to. */
  datatype Provider = Fal | Clipdrop

  /** The route the widget posts a file to. */
  function Endpoint(p: Provider): (e: string)
    ensures e == "/api/clipdrop-upscale" <==> p == Clipdrop
    ensures p == Fal ==> e == "/api/upscale"
  {
    if p == Clipdrop then "/api/clipdrop-upscale" else "/api/upscale"
  }

  /** The JSON body posted for one file. */
  datatype UpscaleRequest = UpscaleRequest(imageData: string, filename: string, userId: Option<string>)

  /** A response: `response.ok`, and the `upscaledUrl` and `recordId` of its JSON body. */
  datatype ApiReply = ApiReply(ok: bool, upscaledUrl: Value, recordId: Value)

  /**
   * The browser side: `FileReader.readAsDataURL` (`None` when the reader never
   * fires `onload`), and `fetch` followed by `response.json()` (`None` when
   * either rejects, or when the JSON body is `null`, so that reading
   * `result.upscaledUrl` throws).
   */
  datatype Client = Client(
    readDataUrl: File -> Option<string>,
    post: (string, UpscaleRequest) -> Option<ApiReply>)

  /** One entry of `upscaledImages`. */
  datatype UpscaledImage = UpscaledImage(
    original: string, upscaled: Value, filename: string, recordId: Value, provider: Provider)

  /**
   * How the work on one file ends: an entry for the results, a request that
   * fails (a rejected `fetch` or `json()`, or a response that is not OK), or a
   * read that never completes, so that the request is never sent.
   */
  datatype Step = Uploaded(image: UpscaledImage) | RequestFailed | ReadStalled

  /** The answer to the post for a file that has been read. */
  function PostFor(f: File, provider: Provider, userId: Option<string>, client: Client): Option<ApiReply>
    requires client.readDataUrl(f).Some?
  {
    client.post(Endpoint(provider), UpscaleRequest(client.readDataUrl(f).value, f.name, userId))
  }

  /** The read and the request for one file. */
  function Attempt(f: File, provider: Provider, userId: Option<string>, client: Client): (r: Step)
    ensures r.ReadStalled? <==> client.readDataUrl(f).None?
    ensures r.Uploaded? <==>
      client.readDataUrl(f).Some? && PostFor(f, provider, userId, client).Some? && PostFor(f, provider, userId, client).value.ok
    ensures r.Uploaded? ==>
      r.image.original == client.readDataUrl(f).value && r.image.filename == f.name && r.image.provider == provider
    ensures r.Uploaded? ==>
      r.image.upscaled == PostFor(f, provider, userId, client).value.upscaledUrl
      && r.image.recordId == PostFor(f, provider, userId, client).value.recordId
  {
    match client.readDataUrl(f)
    case None => ReadStalled
    case Some(base64) =>
      var reply := PostFor(f, provider, userId, client);
      if reply.Some? && reply.value.ok then
        Uploaded(UpscaledImage(base64, reply.value.upscaledUrl, f.name, reply.value.recordId, provider))
      else RequestFailed
  }

  /** How a run over the selection ends. */
  datatype Run = Completed(results: seq<UpscaledImage>) | FailedAt(index: nat) | StalledAt(index: nat)

  /** The run over `files` in order, ending at the first file that does not upload. */
  function UpscaleAll(files: seq<File>, provider: Provider, userId: Option<string>, client: Client): (r: Run)
    ensures r.Completed? <==> forall i :: 0 <= i < |files| ==> Attempt(files[i], provider, userId, client).Uploaded?
    ensures r.Completed? ==> |r.results| == |files|
    ensures r.Completed? ==> forall i :: 0 <= i < |files| ==>
      r.results[i] == Attempt(files[i], provider, userId, client).image
      && r.results[i].filename == files[i].name
      && r.results[i].original == client.readDataUrl(files[i]).value
      && r.results[i].provider == provider
    ensures !r.Completed? ==>
      r.index < |files| && forall i :: 0 <= i < r.index ==> Attempt(files[i], provider, userId, client).Uploaded?
    ensures r.FailedAt? ==> Attempt(files[r.index], provider, userId, client).RequestFailed?
    ensures r.StalledAt? ==> Attempt(files[r.index], provider, userId, client).ReadStalled?
  {
    if files == [] then Completed([])
    else
      var init := files[..|files| - 1];
      var run := UpscaleAll(init, provider, userId, client);
      if !run.Completed? then run
      else
        match Attempt(files[|files| - 1], provider, userId, client)
        case Uploaded(image) => Completed(run.results + [image])
        case RequestFailed => FailedAt(|files| - 1)
        case ReadStalled => StalledAt(|files| - 1)
  }

  /** The number of requests sent: one per file up to the first that does not upload, that one included when it was read. */
  function RequestsSent(files: seq<File>, provider: Provider, userId: Option<string>, client: Client): (n: nat)
    ensures n <= |files|
    ensures forall i :: 0 <= i < n ==> client.readDataUrl(files[i]).Some?
    ensures forall i :: 0 <= i < n - 1 ==> Attempt(files[i], provider, userId, client).Uploaded?
    ensures n < |files| ==> !UpscaleAll(files, provider, userId, client).Completed?
    ensures UpscaleAll(files, provider, userId, client).Completed? ==> n == |files|
    ensures UpscaleAll(files, provider, userId, client).FailedAt? ==> n == UpscaleAll(files, provider, userId, client).index + 1
    ensures UpscaleAll(files, provider, userId, client).StalledAt? ==> n == UpscaleAll(files, provider, userId, client).index
  {
    match UpscaleAll(files, provider, userId, client)
    case Completed(_) => |files|
    case FailedAt(i) => i + 1
    case StalledAt(i) => i
  }

  /** The first file that does not upload settles the outcome of the whole run. */
  lemma FailureIsFinal(files: seq<File>, i: nat, provider: Provider, userId: Option<string>, client: Client)
    requires i < |files|
    requires UpscaleAll(files[..i], provider, userId, client).Completed?
    requires !Attempt(files[i], provider, userId, client).Uploaded?
    ensures UpscaleAll(files, provider, userId, client) ==
      if Attempt(files[i], provider, userId, client).RequestFailed? then FailedAt(i) else StalledAt(i)
  {
  }

  /** The state of the component. */
  class UploadZone {
    var files: seq<File>
    var isLoading: bool
    var upscaledImages: seq<UpscaledImage>
    var userId: Option<string>
    var provider: Provider

    /** The selection stays within both budgets. */
    ghost predicate Valid()
      reads this
    {
      WithinLimits(files)
    }

    /** The initial state: nothing selected, not loading, CLIPDROP chosen. */
    constructor ()
      ensures Valid()
      ensures files == [] && !isLoading && upscaledImages == []
      ensures userId == None && provider == Clipdrop
    {
      files, isLoading, upscaledImages := [], false, [];
      userId, provider := None, Clipdrop;
    }

    /** The session lookup on mount: a truthy user id is kept. */
    method SessionLoaded(sessionUserId: Option<string>)
      modifies this`userId
      ensures userId == if Present(sessionUserId) then sessionUserId else old(userId)
    {
      if Present(sessionUserId) {
        userId := sessionUserId;
      }
    }

    /** The provider buttons. */
    method SelectProvider(p: Provider)
      modifies this`provider
      ensures provider == p
    {
      provider := p;
    }

    method OnDrop(dropped: seq<File>) returns (outcome: DropOutcome)
      requires Valid()
      modifies this`files
      ensures Valid()
      ensures outcome == Drop(old(files), dropped)
      ensures files == outcome.files
    {
      outcome := Drop(files, dropped);
      DropKeepsLimits(files, dropped);
      files := outcome.files;
    }

    method RemoveFile(file: File)
      requires Valid()
      modifies this`files
      ensures Valid()
      ensures files == RemoveByName(old(files), file.name)
    {
      RemoveKeepsLimits(files, file.name);
      files := RemoveByName(files, file.name);
    }

    /**
     * `upscaleImages`: nothing happens without files; otherwise the files are
     * posted in order until one does not upload, and the results replace
     * `upscaledImages` only when all do. A failed request ends the run with
     * `isLoading` false; a read that never completes leaves the run suspended
     * for good, here returned as the state it stays in, `isLoading` still true.
     */
    method UpscaleImages(client: Client) returns (sent: nat)
      modifies this`isLoading, this`upscaledImages
      ensures old(files) == [] ==> sent == 0 && isLoading == old(isLoading) && upscaledImages == old(upscaledImages)
      ensures old(files) != [] ==> (isLoading <==> UpscaleAll(files, provider, userId, client).StalledAt?)
      ensures old(files) != [] && UpscaleAll(files, provider, userId, client).Completed? ==>
        upscaledImages == UpscaleAll(files, provider, userId, client).results
      ensures !UpscaleAll(files, provider, userId, client).Completed? ==> upscaledImages == old(upscaledImages)
      ensures sent == RequestsSent(files, provider, userId, client)
    {
      if |files| == 0 {
        return 0;
      }
      isLoading := true;
      var results: seq<UpscaledImage> := [];
      var endpoint := Endpoint(provider);
      var i := 0;
      while i < |files|
        invariant 0 <= i <= |files|
        invariant UpscaleAll(files[..i], provider, userId, client) == Completed(results)
      {
        var file := files[i];
        var base64 := client.readDataUrl(file);
        if base64.None? {
          FailureIsFinal(files, i, provider, userId, client);
          return i;
        }
        var reply := client.post(endpoint, UpscaleRequest(base64.value, file.name, userId));
        if reply.None? || !reply.value.ok {
          FailureIsFinal(files, i, provider, userId, client);
          isLoading := false;
          return i + 1;
        }
        results := results + [UpscaledImage(base64.value, reply.value.upscaledUrl, file.name, reply.value.recordId, provider)];
        assert files[..i + 1][..i] == files[..i];
        i := i + 1;
      }
      assert files[..i] == files;
      upscaledImages := results;
      isLoading := false;
      sent := i;
    }
  }
}
