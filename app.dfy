/**
 * The feed and its generation handler (App.tsx). `handleGenerate` puts a new
 * `generating` record at the front of the feed, awaits the generation client
 * and then rewrites, by id, every record carrying the new id to `completed`
 * or `failed`; `isGenerating` is raised for the duration of the call.
 * `Date.now()` is replaced by the `id` and `timestamp` parameters.
 */
module App {
  import opened Wrappers
  import opened Types
  import opened DataUrls
  import GeminiService

  /** The aspect ratio every new record and every request uses. */
  const DefaultAspectRatio: AspectRatio := Landscape
  /** The error text a failed record gets, whatever was thrown. */
  const GenerationFailedMessage: string := "Generation failed"

  /** How a settled generation rewrites a record: the two object spreads. */
  datatype Settlement = Completes(videoUri: string) | Fails

  /** A template literal's text for an optional string: `undefined` prints as "undefined". */
  function TemplateText(s: Option<string>): (t: string)
    ensures s.Some? ==> t == s.value
    ensures s.None? ==> t == "undefined"
  {
    if s.Some? then s.value else "undefined"
  }

  /** The record `handleGenerate` creates before the call. */
  function NewVideo(id: string, prompt: string, imageBase64: Option<string>,
                    imageMimeType: Option<string>, timestamp: int): (v: GeneratedVideo)
    ensures v.id == id && v.prompt == prompt && v.timestamp == timestamp
    ensures v.status == Generating && v.aspectRatio == DefaultAspectRatio
    ensures v.videoUrl.None? && v.error.None?
    ensures v.thumbnailUrl.Some? <==> Truthy(imageBase64)
    ensures Truthy(imageBase64) ==>
      v.thumbnailUrl == Some(DataUrl(TemplateText(imageMimeType), imageBase64.value))
  {
    GeneratedVideo(
      id, prompt, None,
      if Truthy(imageBase64) then Some(DataUrl(TemplateText(imageMimeType), imageBase64.value)) else None,
      Generating, timestamp, None, DefaultAspectRatio)
  }

  /** The parameters `handleGenerate` passes to the generation client. */
  function RequestParams(prompt: string, imageBase64: Option<string>, imageMimeType: Option<string>)
    : (p: VideoGenerationParams)
    ensures p.prompt == prompt && p.imageBase64 == imageBase64 && p.imageMimeType == imageMimeType
    ensures p.aspectRatio == DefaultAspectRatio
  {
    VideoGenerationParams(prompt, imageBase64, imageMimeType, DefaultAspectRatio)
  }

  /** `{ ...v, status: 'completed', videoUrl }` or `{ ...v, status: 'failed', error }`. */
  function Settle(v: GeneratedVideo, s: Settlement): (r: GeneratedVideo)
    ensures r.id == v.id && r.prompt == v.prompt && r.timestamp == v.timestamp
    ensures r.thumbnailUrl == v.thumbnailUrl && r.aspectRatio == v.aspectRatio
    ensures s.Completes? ==> r.status == Completed && r.videoUrl == Some(s.videoUri) && r.error == v.error
    ensures s.Fails? ==> r.status == Failed && r.error == Some(GenerationFailedMessage) && r.videoUrl == v.videoUrl
  {
    match s
    case Completes(uri) => v.(status := Completed, videoUrl := Some(uri))
    case Fails => v.(status := Failed, error := Some(GenerationFailedMessage))
  }

  /**
   * `prev.map(v => v.id === id ? settled(v) : v)`. Ids are not assumed to be
   * unique: every record carrying the id is rewritten.
   */
  function Reconcile(videos: seq<GeneratedVideo>, id: string, s: Settlement): (r: seq<GeneratedVideo>)
    ensures |r| == |videos|
    ensures forall i :: 0 <= i < |videos| && videos[i].id == id ==> r[i] == Settle(videos[i], s)
    ensures forall i :: 0 <= i < |videos| && videos[i].id != id ==> r[i] == videos[i]
  {
    if videos == [] then []
    else [if videos[0].id == id then Settle(videos[0], s) else videos[0]] + Reconcile(videos[1..], id, s)
  }

  /** Rewriting by an id no record carries leaves the feed as it is. */
  lemma ReconcileWithoutMatch(videos: seq<GeneratedVideo>, id: string, s: Settlement)
    requires forall i :: 0 <= i < |videos| ==> videos[i].id != id
    ensures Reconcile(videos, id, s) == videos
  {
  }

  /** Rewriting twice by the same id and settlement is rewriting once. */
  lemma ReconcileIdempotent(videos: seq<GeneratedVideo>, id: string, s: Settlement)
    ensures Reconcile(Reconcile(videos, id, s), id, s) == Reconcile(videos, id, s)
  {
  }

  /**
   * A submission followed by its settlement, with an id no earlier record
   * carries: only the new record at the front changes, and the earlier
   * feed follows it unchanged.
   */
  lemma SubmitThenSettle(prev: seq<GeneratedVideo>, v: GeneratedVideo, s: Settlement)
    requires forall i :: 0 <= i < |prev| ==> prev[i].id != v.id
    ensures Reconcile([v] + prev, v.id, s) == [Settle(v, s)] + prev
  {
  }

  /**
   * The thumbnail App.tsx builds from the payload and media type the input
   * bar takes out of a FileReader data URL is that same data URL, the preview
   * the input bar showed; and the request carries the image. An empty payload
   * is falsy: the record gets no thumbnail and the request is text-only.
   */
  lemma ThumbnailIsPreview(id: string, prompt: string, mime: string, payload: string, timestamp: int)
    requires Comma !in mime && mime != ""
    requires IsBase64Text(payload)
    ensures var preview := DataUrl(mime, payload);
      var b64 := Base64Payload(preview);
      && (payload != "" ==> NewVideo(id, prompt, b64, Some(mime), timestamp).thumbnailUrl == Some(preview))
      && (payload != "" ==>
            GeminiService.BuildRequest(RequestParams(prompt, b64, Some(mime))).image
              == Some(GeminiService.ImageInput(payload, mime)))
      && (payload == "" ==> NewVideo(id, prompt, b64, Some(mime), timestamp).thumbnailUrl.None?)
      && (payload == "" ==> GeminiService.BuildRequest(RequestParams(prompt, b64, Some(mime))).image.None?)
  {
    Base64PayloadRoundTrip(mime, payload);
  }

  /** The application's state: the feed, the busy flag and the key gate. */
  class App {
    var hasApiKey: bool
    var videos: seq<GeneratedVideo>
    var isGenerating: bool

    constructor ()
      ensures !hasApiKey && videos == [] && !isGenerating
    {
      hasApiKey := false;
      videos := [];
      isGenerating := false;
    }

    /** The key gate's callback: `setHasApiKey(true)`. */
    method OnKeySelected()
      modifies this
      ensures hasApiKey
      ensures videos == old(videos) && isGenerating == old(isGenerating)
    {
      hasApiKey := true;
    }

    /** `handleGenerate` up to the await: raise the flag and prepend the new record. */
    method BeginGenerate(prompt: string, imageBase64: Option<string>, imageMimeType: Option<string>,
                         id: string, timestamp: int)
      returns (params: VideoGenerationParams)
      modifies this
      ensures isGenerating
      ensures videos == [NewVideo(id, prompt, imageBase64, imageMimeType, timestamp)] + old(videos)
      ensures params == RequestParams(prompt, imageBase64, imageMimeType)
      ensures hasApiKey == old(hasApiKey)
    {
      isGenerating := true;
      var newVideo := NewVideo(id, prompt, imageBase64, imageMimeType, timestamp);
      videos := [newVideo] + videos;
      params := RequestParams(prompt, imageBase64, imageMimeType);
    }

    /** `handleGenerate` after the call settles: the matching map, then `finally`. */
    method FinishGenerate(id: string, outcome: GeminiService.GenerateOutcome)
      requires !outcome.StillPolling?
      modifies this
      ensures !isGenerating
      ensures outcome.Resolved? ==> videos == Reconcile(old(videos), id, Completes(outcome.result.videoUri))
      ensures outcome.Rejected? ==> videos == Reconcile(old(videos), id, Fails)
      ensures hasApiKey == old(hasApiKey)
    {
      if outcome.Resolved? {
        videos := Reconcile(videos, id, Completes(outcome.result.videoUri));
      } else {
        videos := Reconcile(videos, id, Fails);
      }
      isGenerating := false;
    }

    /**
     * One whole `handleGenerate` run against a reply script standing for the
     * remote service. While the script has not settled the call, the new
     * record stays `generating` and `isGenerating` stays raised.
     */
    method HandleGenerate(prompt: string, imageBase64: Option<string>, imageMimeType: Option<string>,
                          id: string, timestamp: int, script: seq<GeminiService.Reply>)
      returns (outcome: GeminiService.GenerateOutcome, trace: seq<GeminiService.SdkCall>)
      modifies this
      ensures trace == [GeminiService.GenerateVideos(
          GeminiService.BuildRequest(RequestParams(prompt, imageBase64, imageMimeType)))]
        + GeminiService.PollTrace(script, GeminiService.FirstTerminal(script))
      ensures outcome == GeminiService.RunOutcome(script)
      ensures outcome.StillPolling? <==> GeminiService.FirstTerminal(script) == |script|
      ensures var started := [NewVideo(id, prompt, imageBase64, imageMimeType, timestamp)] + old(videos);
        && (outcome.StillPolling? ==> isGenerating && videos == started)
        && (outcome.Resolved? ==> !isGenerating && videos == Reconcile(started, id, Completes(outcome.result.videoUri)))
        && (outcome.Rejected? ==> !isGenerating && videos == Reconcile(started, id, Fails))
      ensures hasApiKey == old(hasApiKey)
    {
      var params := BeginGenerate(prompt, imageBase64, imageMimeType, id, timestamp);
      outcome, trace := GeminiService.GenerateVideo(params, script);
      if !outcome.StillPolling? {
        FinishGenerate(id, outcome);
      }
    }
  }

  /**
   * A whole run whose submission already answers `done` with a URI: the new
   * record, at the front of an otherwise empty feed, ends `completed` with
   * that URI, and `isGenerating` is lowered again.
   */
  method CompletedRun(prompt: string, id: string, timestamp: int, uri: string)
    returns (feed: seq<GeneratedVideo>, generating: bool)
    requires uri != ""
    ensures |feed| == 1
    ensures feed[0].status == Completed && feed[0].videoUrl == Some(uri)
    ensures feed[0].id == id && feed[0].prompt == prompt && feed[0].aspectRatio == DefaultAspectRatio
    ensures !generating
  {
    var app := new App();
    var video := GeminiService.GeneratedVideoEntry(Some(GeminiService.Video(Some(uri))));
    var done := GeminiService.Operation(true, Some(GeminiService.OperationResponse(Some([video]))));
    var outcome, trace := app.HandleGenerate(prompt, None, None, id, timestamp, [GeminiService.Snapshot(done)]);
    feed, generating := app.videos, app.isGenerating;
  }

  /**
   * A whole run whose submission throws: the new record ends `failed` with
   * 'Generation failed' rather than the thrown text, and `isGenerating` is
   * lowered again.
   */
  method FailedRun(prompt: string, id: string, timestamp: int, thrown: string)
    returns (feed: seq<GeneratedVideo>, generating: bool)
    ensures |feed| == 1
    ensures feed[0].status == Failed && feed[0].error == Some(GenerationFailedMessage)
    ensures feed[0].videoUrl.None?
    ensures !generating
  {
    var app := new App();
    var outcome, trace := app.HandleGenerate(prompt, None, None, id, timestamp, [GeminiService.Thrown(thrown)]);
    feed, generating := app.videos, app.isGenerating;
  }
}
