/**
 * The generation client (services/geminiService.ts). The remote SDK is an
 * oracle: a finite script of the replies it gives, one to the submission and
 * one to each status query, in order. The client sends one of two request
 * shapes, waits and re-queries until the operation reports `done`, and takes
 * the URI of the first generated video, failing when there is none.
 */
module GeminiService {
  import opened Wrappers
  import opened Types

  /** The model both request shapes name. */
  const ModelName: string := "veo-3.1-generate-preview"
  /** The resolution both request shapes ask for. */
  const Resolution: string := "720p"
  /** The wait before each status query, in milliseconds. */
  const PollIntervalMs: int := 5000
  /** The message thrown when a finished operation carries no video URI. */
  const NoVideoUriMessage: string := "No video URI returned from operation"
  /** The start of the message thrown when the video content cannot be fetched. */
  const FetchFailedPrefix: string := "Failed to fetch video content: "

  /** The `config` object both request shapes share. */
  datatype VideoConfig = VideoConfig(numberOfVideos: int, resolution: string, aspectRatio: AspectRatio)

  /** The reference image of an image-bearing request. */
  datatype ImageInput = ImageInput(imageBytes: string, mimeType: string)

  /** An argument of `generateVideos`; `image` is absent in the text-only shape. */
  datatype GenerateVideosRequest = GenerateVideosRequest(
    model: string, prompt: string, image: Option<ImageInput>, config: VideoConfig)

  /** The parts of a long-running operation snapshot the client reads. */
  datatype Video = Video(uri: Option<string>)
  datatype GeneratedVideoEntry = GeneratedVideoEntry(video: Option<Video>)
  datatype OperationResponse = OperationResponse(generatedVideos: Option<seq<GeneratedVideoEntry>>)
  datatype Operation = Operation(done: bool, response: Option<OperationResponse>)

  /** What the SDK answers to one call: a snapshot of the operation, or a thrown error. */
  datatype Reply = Snapshot(operation: Operation) | Thrown(error: string)

  /** The calls the client makes, in the order it makes them. */
  datatype SdkCall =
    | GenerateVideos(request: GenerateVideosRequest)
    | Wait(ms: int)
    | GetVideosOperation(operation: Operation)

  /** How a run of `generateVideo` ends; `StillPolling` when the script ends before it settles. */
  datatype GenerateOutcome = Resolved(result: GenerationResult) | Rejected(error: string) | StillPolling

  /** The blob-fetch oracle's answer: `ok`, `statusText` and the body. */
  datatype FetchResponse = FetchResponse(ok: bool, statusText: string, body: seq<bv8>)

  /** The request `generateVideo` sends for the given parameters. */
  function BuildRequest(params: VideoGenerationParams): (r: GenerateVideosRequest)
    ensures r.model == ModelName && r.prompt == params.prompt
    ensures r.config == VideoConfig(1, Resolution, params.aspectRatio)
    ensures r.image.Some? <==> Truthy(params.imageBase64) && Truthy(params.imageMimeType)
    ensures r.image.Some? ==>
      r.image.value == ImageInput(params.imageBase64.value, params.imageMimeType.value)
  {
    var config := VideoConfig(1, Resolution, params.aspectRatio);
    if Truthy(params.imageBase64) && Truthy(params.imageMimeType) then
      GenerateVideosRequest(ModelName, params.prompt,
        Some(ImageInput(params.imageBase64.value, params.imageMimeType.value)), config)
    else
      GenerateVideosRequest(ModelName, params.prompt, None, config)
  }

  /** A reply that ends the poll loop: a finished snapshot or a thrown error. */
  predicate Terminal(reply: Reply)
  {
    reply.Thrown? || reply.operation.done
  }

  /** The index of the first reply that ends the loop, or the script's length if none does. */
  function FirstTerminal(script: seq<Reply>): (k: nat)
    ensures k <= |script|
    ensures k < |script| ==> Terminal(script[k])
    ensures forall i :: 0 <= i < k ==> !Terminal(script[i])
  {
    if script == [] then 0
    else if Terminal(script[0]) then 0
    else 1 + FirstTerminal(script[1..])
  }

  /** The waits and queries made after the first `k` replies, one pair per reply. */
  function PollTrace(script: seq<Reply>, k: nat): seq<SdkCall>
    requires k <= |script|
    requires forall i :: 0 <= i < k ==> script[i].Snapshot?
  {
    if k == 0 then []
    else PollTrace(script, k - 1) + [Wait(PollIntervalMs), GetVideosOperation(script[k - 1].operation)]
  }

  /** The number of status queries in a trace. */
  function Queries(trace: seq<SdkCall>): nat
  {
    if trace == [] then 0
    else Queries(trace[..|trace| - 1]) + (if trace[|trace| - 1].GetVideosOperation? then 1 else 0)
  }

  /** The total time a trace spends waiting, in milliseconds. */
  function WaitedMs(trace: seq<SdkCall>): int
  {
    if trace == [] then 0
    else WaitedMs(trace[..|trace| - 1]) + (if trace[|trace| - 1].Wait? then trace[|trace| - 1].ms else 0)
  }

  /**
   * `operation.response?.generatedVideos?.[0]?.video?.uri`: defined exactly
   * when every link of the chain is present, and then the first video's URI.
   */
  function VideoUri(operation: Operation): (u: Option<string>)
    ensures u.Some? <==>
      && operation.response.Some?
      && operation.response.value.generatedVideos.Some?
      && |operation.response.value.generatedVideos.value| > 0
      && operation.response.value.generatedVideos.value[0].video.Some?
      && operation.response.value.generatedVideos.value[0].video.value.uri.Some?
    ensures u.Some? ==> u == operation.response.value.generatedVideos.value[0].video.value.uri
  {
    if operation.response.None? then None
    else
      var videos := operation.response.value.generatedVideos;
      if videos.None? || |videos.value| == 0 then None
      else if videos.value[0].video.None? then None
      else videos.value[0].video.value.uri
  }

  /**
   * How a run of `generateVideo` against the script settles, read off the
   * first reply that ends the loop: a thrown error is rethrown, a finished
   * snapshot with a truthy URI resolves with it, any other finished snapshot
   * rejects with the missing-URI message.
   */
  function RunOutcome(script: seq<Reply>): (o: GenerateOutcome)
    ensures o.StillPolling? <==> FirstTerminal(script) == |script|
    ensures o.Resolved? ==> o.result.videoUri != ""
    ensures o.Resolved? ==>
      && script[FirstTerminal(script)].Snapshot?
      && Some(o.result.videoUri) == VideoUri(script[FirstTerminal(script)].operation)
  {
    var k := FirstTerminal(script);
    if k == |script| then StillPolling
    else if script[k].Thrown? then Rejected(script[k].error)
    else if Truthy(VideoUri(script[k].operation)) then
      Resolved(GenerationResult(VideoUri(script[k].operation).value))
    else Rejected(NoVideoUriMessage)
  }

  /**
   * `generateVideo`: submit, poll every 5000 ms until `done`, and return the
   * first video's URI. The reply script stands for the SDK: `script[0]` answers
   * the submission and `script[i]` the i-th status query.
   */
  method GenerateVideo(params: VideoGenerationParams, script: seq<Reply>)
    returns (outcome: GenerateOutcome, trace: seq<SdkCall>)
    ensures FirstTerminal(script) < |script| <==> !outcome.StillPolling?
    ensures trace == [GenerateVideos(BuildRequest(params))] + PollTrace(script, FirstTerminal(script))
    ensures var k := FirstTerminal(script);
      k < |script| && script[k].Thrown? ==> outcome == Rejected(script[k].error)
    ensures outcome.Resolved? ==>
      var op := script[FirstTerminal(script)].operation;
      && op.done
      && op.response.Some?
      && op.response.value.generatedVideos.Some?
      && |op.response.value.generatedVideos.value| > 0
      && op.response.value.generatedVideos.value[0].video.Some?
      && op.response.value.generatedVideos.value[0].video.value.uri == Some(outcome.result.videoUri)
      && outcome.result.videoUri != ""
    ensures var k := FirstTerminal(script);
      k < |script| && script[k].Snapshot? &&
      (var op := script[k].operation;
       || op.response.None?
       || op.response.value.generatedVideos.None?
       || |op.response.value.generatedVideos.value| == 0
       || op.response.value.generatedVideos.value[0].video.None?
       || op.response.value.generatedVideos.value[0].video.value.uri.None?
       || op.response.value.generatedVideos.value[0].video.value.uri == Some(""))
      ==> outcome == Rejected(NoVideoUriMessage)
    ensures var k := FirstTerminal(script);
      k < |script| && script[k].Snapshot? && Truthy(VideoUri(script[k].operation))
      ==> outcome == Resolved(GenerationResult(VideoUri(script[k].operation).value))
    ensures outcome == RunOutcome(script)
  {
    trace := [GenerateVideos(BuildRequest(params))];
    if |script| == 0 {
      return StillPolling, trace;
    }
    if script[0].Thrown? {
      return Rejected(script[0].error), trace;
    }
    var operation := script[0].operation;
    var i := 0;
    while !operation.done
      invariant 0 <= i < |script|
      invariant script[i].Snapshot? && operation == script[i].operation
      invariant forall j :: 0 <= j < i ==> !Terminal(script[j])
      invariant trace == [GenerateVideos(BuildRequest(params))] + PollTrace(script, i)
      decreases |script| - i
    {
      trace := trace + [Wait(PollIntervalMs), GetVideosOperation(operation)];
      i := i + 1;
      if i == |script| {
        return StillPolling, trace;
      }
      if script[i].Thrown? {
        return Rejected(script[i].error), trace;
      }
      operation := script[i].operation;
    }
    var videoUri := VideoUri(operation);
    if !Truthy(videoUri) {
      return Rejected(NoVideoUriMessage), trace;
    }
    return Resolved(GenerationResult(videoUri.value)), trace;
  }

  /** The pair of calls of the j-th poll sits at positions 2j and 2j+1 of the poll trace. */
  lemma {:induction false} PollTraceAt(script: seq<Reply>, k: nat, j: nat)
    requires k <= |script|
    requires forall i :: 0 <= i < k ==> script[i].Snapshot?
    requires j < k
    ensures |PollTrace(script, k)| == 2 * k
    ensures PollTrace(script, k)[2 * j] == Wait(PollIntervalMs)
    ensures PollTrace(script, k)[2 * j + 1] == GetVideosOperation(script[j].operation)
  {
    PollTraceLength(script, k);
    if j < k - 1 {
      PollTraceAt(script, k - 1, j);
    }
  }

  /** A poll trace over k replies holds two calls per reply. */
  lemma {:induction false} PollTraceLength(script: seq<Reply>, k: nat)
    requires k <= |script|
    requires forall i :: 0 <= i < k ==> script[i].Snapshot?
    ensures |PollTrace(script, k)| == 2 * k
  {
    if k > 0 {
      PollTraceLength(script, k - 1);
    }
  }

  /** A poll trace over k replies makes k status queries and waits k times 5000 ms. */
  lemma {:induction false} PollTraceCounts(script: seq<Reply>, k: nat)
    requires k <= |script|
    requires forall i :: 0 <= i < k ==> script[i].Snapshot?
    ensures Queries(PollTrace(script, k)) == k
    ensures WaitedMs(PollTrace(script, k)) == k * PollIntervalMs
  {
    if k > 0 {
      PollTraceCounts(script, k - 1);
      var prev := PollTrace(script, k - 1);
      var t := PollTrace(script, k);
      var once := prev + [Wait(PollIntervalMs)];
      assert t[..|t| - 1] == once;
      assert once[..|once| - 1] == prev;
    }
  }

  /**
   * A whole run: if the first reply that ends the loop is at index k, the
   * client makes exactly one submission, k status queries and k waits of
   * 5000 ms; when the submission already answers `done`, it queries nothing.
   */
  lemma {:induction false} RunCounts(params: VideoGenerationParams, script: seq<Reply>, trace: seq<SdkCall>)
    requires trace == [GenerateVideos(BuildRequest(params))] + PollTrace(script, FirstTerminal(script))
    ensures Queries(trace) == FirstTerminal(script)
    ensures WaitedMs(trace) == FirstTerminal(script) * PollIntervalMs
    ensures |script| > 0 && Terminal(script[0]) ==> trace == [GenerateVideos(BuildRequest(params))]
  {
    var k := FirstTerminal(script);
    var polls := PollTrace(script, k);
    PollTraceCounts(script, k);
    PrependSubmission(GenerateVideos(BuildRequest(params)), polls);
  }

  /** A submission in front of a trace adds no query and no wait. */
  lemma {:induction false} PrependSubmission(call: SdkCall, trace: seq<SdkCall>)
    requires call.GenerateVideos?
    ensures Queries([call] + trace) == Queries(trace)
    ensures WaitedMs([call] + trace) == WaitedMs(trace)
  {
    if trace != [] {
      var t := [call] + trace;
      assert t[..|t| - 1] == [call] + trace[..|trace| - 1];
      PrependSubmission(call, trace[..|trace| - 1]);
    } else {
      assert ([call] + trace)[..0] == [];
    }
  }

  /**
   * `fetchVideoBlob`: fetch `uri + "&key=" + apiKey`, fail with the status
   * text when the response is not ok, otherwise hand the body to
   * `URL.createObjectURL`. `respond` and `createObjectUrl` stand for `fetch`
   * and `URL.createObjectURL`.
   */
  method FetchVideoBlob(uri: string, apiKey: string,
                        respond: string -> FetchResponse, createObjectUrl: seq<bv8> -> string)
    returns (requested: string, outcome: Result<string, string>)
    ensures requested == uri + "&key=" + apiKey
    ensures outcome.Failure? <==> !respond(requested).ok
    ensures outcome.Failure? ==> outcome.error == FetchFailedPrefix + respond(requested).statusText
    ensures outcome.Success? ==> outcome.value == createObjectUrl(respond(requested).body)
  {
    requested := uri + "&key=" + apiKey;
    var response := respond(requested);
    if !response.ok {
      return requested, Failure(FetchFailedPrefix + response.statusText);
    }
    outcome := Success(createObjectUrl(response.body));
  }
}
