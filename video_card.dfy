/**
 * One feed entry (components/VideoCard.tsx). Its effect fetches the video
 * content once the record is completed, through an `active` flag that the
 * effect's cleanup clears so that a late answer changes nothing; the card
 * then shows the player, the failure card or the spinner.
 */
module VideoCard {
  import opened Wrappers
  import opened Types

  /**
   * The effect's guard for starting a blob fetch: the record is completed with
   * a non-empty video URL and no non-empty blob URL is held yet; so once a
   * blob URL is set, no further fetch starts.
   */
  function ShouldFetchBlob(video: GeneratedVideo, blobUrl: Option<string>): (b: bool)
    ensures b <==> && video.status == Completed
                   && video.videoUrl.Some? && video.videoUrl.value != ""
                   && (blobUrl.None? || blobUrl.value == "")
    ensures Truthy(blobUrl) ==> !b
  {
    video.status == Completed && Truthy(video.videoUrl) && !Truthy(blobUrl)
  }

  /** `video.aspectRatio === '9:16'` */
  function IsPortrait(video: GeneratedVideo): (b: bool)
    ensures b <==> video.aspectRatio.Text() == "9:16"
  {
    video.aspectRatio == Portrait
  }

  /** The three ways the content area renders; the spinner may carry the reference image. */
  datatype Branch = Player(src: string) | FailureCard | Spinner(reference: Option<string>)

  /** The content area's choice of branch. */
  function RenderBranch(video: GeneratedVideo, blobUrl: Option<string>): (b: Branch)
    ensures b.Player? <==> video.status == Completed && Truthy(blobUrl)
    ensures b.Player? ==> b.src == blobUrl.value
    ensures b.FailureCard? <==> video.status == Failed
    ensures b.Spinner? <==> video.status != Failed && !(video.status == Completed && Truthy(blobUrl))
    ensures b.Spinner? ==> (b.reference.Some? <==> Truthy(video.thumbnailUrl))
    ensures b.Spinner? && b.reference.Some? ==> b.reference == video.thumbnailUrl
  {
    if video.status == Completed && Truthy(blobUrl) then Player(blobUrl.value)
    else if video.status == Failed then FailureCard
    else Spinner(if Truthy(video.thumbnailUrl) then video.thumbnailUrl else None)
  }

  /** The `active` flag one run of the effect closes over. */
  class EffectRun {
    var active: bool

    constructor ()
      ensures active
    {
      active := true;
    }

    /** The effect's cleanup: `active = false`. */
    method Cleanup()
      modifies this
      ensures !active
    {
      active := false;
    }
  }

  /** A card's props and its two pieces of state. */
  class VideoCard {
    var video: GeneratedVideo
    var blobUrl: Option<string>
    var loadingBlob: bool

    constructor (video: GeneratedVideo)
      ensures this.video == video && blobUrl.None? && !loadingBlob
    {
      this.video := video;
      blobUrl := None;
      loadingBlob := false;
    }

    /** The branch the card currently renders. */
    function Shown(): Branch
      reads this
    {
      RenderBranch(video, blobUrl)
    }

    /** The feed re-renders the card with a new record. */
    method SetVideo(v: GeneratedVideo)
      modifies this
      ensures video == v && blobUrl == old(blobUrl) && loadingBlob == old(loadingBlob)
    {
      video := v;
    }

    /**
     * One run of the effect: a fresh `active` flag, and when the guard holds,
     * `loadingBlob` raised and the URL handed to `fetchVideoBlob`.
     */
    method RunEffect() returns (run: EffectRun, fetchUri: Option<string>)
      modifies this
      ensures fresh(run) && run.active
      ensures fetchUri.Some? <==> ShouldFetchBlob(video, blobUrl)
      ensures fetchUri.Some? ==> fetchUri == video.videoUrl && loadingBlob
      ensures fetchUri.None? ==> loadingBlob == old(loadingBlob)
      ensures video == old(video) && blobUrl == old(blobUrl)
    {
      run := new EffectRun();
      fetchUri := None;
      if ShouldFetchBlob(video, blobUrl) {
        loadingBlob := true;
        fetchUri := video.videoUrl;
      }
    }

    /**
     * The fetch started by `run` settles: while the run is active, a success
     * stores the object URL and a failure keeps none; both lower
     * `loadingBlob`. After cleanup nothing changes. The record is never touched.
     */
    method OnFetchSettled(run: EffectRun, outcome: Result<string, string>)
      modifies this
      ensures video == old(video)
      ensures !run.active ==> blobUrl == old(blobUrl) && loadingBlob == old(loadingBlob)
      ensures run.active && outcome.Success? ==> blobUrl == Some(outcome.value) && !loadingBlob
      ensures run.active && outcome.Failure? ==> blobUrl == old(blobUrl) && !loadingBlob
    {
      if run.active {
        if outcome.Success? {
          blobUrl := Some(outcome.value);
        }
        loadingBlob := false;
      }
    }
  }

  /**
   * A completed record's card from mount to playback: the first run fetches,
   * the fetch succeeds, the change of `blobUrl` re-runs the effect (after the
   * first run's cleanup) and the guard now starts no fetch. So the content is
   * fetched exactly once and the player shows the object URL.
   */
  method LoadCompletedVideo(video: GeneratedVideo, objectUrl: string)
    returns (fetches: int, shown: Branch, loading: bool)
    requires video.status == Completed && Truthy(video.videoUrl)
    requires objectUrl != ""
    ensures fetches == 1
    ensures shown == Player(objectUrl)
    ensures !loading
  {
    var card := new VideoCard(video);
    fetches := 0;
    var first, uri := card.RunEffect();
    if uri.Some? {
      fetches := fetches + 1;
      card.OnFetchSettled(first, Success(objectUrl));
    }
    first.Cleanup();
    var second, again := card.RunEffect();
    if again.Some? {
      fetches := fetches + 1;
    }
    shown := card.Shown();
    loading := card.loadingBlob;
  }

  /**
   * A completed record's card whose fetch fails: the card keeps the spinner,
   * `loadingBlob` is lowered, and the record stays `completed`.
   */
  method FailedFetchKeepsRecord(video: GeneratedVideo, message: string)
    returns (shown: Branch, loading: bool, status: Status)
    requires video.status == Completed && Truthy(video.videoUrl)
    ensures shown == Spinner(if Truthy(video.thumbnailUrl) then video.thumbnailUrl else None)
    ensures !loading
    ensures status == Completed
  {
    var card := new VideoCard(video);
    var run, uri := card.RunEffect();
    card.OnFetchSettled(run, Failure(message));
    shown := card.Shown();
    loading := card.loadingBlob;
    status := card.video.status;
  }

  /**
   * The card is unmounted before its fetch settles: the cleanup clears the
   * run's flag, and the late answer, success or failure, changes no state.
   */
  method LateAnswerIgnored(video: GeneratedVideo, outcome: Result<string, string>)
    returns (blobUrl: Option<string>, loading: bool)
    requires video.status == Completed && Truthy(video.videoUrl)
    ensures blobUrl.None?
    ensures loading
  {
    var card := new VideoCard(video);
    var run, uri := card.RunEffect();
    run.Cleanup();
    card.OnFetchSettled(run, outcome);
    blobUrl := card.blobUrl;
    loading := card.loadingBlob;
  }
}
