/** The records shared by the front end and the generation service (types.ts). */
module Types {
  import opened Wrappers

  /** The four statuses a feed entry can carry. */
  datatype Status = Pending | Generating | Completed | Failed

  /** The two aspect ratios the type admits: '16:9' and '9:16'. */
  datatype AspectRatio = Landscape | Portrait
  {
    /** The literal the source uses for this ratio. */
    function Text(): (t: string)
      ensures this == Portrait <==> t == "9:16"
      ensures this == Landscape <==> t == "16:9"
    {
      match this
      case Landscape => "16:9"
      case Portrait => "9:16"
    }
  }

  /** One entry of the feed (`GeneratedVideo`). Optional fields are `Option`s. */
  datatype GeneratedVideo = GeneratedVideo(
    id: string,
    prompt: string,
    videoUrl: Option<string>,
    thumbnailUrl: Option<string>,
    status: Status,
    timestamp: int,
    error: Option<string>,
    aspectRatio: AspectRatio)

  /** What the front end hands to the generation service (`VideoGenerationParams`). */
  datatype VideoGenerationParams = VideoGenerationParams(
    prompt: string,
    imageBase64: Option<string>,
    imageMimeType: Option<string>,
    aspectRatio: AspectRatio)

  /** What a successful generation returns (`GenerationResult`). */
  datatype GenerationResult = GenerationResult(videoUri: string)

  /** JavaScript truthiness of an optional string: defined and not the empty string. */
  predicate Truthy(s: Option<string>)
  {
    s.Some? && s.value != ""
  }
}
