# Video-generation front end: a Dafny model of its control logic

A small React front end sends a text prompt, and optionally a reference image, to a remote
video-generation service. It polls the remote long-running operation until it is done, then keeps
a newest-first feed of jobs in sync with the result. For each completed job it fetches the video
content and plays it. This project models the sequential logic under the markup and proves
properties of it:

- `GeminiService` (services/geminiService.ts) is the generation client. It chooses between the
  image-bearing and the text-only request, runs a wait-then-query poll loop until `done`, extracts
  the one result URI (a missing URI is an error), and fetches the blob with a non-ok failure path.
  The SDK is an oracle: a finite script of replies. `script[0]` answers the submission and
  `script[i]` answers the i-th status query. A reply is either an operation snapshot or a thrown
  error. The method returns the outcome and the trace of SDK calls it made.
- `App` (App.tsx) is the feed reconciler. `handleGenerate` prepends a `generating` record, awaits
  the client, then rewrites by id every record carrying the new id to `completed` or `failed`. It
  raises `isGenerating` for the duration of the call. `Date.now()` becomes the `id` and `timestamp`
  parameters. Ids are not assumed to be unique.
- `VideoCard` (components/VideoCard.tsx) is the card's blob-loading effect. It covers the guard,
  the `loadingBlob`/`blobUrl` transitions, and the `active` flag that a cleanup clears so a late
  answer changes nothing. It also covers `isPortrait` and the choice among player, failure card
  and spinner.
- `InputBar` (components/InputBar.tsx) is the prompt bar. It covers the trimmed-prompt guard,
  reset after submit, Enter versus Shift+Enter, the `image/` type check, payload extraction with
  `split(',')[1]`, the attach-menu and remove-image toggles, and the send button's disabled
  predicate.
- `DataUrls` and `Types` hold the shared parts. `DataUrls` covers data URLs (section 3 of
  RFC 2397), JavaScript's `split` and `join`, and the base64 alphabet (section 4 of RFC 4648).
  `Types` holds the records of types.ts and JavaScript truthiness of optional strings.

The central whole-run claims:
- `GeminiService.GenerateVideo` states the exact trace of calls. It also states that the outcome
  is `GeminiService.RunOutcome` of the script, and spells out every case. A thrown reply is
  rethrown unchanged. A finished snapshot with a non-empty URI for its first video resolves with
  that URI. Any other finished snapshot rejects with 'No video URI returned from operation'.
- `GeminiService.RunCounts` proves that if the first reply ending the loop is at index k, there
  are k status queries and k waits of 5000 ms.
- `App.App.HandleGenerate` ties the same outcome to the feed after a run. `App.CompletedRun` and
  `App.FailedRun` follow one submission to a `completed` or a `failed` record.
- `DataUrls.Base64PayloadRoundTrip` and `App.ThumbnailIsPreview` prove the data-URL round trip.
  The thumbnail App.tsx builds from the payload the input bar extracted is exactly the input
  bar's preview.

Behaviour of the code worth knowing:
- The loop makes k status queries when snapshot k is the first finished one. The submission
  supplies snapshot 0, so an operation that is finished at once is never queried.
- Failures are not classified. Every failure gives the same record, with the fixed text
  'Generation failed' in place of the thrown message, and no other flag is set.
- The status rewrite is unconditional. A record carrying the id is overwritten whatever its
  status, so an earlier record with a colliding id can go from `completed` to `failed`.
- Ids come from `Date.now().toString()` and need not be unique. `Reconcile` rewrites every
  matching record.
- The code has no cancellation and no retry.

## Model

| member | source | states |
|---|---|---|
| `Types.AspectRatio.Text` | types.ts:9 | the portrait literal is '9:16' and the landscape literal is '16:9', each exactly for its ratio |
| `DataUrls.Split` | components/InputBar.tsx:38 | `split` yields at least one field, no field contains the separator, and there is one field only iff the string has no separator |
| `DataUrls.DataUrl` | App.tsx:28 | the URL is 'data:', then the media type, then ';base64,', then the payload, at fixed positions |
| `DataUrls.JoinCons` | components/InputBar.tsx:38 | a join puts the separator between the first field and the join of the rest |
| `DataUrls.JoinExtendFirst` | components/InputBar.tsx:38 | one more character at the front of the first field is one more character at the front of the join |
| `DataUrls.Field` | components/InputBar.tsx:38 | `split(sep)[i]` is defined exactly when there are more than i fields, and then holds no separator |
| `DataUrls.JoinSplit` | components/InputBar.tsx:38 | joining the fields of a split gives back the original string |
| `DataUrls.SplitJoin` | components/InputBar.tsx:38 | splitting a join of separator-free fields gives back those fields |
| `DataUrls.SplitWithoutSep` | components/InputBar.tsx:38 | a string without the separator splits into itself alone |
| `DataUrls.SplitAtFirstSep` | components/InputBar.tsx:38 | splitting at the first separator takes off exactly the text before it |
| `DataUrls.Base64Payload` | components/InputBar.tsx:38 | `result.split(',')[1]` is defined iff the data URL contains a comma, and has no comma itself |
| `DataUrls.Base64PayloadRoundTrip` | components/InputBar.tsx:37-38 | `split(',')[1]` of `data:<mime>;base64,<payload>` is the payload, when the mime has no comma and the payload is base64 text |
| `GeminiService.BuildRequest` | services/geminiService.ts:13-37 | the image-bearing shape is sent iff both image fields are truthy; both shapes name model 'veo-3.1-generate-preview' and use config {1 video, '720p', the given aspect ratio} |
| `GeminiService.FirstTerminal` | services/geminiService.ts:41-44 | the index of the first reply that is done or thrown; every earlier reply is an unfinished snapshot |
| `GeminiService.VideoUri` | services/geminiService.ts:46 | the optional chain is defined iff response, list, element 0, video and URI are all present, and is then element 0's URI |
| `GeminiService.RunOutcome` | services/geminiService.ts:41-56 | the run is unsettled iff no reply ends the loop; a resolution carries a non-empty URI equal to the optional chain on the finished snapshot |
| `GeminiService.GenerateVideo` | services/geminiService.ts:7-57 | the trace is the submission plus one (wait 5000, query) pair per unfinished snapshot before the first terminal reply; the outcome is `RunOutcome(script)`: a thrown reply is rethrown unchanged, a finished snapshot whose first video has a non-empty URI resolves with exactly that URI, and 'No video URI returned from operation' is raised when the response, list, element, video or URI is missing or the URI is empty |
| `GeminiService.PollTraceLength` | services/geminiService.ts:41-44 | k polls make 2k calls |
| `GeminiService.PollTraceAt` | services/geminiService.ts:41-44 | the j-th poll is a 5000 ms wait followed by a query on the j-th snapshot |
| `GeminiService.PollTraceCounts` | services/geminiService.ts:41-44 | k polls make exactly k status queries and wait k times 5000 ms |
| `GeminiService.PrependSubmission` | services/geminiService.ts:22-37 | the submission call adds no query and no wait to a trace |
| `GeminiService.RunCounts` | services/geminiService.ts:41-44 | a run whose first terminal reply is at index k makes k queries and waits 5000k ms; an initially done operation is never queried |
| `GeminiService.FetchVideoBlob` | services/geminiService.ts:59-67 | requests exactly `uri + "&key=" + apiKey`; fails iff the response is not ok, with 'Failed to fetch video content: ' + statusText; otherwise returns the object URL of the body |
| `App.NewVideo` | App.tsx:21-29 | the new record has the given id, prompt and timestamp, status 'generating', ratio '16:9', no URL or error; a thumbnail iff the payload is truthy, and then `data:<mime>;base64,<payload>` (mime printed as 'undefined' when absent) |
| `App.RequestParams` | App.tsx:34-39 | the request repeats prompt and image fields and always uses '16:9' |
| `App.Settle` | App.tsx:41-51 | both spreads keep id, prompt, timestamp, thumbnail and ratio; completion sets 'completed' and the URI and keeps the error; failure sets 'failed' and 'Generation failed' and keeps the URL |
| `App.Reconcile` | App.tsx:41-51 | same length; every record with the id is settled, every other record is unchanged |
| `App.ReconcileWithoutMatch` | App.tsx:41-51 | when no record carries the id, the feed is unchanged |
| `App.ReconcileIdempotent` | App.tsx:41-51 | applying the same rewrite twice equals applying it once |
| `App.SubmitThenSettle` | App.tsx:31-51 | with a fresh id, prepending then settling changes only the new front record and the earlier feed follows unchanged |
| `App.ThumbnailIsPreview` | App.tsx:28 | the thumbnail built from the payload the input bar extracted is the input bar's preview data URL, and the request carries the image; an empty payload gives no thumbnail and a text-only request |
| `App.TemplateText` | App.tsx:28 | a template literal prints a present string as itself and `undefined` as 'undefined' |
| `App.App.constructor` | App.tsx:10-12 | the key gate is closed, the feed empty and nothing is generating |
| `App.App.OnKeySelected` | App.tsx:57-58 | the key selection opens the gate and changes nothing else |
| `App.App.BeginGenerate` | App.tsx:17-31 | `isGenerating` is raised and the new record is at index 0 with the previous feed after it |
| `App.App.FinishGenerate` | App.tsx:41-54 | a resolved call completes and a rejected call fails every record with the id; `isGenerating` is lowered on both paths |
| `App.App.HandleGenerate` | App.tsx:17-55 | the client trace for the '16:9' request and the client's outcome `RunOutcome(script)`; while unsettled the new record stays generating with `isGenerating` raised; once settled the feed is the prepended feed with every record of the id completed (resolved) or failed (rejected), and `isGenerating` is false |
| `App.CompletedRun` | App.tsx:17-54 | a submission that answers done with a URI leaves one record, with the new id, prompt and '16:9', `completed` with that URI, and `isGenerating` false |
| `App.FailedRun` | App.tsx:17-54 | a submission that throws leaves one record, `failed` with 'Generation failed' and no URL, and `isGenerating` false |
| `VideoCard.IsPortrait` | components/VideoCard.tsx:36 | portrait iff the ratio is '9:16' |
| `VideoCard.ShouldFetchBlob` | components/VideoCard.tsx:16 | a fetch is due iff the record is completed with a non-empty video URL and no non-empty blob URL is held, so never once a blob URL is set |
| `VideoCard.RenderBranch` | components/VideoCard.tsx:63-92 | player iff completed with a truthy blob URL (playing it); failure card iff failed; spinner otherwise, showing the thumbnail iff it is truthy |
| `VideoCard.EffectRun.constructor` | components/VideoCard.tsx:14 | a run starts active |
| `VideoCard.EffectRun.Cleanup` | components/VideoCard.tsx:31-33 | cleanup clears the run's flag |
| `VideoCard.VideoCard.constructor` | components/VideoCard.tsx:10-11 | no blob URL and not loading |
| `VideoCard.VideoCard.SetVideo` | components/VideoCard.tsx:9 | a new record from the feed leaves the card's state as it was |
| `VideoCard.VideoCard.RunEffect` | components/VideoCard.tsx:13-18 | a fetch starts iff completed, the video URL is truthy and the blob URL is not; starting it raises `loadingBlob` |
| `VideoCard.VideoCard.OnFetchSettled` | components/VideoCard.tsx:19-28 | while active, success stores the object URL and failure keeps none, both lowering `loadingBlob`; after cleanup nothing changes; the record is never touched |
| `VideoCard.LoadCompletedVideo` | components/VideoCard.tsx:13-34 | a completed card fetches exactly once, since the re-run effect starts no second fetch, and then plays the object URL |
| `VideoCard.FailedFetchKeepsRecord` | components/VideoCard.tsx:25-28 | a failed fetch keeps the spinner, lowers `loadingBlob` and leaves the record completed |
| `VideoCard.LateAnswerIgnored` | components/VideoCard.tsx:14-33 | an answer arriving after cleanup leaves no blob URL and `loadingBlob` as it was |
| `InputBar.TrimStart` | components/InputBar.tsx:55 | removes exactly the leading whitespace |
| `InputBar.TrimEnd` | components/InputBar.tsx:55 | removes exactly the trailing whitespace |
| `InputBar.Trim` | components/InputBar.tsx:55 | empty iff every character is whitespace; otherwise it starts and ends with non-whitespace |
| `InputBar.SubmitDisabled` | components/InputBar.tsx:154 | the send button is enabled iff nothing is generating and some character is not whitespace |
| `InputBar.FileChange` | components/InputBar.tsx:26-48 | no file does nothing; a type not starting with 'image/' raises the alert; otherwise the file is read as a data URL |
| `InputBar.SubmitCall` | components/InputBar.tsx:57-61 | `onGenerate` gets the prompt as typed, and the image's payload and type, or `undefined` for both without an image |
| `InputBar.InputBar.constructor` | components/InputBar.tsx:9-11 | empty prompt, closed menu, no image |
| `InputBar.InputBar.OnPromptChange` | components/InputBar.tsx:144 | the prompt becomes the typed text |
| `InputBar.InputBar.HandleSubmit` | components/InputBar.tsx:53-66 | a blank prompt does nothing; otherwise exactly one call `SubmitCall(prompt, selectedImage)`, then prompt '' and no image; `isGenerating` is not consulted |
| `InputBar.InputBar.HandleKeyDown` | components/InputBar.tsx:68-73 | Enter without Shift prevents the default and submits, making the same call with the untrimmed prompt and the image's payload and type that a submit makes; any other key, Shift+Enter included, changes nothing |
| `InputBar.InputBar.OnFileLoaded` | components/InputBar.tsx:35-46 | after a successful read the image gets `split(',')[1]` of the data URL, `file.type` and the whole data URL, and the menu closes; after a failed read (`result` null) `result.split` throws and the image and the menu stay as they were |
| `InputBar.InputBar.ToggleAttachMenu` | components/InputBar.tsx:133 | the attach button flips the menu state |
| `InputBar.InputBar.RemoveImage` | components/InputBar.tsx:117 | the remove button clears the selected image |
| `InputBar.PickThenSubmit` | components/InputBar.tsx:26-66 | picking an image and submitting a non-blank prompt shows the data URL as preview, calls `onGenerate` with the prompt, the payload and the type, and clears the bar |

## Left out

- The `@google/genai` SDK, `fetch`, `URL.createObjectURL`, `FileReader` and `process.env.API_KEY`
  are foreign calls. They become a reply script, functions passed as parameters, and parameters.
- `GeminiService.GenerateVideo`: the source's loop is unbounded. The model observes a finite
  script. When the script ends before a done snapshot or an error, the model returns
  `StillPolling`, which stands for a call that has not settled yet.
- `setTimeout` and `Date.now()` are not modelled as time. The 5000 ms wait is a recorded
  `Wait(5000)` call, and the id and timestamp are parameters.
- Overlapping generations and interleaved promise resolution are concurrency. Each
  `handleGenerate` run and each `FileReader` read is modelled as completing in sequence.
- `console.error` logging, the uncaught `TypeError` of a failed read beyond its flag,, `alert` display, `preventDefault` beyond its flag, and resetting the
  file input's value are side effects with no state in the model.
- components/Header.tsx is not part of this model, because it is static markup.
- components/ApiKeyGate.tsx is not part of this model, because it only delegates to a host API.
  Only App's `setHasApiKey(true)` callback is modelled.
- The outside-click `mousedown` listener, the empty-feed placeholder, Tailwind classes and SVGs
  are markup.
- JavaScript strings are UTF-16 code units. The model uses Unicode scalar values, which makes
  no difference to any separator or whitespace character used here.
- `loadingBlob` is written by the card but never read by its markup. The model keeps it as state.
