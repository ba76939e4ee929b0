# PlatinumRx unboxing-video flow, modelled in Dafny

The model covers the client-side logic of a React marketing flow. A visitor:

1. records or uploads a short unboxing video;
2. picks one of three cosmetic "enhancement templates";
3. watches a simulated processing animation driven by a timer;
4. reaches a share screen with a referral code and a fixed reward.

The project models the five components that hold this logic.

| file | component | form |
|---|---|---|
| `media.dfy` | shared values: `File`/`Blob` records, and the JavaScript string operations used (`startsWith`, `includes`, `substr`, `toUpperCase`, template-literal interpolation of `undefined`) | datatypes and functions |
| `step_controller.dfy` | the landing page's five-step screen machine, the processing timer, the step bar | class `Session` over a `SessionView` value, with one transition function per handler |
| `processing_status.dfy` | the template catalogue, progress-to-step mapping, step classification, step icons | pure functions, plus class `StepTracker` for the progress effect |
| `video_upload.dfy` | file validation, drop and pick, recording-format choice, the stop/convert/fallback decisions, "use" and "record again" | class `VideoUploader` over an `UploaderView` value |
| `template_selection.dfy` | the template catalogue, the selection, the continue button | class `TemplateSelector` |
| `share_interface.dfy` | referral code, share message, the three-tier share dispatcher, the download and copy buttons | pure tier functions, plus class `ShareScreen` whose methods follow them |

## How it is modelled

Every component's `useState` fields are fields of a class. Each handler with real logic is a method whose postcondition ties the new state to a pure transition function of the old state, as in `View() == AfterTick(old(View()))`, and the properties are lemmas about those functions. The plain setters (`TemplateSelector.HandleSelect`, `ShareScreen.SetCustomMessage`, `ShareScreen.SetHashtags`, the drag handlers) state their new fields directly.

Anything the components see only through the browser is an explicit input:

- the camera permission;
- `MediaRecorder.isTypeSupported`;
- `navigator.share` / `canShare` and how the share promise settles;
- whether a download link or the clipboard works;
- `Date.now()`;
- `Math.random().toString(36)`.

Alerts, toasts, calls of the `onVideoUpload` / `onTemplateSelect` callbacks, clipboard writes and link clicks are appended to an event log.

Other modelling choices:

- The processing interval is a discrete `Tick()`. A `timerActive` flag stands for the interval handle, so a cleared interval never fires again.
- The step index `Math.floor((progress / 100) * n)` is computed on integers as `(progress * n) / 100`. `StepIndexIsFloor` proves this equals the exact rational floor.
- The video URL is an `Option<string>`. The landing page never passes one (`src/components/UGCLandingPage.tsx:71`), so in the wired flow it is `undefined`. It renders as the text "undefined" in template literals and counts as falsy in `if`.

Behaviour worth knowing that the model follows as coded:

- A native share that is cancelled (`AbortError`), or rejected with something that is not an `Error`, ends the dispatch silently. It does not fall through to the download tier, and no notification appears.
- The referral code is "PRX" plus at most six characters. It is shorter when the base-36 text of the random number is shorter.
- When none of the three recording types is supported, the chain still picks "video/mp4". The recorder constructor then refuses that type, and the user sees the camera-permission alert.
- `useRecordedVideo` always names the file "recorded-video.webm" with type "video/webm", even for an MP4 recording.

## Model

| member | source | states |
|---|---|---|
| StepController.Session.constructor | src/components/UGCLandingPage.tsx:31-35 | the page starts on welcome, with no video, no template, progress 0, earnings 0 and no interval |
| StepController.Session.GetStarted | src/components/UGCLandingPage.tsx:63 | the welcome screen's start button moves the page to upload and changes nothing else |
| StepController.Session.HandleVideoUpload | src/components/UGCLandingPage.tsx:37-40 | the file is stored and the step becomes template whatever it was; progress and earnings are untouched |
| StepController.Session.HandleTemplateSelect | src/components/UGCLandingPage.tsx:42-47 | the id is stored, the step becomes processing and the interval starts; progress is not reset |
| StepController.Session.Tick | src/components/UGCLandingPage.tsx:48-56 | one interval firing: below 100 progress rises by 10; at 100 or more progress is set to 100, the step to complete, earnings to 100, and the interval is cleared; a cleared interval changes nothing |
| StepController.TicksMonotoneBounded | src/components/UGCLandingPage.tsx:48-56 | from a multiple of 10 in [0, 100], any number of ticks never lowers progress, never exceeds 100 and keeps a multiple of 10 |
| StepController.InactiveTimerIsFixed | src/components/UGCLandingPage.tsx:50 | once the interval is cleared, no number of ticks changes the session |
| StepController.TicksFrom | src/components/UGCLandingPage.tsx:47-57 | from progress 10j, k ticks give progress 10(j+k) while that is at most 100, and otherwise the completed session with reward 100 |
| StepController.RunFromZero | src/components/UGCLandingPage.tsx:47-57 | from 0, progress after k ticks is min(10k, 100); the session is complete iff k >= 11; the completing tick is exactly the 11th |
| StepController.CompletionAssignsReward | src/components/UGCLandingPage.tsx:49-53 | the completing tick sets earnings to 100 whatever they were, and later ticks never change the result |
| StepController.HappyPath | src/components/UGCLandingPage.tsx:37-57 | get started, upload and template choice, then 10 ticks leave the page processing and 11 reach complete with the file, the template, progress 100 and earnings 100 |
| StepController.RenderByKey | src/components/UGCLandingPage.tsx:60-75 | each step renders its own screen with its data; any key outside the five renders the welcome screen |
| StepController.FindIndex | src/components/UGCLandingPage.tsx:226 | `findIndex`: -1 iff the key is absent, otherwise the first position holding it |
| StepController.StepBarValues | src/components/UGCLandingPage.tsx:219-236 | the bar's index is the step's position minus one, its fill is 25 per position (25/50/75/100, and 0 on welcome), and label i is highlighted iff i <= index |
| StepController.StepBarMonotone | src/components/UGCLandingPage.tsx:226-227 | a later step never shows a smaller fill |
| ProcessingStatus.GetTemplateInfo | src/components/ProcessingStatus.tsx:27-65 | every template, known or not, has a non-empty list of distinct, non-empty labels |
| ProcessingStatus.CatalogueSizes | src/components/ProcessingStatus.tsx:27-65 | no-edit has 3 labels, basic 5, pro 6, and any other id the single label "Processing video" |
| ProcessingStatus.StepIndexIsFloor | src/components/ProcessingStatus.tsx:70 | the integer index equals the floor of (progress / 100) * n over the rationals |
| ProcessingStatus.StepIndexBounds | src/components/ProcessingStatus.tsx:70 | for progress in [0, 100] the index lies in [0, n], and equals n iff progress is 100 |
| ProcessingStatus.SyncResult | src/components/ProcessingStatus.tsx:69-80 | below 100 the effect makes the label at the index current with exactly its predecessors completed; at 100 it changes nothing |
| ProcessingStatus.SyncPreservesConsistent | src/components/ProcessingStatus.tsx:69-80 | the effect only ever produces the initial state or "label i current, labels before i completed" |
| ProcessingStatus.SyncIdempotent | src/components/ProcessingStatus.tsx:73 | running the effect again with the same progress changes nothing |
| ProcessingStatus.BasicAtForty | src/components/ProcessingStatus.tsx:69-80 | basic at 40%: "Noise reduction" is current and "File analysis", "Light correction" are completed |
| ProcessingStatus.ExactlyOneStatus | src/components/ProcessingStatus.tsx:152-156 | every listed label is exactly one of completed, current, pending; labels before the current one are completed and labels after it pending |
| ProcessingStatus.LastLabelNeverCompleted | src/components/ProcessingStatus.tsx:70-78 | the last label of a list is never among the completed ones |
| ProcessingStatus.FirstMatch | src/components/ProcessingStatus.tsx:82-89 | the icon of the first rule whose keyword occurs in the label, or the default when no rule matches |
| ProcessingStatus.EarlierRuleDecides | src/components/ProcessingStatus.tsx:83-86 | when a keyword of one of the first four rules occurs, the icon is neither the check mark nor the sparkles |
| ProcessingStatus.RenderingRuleDecides | src/components/ProcessingStatus.tsx:83-87 | for every label: the check mark exactly when no keyword of the first four rules occurs and "rendering" or "Quality" does |
| ProcessingStatus.NoRuleGivesDefault | src/components/ProcessingStatus.tsx:82-89 | for every label: the sparkles default exactly when no keyword of any rule occurs |
| ProcessingStatus.IconOfFileAnalysis | src/components/ProcessingStatus.tsx:83 | "File analysis" gets the processor icon |
| ProcessingStatus.IconOfLogoOverlay | src/components/ProcessingStatus.tsx:84 | "Logo overlay" gets the text icon |
| ProcessingStatus.IconOfFinalRendering | src/components/ProcessingStatus.tsx:83-87 | the last pro label, "Final rendering", gets the check-mark icon |
| ProcessingStatus.IconOfProcessingVideo | src/components/ProcessingStatus.tsx:82-89 | the fallback label, "Processing video", gets the sparkles icon |
| ProcessingStatus.IconOfStabilization | src/components/ProcessingStatus.tsx:82-89 | the basic label "Stabilization" has no keyword and gets the sparkles icon |
| ProcessingStatus.IconOfFormatConversion | src/components/ProcessingStatus.tsx:82-89 | the no-edit label "Format conversion" has no keyword and gets the sparkles icon |
| ProcessingStatus.IconExamples | src/components/ProcessingStatus.tsx:82-89 | the six icon cases together |
| ProcessingStatus.StepTracker.constructor | src/components/ProcessingStatus.tsx:24-25 | no label current and none completed |
| ProcessingStatus.StepTracker.OnProgress | src/components/ProcessingStatus.tsx:69-80 | the effect's new state is `Sync` of the old state, the progress and the template's labels |
| VideoUpload.Validate | src/components/VideoUpload.tsx:49-63 | exactly one event; the file is handed on iff it is at most 104857600 bytes and its type starts with "video/"; an oversized file gets the size alert whatever its type; a small non-video the type alert |
| VideoUpload.SizeLimitIsInclusive | src/components/VideoUpload.tsx:51 | a video of exactly 100 MiB is accepted, one byte more is refused with the size alert |
| VideoUpload.FirstVideo | src/components/VideoUpload.tsx:35 | none iff no file has a video type; otherwise the first file with a video type |
| VideoUpload.DropEvents | src/components/VideoUpload.tsx:34-39 | at most one event; none when no file is a video; otherwise exactly the validation of the first video file |
| VideoUpload.SelectEvents | src/components/VideoUpload.tsx:42-47 | nothing for an empty pick; otherwise validation of the first file |
| VideoUpload.DropSkipsNonVideo | src/components/VideoUpload.tsx:30-47 | a drop skips a leading non-video file and forwards the video; a pick validates the leading non-video and forwards nothing |
| VideoUpload.DropForwardsFirstVideoOnly | src/components/VideoUpload.tsx:30-40 | a drop clears the drag highlight, keeps the earlier events, adds at most one, uploads only an acceptable first video, appends exactly the validation of the first video file when there is one, and changes nothing else |
| VideoUpload.ChooseFormatIsFirstSupported | src/components/VideoUpload.tsx:80-97 | the chosen type is the first supported of MP4, MP4/H.264, WebM, or "video/mp4" (unsupported) when none is; the extension is ".webm" iff the type is WebM, ".mp4" otherwise |
| VideoUpload.ConversionIffWebm | src/components/VideoUpload.tsx:119 | conversion runs iff the chosen type is WebM, iff neither MP4 type is supported and WebM is |
| VideoUpload.RecordingName | src/components/VideoUpload.tsx:123 | the name starts with "platinumrx-video-", then the decimal digits of the time, then ends with the extension |
| VideoUpload.RecordingNameCarriesTime | src/components/VideoUpload.tsx:123 | the middle of the name reads back as the time, so different times give different names |
| Media.DecimalDigits | src/components/VideoUpload.tsx:123 | `${n}` of a whole number: digits only, no leading zero, and it reads back as n |
| VideoUpload.FormatLabelOfRecordingTypes | src/components/VideoUpload.tsx:344-347 | both MP4 types read "MP4 (Ready for sharing)", WebM reads "WebM (Converting to MP4)", and anything reads "Converting to MP4..." during conversion |
| VideoUpload.StartRecordingOutcome | src/components/VideoUpload.tsx:65-138 | with permission and a supported type, recording starts with the preferred format and no event; otherwise exactly the permission alert is added and nothing else changes |
| VideoUpload.StopRecordingOutcome | src/components/VideoUpload.tsx:115-131 | without a recorder or while not recording, stop does nothing; otherwise recording ends, an MP4 recording is delivered once with the time-stamped name, its type and bytes, a WebM recording starts conversion with no delivery when the set-up succeeds, and when the set-up throws the original is delivered at once under a ".webm" name with the flag and label cleared |
| VideoUpload.VideoErrorFallsBack | src/components/VideoUpload.tsx:202-211 | a video error while loading clears the flag and label and delivers the original once under a ".webm" name; at any other moment it changes nothing |
| VideoUpload.LoadErrorAfterStopDeliversOriginal | src/components/VideoUpload.tsx:115-211 | a WebM recording whose loading fails right after stop is delivered once with its recorded bytes and type, and nothing is left recording or converting |
| VideoUpload.FallbackDeliversOriginal | src/components/VideoUpload.tsx:202-224 | a failed conversion clears the flag and label, keeps the original as the recorded blob, and delivers its bytes once, under its own type and a ".webm" name |
| VideoUpload.ConversionStallsAsWritten | src/components/VideoUpload.tsx:163-200 | as written, a conversion after stop, metadata and seek is left converting with no file delivered, and no remaining callback changes that |
| VideoUpload.ConversionAlwaysEnds | src/components/VideoUpload.tsx:141-224 | with the refused MP4 recorder handled, every conversion ends with the flag cleared and the original recording delivered exactly once |
| VideoUpload.EncoderStopDeliversMp4 | src/components/VideoUpload.tsx:180-191 | an encoder that does stop delivers the converted bytes once as "platinumrx-video-<time>.mp4" typed video/mp4 and clears the flag and label |
| VideoUpload.UseRecordedVideoOutcome | src/components/VideoUpload.tsx:234-241 | without a blob nothing happens; with one its bytes are delivered as "recorded-video.webm" typed video/webm |
| VideoUpload.VideoUploader.constructor | src/components/VideoUpload.tsx:11-18 | not dragging, not recording, not converting, no blob, empty label, no recorder, no events |
| VideoUpload.VideoUploader.HandleDragOver | src/components/VideoUpload.tsx:20-23 | only the drag highlight is set |
| VideoUpload.VideoUploader.HandleDragLeave | src/components/VideoUpload.tsx:25-28 | only the drag highlight is cleared |
| VideoUpload.VideoUploader.HandleDrop | src/components/VideoUpload.tsx:30-40 | the new state is `AfterDrop` of the old one |
| VideoUpload.VideoUploader.HandleFileSelect | src/components/VideoUpload.tsx:42-47 | the new state is `AfterFileSelect` of the old one |
| VideoUpload.VideoUploader.ValidateAndUpload | src/components/VideoUpload.tsx:49-63 | appends `Validate(file)` to the events and changes nothing else |
| VideoUpload.VideoUploader.StartRecording | src/components/VideoUpload.tsx:65-138 | the new state is `AfterStartRecording` of the old one |
| VideoUpload.VideoUploader.StopRecording | src/components/VideoUpload.tsx:227-232 | the new state is `AfterStopRecording` of the old one |
| VideoUpload.VideoUploader.FallBackToOriginal | src/components/VideoUpload.tsx:202-211 | the new state is `Fallback` of the old one |
| VideoUpload.VideoUploader.OnMetadataLoaded | src/components/VideoUpload.tsx:152-161 | while loading, the label becomes "Processing video frames..." and the conversion waits for the seek |
| VideoUpload.VideoUploader.OnSeeked | src/components/VideoUpload.tsx:163-200 | the new state is `AfterSeeked` (the corrected callback) of the old one |
| VideoUpload.VideoUploader.OnEncoderStop | src/components/VideoUpload.tsx:180-191 | the new state is `AfterEncoderStop` of the old one |
| VideoUpload.VideoUploader.OnVideoError | src/components/VideoUpload.tsx:202-211 | the new state is `AfterVideoError` of the old one, which `VideoErrorFallsBack` characterises |
| VideoUpload.VideoUploader.UseRecordedVideo | src/components/VideoUpload.tsx:234-241 | the new state is `AfterUseRecordedVideo` of the old one |
| VideoUpload.VideoUploader.RecordAgain | src/components/VideoUpload.tsx:376-380 | clears the blob, the converting flag and the label |
| TemplateSelection.CatalogueShape | src/components/TemplateSelection.tsx:24-74 | the ids are no-edit, basic, pro and distinct; basic is the only popular template; all are free |
| TemplateSelection.CatalogueKnownToProcessing | src/components/TemplateSelection.tsx:24-74 | each offered id gets the same display name on the processing screen and its own label list, never the fallback |
| TemplateSelection.ContinueEmits | src/components/TemplateSelection.tsx:80-84 | at most one id is emitted; nothing iff the selection is empty; the id emitted is the selection |
| TemplateSelection.LastClickWins | src/components/TemplateSelection.tsx:76-78 | after any clicks the selection is the last clicked id, and continuing emits exactly that id |
| TemplateSelection.TemplateSelector.constructor | src/components/TemplateSelection.tsx:22 | nothing selected, nothing emitted |
| TemplateSelection.TemplateSelector.HandleSelect | src/components/TemplateSelection.tsx:76-78 | the selection becomes the clicked id, nothing is emitted |
| TemplateSelection.TemplateSelector.HandleContinue | src/components/TemplateSelection.tsx:80-84 | appends `ContinueEmits(selection)` to the emitted ids and keeps the selection |
| TemplateSelection.TemplateSelector.ContinueDisabled | src/components/TemplateSelection.tsx:200 | the button is disabled iff nothing is selected |
| ShareInterface.ReferralCode | src/components/ShareInterface.tsx:29 | starts with "PRX", is 3 to 9 characters long with no lowercase letter, and is 9 long when the random text has at least 8 characters |
| ShareInterface.ShareMessageCarriesCode | src/components/ShareInterface.tsx:36 | the share message starts with the custom message and contains the captioned referral code, the code itself and the hashtags |
| ShareInterface.FallbackTextCarriesMessage | src/components/ShareInterface.tsx:156 | the clipboard block contains the share message, the referral code and the video line, which reads "undefined" without a URL |
| ShareInterface.NativeAttemptedIff | src/components/ShareInterface.tsx:98 | the share sheet is opened iff there is a file and `share`, `canShare` and `canShare({files})` all hold, and then it is the first event |
| ShareInterface.NoVideoRefused | src/components/ShareInterface.tsx:78-81 | without a file, exactly one error toast and nothing else |
| ShareInterface.SilencedRejectionEndsDispatch | src/components/ShareInterface.tsx:109-115 | a cancelled share or a non-Error rejection leaves the share call as the only event, with no toast |
| ShareInterface.ExactlyOneVerdict | src/components/ShareInterface.tsx:77-159 | apart from a silenced rejection, every dispatch shows exactly one success or error toast, and it is an error exactly when there is no file or the sheet, the download and the clipboard all failed |
| ShareInterface.ShareOutcomes | src/components/ShareInterface.tsx:96-159 | with a file, the exact events per case: a fulfilled sheet gives the share call and "Shared"; a working download gives the download, its success toast and the info tip; a throwing download gives the clipboard copy and its success toast, or "Sharing failed" without a clipboard |
| ShareInterface.TiersReportSuccessOnly | src/components/ShareInterface.tsx:96-159 | no tier shows an error toast itself; the clipboard tier throws iff there is no clipboard and otherwise shows its success toast; the download tier shows its success and tip toasts; a fulfilled sheet shows "Shared" without throwing |
| ShareInterface.TierOrder | src/components/ShareInterface.tsx:96-159 | the download runs iff the sheet is unavailable or failed for real; the clipboard copy iff the download then throws and a clipboard exists; "Sharing failed" iff it does not |
| ShareInterface.ButtonsNeedUrl | src/components/ShareInterface.tsx:53-75 | download needs both the file and a URL and copy-URL needs the URL; otherwise each shows just its error toast, as it always does in the wired flow |
| ShareInterface.ShareScreen.constructor | src/components/ShareInterface.tsx:29-32 | the referral code is drawn once from the random text; not sharing; the default message and hashtags |
| ShareInterface.ShareScreen.SetCustomMessage | src/components/ShareInterface.tsx:376 | only the custom message changes |
| ShareInterface.ShareScreen.SetHashtags | src/components/ShareInterface.tsx:383 | only the hashtags change |
| ShareInterface.ShareScreen.HandleCopyReferralCode | src/components/ShareInterface.tsx:48-51 | appends `CopyReferralCodeEvents`: the code is written and a success toast shown when a clipboard exists |
| ShareInterface.ShareScreen.HandleCopyVideoUrl | src/components/ShareInterface.tsx:53-60 | appends `CopyVideoUrlEvents` and changes nothing else |
| ShareInterface.ShareScreen.HandleDownload | src/components/ShareInterface.tsx:62-75 | appends `DownloadEvents` and changes nothing else |
| ShareInterface.ShareScreen.HandleShare | src/components/ShareInterface.tsx:77-94 | appends `ShareEvents`; with a file, the flag is raised for the dispatch (the tier method requires it) and is false afterwards; without one, it is unchanged |
| ShareInterface.ShareScreen.UniversalShareTier | src/components/ShareInterface.tsx:96-120 | appends the events of `UniversalShare` and reports whether it threw; `ShareOutcomes` and `TiersReportSuccessOnly` give those events |
| ShareInterface.ShareScreen.AlternativeSharingTier | src/components/ShareInterface.tsx:122-152 | appends the events of `AlternativeSharing` and reports whether it threw; `TiersReportSuccessOnly` gives its success and tip toasts |
| ShareInterface.ShareScreen.FallbackShareTier | src/components/ShareInterface.tsx:154-159 | appends the events of `FallbackShare`; it throws iff there is no clipboard, and otherwise shows its success toast (`TiersReportSuccessOnly`) |

## Findings

| source | as written | input that shows it | evidently intended | confidence | as-written member | corrected member |
|---|---|---|---|---|---|---|
| src/components/VideoUpload.tsx:171-173 | The seek callback builds a `MediaRecorder` with type "video/mp4". Conversion only runs when "video/mp4" is unsupported, and the MediaStream Recording specification has the constructor throw `NotSupportedError` for an unsupported type. The exception escapes the callback, outside the surrounding `try`. | A browser that supports only WebM recording: start recording, stop. | The conversion falls back to the original recording, as the error branches at lines 202-224 do. | medium, not executed | VideoUpload.ConversionStallsAsWritten | VideoUpload.ConversionAlwaysEnds |

As written, the component's state stays converting with the label "Converting to MP4 format...", and no file is ever delivered. The class `VideoUploader` uses the corrected callback, `AfterSeeked`. The written one, `AfterSeekedAsWritten`, is kept for the as-written lemma.

## Left out

- JSX rendering, CSS, icons as components, static copy, the welcome section, and the guideline and disclosure cards: presentation only.
- `src/components/RewardsTracker.tsx` is not part of this model. It only displays the earnings.
- The internals of `getUserMedia`, `MediaRecorder`, canvas drawing and `captureStream`, `URL.createObjectURL`/`revokeObjectURL`, and the 5-second encoder timer: browser APIs. Only the decisions around them are modelled, with their outcomes as inputs.
- Chunk collection in the recorders' `ondataavailable` handlers: the recorded bytes are a parameter of the stop events.
- The conversion's null-`ctx` branch: the 2D canvas context is taken to exist.
- VideoUpload.AfterVideoError: the video element's error event is taken to arrive only while the recording is loading.
- VideoUpload.AfterStopRecording: the recorder's stop event is delivered at once, inside `stopRecording`, rather than later from the event loop.
- Megabyte display via `toFixed(1)`: floating-point formatting.
- Wall-clock timing of the interval, `await` suspension and interleavings: handlers and tier outcomes are discrete steps.
- StepController.Session.HandleTemplateSelect: a second template selection would start a second interval. The model keeps a single interval flag, because the template screen is left after one selection.
- ProcessingStatus.StepIndexIsFloor relates the index to the exact rational floor, not to IEEE double rounding of `progress / 100 * n`.
- ShareInterface.ReferralCode takes the base-36 text of the random number as a parameter. Randomness and uniqueness are not modelled.
- ShareInterface.ShareScreen.HandleDownload: creating and clicking the anchor is taken not to throw.
- `shareUrl` (`src/components/ShareInterface.tsx:35`) is computed but never read, so it is not modelled.
- `onCreateAnother`: the landing page never passes it, so no "create another" reset exists in the wired flow.
- The rejection of a clipboard `writeText` promise: it is not awaited, so the toast appears regardless. Only a missing `navigator.clipboard`, which throws at once, is modelled.
