/** The upload screen: validation of chosen and dropped files, the choice of
    a recording format, the stop-recording decision between delivering the
    recording directly and converting it to MP4, the conversion callbacks
    with their fallback to the original recording, and the "use" and
    "record again" buttons.

    Browser capabilities (`MediaRecorder.isTypeSupported`, camera permission,
    a failing conversion set-up), recorded bytes and `Date.now()` are
    parameters. Alerts and calls of the `onVideoUpload` callback are
    appended to an event log. */
module VideoUpload {
  import opened Media

  // ---------------------------------------------------------------------------
  // Events and messages

  datatype Event = Alert(message: string) | Uploaded(file: MediaFile)

  const SizeAlert := "File size too large. Please upload a video under 100MB."
  const TypeAlert := "Please upload a valid video file."
  const PermissionAlert := "Failed to start recording. Please check camera permissions."

  /** 100 MiB, the largest accepted upload. */
  const MaxUploadBytes: nat := 100 * 1024 * 1024

  predicate IsVideoType(mimeType: string)
  {
    StartsWith(mimeType, "video/")
  }

  /** A file is accepted when it is at most 100 MiB and of a video type. */
  predicate Acceptable(file: MediaFile)
  {
    file.Size() <= MaxUploadBytes && IsVideoType(file.mimeType)
  }

  // ---------------------------------------------------------------------------
  // Validation and file choice

  /** `validateAndUpload`: the size check comes first, then the type check,
      and only a file passing both is handed on. */
  function Validate(file: MediaFile): (events: seq<Event>)
    ensures |events| == 1
    ensures events == [Uploaded(file)] <==> Acceptable(file)
    ensures file.Size() > MaxUploadBytes ==> events == [Alert(SizeAlert)]
    ensures file.Size() <= MaxUploadBytes && !IsVideoType(file.mimeType) ==> events == [Alert(TypeAlert)]
  {
    if file.Size() > MaxUploadBytes then [Alert(SizeAlert)]
    else if !IsVideoType(file.mimeType) then [Alert(TypeAlert)]
    else [Uploaded(file)]
  }

  /** The limit is inclusive: a video of exactly 100 MiB is accepted and one
      byte more is refused with the size alert. */
  lemma SizeLimitIsInclusive(name: string, data: seq<byte>, mimeType: string)
    requires IsVideoType(mimeType)
    ensures |data| == 104857600 ==> Validate(MediaFile(name, data, mimeType)) == [Uploaded(MediaFile(name, data, mimeType))]
    ensures |data| == 104857601 ==> Validate(MediaFile(name, data, mimeType)) == [Alert(SizeAlert)]
  {
  }

  /** `files.find(file => file.type.startsWith('video/'))` */
  function FirstVideo(files: seq<MediaFile>): (r: Option<MediaFile>)
    ensures r.None? <==> forall i :: 0 <= i < |files| ==> !IsVideoType(files[i].mimeType)
    ensures r.Some? ==> exists i :: 0 <= i < |files| && files[i] == r.value &&
                                   IsVideoType(files[i].mimeType) &&
                                   forall j :: 0 <= j < i ==> !IsVideoType(files[j].mimeType)
    decreases |files|
  {
    if files == [] then None
    else if IsVideoType(files[0].mimeType) then Some(files[0])
    else
      var r := FirstVideo(files[1..]);
      FirstVideoOfTail(files, r);
      r
  }

  /** A video found first in the tail of a list whose head is no video is
      the first video of the whole list. */
  lemma FirstVideoOfTail(files: seq<MediaFile>, r: Option<MediaFile>)
    requires files != [] && !IsVideoType(files[0].mimeType)
    requires r.None? <==> forall i :: 0 <= i < |files[1..]| ==> !IsVideoType(files[1..][i].mimeType)
    requires r.Some? ==> exists i :: 0 <= i < |files[1..]| && files[1..][i] == r.value &&
                                    IsVideoType(files[1..][i].mimeType) &&
                                    forall j :: 0 <= j < i ==> !IsVideoType(files[1..][j].mimeType)
    ensures r.None? <==> forall i :: 0 <= i < |files| ==> !IsVideoType(files[i].mimeType)
    ensures r.Some? ==> exists i :: 0 <= i < |files| && files[i] == r.value &&
                                   IsVideoType(files[i].mimeType) &&
                                   forall j :: 0 <= j < i ==> !IsVideoType(files[j].mimeType)
  {
    assert forall i :: 1 <= i < |files| ==> files[i] == files[1..][i - 1];
    if r.Some? {
      var i :| 0 <= i < |files[1..]| && files[1..][i] == r.value &&
               IsVideoType(files[1..][i].mimeType) &&
               forall j :: 0 <= j < i ==> !IsVideoType(files[1..][j].mimeType);
      assert files[i + 1] == r.value;
      forall j | 0 <= j < i + 1 ensures !IsVideoType(files[j].mimeType) {
        if j > 0 {
          assert files[j] == files[1..][j - 1];
        }
      }
    }
  }

  /** What a drop hands to validation: the first video file, or nothing. */
  function DropEvents(files: seq<MediaFile>): (events: seq<Event>)
    ensures |events| <= 1
    ensures (forall i :: 0 <= i < |files| ==> !IsVideoType(files[i].mimeType)) ==> events == []
    ensures forall f :: Uploaded(f) in events ==> FirstVideo(files) == Some(f)
    ensures FirstVideo(files).Some? ==> events == Validate(FirstVideo(files).value)
  {
    match FirstVideo(files)
    case None => []
    case Some(f) => Validate(f)
  }

  /** A picked file list hands its first file, video or not, to validation. */
  function SelectEvents(files: seq<MediaFile>): (events: seq<Event>)
    ensures files == [] <==> events == []
    ensures files != [] ==> events == Validate(files[0])
  {
    if files == [] then [] else Validate(files[0])
  }

  /** Dropping a video and a non-video file in either order forwards the
      video only, whereas picking them forwards nothing when the non-video
      comes first. */
  lemma DropSkipsNonVideo(video: MediaFile, other: MediaFile)
    requires Acceptable(video) && !IsVideoType(other.mimeType)
    ensures DropEvents([other, video]) == [Uploaded(video)]
    ensures DropEvents([video, other]) == [Uploaded(video)]
    ensures SelectEvents([other, video]) == [Alert(TypeAlert)] || SelectEvents([other, video]) == [Alert(SizeAlert)]
  {
    assert [other, video][1..] == [video];
    assert FirstVideo([other, video]) == FirstVideo([video]);
  }

  // ---------------------------------------------------------------------------
  // Recording format

  /** Which of the three candidate types `MediaRecorder.isTypeSupported` accepts. */
  datatype Support = Support(mp4: bool, mp4H264: bool, webm: bool)

  function IsTypeSupported(support: Support, mimeType: string): bool
  {
    (mimeType == "video/mp4" && support.mp4) ||
    (mimeType == "video/mp4;codecs=h264" && support.mp4H264) ||
    (mimeType == "video/webm" && support.webm)
  }

  datatype Format = Format(mimeType: string, extension: string)

  /** The preference chain of `startRecording`. The last branch asks again
      whether WebM is supported and takes the extension from whether the
      type mentions "webm". */
  function ChooseFormat(support: Support): Format
  {
    if IsTypeSupported(support, "video/mp4") then Format("video/mp4", ".mp4")
    else if IsTypeSupported(support, "video/mp4;codecs=h264") then Format("video/mp4;codecs=h264", ".mp4")
    else if IsTypeSupported(support, "video/webm") then Format("video/webm", ".webm")
    else
      var mimeType := if IsTypeSupported(support, "video/webm") then "video/webm" else "video/mp4";
      Format(mimeType, if Contains(mimeType, "webm") then ".webm" else ".mp4")
  }

  const Preferences: seq<string> := ["video/mp4", "video/mp4;codecs=h264", "video/webm"]

  /** Reference definition: the first supported type in order of preference. */
  function FirstSupported(support: Support, prefs: seq<string>): (r: Option<string>)
    ensures r.Some? ==> r.value in prefs && IsTypeSupported(support, r.value)
    ensures r.None? ==> forall p :: p in prefs ==> !IsTypeSupported(support, p)
    decreases |prefs|
  {
    if prefs == [] then None
    else if IsTypeSupported(support, prefs[0]) then Some(prefs[0])
    else FirstSupported(support, prefs[1..])
  }

  /** The chosen type is the first supported one in the order MP4, MP4/H.264,
      WebM; when none is supported it is "video/mp4", which the recorder then
      refuses. The extension is ".webm" exactly for WebM, ".mp4" otherwise. */
  lemma {:induction false} ChooseFormatIsFirstSupported(support: Support)
    ensures FirstSupported(support, Preferences).Some? ==>
              ChooseFormat(support).mimeType == FirstSupported(support, Preferences).value
    ensures FirstSupported(support, Preferences).None? ==>
              ChooseFormat(support).mimeType == "video/mp4" &&
              !IsTypeSupported(support, ChooseFormat(support).mimeType)
    ensures ChooseFormat(support).extension == ".webm" <==> ChooseFormat(support).mimeType == "video/webm"
    ensures ChooseFormat(support).extension == ".mp4" <==> ChooseFormat(support).mimeType != "video/webm"
  {
    assert Preferences[1..] == ["video/mp4;codecs=h264", "video/webm"];
    assert Preferences[1..][1..] == ["video/webm"];
    assert Preferences[1..][1..][1..] == [];
    AbsentChar("video/mp4", "webm", 0);
  }

  /** Conversion is called for unless the type is one of the two MP4 types. */
  predicate NeedsConversion(mimeType: string)
  {
    mimeType != "video/mp4" && mimeType != "video/mp4;codecs=h264"
  }

  /** A recording is converted exactly when it was made as WebM, which is
      exactly when neither MP4 type is supported. */
  lemma ConversionIffWebm(support: Support)
    ensures NeedsConversion(ChooseFormat(support).mimeType) <==> ChooseFormat(support).mimeType == "video/webm"
    ensures ChooseFormat(support).mimeType == "video/webm" <==> !support.mp4 && !support.mp4H264 && support.webm
    ensures NeedsConversion(ChooseFormat(support).mimeType) ==> !IsTypeSupported(support, "video/mp4")
  {
  }

  /** `platinumrx-video-${Date.now()}${ext}` */
  function RecordingName(now: nat, extension: string): (name: string)
    ensures StartsWith(name, "platinumrx-video-")
    ensures |name| > |"platinumrx-video-"| + |extension|
    ensures name[|name| - |extension|..] == extension
    ensures name[|"platinumrx-video-"|..|name| - |extension|] == DecimalDigits(now)
  {
    var name := "platinumrx-video-" + DecimalDigits(now) + extension;
    StartsWithIff(name, "platinumrx-video-");
    assert name[..|"platinumrx-video-"|] == "platinumrx-video-";
    name
  }

  /** The digits between the prefix and the extension read back as the time,
      so recordings stopped at different times get different names. */
  lemma RecordingNameCarriesTime(now: nat, other: nat, extension: string)
    ensures var name := RecordingName(now, extension);
            DigitsValue(name[|"platinumrx-video-"|..|name| - |extension|]) == now
    ensures now != other ==> RecordingName(now, extension) != RecordingName(other, extension)
  {
    var a := RecordingName(now, extension);
    var b := RecordingName(other, extension);
    if a == b {
      assert DecimalDigits(now) == a[|"platinumrx-video-"|..|a| - |extension|] == DecimalDigits(other);
    }
  }

  /** The "Format" line of the preview card. */
  function FormatLabel(isConverting: bool, blobType: string): string
  {
    if isConverting then "Converting to MP4..."
    else if Contains(blobType, "mp4") then "MP4 (Ready for sharing)"
    else if Contains(blobType, "webm") then "WebM (Converting to MP4)"
    else blobType
  }

  /** Outside conversion, both MP4 recording types read as ready MP4 and
      WebM reads as "converting", including a WebM fallback after a failed
      conversion. */
  lemma FormatLabelOfRecordingTypes()
    ensures FormatLabel(false, "video/mp4") == "MP4 (Ready for sharing)"
    ensures FormatLabel(false, "video/mp4;codecs=h264") == "MP4 (Ready for sharing)"
    ensures FormatLabel(false, "video/webm") == "WebM (Converting to MP4)"
    ensures forall t :: FormatLabel(true, t) == "Converting to MP4..."
  {
    assert MatchesAt("video/mp4", "mp4", 6, 0);
    assert MatchesAt("video/mp4;codecs=h264", "mp4", 6, 0);
    AbsentChar("video/webm", "mp4", 1);
    assert MatchesAt("video/webm", "webm", 6, 0);
  }

  // ---------------------------------------------------------------------------
  // Component state

  /** Where a conversion to MP4 stands: waiting for the recorded video's
      metadata, for the seek to its start, for the MP4 encoder to stop, or
      stalled because a callback threw. */
  datatype Phase = Idle | Loading(original: Blob) | Seeking(original: Blob) | Encoding(original: Blob) | Stalled(original: Blob)

  datatype UploaderView = UploaderView(
    isDragging: bool,
    isRecording: bool,
    isConverting: bool,
    recordedBlob: Option<Blob>,
    conversionProgress: string,
    recorder: Option<Format>,
    phase: Phase,
    events: seq<Event>)

  const InitialUploader := UploaderView(false, false, false, None, "", None, Idle, [])

  function Uploads(events: seq<Event>): (n: nat)
    ensures n <= |events|
  {
    if events == [] then 0
    else Uploads(events[..|events| - 1]) + (if events[|events| - 1].Uploaded? then 1 else 0)
  }

  lemma {:induction false} UploadsAppend(a: seq<Event>, b: seq<Event>)
    ensures Uploads(a + b) == Uploads(a) + Uploads(b)
    decreases |b|
  {
    if b != [] {
      assert (a + b)[..|a + b| - 1] == a + b[..|b| - 1];
      UploadsAppend(a, b[..|b| - 1]);
    } else {
      assert a + b == a;
    }
  }

  function AfterDrop(v: UploaderView, files: seq<MediaFile>): UploaderView
  {
    v.(isDragging := false, events := v.events + DropEvents(files))
  }

  function AfterFileSelect(v: UploaderView, files: seq<MediaFile>): UploaderView
  {
    v.(events := v.events + SelectEvents(files))
  }

  /** `startRecording`: a refused camera and a recorder that refuses the chosen
      type both end in the same alert; otherwise recording starts with the
      chosen format. */
  function AfterStartRecording(v: UploaderView, permissionGranted: bool, support: Support): UploaderView
  {
    var format := ChooseFormat(support);
    if !permissionGranted || !IsTypeSupported(support, format.mimeType) then
      v.(events := v.events + [Alert(PermissionAlert)])
    else
      v.(isRecording := true, recorder := Some(format))
  }

  /** The first steps of `convertToMP4`; a failure while setting up is caught
      and falls back to the original recording at once. */
  function BeginConversion(v: UploaderView, blob: Blob, setupFails: bool, now: nat): UploaderView
  {
    var started := v.(isConverting := true, conversionProgress := "Starting conversion...", phase := Loading(blob));
    if setupFails then Fallback(started, blob, now) else started
  }

  /** The error and catch branches of `convertToMP4`: the original bytes are
      delivered under their own type with a ".webm" name. */
  function Fallback(v: UploaderView, original: Blob, now: nat): UploaderView
  {
    v.(isConverting := false, conversionProgress := "", recordedBlob := Some(original), phase := Idle,
       events := v.events + [Uploaded(MediaFile(RecordingName(now, ".webm"), original.data, original.mimeType))])
  }

  /** The recorder's stop event: MP4 recordings are delivered as they are,
      anything else goes to conversion. */
  function AfterRecorderStop(v: UploaderView, format: Format, data: seq<byte>, setupFails: bool, now: nat): UploaderView
  {
    var blob := Blob(data, format.mimeType);
    if NeedsConversion(format.mimeType) then BeginConversion(v, blob, setupFails, now)
    else
      v.(recordedBlob := Some(blob),
         events := v.events + [Uploaded(FileOf(blob, RecordingName(now, format.extension), format.mimeType))])
  }

  /** `stopRecording`, with the recorder's stop event delivered straight away. */
  function AfterStopRecording(v: UploaderView, data: seq<byte>, setupFails: bool, now: nat): UploaderView
  {
    if v.recorder.Some? && v.isRecording then
      AfterRecorderStop(v.(isRecording := false), v.recorder.value, data, setupFails, now)
    else v
  }

  function AfterMetadataLoaded(v: UploaderView): UploaderView
  {
    if v.phase.Loading? then v.(conversionProgress := "Processing video frames...", phase := Seeking(v.phase.original))
    else v
  }

  /** The seek callback as written: it builds an MP4 recorder, which throws
      when MP4 is not supported; the exception escapes the callback and
      leaves the conversion stalled. */
  function AfterSeekedAsWritten(v: UploaderView, support: Support): UploaderView
  {
    if v.phase.Seeking? then
      var labelled := v.(conversionProgress := "Converting to MP4 format...");
      if IsTypeSupported(support, "video/mp4") then labelled.(phase := Encoding(v.phase.original))
      else labelled.(phase := Stalled(v.phase.original))
    else v
  }

  /** The seek callback with the refused MP4 recorder handled like every
      other conversion failure: fall back to the original recording. */
  function AfterSeeked(v: UploaderView, support: Support, now: nat): UploaderView
  {
    if v.phase.Seeking? then
      var labelled := v.(conversionProgress := "Converting to MP4 format...");
      if IsTypeSupported(support, "video/mp4") then labelled.(phase := Encoding(v.phase.original))
      else Fallback(labelled, v.phase.original, now)
    else v
  }

  /** The MP4 encoder's stop event: the converted bytes are delivered as MP4. */
  function AfterEncoderStop(v: UploaderView, data: seq<byte>, now: nat): UploaderView
  {
    if v.phase.Encoding? then
      var mp4 := Blob(data, "video/mp4");
      v.(conversionProgress := "", isConverting := false, recordedBlob := Some(mp4), phase := Idle,
         events := v.events + [Uploaded(FileOf(mp4, RecordingName(now, ".mp4"), "video/mp4"))])
    else v
  }

  /** The video element's error event, raised while loading the recording. */
  function AfterVideoError(v: UploaderView, now: nat): UploaderView
  {
    if v.phase.Loading? then Fallback(v, v.phase.original, now) else v
  }

  function AfterUseRecordedVideo(v: UploaderView): UploaderView
  {
    match v.recordedBlob
    case None => v
    case Some(blob) => v.(events := v.events + [Uploaded(FileOf(blob, "recorded-video.webm", "video/webm"))])
  }

  function AfterRecordAgain(v: UploaderView): UploaderView
  {
    v.(recordedBlob := None, isConverting := false, conversionProgress := "")
  }

  // ---------------------------------------------------------------------------
  // Properties of the handlers

  /** A drop always ends the drag highlight and hands on at most the first
      video file; the rest of the state is untouched. */
  lemma DropForwardsFirstVideoOnly(v: UploaderView, files: seq<MediaFile>)
    ensures !AfterDrop(v, files).isDragging
    ensures AfterDrop(v, files).events[..|v.events|] == v.events
    ensures |AfterDrop(v, files).events| <= |v.events| + 1
    ensures forall f :: Uploaded(f) in AfterDrop(v, files).events[|v.events|..] ==>
              FirstVideo(files) == Some(f) && Acceptable(f)
    ensures FirstVideo(files).Some? ==>
              AfterDrop(v, files).events == v.events + Validate(FirstVideo(files).value)
    ensures AfterDrop(v, files).(isDragging := v.isDragging, events := v.events) == v
  {
    var added := DropEvents(files);
    assert AfterDrop(v, files).events[|v.events|..] == added;
    forall f | Uploaded(f) in added ensures FirstVideo(files) == Some(f) && Acceptable(f) {
      assert Validate(f) == [Uploaded(f)];
    }
  }

  /** Starting is refused, with one alert and nothing else, without camera
      permission or when no candidate type is supported; otherwise the
      recorder gets the preferred supported format. */
  lemma StartRecordingOutcome(v: UploaderView, permissionGranted: bool, support: Support)
    ensures var w := AfterStartRecording(v, permissionGranted, support);
            if permissionGranted && FirstSupported(support, Preferences).Some? then
              w.isRecording && w.recorder == Some(ChooseFormat(support)) &&
              w.recorder.value.mimeType == FirstSupported(support, Preferences).value && w.events == v.events
            else
              w == v.(events := v.events + [Alert(PermissionAlert)])
  {
    ChooseFormatIsFirstSupported(support);
  }

  /** Stopping does nothing unless a recorder exists and is recording; then
      recording ends, and an MP4 recording is delivered as exactly one file
      named after the time, with the recorder's type and extension. */
  lemma StopRecordingOutcome(v: UploaderView, data: seq<byte>, setupFails: bool, now: nat)
    ensures !(v.recorder.Some? && v.isRecording) ==> AfterStopRecording(v, data, setupFails, now) == v
    ensures v.recorder.Some? && v.isRecording ==> !AfterStopRecording(v, data, setupFails, now).isRecording
    ensures v.recorder.Some? && v.isRecording && !NeedsConversion(v.recorder.value.mimeType) ==>
              var f := v.recorder.value;
              AfterStopRecording(v, data, setupFails, now).events ==
                v.events + [Uploaded(MediaFile(RecordingName(now, f.extension), data, f.mimeType))] &&
              AfterStopRecording(v, data, setupFails, now).recordedBlob == Some(Blob(data, f.mimeType)) &&
              AfterStopRecording(v, data, setupFails, now).isConverting == v.isConverting
    ensures v.recorder.Some? && v.isRecording && NeedsConversion(v.recorder.value.mimeType) && !setupFails ==>
              AfterStopRecording(v, data, setupFails, now).events == v.events &&
              AfterStopRecording(v, data, setupFails, now).isConverting &&
              AfterStopRecording(v, data, setupFails, now).phase == Loading(Blob(data, v.recorder.value.mimeType))
    ensures v.recorder.Some? && v.isRecording && NeedsConversion(v.recorder.value.mimeType) && setupFails ==>
              var w := AfterStopRecording(v, data, setupFails, now);
              !w.isConverting && w.conversionProgress == "" && w.phase == Idle &&
              w.events == v.events + [Uploaded(MediaFile(RecordingName(now, ".webm"), data, v.recorder.value.mimeType))]
  {
  }

  /** The video element's error while the recording loads ends the conversion
      the way every other failure does: flag and label cleared and the
      original delivered once; at any other moment the event changes nothing. */
  lemma VideoErrorFallsBack(v: UploaderView, now: nat)
    ensures !v.phase.Loading? ==> AfterVideoError(v, now) == v
    ensures v.phase.Loading? ==>
              var w := AfterVideoError(v, now);
              var original := v.phase.original;
              !w.isConverting && w.conversionProgress == "" && w.phase == Idle &&
              w.recordedBlob == Some(original) &&
              w.events == v.events + [Uploaded(MediaFile(RecordingName(now, ".webm"), original.data, original.mimeType))] &&
              Uploads(w.events) == Uploads(v.events) + 1
  {
    if v.phase.Loading? {
      FallbackDeliversOriginal(v, v.phase.original, now);
    }
  }

  /** A WebM recording whose loading fails right after the stop is delivered
      as it was recorded, once, and nothing is left converting. */
  lemma LoadErrorAfterStopDeliversOriginal(v: UploaderView, data: seq<byte>, now: nat, t: nat)
    requires v.recorder.Some? && v.isRecording && NeedsConversion(v.recorder.value.mimeType)
    ensures var w := AfterVideoError(AfterStopRecording(v, data, false, now), t);
            !w.isConverting && w.conversionProgress == "" && !w.isRecording &&
            w.events == v.events + [Uploaded(MediaFile(RecordingName(t, ".webm"), data, v.recorder.value.mimeType))]
  {
    StopRecordingOutcome(v, data, false, now);
    VideoErrorFallsBack(AfterStopRecording(v, data, false, now), t);
  }

  /** Every failed conversion, whichever way it fails, clears the converting
      flag and label and delivers the original bytes once, under the original
      type and a ".webm" name. */
  lemma FallbackDeliversOriginal(v: UploaderView, original: Blob, now: nat)
    ensures var w := Fallback(v, original, now);
            !w.isConverting && w.conversionProgress == "" && w.phase == Idle &&
            w.recordedBlob == Some(original) &&
            w.events == v.events + [Uploaded(MediaFile(RecordingName(now, ".webm"), original.data, original.mimeType))] &&
            Uploads(w.events) == Uploads(v.events) + 1
  {
    UploadsAppend(v.events, [Uploaded(MediaFile(RecordingName(now, ".webm"), original.data, original.mimeType))]);
    assert [Uploaded(MediaFile(RecordingName(now, ".webm"), original.data, original.mimeType))][..0] == [];
  }

  /** The state a WebM recording reaches after stop, metadata and seek. */
  function ConversionRun(v: UploaderView, support: Support, data: seq<byte>, now: nat): UploaderView
  {
    AfterSeeked(AfterMetadataLoaded(AfterStopRecording(v, data, false, now)), support, now)
  }

  function ConversionRunAsWritten(v: UploaderView, support: Support, data: seq<byte>, now: nat): UploaderView
  {
    AfterSeekedAsWritten(AfterMetadataLoaded(AfterStopRecording(v, data, false, now)), support)
  }

  /** As written, a conversion never finishes: conversion only happens when
      MP4 is unsupported, so the seek callback always throws, the component
      stays "converting" with no file delivered, and the encoder whose stop
      event would finish the job never exists. */
  lemma ConversionStallsAsWritten(v: UploaderView, support: Support, data: seq<byte>, now: nat, later: seq<byte>, t: nat)
    requires v.isRecording && v.recorder == Some(ChooseFormat(support))
    requires NeedsConversion(ChooseFormat(support).mimeType)
    ensures var w := ConversionRunAsWritten(v, support, data, now);
            w.isConverting && w.conversionProgress == "Converting to MP4 format..." &&
            w.events == v.events && w.phase.Stalled? &&
            AfterEncoderStop(w, later, t) == w && AfterVideoError(w, t) == w &&
            AfterMetadataLoaded(w) == w && AfterSeekedAsWritten(w, support) == w
  {
    ConversionIffWebm(support);
  }

  /** With the refused MP4 recorder handled, every conversion ends: the flag
      and label are cleared and exactly one file, the original recording, is
      delivered. */
  lemma ConversionAlwaysEnds(v: UploaderView, support: Support, data: seq<byte>, now: nat)
    requires v.isRecording && v.recorder == Some(ChooseFormat(support))
    requires NeedsConversion(ChooseFormat(support).mimeType)
    ensures var w := ConversionRun(v, support, data, now);
            !w.isConverting && w.conversionProgress == "" && w.phase == Idle &&
            w.recordedBlob == Some(Blob(data, "video/webm")) &&
            w.events == v.events + [Uploaded(MediaFile(RecordingName(now, ".webm"), data, "video/webm"))]
  {
    ConversionIffWebm(support);
    var s := AfterMetadataLoaded(AfterStopRecording(v, data, false, now));
    assert s.phase == Seeking(Blob(data, "video/webm"));
    FallbackDeliversOriginal(s.(conversionProgress := "Converting to MP4 format..."), Blob(data, "video/webm"), now);
  }

  /** A conversion that does reach the encoder delivers the converted bytes
      once, as MP4. */
  lemma EncoderStopDeliversMp4(v: UploaderView, data: seq<byte>, now: nat)
    requires v.phase.Encoding?
    ensures var w := AfterEncoderStop(v, data, now);
            !w.isConverting && w.conversionProgress == "" && w.phase == Idle &&
            w.recordedBlob == Some(Blob(data, "video/mp4")) &&
            w.events == v.events + [Uploaded(MediaFile(RecordingName(now, ".mp4"), data, "video/mp4"))]
  {
  }

  /** "Use This Video" does nothing without a recording; with one it hands on
      its bytes as "recorded-video.webm" typed WebM, whatever the recording's
      real type. */
  lemma UseRecordedVideoOutcome(v: UploaderView)
    ensures v.recordedBlob.None? ==> AfterUseRecordedVideo(v) == v
    ensures v.recordedBlob.Some? ==>
              AfterUseRecordedVideo(v) == v.(events := v.events + [Uploaded(MediaFile("recorded-video.webm", v.recordedBlob.value.data, "video/webm"))])
  {
  }

  // ---------------------------------------------------------------------------
  // The component

  class VideoUploader {
    var isDragging: bool
    var isRecording: bool
    var isConverting: bool
    var recordedBlob: Option<Blob>
    var conversionProgress: string
    var recorder: Option<Format>
    var phase: Phase
    var events: seq<Event>

    function View(): UploaderView
      reads this
    {
      UploaderView(isDragging, isRecording, isConverting, recordedBlob, conversionProgress, recorder, phase, events)
    }

    constructor ()
      ensures View() == InitialUploader
    {
      isDragging, isRecording, isConverting := false, false, false;
      recordedBlob, conversionProgress, recorder := None, "", None;
      phase, events := Idle, [];
    }

    method HandleDragOver()
      modifies this
      ensures View() == old(View()).(isDragging := true)
    {
      isDragging := true;
    }

    method HandleDragLeave()
      modifies this
      ensures View() == old(View()).(isDragging := false)
    {
      isDragging := false;
    }

    method HandleDrop(files: seq<MediaFile>)
      modifies this
      ensures View() == AfterDrop(old(View()), files)
    {
      isDragging := false;
      var video := FirstVideo(files);
      if video.Some? {
        ValidateAndUpload(video.value);
      }
    }

    method HandleFileSelect(files: seq<MediaFile>)
      modifies this
      ensures View() == AfterFileSelect(old(View()), files)
    {
      if files != [] {
        ValidateAndUpload(files[0]);
      }
    }

    method ValidateAndUpload(file: MediaFile)
      modifies this
      ensures View() == old(View()).(events := old(events) + Validate(file))
    {
      if file.Size() > MaxUploadBytes {
        events := events + [Alert(SizeAlert)];
        return;
      }
      if !IsVideoType(file.mimeType) {
        events := events + [Alert(TypeAlert)];
        return;
      }
      events := events + [Uploaded(file)];
    }

    method StartRecording(permissionGranted: bool, support: Support)
      modifies this
      ensures View() == AfterStartRecording(old(View()), permissionGranted, support)
    {
      if !permissionGranted {
        events := events + [Alert(PermissionAlert)];
        return;
      }
      var format := ChooseFormat(support);
      if !IsTypeSupported(support, format.mimeType) {
        events := events + [Alert(PermissionAlert)];
        return;
      }
      recorder := Some(format);
      isRecording := true;
    }

    method StopRecording(data: seq<byte>, setupFails: bool, now: nat)
      modifies this
      ensures View() == AfterStopRecording(old(View()), data, setupFails, now)
    {
      if recorder.Some? && isRecording {
        isRecording := false;
        var format := recorder.value;
        var blob := Blob(data, format.mimeType);
        if NeedsConversion(format.mimeType) {
          isConverting := true;
          conversionProgress := "Starting conversion...";
          phase := Loading(blob);
          if setupFails {
            FallBackToOriginal(blob, now);
          }
        } else {
          recordedBlob := Some(blob);
          events := events + [Uploaded(FileOf(blob, RecordingName(now, format.extension), format.mimeType))];
        }
      }
    }

    method FallBackToOriginal(original: Blob, now: nat)
      modifies this
      ensures View() == Fallback(old(View()), original, now)
    {
      isConverting := false;
      conversionProgress := "";
      recordedBlob := Some(original);
      phase := Idle;
      events := events + [Uploaded(MediaFile(RecordingName(now, ".webm"), original.data, original.mimeType))];
    }

    method OnMetadataLoaded()
      modifies this
      ensures View() == AfterMetadataLoaded(old(View()))
    {
      if phase.Loading? {
        conversionProgress := "Processing video frames...";
        phase := Seeking(phase.original);
      }
    }

    method OnSeeked(support: Support, now: nat)
      modifies this
      ensures View() == AfterSeeked(old(View()), support, now)
    {
      if phase.Seeking? {
        conversionProgress := "Converting to MP4 format...";
        if IsTypeSupported(support, "video/mp4") {
          phase := Encoding(phase.original);
        } else {
          FallBackToOriginal(phase.original, now);
        }
      }
    }

    method OnEncoderStop(data: seq<byte>, now: nat)
      modifies this
      ensures View() == AfterEncoderStop(old(View()), data, now)
    {
      if phase.Encoding? {
        conversionProgress := "Finalizing MP4 file...";
        var mp4 := Blob(data, "video/mp4");
        recordedBlob := Some(mp4);
        isConverting := false;
        conversionProgress := "";
        phase := Idle;
        events := events + [Uploaded(FileOf(mp4, RecordingName(now, ".mp4"), "video/mp4"))];
      }
    }

    method OnVideoError(now: nat)
      modifies this
      ensures View() == AfterVideoError(old(View()), now)
    {
      if phase.Loading? {
        FallBackToOriginal(phase.original, now);
      }
    }

    method UseRecordedVideo()
      modifies this
      ensures View() == AfterUseRecordedVideo(old(View()))
    {
      if recordedBlob.Some? {
        events := events + [Uploaded(FileOf(recordedBlob.value, "recorded-video.webm", "video/webm"))];
      }
    }

    method RecordAgain()
      modifies this
      ensures View() == AfterRecordAgain(old(View()))
    {
      recordedBlob := None;
      isConverting := false;
      conversionProgress := "";
    }
  }
}
