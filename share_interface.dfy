/** The share screen: the referral code, the composed share message, the
    tiered share dispatcher (native share sheet, then a download of the file,
    then copying a text block to the clipboard), and the download and copy
    buttons.

    What the browser offers and how each tier turns out are inputs (an
    `Environment`); toasts, clipboard writes, download clicks and the native
    share call are appended to an event log. */
module ShareInterface {
  import opened Media

  // ---------------------------------------------------------------------------
  // Referral code and composed texts

  /** `PRX` followed by the characters from position 2 (after "0.") of a
      base-36 rendering of a random number, at most six of them, upper-cased.
      `randomText` stands for `Math.random().toString(36)`. */
  function ReferralCode(randomText: string): (code: string)
    ensures StartsWith(code, "PRX")
    ensures 3 <= |code| <= 9
    ensures forall i :: 0 <= i < |code| ==> !IsLowerAscii(code[i])
    ensures |randomText| >= 8 ==> |code| == 9
  {
    var code := "PRX" + ToUpper(Substr(randomText, 2, 6));
    StartsWithIff(code, "PRX");
    assert code[..3] == "PRX";
    code
  }

  const InitialCustomMessage := "Just saved ₹200 on my monthly medicines with @PlatinumRx! 💊💰 Check out my unboxing experience and use my referral code for exclusive discounts. #PlatinumRx #HealthcareSavings #MoneySaver"
  const InitialHashtags := "#PlatinumRx #HealthcareSavings #MedicineDelivery"

  const CodeCaption := "\n\nReferral Code: "

  /** The text shared alongside the video. */
  function ShareMessage(customMessage: string, code: string, hashtags: string): string
  {
    customMessage + CodeCaption + code + "\n\n" + hashtags
  }

  /** `s` occurs in `whole` where `whole` is `before + s + after`. */
  lemma ContainsMiddle(before: string, s: string, after: string)
    ensures Contains(before + s + after, s)
  {
    var whole := before + s + after;
    assert whole[|before|..|before| + |s|] == s;
    assert OccursAt(whole, s, |before|);
    ContainsIffOccurrence(whole, s);
  }

  /** The share message begins with the custom message, always carries the
      referral code right after its caption, and ends with the hashtags. */
  lemma ShareMessageCarriesCode(customMessage: string, code: string, hashtags: string)
    ensures StartsWith(ShareMessage(customMessage, code, hashtags), customMessage)
    ensures Contains(ShareMessage(customMessage, code, hashtags), CodeCaption + code)
    ensures Contains(ShareMessage(customMessage, code, hashtags), code)
    ensures Contains(ShareMessage(customMessage, code, hashtags), hashtags)
  {
    var m := ShareMessage(customMessage, code, hashtags);
    StartsWithIff(m, customMessage);
    assert m[..|customMessage|] == customMessage;
    assert m == customMessage + (CodeCaption + code) + ("\n\n" + hashtags);
    ContainsMiddle(customMessage, CodeCaption + code, "\n\n" + hashtags);
    assert m == (customMessage + CodeCaption) + code + ("\n\n" + hashtags);
    ContainsMiddle(customMessage + CodeCaption, code, "\n\n" + hashtags);
    assert m == (customMessage + CodeCaption + code + "\n\n") + hashtags + "";
    ContainsMiddle(customMessage + CodeCaption + code + "\n\n", hashtags, "");
  }

  const ShareTitle := "PlatinumRx Unboxing Video"

  /** The block copied to the clipboard by the last tier. An absent video URL
      is rendered as the text "undefined". */
  function FallbackText(message: string, videoUrl: Option<string>, code: string): string
  {
    "Title: " + ShareTitle + "\n\nMessage: " + message + "\n\nVideo: " + Interpolate(videoUrl) + CodeCaption + code
  }

  /** The clipboard block carries the whole share message, the referral
      code, and the video URL, which reads "undefined" when none was given. */
  lemma FallbackTextCarriesMessage(message: string, videoUrl: Option<string>, code: string)
    ensures Contains(FallbackText(message, videoUrl, code), message)
    ensures Contains(FallbackText(message, videoUrl, code), code)
    ensures Contains(FallbackText(message, videoUrl, code), "\n\nVideo: " + Interpolate(videoUrl) + "\n\n")
  {
    var head := "Title: " + ShareTitle + "\n\nMessage: ";
    var url := Interpolate(videoUrl);
    var t := FallbackText(message, videoUrl, code);
    assert t == head + message + ("\n\nVideo: " + url + CodeCaption + code);
    ContainsMiddle(head, message, "\n\nVideo: " + url + CodeCaption + code);
    assert t == (head + message + "\n\nVideo: " + url + CodeCaption) + code + "";
    ContainsMiddle(head + message + "\n\nVideo: " + url + CodeCaption, code, "");
    assert t == (head + message) + ("\n\nVideo: " + url + "\n\n") + ("Referral Code: " + code);
    ContainsMiddle(head + message, "\n\nVideo: " + url + "\n\n", "Referral Code: " + code);
  }

  // ---------------------------------------------------------------------------
  // Events and the environment

  datatype ToastKind = Success | Error | Info

  datatype ShareEvent =
    | Toast(kind: ToastKind, message: string)
    | ClipboardWrite(text: string)
    | DownloadClick(fileName: string)
    | NativeShare(title: string, text: string, file: MediaFile)

  const NoVideoMessage := "No video available to share"
  const SharedMessage := "Video shared successfully!"
  const DownloadedForSharingMessage := "Video downloaded! You can now share it manually."
  const TipMessage := "Tip: Open any app (WhatsApp, Instagram, etc.) → Upload the downloaded video"
  const CopiedDetailsMessage := "Share details copied to clipboard! You can paste this anywhere."
  const SharingFailedMessage := "Sharing failed. Please try again."
  const DownloadedMessage := "Video downloaded to your device!"
  const NotDownloadableMessage := "Video not available for download"
  const UrlCopiedMessage := "Video URL copied to clipboard!"
  const NoUrlMessage := "Video URL not available"
  const CodeCopiedMessage := "Referral code copied to clipboard!"

  /** How `navigator.share` settles: fulfilled, or rejected with an `Error`
      of the given name, or rejected with something that is not an `Error`. */
  datatype NativeOutcome = Fulfilled | RejectedWithError(name: string) | RejectedWithNonError

  datatype Environment = Environment(
    hasShare: bool,            // navigator.share exists
    hasCanShare: bool,         // navigator.canShare exists
    canShareFiles: bool,       // navigator.canShare({ files }) answers true
    native: NativeOutcome,
    downloadThrows: bool,      // building or clicking the download link throws
    hasClipboard: bool)        // navigator.clipboard exists

  predicate NativeAvailable(env: Environment)
  {
    env.hasShare && env.hasCanShare && env.canShareFiles
  }

  /** A rejection the dispatcher stays silent about: a user cancellation
      (`AbortError`) or a rejection value that is not an `Error`. */
  predicate Silenced(outcome: NativeOutcome)
  {
    outcome.RejectedWithNonError? || (outcome.RejectedWithError? && outcome.name == "AbortError")
  }

  /** The events a tier produced and whether it ended by throwing. */
  datatype Outcome = Outcome(events: seq<ShareEvent>, throws: bool)

  /** What the screen shows and was given. */
  datatype Context = Context(videoFile: Option<MediaFile>, videoUrl: Option<string>, message: string, code: string)

  // ---------------------------------------------------------------------------
  // The tiers

  /** `handleFallbackShare`: without a clipboard the write throws. */
  function FallbackShare(env: Environment, ctx: Context): Outcome
  {
    if !env.hasClipboard then Outcome([], true)
    else Outcome([ClipboardWrite(FallbackText(ctx.message, ctx.videoUrl, ctx.code)),
                  Toast(Success, CopiedDetailsMessage)], false)
  }

  /** `handleAlternativeSharing`: download the file, or copy the text block
      when there is no file or the download throws. */
  function AlternativeSharing(env: Environment, ctx: Context): Outcome
  {
    match ctx.videoFile
    case None => FallbackShare(env, ctx)
    case Some(file) =>
      if env.downloadThrows then FallbackShare(env, ctx)
      else Outcome([DownloadClick("platinumrx-" + file.name),
                    Toast(Success, DownloadedForSharingMessage), Toast(Info, TipMessage)], false)
  }

  /** `handleUniversalShare` for a present file: the native sheet when the
      browser offers it for files, the alternative tiers otherwise or after
      a genuine failure, and silence after a silenced rejection. */
  function UniversalShare(env: Environment, ctx: Context, file: MediaFile): Outcome
  {
    if NativeAvailable(env) then
      var attempt := NativeShare(ShareTitle, ctx.message, file);
      match env.native
      case Fulfilled => Outcome([attempt, Toast(Success, SharedMessage)], false)
      case RejectedWithNonError => Outcome([attempt], false)
      case RejectedWithError(name) =>
        if name != "AbortError" then
          var alt := AlternativeSharing(env, ctx);
          Outcome([attempt] + alt.events, alt.throws)
        else Outcome([attempt], false)
    else AlternativeSharing(env, ctx)
  }

  /** `handleShare`: refuse without a file; otherwise dispatch, and turn an
      exception escaping the tiers into one error toast. */
  function ShareEvents(env: Environment, ctx: Context): seq<ShareEvent>
  {
    match ctx.videoFile
    case None => [Toast(Error, NoVideoMessage)]
    case Some(file) =>
      var r := UniversalShare(env, ctx, file);
      r.events + (if r.throws then [Toast(Error, SharingFailedMessage)] else [])
  }

  // ---------------------------------------------------------------------------
  // Properties of the dispatcher

  /** The number of success and error toasts: the user-visible verdicts. */
  function Verdicts(events: seq<ShareEvent>): (n: nat)
    ensures n <= |events|
  {
    if events == [] then 0
    else Verdicts(events[..|events| - 1]) +
         (if events[|events| - 1].Toast? && events[|events| - 1].kind != Info then 1 else 0)
  }

  lemma {:induction false} VerdictsAppend(a: seq<ShareEvent>, b: seq<ShareEvent>)
    ensures Verdicts(a + b) == Verdicts(a) + Verdicts(b)
    decreases |b|
  {
    if b == [] {
      assert a + b == a;
    } else {
      assert (a + b)[..|a + b| - 1] == a + b[..|b| - 1];
      VerdictsAppend(a, b[..|b| - 1]);
    }
  }

  /** The native sheet is opened iff there is a file and the browser has
      `share`, has `canShare` and accepts the file. */
  lemma NativeAttemptedIff(env: Environment, ctx: Context)
    ensures (exists e :: e in ShareEvents(env, ctx) && e.NativeShare?) <==> ctx.videoFile.Some? && NativeAvailable(env)
    ensures ctx.videoFile.Some? && NativeAvailable(env) ==>
              ShareEvents(env, ctx)[0] == NativeShare(ShareTitle, ctx.message, ctx.videoFile.value)
  {
    if ctx.videoFile.Some? && NativeAvailable(env) {
      assert ShareEvents(env, ctx)[0].NativeShare?;
    }
  }

  /** Without a file: one error toast and nothing else. */
  lemma NoVideoRefused(env: Environment, ctx: Context)
    requires ctx.videoFile.None?
    ensures ShareEvents(env, ctx) == [Toast(Error, NoVideoMessage)]
  {
  }

  /** A cancelled share, or a rejection that is not an `Error`, ends the
      dispatch silently: the share call is the only event, no other tier
      runs and no toast appears. */
  lemma SilencedRejectionEndsDispatch(env: Environment, ctx: Context)
    requires ctx.videoFile.Some? && NativeAvailable(env) && Silenced(env.native)
    ensures ShareEvents(env, ctx) == [NativeShare(ShareTitle, ctx.message, ctx.videoFile.value)]
    ensures Verdicts(ShareEvents(env, ctx)) == 0
  {
    assert Verdicts([NativeShare(ShareTitle, ctx.message, ctx.videoFile.value)][..0]) == 0;
  }

  /** The dispatch leaves the native sheet for the download tier: the sheet
      is not offered for files, or it failed with an error other than a
      cancellation. */
  predicate FallsBack(env: Environment)
  {
    !NativeAvailable(env) || (env.native.RejectedWithError? && env.native.name != "AbortError")
  }

  /** The whole event sequence of a dispatch with a file, case by case: the
      share call (when the sheet is offered) followed by what the tier that
      settles it shows. */
  lemma ShareOutcomes(env: Environment, ctx: Context)
    requires ctx.videoFile.Some?
    ensures var file := ctx.videoFile.value;
            var attempt := NativeShare(ShareTitle, ctx.message, file);
            var pre: seq<ShareEvent> := if NativeAvailable(env) then [attempt] else [];
            var evs := ShareEvents(env, ctx);
            (NativeAvailable(env) && env.native.Fulfilled? ==>
               evs == [attempt, Toast(Success, SharedMessage)]) &&
            (FallsBack(env) && !env.downloadThrows ==>
               evs == pre + [DownloadClick("platinumrx-" + file.name),
                             Toast(Success, DownloadedForSharingMessage), Toast(Info, TipMessage)]) &&
            (FallsBack(env) && env.downloadThrows && env.hasClipboard ==>
               evs == pre + [ClipboardWrite(FallbackText(ctx.message, ctx.videoUrl, ctx.code)),
                             Toast(Success, CopiedDetailsMessage)]) &&
            (FallsBack(env) && env.downloadThrows && !env.hasClipboard ==>
               evs == pre + [Toast(Error, SharingFailedMessage)])
  {
  }

  /** No tier shows an error toast itself: a tier fails only by throwing,
      and a tier that does not throw has shown a success toast. */
  lemma TiersReportSuccessOnly(env: Environment, ctx: Context, file: MediaFile)
    ensures forall e :: e in FallbackShare(env, ctx).events ==> !(e.Toast? && e.kind == Error)
    ensures forall e :: e in AlternativeSharing(env, ctx).events ==> !(e.Toast? && e.kind == Error)
    ensures forall e :: e in UniversalShare(env, ctx, file).events ==> !(e.Toast? && e.kind == Error)
    ensures FallbackShare(env, ctx).throws <==> !env.hasClipboard
    ensures !FallbackShare(env, ctx).throws ==> Toast(Success, CopiedDetailsMessage) in FallbackShare(env, ctx).events
    ensures AlternativeSharing(env, ctx).throws <==> FallbackShare(env, ctx).throws &&
                                                     (ctx.videoFile.None? || env.downloadThrows)
    ensures ctx.videoFile.Some? && !env.downloadThrows ==>
              Toast(Success, DownloadedForSharingMessage) in AlternativeSharing(env, ctx).events &&
              Toast(Info, TipMessage) in AlternativeSharing(env, ctx).events
    ensures NativeAvailable(env) && env.native.Fulfilled? ==>
              !UniversalShare(env, ctx, file).throws &&
              Toast(Success, SharedMessage) in UniversalShare(env, ctx, file).events
  {
  }

  /** Apart from a silenced rejection, every dispatch ends with exactly one
      success or error toast, and it is an error exactly when there is no
      file or every tier failed. */
  lemma {:induction false} ExactlyOneVerdict(env: Environment, ctx: Context)
    requires !(ctx.videoFile.Some? && NativeAvailable(env) && Silenced(env.native))
    ensures Verdicts(ShareEvents(env, ctx)) == 1
    ensures (exists e :: e in ShareEvents(env, ctx) && e.Toast? && e.kind == Error) <==>
              ctx.videoFile.None? || (FallsBack(env) && env.downloadThrows && !env.hasClipboard)
    ensures (exists e :: e in ShareEvents(env, ctx) && e.Toast? && e.kind == Success) <==>
              !(ctx.videoFile.None? || (FallsBack(env) && env.downloadThrows && !env.hasClipboard))
  {
    if ctx.videoFile.Some? {
      ShareOutcomes(env, ctx);
      var file := ctx.videoFile.value;
      var attempt := NativeShare(ShareTitle, ctx.message, file);
      var evs := ShareEvents(env, ctx);
      if NativeAvailable(env) && env.native.Fulfilled? {
        assert evs[1] == Toast(Success, SharedMessage);
      } else if !env.downloadThrows {
        assert evs[|evs| - 2] == Toast(Success, DownloadedForSharingMessage);
      } else if env.hasClipboard {
        assert evs[|evs| - 1] == Toast(Success, CopiedDetailsMessage);
      } else {
        assert evs[|evs| - 1] == Toast(Error, SharingFailedMessage);
      }
    } else {
      assert ShareEvents(env, ctx)[0] == Toast(Error, NoVideoMessage);
    }
    VerdictCount(env, ctx);
  }

  lemma {:induction false} VerdictCount(env: Environment, ctx: Context)
    requires !(ctx.videoFile.Some? && NativeAvailable(env) && Silenced(env.native))
    ensures Verdicts(ShareEvents(env, ctx)) == 1
  {
    var file := ctx.videoFile;
    if file.Some? {
      var alt := AlternativeSharing(env, ctx);
      var fb := FallbackShare(env, ctx);
      assert Verdicts(fb.events) == (if fb.throws then 0 else 1) by {
        if !fb.throws {
          assert fb.events[..1] == [fb.events[0]];
          assert [fb.events[0]][..0] == [];
        }
      }
      assert Verdicts(alt.events) == (if alt.throws then 0 else 1) by {
        if !env.downloadThrows {
          var evs := alt.events;
          assert evs[..|evs| - 1] == evs[..2];
          assert evs[..2][..1] == [evs[0]];
          assert [evs[0]][..0] == [];
          assert Verdicts(evs[..2]) == 1;
        }
      }
      var r := UniversalShare(env, ctx, file.value);
      assert Verdicts(r.events) == (if r.throws then 0 else 1) by {
        var attempt := NativeShare(ShareTitle, ctx.message, file.value);
        assert Verdicts([attempt]) == 0 by {
          assert [attempt][..0] == [];
        }
        if NativeAvailable(env) {
          if env.native.Fulfilled? {
            assert [attempt, Toast(Success, SharedMessage)][..1] == [attempt];
          } else {
            VerdictsAppend([attempt], alt.events);
          }
        }
      }
      var tail: seq<ShareEvent> := if r.throws then [Toast(Error, SharingFailedMessage)] else [];
      VerdictsAppend(r.events, tail);
      assert Verdicts(tail) == (if r.throws then 1 else 0) by {
        if r.throws {
          assert tail[..0] == [];
        }
      }
    } else {
      assert [Toast(Error, NoVideoMessage)][..0] == [];
    }
  }

  /** The tiers run in order: the download runs iff the native sheet is not
      offered or failed for real; the clipboard copy runs iff the download
      tier was reached and threw; and "Sharing failed" appears iff that copy
      found no clipboard. */
  lemma TierOrder(env: Environment, ctx: Context)
    requires ctx.videoFile.Some?
    ensures var fellBack := FallsBack(env);
            var file := ctx.videoFile.value;
            (DownloadClick("platinumrx-" + file.name) in ShareEvents(env, ctx) <==> fellBack && !env.downloadThrows) &&
            (ClipboardWrite(FallbackText(ctx.message, ctx.videoUrl, ctx.code)) in ShareEvents(env, ctx) <==>
               fellBack && env.downloadThrows && env.hasClipboard) &&
            (Toast(Error, SharingFailedMessage) in ShareEvents(env, ctx) <==>
               fellBack && env.downloadThrows && !env.hasClipboard)
  {
  }

  // ---------------------------------------------------------------------------
  // The buttons next to the video

  function DownloadEvents(ctx: Context): seq<ShareEvent>
  {
    if ctx.videoFile.Some? && Truthy(ctx.videoUrl) then
      [DownloadClick("platinumrx-" + ctx.videoFile.value.name), Toast(Success, DownloadedMessage)]
    else [Toast(Error, NotDownloadableMessage)]
  }

  /** Without a clipboard the write throws and nothing is shown. */
  function CopyVideoUrlEvents(env: Environment, ctx: Context): seq<ShareEvent>
  {
    if Truthy(ctx.videoUrl) then
      if env.hasClipboard then [ClipboardWrite(ctx.videoUrl.value), Toast(Success, UrlCopiedMessage)] else []
    else [Toast(Error, NoUrlMessage)]
  }

  function CopyReferralCodeEvents(env: Environment, ctx: Context): seq<ShareEvent>
  {
    if env.hasClipboard then [ClipboardWrite(ctx.code), Toast(Success, CodeCopiedMessage)] else []
  }

  /** Downloading needs both the file and a non-empty URL, copying the URL
      needs the URL; otherwise each shows its one error toast and does
      nothing else. In the wired flow no URL is ever passed, so both buttons
      always report an error. */
  lemma ButtonsNeedUrl(env: Environment, ctx: Context)
    ensures DownloadEvents(ctx) == [Toast(Error, NotDownloadableMessage)] <==> !(ctx.videoFile.Some? && Truthy(ctx.videoUrl))
    ensures CopyVideoUrlEvents(env, ctx) == [Toast(Error, NoUrlMessage)] <==> !Truthy(ctx.videoUrl)
    ensures ctx.videoUrl.None? ==>
              DownloadEvents(ctx) == [Toast(Error, NotDownloadableMessage)] &&
              CopyVideoUrlEvents(env, ctx) == [Toast(Error, NoUrlMessage)]
  {
  }

  // ---------------------------------------------------------------------------
  // The component

  class ShareScreen {
    const referralCode: string
    const videoFile: Option<MediaFile>
    const videoUrl: Option<string>
    var isSharing: bool
    var customMessage: string
    var hashtags: string
    var events: seq<ShareEvent>

    function Ctx(): Context
      reads this
    {
      Context(videoFile, videoUrl, ShareMessage(customMessage, referralCode, hashtags), referralCode)
    }

    /** The code is drawn once, when the screen appears, and never changes. */
    constructor (videoFile: Option<MediaFile>, videoUrl: Option<string>, randomText: string)
      ensures referralCode == ReferralCode(randomText)
      ensures this.videoFile == videoFile && this.videoUrl == videoUrl
      ensures !isSharing && customMessage == InitialCustomMessage && hashtags == InitialHashtags
      ensures events == []
    {
      referralCode := ReferralCode(randomText);
      this.videoFile := videoFile;
      this.videoUrl := videoUrl;
      isSharing := false;
      customMessage := InitialCustomMessage;
      hashtags := InitialHashtags;
      events := [];
    }

    method SetCustomMessage(text: string)
      modifies this
      ensures customMessage == text
      ensures hashtags == old(hashtags) && isSharing == old(isSharing) && events == old(events)
    {
      customMessage := text;
    }

    method SetHashtags(text: string)
      modifies this
      ensures hashtags == text
      ensures customMessage == old(customMessage) && isSharing == old(isSharing) && events == old(events)
    {
      hashtags := text;
    }

    method HandleCopyReferralCode(env: Environment)
      modifies this
      ensures events == old(events) + CopyReferralCodeEvents(env, Ctx())
      ensures isSharing == old(isSharing) && customMessage == old(customMessage) && hashtags == old(hashtags)
    {
      if env.hasClipboard {
        events := events + [ClipboardWrite(referralCode), Toast(Success, CodeCopiedMessage)];
      }
    }

    method HandleCopyVideoUrl(env: Environment)
      modifies this
      ensures events == old(events) + CopyVideoUrlEvents(env, Ctx())
      ensures isSharing == old(isSharing) && customMessage == old(customMessage) && hashtags == old(hashtags)
    {
      if Truthy(videoUrl) {
        if env.hasClipboard {
          events := events + [ClipboardWrite(videoUrl.value), Toast(Success, UrlCopiedMessage)];
        }
      } else {
        events := events + [Toast(Error, NoUrlMessage)];
      }
    }

    method HandleDownload()
      modifies this
      ensures events == old(events) + DownloadEvents(Ctx())
      ensures isSharing == old(isSharing) && customMessage == old(customMessage) && hashtags == old(hashtags)
    {
      if videoFile.Some? && Truthy(videoUrl) {
        events := events + [DownloadClick("platinumrx-" + videoFile.value.name), Toast(Success, DownloadedMessage)];
      } else {
        events := events + [Toast(Error, NotDownloadableMessage)];
      }
    }

    /** Without a file the flag is left alone; with one it is raised for the
        whole dispatch and lowered afterwards, however the dispatch ends. */
    method HandleShare(env: Environment)
      modifies this
      ensures events == old(events) + ShareEvents(env, old(Ctx()))
      ensures isSharing == (if videoFile.None? then old(isSharing) else false)
      ensures customMessage == old(customMessage) && hashtags == old(hashtags)
    {
      if videoFile.None? {
        events := events + [Toast(Error, NoVideoMessage)];
        return;
      }
      isSharing := true;
      var throws := UniversalShareTier(env, videoFile.value);
      if throws {
        events := events + [Toast(Error, SharingFailedMessage)];
      }
      isSharing := false;
    }

    method UniversalShareTier(env: Environment, file: MediaFile) returns (throws: bool)
      requires isSharing
      modifies this
      ensures events == old(events) + UniversalShare(env, old(Ctx()), file).events
      ensures throws == UniversalShare(env, old(Ctx()), file).throws
      ensures isSharing && customMessage == old(customMessage) && hashtags == old(hashtags)
    {
      if NativeAvailable(env) {
        events := events + [NativeShare(ShareTitle, Ctx().message, file)];
        match env.native {
          case Fulfilled =>
            events := events + [Toast(Success, SharedMessage)];
            throws := false;
          case RejectedWithNonError =>
            throws := false;
          case RejectedWithError(name) =>
            if name != "AbortError" {
              throws := AlternativeSharingTier(env);
            } else {
              throws := false;
            }
        }
      } else {
        throws := AlternativeSharingTier(env);
      }
    }

    method AlternativeSharingTier(env: Environment) returns (throws: bool)
      modifies this
      ensures events == old(events) + AlternativeSharing(env, old(Ctx())).events
      ensures throws == AlternativeSharing(env, old(Ctx())).throws
      ensures isSharing == old(isSharing) && customMessage == old(customMessage) && hashtags == old(hashtags)
    {
      if videoFile.Some? && !env.downloadThrows {
        events := events + [DownloadClick("platinumrx-" + videoFile.value.name),
                            Toast(Success, DownloadedForSharingMessage), Toast(Info, TipMessage)];
        throws := false;
      } else {
        throws := FallbackShareTier(env);
      }
    }

    method FallbackShareTier(env: Environment) returns (throws: bool)
      modifies this
      ensures events == old(events) + FallbackShare(env, old(Ctx())).events
      ensures throws == FallbackShare(env, old(Ctx())).throws
      ensures isSharing == old(isSharing) && customMessage == old(customMessage) && hashtags == old(hashtags)
    {
      if !env.hasClipboard {
        throws := true;
        return;
      }
      var text := FallbackText(Ctx().message, videoUrl, referralCode);
      events := events + [ClipboardWrite(text), Toast(Success, CopiedDetailsMessage)];
      throws := false;
    }
  }
}
