/** The landing page's screen machine (welcome, upload, template, processing,
    complete), the simulated processing timer, and the step bar shown above
    every screen but the welcome screen. */
module StepController {
  import opened Media

  datatype Step = Welcome | Upload | Template | Processing | Complete

  /** The string each step has in the page's `Step` union type. */
  function StepKey(s: Step): string
  {
    match s
    case Welcome => "welcome"
    case Upload => "upload"
    case Template => "template"
    case Processing => "processing"
    case Complete => "complete"
  }

  const StepKeys: seq<string> := ["welcome", "upload", "template", "processing", "complete"]

  /** What the main area of the page shows, with the data handed to that screen. */
  datatype Screen =
    | WelcomeScreen
    | UploadScreen
    | TemplateScreen
    | ProcessingScreen(progress: int, template: string)
    | ShareScreen(earnings: int, video: Option<MediaFile>)

  /** The screen chosen for a step key; a key that is none of the five falls
      back to the welcome screen. */
  function RenderStepContent(key: string, progress: int, template: string,
                             earnings: int, video: Option<MediaFile>): Screen
  {
    if key == "welcome" then WelcomeScreen
    else if key == "upload" then UploadScreen
    else if key == "template" then TemplateScreen
    else if key == "processing" then ProcessingScreen(progress, template)
    else if key == "complete" then ShareScreen(earnings, video)
    else WelcomeScreen
  }

  // ---------------------------------------------------------------------------
  // The session state as a value, and one function per state change

  /** The page's state: the current step, the uploaded file, the chosen
      template id, the simulated progress, the earnings, and whether the
      processing interval is still registered. */
  datatype SessionView = SessionView(step: Step, video: Option<MediaFile>, template: string,
                                     progress: int, earnings: int, timerActive: bool)

  const ProgressIncrement: int := 10
  const ProgressCap: int := 100
  const CompletionReward: int := 100

  const InitialSession: SessionView := SessionView(Welcome, None, "", 0, 0, false)

  function AfterGetStarted(s: SessionView): SessionView
  {
    s.(step := Upload)
  }

  function AfterUpload(s: SessionView, file: MediaFile): SessionView
  {
    s.(step := Template, video := Some(file))
  }

  /** Selecting a template stores it, moves to processing and starts the
      interval; progress is left as it is. */
  function AfterTemplateSelect(s: SessionView, template: string): SessionView
  {
    s.(step := Processing, template := template, timerActive := true)
  }

  /** One firing of the processing interval. A cleared interval never fires. */
  function AfterTick(s: SessionView): SessionView
  {
    if !s.timerActive then s
    else if s.progress >= ProgressCap then
      s.(progress := ProgressCap, step := Complete, earnings := CompletionReward, timerActive := false)
    else s.(progress := s.progress + ProgressIncrement)
  }

  function AfterTicks(s: SessionView, k: nat): SessionView
    decreases k
  {
    if k == 0 then s else AfterTicks(AfterTick(s), k - 1)
  }

  function Min(a: int, b: int): int { if a <= b then a else b }

  // ---------------------------------------------------------------------------
  // Properties of the timer

  /** From a progress that is a multiple of ten in [0, 100], ticks never lower
      progress, never take it past 100, and keep it a multiple of ten. */
  lemma {:induction false} TicksMonotoneBounded(s: SessionView, k: nat)
    requires 0 <= s.progress <= ProgressCap && s.progress % ProgressIncrement == 0
    ensures s.progress <= AfterTicks(s, k).progress <= ProgressCap
    ensures AfterTicks(s, k).progress % ProgressIncrement == 0
    decreases k
  {
    if k > 0 {
      TicksMonotoneBounded(AfterTick(s), k - 1);
    }
  }

  /** An interval that was cleared leaves the session untouched for ever. */
  lemma {:induction false} InactiveTimerIsFixed(s: SessionView, k: nat)
    requires !s.timerActive
    ensures AfterTicks(s, k) == s
    decreases k
  {
    if k > 0 {
      InactiveTimerIsFixed(AfterTick(s), k - 1);
    }
  }

  /** The state after k ticks from progress 10*j with the interval running:
      the counter climbs by ten per tick up to 100, and the tick that finds
      100 completes the session, after which nothing changes. */
  lemma {:induction false} TicksFrom(s: SessionView, j: nat, k: nat)
    requires s.timerActive && j <= 10 && s.progress == ProgressIncrement * j
    ensures j + k <= 10 ==> AfterTicks(s, k) == s.(progress := ProgressIncrement * (j + k))
    ensures j + k > 10 ==>
              AfterTicks(s, k) ==
              s.(progress := ProgressCap, step := Complete, earnings := CompletionReward, timerActive := false)
    decreases k
  {
    if k > 0 {
      if j < 10 {
        TicksFrom(AfterTick(s), j + 1, k - 1);
      } else {
        InactiveTimerIsFixed(AfterTick(s), k - 1);
      }
    }
  }

  /** Starting from 0, progress after k ticks is min(10k, 100); the session is
      complete after k ticks exactly when k >= 11, and the 11th tick is the
      only one that completes it. */
  lemma RunFromZero(s: SessionView, k: nat)
    requires s.timerActive && s.progress == 0 && s.step != Complete
    ensures AfterTicks(s, k).progress == Min(ProgressIncrement * k, ProgressCap)
    ensures AfterTicks(s, k).step == Complete <==> k >= 11
    ensures (AfterTicks(s, k).step != Complete && AfterTick(AfterTicks(s, k)).step == Complete) <==> k == 10
  {
    TicksFrom(s, 0, k);
    TicksFrom(s, 0, k + 1);
    assert AfterTick(AfterTicks(s, k)) == AfterTicks(s, k + 1) by {
      AfterTicksSplit(s, k);
    }
  }

  lemma {:induction false} AfterTicksSplit(s: SessionView, k: nat)
    ensures AfterTicks(s, k + 1) == AfterTick(AfterTicks(s, k))
    decreases k
  {
    if k > 0 {
      AfterTicksSplit(AfterTick(s), k - 1);
    }
  }

  /** Earnings are assigned, not added: the completing tick yields the reward
      whatever the earnings were, and no later tick changes them. */
  lemma CompletionAssignsReward(s: SessionView, k: nat)
    requires s.timerActive && s.progress >= ProgressCap
    ensures AfterTick(s).earnings == CompletionReward && AfterTick(s).step == Complete
    ensures AfterTicks(AfterTick(s), k) == AfterTick(s)
  {
    InactiveTimerIsFixed(AfterTick(s), k);
  }

  /** The forward path through all five screens: get started, upload, pick a
      template, then eleven ticks reach the share screen with the reward;
      ten ticks are not enough. */
  lemma HappyPath(file: MediaFile, template: string)
    ensures var p := AfterTemplateSelect(AfterUpload(AfterGetStarted(InitialSession), file), template);
      && AfterTicks(p, 10).step == Processing
      && AfterTicks(p, 11) == SessionView(Complete, Some(file), template, 100, 100, false)
  {
    var p := AfterTemplateSelect(AfterUpload(AfterGetStarted(InitialSession), file), template);
    TicksFrom(p, 0, 10);
    TicksFrom(p, 0, 11);
  }

  // ---------------------------------------------------------------------------
  // The rendered screen

  /** Every step renders its own screen, and any other key renders the
      welcome screen. */
  lemma RenderByKey(key: string, progress: int, template: string, earnings: int, video: Option<MediaFile>)
    ensures forall s: Step ::
              RenderStepContent(StepKey(s), progress, template, earnings, video) ==
              (match s
               case Welcome => WelcomeScreen
               case Upload => UploadScreen
               case Template => TemplateScreen
               case Processing => ProcessingScreen(progress, template)
               case Complete => ShareScreen(earnings, video))
    ensures key !in StepKeys ==> RenderStepContent(key, progress, template, earnings, video) == WelcomeScreen
  {
  }

  // ---------------------------------------------------------------------------
  // The step bar

  /** The step bar's keys in display order; the welcome step is not among them. */
  const StepBarKeys: seq<string> := ["upload", "template", "processing", "complete"]

  /** `findIndex` for string equality: the first position holding `key`, or -1. */
  function FindIndex(keys: seq<string>, key: string): (r: int)
    ensures -1 <= r < |keys|
    ensures r == -1 <==> key !in keys
    ensures r >= 0 ==> keys[r] == key && key !in keys[..r]
    decreases |keys|
  {
    if keys == [] then -1
    else if keys[0] == key then 0
    else
      var i := FindIndex(keys[1..], key);
      assert keys[1..] == keys[1..][..|keys| - 1];
      if i == -1 then -1
      else
        assert keys[..i + 1] == [keys[0]] + keys[1..][..i];
        i + 1
  }

  function StepBarIndex(step: Step): int
  {
    FindIndex(StepBarKeys, StepKey(step))
  }

  /** The bar's fill: ((index + 1) / 4) * 100, exact here because 100 is a
      multiple of the four labels. */
  function StepBarPercent(step: Step): int
  {
    (StepBarIndex(step) + 1) * 100 / |StepBarKeys|
  }

  /** Label i of the bar is highlighted when it is at or before the current step. */
  predicate StepBarHighlighted(i: nat, step: Step)
  {
    i <= StepBarIndex(step)
  }

  function Position(step: Step): nat
  {
    match step
    case Welcome => 0
    case Upload => 1
    case Template => 2
    case Processing => 3
    case Complete => 4
  }

  /** The bar reads 25, 50, 75 and 100 for the four non-welcome steps; in
      general its fill is 25 points per highlighted label, and exactly the
      labels up to the current one are highlighted. */
  lemma StepBarValues(step: Step)
    ensures StepBarIndex(step) == Position(step) - 1
    ensures StepBarPercent(step) == 25 * Position(step)
    ensures forall i: nat :: i < |StepBarKeys| ==> (StepBarHighlighted(i, step) <==> i < Position(step))
  {
    assert StepBarKeys[0] == "upload";
    assert StepBarKeys[1] == "template";
    assert StepBarKeys[2] == "processing";
    assert StepBarKeys[3] == "complete";
    match step
    case Welcome =>
      assert "welcome" !in StepBarKeys;
    case Upload =>
    case Template =>
    case Processing =>
    case Complete =>
  }

  /** A later step never shows less of the bar. */
  lemma StepBarMonotone(a: Step, b: Step)
    requires Position(a) <= Position(b)
    ensures StepBarPercent(a) <= StepBarPercent(b)
  {
    StepBarValues(a);
    StepBarValues(b);
  }

  // ---------------------------------------------------------------------------
  // The page component

  class Session {
    var currentStep: Step
    var uploadedVideo: Option<MediaFile>
    var selectedTemplate: string
    var processingProgress: int
    var earnings: int
    var timerActive: bool

    function View(): SessionView
      reads this
    {
      SessionView(currentStep, uploadedVideo, selectedTemplate, processingProgress, earnings, timerActive)
    }

    constructor ()
      ensures View() == InitialSession
    {
      currentStep := Welcome;
      uploadedVideo := None;
      selectedTemplate := "";
      processingProgress := 0;
      earnings := 0;
      timerActive := false;
    }

    /** What the main area shows now. */
    function CurrentScreen(): Screen
      reads this
    {
      RenderStepContent(StepKey(currentStep), processingProgress, selectedTemplate, earnings, uploadedVideo)
    }

    /** The welcome screen's start button. */
    method GetStarted()
      modifies this
      ensures View() == AfterGetStarted(old(View()))
      ensures currentStep == Upload
    {
      currentStep := Upload;
    }

    /** The upload screen hands over a file: it is stored and the page moves
        to template selection, whatever step it was on. */
    method HandleVideoUpload(file: MediaFile)
      modifies this
      ensures View() == AfterUpload(old(View()), file)
      ensures currentStep == Template && uploadedVideo == Some(file)
      ensures processingProgress == old(processingProgress) && earnings == old(earnings)
    {
      uploadedVideo := Some(file);
      currentStep := Template;
    }

    /** A template is chosen: it is stored, the page moves to processing and
        the interval starts; progress is not reset. */
    method HandleTemplateSelect(template: string)
      modifies this
      ensures View() == AfterTemplateSelect(old(View()), template)
      ensures currentStep == Processing && selectedTemplate == template && timerActive
      ensures processingProgress == old(processingProgress)
    {
      selectedTemplate := template;
      currentStep := Processing;
      timerActive := true;
    }

    /** One firing of the interval callback. */
    method Tick()
      modifies this
      ensures View() == AfterTick(old(View()))
      ensures old(timerActive) && old(processingProgress) >= ProgressCap ==>
        processingProgress == ProgressCap && currentStep == Complete && earnings == CompletionReward && !timerActive
      ensures old(timerActive) && old(processingProgress) < ProgressCap ==>
        processingProgress == old(processingProgress) + ProgressIncrement && currentStep == old(currentStep)
      ensures !old(timerActive) ==> View() == old(View())
    {
      if timerActive {
        if processingProgress >= ProgressCap {
          timerActive := false;
          currentStep := Complete;
          earnings := CompletionReward;
          processingProgress := ProgressCap;
        } else {
          processingProgress := processingProgress + ProgressIncrement;
        }
      }
    }
  }
}
