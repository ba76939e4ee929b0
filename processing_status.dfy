/** The processing screen: the per-template list of cosmetic step labels, the
    rule that maps the simulated progress onto a current label and a completed
    prefix, the completed/current/pending classification of each label, and
    the icon chosen for a label. */
module ProcessingStatus {
  import opened Media

  // ---------------------------------------------------------------------------
  // Template catalogue

  datatype TemplateInfo = TemplateInfo(name: string, steps: seq<string>)

  predicate Distinct(labels: seq<string>)
  {
    forall i, j :: 0 <= i < j < |labels| ==> labels[i] != labels[j]
  }

  const NoEditSteps: seq<string> := ["File optimization", "Format conversion", "Quality check"]
  const BasicSteps: seq<string> :=
    ["File analysis", "Light correction", "Noise reduction", "Logo overlay", "Stabilization"]
  const ProSteps: seq<string> :=
    ["AI video analysis", "Caption generation", "Savings overlay creation",
     "Enhanced branding", "Audio enhancement", "Final rendering"]
  const FallbackSteps: seq<string> := ["Processing video"]

  /** The catalogue: three known template ids and a one-step fallback for any
      other id. Every list is non-empty, its labels are non-empty and no label
      appears twice. */
  function GetTemplateInfo(template: string): (info: TemplateInfo)
    ensures |info.steps| >= 1
    ensures Distinct(info.steps)
    ensures forall i :: 0 <= i < |info.steps| ==> info.steps[i] != ""
  {
    if template == "no-edit" then TemplateInfo("No Edits", NoEditSteps)
    else if template == "basic" then TemplateInfo("Basic Edits", BasicSteps)
    else if template == "pro" then TemplateInfo("Pro Edits", ProSteps)
    else TemplateInfo("Processing", FallbackSteps)
  }

  /** no-edit has three steps, basic five, pro six, and every other id the
      single step "Processing video". */
  lemma CatalogueSizes(template: string)
    ensures |GetTemplateInfo("no-edit").steps| == 3
    ensures |GetTemplateInfo("basic").steps| == 5
    ensures |GetTemplateInfo("pro").steps| == 6
    ensures template !in {"no-edit", "basic", "pro"} ==>
              GetTemplateInfo(template) == TemplateInfo("Processing", ["Processing video"])
  {
  }

  // ---------------------------------------------------------------------------
  // Progress to step index

  /** `floor(progress / 100 * n)`, computed on integers. */
  function StepIndex(progress: int, n: nat): int
  {
    (progress * n) / 100
  }

  /** The integer form is the exact floor of the rational expression. */
  lemma StepIndexIsFloor(progress: int, n: nat)
    ensures StepIndex(progress, n) == ((progress as real / 100.0) * n as real).Floor
  {
    var q, r := (progress * n) / 100, (progress * n) % 100;
    assert progress * n == 100 * q + r;
    assert (progress as real / 100.0) * n as real == (progress * n) as real / 100.0;
    assert (progress * n) as real / 100.0 == q as real + r as real / 100.0;
  }

  /** For a progress in [0, 100] the index lies in [0, n], and it is n exactly
      at 100, where no label sits at the index. */
  lemma StepIndexBounds(progress: int, n: nat)
    requires 0 <= progress <= 100 && n >= 1
    ensures 0 <= StepIndex(progress, n) <= n
    ensures StepIndex(progress, n) == n <==> progress == 100
  {
    assert 0 <= progress * n <= 100 * n;
    if progress < 100 {
      assert progress * n <= 100 * n - n;
      assert progress * n < 100 * n;
    }
  }

  // ---------------------------------------------------------------------------
  // The current step and the completed steps

  /** The screen's two pieces of state: the label being processed ("" before
      the first update) and the labels shown as done. */
  datatype TrackerView = TrackerView(currentStep: string, completedSteps: seq<string>)

  const InitialTracker: TrackerView := TrackerView("", [])

  /** One run of the progress effect: when a non-empty label sits at the
      step index and differs from the current one, it becomes current and
      exactly the labels before it become completed; otherwise nothing changes. */
  function Sync(v: TrackerView, progress: int, steps: seq<string>): TrackerView
  {
    var i := StepIndex(progress, |steps|);
    if 0 <= i < |steps| && steps[i] != "" && steps[i] != v.currentStep then
      TrackerView(steps[i], steps[..i])
    else v
  }

  /** The states the effect can produce for one label list: the initial one,
      or some label current with exactly its predecessors completed. */
  ghost predicate Consistent(v: TrackerView, steps: seq<string>)
  {
    || v == InitialTracker
    || exists i :: 0 <= i < |steps| && v == TrackerView(steps[i], steps[..i])
  }

  /** The effect applied on a progress in [0, 100) sets the label at the step
      index as current with its predecessors completed, whatever came before;
      at 100 it changes nothing. */
  lemma SyncResult(v: TrackerView, progress: int, steps: seq<string>)
    requires 0 <= progress <= 100 && |steps| >= 1 && Consistent(v, steps)
    requires Distinct(steps) && forall k :: 0 <= k < |steps| ==> steps[k] != ""
    ensures progress == 100 ==> Sync(v, progress, steps) == v
    ensures progress < 100 ==>
              var i := StepIndex(progress, |steps|);
              0 <= i < |steps| && Sync(v, progress, steps) == TrackerView(steps[i], steps[..i])
  {
    StepIndexBounds(progress, |steps|);
    var i := StepIndex(progress, |steps|);
    if progress < 100 && v != InitialTracker && steps[i] == v.currentStep {
      var j :| 0 <= j < |steps| && v == TrackerView(steps[j], steps[..j]);
      assert i == j;
    }
  }

  /** The effect keeps the state among the consistent ones. */
  lemma SyncPreservesConsistent(v: TrackerView, progress: int, steps: seq<string>)
    requires Consistent(v, steps)
    ensures Consistent(Sync(v, progress, steps), steps)
  {
    var i := StepIndex(progress, |steps|);
    if 0 <= i < |steps| && steps[i] != "" && steps[i] != v.currentStep {
      assert Sync(v, progress, steps) == TrackerView(steps[i], steps[..i]);
    }
  }

  /** Running the effect again with the same progress changes nothing. */
  lemma SyncIdempotent(v: TrackerView, progress: int, steps: seq<string>)
    ensures Sync(Sync(v, progress, steps), progress, steps) == Sync(v, progress, steps)
  {
  }

  /** The basic template at 40%: "Noise reduction" is current and the first
      two labels are completed. */
  lemma BasicAtForty(v: TrackerView)
    requires Consistent(v, BasicSteps)
    ensures Sync(v, 40, GetTemplateInfo("basic").steps) ==
            TrackerView("Noise reduction", ["File analysis", "Light correction"])
  {
    SyncResult(v, 40, BasicSteps);
    assert StepIndex(40, 5) == 2;
    assert BasicSteps[..2] == ["File analysis", "Light correction"];
  }

  // ---------------------------------------------------------------------------
  // Classification of each label

  datatype StepStatus = Completed | Current | Pending

  predicate IsCompleted(stepName: string, v: TrackerView) { stepName in v.completedSteps }
  predicate IsCurrent(stepName: string, v: TrackerView) { stepName == v.currentStep }
  predicate IsPending(stepName: string, v: TrackerView) { !IsCompleted(stepName, v) && !IsCurrent(stepName, v) }

  /** The status a row is drawn with: completed first, then current, else pending. */
  function StatusOf(stepName: string, v: TrackerView): StepStatus
  {
    if IsCompleted(stepName, v) then Completed
    else if IsCurrent(stepName, v) then Current
    else Pending
  }

  /** In every consistent state each listed label is exactly one of
      completed, current or pending, and its status follows its position:
      before the current label completed, at it current, after it pending. */
  lemma ExactlyOneStatus(v: TrackerView, steps: seq<string>)
    requires Consistent(v, steps) && Distinct(steps)
    requires forall k :: 0 <= k < |steps| ==> steps[k] != ""
    ensures forall k :: 0 <= k < |steps| ==>
              && !(IsCompleted(steps[k], v) && IsCurrent(steps[k], v))
              && (IsCompleted(steps[k], v) || IsCurrent(steps[k], v) || IsPending(steps[k], v))
    ensures v == InitialTracker ==> forall k :: 0 <= k < |steps| ==> StatusOf(steps[k], v) == Pending
    ensures v != InitialTracker ==>
              exists i :: 0 <= i < |steps| && v.currentStep == steps[i] &&
                forall k :: 0 <= k < |steps| ==>
                  StatusOf(steps[k], v) == (if k < i then Completed else if k == i then Current else Pending)
  {
    if v != InitialTracker {
      var i :| 0 <= i < |steps| && v == TrackerView(steps[i], steps[..i]);
      forall k | 0 <= k < |steps|
        ensures StatusOf(steps[k], v) == (if k < i then Completed else if k == i then Current else Pending)
      {
        if k < i {
          assert steps[..i][k] == steps[k];
        }
      }
      forall k | 0 <= k < |steps|
        ensures !(IsCompleted(steps[k], v) && IsCurrent(steps[k], v))
      {
        assert StatusOf(steps[k], v) == (if k < i then Completed else if k == i then Current else Pending);
        if k < i {
          assert steps[k] != steps[i];
        }
      }
    }
  }

  /** The last label of a list is never shown as completed. */
  lemma LastLabelNeverCompleted(v: TrackerView, steps: seq<string>)
    requires Consistent(v, steps) && Distinct(steps) && |steps| >= 1
    ensures steps[|steps| - 1] !in v.completedSteps
  {
    if v != InitialTracker {
      var i :| 0 <= i < |steps| && v == TrackerView(steps[i], steps[..i]);
    }
  }

  // ---------------------------------------------------------------------------
  // Icons

  datatype StepIcon = Cpu | TypeIcon | Palette | Volume2 | CheckCircle | Sparkles

  /** A rule: a label containing either keyword gets the icon. */
  datatype IconRule = IconRule(first: string, second: string, icon: StepIcon)

  const IconRules: seq<IconRule> := [
    IconRule("analysis", "File", Cpu),
    IconRule("Caption", "overlay", TypeIcon),
    IconRule("Light", "branding", Palette),
    IconRule("Audio", "Noise", Volume2),
    IconRule("rendering", "Quality", CheckCircle)
  ]

  predicate RuleMatches(rule: IconRule, stepName: string)
  {
    Contains(stepName, rule.first) || Contains(stepName, rule.second)
  }

  /** The icon of the first rule that matches, or the default when none does. */
  function FirstMatch(rules: seq<IconRule>, stepName: string, default: StepIcon): (icon: StepIcon)
    ensures (forall i :: 0 <= i < |rules| ==> !RuleMatches(rules[i], stepName)) ==> icon == default
    ensures forall i ::
              (0 <= i < |rules| && RuleMatches(rules[i], stepName) &&
               forall j :: 0 <= j < i ==> !RuleMatches(rules[j], stepName))
              ==> icon == rules[i].icon
    decreases |rules|
  {
    if rules == [] then default
    else if RuleMatches(rules[0], stepName) then rules[0].icon
    else
      var r := FirstMatch(rules[1..], stepName, default);
      assert forall i :: 1 <= i < |rules| ==> rules[i] == rules[1..][i - 1];
      r
  }

  function GetStepIcon(stepName: string): StepIcon
  {
    FirstMatch(IconRules, stepName, Sparkles)
  }

  /** A rule misses a label lacking some character of each of its keywords. */
  lemma MissesRule(rule: IconRule, stepName: string, j: nat, k: nat)
    requires j < |rule.first| && rule.first[j] !in stepName
    requires k < |rule.second| && rule.second[k] !in stepName
    ensures !RuleMatches(rule, stepName)
  {
    AbsentChar(stepName, rule.first, j);
    AbsentChar(stepName, rule.second, k);
  }

  /** The check-mark icon is given exactly to labels that contain no keyword
      of the first four rules and contain "rendering" or "Quality". */
  lemma RenderingRuleDecides(stepName: string)
    ensures GetStepIcon(stepName) == CheckCircle <==>
              (forall k :: 0 <= k < 4 ==> !RuleMatches(IconRules[k], stepName)) &&
              RuleMatches(IconRules[4], stepName)
  {
    if forall k :: 0 <= k < 4 ==> !RuleMatches(IconRules[k], stepName) {
      if RuleMatches(IconRules[4], stepName) {
        assert GetStepIcon(stepName) == IconRules[4].icon;
      } else {
        assert forall k :: 0 <= k < |IconRules| ==> !RuleMatches(IconRules[k], stepName);
      }
    } else {
      EarlierRuleDecides(stepName);
    }
  }

  /** When one of the first four rules matches, the first such rule gives an
      icon other than the check mark and the sparkles. */
  lemma EarlierRuleDecides(stepName: string)
    requires exists k :: 0 <= k < 4 && RuleMatches(IconRules[k], stepName)
    ensures GetStepIcon(stepName) != CheckCircle && GetStepIcon(stepName) != Sparkles
  {
    if RuleMatches(IconRules[0], stepName) {
      assert GetStepIcon(stepName) == IconRules[0].icon;
    } else if RuleMatches(IconRules[1], stepName) {
      assert GetStepIcon(stepName) == IconRules[1].icon;
    } else if RuleMatches(IconRules[2], stepName) {
      assert GetStepIcon(stepName) == IconRules[2].icon;
    } else {
      assert RuleMatches(IconRules[3], stepName);
      assert GetStepIcon(stepName) == IconRules[3].icon;
    }
  }

  /** The sparkles icon is given exactly to labels that contain no keyword of
      any rule. */
  lemma NoRuleGivesDefault(stepName: string)
    ensures GetStepIcon(stepName) == Sparkles <==>
              forall k :: 0 <= k < |IconRules| ==> !RuleMatches(IconRules[k], stepName)
  {
    if !forall k :: 0 <= k < |IconRules| ==> !RuleMatches(IconRules[k], stepName) {
      if forall k :: 0 <= k < 4 ==> !RuleMatches(IconRules[k], stepName) {
        assert RuleMatches(IconRules[4], stepName);
        assert GetStepIcon(stepName) == IconRules[4].icon;
      } else {
        EarlierRuleDecides(stepName);
      }
    }
  }

  /** Character-level evidence that a label misses the first four rules. */
  lemma FirstFourMissed(stepName: string)
    requires 'y' !in stepName && 'C' !in stepName && 'L' !in stepName
    requires 'A' !in stepName && 'N' !in stepName
    requires 'F' !in stepName || 'l' !in stepName || !Contains(stepName, "il")
    requires 'b' !in stepName || 'r' !in stepName
    ensures forall k :: 0 <= k < 4 ==> !RuleMatches(IconRules[k], stepName)
  {
    AbsentChar(stepName, "analysis", 4);
    if 'l' !in stepName {
      AbsentChar(stepName, "File", 2);
    } else if 'F' in stepName {
      assert "File"[1..3] == "il";
      AbsentPiece(stepName, "File", 1, 2);
    } else {
      AbsentChar(stepName, "File", 0);
    }
    MissesRule(IconRules[1], stepName, 0, 6);
    if 'b' in stepName {
      MissesRule(IconRules[2], stepName, 0, 1);
    } else {
      MissesRule(IconRules[2], stepName, 0, 0);
    }
    MissesRule(IconRules[3], stepName, 0, 0);
  }

  /** Character-level evidence that a label misses every rule. */
  lemma AllRulesMissed(stepName: string)
    requires 'y' !in stepName && 'C' !in stepName && 'L' !in stepName
    requires 'A' !in stepName && 'N' !in stepName && 'Q' !in stepName
    requires 'F' !in stepName || 'l' !in stepName || !Contains(stepName, "il")
    requires 'b' !in stepName || 'r' !in stepName
    requires 'd' !in stepName || !Contains(stepName, "re")
    ensures forall k :: 0 <= k < |IconRules| ==> !RuleMatches(IconRules[k], stepName)
  {
    FirstFourMissed(stepName);
    if 'd' in stepName {
      assert "rendering"[0..2] == "re";
      AbsentPiece(stepName, "rendering", 0, 2);
    } else {
      AbsentChar(stepName, "rendering", 3);
    }
    AbsentChar(stepName, "Quality", 0);
    assert !RuleMatches(IconRules[4], stepName);
  }

  // The label examples go through the three lemmas below, which take the
  // label as a parameter: their callers then only check single characters of
  // a literal, which keeps the verifier from unfolding `includes` on literals.

  lemma CheckMarkByChars(stepName: string)
    requires 'y' !in stepName && 'C' !in stepName && 'L' !in stepName
    requires 'A' !in stepName && 'N' !in stepName && 'b' !in stepName
    requires !Contains(stepName, "il") && Contains(stepName, "rendering")
    ensures GetStepIcon(stepName) == CheckCircle
  {
    FirstFourMissed(stepName);
    RenderingRuleDecides(stepName);
  }

  lemma DefaultByCharsAndRe(stepName: string)
    requires 'y' !in stepName && 'C' !in stepName && 'L' !in stepName
    requires 'A' !in stepName && 'N' !in stepName && 'Q' !in stepName
    requires 'F' !in stepName && 'b' !in stepName && !Contains(stepName, "re")
    ensures GetStepIcon(stepName) == Sparkles
  {
    AllRulesMissed(stepName);
    NoRuleGivesDefault(stepName);
  }

  lemma DefaultByChars(stepName: string)
    requires 'y' !in stepName && 'C' !in stepName && 'L' !in stepName
    requires 'A' !in stepName && 'N' !in stepName && 'Q' !in stepName && 'd' !in stepName
    requires 'F' !in stepName || 'l' !in stepName
    requires 'b' !in stepName || 'r' !in stepName
    ensures GetStepIcon(stepName) == Sparkles
  {
    AllRulesMissed(stepName);
    NoRuleGivesDefault(stepName);
  }

  lemma IconOfFileAnalysis()
    ensures GetStepIcon("File analysis") == Cpu
  {
    assert MatchesAt("File analysis", "File", 0, 0);
    assert RuleMatches(IconRules[0], "File analysis");
  }

  lemma IconOfLogoOverlay()
    ensures GetStepIcon("Logo overlay") == TypeIcon
  {
    AbsentChar("Logo overlay", "analysis", 1);
    AbsentChar("Logo overlay", "File", 0);
    assert MatchesAt("Logo overlay", "overlay", 5, 0);
    assert RuleMatches(IconRules[1], "Logo overlay");
  }

  lemma FinalRenderingLacksIl()
    ensures !Contains("Final rendering", "il")
  {
    assert !ContainsFrom("Final rendering", "il", 10);
    assert !ContainsFrom("Final rendering", "il", 5);
  }

  lemma ProcessingVideoLacksRe()
    ensures !Contains("Processing video", "re")
  {
    assert !ContainsFrom("Processing video", "re", 12);
    assert !ContainsFrom("Processing video", "re", 8);
    assert !ContainsFrom("Processing video", "re", 4);
  }

  lemma FinalRenderingHasRendering()
    ensures Contains("Final rendering", "rendering")
  {
    assert "Final rendering"[6..15] == "rendering";
    OccursAtIff("Final rendering", "rendering", 6);
    ContainsFromWitness("Final rendering", "rendering", 0, 6);
  }

  // The remaining examples name their labels through the catalogue constants,
  // which likewise keeps `includes` from being unfolded on the literal.

  /** "Final rendering", the last pro label, gets the check mark. */
  lemma IconOfFinalRendering()
    ensures ProSteps[5] == "Final rendering"
    ensures GetStepIcon(ProSteps[5]) == CheckCircle
  {
    FinalRenderingLacksIl();
    FinalRenderingHasRendering();
    CheckMarkByChars(ProSteps[5]);
  }

  /** "Processing video", the fallback label, matches no rule. */
  lemma IconOfProcessingVideo()
    ensures FallbackSteps[0] == "Processing video"
    ensures GetStepIcon(FallbackSteps[0]) == Sparkles
  {
    ProcessingVideoLacksRe();
    DefaultByCharsAndRe(FallbackSteps[0]);
  }

  /** "Stabilization", the last basic label, matches no rule. */
  lemma IconOfStabilization()
    ensures BasicSteps[4] == "Stabilization"
    ensures GetStepIcon(BasicSteps[4]) == Sparkles
  {
    DefaultByChars(BasicSteps[4]);
  }

  /** "Format conversion", the second no-edit label, matches no rule. */
  lemma IconOfFormatConversion()
    ensures NoEditSteps[1] == "Format conversion"
    ensures GetStepIcon(NoEditSteps[1]) == Sparkles
  {
    DefaultByChars(NoEditSteps[1]);
  }

  /** The first matching rule decides: "File analysis" gets the processor
      icon, "Logo overlay" the text icon, "Final rendering" the check mark,
      and labels matching no rule the sparkles. */
  lemma IconExamples()
    ensures GetStepIcon("File analysis") == Cpu
    ensures GetStepIcon("Logo overlay") == TypeIcon
    ensures GetStepIcon(ProSteps[5]) == CheckCircle
    ensures GetStepIcon(FallbackSteps[0]) == Sparkles
    ensures GetStepIcon(BasicSteps[4]) == Sparkles
    ensures GetStepIcon(NoEditSteps[1]) == Sparkles
  {
    IconOfFileAnalysis();
    IconOfLogoOverlay();
    IconOfFinalRendering();
    IconOfProcessingVideo();
    IconOfStabilization();
    IconOfFormatConversion();
  }

  // ---------------------------------------------------------------------------
  // The processing screen component

  class StepTracker {
    const template: string
    var currentStep: string
    var completedSteps: seq<string>

    function View(): TrackerView
      reads this
    {
      TrackerView(currentStep, completedSteps)
    }

    constructor (template: string)
      ensures this.template == template && View() == InitialTracker
    {
      this.template := template;
      currentStep := "";
      completedSteps := [];
    }

    /** The progress effect, run whenever the progress prop changes. */
    method OnProgress(progress: int)
      modifies this
      ensures View() == Sync(old(View()), progress, GetTemplateInfo(template).steps)
    {
      var steps := GetTemplateInfo(template).steps;
      var stepIndex := StepIndex(progress, |steps|);
      if 0 <= stepIndex < |steps| && steps[stepIndex] != "" && steps[stepIndex] != currentStep {
        currentStep := steps[stepIndex];
        completedSteps := steps[..stepIndex];
      }
    }
  }
}
