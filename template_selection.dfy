/** The template-choice screen: a fixed catalogue of three enhancement
    templates, a selection that each click overwrites, and a continue button
    that hands the selected id on only when something is selected. */
module TemplateSelection {
  import ProcessingStatus

  datatype Template = Template(
    id: string,
    name: string,
    description: string,
    price: string,
    processingTime: string,
    features: seq<string>,
    popular: bool)

  const Templates: seq<Template> := [
    Template("no-edit", "No Edits", "Raw video with minimal processing", "Free", "Instant",
             ["File compression", "Format standardization", "Quick processing"], false),
    Template("basic", "Basic Edits", "Enhanced video with professional touches", "Free", "2-3 minutes",
             ["Auto light correction", "Noise reduction", "PlatinumRx logo watermark", "Video stabilization"], true),
    Template("pro", "Pro Edits", "Premium enhancement with AI-powered features", "Free", "5-7 minutes",
             ["All Basic features", "Dynamic captions/subtitles", "Savings amount overlay",
              "Enhanced branding", "Background music", "Professional transitions"], false)
  ]

  function Ids(ts: seq<Template>): (ids: seq<string>)
    ensures |ids| == |ts|
    ensures forall i :: 0 <= i < |ts| ==> ids[i] == ts[i].id
  {
    if ts == [] then [] else [ts[0].id] + Ids(ts[1..])
  }

  /** The ids of the popular templates, in catalogue order. */
  function PopularIds(ts: seq<Template>): (ids: seq<string>)
    ensures |ids| <= |ts|
    ensures forall i :: 0 <= i < |ts| && ts[i].popular ==> ts[i].id in ids
    ensures forall id :: id in ids ==> exists i :: 0 <= i < |ts| && ts[i].popular && ts[i].id == id
  {
    if ts == [] then []
    else
      var rest := PopularIds(ts[1..]);
      assert forall i :: 1 <= i < |ts| ==> ts[i] == ts[1..][i - 1];
      (if ts[0].popular then [ts[0].id] else []) + rest
  }

  /** The three ids are distinct and in the order no-edit, basic, pro; exactly
      one template, basic, carries the popular badge; every template is free. */
  lemma CatalogueShape()
    ensures Ids(Templates) == ["no-edit", "basic", "pro"]
    ensures ProcessingStatus.Distinct(Ids(Templates))
    ensures PopularIds(Templates) == ["basic"]
    ensures forall i :: 0 <= i < |Templates| ==> Templates[i].price == "Free"
  {
    assert Templates[1..][1..][1..] == [];
  }

  /** Every id offered here is one the processing screen knows: it gets the
      same display name and its own step list, never the one-step fallback. */
  lemma CatalogueKnownToProcessing()
    ensures forall i :: 0 <= i < |Templates| ==>
              ProcessingStatus.GetTemplateInfo(Templates[i].id).name == Templates[i].name &&
              ProcessingStatus.GetTemplateInfo(Templates[i].id).steps != ProcessingStatus.FallbackSteps
  {
    assert ProcessingStatus.NoEditSteps[0] != ProcessingStatus.FallbackSteps[0];
    assert ProcessingStatus.BasicSteps[0] != ProcessingStatus.FallbackSteps[0];
    assert ProcessingStatus.ProSteps[0] != ProcessingStatus.FallbackSteps[0];
  }

  /** The continue button is enabled exactly when the selection is truthy. */
  predicate ContinueEnabled(selected: string)
  {
    selected != ""
  }

  /** What `handleContinue` passes to `onTemplateSelect`. */
  function ContinueEmits(selected: string): (out: seq<string>)
    ensures |out| <= 1
    ensures out == [] <==> !ContinueEnabled(selected)
    ensures forall id :: id in out ==> id == selected
  {
    if selected != "" then [selected] else []
  }

  /** The selection after a series of clicks on template cards. */
  function AfterClicks(selected: string, clicks: seq<string>): string
    decreases |clicks|
  {
    if clicks == [] then selected else AfterClicks(clicks[0], clicks[1..])
  }

  /** Each click overwrites the selection, so the last click decides and
      continuing then emits exactly that id. */
  lemma {:induction false} LastClickWins(selected: string, clicks: seq<string>)
    requires clicks != []
    ensures AfterClicks(selected, clicks) == clicks[|clicks| - 1]
    ensures clicks[|clicks| - 1] != "" ==> ContinueEmits(AfterClicks(selected, clicks)) == [clicks[|clicks| - 1]]
    decreases |clicks|
  {
    if |clicks| > 1 {
      LastClickWins(clicks[0], clicks[1..]);
    }
  }

  class TemplateSelector {
    var selectedTemplate: string
    /** The ids handed to `onTemplateSelect`, oldest first. */
    var emitted: seq<string>

    constructor ()
      ensures selectedTemplate == "" && emitted == []
    {
      selectedTemplate := "";
      emitted := [];
    }

    method HandleSelect(templateId: string)
      modifies this
      ensures selectedTemplate == templateId && emitted == old(emitted)
    {
      selectedTemplate := templateId;
    }

    method HandleContinue()
      modifies this
      ensures selectedTemplate == old(selectedTemplate)
      ensures emitted == old(emitted) + ContinueEmits(selectedTemplate)
    {
      if selectedTemplate != "" {
        emitted := emitted + [selectedTemplate];
      }
    }

    function ContinueDisabled(): (disabled: bool)
      reads this
      ensures disabled <==> selectedTemplate == ""
    {
      !ContinueEnabled(selectedTemplate)
    }
  }
}
