/**
 * The model picker: a fixed catalog, an icon classifier on model ids, the effect that
 * selects a default model, and the trigger button's label.
 */
module ModelSelector {
  import opened Basics
  import opened AIContext
  import Text

  const Models: seq<AIModel> := [
    AIModel("gpt-4-turbo", "GPT-4 Turbo", "OpenAI", "Most capable model for complex tasks"),
    AIModel("gpt-3.5-turbo", "GPT-3.5 Turbo", "OpenAI", "Fast and efficient for most tasks"),
    AIModel("claude-3-opus", "Claude 3 Opus", "Anthropic", "Excellent for analysis and reasoning"),
    AIModel("gemini-pro", "Gemini Pro", "Google", "Multimodal capabilities")
  ]

  /** The icon categories `getModelIcon` can return. */
  datatype IconKind = GptFourIcon | GptThreeFiveIcon | ClaudeIcon | GeminiIcon | DefaultIcon

  /** `getModelIcon`: the substring tests in the order the component makes them; the first one that matches decides. */
  function GetModelIcon(modelId: string): IconKind {
    if Text.Includes(modelId, "gpt-4") then GptFourIcon
    else if Text.Includes(modelId, "gpt-3.5") then GptThreeFiveIcon
    else if Text.Includes(modelId, "claude") then ClaudeIcon
    else if Text.Includes(modelId, "gemini") then GeminiIcon
    else DefaultIcon
  }

  /** The classification rules as data, in priority order. */
  const IconRules: seq<(string, IconKind)> := [
    ("gpt-4", GptFourIcon),
    ("gpt-3.5", GptThreeFiveIcon),
    ("claude", ClaudeIcon),
    ("gemini", GeminiIcon)
  ]

  /** A reference classifier: scan `rules` and return the kind of the first pattern the id includes. */
  function FirstMatch(rules: seq<(string, IconKind)>, modelId: string): IconKind {
    if |rules| == 0 then DefaultIcon
    else if Text.Includes(modelId, rules[0].0) then rules[0].1
    else FirstMatch(rules[1..], modelId)
  }

  /** `FirstMatch` returns the kind of rule `i` exactly when rule `i` matches and no earlier rule does. */
  lemma {:induction false} FirstMatchIsFirst(rules: seq<(string, IconKind)>, modelId: string, i: int)
    requires 0 <= i < |rules|
    requires Text.Includes(modelId, rules[i].0)
    requires forall j :: 0 <= j < i ==> !Text.Includes(modelId, rules[j].0)
    ensures FirstMatch(rules, modelId) == rules[i].1
  {
    if i > 0 {
      assert !Text.Includes(modelId, rules[0].0);
      FirstMatchIsFirst(rules[1..], modelId, i - 1);
    }
  }

  /** With no matching rule the classifier falls back to the default. */
  lemma {:induction false} FirstMatchDefault(rules: seq<(string, IconKind)>, modelId: string)
    requires forall j :: 0 <= j < |rules| ==> !Text.Includes(modelId, rules[j].0)
    ensures FirstMatch(rules, modelId) == DefaultIcon
  {
    if |rules| > 0 {
      assert !Text.Includes(modelId, rules[0].0);
      FirstMatchDefault(rules[1..], modelId);
    }
  }

  /**
   * `getModelIcon` agrees with the first-match scan of the rule table: the first rule whose
   * pattern the id includes wins, and an id that includes none gets the default icon.
   */
  lemma GetModelIconIsFirstMatch(modelId: string)
    ensures GetModelIcon(modelId) == FirstMatch(IconRules, modelId)
    ensures forall i :: 0 <= i < |IconRules| ==>
      ((Text.Includes(modelId, IconRules[i].0) && (forall j :: 0 <= j < i ==> !Text.Includes(modelId, IconRules[j].0)))
       ==> GetModelIcon(modelId) == IconRules[i].1)
    ensures (forall j :: 0 <= j < |IconRules| ==> !Text.Includes(modelId, IconRules[j].0))
      ==> GetModelIcon(modelId) == DefaultIcon
  {
    var rest1 := IconRules[1..];
    var rest2 := rest1[1..];
    var rest3 := rest2[1..];
    assert rest1[0] == IconRules[1] && rest2[0] == IconRules[2] && rest3[0] == IconRules[3];
    assert rest3[1..] == [];
    assert FirstMatch(rest3, modelId) == if Text.Includes(modelId, "gemini") then GeminiIcon else DefaultIcon;
    assert FirstMatch(rest2, modelId) == if Text.Includes(modelId, "claude") then ClaudeIcon else FirstMatch(rest3, modelId);
    assert FirstMatch(rest1, modelId) == if Text.Includes(modelId, "gpt-3.5") then GptThreeFiveIcon else FirstMatch(rest2, modelId);
    forall i | 0 <= i < |IconRules| && Text.Includes(modelId, IconRules[i].0)
      && (forall j :: 0 <= j < i ==> !Text.Includes(modelId, IconRules[j].0))
      ensures GetModelIcon(modelId) == IconRules[i].1
    {
      FirstMatchIsFirst(IconRules, modelId, i);
    }
    if forall j :: 0 <= j < |IconRules| ==> !Text.Includes(modelId, IconRules[j].0) {
      FirstMatchDefault(IconRules, modelId);
    }
  }

  /** "gpt-4-turbo" is classified as GPT-4. */
  lemma GptFourTurboIcon()
    ensures GetModelIcon(Models[0].id) == GptFourIcon
  {
    assert Text.OccursAt(Models[0].id, "gpt-4", 0);
  }

  /** "gpt-3.5-turbo" has no '4', so only the second test matches. */
  lemma GptThreeFiveTurboIcon()
    ensures GetModelIcon(Models[1].id) == GptThreeFiveIcon
  {
    var id := "gpt-3.5-turbo";
    assert Models[1].id == id;
    Text.MissingCharExcludes(id, "gpt-4", 4);
    assert Text.OccursAt(id, "gpt-3.5", 0);
  }

  /** "claude-3-opus" has no 'g', so neither GPT test matches and the third does. */
  lemma ClaudeOpusIcon()
    ensures GetModelIcon(Models[2].id) == ClaudeIcon
  {
    var id := "claude-3-opus";
    assert Models[2].id == id;
    Text.MissingCharExcludes(id, "gpt-4", 0);
    Text.MissingCharExcludes(id, "gpt-3.5", 0);
    assert Text.OccursAt(id, "claude", 0);
  }

  /** "gemini-pro" has no 't' and no 'c', so only the last test matches. */
  lemma GeminiProIcon()
    ensures GetModelIcon(Models[3].id) == GeminiIcon
  {
    var id := "gemini-pro";
    assert Models[3].id == id;
    Text.MissingCharExcludes(id, "gpt-4", 2);
    Text.MissingCharExcludes(id, "gpt-3.5", 2);
    Text.MissingCharExcludes(id, "claude", 0);
    assert Text.OccursAt(id, "gemini", 0);
  }

  /** The catalog ids are pairwise distinct and fall into four distinct non-default icon categories. */
  lemma CatalogIcons()
    ensures forall i, j :: 0 <= i < j < |Models| ==> Models[i].id != Models[j].id
    ensures forall i :: 0 <= i < |Models| ==> GetModelIcon(Models[i].id) != DefaultIcon
    ensures forall i, j :: 0 <= i < j < |Models| ==> GetModelIcon(Models[i].id) != GetModelIcon(Models[j].id)
  {
    GptFourTurboIcon();
    GptThreeFiveTurboIcon();
    ClaudeOpusIcon();
    GeminiProIcon();
  }

  /** The selector's effect: with no model chosen it selects the first catalog entry, otherwise it leaves the state alone. */
  function EnsureDefaultModel(s: Session): (r: Session)
    ensures s.selectedModel.None? ==> r.selectedModel == Some(Models[0]) && r.selectedModel.value.id == "gpt-4-turbo"
    ensures s.selectedModel.Some? ==> r == s
    ensures UnchangedExcept(s, r, {ModelField})
  {
    if s.selectedModel.None? then SetSelectedModel(s, Models[0]) else s
  }

  /** After the effect a model is always selected, and running it again changes nothing. */
  lemma EnsureDefaultModelSettles(s: Session)
    ensures EnsureDefaultModel(s).selectedModel.Some?
    ensures EnsureDefaultModel(EnsureDefaultModel(s)) == EnsureDefaultModel(s)
  {
  }

  /** Clicking menu item `i` selects exactly that catalog entry. */
  function ChooseModel(s: Session, i: nat): (r: Session)
    requires i < |Models|
    ensures r.selectedModel == Some(Models[i])
    ensures UnchangedExcept(s, r, {ModelField})
  {
    SetSelectedModel(s, Models[i])
  }

  const NoModelLabel := "Select Model"

  /** `selectedModel?.name || 'Select Model'`: an absent model or an empty (falsy) name shows the fallback. */
  function TriggerLabel(selected: Option<AIModel>): (caption: string)
    ensures selected.None? ==> caption == NoModelLabel
    ensures selected.Some? && selected.value.name != "" ==> caption == selected.value.name
    ensures selected.Some? && selected.value.name == "" ==> caption == NoModelLabel
    ensures caption != ""
  {
    match selected
    case Some(m) => if m.name != "" then m.name else NoModelLabel
    case None => NoModelLabel
  }

  /** The trigger's icon is shown only for a selected model, classified by its id. */
  function TriggerIcon(selected: Option<AIModel>): (icon: Option<IconKind>)
    ensures icon.Some? <==> selected.Some?
    ensures selected.Some? ==> icon.value == GetModelIcon(selected.value.id)
  {
    match selected
    case Some(m) => Some(GetModelIcon(m.id))
    case None => None
  }

  /** Every catalog entry's own name labels the trigger once it is chosen. */
  lemma CatalogLabels(i: nat)
    requires i < |Models|
    ensures TriggerLabel(Some(Models[i])) == Models[i].name
  {
  }
}
