/**
 * The page as a whole: one provider shared by the selector, the sliders, the editor
 * and the transcript. Every user event and timer firing is an `Action`; a `Clock`
 * supplies the two wall-clock readings an append takes.
 */
module Workspace {
  import opened Basics
  import opened AIContext
  import PromptEditor
  import ModelSelector
  import ParametersPanel
  import Text

  datatype Clock = Clock(nowMillis: int, timestamp: int)

  datatype Action =
    | PickDefaultModel                               // the selector's effect
    | PickModel(modelIndex: nat)                     // a selector menu item
    | MoveSlider(key: ParametersPanel.ParamKey, value: real)
    | TypePrompt(text: string)
    | PickTemplate(templateIndex: nat)               // a template menu item
    | ClearPrompt
    | SubmitPrompt
    | FireReplyTimer
    | ClearTranscript                                // the transcript's Clear button

  const Initial := PromptEditor.EditorState(InitialSession, "", [])

  /**
   * Whether the interface can issue `a` in state `e`: menu indices name an entry, a
   * slider only produces values within its range, the editor's Clear button exists only
   * for a non-empty prompt, the transcript's Clear button exists only for a non-empty
   * transcript, and a timer can fire only once scheduled.
   */
  predicate Enabled(e: PromptEditor.EditorState, a: Action) {
    match a
    case PickModel(i) => i < |ModelSelector.Models|
    case MoveSlider(k, v) => ParametersPanel.InSliderRange(k, v)
    case PickTemplate(i) => i < |e.session.promptTemplates|
    case ClearPrompt => PromptEditor.ClearButtonShown(e)
    case FireReplyTimer => |e.pending| > 0
    case ClearTranscript => |e.session.messages| > 0
    case _ => true
  }

  function Step(e: PromptEditor.EditorState, a: Action, clock: Clock): PromptEditor.EditorState
    requires Enabled(e, a)
  {
    match a
    case PickDefaultModel => e.(session := ModelSelector.EnsureDefaultModel(e.session))
    case PickModel(i) => e.(session := ModelSelector.ChooseModel(e.session, i))
    case MoveSlider(k, v) => e.(session := ParametersPanel.OnValueChange(e.session, k, v))
    case TypePrompt(text) => PromptEditor.EditPrompt(e, text)
    case PickTemplate(i) => PromptEditor.SelectTemplate(e, e.session.promptTemplates[i])
    case ClearPrompt => PromptEditor.ClearPrompt(e)
    case SubmitPrompt => PromptEditor.Submit(e, clock.nowMillis, clock.timestamp)
    case FireReplyTimer => PromptEditor.Complete(e, clock.nowMillis, clock.timestamp)
    case ClearTranscript => e.(session := ClearMessages(e.session))
  }

  /**
   * What holds in every state the interface can reach: the template catalog is the
   * built-in one, at most one reply is outstanding and it is outstanding exactly while
   * loading, and every parameter lies within its slider's range.
   */
  predicate Reachable(e: PromptEditor.EditorState) {
    && e.session.promptTemplates == BuiltInTemplates
    && |e.pending| <= 1
    && (e.session.isLoading <==> |e.pending| == 1)
    && ParametersPanel.WithinSliderRanges(e.session.parameters)
  }

  lemma InitialReachable()
    ensures Reachable(Initial)
  {
    ParametersPanel.DefaultsWithinRanges();
  }

  /** Every enabled action keeps the invariant. */
  lemma StepKeepsReachable(e: PromptEditor.EditorState, a: Action, clock: Clock)
    requires Reachable(e) && Enabled(e, a)
    ensures Reachable(Step(e, a, clock))
  {
    match a
    case MoveSlider(k, v) => ParametersPanel.SliderKeepsRanges(e.session, k, v);
    case SubmitPrompt =>
      var r := PromptEditor.Submit(e, clock.nowMillis, clock.timestamp);
      assert r.session.isLoading <==> |r.pending| == 1;
    case _ =>
  }

  /** Runs a sequence of timed actions; `None` if one of them is not enabled when it comes. */
  function Run(e: PromptEditor.EditorState, script: seq<(Action, Clock)>): Option<PromptEditor.EditorState>
    decreases |script|
  {
    if |script| == 0 then Some(e)
    else if !Enabled(e, script[0].0) then None
    else Run(Step(e, script[0].0, script[0].1), script[1..])
  }

  /** Every state reached from a reachable one by a run of the interface is reachable. */
  lemma {:induction false} RunKeepsReachable(e: PromptEditor.EditorState, script: seq<(Action, Clock)>)
    requires Reachable(e)
    requires Run(e, script).Some?
    ensures Reachable(Run(e, script).value)
    decreases |script|
  {
    if |script| > 0 {
      StepKeepsReachable(e, script[0].0, script[0].1);
      RunKeepsReachable(Step(e, script[0].0, script[0].1), script[1..]);
    }
  }

  /**
   * From a freshly mounted page, whatever the user does: the templates never change,
   * at most one reply is ever outstanding, the page is loading exactly while a reply is
   * outstanding (so the thinking indicator always ends with the next timer firing), and
   * no slider leaves its range.
   */
  lemma EveryRunKeepsInvariant(script: seq<(Action, Clock)>)
    requires Run(Initial, script).Some?
    ensures var e := Run(Initial, script).value;
      && e.session.promptTemplates == BuiltInTemplates
      && |e.pending| <= 1
      && (e.session.isLoading ==> Enabled(e, FireReplyTimer))
      && (!e.session.isLoading ==> e.pending == [])
      && ParametersPanel.WithinSliderRanges(e.session.parameters)
  {
    InitialReachable();
    RunKeepsReachable(Initial, script);
  }

  /**
   * Clearing the transcript while a reply is pending does not cancel it: the reply lands
   * in the emptied transcript as its only message.
   */
  lemma ClearDoesNotCancelReply(e: PromptEditor.EditorState, c1: Clock, c2: Clock, c3: Clock)
    requires Reachable(e) && !e.session.isLoading && !Text.IsBlank(e.prompt)
    ensures var submitted := Step(e, SubmitPrompt, c1);
      var cleared := Step(submitted, ClearTranscript, c2);
      Enabled(cleared, FireReplyTimer)
      && Step(cleared, FireReplyTimer, c3).session.messages
         == [NewMessage(Assistant, PromptEditor.EchoContent(e.prompt), c3.nowMillis, c3.timestamp)]
  {
    var submitted := PromptEditor.Submit(e, c1.nowMillis, c1.timestamp);
    assert Step(e, SubmitPrompt, c1) == submitted;
    assert submitted.pending == [e.prompt];
    assert |submitted.session.messages| > 0;
    var cleared := submitted.(session := ClearMessages(submitted.session));
    assert Step(submitted, ClearTranscript, c2) == cleared;
    var replied := PromptEditor.Complete(cleared, c3.nowMillis, c3.timestamp);
    assert Step(cleared, FireReplyTimer, c3) == replied;
  }
}
