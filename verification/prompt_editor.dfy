/**
 * The prompt editor: its local prompt text, the submit handler with its in-flight
 * guard, the deferred simulated reply, and template selection. The two-second timer
 * is an explicit `Complete` step; `pending` holds, in firing order, the prompt each
 * scheduled callback captured.
 */
module PromptEditor {
  import opened Basics
  import opened AIContext
  import Text

  /** The session together with the editor's text and the not-yet-fired reply timers. */
  datatype EditorState = EditorState(session: Session, prompt: string, pending: seq<string>)

  const EchoLimit := 50
  const EchoOpening := "This is a simulated response to: \""
  const EchoClosing := "...\""

  /** `prompt.substring(0, 50)`: the first at most 50 characters. */
  function EchoFragment(prompt: string): (fragment: string)
    ensures |fragment| == if |prompt| < EchoLimit then |prompt| else EchoLimit
    ensures fragment <= prompt
    ensures |prompt| <= EchoLimit ==> fragment == prompt
  {
    prompt[..if |prompt| < EchoLimit then |prompt| else EchoLimit]
  }

  /** The simulated reply's text; the ellipsis is added even when nothing was cut. */
  function EchoContent(prompt: string): string {
    EchoOpening + EchoFragment(prompt) + EchoClosing
  }

  /** Recovers the echoed fragment from a simulated reply, if the text has that shape. */
  function ParseEcho(content: string): Option<string> {
    if |content| >= |EchoOpening| + |EchoClosing|
       && content[..|EchoOpening|] == EchoOpening
       && content[|content| - |EchoClosing|..] == EchoClosing
    then Some(content[|EchoOpening|..|content| - |EchoClosing|])
    else None
  }

  /** A reply gives back exactly the echoed fragment; two prompts get the same reply exactly when their first 50 characters agree. */
  lemma EchoRoundTrip(prompt: string, other: string)
    ensures ParseEcho(EchoContent(prompt)) == Some(EchoFragment(prompt))
    ensures EchoContent(prompt) == EchoContent(other) <==> EchoFragment(prompt) == EchoFragment(other)
  {
    var c := EchoContent(prompt);
    assert c[..|EchoOpening|] == EchoOpening;
    assert c[|c| - |EchoClosing|..] == EchoClosing;
    assert c[|EchoOpening|..|c| - |EchoClosing|] == EchoFragment(prompt);
    if EchoContent(prompt) == EchoContent(other) {
      var d := EchoContent(other);
      assert d[|EchoOpening|..|d| - |EchoClosing|] == EchoFragment(other);
    }
  }

  /** The Send button's `disabled={!prompt.trim() || isLoading}`, negated. */
  predicate SubmitButtonEnabled(e: EditorState) {
    !(Text.Trim(e.prompt) == [] || e.session.isLoading)
  }

  /**
   * `handleSubmit`: a blank prompt or a pending reply makes it a no-op. Otherwise it
   * appends the user's untrimmed prompt, sets loading, schedules the reply for that
   * prompt and empties the input; the selected template and everything else are kept.
   */
  function Submit(e: EditorState, nowMillis: int, timestamp: int): (r: EditorState)
    ensures Text.IsBlank(e.prompt) || e.session.isLoading ==> r == e
    ensures !Text.IsBlank(e.prompt) && !e.session.isLoading ==>
      && r.session.messages == e.session.messages + [NewMessage(User, e.prompt, nowMillis, timestamp)]
      && r.session.isLoading
      && r.prompt == ""
      && r.pending == e.pending + [e.prompt]
    ensures UnchangedExcept(e.session, r.session, {MessagesField, LoadingField})
  {
    Text.TrimEmptyIffBlank(e.prompt);
    if Text.Trim(e.prompt) == [] || e.session.isLoading then e
    else
      var added := AddMessage(e.session, User, e.prompt, nowMillis, timestamp);
      EditorState(SetIsLoading(added, true), "", e.pending + [e.prompt])
  }

  /** The Send button is enabled exactly when pressing it would append a message. */
  lemma SubmitButtonMatchesHandler(e: EditorState, nowMillis: int, timestamp: int)
    ensures SubmitButtonEnabled(e) <==> !Text.IsBlank(e.prompt) && !e.session.isLoading
    ensures SubmitButtonEnabled(e) <==> Submit(e, nowMillis, timestamp).session.messages != e.session.messages
  {
    Text.TrimEmptyIffBlank(e.prompt);
    if SubmitButtonEnabled(e) {
      var r := Submit(e, nowMillis, timestamp);
      assert |r.session.messages| == |e.session.messages| + 1;
    }
  }

  /**
   * The timer callback for the oldest scheduled reply: appends the assistant's echo of
   * the prompt it captured and clears loading; the editor's text is left alone.
   */
  function Complete(e: EditorState, nowMillis: int, timestamp: int): (r: EditorState)
    requires |e.pending| > 0
    ensures r.session.messages == e.session.messages + [NewMessage(Assistant, EchoContent(e.pending[0]), nowMillis, timestamp)]
    ensures !r.session.isLoading
    ensures r.pending == e.pending[1..] && r.prompt == e.prompt
    ensures UnchangedExcept(e.session, r.session, {MessagesField, LoadingField})
  {
    var added := AddMessage(e.session, Assistant, EchoContent(e.pending[0]), nowMillis, timestamp);
    EditorState(SetIsLoading(added, false), e.prompt, e.pending[1..])
  }

  /**
   * An accepted submit followed by its completion grows the transcript by exactly two,
   * the user's prompt then the echo, and ends idle with an empty input. The two new ids
   * coincide exactly when both clock readings do, so ids are not unique.
   */
  lemma SubmitThenComplete(e: EditorState, c1: int, t1: int, c2: int, t2: int)
    requires !Text.IsBlank(e.prompt) && !e.session.isLoading && e.pending == []
    ensures var r := Complete(Submit(e, c1, t1), c2, t2);
      && |r.session.messages| == |e.session.messages| + 2
      && r.session.messages[..|e.session.messages|] == e.session.messages
      && r.session.messages[|e.session.messages|].role == User
      && r.session.messages[|e.session.messages|].content == e.prompt
      && r.session.messages[|e.session.messages| + 1].role == Assistant
      && r.session.messages[|e.session.messages| + 1].content == EchoContent(e.prompt)
      && (r.session.messages[|e.session.messages|].id == r.session.messages[|e.session.messages| + 1].id <==> c1 == c2)
      && !r.session.isLoading && r.prompt == "" && r.pending == []
  {
    var n := |e.session.messages|;
    var r := Complete(Submit(e, c1, t1), c2, t2);
    assert r.session.messages[n] == NewMessage(User, e.prompt, c1, t1);
    assert r.session.messages[n + 1] == NewMessage(Assistant, EchoContent(e.prompt), c2, t2);
    MessageIdsCollideIffSameClock(User, e.prompt, c1, t1, Assistant, EchoContent(e.prompt), c2, t2);
  }

  /** `handleTemplateSelect`: records the template and loads its text into the editor. */
  function SelectTemplate(e: EditorState, t: PromptTemplate): (r: EditorState)
    ensures r.session.selectedTemplate == Some(t) && r.prompt == t.content
    ensures r.pending == e.pending
    ensures UnchangedExcept(e.session, r.session, {SelectedTemplateField})
  {
    EditorState(SetSelectedTemplate(e.session, Some(t)), t.content, e.pending)
  }

  /** `handleClear`: empties the editor and deselects the template. */
  function ClearPrompt(e: EditorState): (r: EditorState)
    ensures r.prompt == "" && r.session.selectedTemplate == None
    ensures r.pending == e.pending
    ensures UnchangedExcept(e.session, r.session, {SelectedTemplateField})
  {
    EditorState(SetSelectedTemplate(e.session, None), "", e.pending)
  }

  /** Typing: the textarea is disabled while loading, so edits then have no effect. */
  function EditPrompt(e: EditorState, text: string): (r: EditorState)
    ensures e.session.isLoading ==> r == e
    ensures !e.session.isLoading ==> r.prompt == text && r.session == e.session && r.pending == e.pending
  {
    if e.session.isLoading then e else e.(prompt := text)
  }

  /** The Clear button is rendered for any non-empty prompt, even an all-whitespace one. */
  predicate ClearButtonShown(e: EditorState) {
    e.prompt != ""
  }

  /** The "Using template" banner names the selected template, if any. */
  function TemplateBanner(e: EditorState): (banner: Option<string>)
    ensures banner.Some? <==> e.session.selectedTemplate.Some?
    ensures banner.Some? ==> banner.value == e.session.selectedTemplate.value.name
  {
    match e.session.selectedTemplate
    case Some(t) => Some(t.name)
    case None => None
  }
}
