/**
 * The shared session state holder (`AIProvider`) and its setters. React state is
 * modelled as one immutable `Session` record; every setter is a pure function from
 * the old record to the new one. Clock readings are explicit arguments.
 */
module AIContext {
  import opened Basics
  import Text

  /** A model descriptor from the selector's catalog. */
  datatype AIModel = AIModel(id: string, name: string, provider: string, description: string)

  /** The four generation parameters; JavaScript numbers, modelled as reals. */
  datatype AIParameters = AIParameters(
    temperature: real,
    maxTokens: real,
    topP: real,
    frequencyPenalty: real)

  /** `Partial<AIParameters>`: a field is `Some` exactly when the key is present. */
  datatype PartialParameters = PartialParameters(
    temperature: Option<real>,
    maxTokens: Option<real>,
    topP: Option<real>,
    frequencyPenalty: Option<real>)

  datatype Role = User | Assistant

  /** A chat message; `timestamp` is the epoch-millisecond reading of `new Date()`. */
  datatype ChatMessage = ChatMessage(id: string, role: Role, content: string, timestamp: int)

  datatype PromptTemplate = PromptTemplate(id: string, name: string, content: string, category: string)

  /** Everything the provider exposes to its consumers. */
  datatype Session = Session(
    selectedModel: Option<AIModel>,
    parameters: AIParameters,
    messages: seq<ChatMessage>,
    isLoading: bool,
    promptTemplates: seq<PromptTemplate>,
    selectedTemplate: Option<PromptTemplate>)

  /** The fields of a `Session`, used to say which one an operation may change. */
  datatype Field = ModelField | ParametersField | MessagesField | LoadingField | SelectedTemplateField

  /**
   * `after` agrees with `before` on every field outside `changed`. The template catalog
   * is never among them: no setter for it exists.
   */
  predicate UnchangedExcept(before: Session, after: Session, changed: set<Field>) {
    && (ModelField !in changed ==> after.selectedModel == before.selectedModel)
    && (ParametersField !in changed ==> after.parameters == before.parameters)
    && (MessagesField !in changed ==> after.messages == before.messages)
    && (LoadingField !in changed ==> after.isLoading == before.isLoading)
    && after.promptTemplates == before.promptTemplates
    && (SelectedTemplateField !in changed ==> after.selectedTemplate == before.selectedTemplate)
  }

  const DefaultParameters := AIParameters(0.7, 2048.0, 0.9, 0.0)

  /** The built-in template catalog; the provider keeps no setter for it. */
  const BuiltInTemplates: seq<PromptTemplate> := [
    PromptTemplate("1", "Creative Writing", "Write a creative story about...", "Creative"),
    PromptTemplate("2", "Code Review", "Please review this code and suggest improvements...", "Development"),
    PromptTemplate("3", "Data Analysis", "Analyze the following dataset and provide insights...", "Analytics")
  ]

  /** The state a freshly mounted provider holds. */
  const InitialSession := Session(None, DefaultParameters, [], false, BuiltInTemplates, None)

  /** The initial state: no model, default parameters, empty transcript, idle, three templates, none selected. */
  lemma InitialSessionFacts()
    ensures InitialSession.selectedModel == None
    ensures InitialSession.parameters == AIParameters(0.7, 2048.0, 0.9, 0.0)
    ensures InitialSession.messages == [] && !InitialSession.isLoading
    ensures |InitialSession.promptTemplates| == 3
    ensures forall i, j :: 0 <= i < j < 3 ==>
      InitialSession.promptTemplates[i].id != InitialSession.promptTemplates[j].id
    ensures InitialSession.selectedTemplate == None
  {
  }

  /** The provider as seen from a consumer: either mounted above it or not. */
  datatype ProviderScope = OutsideProvider | InsideProvider(session: Session)

  const OutsideProviderError := "useAI must be used within an AIProvider"

  /** `useAI`: reading the state outside a provider is an error, never a default value. */
  function UseAI(scope: ProviderScope): (r: Result<Session>)
    ensures r.Success? <==> scope.InsideProvider?
    ensures r.Success? ==> r.value == scope.session
    ensures r.Failure? ==> r.error == OutsideProviderError
  {
    match scope
    case OutsideProvider => Failure(OutsideProviderError)
    case InsideProvider(s) => Success(s)
  }

  /** The object spread `{ ...prev, ...partial }` on one field. */
  function Overlay(current: real, update: Option<real>): real {
    update.GetOr(current)
  }

  /** Present keys of `partial` overwrite, absent keys keep their value; nothing is range-checked. */
  function MergeParameters(p: AIParameters, partial: PartialParameters): (r: AIParameters)
    ensures partial.temperature.Some? ==> r.temperature == partial.temperature.value
    ensures partial.temperature.None? ==> r.temperature == p.temperature
    ensures partial.maxTokens.Some? ==> r.maxTokens == partial.maxTokens.value
    ensures partial.maxTokens.None? ==> r.maxTokens == p.maxTokens
    ensures partial.topP.Some? ==> r.topP == partial.topP.value
    ensures partial.topP.None? ==> r.topP == p.topP
    ensures partial.frequencyPenalty.Some? ==> r.frequencyPenalty == partial.frequencyPenalty.value
    ensures partial.frequencyPenalty.None? ==> r.frequencyPenalty == p.frequencyPenalty
  {
    AIParameters(
      Overlay(p.temperature, partial.temperature),
      Overlay(p.maxTokens, partial.maxTokens),
      Overlay(p.topP, partial.topP),
      Overlay(p.frequencyPenalty, partial.frequencyPenalty))
  }

  /** The spread of two partials, `{ ...first, ...second }`: keys of `second` win. */
  function CombinePartials(first: PartialParameters, second: PartialParameters): PartialParameters {
    PartialParameters(
      if second.temperature.Some? then second.temperature else first.temperature,
      if second.maxTokens.Some? then second.maxTokens else first.maxTokens,
      if second.topP.Some? then second.topP else first.topP,
      if second.frequencyPenalty.Some? then second.frequencyPenalty else first.frequencyPenalty)
  }

  const EmptyPartial := PartialParameters(None, None, None, None)

  /** Merging is a monoid action: the empty partial changes nothing, and two merges in a row are one merge of the combined partial. */
  lemma MergeLaws(p: AIParameters, a: PartialParameters, b: PartialParameters)
    ensures MergeParameters(p, EmptyPartial) == p
    ensures MergeParameters(MergeParameters(p, a), b) == MergeParameters(p, CombinePartials(a, b))
    ensures MergeParameters(MergeParameters(p, a), a) == MergeParameters(p, a)
  {
  }

  /** `setParameters`: only the parameters change, merged with the partial. */
  function SetParameters(s: Session, partial: PartialParameters): (r: Session)
    ensures r.parameters == MergeParameters(s.parameters, partial)
    ensures UnchangedExcept(s, r, {ParametersField})
  {
    s.(parameters := MergeParameters(s.parameters, partial))
  }

  /** The message `addMessage` builds: its id is the millisecond clock rendered in decimal. */
  function NewMessage(role: Role, content: string, nowMillis: int, timestamp: int): (m: ChatMessage)
    ensures m.role == role && m.content == content && m.timestamp == timestamp
    ensures m.id == Text.IntToDecimal(nowMillis)
    ensures Text.ParseDecimal(m.id) == Some(nowMillis)
  {
    Text.DecimalRoundTrip(nowMillis);
    ChatMessage(Text.IntToDecimal(nowMillis), role, content, timestamp)
  }

  /**
   * `addMessage`: appends exactly one message at the end; the prefix and every other
   * field are untouched. `nowMillis` is `Date.now()`, `timestamp` is `new Date()`.
   */
  function AddMessage(s: Session, role: Role, content: string, nowMillis: int, timestamp: int): (r: Session)
    ensures |r.messages| == |s.messages| + 1
    ensures r.messages[..|s.messages|] == s.messages
    ensures r.messages[|s.messages|] == NewMessage(role, content, nowMillis, timestamp)
    ensures UnchangedExcept(s, r, {MessagesField})
  {
    s.(messages := s.messages + [NewMessage(role, content, nowMillis, timestamp)])
  }

  /** Two messages get the same id exactly when they were created at the same clock value. */
  lemma MessageIdsCollideIffSameClock(role1: Role, c1: string, n1: int, t1: int, role2: Role, c2: string, n2: int, t2: int)
    ensures NewMessage(role1, c1, n1, t1).id == NewMessage(role2, c2, n2, t2).id <==> n1 == n2
  {
    Text.DecimalInjective(n1, n2);
  }

  /** `clearMessages`: the transcript becomes empty whatever it held; nothing else changes. */
  function ClearMessages(s: Session): (r: Session)
    ensures r.messages == []
    ensures UnchangedExcept(s, r, {MessagesField})
  {
    s.(messages := [])
  }

  /** Clearing twice is clearing once, and clearing forgets any earlier appends. */
  lemma ClearMessagesIdempotent(s: Session, role: Role, content: string, nowMillis: int, timestamp: int)
    ensures ClearMessages(ClearMessages(s)) == ClearMessages(s)
    ensures ClearMessages(AddMessage(s, role, content, nowMillis, timestamp)) == ClearMessages(s)
  {
  }

  /** `setSelectedModel`: replaces the model, unchecked against any catalog. */
  function SetSelectedModel(s: Session, model: AIModel): (r: Session)
    ensures r.selectedModel == Some(model)
    ensures UnchangedExcept(s, r, {ModelField})
  {
    s.(selectedModel := Some(model))
  }

  /** `setIsLoading`: replaces only the loading flag. */
  function SetIsLoading(s: Session, loading: bool): (r: Session)
    ensures r.isLoading == loading
    ensures UnchangedExcept(s, r, {LoadingField})
  {
    s.(isLoading := loading)
  }

  /** `setSelectedTemplate`: replaces only the selected template; it need not be in the catalog. */
  function SetSelectedTemplate(s: Session, template: Option<PromptTemplate>): (r: Session)
    ensures r.selectedTemplate == template
    ensures UnchangedExcept(s, r, {SelectedTemplateField})
  {
    s.(selectedTemplate := template)
  }
}
