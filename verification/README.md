# IntelliSync interface: session state and chat flow, modelled in Dafny

IntelliSync is a browser chat shell. One shared session state holder (`AIProvider`)
keeps the selected model, four generation parameters, the chat transcript, a loading
flag, a fixed prompt-template catalog and the selected template. The model selector,
the parameter sliders, the prompt editor and the transcript view read and update it.
No real model is called: a submitted prompt gets a canned echo two seconds later.

This project models that state machine with immutable datatypes and pure functions.

- `basics.dfy`, module `Basics`: `Option` and `Result`.
- `text.dfy`, module `Text`: the string built-ins the components use. These are `trim`
  with the exact ECMAScript whitespace set, `includes`, and the decimal rendering of an
  integral number together with its parser.
- `ai_context.dfy`, module `AIContext`: the entities, the initial state, `useAI`,
  `setParameters` (partial merge), `addMessage`, `clearMessages` and the field setters.
  `UnchangedExcept` states which fields an operation may change. The template catalog
  is never among them.
- `prompt_editor.dfy`, module `PromptEditor`: `handleSubmit` with its guard, the deferred
  reply as an explicit `Complete` step, template selection, clearing and typing.
- `chat_interface.dfy`, module `ChatInterface`: the share text, the share/clipboard
  fallback, the export snapshot and file name, and what the transcript card renders.
- `model_selector.dfy`, module `ModelSelector`: the catalog, the first-match icon
  classifier, the default-selection effect, menu selection and the trigger label.
- `parameters_panel.dfy`, module `ParametersPanel`: the slider table and the one-key
  partial update each slider issues.
- `workspace.dfy`, module `Workspace`: the whole page as one action-driven state machine.
  It proves the invariant every reachable state keeps.

Clock readings are inputs. `addMessage` reads the clock twice: `Date.now()` for the id
and `new Date()` for the timestamp. Both are parameters, given as epoch milliseconds.
The two-second `setTimeout` becomes a `pending` queue in the editor state. Each entry is
the prompt captured by one scheduled callback, and `Complete` fires the oldest. Browser
APIs become emitted `Effect` values: share, clipboard write and download. Whether
`navigator.share` exists, and whether its promise resolves or rejects, is an input.

Message timestamps are wall-clock readings (`new Date()`, `src/contexts/AIContext.tsx:101`),
which can go backwards, so they are not claimed monotonic.

## Model

| member | source | states |
|---|---|---|
| AIContext.InitialSessionFacts | src/contexts/AIContext.tsx:61-91 | A new provider has no model, parameters 0.7/2048/0.9/0, no messages, loading off, no selected template, and three templates with distinct ids |
| AIContext.UseAI | src/contexts/AIContext.tsx:49-55 | Outside a provider, reading the state fails with the provider error. Inside, it yields that provider's state. Both directions hold |
| AIContext.MergeParameters | src/contexts/AIContext.tsx:93-95 | Each key present in the partial overwrites its parameter unclamped, and each absent key keeps its old value |
| AIContext.MergeLaws | src/contexts/AIContext.tsx:93-95 | An empty partial changes nothing. Two merges equal one merge of the combined partial (later keys win). Merging the same partial twice equals merging it once |
| AIContext.SetParameters | src/contexts/AIContext.tsx:93-95 | Only the parameters change, and they become the merge of the old ones with the partial |
| AIContext.NewMessage | src/contexts/AIContext.tsx:97-102 | A new message keeps the given role and content and takes the given timestamp. Its id is the decimal rendering of the millisecond clock reading, which parses back to that reading |
| AIContext.AddMessage | src/contexts/AIContext.tsx:97-104 | Exactly one message is appended at the end. The prefix is unchanged, the length grows by one, and every other field is kept |
| AIContext.MessageIdsCollideIffSameClock | src/contexts/AIContext.tsx:100 | Two messages get equal ids exactly when they were created at the same clock millisecond, so ids are not unique |
| AIContext.ClearMessages | src/contexts/AIContext.tsx:106-108 | The transcript becomes empty whatever it held, and every other field is kept |
| AIContext.ClearMessagesIdempotent | src/contexts/AIContext.tsx:106-108 | Clearing twice equals clearing once, and clearing forgets an earlier append |
| AIContext.SetSelectedModel | src/contexts/AIContext.tsx:62 | Only the selected model changes, to the given one, with no check against the catalog |
| AIContext.SetIsLoading | src/contexts/AIContext.tsx:70 | Only the loading flag changes, to the given value |
| AIContext.SetSelectedTemplate | src/contexts/AIContext.tsx:91 | Only the selected template changes, to the given one or none, with no check against the catalog |
| Text.TrimEmptyIffBlank | src/components/PromptEditor.tsx:38 | A prompt trims to the empty string exactly when every character is ECMAScript whitespace or a line terminator |
| Text.IncludesScanCorrect | src/components/ModelSelector.tsx:43-46 | A left-to-right scan finds a pattern exactly when the pattern occurs at some position. This is what `includes` tests |
| Text.DecimalRoundTrip | src/contexts/AIContext.tsx:100 | Parsing the decimal rendering of any integer clock value gives that value back |
| Text.DecimalInjective | src/contexts/AIContext.tsx:100 | Two clock values render to the same id text exactly when they are equal |
| PromptEditor.EchoFragment | src/components/PromptEditor.tsx:47 | The echoed fragment is a prefix of the prompt of length min(50, prompt length), and it is the whole prompt when the prompt has at most 50 characters |
| PromptEditor.EchoRoundTrip | src/components/PromptEditor.tsx:44-48 | The fragment can be read back out of the reply text. Two prompts get the same reply exactly when their echoed fragments agree |
| PromptEditor.Submit | src/components/PromptEditor.tsx:36-53 | A blank prompt or a pending reply changes nothing. Otherwise: one user message with the untrimmed prompt is appended, loading is set, a reply for that prompt is scheduled and the input is emptied. The selected template and every other field are kept |
| PromptEditor.SubmitButtonMatchesHandler | src/components/PromptEditor.tsx:144-147 | The Send button is enabled exactly when the prompt is not blank and nothing is loading, which is exactly when pressing it appends a message |
| PromptEditor.Complete | src/components/PromptEditor.tsx:43-50 | The timer firing appends one assistant message echoing the prompt it captured and clears loading. The editor text and every other field are kept |
| PromptEditor.SubmitThenComplete | src/components/PromptEditor.tsx:36-53 | An accepted submit plus its completion grows the transcript by exactly two, user prompt then echo, over an unchanged prefix. It ends idle with an empty input. The two new ids coincide exactly when the clock readings do |
| PromptEditor.SelectTemplate | src/components/PromptEditor.tsx:55-59 | The chosen template becomes selected and its text fills the editor. Nothing else changes |
| PromptEditor.ClearPrompt | src/components/PromptEditor.tsx:61-65 | The editor is emptied and the template is deselected. Nothing else changes |
| PromptEditor.EditPrompt | src/components/PromptEditor.tsx:122-130 | Typing replaces the prompt text, except while loading, when the disabled textarea ignores input |
| PromptEditor.TemplateBanner | src/components/PromptEditor.tsx:115-119 | The "Using template" banner appears exactly when a template is selected and shows its name |
| ChatInterface.ShareTextGrows | src/components/ChatInterface.tsx:43 | The share text of no messages is empty and of one message is its `role: content` entry. Each further message adds a blank line and its entry at the end, so entries follow list order |
| ChatInterface.ShareTextNotInjective | src/components/ChatInterface.tsx:43 | Distinct transcripts can flatten to the same share text, because contents may contain the separator |
| ChatInterface.ShareChat | src/components/ChatInterface.tsx:42-51 | With no share surface nothing happens. Otherwise the share surface receives the title and share text, and the clipboard gets exactly that text if and only if the share rejects. Nothing else is emitted: at most one share call and one clipboard write |
| ChatInterface.CopyMessage | src/components/ChatInterface.tsx:22-24 | A message's Copy button writes exactly that message's content to the clipboard |
| ChatInterface.ExportFileNameRoundTrip | src/components/ChatInterface.tsx:37 | The export file name `intellisync-chat-<millis>.json` gives the clock reading back when parsed. Distinct readings give distinct names |
| ChatInterface.DownloadChat | src/components/ChatInterface.tsx:26-40 | The download snapshot holds the current list unchanged, in the same order and at the same length. It carries the timestamp reading. Its file name is exactly `intellisync-chat-` + the decimal clock reading + `.json`, and it parses back to that reading |
| ChatInterface.RenderFacts | src/components/ChatInterface.tsx:60-180 | The badge and the Export/Share/Clear buttons appear exactly for a non-empty list, and the badge shows its length. The placeholder appears exactly when the list is empty and nothing is loading. The thinking row appears exactly while loading. All messages are rendered in order, and the placeholder and thinking row never appear together |
| ModelSelector.GetModelIconIsFirstMatch | src/components/ModelSelector.tsx:42-48 | The icon is that of the first of `gpt-4`, `gpt-3.5`, `claude`, `gemini` the id includes, and the default when it includes none |
| ModelSelector.CatalogIcons | src/components/ModelSelector.tsx:15-48 | The four catalog ids are pairwise distinct and fall into four distinct non-default icon categories |
| ModelSelector.EnsureDefaultModel | src/components/ModelSelector.tsx:53-57 | With no model selected, the effect selects `gpt-4-turbo`, the first catalog entry. Otherwise the state is left alone |
| ModelSelector.EnsureDefaultModelSettles | src/components/ModelSelector.tsx:53-57 | After the effect a model is always selected, and running the effect again changes nothing |
| ModelSelector.ChooseModel | src/components/ModelSelector.tsx:93-97 | Clicking a menu item selects exactly that catalog entry. Nothing else changes |
| ModelSelector.TriggerLabel | src/components/ModelSelector.tsx:75 | The trigger shows "Select Model" when no model is selected or when its name is empty, and otherwise shows the model's name |
| ModelSelector.TriggerIcon | src/components/ModelSelector.tsx:72 | The trigger shows an icon exactly when a model is selected, classified by that model's id |
| ModelSelector.CatalogLabels | src/components/ModelSelector.tsx:75 | Every catalog model, once chosen, labels the trigger with its own name |
| ParametersPanel.SingleKeyPartial | src/components/ParametersPanel.tsx:73 | A slider's update carries exactly one key, its own, holding the given value |
| ParametersPanel.OnValueChange | src/components/ParametersPanel.tsx:73 | Moving slider k sets parameter k to the value as given. Every other parameter and every other field is kept |
| ParametersPanel.ConfigCoversEachKeyOnce | src/components/ParametersPanel.tsx:12-49 | The slider table has four entries whose keys are exactly the four parameters, with none repeated |
| ParametersPanel.RangesWellFormed | src/components/ParametersPanel.tsx:12-49 | Every configured range has min below max and a positive step |
| ParametersPanel.DefaultsWithinRanges | src/components/ParametersPanel.tsx:12-49 | The provider's default parameter values lie within the slider ranges |
| ParametersPanel.SliderKeepsRanges | src/components/ParametersPanel.tsx:72-78 | An in-range slider move keeps every parameter in range. An out-of-range value is stored as given, so the state holder enforces nothing |
| Workspace.StepKeepsReachable | src/components/PromptEditor.tsx:36-53 | Every action the page can issue preserves the invariant. The invariant says: templates are the built-in ones, at most one reply is outstanding, loading holds exactly while one is outstanding, and parameters stay in slider range |
| Workspace.RunKeepsReachable | src/components/PromptEditor.tsx:36-53 | Any run of enabled actions from a reachable state ends in a reachable state |
| Workspace.EveryRunKeepsInvariant | src/components/PromptEditor.tsx:36-53 | From a freshly mounted page, whatever the user does: the templates never change, at most one reply is outstanding, loading always has a timer due to end it, an idle page has none pending, and parameters stay in range |
| Workspace.ClearDoesNotCancelReply | src/components/PromptEditor.tsx:43-50 | Clearing the transcript while a reply is pending does not cancel it. The reply becomes the only message |

## Left out

- JSX layout, styling and icons, the header, the theme toggle and the page's grid are left out. The page composition appears only as the `Workspace` action set.
- React re-rendering, hook identity and effect scheduling are left out. State is an explicit record, and the default-model effect is an action the page may issue at any time.
- Real time is left out. The two-second delay is the `Complete` step, which may run at any point after its submit.
- `Blob`, `URL.createObjectURL`, anchor clicks, `navigator.clipboard` and `navigator.share` are foreign calls. They appear only as emitted effects, and the clipboard promise's outcome is ignored, as in the code.
- `JSON.stringify` formatting and the `toISOString` / `toLocaleTimeString` renderings are left out. Timestamps stay integer milliseconds.
- AIContext.NewMessage: ids use the decimal form, which is exact only below 10^21 in magnitude, where JavaScript switches to exponent notation. Clock readings (at most 8.64 * 10^15 by the range of `Date`) never reach it.
- AIContext.MergeParameters: parameters are reals, so floating-point rounding of slider values is not modelled. A partial key that is present but explicitly `undefined` is not modelled either. The type allows it and the spread would store `undefined`, but no caller produces one.
- PromptEditor.EchoFragment: lengths count Unicode scalar values. JavaScript's `substring` counts UTF-16 code units and can split a surrogate pair.
- The text area's focus calls after template select and clear are left out. They have no effect on state.
- The "Save Template" button (`src/components/PromptEditor.tsx:133-142`) has no handler, so only its rendering exists. It is left out.
- The provider line under the trigger label (`src/components/ModelSelector.tsx:78`) is pure rendering and is left out.
- `src/contexts/ThemeContext.tsx` is not part of this model.
