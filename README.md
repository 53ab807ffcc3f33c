# Project Sage Estimator — a Dafny model of its deterministic core

Project Sage Estimator is a web app. It turns a free-text project description into a breakdown of features with user stories, technical components and estimates. It can also turn that breakdown into a build prompt for an AI coding assistant.

Most of the app is rendering and calls to a hosted language model. This project models the parts whose behaviour can be stated without those calls:

- **The build prompt.** The "Build with Lovable" dialog assembles the prompt text (`LovablePrompt`). `GeneratePrompt` appends with loops, as the source does. It is proved equal to `PromptText`, a section-by-section definition. The layout lemmas are stated about that definition.
- **The project form's generate handler** (`ProjectInput`):
  - the blank-input guard, with ECMAScript `trim`;
  - the most-recently-used list of recent prompts, which holds at most five entries.
- **The summary card's totals** (`ProjectSummary`). This is a left fold. It is proved equal to the sums over the estimations that are present, and proved additive over concatenation.
- **The technical-constraints card** (`TechnicalConstraints`):
  - `split('\n').filter(Boolean)`, with JavaScript's split semantics and a join/split round trip;
  - the Refine / typing / Cancel / Save state of the card, as a class.
- **The recent-prompts card** (`RecentPrompts`). An empty list renders nothing. Labels are cut to 100 characters plus `...`. Selecting a button passes on the full description.
- **The loading dialog** (`LoadingDialog`). Its message index advances modulo 4 and always stays in bounds.
- **The global store** (`Store`). It has two fields and two setters.
- **Two edge functions**, `generate-lovable-prompt` (`LovablePromptFunction`) and `generate-breakdown` (`BreakdownFunction`). Each is a function of:
  - the request;
  - the configured API key;
  - what the model call returned;
  - the message of any exception the runtime raises.

  The JSON values they read are modelled in `Json`, together with JavaScript truthiness and property reads that throw on `null`/`undefined`. The request and response are in `Http`. The JSON form of the app's types is in `ProjectJson`.

Shared modules:

- `Wrappers`: `Option`.
- `ProjectTypes`: `UserStory`, `Breakdown` and `Estimation`, from `src/types/project.ts`.
- `Decimal`: the `${n}` rendering of feature numbers, with its round trip.
- `Strings`: concatenation lemmas.

The generated breakdown is not checked against the app's own `Breakdown` shape:

- `Breakdown` (src/types/project.ts:13-16) requires both `features` and `technicalComponents`.
- generate-breakdown asks the model, in its system prompt (supabase/functions/generate-breakdown/index.ts:39-53), for components inside each feature, not for a top-level list.
- Its shape check (line 87) tests only that `features` is an array, so an answer without `technicalComponents` is passed on (`BreakdownFunction.ComponentsNotChecked`).

## Model

| member | source | states |
|---|---|---|
| Decimal.DecimalString | src/components/BuildWithLovableModal.tsx:56 | the feature number `${index + 1}` is a non-empty string of decimal digits with no leading zero |
| Decimal.DecimalRoundTrip | src/components/BuildWithLovableModal.tsx:56 | reading the rendered number back gives the number |
| Decimal.DecimalStringInjective | src/components/BuildWithLovableModal.tsx:56 | distinct features get distinct numbers in the text |
| LovablePrompt.GeneratePrompt | src/components/BuildWithLovableModal.tsx:46-80 | the string grown by `+=` through the feature, story and component loops is exactly the section-by-section prompt text |
| LovablePrompt.AppendFeature | src/components/BuildWithLovableModal.tsx:55-67 | one feature callback appends the numbered line, the stories heading and one line per story in order when there are stories, then an empty line |
| LovablePrompt.PromptStartsWithIntro | src/components/BuildWithLovableModal.tsx:49 | the prompt always begins with the fixed sentence, the description and a blank line |
| LovablePrompt.PromptEndsWithClosing | src/components/BuildWithLovableModal.tsx:80 | the prompt always ends with the React/Typescript/Tailwind instruction |
| LovablePrompt.FeaturesSectionPresence | src/components/BuildWithLovableModal.tsx:52-53 | the features section is present exactly when there is a breakdown with a feature, and it starts with its heading |
| LovablePrompt.TechSectionPresence | src/components/BuildWithLovableModal.tsx:71-77 | the technical section is present exactly when there is a breakdown with a component; it starts with its heading and ends with a line break |
| LovablePrompt.FeatureBlockLayout | src/components/BuildWithLovableModal.tsx:56-66 | feature `i` opens with `{i+1}. {name}: {description}` and a line break, has a stories block exactly when it has stories (opening with `   User Stories:`), and ends with a line break |
| LovablePrompt.PromptWithoutBreakdown | src/components/BuildWithLovableModal.tsx:46-80 | with no breakdown the prompt is exactly the intro followed by the closing sentence |
| ProjectInput.BlankIffAllWhiteSpace | src/components/ProjectInput.tsx:41 | the guard rejects exactly the descriptions made only of ECMAScript white space and line terminators |
| ProjectInput.RecordPrompt | src/components/ProjectInput.tsx:47-48 | after recording, the description is in the list; a known description leaves the list as it was; a new one goes first in a list of at most five |
| ProjectInput.RecordNewPrompt | src/components/ProjectInput.tsx:48 | a new description is followed by the first four old entries in their old order, and the rest are dropped |
| ProjectInput.RecordPromptBounded | src/components/ProjectInput.tsx:48 | a list of at most five entries stays at most five |
| ProjectInput.RecordPromptKeepsDistinct | src/components/ProjectInput.tsx:47-48 | a list without duplicates stays without duplicates |
| ProjectInput.ProjectInputState.SetProjectDescription | src/components/ProjectInput.tsx:115 | typing replaces the description |
| ProjectInput.ProjectInputState.HandleGenerate | src/components/ProjectInput.tsx:40-49 | a blank description changes nothing; otherwise loading starts at message 0 and the list becomes the recorded list, which then contains the description; the at-most-five, no-duplicates invariant is kept |
| ProjectSummary.ReduceAddsSums | src/components/ProjectSummary.tsx:11-19 | folding from any accumulator adds the sums of hours and cost of the present estimations |
| ProjectSummary.TotalsAreSums | src/components/ProjectSummary.tsx:10-20 | the totals are the sums of `estimation.hours` and `estimation.cost` over the features that have an estimation; with none, both are 0 |
| ProjectSummary.ReduceAppend | src/components/ProjectSummary.tsx:11-19 | folding over `a + b` is folding over `a`, then over `b` |
| ProjectSummary.TotalsAppend | src/components/ProjectSummary.tsx:10-20 | the totals of `a + b` are the componentwise sums of the totals of `a` and of `b` |
| ProjectSummary.UnestimatedFeatureIgnored | src/components/ProjectSummary.tsx:12-18 | a feature without an estimation, at any position, changes neither total |
| ProjectSummary.ReduceByField | src/components/ProjectSummary.tsx:11-19 | the hours total is a sum of per-feature hours alone, and the cost total a sum of per-feature costs alone |
| ProjectSummary.TotalsFieldIndependence | src/components/ProjectSummary.tsx:14-15 | lists that agree on every feature's hours agree on the hours total; the same holds for cost |
| TechnicalConstraints.Split | src/components/TechnicalConstraints.tsx:21 | `split('\n')` gives at least one piece, and no piece contains the separator |
| TechnicalConstraints.NonEmpty | src/components/TechnicalConstraints.tsx:21 | `filter(Boolean)` keeps no empty string and never lengthens the list |
| TechnicalConstraints.ParseConstraints | src/components/TechnicalConstraints.tsx:21 | no listed constraint is empty or contains a line break |
| TechnicalConstraints.JoinSplit | src/components/TechnicalConstraints.tsx:21 | joining the split pieces with the separator gives the text back |
| TechnicalConstraints.SplitJoin | src/components/TechnicalConstraints.tsx:21 | separator-free pieces, joined, split back into exactly those pieces |
| TechnicalConstraints.ParseJoinedConstraints | src/components/TechnicalConstraints.tsx:21 | non-empty, newline-free constraints joined with a line break (as the form stores them) are listed back exactly, in order |
| TechnicalConstraints.ParsedAreLines | src/components/TechnicalConstraints.tsx:21 | the lines rejoin to the text, and a string is listed if and only if it is a non-empty line |
| TechnicalConstraints.NonEmptyAppend | src/components/TechnicalConstraints.tsx:21 | `filter(Boolean)` keeps order: the kept entries of `a + b` are those of `a` followed by those of `b` |
| TechnicalConstraints.ParseLineThenRest | src/components/TechnicalConstraints.tsx:21 | a first line followed by the rest of the text lists that line (when non-empty) and then what the rest lists, in order |
| TechnicalConstraints.ConstraintsCard.constructor | src/components/TechnicalConstraints.tsx:13-14 | the card starts out of editing mode, with the edit text set to the first prop |
| TechnicalConstraints.ConstraintsCard.ReceiveProp | src/components/TechnicalConstraints.tsx:12 | a new prop replaces the text; the state cells keep their values |
| TechnicalConstraints.ConstraintsCard.Refine | src/components/TechnicalConstraints.tsx:32-35 | Refine enters editing mode with the edit text reset to the prop |
| TechnicalConstraints.ConstraintsCard.EditText | src/components/TechnicalConstraints.tsx:47 | typing replaces the edit text only |
| TechnicalConstraints.ConstraintsCard.Cancel | src/components/TechnicalConstraints.tsx:54-57 | Cancel leaves editing mode and restores the edit text to the prop; the list from the prop is shown |
| TechnicalConstraints.ConstraintsCard.Save | src/components/TechnicalConstraints.tsx:16-19 | Save only leaves editing mode; the edit text is kept but the list shown is still parsed from the prop |
| TechnicalConstraints.RefineEditSave | src/components/TechnicalConstraints.tsx:16-21 | whatever is typed between Refine and Save, the list shown afterwards is the list shown before |
| RecentPrompts.Label | src/components/RecentPrompts.tsx:25-27 | a description of at most 100 characters is shown unchanged; a longer one as its first 100 characters and `...`, 103 in all |
| RecentPrompts.LabelBounds | src/components/RecentPrompts.tsx:25-27 | every label is at most 103 characters and starts with the first min(100, length) characters of the description |
| RecentPrompts.RenderRecentPrompts | src/components/RecentPrompts.tsx:12-28 | nothing is rendered exactly when the list is empty; otherwise one button per prompt, in order, keyed by id, labelled by `Label`, selecting the full description |
| LoadingDialog.NextIndex | src/components/LoadingDialog.tsx:19 | a step stays below 4; it increments below 3 and wraps from 3 to 0 |
| LoadingDialog.AdvanceIsModular | src/components/LoadingDialog.tsx:6-25 | after any number of steps from a valid index, the index is `(start + steps) % 4`, so the lookup at line 25 is in bounds |
| LoadingDialog.FourTicksCycle | src/components/LoadingDialog.tsx:19 | four steps return the index to where it started |
| LoadingDialog.LoadingDialogState.constructor | src/components/LoadingDialog.tsx:14 | the index starts at 0 |
| LoadingDialog.LoadingDialogState.SetOpen | src/components/LoadingDialog.tsx:13-23 | a change of the `open` prop leaves the index as it is |
| LoadingDialog.LoadingDialogState.Tick | src/components/LoadingDialog.tsx:17-21 | an interval tick advances the index by one step while the dialog is open, and keeps it in bounds |
| LoadingDialog.LoadingDialogState.CurrentMessage | src/components/LoadingDialog.tsx:25 | the message looked up is always one of the four messages |
| Store.AppStore.constructor | src/store/index.ts:14-15 | the store starts with no breakdown and an empty description |
| Store.AppStore.SetBreakdown | src/store/index.ts:16 | `setBreakdown(b)` sets the breakdown to `b` and leaves the description alone |
| Store.AppStore.SetProjectDescription | src/store/index.ts:17 | `setProjectDescription(d)` sets the description to `d` and leaves the breakdown alone |
| Store.SetBreakdownLastWins | src/store/index.ts:16 | of two breakdowns set in turn the second is kept; setting the same one twice equals setting it once |
| Store.SetBothFields | src/store/index.ts:16-17 | the two setters commute |
| LovablePromptFunction.ProjectFeature | supabase/functions/generate-lovable-prompt/index.ts:42-46 | the projection of a feature throws only on `null`; it is an object holding only `name`, `description` and `userStories`, each copied when present |
| LovablePromptFunction.ProjectFeatures | supabase/functions/generate-lovable-prompt/index.ts:42-46 | the `map` throws exactly when a feature is `null`; otherwise each feature is projected, in order |
| LovablePromptFunction.BreakdownData | supabase/functions/generate-lovable-prompt/index.ts:41-48 | the projection succeeds exactly when `features` is an array without `null`; the result has exactly the keys `features` (feature `i` is the projection of input feature `i`) and `technicalComponents` (the input's when truthy, else `[]`) |
| LovablePromptFunction.Prepare | supabase/functions/generate-lovable-prompt/index.ts:14-48 | early answers are 200, 400 or 500; the model is called only with a readable body, both parameters truthy and the key set |
| LovablePromptFunction.ReadReply | supabase/functions/generate-lovable-prompt/index.ts:87-101 | reading the reply throws only on `null`; with `choices[0].message` present it gives 200 and `{prompt: choices[0].message.content}`; a reply whose `choices` is absent, falsy or an array without that message gives the invalid-reply 500 |
| LovablePromptFunction.Handle | supabase/functions/generate-lovable-prompt/index.ts:12-109 | every answer is 200, 400 or 500, and every non-200 answer carries an `error` field |
| LovablePromptFunction.MissingParametersAnswer | supabase/functions/generate-lovable-prompt/index.ts:23-29 | the 400 answer comes exactly when a readable body lacks a truthy description or breakdown, whatever the key and the model reply |
| LovablePromptFunction.MissingKeyAnswer | supabase/functions/generate-lovable-prompt/index.ts:32-38 | with both parameters present and no key, the answer is the 500 key error |
| LovablePromptFunction.ModelCalledWhen | supabase/functions/generate-lovable-prompt/index.ts:14-48 | the model is called exactly when the request is not a preflight, the parameters are present, the key is set and the breakdown can be projected |
| LovablePromptFunction.ReplyWithMessage | supabase/functions/generate-lovable-prompt/index.ts:89-101 | any reply with `choices[0].message`, whatever its other keys, gives status 200 and `{prompt: choices[0].message.content}` |
| LovablePromptFunction.ReplyStatusExactly | supabase/functions/generate-lovable-prompt/index.ts:89-95 | for a reply whose `choices` is absent, falsy or an array, status 200 comes exactly when `choices[0].message` is there; otherwise the answer is the 500 "Failed to get valid response from OpenAI" |
| LovablePromptFunction.WellFormedReply | supabase/functions/generate-lovable-prompt/index.ts:97-102 | a completion reply with any extra keys and `choices: [{index, message: {role, content}, finish_reason}]` gives `{prompt: content}` with status 200 |
| LovablePromptFunction.EmptyChoicesAnswer | supabase/functions/generate-lovable-prompt/index.ts:89-95 | a reply with `choices: []` gives the invalid-reply 500 |
| LovablePromptFunction.ProjectFeatureDropsEstimation | supabase/functions/generate-lovable-prompt/index.ts:42-46 | a feature in the app's shape is forwarded as the same feature without its estimation |
| LovablePromptFunction.BreakdownDataOfBreakdown | supabase/functions/generate-lovable-prompt/index.ts:41-48 | a breakdown in the app's shape reaches the model as the same breakdown with every estimation removed and its components unchanged |
| LovablePromptFunction.ComponentsDefaultToEmpty | supabase/functions/generate-lovable-prompt/index.ts:47 | absent or falsy technical components are sent as `[]` |
| BreakdownFunction.CheckBreakdown | supabase/functions/generate-breakdown/index.ts:84-93 | the inner check accepts exactly when the content can be read, parses, and has a `features` array; it then yields the parsed value, and otherwise fails with "Invalid response format from AI" |
| BreakdownFunction.ErrorText | supabase/functions/generate-breakdown/index.ts:102 | the error text is never empty, and it is the thrown message whenever that is non-empty |
| BreakdownFunction.Handle | supabase/functions/generate-breakdown/index.ts:12-109 | every answer is 200 or 500; each 500 has a non-empty string `error`; each non-preflight 200 body has a `features` array |
| BreakdownFunction.MissingKeyAnswer | supabase/functions/generate-breakdown/index.ts:20-23 | without a key the answer is the key error, whatever the description |
| BreakdownFunction.InvalidDescriptionAnswer | supabase/functions/generate-breakdown/index.ts:25-28 | with the key set, a missing, empty or non-string description gives "Invalid project description" |
| BreakdownFunction.DescriptionOnlyGates | supabase/functions/generate-breakdown/index.ts:25-28 | given the same model reply, two valid descriptions get the same answer: past the check, the handler reads only the reply |
| BreakdownFunction.RejectedCallAnswer | supabase/functions/generate-breakdown/index.ts:75-79 | a non-ok model answer with a JSON body gives "Failed to generate project breakdown" |
| BreakdownFunction.AcceptedExactly | supabase/functions/generate-breakdown/index.ts:84-97 | a non-preflight 200 comes exactly when every check passes and the parsed content has a `features` array; the body is then that parsed content, unchanged |
| BreakdownFunction.MalformedContentAnswer | supabase/functions/generate-breakdown/index.ts:84-93 | any reply whose content cannot be read, does not parse, or parses without a `features` array gives "Invalid response format from AI" |
| BreakdownFunction.ContentOfCompletion | supabase/functions/generate-breakdown/index.ts:86 | in a completion reply with any extra keys, `choices[0].message.content` reads the message content |
| BreakdownFunction.EmptyMessageFallback | supabase/functions/generate-breakdown/index.ts:98-108 | an exception with an empty message is answered with "Failed to generate project breakdown" |
| BreakdownFunction.BreakdownPassedThrough | supabase/functions/generate-breakdown/index.ts:95-97 | any reply whose content parses to a breakdown in the app's shape is passed on unchanged with status 200 |
| BreakdownFunction.ComponentsNotChecked | supabase/functions/generate-breakdown/index.ts:87 | any reply whose content parses to an object with only an empty `features` array is accepted without `technicalComponents` |

## Left out

- React rendering, JSX, styling and the purely presentational components (the Open Graph image, the consultation iframe, the text-area wrapper, the feature card) are not modelled. They hold no logic beyond markup.
- The export, auth dialog and auth page are left out. They only show toasts or call the auth client.
- The calls to the language model are inputs, not behaviour. The lovable-prompt handler takes the reply body (`None` when the call or the read throws). The breakdown handler takes a `ModelReply`. The `generate-estimate` function (prompt text plus a call) and the page's call into it are not part of this model.
- The credential functions (`encrypt-azure-pat`, `get-azure-pat`) are left out. They are table reads and writes and the runtime's base64 builtins.
- `JSON.parse` and `JSON.stringify` are left out. A request body that fails to parse is `None`. The parse of the model's content is the parameter `parse`. Stringifying is replaced by the `Json` value itself, with undefined properties omitted.
- The texts of runtime exceptions (a `TypeError` from reading a property of `null`, a parse error) are left out. They come in as the single parameter `runtimeMessage`.
- The CORS and content-type headers, console logging, and the system and user prompts sent to the model are not modelled.
- Timers are left out: the one-second delay before the prompt appears, the three-second simulated call with its fixed sample breakdown, and the two-second message interval (modelled as explicit `Tick` calls). The clipboard and `window.open` are left out as well.
- The `isGenerating` / `generatedPrompt` state of the prompt dialog is not modelled. Only the string it stores is: `GeneratePrompt`'s result.
- Hours, costs and JSON numbers are unbounded integers. Floating point, NaN and fractional numbers are not represented.
- The `OPENAI_API_KEY` value is a parameter (`apiKey`), since the environment is read once at start-up.
- RecentPrompts.Label: lengths count Unicode code points. JavaScript's `length` and `slice` count UTF-16 code units, so labels of descriptions with characters outside the Basic Multilingual Plane can differ.
- ProjectInput.ProjectInputState.HandleGenerate: the setters after the simulated delay (breakdown, user stories, constraints, features, loading off) are not modelled. They install fixed sample data.
- BreakdownFunction.DescriptionOnlyGates: the description is sent to the model, so in reality it shapes the reply. The model takes the reply as given, and the lemma states only that the handler itself does not read the description past the check.
- Json.GetProp: reads of the keys the handlers use give `undefined` on numbers, strings, booleans and arrays. None of those keys names a built-in property.
