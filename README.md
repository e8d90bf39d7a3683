# Ryze: a verified model of the UI-generation core

Ryze turns a chat prompt into a small React UI built only from a fixed set of
components. A *planner* language model answers with a JSON *UI plan*. The
validator checks that plan against the component registry. The generator
then turns a valid plan into JSX source text, and an *explainer* model
describes the result. This project models that pipeline in Dafny and
proves properties of it:

- `registry.dfy` (module `Registry`): the five component kinds (Button,
  Card, Input, Table, Layout), the props each allows, and the closed value
  lists of Button's `variant` and `size` and Input's `type`.
- `validation.dfy` (module `Validation`):
  - `validatePlan` and `validateNode` are methods that push onto a shared
    error list (`ErrorList`). Each is proved equal to a pure error-list
    function (`PlanErrors`, `NodeErrors`).
  - Those functions are characterised by lemmas: every message carries
    the path of the node it is about; each offending key and each
    offending prop gets its own error; an empty list holds exactly for the
    whitelist predicate `ValidPlan`.
  - `pickAllowedProps` is a loop proved equal to a projection that keeps
    exactly the allowed keys, in the registry's order, with their values
    unchanged.
- `generator.dfy` (module `Generator`): `generateReactCode` and
  `renderComponent`. An invalid plan yields the diagnostic stand-in with the
  validator's errors. A valid plan yields the import header, a root
  `Layout` of the plan's type, and one element per component. An element is
  self-closing exactly when it has no children, and it carries only
  sanitized props.
- `route.dfy` (module `Route`): the `/api/agents` endpoint.
  - The request guards run in order: agent, then input, then the
    prompt-injection screen.
  - `buildSystemPrompt` and `parsePlannerResponse`: a strict parse, with a
    fallback to the outermost `{` … `}`.
  - For the planner, a reply that fails to parse becomes a 500, and a plan
    that fails validation becomes a 400 listing the errors; a valid plan is
    re-serialised.
  - `streamText` is a loop that cuts the text into 64-character chunks,
    proved to lose nothing.
- `page.dfy` (module `Page`): the page component as a class `Session`
  whose fields are the page's `useState` values.
  - Its handlers (send, generate, rollback, new session, theme) are
    methods that keep one invariant: the conversation is always the
    transcript of the version history, and the selected version holds the
    current plan.
  - The theme cycle, the effective theme and the client's copy of the
    reply parser are pure functions.
  - `SameAsServer` proves the client's parser is the same function as the
    server's.
- `strings.dfy`, `json.dfy`, `wrappers.dfy`: the JavaScript string
  operations the core uses (`trim`, `join`, `slice`, `indexOf`,
  `lastIndexOf`, `includes`, ASCII `toLowerCase`, and `replace` with a
  string pattern, including its `$` patterns), JSON values as `JSON.parse`
  yields them, and `Option`/`Result`.

The outside world enters as parameters:

- The language model is a function from the two prompts to a reply or an
  error message.
- The page's `callAgentStream` is a function from the request body to the
  text the stream delivers, or the error it throws.
- `JSON.parse` and the two `JSON.stringify` forms are functions.
- The version id and timestamp, and the stored theme and media query, are
  values passed in.

One consequence of the design is proved rather than assumed.
`PlannerAlwaysGetsContext` shows that the page always sends the planner a
nonempty context. The endpoint therefore always takes its "current plan"
branch, so its own "No current UI plan" note is never used. With no plan,
the planner sees the endpoint's "CURRENT UI PLAN" header followed by the
page's "No current UI plan" note. With a plan, it sees that header twice.

JSON objects are modelled as the sequence of their own properties in
enumeration order. Objects that `JSON.parse` produces never repeat a key,
and lookup takes the first entry.

## Model

| member | source | states |
|---|---|---|
| Registry.KindOf | src/components/lib/registry.ts:34 | a name resolves to a kind exactly when it is that kind's registry key |
| Registry.SpecFor | src/components/lib/registry.ts:6-32 | every prop with a closed value list is an allowed prop of that kind; no prop is listed twice or restricted twice |
| Registry.LayoutTypes | src/components/lib/registry.ts:26-31 | Layout's `type` accepts exactly grid, flex and sidebar-layout, in that order |
| Registry.KindsClosed | src/components/lib/registry.ts:6-34 | the registry has exactly the five kinds, each once; exactly their names resolve, and each name resolves to its own kind |
| Registry.EnumeratedValues | src/components/lib/registry.ts:7-25 | Button restricts variant and size to three values each; Input restricts type to its seven values; Card and Table restrict nothing |
| JsonModel.KeyIndex | src/components/lib/validation.ts:69 | the first entry with the key, or -1 exactly when no entry has it |
| JsonModel.Get | src/components/lib/validation.ts:35 | a value is found exactly when the key is present, and it is that key's value |
| JsonModel.Keys | src/components/lib/validation.ts:83 | `Object.keys`: one key per property, in property order |
| JsonModel.GetString | src/components/lib/validation.ts:70 | a string is found exactly when the property is present and holds a string |
| Strings.Trim | src/app/api/agents/route.ts:31 | `trim`: the result is no longer than the input and neither starts nor ends with whitespace; `TrimExact` states which infix of the input it is |
| Strings.Contains | src/app/api/agents/route.ts:113 | `includes`; by `ContainsIff`, true exactly when the pattern occurs at some position |
| Strings.ReplaceFirst | src/app/api/agents/route.ts:99 | `replace` with a string pattern; `ReplaceFirstAbsent` and `ReplaceFirstAt` state that only the first occurrence is rewritten, with the `$` patterns expanded |
| Strings.NonBlankTrim | src/app/api/agents/route.ts:31 | a string that starts with a non-whitespace character trims to a nonempty string |
| Strings.TrimIdempotent | src/app/page.tsx:151 | trimming twice equals trimming once |
| Strings.Join | src/components/lib/agents/generator.ts:27 | joining no parts gives the empty string; otherwise the result starts with the first part and ends with the last |
| Strings.NatToStringRoundTrip | src/components/lib/validation.ts:126 | the decimal index in a path reads back as the index, so distinct children get distinct paths |
| Strings.Lower | src/app/api/agents/route.ts:112 | lower-casing keeps the length and maps each ASCII capital to its small letter |
| Strings.LowerIdempotent | src/app/api/agents/route.ts:112 | lower-casing twice equals lower-casing once |
| Strings.IndexOfChar | src/app/api/agents/route.ts:256 | the first position of the character, or -1 exactly when it does not occur |
| Strings.LastIndexOfChar | src/app/api/agents/route.ts:257 | the last position of the character, or -1 exactly when it does not occur |
| Strings.Slice | src/app/api/agents/route.ts:261 | `slice` with clamped bounds: the range when it is inside the string, empty when the range is empty |
| Strings.ContainsIff | src/app/api/agents/route.ts:113 | `includes` holds exactly when the pattern occurs at some position |
| Strings.SubstitutionLiteral | src/app/api/agents/route.ts:99 | a replacement without `$` is inserted verbatim |
| Strings.ReplaceFirstAbsent | src/app/api/agents/route.ts:99 | `replace` with a pattern that does not occur changes nothing |
| Strings.ReplaceFirstAt | src/app/api/agents/route.ts:99 | `replace` rewrites only the first occurrence of the pattern |
| Validation.PlanErrors | src/components/lib/validation.ts:24-44 | the errors `validatePlan` returns; `PlanErrorsEmptyIff` states they are empty exactly for a valid plan, with the exact texts stated by `RootNotObject`, `LayoutReported` and `ComponentsNotArrayReported` |
| Validation.NodeErrors | src/components/lib/validation.ts:63-130 | the errors `validateNode` pushes for a node and its subtree; `NodeErrorsEmptyIff` and `NodeErrorsQualified` characterise them |
| Validation.PropErrors | src/components/lib/validation.ts:83-119 | the prop errors of one node in the source's order; `PropErrorsEmptyIff` characterises them |
| Validation.ChildrenErrors | src/components/lib/validation.ts:125-127 | the errors of the first n children, child by child; `ChildrenErrorsEmptyIff` and `ChildrenErrorsQualified` characterise them |
| Validation.NodeKind | src/components/lib/validation.ts:69-73 | a node has a kind exactly when its `type` is a string naming a registered kind |
| Validation.PropsOf | src/components/lib/validation.ts:76 | absent or null props count as the empty object; other props are taken as given |
| Validation.UnknownPropErrorsSpec | src/components/lib/validation.ts:83-87 | each key the kind does not allow gets its own error naming the key and the kind, and every error is one of these |
| Validation.EnumErrorsSpec | src/components/lib/validation.ts:89-98 | each restricted prop holding a string outside its list gets one error listing the allowed values, and nothing else is reported |
| Validation.StringTypeErrorsSpec | src/components/lib/validation.ts:100-104 | each of the six text props holding a non-string gets its own error, whatever the kind |
| Validation.TableErrors | src/components/lib/validation.ts:106-119 | headers and rows each get one error exactly when they are not a string array or an array of string arrays |
| Validation.NodeErrorsQualified | src/components/lib/validation.ts:63-130 | every message about a node or its subtree starts with that node's path |
| Validation.ChildrenErrorsQualified | src/components/lib/validation.ts:121-128 | every message about the i-th child starts with `path.children[` |
| Validation.IndexPathExtends | src/components/lib/validation.ts:126 | a child's path `prefix[i]` extends `prefix[` |
| Validation.PropErrorsEmptyIff | src/components/lib/validation.ts:83-119 | props raise no error exactly when every key is allowed, every restricted value is in its list, every text prop is a string, and a Table's headers and rows are well-formed |
| Validation.NodeErrorsEmptyIff | src/components/lib/validation.ts:63-130 | a node raises no error exactly when it is a valid node of the whitelist: an object of a registered kind with valid props and valid children |
| Validation.ChildrenErrorsEmptyIff | src/components/lib/validation.ts:125-127 | an array of nodes raises no error exactly when every element is a valid node |
| Validation.PlanErrorsEmptyIff | src/components/lib/validation.ts:24-44 | a plan raises no error exactly when it is an object with a registered layout type and an array of valid components |
| Validation.LayoutErrorText | src/components/lib/validation.ts:32 | the layout message lists the three layout types |
| Validation.RootNotObject | src/components/lib/validation.ts:27-29 | a non-object plan yields only "Plan must be an object." |
| Validation.LayoutReported | src/components/lib/validation.ts:31-33 | a bad layout is reported, as the first error, exactly when the layout is not a layout type |
| Validation.LayoutErrorDistinct | src/components/lib/validation.ts:32-36 | the layout message cannot be mistaken for a node message or for the components message |
| Validation.ComponentsNotArrayReported | src/components/lib/validation.ts:35-41 | when components is not an array, no node is visited and one components error follows any layout error |
| Validation.NodeNotObject | src/components/lib/validation.ts:64-67 | a non-object node adds exactly one error |
| Validation.NodeUnknownType | src/components/lib/validation.ts:69-73 | an unregistered type adds exactly one error, and props and children are not examined |
| Validation.NodePropsNotObject | src/components/lib/validation.ts:76-81 | props that are not an object add exactly one error, and the children are not visited |
| Validation.PickFrom | src/components/lib/validation.ts:54-58 | the loop of `pickAllowedProps` over the allowed keys; `PickFromSound`, `PickFromComplete` and `PickFromOrdered` characterise it |
| Validation.AllowedEntries | src/components/lib/validation.ts:46-61 | `pickAllowedProps` on `props ?? {}`; `AllowedEntriesSpec` characterises it |
| Validation.PickFromSound | src/components/lib/validation.ts:54-58 | every picked entry has an allowed key and the value the input held under it |
| Validation.PickFromComplete | src/components/lib/validation.ts:54-58 | every allowed key present in the input is picked |
| Validation.PickFromOrdered | src/components/lib/validation.ts:54-58 | picked keys follow the registry's order with no repetition |
| Validation.AllowedEntriesSpec | src/components/lib/validation.ts:46-61 | the safe props are exactly the present allowed keys with their input values, in registry order |
| Validation.AllowedEntriesOfNothing | src/components/lib/validation.ts:50-52 | absent or null props give no safe props |
| Validation.ErrorList.constructor | src/components/lib/validation.ts:25 | the error list starts empty |
| Validation.ErrorList.Push | src/components/lib/validation.ts:32 | one message is appended and nothing else changes |
| Validation.PushUnknownProps | src/components/lib/validation.ts:83-87 | the loop appends exactly the unknown-key errors, in key order |
| Validation.PushEnumErrors | src/components/lib/validation.ts:89-98 | the loop appends exactly the closed-value errors, in registry order |
| Validation.PushStringTypeErrors | src/components/lib/validation.ts:100-104 | the loop appends exactly the text-prop type errors, in property order |
| Validation.PushTableErrors | src/components/lib/validation.ts:106-119 | appends exactly the Table errors |
| Validation.PushPropErrors | src/components/lib/validation.ts:83-119 | appends the prop errors in the source's order: unknown keys, closed values, text types, Table shape |
| Validation.PushChildPart | src/components/lib/validation.ts:121-129 | appends the children error or the children's errors |
| Validation.PushChildren | src/components/lib/validation.ts:125-127 | the loop appends every child's errors, child by child |
| Validation.ValidateNode | src/components/lib/validation.ts:63-130 | appends exactly the node's specified errors, stopping early as the source does |
| Validation.ValidatePlan | src/components/lib/validation.ts:24-44 | the errors are exactly those specified for the plan, and the plan is valid exactly when there are none |
| Validation.PickAllowedProps | src/components/lib/validation.ts:46-61 | the loop returns exactly the specified safe props |
| Generator.RenderComponent | src/components/lib/agents/generator.ts:43-56 | `renderComponent`; `RenderShape`, `RenderedPropsAllowed` and `RenderStartsWithAngle` characterise it |
| Generator.GenerateReactCode | src/components/lib/agents/generator.ts:19-41 | `generateReactCode`; `InvalidPlanDiagnostic` and `ValidPlanCode` characterise it |
| Generator.KindNames | src/components/lib/agents/generator.ts:31 | the registry's kind names, one per kind, in registry order |
| Generator.KindNamesText | src/components/lib/agents/generator.ts:31 | the kind names are Button, Card, Input, Table, Layout |
| Generator.JoinKindNames | src/components/lib/agents/generator.ts:31 | the names joined with ", " |
| Generator.ImportLineText | src/components/lib/agents/generator.ts:31 | the import line names the five components from `@/components/lib` |
| Generator.Attributes | src/components/lib/agents/generator.ts:45-47 | one `key={literal}` attribute per safe prop, in order |
| Generator.RenderList | src/components/lib/agents/generator.ts:48 | one rendering per child |
| Generator.RenderedChildren | src/components/lib/agents/generator.ts:48 | the i-th rendering is the rendering of the i-th child, and every child is valid |
| Generator.ChildrenTextIsJoin | src/components/lib/agents/generator.ts:48 | the children text joins the children's renderings with a newline and indentation |
| Generator.RenderStartsWithAngle | src/components/lib/agents/generator.ts:51-55 | every rendering is nonempty and starts with `<` |
| Generator.JoinStartsWithFirst | src/components/lib/agents/generator.ts:49 | a join whose first part starts with `<` is not blank |
| Generator.HasChildrenIff | src/components/lib/agents/generator.ts:48-49 | the children text is non-blank exactly when the node has children |
| Generator.RenderShape | src/components/lib/agents/generator.ts:43-56 | a childless node renders as one self-closing tag; otherwise as open tag, children and closing tag of its kind |
| Generator.RenderedPropsAllowed | src/components/lib/agents/generator.ts:44-47 | every rendered attribute is an allowed prop of the node's kind and carries the input's value |
| Generator.PlanComponents | src/components/lib/agents/generator.ts:25 | a valid plan's components are an array of valid nodes |
| Generator.RenderedComponents | src/components/lib/agents/generator.ts:25-27 | one rendering per top-level component, in order |
| Generator.InvalidPlanDiagnostic | src/components/lib/agents/generator.ts:20-23 | an invalid plan has errors and yields the diagnostic stand-in listing them |
| Generator.TrimTemplate | src/components/lib/agents/generator.ts:29-40 | trimming the template keeps exactly its body |
| Generator.ValidPlanCode | src/components/lib/agents/generator.ts:29-40 | a valid plan yields the import header and a root Layout of the plan's type wrapping the joined component renderings |
| Route.IsPromptInjection | src/app/api/agents/route.ts:111-114 | `isPromptInjection`; `IsPromptInjectionIff` and `InjectionCaseInsensitive` characterise it |
| Route.ParsePlannerResponse | src/app/api/agents/route.ts:247-264 | `parsePlannerResponse`; its four cases are stated by `ParseEmptyReply`, `ParseStrictReply`, `ParseReplyWithoutBraces` and `ParseEmbeddedReply` |
| Route.BuildSystemPrompt | src/app/api/agents/route.ts:97-109 | `buildSystemPrompt`; `PlannerPromptShape` and `ExplainerPromptShape` characterise it |
| Route.ChunksFrom | src/app/api/agents/route.ts:273-277 | the chunks the loop cuts from an offset on; `ChunksFromFlatten` and `ChunksFromSizes` characterise them |
| Route.Chunks | src/app/api/agents/route.ts:266-281 | the chunks `streamText` enqueues; `ChunksSpec` characterises them |
| Route.Respond | src/app/api/agents/route.ts:52-89 | the response to a model reply for each agent; `PlannerFailures`, `PlannerDeliversValidPlan`, `PlannerDeliversEveryValidPlan` and `ExplainerDeliversModelText` characterise it |
| Route.Post | src/app/api/agents/route.ts:28-95 | `POST`; `PostGuards`, `RefusedIgnoresModel`, `AdmittedReply`, `DeliveredPassedGuards` and `PostPlannerReplyIsValidPlan` characterise it |
| Route.AnySignalIff | src/app/api/agents/route.ts:113 | the screen fires exactly when some signal phrase is contained in the text |
| Route.AnySignalOccurs | src/app/api/agents/route.ts:113 | the screen fires exactly when some signal phrase occurs at some position |
| Route.IsPromptInjectionIff | src/app/api/agents/route.ts:111-114 | an input is refused exactly when its lower-cased text contains one of the eight signal phrases |
| Route.InjectionCaseInsensitive | src/app/api/agents/route.ts:112 | the screen ignores ASCII letter case |
| Route.ParseEmptyReply | src/app/api/agents/route.ts:248-251 | a blank reply is the "Empty response" error |
| Route.ParseStrictReply | src/app/api/agents/route.ts:252-254 | a reply that parses after trimming is that parse |
| Route.ParseReplyWithoutBraces | src/app/api/agents/route.ts:255-260 | a reply that does not parse and lacks `{` or `}` is the "No JSON" error |
| Route.ParseEmbeddedReply | src/app/api/agents/route.ts:255-263 | otherwise the reply is the parse of the text from the first `{` to the last `}` |
| Route.ParseInvertedBraces | src/app/api/agents/route.ts:255-263 | when the last `}` comes before the first `{`, the empty slice is parsed and, `JSON.parse` refusing it, the reply is refused |
| Route.PlannerPromptShape | src/app/api/agents/route.ts:98-103 | the planner prompt has the user query substituted, then the current-plan header and context, or else the no-plan note |
| Route.ExplainerPromptShape | src/app/api/agents/route.ts:106-108 | the explainer prompt has the query and the plan substituted, with `{}` for an empty context |
| Route.ChunksFromFlatten | src/app/api/agents/route.ts:273-277 | the chunks from any offset concatenate to the rest of the text |
| Route.ChunksFromSizes | src/app/api/agents/route.ts:273-277 | every chunk but the last is 64 characters, and the last is 1 to 64 |
| Route.ChunksSpec | src/app/api/agents/route.ts:266-281 | the stream concatenates to the text; it is empty exactly for the empty text; every chunk but the last is full |
| Route.StreamText | src/app/api/agents/route.ts:266-281 | the loop enqueues exactly the specified chunks, which concatenate to the text |
| Route.AgentOf | src/app/api/agents/route.ts:35 | only the strings "planner" and "explainer" name an agent |
| Route.PostGuards | src/app/api/agents/route.ts:35-45 | an unknown agent is a 400, then a blank input is a 400, then a flagged input is a 400, each with its message, and no route is taken before they pass |
| Route.RefusedIgnoresModel | src/app/api/agents/route.ts:35-45 | a refused request gets the same response whatever the model and the JSON functions do |
| Route.AdmittedReply | src/app/api/agents/route.ts:47-50 | for an admitted request, a model error is a 500 with its message; otherwise the response is the agent's handling of the model's reply, streamed when `stream` is true |
| Route.PlannerFailures | src/app/api/agents/route.ts:55-64 | an unparsable planner reply is a 500 carrying the parse error; a plan that fails validation is a 400 listing the validator's errors |
| Route.DeliverCarries | src/app/api/agents/route.ts:67-89 | streamed or JSON, the response delivers exactly the given text |
| Route.PlannerDeliversValidPlan | src/app/api/agents/route.ts:58-77 | whatever the planner route delivers is the serialisation of a plan that validates |
| Route.PlannerDeliversEveryValidPlan | src/app/api/agents/route.ts:67-77 | every reply that parses to a valid plan is delivered, as that plan serialised |
| Route.ExplainerDeliversModelText | src/app/api/agents/route.ts:80-89 | the explainer route delivers the model's text unchanged |
| Route.DeliveredPassedGuards | src/app/api/agents/route.ts:28-95 | a delivered response had an admitted request and a model that answered, and it is the agent's handling of that reply |
| Route.PostPlannerReplyIsValidPlan | src/app/api/agents/route.ts:28-95 | a delivered planner response is the serialisation of a valid plan parsed from the model's reply |
| Page.ParsePlannerResponse | src/app/page.tsx:524-541 | the page's own copy of the reply parser; `SameAsServer` proves it equal to the endpoint's |
| Page.NextMode | src/app/page.tsx:203-206 | the theme toggle's next mode; `ThemeCycle` characterises it |
| Page.Transcript | src/app/page.tsx:136-140 | the conversation the recorded versions produce; `TranscriptSpec` and `TranscriptAppend` characterise it |
| Page.SendOutcome | src/app/page.tsx:95-148 | what `handleSendMessage` ends with, given the plan current before the send and the agent's answers; `PlannerFailureShown`, `InvalidPlanShown` and `VersionRecorded` characterise it |
| Page.SameAsServer | src/app/page.tsx:524-541 | the client's reply parser is the same function as the endpoint's |
| Page.ModeIndex | src/app/page.tsx:204 | every theme mode is in the cycle list, at its index |
| Page.ThemeCycle | src/app/page.tsx:203-206 | the toggle goes light, dark, system, light; it always changes the mode and returns after three steps |
| Page.Resolve | src/app/page.tsx:84-85 | the effective theme is never "system"; an explicit mode is kept; "system" becomes dark exactly when the system prefers dark |
| Page.FallbackPromptTrimmed | src/app/page.tsx:152 | the fallback prompt is already trimmed |
| Page.PromptToSend | src/app/page.tsx:151-152 | a blank prompt is replaced by the fallback prompt; any other prompt is sent trimmed |
| Page.PromptToSendTrimmed | src/app/page.tsx:151-152 | the prompt sent is never empty and is its own trim |
| Page.PlannerAlwaysGetsContext | src/app/page.tsx:440-447 | the planner request always carries a nonempty context, so the endpoint always appends its current-plan header and that context |
| Page.TranscriptAppend | src/app/page.tsx:136-140 | recording a version appends its user message and assistant message to the transcript |
| Page.TranscriptSpec | src/app/page.tsx:126-140 | the transcript has two messages per version: the prompt as user, then the explanation as assistant |
| Page.PlannerFailureShown | src/app/page.tsx:141-144 | a planner or parse failure shows `// message` with the failure note, and records nothing |
| Page.InvalidPlanShown | src/app/page.tsx:104-109 | an invalid plan shows the validator's errors, leaves the explanation empty, records nothing and never calls the explainer |
| Page.VersionRecorded | src/app/page.tsx:111-134 | a version is recorded exactly when the plan is valid and the explainer answers; it holds the input, the plan, the generated code and the explanation |
| Page.Session.constructor | src/app/page.tsx:31-44 | the initial state satisfies the history invariant and is the cleared state, with the "system" theme |
| Page.Session.CurrentVersion | src/app/page.tsx:88-93 | the selected version, or none when the index is unset or out of range |
| Page.Session.CurrentVersionHoldsPlan | src/app/page.tsx:88-93 | under the invariant a version is selected exactly when there is one, and it holds the current plan |
| Page.Session.EffectiveTheme | src/app/page.tsx:84-85 | the theme applied is never "system", and an explicit mode is kept |
| Page.Session.Record | src/app/page.tsx:126-140 | the version is appended and selected, its plan becomes current, the two messages are appended, and the invariant is kept |
| Page.Session.Settle | src/app/page.tsx:104-147 | the panes show the outcome, a produced version is recorded, generation ends, and the invariant is kept |
| Page.Session.SendMessage | src/app/page.tsx:95-148 | the state after a send is the specified outcome for the plan current before the send, and the invariant is kept |
| Page.Session.Generate | src/app/page.tsx:150-154 | sends the trimmed prompt, or the fallback prompt when the prompt is blank |
| Page.Session.Rollback | src/app/page.tsx:156-165 | an index outside the history changes nothing; otherwise that version is selected and shown, and the history is kept |
| Page.Session.ClearHistory | src/app/page.tsx:168-171 | no messages, no versions, nothing selected, and every other field kept |
| Page.Session.NewSession | src/app/page.tsx:167-180 | every field but the theme returns to its initial value, and the invariant is kept |
| Page.Session.SetTheme | src/app/page.tsx:78-82 | the theme mode becomes the chosen one and nothing else changes |
| Page.Session.CycleTheme | src/app/page.tsx:203-206 | the theme mode advances one step and nothing else changes |
| Page.Session.RestoreTheme | src/app/page.tsx:46-62 | the stored theme, or "system" when none is stored, plus the system preference; nothing else changes |

## Left out

- The language model (`callLLM`) and the page's `callAgent`/`callAgentStream`
  and `fetch` are parameters; their HTTP exchange, headers and error texts
  are not modelled.
- Bodies that are not JSON objects, and `input` or `context` fields that
  are present but not strings, lie outside the model: its `input` and
  `context` are optional strings. In the source these cases fail before the
  `try` (route.ts:29-32): a rejected `request.json()`, a `null` body, or a
  `.trim` on a non-string throws out of `POST` uncaught, so the endpoint's
  own 500 (route.ts:90-94) is not produced for them.
- Streaming is modelled as the sequence of chunks the stream enqueues. The
  page is modelled as seeing only the full text, so the intermediate
  `setCurrentCode(chunk)` states, the transient "// Generating code..."
  pane and the interleaving with other handlers between awaits are left
  out.
- React rendering, the layout and panel UI, the history modal, copy and
  download buttons, the code editor and its `isCodeModified` updates from
  typing are left out. The simple setters for panels and the modal have no
  logic.
- `localStorage`, `matchMedia`, `applyTheme` (DOM classes), `crypto.randomUUID`
  and `Date` are left out. The stored theme, the preference, the id and the
  timestamp are inputs.
- `JSON.parse` and both `JSON.stringify` forms are parameters. JSON numbers
  are integers, since nothing in the core computes with them.
- The `parse` parameter may return an object with a repeated key, which
  `JSON.parse` never does. On such a value lookup takes the first entry
  while `Keys` lists every entry, so the lemmas over `Keys` (the unknown-key
  and text-prop errors) describe real objects only when keys are distinct.
- JavaScript enumerates integer-like object keys first. The model keeps
  property order, which matches for the non-numeric keys that plans use.
- Strings are sequences of characters, not of UTF-16 code units, and the
  stream is modelled as chunks of characters, not of the bytes
  `TextEncoder` sends. In the source each 64-unit `text.slice`
  (route.ts:274) can split a surrogate pair, and `encoder.encode(chunk)`
  (route.ts:275) turns each lone half into U+FFFD, so a reply holding an
  astral character (an emoji in a label or an explanation, say) does not
  stream back unchanged. `ChunksSpec`, `StreamText` and `DeliverCarries`
  hold for the character model only, not for the bytes the source streams
  (a latent issue of the source, read from its text and not executed).
- `toLowerCase` is modelled for ASCII letters only.
- Inherited property names are left out. `type in COMPONENT_REGISTRY`
  (validation.ts:70) also accepts names such as `toString`, while the model
  accepts only the five registered kinds.
- Console logging is left out.
- The text of the prompt templates is a parameter. Only the
  `{{user_query}}`/`{{ui_plan}}` substitution and the appended context are
  modelled. `replace` models the `$` patterns of its replacement string.
- When `props` is not an object, `validateNode` returns
  (validation.ts:78-81) before the children check at validation.ts:121, so
  the children of such a node are not validated; the model does the same.
- `src/components/lib/Chart.tsx` and the component files are not part of
  this model. The planner and explainer prompt files are not part of this
  model either, beyond their use as template parameters.
