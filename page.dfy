/** The generator page (app/page.tsx): the session the page keeps in its
    `useState` fields, the handlers that change it, the theme cycle, and the
    client's own copy of the planner-reply parser. The `/api/agents`
    endpoint, as the page reaches it through `callAgentStream`, is a
    parameter mapping a request to the full text it streams back or to the
    error it throws. */
module Page {
  import opened Wrappers
  import opened Strings
  import opened JsonModel
  import opened Validation
  import Generator
  import Route

  /* ---- The client's planner-reply parser ---- */

  /** `parsePlannerResponse` as the page defines it. */
  function ParsePlannerResponse(raw: string, parse: string -> Result<Json>): Result<Json> {
    var cleaned := Trim(raw);
    if cleaned == [] then Err(Route.EmptyResponse)
    else
      match parse(cleaned)
      case Ok(plan) => Ok(plan)
      case Err(_) =>
        var start := IndexOfChar(cleaned, '{');
        var end := LastIndexOfChar(cleaned, '}');
        if start == -1 || end == -1 then Err(Route.NoJson)
        else parse(Slice(cleaned, start, end + 1))
  }

  /** The page and the server read a planner reply alike. */
  lemma SameAsServer(raw: string, parse: string -> Result<Json>)
    ensures ParsePlannerResponse(raw, parse) == Route.ParsePlannerResponse(raw, parse)
  {
  }

  /* ---- Theme ---- */

  datatype ThemeMode = Light | Dark | System

  /** The order the theme button cycles through. */
  const Modes: seq<ThemeMode> := [Light, Dark, System]

  /** `modes.indexOf(themeMode)`. */
  function ModeIndex(m: ThemeMode): (i: nat)
    ensures i < |Modes| && Modes[i] == m
  {
    match m
    case Light => 0
    case Dark => 1
    case System => 2
  }

  /** The theme button's next mode: `modes[(currentIndex + 1) % modes.length]`. */
  function NextMode(m: ThemeMode): ThemeMode {
    Modes[(ModeIndex(m) + 1) % |Modes|]
  }

  /** The cycle is light, dark, system and back to light: every click
      changes the mode and three clicks restore it. */
  lemma ThemeCycle(m: ThemeMode)
    ensures NextMode(Light) == Dark && NextMode(Dark) == System && NextMode(System) == Light
    ensures NextMode(m) != m
    ensures NextMode(NextMode(NextMode(m))) == m
  {
  }

  /** `effectiveTheme`: the system mode resolves by the system preference,
      so the theme in effect is never `system`. */
  function Resolve(mode: ThemeMode, systemPrefersDark: bool): (r: ThemeMode)
    ensures r != System
    ensures mode != System ==> r == mode
    ensures mode == System ==> (r == Dark <==> systemPrefersDark)
  {
    if mode == System then (if systemPrefersDark then Dark else Light) else mode
  }

  /* ---- What the page sends ---- */

  const FallbackPrompt := "Generate a clean SaaS UI layout."

  lemma FallbackPromptTrimmed()
    ensures Trim(FallbackPrompt) == FallbackPrompt
  {
    var s := FallbackPrompt;
    assert s[0] == 'G' && s[|s| - 1] == '.';
    TrimUnpadded(s);
  }

  /** `handleGenerate`'s choice of input: the trimmed prompt, or the fixed
      request when that is blank. */
  function PromptToSend(prompt: string): (r: string)
    ensures Trim(prompt) == [] ==> r == FallbackPrompt
    ensures Trim(prompt) != [] ==> r == Trim(prompt)
  {
    var trimmed := Trim(prompt);
    if |trimmed| > 0 then trimmed else FallbackPrompt
  }

  /** What is sent is never blank and has nothing left to trim, so the
      endpoint's blank-input guard never fires on it. */
  lemma PromptToSendTrimmed(prompt: string)
    ensures PromptToSend(prompt) != [] && Trim(PromptToSend(prompt)) == PromptToSend(prompt)
  {
    if Trim(prompt) == [] {
      FallbackPromptTrimmed();
    } else {
      TrimIdempotent(prompt);
    }
  }

  const PlanContextHeader := "CURRENT UI PLAN " + "(modify instead of rewrite):\n"
  const NoPlanContext := "No current UI plan. Create a new plan."

  /** `callPlanner`'s context: the current plan pretty-printed
      (`JSON.stringify(plan, null, 2)`), or the note that there is none. */
  function PlannerContext(currentPlan: Option<Json>, pretty: Json -> string): string {
    if currentPlan.Some? then PlanContextHeader + pretty(currentPlan.value) else NoPlanContext
  }

  /** The body `callPlanner` posts. */
  function PlannerRequest(input: string, currentPlan: Option<Json>, pretty: Json -> string): Route.Request {
    Route.Request(Some(JStr("planner")), Some(input), Some(PlannerContext(currentPlan, pretty)), Some(JBool(true)))
  }

  /** The body `callExplainer` posts: the plan as compact JSON. */
  function ExplainerRequest(input: string, plan: Json, stringify: Json -> string): Route.Request {
    Route.Request(Some(JStr("explainer")), Some(input), Some(stringify(plan)), Some(JBool(true)))
  }

  /** The page always sends the planner a nonempty context, so the
      endpoint always takes its "current plan" branch: with no plan, the
      planner is shown the endpoint's current-plan header followed by the
      page's own "No current UI plan" note, and never the endpoint's note. */
  lemma PlannerAlwaysGetsContext(input: string, currentPlan: Option<Json>, pretty: Json -> string, prompts: Route.Prompts)
    ensures var context := Route.TrimmedField(PlannerRequest(input, currentPlan, pretty).context);
            && context != []
            && EndsWith(Route.BuildSystemPrompt(Route.Planner, input, context, prompts), Route.PlanContextHeader + context)
  {
    var c := PlannerContext(currentPlan, pretty);
    if currentPlan.Some? {
      assert c[0] == 'C';
    } else {
      assert c[0] == 'N';
    }
    NonBlankTrim(c);
    var context := Trim(c);
    var p := Route.BuildSystemPrompt(Route.Planner, input, context, prompts);
    var tail := Route.PlanContextHeader + context;
    assert p == ReplaceFirst(prompts.planner, Route.UserQuery, input) + tail;
    assert p[|p| - |tail|..] == tail;
  }

  /* ---- Session history ---- */

  datatype Role = User | Assistant

  datatype ChatMessage = ChatMessage(role: Role, content: string)

  /** `GenerationVersion`; id and timestamp come from the browser. */
  datatype GenerationVersion = GenerationVersion(id: string, prompt: string, plan: Json, code: string,
                                                 explanation: string, createdAt: string)

  datatype MobileView = CodeView | PreviewView

  datatype LeftPanel = ConversationPanel | ExplainerPanel

  /** The conversation a history implies: for each version, the user's
      prompt and then the explanation the assistant gave. */
  function Transcript(versions: seq<GenerationVersion>): seq<ChatMessage> {
    if versions == [] then []
    else
      var last := versions[|versions| - 1];
      Transcript(versions[..|versions| - 1]) + [ChatMessage(User, last.prompt), ChatMessage(Assistant, last.explanation)]
  }

  lemma TranscriptAppend(versions: seq<GenerationVersion>, v: GenerationVersion)
    ensures Transcript(versions + [v]) == Transcript(versions) + [ChatMessage(User, v.prompt), ChatMessage(Assistant, v.explanation)]
  {
    assert (versions + [v])[..|versions|] == versions;
  }

  /** Message `2k` is the prompt of version `k` and message `2k + 1` its
      explanation. */
  lemma {:induction false} TranscriptSpec(versions: seq<GenerationVersion>)
    ensures |Transcript(versions)| == 2 * |versions|
    ensures forall k :: 0 <= k < |versions| ==>
              Transcript(versions)[2 * k] == ChatMessage(User, versions[k].prompt)
              && Transcript(versions)[2 * k + 1] == ChatMessage(Assistant, versions[k].explanation)
  {
    if versions != [] {
      var init := versions[..|versions| - 1];
      TranscriptSpec(init);
      forall k | 0 <= k < |versions|
        ensures Transcript(versions)[2 * k] == ChatMessage(User, versions[k].prompt)
        ensures Transcript(versions)[2 * k + 1] == ChatMessage(Assistant, versions[k].explanation)
      {
        if k < |init| {
          assert versions[k] == init[k];
        }
      }
    }
  }

  const GenerationFailed := "Generation failed. Please try again."

  /** What the code pane shows for a plan the validator refuses. */
  function InvalidPlanCode(errors: seq<string>): string {
    "// Invalid plan:\n" + Join(errors, "\n")
  }

  /** `callPlanner`'s result: the parsed reply, or the error thrown by the
      request or by the parser. */
  function PlannerOutcome(input: string, currentPlan: Option<Json>, agent: Route.Request -> Result<string>,
                          parse: string -> Result<Json>, pretty: Json -> string): Result<Json>
  {
    match agent(PlannerRequest(input, currentPlan, pretty))
    case Err(message) => Err(message)
    case Ok(raw) => ParsePlannerResponse(raw, parse)
  }

  /** What one `handleSendMessage` leaves in the code and explanation panes,
      and the version it records, if any. */
  datatype Outcome = Outcome(code: string, explanation: string, version: Option<GenerationVersion>)

  /** `handleSendMessage`'s effect once every await has settled: the
      planner's plan, refused by the validator or an error thrown by the
      planner request, the parser or the explainer request each end the
      attempt without a version. */
  function SendOutcome(input: string, currentPlan: Option<Json>, agent: Route.Request -> Result<string>,
                       parse: string -> Result<Json>, stringify: Json -> string, pretty: Json -> string,
                       id: string, createdAt: string): Outcome
  {
    match PlannerOutcome(input, currentPlan, agent, parse, pretty)
    case Err(message) => Outcome("// " + message, GenerationFailed, None)
    case Ok(plan) =>
      var errors := PlanErrors(plan);
      if errors != [] then Outcome(InvalidPlanCode(errors), [], None)
      else
        match agent(ExplainerRequest(input, plan, stringify))
        case Err(message) => Outcome("// " + message, GenerationFailed, None)
        case Ok(explanation) =>
          var code := Generator.GenerateReactCode(plan, stringify);
          Outcome(code, explanation, Some(GenerationVersion(id, input, plan, code, explanation, createdAt)))
  }

  /** A failure of the planner request or of the parser is shown in the
      code pane, with the fixed failure note as explanation. */
  lemma PlannerFailureShown(input: string, currentPlan: Option<Json>, agent: Route.Request -> Result<string>,
                            parse: string -> Result<Json>, stringify: Json -> string, pretty: Json -> string,
                            id: string, createdAt: string)
    requires PlannerOutcome(input, currentPlan, agent, parse, pretty).Err?
    ensures SendOutcome(input, currentPlan, agent, parse, stringify, pretty, id, createdAt)
            == Outcome("// " + PlannerOutcome(input, currentPlan, agent, parse, pretty).message, GenerationFailed, None)
  {
  }

  /** A plan the validator refuses records nothing; the code pane lists the
      validator's errors and the explainer is never asked. */
  lemma InvalidPlanShown(input: string, currentPlan: Option<Json>, agent: Route.Request -> Result<string>,
                         parse: string -> Result<Json>, stringify: Json -> string, pretty: Json -> string,
                         id: string, createdAt: string)
    requires PlannerOutcome(input, currentPlan, agent, parse, pretty).Ok?
    requires !ValidPlan(PlannerOutcome(input, currentPlan, agent, parse, pretty).value)
    ensures var plan := PlannerOutcome(input, currentPlan, agent, parse, pretty).value;
            SendOutcome(input, currentPlan, agent, parse, stringify, pretty, id, createdAt)
            == Outcome(InvalidPlanCode(PlanErrors(plan)), [], None)
            && PlanErrors(plan) != []
  {
    PlanErrorsEmptyIff(PlannerOutcome(input, currentPlan, agent, parse, pretty).value);
  }

  /** A version is recorded exactly when the planner's plan is valid and
      the explainer answers; it holds the input, that plan, the code
      generated from it and the explanation, and the panes show that code
      and explanation. */
  lemma VersionRecorded(input: string, currentPlan: Option<Json>, agent: Route.Request -> Result<string>,
                        parse: string -> Result<Json>, stringify: Json -> string, pretty: Json -> string,
                        id: string, createdAt: string)
    ensures var o := SendOutcome(input, currentPlan, agent, parse, stringify, pretty, id, createdAt);
            var planned := PlannerOutcome(input, currentPlan, agent, parse, pretty);
            o.version.Some? <==> planned.Ok? && ValidPlan(planned.value) && agent(ExplainerRequest(input, planned.value, stringify)).Ok?
    ensures var o := SendOutcome(input, currentPlan, agent, parse, stringify, pretty, id, createdAt);
            var planned := PlannerOutcome(input, currentPlan, agent, parse, pretty);
            o.version.Some? ==>
              && o.version.value == GenerationVersion(id, input, planned.value, o.code, o.explanation, createdAt)
              && o.code == Generator.GenerateReactCode(planned.value, stringify)
              && o.explanation == agent(ExplainerRequest(input, planned.value, stringify)).value
  {
    var planned := PlannerOutcome(input, currentPlan, agent, parse, pretty);
    if planned.Ok? {
      PlanErrorsEmptyIff(planned.value);
    }
  }

  /** The session state the page keeps in its `useState` fields. */
  class Session {
    var messages: seq<ChatMessage>
    var versions: seq<GenerationVersion>
    var currentVersionIndex: Option<nat>
    var currentPlan: Option<Json>
    var currentCode: string
    var currentExplanation: string
    var prompt: string
    var isGenerating: bool
    var activeMobileView: MobileView
    var themeMode: ThemeMode
    var activeLeftPanel: LeftPanel
    var showHistoryModal: bool
    var isCodeModified: bool
    var systemPrefersDark: bool

    /** `JSON.parse`, `JSON.stringify(value)` and `JSON.stringify(value, null, 2)`. */
    const parse: string -> Result<Json>
    const stringify: Json -> string
    const pretty: Json -> string

    /** The history is consistent: an index is selected exactly when there
        is a version, it is in range and its plan is the current plan; with
        no version there is no plan; the conversation is the transcript of
        the history. */
    predicate Valid()
      reads this
    {
      && (currentVersionIndex.Some? <==> versions != [])
      && (currentVersionIndex.Some? ==>
            currentVersionIndex.value < |versions| && currentPlan == Some(versions[currentVersionIndex.value].plan))
      && (versions == [] ==> currentPlan == None)
      && messages == Transcript(versions)
    }

    /** The values a new session starts from: no conversation, no
        history, empty panes and prompt, the default panels, nothing in
        progress. */
    predicate Cleared()
      reads this
    {
      && messages == [] && versions == [] && currentVersionIndex == None && currentPlan == None
      && currentCode == [] && currentExplanation == [] && prompt == []
      && !isGenerating && !isCodeModified && !showHistoryModal
      && activeLeftPanel == ConversationPanel && activeMobileView == CodeView
    }

    /** The initial `useState` values. */
    constructor(parse: string -> Result<Json>, stringify: Json -> string, pretty: Json -> string)
      ensures Valid() && Cleared()
      ensures themeMode == System && !systemPrefersDark
      ensures this.parse == parse && this.stringify == stringify && this.pretty == pretty
    {
      messages := [];
      versions := [];
      currentVersionIndex := None;
      currentPlan := None;
      currentCode := [];
      currentExplanation := [];
      prompt := [];
      isGenerating := false;
      activeMobileView := CodeView;
      themeMode := System;
      activeLeftPanel := ConversationPanel;
      showHistoryModal := false;
      isCodeModified := false;
      systemPrefersDark := false;
      this.parse := parse;
      this.stringify := stringify;
      this.pretty := pretty;
    }

    /** `currentVersion`: the selected version, or none when nothing is
        selected or the index is out of range. */
    function CurrentVersion(): (r: Option<GenerationVersion>)
      reads this
      ensures r.None? <==> currentVersionIndex.None? || currentVersionIndex.value >= |versions|
      ensures r.Some? ==> r.value == versions[currentVersionIndex.value]
    {
      if currentVersionIndex.None? || currentVersionIndex.value >= |versions| then None
      else Some(versions[currentVersionIndex.value])
    }

    /** In a consistent session the selected version is the current plan's. */
    lemma CurrentVersionHoldsPlan()
      requires Valid()
      ensures CurrentVersion().Some? <==> versions != []
      ensures CurrentVersion().Some? ==> currentPlan == Some(CurrentVersion().value.plan)
    {
    }

    /** `effectiveTheme`. */
    function EffectiveTheme(): (r: ThemeMode)
      reads this
      ensures r != System
      ensures themeMode != System ==> r == themeMode
    {
      Resolve(themeMode, systemPrefersDark)
    }

    /** The history is left as it was. */
    twostate predicate HistoryUnchanged()
      reads this
    {
      && versions == old(versions) && messages == old(messages)
      && currentVersionIndex == old(currentVersionIndex) && currentPlan == old(currentPlan)
      && isCodeModified == old(isCodeModified)
    }

    /** The fields `handleSendMessage` never touches are left as they were. */
    twostate predicate ViewUnchanged()
      reads this
    {
      && prompt == old(prompt) && activeMobileView == old(activeMobileView) && themeMode == old(themeMode)
      && activeLeftPanel == old(activeLeftPanel) && showHistoryModal == old(showHistoryModal)
      && systemPrefersDark == old(systemPrefersDark)
    }

    /** The panes show outcome `o` of sending `input`: a recorded version
        is appended and selected, together with the user's message and the
        assistant's explanation, and nothing else changes. */
    twostate predicate Settled(input: string, o: Outcome)
      reads this
    {
      && !isGenerating
      && ViewUnchanged()
      && currentCode == o.code && currentExplanation == o.explanation
      && (o.version.None? ==> HistoryUnchanged())
      && (o.version.Some? ==>
            && versions == old(versions) + [o.version.value]
            && currentVersionIndex == Some(|old(versions)|)
            && currentPlan == Some(o.version.value.plan)
            && !isCodeModified
            && messages == old(messages) + [ChatMessage(User, input), ChatMessage(Assistant, o.explanation)])
    }

    /** `handleSendMessage(input)` has run to its end. */
    twostate predicate Sent(input: string, agent: Route.Request -> Result<string>, id: string, createdAt: string)
      reads this
    {
      Settled(input, SendOutcome(input, old(currentPlan), agent, parse, stringify, pretty, id, createdAt))
    }

    /** A recorded version joins the history and is selected, together
        with the user's message and the assistant's explanation. */
    method Record(version: GenerationVersion)
      requires Valid()
      modifies this
      ensures Valid()
      ensures versions == old(versions) + [version]
      ensures currentVersionIndex == Some(|old(versions)|) && currentPlan == Some(version.plan) && !isCodeModified
      ensures messages == old(messages) + [ChatMessage(User, version.prompt), ChatMessage(Assistant, version.explanation)]
      ensures currentCode == old(currentCode) && currentExplanation == old(currentExplanation)
      ensures isGenerating == old(isGenerating) && ViewUnchanged()
    {
      TranscriptAppend(versions, version);
      versions := versions + [version];
      currentVersionIndex := Some(|versions| - 1);
      currentPlan := Some(version.plan);
      isCodeModified := false;
      messages := messages + [ChatMessage(User, version.prompt), ChatMessage(Assistant, version.explanation)];
    }

    /** The state updates after the awaited steps of `handleSendMessage`:
        the panes take the outcome and a recorded version joins the history. */
    method Settle(input: string, outcome: Outcome)
      requires Valid()
      requires outcome.version.Some? ==> outcome.version.value.prompt == input
      requires outcome.version.Some? ==> outcome.version.value.explanation == outcome.explanation
      modifies this
      ensures Valid()
      ensures Settled(input, outcome)
    {
      if outcome.version.Some? {
        Record(outcome.version.value);
      }
      currentCode := outcome.code;
      currentExplanation := outcome.explanation;
      isGenerating := false;
    }

    /** `handleSendMessage`. `agent` stands for `callAgentStream`; `id` and
        `createdAt` for `crypto.randomUUID()` and the ISO timestamp. What
        the awaited steps produce is `SendOutcome`; `Settle` is the state
        they leave. */
    method SendMessage(input: string, agent: Route.Request -> Result<string>, id: string, createdAt: string)
      requires Valid()
      modifies this
      ensures Valid()
      ensures Sent(input, agent, id, createdAt)
    {
      var outcome := SendOutcome(input, currentPlan, agent, parse, stringify, pretty, id, createdAt);
      VersionRecorded(input, currentPlan, agent, parse, stringify, pretty, id, createdAt);
      Settle(input, outcome);
    }

    /** `handleGenerate`: sends the trimmed prompt, or the fixed request
        when it is blank; the prompt field itself is kept. */
    method Generate(agent: Route.Request -> Result<string>, id: string, createdAt: string)
      requires Valid()
      modifies this
      ensures Valid()
      ensures Sent(PromptToSend(old(prompt)), agent, id, createdAt)
    {
      var input := PromptToSend(prompt);
      SendMessage(input, agent, id, createdAt);
    }

    /** `handleRollback`: an index outside the history changes nothing;
        otherwise that version becomes the current one and the history
        itself is kept. */
    method Rollback(index: int)
      requires Valid()
      modifies this
      ensures Valid()
      ensures index < 0 || index >= |old(versions)| ==> unchanged(this)
      ensures 0 <= index < |old(versions)| ==>
                && versions == old(versions) && messages == old(messages)
                && currentVersionIndex == Some(index)
                && currentPlan == Some(versions[index].plan)
                && currentCode == versions[index].code
                && currentExplanation == versions[index].explanation
                && isGenerating == old(isGenerating) && isCodeModified == old(isCodeModified)
                && ViewUnchanged()
    {
      if index < 0 || index >= |versions| {
        return;
      }
      var version := versions[index];
      currentVersionIndex := Some(index);
      currentPlan := Some(version.plan);
      currentCode := version.code;
      currentExplanation := version.explanation;
    }

    /** The history part of `handleNewSession`: no conversation, no
        versions, nothing selected; the other fields are kept. */
    method ClearHistory()
      modifies this
      ensures Valid()
      ensures messages == [] && versions == [] && currentVersionIndex == None && currentPlan == None
      ensures currentCode == old(currentCode) && currentExplanation == old(currentExplanation)
      ensures prompt == old(prompt) && isGenerating == old(isGenerating) && isCodeModified == old(isCodeModified)
      ensures showHistoryModal == old(showHistoryModal) && activeLeftPanel == old(activeLeftPanel)
      ensures activeMobileView == old(activeMobileView)
      ensures themeMode == old(themeMode) && systemPrefersDark == old(systemPrefersDark)
    {
      messages := [];
      versions := [];
      currentVersionIndex := None;
      currentPlan := None;
      assert Transcript(versions) == [];
    }

    /** `handleNewSession`: back to an empty session with the default
        panels; the theme is kept. */
    method NewSession()
      modifies this
      ensures Valid() && Cleared()
      ensures themeMode == old(themeMode) && systemPrefersDark == old(systemPrefersDark)
    {
      ClearHistory();
      currentCode := [];
      currentExplanation := [];
      prompt := [];
      isGenerating := false;
      isCodeModified := false;
      showHistoryModal := false;
      activeLeftPanel := ConversationPanel;
      activeMobileView := CodeView;
    }

    /** `handleThemeChange`, without the storage write and the class change
        on the document. */
    method SetTheme(mode: ThemeMode)
      modifies this
      ensures themeMode == mode
      ensures messages == old(messages) && versions == old(versions) && currentVersionIndex == old(currentVersionIndex)
      ensures currentPlan == old(currentPlan) && currentCode == old(currentCode)
      ensures currentExplanation == old(currentExplanation) && prompt == old(prompt)
      ensures isGenerating == old(isGenerating) && activeMobileView == old(activeMobileView)
      ensures activeLeftPanel == old(activeLeftPanel) && showHistoryModal == old(showHistoryModal)
      ensures isCodeModified == old(isCodeModified) && systemPrefersDark == old(systemPrefersDark)
    {
      themeMode := mode;
    }

    /** The theme button: the next mode in the cycle. */
    method CycleTheme()
      modifies this
      ensures themeMode == NextMode(old(themeMode))
      ensures messages == old(messages) && versions == old(versions) && currentVersionIndex == old(currentVersionIndex)
      ensures currentPlan == old(currentPlan) && currentCode == old(currentCode)
      ensures currentExplanation == old(currentExplanation) && prompt == old(prompt)
      ensures isGenerating == old(isGenerating) && activeMobileView == old(activeMobileView)
      ensures activeLeftPanel == old(activeLeftPanel) && showHistoryModal == old(showHistoryModal)
      ensures isCodeModified == old(isCodeModified) && systemPrefersDark == old(systemPrefersDark)
    {
      var nextMode := NextMode(themeMode);
      SetTheme(nextMode);
    }

    /** The mount effect: the stored mode, or `system` when none is stored,
        and the system preference as the media query reports it. */
    method RestoreTheme(stored: Option<ThemeMode>, prefersDark: bool)
      modifies this
      ensures themeMode == (if stored.Some? then stored.value else System)
      ensures systemPrefersDark == prefersDark
      ensures messages == old(messages) && versions == old(versions) && currentVersionIndex == old(currentVersionIndex)
      ensures currentPlan == old(currentPlan) && currentCode == old(currentCode)
      ensures currentExplanation == old(currentExplanation) && prompt == old(prompt)
      ensures isGenerating == old(isGenerating) && activeMobileView == old(activeMobileView)
      ensures activeLeftPanel == old(activeLeftPanel) && showHistoryModal == old(showHistoryModal)
      ensures isCodeModified == old(isCodeModified)
    {
      themeMode := if stored.Some? then stored.value else System;
      systemPrefersDark := prefersDark;
    }
  }
}
