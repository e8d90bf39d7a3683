/** The agents endpoint (app/api/agents/route.ts): the request guards, the
    prompt-injection screen, the system prompt each agent is given, the
    recovery of a plan from the planner model's text, validation of that
    plan, and the chunking of a streamed reply. The language model itself,
    `JSON.parse` and `JSON.stringify` are parameters. */
module Route {
  import opened Wrappers
  import opened Strings
  import opened JsonModel
  import opened Validation

  /* ---- Prompt-injection screen ---- */

  /** The phrases whose presence, in any letter case, rejects a prompt. */
  const InjectionSignals: seq<string> :=
    ["ignore previous", "disregard previous", "system prompt", "developer message",
     "override", "jailbreak", "act as", "bypass"]

  /** `signals.some((signal) => lowered.includes(signal))`. */
  function AnySignal(lowered: string, signals: seq<string>): bool {
    if signals == [] then false
    else Contains(lowered, signals[0]) || AnySignal(lowered, signals[1..])
  }

  /** `isPromptInjection`. */
  predicate IsPromptInjection(text: string) {
    AnySignal(Lower(text), InjectionSignals)
  }

  lemma {:induction false} AnySignalIff(lowered: string, signals: seq<string>)
    ensures AnySignal(lowered, signals) <==> exists i :: 0 <= i < |signals| && Contains(lowered, signals[i])
  {
    if signals != [] {
      AnySignalIff(lowered, signals[1..]);
      assert forall i :: 1 <= i < |signals| ==> signals[1..][i - 1] == signals[i];
    }
  }

  lemma AnySignalOccurs(lowered: string, signals: seq<string>)
    ensures AnySignal(lowered, signals) <==> exists i, j :: 0 <= i < |signals| && OccursAt(lowered, signals[i], j)
  {
    AnySignalIff(lowered, signals);
    if AnySignal(lowered, signals) {
      var i :| 0 <= i < |signals| && Contains(lowered, signals[i]);
      ContainsIff(lowered, signals[i]);
    } else {
      forall i, j | 0 <= i < |signals| ensures !OccursAt(lowered, signals[i], j) {
        ContainsIff(lowered, signals[i]);
      }
    }
  }

  /** A text is flagged exactly when one of the signals occurs somewhere in
      its lower-cased form. */
  lemma IsPromptInjectionIff(text: string)
    ensures IsPromptInjection(text)
            <==> exists i, j :: 0 <= i < |InjectionSignals| && OccursAt(Lower(text), InjectionSignals[i], j)
  {
    var lowered := Lower(text);
    var signals := InjectionSignals;
    AnySignalOccurs(lowered, signals);
    if IsPromptInjection(text) {
      var i, j :| 0 <= i < |signals| && OccursAt(lowered, signals[i], j);
      assert OccursAt(Lower(text), InjectionSignals[i], j);
    } else {
      forall i, j | 0 <= i < |InjectionSignals| ensures !OccursAt(Lower(text), InjectionSignals[i], j) {
        assert !OccursAt(lowered, signals[i], j);
      }
    }
  }

  /** The screen ignores letter case: a text and its lower-cased form are
      judged alike. */
  lemma InjectionCaseInsensitive(text: string)
    ensures IsPromptInjection(Lower(text)) == IsPromptInjection(text)
  {
    LowerIdempotent(text);
  }

  /* ---- Recovering the plan from the planner's reply ---- */

  const EmptyResponse := "Planner response was empty."
  const NoJson := "Planner response did not contain valid JSON."

  /** `parsePlannerResponse`: the trimmed reply is parsed as it is; when that
      fails, the text from the first `{` to the last `}` is parsed instead.
      An `Err` stands for the exception thrown, including the one the second
      `JSON.parse` throws. */
  function ParsePlannerResponse(raw: string, parse: string -> Result<Json>): Result<Json> {
    var cleaned := Trim(raw);
    if cleaned == [] then Err(EmptyResponse)
    else
      match parse(cleaned)
      case Ok(plan) => Ok(plan)
      case Err(_) =>
        var start := IndexOfChar(cleaned, '{');
        var end := LastIndexOfChar(cleaned, '}');
        if start == -1 || end == -1 then Err(NoJson)
        else parse(Slice(cleaned, start, end + 1))
  }

  /** A blank reply is refused before anything is parsed. */
  lemma ParseEmptyReply(raw: string, parse: string -> Result<Json>)
    requires Trim(raw) == []
    ensures ParsePlannerResponse(raw, parse) == Err(EmptyResponse)
  {
  }

  /** A reply that is JSON as it stands is taken as it stands. */
  lemma ParseStrictReply(raw: string, parse: string -> Result<Json>)
    requires Trim(raw) != [] && parse(Trim(raw)).Ok?
    ensures ParsePlannerResponse(raw, parse) == parse(Trim(raw))
  {
  }

  /** Otherwise a reply without both a `{` and a `}` is refused. */
  lemma ParseReplyWithoutBraces(raw: string, parse: string -> Result<Json>)
    requires Trim(raw) != [] && parse(Trim(raw)).Err?
    requires '{' !in Trim(raw) || '}' !in Trim(raw)
    ensures ParsePlannerResponse(raw, parse) == Err(NoJson)
  {
  }

  /** Otherwise the text from the first `{`, at `a`, to the last `}`, at
      `b`, is parsed; when the last `}` comes before the first `{` that text
      is empty. */
  lemma ParseEmbeddedReply(raw: string, parse: string -> Result<Json>, a: nat, b: nat)
    requires Trim(raw) != [] && parse(Trim(raw)).Err?
    requires a < |Trim(raw)| && Trim(raw)[a] == '{' && forall j :: 0 <= j < a ==> Trim(raw)[j] != '{'
    requires b < |Trim(raw)| && Trim(raw)[b] == '}' && forall j :: b < j < |Trim(raw)| ==> Trim(raw)[j] != '}'
    ensures ParsePlannerResponse(raw, parse) == parse(if a <= b then Trim(raw)[a..b + 1] else [])
  {
    var cleaned := Trim(raw);
    var start := IndexOfChar(cleaned, '{');
    var end := LastIndexOfChar(cleaned, '}');
    assert start == a;
    assert end == b;
  }

  /** When the last `}` comes before the first `{`, the empty text is
      parsed, and `JSON.parse` refuses the empty text: the reply is refused. */
  lemma ParseInvertedBraces(raw: string, parse: string -> Result<Json>, a: nat, b: nat)
    requires parse([]).Err?
    requires Trim(raw) != [] && parse(Trim(raw)).Err?
    requires a < |Trim(raw)| && Trim(raw)[a] == '{' && forall j :: 0 <= j < a ==> Trim(raw)[j] != '{'
    requires b < |Trim(raw)| && Trim(raw)[b] == '}' && forall j :: b < j < |Trim(raw)| ==> Trim(raw)[j] != '}'
    requires b < a
    ensures ParsePlannerResponse(raw, parse).Err?
  {
    ParseEmbeddedReply(raw, parse, a, b);
  }

  /* ---- System prompts ---- */

  datatype Agent = Planner | Explainer

  /** The prompt templates of the two agents (`PLANNER_PROMPT` in
      agents/planner.ts, `EXPLAINER_PROMPT` in agents/explainer.ts). */
  datatype Prompts = Prompts(planner: string, explainer: string)

  const UserQuery := "{{user_query}}"
  const UiPlan := "{{ui_plan}}"
  const PlanContextHeader := "\n\nCURRENT UI PLAN (modify instead of rewrite):\n"
  const NoPlanNote := "\n\nNo current UI plan. Create a new plan."

  /** `buildSystemPrompt`. */
  function BuildSystemPrompt(agent: Agent, input: string, context: string, prompts: Prompts): string {
    match agent
    case Planner =>
      ReplaceFirst(prompts.planner, UserQuery, input)
      + (if context != [] then PlanContextHeader + context else NoPlanNote)
    case Explainer =>
      ReplaceFirst(ReplaceFirst(prompts.explainer, UserQuery, input), UiPlan, if context != [] then context else "{}")
  }

  /** The planner sees its template with the user's text in place of the
      first `{{user_query}}`, followed by the current plan or, when there is
      none, by the note asking for a new plan. */
  lemma PlannerPromptShape(input: string, context: string, prompts: Prompts, i: nat)
    requires OccursAt(prompts.planner, UserQuery, i)
    requires forall j :: 0 <= j < i ==> !OccursAt(prompts.planner, UserQuery, j)
    requires '$' !in input
    ensures var t := prompts.planner;
            BuildSystemPrompt(Planner, input, context, prompts)
            == t[..i] + input + t[i + |UserQuery|..] + (if context != [] then PlanContextHeader + context else NoPlanNote)
    ensures context != [] ==> EndsWith(BuildSystemPrompt(Planner, input, context, prompts), PlanContextHeader + context)
    ensures context == [] ==> EndsWith(BuildSystemPrompt(Planner, input, context, prompts), NoPlanNote)
  {
    var t := prompts.planner;
    ReplaceFirstAt(t, UserQuery, input, i);
    SubstitutionLiteral(input, UserQuery, t[..i], t[i + |UserQuery|..]);
    var p := BuildSystemPrompt(Planner, input, context, prompts);
    var tail := if context != [] then PlanContextHeader + context else NoPlanNote;
    assert p == ReplaceFirst(t, UserQuery, input) + tail;
    assert p[|p| - |tail|..] == tail;
  }

  /** The explainer sees its template with the user's text in place of the
      first `{{user_query}}` and then the current plan, or `{}` when there is
      none, in place of the first `{{ui_plan}}` of that result. */
  lemma ExplainerPromptShape(input: string, context: string, prompts: Prompts, i: nat, k: nat)
    requires OccursAt(prompts.explainer, UserQuery, i)
    requires forall j :: 0 <= j < i ==> !OccursAt(prompts.explainer, UserQuery, j)
    requires '$' !in input && '$' !in context
    requires var t := prompts.explainer;
             var m := t[..i] + input + t[i + |UserQuery|..];
             OccursAt(m, UiPlan, k) && forall j :: 0 <= j < k ==> !OccursAt(m, UiPlan, j)
    ensures var t := prompts.explainer;
            var m := t[..i] + input + t[i + |UserQuery|..];
            BuildSystemPrompt(Explainer, input, context, prompts)
            == m[..k] + (if context != [] then context else "{}") + m[k + |UiPlan|..]
  {
    var t := prompts.explainer;
    var m := t[..i] + input + t[i + |UserQuery|..];
    ReplaceFirstAt(t, UserQuery, input, i);
    SubstitutionLiteral(input, UserQuery, t[..i], t[i + |UserQuery|..]);
    var plan := if context != [] then context else "{}";
    ReplaceFirstAt(m, UiPlan, plan, k);
    SubstitutionLiteral(plan, UiPlan, m[..k], m[k + |UiPlan|..]);
  }

  /* ---- Streaming ---- */

  const ChunkSize := 64

  /** The chunks `streamText` enqueues from `offset` on. */
  function ChunksFrom(text: string, offset: nat): seq<string>
    decreases |text| - offset
  {
    if offset >= |text| then []
    else [Slice(text, offset, offset + ChunkSize)] + ChunksFrom(text, offset + ChunkSize)
  }

  function Chunks(text: string): seq<string> {
    ChunksFrom(text, 0)
  }

  lemma ConcatCons(x: string, rest: seq<string>)
    ensures Concat([x] + rest) == x + Concat(rest)
  {
    assert ([x] + rest)[1..] == rest;
  }

  /** The chunks put back together are the text. */
  lemma {:induction false} ChunksFromFlatten(text: string, offset: nat)
    requires offset <= |text|
    ensures Concat(ChunksFrom(text, offset)) == text[offset..]
    decreases |text| - offset
  {
    if offset < |text| {
      var next := offset + ChunkSize;
      var chunk := Slice(text, offset, next);
      ConcatCons(chunk, ChunksFrom(text, next));
      if next <= |text| {
        ChunksFromFlatten(text, next);
        assert text[offset..] == text[offset..next] + text[next..];
      } else {
        assert ChunksFrom(text, next) == [];
      }
    }
  }

  /** Every chunk but the last is full, the last is not empty, and there is
      no chunk at all exactly when nothing is left. */
  lemma {:induction false} ChunksFromSizes(text: string, offset: nat)
    ensures var c := ChunksFrom(text, offset);
            && (forall i :: 0 <= i < |c| - 1 ==> |c[i]| == ChunkSize)
            && (c != [] ==> 0 < |c[|c| - 1]| <= ChunkSize)
            && (c == [] <==> |text| <= offset)
    decreases |text| - offset
  {
    if offset < |text| {
      var next := offset + ChunkSize;
      var rest := ChunksFrom(text, next);
      ChunksFromSizes(text, next);
      var c := ChunksFrom(text, offset);
      assert c == [Slice(text, offset, next)] + rest;
      forall i | 0 <= i < |c| - 1 ensures |c[i]| == ChunkSize {
        if i > 0 { assert c[i] == rest[i - 1]; }
      }
      if rest != [] {
        assert c[|c| - 1] == rest[|rest| - 1];
      }
    }
  }

  /** What a client reading the stream receives: the text, cut into full
      chunks of `ChunkSize` characters and a nonempty remainder. */
  lemma ChunksSpec(text: string)
    ensures Concat(Chunks(text)) == text
    ensures forall i :: 0 <= i < |Chunks(text)| - 1 ==> |Chunks(text)[i]| == ChunkSize
    ensures Chunks(text) != [] ==> 0 < |Chunks(text)[|Chunks(text)| - 1]| <= ChunkSize
    ensures Chunks(text) == [] <==> text == []
  {
    ChunksFromFlatten(text, 0);
    ChunksFromSizes(text, 0);
  }

  /** `streamText`'s `start` loop: the chunks in the order it enqueues them. */
  method StreamText(text: string) returns (chunks: seq<string>)
    ensures chunks == Chunks(text)
    ensures Concat(chunks) == text
    ensures forall i :: 0 <= i < |chunks| - 1 ==> |chunks[i]| == ChunkSize
    ensures chunks != [] ==> 0 < |chunks[|chunks| - 1]| <= ChunkSize
  {
    var offset: nat := 0;
    chunks := [];
    while offset < |text|
      invariant chunks + ChunksFrom(text, offset) == Chunks(text)
      decreases |text| - offset
    {
      var chunk := Slice(text, offset, offset + ChunkSize);
      chunks := chunks + [chunk];
      offset := offset + ChunkSize;
    }
    ChunksSpec(text);
  }

  /* ---- The POST handler ---- */

  /** The parsed request body; `None` is an absent or `null` field. Only the
      string form of `input` and `context` is modelled. */
  datatype Request = Request(agent: Option<Json>, input: Option<string>, context: Option<string>, stream: Option<Json>)

  datatype Body =
    | ErrorBody(error: string)
    | ValidationFailure(error: string, details: seq<string>)
    | ContentBody(content: string)

  /** A JSON response with its status, or a `text/plain` stream of chunks. */
  datatype Response = JsonResponse(status: nat, body: Body) | TextStream(chunks: seq<string>)

  const UnknownAgent := "Unknown agent."
  const InputRequired := "Input is required."
  const UnsafePrompt := "Unsafe prompt detected."
  const FailedValidation := "Planner output failed validation."

  /** `agent !== 'planner' && agent !== 'explainer'` decides which agent, if any. */
  function AgentOf(agent: Option<Json>): (r: Option<Agent>)
    ensures r == Some(Planner) <==> agent == Some(JStr("planner"))
    ensures r == Some(Explainer) <==> agent == Some(JStr("explainer"))
    ensures r.None? <==> agent != Some(JStr("planner")) && agent != Some(JStr("explainer"))
  {
    if agent == Some(JStr("planner")) then Some(Planner)
    else if agent == Some(JStr("explainer")) then Some(Explainer)
    else None
  }

  /** `(field ?? '').trim()`. */
  function TrimmedField(field: Option<string>): string {
    Trim(if field.Some? then field.value else [])
  }

  /** The request passes the three guards and reaches the model. */
  predicate Admitted(req: Request) {
    var input := TrimmedField(req.input);
    var context := TrimmedField(req.context);
    && AgentOf(req.agent).Some?
    && input != []
    && !IsPromptInjection(input)
    && (context == [] || !IsPromptInjection(context))
  }

  /** The reply for a finished text: streamed when `stream === true`,
      otherwise as `{ content }`. */
  function Deliver(text: string, stream: bool): Response {
    if stream then TextStream(Chunks(text)) else JsonResponse(200, ContentBody(text))
  }

  /** The part of `POST` after the model has answered with `content`: the
      explainer's text is sent as it is; the planner's is parsed, validated
      and sent re-serialized. */
  function Respond(agent: Agent, content: string, stream: bool,
                   parse: string -> Result<Json>, stringify: Json -> string): Response
  {
    if agent == Explainer then Deliver(content, stream)
    else
      match ParsePlannerResponse(content, parse)
      case Err(message) => JsonResponse(500, ErrorBody(message))
      case Ok(plan) =>
        var errors := PlanErrors(plan);
        if errors != [] then JsonResponse(400, ValidationFailure(FailedValidation, errors))
        else Deliver(stringify(plan), stream)
  }

  /** `POST`. `llm` is `callLLM` (system prompt, user prompt), with `Err`
      for the exception it may throw; `parse` is `JSON.parse` and
      `stringify` is `JSON.stringify`. */
  function Post(req: Request, prompts: Prompts, llm: (string, string) -> Result<string>,
                parse: string -> Result<Json>, stringify: Json -> string): Response
  {
    var input := TrimmedField(req.input);
    var context := TrimmedField(req.context);
    match AgentOf(req.agent)
    case None => JsonResponse(400, ErrorBody(UnknownAgent))
    case Some(agent) =>
      if input == [] then JsonResponse(400, ErrorBody(InputRequired))
      else if IsPromptInjection(input) || (context != [] && IsPromptInjection(context)) then
        JsonResponse(400, ErrorBody(UnsafePrompt))
      else
        match llm(BuildSystemPrompt(agent, input, context, prompts), input)
        case Err(message) => JsonResponse(500, ErrorBody(message))
        case Ok(content) => Respond(agent, content, req.stream == Some(JBool(true)), parse, stringify)
  }

  /** The text a successful reply carries, whichever way it is sent. */
  function Delivered(resp: Response): Option<string> {
    match resp
    case TextStream(chunks) => Some(Concat(chunks))
    case JsonResponse(status, ContentBody(content)) => if status == 200 then Some(content) else None
    case _ => None
  }

  /** The guards in their order: an unknown agent is refused whatever else
      the body holds, then a blank input, then a flagged input or context. */
  lemma PostGuards(req: Request, prompts: Prompts, llm: (string, string) -> Result<string>,
                   parse: string -> Result<Json>, stringify: Json -> string)
    ensures AgentOf(req.agent).None?
            ==> Post(req, prompts, llm, parse, stringify) == JsonResponse(400, ErrorBody(UnknownAgent))
    ensures AgentOf(req.agent).Some? && TrimmedField(req.input) == []
            ==> Post(req, prompts, llm, parse, stringify) == JsonResponse(400, ErrorBody(InputRequired))
    ensures var input := TrimmedField(req.input);
            var context := TrimmedField(req.context);
            AgentOf(req.agent).Some? && input != []
            && (IsPromptInjection(input) || (context != [] && IsPromptInjection(context)))
            ==> Post(req, prompts, llm, parse, stringify) == JsonResponse(400, ErrorBody(UnsafePrompt))
    ensures !Admitted(req) ==> Post(req, prompts, llm, parse, stringify).JsonResponse?
                               && Post(req, prompts, llm, parse, stringify).status == 400
  {
  }

  /** A refused request never reaches the model: the reply is the same
      whatever the model, the parser or the serializer would do. */
  lemma RefusedIgnoresModel(req: Request, prompts: Prompts,
                            llm1: (string, string) -> Result<string>, llm2: (string, string) -> Result<string>,
                            parse1: string -> Result<Json>, parse2: string -> Result<Json>,
                            stringify1: Json -> string, stringify2: Json -> string)
    requires !Admitted(req)
    ensures Post(req, prompts, llm1, parse1, stringify1) == Post(req, prompts, llm2, parse2, stringify2)
  {
  }

  /** What the model is asked, and what it answers, for an admitted request. */
  function ModelReply(req: Request, prompts: Prompts, llm: (string, string) -> Result<string>): Result<string>
    requires AgentOf(req.agent).Some?
  {
    var input := TrimmedField(req.input);
    llm(BuildSystemPrompt(AgentOf(req.agent).value, input, TrimmedField(req.context), prompts), input)
  }

  /** An admitted request is answered by the model with the system prompt of
      its agent and the trimmed input: a failure of the model becomes a 500
      carrying its message, an answer is handed on to `Respond`. */
  lemma AdmittedReply(req: Request, prompts: Prompts, llm: (string, string) -> Result<string>,
                      parse: string -> Result<Json>, stringify: Json -> string)
    requires Admitted(req)
    ensures ModelReply(req, prompts, llm).Err?
            ==> Post(req, prompts, llm, parse, stringify) == JsonResponse(500, ErrorBody(ModelReply(req, prompts, llm).message))
    ensures ModelReply(req, prompts, llm).Ok?
            ==> Post(req, prompts, llm, parse, stringify)
                == Respond(AgentOf(req.agent).value, ModelReply(req, prompts, llm).value, req.stream == Some(JBool(true)), parse, stringify)
  {
  }

  /** A planner reply that cannot be read as JSON becomes a 500 carrying the
      parse error; one that parses but fails validation becomes a 400 whose
      details are exactly the validator's errors. */
  lemma PlannerFailures(content: string, stream: bool, parse: string -> Result<Json>, stringify: Json -> string)
    ensures var parsed := ParsePlannerResponse(content, parse);
            parsed.Err? ==> Respond(Planner, content, stream, parse, stringify) == JsonResponse(500, ErrorBody(parsed.message))
    ensures var parsed := ParsePlannerResponse(content, parse);
            parsed.Ok? && !ValidPlan(parsed.value)
            ==> Respond(Planner, content, stream, parse, stringify)
                == JsonResponse(400, ValidationFailure(FailedValidation, PlanErrors(parsed.value)))
  {
    var parsed := ParsePlannerResponse(content, parse);
    if parsed.Ok? {
      PlanErrorsEmptyIff(parsed.value);
    }
  }

  /** The text `Deliver` sends is the text it was given. */
  lemma DeliverCarries(text: string, stream: bool)
    ensures Delivered(Deliver(text, stream)) == Some(text)
  {
    ChunksSpec(text);
  }

  /** The planner only ever delivers a valid plan: whatever it sends back,
      streamed or not, is the serialization of a plan the validator accepts,
      namely the plan recovered from the model's reply. */
  lemma PlannerDeliversValidPlan(content: string, stream: bool, parse: string -> Result<Json>, stringify: Json -> string)
    requires Delivered(Respond(Planner, content, stream, parse, stringify)).Some?
    ensures ParsePlannerResponse(content, parse).Ok?
    ensures var plan := ParsePlannerResponse(content, parse).value;
            ValidPlan(plan) && Delivered(Respond(Planner, content, stream, parse, stringify)) == Some(stringify(plan))
  {
    var plan := ParsePlannerResponse(content, parse).value;
    PlanErrorsEmptyIff(plan);
    DeliverCarries(stringify(plan), stream);
  }

  /** Conversely a valid plan is always delivered. */
  lemma PlannerDeliversEveryValidPlan(content: string, stream: bool, parse: string -> Result<Json>, stringify: Json -> string)
    requires ParsePlannerResponse(content, parse).Ok? && ValidPlan(ParsePlannerResponse(content, parse).value)
    ensures Delivered(Respond(Planner, content, stream, parse, stringify))
            == Some(stringify(ParsePlannerResponse(content, parse).value))
  {
    var plan := ParsePlannerResponse(content, parse).value;
    PlanErrorsEmptyIff(plan);
    DeliverCarries(stringify(plan), stream);
  }

  /** The explainer delivers the model's text unchanged, streamed or not. */
  lemma ExplainerDeliversModelText(content: string, stream: bool, parse: string -> Result<Json>, stringify: Json -> string)
    ensures Delivered(Respond(Explainer, content, stream, parse, stringify)) == Some(content)
  {
    DeliverCarries(content, stream);
  }

  /** A request that is answered successfully passed every guard, and its
      reply is what `Respond` makes of the model's answer. */
  lemma DeliveredPassedGuards(req: Request, prompts: Prompts, llm: (string, string) -> Result<string>,
                              parse: string -> Result<Json>, stringify: Json -> string)
    requires Delivered(Post(req, prompts, llm, parse, stringify)).Some?
    ensures Admitted(req) && ModelReply(req, prompts, llm).Ok?
    ensures Post(req, prompts, llm, parse, stringify)
            == Respond(AgentOf(req.agent).value, ModelReply(req, prompts, llm).value, req.stream == Some(JBool(true)), parse, stringify)
  {
    if !Admitted(req) {
      PostGuards(req, prompts, llm, parse, stringify);
      assert false;
    }
    AdmittedReply(req, prompts, llm, parse, stringify);
  }

  /** End to end: the planner endpoint answers with a successful reply only
      when the model's text yields a valid plan, and that reply is the plan. */
  lemma PostPlannerReplyIsValidPlan(req: Request, prompts: Prompts, llm: (string, string) -> Result<string>,
                                    parse: string -> Result<Json>, stringify: Json -> string)
    requires AgentOf(req.agent) == Some(Planner)
    requires Delivered(Post(req, prompts, llm, parse, stringify)).Some?
    ensures Admitted(req) && ModelReply(req, prompts, llm).Ok?
    ensures var plan := ParsePlannerResponse(ModelReply(req, prompts, llm).value, parse);
            && plan.Ok? && ValidPlan(plan.value)
            && Delivered(Post(req, prompts, llm, parse, stringify)) == Some(stringify(plan.value))
  {
    DeliveredPassedGuards(req, prompts, llm, parse, stringify);
    PlannerDeliversValidPlan(ModelReply(req, prompts, llm).value, req.stream == Some(JBool(true)), parse, stringify);
  }
}
