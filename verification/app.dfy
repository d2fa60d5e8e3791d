/** The client-side orchestration of App.tsx as a deterministic state machine.
    The React state variables form `Model`; `pending` is the `await` the
    running handler is suspended in, with the values its continuation
    captured. Model answers arrive as events, and the UI guards decide which
    events are enabled. */
module App {
  import opened Wrappers
  import opened Types
  import opened JsStrings
  import opened Constants
  import opened GeminiService

  /** The suspended continuation, if any. */
  datatype Pending =
    | Settled
      // `startProcess` awaits `checkAmbiguity(text)`
    | AwaitingCheck(text: string)
      // `runFullPipeline(text)` awaits agent number `|outputs|` of the relay
    | AwaitingAgent(text: string, outputs: seq<string>)
      // `handleRefinement` awaits `refineResult`
    | AwaitingRefinement(request: Request)

  /** The application's state variables. */
  datatype Model = Model(
    appState: AppState,
    result: Option<BrainDumpResult>,
    currentAgent: AgentId,
    question: Option<string>,
    originalInput: string,
    history: seq<ConversationMessage>,
    isRefining: bool,
    pending: Pending)

  /** The initial values of the `useState` hooks. */
  const Initial: Model := Model(Idle, None, Listie, None, "", [], false, Settled)

  /** Something that happens to the application: a user action or a model answer. */
  datatype Event =
    | Dump(text: string)                                    // the input's submit
    | CheckAnswered(verdict: Response<AmbiguityVerdict>)
    | Clarify(answer: string)                               // the ambiguity modal's answer
    | AgentAnswered(analysis: Response<string>)              // Listie, Linky, Wordy or Sparky
    | BlendyAnswered(synthesis: Response<BrainDumpResult>)
    | Refine(message: string, now: nat)                     // the chat's send
    | RefinementAnswered(refinement: Response<Refinement>, now: nat)
    | Reset                                                 // the result screen's reset
    | TryAgain                                              // the error screen's button

  /** The agent `runFullPipeline` shows after `k` relay steps have succeeded,
      as App.tsx spells it out call by call. */
  function RelayAgent(k: nat): AgentId
    requires k < 5
  {
    if k == 0 then Listie
    else if k == 1 then Linky
    else if k == 2 then Wordy
    else if k == 3 then Sparky
    else Blendy
  }

  /** The request of relay step `|outputs|`, built from the outputs so far
      (listie, linky, wordy, sparky in that order). */
  function PipelineRequest(text: string, outputs: seq<string>): (q: Request)
    requires |outputs| < 5
    ensures Addressee(q) == Some(AgentOrder[|outputs|])
  {
    match |outputs|
    case 0 => ListieRequest(text)
    case 1 => LinkyRequest(text, outputs[0])
    case 2 => WordyRequest(text)
    case 3 => SparkyRequest(outputs[0], outputs[2])
    case _ => BlendyRequest(text, outputs[0], outputs[1], outputs[2], outputs[3])
  }

  /** The model call the application is waiting for, if any. */
  function InFlight(p: Pending): Option<Request> {
    match p
    case Settled => None
    case AwaitingCheck(text) => Some(CheckRequest(text))
    case AwaitingAgent(text, outputs) =>
      if |outputs| < 5 then Some(PipelineRequest(text, outputs)) else None
    case AwaitingRefinement(request) => Some(request)
  }

  /** The input section's `isProcessing` flag. */
  predicate IsProcessing(s: Model) {
    s.appState == Processing || s.appState == AmbiguityCheck
  }

  /** Whether the check's answer asks the user a question: a key is
      configured, the check answered, and it is ambiguous with a non-empty question. */
  predicate AsksQuestion(apiKey: string, verdict: Response<AmbiguityVerdict>) {
    && apiKey != ""
    && verdict.Body?
    && verdict.value.isAmbiguous
    && verdict.value.question.Some?
    && verdict.value.question.value != ""
  }

  /** `startProcess` up to its first `await`: blank text is ignored; otherwise
      the text becomes the original input and the ambiguity check is issued. */
  function StartProcess(s: Model, text: string): (r: Model)
    ensures IsBlank(text) ==> r == s
    ensures !IsBlank(text) ==>
      && r.appState == AmbiguityCheck
      && r.originalInput == text
      && InFlight(r.pending) == Some(CheckRequest(text))
      && r == s.(appState := r.appState, originalInput := r.originalInput, pending := r.pending)
  {
    if IsBlank(text) then s
    else s.(originalInput := text, appState := AmbiguityCheck, pending := AwaitingCheck(text))
  }

  /** `runFullPipeline` up to its first `await`: processing starts at Listie. */
  function RunFullPipeline(s: Model, text: string): (r: Model)
    ensures r.appState == Processing && r.currentAgent == AgentOrder[0]
    ensures InFlight(r.pending) == Some(ListieRequest(text))
    ensures r == s.(appState := r.appState, currentAgent := r.currentAgent, pending := r.pending)
  {
    s.(appState := Processing, currentAgent := RelayAgent(0), pending := AwaitingAgent(text, []))
  }

  /** The rest of `startProcess` once the check answers: a question keeps the
      ambiguity screen up; anything else, a failed check included, runs the
      relay on the same text. */
  function OnCheckAnswered(apiKey: string, s: Model, text: string, verdict: Response<AmbiguityVerdict>)
    : (r: Model)
    ensures AsksQuestion(apiKey, verdict) ==>
      r == s.(question := verdict.value.question, pending := Settled)
    ensures !AsksQuestion(apiKey, verdict) ==> r == RunFullPipeline(s, text)
  {
    match CheckAmbiguity(apiKey, verdict)
    case Success(check) =>
      if check.isAmbiguous && check.question.Some? && check.question.value != "" then
        s.(question := check.question, pending := Settled)
      else
        RunFullPipeline(s, text)
    case Failure(_) => RunFullPipeline(s, text)
  }

  /** The text `handleClarification` runs the relay on. */
  function Clarified(original: string, answer: string): string {
    original + "\n\n(User Clarification: " + answer + ")"
  }

  /** `handleClarification`: the answer is appended to the original input,
      the question is dismissed and the relay runs on the combined text. */
  function HandleClarification(s: Model, answer: string): (r: Model)
    ensures r.originalInput == Clarified(s.originalInput, answer)
    ensures r.originalInput[..|s.originalInput|] == s.originalInput
    ensures r.question.None?
    ensures r.appState == Processing && InFlight(r.pending) == Some(ListieRequest(r.originalInput))
    ensures r == s.(originalInput := r.originalInput, question := None, appState := Processing,
                    currentAgent := AgentOrder[0], pending := r.pending)
  {
    var combined := Clarified(s.originalInput, answer);
    RunFullPipeline(s.(originalInput := combined, question := None), combined)
  }

  /** One of Listie, Linky, Wordy, Sparky answered: on success its output is
      kept and the next agent is shown; on failure the screen turns to the error. */
  function OnAgentAnswered(apiKey: string, s: Model, text: string, outputs: seq<string>, answer: Response<string>)
    : (r: Model)
    requires |outputs| < 4
    ensures RunAnalyst(RelayAgent(|outputs|), apiKey, answer).Failure? ==>
      r == s.(appState := Error, pending := Settled)
    ensures RunAnalyst(RelayAgent(|outputs|), apiKey, answer).Success? ==>
      && r.pending.AwaitingAgent? && r.pending.text == text
      && r.pending.outputs == outputs + [RunAnalyst(RelayAgent(|outputs|), apiKey, answer).value]
      && r.currentAgent == RelayAgent(|outputs| + 1)
      && r == s.(currentAgent := r.currentAgent, pending := r.pending)
  {
    match RunAnalyst(RelayAgent(|outputs|), apiKey, answer)
    case Failure(_) => s.(appState := Error, pending := Settled)
    case Success(out) =>
      s.(currentAgent := RelayAgent(|outputs| + 1), pending := AwaitingAgent(text, outputs + [out]))
  }

  /** Blendy answered: its synthesis becomes the result and the result screen
      shows; on failure the screen turns to the error with the result untouched. */
  function OnBlendyAnswered(apiKey: string, s: Model, synthesis: Response<BrainDumpResult>): (r: Model)
    ensures RunBlendy(apiKey, synthesis).Success? ==>
      r == s.(result := Some(synthesis.value), appState := Result, pending := Settled)
    ensures RunBlendy(apiKey, synthesis).Failure? ==>
      r == s.(appState := Error, pending := Settled)
  {
    match RunBlendy(apiKey, synthesis)
    case Failure(_) => s.(appState := Error, pending := Settled)
    case Success(result) => s.(result := Some(result), appState := Result, pending := Settled)
  }

  /** The user's chat message. */
  function UserMessage(text: string, now: nat): ConversationMessage {
    ConversationMessage(User, Some(Chat), None, text, now)
  }

  /** The notice that the plan changed. */
  function UpdateNotice(now: nat): ConversationMessage {
    ConversationMessage(System, Some(Update), None, "Plan Updated", now)
  }

  /** Blendy's chat reply. */
  function BlendyReply(text: string, now: nat): ConversationMessage {
    ConversationMessage(Agent, Some(Chat), Some(Blendy), text, now)
  }

  /** `handleRefinement` up to its `await`: without a result nothing happens;
      otherwise the user's message joins the history and the refinement is
      requested with the whole history. */
  function HandleRefinement(s: Model, message: string, now: nat): (r: Model)
    ensures s.result.None? ==> r == s
    ensures s.result.Some? ==>
      && r.history == s.history + [UserMessage(message, now)]
      && r.isRefining
      && InFlight(r.pending) == Some(RefinementRequest(s.result.value, r.history, s.originalInput))
      && r == s.(history := r.history, isRefining := true, pending := r.pending)
  {
    if s.result.None? then s
    else
      var history := s.history + [UserMessage(message, now)];
      s.(history := history, isRefining := true,
         pending := AwaitingRefinement(RefinementRequest(s.result.value, history, s.originalInput)))
  }

  /** The rest of `handleRefinement`: a new result replaces the old one and is
      announced; Blendy's reply always follows; a failure adds nothing. The
      refining flag clears either way. */
  function OnRefinementAnswered(apiKey: string, s: Model, refinement: Response<Refinement>, now: nat)
    : (r: Model)
    ensures !r.isRefining && r.pending.Settled?
    ensures RefineResult(apiKey, refinement).Failure? ==> r == s.(isRefining := false, pending := Settled)
    ensures RefineResult(apiKey, refinement).Success? ==>
      var answer := refinement.value;
      && r.result == (if answer.result.Some? then answer.result else s.result)
      && r.history == s.history
                      + (if answer.result.Some? then [UpdateNotice(now)] else [])
                      + [BlendyReply(answer.reply, now + 50)]
    ensures RefineResult(apiKey, refinement).Success? ==>
      r == s.(result := r.result, history := r.history, isRefining := false, pending := Settled)
  {
    match RefineResult(apiKey, refinement)
    case Failure(_) => s.(isRefining := false, pending := Settled)
    case Success(answer) =>
      var notices := if answer.result.Some? then [UpdateNotice(now)] else [];
      s.(result := if answer.result.Some? then answer.result else s.result,
         history := s.history + notices + [BlendyReply(answer.reply, now + 50)],
         isRefining := false, pending := Settled)
  }

  /** `resetApp`: back to the start with nothing remembered. The shown agent
      and the refining flag are not touched. */
  function ResetApp(s: Model): (r: Model)
    ensures r.appState == Idle && r.result.None? && r.question.None?
    ensures r.history == [] && r.originalInput == ""
    ensures r.currentAgent == s.currentAgent && r.isRefining == s.isRefining && r.pending == s.pending
  {
    s.(result := None, appState := Idle, question := None, history := [], originalInput := "")
  }

  /** The error screen's "Try Again": only the screen changes. */
  function RetryFromError(s: Model): (r: Model)
    ensures r.appState == Idle
    ensures r == s.(appState := Idle)
  {
    s.(appState := Idle)
  }

  /** When the UI lets an event happen. User actions need the application to
      be idle between handlers; an answer needs the matching `await`.
      - submit: non-blank text and the input not processing;
      - clarify: the modal is shown (ambiguity screen with a question) and the answer is non-blank;
      - chat send and reset: the result screen is shown; send also needs a
        non-blank message and no refinement running;
      - try again: the error screen is shown. */
  predicate Enabled(s: Model, e: Event) {
    match e
    case Dump(text) => s.pending.Settled? && !IsProcessing(s) && !IsBlank(text)
    case CheckAnswered(_) => s.pending.AwaitingCheck?
    case Clarify(answer) =>
      && s.pending.Settled? && s.appState == AmbiguityCheck
      && s.question.Some? && s.question.value != "" && !IsBlank(answer)
    case AgentAnswered(_) => s.pending.AwaitingAgent? && |s.pending.outputs| < 4
    case BlendyAnswered(_) => s.pending.AwaitingAgent? && |s.pending.outputs| == 4
    case Refine(message, _) =>
      && s.pending.Settled? && s.appState == Result && s.result.Some?
      && !s.isRefining && !IsBlank(message)
    case RefinementAnswered(_, _) => s.pending.AwaitingRefinement?
    case Reset => s.pending.Settled? && s.appState == Result && s.result.Some?
    case TryAgain => s.pending.Settled? && s.appState == Error
  }

  /** One transition; an event the UI does not allow changes nothing. */
  function Step(apiKey: string, s: Model, e: Event): (r: Model)
    ensures !Enabled(s, e) ==> r == s
  {
    if !Enabled(s, e) then s
    else
      match e
      case Dump(text) => StartProcess(s, text)
      case CheckAnswered(verdict) => OnCheckAnswered(apiKey, s, s.pending.text, verdict)
      case Clarify(answer) => HandleClarification(s, answer)
      case AgentAnswered(analysis) => OnAgentAnswered(apiKey, s, s.pending.text, s.pending.outputs, analysis)
      case BlendyAnswered(synthesis) => OnBlendyAnswered(apiKey, s, synthesis)
      case Refine(message, now) => HandleRefinement(s, message, now)
      case RefinementAnswered(refinement, now) => OnRefinementAnswered(apiKey, s, refinement, now)
      case Reset => ResetApp(s)
      case TryAgain => RetryFromError(s)
  }

  /** The state after a sequence of events. */
  function Run(apiKey: string, s: Model, events: seq<Event>): Model
    decreases |events|
  {
    if |events| == 0 then s else Run(apiKey, Step(apiKey, s, events[0]), events[1..])
  }
}
