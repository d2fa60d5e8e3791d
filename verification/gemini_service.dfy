/** The response post-processing of the model-calling client
    (services/geminiService.ts). The model itself is not modelled: each call
    is a request value going out and a `Response` coming back. */
module GeminiService {
  import opened Wrappers
  import opened Types
  import opened JsStrings

  /** What one model call delivers to the client: a body (for JSON-mode calls,
      the object its text parses to), no text at all (`response.text` empty or
      undefined), or a thrown error (network, SDK or `JSON.parse` failure). */
  datatype Response<T> = Body(value: T) | NoText | Threw

  /** The ambiguity check's answer: `{ isAmbiguous, question? }`. */
  datatype AmbiguityVerdict = AmbiguityVerdict(isAmbiguous: bool, question: Option<string>)

  /** The refinement call's answer: `{ result: BrainDumpResult | null, reply }`. */
  datatype Refinement = Refinement(result: Option<BrainDumpResult>, reply: string)

  /** Why a client function threw. */
  datatype ServiceError =
    | MissingApiKey      // "API Key is missing"
    | CallFailed         // the model call itself threw
    | BlendyFailed       // "Blendy failed to synthesize."
    | RefinementFailed   // "Refinement failed."

  /** Everything a model call is given, per client function: the data each
      prompt is built from. */
  datatype Request =
    | CheckRequest(input: string)
    | ListieRequest(input: string)
    | LinkyRequest(input: string, listie: string)
    | WordyRequest(input: string)
    | SparkyRequest(listie: string, wordy: string)
    | BlendyRequest(input: string, listie: string, linky: string, wordy: string, sparky: string)
    | RefineRequest(current: BrainDumpResult, historyText: string, originalInput: string)

  /** The agent a relay request is addressed to. */
  function Addressee(q: Request): Option<AgentId> {
    match q
    case ListieRequest(_) => Some(Listie)
    case LinkyRequest(_, _) => Some(Linky)
    case WordyRequest(_) => Some(Wordy)
    case SparkyRequest(_, _) => Some(Sparky)
    case BlendyRequest(_, _, _, _, _) => Some(Blendy)
    case _ => None
  }

  /** `getAI`: a client exists only when an API key is configured; an empty or
      unset `API_KEY` is falsy and makes the call throw. */
  function GetAI(apiKey: string): (r: Result<string, ServiceError>)
    ensures r.Success? <==> apiKey != ""
    ensures r.Failure? ==> r.error == MissingApiKey
  {
    if apiKey == "" then Failure(MissingApiKey) else Success(apiKey)
  }

  /** `checkAmbiguity`: an empty response means "not ambiguous". */
  function CheckAmbiguity(apiKey: string, response: Response<AmbiguityVerdict>)
    : (r: Result<AmbiguityVerdict, ServiceError>)
    ensures r.Success? <==> apiKey != "" && !response.Threw?
    ensures apiKey == "" ==> r == Failure(MissingApiKey)
    ensures r.Success? && response.NoText? ==> !r.value.isAmbiguous && r.value.question.None?
    ensures r.Success? && response.Body? ==> r.value == response.value
  {
    var _ :- GetAI(apiKey);
    match response
    case Threw => Failure(CallFailed)
    case NoText => Success(AmbiguityVerdict(false, None))
    case Body(verdict) => Success(verdict)
  }

  /** The four agents whose answer is free text. */
  type AnalystId = id: AgentId | id != Blendy witness Listie

  /** The text an analyst reports when the model returns none. */
  const ListieFallback := "No actionable points found."
  const LinkyFallback := "No connections found."
  const WordyFallback := "Could not simplify text."
  const SparkyFallback := "No challenges identified."

  function Fallback(id: AnalystId): (text: string)
    ensures text != ""
  {
    if id == Listie then ListieFallback
    else if id == Linky then LinkyFallback
    else if id == Wordy then WordyFallback
    else SparkyFallback
  }

  /** Each analyst has its own fallback text, so a fallback names its agent. */
  lemma FallbacksDistinct()
    ensures forall a: AnalystId, b: AnalystId :: a != b ==> Fallback(a) != Fallback(b)
  {
  }

  /** `runListieAgent`, `runLinkyAgent`, `runWordyAgent`, `runSparkyAgent`:
      `response.text || fallback`. An analyst never reports an empty text. */
  function RunAnalyst(id: AnalystId, apiKey: string, response: Response<string>)
    : (r: Result<string, ServiceError>)
    ensures r.Success? <==> apiKey != "" && !response.Threw?
    ensures apiKey == "" ==> r == Failure(MissingApiKey)
    ensures r.Success? ==> r.value != ""
    ensures r.Success? && response.Body? && response.value != "" ==> r.value == response.value
    ensures r.Success? && (response.NoText? || response == Body("")) ==> r.value == Fallback(id)
  {
    var _ :- GetAI(apiKey);
    match response
    case Threw => Failure(CallFailed)
    case NoText => Success(Fallback(id))
    case Body(text) => Success(if text != "" then text else Fallback(id))
  }

  /** `runBlendyAgent`: no text is an error, never a result. */
  function RunBlendy(apiKey: string, response: Response<BrainDumpResult>)
    : (r: Result<BrainDumpResult, ServiceError>)
    ensures r.Success? <==> apiKey != "" && response.Body?
    ensures apiKey == "" ==> r == Failure(MissingApiKey)
    ensures apiKey != "" && response.NoText? ==> r == Failure(BlendyFailed)
    ensures r.Success? ==> r.value == response.value
  {
    var _ :- GetAI(apiKey);
    match response
    case Threw => Failure(CallFailed)
    case NoText => Failure(BlendyFailed)
    case Body(result) => Success(result)
  }

  /** `refineResult`: no text is an error. */
  function RefineResult(apiKey: string, response: Response<Refinement>)
    : (r: Result<Refinement, ServiceError>)
    ensures r.Success? <==> apiKey != "" && response.Body?
    ensures apiKey == "" ==> r == Failure(MissingApiKey)
    ensures apiKey != "" && response.NoText? ==> r == Failure(RefinementFailed)
    ensures r.Success? ==> r.value == response.value
  {
    var _ :- GetAI(apiKey);
    match response
    case Threw => Failure(CallFailed)
    case NoText => Failure(RefinementFailed)
    case Body(refinement) => Success(refinement)
  }

  /** The speaker label of one history line: users are "User", agent replies
      and system notices alike are "Agent". */
  function Speaker(role: Role): string {
    if role == User then "User" else "Agent"
  }

  /** One line of the history text. */
  function Segment(m: ConversationMessage): string {
    Speaker(m.role) + ": " + m.text
  }

  /** `historyText`: the segments of the messages, in order, joined by newlines. */
  function HistoryText(history: seq<ConversationMessage>): (text: string)
    ensures text == "" <==> history == []
  {
    Join(seq(|history|, i requires 0 <= i < |history| => Segment(history[i])), "\n")
  }

  /** What `refineResult` sends to the model. */
  function RefinementRequest(current: BrainDumpResult, history: seq<ConversationMessage>, originalInput: string)
    : Request
  {
    RefineRequest(current, HistoryText(history), originalInput)
  }

  /** The history text of no messages is empty; of one message, its segment. */
  lemma HistoryTextShort(m: ConversationMessage)
    ensures HistoryText([]) == ""
    ensures HistoryText([m]) == Segment(m)
  {
  }

  /** Appending a message to a non-empty history appends a newline and the
      message's segment, so segments appear once each and in message order. */
  lemma HistoryTextSnoc(history: seq<ConversationMessage>, m: ConversationMessage)
    requires history != []
    ensures HistoryText(history + [m]) == HistoryText(history) + "\n" + Segment(m)
  {
    var parts := seq(|history|, i requires 0 <= i < |history| => Segment(history[i]));
    var h' := history + [m];
    var parts' := seq(|h'|, i requires 0 <= i < |h'| => Segment(h'[i]));
    assert parts' == parts + [Segment(m)];
    JoinSnoc(parts, Segment(m), "\n");
  }

  /** The first message's segment leads the history text, followed by the rest's. */
  lemma HistoryTextCons(m: ConversationMessage, rest: seq<ConversationMessage>)
    requires rest != []
    ensures HistoryText([m] + rest) == Segment(m) + "\n" + HistoryText(rest)
  {
    var h := [m] + rest;
    var parts := seq(|h|, i requires 0 <= i < |h| => Segment(h[i]));
    var tail := seq(|rest|, i requires 0 <= i < |rest| => Segment(rest[i]));
    assert parts[1..] == tail;
  }
}
