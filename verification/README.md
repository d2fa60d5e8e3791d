# Brain Dump orchestration, modelled in Dafny

Brain Dump is a single-page web application. A user "dumps" free text. A
hosted language model first checks whether the text is too vague to work
with, and may ask one clarifying question. Then five agent personas run as a
relay: Listie, Linky, Wordy and Sparky analyse the text, and Blendy
synthesises a structured result with an interpretation, key points, a
clarity score and badges. A chat loop then lets the user refine the result.

This project models the part with real control flow: the client-side
orchestration in `App.tsx`. It is a deterministic state machine. Every model
call is an event that brings back a `Response`: a body, no text, or a thrown
error. Three small pure pieces go with it: the relay order and agent table
(`constants.ts`), the progress-bar classification of the processing screen
(`components/ProcessingTheater.tsx`), and the response post-processing of the
model client (`services/geminiService.ts`).

Files, one module each:

- `wrappers.dfy` (`Wrappers`): `Option` and `Result`.
- `types.dfy` (`Types`): the records and enumerations of `types.ts`.
- `js_strings.dfy` (`JsStrings`): JavaScript's `trim` (the blank-input test) and `join`.
- `constants.dfy` (`Constants`): `AGENTS`, `AGENT_ORDER`, and `indexOf`.
- `processing_theater.dfy` (`ProcessingTheater`): the relay-race progress header.
- `gemini_service.dfy` (`GeminiService`): what each client function makes of the model's response, the request each call sends, and the chat-history text.
- `app.dfy` (`App`): the state variables, one handler function per `App.tsx` handler, the UI guards (`Enabled`) and the transition function `Step`.
- `app_properties.dfy` (`AppProperties`): the invariant of reachable states, and the relay checked against a straight-line reference.
- `app_scenarios.dfy` (`AppScenarios`): submit, check, clarify, refine, reset and missing-key scenarios.

How the machine works. `App.Model` holds the React state variables. It also
holds `pending`, the `await` a handler is suspended in, together with the
values its continuation captured. A user action is enabled only when the UI
would allow it and no handler is suspended. A model answer is enabled only
when its `await` is pending. A disabled event changes nothing. The API key is
a parameter of `Step`. An unset or empty key is falsy in JavaScript, so `""`
stands for "missing".

Blank input is any input whose `trim()` is empty, so whitespace-only input
is refused too (App.tsx:61, components/InputSection.tsx:36).

## Model

| member | source | states |
|---|---|---|
| JsStrings.Trim | App.tsx:61 | The trimmed text is the infix of the input between its leading and trailing whitespace: every character cut away is JavaScript whitespace, a non-empty result starts and ends with a non-whitespace character, and the result is empty exactly when the input is all whitespace. |
| JsStrings.JoinSnoc | services/geminiService.ts:205 | Joining one more part appends exactly the separator and that part. |
| Constants.Agents | constants.ts:4-55 | The configuration stored under each agent id carries that same id. |
| Constants.AgentOrderIsPermutation | constants.ts:57 | `AGENT_ORDER` has five entries, lists every `AgentId`, and repeats none, so it is a permutation of the type in types.ts:9. |
| Constants.AgentOrderEnds | constants.ts:57 | The relay order begins with Listie and ends with Blendy. |
| Constants.AgentNamesDistinct | constants.ts:4-55 | No two agents share a display name. |
| Constants.IndexOf | components/ProcessingTheater.tsx:16 | `indexOf` gives -1 exactly when the element is absent. Otherwise it gives a position holding the element, and no earlier position holds it. |
| ProcessingTheater.CurrentStepIndex | components/ProcessingTheater.tsx:16 | The step index of every agent lies in 0..4, and `AGENT_ORDER` holds that agent there and nowhere before. |
| ProcessingTheater.CurrentStepIndexOfPosition | components/ProcessingTheater.tsx:16 | The agent at position k of `AGENT_ORDER` has step index k. |
| ProcessingTheater.ProgressBar | components/ProcessingTheater.tsx:33-65 | One step per agent, in relay order. Past means before the current index, and current means the working agent. Past steps show complete, the current step working, the rest idle. Steps after the current one are dimmed. Every step but the last has a connector, highlighted iff its step is past. Only past steps get a checkmark. |
| ProcessingTheater.ExactlyOneCurrent | components/ProcessingTheater.tsx:35 | Exactly one step is current, and it sits at the current index. |
| ProcessingTheater.PastStepsPrecedeCurrent | components/ProcessingTheater.tsx:34-35 | The number of past steps equals the current index. Steps after it are neither past nor current. |
| ProcessingTheater.ConnectorCount | components/ProcessingTheater.tsx:40 | Five agents give four connecting lines. |
| GeminiService.GetAI | services/geminiService.ts:5-10 | A client exists exactly when an API key is configured. Otherwise the call throws "API Key is missing". |
| GeminiService.CheckAmbiguity | services/geminiService.ts:15-43 | The check succeeds iff a key is present and the call did not throw. Empty text means "not ambiguous, no question". Otherwise the model's verdict is passed through. |
| GeminiService.FallbacksDistinct | services/geminiService.ts:48-126 | The four analysts have four different fallback texts. |
| GeminiService.RunAnalyst | services/geminiService.ts:48-126 | Listie, Linky, Wordy and Sparky succeed iff a key is present and the call did not throw. Non-empty model text is returned unchanged, and empty text gives the agent's fallback. The output is never empty. |
| GeminiService.RunBlendy | services/geminiService.ts:131-195 | Blendy succeeds iff a key is present and text came back, and then returns that synthesis. Empty text raises "Blendy failed to synthesize." and never yields a result. |
| GeminiService.RefineResult | services/geminiService.ts:198-248 | Refinement succeeds iff a key is present and text came back. Empty text raises "Refinement failed." |
| GeminiService.HistoryText | services/geminiService.ts:205 | The history text is empty exactly when there are no messages. |
| GeminiService.HistoryTextShort | services/geminiService.ts:205 | No messages give empty history text. One message gives just its "User: " or "Agent: " line. |
| GeminiService.HistoryTextSnoc | services/geminiService.ts:205 | Appending a message to a non-empty history appends a newline and that message's line. |
| GeminiService.HistoryTextCons | services/geminiService.ts:205 | The first message's line comes first, then a newline, then the rest's text, so lines follow message order. |
| App.StartProcess | App.tsx:60-66 | Blank text changes nothing and issues no request. Otherwise the text becomes the original input, the screen is the ambiguity check, and the check request for that text is in flight. Nothing else changes. |
| App.RunFullPipeline | App.tsx:91-93 | The relay starts on the processing screen with the first agent of `AGENT_ORDER` shown and Listie's request in flight. Nothing else changes. |
| App.OnCheckAnswered | App.tsx:66-78 | An ambiguous verdict with a non-empty question stores the question and stays on the ambiguity screen. Every other outcome starts the relay on the same text: not ambiguous, no question, empty question, empty text, a thrown call, or a missing key. |
| App.HandleClarification | App.tsx:82-88 | The new original input is the old one followed by "\n\n(User Clarification: ", the answer and ")", so it keeps the old input as a prefix. The question is cleared and the relay runs on the combined text, showing the first agent of `AGENT_ORDER`. The result, the history and the refining flag are unchanged. |
| App.OnAgentAnswered | App.tsx:95-110 | When an analyst fails, the screen becomes the error screen and nothing else changes. On success its output is appended to the relay's outputs and the next relay agent is shown. |
| App.OnBlendyAnswered | App.tsx:113-123 | When Blendy succeeds, its synthesis becomes the result on the result screen. On failure the screen is the error screen and the result is untouched. |
| App.HandleRefinement | App.tsx:127-141 | Without a result nothing happens. Otherwise the user's message is appended, refining starts, and the request carries the result, the history including that message, and the original input. |
| App.OnRefinementAnswered | App.tsx:140-170 | Refining ends either way. On success a returned result replaces the old one and adds a "Plan Updated" system notice, and Blendy's reply is always appended after it. On success only the result, the history and the refining flag change, and the screen stays the result screen. On failure nothing else changes. |
| App.ResetApp | App.tsx:173-180 | Reset clears the result, the question, the history and the original input, and shows the start screen. The shown agent and the refining flag are kept. |
| App.RetryFromError | App.tsx:335 | "Try Again" only switches to the start screen. |
| App.Step | App.tsx:282-340 | An event the UI does not allow leaves the state unchanged. |
| AppProperties.RelayFollowsAgentOrder | App.tsx:92-110 | The agents App.tsx shows one after another are exactly `AGENT_ORDER`. |
| AppProperties.InitialInv | App.tsx:25-33 | The initial state satisfies the invariant. |
| AppProperties.StepPreservesInv | App.tsx:59-180 | Every transition keeps the invariant. A question exists only while the modal shows it. The ambiguity screen without a question is awaiting the check on the original input. The processing screen is the relay in progress on the original input, showing the awaited agent, with every analysis so far non-empty. Refining means a refinement request built from the current result, history and input is in flight. The result screen always has a result. |
| AppProperties.RunPreservesInv | App.tsx:59-180 | Any sequence of events keeps the invariant. |
| AppProperties.ReachableInv | App.tsx:59-180 | Every state reachable from the initial state satisfies the invariant. |
| AppProperties.TheaterShowsAwaitedAgent | App.tsx:301-309 | While processing, the theater shows the agent whose request is in flight, and its step index is the number of agents that have answered. |
| AppProperties.TheaterChecksOffAnswered | App.tsx:301-309 | While processing, exactly as many steps are checked off as agents have answered. |
| App.PipelineRequest | App.tsx:97-113 | Relay step k calls the k-th agent of `AGENT_ORDER`. |
| AppProperties.RelayNeverMovesBackwards | App.tsx:92-123 | From the processing screen a transition changes nothing, advances the shown agent by exactly one step, or ends on the error or result screen. The relay never moves backwards. |
| AppProperties.WordyDependsOnlyOnInput | App.tsx:105 | In every reachable state where Listie and Linky have answered, the request in flight is Wordy's request on the original input alone, whatever the earlier agents said. |
| AppProperties.SparkyIgnoresInput | App.tsx:109 | In every reachable state where three analysts have answered, the request in flight is built from Listie's and Wordy's outputs and stays the same whatever the input text. |
| AppProperties.BlendySeesEverything | App.tsx:113 | In every reachable state where all four analysts have answered, the request in flight is Blendy's request on the original input and the four analyses, and every analysis is non-empty. |
| AppProperties.RelayIsStepwise | App.tsx:95-123 | The straight-line reference of the `try` block equals the step-by-step relay started at Listie. |
| AppProperties.MachineFollowsRelayFrom | App.tsx:95-123 | From any relay step on, the machine sends the reference's requests and ends as the reference does. |
| AppProperties.PipelineMatchesRelay | App.tsx:91-124 | Driven by the five answers, the machine sends the same requests, in the same order, as the straight-line `try` block. If every call succeeds it ends on the result screen with Blendy's synthesis and Blendy shown. Otherwise it ends on the error screen at the first failure, with the result and all other state untouched. |
| AppScenarios.SubmitThenCheck | App.tsx:60-79 | A submission enters the ambiguity screen with the check request in flight before any answer arrives. The check's answer then either keeps the question up, or runs the relay on exactly the submitted text. |
| AppScenarios.BlankSubmissionIgnored | components/InputSection.tsx:36 | With nothing in flight and no processing under way, a submission leaves the state unchanged exactly when the text is blank. |
| AppScenarios.BlankClarificationIgnored | components/AmbiguityModal.tsx:55-61 | With the question showing, a clarification leaves the state unchanged exactly when the answer is blank. |
| AppScenarios.BlankRefinementIgnored | components/ResultReveal.tsx:30 | On the result screen, a refinement message leaves the state unchanged exactly when it is blank or a refinement is already running. |
| AppScenarios.ClarifyRunsCombinedText | App.tsx:82-88 | Answering the modal runs the relay on the old input plus the clarification, with the question cleared and the result and history unchanged. |
| AppScenarios.RefinementExchange | App.tsx:127-171 | In a refinement exchange the user's message comes first, and the request's history text ends with "User: " and the message. On success the optional update notice and then Blendy's reply follow, and a new result, if any, replaces the old one. On failure only the user's message is added. Refining ends either way. |
| AppScenarios.ResetReturnsToStart | App.tsx:173-180 | Reset from the result screen gives the initial state, except that the last shown agent is kept. |
| AppScenarios.TryAgainOnlyLeavesError | App.tsx:335 | "Try Again" moves from the error screen to the start screen and keeps the input, the result, the history and the question. |
| AppScenarios.MissingKeyEndsInError | App.tsx:66-123 | Without an API key every submission ends on the error screen: the check fails, the relay runs anyway, and Listie's call fails. |
| AppScenarios.MissingKeyFailsEveryCall | services/geminiService.ts:5-10 | Without an API key every relay answer leads to the error screen. A refinement answer leaves the result and the history unchanged. |

## Left out

- The model API itself, the prompt wording and `JSON.parse`. Each call is reduced to the data it is given (`GeminiService.Request`) and what comes back (`Response`). A body is assumed to be a well-formed object, and a parse failure counts as a thrown call.
- Error messages of the model library are not modelled. Every error it throws is one `CallFailed`.
- React rendering and `useState` batching are not modelled. Each handler segment between two `await`s is one atomic transition.
- User actions while a handler is suspended are not modelled. In particular, the result screen's reset button (components/ResultReveal.tsx:134) is not disabled during a refinement. The model allows no user action until the refinement answers, so a reset that overlaps an in-flight refinement is not covered.
- The stale `chatHistory` closure (App.tsx:141) is not modelled. It cannot differ from the current history when transitions are sequential.
- The 2-second `setTimeout` before the result shows (App.tsx:115-118) is not modelled. Blendy's answer sets the result and the result screen in the same transition.
- `Date.now()` is not modelled. Timestamps come from the `now` field of the refinement events, and the update notice and reply taken in the same callback share one `now`, with the reply at `now + 50`.
- `clarityScore` is a JavaScript number. The model uses an integer, as the response schema asks for.
- Logging (`console.error`), `window.scrollTo` in reset, scrolling, parallax, the footer's hover state (App.tsx:36) and DOM listeners are not modelled. They are presentation or I/O.
- All animation components are not modelled: `AgentDisplay`, `ProcessingBackground`, `CustomCursor`, `Confetti`, `KineticLogo`, `MagneticButton` and `TypewriterText`. Nor are the rendering parts of `InputSection`, `AmbiguityModal` and `ResultReveal`. They use `Math.random` and floating-point geometry. Only their blank-input guards are kept, in `App.Enabled`.
- The progress header's scale factors and motion are not modelled, nor the live-region text naming the working agent.
- The submit guard follows the code (components/InputSection.tsx:36, App.tsx:286). Submission is refused only on the processing and ambiguity screens. That the result and error overlays hide the input is a rendering matter and is not modelled.
- The `INPUT` state of `AppState` is declared but never entered. The model keeps it, and the invariant shows it is unreachable.
