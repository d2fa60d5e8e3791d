/** Properties of the App.tsx state machine: the invariant every reachable
    state keeps, the relay against a straight-line reference, and the
    behaviour of clarification, refinement, reset and a missing API key. */
module AppProperties {
  import opened Wrappers
  import opened Types
  import opened JsStrings
  import opened Constants
  import opened GeminiService
  import opened ProcessingTheater
  import opened App

  /** The agents App.tsx names one after the other are `AGENT_ORDER`. */
  lemma RelayFollowsAgentOrder()
    ensures forall k :: 0 <= k < 5 ==> RelayAgent(k) == AgentOrder[k]
  {
  }

  /** What holds of every state the application can reach. */
  ghost predicate Inv(s: Model) {
    && s.appState != Input
    && (s.appState == Result ==> s.result.Some?)
    // a question is only held while the modal asks it
    && (s.question.Some? ==>
          s.appState == AmbiguityCheck && s.pending.Settled? && s.question.value != "")
    // the ambiguity screen without a question is waiting for the check
    && (s.pending.AwaitingCheck? <==> s.appState == AmbiguityCheck && s.question.None?)
    && (s.pending.AwaitingCheck? ==> s.pending.text == s.originalInput)
    // the processing screen is exactly the relay in progress, showing the awaited agent
    && (s.pending.AwaitingAgent? <==> s.appState == Processing)
    && (s.pending.AwaitingAgent? ==>
          && |s.pending.outputs| <= 4
          && s.currentAgent == AgentOrder[|s.pending.outputs|]
          && s.pending.text == s.originalInput
          && (forall i :: 0 <= i < |s.pending.outputs| ==> s.pending.outputs[i] != ""))
    // refining is exactly a refinement in flight, sent from the result screen
    && (s.isRefining <==> s.pending.AwaitingRefinement?)
    && (s.pending.AwaitingRefinement? ==>
          && s.appState == Result && s.result.Some?
          && s.pending.request == RefinementRequest(s.result.value, s.history, s.originalInput))
  }

  lemma InitialInv()
    ensures Inv(Initial)
  {
  }

  /** Every transition keeps the invariant. */
  lemma StepPreservesInv(apiKey: string, s: Model, e: Event)
    requires Inv(s)
    ensures Inv(Step(apiKey, s, e))
  {
    if Enabled(s, e) {
      match e
      case AgentAnswered(analysis) =>
        var outputs := s.pending.outputs;
        var r := Step(apiKey, s, e);
        RelayFollowsAgentOrder();
        if RunAnalyst(RelayAgent(|outputs|), apiKey, analysis).Success? {
          assert r.pending.outputs == outputs + [RunAnalyst(RelayAgent(|outputs|), apiKey, analysis).value];
        }
      case _ =>
    }
  }

  /** Every state reached from a state satisfying the invariant satisfies it. */
  lemma {:induction false} RunPreservesInv(apiKey: string, s: Model, events: seq<Event>)
    requires Inv(s)
    ensures Inv(Run(apiKey, s, events))
    decreases |events|
  {
    if |events| > 0 {
      StepPreservesInv(apiKey, s, events[0]);
      RunPreservesInv(apiKey, Step(apiKey, s, events[0]), events[1..]);
    }
  }

  /** Every reachable state satisfies the invariant. */
  lemma ReachableInv(apiKey: string, events: seq<Event>)
    ensures Inv(Run(apiKey, Initial, events))
  {
    InitialInv();
    RunPreservesInv(apiKey, Initial, events);
  }

  /** While processing, the theater shows the agent whose answer is awaited:
      its step index is the number of agents that have answered. */
  lemma TheaterShowsAwaitedAgent(s: Model)
    requires Inv(s) && s.appState == Processing
    ensures CurrentStepIndex(s.currentAgent) == |s.pending.outputs|
    ensures InFlight(s.pending).Some? && Addressee(InFlight(s.pending).value) == Some(s.currentAgent)
  {
    CurrentStepIndexOfPosition(|s.pending.outputs|);
  }

  /** While processing, the theater checks off exactly as many steps as
      agents have answered. */
  lemma TheaterChecksOffAnswered(s: Model)
    requires Inv(s) && s.appState == Processing
    ensures CountWhere(ProgressBar(s.currentAgent), (v: StepView) => v.isPast) == |s.pending.outputs|
  {
    TheaterShowsAwaitedAgent(s);
    PastStepsPrecedeCurrent(s.currentAgent);
  }

  /** A transition out of a processing state either leaves the shown agent
      alone, advances it by exactly one step, or ends the relay in the result
      or the error screen: the progress never goes backwards. */
  lemma RelayNeverMovesBackwards(apiKey: string, s: Model, e: Event)
    requires Inv(s) && s.appState == Processing
    ensures var r := Step(apiKey, s, e);
      || r == s
      || (r.appState == Processing
          && CurrentStepIndex(r.currentAgent) == CurrentStepIndex(s.currentAgent) + 1)
      || r.appState == Error
      || r.appState == Result
  {
    var r := Step(apiKey, s, e);
    if Enabled(s, e) && e.AgentAnswered? {
      var outputs := s.pending.outputs;
      if RunAnalyst(RelayAgent(|outputs|), apiKey, e.analysis).Success? {
        StepPreservesInv(apiKey, s, e);
        TheaterShowsAwaitedAgent(s);
        TheaterShowsAwaitedAgent(r);
        assert |r.pending.outputs| == |outputs| + 1;
      }
    }
  }

  /** While the relay waits for Wordy, the request in flight carries only
      the original input, whatever Listie and Linky said. */
  lemma WordyDependsOnlyOnInput(s: Model)
    requires Inv(s) && s.pending.AwaitingAgent? && |s.pending.outputs| == 2
    ensures InFlight(s.pending) == Some(WordyRequest(s.originalInput))
  {
  }

  /** While the relay waits for Sparky, the request in flight carries Listie's
      and Wordy's outputs and not the original input. */
  lemma SparkyIgnoresInput(s: Model)
    requires Inv(s) && s.pending.AwaitingAgent? && |s.pending.outputs| == 3
    ensures InFlight(s.pending) == Some(SparkyRequest(s.pending.outputs[0], s.pending.outputs[2]))
    ensures forall text :: InFlight(s.pending.(text := text)) == InFlight(s.pending)
  {
  }

  /** While the relay waits for Blendy, the request in flight carries the
      original input and all four analyses, none of them empty. */
  lemma BlendySeesEverything(s: Model)
    requires Inv(s) && s.pending.AwaitingAgent? && |s.pending.outputs| == 4
    ensures var o := s.pending.outputs;
      && InFlight(s.pending) == Some(BlendyRequest(s.originalInput, o[0], o[1], o[2], o[3]))
      && o[0] != "" && o[1] != "" && o[2] != "" && o[3] != ""
  {
  }

  /** The relay's calls and their end, written as the straight-line `try`
      block of `runFullPipeline`: each call in turn, the first failure ending it. */
  datatype RelayRun = RelayRun(requests: seq<Request>, outcome: Result<BrainDumpResult, ServiceError>)

  /** A request made before the rest of a relay. */
  function Then(q: Request, run: RelayRun): RelayRun {
    RelayRun([q] + run.requests, run.outcome)
  }

  function Relay(apiKey: string, text: string, answers: seq<Response<string>>, synthesis: Response<BrainDumpResult>)
    : RelayRun
    requires |answers| == 4
  {
    var request := ListieRequest(text);
    match RunAnalyst(Listie, apiKey, answers[0])
    case Failure(e) => RelayRun([request], Failure(e))
    case Success(listie) => Then(request, AfterListie(apiKey, text, listie, answers, synthesis))
  }

  function AfterListie(apiKey: string, text: string, listie: string,
                       answers: seq<Response<string>>, synthesis: Response<BrainDumpResult>): RelayRun
    requires |answers| == 4
  {
    var request := LinkyRequest(text, listie);
    match RunAnalyst(Linky, apiKey, answers[1])
    case Failure(e) => RelayRun([request], Failure(e))
    case Success(linky) => Then(request, AfterLinky(apiKey, text, listie, linky, answers, synthesis))
  }

  function AfterLinky(apiKey: string, text: string, listie: string, linky: string,
                      answers: seq<Response<string>>, synthesis: Response<BrainDumpResult>): RelayRun
    requires |answers| == 4
  {
    var request := WordyRequest(text);
    match RunAnalyst(Wordy, apiKey, answers[2])
    case Failure(e) => RelayRun([request], Failure(e))
    case Success(wordy) => Then(request, AfterWordy(apiKey, text, listie, linky, wordy, answers, synthesis))
  }

  function AfterWordy(apiKey: string, text: string, listie: string, linky: string, wordy: string,
                      answers: seq<Response<string>>, synthesis: Response<BrainDumpResult>): RelayRun
    requires |answers| == 4
  {
    var request := SparkyRequest(listie, wordy);
    match RunAnalyst(Sparky, apiKey, answers[3])
    case Failure(e) => RelayRun([request], Failure(e))
    case Success(sparky) =>
      Then(request, RelayRun([BlendyRequest(text, listie, linky, wordy, sparky)], RunBlendy(apiKey, synthesis)))
  }

  /** The requests answered along a run: the one in flight before each enabled event. */
  function RequestsAlong(apiKey: string, s: Model, events: seq<Event>): seq<Request>
    decreases |events|
  {
    if |events| == 0 then []
    else
      (if Enabled(s, events[0]) && InFlight(s.pending).Some? then [InFlight(s.pending).value] else [])
      + RequestsAlong(apiKey, Step(apiKey, s, events[0]), events[1..])
  }

  /** Model answers arriving while nothing awaits them change nothing. */
  lemma {:induction false} SettledIgnoresAnswers(apiKey: string, s: Model, events: seq<Event>)
    requires s.pending.Settled?
    requires forall i :: 0 <= i < |events| ==> events[i].AgentAnswered? || events[i].BlendyAnswered?
    ensures Run(apiKey, s, events) == s
    ensures RequestsAlong(apiKey, s, events) == []
    decreases |events|
  {
    if |events| > 0 {
      SettledIgnoresAnswers(apiKey, s, events[1..]);
    }
  }

  /** One answered relay step: the run and its requests continue from the next state. */
  lemma RunStep(apiKey: string, s: Model, events: seq<Event>)
    requires |events| > 0
    ensures Run(apiKey, s, events) == Run(apiKey, Step(apiKey, s, events[0]), events[1..])
    ensures RequestsAlong(apiKey, s, events)
         == (if Enabled(s, events[0]) && InFlight(s.pending).Some? then [InFlight(s.pending).value] else [])
            + RequestsAlong(apiKey, Step(apiKey, s, events[0]), events[1..])
  {
  }

  /** An analyst's answer, followed by further answers: on failure the relay
      stops on the error screen, on success it continues one step further. */
  lemma AnalystAnswerRun(apiKey: string, s: Model, answer: Response<string>, rest: seq<Event>)
    requires s.pending.AwaitingAgent? && |s.pending.outputs| < 4
    requires forall i :: 0 <= i < |rest| ==> rest[i].AgentAnswered? || rest[i].BlendyAnswered?
    ensures var outputs := s.pending.outputs;
      var out := RunAnalyst(RelayAgent(|outputs|), apiKey, answer);
      var events := [AgentAnswered(answer)] + rest;
      && (out.Failure? ==>
            && Run(apiKey, s, events) == s.(appState := Error, pending := Settled)
            && RequestsAlong(apiKey, s, events) == [PipelineRequest(s.pending.text, outputs)])
      && (out.Success? ==>
            var next := s.(currentAgent := RelayAgent(|outputs| + 1),
                           pending := AwaitingAgent(s.pending.text, outputs + [out.value]));
            && Run(apiKey, s, events) == Run(apiKey, next, rest)
            && RequestsAlong(apiKey, s, events)
               == [PipelineRequest(s.pending.text, outputs)] + RequestsAlong(apiKey, next, rest))
  {
    var events := [AgentAnswered(answer)] + rest;
    assert events[1..] == rest;
    RunStep(apiKey, s, events);
    var r := Step(apiKey, s, events[0]);
    if RunAnalyst(RelayAgent(|s.pending.outputs|), apiKey, answer).Failure? {
      SettledIgnoresAnswers(apiKey, r, rest);
    }
  }

  /** Blendy's answer ends the relay. */
  lemma BlendyAnswerRun(apiKey: string, s: Model, synthesis: Response<BrainDumpResult>)
    requires s.pending.AwaitingAgent? && |s.pending.outputs| == 4
    ensures var events := [BlendyAnswered(synthesis)];
      && Run(apiKey, s, events) == OnBlendyAnswered(apiKey, s, synthesis)
      && RequestsAlong(apiKey, s, events) == [PipelineRequest(s.pending.text, s.pending.outputs)]
  {
    var events := [BlendyAnswered(synthesis)];
    RunStep(apiKey, s, events);
    assert events[1..] == [];
  }

  /** The reference relay from step `|outputs|` on, one step at a time. */
  function RelayFrom(apiKey: string, text: string, outputs: seq<string>,
                     answers: seq<Response<string>>, synthesis: Response<BrainDumpResult>): RelayRun
    requires |outputs| + |answers| == 4
    decreases |answers|
  {
    var q := PipelineRequest(text, outputs);
    if |answers| == 0 then RelayRun([q], RunBlendy(apiKey, synthesis))
    else
      match RunAnalyst(RelayAgent(|outputs|), apiKey, answers[0])
      case Failure(e) => RelayRun([q], Failure(e))
      case Success(out) =>
        Then(q, RelayFrom(apiKey, text, outputs + [out], answers[1..], synthesis))
  }

  /** One step of the stepwise relay that succeeded. */
  lemma RelayFromSuccess(apiKey: string, text: string, outputs: seq<string>,
                         answers: seq<Response<string>>, synthesis: Response<BrainDumpResult>)
    requires |outputs| + |answers| == 4 && |answers| > 0
    requires RunAnalyst(RelayAgent(|outputs|), apiKey, answers[0]).Success?
    ensures var out := RunAnalyst(RelayAgent(|outputs|), apiKey, answers[0]).value;
      RelayFrom(apiKey, text, outputs, answers, synthesis)
        == Then(PipelineRequest(text, outputs), RelayFrom(apiKey, text, outputs + [out], answers[1..], synthesis))
  {
  }

  /** Each stage of the straight-line relay is the stepwise relay from the
      outputs gathered so far. */
  lemma AfterWordyIsStepwise(apiKey: string, text: string, listie: string, linky: string, wordy: string,
                             answers: seq<Response<string>>, synthesis: Response<BrainDumpResult>)
    requires |answers| == 4
    ensures AfterWordy(apiKey, text, listie, linky, wordy, answers, synthesis)
         == RelayFrom(apiKey, text, [listie, linky, wordy], answers[3..], synthesis)
  {
    var outputs := [listie, linky, wordy];
    assert answers[3..][0] == answers[3];
    assert PipelineRequest(text, outputs) == SparkyRequest(listie, wordy);
    var sparky := RunAnalyst(Sparky, apiKey, answers[3]);
    if sparky.Success? {
      RelayFromSuccess(apiKey, text, outputs, answers[3..], synthesis);
      assert outputs + [sparky.value] == [listie, linky, wordy, sparky.value];
      assert answers[3..][1..] == [];
    }
  }

  lemma AfterLinkyIsStepwise(apiKey: string, text: string, listie: string, linky: string,
                             answers: seq<Response<string>>, synthesis: Response<BrainDumpResult>)
    requires |answers| == 4
    ensures AfterLinky(apiKey, text, listie, linky, answers, synthesis)
         == RelayFrom(apiKey, text, [listie, linky], answers[2..], synthesis)
  {
    var outputs := [listie, linky];
    assert answers[2..][0] == answers[2];
    assert PipelineRequest(text, outputs) == WordyRequest(text);
    var wordy := RunAnalyst(Wordy, apiKey, answers[2]);
    if wordy.Success? {
      RelayFromSuccess(apiKey, text, outputs, answers[2..], synthesis);
      assert outputs + [wordy.value] == [listie, linky, wordy.value];
      assert answers[2..][1..] == answers[3..];
      AfterWordyIsStepwise(apiKey, text, listie, linky, wordy.value, answers, synthesis);
    }
  }

  lemma AfterListieIsStepwise(apiKey: string, text: string, listie: string,
                              answers: seq<Response<string>>, synthesis: Response<BrainDumpResult>)
    requires |answers| == 4
    ensures AfterListie(apiKey, text, listie, answers, synthesis)
         == RelayFrom(apiKey, text, [listie], answers[1..], synthesis)
  {
    var outputs := [listie];
    assert answers[1..][0] == answers[1];
    assert PipelineRequest(text, outputs) == LinkyRequest(text, listie);
    var linky := RunAnalyst(Linky, apiKey, answers[1]);
    if linky.Success? {
      RelayFromSuccess(apiKey, text, outputs, answers[1..], synthesis);
      assert outputs + [linky.value] == [listie, linky.value];
      assert answers[1..][1..] == answers[2..];
      AfterLinkyIsStepwise(apiKey, text, listie, linky.value, answers, synthesis);
    }
  }

  /** The straight-line relay is the stepwise one started at Listie. */
  lemma RelayIsStepwise(apiKey: string, text: string, answers: seq<Response<string>>,
                        synthesis: Response<BrainDumpResult>)
    requires |answers| == 4
    ensures Relay(apiKey, text, answers, synthesis) == RelayFrom(apiKey, text, [], answers, synthesis)
  {
    assert PipelineRequest(text, []) == ListieRequest(text);
    var listie := RunAnalyst(Listie, apiKey, answers[0]);
    if listie.Success? {
      RelayFromSuccess(apiKey, text, [], answers, synthesis);
      assert [] + [listie.value] == [listie.value];
      AfterListieIsStepwise(apiKey, text, listie.value, answers, synthesis);
    }
  }

  /** The answer events from relay step `4 - |answers|` on: one analyst
      answer per entry of `answers`, in order, then Blendy's. */
  function AnswerEvents(answers: seq<Response<string>>, synthesis: Response<BrainDumpResult>): (events: seq<Event>)
    ensures |events| == |answers| + 1
    ensures forall i :: 0 <= i < |answers| ==> events[i] == AgentAnswered(answers[i])
    ensures events[|answers|] == BlendyAnswered(synthesis)
    decreases |answers|
  {
    if |answers| == 0 then [BlendyAnswered(synthesis)]
    else [AgentAnswered(answers[0])] + AnswerEvents(answers[1..], synthesis)
  }

  lemma {:induction false} AnswerEventsAreAnswers(answers: seq<Response<string>>, synthesis: Response<BrainDumpResult>)
    ensures forall i :: 0 <= i < |AnswerEvents(answers, synthesis)| ==>
      AnswerEvents(answers, synthesis)[i].AgentAnswered? || AnswerEvents(answers, synthesis)[i].BlendyAnswered?
    decreases |answers|
  {
    if |answers| > 0 {
      AnswerEventsAreAnswers(answers[1..], synthesis);
    }
  }

  /** From any relay step on, the machine follows the stepwise reference. */
  lemma {:induction false} MachineFollowsRelayFrom(apiKey: string, s: Model, answers: seq<Response<string>>,
                                                 synthesis: Response<BrainDumpResult>)
    requires s.pending.AwaitingAgent? && |s.pending.outputs| + |answers| == 4
    ensures var run := RelayFrom(apiKey, s.pending.text, s.pending.outputs, answers, synthesis);
      var events := AnswerEvents(answers, synthesis);
      var final := Run(apiKey, s, events);
      && RequestsAlong(apiKey, s, events) == run.requests
      && (run.outcome.Success? ==>
            && final == s.(appState := Result, result := Some(run.outcome.value),
                           currentAgent := final.currentAgent, pending := Settled)
            && final.currentAgent == (if |answers| == 0 then s.currentAgent else Blendy))
      && (run.outcome.Failure? ==>
            final == s.(appState := Error, currentAgent := final.currentAgent, pending := Settled))
    decreases |answers|
  {
    if |answers| == 0 {
      BlendyAnswerRun(apiKey, s, synthesis);
    } else {
      var rest := AnswerEvents(answers[1..], synthesis);
      AnswerEventsAreAnswers(answers[1..], synthesis);
      AnalystAnswerRun(apiKey, s, answers[0], rest);
      var out := RunAnalyst(RelayAgent(|s.pending.outputs|), apiKey, answers[0]);
      if out.Success? {
        var next := s.(currentAgent := RelayAgent(|s.pending.outputs| + 1),
                       pending := AwaitingAgent(s.pending.text, s.pending.outputs + [out.value]));
        MachineFollowsRelayFrom(apiKey, next, answers[1..], synthesis);
      }
    }
  }

  /** The event-driven relay agrees with the straight-line reference: it
      issues the same requests in the same order, and it ends on the result
      screen with Blendy's synthesis when every call succeeds, or on the error
      screen with the previous result untouched at the first failure. */
  lemma PipelineMatchesRelay(apiKey: string, s: Model, text: string,
                             answers: seq<Response<string>>, synthesis: Response<BrainDumpResult>)
    requires |answers| == 4
    ensures var start := RunFullPipeline(s, text);
      var events := AnswerEvents(answers, synthesis);
      var run := Relay(apiKey, text, answers, synthesis);
      var final := Run(apiKey, start, events);
      && RequestsAlong(apiKey, start, events) == run.requests
      && (run.outcome.Success? ==>
            final == s.(appState := Result, result := Some(run.outcome.value),
                        currentAgent := Blendy, pending := Settled))
      && (run.outcome.Failure? ==>
            final == s.(appState := Error, currentAgent := final.currentAgent, pending := Settled))
  {
    var start := RunFullPipeline(s, text);
    RelayIsStepwise(apiKey, text, answers, synthesis);
    MachineFollowsRelayFrom(apiKey, start, answers, synthesis);
  }
}
