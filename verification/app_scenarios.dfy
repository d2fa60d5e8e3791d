/** Short event sequences of App.tsx and what they lead to: submitting text,
    the ambiguity check and its clarification, a refinement exchange, reset,
    and a missing API key. */
module AppScenarios {
  import opened Wrappers
  import opened Types
  import opened JsStrings
  import opened GeminiService
  import opened App
  import opened AppProperties

  /** Submitting text and getting the check's answer: a question keeps the
      ambiguity screen up; otherwise, including a failed check, the relay
      runs on exactly the submitted text. */
  lemma SubmitThenCheck(apiKey: string, s: Model, text: string, verdict: Response<AmbiguityVerdict>)
    requires Inv(s) && Enabled(s, Dump(text))
    ensures var mid := Step(apiKey, s, Dump(text));
      var r := Run(apiKey, s, [Dump(text), CheckAnswered(verdict)]);
      && mid.appState == AmbiguityCheck && mid.originalInput == text
      && InFlight(mid.pending) == Some(CheckRequest(text))
      && r.originalInput == text
      && (AsksQuestion(apiKey, verdict) ==>
            r.appState == AmbiguityCheck && r.question == verdict.value.question && r.pending.Settled?)
      && (!AsksQuestion(apiKey, verdict) ==>
            r.appState == Processing && InFlight(r.pending) == Some(ListieRequest(text)))
  {
    RunTwo(apiKey, s, Dump(text), CheckAnswered(verdict));
    var mid := StartProcess(s, text);
    assert Step(apiKey, s, Dump(text)) == mid;
    assert Step(apiKey, mid, CheckAnswered(verdict)) == OnCheckAnswered(apiKey, mid, text, verdict);
  }

  /** The input box submits only text that is not blank: from a settled
      screen that is not busy, a submission changes the state exactly when
      its `trim()` is non-empty. */
  lemma BlankSubmissionIgnored(apiKey: string, s: Model, text: string)
    requires s.pending.Settled? && !IsProcessing(s)
    ensures Step(apiKey, s, Dump(text)) == s <==> IsBlank(text)
  {
    if !IsBlank(text) {
      assert Step(apiKey, s, Dump(text)).pending.AwaitingCheck?;
    }
  }

  /** The modal accepts only an answer that is not blank. */
  lemma BlankClarificationIgnored(apiKey: string, s: Model, answer: string)
    requires s.pending.Settled? && s.appState == AmbiguityCheck
    requires s.question.Some? && s.question.value != ""
    ensures Step(apiKey, s, Clarify(answer)) == s <==> IsBlank(answer)
  {
    if !IsBlank(answer) {
      assert Step(apiKey, s, Clarify(answer)).appState == Processing;
    }
  }

  /** The chat box sends only a message that is not blank, and nothing while
      a refinement is under way. */
  lemma BlankRefinementIgnored(apiKey: string, s: Model, message: string, now: nat)
    requires s.pending.Settled? && s.appState == Result && s.result.Some?
    ensures Step(apiKey, s, Refine(message, now)) == s <==> IsBlank(message) || s.isRefining
  {
    if !IsBlank(message) && !s.isRefining {
      assert Step(apiKey, s, Refine(message, now)).isRefining;
    }
  }

  /** Answering the question: the relay runs on the original text followed by
      the clarification, and the question is gone. */
  lemma ClarifyRunsCombinedText(apiKey: string, s: Model, answer: string)
    requires Inv(s) && Enabled(s, Clarify(answer))
    ensures var r := Step(apiKey, s, Clarify(answer));
      && r.originalInput == s.originalInput + "\n\n(User Clarification: " + answer + ")"
      && r.question.None?
      && r.appState == Processing
      && InFlight(r.pending) == Some(ListieRequest(r.originalInput))
      && r.result == s.result && r.history == s.history
  {
  }

  /** Two events in a row are two steps. */
  lemma RunTwo(apiKey: string, s: Model, e1: Event, e2: Event)
    ensures Run(apiKey, s, [e1, e2]) == Step(apiKey, Step(apiKey, s, e1), e2)
  {
    var m := Step(apiKey, s, e1);
    assert [e1, e2][1..] == [e2];
    assert Run(apiKey, s, [e1, e2]) == Run(apiKey, m, [e2]);
    assert [e2][1..] == [];
    assert Run(apiKey, m, [e2]) == Run(apiKey, Step(apiKey, m, e2), []);
  }

  /** The history text a refinement sends ends with the user's new line. */
  lemma RefinementHistoryEndsWithUser(history: seq<ConversationMessage>, message: string, sent: nat)
    ensures HistoryText(history + [UserMessage(message, sent)])
         == (if history == [] then "" else HistoryText(history) + "\n") + "User: " + message
  {
    var user := UserMessage(message, sent);
    if history == [] {
      HistoryTextShort(user);
      assert history + [user] == [user];
    } else {
      HistoryTextSnoc(history, user);
    }
  }

  /** A whole refinement exchange. The user's message is recorded first and
      the request carries it as the last history line. On success a new
      result replaces the old one and is announced, and Blendy's reply always
      follows; on failure only the user's message remains. */
  lemma RefinementExchange(apiKey: string, s: Model, message: string, sent: nat,
                           answer: Response<Refinement>, received: nat)
    requires Inv(s) && Enabled(s, Refine(message, sent))
    ensures var mid := Step(apiKey, s, Refine(message, sent));
      var r := Run(apiKey, s, [Refine(message, sent), RefinementAnswered(answer, received)]);
      var user := UserMessage(message, sent);
      && mid.isRefining
      && mid.history == s.history + [user]
      && InFlight(mid.pending).Some?
      && InFlight(mid.pending).value.historyText
         == (if s.history == [] then "" else HistoryText(s.history) + "\n") + "User: " + message
      && !r.isRefining && r.pending.Settled? && r.appState == Result
      && (RefineResult(apiKey, answer).Failure? ==>
            r.history == s.history + [user] && r.result == s.result)
      && (RefineResult(apiKey, answer).Success? ==>
            && r.result == (if answer.value.result.Some? then answer.value.result else s.result)
            && r.history == s.history + [user]
                            + (if answer.value.result.Some? then [UpdateNotice(received)] else [])
                            + [BlendyReply(answer.value.reply, received + 50)])
  {
    var e1, e2 := Refine(message, sent), RefinementAnswered(answer, received);
    RunTwo(apiKey, s, e1, e2);
    var mid := HandleRefinement(s, message, sent);
    assert Step(apiKey, s, e1) == mid;
    assert Enabled(mid, e2);
    var r := OnRefinementAnswered(apiKey, mid, answer, received);
    assert Step(apiKey, mid, e2) == r;
    RefinementHistoryEndsWithUser(s.history, message, sent);
  }

  /** Reset from the result screen returns to the initial state, except that
      the agent last shown is kept. */
  lemma ResetReturnsToStart(apiKey: string, s: Model)
    requires Inv(s) && Enabled(s, Reset)
    ensures Step(apiKey, s, Reset) == Initial.(currentAgent := s.currentAgent)
  {
  }

  /** "Try Again" leaves the error screen for the start screen and keeps
      everything else, the last original input and result included. */
  lemma TryAgainOnlyLeavesError(apiKey: string, s: Model)
    requires Inv(s) && Enabled(s, TryAgain)
    ensures var r := Step(apiKey, s, TryAgain);
      && s.appState == Error && r.appState == Idle
      && r.result == s.result && r.originalInput == s.originalInput
      && r.history == s.history && r.question == s.question
  {
  }

  /** Without an API key every submission ends on the error screen: the
      check fails, the relay runs anyway, and Listie's call fails. */
  lemma MissingKeyEndsInError(s: Model, text: string, verdict: Response<AmbiguityVerdict>,
                              answer: Response<string>)
    requires Inv(s) && Enabled(s, Dump(text))
    ensures var r := Run("", s, [Dump(text), CheckAnswered(verdict), AgentAnswered(answer)]);
      r.appState == Error && r.result == s.result && r.pending.Settled?
  {
    var events := [Dump(text), CheckAnswered(verdict), AgentAnswered(answer)];
    var s1 := StartProcess(s, text);
    assert Step("", s, events[0]) == s1;
    assert Run("", s, events) == Run("", s1, events[1..]);
    var s2 := RunFullPipeline(s1, text);
    assert Step("", s1, events[1]) == s2;
    RunTwo("", s1, events[1], events[2]);
    assert events[1..] == [events[1], events[2]];
    assert Step("", s2, events[2]) == OnAgentAnswered("", s2, text, [], answer);
  }

  /** Without an API key no relay step and no refinement ever succeeds: every
      awaited answer leads to the error screen, or, for a refinement, leaves
      the result and the history as they were. */
  lemma MissingKeyFailsEveryCall(s: Model, e: Event)
    requires Inv(s) && Enabled(s, e)
    requires e.AgentAnswered? || e.BlendyAnswered? || e.RefinementAnswered?
    ensures var r := Step("", s, e);
      && (e.RefinementAnswered? ==> r.result == s.result && r.history == s.history && !r.isRefining)
      && (!e.RefinementAnswered? ==> r.appState == Error && r.result == s.result)
  {
  }
}
