/** The relay-race progress header of the processing screen
    (components/ProcessingTheater.tsx): one step per agent of `AGENT_ORDER`,
    each classified as past, current or future relative to the agent now working. */
module ProcessingTheater {
  import opened Wrappers
  import opened Types
  import opened Constants

  /** `currentStepIndex`: where the working agent stands in `AGENT_ORDER`.
      Every agent is listed, so `indexOf` never yields -1 here. */
  function CurrentStepIndex(current: AgentId): (i: nat)
    ensures i < |AgentOrder| && AgentOrder[i] == current
    ensures forall j :: 0 <= j < i ==> AgentOrder[j] != current
  {
    AgentOrderIsPermutation();
    var i := IndexOf(AgentOrder, current);
    assert forall j :: 0 <= j < i ==> AgentOrder[..i][j] == AgentOrder[j];
    i
  }

  /** The step index of the agent at position `k` is `k`. */
  lemma CurrentStepIndexOfPosition(k: nat)
    requires k < |AgentOrder|
    ensures CurrentStepIndex(AgentOrder[k]) == k
  {
    AgentOrderIsPermutation();
  }

  /** The face an agent shows (`AgentDisplay`'s 'idle' | 'working' | 'complete'). */
  datatype Face = IdleFace | WorkingFace | CompleteFace

  /** What the header draws for one step. `connector` is the line to the next
      step: absent after the last step, otherwise `Some(highlighted)`.
      `dimmed` is the faded, grayscale look of steps not yet reached. */
  datatype StepView = StepView(
    id: AgentId,
    isPast: bool,
    isCurrent: bool,
    face: Face,
    dimmed: bool,
    connector: Option<bool>,
    checkmark: bool)

  /** The view of the step at position `idx` when the working agent is at `currentIndex`. */
  function ViewStep(idx: nat, currentIndex: nat): (v: StepView)
    requires idx < |AgentOrder|
    ensures v.id == AgentOrder[idx]
    ensures v.isPast <==> idx < currentIndex
    ensures v.isCurrent <==> idx == currentIndex
    ensures v.face == (if v.isPast then CompleteFace else if v.isCurrent then WorkingFace else IdleFace)
    ensures v.dimmed <==> currentIndex < idx
    ensures v.connector.Some? <==> idx < |AgentOrder| - 1
    ensures v.connector.Some? ==> (v.connector.value <==> v.isPast)
    ensures v.checkmark <==> v.isPast
  {
    var isPast := idx < currentIndex;
    var isCurrent := idx == currentIndex;
    StepView(
      AgentOrder[idx],
      isPast,
      isCurrent,
      if isPast then CompleteFace else if isCurrent then WorkingFace else IdleFace,
      !isPast && !isCurrent,
      if idx < |AgentOrder| - 1 then Some(isPast) else None,
      isPast)
  }

  /** The whole header while `current` works. */
  function ProgressBar(current: AgentId): (bar: seq<StepView>)
    ensures |bar| == |AgentOrder|
    ensures forall i :: 0 <= i < |bar| ==> bar[i].id == AgentOrder[i]
    ensures forall i :: 0 <= i < |bar| ==> (bar[i].isPast <==> i < CurrentStepIndex(current))
    ensures forall i :: 0 <= i < |bar| ==> (bar[i].isCurrent <==> bar[i].id == current)
    ensures forall i :: 0 <= i < |bar| ==>
      bar[i].face == (if bar[i].isPast then CompleteFace
                      else if bar[i].isCurrent then WorkingFace else IdleFace)
    ensures forall i :: 0 <= i < |bar| ==> (bar[i].dimmed <==> CurrentStepIndex(current) < i)
    ensures forall i :: 0 <= i < |bar| ==> (bar[i].connector.Some? <==> i < |bar| - 1)
    ensures forall i :: 0 <= i < |bar| && bar[i].connector.Some? ==>
      (bar[i].connector.value <==> bar[i].isPast)
    ensures forall i :: 0 <= i < |bar| ==> (bar[i].checkmark <==> bar[i].isPast)
  {
    var k := CurrentStepIndex(current);
    var bar := seq(|AgentOrder|, i requires 0 <= i < |AgentOrder| => ViewStep(i, k));
    assert forall i :: 0 <= i < |bar| ==> (bar[i].isCurrent <==> bar[i].id == current) by {
      AgentOrderIsPermutation();
    }
    bar
  }

  /** How many elements of `s` satisfy `p`. */
  function CountWhere<T>(s: seq<T>, p: T -> bool): nat
    decreases |s|
  {
    if |s| == 0 then 0 else (if p(s[0]) then 1 else 0) + CountWhere(s[1..], p)
  }

  /** If `p` holds exactly on the positions `lo..hi`, it holds `hi - lo` times. */
  lemma {:induction false} CountWhereRange<T>(s: seq<T>, p: T -> bool, lo: nat, hi: nat)
    requires lo <= hi <= |s|
    requires forall i :: 0 <= i < |s| ==> (p(s[i]) <==> lo <= i < hi)
    ensures CountWhere(s, p) == hi - lo
    decreases |s|
  {
    if |s| > 0 {
      if lo > 0 {
        CountWhereRange(s[1..], p, lo - 1, hi - 1);
      } else if hi > 0 {
        CountWhereRange(s[1..], p, 0, hi - 1);
      } else {
        CountWhereRange(s[1..], p, 0, 0);
      }
    }
  }

  /** Exactly one step is current, and it is the working agent's. */
  lemma ExactlyOneCurrent(current: AgentId)
    ensures CountWhere(ProgressBar(current), (v: StepView) => v.isCurrent) == 1
    ensures ProgressBar(current)[CurrentStepIndex(current)].isCurrent
  {
    var bar := ProgressBar(current);
    var k := CurrentStepIndex(current);
    AgentOrderIsPermutation();
    CountWhereRange(bar, (v: StepView) => v.isCurrent, k, k + 1);
  }

  /** The steps before the current one are exactly the past ones: as many as
      the current index, all drawn complete and checked; later steps are
      neither past nor current. */
  lemma PastStepsPrecedeCurrent(current: AgentId)
    ensures CountWhere(ProgressBar(current), (v: StepView) => v.isPast) == CurrentStepIndex(current)
    ensures forall i :: CurrentStepIndex(current) < i < |AgentOrder| ==>
      !ProgressBar(current)[i].isPast && !ProgressBar(current)[i].isCurrent
  {
    var bar := ProgressBar(current);
    var k := CurrentStepIndex(current);
    AgentOrderIsPermutation();
    CountWhereRange(bar, (v: StepView) => v.isPast, 0, k);
  }

  /** A connector follows every step but the last: four lines for five agents. */
  lemma ConnectorCount(current: AgentId)
    ensures CountWhere(ProgressBar(current), (v: StepView) => v.connector.Some?) == |AgentOrder| - 1 == 4
  {
    CountWhereRange(ProgressBar(current), (v: StepView) => v.connector.Some?, 0, |AgentOrder| - 1);
  }
}
