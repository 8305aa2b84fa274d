/** The interview status graph of `backend/app/interviews/state_machine.py`. */
module StateMachine {

  datatype Status =
    | Created
    | Preparing
    | Ready
    | InProgress
    | WaitingForAnswer
    | Evaluating
    | FollowUpRequired
    | NextQuestion
    | Completed
    | ReportGenerating
    | ReportReady
    | Failed

  function AllowedTransitions(current: Status): set<Status> {
    match current
    case Created => {Preparing, Failed}
    case Preparing => {Ready, Failed}
    case Ready => {InProgress, Failed}
    case InProgress => {WaitingForAnswer, Completed, Failed}
    case WaitingForAnswer => {Evaluating, Completed, Failed}
    case Evaluating => {FollowUpRequired, NextQuestion, Completed, Failed}
    case FollowUpRequired => {WaitingForAnswer, Completed, Failed}
    case NextQuestion => {WaitingForAnswer, Completed, Failed}
    case Completed => {ReportGenerating, Failed}
    case ReportGenerating => {ReportReady, Failed}
    case ReportReady => {}
    case Failed => {}
  }

  predicate IsTransitionAllowed(current: Status, target: Status) {
    target in AllowedTransitions(current)
  }

  /** The edges that `docs/interview-state-machine.md` lists. */
  predicate IsDocumented(current: Status, target: Status) {
    || (target == Failed && current != Failed && current != ReportReady)
    || (current == Created && target == Preparing)
    || (current == Preparing && target == Ready)
    || (current == Ready && target == InProgress)
    || (current == InProgress && (target == WaitingForAnswer || target == Completed))
    || (current == WaitingForAnswer && target == Evaluating)
    || (current == Evaluating && (target == FollowUpRequired || target == NextQuestion || target == Completed))
    || (current == FollowUpRequired && target == WaitingForAnswer)
    || (current == NextQuestion && (target == WaitingForAnswer || target == Completed))
    || (current == Completed && target == ReportGenerating)
    || (current == ReportGenerating && target == ReportReady)
  }

  /** The code's graph has the documented edges and two more: finishing while an answer is awaited. */
  lemma GraphIsDocumentedBut(current: Status, target: Status)
    ensures IsTransitionAllowed(current, target) <==>
              || IsDocumented(current, target)
              || (target == Completed && (current == WaitingForAnswer || current == FollowUpRequired))
  {
  }

  /** The statuses in which `submit_answer` takes a new answer. */
  predicate AcceptsAnswers(s: Status) {
    s.WaitingForAnswer? || s.FollowUpRequired?
  }

  /** An answer to the current question is being or has been evaluated, and the cursor has not moved. */
  predicate HoldsAnswer(s: Status) {
    s.Evaluating? || s.NextQuestion?
  }

  predicate IsUnstarted(s: Status) {
    s.Created? || s.Preparing? || s.Ready?
  }

  predicate IsFinished(s: Status) {
    s.Completed? || s.ReportGenerating? || s.ReportReady?
  }

  /** The statuses from which `finish_interview` completes an interview. */
  predicate IsActive(s: Status) {
    s.InProgress? || AcceptsAnswers(s) || HoldsAnswer(s)
  }

  /** Reporting has begun, or the interview has failed. */
  predicate IsSettled(s: Status) {
    s.ReportGenerating? || s.ReportReady? || s.Failed?
  }

  /** No answer or evaluation can come any more. */
  predicate IsClosed(s: Status) {
    s.Completed? || IsSettled(s)
  }

  predicate IsTerminal(s: Status) {
    AllowedTransitions(s) == {}
  }

  /** Consecutive statuses are joined by an edge of the graph. */
  ghost predicate IsPath(trail: seq<Status>) {
    forall i | 0 < i < |trail| :: IsTransitionAllowed(trail[i - 1], trail[i])
  }

  /** How far an interview has got, cycles of the answer loop apart. */
  function Stage(s: Status): nat {
    match s
    case Created => 0
    case Preparing => 1
    case Ready => 2
    case InProgress => 3
    case WaitingForAnswer => 4
    case Evaluating => 4
    case FollowUpRequired => 4
    case NextQuestion => 4
    case Completed => 5
    case ReportGenerating => 6
    case ReportReady => 7
    case Failed => 8
  }

  /** On every path, of any length, the stage never goes back. */
  lemma {:induction false} StagesNeverGoBack(trail: seq<Status>, i: nat, j: nat)
    requires IsPath(trail)
    requires i <= j < |trail|
    ensures Stage(trail[i]) <= Stage(trail[j])
    decreases j
  {
    if i < j {
      StagesNeverGoBack(trail, i, j - 1);
      assert IsTransitionAllowed(trail[j - 1], trail[j]);
    }
  }

  /** A path that enters a terminal status ends there. */
  lemma TerminalEndsThePath(trail: seq<Status>, i: nat)
    requires IsPath(trail)
    requires i < |trail| && IsTerminal(trail[i])
    ensures i == |trail| - 1
  {
    assert i + 1 < |trail| ==> IsTransitionAllowed(trail[(i + 1) - 1], trail[i + 1]);
  }

  /** A terminal status is one of the two the design names. */
  lemma TerminalStatuses(s: Status)
    ensures IsTerminal(s) <==> s in {ReportReady, Failed}
    ensures !IsTerminal(s) ==> IsTransitionAllowed(s, Failed)
  {
    assert s !in {ReportReady, Failed} ==> Failed in AllowedTransitions(s);
  }
}
