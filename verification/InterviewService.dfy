/**
 The service and worker transactions as the source runs them: statement by statement on the columns
 of one locked interview, with rollback where the source raises. Each method is proved to make of the
 database exactly what its transaction in `InterviewDb` says.
 */
module InterviewService {
  import opened Wrappers
  import opened StateMachine
  import opened Scoring
  import opened Schemas
  import opened Text
  import opened Retry
  import opened RequestHash
  import opened QuestionGeneration
  import opened InterviewDb
  import opened SubmissionProofs
  import FollowUps

  class InterviewStore {
    const owner: nat
    const plan: Plan
    var status: Status
    var cursor: nat
    var startedAt: Option<nat>
    var completedAt: Option<nat>
    var questions: seq<QuestionRow>
    var currentAnswer: map<nat, nat>
    var answers: seq<AnswerRow>
    var evaluations: seq<EvaluationRow>
    var followUps: seq<FollowUpRow>
    var keys: seq<KeyRow>
    var reports: seq<ReportRow>
    var trail: seq<Status>

    function View(): Db
      reads this
    {
      Db(owner, plan, status, cursor, startedAt, completedAt,
         questions, currentAnswer, answers, evaluations, followUps, keys, reports, trail)
    }

    constructor (db: Db)
      ensures View() == db
    {
      owner, plan, status, cursor := db.owner, db.plan, db.status, db.cursor;
      startedAt, completedAt := db.startedAt, db.completedAt;
      questions, currentAnswer, answers := db.questions, db.currentAnswer, db.answers;
      evaluations, followUps, keys := db.evaluations, db.followUps, db.keys;
      reports, trail := db.reports, db.trail;
    }

    /** Undo everything flushed since the transaction began. */
    method Rollback(start: Db)
      requires start.owner == owner && start.plan == plan
      modifies this
      ensures View() == start
    {
      status, cursor := start.status, start.cursor;
      startedAt, completedAt := start.startedAt, start.completedAt;
      questions, currentAnswer, answers := start.questions, start.currentAnswer, start.answers;
      evaluations, followUps, keys := start.evaluations, start.followUps, start.keys;
      reports, trail := start.reports, start.trail;
    }

    /** `transition_interview`: no change without an edge of the status graph. */
    method Transition(target: Status, now: nat) returns (ok: bool)
      modifies this
      ensures ok == IsTransitionAllowed(old(status), target)
      ensures ok ==> View() == Moved(old(View()), target, now)
      ensures !ok ==> View() == old(View())
    {
      if target !in AllowedTransitions(status) {
        return false;
      }
      status := target;
      if target == InProgress && startedAt.None? {
        startedAt := Some(now);
      }
      if target == Completed && completedAt.None? {
        completedAt := Some(now);
      }
      trail := trail + [target];
      return true;
    }

    method BeginPreparationOf(actor: nat, now: nat) returns (r: Result<Unit, ServiceError>)
      modifies this
      ensures Tx(View(), r) == BeginPreparation(old(View()), actor, now)
    {
      if actor != owner { return Err(InterviewNotFound); }
      var ok := Transition(Preparing, now);
      r := if ok then Ok(Unit) else Err(InvalidTransition);
    }

    method MakeReady(now: nat) returns (r: Result<Unit, ServiceError>)
      modifies this
      ensures Tx(View(), r) == MarkReady(old(View()), now)
    {
      if status != Preparing { return Err(NotReady); }
      if |questions| == 0 { return Err(NotReady); }
      var _ := Transition(Ready, now);
      r := Ok(Unit);
    }

    /** The scan behind `ORDER BY order_index LIMIT 1`, from a lower bound on. */
    method FindNext(lo: nat) returns (next: Option<nat>)
      ensures next == NextOrder(questions, lo)
    {
      next := None;
      var k := 0;
      while k < |questions|
        invariant k <= |questions|
        invariant next == NextOrder(questions[..k], lo)
      {
        assert questions[..k + 1][..k] == questions[..k];
        var here := questions[k].orderIndex;
        if here >= lo && (next.None? || here < next.value) {
          next := Some(here);
        }
        k := k + 1;
      }
      assert questions[..k] == questions;
    }

    method StartInterview(actor: nat, now: nat) returns (r: Result<Unit, ServiceError>)
      modifies this
      ensures Tx(View(), r) == Start(old(View()), actor, now)
    {
      hide NextOrder;
      if actor != owner { return Err(InterviewNotFound); }
      if status != Ready { return Err(NotReady); }
      var first := FindNext(0);
      if first.None? {
        var _ := Transition(Failed, now);
        return Err(NotReady);
      }
      var _ := Transition(InProgress, now);
      cursor := first.value;
      var _ := Transition(WaitingForAnswer, now);
      r := Ok(Unit);
    }

    /** The unique constraint on the key is the precondition: the insert cannot raise. */
    method InsertKey(row: KeyRow)
      requires forall i | 0 <= i < |keys| :: keys[i].key != row.key
      modifies this`keys
      ensures keys == old(keys) + [row]
    {
      keys := keys + [row];
    }

    /** The rows of a new answer: the next attempt, the question's pointer, the idempotency key. */
    method RecordAnswer(question: nat, text: string, key: string, timeTaken: Option<nat>, hash: string,
        now: nat) returns (id: nat)
      requires status == WaitingForAnswer && FindKey(keys, key).None?
      modifies this
      ensures id == old(|answers|)
      ensures View() == Moved(Recorded(old(View()), question, text, key, timeTaken, hash), Evaluating, now)
    {
      hide MaxAttempt;
      var maxAttempt := MaxAttempt(answers, question);
      id := |answers|;
      answers := answers + [AnswerRow(question, maxAttempt + 1, text, timeTaken)];
      currentAnswer := currentAnswer[question := id];
      FindKeyMeaning(keys, key);
      InsertKey(KeyRow(key, question, id, hash));
      var _ := Transition(Evaluating, now);
    }

    /**
     A submission under a new key. A follow-up's move to WAITING_FOR_ANSWER is made before the question
     is checked, and is undone when the check fails.
     */
    method AcceptNew(s: Submission, text: string, key: string, hash: string, now: nat) returns (r: Result<Receipt,
        ServiceError>)
      requires text == Strip(s.text) && key == Strip(s.key) && hash == SubmissionHash(s)
      requires s.question < |questions| && FindKey(keys, key).None?
      modifies this
      ensures Tx(View(), r) == SubmitNew(old(View()), s, now)
    {
      if status != WaitingForAnswer && status != FollowUpRequired { return Err(SubmissionRejected); }
      var start := View();
      if status == FollowUpRequired {
        var _ := Transition(WaitingForAnswer, now);
      }
      if questions[s.question].orderIndex != cursor {
        Rollback(start);
        return Err(InvalidCurrentQuestion);
      }
      var id := RecordAnswer(s.question, text, key, s.timeTaken, hash, now);
      r := Ok(Receipt(id, false, status));
    }

    /** `submit_answer`: the checks on the payload, then the key, then the rest. */
    method SubmitAnswer(actor: nat, s: Submission, now: nat) returns (r: Result<Receipt, ServiceError>)
      modifies this
      ensures Tx(View(), r) == Submit(old(View()), actor, s, now)
    {
      var text := Strip(s.text);
      if |text| < 1 || |text| > 20000 { return Err(InvalidAnswer); }
      var key := Strip(s.key);
      if |key| < 8 || |key| > 128 { return Err(InvalidAnswer); }
      if actor != owner { return Err(InterviewNotFound); }
      if s.question >= |questions| { return Err(InvalidCurrentQuestion); }
      var hash := HashRequest(text, s.question, s.timeTaken);
      var existing := FindKey(keys, key);
      if existing.Some? {
        if existing.value.question != s.question || existing.value.requestHash != hash {
          return Err(DuplicateSubmission);
        }
        return Ok(Receipt(existing.value.answer, true, status));
      }
      r := AcceptNew(s, text, key, hash, now);
    }

    method AdvanceAfterEvaluation(needsFollowUp: bool, now: nat) returns (r: Result<Unit, ServiceError>)
      modifies this
      ensures Tx(View(), r) == Advance(old(View()), needsFollowUp, now)
    {
      if status != Evaluating { return Err(NotActive); }
      var _ := Transition(if needsFollowUp then FollowUpRequired else NextQuestion, now);
      r := Ok(Unit);
    }

    method FinishInterview(actor: nat, now: nat) returns (r: Result<Unit, ServiceError>)
      modifies this
      ensures Tx(View(), r) == Finish(old(View()), actor, now)
    {
      if actor != owner { return Err(InterviewNotFound); }
      if status in {Completed, ReportGenerating, ReportReady} { return Err(AlreadyCompleted); }
      if status !in {InProgress, WaitingForAnswer, Evaluating, FollowUpRequired,
          NextQuestion} { return Err(NotActive); }
      var _ := Transition(Completed, now);
      r := Ok(Unit);
    }

    /** `move_to_next_question`, which leaves completing the interview to `finish_interview`. */
    method MoveToNextQuestion(now: nat) returns (r: Result<Unit, ServiceError>)
      modifies this
      ensures Tx(View(), r) == MoveToNext(old(View()), now)
    {
      hide NextOrder;
      if status == FollowUpRequired {
        var _ := Transition(WaitingForAnswer, now);
        return Ok(Unit);
      }
      if status != NextQuestion { return Err(NotActive); }
      var next := FindNext(cursor + 1);
      if next.None? {
        r := FinishInterview(owner, now);
        return;
      }
      cursor := next.value;
      var _ := Transition(WaitingForAnswer, now);
      r := Ok(Unit);
    }

    method FailInterview(actor: nat, now: nat) returns (r: Result<Unit, ServiceError>)
      modifies this
      ensures Tx(View(), r) == Fail(old(View()), actor, now)
    {
      if actor != owner { return Err(InterviewNotFound); }
      if status == ReportReady { return Err(InvalidTransition); }
      var ok := Transition(Failed, now);
      r := if ok then Ok(Unit) else Err(InvalidTransition);
    }

    // ---------- the generation task ----------

    method FailUnlessFailed(now: nat)
      modifies this
      ensures View() == FailAfterError(old(View()), now)
    {
      if status != Failed {
        var _ := FailInterview(owner, now);
      }
    }

    /** The first transaction of `generate_questions_work`, with its exception path. */
    method GenerateQuestionsWork(scripts: Scripts, now: nat) returns (r: Result<Unit, ServiceError>)
      modifies this
      ensures Tx(View(), r) == InsertQuestions(old(View()), scripts, now)
    {
      var start := View();
      var generated, _ := GenerateQuestions(plan, scripts);
      if generated.Err? {
        FailUnlessFailed(now);
        return Err(AIFailed(generated.error));
      }
      var rows := RowsOf(generated.value);
      if OrderClash(start, rows) {
        FailUnlessFailed(now);
        return Err(IntegrityViolation);
      }
      questions := questions + rows;
      r := Ok(Unit);
    }

    /** The second transaction of `generate_questions_work`, with its exception path. */
    method ReadyAfterGeneration(now: nat) returns (r: Result<Unit, ServiceError>)
      modifies this
      ensures Tx(View(), r) == ReadyOrFail(old(View()), now)
    {
      r := MakeReady(now);
      if r.Err? {
        FailUnlessFailed(now);
      }
    }

    // ---------- the evaluation task ----------

    /**
     `evaluate_answer_work` up to the commit inside `advance_after_evaluation`. The evaluation row is
     added before the follow-up is decided, and is rolled back when the decision fails.
     */
    method EvaluateAnswerWork(question: nat, answer: nat, replies: seq<Call<EvaluationOutput>>,
                              followReplies: seq<Call<FollowUpOutput>>, now: nat)
      returns (r: Result<EvaluationReply, ServiceError>)
      modifies this
      ensures Tx(View(), r) == Evaluate(old(View()), question, answer, replies, followReplies, now)
    {
      hide EvaluationRowOf, FollowUps.Decision, HasFollowUp;
      var start := View();
      if question >= |questions| || answer >= |answers| { return Err(EntityMissing); }
      if answers[answer].question != question { return Err(EntityMissing); }
      if status != Evaluating || question !in currentAnswer || currentAnswer[question] != answer { return Ok(Skipped); }
      if IsEvaluated(start, answer) { return Ok(Skipped); }
      if Strip(answers[answer].text) == "" { return Err(AIFailed(ValidationFailed)); }
      var outcome, _ := RunWithRetries(replies, plan.maxRetries);
      if outcome.Err? { return Err(AIFailed(outcome.error)); }
      var e := outcome.value;
      evaluations := evaluations + [EvaluationRowOf(answer, e)];
      var canFollow := questions[question].output.followUpAllowed;
      var decision, _ := FollowUps.Decide(FollowUpRequestFor(View(), question, answer, e), followReplies,
          plan.maxRetries);
      if decision.Err? {
        Rollback(start);
        return Err(AIFailed(decision.error));
      }
      var needs := canFollow && decision.value.followUpRequired;
      if needs && !HasFollowUp(start, question, answer) {
        followUps := followUps + [FollowUpRow(question, answer, decision.value.questionText)];
      }
      var _ := AdvanceAfterEvaluation(needs, now);
      r := Ok(Advanced(needs));
    }

    // ---------- the report task ----------

    method BeginReportWork(now: nat) returns (r: Result<bool, ServiceError>)
      modifies this
      ensures Tx(View(), r) == BeginReport(old(View()), now)
    {
      if |reports| > 0 { return Ok(false); }
      if status != Completed { return Ok(false); }
      var _ := Transition(ReportGenerating, now);
      r := Ok(true);
    }

    /** Scoring the rows the query returned, in their order. */
    static method BuildReport(rows: seq<EvaluationRow>) returns (r: Result<ReportRow, ServiceError>)
      ensures r == ReportOf(rows)
    {
      if |rows| == 0 {
        assert DimensionsOf(rows) == [];
        return Err(NothingToReport);
      }
      var outputs: seq<Dimensions> := [];
      var k := 0;
      while k < |rows|
        invariant k <= |rows|
        invariant outputs == DimensionsOf(rows)[..k]
      {
        outputs := outputs + [rows[k].dimensions];
        k := k + 1;
      }
      assert outputs == DimensionsOf(rows);
      var score := ReportScores(outputs).value;
      r := Ok(ReportRow(score, |rows|));
    }

    method CompleteReportWork(report: ReportRow, now: nat) returns (r: Result<Unit, ServiceError>)
      modifies this
      ensures Tx(View(), r) == WriteReport(old(View()), report, now)
    {
      if status != ReportGenerating { return Err(ReportNotEligible); }
      if |reports| > 0 { return Err(IntegrityViolation); }
      reports := reports + [report];
      var _ := Transition(ReportReady, now);
      r := Ok(Unit);
    }
  }
}
