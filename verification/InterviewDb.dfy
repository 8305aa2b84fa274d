/**
 One interview as the database holds it, and what each committed transaction of
 `backend/app/interviews/service.py` and `backend/app/workers.py` makes of it.
 A row's identifier is its position in its table. A transaction that raises
 leaves the database as it was, unless the source commits before raising.
 */
module InterviewDb {
  import opened Wrappers
  import opened StateMachine
  import opened Scoring
  import opened Schemas
  import opened Text
  import opened Retry
  import opened RequestHash
  import opened QuestionGeneration
  import FollowUps

  const MIN_QUESTIONS := 1
  const MAX_QUESTIONS := 50

  datatype QuestionRow = QuestionRow(orderIndex: nat, output: QuestionOutput)

  datatype AnswerRow = AnswerRow(question: nat, attempt: nat, text: string, timeTaken: Option<nat>)

  datatype EvaluationRow = EvaluationRow(
    answer: nat, dimensions: Dimensions, technicalOverall: int, communicationOverall: int)

  datatype FollowUpRow = FollowUpRow(parent: nat, trigger: nat, text: string)

  datatype KeyRow = KeyRow(key: string, question: nat, answer: nat, requestHash: string)

  datatype ReportRow = ReportRow(score: ReportScore, answered: nat)

  datatype Db = Db(
    owner: nat,
    plan: Plan,
    status: Status,
    cursor: nat,
    startedAt: Option<nat>,
    completedAt: Option<nat>,
    questions: seq<QuestionRow>,
    currentAnswer: map<nat, nat>, // the column current_answer_id, by question
    answers: seq<AnswerRow>,
    evaluations: seq<EvaluationRow>,
    followUps: seq<FollowUpRow>,
    keys: seq<KeyRow>,
    reports: seq<ReportRow>,
    trail: seq<Status> // every status the row has been committed with or passed through, oldest first
  )

  datatype ServiceError =
    | InterviewNotFound
    | InvalidConfig
    | InvalidTransition
    | NotReady
    | NotActive
    | InvalidAnswer
    | InvalidCurrentQuestion
    | DuplicateSubmission
    | SubmissionRejected
    | AlreadyCompleted
    | ReportNotEligible
    | NothingToReport
    | EntityMissing
    | IntegrityViolation
    | AIFailed(cause: AIError)

  /** The database after a transaction, and what the caller sees. */
  datatype Tx<+T> = Tx(db: Db, reply: Result<T, ServiceError>)

  datatype Unit = Unit

  // ---------- transition_interview ----------

  function Stamp(at: Option<nat>, due: bool, now: nat): Option<nat> {
    if due && at.None? then Some(now) else at
  }

  function Moved(db: Db, target: Status, now: nat): Db
    requires IsTransitionAllowed(db.status, target)
  {
    db.(status := target,
        startedAt := Stamp(db.startedAt, target == InProgress, now),
        completedAt := Stamp(db.completedAt, target == Completed, now),
        trail := db.trail + [target])
  }

  // ---------- create, prepare, start ----------

  function NewInterview(owner: nat, plan: Plan): Db {
    Db(owner, plan, Created, 0, None, None, [], map[], [], [], [], [], [], [Created])
  }

  /** `create_interview`; the enumerated fields and the resume lookup are not part of this model. */
  function Create(owner: nat, active: bool, role: string, language: Option<string>, count: int,
      plan: Plan): Result<Db, ServiceError> {
    var trimmed := Strip(role);
    var named := Strip(if language.Some? then language.value else "");
    if !(2 <= |trimmed| <= 255) then Err(InvalidConfig)
    else if !(MIN_QUESTIONS <= count <= MAX_QUESTIONS) then Err(InvalidConfig)
    else if |named| > 128 then Err(InvalidConfig)
    else if !active then Err(InterviewNotFound)
    else
      var spoken := if named == "" then None else Some(named);
      Ok(NewInterview(owner, plan.(role := trimmed, language := spoken, total := count)))
  }

  function BeginPreparation(db: Db, actor: nat, now: nat): Tx<Unit> {
    if actor != db.owner then Tx(db, Err(InterviewNotFound))
    else if !IsTransitionAllowed(db.status, Preparing) then Tx(db, Err(InvalidTransition))
    else Tx(Moved(db, Preparing, now), Ok(Unit))
  }

  function MarkReady(db: Db, now: nat): Tx<Unit> {
    if db.status != Preparing then Tx(db, Err(NotReady))
    else if db.questions == [] then Tx(db, Err(NotReady))
    else Tx(Moved(db, Ready, now), Ok(Unit))
  }

  /** The least order index that is at least `lo`: `ORDER BY order_index LIMIT 1`. */
  function NextOrder(questions: seq<QuestionRow>, lo: nat): Option<nat> {
    if questions == [] then None
    else
      var last := |questions| - 1;
      var rest := NextOrder(questions[..last], lo);
      var here := questions[last].orderIndex;
      if here >= lo && (rest.None? || here < rest.value) then Some(here) else rest
  }

  function Start(db: Db, actor: nat, now: nat): Tx<Unit> {
    if actor != db.owner then Tx(db, Err(InterviewNotFound))
    else if db.status != Ready then Tx(db, Err(NotReady))
    else
      match NextOrder(db.questions, 0)
      case None => Tx(Moved(db, Failed, now), Err(NotReady))
      case Some(first) =>
        Tx(Moved(Moved(db, InProgress, now).(cursor := first), WaitingForAnswer, now), Ok(Unit))
  }

  // ---------- submit_answer ----------

  datatype Submission = Submission(question: nat, text: string, key: string, timeTaken: Option<nat>)

  datatype Receipt = Receipt(answer: nat, isDuplicate: bool, status: Status)

  function FindKey(keys: seq<KeyRow>, key: string): Option<KeyRow> {
    if keys == [] then None
    else if keys[0].key == key then Some(keys[0])
    else FindKey(keys[1..], key)
  }

  /** `SELECT max(attempt_number)`, zero when there is no answer. */
  function MaxAttempt(answers: seq<AnswerRow>, question: nat): nat {
    if answers == [] then 0
    else
      var last := answers[|answers| - 1];
      var rest := MaxAttempt(answers[..|answers| - 1], question);
      if last.question == question && last.attempt > rest then last.attempt else rest
  }

  predicate ProperSubmission(s: Submission) {
    1 <= |Strip(s.text)| <= 20000 && 8 <= |Strip(s.key)| <= 128
  }

  function SubmissionHash(s: Submission): string {
    HashText(Strip(s.text), s.question, s.timeTaken)
  }

  /** The rows of a new answer: the next attempt, the question's pointer, the idempotency key. */
  function Recorded(db: Db, question: nat, text: string, key: string, timeTaken: Option<nat>, hash: string): Db {
    var id := |db.answers|;
    var row := AnswerRow(question, MaxAttempt(db.answers, question) + 1, text, timeTaken);
    db.(answers := db.answers + [row],
        currentAnswer := db.currentAnswer[question := id],
        keys := db.keys + [KeyRow(key, question, id, hash)])
  }

  /** The rows a fresh submission adds, with the moves to EVALUATING. */
  function Accepted(db: Db, s: Submission, now: nat): Db
    requires AcceptsAnswers(db.status)
  {
    var waiting := if db.status == FollowUpRequired then Moved(db, WaitingForAnswer, now) else db;
    Moved(Recorded(waiting, s.question, Strip(s.text), Strip(s.key), s.timeTaken, SubmissionHash(s)), Evaluating, now)
  }

  function SubmitNew(db: Db, s: Submission, now: nat): Tx<Receipt>
    requires s.question < |db.questions|
  {
    if !AcceptsAnswers(db.status) then Tx(db, Err(SubmissionRejected))
    else if db.questions[s.question].orderIndex != db.cursor then Tx(db, Err(InvalidCurrentQuestion))
    else Tx(Accepted(db, s, now), Ok(Receipt(|db.answers|, false, Evaluating)))
  }

  function Submit(db: Db, actor: nat, s: Submission, now: nat): Tx<Receipt> {
    if !ProperSubmission(s) then Tx(db, Err(InvalidAnswer))
    else if actor != db.owner then Tx(db, Err(InterviewNotFound))
    else if s.question >= |db.questions| then Tx(db, Err(InvalidCurrentQuestion))
    else
      match FindKey(db.keys, Strip(s.key))
      case Some(row) =>
        if row.question != s.question || row.requestHash != SubmissionHash(s) then Tx(db, Err(DuplicateSubmission))
        else Tx(db, Ok(Receipt(row.answer, true, db.status)))
      case None => SubmitNew(db, s, now)
  }

  // ---------- advancing, finishing, failing ----------

  function Advance(db: Db, needsFollowUp: bool, now: nat): Tx<Unit> {
    if db.status != Evaluating then Tx(db, Err(NotActive))
    else Tx(Moved(db, if needsFollowUp then FollowUpRequired else NextQuestion, now), Ok(Unit))
  }

  function MoveToNext(db: Db, now: nat): Tx<Unit> {
    if db.status == FollowUpRequired then Tx(Moved(db, WaitingForAnswer, now), Ok(Unit))
    else if db.status != NextQuestion then Tx(db, Err(NotActive))
    else
      match NextOrder(db.questions, db.cursor + 1)
      case None => Tx(Moved(db, Completed, now), Ok(Unit))
      case Some(next) => Tx(Moved(db.(cursor := next), WaitingForAnswer, now), Ok(Unit))
  }

  function Finish(db: Db, actor: nat, now: nat): Tx<Unit> {
    if actor != db.owner then Tx(db, Err(InterviewNotFound))
    else if IsFinished(db.status) then Tx(db, Err(AlreadyCompleted))
    else if !IsActive(db.status) then Tx(db, Err(NotActive))
    else Tx(Moved(db, Completed, now), Ok(Unit))
  }

  function Fail(db: Db, actor: nat, now: nat): Tx<Unit> {
    if actor != db.owner then Tx(db, Err(InterviewNotFound))
    else if db.status == ReportReady then Tx(db, Err(InvalidTransition))
    else if !IsTransitionAllowed(db.status, Failed) then Tx(db, Err(InvalidTransition))
    else Tx(Moved(db, Failed, now), Ok(Unit))
  }

  // ---------- the question generation task ----------

  /** The exception path of the generation task: fail the interview unless it already has. */
  function FailAfterError(db: Db, now: nat): Db {
    if db.status == Failed then db else Fail(db, db.owner, now).db
  }

  function RowsOf(outputs: seq<QuestionOutput>): seq<QuestionRow> {
    seq(|outputs|, i requires 0 <= i < |outputs| => QuestionRow(i, outputs[i]))
  }

  /** `uq_question_interview_order` would be violated. */
  predicate OrderClash(db: Db, rows: seq<QuestionRow>) {
    exists i, j | 0 <= i < |db.questions| && 0 <= j < |rows| :: db.questions[i].orderIndex == rows[j].orderIndex
  }

  /** Everything up to the first commit of the generation task, or its exception path. */
  function InsertQuestions(db: Db, scripts: Scripts, now: nat): Tx<Unit> {
    match GenerateSet(db.plan, scripts)
    case Err(e) => Tx(FailAfterError(db, now), Err(AIFailed(e)))
    case Ok(outputs) =>
      if OrderClash(db, RowsOf(outputs)) then Tx(FailAfterError(db, now), Err(IntegrityViolation))
      else Tx(db.(questions := db.questions + RowsOf(outputs)), Ok(Unit))
  }

  /** The second commit of the generation task, or its exception path. */
  function ReadyOrFail(db: Db, now: nat): Tx<Unit> {
    var tx := MarkReady(db, now);
    if tx.reply.Ok? then tx else Tx(FailAfterError(db, now), tx.reply)
  }

  // ---------- the evaluation task ----------

  datatype EvaluationReply = Skipped | Advanced(needsFollowUp: bool)

  predicate IsEvaluated(db: Db, answer: nat) {
    exists i | 0 <= i < |db.evaluations| :: db.evaluations[i].answer == answer
  }

  function FollowUpTexts(followUps: seq<FollowUpRow>, question: nat): seq<string> {
    if followUps == [] then []
    else
      var last := followUps[|followUps| - 1];
      FollowUpTexts(followUps[..|followUps| - 1], question) + (if last.parent == question then [last.text] else [])
  }

  /** `int(meta.get("max_follow_ups", 1) or 1)`: a stored zero reads as one. */
  function FollowUpLimit(q: QuestionOutput): nat {
    if q.maxFollowUps == 0 then 1 else q.maxFollowUps
  }

  /** `AnswerEvaluationService.evaluate`. */
  function EvaluationOf(text: string, replies: seq<Call<EvaluationOutput>>,
      maxRetries: int): Result<EvaluationOutput, AIError> {
    if Strip(text) == "" then Err(ValidationFailed) else Retrying(replies, maxRetries).outcome
  }

  function FollowUpRequestFor(db: Db, question: nat, answer: nat, e: EvaluationOutput): FollowUps.FollowUpRequest
    requires question < |db.questions| && answer < |db.answers|
  {
    FollowUps.FollowUpRequest(
      db.answers[answer].text, e.missingConcepts, e.incorrectConcepts, db.plan.difficulty,
      FollowUpTexts(db.followUps, question), FollowUpLimit(db.questions[question].output))
  }

  function EvaluationRowOf(answer: nat, e: EvaluationOutput): EvaluationRow {
    EvaluationRow(answer, e.dimensions, TechnicalOverall(e.dimensions), CommunicationOverall(e.dimensions))
  }

  predicate HasFollowUp(db: Db, question: nat, answer: nat) {
    exists i | 0 <= i < |db.followUps| :: db.followUps[i].parent == question && db.followUps[i].trigger == answer
  }

  /** The rows of a successful evaluation, with the move out of EVALUATING. */
  function Evaluated(db: Db, question: nat, answer: nat, e: EvaluationOutput, f: FollowUpOutput, now: nat): Db
    requires question < |db.questions|
    requires db.status == Evaluating
  {
    var needs := db.questions[question].output.followUpAllowed && f.followUpRequired;
    var row := FollowUpRow(question, answer, f.questionText);
    var added := if needs && !HasFollowUp(db, question, answer) then [row] else [];
    Moved(db.(evaluations := db.evaluations + [EvaluationRowOf(answer, e)], followUps := db.followUps + added),
          if needs then FollowUpRequired else NextQuestion, now)
  }

  /** Everything up to the commit inside `advance_after_evaluation`. */
  function Evaluate(db: Db, question: nat, answer: nat,
                    replies: seq<Call<EvaluationOutput>>, followReplies: seq<Call<FollowUpOutput>>, now: nat)
    : Tx<EvaluationReply>
  {
    if question >= |db.questions| || answer >= |db.answers| then Tx(db, Err(EntityMissing))
    else if db.answers[answer].question != question then Tx(db, Err(EntityMissing))
    else if db.status != Evaluating then Tx(db, Ok(Skipped))
    else if question !in db.currentAnswer || db.currentAnswer[question] != answer then Tx(db, Ok(Skipped))
    else if IsEvaluated(db, answer) then Tx(db, Ok(Skipped))
    else
      match EvaluationOf(db.answers[answer].text, replies, db.plan.maxRetries)
      case Err(e) => Tx(db, Err(AIFailed(e)))
      case Ok(e) =>
        match FollowUps.Decision(FollowUpRequestFor(db, question, answer, e), followReplies, db.plan.maxRetries)
        case Err(x) => Tx(db, Err(AIFailed(x)))
        case Ok(f) =>
          Tx(Evaluated(db, question, answer, e, f, now),
             Ok(Advanced(db.questions[question].output.followUpAllowed && f.followUpRequired)))
  }

  // ---------- the report task ----------

  /** The checks and `begin_report`; true when this delivery owns the report. */
  function BeginReport(db: Db, now: nat): Tx<bool> {
    if db.reports != [] then Tx(db, Ok(false))
    else if db.status != Completed then Tx(db, Ok(false))
    else Tx(Moved(db, ReportGenerating, now), Ok(true))
  }

  function DimensionsOf(rows: seq<EvaluationRow>): seq<Dimensions> {
    seq(|rows|, i requires 0 <= i < |rows| => rows[i].dimensions)
  }

  /** The report computed from the evaluation rows in the order the query returns them. */
  function ReportOf(rows: seq<EvaluationRow>): Result<ReportRow, ServiceError> {
    match ReportScores(DimensionsOf(rows))
    case Err(_) => Err(NothingToReport)
    case Ok(score) => Ok(ReportRow(score, |rows|))
  }

  function WriteReport(db: Db, report: ReportRow, now: nat): Tx<Unit> {
    if db.status != ReportGenerating then Tx(db, Err(ReportNotEligible))
    else if db.reports != [] then Tx(db, Err(IntegrityViolation))
    else Tx(Moved(db.(reports := db.reports + [report]), ReportReady, now), Ok(Unit))
  }
}
