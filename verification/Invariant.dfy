/**
 The global invariant of an interview: status, cursor, answers, evaluations, follow-ups,
 idempotency keys, report and history agree.
 */
module Invariant {
  import opened Wrappers
  import opened StateMachine
  import opened Scoring
  import opened Schemas
  import opened Text
  import opened RequestHash
  import opened QuestionGeneration
  import opened InterviewDb
  import opened Counting
  import opened Lifecycle

  function OutputsOf(rows: seq<QuestionRow>): seq<QuestionOutput> {
    seq(|rows|, i requires 0 <= i < |rows| => rows[i].output)
  }

  /** The question set is empty or complete, in order, and validated. */
  ghost predicate QuestionsOk(plan: Plan, questions: seq<QuestionRow>) {
    && MIN_QUESTIONS <= plan.total <= MAX_QUESTIONS
    && (questions == [] || |questions| == plan.total)
    && (forall i | 0 <= i < |questions| :: questions[i].orderIndex == i)
    && EachAcceptable(plan, OutputsOf(questions))
  }

  /** The attempt number counts the answers to the same question up to this one. */
  ghost predicate AttemptOk(answers: seq<AnswerRow>, i: nat)
    requires i < |answers|
  {
    answers[i].attempt == CountAnswers(answers[..i], answers[i].question) + 1
  }

  /** Answers come question by question, up to the cursor, with attempts 1, 2, 3, ... per question. */
  ghost predicate AnswersOk(answers: seq<AnswerRow>, total: nat, cursor: nat) {
    && (forall i | 0 <= i < |answers| ::
          && answers[i].question < total
          && answers[i].question <= cursor
          && 1 <= |answers[i].text| <= 20000
          && Strip(answers[i].text) == answers[i].text)
    && (forall i, j | 0 <= i < j < |answers| :: answers[i].question <= answers[j].question)
    && (forall i | 0 <= i < |answers| :: AttemptOk(answers, i))
  }

  ghost predicate KeyMatches(k: KeyRow, a: AnswerRow, i: nat) {
    && k.answer == i
    && k.question == a.question
    && k.requestHash == HashText(a.text, a.question, a.timeTaken)
  }

  /** The idempotency row of each answer stands at the answer's own position. */
  ghost predicate KeysOk(keys: seq<KeyRow>, answers: seq<AnswerRow>) {
    && |keys| == |answers|
    && (forall i | 0 <= i < |keys| :: KeyMatches(keys[i], answers[i], i))
    && (forall i, j | 0 <= i < j < |keys| :: keys[i].key != keys[j].key)
  }

  ghost predicate IsLatest(answers: seq<AnswerRow>, question: nat, a: nat) {
    && a < |answers|
    && answers[a].question == question
    && forall j | a < j < |answers| :: answers[j].question != question
  }

  /** `current_answer_id` is the latest answer of every answered question. */
  ghost predicate PointersOk(current: map<nat, nat>, answers: seq<AnswerRow>) {
    && (forall q | q in current :: IsLatest(answers, q, current[q]))
    && (forall i | 0 <= i < |answers| :: answers[i].question in current)
  }

  /** Evaluations follow the answers one by one; only the last answer can be without one. */
  ghost predicate EvaluationsOk(evaluations: seq<EvaluationRow>, answers: seq<AnswerRow>) {
    && |evaluations| <= |answers| <= |evaluations| + 1
    && forall i | 0 <= i < |evaluations| ::
         && evaluations[i].answer == i
         && evaluations[i].technicalOverall == TechnicalOverall(evaluations[i].dimensions)
         && evaluations[i].communicationOverall == CommunicationOverall(evaluations[i].dimensions)
  }

  /** Follow-ups are triggered by different evaluated answers and never repeat within a question. */
  ghost predicate FollowUpsOk(followUps: seq<FollowUpRow>, evaluated: nat, answers: seq<AnswerRow>) {
    && |followUps| <= evaluated
    && (forall k | 0 <= k < |followUps| ::
          && followUps[k].trigger < evaluated <= |answers|
          && followUps[k].parent == answers[followUps[k].trigger].question)
    && (forall j, k | 0 <= j < k < |followUps| :: followUps[j].trigger < followUps[k].trigger)
    && (forall j, k | 0 <= j < k < |followUps| && followUps[j].parent == followUps[k].parent ::
          Normalize(followUps[j].text) != Normalize(followUps[k].text))
  }

  /** No question has more follow-ups than its budget. */
  ghost predicate BudgetsOk(followUps: seq<FollowUpRow>, questions: seq<QuestionRow>) {
    forall q | 0 <= q < |questions| :: CountFollowUps(followUps, q) <= Budget(questions[q])
  }

  /** Questions before the cursor have one answer more than follow-ups, those after it have neither. */
  ghost predicate AccountsOk(answers: seq<AnswerRow>, followUps: seq<FollowUpRow>, cursor: nat) {
    && (forall q: nat | q < cursor :: CountAnswers(answers, q) == CountFollowUps(followUps, q) + 1)
    && (forall q: nat | q > cursor :: CountAnswers(answers, q) == 0 && CountFollowUps(followUps, q) == 0)
  }

  /** The columns that no change of status touches. */
  datatype Tables = Tables(
    plan: Plan,
    cursor: nat,
    questions: seq<QuestionRow>,
    currentAnswer: map<nat, nat>,
    answers: seq<AnswerRow>,
    evaluations: seq<EvaluationRow>,
    followUps: seq<FollowUpRow>,
    keys: seq<KeyRow>
  )

  function TablesOf(db: Db): Tables {
    Tables(db.plan, db.cursor, db.questions, db.currentAnswer, db.answers, db.evaluations, db.followUps, db.keys)
  }

  ghost predicate TablesOk(t: Tables) {
    && QuestionsOk(t.plan, t.questions)
    && AnswersOk(t.answers, |t.questions|, t.cursor)
    && KeysOk(t.keys, t.answers)
    && PointersOk(t.currentAnswer, t.answers)
    && EvaluationsOk(t.evaluations, t.answers)
    && FollowUpsOk(t.followUps, |t.evaluations|, t.answers)
    && BudgetsOk(t.followUps, t.questions)
    && AccountsOk(t.answers, t.followUps, t.cursor)
  }

  function Due(db: Db): int {
    CountAnswers(db.answers, db.cursor) - CountFollowUps(db.followUps, db.cursor)
  }

  /** What the status says about the current question and the answer without an evaluation. */
  ghost predicate CurrentOk(db: Db) {
    && 0 <= Due(db) <= 1
    && (AcceptsAnswers(db.status) ==> Due(db) == 0)
    && (HoldsAnswer(db.status) ==> Due(db) == 1)
    && (|db.evaluations| < |db.answers| ==>
          && db.answers[|db.answers| - 1].question == db.cursor
          && (db.status.Evaluating? || IsFinished(db.status) || db.status.Failed?))
    && (db.status == Evaluating ==> |db.evaluations| < |db.answers|)
  }

  /** What the status alone says about the other columns. */
  ghost predicate PhaseOk(db: Db) {
    && db.status != InProgress
    && (IsUnstarted(db.status) ==> db.cursor == 0 && db.answers == [])
    && (db.status == Ready ==> db.questions != [])
    && (IsActive(db.status) || IsFinished(db.status) ==>
          db.cursor < |db.questions|)
    && (IsUnstarted(db.status) ==> db.startedAt.None?)
    && (IsActive(db.status) || IsFinished(db.status) ==>
          db.startedAt.Some?)
    && (IsFinished(db.status) ==> db.completedAt.Some?)
    && (db.completedAt.Some? ==> db.startedAt.Some? && (IsFinished(db.status) || db.status.Failed?))
    && (db.questions == [] ==> db.cursor == 0 && db.answers == [])
  }

  /** There is a report exactly when the status says so, and it is the report on the stored evaluations. */
  ghost predicate ReportsOk(db: Db) {
    && (db.status != ReportReady ==> db.reports == [])
    && (db.status == ReportReady ==> |db.reports| == 1 && ReportOf(db.evaluations) == Ok(db.reports[0]))
  }

  /** Status changes still possible: the termination measure. */
  function Measure(db: Db): int {
    var room := Capacity(db.questions) - |db.answers|;
    match db.status
    case Created => 6 + 3 * room
    case Preparing => 5 + 3 * room
    case Ready => 4 + 3 * room
    case InProgress => 3 + 3 * room
    case WaitingForAnswer => 2 + 3 * room
    case Evaluating => 4 + 3 * room
    case FollowUpRequired => 3 + 3 * room
    case NextQuestion => 3 + 3 * room
    case Completed => 2
    case ReportGenerating => 1
    case ReportReady => 0
    case Failed => 0
  }

  /** The history is a path of the status graph, and its length is paid for by the measure. */
  ghost predicate TrailOk(db: Db) {
    && db.trail != []
    && db.trail[0] == Created
    && db.trail[|db.trail| - 1] == db.status
    && IsPath(db.trail)
    && |db.trail| - 1 + Measure(db) <= 6 + 3 * Capacity(db.questions)
  }

  ghost predicate Inv(db: Db) {
    && TablesOk(TablesOf(db))
    && CurrentOk(db)
    && PhaseOk(db)
    && ReportsOk(db)
    && TrailOk(db)
  }

  /** A live worker's unfinished business still fits the database. */
  ghost predicate TaskOk(db: Db, t: Task) {
    match t
    case Inserted => db.questions != [] && (db.status.Created? || db.status.Preparing? || db.status.Failed?)
    case Judged => db.status.NextQuestion? || IsClosed(db.status)
    case Reporting => db.status.ReportGenerating? || db.status.Failed?
    case Scored(report) =>
      (db.status.ReportGenerating? || db.status.Failed?) && ReportOf(db.evaluations) == Ok(report)
  }

  /** The three kinds of unfinished business. */
  datatype Business = ToReady | ToMoveOn | ToReport

  function BusinessOf(t: Task): Business {
    match t
    case Inserted => ToReady
    case Judged => ToMoveOn
    case Reporting => ToReport
    case Scored(_) => ToReport
  }

  /** However often tasks are delivered, no two live workers have the same business left. */
  ghost predicate OneOfEach(tasks: map<nat, Task>) {
    forall s, t | s in tasks && t in tasks && BusinessOf(tasks[s]) == BusinessOf(tasks[t]) :: s == t
  }

  ghost predicate WorldInv(w: World) {
    && Inv(w.db)
    && (forall t | t in w.tasks :: TaskOk(w.db, w.tasks[t]))
    && OneOfEach(w.tasks)
  }

  // ---------- room for answers ----------

  lemma {:induction false} CountsFit(db: Db, n: nat)
    requires BudgetsOk(db.followUps, db.questions) && AccountsOk(db.answers, db.followUps, db.cursor) && CurrentOk(db)
    requires n <= |db.questions|
    ensures SumCounts(db.answers, n) <= Capacity(db.questions[..n])
    ensures db.cursor < n && AcceptsAnswers(db.status) ==>
              SumCounts(db.answers, n) < Capacity(db.questions[..n])
  {
    if n > 0 {
      CountsFit(db, n - 1);
      var front := db.questions[..n];
      assert front[..|front| - 1] == db.questions[..n - 1];
      assert CountFollowUps(db.followUps, n - 1) <= Budget(db.questions[n - 1]);
    }
  }

  /** The answers never exceed the capacity, and an interview that accepts an answer has room for it. */
  lemma RoomLeft(db: Db)
    requires TablesOk(TablesOf(db)) && CurrentOk(db) && PhaseOk(db)
    ensures |db.answers| <= Capacity(db.questions)
    ensures AcceptsAnswers(db.status) ==> |db.answers| < Capacity(db.questions)
  {
    SumCountsIsLength(db.answers, |db.questions|);
    CountsFit(db, |db.questions|);
    assert db.questions[..|db.questions|] == db.questions;
  }

  // ---------- moves that change no table ----------

  lemma PathSnoc(trail: seq<Status>, target: Status)
    requires trail != [] && IsPath(trail) && IsTransitionAllowed(trail[|trail| - 1], target)
    ensures IsPath(trail + [target])
  {
    var longer := trail + [target];
    forall i | 0 < i < |longer| ensures IsTransitionAllowed(longer[i - 1], longer[i]) {
      if i < |trail| {
        assert longer[i - 1] == trail[i - 1] && longer[i] == trail[i];
      }
    }
  }

  /** Where a committed move may lead without touching a table. */
  predicate PlainMove(db: Db, target: Status) {
    || target.Preparing? || target.Completed? || target.Failed? || target.ReportGenerating?
    || (target == Ready && db.questions != [])
    || (target == WaitingForAnswer && db.status == FollowUpRequired)
  }

  lemma MoveCosts(db: Db, target: Status, now: nat)
    requires |db.answers| <= Capacity(db.questions)
    requires AcceptsAnswers(db.status) ==> |db.answers| < Capacity(db.questions)
    requires IsTransitionAllowed(db.status, target) && PlainMove(db, target)
    requires !db.status.InProgress?
    ensures Measure(Moved(db, target, now)) < Measure(db)
  {
  }

  lemma MoveKeepsTrail(db: Db, target: Status, now: nat)
    requires |db.answers| <= Capacity(db.questions)
    requires AcceptsAnswers(db.status) ==> |db.answers| < Capacity(db.questions)
    requires !db.status.InProgress? && TrailOk(db)
    requires IsTransitionAllowed(db.status, target) && PlainMove(db, target)
    ensures TrailOk(Moved(db, target, now))
  {
    PathSnoc(db.trail, target);
    MoveCosts(db, target, now);
  }

  lemma MoveKeepsRest(db: Db, target: Status, now: nat)
    requires CurrentOk(db) && PhaseOk(db) && ReportsOk(db)
    requires IsTransitionAllowed(db.status, target) && PlainMove(db, target)
    ensures CurrentOk(Moved(db, target, now))
    ensures PhaseOk(Moved(db, target, now))
    ensures ReportsOk(Moved(db, target, now))
  {
  }

  lemma MoveKeepsInv(db: Db, target: Status, now: nat)
    requires Inv(db)
    requires IsTransitionAllowed(db.status, target) && PlainMove(db, target)
    ensures Inv(Moved(db, target, now))
  {
    RoomLeft(db);
    MoveKeepsTrail(db, target, now);
    MoveKeepsRest(db, target, now);
    assert TablesOf(Moved(db, target, now)) == TablesOf(db);
  }
}
