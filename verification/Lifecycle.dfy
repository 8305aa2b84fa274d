/**
 The interview lifecycle as a state machine: callers and at-least-once workers
 interleave on one interview row, one committed transaction per step.
 */
module Lifecycle {
  import opened Wrappers
  import opened Schemas
  import opened QuestionGeneration
  import opened InterviewDb

  /** What a live worker has committed so far and still has to do. */
  datatype Task =
    | Inserted // questions are committed; mark_ready is still to come
    | Judged // the evaluation is committed at NEXT_QUESTION; move_to_next_question is still to come
    | Reporting // begin_report is committed; the evaluations have not been read
    | Scored(report: ReportRow) // evaluations are read and scored; the report is not written

  /** The database and the workers in flight, by delivery. */
  datatype World = World(db: Db, tasks: map<nat, Task>)

  datatype Action =
    | CallPrepare(actor: nat)
    | CallStart(actor: nat)
    | CallSubmit(actor: nat, submission: Submission)
    | CallFinish(actor: nat)
    | CallFail(actor: nat)
    | DeliverGeneration(task: nat, scripts: Scripts)
    | DeliverEvaluation(task: nat, question: nat, answer: nat,
                        replies: seq<Call<EvaluationOutput>>, followReplies: seq<Call<FollowUpOutput>>)
    | DeliverReport(task: nat)
    | Continue(task: nat, rows: seq<EvaluationRow>, providerAnswers: bool)
    | Crash(task: nat)

  datatype Event = Event(now: nat, action: Action)

  /** The next transaction of a live worker. */
  function Resume(w: World, task: nat, rows: seq<EvaluationRow>, providerAnswers: bool, now: nat): World
    requires task in w.tasks
  {
    var others := w.tasks - {task};
    match w.tasks[task]
    case Inserted => World(ReadyOrFail(w.db, now).db, others)
    case Judged => World(MoveToNext(w.db, now).db, others)
    case Reporting =>
      // The query has no ORDER BY: it returns the rows in any order, and nothing else.
      if multiset(rows) != multiset(w.db.evaluations) then w
      else if ReportOf(rows).Ok? && providerAnswers then w.(tasks := w.tasks[task := Scored(ReportOf(rows).value)])
      else w.(tasks := others)
    case Scored(report) => World(WriteReport(w.db, report, now).db, others)
  }

  function Deliver(w: World, action: Action, now: nat): World
    requires IsDelivery(action)
  {
    match action
    case DeliverGeneration(task, scripts) =>
      var tx := InsertQuestions(w.db, scripts, now);
      World(tx.db, if tx.reply.Ok? then w.tasks[task := Inserted] else w.tasks)
    case DeliverEvaluation(task, question, answer, replies, followReplies) =>
      var tx := Evaluate(w.db, question, answer, replies, followReplies, now);
      World(tx.db, if tx.reply == Ok(Advanced(false)) then w.tasks[task := Judged] else w.tasks)
    case DeliverReport(task) =>
      var tx := BeginReport(w.db, now);
      World(tx.db, if tx.reply == Ok(true) then w.tasks[task := Reporting] else w.tasks)
  }

  predicate IsCall(action: Action) {
    action.CallPrepare? || action.CallStart? || action.CallSubmit? || action.CallFinish? || action.CallFail?
  }

  predicate IsDelivery(action: Action) {
    action.DeliverGeneration? || action.DeliverEvaluation? || action.DeliverReport?
  }

  /** A call of the service layer on behalf of an actor. */
  function Called(db: Db, action: Action, now: nat): Db
    requires IsCall(action)
  {
    match action
    case CallPrepare(actor) => BeginPreparation(db, actor, now).db
    case CallStart(actor) => Start(db, actor, now).db
    case CallSubmit(actor, s) => Submit(db, actor, s, now).db
    case CallFinish(actor) => Finish(db, actor, now).db
    case CallFail(actor) => Fail(db, actor, now).db
  }

  /** A delivery identifier names one live worker, so it cannot be used while that worker lives. */
  function Step(w: World, e: Event): World {
    if IsCall(e.action) then
      w.(db := Called(w.db, e.action, e.now))
    else if IsDelivery(e.action) then
      if e.action.task in w.tasks then w else Deliver(w, e.action, e.now)
    else
      match e.action
      case Crash(task) => w.(tasks := w.tasks - {task})
      case Continue(task, rows, providerAnswers) =>
        if task in w.tasks then Resume(w, task, rows, providerAnswers, e.now) else w
  }

  function Run(w: World, events: seq<Event>): World
    decreases |events|
  {
    if events == [] then w else Run(Step(w, events[0]), events[1..])
  }

  function Initial(owner: nat, plan: Plan): World {
    World(NewInterview(owner, plan), map[])
  }

  lemma {:induction false} RunOfConcatenation(w: World, a: seq<Event>, b: seq<Event>)
    ensures Run(w, a + b) == Run(Run(w, a), b)
    decreases |a|
  {
    if a == [] {
      assert a + b == b;
    } else {
      assert (a + b)[1..] == a[1..] + b;
      RunOfConcatenation(Step(w, a[0]), a[1..], b);
    }
  }

  /** An event that does nothing where it stands can be deleted from the schedule. */
  lemma NoOpVanishes(w: World, first: Event, mid: seq<Event>, idle: Event, post: seq<Event>)
    requires var there := Run(Step(w, first), mid); Step(there, idle) == there
    ensures Run(w, [first] + mid + [idle] + post) == Run(w, [first] + mid + post)
  {
    var there := Run(Step(w, first), mid);
    var rest := [first] + mid + post;
    var all := [first] + mid + [idle] + post;
    assert rest[1..] == mid + post;
    assert all[1..] == mid + ([idle] + post);
    RunOfConcatenation(Step(w, first), mid, post);
    RunOfConcatenation(Step(w, first), mid, [idle] + post);
    assert ([idle] + post)[1..] == post;
  }
}
