/** What no step undoes: tables only grow, stamps stay, and a completed interview keeps its evaluations. */
module Growth {
  import opened StateMachine
  import opened Schemas
  import opened QuestionGeneration
  import opened InterviewDb
  import opened Lifecycle
  import opened Invariant
  import opened EvaluationProofs
  import opened Preservation

  /** Every table and the history only grow at their ends, and each stamp is set once. */
  ghost predicate Extends(a: Db, b: Db) {
    && b.owner == a.owner
    && b.plan == a.plan
    && (b.questions == a.questions || a.questions == [])
    && a.answers <= b.answers
    && a.evaluations <= b.evaluations
    && a.followUps <= b.followUps
    && a.keys <= b.keys
    && a.reports <= b.reports
    && a.trail <= b.trail
    && a.cursor <= b.cursor
    && (a.startedAt.Some? ==> b.startedAt == a.startedAt)
    && (a.completedAt.Some? ==> b.completedAt == a.completedAt)
  }

  /** A completed or failed interview takes no further answer, evaluation or follow-up. */
  ghost predicate Closes(a: Db, b: Db) {
    && (IsSettled(a.status) ==> IsSettled(b.status))
    && (IsClosed(a.status) ==>
          && IsClosed(b.status)
          && b.answers == a.answers && b.evaluations == a.evaluations && b.followUps == a.followUps
          && b.keys == a.keys && b.cursor == a.cursor)
    && (IsTerminal(a.status) ==> b.status == a.status && b.reports == a.reports && b.trail == a.trail)
    && (!IsUnstarted(a.status) ==> !IsUnstarted(b.status))
  }

  ghost predicate Grows(a: Db, b: Db) {
    Extends(a, b) && Closes(a, b)
  }

  lemma GrowsIsTransitive(a: Db, b: Db, c: Db)
    requires Grows(a, b) && Grows(b, c)
    ensures Grows(a, c)
  {
  }

  lemma MovedGrows(db: Db, target: Status, now: nat)
    requires IsTransitionAllowed(db.status, target)
    ensures Grows(db, Moved(db, target, now))
  {
  }

  lemma StartGrows(db: Db, actor: nat, now: nat)
    requires db.status == Ready ==> db.cursor == 0
    ensures Grows(db, Start(db, actor, now).db)
  {
  }

  lemma SubmitGrows(db: Db, actor: nat, s: Submission, now: nat)
    ensures Grows(db, Submit(db, actor, s, now).db)
  {
    if Submit(db, actor, s, now).db != db {
      AcceptedGrows(db, s, now);
    }
  }

  lemma AcceptedGrows(db: Db, s: Submission, now: nat)
    requires AcceptsAnswers(db.status)
    ensures Grows(db, Accepted(db, s, now))
  {
  }

  lemma MoveToNextGrows(db: Db, now: nat)
    ensures Grows(db, MoveToNext(db, now).db)
  {
    if db.status == NextQuestion {
      NextOrderMeaning(db.questions, db.cursor + 1);
    }
  }

  lemma EvaluatedGrows(db: Db, question: nat, answer: nat, e: EvaluationOutput, f: FollowUpOutput, now: nat)
    requires question < |db.questions| && db.status == Evaluating
    ensures Grows(db, Evaluated(db, question, answer, e, f, now))
  {
  }

  lemma EvaluateGrows(db: Db, question: nat, answer: nat,
                      replies: seq<Call<EvaluationOutput>>, followReplies: seq<Call<FollowUpOutput>>, now: nat)
    ensures Grows(db, Evaluate(db, question, answer, replies, followReplies, now).db)
  {
    if Evaluate(db, question, answer, replies, followReplies, now).db != db {
      var e, f := CommittedEvaluation(db, question, answer, replies, followReplies, now);
      EvaluatedGrows(db, question, answer, e, f, now);
    }
  }

  lemma FailAfterErrorGrows(db: Db, now: nat)
    ensures Grows(db, FailAfterError(db, now))
  {
    FailAfterErrorResult(db, now);
    if !IsTerminal(db.status) {
      MovedGrows(db, Failed, now);
    }
  }

  lemma FirstSetGrows(db: Db, outputs: seq<QuestionOutput>)
    requires db.questions == []
    ensures Grows(db, db.(questions := db.questions + RowsOf(outputs)))
  {
  }

  lemma InsertGrows(db: Db, scripts: Scripts, now: nat)
    requires QuestionsOk(db.plan, db.questions)
    ensures Grows(db, InsertQuestions(db, scripts, now).db)
  {
    InsertResult(db, scripts, now);
    if InsertQuestions(db, scripts, now).reply.Ok? {
      FirstSetGrows(db, GenerateSet(db.plan, scripts).value);
    } else {
      FailAfterErrorGrows(db, now);
    }
  }

  lemma ReadyGrows(db: Db, now: nat)
    ensures Grows(db, ReadyOrFail(db, now).db)
  {
    FailAfterErrorGrows(db, now);
  }

  lemma WriteReportGrows(db: Db, report: ReportRow, now: nat)
    ensures Grows(db, WriteReport(db, report, now).db)
  {
  }

  lemma BeginReportGrows(db: Db, now: nat)
    ensures Grows(db, BeginReport(db, now).db)
  {
  }

  lemma CallGrows(db: Db, action: Action, now: nat)
    requires IsCall(action)
    requires db.status == Ready ==> db.cursor == 0
    ensures Grows(db, Called(db, action, now))
  {
    var after := Called(db, action, now);
    match action
    case CallStart(actor) => StartGrows(db, actor, now);
    case CallSubmit(actor, s) => SubmitGrows(db, actor, s, now);
    case CallPrepare(_) =>
      if after != db { MovedGrows(db, Preparing, now); }
    case CallFinish(_) =>
      if after != db { MovedGrows(db, Completed, now); }
    case CallFail(_) =>
      if after != db { MovedGrows(db, Failed, now); }
  }

  lemma DeliverGrows(w: World, action: Action, now: nat)
    requires QuestionsOk(w.db.plan, w.db.questions) && IsDelivery(action)
    ensures Grows(w.db, Deliver(w, action, now).db)
  {
    match action
    case DeliverGeneration(_, scripts) => InsertGrows(w.db, scripts, now);
    case DeliverEvaluation(_, q, a, replies, followReplies) => EvaluateGrows(w.db, q, a, replies, followReplies, now);
    case DeliverReport(_) => BeginReportGrows(w.db, now);
  }

  lemma ResumeGrows(w: World, task: nat, rows: seq<EvaluationRow>, providerAnswers: bool, now: nat)
    requires task in w.tasks
    ensures Grows(w.db, Resume(w, task, rows, providerAnswers, now).db)
  {
    match w.tasks[task]
    case Inserted => ReadyGrows(w.db, now);
    case Judged => MoveToNextGrows(w.db, now);
    case Reporting =>
    case Scored(report) => WriteReportGrows(w.db, report, now);
  }

  /** No step of any actor undoes anything. */
  lemma StepGrows(w: World, e: Event)
    requires Inv(w.db)
    ensures Grows(w.db, Step(w, e).db)
  {
    if IsCall(e.action) {
      CallGrows(w.db, e.action, e.now);
    } else if IsDelivery(e.action) {
      if e.action.task !in w.tasks {
        DeliverGrows(w, e.action, e.now);
      }
    } else if e.action.Continue? && e.action.task in w.tasks {
      ResumeGrows(w, e.action.task, e.action.rows, e.action.providerAnswers, e.now);
    }
  }
}
