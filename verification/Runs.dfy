/** The world invariant holds after every run, whatever the schedule and the providers do. */
module Runs {
  import opened StateMachine
  import opened QuestionGeneration
  import opened InterviewDb
  import opened Lifecycle
  import opened Invariant
  import opened SubmissionProofs
  import opened EvaluationProofs
  import opened Preservation
  import opened Growth

  lemma InitialInv(owner: nat, plan: Plan)
    requires MIN_QUESTIONS <= plan.total <= MAX_QUESTIONS
    ensures WorldInv(Initial(owner, plan))
  {
  }

  // ---------- the database invariant, step by step ----------

  lemma CallKeepsInv(db: Db, action: Action, now: nat)
    requires Inv(db) && IsCall(action)
    ensures Inv(Called(db, action, now))
  {
    match action
    case CallPrepare(actor) => PrepareKeepsInv(db, actor, now);
    case CallStart(actor) => StartKeepsInv(db, actor, now);
    case CallSubmit(actor, s) => SubmitKeepsInv(db, actor, s, now);
    case CallFinish(actor) => FinishKeepsInv(db, actor, now);
    case CallFail(actor) => FailKeepsInv(db, actor, now);
  }

  lemma DeliverKeepsInv(w: World, action: Action, now: nat)
    requires Inv(w.db) && IsDelivery(action)
    ensures Inv(Deliver(w, action, now).db)
  {
    match action
    case DeliverGeneration(_, scripts) => InsertKeepsInv(w.db, scripts, now);
    case DeliverEvaluation(_, q, a, replies, followReplies) => EvaluateKeepsInv(w.db, q, a, replies, followReplies,
        now);
    case DeliverReport(_) => BeginReportKeepsInv(w.db, now);
  }

  lemma ResumeKeepsInv(w: World, task: nat, rows: seq<EvaluationRow>, providerAnswers: bool, now: nat)
    requires Inv(w.db) && task in w.tasks && TaskOk(w.db, w.tasks[task])
    ensures Inv(Resume(w, task, rows, providerAnswers, now).db)
  {
    match w.tasks[task]
    case Inserted => ReadyKeepsInv(w.db, now);
    case Judged => MoveToNextKeepsInv(w.db, now);
    case Reporting =>
    case Scored(report) => WriteReportKeepsInv(w.db, report, now);
  }

  lemma StepKeepsDb(w: World, e: Event)
    requires WorldInv(w)
    ensures Inv(Step(w, e).db)
  {
    if IsCall(e.action) {
      CallKeepsInv(w.db, e.action, e.now);
    } else if IsDelivery(e.action) {
      if e.action.task !in w.tasks {
        DeliverKeepsInv(w, e.action, e.now);
      }
    } else if e.action.Continue? && e.action.task in w.tasks {
      ResumeKeepsInv(w, e.action.task, e.action.rows, e.action.providerAnswers, e.now);
    }
  }

  // ---------- the workers in flight ----------

  /** Before it is ready, an interview with questions can only be prepared or fail. */
  predicate IsWaitingToBeReady(db: Db) {
    db.questions != [] && (db.status.Created? || db.status.Preparing? || db.status.Failed?)
  }

  lemma CallKeepsWaiting(db: Db, action: Action, now: nat)
    requires IsCall(action) && IsWaitingToBeReady(db)
    ensures IsWaitingToBeReady(Called(db, action, now))
  {
  }

  lemma DeliverKeepsWaiting(w: World, action: Action, now: nat)
    requires IsDelivery(action) && IsWaitingToBeReady(w.db)
    requires QuestionsOk(w.db.plan, w.db.questions)
    ensures IsWaitingToBeReady(Deliver(w, action, now).db)
  {
    if action.DeliverGeneration? {
      FailAfterErrorResult(w.db, now);
      InsertResult(w.db, action.scripts, now);
    }
  }

  lemma ResumeKeepsWaiting(w: World, task: nat, rows: seq<EvaluationRow>, providerAnswers: bool, now: nat)
    requires task in w.tasks && !w.tasks[task].Inserted? && IsWaitingToBeReady(w.db)
    ensures IsWaitingToBeReady(Resume(w, task, rows, providerAnswers, now).db)
  {
  }

  /** Nobody but the worker that evaluated leads an interview out of NEXT_QUESTION, except to its end. */
  lemma OthersLeaveNextQuestion(w: World, e: Event)
    requires QuestionsOk(w.db.plan, w.db.questions) && w.db.status == NextQuestion
    requires e.action.Continue? && e.action.task in w.tasks ==> !w.tasks[e.action.task].Judged?
    ensures var after := Step(w, e).db.status; after.NextQuestion? || IsClosed(after)
  {
    if e.action.DeliverGeneration? {
      FailAfterErrorResult(w.db, e.now);
      InsertResult(w.db, e.action.scripts, e.now);
    }
  }

  /** Nobody but the worker that scored leads an interview out of REPORT_GENERATING, except to FAILED. */
  lemma OthersLeaveReportGenerating(w: World, e: Event)
    requires QuestionsOk(w.db.plan, w.db.questions) && w.db.status == ReportGenerating
    requires e.action.Continue? && e.action.task in w.tasks ==> !w.tasks[e.action.task].Scored?
    ensures var after := Step(w, e).db.status; after.ReportGenerating? || after.Failed?
  {
    if e.action.DeliverGeneration? {
      FailAfterErrorResult(w.db, e.now);
      InsertResult(w.db, e.action.scripts, e.now);
    }
  }

  /** A worker that goes on from its evaluation or its report is gone afterwards. */
  lemma LastCommitEndsTheTask(w: World, e: Event)
    requires e.action.Continue? && e.action.task in w.tasks
    requires w.tasks[e.action.task].Judged? || w.tasks[e.action.task].Scored?
    ensures e.action.task !in Step(w, e).tasks
  {
  }

  lemma SurvivingInserterIsOk(w: World, e: Event, t: nat)
    requires WorldInv(w)
    requires t in w.tasks && t in Step(w, e).tasks && w.tasks[t].Inserted?
    ensures TaskOk(Step(w, e).db, w.tasks[t])
  {
    assert TaskOk(w.db, w.tasks[t]);
    if IsCall(e.action) {
      CallKeepsWaiting(w.db, e.action, e.now);
    } else if IsDelivery(e.action) {
      if e.action.task !in w.tasks {
        DeliverKeepsWaiting(w, e.action, e.now);
      }
    } else if e.action.Continue? && e.action.task in w.tasks {
      ResumeKeepsWaiting(w, e.action.task, e.action.rows, e.action.providerAnswers, e.now);
    }
  }

  lemma SurvivingJudgeIsOk(w: World, e: Event, t: nat)
    requires WorldInv(w)
    requires t in w.tasks && t in Step(w, e).tasks && w.tasks[t].Judged?
    ensures TaskOk(Step(w, e).db, w.tasks[t])
  {
    assert TaskOk(w.db, w.tasks[t]);
    StepGrows(w, e);
    if w.db.status == NextQuestion {
      if e.action.Continue? && e.action.task in w.tasks && w.tasks[e.action.task].Judged? {
        LastCommitEndsTheTask(w, e);
      }
      OthersLeaveNextQuestion(w, e);
    }
  }

  lemma SettledStays(w: World, e: Event)
    requires Inv(w.db) && IsSettled(w.db.status)
    ensures Step(w, e).db.evaluations == w.db.evaluations
    ensures w.db.status.Failed? ==> Step(w, e).db.status.Failed?
  {
    StepGrows(w, e);
  }

  /** While a report worker lives, no other one can have written a report. */
  lemma ReportStaysOpen(w: World, e: Event, t: nat)
    requires WorldInv(w) && w.db.status == ReportGenerating
    requires t in w.tasks && t in Step(w, e).tasks && BusinessOf(w.tasks[t]) == ToReport
    ensures var after := Step(w, e).db.status; after.ReportGenerating? || after.Failed?
  {
    if e.action.Continue? && e.action.task in w.tasks && w.tasks[e.action.task].Scored? {
      LastCommitEndsTheTask(w, e);
    }
    OthersLeaveReportGenerating(w, e);
  }

  lemma SurvivingReporterIsOk(w: World, e: Event, t: nat)
    requires WorldInv(w)
    requires t in w.tasks && t in Step(w, e).tasks && BusinessOf(w.tasks[t]) == ToReport
    ensures TaskOk(Step(w, e).db, w.tasks[t])
  {
    assert TaskOk(w.db, w.tasks[t]);
    SettledStays(w, e);
    if w.db.status == ReportGenerating {
      ReportStaysOpen(w, e, t);
    }
  }

  /** A worker that survives a step still fits the database afterwards. */
  lemma SurvivorStaysOk(w: World, e: Event, t: nat)
    requires WorldInv(w)
    requires t in w.tasks && t in Step(w, e).tasks && Step(w, e).tasks[t] == w.tasks[t]
    ensures TaskOk(Step(w, e).db, w.tasks[t])
  {
    match BusinessOf(w.tasks[t])
    case ToReady => SurvivingInserterIsOk(w, e, t);
    case ToMoveOn => SurvivingJudgeIsOk(w, e, t);
    case ToReport => SurvivingReporterIsOk(w, e, t);
  }

  /** Questions are inserted only where there are none, and only before the interview starts. */
  lemma InserterIsOk(db: Db, scripts: Scripts, now: nat)
    requires QuestionsOk(db.plan, db.questions) && PhaseOk(db)
    requires InsertQuestions(db, scripts, now).reply.Ok?
    ensures TaskOk(InsertQuestions(db, scripts, now).db, Inserted)
    ensures db.questions == []
  {
    InsertResult(db, scripts, now);
  }

  lemma ReaderIsOk(w: World, task: nat, rows: seq<EvaluationRow>, providerAnswers: bool, now: nat)
    requires task in w.tasks && w.tasks[task].Reporting? && TaskOk(w.db, w.tasks[task])
    requires task in Resume(w, task, rows, providerAnswers, now).tasks
    ensures TaskOk(w.db, Resume(w, task, rows, providerAnswers, now).tasks[task])
  {
    if multiset(rows) == multiset(w.db.evaluations) {
      ReportIgnoresRowOrder(rows, w.db.evaluations);
    }
  }

  lemma DelivererIsOk(w: World, action: Action, now: nat)
    requires IsDelivery(action) && action.task !in w.tasks
    requires QuestionsOk(w.db.plan, w.db.questions) && PhaseOk(w.db)
    ensures var after := Deliver(w, action, now);
            action.task in after.tasks ==> TaskOk(after.db, after.tasks[action.task])
  {
    if action.DeliverGeneration? && InsertQuestions(w.db, action.scripts, now).reply.Ok? {
      InserterIsOk(w.db, action.scripts, now);
    }
  }

  /** The worker whose business changes in a step. */
  lemma ChangedTask(w: World, e: Event, t: nat)
    requires t in Step(w, e).tasks && (t !in w.tasks || Step(w, e).tasks[t] != w.tasks[t])
    ensures (IsDelivery(e.action) || e.action.Continue?) && t == e.action.task
    ensures IsDelivery(e.action) <==> t !in w.tasks
    ensures e.action.Continue? ==> w.tasks[t].Reporting?
  {
  }

  /** A worker whose business changes in a step fits the database it leaves. */
  lemma ActorIsOk(w: World, e: Event, t: nat)
    requires WorldInv(w)
    requires t in Step(w, e).tasks && (t !in w.tasks || Step(w, e).tasks[t] != w.tasks[t])
    ensures TaskOk(Step(w, e).db, Step(w, e).tasks[t])
  {
    ChangedTask(w, e, t);
    if IsDelivery(e.action) {
      DelivererIsOk(w, e.action, e.now);
    } else {
      assert TaskOk(w.db, w.tasks[t]);
      ReaderIsOk(w, t, e.action.rows, e.action.providerAnswers, e.now);
    }
  }

  lemma StepKeepsTasks(w: World, e: Event)
    requires WorldInv(w)
    ensures forall t | t in Step(w, e).tasks :: TaskOk(Step(w, e).db, Step(w, e).tasks[t])
  {
    var after := Step(w, e);
    forall t | t in after.tasks ensures TaskOk(after.db, after.tasks[t]) {
      if t in w.tasks && after.tasks[t] == w.tasks[t] {
        SurvivorStaysOk(w, e, t);
      } else {
        ActorIsOk(w, e, t);
      }
    }
  }

  /** A delivery leaves a worker behind only where no other can have the same business. */
  lemma NewcomerIsAlone(w: World, action: Action, now: nat, t: nat)
    requires IsDelivery(action) && action.task !in w.tasks && action.task in Deliver(w, action, now).tasks
    requires Inv(w.db)
    requires t in w.tasks && TaskOk(w.db, w.tasks[t])
    ensures BusinessOf(w.tasks[t]) != BusinessOf(Deliver(w, action, now).tasks[action.task])
  {
    hide QuestionsOk, AnswersOk, KeysOk, PointersOk, EvaluationsOk, FollowUpsOk, BudgetsOk, AccountsOk;
    if action.DeliverGeneration? {
      InserterIsOk(w.db, action.scripts, now);
    }
  }

  lemma DeliverKeepsOneOfEach(w: World, action: Action, now: nat)
    requires WorldInv(w) && IsDelivery(action) && action.task !in w.tasks
    ensures OneOfEach(Deliver(w, action, now).tasks)
  {
    hide Inv;
    var after := Deliver(w, action, now).tasks;
    if action.task in after {
      forall t | t in w.tasks ensures BusinessOf(w.tasks[t]) != BusinessOf(after[action.task]) {
        assert TaskOk(w.db, w.tasks[t]);
        NewcomerIsAlone(w, action, now, t);
      }
    }
  }

  lemma StepKeepsOneOfEach(w: World, e: Event)
    requires WorldInv(w)
    ensures OneOfEach(Step(w, e).tasks)
  {
    hide Inv;
    if IsDelivery(e.action) && e.action.task !in w.tasks {
      DeliverKeepsOneOfEach(w, e.action, e.now);
    }
  }

  lemma StepKeepsWorldInv(w: World, e: Event)
    requires WorldInv(w)
    ensures WorldInv(Step(w, e))
  {
    StepKeepsDb(w, e);
    StepKeepsTasks(w, e);
    StepKeepsOneOfEach(w, e);
  }

  /** Every run keeps the invariant and undoes nothing. */
  lemma {:induction false} RunKeepsWorldInv(w: World, events: seq<Event>)
    requires WorldInv(w)
    ensures WorldInv(Run(w, events))
    ensures Grows(w.db, Run(w, events).db)
    decreases |events|
  {
    if events != [] {
      StepKeepsWorldInv(w, events[0]);
      StepGrows(w, events[0]);
      RunKeepsWorldInv(Step(w, events[0]), events[1..]);
      GrowsIsTransitive(w.db, Step(w, events[0]).db, Run(w, events).db);
    }
  }

  lemma RunGrows(w: World, events: seq<Event>)
    requires WorldInv(w)
    ensures Grows(w.db, Run(w, events).db)
  {
    RunKeepsWorldInv(w, events);
  }

  lemma RunKeepsDb(w: World, events: seq<Event>)
    requires WorldInv(w)
    ensures Inv(Run(w, events).db)
  {
    RunKeepsWorldInv(w, events);
  }

  /** Every reachable state of every interview satisfies the invariant. */
  lemma ReachableInv(owner: nat, plan: Plan, events: seq<Event>)
    requires ValidPlan(plan)
    ensures WorldInv(Run(Initial(owner, plan), events))
  {
    InitialInv(owner, plan);
    RunKeepsWorldInv(Initial(owner, plan), events);
  }

  // ---------- reachable worlds ----------

  predicate ValidPlan(plan: Plan) {
    MIN_QUESTIONS <= plan.total <= MAX_QUESTIONS
  }

  ghost predicate ReachedBy(w: World, owner: nat, plan: Plan, events: seq<Event>) {
    ValidPlan(plan) && w == Run(Initial(owner, plan), events)
  }

  /** The databases and workers in flight that some schedule leads to. */
  ghost predicate Reachable(w: World) {
    exists owner, plan, events :: ReachedBy(w, owner, plan, events)
  }

  lemma ReachableIsOk(w: World)
    requires Reachable(w)
    ensures WorldInv(w)
  {
    var owner, plan, events :| ReachedBy(w, owner, plan, events);
    ReachableInv(owner, plan, events);
  }

  lemma RunIsReachable(w: World, more: seq<Event>)
    requires Reachable(w)
    ensures Reachable(Run(w, more))
  {
    var owner, plan, events :| ReachedBy(w, owner, plan, events);
    RunOfConcatenation(Initial(owner, plan), events, more);
    assert ReachedBy(Run(w, more), owner, plan, events + more);
  }

  lemma StepIsReachable(w: World, e: Event)
    requires Reachable(w)
    ensures Reachable(Step(w, e))
  {
    RunIsReachable(w, [e]);
    assert Run(w, [e]) == Step(w, e);
  }
}
