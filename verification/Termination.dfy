/** Every run changes status a bounded number of times, although the status graph has cycles. */
module Termination {
  import opened Wrappers
  import opened StateMachine
  import opened Schemas
  import opened QuestionGeneration
  import opened InterviewDb
  import opened Counting
  import opened Lifecycle
  import opened Invariant
  import opened SubmissionProofs
  import opened EvaluationProofs
  import opened Preservation
  import opened Growth
  import opened Runs

  /** The status changes from `a` to `b` are paid for by the measure, and there are none without a payment. */
  ghost predicate Pays(a: Db, b: Db) {
    && a.trail <= b.trail
    && |b.trail| - |a.trail| <= Measure(a) - Measure(b)
    && (|b.trail| == |a.trail| ==> b.status == a.status)
  }

  lemma MovePays(db: Db, target: Status, now: nat)
    requires Inv(db) && IsTransitionAllowed(db.status, target) && PlainMove(db, target)
    ensures Pays(db, Moved(db, target, now))
  {
    hide TablesOk, ReportsOk, TrailOk;
    RoomLeft(db);
    MoveCosts(db, target, now);
  }

  lemma SubmitPays(db: Db, actor: nat, s: Submission, now: nat)
    requires Inv(db)
    ensures Pays(db, Submit(db, actor, s, now).db)
  {
    hide TablesOk;
    if Submit(db, actor, s, now).db != db {
      RoomLeft(db);
      AcceptedKeepsTrail(db, s, now);
    }
  }

  lemma CallPays(db: Db, action: Action, now: nat)
    requires Inv(db) && IsCall(action)
    ensures Pays(db, Called(db, action, now))
  {
    hide Inv, Measure;
    if action.CallSubmit? {
      SubmitPays(db, action.actor, action.submission, now);
    } else if action.CallStart? {
      StartPays(db, action.actor, now);
    } else if Called(db, action, now) != db {
      MovePays(db, if action.CallPrepare? then Preparing else if action.CallFinish? then Completed else Failed, now);
    }
  }

  lemma StartPays(db: Db, actor: nat, now: nat)
    requires Inv(db)
    ensures Pays(db, Start(db, actor, now).db)
  {
    hide AnswersOk, AccountsOk, KeysOk, PointersOk, EvaluationsOk, FollowUpsOk, BudgetsOk, ReportsOk;
    NextOrderInOrder(db.questions, 0);
  }

  lemma EvaluatePays(db: Db, q: nat, a: nat,
                     replies: seq<Call<EvaluationOutput>>, followReplies: seq<Call<FollowUpOutput>>, now: nat)
    requires TrailOk(db)
    ensures Pays(db, Evaluate(db, q, a, replies, followReplies, now).db)
  {
    if Evaluate(db, q, a, replies, followReplies, now).db != db {
      var e, f := CommittedEvaluation(db, q, a, replies, followReplies, now);
      EvaluatedKeepsTrail(db, q, a, e, f, now);
    }
  }

  lemma FailAfterErrorPays(db: Db, now: nat)
    requires Inv(db)
    ensures Pays(db, FailAfterError(db, now))
  {
    FailAfterErrorResult(db, now);
    if !IsTerminal(db.status) {
      MovePays(db, Failed, now);
    }
  }

  lemma DeliverPays(w: World, action: Action, now: nat)
    requires Inv(w.db) && IsDelivery(action)
    requires Deliver(w, action, now).db.questions == w.db.questions
    ensures Pays(w.db, Deliver(w, action, now).db)
  {
    hide Measure, CurrentOk, PhaseOk, ReportsOk, AnswersOk, KeysOk, PointersOk, EvaluationsOk, FollowUpsOk,
        BudgetsOk, AccountsOk;
    match action
    case DeliverGeneration(_, scripts) =>
      InsertResult(w.db, scripts, now);
      FailAfterErrorPays(w.db, now);
    case DeliverEvaluation(_, q, a, replies, followReplies) =>
      EvaluatePays(w.db, q, a, replies, followReplies, now);
    case DeliverReport(_) =>
      if w.db.status == Completed { MovePays(w.db, ReportGenerating, now); }
  }

  lemma AdvanceCursorPays(db: Db, now: nat)
    requires db.status == NextQuestion
    ensures Pays(db, Moved(db.(cursor := db.cursor + 1), WaitingForAnswer, now))
  {
  }

  lemma MoveToNextPays(db: Db, now: nat)
    requires Inv(db)
    ensures Pays(db, MoveToNext(db, now).db)
  {
    hide QuestionsOk;
    if db.status == FollowUpRequired {
      MovePays(db, WaitingForAnswer, now);
    } else if db.status == NextQuestion {
      MoveToNextResult(db, now);
      if db.cursor + 1 < |db.questions| {
        AdvanceCursorPays(db, now);
      } else {
        MovePays(db, Completed, now);
      }
    }
  }

  lemma ReadyPays(db: Db, now: nat)
    requires Inv(db)
    ensures Pays(db, ReadyOrFail(db, now).db)
  {
    hide TablesOk;
    if MarkReady(db, now).reply.Ok? {
      MovePays(db, Ready, now);
    } else {
      FailAfterErrorPays(db, now);
    }
  }

  lemma WriteReportPays(db: Db, report: ReportRow, now: nat)
    ensures Pays(db, WriteReport(db, report, now).db)
  {
  }

  lemma ResumePays(w: World, task: nat, rows: seq<EvaluationRow>, providerAnswers: bool, now: nat)
    requires Inv(w.db) && task in w.tasks
    ensures Pays(w.db, Resume(w, task, rows, providerAnswers, now).db)
  {
    hide Inv, Measure;
    match w.tasks[task]
    case Inserted => ReadyPays(w.db, now);
    case Judged => MoveToNextPays(w.db, now);
    case Reporting =>
    case Scored(report) => WriteReportPays(w.db, report, now);
  }

  lemma ResumeKeepsQuestions(w: World, task: nat, rows: seq<EvaluationRow>, providerAnswers: bool, now: nat)
    requires task in w.tasks
    ensures Resume(w, task, rows, providerAnswers, now).db.questions == w.db.questions
  {
    FailAfterErrorResult(w.db, now);
  }

  lemma OtherStepsKeepQuestions(w: World, e: Event)
    requires !e.action.DeliverGeneration?
    ensures Step(w, e).db.questions == w.db.questions
  {
    if e.action.Continue? && e.action.task in w.tasks {
      ResumeKeepsQuestions(w, e.action.task, e.action.rows, e.action.providerAnswers, e.now);
    }
  }

  /** The one step that changes the question set passes through no status. */
  lemma InsertionPassesNoStatus(w: World, e: Event)
    requires QuestionsOk(w.db.plan, w.db.questions)
    requires Step(w, e).db.questions != w.db.questions
    ensures Step(w, e).db == w.db.(questions := Step(w, e).db.questions)
    ensures w.db.questions == []
  {
    hide QuestionsOk;
    if e.action.DeliverGeneration? {
      InsertResult(w.db, e.action.scripts, e.now);
      FailAfterErrorResult(w.db, e.now);
    } else {
      OtherStepsKeepQuestions(w, e);
    }
  }

  /**
   A natural-number measure pays for every status change: a step lowers it by at least the number of
   statuses the step passes through, and changes no status for free. The one step that inserts the
   questions, and so the room for answers, passes through no status at all.
   */
  lemma EveryStepPays(w: World, e: Event)
    requires Reachable(w)
    ensures 0 <= Measure(Step(w, e).db)
    ensures |Step(w, e).db.trail| == |w.db.trail| ==> Step(w, e).db.status == w.db.status
    ensures if Step(w, e).db.questions == w.db.questions
            then 0 <= |Step(w, e).db.trail| - |w.db.trail| <= Measure(w.db) - Measure(Step(w, e).db)
            else w.db.questions == [] && Step(w, e).db == w.db.(questions := Step(w, e).db.questions)
  {
    ReachableIsOk(w);
    StepKeepsDb(w, e);
    MeasureIsNatural(Step(w, e).db);
    if Step(w, e).db.questions != w.db.questions {
      InsertionPassesNoStatus(w, e);
    } else {
      StepPays(w, e);
    }
  }

  lemma StepPays(w: World, e: Event)
    requires Inv(w.db) && Step(w, e).db.questions == w.db.questions
    ensures Pays(w.db, Step(w, e).db)
  {
    if IsCall(e.action) {
      CallPays(w.db, e.action, e.now);
    } else if IsDelivery(e.action) {
      if e.action.task !in w.tasks {
        DeliverPays(w, e.action, e.now);
      }
    } else if e.action.Continue? && e.action.task in w.tasks {
      ResumePays(w, e.action.task, e.action.rows, e.action.providerAnswers, e.now);
    }
  }

  lemma MeasureIsNatural(db: Db)
    requires Inv(db)
    ensures Measure(db) >= 0
  {
    RoomLeft(db);
  }

  lemma {:induction false} CapacityBound(questions: seq<QuestionRow>)
    ensures Capacity(questions) <= 4 * |questions|
  {
    if questions != [] {
      CapacityBound(questions[..|questions| - 1]);
    }
  }

  lemma HistoryIsBounded(db: Db)
    requires Inv(db)
    ensures |db.trail| - 1 <= 6 + 3 * Capacity(db.questions) <= 6 + 12 * MAX_QUESTIONS
  {
    MeasureIsNatural(db);
    CapacityBound(db.questions);
  }

  /**
   A run of any length, under any interleaving, redelivery and crash schedule and with any providers,
   makes at most 6 + 3 * sum(1 + budget) status changes, which is never more than 606.
   */
  lemma StatusChangesAreBounded(owner: nat, plan: Plan, events: seq<Event>)
    requires ValidPlan(plan)
    ensures var db := Run(Initial(owner, plan), events).db;
            && |db.trail| - 1 <= 6 + 3 * Capacity(db.questions)
            && |db.trail| - 1 <= 606
  {
    ReachableInv(owner, plan, events);
    HistoryIsBounded(Run(Initial(owner, plan), events).db);
  }
}
