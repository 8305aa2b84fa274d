/** Where an interview stops making progress, and exactly what still moves it. */
module Stranding {
  import opened StateMachine
  import opened InterviewDb
  import opened Lifecycle
  import opened Invariant
  import opened Preservation
  import opened Runs

  /** The owner ends the interview, or a generation task is delivered. */
  predicate Ends(w: World, action: Action) {
    || (action.CallFinish? && action.actor == w.db.owner)
    || (action.CallFail? && action.actor == w.db.owner)
    || (action.DeliverGeneration? && action.task !in w.tasks)
  }

  /**
   An interview in NEXT_QUESTION moves exactly when the worker that evaluated the last answer goes on,
   or the owner finishes or fails the interview, or a generation task is delivered.
   */
  lemma NextQuestionMovesIff(w: World, e: Event)
    requires Reachable(w) && w.db.status == NextQuestion
    ensures Step(w, e).db != w.db <==>
              || Ends(w, e.action)
              || (e.action.Continue? && e.action.task in w.tasks && w.tasks[e.action.task].Judged?)
  {
    hide QuestionsOk, ReportsOk, AnswersOk, KeysOk, PointersOk, EvaluationsOk, FollowUpsOk, BudgetsOk, AccountsOk,
        CurrentOk, TrailOk;
    ReachableIsOk(w);
    if IsCall(e.action) {
      CallsAtNextQuestion(w.db, e.action, e.now);
    } else if IsDelivery(e.action) {
      if e.action.task !in w.tasks {
        DeliveriesUnderWay(w, e.action, e.now);
      }
    } else if e.action.Continue? && e.action.task in w.tasks {
      assert TaskOk(w.db, w.tasks[e.action.task]);
      WorkersAtNextQuestion(w, e.action.task, e.action.rows, e.action.providerAnswers, e.now);
    }
  }

  lemma MovedDiffers(db: Db, target: Status, now: nat)
    requires IsTransitionAllowed(db.status, target)
    ensures Moved(db, target, now) != db
  {
    assert |Moved(db, target, now).trail| == |db.trail| + 1;
  }

  lemma CallsAtNextQuestion(db: Db, action: Action, now: nat)
    requires IsCall(action) && db.status == NextQuestion
    ensures Called(db, action, now) != db <==> (action.CallFinish? || action.CallFail?) && action.actor == db.owner
  {
    MovedDiffers(db, Completed, now);
    MovedDiffers(db, Failed, now);
  }

  /** While no answer is being evaluated and the interview is not just completed, only generation changes anything. */
  lemma DeliveriesUnderWay(w: World, action: Action, now: nat)
    requires IsDelivery(action) && QuestionsOk(w.db.plan, w.db.questions) && w.db.questions != []
    requires w.db.status == NextQuestion || w.db.status == ReportGenerating
    ensures if action.DeliverGeneration? then Deliver(w, action, now) == w.(db := FailAfterError(w.db, now))
            else Deliver(w, action, now) == w
    ensures Deliver(w, action, now).db != w.db <==> action.DeliverGeneration?
  {
    if action.DeliverGeneration? {
      TerminalStatuses(w.db.status);
      InsertResult(w.db, action.scripts, now);
      FailAfterErrorResult(w.db, now);
      MovedDiffers(w.db, Failed, now);
    }
  }

  lemma WorkersAtNextQuestion(w: World, task: nat, rows: seq<EvaluationRow>, providerAnswers: bool, now: nat)
    requires task in w.tasks && TaskOk(w.db, w.tasks[task])
    requires QuestionsOk(w.db.plan, w.db.questions) && w.db.status == NextQuestion
    ensures Resume(w, task, rows, providerAnswers, now).db != w.db <==> w.tasks[task].Judged?
  {
    if w.tasks[task].Judged? {
      MoveToNextResult(w.db, now);
    }
  }

  ghost predicate NoneEnds(w: World, events: seq<Event>)
    decreases |events|
  {
    events == [] || (!Ends(w, events[0].action) && NoneEnds(Step(w, events[0]), events[1..]))
  }

  /** No live worker has committed an evaluation it still has to follow up. */
  predicate NoneJudged(w: World) {
    forall t | t in w.tasks :: !w.tasks[t].Judged?
  }

  lemma NoneJudgedStays(w: World, e: Event)
    requires NoneJudged(w) && w.db.status == NextQuestion
    ensures NoneJudged(Step(w, e))
  {
  }

  lemma {:induction false} StrandedStays(w: World, events: seq<Event>)
    requires Reachable(w) && w.db.status == NextQuestion && NoneJudged(w)
    requires NoneEnds(w, events)
    ensures Run(w, events).db == w.db
    decreases |events|
  {
    if events != [] {
      NextQuestionMovesIff(w, events[0]);
      NoneJudgedStays(w, events[0]);
      StepIsReachable(w, events[0]);
      StrandedStays(Step(w, events[0]), events[1..]);
    }
  }

  lemma CrashLeavesNoneJudged(w: World, task: nat, now: nat)
    requires OneOfEach(w.tasks) && task in w.tasks && w.tasks[task].Judged?
    ensures NoneJudged(Step(w, Event(now, Crash(task))))
  {
    forall t | t in w.tasks && w.tasks[t].Judged? ensures t == task {
      assert BusinessOf(w.tasks[t]) == BusinessOf(w.tasks[task]);
    }
  }

  /**
   If the worker that evaluated dies before its second commit, redelivery does not help: until someone
   ends it, the interview stays in NEXT_QUESTION with all its rows, whatever is called or delivered.
   */
  lemma CrashBetweenCommitsStrands(w: World, task: nat, now: nat, events: seq<Event>)
    requires Reachable(w) && w.db.status == NextQuestion
    requires task in w.tasks && w.tasks[task].Judged?
    requires NoneEnds(Step(w, Event(now, Crash(task))), events)
    ensures Run(w, [Event(now, Crash(task))] + events).db == w.db
  {
    hide Inv;
    var crash := Event(now, Crash(task));
    ReachableIsOk(w);
    CrashLeavesNoneJudged(w, task, now);
    StepIsReachable(w, crash);
    StrandedStays(Step(w, crash), events);
    assert ([crash] + events)[1..] == events;
  }

  /**
   An interview in REPORT_GENERATING moves exactly when a worker that has scored the evaluations writes
   its report, or the owner fails the interview, or a generation task is delivered.
   */
  lemma ReportGeneratingMovesIff(w: World, e: Event)
    requires Reachable(w) && w.db.status == ReportGenerating
    ensures Step(w, e).db != w.db <==>
              || (e.action.CallFail? && e.action.actor == w.db.owner)
              || (e.action.DeliverGeneration? && e.action.task !in w.tasks)
              || (e.action.Continue? && e.action.task in w.tasks && w.tasks[e.action.task].Scored?)
    ensures Step(w, e).db.status in {ReportGenerating, ReportReady, Failed}
    ensures Step(w, e).db.status == ReportReady ==>
              e.action.Continue? && e.action.task in w.tasks && w.tasks[e.action.task].Scored?
  {
    hide QuestionsOk, AnswersOk, KeysOk, PointersOk, EvaluationsOk, FollowUpsOk, BudgetsOk, AccountsOk, CurrentOk,
        TrailOk;
    ReachableIsOk(w);
    if IsCall(e.action) {
      CallsAtReportGenerating(w.db, e.action, e.now);
    } else if IsDelivery(e.action) {
      if e.action.task !in w.tasks {
        DeliveriesUnderWay(w, e.action, e.now);
      }
    } else if e.action.Continue? && e.action.task in w.tasks {
      assert TaskOk(w.db, w.tasks[e.action.task]);
      WorkersAtReportGenerating(w, e.action.task, e.action.rows, e.action.providerAnswers, e.now);
    }
  }

  lemma CallsAtReportGenerating(db: Db, action: Action, now: nat)
    requires IsCall(action) && db.status == ReportGenerating
    ensures Called(db, action, now) == if action.CallFail? && action.actor == db.owner then Moved(db, Failed,
        now) else db
    ensures Called(db, action, now) != db <==> action.CallFail? && action.actor == db.owner
  {
    MovedDiffers(db, Failed, now);
  }

  lemma WorkersAtReportGenerating(w: World, task: nat, rows: seq<EvaluationRow>, providerAnswers: bool, now: nat)
    requires task in w.tasks && TaskOk(w.db, w.tasks[task])
    requires w.db.status == ReportGenerating && w.db.reports == []
    ensures if w.tasks[task].Scored? then Resume(w, task, rows, providerAnswers, now).db.status == ReportReady
            else Resume(w, task, rows, providerAnswers, now).db == w.db
  {
  }

  predicate NoReporter(w: World) {
    forall t | t in w.tasks :: !w.tasks[t].Reporting? && !w.tasks[t].Scored?
  }

  lemma NoReporterStays(w: World, e: Event)
    requires NoReporter(w) && IsSettled(w.db.status)
    ensures NoReporter(Step(w, e))
  {
  }

  predicate IsStrandedReport(w: World) {
    (w.db.status.ReportGenerating? || w.db.status.Failed?) && NoReporter(w)
  }

  lemma StrandedReportStays(w: World, e: Event)
    requires Reachable(w) && IsStrandedReport(w)
    ensures IsStrandedReport(Step(w, e))
    ensures w.db.status.Failed? ==> Step(w, e).db.status.Failed?
  {
    hide Inv;
    ReachableIsOk(w);
    SettledStays(w, e);
    NoReporterStays(w, e);
    if w.db.status == ReportGenerating {
      ReportGeneratingMovesIff(w, e);
    }
  }

  lemma {:induction false} StrandedReportNeverComes(w: World, events: seq<Event>)
    requires Reachable(w) && IsStrandedReport(w)
    ensures IsStrandedReport(Run(w, events))
    ensures Run(w, events).db.reports == []
    decreases |events|
  {
    ReachableIsOk(w);
    if events != [] {
      StepIsReachable(w, events[0]);
      StrandedReportStays(w, events[0]);
      StrandedReportNeverComes(Step(w, events[0]), events[1..]);
    }
  }

  lemma CrashStrandsTheReport(w: World, task: nat, now: nat)
    requires OneOfEach(w.tasks) && task in w.tasks && BusinessOf(w.tasks[task]) == ToReport
    requires TaskOk(w.db, w.tasks[task])
    ensures IsStrandedReport(Step(w, Event(now, Crash(task))))
  {
    forall t | t in w.tasks && BusinessOf(w.tasks[t]) == ToReport ensures t == task {
    }
    var after := Step(w, Event(now, Crash(task))).tasks;
    forall t | t in after ensures !after[t].Reporting? && !after[t].Scored? {
      assert BusinessOf(w.tasks[t]) != ToReport;
    }
  }

  /** If the worker dies anywhere between begin_report and the report, no schedule ever produces the report. */
  lemma CrashWhileReportingStrands(w: World, task: nat, now: nat, events: seq<Event>)
    requires Reachable(w) && task in w.tasks && BusinessOf(w.tasks[task]) == ToReport
    ensures var end := Run(w, [Event(now, Crash(task))] + events).db;
            end.reports == [] && (end.status.ReportGenerating? || end.status.Failed?)
  {
    var crash := Event(now, Crash(task));
    ReachableIsOk(w);
    assert TaskOk(w.db, w.tasks[task]);
    CrashStrandsTheReport(w, task, now);
    StepIsReachable(w, crash);
    StrandedReportNeverComes(Step(w, crash), events);
    assert ([crash] + events)[1..] == events;
  }

  lemma NoReportWithoutEvaluations(db: Db)
    requires ReportsOk(db) && db.evaluations == []
    ensures db.status != ReportReady && db.reports == []
  {
    assert DimensionsOf([]) == [];
  }

  /** An interview that closes without any evaluation never gets a report, whatever the schedule. */
  lemma NoEvaluationsNoReport(w: World, events: seq<Event>)
    requires Reachable(w) && IsClosed(w.db.status) && w.db.evaluations == []
    ensures Run(w, events).db.status != ReportReady && Run(w, events).db.reports == []
  {
    ReachableIsOk(w);
    RunGrows(w, events);
    RunKeepsDb(w, events);
    NoReportWithoutEvaluations(Run(w, events).db);
  }
}
