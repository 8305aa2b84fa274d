/** At-least-once delivery behaves as exactly-once for evaluations and reports, and why it does not for generation. */
module Deliveries {
  import opened StateMachine
  import opened QuestionGeneration
  import opened InterviewDb
  import opened Lifecycle
  import opened Invariant
  import opened Preservation
  import opened Growth
  import opened Runs

  /** The delivery's work is already done: the answer is evaluated, or reporting has begun or is impossible. */
  predicate IsRepeat(db: Db, action: Action) {
    || (action.DeliverEvaluation? && IsEvaluated(db, action.answer))
    || (action.DeliverReport? && IsSettled(db.status))
  }

  /** A repeat changes neither the database nor the workers, whatever question, provider or delivery it names. */
  lemma RepeatDoesNothing(w: World, e: Event)
    requires IsRepeat(w.db, e.action)
    ensures Step(w, e) == w
  {
  }

  /** A delivery that commits makes every later delivery of the same work a repeat. */
  lemma CommittedDeliveryRepeats(w: World, e: Event)
    requires e.action.DeliverEvaluation? || e.action.DeliverReport?
    requires Step(w, e).db != w.db
    ensures IsRepeat(Step(w, e).db, e.action)
  {
    var after := Step(w, e).db;
    if e.action.DeliverEvaluation? {
      assert after.evaluations[|w.db.evaluations|].answer == e.action.answer;
    }
  }

  lemma RepeatUnderGrowth(a: Db, b: Db, action: Action)
    requires Grows(a, b) && IsRepeat(a, action)
    ensures IsRepeat(b, action)
  {
    if action.DeliverEvaluation? {
      var i :| 0 <= i < |a.evaluations| && a.evaluations[i].answer == action.answer;
      assert b.evaluations[i] == a.evaluations[i];
    }
  }

  lemma RepeatsStayRepeats(w: World, events: seq<Event>, action: Action)
    requires WorldInv(w) && IsRepeat(w.db, action)
    ensures IsRepeat(Run(w, events).db, action)
  {
    RunGrows(w, events);
    RepeatUnderGrowth(w.db, Run(w, events).db, action);
  }

  predicate SameWork(a: Action, b: Action) {
    || (a.DeliverEvaluation? && b.DeliverEvaluation? && a.answer == b.answer)
    || (a.DeliverReport? && b.DeliverReport?)
  }

  lemma LateDeliveryIsRepeat(w: World, first: Event, mid: seq<Event>, late: Event)
    requires WorldInv(w)
    requires SameWork(first.action, late.action)
    requires Step(w, first).db != w.db
    ensures IsRepeat(Run(Step(w, first), mid).db, late.action)
  {
    StepKeepsWorldInv(w, first);
    CommittedDeliveryRepeats(w, first);
    RepeatsStayRepeats(Step(w, first), mid, late.action);
  }

  /**
   Deleting a delivery that comes anywhere after a committed delivery of the same work leaves the
   whole run as it was: repeated, late and reordered deliveries, also while a newer answer is evaluated.
   */
  lemma LateDeliveryVanishes(w: World, first: Event, mid: seq<Event>, late: Event, post: seq<Event>)
    requires Reachable(w)
    requires SameWork(first.action, late.action)
    requires Step(w, first).db != w.db
    ensures Run(w, [first] + mid + [late] + post) == Run(w, [first] + mid + post)
  {
    ReachableIsOk(w);
    LateDeliveryIsRepeat(w, first, mid, late);
    RepeatDoesNothing(Run(Step(w, first), mid), late);
    NoOpVanishes(w, first, mid, late, post);
  }

  /** The schedule without the deliveries whose work is done when they arrive. */
  function WithoutRepeats(w: World, events: seq<Event>): seq<Event>
    decreases |events|
  {
    if events == [] then []
    else if IsRepeat(w.db, events[0].action) then WithoutRepeats(w, events[1..])
    else [events[0]] + WithoutRepeats(Step(w, events[0]), events[1..])
  }

  /** Every schedule has the same outcome as its exactly-once part. */
  lemma {:induction false} OnlyFirstDeliveriesMatter(w: World, events: seq<Event>)
    ensures Run(w, WithoutRepeats(w, events)) == Run(w, events)
    decreases |events|
  {
    if events != [] {
      if IsRepeat(w.db, events[0].action) {
        RepeatDoesNothing(w, events[0]);
        OnlyFirstDeliveriesMatter(w, events[1..]);
      } else {
        OnlyFirstDeliveriesMatter(Step(w, events[0]), events[1..]);
        var rest := WithoutRepeats(Step(w, events[0]), events[1..]);
        assert ([events[0]] + rest)[1..] == rest;
      }
    }
  }

  /**
   Generation is different. A delivery leaves the database alone exactly when the interview is
   terminal and either has questions or gets none from this delivery.
   */
  lemma GenerationIsHarmlessIff(db: Db, scripts: Scripts, now: nat)
    requires Inv(db)
    ensures InsertQuestions(db, scripts, now).db == db <==>
              IsTerminal(db.status) && (db.questions != [] || GenerateSet(db.plan, scripts).Err?)
  {
    InsertResult(db, scripts, now);
    FailAfterErrorResult(db, now);
  }

  /** Redelivered generation, whatever the provider says, fails an interview that is still under way. */
  lemma RedeliveredGenerationFailsTheInterview(w: World, e: Event)
    requires Reachable(w)
    requires e.action.DeliverGeneration? && e.action.task !in w.tasks
    requires w.db.questions != [] && !IsTerminal(w.db.status)
    ensures Step(w, e).db == Moved(w.db, Failed, e.now) && Step(w, e).tasks == w.tasks
  {
    hide QuestionsOk, AnswersOk, KeysOk, PointersOk, EvaluationsOk, FollowUpsOk, BudgetsOk, AccountsOk, CurrentOk,
        TrailOk, PhaseOk, ReportsOk;
    ReachableIsOk(w);
    TerminalStatuses(w.db.status);
    InsertResult(w.db, e.action.scripts, e.now);
    FailAfterErrorResult(w.db, e.now);
  }
}
