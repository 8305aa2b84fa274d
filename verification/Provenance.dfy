/**
 Nothing in an interview is made up: every stored row goes back to an event of the run, an answer to a
 submission of the owner, an evaluation and a follow-up to what the provider returned for that answer.
 */
module Provenance {
  import opened StateMachine
  import opened Schemas
  import opened Text
  import opened Retry
  import opened QuestionGeneration
  import opened InterviewDb
  import opened Lifecycle
  import opened Invariant
  import opened EvaluationProofs
  import opened Preservation
  import opened Growth
  import opened Runs
  import opened LifecycleTheorems
  import opened Outcomes
  import FollowUps

  /** The owner submitted this answer. */
  predicate WasSubmitted(e: Event, owner: nat, a: AnswerRow) {
    && e.action.CallSubmit? && e.action.actor == owner
    && var s := e.action.submission;
       a.question == s.question && a.text == Strip(s.text) && a.timeTaken == s.timeTaken
  }

  /** The provider returned these dimensions for this answer, in one of the permitted calls. */
  ghost predicate WasReturned(e: Event, maxRetries: int, row: EvaluationRow) {
    && e.action.DeliverEvaluation? && e.action.answer == row.answer
    && exists k: nat | k < Attempts(maxRetries) ::
         CallAt(e.action.replies, k).Returned? && CallAt(e.action.replies, k).value.dimensions == row.dimensions
  }

  /** The provider asked this follow-up about this answer, in one of the permitted calls. */
  ghost predicate WasAsked(e: Event, maxRetries: int, row: FollowUpRow) {
    && e.action.DeliverEvaluation? && e.action.question == row.parent && e.action.answer == row.trigger
    && exists k: nat | k < Attempts(maxRetries) ::
         && CallAt(e.action.followReplies, k).Returned?
         && CallAt(e.action.followReplies, k).value.followUpRequired
         && CallAt(e.action.followReplies, k).value.questionText == row.text
  }

  /** The questions were generated together from these replies. */
  ghost predicate WereGenerated(e: Event, db: Db) {
    e.action.DeliverGeneration? && GenerateSet(db.plan, e.action.scripts).Ok?
    && GenerateSet(db.plan, e.action.scripts).value == OutputsOf(db.questions)
  }

  ghost predicate SubmittedIn(events: seq<Event>, owner: nat, a: AnswerRow) {
    exists e :: e in events && WasSubmitted(e, owner, a)
  }

  ghost predicate ReturnedIn(events: seq<Event>, maxRetries: int, row: EvaluationRow) {
    exists e :: e in events && WasReturned(e, maxRetries, row)
  }

  ghost predicate AskedIn(events: seq<Event>, maxRetries: int, row: FollowUpRow) {
    exists e :: e in events && WasAsked(e, maxRetries, row)
  }

  ghost predicate AnswersExplained(db: Db, events: seq<Event>) {
    forall i | 0 <= i < |db.answers| :: SubmittedIn(events, db.owner, db.answers[i])
  }

  ghost predicate EvaluationsExplained(db: Db, events: seq<Event>) {
    forall i | 0 <= i < |db.evaluations| :: ReturnedIn(events, db.plan.maxRetries, db.evaluations[i])
  }

  ghost predicate FollowUpsExplained(db: Db, events: seq<Event>) {
    forall i | 0 <= i < |db.followUps| :: AskedIn(events, db.plan.maxRetries, db.followUps[i])
  }

  ghost predicate QuestionsExplained(db: Db, events: seq<Event>) {
    db.questions != [] ==> exists e :: e in events && WereGenerated(e, db)
  }

  ghost predicate Explained(db: Db, events: seq<Event>) {
    AnswersExplained(db, events) && EvaluationsExplained(db, events)
    && FollowUpsExplained(db, events) && QuestionsExplained(db, events)
  }

  // ---------- which steps add rows ----------

  lemma OnlySubmitAddsAnswers(w: World, e: Event)
    requires Inv(w.db) && !e.action.CallSubmit?
    ensures Step(w, e).db.answers == w.db.answers
  {
    hide Inv, NextOrder, GenerateSet;
  }

  lemma OnlyEvaluationAddsRows(w: World, e: Event)
    requires !e.action.DeliverEvaluation?
    ensures Step(w, e).db.evaluations == w.db.evaluations && Step(w, e).db.followUps == w.db.followUps
  {
    hide NextOrder, GenerateSet, FindKey, Strip, MaxAttempt, ReportOf, OrderClash;
  }

  lemma OnlyGenerationAddsQuestions(w: World, e: Event)
    requires !e.action.DeliverGeneration?
    ensures Step(w, e).db.questions == w.db.questions
  {
    hide NextOrder, FindKey, Strip, FollowUps.Decision, EvaluationOf;
  }

  // ---------- step by step ----------

  lemma KeysAreDistinct(db: Db)
    requires Inv(db)
    ensures KeysAreUnique(db)
  {
    hide QuestionsOk, AnswersOk, PointersOk, EvaluationsOk, FollowUpsOk, BudgetsOk, AccountsOk, CurrentOk, PhaseOk,
      ReportsOk, TrailOk;
  }

  /** A new answer is the last one and was submitted in this step. */
  lemma NewAnswer(w: World, e: Event)
    requires WorldInv(w) && Step(w, e).db.answers != w.db.answers
    ensures var after := Step(w, e).db.answers;
            && |after| == |w.db.answers| + 1 && after[..|w.db.answers|] == w.db.answers
            && WasSubmitted(e, w.db.owner, after[|w.db.answers|])
  {
    hide Inv, Submit, Strip;
    if !e.action.CallSubmit? {
      OnlySubmitAddsAnswers(w, e);
    }
    KeysAreDistinct(w.db);
    SubmitOutcome(w.db, e.action.actor, e.action.submission, e.now);
    SubmitVerdict(w.db, e.action.actor, e.action.submission, e.now);
  }

  lemma StepExplainsAnswers(w: World, e: Event, events: seq<Event>)
    requires WorldInv(w) && AnswersExplained(w.db, events)
    ensures AnswersExplained(Step(w, e).db, events + [e])
  {
    hide Inv, Step;
    var after := Step(w, e).db;
    OwnerStays(w, e);
    if after.answers != w.db.answers {
      NewAnswer(w, e);
    }
    forall i | 0 <= i < |after.answers|
      ensures SubmittedIn(events + [e], after.owner, after.answers[i])
    {
      if i < |w.db.answers| {
        assert SubmittedIn(events, w.db.owner, w.db.answers[i]);
        var x :| x in events && WasSubmitted(x, w.db.owner, w.db.answers[i]);
        assert x in events + [e] && WasSubmitted(x, after.owner, after.answers[i]);
      } else {
        assert e in events + [e] && WasSubmitted(e, after.owner, after.answers[i]);
      }
    }
  }

  /** New evaluations and follow-ups are the last ones and were returned by the provider in this step. */
  lemma NewEvaluation(w: World, e: Event)
    requires Reachable(w)
    ensures var before, after := w.db, Step(w, e).db;
            && before.evaluations <= after.evaluations && |after.evaluations| <= |before.evaluations| + 1
            && before.followUps <= after.followUps && |after.followUps| <= |before.followUps| + 1
            && (after.evaluations != before.evaluations ==>
                  WasReturned(e, before.plan.maxRetries, after.evaluations[|before.evaluations|]))
            && (after.followUps != before.followUps ==>
                  WasAsked(e, before.plan.maxRetries, after.followUps[|before.followUps|]))
  {
    if e.action.DeliverEvaluation? && e.action.task !in w.tasks {
      EvaluationReturns(w, e);
    } else if !e.action.DeliverEvaluation? {
      OnlyEvaluationAddsRows(w, e);
    }
  }

  lemma EvaluationReturns(w: World, e: Event)
    requires Reachable(w) && e.action.DeliverEvaluation?
    ensures var d, db := e.action, w.db;
            var after := Evaluate(db, d.question, d.answer, d.replies, d.followReplies, e.now).db;
            && db.evaluations <= after.evaluations && |after.evaluations| <= |db.evaluations| + 1
            && db.followUps <= after.followUps && |after.followUps| <= |db.followUps| + 1
            && (after.evaluations != db.evaluations ==>
                  WasReturned(e, db.plan.maxRetries, after.evaluations[|db.evaluations|]))
            && (after.followUps != db.followUps ==>
                  WasAsked(e, db.plan.maxRetries, after.followUps[|db.followUps|]))
  {
    hide Reachable, Evaluate, PassesGuards, FollowUps.Decision, Question;
    var d := e.action;
    assert ReachableDb(w.db);
    var k, f := EvaluationOutcome(w.db, d.question, d.answer, d.replies, d.followReplies, e.now);
  }

  lemma StepExplainsEvaluations(w: World, e: Event, events: seq<Event>)
    requires Reachable(w) && EvaluationsExplained(w.db, events)
    ensures EvaluationsExplained(Step(w, e).db, events + [e])
  {
    hide Reachable, Step;
    var after := Step(w, e).db;
    PlanStays(w, e);
    NewEvaluation(w, e);
    forall i | 0 <= i < |after.evaluations|
      ensures ReturnedIn(events + [e], after.plan.maxRetries, after.evaluations[i])
    {
      if i < |w.db.evaluations| {
        assert ReturnedIn(events, w.db.plan.maxRetries, w.db.evaluations[i]);
        var x :| x in events && WasReturned(x, w.db.plan.maxRetries, w.db.evaluations[i]);
        assert x in events + [e] && WasReturned(x, after.plan.maxRetries, after.evaluations[i]);
      } else {
        assert e in events + [e] && WasReturned(e, after.plan.maxRetries, after.evaluations[i]);
      }
    }
  }

  lemma StepExplainsFollowUps(w: World, e: Event, events: seq<Event>)
    requires Reachable(w) && FollowUpsExplained(w.db, events)
    ensures FollowUpsExplained(Step(w, e).db, events + [e])
  {
    hide Reachable, Step;
    var after := Step(w, e).db;
    PlanStays(w, e);
    NewEvaluation(w, e);
    forall i | 0 <= i < |after.followUps|
      ensures AskedIn(events + [e], after.plan.maxRetries, after.followUps[i])
    {
      if i < |w.db.followUps| {
        assert AskedIn(events, w.db.plan.maxRetries, w.db.followUps[i]);
        var x :| x in events && WasAsked(x, w.db.plan.maxRetries, w.db.followUps[i]);
        assert x in events + [e] && WasAsked(x, after.plan.maxRetries, after.followUps[i]);
      } else {
        assert e in events + [e] && WasAsked(e, after.plan.maxRetries, after.followUps[i]);
      }
    }
  }

  lemma PlanStays(w: World, e: Event)
    ensures Step(w, e).db.plan == w.db.plan
  {
    hide NextOrder, GenerateSet, FindKey, Strip, MaxAttempt;
  }

  /** A question set that was not there before was generated in this step. */
  lemma NewQuestions(w: World, e: Event)
    requires QuestionsOk(w.db.plan, w.db.questions) && Step(w, e).db.questions != w.db.questions
    ensures w.db.questions == [] && WereGenerated(e, Step(w, e).db)
  {
    hide QuestionsOk, GenerateSet, FailAfterError, InsertQuestions;
    if !e.action.DeliverGeneration? {
      OnlyGenerationAddsQuestions(w, e);
    }
    InsertOutcome(w.db, e.action.scripts, e.now);
    ExceptionOutcome(w.db, e.now);
    PlanStays(w, e);
    if GenerateSet(w.db.plan, e.action.scripts).Ok? {
      GeneratedSetIsSound(w.db.plan, e.action.scripts);
      assert OutputsOf(Step(w, e).db.questions) == GenerateSet(w.db.plan, e.action.scripts).value;
    }
  }

  lemma StepExplainsQuestions(w: World, e: Event, events: seq<Event>)
    requires QuestionsOk(w.db.plan, w.db.questions) && QuestionsExplained(w.db, events)
    ensures QuestionsExplained(Step(w, e).db, events + [e])
  {
    hide QuestionsOk, Step, GenerateSet;
    var after := Step(w, e).db;
    PlanStays(w, e);
    if after.questions != w.db.questions {
      NewQuestions(w, e);
      assert e in events + [e] && WereGenerated(e, after);
    } else if after.questions != [] {
      var x :| x in events && WereGenerated(x, w.db);
      assert x in events + [e] && WereGenerated(x, after);
    }
  }

  lemma QuestionSetIsOk(w: World)
    requires Inv(w.db)
    ensures QuestionsOk(w.db.plan, w.db.questions)
  {
  }

  lemma StepExplains(w: World, e: Event, events: seq<Event>)
    requires Reachable(w) && Explained(w.db, events)
    ensures Explained(Step(w, e).db, events + [e])
  {
    hide Reachable, Inv, AnswersExplained, EvaluationsExplained, FollowUpsExplained, QuestionsExplained, Step;
    ReachableIsOk(w);
    QuestionSetIsOk(w);
    StepExplainsAnswers(w, e, events);
    StepExplainsEvaluations(w, e, events);
    StepExplainsFollowUps(w, e, events);
    StepExplainsQuestions(w, e, events);
  }

  /**
   In every run of every interview each answer was submitted by the owner, each evaluation has the
   dimensions the provider returned for its answer, each follow-up the text the provider asked about its
   answer, and the questions were generated together in one delivery.
   */
  lemma {:induction false} EverythingHasASource(owner: nat, plan: Plan, events: seq<Event>)
    requires ValidPlan(plan)
    ensures Explained(Run(Initial(owner, plan), events).db, events)
    decreases |events|
  {
    hide Step, AnswersExplained, EvaluationsExplained, FollowUpsExplained, QuestionsExplained;
    var start := Initial(owner, plan);
    if events == [] {
      NothingToExplain(owner, plan);
    } else {
      var front, e := events[..|events| - 1], events[|events| - 1];
      assert events == front + [e];
      EverythingHasASource(owner, plan, front);
      assert ReachedBy(Run(start, front), owner, plan, front);
      StepExplains(Run(start, front), e, front);
      RunOfConcatenation(start, front, [e]);
      RunOfOne(Run(start, front), e);
    }
  }

  lemma NothingToExplain(owner: nat, plan: Plan)
    ensures Explained(Initial(owner, plan).db, [])
  {
  }

  lemma RunOfOne(w: World, e: Event)
    ensures Run(w, [e]) == Step(w, e)
  {
    hide Step;
    assert [e][1..] == [];
    assert Run(w, [e]) == Run(Step(w, e), []);
  }
}
