/** A committed evaluation keeps the invariant. */
module EvaluationProofs {
  import opened StateMachine
  import opened Schemas
  import opened Text
  import opened InterviewDb
  import opened Counting
  import opened Invariant
  import FollowUps

  /** The guards of the evaluation task: past them, the task evaluates this answer. */
  predicate PassesGuards(db: Db, question: nat, answer: nat) {
    && question < |db.questions|
    && answer < |db.answers|
    && db.answers[answer].question == question
    && db.status == Evaluating
    && question in db.currentAnswer
    && db.currentAnswer[question] == answer
    && !IsEvaluated(db, answer)
  }

  /**
   The task never compares the question with the cursor; still, past its guards the answer is the
   last one of all, belongs to the question at the cursor, and is the only one not evaluated.
   */
  lemma GuardsPickTheCurrentAnswer(db: Db, question: nat, answer: nat)
    requires TablesOk(TablesOf(db)) && CurrentOk(db)
    requires PassesGuards(db, question, answer)
    ensures question == db.cursor
    ensures answer == |db.answers| - 1 == |db.evaluations|
    ensures db.questions[question].orderIndex == db.cursor
  {
    EvaluatedAnswers(db, answer);
  }

  /** The evaluated answers are those before the number of evaluations. */
  lemma EvaluatedAnswers(db: Db, answer: nat)
    requires EvaluationsOk(db.evaluations, db.answers)
    ensures IsEvaluated(db, answer) <==> answer < |db.evaluations|
  {
    if answer < |db.evaluations| {
      assert db.evaluations[answer].answer == answer;
    }
  }

  lemma NoFollowUpYet(db: Db, question: nat, answer: nat)
    requires FollowUpsOk(db.followUps, |db.evaluations|, db.answers)
    requires answer >= |db.evaluations|
    ensures !HasFollowUp(db, question, answer)
  {
  }

  lemma FollowUpsSnoc(followUps: seq<FollowUpRow>, evaluated: nat, answers: seq<AnswerRow>, f: FollowUpRow)
    requires FollowUpsOk(followUps, evaluated, answers)
    requires evaluated < |answers|
    requires f.trigger == evaluated && f.parent == answers[evaluated].question
    requires forall t | t in FollowUpTexts(followUps, f.parent) :: Normalize(t) != Normalize(f.text)
    ensures FollowUpsOk(followUps + [f], evaluated + 1, answers)
  {
    var longer := followUps + [f];
    FollowUpTextsFacts(followUps, f.parent);
    forall j, k | 0 <= j < k < |longer| && longer[j].parent == longer[k].parent
      ensures Normalize(longer[j].text) != Normalize(longer[k].text)
    {
      if k == |followUps| {
        assert longer[j] == followUps[j];
        assert followUps[j].text in FollowUpTexts(followUps, f.parent);
      } else {
        assert longer[j] == followUps[j] && longer[k] == followUps[k];
      }
    }
  }

  lemma FollowUpsUnderMore(followUps: seq<FollowUpRow>, evaluated: nat, answers: seq<AnswerRow>)
    requires FollowUpsOk(followUps, evaluated, answers)
    requires evaluated < |answers|
    ensures FollowUpsOk(followUps, evaluated + 1, answers)
  {
  }

  lemma BudgetsSnoc(followUps: seq<FollowUpRow>, questions: seq<QuestionRow>, f: FollowUpRow)
    requires BudgetsOk(followUps, questions)
    requires f.parent < |questions| && CountFollowUps(followUps, f.parent) < Budget(questions[f.parent])
    ensures BudgetsOk(followUps + [f], questions)
  {
    forall q | 0 <= q < |questions| ensures CountFollowUps(followUps + [f], q) <= Budget(questions[q]) {
      CountFollowUpsSnoc(followUps, f, q);
    }
  }

  lemma AccountsWithFollowUp(answers: seq<AnswerRow>, followUps: seq<FollowUpRow>, cursor: nat, f: FollowUpRow)
    requires AccountsOk(answers, followUps, cursor) && f.parent == cursor
    ensures AccountsOk(answers, followUps + [f], cursor)
    ensures CountFollowUps(followUps + [f], cursor) == CountFollowUps(followUps, cursor) + 1
  {
    forall q: nat ensures CountFollowUps(followUps + [f], q) == CountFollowUps(followUps,
        q) + if q == cursor then 1 else 0 {
      CountFollowUpsSnoc(followUps, f, q);
    }
  }

  lemma EvaluationsSnoc(evaluations: seq<EvaluationRow>, answers: seq<AnswerRow>, e: EvaluationOutput)
    requires EvaluationsOk(evaluations, answers) && |evaluations| < |answers|
    ensures EvaluationsOk(evaluations + [EvaluationRowOf(|evaluations|, e)], answers)
  {
  }

  /** What a decision within an evaluation may look like. */
  ghost predicate DecisionFits(db: Db, question: nat, f: FollowUpOutput) {
    question < |db.questions| && (db.questions[question].output.followUpAllowed && f.followUpRequired ==>
      && CountFollowUps(db.followUps, question) < Budget(db.questions[question])
      && forall t | t in FollowUpTexts(db.followUps, question) :: Normalize(t) != Normalize(f.questionText))
  }

  lemma DecisionsFit(db: Db, question: nat, answer: nat, e: EvaluationOutput, replies: seq<Call<FollowUpOutput>>)
    requires question < |db.questions| && answer < |db.answers|
    requires FollowUps.Decision(FollowUpRequestFor(db, question, answer, e), replies, db.plan.maxRetries).Ok?
    ensures DecisionFits(db, question,
              FollowUps.Decision(FollowUpRequestFor(db, question, answer, e), replies, db.plan.maxRetries).value)
  {
    var req := FollowUpRequestFor(db, question, answer, e);
    var f := FollowUps.Decision(req, replies, db.plan.maxRetries).value;
    FollowUpTextsFacts(db.followUps, question);
    if f.followUpRequired {
      FollowUps.RequiredFollowUpIsSound(req, replies, db.plan.maxRetries);
    }
  }

  lemma TablesWithEvaluation(t: Tables, e: EvaluationOutput)
    requires TablesOk(t) && |t.evaluations| < |t.answers|
    ensures TablesOk(t.(evaluations := t.evaluations + [EvaluationRowOf(|t.evaluations|, e)]))
  {
    EvaluationsSnoc(t.evaluations, t.answers, e);
    FollowUpsUnderMore(t.followUps, |t.evaluations|, t.answers);
  }

  lemma TablesWithFollowUp(t: Tables, e: EvaluationOutput, f: FollowUpRow)
    requires TablesOk(t) && |t.evaluations| < |t.answers|
    requires f.trigger == |t.evaluations|
    requires f.parent == t.cursor == t.answers[|t.evaluations|].question
    requires f.parent < |t.questions| && CountFollowUps(t.followUps, f.parent) < Budget(t.questions[f.parent])
    requires forall x | x in FollowUpTexts(t.followUps, f.parent) :: Normalize(x) != Normalize(f.text)
    ensures TablesOk(t.(evaluations := t.evaluations + [EvaluationRowOf(|t.evaluations|, e)],
        followUps := t.followUps + [f]))
  {
    EvaluationsSnoc(t.evaluations, t.answers, e);
    FollowUpsSnoc(t.followUps, |t.evaluations|, t.answers, f);
    BudgetsSnoc(t.followUps, t.questions, f);
    AccountsWithFollowUp(t.answers, t.followUps, t.cursor, f);
  }

  lemma EvaluatedKeepsTables(db: Db, question: nat, answer: nat, e: EvaluationOutput, f: FollowUpOutput, now: nat)
    requires TablesOk(TablesOf(db)) && DecisionFits(db, question, f)
    requires db.status == Evaluating && question == db.cursor
    requires answer == |db.evaluations| == |db.answers| - 1 && db.answers[answer].question == question
    ensures TablesOk(TablesOf(Evaluated(db, question, answer, e, f, now)))
  {
    var after := Evaluated(db, question, answer, e, f, now);
    NoFollowUpYet(db, question, answer);
    if db.questions[question].output.followUpAllowed && f.followUpRequired {
      var row := FollowUpRow(question, answer, f.questionText);
      assert after.followUps == db.followUps + [row];
      TablesWithFollowUp(TablesOf(db), e, row);
    } else {
      assert after.followUps == db.followUps;
      TablesWithEvaluation(TablesOf(db), e);
    }
  }

  lemma EvaluatedKeepsRest(db: Db, question: nat, answer: nat, e: EvaluationOutput, f: FollowUpOutput, now: nat)
    requires CurrentOk(db) && PhaseOk(db) && ReportsOk(db)
    requires db.status == Evaluating && question == db.cursor && question < |db.questions|
    requires |db.answers| == |db.evaluations| + 1
    requires !HasFollowUp(db, question, answer)
    ensures CurrentOk(Evaluated(db, question, answer, e, f, now))
    ensures PhaseOk(Evaluated(db, question, answer, e, f, now))
    ensures ReportsOk(Evaluated(db, question, answer, e, f, now))
  {
    CountFollowUpsSnoc(db.followUps, FollowUpRow(question, answer, f.questionText), db.cursor);
    assert db.followUps + [] == db.followUps;
  }

  lemma EvaluatedKeepsTrail(db: Db, question: nat, answer: nat, e: EvaluationOutput, f: FollowUpOutput, now: nat)
    requires db.status == Evaluating && question < |db.questions| && TrailOk(db)
    ensures TrailOk(Evaluated(db, question, answer, e, f, now))
    ensures Measure(Evaluated(db, question, answer, e, f, now)) == Measure(db) - 1
  {
    PathSnoc(db.trail, FollowUpRequired);
    PathSnoc(db.trail, NextQuestion);
  }

  lemma EvaluatedKeepsInv(db: Db, question: nat, answer: nat, e: EvaluationOutput, f: FollowUpOutput, now: nat)
    requires Inv(db) && PassesGuards(db, question, answer) && DecisionFits(db, question, f)
    ensures Inv(Evaluated(db, question, answer, e, f, now))
  {
    GuardsPickTheCurrentAnswer(db, question, answer);
    NoFollowUpYet(db, question, answer);
    EvaluatedKeepsTables(db, question, answer, e, f, now);
    EvaluatedKeepsRest(db, question, answer, e, f, now);
    EvaluatedKeepsTrail(db, question, answer, e, f, now);
  }

  /** An evaluation that changes the database does so past the guards, with a decision that fits. */
  lemma CommittedEvaluation(db: Db, question: nat, answer: nat,
                            replies: seq<Call<EvaluationOutput>>, followReplies: seq<Call<FollowUpOutput>>, now: nat)
    returns (e: EvaluationOutput, f: FollowUpOutput)
    requires Evaluate(db, question, answer, replies, followReplies, now).db != db
    ensures PassesGuards(db, question, answer) && DecisionFits(db, question, f)
    ensures Evaluate(db, question, answer, replies, followReplies, now).db == Evaluated(db, question, answer, e, f, now)
  {
    e := EvaluationOf(db.answers[answer].text, replies, db.plan.maxRetries).value;
    f := FollowUps.Decision(FollowUpRequestFor(db, question, answer, e), followReplies, db.plan.maxRetries).value;
    DecisionsFit(db, question, answer, e, followReplies);
  }

  lemma EvaluateKeepsInv(db: Db, question: nat, answer: nat,
                         replies: seq<Call<EvaluationOutput>>, followReplies: seq<Call<FollowUpOutput>>, now: nat)
    requires Inv(db)
    ensures Inv(Evaluate(db, question, answer, replies, followReplies, now).db)
  {
    if Evaluate(db, question, answer, replies, followReplies, now).db != db {
      var e, f := CommittedEvaluation(db, question, answer, replies, followReplies, now);
      EvaluatedKeepsInv(db, question, answer, e, f, now);
    }
  }
}
