/** What the invariant means for every reachable state of every interview. */
module LifecycleTheorems {
  import opened Wrappers
  import opened StateMachine
  import opened Schemas
  import opened Scoring
  import opened Text
  import opened QuestionGeneration
  import opened InterviewDb
  import opened Counting
  import opened Lifecycle
  import opened Invariant
  import opened EvaluationProofs
  import opened Preservation
  import opened Runs
  import opened GenerationOutcomes
  import FollowUps

  /** The databases some schedule leads to. */
  ghost predicate ReachableDb(db: Db) {
    exists w: World :: Reachable(w) && w.db == db
  }

  lemma ReachableDbIsOk(db: Db)
    requires ReachableDb(db)
    ensures Inv(db)
  {
    var w: World :| Reachable(w) && w.db == db;
    ReachableIsOk(w);
  }

  /** `create_interview` admits valid plans only, and the new row is where every run starts. */
  lemma CreatedInterviewIsReachable(owner: nat, active: bool, role: string, language: Option<string>, count: int,
      plan: Plan)
    requires Create(owner, active, role, language, count, plan).Ok?
    ensures ReachableDb(Create(owner, active, role, language, count, plan).value)
  {
    var db := Create(owner, active, role, language, count, plan).value;
    assert ReachedBy(Initial(db.owner, db.plan), db.owner, db.plan, []);
    assert Reachable(Initial(db.owner, db.plan));
  }

  // ---------- answers, follow-ups, cursor ----------

  /**
   The books of an interview balance in every reachable state: the current question by status, every
   earlier question with one answer more than follow-ups, every later one with neither; and while the
   interview is active or finished the cursor names an existing question.
   */
  lemma BooksBalance(db: Db, q: nat)
    requires ReachableDb(db)
    ensures AcceptsAnswers(db.status) ==>
              CountAnswers(db.answers, db.cursor) == CountFollowUps(db.followUps, db.cursor)
    ensures HoldsAnswer(db.status) ==>
              CountAnswers(db.answers, db.cursor) == CountFollowUps(db.followUps, db.cursor) + 1
    ensures q < db.cursor ==> CountAnswers(db.answers, q) == CountFollowUps(db.followUps, q) + 1
    ensures q > db.cursor ==> CountAnswers(db.answers, q) == 0 && CountFollowUps(db.followUps, q) == 0
    ensures IsActive(db.status) || IsFinished(db.status) ==>
              db.cursor < |db.questions| && db.questions[db.cursor].orderIndex == db.cursor
    ensures db.status != InProgress
  {
    ReachableDbIsOk(db);
  }

  /**
   Follow-ups of a question stay within its effective budget, which is at most three; they differ in
   text after normalisation and in the answer that triggered them, which has been evaluated.
   */
  lemma FollowUpsAreBounded(db: Db, q: nat)
    requires ReachableDb(db) && q < |db.questions|
    ensures CountFollowUps(db.followUps, q) <= Budget(db.questions[q]) <= 3
    ensures !db.questions[q].output.followUpAllowed ==> CountFollowUps(db.followUps, q) == 0
    ensures db.questions[q].output.maxFollowUps > 0 ==>
              CountFollowUps(db.followUps, q) <= db.questions[q].output.maxFollowUps
    ensures CountFollowUps(db.followUps, q) <= 1 || db.questions[q].output.maxFollowUps > 0
    ensures forall j, k | 0 <= j < k < |db.followUps| ::
              && db.followUps[j].trigger != db.followUps[k].trigger
              && (db.followUps[j].parent == db.followUps[k].parent ==>
                    Normalize(db.followUps[j].text) != Normalize(db.followUps[k].text))
    ensures forall k | 0 <= k < |db.followUps| ::
              && db.followUps[k].trigger < |db.answers|
              && IsEvaluated(db, db.followUps[k].trigger)
              && db.answers[db.followUps[k].trigger].question == db.followUps[k].parent
  {
    ReachableDbIsOk(db);
    forall k | 0 <= k < |db.followUps| ensures IsEvaluated(db, db.followUps[k].trigger) {
      EvaluatedAnswers(db, db.followUps[k].trigger);
    }
  }

  /** With a suitable first reply from the provider, a question with budget left gets its follow-up. */
  lemma SuitableReplyAddsFollowUp(db: Db, q: nat, a: nat, e: EvaluationOutput, f: FollowUpOutput,
                                  replies: seq<Call<EvaluationOutput>>,
                                  followReplies: seq<Call<FollowUpOutput>>, now: nat)
    requires Inv(db) && PassesGuards(db, q, a)
    requires CallAt(replies, 0) == Returned(e) && CallAt(followReplies, 0) == Returned(f)
    requires f.followUpRequired && FollowUps.Objection(f, FollowUpRequestFor(db, q, a, e)).None?
    requires CountFollowUps(db.followUps, q) < FollowUpLimit(db.questions[q].output)
    ensures Evaluate(db, q, a, replies, followReplies, now).db == Evaluated(db, q, a, e, f, now)
  {
    var req := FollowUpRequestFor(db, q, a, e);
    FollowUpTextsFacts(db.followUps, q);
    assert !FollowUps.BudgetIsSpent(req);
    assert CallAt(FollowUps.JudgeAll(followReplies, req), 0) == Returned(f);
    assert Strip(db.answers[a].text) != "";
  }

  lemma FollowUpsWithinBudget(db: Db, q: nat)
    requires TablesOk(TablesOf(db)) && q < |db.questions|
    ensures CountFollowUps(db.followUps, q) <= Budget(db.questions[q])
  {
  }

  /**
   The limit a question declares is not always the limit it gets: an evaluation that finds it kept, and
   a provider that asks for a suitable follow-up, exceed it exactly when it allows follow-ups but declares zero.
   */
  lemma DeclaredLimitIsExceededIff(db: Db, q: nat, a: nat, e: EvaluationOutput, f: FollowUpOutput,
                                   replies: seq<Call<EvaluationOutput>>,
                                   followReplies: seq<Call<FollowUpOutput>>, now: nat)
    requires ReachableDb(db) && PassesGuards(db, q, a)
    requires CallAt(replies, 0) == Returned(e) && CallAt(followReplies, 0) == Returned(f)
    requires f.followUpRequired && FollowUps.Objection(f, FollowUpRequestFor(db, q, a, e)).None?
    requires CountFollowUps(db.followUps, q) <= db.questions[q].output.maxFollowUps
    ensures var after := Evaluate(db, q, a, replies, followReplies, now).db;
            var declared := db.questions[q].output;
            var exceeded := CountFollowUps(after.followUps, q) > declared.maxFollowUps;
            exceeded <==> declared.followUpAllowed && declared.maxFollowUps == 0
  {
    hide TablesOk, CurrentOk, PhaseOk, ReportsOk, TrailOk;
    ReachableDbIsOk(db);
    var after := Evaluate(db, q, a, replies, followReplies, now).db;
    EvaluateKeepsInv(db, q, a, replies, followReplies, now);
    FollowUpsWithinBudget(after, q);
    if db.questions[q].output.followUpAllowed && db.questions[q].output.maxFollowUps == 0 {
      SuitableReplyAddsFollowUp(db, q, a, e, f, replies, followReplies, now);
      NoSecondFollowUp(db, q, a);
      CountFollowUpsSnoc(db.followUps, FollowUpRow(q, a, f.questionText), q);
    }
  }

  /**
   The question set is empty or has exactly the indexes 0 to total - 1, and each question passes
   validation against all earlier ones, so no two have the same words.
   */
  lemma QuestionsAreSound(db: Db)
    requires ReachableDb(db)
    ensures db.questions == [] || |db.questions| == db.plan.total
    ensures forall i | 0 <= i < |db.questions| :: db.questions[i].orderIndex == i
    ensures EachAcceptable(db.plan, OutputsOf(db.questions))
    ensures forall i, j | 0 <= i < j < |db.questions| ::
              Normalize(db.questions[i].output.questionText) != Normalize(db.questions[j].output.questionText)
  {
    ReachableDbIsOk(db);
    AcceptableSetIsDistinct(db.plan, OutputsOf(db.questions));
    forall i, j | 0 <= i < j < |db.questions|
      ensures Normalize(db.questions[i].output.questionText) != Normalize(db.questions[j].output.questionText)
    {
      assert OutputsOf(db.questions)[i] == db.questions[i].output;
      assert OutputsOf(db.questions)[j] == db.questions[j].output;
    }
  }

  /**
   Whoever wrote it, no stored question has a forbidden phrase or gives its answer away, and each has the
   difficulty, the type and the language the interview asks for.
   */
  lemma StoredQuestionsAreProper(db: Db, i: nat)
    requires ReachableDb(db) && i < |db.questions|
    ensures var c := db.questions[i].output;
            var text := Strip(c.questionText);
            && 10 <= |text| <= 2000
            && !Mentions(text, "ignore previous instructions") && !Mentions(text, "system prompt")
            && !Mentions(text, "api key") && !Mentions(text, "reveal")
            && !(Contains(text, "?") && Contains(text, "=") && Mentions(text, "answer is"))
            && c.difficulty == db.plan.difficulty
            && (db.plan.interviewType == Mixed || db.plan.interviewType == Only(c.questionType))
            && (c.questionType == Technical && db.plan.language.Some? && db.plan.language.value != "" ==>
                  SpeaksOf(c, db.plan.language.value))
  {
    hide Contains, Strip, Lower, Normalize, Mentions, Inv;
    QuestionsAreSound(db);
    var outputs := OutputsOf(db.questions);
    assert outputs[i] == db.questions[i].output;
    AcceptableIff(outputs[i], RequestFor(db.plan, TextsOf(outputs[..i])));
  }

  // ---------- attempts ----------

  lemma {:induction false} CountOfPrefix(answers: seq<AnswerRow>, q: nat, i: nat)
    requires i <= |answers|
    ensures CountAnswers(answers[..i], q) <= CountAnswers(answers, q)
    ensures i < |answers| && answers[i].question == q ==> CountAnswers(answers[..i], q) < CountAnswers(answers, q)
    decreases |answers|
  {
    if i < |answers| {
      var front := answers[..|answers| - 1];
      assert front[..i] == answers[..i];
      CountOfPrefix(front, q, i);
    } else {
      assert answers[..i] == answers;
    }
  }

  lemma {:induction false} AttemptExists(answers: seq<AnswerRow>, q: nat, n: nat) returns (i: nat)
    requires 1 <= n <= CountAnswers(answers, q)
    ensures i < |answers| && answers[i].question == q && CountAnswers(answers[..i], q) == n - 1
    decreases |answers|
  {
    var last := |answers| - 1;
    var front := answers[..last];
    if n <= CountAnswers(front, q) {
      i := AttemptExists(front, q, n);
      assert front[..i] == answers[..i];
    } else {
      i := last;
    }
  }

  lemma LaterAttemptIsHigher(answers: seq<AnswerRow>, i: nat, j: nat)
    requires i < j < |answers| && answers[i].question == answers[j].question
    requires AttemptOk(answers, i) && AttemptOk(answers, j)
    ensures answers[i].attempt < answers[j].attempt
  {
    var q := answers[i].question;
    CountOfPrefix(answers[..j], q, i);
    assert answers[..j][..i] == answers[..i];
  }

  lemma AttemptNumbers(answers: seq<AnswerRow>, q: nat, n: nat)
    requires forall i | 0 <= i < |answers| :: AttemptOk(answers, i)
    ensures (exists i | 0 <= i < |answers| :: answers[i].question == q && answers[i].attempt == n)
              <==> 1 <= n <= CountAnswers(answers, q)
  {
    if 1 <= n <= CountAnswers(answers, q) {
      var i := AttemptExists(answers, q, n);
      assert AttemptOk(answers, i);
    }
    forall i | 0 <= i < |answers| && answers[i].question == q && answers[i].attempt == n
      ensures 1 <= n <= CountAnswers(answers, q)
    {
      assert AttemptOk(answers, i);
      CountOfPrefix(answers, q, i);
    }
  }

  lemma AttemptsIncrease(answers: seq<AnswerRow>)
    requires forall i | 0 <= i < |answers| :: AttemptOk(answers, i)
    ensures forall i, j | 0 <= i < j < |answers| && answers[i].question == answers[j].question ::
              answers[i].attempt < answers[j].attempt
  {
    forall i, j | 0 <= i < j < |answers| && answers[i].question == answers[j].question
      ensures answers[i].attempt < answers[j].attempt
    {
      assert AttemptOk(answers, i) && AttemptOk(answers, j);
      LaterAttemptIsHigher(answers, i, j);
    }
  }

  lemma PointerIsLastAttempt(current: map<nat, nat>, answers: seq<AnswerRow>, q: nat)
    requires PointersOk(current, answers)
    requires forall i | 0 <= i < |answers| :: AttemptOk(answers, i)
    ensures q in current <==> CountAnswers(answers, q) > 0
    ensures q in current ==>
              && current[q] < |answers|
              && answers[current[q]].question == q
              && answers[current[q]].attempt == CountAnswers(answers, q)
  {
    CountIsZeroIff(answers, q);
    if q in current {
      assert IsLatest(answers, q, current[q]);
      CurrentAnswerIsLast(answers, q, current[q]);
    }
  }

  /**
   The attempts of a question are exactly 1 to k, each used once, and the current answer of the
   question is its attempt k.
   */
  lemma AttemptsAreConsecutive(db: Db, q: nat, n: nat)
    requires ReachableDb(db)
    ensures (exists i | 0 <= i < |db.answers| :: db.answers[i].question == q && db.answers[i].attempt == n)
              <==> 1 <= n <= CountAnswers(db.answers, q)
    ensures forall i, j | 0 <= i < j < |db.answers| && db.answers[i].question == db.answers[j].question ::
              db.answers[i].attempt < db.answers[j].attempt
    ensures q in db.currentAnswer <==> CountAnswers(db.answers, q) > 0
    ensures q in db.currentAnswer ==>
              && db.currentAnswer[q] < |db.answers|
              && db.answers[db.currentAnswer[q]].question == q
              && db.answers[db.currentAnswer[q]].attempt == CountAnswers(db.answers, q)
  {
    hide QuestionsOk, KeysOk, EvaluationsOk, FollowUpsOk, BudgetsOk, AccountsOk, CurrentOk, PhaseOk, ReportsOk, TrailOk;
    ReachableDbIsOk(db);
    AttemptNumbers(db.answers, q, n);
    AttemptsIncrease(db.answers);
    PointerIsLastAttempt(db.currentAnswer, db.answers, q);
  }

  lemma {:induction false} CurrentAnswerIsLast(answers: seq<AnswerRow>, q: nat, a: nat)
    requires IsLatest(answers, q, a) && AttemptOk(answers, a)
    ensures answers[a].attempt == CountAnswers(answers, q)
    decreases |answers|
  {
    var front := answers[..|answers| - 1];
    if a < |front| {
      assert IsLatest(front, q, a);
      assert front[..a] == answers[..a];
      CurrentAnswerIsLast(front, q, a);
    } else {
      assert front == answers[..a];
    }
  }

  // ---------- evaluations ----------

  /**
   Each answer has at most one evaluation; at most one answer has none, and that one is the latest of
   all, belongs to the current question, and only while EVALUATING or after a finish or failure.
   */
  lemma EvaluationCoverage(db: Db)
    requires ReachableDb(db)
    ensures forall i, j | 0 <= i < j < |db.evaluations| :: db.evaluations[i].answer != db.evaluations[j].answer
    ensures forall a | 0 <= a < |db.answers| && !IsEvaluated(db, a) ::
              && a == |db.answers| - 1
              && db.answers[a].question == db.cursor
              && db.cursor in db.currentAnswer && db.currentAnswer[db.cursor] == a
              && (db.status == Evaluating || IsFinished(db.status) || db.status == Failed)
    ensures db.status == Evaluating ==> db.answers != [] && !IsEvaluated(db, |db.answers| - 1)
  {
    hide QuestionsOk, AnswersOk, KeysOk, FollowUpsOk, BudgetsOk, AccountsOk, PhaseOk, ReportsOk, TrailOk;
    ReachableDbIsOk(db);
    forall a | 0 <= a < |db.answers| ensures IsEvaluated(db, a) <==> a < |db.evaluations| {
      EvaluatedAnswers(db, a);
    }
    if |db.evaluations| < |db.answers| {
      assert IsLatest(db.answers, db.cursor, db.currentAnswer[db.cursor]);
    }
  }

  /** Past the guards of the evaluation task, in any reachable state, stands the current question's latest answer. */
  lemma GuardsAreEnough(db: Db, question: nat, answer: nat)
    requires ReachableDb(db) && PassesGuards(db, question, answer)
    ensures question == db.cursor
    ensures answer == |db.answers| - 1
    ensures forall a | 0 <= a < answer :: IsEvaluated(db, a)
  {
    ReachableDbIsOk(db);
    GuardsPickTheCurrentAnswer(db, question, answer);
    forall a | 0 <= a < answer ensures IsEvaluated(db, a) {
      EvaluatedAnswers(db, a);
    }
  }

  lemma EvaluatedAdds(db: Db, q: nat, a: nat, e: EvaluationOutput, f: FollowUpOutput, now: nat)
    requires q < |db.questions| && db.status == Evaluating && !HasFollowUp(db, q, a)
    ensures var after := Evaluated(db, q, a, e, f, now);
            && |after.evaluations| == |db.evaluations| + 1
            && after.evaluations[|db.evaluations|].answer == a
            && after.status in {FollowUpRequired, NextQuestion}
            && CountFollowUps(after.followUps, q) == CountFollowUps(db.followUps,
                q) + (if after.status == FollowUpRequired then 1 else 0)
  {
    CountFollowUpsSnoc(db.followUps, FollowUpRow(q, a, f.questionText), q);
    assert db.followUps + [] == db.followUps;
  }

  /**
   An evaluation either commits past the guards, adding one evaluation and exactly the follow-up its
   status announces, or leaves no trace: a rejected follow-up also takes the evaluation back.
   */
  lemma EvaluationLeavesAllOrNothing(db: Db, q: nat, a: nat,
                                     replies: seq<Call<EvaluationOutput>>,
                                     followReplies: seq<Call<FollowUpOutput>>, now: nat)
    requires ReachableDb(db)
    ensures var after := Evaluate(db, q, a, replies, followReplies, now).db;
            after == db ||
            (&& PassesGuards(db, q, a)
             && |after.evaluations| == |db.evaluations| + 1
             && after.evaluations[|db.evaluations|].answer == a
             && after.status in {FollowUpRequired, NextQuestion}
             && CountFollowUps(after.followUps, q) == CountFollowUps(db.followUps,
                 q) + (if after.status == FollowUpRequired then 1 else 0))
  {
    if Evaluate(db, q, a, replies, followReplies, now).db != db {
      var e, f := CommittedEvaluation(db, q, a, replies, followReplies, now);
      ReachableDbIsOk(db);
      NoSecondFollowUp(db, q, a);
      EvaluatedAdds(db, q, a, e, f, now);
    }
  }

  lemma NoSecondFollowUp(db: Db, q: nat, a: nat)
    requires TablesOk(TablesOf(db)) && CurrentOk(db) && PassesGuards(db, q, a)
    ensures !HasFollowUp(db, q, a)
  {
    GuardsPickTheCurrentAnswer(db, q, a);
    NoFollowUpYet(db, q, a);
  }

  // ---------- the report ----------

  /**
   There is a report exactly when the status is REPORT_READY, there is one only, and recomputing the
   scores from the stored evaluations, in any order, gives that report; it counts all answers or all but one.
   */
  lemma ReportAgreesWithEvaluations(db: Db, rows: seq<EvaluationRow>, dimensions: seq<Dimensions>)
    requires ReachableDb(db)
    requires multiset(rows) == multiset(db.evaluations)
    requires |dimensions| == |rows| && forall i | 0 <= i < |rows| :: dimensions[i] == rows[i].dimensions
    ensures db.reports != [] <==> db.status == ReportReady
    ensures db.status == ReportReady ==>
              && |db.reports| == 1
              && ReportScores(dimensions) == Ok(db.reports[0].score)
              && db.reports[0].answered == |rows| > 0
              && (db.reports[0].answered == |db.answers| || db.reports[0].answered == |db.answers| - 1)
  {
    ReachableDbIsOk(db);
    ReportIgnoresRowOrder(rows, db.evaluations);
    assert DimensionsOf(rows) == dimensions;
  }

  /** From COMPLETED on, nothing that a report is computed from can change. */
  lemma ClosedInterviewIsFrozen(w: World, events: seq<Event>)
    requires Reachable(w) && IsClosed(w.db.status)
    ensures var end := Run(w, events).db;
            && IsClosed(end.status)
            && end.answers == w.db.answers && end.evaluations == w.db.evaluations && end.followUps == w.db.followUps
            && (w.db.reports != [] ==> end.reports == w.db.reports)
  {
    ReachableIsOk(w);
    RunGrows(w, events);
    RunKeepsDb(w, events);
  }

  // ---------- completion ----------

  /** The cursor stands still, or steps from a question that is done to the next one. */
  ghost predicate CursorSteps(a: Db, b: Db) {
    b.cursor == a.cursor || (b.cursor == a.cursor + 1 && a.status == NextQuestion && b.status == WaitingForAnswer)
  }

  lemma CallMovesCursor(db: Db, action: Action, now: nat)
    requires IsCall(action) && QuestionsOk(db.plan, db.questions)
    requires db.status == Ready ==> db.cursor == 0
    ensures CursorSteps(db, Called(db, action, now))
  {
    if action.CallStart? {
      NextOrderInOrder(db.questions, 0);
    }
  }

  lemma DeliveryKeepsCursor(w: World, action: Action, now: nat)
    requires IsDelivery(action) && QuestionsOk(w.db.plan, w.db.questions)
    ensures Deliver(w, action, now).db.cursor == w.db.cursor
  {
    if action.DeliverGeneration? {
      InsertResult(w.db, action.scripts, now);
      FailAfterErrorResult(w.db, now);
    }
  }

  lemma ResumeMovesCursor(w: World, task: nat, rows: seq<EvaluationRow>, providerAnswers: bool, now: nat)
    requires task in w.tasks && QuestionsOk(w.db.plan, w.db.questions)
    ensures CursorSteps(w.db, Resume(w, task, rows, providerAnswers, now).db)
  {
    if w.tasks[task].Inserted? {
      FailAfterErrorResult(w.db, now);
    } else if w.tasks[task].Judged? && w.db.status == NextQuestion {
      MoveToNextResult(w.db, now);
    }
  }

  /**
   Starting puts the cursor on the first question; after that it only ever moves by one, from a question
   that is done into waiting for an answer, so it visits the order indexes one after the other.
   */
  lemma CursorMovesByOne(w: World, e: Event)
    requires Reachable(w)
    ensures CursorSteps(w.db, Step(w, e).db)
    ensures IsUnstarted(w.db.status) && !IsUnstarted(Step(w, e).db.status) ==> Step(w, e).db.cursor == 0
  {
    ReachableIsOk(w);
    if IsCall(e.action) {
      CallMovesCursor(w.db, e.action, e.now);
    } else if IsDelivery(e.action) {
      if e.action.task !in w.tasks {
        DeliveryKeepsCursor(w, e.action, e.now);
      }
    } else if e.action.Continue? && e.action.task in w.tasks {
      ResumeMovesCursor(w, e.action.task, e.action.rows, e.action.providerAnswers, e.now);
    }
  }

  lemma CompletedByTheWorker(w: World, e: Event)
    requires QuestionsOk(w.db.plan, w.db.questions) && PhaseOk(w.db)
    requires e.action.Continue? && w.db.status != Completed && Step(w, e).db.status == Completed
    ensures w.db.status == NextQuestion && w.db.cursor + 1 == |w.db.questions|
    ensures Step(w, e).db == Moved(w.db, Completed, e.now)
  {
    if w.tasks[e.action.task].Inserted? {
      FailAfterErrorResult(w.db, e.now);
    } else {
      assert w.tasks[e.action.task].Judged? && w.db.status == NextQuestion;
      MoveToNextResult(w.db, e.now);
    }
  }

  lemma BooksAtTheEnd(db: Db)
    requires AccountsOk(db.answers, db.followUps, db.cursor) && CurrentOk(db)
    requires db.status == NextQuestion && db.cursor + 1 == |db.questions|
    ensures forall q | 0 <= q < |db.questions| :: CountAnswers(db.answers, q) == CountFollowUps(db.followUps, q) + 1
  {
    forall q | 0 <= q < |db.questions| ensures CountAnswers(db.answers, q) == CountFollowUps(db.followUps, q) + 1 {
      assert q < db.cursor || q == db.cursor;
    }
  }

  lemma TablesAtTheEnd(db: Db)
    requires TablesOk(TablesOf(db)) && CurrentOk(db)
    requires db.status == NextQuestion && db.cursor + 1 == |db.questions|
    ensures |db.questions| == db.plan.total && |db.evaluations| == |db.answers|
    ensures forall i, j | 0 <= i < j < |db.answers| :: db.answers[i].question <= db.answers[j].question
    ensures forall q | 0 <= q < |db.questions| :: CountAnswers(db.answers, q) == CountFollowUps(db.followUps, q) + 1
  {
    hide KeysOk, PointersOk, FollowUpsOk, BudgetsOk, AttemptOk;
    BooksAtTheEnd(db);
  }

  /**
   When the interview completes by itself, the cursor stands at the last question, every question has
   been answered, question by question in order, and every answer has been evaluated.
   */
  lemma NaturalCompletionIsComplete(w: World, e: Event)
    requires Reachable(w)
    requires e.action.Continue? && w.db.status != Completed && Step(w, e).db.status == Completed
    ensures var db := Step(w, e).db;
            && db.cursor == |db.questions| - 1 == db.plan.total - 1
            && |db.evaluations| == |db.answers|
            && (forall q | 0 <= q < |db.questions| :: CountAnswers(db.answers, q) >= 1)
            && (forall i, j | 0 <= i < j < |db.answers| :: db.answers[i].question <= db.answers[j].question)
            && (forall q | 0 <= q < |db.questions| :: CountAnswers(db.answers, q) == CountFollowUps(db.followUps,
                q) + 1)
  {
    hide QuestionsOk, AnswersOk, KeysOk, PointersOk, EvaluationsOk, FollowUpsOk, BudgetsOk, AccountsOk, CurrentOk,
        ReportsOk, TrailOk;
    ReachableIsOk(w);
    CompletedByTheWorker(w, e);
    TablesAtTheEnd(w.db);
  }

  // ---------- history ----------

  /** Every committed run follows a path of the status graph from CREATED to the present status. */
  lemma HistoryFollowsTheGraph(db: Db)
    requires ReachableDb(db)
    ensures IsPath(db.trail) && db.trail != [] && db.trail[0] == Created && db.trail[|db.trail| - 1] == db.status
  {
    ReachableDbIsOk(db);
  }

  /** The start and completion times are set once, on the way in, and never change. */
  lemma StampsAreSetOnce(w: World, events: seq<Event>)
    requires Reachable(w)
    ensures var end := Run(w, events).db;
            && (w.db.startedAt.Some? ==> end.startedAt == w.db.startedAt)
            && (w.db.completedAt.Some? ==> end.completedAt == w.db.completedAt)
            && (IsActive(end.status) || IsFinished(end.status) ==> end.startedAt.Some?)
            && (IsFinished(end.status) ==> end.completedAt.Some?)
            && (end.completedAt.Some? ==> end.startedAt.Some? && (IsFinished(end.status) || end.status == Failed))
            && (IsUnstarted(end.status) ==> end.startedAt.None?)
  {
    ReachableIsOk(w);
    RunGrows(w, events);
    RunKeepsDb(w, events);
  }
}
