/**
 What every transaction answers and which columns it changes, said of its inputs and its result alone:
 when it succeeds, with which error it fails otherwise, and what the row looks like afterwards.
 */
module Outcomes {
  import opened Wrappers
  import opened StateMachine
  import opened Schemas
  import opened Scoring
  import opened Text
  import opened Retry
  import opened RequestHash
  import opened QuestionGeneration
  import opened InterviewDb
  import opened Counting
  import opened Lifecycle
  import opened Invariant
  import opened SubmissionProofs
  import opened EvaluationProofs
  import opened Preservation
  import opened ScoringProofs
  import opened Runs
  import opened LifecycleTheorems
  import FollowUps

  // ---------- create, prepare, start ----------

  /** A new interview belongs to its owner, asks for the requested number of questions, and is empty. */
  lemma CreateOutcome(owner: nat, active: bool, role: string, language: Option<string>, count: int, plan: Plan)
    ensures var r := Create(owner, active, role, language, count, plan);
            var spoken := Strip(if language.Some? then language.value else "");
            var proper := 2 <= |Strip(role)| <= 255 && 1 <= count <= 50 && |spoken| <= 128;
            && (r == Err(InvalidConfig) <==> !proper)
            && (r == Err(InterviewNotFound) <==> proper && !active)
            && (r.Ok? <==> proper && active)
            && (r.Ok? ==>
                  && r.value.owner == owner && r.value.status == Created && r.value.cursor == 0
                  && r.value.plan == plan.(role := Strip(role), total := count,
                                           language := if spoken == "" then None else Some(spoken))
                  && r.value.questions == [] && r.value.answers == [] && r.value.evaluations == []
                  && r.value.followUps == [] && r.value.keys == [] && r.value.reports == []
                  && r.value.currentAnswer == map[] && r.value.startedAt == r.value.completedAt == None)
  {
  }

  lemma PreparationOutcome(db: Db, actor: nat, now: nat)
    ensures var tx := BeginPreparation(db, actor, now);
            && (tx.reply == Err(InterviewNotFound) <==> actor != db.owner)
            && (tx.reply == Err(InvalidTransition) <==> actor == db.owner && db.status != Created)
            && (tx.reply.Ok? <==> actor == db.owner && db.status == Created)
            && tx.db == if tx.reply.Ok? then db.(status := Preparing, trail := db.trail + [Preparing]) else db
  {
  }

  lemma ReadyOutcome(db: Db, now: nat)
    ensures var tx := MarkReady(db, now);
            && (tx.reply.Ok? <==> db.status == Preparing && db.questions != [])
            && (tx.reply.Err? ==> tx.reply.error == NotReady)
            && tx.db == if tx.reply.Ok? then db.(status := Ready, trail := db.trail + [Ready]) else db
  {
  }

  ghost predicate IsLeastIndex(questions: seq<QuestionRow>, lo: nat, k: nat) {
    && k >= lo
    && (exists i | 0 <= i < |questions| :: questions[i].orderIndex == k)
    && forall i | 0 <= i < |questions| && questions[i].orderIndex >= lo :: questions[i].orderIndex >= k
  }

  /** A start is refused to others and before READY; it sets the cursor to the first question and the start time. */
  lemma StartOutcome(db: Db, actor: nat, now: nat)
    requires db.startedAt.None?
    ensures var tx := Start(db, actor, now);
            && (tx.reply == Err(InterviewNotFound) <==> actor != db.owner)
            && (tx.reply == Err(NotReady) <==> actor == db.owner && (db.status != Ready || db.questions == []))
            && (tx.reply.Ok? <==> actor == db.owner && db.status == Ready && db.questions != [])
            && (tx.reply.Err? && !(actor == db.owner && db.status == Ready) ==> tx.db == db)
            && (tx.reply.Err? && actor == db.owner && db.status == Ready ==>
                  tx.db == db.(status := Failed, trail := db.trail + [Failed]))
            && (tx.reply.Ok? ==>
                  && IsLeastIndex(db.questions, 0, tx.db.cursor)
                  && tx.db == db.(status := WaitingForAnswer, cursor := tx.db.cursor, startedAt := Some(now),
                                  trail := db.trail + [InProgress, WaitingForAnswer]))
  {
    NextOrderMeaning(db.questions, 0);
    if db.questions != [] {
      assert db.questions[0].orderIndex >= 0;
    }
    assert db.trail + [InProgress] + [WaitingForAnswer] == db.trail + [InProgress, WaitingForAnswer];
  }

  // ---------- ownership ----------

  /** A call for another actor than the owner changes nothing. */
  lemma ForeignCallsDoNothing(w: World, e: Event)
    requires IsCall(e.action) && e.action.actor != w.db.owner
    ensures Step(w, e) == w
  {
  }

  /** The schedule without the calls of other actors than the owner. */
  function WithoutStrangers(owner: nat, events: seq<Event>): seq<Event> {
    if events == [] then []
    else if IsCall(events[0].action) && events[0].action.actor != owner then WithoutStrangers(owner, events[1..])
    else [events[0]] + WithoutStrangers(owner, events[1..])
  }

  lemma OwnerStays(w: World, e: Event)
    ensures Step(w, e).db.owner == w.db.owner
  {
    hide NextOrder, GenerateSet, FindKey, Strip, HashText, MaxAttempt;
  }

  /** Nobody but the owner can influence an interview through a call, over any schedule. */
  lemma {:induction false} StrangersHaveNoInfluence(w: World, events: seq<Event>)
    ensures Run(w, WithoutStrangers(w.db.owner, events)) == Run(w, events)
    decreases |events|
  {
    hide Step;
    if events != [] {
      var rest := WithoutStrangers(w.db.owner, events[1..]);
      if IsCall(events[0].action) && events[0].action.actor != w.db.owner {
        ForeignCallsDoNothing(w, events[0]);
      } else {
        assert ([events[0]] + rest)[1..] == rest;
      }
      OwnerStays(w, events[0]);
      StrangersHaveNoInfluence(Step(w, events[0]), events[1..]);
    }
  }

  // ---------- submit ----------

  /** The unique constraint on idempotency keys. */
  ghost predicate KeysAreUnique(db: Db) {
    forall i, j | 0 <= i < j < |db.keys| :: db.keys[i].key != db.keys[j].key
  }

  ghost predicate IsKnownKey(db: Db, key: string) {
    exists i | 0 <= i < |db.keys| :: db.keys[i].key == key
  }

  /** The key stands for this very request: question, stripped text and time. */
  ghost predicate IsReplay(db: Db, s: Submission) {
    exists i | 0 <= i < |db.keys| ::
      && db.keys[i].key == Strip(s.key) && db.keys[i].question == s.question
      && db.keys[i].requestHash == HashText(Strip(s.text), s.question, s.timeTaken)
  }

  predicate IsWellFormed(s: Submission) {
    1 <= |Strip(s.text)| <= 20000 && 8 <= |Strip(s.key)| <= 128
  }

  predicate IsCurrent(db: Db, question: nat) {
    question < |db.questions| && db.questions[question].orderIndex == db.cursor
  }

  lemma ReplayIsFound(db: Db, s: Submission)
    requires KeysAreUnique(db)
    ensures IsKnownKey(db, Strip(s.key)) <==> FindKey(db.keys, Strip(s.key)).Some?
    ensures IsReplay(db, s) <==>
              var found := FindKey(db.keys, Strip(s.key));
              found.Some? && found.value.question == s.question && found.value.requestHash == SubmissionHash(s)
  {
    FindKeyMeaning(db.keys, Strip(s.key));
  }

  /**
   When a submission is accepted, and with which error it is rejected otherwise. The checks come in this
   order: form, owner, question, key, status, current question.
   */
  lemma SubmitVerdict(db: Db, actor: nat, s: Submission, now: nat)
    requires KeysAreUnique(db)
    ensures var reply := Submit(db, actor, s, now).reply;
            var known := IsKnownKey(db, Strip(s.key));
            var heard := IsWellFormed(s) && actor == db.owner;
            var open := db.status == WaitingForAnswer || db.status == FollowUpRequired;
            var asked := heard && s.question < |db.questions|;
            && (reply == Err(InvalidAnswer) <==> !IsWellFormed(s))
            && (reply == Err(InterviewNotFound) <==> IsWellFormed(s) && actor != db.owner)
            && (reply == Err(DuplicateSubmission) <==> asked && known && !IsReplay(db, s))
            && (reply == Err(SubmissionRejected) <==> asked && !known && !open)
            && (reply == Err(InvalidCurrentQuestion) <==>
                  heard && (!asked || (!known && open && !IsCurrent(db, s.question))))
            && (reply.Ok? <==> asked && (IsReplay(db, s) || (!known && open && IsCurrent(db, s.question))))
  {
    hide Strip, Accepted;
    ReplayIsFound(db, s);
  }

  /**
   What an accepted submission answers and stores. It is reported as a duplicate exactly when its key is
   already there, and then nothing changes; otherwise exactly its answer and its key are added, the
   question points to the answer, and the reported status is the one the interview now has.
   */
  lemma SubmitOutcome(db: Db, actor: nat, s: Submission, now: nat)
    requires KeysAreUnique(db)
    ensures var tx := Submit(db, actor, s, now);
            && (tx.reply.Err? ==> tx.db == db)
            && (tx.reply.Ok? ==>
                  && (tx.reply.value.isDuplicate <==> IsKnownKey(db, Strip(s.key)))
                  && tx.reply.value.status == tx.db.status)
            && (tx.reply.Ok? && tx.reply.value.isDuplicate ==>
                  && tx.db == db
                  && exists i | 0 <= i < |db.keys| ::
                       db.keys[i].key == Strip(s.key) && db.keys[i].answer == tx.reply.value.answer)
            && (tx.reply.Ok? && !tx.reply.value.isDuplicate ==>
                  && tx.reply.value.answer == |db.answers|
                  && |tx.db.answers| == |db.answers| + 1 && tx.db.answers[..|db.answers|] == db.answers
                  && tx.db.answers[|db.answers|].question == s.question
                  && tx.db.answers[|db.answers|].text == Strip(s.text)
                  && tx.db.answers[|db.answers|].timeTaken == s.timeTaken
                  && tx.db.keys == db.keys + [KeyRow(Strip(s.key), s.question, |db.answers|,
                                                     HashText(Strip(s.text), s.question, s.timeTaken))]
                  && tx.db.currentAnswer == db.currentAnswer[s.question := |db.answers|]
                  && tx.db.status == Evaluating
                  && tx.db == db.(answers := tx.db.answers, keys := tx.db.keys, currentAnswer := tx.db.currentAnswer,
                                  status := Evaluating, trail := tx.db.trail)
                  && tx.db.trail == db.trail + (if db.status == FollowUpRequired then [WaitingForAnswer] else [])
                                    + [Evaluating])
  {
    hide Strip, HashText;
    FindKeyMeaning(db.keys, Strip(s.key));
    assert db.trail + [] + [Evaluating] == db.trail + [Evaluating];
  }

  // ---------- moving on, finishing, failing ----------

  /** After a follow-up back to waiting; after a question on to the least later index, or to the end. */
  lemma MoveToNextOutcome(db: Db, now: nat)
    ensures var tx := MoveToNext(db, now);
            var last := forall i | 0 <= i < |db.questions| :: db.questions[i].orderIndex <= db.cursor;
            && (tx.reply.Ok? <==> db.status == FollowUpRequired || db.status == NextQuestion)
            && (tx.reply.Err? ==> tx.db == db && tx.reply.error == NotActive)
            && (db.status == FollowUpRequired ==>
                  tx.db == db.(status := WaitingForAnswer, trail := db.trail + [WaitingForAnswer]))
            && (db.status == NextQuestion && !last ==>
                  && IsLeastIndex(db.questions, db.cursor + 1, tx.db.cursor)
                  && tx.db == db.(cursor := tx.db.cursor, status := WaitingForAnswer,
                                  trail := db.trail + [WaitingForAnswer]))
            && (db.status == NextQuestion && last ==>
                  tx.db == db.(status := Completed, trail := db.trail + [Completed],
                               completedAt := if db.completedAt.None? then Some(now) else db.completedAt))
  {
    NextOrderMeaning(db.questions, db.cursor + 1);
  }

  predicate IsUnderWay(s: Status) {
    s in {InProgress, WaitingForAnswer, Evaluating, FollowUpRequired, NextQuestion}
  }

  lemma FinishOutcome(db: Db, actor: nat, now: nat)
    ensures var tx := Finish(db, actor, now);
            && (tx.reply == Err(InterviewNotFound) <==> actor != db.owner)
            && (tx.reply == Err(AlreadyCompleted) <==>
                  actor == db.owner && db.status in {Completed, ReportGenerating, ReportReady})
            && (tx.reply == Err(NotActive) <==> actor == db.owner && db.status in {Created, Preparing, Ready, Failed})
            && (tx.reply.Ok? <==> actor == db.owner && IsUnderWay(db.status))
            && tx.db == (if !tx.reply.Ok? then db
                         else db.(status := Completed, trail := db.trail + [Completed],
                                  completedAt := if db.completedAt.None? then Some(now) else db.completedAt))
  {
  }

  lemma FailOutcome(db: Db, actor: nat, now: nat)
    ensures var tx := Fail(db, actor, now);
            && (tx.reply == Err(InterviewNotFound) <==> actor != db.owner)
            && (tx.reply == Err(InvalidTransition) <==>
                  actor == db.owner && (db.status == ReportReady || db.status == Failed))
            && (tx.reply.Ok? <==> actor == db.owner && db.status != ReportReady && db.status != Failed)
            && tx.db == if tx.reply.Ok? then db.(status := Failed, trail := db.trail + [Failed]) else db
  {
    TerminalStatuses(db.status);
  }

  /** The exception path of a task spares interviews that have failed or have their report. */
  lemma ExceptionOutcome(db: Db, now: nat)
    ensures FailAfterError(db, now) == if db.status == Failed || db.status == ReportReady then db
                                       else db.(status := Failed, trail := db.trail + [Failed])
  {
    FailOutcome(db, db.owner, now);
  }

  // ---------- generation ----------

  /** Generation stores each generated question at its own index, or fails the interview. */
  lemma InsertOutcome(db: Db, scripts: Scripts, now: nat)
    requires QuestionsOk(db.plan, db.questions)
    ensures var tx := InsertQuestions(db, scripts, now);
            && (tx.reply.Ok? <==> db.questions == [] && GenerateSet(db.plan, scripts).Ok?)
            && (tx.reply == Err(IntegrityViolation) <==> db.questions != [] && GenerateSet(db.plan, scripts).Ok?)
            && (GenerateSet(db.plan, scripts).Err? ==>
                  tx.reply == Err(AIFailed(GenerateSet(db.plan, scripts).error)))
            && (tx.reply.Err? ==> tx.db == FailAfterError(db, now))
            && (tx.reply.Ok? ==>
                  && tx.db == db.(questions := tx.db.questions)
                  && |tx.db.questions| == db.plan.total
                  && forall i | 0 <= i < db.plan.total ::
                       && tx.db.questions[i].orderIndex == i
                       && tx.db.questions[i].output == GenerateSet(db.plan, scripts).value[i])
  {
    hide QuestionsOk, EachAcceptable;
    InsertResult(db, scripts, now);
    if GenerateSet(db.plan, scripts).Ok? {
      GeneratedSetIsSound(db.plan, scripts);
      SecondSetClashes(db, GenerateSet(db.plan, scripts).value);
    }
  }

  /** A set that is not ready after generation is treated like any other error. */
  lemma ReadyOrFailOutcome(db: Db, now: nat)
    ensures var tx := ReadyOrFail(db, now);
            && (tx.reply.Ok? <==> db.status == Preparing && db.questions != [])
            && (tx.reply.Err? ==> tx.reply.error == NotReady)
            && tx.db == (if tx.reply.Ok? then db.(status := Ready, trail := db.trail + [Ready])
                         else if db.status == Failed || db.status == ReportReady then db
                         else db.(status := Failed, trail := db.trail + [Failed]))
  {
    ReadyOutcome(db, now);
    ExceptionOutcome(db, now);
  }

  // ---------- evaluation ----------

  /** Some permitted call returns a value after nothing but validation errors. */
  ghost predicate Answers<T>(calls: seq<Call<T>>, maxRetries: int, k: nat) {
    && k < Attempts(maxRetries)
    && CallAt(calls, k).Returned?
    && forall i | 0 <= i < k :: CallAt(calls, i) == Raised(ValidationFailed)
  }

  lemma RetryAnswers<T>(calls: seq<Call<T>>, maxRetries: int) returns (k: nat)
    ensures Retrying(calls, maxRetries).outcome.Ok? ==>
              Answers(calls, maxRetries, k) && Retrying(calls, maxRetries).outcome == Ok(CallAt(calls, k).value)
    ensures Retrying(calls, maxRetries).outcome.Err? ==> forall j: nat :: !Answers(calls, maxRetries, j)
  {
    RetryMeaning(calls, maxRetries);
    k := Retrying(calls, maxRetries).made - 1;
    if Retrying(calls, maxRetries).outcome.Err? {
      forall j: nat ensures !Answers(calls, maxRetries, j) {
        if j < k {
          assert CallAt(calls, j) == Raised(ValidationFailed);
        } else if k < j < Attempts(maxRetries) {
          assert CallAt(calls, k) != Raised(ValidationFailed);
        }
      }
    }
  }

  /** What the follow-up decision is asked about, for an answer and the evaluation the provider gave. */
  function Question(db: Db, q: nat, a: nat, e: EvaluationOutput): FollowUps.FollowUpRequest
    requires q < |db.questions| && a < |db.answers|
  {
    var declared := db.questions[q].output.maxFollowUps;
    FollowUps.FollowUpRequest(
      db.answers[a].text, e.missingConcepts, e.incorrectConcepts, db.plan.difficulty,
      FollowUpTexts(db.followUps, q), if declared == 0 then 1 else declared)
  }

  /** The decision was taken from a reply of the provider, or made no demand. */
  ghost predicate StemsFrom(f: FollowUpOutput, followReplies: seq<Call<FollowUpOutput>>, maxRetries: int) {
    f.followUpRequired ==> exists j: nat | j < Attempts(maxRetries) :: CallAt(followReplies, j) == Returned(f)
  }

  lemma DecisionStems(req: FollowUps.FollowUpRequest, followReplies: seq<Call<FollowUpOutput>>, maxRetries: int)
    requires FollowUps.Decision(req, followReplies, maxRetries).Ok?
    ensures StemsFrom(FollowUps.Decision(req, followReplies, maxRetries).value, followReplies, maxRetries)
  {
    if FollowUps.Decision(req, followReplies, maxRetries).value.followUpRequired {
      FollowUps.RequiredFollowUpIsSound(req, followReplies, maxRetries);
    }
  }

  /** The row stores the dimensions the provider returned, and the rounded means of exactly those. */
  ghost predicate Stores(row: EvaluationRow, answer: nat, e: EvaluationOutput) {
    var t, c := e.dimensions.technical, e.dimensions.communication;
    && row.answer == answer
    && row.dimensions == e.dimensions
    && -1 <= 4 * row.technicalOverall - (t.correctness + t.relevance + t.completeness + t.technicalDepth) <= 2
    && -1 <= 3 * row.communicationOverall - (c.clarity + c.structure + c.conciseness) <= 1
  }

  /** After an evaluation: one row for what the provider said, and the follow-up exactly if it is asked for. */
  ghost predicate IsEvaluation(db: Db, after: Db, q: nat, a: nat, e: EvaluationOutput, f: FollowUpOutput)
    requires q < |db.questions|
  {
    var asks := db.questions[q].output.followUpAllowed && f.followUpRequired;
    && |after.evaluations| == |db.evaluations| + 1 && after.evaluations[..|db.evaluations|] == db.evaluations
    && Stores(after.evaluations[|db.evaluations|], a, e)
    && after.followUps == db.followUps + (if asks then [FollowUpRow(q, a, f.questionText)] else [])
    && after.status == (if asks then FollowUpRequired else NextQuestion)
    && after == db.(evaluations := after.evaluations, followUps := after.followUps, status := after.status,
                    trail := db.trail + [after.status])
  }

  lemma EvaluatedIsEvaluation(db: Db, q: nat, a: nat, e: EvaluationOutput, f: FollowUpOutput, now: nat)
    requires q < |db.questions| && db.status == Evaluating && !HasFollowUp(db, q, a)
    ensures IsEvaluation(db, Evaluated(db, q, a, e, f, now), q, a, e, f)
  {
    hide TechnicalOverall, CommunicationOverall, HasFollowUp;
    TechnicalOverallError(e.dimensions);
    CommunicationOverallError(e.dimensions);
  }

  /**
   When an evaluation commits, and what it then stores: past the guards, with an answer of the provider
   and a decision, it adds the very dimensions of that answer and a follow-up with the very text of a reply.
   */
  lemma EvaluationOutcome(db: Db, q: nat, a: nat,
                          replies: seq<Call<EvaluationOutput>>, followReplies: seq<Call<FollowUpOutput>>, now: nat)
    returns (k: nat, f: FollowUpOutput)
    requires ReachableDb(db)
    ensures var tx := Evaluate(db, q, a, replies, followReplies, now);
            var retries := db.plan.maxRetries;
            && (tx.db != db <==> tx.reply.Ok? && tx.reply.value.Advanced?)
            && (tx.db != db ==>
                  && PassesGuards(db, q, a) && Answers(replies, retries, k)
                  && FollowUps.Decision(Question(db, q, a, CallAt(replies, k).value), followReplies, retries) == Ok(f)
                  && StemsFrom(f, followReplies, retries)
                  && IsEvaluation(db, tx.db, q, a, CallAt(replies, k).value, f)
                  && tx.reply == Ok(Advanced(tx.db.status == FollowUpRequired)))
            && (tx.db == db && PassesGuards(db, q, a) ==>
                  forall j: nat | Answers(replies, retries, j) ::
                    FollowUps.Decision(Question(db, q, a, CallAt(replies, j).value), followReplies, retries).Err?)
  {
    hide Inv;
    f := FollowUpFields(false, "r", "0123456789", "c", Easy);
    k := 0;
    if PassesGuards(db, q, a) {
      k := RetryAnswers(replies, db.plan.maxRetries);
      AnswersAreUnique(replies, db.plan.maxRetries);
      EvaluationPastGuards(db, q, a, replies, followReplies, now);
      if Evaluate(db, q, a, replies, followReplies, now).db != db {
        var e := CallAt(replies, k).value;
        f := FollowUps.Decision(Question(db, q, a, e), followReplies, db.plan.maxRetries).value;
        DecisionStems(Question(db, q, a, e), followReplies, db.plan.maxRetries);
        EvaluatedIsEvaluation(db, q, a, e, f, now);
      }
    }
  }

  /** What a delivery answers that is turned away at the guards, or finds a blank answer. */
  lemma EvaluationVerdict(db: Db, q: nat, a: nat,
                          replies: seq<Call<EvaluationOutput>>, followReplies: seq<Call<FollowUpOutput>>, now: nat)
    ensures var tx := Evaluate(db, q, a, replies, followReplies, now);
            var known := q < |db.questions| && a < |db.answers| && db.answers[a].question == q;
            && (tx.reply == Err(EntityMissing) <==> !known)
            && (tx.reply == Ok(Skipped) <==> known && !PassesGuards(db, q, a))
            && (tx.reply.Err? || tx.reply == Ok(Skipped) ==> tx.db == db)
            && (PassesGuards(db, q, a) && Strip(db.answers[a].text) == "" ==>
                  tx.reply == Err(AIFailed(ValidationFailed)))
  {
    hide Strip, FollowUps.Decision, Retrying, IsEvaluated, Evaluated, FollowUpRequestFor;
  }

  lemma AnswersAreUnique<T>(calls: seq<Call<T>>, maxRetries: int)
    ensures forall i: nat, j: nat | Answers(calls, maxRetries, i) && Answers(calls, maxRetries, j) :: i == j
  {
    forall i: nat, j: nat | Answers(calls, maxRetries, i) && Answers(calls, maxRetries, j) ensures i == j {
      assert i < j ==> CallAt(calls, i) == Raised(ValidationFailed);
      assert j < i ==> CallAt(calls, j) == Raised(ValidationFailed);
    }
  }

  /** Past the guards only the provider and the decision can stop an evaluation. */
  lemma EvaluationPastGuards(db: Db, q: nat, a: nat,
                             replies: seq<Call<EvaluationOutput>>, followReplies: seq<Call<FollowUpOutput>>, now: nat)
    requires ReachableDb(db) && PassesGuards(db, q, a)
    ensures !HasFollowUp(db, q, a)
    ensures var tx := Evaluate(db, q, a, replies, followReplies, now);
            var outcome := Retrying(replies, db.plan.maxRetries).outcome;
            if outcome.Err? then tx == Tx(db, Err(AIFailed(outcome.error)))
            else
              var decision := FollowUps.Decision(Question(db, q, a, outcome.value), followReplies, db.plan.maxRetries);
              if decision.Err? then tx == Tx(db, Err(AIFailed(decision.error)))
              else
                && tx.db == Evaluated(db, q, a, outcome.value, decision.value, now) != db
                && tx.reply == Ok(Advanced(tx.db.status == FollowUpRequired))
  {
    ReachableDbIsOk(db);
    NoSecondFollowUp(db, q, a);
    AnswerIsNotBlank(db, a);
    EvaluateUnfolds(db, q, a, replies, followReplies, now);
  }

  lemma AnswerIsNotBlank(db: Db, a: nat)
    requires TablesOk(TablesOf(db)) && a < |db.answers|
    ensures Strip(db.answers[a].text) != ""
  {
    hide QuestionsOk, KeysOk, PointersOk, EvaluationsOk, FollowUpsOk, BudgetsOk, AccountsOk, AttemptOk;
  }

  lemma EvaluateUnfolds(db: Db, q: nat, a: nat,
                        replies: seq<Call<EvaluationOutput>>, followReplies: seq<Call<FollowUpOutput>>, now: nat)
    requires PassesGuards(db, q, a) && Strip(db.answers[a].text) != ""
    ensures var tx := Evaluate(db, q, a, replies, followReplies, now);
            var outcome := Retrying(replies, db.plan.maxRetries).outcome;
            if outcome.Err? then tx == Tx(db, Err(AIFailed(outcome.error)))
            else
              var decision := FollowUps.Decision(Question(db, q, a, outcome.value), followReplies, db.plan.maxRetries);
              if decision.Err? then tx == Tx(db, Err(AIFailed(decision.error)))
              else
                && tx.db == Evaluated(db, q, a, outcome.value, decision.value, now) != db
                && tx.reply == Ok(Advanced(tx.db.status == FollowUpRequired))
  {
    hide Strip, FollowUps.Decision, Retrying, IsEvaluated, HasFollowUp, EvaluationRowOf;
    if Retrying(replies, db.plan.maxRetries).outcome.Ok? {
      var e := Retrying(replies, db.plan.maxRetries).outcome.value;
      assert FollowUpRequestFor(db, q, a, e) == Question(db, q, a, e);
    }
  }

  // ---------- workers ----------

  /** A delivery commits its first transaction, and stays at work only if a second one is due. */
  lemma DeliveryOutcome(w: World, e: Event)
    requires IsDelivery(e.action)
    ensures e.action.task in w.tasks ==> Step(w, e) == w
    ensures var a, db := e.action, w.db;
            var after := Step(w, e);
            a.task !in w.tasks ==>
              match a
              case DeliverGeneration(_, scripts) =>
                var tx := InsertQuestions(db, scripts, e.now);
                after == World(tx.db, if tx.reply.Ok? then w.tasks[a.task := Inserted] else w.tasks)
              case DeliverEvaluation(_, q, answer, replies, followReplies) =>
                var tx := Evaluate(db, q, answer, replies, followReplies, e.now);
                after == World(tx.db, if tx.reply == Ok(Advanced(false)) then w.tasks[a.task := Judged] else w.tasks)
              case DeliverReport(_) =>
                var tx := BeginReport(db, e.now);
                after == World(tx.db, if tx.reply == Ok(true) then w.tasks[a.task := Reporting] else w.tasks)
  {
  }

  /** Reading the evaluations succeeds in any order of all rows, and only for some rows and a provider that answers. */
  lemma ReadingOutcome(w: World, task: nat, rows: seq<EvaluationRow>, providerAnswers: bool, now: nat)
    requires task in w.tasks && w.tasks[task] == Reporting && multiset(rows) == multiset(w.db.evaluations)
    ensures var after := Step(w, Event(now, Continue(task, rows, providerAnswers)));
            && after.db == w.db
            && (task in after.tasks <==> rows != [] && providerAnswers)
            && (task in after.tasks ==> ReportOf(rows).Ok? && after.tasks[task] == Scored(ReportOf(rows).value))
            && after.tasks - {task} == w.tasks - {task}
  {
    hide ReportOf;
    ReportOutcome(rows, DimensionsOf(rows));
  }

  /** The other workers have one transaction left, and are gone after it or after a crash. */
  lemma LastTransactionOutcome(w: World, task: nat, rows: seq<EvaluationRow>, providerAnswers: bool, now: nat)
    requires task in w.tasks
    ensures Step(w, Event(now, Crash(task))) == w.(tasks := w.tasks - {task})
    ensures var after := Step(w, Event(now, Continue(task, rows, providerAnswers)));
            match w.tasks[task]
            case Inserted => after == World(ReadyOrFail(w.db, now).db, w.tasks - {task})
            case Judged => after == World(MoveToNext(w.db, now).db, w.tasks - {task})
            case Scored(report) => after == World(WriteReport(w.db, report, now).db, w.tasks - {task})
            case Reporting => true
  {
  }

  // ---------- the report ----------

  lemma BeginReportOutcome(db: Db, now: nat)
    ensures var tx := BeginReport(db, now);
            && (tx.reply == Ok(true) <==> db.status == Completed && db.reports == [])
            && (tx.reply != Ok(true) ==> tx.reply == Ok(false) && tx.db == db)
            && (tx.reply == Ok(true) ==>
                  tx.db == db.(status := ReportGenerating, trail := db.trail + [ReportGenerating]))
  {
  }

  lemma WriteReportOutcome(db: Db, report: ReportRow, now: nat)
    ensures var tx := WriteReport(db, report, now);
            && (tx.reply == Err(ReportNotEligible) <==> db.status != ReportGenerating)
            && (tx.reply == Err(IntegrityViolation) <==> db.status == ReportGenerating && db.reports != [])
            && (tx.reply.Ok? <==> db.status == ReportGenerating && db.reports == [])
            && tx.db == if tx.reply.Ok?
                        then db.(reports := [report], status := ReportReady, trail := db.trail + [ReportReady]) else db
  {
  }

  /** The report of some rows: the scores of their dimensions in order, and their number. */
  lemma ReportOutcome(rows: seq<EvaluationRow>, dimensions: seq<Dimensions>)
    requires |dimensions| == |rows| && forall i | 0 <= i < |rows| :: dimensions[i] == rows[i].dimensions
    ensures ReportOf(rows) == Err(NothingToReport) <==> rows == []
    ensures ReportOf(rows).Ok? <==> rows != []
    ensures ReportOf(rows).Ok? ==>
              ReportOf(rows).value.answered == |rows| && Ok(ReportOf(rows).value.score) == ReportScores(dimensions)
  {
    assert DimensionsOf(rows) == dimensions;
  }
}
