/** Every step of the lifecycle keeps the global invariant, so every run does. */
module Preservation {
  import opened Wrappers
  import opened StateMachine
  import opened Schemas
  import opened QuestionGeneration
  import opened InterviewDb
  import opened Counting
  import opened Invariant
  import ScoringProofs

  // ---------- the cursor ----------

  /** The query for the next question: the least order index not below `lo`, if there is one. */
  lemma {:induction false} NextOrderMeaning(questions: seq<QuestionRow>, lo: nat)
    ensures NextOrder(questions, lo).None? <==> forall i | 0 <= i < |questions| :: questions[i].orderIndex < lo
    ensures NextOrder(questions, lo).Some? ==>
              var k := NextOrder(questions, lo).value;
              && k >= lo
              && (exists i | 0 <= i < |questions| :: questions[i].orderIndex == k)
              && forall i | 0 <= i < |questions| && questions[i].orderIndex >= lo :: questions[i].orderIndex >= k
  {
    if questions != [] {
      var front, last := questions[..|questions| - 1], questions[|questions| - 1];
      NextOrderMeaning(front, lo);
      assert forall i | 0 <= i < |questions| :: i == |questions| - 1 || questions[i] == front[i];
      if NextOrder(questions, lo).Some? {
        var k := NextOrder(questions, lo).value;
        if k == last.orderIndex {
          assert questions[|questions| - 1].orderIndex == k;
        } else {
          var i :| 0 <= i < |front| && front[i].orderIndex == k;
          assert questions[i].orderIndex == k;
        }
      }
    }
  }

  lemma NextOrderInOrder(questions: seq<QuestionRow>, lo: nat)
    requires forall i | 0 <= i < |questions| :: questions[i].orderIndex == i
    ensures NextOrder(questions, lo) == if lo < |questions| then Some(lo) else None
  {
    NextOrderMeaning(questions, lo);
    if lo < |questions| {
      assert questions[lo].orderIndex == lo;
    }
  }

  // ---------- start and move_to_next_question ----------

  lemma AnswersUnderLaterCursor(answers: seq<AnswerRow>, total: nat, cursor: nat, later: nat)
    requires AnswersOk(answers, total, cursor) && cursor <= later
    ensures AnswersOk(answers, total, later)
  {
  }

  lemma AccountsUnderNextCursor(answers: seq<AnswerRow>, followUps: seq<FollowUpRow>, cursor: nat)
    requires AccountsOk(answers, followUps, cursor)
    requires CountAnswers(answers, cursor) == CountFollowUps(followUps, cursor) + 1
    ensures AccountsOk(answers, followUps, cursor + 1)
    ensures CountAnswers(answers, cursor + 1) == CountFollowUps(followUps, cursor + 1) == 0
  {
  }

  /** Starting enters at the first question; nothing has been answered. */
  lemma StartKeepsInv(db: Db, actor: nat, now: nat)
    requires Inv(db)
    ensures Inv(Start(db, actor, now).db)
    ensures Start(db, actor, now).reply.Ok? ==>
              Start(db, actor, now).db.cursor == 0 && Start(db, actor, now).db.status == WaitingForAnswer
  {
    hide EachAcceptable, KeysOk, PointersOk, BudgetsOk;
    if actor == db.owner && db.status == Ready {
      NextOrderInOrder(db.questions, 0);
      var after := Start(db, actor, now).db;
      RoomLeft(db);
      PathSnoc(db.trail, InProgress);
      PathSnoc(db.trail + [InProgress], WaitingForAnswer);
      assert TrailOk(after);
      assert TablesOf(after) == TablesOf(db);
      assert CountAnswers(db.answers, 0) == 0;
    }
  }

  lemma TablesAtLaterCursor(t: Tables, later: nat)
    requires TablesOk(t) && t.cursor <= later
    requires AccountsOk(t.answers, t.followUps, later)
    ensures TablesOk(t.(cursor := later))
  {
    AnswersUnderLaterCursor(t.answers, |t.questions|, t.cursor, later);
  }

  lemma AdvanceCursorKeepsTables(db: Db)
    requires TablesOk(TablesOf(db)) && Due(db) == 1
    ensures TablesOk(TablesOf(db.(cursor := db.cursor + 1)))
  {
    AccountsUnderNextCursor(db.answers, db.followUps, db.cursor);
    TablesAtLaterCursor(TablesOf(db), db.cursor + 1);
    assert TablesOf(db.(cursor := db.cursor + 1)) == TablesOf(db).(cursor := db.cursor + 1);
  }

  lemma AdvanceCursorKeepsRest(db: Db, now: nat)
    requires CurrentOk(db) && PhaseOk(db) && ReportsOk(db)
    requires AccountsOk(db.answers, db.followUps, db.cursor)
    requires db.status == NextQuestion && db.cursor + 1 < |db.questions|
    ensures CurrentOk(Moved(db.(cursor := db.cursor + 1), WaitingForAnswer, now))
    ensures PhaseOk(Moved(db.(cursor := db.cursor + 1), WaitingForAnswer, now))
    ensures ReportsOk(Moved(db.(cursor := db.cursor + 1), WaitingForAnswer, now))
  {
    AccountsUnderNextCursor(db.answers, db.followUps, db.cursor);
  }

  lemma AdvanceCursorKeepsTrail(db: Db, now: nat)
    requires db.status == NextQuestion && TrailOk(db)
    ensures TrailOk(Moved(db.(cursor := db.cursor + 1), WaitingForAnswer, now))
  {
    PathSnoc(db.trail, WaitingForAnswer);
  }

  lemma AdvanceCursorKeepsInv(db: Db, now: nat)
    requires Inv(db) && db.status == NextQuestion && db.cursor + 1 < |db.questions|
    ensures Inv(Moved(db.(cursor := db.cursor + 1), WaitingForAnswer, now))
  {
    hide QuestionsOk, AnswersOk, KeysOk, PointersOk, EvaluationsOk, FollowUpsOk, BudgetsOk, AccountsOk, PhaseOk,
        ReportsOk, TrailOk;
    AdvanceCursorKeepsTables(db);
    assert TablesOf(Moved(db.(cursor := db.cursor + 1), WaitingForAnswer,
        now)) == TablesOf(db.(cursor := db.cursor + 1));
    AdvanceCursorKeepsRest(db, now);
    AdvanceCursorKeepsTrail(db, now);
  }

  /** From NEXT_QUESTION the cursor goes to the very next index, or the interview completes after the last one. */
  lemma MoveToNextResult(db: Db, now: nat)
    requires QuestionsOk(db.plan, db.questions) && db.status == NextQuestion
    ensures MoveToNext(db, now).db ==
              if db.cursor + 1 < |db.questions| then Moved(db.(cursor := db.cursor + 1), WaitingForAnswer, now)
              else Moved(db, Completed, now)
  {
    hide EachAcceptable;
    NextOrderInOrder(db.questions, db.cursor + 1);
  }

  lemma MoveToNextKeepsInv(db: Db, now: nat)
    requires Inv(db)
    ensures Inv(MoveToNext(db, now).db)
  {
    if db.status == FollowUpRequired {
      MoveKeepsInv(db, WaitingForAnswer, now);
    } else if db.status == NextQuestion {
      MoveToNextResult(db, now);
      if db.cursor + 1 < |db.questions| {
        AdvanceCursorKeepsInv(db, now);
      } else {
        MoveKeepsInv(db, Completed, now);
      }
    }
  }

  // ---------- plain moves ----------

  lemma PrepareKeepsInv(db: Db, actor: nat, now: nat)
    requires Inv(db)
    ensures Inv(BeginPreparation(db, actor, now).db)
  {
    if BeginPreparation(db, actor, now).reply.Ok? {
      MoveKeepsInv(db, Preparing, now);
    }
  }

  lemma FinishKeepsInv(db: Db, actor: nat, now: nat)
    requires Inv(db)
    ensures Inv(Finish(db, actor, now).db)
  {
    if Finish(db, actor, now).reply.Ok? {
      MoveKeepsInv(db, Completed, now);
    }
  }

  lemma FailKeepsInv(db: Db, actor: nat, now: nat)
    requires Inv(db)
    ensures Inv(Fail(db, actor, now).db)
  {
    if Fail(db, actor, now).reply.Ok? {
      MoveKeepsInv(db, Failed, now);
    }
  }

  /** The exception path of the generation task fails every interview that is not terminal. */
  lemma FailAfterErrorResult(db: Db, now: nat)
    ensures FailAfterError(db, now) == if IsTerminal(db.status) then db else Moved(db, Failed, now)
  {
    TerminalStatuses(db.status);
  }

  lemma FailAfterErrorKeepsInv(db: Db, now: nat)
    requires Inv(db)
    ensures Inv(FailAfterError(db, now))
  {
    FailAfterErrorResult(db, now);
    if !IsTerminal(db.status) {
      MoveKeepsInv(db, Failed, now);
    }
  }

  lemma ReadyKeepsInv(db: Db, now: nat)
    requires Inv(db)
    ensures Inv(ReadyOrFail(db, now).db)
  {
    if MarkReady(db, now).reply.Ok? {
      MoveKeepsInv(db, Ready, now);
    } else {
      FailAfterErrorKeepsInv(db, now);
    }
  }

  lemma BeginReportKeepsInv(db: Db, now: nat)
    requires Inv(db)
    ensures Inv(BeginReport(db, now).db)
  {
    if db.status == Completed {
      MoveKeepsInv(db, ReportGenerating, now);
    }
  }

  // ---------- question rows ----------

  lemma OutputsOfRows(outputs: seq<QuestionOutput>)
    ensures OutputsOf(RowsOf(outputs)) == outputs
  {
    assert forall i | 0 <= i < |outputs| :: OutputsOf(RowsOf(outputs))[i] == outputs[i];
  }

  /** A second generation always collides on the order index. */
  lemma SecondSetClashes(db: Db, outputs: seq<QuestionOutput>)
    requires QuestionsOk(db.plan, db.questions) && |outputs| == db.plan.total
    ensures OrderClash(db, RowsOf(outputs)) <==> db.questions != []
  {
    if db.questions != [] {
      assert db.questions[0].orderIndex == RowsOf(outputs)[0].orderIndex;
    }
  }

  lemma RowsAreOk(plan: Plan, outputs: seq<QuestionOutput>)
    requires MIN_QUESTIONS <= plan.total <= MAX_QUESTIONS
    requires |outputs| == plan.total && EachAcceptable(plan, outputs)
    ensures QuestionsOk(plan, RowsOf(outputs))
  {
    OutputsOfRows(outputs);
  }

  lemma FirstSetKeepsTables(t: Tables, questions: seq<QuestionRow>)
    requires TablesOk(t) && t.answers == []
    requires QuestionsOk(t.plan, questions)
    ensures TablesOk(t.(questions := questions))
  {
    assert t.evaluations == [] && t.followUps == [];
    assert forall q: nat :: CountFollowUps([], q) == 0;
  }

  lemma FirstSetKeepsRest(db: Db, questions: seq<QuestionRow>)
    requires CurrentOk(db) && PhaseOk(db) && ReportsOk(db) && TrailOk(db)
    requires db.questions == [] && questions != []
    ensures CurrentOk(db.(questions := questions)) && PhaseOk(db.(questions := questions))
    ensures ReportsOk(db.(questions := questions)) && TrailOk(db.(questions := questions))
  {
  }

  lemma FirstSetKeepsInv(db: Db, outputs: seq<QuestionOutput>)
    requires Inv(db) && db.questions == []
    requires |outputs| == db.plan.total && EachAcceptable(db.plan, outputs)
    ensures Inv(db.(questions := db.questions + RowsOf(outputs)))
  {
    RowsAreOk(db.plan, outputs);
    assert db.questions + RowsOf(outputs) == RowsOf(outputs);
    FirstSetKeepsTables(TablesOf(db), RowsOf(outputs));
    FirstSetKeepsRest(db, RowsOf(outputs));
  }

  /** The insertion succeeds on an empty set only; otherwise the exception path runs. */
  lemma InsertResult(db: Db, scripts: Scripts, now: nat)
    requires QuestionsOk(db.plan, db.questions)
    ensures var tx := InsertQuestions(db, scripts, now);
            if db.questions == [] && GenerateSet(db.plan, scripts).Ok? then
              && tx.reply.Ok?
              && tx.db == db.(questions := db.questions + RowsOf(GenerateSet(db.plan, scripts).value))
              && tx.db.questions != []
            else
              tx.reply.Err? && tx.db == FailAfterError(db, now)
  {
    if GenerateSet(db.plan, scripts).Ok? {
      GeneratedSetIsSound(db.plan, scripts);
      SecondSetClashes(db, GenerateSet(db.plan, scripts).value);
    }
  }

  lemma InsertKeepsInv(db: Db, scripts: Scripts, now: nat)
    requires Inv(db)
    ensures Inv(InsertQuestions(db, scripts, now).db)
  {
    InsertResult(db, scripts, now);
    if InsertQuestions(db, scripts, now).reply.Ok? {
      GeneratedSetIsSound(db.plan, scripts);
      FirstSetKeepsInv(db, GenerateSet(db.plan, scripts).value);
    } else {
      FailAfterErrorKeepsInv(db, now);
    }
  }

  // ---------- the report ----------

  lemma ReportIgnoresRowOrder(rows: seq<EvaluationRow>, stored: seq<EvaluationRow>)
    requires multiset(rows) == multiset(stored)
    ensures ReportOf(rows) == ReportOf(stored)
  {
    DimensionsArePermuted(rows, stored);
    ScoringProofs.ReportIgnoresOrder(DimensionsOf(rows), DimensionsOf(stored));
    assert |multiset(rows)| == |rows| && |multiset(stored)| == |stored|;
  }

  lemma {:induction false} DimensionsArePermuted(a: seq<EvaluationRow>, b: seq<EvaluationRow>)
    requires multiset(a) == multiset(b)
    ensures multiset(DimensionsOf(a)) == multiset(DimensionsOf(b))
    decreases |a|
  {
    assert |multiset(a)| == |a| && |multiset(b)| == |b|;
    if a != [] {
      var i := ScoringProofs.StrikeFirst(a, b);
      DimensionsArePermuted(a[1..], b[..i] + b[i + 1..]);
      assert DimensionsOf(a) == [a[0].dimensions] + DimensionsOf(a[1..]);
      assert DimensionsOf(b) == DimensionsOf(b[..i]) + [b[i].dimensions] + DimensionsOf(b[i + 1..]);
      assert DimensionsOf(b[..i] + b[i + 1..]) == DimensionsOf(b[..i]) + DimensionsOf(b[i + 1..]);
    }
  }

  lemma WriteReportKeepsRest(db: Db, report: ReportRow, now: nat)
    requires CurrentOk(db) && PhaseOk(db) && ReportsOk(db) && TrailOk(db)
    requires db.status == ReportGenerating && ReportOf(db.evaluations) == Ok(report)
    ensures var after := WriteReport(db, report, now).db;
            CurrentOk(after) && PhaseOk(after) && ReportsOk(after) && TrailOk(after)
  {
    PathSnoc(db.trail, ReportReady);
  }

  lemma WriteReportKeepsInv(db: Db, report: ReportRow, now: nat)
    requires Inv(db)
    requires db.status == ReportGenerating ==> ReportOf(db.evaluations) == Ok(report)
    ensures Inv(WriteReport(db, report, now).db)
  {
    if db.status == ReportGenerating {
      WriteReportKeepsRest(db, report, now);
      assert TablesOf(WriteReport(db, report, now).db) == TablesOf(db);
    }
  }
}
