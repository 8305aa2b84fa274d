/** An accepted submission keeps the invariant. */
module SubmissionProofs {
  import opened Wrappers
  import opened StateMachine
  import opened Text
  import opened TextProofs
  import opened InterviewDb
  import opened Counting
  import opened Invariant

  /** Under the invariant the largest attempt number of a question is its number of answers. */
  lemma {:induction false} MaxAttemptIsCount(answers: seq<AnswerRow>, question: nat)
    requires forall i | 0 <= i < |answers| :: AttemptOk(answers, i)
    ensures MaxAttempt(answers, question) == CountAnswers(answers, question)
  {
    if answers != [] {
      var front := answers[..|answers| - 1];
      forall i | 0 <= i < |front| ensures AttemptOk(front, i) {
        assert AttemptOk(answers, i);
        assert front[..i] == answers[..i];
      }
      MaxAttemptIsCount(front, question);
      assert AttemptOk(answers, |answers| - 1);
    }
  }

  lemma {:induction false} FindKeyMeaning(keys: seq<KeyRow>, key: string)
    ensures FindKey(keys, key).None? <==> forall i | 0 <= i < |keys| :: keys[i].key != key
    ensures FindKey(keys, key).Some? ==>
              exists i | 0 <= i < |keys| :: keys[i] == FindKey(keys, key).value && keys[i].key == key
  {
    if keys != [] && keys[0].key != key {
      FindKeyMeaning(keys[1..], key);
      if FindKey(keys, key).None? {
        forall i | 0 <= i < |keys| ensures keys[i].key != key {
          assert i > 0 ==> keys[i] == keys[1..][i - 1];
        }
      } else {
        var i :| 0 <= i < |keys[1..]| && keys[1..][i] == FindKey(keys, key).value && keys[1..][i].key == key;
        assert keys[i + 1] == keys[1..][i];
      }
    }
  }

  /** Keys are unique, so a lookup finds the row wherever it stands. */
  lemma FindKeyAt(keys: seq<KeyRow>, answers: seq<AnswerRow>, i: nat)
    requires KeysOk(keys, answers) && i < |keys|
    ensures FindKey(keys, keys[i].key) == Some(keys[i])
  {
    FindKeyMeaning(keys, keys[i].key);
    var r := FindKey(keys, keys[i].key);
    assert r.Some?;
    var j :| 0 <= j < |keys| && keys[j] == r.value && keys[j].key == keys[i].key;
    assert i == j;
  }

  lemma AnswersSnoc(answers: seq<AnswerRow>, total: nat, cursor: nat, row: AnswerRow)
    requires AnswersOk(answers, total, cursor)
    requires row.question == cursor < total
    requires row.attempt == MaxAttempt(answers, row.question) + 1
    requires 1 <= |row.text| <= 20000 && Strip(row.text) == row.text
    ensures AnswersOk(answers + [row], total, cursor)
  {
    var longer := answers + [row];
    MaxAttemptIsCount(answers, row.question);
    forall i | 0 <= i < |longer| ensures AttemptOk(longer, i) {
      if i < |answers| {
        assert AttemptOk(answers, i);
        assert longer[..i] == answers[..i];
      } else {
        assert longer[..i] == answers;
      }
    }
  }

  lemma KeysSnoc(keys: seq<KeyRow>, answers: seq<AnswerRow>, k: KeyRow, a: AnswerRow)
    requires KeysOk(keys, answers)
    requires FindKey(keys, k.key).None?
    requires KeyMatches(k, a, |answers|)
    ensures KeysOk(keys + [k], answers + [a])
  {
    FindKeyMeaning(keys, k.key);
    var longer := keys + [k];
    forall i | 0 <= i < |longer| ensures KeyMatches(longer[i], (answers + [a])[i], i) {
      assert i < |keys| ==> longer[i] == keys[i] && (answers + [a])[i] == answers[i];
    }
    forall i, j | 0 <= i < j < |longer| ensures longer[i].key != longer[j].key {
      assert longer[i] == keys[i];
      assert j < |keys| ==> longer[j] == keys[j];
    }
  }

  lemma PointersSnoc(current: map<nat, nat>, answers: seq<AnswerRow>, a: AnswerRow)
    requires PointersOk(current, answers)
    ensures PointersOk(current[a.question := |answers|], answers + [a])
  {
    var updated, longer := current[a.question := |answers|], answers + [a];
    forall q | q in updated ensures IsLatest(longer, q, updated[q]) {
      if q != a.question {
        assert IsLatest(answers, q, current[q]);
        assert forall j | current[q] < j < |answers| :: longer[j] == answers[j];
      }
    }
  }

  lemma FollowUpsUnderSnoc(followUps: seq<FollowUpRow>, evaluated: nat, answers: seq<AnswerRow>, a: AnswerRow)
    requires FollowUpsOk(followUps, evaluated, answers)
    ensures FollowUpsOk(followUps, evaluated, answers + [a])
  {
    forall k | 0 <= k < |followUps|
      ensures followUps[k].trigger < evaluated <= |answers + [a]|
      ensures followUps[k].parent == (answers + [a])[followUps[k].trigger].question
    {
      assert (answers + [a])[followUps[k].trigger] == answers[followUps[k].trigger];
    }
  }

  lemma AccountsSnoc(answers: seq<AnswerRow>, followUps: seq<FollowUpRow>, cursor: nat, a: AnswerRow)
    requires AccountsOk(answers, followUps, cursor) && a.question == cursor
    ensures AccountsOk(answers + [a], followUps, cursor)
    ensures CountAnswers(answers + [a], cursor) == CountAnswers(answers, cursor) + 1
  {
    forall q: nat ensures CountAnswers(answers + [a], q) == CountAnswers(answers, q) + if q == cursor then 1 else 0 {
      CountAnswersSnoc(answers, a, q);
    }
  }

  /** The conditions under which `submit_answer` stores a new answer. */
  predicate Acceptable(db: Db, s: Submission) {
    && AcceptsAnswers(db.status)
    && ProperSubmission(s)
    && s.question < |db.questions|
    && db.questions[s.question].orderIndex == db.cursor
    && FindKey(db.keys, Strip(s.key)).None?
  }

  lemma EvaluationsUnderSnoc(evaluations: seq<EvaluationRow>, answers: seq<AnswerRow>, a: AnswerRow)
    requires EvaluationsOk(evaluations, answers) && |evaluations| == |answers|
    ensures EvaluationsOk(evaluations, answers + [a])
  {
  }

  lemma TablesSnoc(t: Tables, a: AnswerRow, k: KeyRow)
    requires TablesOk(t)
    requires |t.evaluations| == |t.answers|
    requires a.question == t.cursor < |t.questions|
    requires a.attempt == MaxAttempt(t.answers, a.question) + 1
    requires 1 <= |a.text| <= 20000 && Strip(a.text) == a.text
    requires FindKey(t.keys, k.key).None? && KeyMatches(k, a, |t.answers|)
    ensures TablesOk(t.(answers := t.answers + [a], keys := t.keys + [k],
                        currentAnswer := t.currentAnswer[a.question := |t.answers|]))
  {
    AnswersSnoc(t.answers, |t.questions|, t.cursor, a);
    KeysSnoc(t.keys, t.answers, k, a);
    PointersSnoc(t.currentAnswer, t.answers, a);
    EvaluationsUnderSnoc(t.evaluations, t.answers, a);
    FollowUpsUnderSnoc(t.followUps, |t.evaluations|, t.answers, a);
    AccountsSnoc(t.answers, t.followUps, t.cursor, a);
  }

  lemma AcceptedKeepsTables(db: Db, s: Submission, now: nat)
    requires TablesOk(TablesOf(db)) && Acceptable(db, s) && s.question == db.cursor
    requires |db.evaluations| == |db.answers|
    ensures TablesOk(TablesOf(Accepted(db, s, now)))
  {
    hide AnswersOk, PointersOk, FollowUpsOk, BudgetsOk, AccountsOk, QuestionsOk;
    var after := Accepted(db, s, now);
    var a, k := after.answers[|db.answers|], after.keys[|db.keys|];
    StripIsIdempotent(s.text);
    assert |db.keys| == |db.answers|;
    TablesSnoc(TablesOf(db), a, k);
    assert after.answers == db.answers + [a] && after.keys == db.keys + [k];
  }

  lemma AcceptedKeepsRest(db: Db, s: Submission, now: nat)
    requires CurrentOk(db) && PhaseOk(db) && ReportsOk(db)
    requires AcceptsAnswers(db.status) && s.question == db.cursor
    requires |db.evaluations| <= |db.answers|
    ensures CurrentOk(Accepted(db, s, now))
    ensures PhaseOk(Accepted(db, s, now))
    ensures ReportsOk(Accepted(db, s, now))
  {
    var after := Accepted(db, s, now);
    CountAnswersSnoc(db.answers, after.answers[|db.answers|], db.cursor);
  }

  lemma AcceptedKeepsTrail(db: Db, s: Submission, now: nat)
    requires |db.answers| < Capacity(db.questions) && AcceptsAnswers(db.status) && TrailOk(db)
    ensures TrailOk(Accepted(db, s, now))
    ensures |Accepted(db, s, now).trail| + Measure(Accepted(db, s, now)) <= |db.trail| + Measure(db)
  {
    PathSnoc(db.trail, if db.status.FollowUpRequired? then WaitingForAnswer else Evaluating);
    if db.status.FollowUpRequired? {
      PathSnoc(db.trail + [WaitingForAnswer], Evaluating);
    }
  }

  lemma AcceptableFacts(db: Db, s: Submission)
    requires Inv(db) && Acceptable(db, s)
    ensures s.question == db.cursor && |db.evaluations| == |db.answers| < Capacity(db.questions)
  {
    hide AnswersOk, KeysOk, PointersOk, FollowUpsOk, BudgetsOk, AccountsOk, ReportsOk, TrailOk;
    RoomLeft(db);
  }

  lemma AcceptedKeepsInv(db: Db, s: Submission, now: nat)
    requires Inv(db) && Acceptable(db, s)
    ensures Inv(Accepted(db, s, now))
  {
    hide TablesOk, CurrentOk, PhaseOk, ReportsOk;
    AcceptableFacts(db, s);
    AcceptedKeepsTables(db, s, now);
    AcceptedKeepsRest(db, s, now);
    AcceptedKeepsTrail(db, s, now);
  }

  lemma SubmitKeepsInv(db: Db, actor: nat, s: Submission, now: nat)
    requires Inv(db)
    ensures Inv(Submit(db, actor, s, now).db)
  {
    hide Inv;
    if Submit(db, actor, s, now).db != db {
      AcceptedKeepsInv(db, s, now);
    }
  }
}
