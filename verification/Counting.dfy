/** Counting answers and follow-ups by question. */
module Counting {
  import opened InterviewDb

  function CountAnswers(answers: seq<AnswerRow>, question: nat): nat {
    if answers == [] then 0
    else
      CountAnswers(answers[..|answers| - 1], question) + (if answers[|answers| - 1].question == question then 1 else 0)
  }

  function CountFollowUps(followUps: seq<FollowUpRow>, question: nat): nat {
    if followUps == [] then 0
    else
      var last := |followUps| - 1;
      CountFollowUps(followUps[..last], question) + (if followUps[last].parent == question then 1 else 0)
  }

  /** A question's effective follow-up budget: none if not allowed, and never less than one otherwise. */
  function Budget(q: QuestionRow): nat {
    if q.output.followUpAllowed then FollowUpLimit(q.output) else 0
  }

  /** The number of answers an interview can take at all. */
  function Capacity(questions: seq<QuestionRow>): nat {
    if questions == [] then 0
    else Capacity(questions[..|questions| - 1]) + 1 + Budget(questions[|questions| - 1])
  }

  lemma CountAnswersSnoc(answers: seq<AnswerRow>, row: AnswerRow, question: nat)
    ensures CountAnswers(answers + [row], question) == CountAnswers(answers,
        question) + if row.question == question then 1 else 0
  {
    assert (answers + [row])[..|answers|] == answers;
  }

  lemma CountFollowUpsSnoc(followUps: seq<FollowUpRow>, row: FollowUpRow, question: nat)
    ensures CountFollowUps(followUps + [row], question)
         == CountFollowUps(followUps, question) + if row.parent == question then 1 else 0
  {
    assert (followUps + [row])[..|followUps|] == followUps;
  }

  lemma {:induction false} CountIsZeroIff(answers: seq<AnswerRow>, question: nat)
    ensures CountAnswers(answers, question) == 0 <==> forall i | 0 <= i < |answers| :: answers[i].question != question
  {
    if answers != [] {
      CountIsZeroIff(answers[..|answers| - 1], question);
    }
  }

  /** The texts a follow-up decision sees are exactly those of the question's follow-ups. */
  lemma {:induction false} FollowUpTextsFacts(followUps: seq<FollowUpRow>, question: nat)
    ensures |FollowUpTexts(followUps, question)| == CountFollowUps(followUps, question)
    ensures forall i | 0 <= i < |followUps| && followUps[i].parent == question ::
              followUps[i].text in FollowUpTexts(followUps, question)
  {
    if followUps != [] {
      FollowUpTextsFacts(followUps[..|followUps| - 1], question);
    }
  }

  // ---------- double counting ----------

  /** The answers to the first `n` questions, question by question. */
  function SumCounts(answers: seq<AnswerRow>, n: nat): nat {
    if n == 0 then 0 else SumCounts(answers, n - 1) + CountAnswers(answers, n - 1)
  }

  lemma {:induction false} SumCountsSnoc(answers: seq<AnswerRow>, row: AnswerRow, n: nat)
    ensures SumCounts(answers + [row], n) == SumCounts(answers, n) + if row.question < n then 1 else 0
  {
    if n > 0 {
      SumCountsSnoc(answers, row, n - 1);
      CountAnswersSnoc(answers, row, n - 1);
    }
  }

  lemma {:induction false} SumCountsOfNone(n: nat)
    ensures SumCounts([], n) == 0
  {
    if n > 0 {
      SumCountsOfNone(n - 1);
    }
  }

  /** Summing the counts over all questions counts every answer once. */
  lemma {:induction false} SumCountsIsLength(answers: seq<AnswerRow>, n: nat)
    requires forall i | 0 <= i < |answers| :: answers[i].question < n
    ensures SumCounts(answers, n) == |answers|
  {
    if answers == [] {
      SumCountsOfNone(n);
    } else {
      var front := answers[..|answers| - 1];
      SumCountsIsLength(front, n);
      SumCountsSnoc(front, answers[|answers| - 1], n);
      assert answers == front + [answers[|answers| - 1]];
    }
  }
}
