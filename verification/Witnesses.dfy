/**
 One concrete interview, from creation to its report: one question that declares no follow-ups and gets
 one, two answers, and a worker that can die at NEXT_QUESTION. The theorems about such states are not vacuous.
 */
module Witnesses {
  import opened Wrappers
  import opened StateMachine
  import opened Schemas
  import opened Scoring
  import opened Text
  import opened TextProofs
  import opened QuestionGeneration
  import opened InterviewDb
  import opened Counting
  import opened Lifecycle
  import opened EvaluationProofs
  import opened Preservation
  import opened Runs
  import FollowUps

  predicate IsNumeral(s: string) {
    forall i | 0 <= i < |s| :: '0' <= s[i] <= '9'
  }

  /** A text of ten equal digits, long enough for a question and for a key. */
  function Numeral(digit: char): (s: string)
    requires '0' <= digit <= '9'
    ensures |s| == 10 && s[0] == digit && IsNumeral(s)
  {
    seq(10, _ => digit)
  }

  const DIGITS := Numeral('0')
  const OTHER_KEY := Numeral('1')

  const QUESTION: QuestionOutput := QuestionFields(DIGITS, Technical, "00", "00", Easy, ["0"], DIGITS, true, 0)

  const EVALUATION: EvaluationOutput :=
    EvaluationFields(Dimensions(TechnicalScores(5, 5, 5, 5), CommunicationScores(5, 5, 5)), [], [])

  const FOLLOW_UP: FollowUpOutput := FollowUpFields(true, "0", DIGITS, "0", Easy)

  const PLAN := Plan(DIGITS, None, Mixed, Easy, 1, [], 1)

  const FIRST := Submission(0, DIGITS, DIGITS, None)
  const SECOND := Submission(0, DIGITS, OTHER_KEY, None)

  const EVALUATIONS := [EvaluationRowOf(0, EVALUATION), EvaluationRowOf(1, EVALUATION)]

  function EventAt(k: nat): Event {
    match k
    case 0 => Event(0, CallPrepare(0))
    case 1 => Event(1, DeliverGeneration(0, [[Returned(QUESTION)]]))
    case 2 => Event(2, Continue(0, [], true))
    case 3 => Event(3, CallStart(0))
    case 4 => Event(4, CallSubmit(0, FIRST))
    case 5 => Event(5, DeliverEvaluation(1, 0, 0, [Returned(EVALUATION)], [Returned(FOLLOW_UP)]))
    case 6 => Event(6, CallSubmit(0, SECOND))
    case 7 => Event(7, DeliverEvaluation(2, 0, 1, [Returned(EVALUATION)], []))
    case 8 => Event(8, Continue(2, [], true))
    case 9 => Event(9, DeliverReport(3))
    case 10 => Event(10, Continue(3, EVALUATIONS, true))
    case _ => Event(11, Continue(3, [], true))
  }

  function Schedule(k: nat): seq<Event> {
    if k == 0 then [] else Schedule(k - 1) + [EventAt(k - 1)]
  }

  /** The world after the first `k` events. */
  function At(k: nat): World {
    Run(Initial(0, PLAN), Schedule(k))
  }

  lemma AtIsReachable(k: nat)
    ensures Reachable(At(k))
  {
    assert ReachedBy(At(k), 0, PLAN, Schedule(k));
  }

  lemma AtNext(k: nat)
    ensures At(k + 1) == Step(At(k), EventAt(k))
  {
    hide Step, EventAt;
    RunOfConcatenation(Initial(0, PLAN), Schedule(k), [EventAt(k)]);
    assert Run(At(k), [EventAt(k)]) == Run(Step(At(k), EventAt(k)), []);
  }

  // ---------- plain texts ----------

  lemma NumeralText(s: string)
    requires IsNumeral(s)
    ensures Strip(s) == s && Lower(s) == s
  {
    LowerShape(s);
  }

  lemma NumeralLacks(s: string, needle: string)
    requires IsNumeral(s) && needle != "" && !('0' <= needle[0] <= '9')
    ensures !Contains(s, needle)
  {
    forall i | 0 <= i <= |s| - |needle| ensures !OccursAt(s, needle, i) {
      assert s[i..i + |needle|][0] == s[i];
    }
  }

  lemma NumeralIsNotProhibited(text: string)
    requires IsNumeral(text)
    ensures !MentionsProhibited(text) && !EmbedsAnswer(text)
  {
    hide Contains;
    NumeralLacks(text, "?");
    forall p | p in PROHIBITED ensures p != "" && !('0' <= p[0] <= '9') {
      assert p in {PROHIBITED[0], PROHIBITED[1], PROHIBITED[2], PROHIBITED[3]};
    }
    forall p | p in PROHIBITED ensures !Contains(text, p) {
      NumeralLacks(text, p);
    }
  }

  lemma QuestionIsAcceptable()
    ensures Acceptable(QUESTION, RequestFor(PLAN, []))
  {
    hide Contains, Strip, Lower, Normalize, MentionsProhibited, EmbedsAnswer, Numeral;
    NumeralText(DIGITS);
    NumeralIsNotProhibited(DIGITS);
  }

  lemma QuestionIsGenerated()
    ensures GenerateSet(PLAN, [[Returned(QUESTION)]]) == Ok([QUESTION])
  {
    QuestionIsAcceptable();
    var req := RequestFor(PLAN, []);
    assert TextsOf([]) == [];
    assert JudgeAll([Returned(QUESTION)], req) == [Returned(QUESTION)];
    assert Generate(req, [Returned(QUESTION)], [], 1) == Ok(Generated(QUESTION, FromProvider, 1));
    assert GenerateFrom(PLAN, [[Returned(QUESTION)]], []) == GenerateFrom(PLAN, [[Returned(QUESTION)]],
        [] + [QUESTION]);
    assert [] + [QUESTION] == [QUESTION];
  }

  lemma NumeralIsNoFiller(reason: string)
    requires IsNumeral(reason)
    ensures !FollowUps.IsFiller(reason)
  {
    hide Contains;
    NumeralText(reason);
    NumeralLacks(reason, FollowUps.FILLER[0]);
    NumeralLacks(reason, FollowUps.FILLER[1]);
  }

  lemma FollowUpHasNoObjection(req: FollowUps.FollowUpRequest)
    requires IsNumeral(req.answerText) && |req.answerText| < 40 && req.prior == []
    ensures FollowUps.Objection(FOLLOW_UP, req).None?
  {
    hide Contains, Normalize, FollowUps.IsFiller;
    NumeralIsNoFiller(FOLLOW_UP.reason);
    NumeralText(req.answerText);
  }

  // ---------- state by state ----------

  /** What the interview looks like from READY to the end, history and times apart. */
  predicate Shows(w: World, status: Status, answers: seq<AnswerRow>, keys: seq<KeyRow>,
                  evaluations: seq<EvaluationRow>, followUps: seq<FollowUpRow>) {
    && w.db.owner == 0 && w.db.plan == PLAN && w.db.cursor == 0 && w.db.reports == []
    && w.db.questions == [QuestionRow(0, QUESTION)]
    && w.db.status == status
    && w.db.answers == answers && w.db.keys == keys
    && w.db.currentAnswer == (if answers == [] then map[] else map[0 := |answers| - 1])
    && w.db.evaluations == evaluations && w.db.followUps == followUps
  }

  const ANSWERS := [AnswerRow(0, 1, DIGITS, None), AnswerRow(0, 2, DIGITS, None)]
  const KEYS := [KeyRow(DIGITS, 0, 0, SubmissionHash(FIRST)), KeyRow(OTHER_KEY, 0, 1, SubmissionHash(SECOND))]
  const FOLLOW_UPS := [FollowUpRow(0, 0, DIGITS)]

  lemma BecomesReady()
    ensures Shows(At(3), Ready, [], [], [], []) && At(3).tasks == map[]
  {
    AtNext(0);
    AtNext(1);
    AtNext(2);
    QuestionIsGenerated();
    assert RowsOf([QUESTION]) == [QuestionRow(0, QUESTION)];
    assert At(0) == Initial(0, PLAN);
    assert At(1).db.questions + RowsOf([QUESTION]) == [QuestionRow(0, QUESTION)];
    assert At(2).tasks == map[0 := Inserted];
  }

  lemma StartStep(w: World, now: nat)
    requires w.db.owner == 0 && w.db.status == Ready && w.db.questions == [QuestionRow(0, QUESTION)]
    ensures var db := Moved(Moved(w.db, InProgress, now).(cursor := 0), WaitingForAnswer, now);
            Step(w, Event(now, CallStart(0))) == w.(db := db)
  {
    hide Numeral;
    NextOrderInOrder(w.db.questions, 0);
  }

  lemma Starts()
    ensures Shows(At(4), WaitingForAnswer, [], [], [], []) && At(4).tasks == map[]
  {
    hide Run, At, Step, Numeral;
    BecomesReady();
    AtNext(3);
    StartStep(At(3), 3);
  }

  /** A submission whose text and key need no stripping. */
  predicate IsPlain(s: Submission) {
    && s.question == 0 && s.timeTaken.None?
    && Strip(s.text) == s.text && 1 <= |s.text| <= 20000
    && Strip(s.key) == s.key && 8 <= |s.key| <= 128
  }

  lemma SubmitStep(w: World, s: Submission, now: nat)
    requires w.db.owner == 0 && w.db.questions == [QuestionRow(0, QUESTION)] && w.db.cursor == 0
    requires AcceptsAnswers(w.db.status) && IsPlain(s) && FindKey(w.db.keys, s.key).None?
    ensures Step(w, Event(now, CallSubmit(0, s))) == w.(db := Accepted(w.db, s, now))
  {
    hide Strip, FindKey, Accepted;
  }

  lemma SubmissionsArePlain()
    ensures IsPlain(FIRST) && IsPlain(SECOND)
  {
    hide Strip, Lower, Numeral;
    NumeralText(DIGITS);
    NumeralText(OTHER_KEY);
  }

  lemma IsAnswered()
    ensures Shows(At(5), Evaluating, ANSWERS[..1], KEYS[..1], [], []) && At(5).tasks == map[]
  {
    hide Step, Run, At, Strip, SubmissionHash, Numeral;
    Starts();
    AtNext(4);
    SubmissionsArePlain();
    SubmitStep(At(4), FIRST, 4);
  }

  /** An evaluation whose first replies are good and whose decision is `f`. */
  lemma EvaluationStep(w: World, task: nat, answer: nat, followReplies: seq<Call<FollowUpOutput>>,
      f: FollowUpOutput, now: nat)
    requires task !in w.tasks && PassesGuards(w.db, 0, answer)
    requires Strip(w.db.answers[answer].text) != ""
    requires FollowUps.Decision(FollowUpRequestFor(w.db, 0, answer, EVALUATION), followReplies,
        w.db.plan.maxRetries) == Ok(f)
    ensures var db := Evaluated(w.db, 0, answer, EVALUATION, f, now);
            Step(w, Event(now, DeliverEvaluation(task, 0, answer, [Returned(EVALUATION)], followReplies)))
            == World(db, if db.status == NextQuestion then w.tasks[task := Judged] else w.tasks)
  {
    hide FollowUps.Decision, FollowUpRequestFor, Strip, Numeral, HasFollowUp, EvaluationRowOf;
    assert CallAt([Returned(EVALUATION)], 0) == Returned(EVALUATION);
    assert EvaluationOf(w.db.answers[answer].text, [Returned(EVALUATION)], w.db.plan.maxRetries) == Ok(EVALUATION);
  }

  lemma FollowUpIsDecided(req: FollowUps.FollowUpRequest)
    requires IsNumeral(req.answerText) && |req.answerText| < 40 && req.prior == [] && req.maxFollowUps == 1
    ensures FollowUps.Decision(req, [Returned(FOLLOW_UP)], 1) == Ok(FOLLOW_UP)
  {
    hide FollowUps.Objection, Numeral;
    FollowUpHasNoObjection(req);
    assert FollowUps.JudgeAll([Returned(FOLLOW_UP)], req) == [Returned(FOLLOW_UP)];
  }

  lemma GetsAFollowUp()
    ensures Shows(At(6), FollowUpRequired, ANSWERS[..1], KEYS[..1], EVALUATIONS[..1],
        FOLLOW_UPS) && At(6).tasks == map[]
  {
    hide Step, Run, At, Strip, SubmissionHash, Numeral, FollowUps.Decision, EvaluationRowOf;
    IsAnswered();
    AtNext(5);
    NumeralText(DIGITS);
    FollowUpIsDecided(FollowUpRequestFor(At(5).db, 0, 0, EVALUATION));
    EvaluationStep(At(5), 1, 0, [Returned(FOLLOW_UP)], FOLLOW_UP, 5);
  }

  lemma IsAnsweredAgain()
    ensures Shows(At(7), Evaluating, ANSWERS, KEYS, EVALUATIONS[..1], FOLLOW_UPS) && At(7).tasks == map[]
  {
    hide Step, Run, At, Strip, SubmissionHash, Numeral, EvaluationRowOf;
    GetsAFollowUp();
    AtNext(6);
    SubmissionsArePlain();
    assert KEYS[..1][1..] == [] && DIGITS[0] != OTHER_KEY[0];
    SubmitStep(At(6), SECOND, 6);
    assert ANSWERS[..1][..0] == [];
    assert MaxAttempt(ANSWERS[..1], 0) == 1;
  }

  /** The one follow-up spends the budget, and the decision closes the question. */
  lemma SpentBudgetCloses(req: FollowUps.FollowUpRequest) returns (f: FollowUpOutput)
    requires |req.prior| == 1 == req.maxFollowUps
    requires req.missingConcepts + req.incorrectConcepts == []
    ensures FollowUps.Decision(req, [], 1) == Ok(f) && !f.followUpRequired
  {
    hide FollowUps.Exhausted;
    FollowUps.SpentBudgetFailsIff(req, [], 1);
    f := FollowUps.Decision(req, [], 1).value;
  }

  lemma SecondAnswerPasses(w: World)
    requires Shows(w, Evaluating, ANSWERS, KEYS, EVALUATIONS[..1], FOLLOW_UPS)
    ensures PassesGuards(w.db, 0, 1)
  {
    hide SubmissionHash, Numeral, TechnicalOverall, CommunicationOverall;
  }

  lemma SecondDecision(w: World) returns (f: FollowUpOutput)
    requires Shows(w, Evaluating, ANSWERS, KEYS, EVALUATIONS[..1], FOLLOW_UPS)
    ensures FollowUps.Decision(FollowUpRequestFor(w.db, 0, 1, EVALUATION), [], 1) == Ok(f) && !f.followUpRequired
  {
    hide SubmissionHash, Numeral, EvaluationRowOf, FollowUps.Decision;
    assert FOLLOW_UPS[..0] == [] && FollowUpTexts([], 0) == [];
    assert FollowUpTexts(FOLLOW_UPS, 0) == [DIGITS];
    f := SpentBudgetCloses(FollowUpRequestFor(w.db, 0, 1, EVALUATION));
  }

  lemma SecondEvaluationShows(w: World, f: FollowUpOutput, now: nat)
    requires Shows(w, Evaluating, ANSWERS, KEYS, EVALUATIONS[..1], FOLLOW_UPS) && !f.followUpRequired
    ensures forall tasks ::
              Shows(World(Evaluated(w.db, 0, 1, EVALUATION, f, now), tasks), NextQuestion, ANSWERS, KEYS,
                  EVALUATIONS, FOLLOW_UPS)
  {
    hide SubmissionHash, Numeral, EvaluationRowOf;
    assert EVALUATIONS == EVALUATIONS[..1] + [EVALUATIONS[1]];
    assert FOLLOW_UPS + [] == FOLLOW_UPS;
  }

  lemma SecondEvaluation(w: World)
    requires Shows(w, Evaluating, ANSWERS, KEYS, EVALUATIONS[..1], FOLLOW_UPS) && w.tasks == map[]
    requires Strip(DIGITS) == DIGITS
    ensures var after := Step(w, EventAt(7));
            Shows(after, NextQuestion, ANSWERS, KEYS, EVALUATIONS, FOLLOW_UPS) && after.tasks == map[2 := Judged]
  {
    hide Step, Strip, SubmissionHash, Numeral, FollowUps.Decision, EvaluationRowOf, PassesGuards, FollowUpRequestFor,
        HasFollowUp;
    SecondAnswerPasses(w);
    var f := SecondDecision(w);
    EvaluationStep(w, 2, 1, [], f, 7);
    SecondEvaluationShows(w, f, 7);
    var db := Evaluated(w.db, 0, 1, EVALUATION, f, 7);
    assert Shows(World(db, map[2 := Judged]), NextQuestion, ANSWERS, KEYS, EVALUATIONS, FOLLOW_UPS);
  }

  lemma IsEvaluatedAgain()
    ensures Shows(At(8), NextQuestion, ANSWERS, KEYS, EVALUATIONS, FOLLOW_UPS) && At(8).tasks == map[2 := Judged]
  {
    hide Shows, Step, EventAt, Run, At, Numeral;
    IsAnsweredAgain();
    AtNext(7);
    NumeralText(DIGITS);
    SecondEvaluation(At(7));
  }

  lemma Completes()
    ensures Shows(At(9), Completed, ANSWERS, KEYS, EVALUATIONS, FOLLOW_UPS) && At(9).tasks == map[]
  {
    hide Run, At, SubmissionHash, Numeral, EvaluationRowOf;
    IsEvaluatedAgain();
    AtNext(8);
    NextOrderInOrder(At(8).db.questions, 1);
  }

  lemma ReportStep(w: World, task: nat, now: nat)
    requires w.db.status == Completed && w.db.reports == [] && task !in w.tasks
    ensures Step(w, Event(now, DeliverReport(task))) == World(Moved(w.db, ReportGenerating, now),
        w.tasks[task := Reporting])
  {
  }

  lemma BeginsItsReport()
    ensures Shows(At(10), ReportGenerating, ANSWERS, KEYS, EVALUATIONS,
        FOLLOW_UPS) && At(10).tasks == map[3 := Reporting]
  {
    hide Run, At, Step, SubmissionHash, Numeral, EvaluationRowOf;
    Completes();
    AtNext(9);
    ReportStep(At(9), 3, 9);
  }

  lemma EvaluationsScore()
    ensures ReportOf(EVALUATIONS).Ok?
  {
    assert |DimensionsOf(EVALUATIONS)| == 2;
  }

  lemma ScoringStep(w: World, task: nat, rows: seq<EvaluationRow>, now: nat)
    requires task in w.tasks && w.tasks[task].Reporting? && w.db.evaluations == rows && ReportOf(rows).Ok?
    ensures Step(w, Event(now, Continue(task, rows, true)))
            == w.(tasks := w.tasks[task := Scored(ReportOf(rows).value)])
  {
    hide ReportOf;
  }

  lemma WritingStep(w: World, task: nat, now: nat)
    requires task in w.tasks && w.tasks[task].Scored? && w.db.status == ReportGenerating && w.db.reports == []
    ensures var after := Step(w, Event(now, Continue(task, [],
        true))).db; after.status == ReportReady && |after.reports| == 1
  {
  }

  lemma GetsItsReport()
    ensures At(12).db.status == ReportReady && |At(12).db.reports| == 1
  {
    hide Run, At, Step, SubmissionHash, Numeral, EvaluationRowOf, ReportOf;
    BeginsItsReport();
    EvaluationsScore();
    AtNext(10);
    AtNext(11);
    ScoringStep(At(10), 3, EVALUATIONS, 10);
    WritingStep(At(11), 3, 11);
  }

  // ---------- the witnesses ----------

  /** An evaluation under way for a question that allows follow-ups and declares none: it gets one. */
  lemma OverTheDeclaredLimit()
    ensures Reachable(At(5)) && PassesGuards(At(5).db, 0, 0)
    ensures var q := At(5).db.questions[0].output; q.followUpAllowed && q.maxFollowUps == 0
    ensures At(6) == Step(At(5), EventAt(5)) && CountFollowUps(At(6).db.followUps, 0) == 1
  {
    AtIsReachable(5);
    AtNext(5);
    IsAnswered();
    GetsAFollowUp();
    assert FOLLOW_UPS[..0] == [];
  }

  /** A worker between its two commits, on which alone the interview depends, and the world after it has died. */
  lemma BetweenTheCommits()
    ensures Reachable(At(8)) && At(8).db.status == NextQuestion
    ensures 2 in At(8).tasks && At(8).tasks[2].Judged?
    ensures At(8).db.questions != [] && !IsTerminal(At(8).db.status)
    ensures var dead := Step(At(8), Event(8, Crash(2)));
            Reachable(dead) && dead.db == At(8).db && dead.tasks == map[]
  {
    hide Run, At, Reachable, SubmissionHash, Numeral, EvaluationRowOf;
    AtIsReachable(8);
    StepIsReachable(At(8), Event(8, Crash(2)));
    IsEvaluatedAgain();
    TerminalStatuses(NextQuestion);
  }

  /** The interview that completes by itself and gets its report. */
  lemma EndsInAReport()
    ensures Reachable(At(9)) && At(9).db.status == Completed
    ensures Reachable(At(10)) && At(10).db.status == ReportGenerating && 3 in At(10).tasks && At(10).tasks[3].Reporting?
    ensures Reachable(At(12)) && At(12).db.status == ReportReady && |At(12).db.reports| == 1
  {
    AtIsReachable(9);
    AtIsReachable(10);
    AtIsReachable(12);
    hide Run, At, Step, EvaluationRowOf;
    Completes();
    BeginsItsReport();
    GetsItsReport();
  }
}
