/** Question generation against an arbitrary provider, with validation and bank fallback. */
module QuestionGeneration {
  import opened Wrappers
  import opened Schemas
  import opened Text
  import opened TextProofs
  import opened Retry
  import opened QuestionBank

  const PROHIBITED: seq<string> := ["ignore previous instructions", "system prompt", "api key", "reveal"]
  const MAX_Q_LEN := 2000

  /** What one interview asks of the generator: its row, the bank and the retry setting. */
  datatype Plan = Plan(
    role: string,
    language: Option<string>,
    interviewType: InterviewType,
    difficulty: Difficulty,
    total: nat,
    bank: seq<QuestionOutput>,
    maxRetries: int
  )

  function RequestFor(plan: Plan, asked: seq<string>): QuestionRequest {
    QuestionRequest(plan.role, plan.language, plan.interviewType, plan.difficulty, asked)
  }

  // ---------- validate_question ----------

  predicate MentionsProhibited(lowered: string) {
    exists p | p in PROHIBITED :: Contains(lowered, p)
  }

  /** A candidate in normal form repeats an asked question, or is a long part of one. */
  predicate Repeats(norm: string, asked: string) {
    norm == Normalize(asked) || (|norm| > 40 && Contains(Normalize(asked), norm))
  }

  predicate RepeatsAny(norm: string, asked: seq<string>) {
    exists i | 0 <= i < |asked| :: Repeats(norm, asked[i])
  }

  predicate EmbedsAnswer(text: string) {
    Contains(text, "?") && Contains(text, "=") && Contains(Lower(text), "answer is")
  }

  predicate IgnoresLanguage(c: QuestionOutput, req: QuestionRequest) {
    && NamesLanguage(req.language)
    && c.questionType.Technical?
    && var profile := Lower(c.skill) + " " + Lower(Strip(c.questionText)) + " " + Lower(c.category);
       !Contains(profile, Lower(req.language.value))
  }

  /** The first complaint of `validate_question`, if it has any. */
  function Complaint(c: QuestionOutput, req: QuestionRequest): Option<Rejection> {
    var text := Strip(c.questionText);
    if |text| < 10 || |text| > MAX_Q_LEN then Some(BadLength)
    else if c.difficulty != req.difficulty then Some(DifficultyMismatch)
    else if !FitsType(c.questionType, req.interviewType) then Some(TypeMismatch)
    else if c.expectedConcepts == [] || Strip(c.evaluationRubric) == "" then Some(MissingConcepts)
    else if MentionsProhibited(Lower(text)) then Some(ProhibitedContent)
    else if EmbedsAnswer(text) then Some(EmbeddedAnswer)
    else if RepeatsAny(Normalize(text), req.asked) then Some(DuplicateQuestion)
    else if IgnoresLanguage(c, req) then Some(LanguageIrrelevant)
    else None
  }

  predicate Acceptable(c: QuestionOutput, req: QuestionRequest) {
    Complaint(c, req).None?
  }

  method ValidateQuestion(c: QuestionOutput, req: QuestionRequest) returns (complaint: Option<Rejection>)
    ensures complaint == Complaint(c, req)
  {
    var text := Strip(c.questionText);
    if |text| < 10 || |text| > MAX_Q_LEN { return Some(BadLength); }
    if c.difficulty != req.difficulty { return Some(DifficultyMismatch); }
    if !FitsType(c.questionType, req.interviewType) { return Some(TypeMismatch); }
    if c.expectedConcepts == [] || Strip(c.evaluationRubric) == "" { return Some(MissingConcepts); }
    var lowered := Lower(text);
    if MentionsProhibited(lowered) { return Some(ProhibitedContent); }
    if Contains(text, "?") && Contains(text, "=") && Contains(lowered, "answer is") { return Some(EmbeddedAnswer); }
    var norm := Normalize(text);
    var k := 0;
    while k < |req.asked|
      invariant k <= |req.asked|
      invariant forall i | 0 <= i < k :: !Repeats(norm, req.asked[i])
    {
      if Repeats(norm, req.asked[k]) { return Some(DuplicateQuestion); }
      k := k + 1;
    }
    if NamesLanguage(req.language) && c.questionType.Technical? {
      if !Contains(Lower(c.skill) + " " + Lower(text) + " " + Lower(c.category), Lower(req.language.value)) {
        return Some(LanguageIrrelevant);
      }
    }
    return None;
  }

  /** An accepted question is new up to whitespace and letter case, and fits the request. */
  lemma AcceptedQuestionIsFresh(c: QuestionOutput, req: QuestionRequest, i: nat)
    requires Acceptable(c, req) && i < |req.asked|
    ensures Normalize(c.questionText) != Normalize(req.asked[i])
    ensures LowerAll(Words(c.questionText)) != LowerAll(Words(req.asked[i]))
    ensures c.difficulty == req.difficulty && FitsType(c.questionType, req.interviewType)
  {
    NormalizeIgnoresStrip(c.questionText);
    SameNormalFormIffSameWords(c.questionText, req.asked[i]);
    assert !Repeats(Normalize(Strip(c.questionText)), req.asked[i]);
  }

  // ---------- generate ----------

  /** The provider call with its validation, as the retry loop sees it. */
  function Judge(reply: Call<QuestionOutput>, req: QuestionRequest): Call<QuestionOutput> {
    match reply
    case Raised(e) => Raised(e)
    case Returned(q) =>
      match Complaint(q, req)
      case None => Returned(q)
      case Some(reason) => Raised(QuestionRejected(reason))
  }

  function JudgeAll(replies: seq<Call<QuestionOutput>>, req: QuestionRequest): seq<Call<QuestionOutput>> {
    seq(|replies|, i requires 0 <= i < |replies| => Judge(replies[i], req))
  }

  datatype Source = FromProvider | FromBank

  datatype Generated = Generated(output: QuestionOutput, source: Source, attempts: int)

  function Generate(req: QuestionRequest, replies: seq<Call<QuestionOutput>>, bank: seq<QuestionOutput>,
      maxRetries: int)
    : Result<Generated, AIError>
  {
    var tried := Retrying(JudgeAll(replies, req), maxRetries);
    match tried.outcome
    case Ok(q) => Ok(Generated(q, FromProvider, tried.made))
    case Err(_) =>
      match FirstEligible(bank, req)
      case None => Err(FallbackExhausted)
      case Some(q) =>
        match Complaint(q, req)
        case Some(reason) => Err(QuestionRejected(reason))
        case None => Ok(Generated(q, FromBank, maxRetries))
  }

  /** `QuestionGenerationService.generate`, which also reports how often it called the provider. */
  method GenerateOne(req: QuestionRequest, replies: seq<Call<QuestionOutput>>, bank: Bank, maxRetries: int)
    returns (r: Result<Generated, AIError>, calls: nat)
    ensures r == Generate(req, replies, bank.entries, maxRetries)
    ensures calls <= Attempts(maxRetries)
  {
    var judged := JudgeAll(replies, req);
    var outcome, made := RunWithRetries(judged, maxRetries);
    calls := made;
    match outcome {
      case Ok(q) =>
        r := Ok(Generated(q, FromProvider, made));
      case Err(_) =>
        var fallback := bank.FindOne(req);
        if fallback.None? {
          r := Err(FallbackExhausted);
        } else {
          var complaint := ValidateQuestion(fallback.value, req);
          r := if complaint.Some? then Err(QuestionRejected(complaint.value))
               else Ok(Generated(fallback.value, FromBank, maxRetries));
        }
    }
  }

  /**
   Whatever the provider does: a generated question passes validation, and comes
   either from one of the permitted calls or from the bank.
   */
  lemma GeneratedQuestionIsAcceptable(
      req: QuestionRequest, replies: seq<Call<QuestionOutput>>, bank: seq<QuestionOutput>, maxRetries: int)
    requires Generate(req, replies, bank, maxRetries).Ok?
    ensures var g := Generate(req, replies, bank, maxRetries).value;
            && Acceptable(g.output, req)
            && (g.source.FromProvider? ==>
                  1 <= g.attempts <= Attempts(maxRetries) && CallAt(replies, g.attempts - 1) == Returned(g.output))
            && (g.source.FromBank? ==> g.output in bank && Eligible(g.output, req))
  {
    RetryMeaning(JudgeAll(replies, req), maxRetries);
    FirstEligibleIsFirst(bank, req);
  }

  /**
   Generation fails exactly when no permitted call yields an acceptable question
   before a call fails otherwise, and the bank's first candidate is missing or unacceptable.
   */
  lemma GenerationFailsIff(
      req: QuestionRequest, replies: seq<Call<QuestionOutput>>, bank: seq<QuestionOutput>, maxRetries: int)
    ensures Generate(req, replies, bank, maxRetries).Err? <==>
              && (forall k | 0 <= k < Attempts(maxRetries) ::
                    || !CallAt(replies, k).Returned?
                    || !Acceptable(CallAt(replies, k).value, req)
                    || exists i | 0 <= i < k :: CallAt(replies, i) != Raised(ValidationFailed))
              && (FirstEligible(bank, req).Some? ==> !Acceptable(FirstEligible(bank, req).value, req))
  {
    hide Complaint, Retrying, FirstEligible;
    var judged := JudgeAll(replies, req);
    RetryMeaning(judged, maxRetries);
    var r := Retrying(judged, maxRetries);
    forall i: nat ensures CallAt(judged, i) == Judge(CallAt(replies, i), req) {
    }
    var last := r.made - 1;
    if r.outcome.Ok? {
      assert CallAt(judged, last).Returned?;
      assert CallAt(replies, last).Returned? && Acceptable(CallAt(replies, last).value, req);
      forall i | 0 <= i < last ensures CallAt(replies, i) == Raised(ValidationFailed) {
        assert CallAt(judged, i) == Raised(ValidationFailed);
      }
    } else {
      forall k | 0 <= k < Attempts(maxRetries) && CallAt(replies, k).Returned? && Acceptable(CallAt(replies,
          k).value, req)
        ensures exists i | 0 <= i < k :: CallAt(replies, i) != Raised(ValidationFailed)
      {
        assert CallAt(judged, k).Returned?;
        assert k > last;
        assert CallAt(replies, last) != Raised(ValidationFailed);
      }
    }
  }

  // ---------- the whole set ----------

  function TextsOf(questions: seq<QuestionOutput>): seq<string> {
    seq(|questions|, i requires 0 <= i < |questions| => questions[i].questionText)
  }

  /** The provider's replies while the k-th question is being generated. */
  type Scripts = seq<seq<Call<QuestionOutput>>>

  function ScriptAt(scripts: Scripts, k: nat): seq<Call<QuestionOutput>> {
    if k < |scripts| then scripts[k] else []
  }

  function GenerateFrom(plan: Plan, scripts: Scripts, done: seq<QuestionOutput>): Result<seq<QuestionOutput>, AIError>
    requires |done| <= plan.total
    decreases plan.total - |done|
  {
    if |done| == plan.total then
      Ok(done)
    else
      match Generate(RequestFor(plan, TextsOf(done)), ScriptAt(scripts, |done|), plan.bank, plan.maxRetries)
      case Err(e) => Err(e)
      case Ok(g) => GenerateFrom(plan, scripts, done + [g.output])
  }

  function GenerateSet(plan: Plan, scripts: Scripts): Result<seq<QuestionOutput>, AIError> {
    GenerateFrom(plan, scripts, [])
  }

  /** The generation loop of the worker, counting provider calls. */
  method GenerateQuestions(plan: Plan, scripts: Scripts) returns (r: Result<seq<QuestionOutput>, AIError>, calls: nat)
    ensures r == GenerateSet(plan, scripts)
    ensures calls <= plan.total * Attempts(plan.maxRetries)
  {
    var bank := new Bank(plan.bank);
    var asked: seq<string> := [];
    var rows: seq<QuestionOutput> := [];
    calls := 0;
    var i := 0;
    while i < plan.total
      invariant i == |rows| <= plan.total
      invariant asked == TextsOf(rows)
      invariant bank.entries == plan.bank
      invariant GenerateFrom(plan, scripts, rows) == GenerateSet(plan, scripts)
      invariant calls <= i * Attempts(plan.maxRetries)
    {
      var g, made := GenerateOne(RequestFor(plan, asked), ScriptAt(scripts, i), bank, plan.maxRetries);
      calls := calls + made;
      i := i + 1;
      CallBudget(calls, i, plan);
      if g.Err? {
        return Err(g.error), calls;
      }
      rows := rows + [g.value.output];
      asked := asked + [g.value.output.questionText];
    }
    r := Ok(rows);
  }

  lemma CallBudget(calls: nat, i: nat, plan: Plan)
    requires 0 < i <= plan.total
    requires calls <= (i - 1) * Attempts(plan.maxRetries) + Attempts(plan.maxRetries)
    ensures calls <= i * Attempts(plan.maxRetries)
    ensures calls <= plan.total * Attempts(plan.maxRetries)
  {
    var n := Attempts(plan.maxRetries);
    assert (i - 1) * n + n == i * n;
    assert (plan.total - i) * n >= 0;
    assert plan.total * n == i * n + (plan.total - i) * n;
  }

  /** Each question of a set passes validation against all the questions before it. */
  ghost predicate EachAcceptable(plan: Plan, questions: seq<QuestionOutput>) {
    forall i | 0 <= i < |questions| :: Acceptable(questions[i], RequestFor(plan, TextsOf(questions[..i])))
  }

  ghost predicate PairwiseDistinct(questions: seq<QuestionOutput>) {
    forall i, j | 0 <= i < j < |questions| ::
      Normalize(questions[i].questionText) != Normalize(questions[j].questionText)
  }

  lemma {:induction false} GenerateFromIsSound(plan: Plan, scripts: Scripts, done: seq<QuestionOutput>)
    requires |done| <= plan.total
    requires EachAcceptable(plan, done)
    requires GenerateFrom(plan, scripts, done).Ok?
    ensures |GenerateFrom(plan, scripts, done).value| == plan.total
    ensures EachAcceptable(plan, GenerateFrom(plan, scripts, done).value)
    decreases plan.total - |done|
  {
    if |done| < plan.total {
      var req, script := RequestFor(plan, TextsOf(done)), ScriptAt(scripts, |done|);
      GeneratedQuestionIsAcceptable(req, script, plan.bank, plan.maxRetries);
      var q := Generate(req, script, plan.bank, plan.maxRetries).value.output;
      var next := done + [q];
      forall i | 0 <= i < |next| ensures Acceptable(next[i], RequestFor(plan, TextsOf(next[..i]))) {
        assert next[..i] == done[..i];
        assert done[..|done|] == done;
      }
      GenerateFromIsSound(plan, scripts, next);
    }
  }

  lemma AcceptableSetIsDistinct(plan: Plan, questions: seq<QuestionOutput>)
    requires EachAcceptable(plan, questions)
    ensures PairwiseDistinct(questions)
  {
    forall i, j | 0 <= i < j < |questions|
      ensures Normalize(questions[i].questionText) != Normalize(questions[j].questionText)
    {
      AcceptedQuestionIsFresh(questions[j], RequestFor(plan, TextsOf(questions[..j])), i);
    }
  }

  /**
   A generated set has the planned size; every member passes validation against
   the earlier ones; texts are pairwise different after normalisation, wherever they came from.
   */
  lemma GeneratedSetIsSound(plan: Plan, scripts: Scripts)
    requires GenerateSet(plan, scripts).Ok?
    ensures var qs := GenerateSet(plan, scripts).value;
            |qs| == plan.total && EachAcceptable(plan, qs) && PairwiseDistinct(qs)
  {
    GenerateFromIsSound(plan, scripts, []);
    AcceptableSetIsDistinct(plan, GenerateSet(plan, scripts).value);
  }
}
