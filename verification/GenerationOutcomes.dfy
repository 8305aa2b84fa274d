/**
 What passes as a question or a follow-up, which bank entries are considered, and where a generated
 question comes from, said of the texts and replies themselves.
 */
module GenerationOutcomes {
  import opened Wrappers
  import opened Schemas
  import opened Text
  import opened Retry
  import opened QuestionBank
  import opened QuestionGeneration
  import FollowUps

  /** `needle in text` means that the text is something, the needle, and something. */
  lemma ContainsIff(text: string, needle: string)
    ensures Contains(text, needle) <==> exists before, after :: text == before + needle + after
  {
    if Contains(text, needle) {
      var i :| 0 <= i <= |text| - |needle| && OccursAt(text, needle, i);
      assert text == text[..i] + needle + text[i + |needle|..];
    }
    if exists before, after :: text == before + needle + after {
      var before, after :| text == before + needle + after;
      assert text[|before|..|before| + |needle|] == needle;
      assert OccursAt(text, needle, |before|);
    }
  }

  /** An occurrence in lower case, as the checks look for fixed phrases. */
  predicate Mentions(text: string, phrase: string) {
    Contains(Lower(text), phrase)
  }

  predicate IsNewTo(text: string, asked: seq<string>) {
    forall i | 0 <= i < |asked| ::
      && Normalize(text) != Normalize(asked[i])
      && !(|Normalize(text)| > 40 && Contains(Normalize(asked[i]), Normalize(text)))
  }

  predicate SpeaksOf(c: QuestionOutput, language: string) {
    Contains(Lower(c.skill) + " " + Lower(Strip(c.questionText)) + " " + Lower(c.category), Lower(language))
  }

  /** Exactly these questions pass validation. */
  lemma AcceptableIff(c: QuestionOutput, req: QuestionRequest)
    ensures var text := Strip(c.questionText);
            Acceptable(c, req) <==>
              && 10 <= |text| <= 2000
              && c.difficulty == req.difficulty
              && (req.interviewType == Mixed || req.interviewType == Only(c.questionType))
              && Strip(c.evaluationRubric) != ""
              && !Mentions(text, "ignore previous instructions") && !Mentions(text, "system prompt")
              && !Mentions(text, "api key") && !Mentions(text, "reveal")
              && !(Contains(text, "?") && Contains(text, "=") && Mentions(text, "answer is"))
              && IsNewTo(text, req.asked)
              && (c.questionType == Technical && req.language.Some? && req.language.value != "" ==>
                    SpeaksOf(c, req.language.value))
  {
    hide Contains, Strip, Lower, Normalize;
    var text := Strip(c.questionText);
    ProhibitedIff(text);
    RepeatsIff(text, req.asked);
  }

  /** The reasons to turn a question down, in the order in which they are looked at. */
  function Reasons(c: QuestionOutput, req: QuestionRequest): seq<(Rejection, bool)> {
    var text := Strip(c.questionText);
    [(BadLength, !(10 <= |text| <= 2000)),
     (DifficultyMismatch, c.difficulty != req.difficulty),
     (TypeMismatch, !(req.interviewType == Mixed || req.interviewType == Only(c.questionType))),
     (MissingConcepts, Strip(c.evaluationRubric) == ""),
     (ProhibitedContent, MentionsProhibited(Lower(text))),
     (EmbeddedAnswer, Contains(text, "?") && Contains(text, "=") && Mentions(text, "answer is")),
     (DuplicateQuestion, !IsNewTo(text, req.asked)),
     (LanguageIrrelevant, true)]
  }

  /** A question that is turned down is so for the first reason that applies. */
  lemma ComplaintVerdict(c: QuestionOutput, req: QuestionRequest) returns (k: nat)
    requires !Acceptable(c, req)
    ensures k < |Reasons(c, req)| && Reasons(c, req)[k].1 && forall j | 0 <= j < k :: !Reasons(c, req)[j].1
    ensures Complaint(c, req) == Some(Reasons(c, req)[k].0)
  {
    hide Contains, Strip, Lower, Normalize, MentionsProhibited;
    RepeatsIff(Strip(c.questionText), req.asked);
    var r := Reasons(c, req);
    k := if r[0].1 then 0 else if r[1].1 then 1 else if r[2].1 then 2 else if r[3].1 then 3
         else if r[4].1 then 4 else if r[5].1 then 5 else if r[6].1 then 6 else 7;
  }

  lemma ProhibitedIff(text: string)
    ensures MentionsProhibited(Lower(text)) <==>
              || Mentions(text, "ignore previous instructions") || Mentions(text, "system prompt")
              || Mentions(text, "api key") || Mentions(text, "reveal")
  {
    hide Contains, Lower;
    assert PROHIBITED[0] == "ignore previous instructions" && PROHIBITED[1] == "system prompt";
    assert PROHIBITED[2] == "api key" && PROHIBITED[3] == "reveal";
  }

  lemma RepeatsIff(text: string, asked: seq<string>)
    ensures RepeatsAny(Normalize(text), asked) <==> !IsNewTo(text, asked)
  {
    hide Contains, Normalize;
  }

  /** Exactly these bank entries are considered; a backend role leaves out easier technical ones on other matters. */
  lemma EligibleIff(e: QuestionOutput, req: QuestionRequest)
    ensures var all := e.skill + " " + e.category + " " + e.questionText;
            Eligible(e, req) <==>
              && (req.interviewType == Mixed || req.interviewType == Only(e.questionType))
              && e.difficulty == req.difficulty
              && (e.questionType == Technical && req.language.Some? && req.language.value != "" ==>
                    Contains(Lower(all), Lower(req.language.value)))
              && (e.questionType == Technical && e.difficulty != Hard && Mentions(Strip(req.role), "backend") ==>
                    Mentions(all, "backend") || Mentions(e.skill + " " + e.category, "python"))
              && forall i | 0 <= i < |req.asked| :: Normalize(e.questionText) != Normalize(req.asked[i])
  {
    hide Contains, Strip, Lower, Normalize;
  }

  /** Exactly these follow-ups are objected to. */
  lemma ObjectionIff(f: FollowUpOutput, req: FollowUps.FollowUpRequest)
    ensures var filler := || Mentions(f.reason, "because interviews need follow-ups")
                          || Mentions(f.reason, "ask another question");
            var evidence := req.missingConcepts != [] || req.incorrectConcepts != [] || |Strip(req.answerText)| < 40;
            var repeated := exists i | 0 <= i < |req.prior| :: Normalize(f.questionText) == Normalize(req.prior[i]);
            FollowUps.Objection(f, req).None? <==>
              && !filler
              && (f.followUpRequired ==> !repeated && (evidence || !Mentions(f.reason, "sufficient")))
  {
    hide Contains, Strip, Lower, Normalize;
    FillerIff(f.reason);
  }

  /** A follow-up that is objected to is so for the first of these reasons that applies. */
  lemma ObjectionVerdict(f: FollowUpOutput, req: FollowUps.FollowUpRequest)
    requires FollowUps.Objection(f, req).Some?
    ensures var repeated := exists i | 0 <= i < |req.prior| :: Normalize(f.questionText) == Normalize(req.prior[i]);
            FollowUps.Objection(f, req).value == if FollowUps.IsFiller(f.reason) then FillerReason
                                                 else if repeated then DuplicateFollowUp
                                                 else UnjustifiedFollowUp
  {
    hide Contains, Strip, Lower, Normalize, FollowUps.IsFiller;
  }

  lemma FillerIff(reason: string)
    ensures FollowUps.IsFiller(reason) <==>
              Mentions(reason, "because interviews need follow-ups") || Mentions(reason, "ask another question")
  {
    hide Contains, Lower;
    assert FollowUps.FILLER[0] == "because interviews need follow-ups" && FollowUps.FILLER[1] == "ask another question";
  }

  // ---------- where a question comes from ----------

  /** The first permitted call that is not a validation error returned an acceptable question. */
  ghost predicate Succeeds(replies: seq<Call<QuestionOutput>>, req: QuestionRequest, maxRetries: int, k: nat) {
    && k < Attempts(maxRetries)
    && CallAt(replies, k).Returned? && Acceptable(CallAt(replies, k).value, req)
    && forall i | 0 <= i < k :: CallAt(replies, i) == Raised(ValidationFailed)
  }

  ghost predicate ProviderFails(replies: seq<Call<QuestionOutput>>, req: QuestionRequest, maxRetries: int) {
    forall k: nat :: !Succeeds(replies, req, maxRetries, k)
  }

  /** The first entry of the bank that is considered. */
  ghost predicate IsFallback(bank: seq<QuestionOutput>, req: QuestionRequest, m: nat) {
    m < |bank| && Eligible(bank[m], req) && forall j | 0 <= j < m :: !Eligible(bank[j], req)
  }

  lemma {:induction false} FallbackIsFirst(bank: seq<QuestionOutput>, req: QuestionRequest, m: nat)
    requires IsFallback(bank, req, m)
    ensures FirstEligible(bank, req) == Some(bank[m])
  {
    hide Eligible;
    if m > 0 {
      assert bank[1..][m - 1] == bank[m];
      assert forall j | 0 <= j < m - 1 :: bank[1..][j] == bank[j + 1];
      FallbackIsFirst(bank[1..], req, m - 1);
    }
  }

  lemma ProviderOutcome(replies: seq<Call<QuestionOutput>>, req: QuestionRequest, maxRetries: int)
    ensures forall k: nat | Succeeds(replies, req, maxRetries, k) ::
              Retrying(JudgeAll(replies, req), maxRetries) == Retried(Ok(CallAt(replies, k).value), k + 1)
    ensures ProviderFails(replies, req, maxRetries) <==> Retrying(JudgeAll(replies, req), maxRetries).outcome.Err?
  {
    hide Complaint, Retrying;
    var judged := JudgeAll(replies, req);
    var r := Retrying(judged, maxRetries);
    RetryMeaning(judged, maxRetries);
    forall i: nat ensures CallAt(judged, i) == Judge(CallAt(replies, i), req) {
    }
    var last: nat := r.made - 1;
    forall k: nat | Succeeds(replies, req, maxRetries, k) ensures r == Retried(Ok(CallAt(replies, k).value), k + 1) {
      assert k < last ==> CallAt(judged, k) == Raised(ValidationFailed);
      assert last < k ==> CallAt(judged, last) == Raised(ValidationFailed);
    }
    if r.outcome.Ok? {
      forall i | 0 <= i < last ensures CallAt(replies, i) == Raised(ValidationFailed) {
        assert CallAt(judged, i) == Raised(ValidationFailed);
      }
      assert Succeeds(replies, req, maxRetries, last);
    }
  }

  /**
   A generated question is the provider's first acceptable one if it comes in time; otherwise the first
   entry of the bank that is considered, which must pass validation too; otherwise there is none.
   */
  lemma GenerationOutcome(
      req: QuestionRequest, replies: seq<Call<QuestionOutput>>, bank: seq<QuestionOutput>, maxRetries: int)
    ensures forall k: nat | Succeeds(replies, req, maxRetries, k) ::
              Generate(req, replies, bank, maxRetries) == Ok(Generated(CallAt(replies, k).value, FromProvider, k + 1))
    ensures forall m: nat | ProviderFails(replies, req, maxRetries) && IsFallback(bank, req, m) ::
              if Acceptable(bank[m], req) then
                Generate(req, replies, bank, maxRetries) == Ok(Generated(bank[m], FromBank, maxRetries))
              else
                Generate(req, replies, bank, maxRetries).Err?
    ensures ProviderFails(replies, req, maxRetries) && (forall e | e in bank :: !Eligible(e, req)) ==>
              Generate(req, replies, bank, maxRetries) == Err(FallbackExhausted)
  {
    hide Eligible, Complaint, Retrying, JudgeAll, Succeeds, ProviderFails;
    ProviderOutcome(replies, req, maxRetries);
    FirstEligibleIsFirst(bank, req);
    forall m: nat | IsFallback(bank, req, m) ensures FirstEligible(bank, req) == Some(bank[m]) {
      FallbackIsFirst(bank, req, m);
    }
  }

  /** What is asked of the generator for the next question of an interview. */
  function NextRequest(plan: Plan, done: seq<QuestionOutput>): QuestionRequest {
    QuestionRequest(plan.role, plan.language, plan.interviewType, plan.difficulty,
                    seq(|done|, i requires 0 <= i < |done| => done[i].questionText))
  }

  /** A set is generated one question after the other, each asked for with the texts of all earlier ones. */
  lemma {:induction false} SetIsGeneratedInOrder(plan: Plan, scripts: Scripts, done: seq<QuestionOutput>, i: nat)
    requires |done| <= plan.total && GenerateFrom(plan, scripts, done).Ok?
    requires |done| <= i < plan.total
    ensures var qs := GenerateFrom(plan, scripts, done).value;
            && |qs| == plan.total && done <= qs
            && var replies := if i < |scripts| then scripts[i] else [];
               var g := Generate(NextRequest(plan, qs[..i]), replies, plan.bank, plan.maxRetries);
               g.Ok? && qs[i] == g.value.output
    decreases plan.total - |done|
  {
    hide Generate;
    var req := NextRequest(plan, done);
    assert RequestFor(plan, TextsOf(done)) == req;
    var g := Generate(req, ScriptAt(scripts, |done|), plan.bank, plan.maxRetries);
    var next := done + [g.value.output];
    if |next| < plan.total {
      SetIsGeneratedInOrder(plan, scripts, next, if i == |done| then |next| else i);
    }
    var qs := GenerateFrom(plan, scripts, done).value;
    assert qs == GenerateFrom(plan, scripts, next).value;
    if i == |done| {
      assert qs[..i] == done && qs[i] == next[i];
    }
  }
}
