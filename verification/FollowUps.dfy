/** The follow-up decision of `backend/app/ai/followup_service.py`. */
module FollowUps {
  import opened Wrappers
  import opened Schemas
  import opened Text
  import opened Retry

  const FILLER: seq<string> := ["because interviews need follow-ups", "ask another question"]

  datatype FollowUpRequest = FollowUpRequest(
    answerText: string,
    missingConcepts: seq<string>,
    incorrectConcepts: seq<string>,
    difficulty: Difficulty,
    prior: seq<string>,
    maxFollowUps: int
  )

  predicate IsFiller(reason: string) {
    exists f | f in FILLER :: Contains(Lower(reason), f)
  }

  predicate HasEvidence(req: FollowUpRequest) {
    req.missingConcepts != [] || req.incorrectConcepts != [] || |Strip(req.answerText)| < 40
  }

  predicate RepeatsPrior(text: string, prior: seq<string>) {
    exists i | 0 <= i < |prior| :: Normalize(text) == Normalize(prior[i])
  }

  function Objection(data: FollowUpOutput, req: FollowUpRequest): Option<Rejection> {
    if IsFiller(data.reason) then Some(FillerReason)
    else if !data.followUpRequired then None
    else if RepeatsPrior(data.questionText, req.prior) then Some(DuplicateFollowUp)
    else if !HasEvidence(req) && Contains(Lower(data.reason), "sufficient") then Some(UnjustifiedFollowUp)
    else None
  }

  method CheckFollowUp(data: FollowUpOutput, req: FollowUpRequest) returns (objection: Option<Rejection>)
    ensures objection == Objection(data, req)
  {
    if IsFiller(data.reason) { return Some(FillerReason); }
    if !data.followUpRequired { return None; }
    var norm := Normalize(data.questionText);
    var k := 0;
    while k < |req.prior|
      invariant k <= |req.prior|
      invariant forall i | 0 <= i < k :: norm != Normalize(req.prior[i])
    {
      if norm == Normalize(req.prior[k]) { return Some(DuplicateFollowUp); }
      k := k + 1;
    }
    if !HasEvidence(req) && Contains(Lower(data.reason), "sufficient") { return Some(UnjustifiedFollowUp); }
    return None;
  }

  function Judge(reply: Call<FollowUpOutput>, req: FollowUpRequest): Call<FollowUpOutput> {
    match reply
    case Raised(e) => Raised(e)
    case Returned(f) =>
      match Objection(f, req)
      case None => Returned(f)
      case Some(reason) => Raised(QuestionRejected(reason))
  }

  function JudgeAll(replies: seq<Call<FollowUpOutput>>, req: FollowUpRequest): seq<Call<FollowUpOutput>> {
    seq(|replies|, i requires 0 <= i < |replies| => Judge(replies[i], req))
  }

  /** The concept an exhausted budget is recorded under: the first gap, or "general". */
  function FirstGap(req: FollowUpRequest): string {
    (req.missingConcepts + req.incorrectConcepts + ["general"])[0]
  }

  predicate BudgetIsSpent(req: FollowUpRequest) {
    |req.prior| >= Max(0, req.maxFollowUps)
  }

  function Exhausted(req: FollowUpRequest): Result<FollowUpOutput, AIError> {
    var gap := FirstGap(req);
    if 1 <= |gap| <= 256 then
      var reason := "Follow-up budget exhausted.";
      var text := "No further follow-up; the identified gap has been covered.";
      assert |reason| == 27 && |text| == 58;
      var closing: FollowUpOutput := FollowUpFields(false, reason, text, gap, req.difficulty);
      Ok(closing)
    else
      Err(SchemaViolated)
  }

  function Decision(req: FollowUpRequest, replies: seq<Call<FollowUpOutput>>,
      maxRetries: int): Result<FollowUpOutput, AIError> {
    if BudgetIsSpent(req) then Exhausted(req) else Retrying(JudgeAll(replies, req), maxRetries).outcome
  }

  method Decide(req: FollowUpRequest, replies: seq<Call<FollowUpOutput>>, maxRetries: int)
    returns (r: Result<FollowUpOutput, AIError>, calls: nat)
    ensures r == Decision(req, replies, maxRetries)
    ensures BudgetIsSpent(req) ==> calls == 0
    ensures calls <= Attempts(maxRetries)
  {
    if |req.prior| >= Max(0, req.maxFollowUps) {
      return Exhausted(req), 0;
    }
    r, calls := RunWithRetries(JudgeAll(replies, req), maxRetries);
  }

  /**
   Whatever the provider replies: a follow-up is required only within the budget, with a
   text unlike every earlier one, and the text was returned by one of the permitted calls.
   */
  lemma RequiredFollowUpIsSound(req: FollowUpRequest, replies: seq<Call<FollowUpOutput>>, maxRetries: int)
    requires Decision(req, replies, maxRetries).Ok?
    requires Decision(req, replies, maxRetries).value.followUpRequired
    ensures var f := Decision(req, replies, maxRetries).value;
            && |req.prior| < req.maxFollowUps
            && (forall i | 0 <= i < |req.prior| :: Normalize(req.prior[i]) != Normalize(f.questionText))
            && !IsFiller(f.reason)
            && exists k: nat | k < Attempts(maxRetries) :: CallAt(replies, k) == Returned(f)
  {
    RetryMeaning(JudgeAll(replies, req), maxRetries);
    var r := Retrying(JudgeAll(replies, req), maxRetries);
    var f := Decision(req, replies, maxRetries).value;
    var k: nat := r.made - 1;
    assert CallAt(JudgeAll(replies, req), k) == Judge(CallAt(replies, k), req);
    assert CallAt(replies, k) == Returned(f) && Objection(f, req).None?;
  }

  /**
   Once the budget is spent no call is made, and the decision fails exactly when the first
   missing or incorrect concept is empty or longer than the schema lets a target concept be.
   */
  lemma SpentBudgetFailsIff(req: FollowUpRequest, replies: seq<Call<FollowUpOutput>>, maxRetries: int)
    requires BudgetIsSpent(req)
    ensures Decision(req, replies, maxRetries).Ok? ==> !Decision(req, replies, maxRetries).value.followUpRequired
    ensures Decision(req, replies, maxRetries).Err? <==>
              && req.missingConcepts + req.incorrectConcepts != []
              && !(1 <= |(req.missingConcepts + req.incorrectConcepts)[0]| <= 256)
  {
    var gaps := req.missingConcepts + req.incorrectConcepts;
    if gaps == [] {
      assert gaps + ["general"] == ["general"];
    } else {
      assert (gaps + ["general"])[0] == gaps[0];
    }
  }
}
