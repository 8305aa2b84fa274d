/** The curated bank of `backend/app/ai/question_bank.py`: deterministic fallback. */
module QuestionBank {
  import opened Wrappers
  import opened Schemas
  import opened Text

  /** What a bank lookup, and a question check, is asked for. */
  datatype QuestionRequest = QuestionRequest(
    role: string,
    language: Option<string>,
    interviewType: InterviewType,
    difficulty: Difficulty,
    asked: seq<string>
  )

  predicate FitsType(t: QuestionType, wanted: InterviewType) {
    wanted.Mixed? || t == wanted.questionType
  }

  /** A non-empty language, which is what the source's truth test asks for. */
  predicate NamesLanguage(language: Option<string>) {
    language.Some? && language.value != ""
  }

  function Profile(e: QuestionOutput): string {
    Lower(e.skill + " " + e.category + " " + e.questionText)
  }

  /** A backend role wants technical entries about the backend or Python, hard ones aside. */
  predicate FitsRole(e: QuestionOutput, role: string) {
    || !Contains(Lower(Strip(role)), "backend")
    || !e.questionType.Technical?
    || Contains(Profile(e), "backend")
    || Contains(Lower(e.skill + " " + e.category), "python")
    || e.difficulty.Hard?
  }

  predicate Eligible(e: QuestionOutput, req: QuestionRequest) {
    && FitsType(e.questionType, req.interviewType)
    && e.difficulty == req.difficulty
    && (NamesLanguage(req.language) && e.questionType.Technical? ==> Contains(Profile(e), Lower(req.language.value)))
    && FitsRole(e, req.role)
    && forall i | 0 <= i < |req.asked| :: Normalize(req.asked[i]) != Normalize(e.questionText)
  }

  function FirstEligible(entries: seq<QuestionOutput>, req: QuestionRequest): Option<QuestionOutput> {
    if entries == [] then None
    else if Eligible(entries[0], req) then Some(entries[0])
    else FirstEligible(entries[1..], req)
  }

  /** The result of a lookup is the first entry meeting all the filters, and None exactly if no entry does. */
  lemma {:induction false} FirstEligibleIsFirst(entries: seq<QuestionOutput>, req: QuestionRequest)
    ensures FirstEligible(entries, req).None? <==> forall e | e in entries :: !Eligible(e, req)
    ensures FirstEligible(entries, req).Some? ==>
              exists k | 0 <= k < |entries| ::
                && entries[k] == FirstEligible(entries, req).value
                && Eligible(entries[k], req)
                && forall j | 0 <= j < k :: !Eligible(entries[j], req)
  {
    if entries != [] {
      if Eligible(entries[0], req) {
        assert entries[0] in entries;
      } else {
        FirstEligibleIsFirst(entries[1..], req);
        if FirstEligible(entries, req).Some? {
          var k :| 0 <= k < |entries[1..]|
                && entries[1..][k] == FirstEligible(entries, req).value
                && Eligible(entries[1..][k], req)
                && forall j | 0 <= j < k :: !Eligible(entries[1..][j], req);
          forall j | 0 <= j < k + 1 ensures !Eligible(entries[j], req) {
            assert j > 0 ==> entries[j] == entries[1..][j - 1];
          }
          assert entries[k + 1] == entries[1..][k];
        }
      }
    }
  }

  class Bank {
    const entries: seq<QuestionOutput>

    constructor (entries: seq<QuestionOutput>)
      ensures this.entries == entries
    {
      this.entries := entries;
    }

    method FindOne(req: QuestionRequest) returns (found: Option<QuestionOutput>)
      ensures found == FirstEligible(entries, req)
    {
      var excluded := set q | q in req.asked :: Normalize(q);
      var roleKey := Lower(Strip(req.role));
      var k := 0;
      while k < |entries|
        invariant k <= |entries|
        invariant FirstEligible(entries, req) == FirstEligible(entries[k..], req)
      {
        var entry := entries[k];
        k := k + 1;
        assert Normalize(entry.questionText) in excluded
          <==> exists i | 0 <= i < |req.asked| :: Normalize(req.asked[i]) == Normalize(entry.questionText);
        if !FitsType(entry.questionType, req.interviewType) {
          continue;
        }
        if entry.difficulty != req.difficulty {
          continue;
        }
        if NamesLanguage(req.language) && entry.questionType.Technical? && !Contains(Profile(entry),
            Lower(req.language.value)) {
          continue;
        }
        if Contains(roleKey, "backend") && entry.questionType.Technical? && !Contains(Profile(entry), "backend")
           && !Contains(Lower(entry.skill + " " + entry.category), "python") {
          if !entry.difficulty.Hard? {
            continue;
          }
        }
        if Normalize(entry.questionText) in excluded {
          continue;
        }
        return Some(entry);
      }
      return None;
    }
  }
}
