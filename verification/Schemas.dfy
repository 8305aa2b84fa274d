/** The schema-checked provider outputs of `backend/app/ai/schemas.py`, and the AI errors. */
module Schemas {
  import opened Scoring

  datatype QuestionType = Technical | Behavioral

  datatype InterviewType = Only(questionType: QuestionType) | Mixed

  datatype Difficulty = Easy | Medium | Hard | Expert

  datatype QuestionFields = QuestionFields(
    questionText: string,
    questionType: QuestionType,
    category: string,
    skill: string,
    difficulty: Difficulty,
    expectedConcepts: seq<string>,
    evaluationRubric: string,
    followUpAllowed: bool,
    maxFollowUps: nat
  ) {
    predicate Valid() {
      && 10 <= |questionText| <= 2000
      && 2 <= |category| <= 128
      && 2 <= |skill| <= 128
      && 1 <= |expectedConcepts| <= 12
      && 10 <= |evaluationRubric| <= 2000
      && maxFollowUps <= 3
    }
  }

  type QuestionOutput = q: QuestionFields | q.Valid()
    witness QuestionFields("0123456789", Technical, "ab", "ab", Easy, [""], "0123456789", true, 1)

  datatype FollowUpFields = FollowUpFields(
    followUpRequired: bool,
    reason: string,
    questionText: string,
    targetConcept: string,
    difficulty: Difficulty
  ) {
    predicate Valid() {
      && 1 <= |reason| <= 1000
      && 10 <= |questionText| <= 2000
      && 1 <= |targetConcept| <= 256
    }
  }

  type FollowUpOutput = f: FollowUpFields | f.Valid()
    witness FollowUpFields(false, "r", "0123456789", "c", Easy)

  /** The free-text feedback fields of an evaluation are not part of this model. */
  datatype EvaluationFields = EvaluationFields(
    dimensions: Dimensions,
    missingConcepts: seq<string>,
    incorrectConcepts: seq<string>
  ) {
    predicate Valid() {
      |missingConcepts| <= 12 && |incorrectConcepts| <= 12
    }
  }

  type EvaluationOutput = e: EvaluationFields | e.Valid()
    witness EvaluationFields(Dimensions(TechnicalScores(0, 0, 0, 0), CommunicationScores(0, 0, 0)), [], [])

  datatype Rejection =
    | BadLength
    | DifficultyMismatch
    | TypeMismatch
    | MissingConcepts
    | ProhibitedContent
    | EmbeddedAnswer
    | DuplicateQuestion
    | LanguageIrrelevant
    | FillerReason
    | DuplicateFollowUp
    | UnjustifiedFollowUp

  datatype AIError =
    | ProviderFailed
    | ValidationFailed
    | RetryExhausted(attempts: nat)
    | QuestionRejected(reason: Rejection)
    | FallbackExhausted
    | SchemaViolated

  /** One call to a provider, or to a function that calls one. */
  datatype Call<+T> = Returned(value: T) | Raised(error: AIError)

  /** A provider as a script of replies; past the end of the script it is unreachable. */
  function CallAt<T>(calls: seq<Call<T>>, i: nat): Call<T> {
    if i < |calls| then calls[i] else Raised(ProviderFailed)
  }
}
