/**
 Scores of `backend/app/evaluations/scoring.py`. Floating-point means are exact
 reals here; every score the source keeps is an integer.
 */
module Scoring {
  import opened Wrappers

  /** A schema-valid dimension: an integer from 0 to 10. */
  type Score = n: int | 0 <= n <= 10 witness 0

  datatype TechnicalScores = TechnicalScores(
    correctness: Score, relevance: Score, completeness: Score, technicalDepth: Score)

  datatype CommunicationScores = CommunicationScores(
    clarity: Score, structure: Score, conciseness: Score)

  datatype Dimensions = Dimensions(technical: TechnicalScores, communication: CommunicationScores)

  datatype ReportScore = ReportScore(technical: int, communication: int, overall: int)

  datatype ScoringError = NoEvaluations

  function RoundHalfUp(value: real): int {
    (value + 0.5).Floor
  }

  function TechnicalTotal(d: Dimensions): int {
    var t := d.technical;
    t.correctness + t.relevance + t.completeness + t.technicalDepth
  }

  function CommunicationTotal(d: Dimensions): int {
    var c := d.communication;
    c.clarity + c.structure + c.conciseness
  }

  function TechnicalOverall(d: Dimensions): int {
    RoundHalfUp(TechnicalTotal(d) as real / 4.0)
  }

  function CommunicationOverall(d: Dimensions): int {
    RoundHalfUp(CommunicationTotal(d) as real / 3.0)
  }

  function To100(score: int): int {
    Max(0, if score * 10 < 100 then score * 10 else 100)
  }

  function Overall100(technical: int, communication: int): int {
    RoundHalfUp((technical + communication) as real / 2.0)
  }

  function TechnicalPoints(d: Dimensions): int {
    To100(TechnicalOverall(d))
  }

  function CommunicationPoints(d: Dimensions): int {
    To100(CommunicationOverall(d))
  }

  /** Python's `sum(f(r) for r in results)`. */
  function SumBy(f: Dimensions -> int, results: seq<Dimensions>): int {
    if results == [] then 0 else f(results[0]) + SumBy(f, results[1..])
  }

  function Mean(sum: int, n: nat): real
    requires n > 0
  {
    sum as real / n as real
  }

  function ReportScores(results: seq<Dimensions>): Result<ReportScore, ScoringError> {
    if results == [] then
      Err(NoEvaluations)
    else
      var tech := RoundHalfUp(Mean(SumBy(TechnicalPoints, results), |results|));
      var comm := RoundHalfUp(Mean(SumBy(CommunicationPoints, results), |results|));
      Ok(ReportScore(tech, comm, Overall100(tech, comm)))
  }
}
