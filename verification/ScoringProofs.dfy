/** What the three layers of half-up rounding guarantee for any list of evaluations. */
module ScoringProofs {
  import opened Scoring

  // ---------- one rounding ----------

  /** Half-up rounding is the only integer in the half-open window around the value. */
  lemma RoundingWindow(value: real, r: int)
    ensures r == RoundHalfUp(value) <==> value - 0.5 < r as real <= value + 0.5
  {
    var f := (value + 0.5).Floor;
    assert f as real <= value + 0.5 < f as real + 1.0;
    if value - 0.5 < r as real <= value + 0.5 {
      assert -1.0 < r as real - f as real < 1.0;
      assert -1 < r - f < 1;
    }
  }

  lemma RoundingIsMonotone(v: real, w: real)
    requires v <= w
    ensures RoundHalfUp(v) <= RoundHalfUp(w)
  {
    RoundingWindow(v, RoundHalfUp(v));
    RoundingWindow(w, RoundHalfUp(w));
    assert (RoundHalfUp(v) - RoundHalfUp(w)) as real < 1.0;
  }

  lemma RoundingStaysBetween(v: real, lo: int, hi: int)
    requires lo as real <= v <= hi as real
    ensures lo <= RoundHalfUp(v) <= hi
  {
    RoundingWindow(v, RoundHalfUp(v));
    assert -1.0 < (RoundHalfUp(v) - lo) as real;
    assert (RoundHalfUp(v) - hi) as real < 1.0;
  }

  // ---------- one answer ----------

  /** The mean of the four technical dimensions loses at most a quarter and gains at most a half; it stays in 0..10. */
  lemma TechnicalOverallError(d: Dimensions)
    ensures var t := d.technical;
            -1 <= 4 * TechnicalOverall(d) - (t.correctness + t.relevance + t.completeness + t.technicalDepth) <= 2
    ensures 0 <= TechnicalOverall(d) <= 10
    ensures TechnicalPoints(d) == 10 * TechnicalOverall(d)
  {
    var total := TechnicalTotal(d);
    var r := TechnicalOverall(d);
    RoundingWindow(total as real / 4.0, r);
    assert total as real - 2.0 < 4.0 * r as real <= total as real + 2.0;
    assert 4.0 * r as real == (4 * r) as real;
    assert total - 2 < 4 * r <= total + 2;
  }

  /** The mean of the three communication dimensions moves by at most a third; it stays in 0..10. */
  lemma CommunicationOverallError(d: Dimensions)
    ensures var c := d.communication;
            -1 <= 3 * CommunicationOverall(d) - (c.clarity + c.structure + c.conciseness) <= 1
    ensures 0 <= CommunicationOverall(d) <= 10
    ensures CommunicationPoints(d) == 10 * CommunicationOverall(d)
  {
    var total := CommunicationTotal(d);
    var r := CommunicationOverall(d);
    RoundingWindow(total as real / 3.0, r);
    assert total as real - 1.5 < 3.0 * r as real <= total as real + 1.5;
    assert 3.0 * r as real == (3 * r) as real;
    assert total - 2 < 3 * r < total + 2;
  }

  // ---------- sums ----------

  /** If k*f stays between g+lo and g+hi on every row, the sums do so |results| times over. */
  lemma {:induction false} SumError(
      f: Dimensions -> int, g: Dimensions -> int, results: seq<Dimensions>, k: int, lo: int, hi: int)
    requires forall d | d in results :: lo <= k * f(d) - g(d) <= hi
    ensures lo * |results| <= k * SumBy(f, results) - SumBy(g, results) <= hi * |results|
  {
    if results != [] {
      var d, rest := results[0], results[1..];
      SumError(f, g, rest, k, lo, hi);
      assert k * SumBy(f, results) == k * f(d) + k * SumBy(f, rest);
      assert lo * |results| == lo * |rest| + lo;
      assert hi * |results| == hi * |rest| + hi;
    }
  }

  lemma {:induction false} SumOfConcatenation(f: Dimensions -> int, a: seq<Dimensions>, b: seq<Dimensions>)
    ensures SumBy(f, a + b) == SumBy(f, a) + SumBy(f, b)
  {
    if a == [] {
      assert a + b == b;
    } else {
      assert (a + b)[1..] == a[1..] + b;
      SumOfConcatenation(f, a[1..], b);
    }
  }

  /** The first element of a sequence can be struck from both sides of a permutation. */
  lemma StrikeFirst<T>(a: seq<T>, b: seq<T>) returns (i: nat)
    requires a != [] && multiset(a) == multiset(b)
    ensures i < |b| && b[i] == a[0]
    ensures multiset(a[1..]) == multiset(b[..i] + b[i + 1..])
  {
    assert a[0] in multiset(a);
    i :| i < |b| && b[i] == a[0];
    assert a == [a[0]] + a[1..];
    var rest := b[..i] + b[i + 1..];
    assert b == b[..i] + ([b[i]] + b[i + 1..]);
    assert multiset(b) == multiset(b[..i]) + (multiset{b[i]} + multiset(b[i + 1..]));
    assert multiset(rest) == multiset(b[..i]) + multiset(b[i + 1..]);
    assert multiset(a) == multiset{a[0]} + multiset(a[1..]);
    assert multiset(a[1..]) == multiset(a) - multiset{a[0]};
    assert multiset(rest) == multiset(b) - multiset{a[0]};
  }

  lemma {:induction false} SumOfPermutation(f: Dimensions -> int, a: seq<Dimensions>, b: seq<Dimensions>)
    requires multiset(a) == multiset(b)
    ensures |a| == |b|
    ensures SumBy(f, a) == SumBy(f, b)
  {
    assert |multiset(a)| == |a| && |multiset(b)| == |b|;
    if a != [] {
      var i := StrikeFirst(a, b);
      var front, back := b[..i], b[i + 1..];
      SumOfPermutation(f, a[1..], front + back);
      SumOfConcatenation(f, front, back);
      SumOfConcatenation(f, front, [b[i]] + back);
      assert ([b[i]] + back)[1..] == back;
      assert b == front + ([b[i]] + back);
    }
  }

  function Repeat(results: seq<Dimensions>, times: nat): seq<Dimensions> {
    if times == 0 then [] else results + Repeat(results, times - 1)
  }

  lemma {:induction false} SumOfRepetition(f: Dimensions -> int, results: seq<Dimensions>, times: nat)
    ensures |Repeat(results, times)| == times * |results|
    ensures SumBy(f, Repeat(results, times)) == times * SumBy(f, results)
  {
    if times > 0 {
      SumOfRepetition(f, results, times - 1);
      SumOfConcatenation(f, results, Repeat(results, times - 1));
      assert times * |results| == (times - 1) * |results| + |results|;
      assert times * SumBy(f, results) == (times - 1) * SumBy(f, results) + SumBy(f, results);
    }
  }

  lemma {:induction false} SumIsMonotone(f: Dimensions -> int, a: seq<Dimensions>, b: seq<Dimensions>)
    requires |a| == |b|
    requires forall i | 0 <= i < |a| :: f(a[i]) <= f(b[i])
    ensures SumBy(f, a) <= SumBy(f, b)
  {
    if a != [] {
      SumIsMonotone(f, a[1..], b[1..]);
    }
  }

  // ---------- means ----------

  lemma CancelFactor(a: real, b: real, n: real)
    requires n > 0.0
    requires a * n <= b * n
    ensures a <= b
  {
    assert a > b ==> (a - b) * n > 0.0;
  }

  /** The mean of `raw` over `k*n` items. */
  function WideMean(raw: int, k: nat, n: nat): real
    requires k > 0 && n > 0
  {
    raw as real / (k as real * n as real)
  }

  /** An integer bound on k*sum - raw carries over to the two means. */
  lemma MeanError(sum: int, raw: int, n: nat, k: nat, lo: int, hi: int)
    requires n > 0 && k > 0
    requires lo * n <= k * sum - raw <= hi * n
    ensures lo as real <= k as real * (Mean(sum, n) - WideMean(raw, k, n)) <= hi as real
  {
    var m, e := Mean(sum, n), WideMean(raw, k, n);
    var rn, rk := n as real, k as real;
    assert m * rn == sum as real;
    assert e * (rk * rn) == raw as real;
    var diff := rk * (m - e);
    assert diff * rn == (k * sum - raw) as real by {
      assert (k * sum - raw) as real == rk * (m * rn) - e * (rk * rn);
    }
    assert (lo * n) as real == lo as real * rn;
    assert (hi * n) as real == hi as real * rn;
    CancelFactor(lo as real, diff, rn);
    CancelFactor(diff, hi as real, rn);
  }

  lemma MeanStaysBetween(sum: int, n: nat, lo: int, hi: int)
    requires n > 0
    requires lo * n <= sum <= hi * n
    ensures lo <= RoundHalfUp(Mean(sum, n)) <= hi
  {
    var m := Mean(sum, n);
    assert m * n as real == sum as real;
    assert (lo * n) as real == lo as real * n as real;
    assert (hi * n) as real == hi as real * n as real;
    CancelFactor(lo as real, m, n as real);
    CancelFactor(m, hi as real, n as real);
    RoundingStaysBetween(m, lo, hi);
  }

  lemma MeanOfMultiple(sum: int, n: nat, k: nat)
    requires n > 0 && k > 0 && k * n > 0
    ensures Mean(k * sum, k * n) == Mean(sum, n)
  {
    var m := Mean(sum, n);
    assert m * n as real == sum as real;
    assert (k * sum) as real == k as real * sum as real;
    assert (k * n) as real == k as real * n as real;
    assert (k * sum) as real == m * (k * n) as real by {
      assert k as real * (m * n as real) == m * (k as real * n as real);
    }
  }

  lemma MeanIsMonotone(s: int, t: int, n: nat)
    requires n > 0 && s <= t
    ensures Mean(s, n) <= Mean(t, n)
  {
    assert Mean(s, n) * n as real == s as real;
    assert Mean(t, n) * n as real == t as real;
    CancelFactor(Mean(s, n), Mean(t, n), n as real);
  }

  // ---------- rounding error of a report ----------

  function SumOfTechnical(results: seq<Dimensions>): int {
    if results == [] then 0
    else
      var t := results[0].technical;
      t.correctness + t.relevance + t.completeness + t.technicalDepth + SumOfTechnical(results[1..])
  }

  function SumOfCommunication(results: seq<Dimensions>): int {
    if results == [] then 0
    else
      var c := results[0].communication;
      c.clarity + c.structure + c.conciseness + SumOfCommunication(results[1..])
  }

  lemma {:induction false} SumsOfDimensions(results: seq<Dimensions>)
    ensures SumOfTechnical(results) == SumBy(TechnicalTotal, results)
    ensures SumOfCommunication(results) == SumBy(CommunicationTotal, results)
  {
    if results != [] {
      SumsOfDimensions(results[1..]);
    }
  }

  /** Ten times the unrounded mean of every technical dimension of every evaluation. */
  function ExactTechnical(results: seq<Dimensions>): real
    requires results != []
  {
    10.0 * WideMean(SumOfTechnical(results), 4, |results|)
  }

  function ExactCommunication(results: seq<Dimensions>): real
    requires results != []
  {
    10.0 * WideMean(SumOfCommunication(results), 3, |results|)
  }

  function ExactOverall(results: seq<Dimensions>): real
    requires results != []
  {
    (ExactTechnical(results) + ExactCommunication(results)) / 2.0
  }

  function TenTechnical(d: Dimensions): int { 10 * TechnicalTotal(d) }

  function TenCommunication(d: Dimensions): int { 10 * CommunicationTotal(d) }

  lemma {:induction false} SumOfTens(results: seq<Dimensions>)
    ensures SumBy(TenTechnical, results) == 10 * SumBy(TechnicalTotal, results)
    ensures SumBy(TenCommunication, results) == 10 * SumBy(CommunicationTotal, results)
  {
    if results != [] {
      SumOfTens(results[1..]);
    }
  }

  lemma TenTimesWideMean(raw: int, k: nat, n: nat)
    requires k > 0 && n > 0
    ensures WideMean(10 * raw, k, n) == 10.0 * WideMean(raw, k, n)
  {
    assert (10 * raw) as real == 10.0 * raw as real;
  }

  lemma TechnicalMeanError(results: seq<Dimensions>)
    requires results != []
    ensures -2.5 <= Mean(SumBy(TechnicalPoints, results), |results|) - ExactTechnical(results) <= 5.0
  {
    hide TechnicalOverall, TechnicalPoints, Mean, WideMean;
    forall d | d in results ensures -10 <= 4 * TechnicalPoints(d) - TenTechnical(d) <= 20 {
      TechnicalOverallError(d);
    }
    SumError(TechnicalPoints, TenTechnical, results, 4, -10, 20);
    SumOfTens(results);
    SumsOfDimensions(results);
    var raw := SumBy(TechnicalTotal, results);
    MeanError(SumBy(TechnicalPoints, results), 10 * raw, |results|, 4, -10, 20);
    TenTimesWideMean(raw, 4, |results|);
  }

  lemma CommunicationMeanError(results: seq<Dimensions>)
    requires results != []
    ensures -10.0 / 3.0 <= Mean(SumBy(CommunicationPoints, results),
        |results|) - ExactCommunication(results) <= 10.0 / 3.0
  {
    hide CommunicationOverall, CommunicationPoints, Mean, WideMean;
    forall d | d in results ensures -10 <= 3 * CommunicationPoints(d) - TenCommunication(d) <= 10 {
      CommunicationOverallError(d);
    }
    SumError(CommunicationPoints, TenCommunication, results, 3, -10, 10);
    SumOfTens(results);
    SumsOfDimensions(results);
    var raw := SumBy(CommunicationTotal, results);
    MeanError(SumBy(CommunicationPoints, results), 10 * raw, |results|, 3, -10, 10);
    TenTimesWideMean(raw, 3, |results|);
  }

  /** The final halving loses nothing or half a point, always upwards. */
  lemma HalvesRoundUpOnly(sum: int)
    ensures 0.0 <= RoundHalfUp(sum as real / 2.0) as real - sum as real / 2.0 <= 0.5
  {
    var r := RoundHalfUp(sum as real / 2.0);
    RoundingWindow(sum as real / 2.0, r);
    assert sum as real - 1.0 < 2.0 * r as real <= sum as real + 1.0;
    assert 2.0 * r as real == (2 * r) as real;
    assert sum - 1 < 2 * r;
  }

  /**
   Rounding error of a report over any nonempty list of evaluations, against
   ten times the unrounded means of the dimensions.
   */
  lemma ReportRoundingError(results: seq<Dimensions>)
    requires results != []
    ensures var s := ReportScores(results).value;
            && -3.0 < s.technical as real - ExactTechnical(results) <= 11.0 / 2.0
            && -23.0 / 6.0 < s.communication as real - ExactCommunication(results) <= 23.0 / 6.0
            && -41.0 / 12.0 < s.overall as real - ExactOverall(results) <= 31.0 / 6.0
  {
    var s := ReportScores(results).value;
    TechnicalMeanError(results);
    CommunicationMeanError(results);
    RoundingWindow(Mean(SumBy(TechnicalPoints, results), |results|), s.technical);
    RoundingWindow(Mean(SumBy(CommunicationPoints, results), |results|), s.communication);
    HalvesRoundUpOnly(s.technical + s.communication);
  }

  lemma ScaledWindow(a: real, n: real, y: real)
    requires n > 0.0 && -0.5 < a <= 0.5 && y == a * n
    ensures -n < 2.0 * y <= n
  {
    assert (a + 0.5) * n > 0.0;
    assert (0.5 - a) * n >= 0.0;
  }

  lemma ScaledDifference(m: real, r: int, sum: int, n: nat)
    requires m * n as real == sum as real
    ensures (r as real - m) * n as real == (n * r - sum) as real
  {
    assert (n * r) as real == n as real * r as real;
  }

  lemma WholeWindow(x: int, n: nat)
    requires -(n as real) < 2.0 * x as real <= n as real
    ensures 0 < 2 * x + n && 2 * x <= n
  {
    assert 2.0 * x as real == (2 * x) as real;
  }

  lemma RoundedMean(sum: int, n: nat)
    requires n > 0
    ensures var r := RoundHalfUp(Mean(sum, n)); 2 * sum - n < 2 * (n * r) <= 2 * sum + n
  {
    hide Mean, RoundHalfUp;
    var m, r := Mean(sum, n), RoundHalfUp(Mean(sum, n));
    RoundingWindow(m, r);
    MeanTimes(sum, n);
    var x := n * r - sum;
    ScaledDifference(m, r, sum, n);
    ScaledWindow(r as real - m, n as real, x as real);
    WholeWindow(x, n);
  }

  lemma MeanTimes(sum: int, n: nat)
    requires n > 0
    ensures Mean(sum, n) * n as real == sum as real
  {
  }

  /**
   The exact scores in integers: each axis is the half-up rounding of ten times the mean of the per-answer
   overalls, and the overall score the half-up rounding of the mean of the axes.
   */
  lemma ReportScoresExactly(results: seq<Dimensions>)
    ensures ReportScores(results).Err? <==> results == []
    ensures results != [] ==>
              var s, n := ReportScores(results).value, |results|;
              var tech, comm := 10 * SumBy(TechnicalOverall, results), 10 * SumBy(CommunicationOverall, results);
              && 2 * tech - n < 2 * (n * s.technical) <= 2 * tech + n
              && 2 * comm - n < 2 * (n * s.communication) <= 2 * comm + n
              && 0 <= 2 * s.overall - (s.technical + s.communication) <= 1
  {
    if results != [] {
      var s := ReportScores(results).value;
      SumOfPoints(results);
      RoundedMean(SumBy(TechnicalPoints, results), |results|);
      RoundedMean(SumBy(CommunicationPoints, results), |results|);
      HalvesRoundUpOnly(s.technical + s.communication);
    }
  }

  lemma {:induction false} SumOfPoints(results: seq<Dimensions>)
    ensures SumBy(TechnicalPoints, results) == 10 * SumBy(TechnicalOverall, results)
    ensures SumBy(CommunicationPoints, results) == 10 * SumBy(CommunicationOverall, results)
  {
    if results != [] {
      TechnicalOverallError(results[0]);
      CommunicationOverallError(results[0]);
      SumOfPoints(results[1..]);
    }
  }

  /** The upper technical bound is attained by four answers, so it cannot be tightened. */
  lemma TechnicalBoundIsAttained()
    ensures exists results: seq<Dimensions> :: results != [] &&
              ReportScores(results).value.technical as real - ExactTechnical(results) == 11.0 / 2.0
  {
    var c := CommunicationScores(0, 0, 0);
    var low := Dimensions(TechnicalScores(2, 0, 0, 0), c);
    var high := Dimensions(TechnicalScores(6, 0, 0, 0), c);
    RoundingWindow(2 as real / 4.0, 1);
    RoundingWindow(6 as real / 4.0, 2);
    assert TechnicalPoints(low) == 10 && TechnicalPoints(high) == 20;
    var results := [low, low, low, high];
    SumOfFour(TechnicalPoints, low, low, low, high);
    SumOfFour(TechnicalTotal, low, low, low, high);
    SumsOfDimensions(results);
    RoundingWindow(Mean(50, 4), 13);
    assert ExactTechnical(results) == 7.5;
    assert ReportScores(results).value.technical == 13;
  }

  lemma SumOfFour(f: Dimensions -> int, a: Dimensions, b: Dimensions, c: Dimensions, d: Dimensions)
    ensures SumBy(f, [a, b, c, d]) == f(a) + f(b) + f(c) + f(d)
  {
    assert [a, b, c, d][1..] == [b, c, d];
    assert [b, c, d][1..] == [c, d];
    assert [c, d][1..] == [d];
    assert SumBy(f, [d]) == f(d);
    assert SumBy(f, [c, d]) == f(c) + f(d);
    assert SumBy(f, [b, c, d]) == f(b) + f(c) + f(d);
  }

  // ---------- bounds ----------

  function Zero(d: Dimensions): int { 0 }

  lemma {:induction false} SumOfZeros(results: seq<Dimensions>)
    ensures SumBy(Zero, results) == 0
  {
    if results != [] {
      SumOfZeros(results[1..]);
    }
  }

  lemma AxisLiesBetweenAnswers(f: Dimensions -> int, results: seq<Dimensions>, lo: int, hi: int)
    requires results != []
    requires forall d | d in results :: lo <= f(d) <= hi
    ensures lo <= RoundHalfUp(Mean(SumBy(f, results), |results|)) <= hi
  {
    SumError(f, Zero, results, 1, lo, hi);
    SumOfZeros(results);
    MeanStaysBetween(SumBy(f, results), |results|, lo, hi);
  }

  /**
   Each axis of a report lies between the least and the greatest per-answer
   score on that axis, and the overall score between the two axes.
   */
  lemma ReportLiesBetweenAnswers(results: seq<Dimensions>, lo: int, hi: int)
    requires results != []
    ensures var s := ReportScores(results).value;
            && ((forall d | d in results :: lo <= TechnicalPoints(d) <= hi) ==> lo <= s.technical <= hi)
            && ((forall d | d in results :: lo <= CommunicationPoints(d) <= hi) ==> lo <= s.communication <= hi)
            && (if s.technical <= s.communication then s.technical <= s.overall <= s.communication
                else s.communication <= s.overall <= s.technical)
  {
    var s := ReportScores(results).value;
    if forall d | d in results :: lo <= TechnicalPoints(d) <= hi {
      AxisLiesBetweenAnswers(TechnicalPoints, results, lo, hi);
    }
    if forall d | d in results :: lo <= CommunicationPoints(d) <= hi {
      AxisLiesBetweenAnswers(CommunicationPoints, results, lo, hi);
    }
    var half := (s.technical + s.communication) as real / 2.0;
    if s.technical <= s.communication {
      RoundingStaysBetween(half, s.technical, s.communication);
    } else {
      RoundingStaysBetween(half, s.communication, s.technical);
    }
  }

  /** The CHECK constraints of `answer_evaluations` and `performance_reports` cannot be violated. */
  lemma ScoresMeetTheCheckConstraints(results: seq<Dimensions>)
    requires results != []
    ensures forall d | d in results :: 0 <= TechnicalOverall(d) <= 10 && 0 <= CommunicationOverall(d) <= 10
    ensures var s := ReportScores(results).value;
            0 <= s.technical <= 100 && 0 <= s.communication <= 100 && 0 <= s.overall <= 100
  {
    forall d | d in results
      ensures 0 <= TechnicalOverall(d) <= 10 && 0 <= CommunicationOverall(d) <= 10
      ensures 0 <= TechnicalPoints(d) <= 100 && 0 <= CommunicationPoints(d) <= 100
    {
      TechnicalOverallError(d);
      CommunicationOverallError(d);
    }
    ReportLiesBetweenAnswers(results, 0, 100);
  }

  // ---------- order, repetition, monotonicity ----------

  /** The report does not depend on the order in which the rows are read. */
  lemma ReportIgnoresOrder(a: seq<Dimensions>, b: seq<Dimensions>)
    requires multiset(a) == multiset(b)
    ensures ReportScores(a) == ReportScores(b)
  {
    SumOfPermutation(TechnicalPoints, a, b);
    SumOfPermutation(CommunicationPoints, a, b);
  }

  /** Answering the same way `times` times over gives the same report. */
  lemma ReportIgnoresReplication(results: seq<Dimensions>, times: nat)
    requires results != [] && times > 0
    ensures ReportScores(Repeat(results, times)) == ReportScores(results)
  {
    SumOfRepetition(TechnicalPoints, results, times);
    SumOfRepetition(CommunicationPoints, results, times);
    assert times * |results| > 0;
    MeanOfMultiple(SumBy(TechnicalPoints, results), |results|, times);
    MeanOfMultiple(SumBy(CommunicationPoints, results), |results|, times);
    assert Repeat(results, times) != [];
  }

  /** Every dimension of `b` is at least that of `a`. */
  ghost predicate Below(a: Dimensions, b: Dimensions) {
    && a.technical.correctness <= b.technical.correctness
    && a.technical.relevance <= b.technical.relevance
    && a.technical.completeness <= b.technical.completeness
    && a.technical.technicalDepth <= b.technical.technicalDepth
    && a.communication.clarity <= b.communication.clarity
    && a.communication.structure <= b.communication.structure
    && a.communication.conciseness <= b.communication.conciseness
  }

  lemma PointsAreMonotone(a: Dimensions, b: Dimensions)
    requires Below(a, b)
    ensures TechnicalPoints(a) <= TechnicalPoints(b)
    ensures CommunicationPoints(a) <= CommunicationPoints(b)
  {
    RoundingIsMonotone(TechnicalTotal(a) as real / 4.0, TechnicalTotal(b) as real / 4.0);
    RoundingIsMonotone(CommunicationTotal(a) as real / 3.0, CommunicationTotal(b) as real / 3.0);
  }

  /** Raising any dimensions of any evaluations never lowers any of the three scores. */
  lemma ReportIsMonotone(a: seq<Dimensions>, b: seq<Dimensions>)
    requires a != [] && |a| == |b|
    requires forall i | 0 <= i < |a| :: Below(a[i], b[i])
    ensures var s, t := ReportScores(a).value, ReportScores(b).value;
            s.technical <= t.technical && s.communication <= t.communication && s.overall <= t.overall
  {
    var s, t := ReportScores(a).value, ReportScores(b).value;
    forall i | 0 <= i < |a|
      ensures TechnicalPoints(a[i]) <= TechnicalPoints(b[i]) && CommunicationPoints(a[i]) <= CommunicationPoints(b[i])
    {
      PointsAreMonotone(a[i], b[i]);
    }
    AxisIsMonotone(TechnicalPoints, a, b);
    AxisIsMonotone(CommunicationPoints, a, b);
    RoundingIsMonotone((s.technical + s.communication) as real / 2.0, (t.technical + t.communication) as real / 2.0);
  }

  lemma AxisIsMonotone(f: Dimensions -> int, a: seq<Dimensions>, b: seq<Dimensions>)
    requires a != [] && |a| == |b|
    requires forall i | 0 <= i < |a| :: f(a[i]) <= f(b[i])
    ensures RoundHalfUp(Mean(SumBy(f, a), |a|)) <= RoundHalfUp(Mean(SumBy(f, b), |b|))
  {
    SumIsMonotone(f, a, b);
    MeanIsMonotone(SumBy(f, a), SumBy(f, b), |a|);
    RoundingIsMonotone(Mean(SumBy(f, a), |a|), Mean(SumBy(f, b), |b|));
  }
}
