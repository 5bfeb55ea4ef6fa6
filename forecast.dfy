/** The forecast panel: mean attendance, the success, arrear-risk and
    improvement scores derived from it and the student's record, the
    placement verdict, and the panel state set by one forecast run. */
module Forecast {
  import opened Types
  import opened Numbers

  /** The insight shown when the AI reply carries no text. */
  const InsightFallback := "Keep focusing on your current study patterns to maintain your CGPA."

  /** The percentage a record contributes to the mean: a missing one counts as 0. */
  function PercentOrZero(r: AttendanceRecord): real
  {
    r.percentage.GetOr(0.0)
  }

  /** The sum of the records' percentages, missing ones counted as 0. */
  function SumPercent(records: seq<AttendanceRecord>): real
  {
    if records == [] then 0.0
    else SumPercent(records[..|records| - 1]) + PercentOrZero(records[|records| - 1])
  }

  /** The mean attendance over the records, 0 when there are none. */
  function AvgAttendance(records: seq<AttendanceRecord>): (avg: real)
    ensures records == [] ==> avg == 0.0
    ensures records != [] ==> avg * |records| as real == SumPercent(records)
  {
    if |records| > 0 then SumPercent(records) / |records| as real else 0.0
  }

  /** Sums of percentages that all lie in [lo, hi] lie between |records|*lo and |records|*hi. */
  lemma {:induction false} SumPercentBounds(records: seq<AttendanceRecord>, lo: real, hi: real)
    requires forall i :: 0 <= i < |records| ==> lo <= PercentOrZero(records[i]) <= hi
    ensures |records| as real * lo <= SumPercent(records) <= |records| as real * hi
    decreases |records|
  {
    if records != [] {
      var init := records[..|records| - 1];
      assert forall i :: 0 <= i < |init| ==> init[i] == records[i];
      SumPercentBounds(init, lo, hi);
      var n := |init| as real;
      assert |records| as real * lo == n * lo + lo && |records| as real * hi == n * hi + hi;
      assert lo <= PercentOrZero(records[|records| - 1]) <= hi;
    }
  }

  /** The mean of percentages that all lie in [lo, hi] lies in [lo, hi]. */
  lemma AvgAttendanceBounds(records: seq<AttendanceRecord>, lo: real, hi: real)
    requires records != []
    requires forall i :: 0 <= i < |records| ==> lo <= PercentOrZero(records[i]) <= hi
    ensures lo <= AvgAttendance(records) <= hi
  {
    SumPercentBounds(records, lo, hi);
    var n, avg := |records| as real, AvgAttendance(records);
    assert avg * n == SumPercent(records);
    assert (avg - lo) * n >= 0.0;
    assert (hi - avg) * n >= 0.0;
  }

  /** The raw success score: ten times the CGPA plus a tenth of the mean
      attendance, capped at 95. */
  function SuccessScore(cgpa: real, avgAttendance: real): (r: real)
    ensures r <= 95.0
    ensures r <= cgpa * 10.0 + avgAttendance / 10.0
    ensures r == 95.0 || r == cgpa * 10.0 + avgAttendance / 10.0
  {
    var raw := cgpa * 10.0 + avgAttendance / 10.0;
    if raw < 95.0 then raw else 95.0
  }

  /** The raw arrear-risk score: with arrears it grows by ten per arrear from 40,
      whatever the success score; without, it is the complement of the success
      score, but at least 5. */
  function RiskScore(arrears: int, success: real): (r: real)
    ensures arrears > 0 ==> r == 40.0 + 10.0 * arrears as real
    ensures arrears <= 0 ==> r >= 5.0 && r >= 100.0 - success && (r == 5.0 || r == 100.0 - success)
    ensures arrears <= 0 && success <= 95.0 ==> r == 100.0 - success
  {
    if arrears > 0 then 40.0 + arrears as real * 10.0
    else if 100.0 - success > 5.0 then 100.0 - success else 5.0
  }

  /** The improvement potential: 15 above 85% mean attendance, otherwise 30. */
  function ImprovementScore(avgAttendance: real): (r: int)
    ensures r == 15 <==> avgAttendance > 85.0
    ensures r == 15 || r == 30
  {
    HalfUp(if avgAttendance > 85.0 then 15.0 else 30.0)
  }

  datatype Probabilities = Probabilities(success: int, arrearRisk: int, gradeImprovement: int)

  /** The three displayed scores: each raw score rounded half-up to an integer. */
  function Scores(cgpa: real, arrears: int, avgAttendance: real): (p: Probabilities)
    ensures var raw := SuccessScore(cgpa, avgAttendance);
      raw - 0.5 < p.success as real <= raw + 0.5
    ensures var risk := RiskScore(arrears, SuccessScore(cgpa, avgAttendance));
      risk - 0.5 < p.arrearRisk as real <= risk + 0.5
    ensures p.success <= 95
    ensures arrears > 0 ==> p.arrearRisk == 40 + 10 * arrears
    ensures arrears <= 0 ==> p.arrearRisk >= 5 && 100 <= p.success + p.arrearRisk <= 101
    ensures p.gradeImprovement == 15 <==> avgAttendance > 85.0
    ensures p.gradeImprovement == if avgAttendance > 85.0 then 15 else 30
  {
    var success := SuccessScore(cgpa, avgAttendance);
    var risk := RiskScore(arrears, success);
    Probabilities(HalfUp(success), HalfUp(risk), ImprovementScore(avgAttendance))
  }

  /** The placement-eligibility row: the range and the likelihood label. */
  datatype Placement = Placement(range: string, likelihood: string)

  /** Placement reads qualified and likely exactly when the CGPA is above 7.5. */
  function PlacementOf(cgpa: real): (p: Placement)
    ensures p.range == "Qualified" <==> cgpa > 7.5
    ensures p.likelihood == "Likely" <==> cgpa > 7.5
    ensures p.range in {"Qualified", "Requires Effort"} && p.likelihood in {"Likely", "Moderate"}
  {
    if cgpa > 7.5 then Placement("Qualified", "Likely") else Placement("Requires Effort", "Moderate")
  }

  /** The insight text: the AI's reply, or the fallback sentence when it is empty. */
  function InsightText(text: string): (r: string)
    ensures r != []
    ensures text != [] ==> r == text
    ensures text == [] ==> r == InsightFallback
  {
    if text != [] then text else InsightFallback
  }

  /** How a forecast run ends: an exception before the scores are set (the AI
      request, or the data fetch), or the AI's reply text. */
  datatype AiReply = Failed | Replied(text: string)

  /** The state of the forecast panel. */
  class ForecastPanel {
    var loading: bool
    var insight: string
    var probabilities: Probabilities

    /** The panel as first mounted: loading, no insight, all scores 0. */
    constructor()
      ensures loading && insight == [] && probabilities == Probabilities(0, 0, 0)
    {
      loading := true;
      insight := [];
      probabilities := Probabilities(0, 0, 0);
    }

    /** generateForecast with the fetched attendance rows (`None` when the query
        returned no data) and the outcome of the AI request. A failure leaves the
        insight and scores as they were; either way loading ends false. */
    method GenerateForecast(student: Student, attendance: Option<seq<AttendanceRecord>>, reply: AiReply)
      modifies this
      ensures !loading
      ensures reply.Failed? ==> insight == old(insight) && probabilities == old(probabilities)
      ensures reply.Replied? ==>
        insight == InsightText(reply.text) &&
        probabilities == Scores(student.cgpa, student.arrears, AvgAttendance(attendance.GetOr([])))
    {
      loading := true;
      var records := attendance.GetOr([]);
      var avgAttendance := AvgAttendance(records);
      if reply.Failed? {
        loading := false;
        return;
      }
      insight := InsightText(reply.text);
      var successProb := SuccessScore(student.cgpa, avgAttendance);
      var riskProb := RiskScore(student.arrears, successProb);
      probabilities := Probabilities(HalfUp(successProb), HalfUp(riskProb), ImprovementScore(avgAttendance));
      loading := false;
    }
  }

  /** A panel whose first forecast run fails shows all scores at 0 and is no
      longer loading. */
  method FirstForecastAfterFailure(student: Student, attendance: Option<seq<AttendanceRecord>>)
    returns (probabilities: Probabilities, loading: bool, insight: string)
    ensures probabilities == Probabilities(0, 0, 0) && !loading && insight == []
  {
    var panel := new ForecastPanel();
    panel.GenerateForecast(student, attendance, Failed);
    probabilities, loading, insight := panel.probabilities, panel.loading, panel.insight;
  }

  /** A panel whose first forecast run gets a reply shows the rounded scores and
      a nonempty insight. */
  method FirstForecastAfterReply(student: Student, attendance: seq<AttendanceRecord>, text: string)
    returns (probabilities: Probabilities, insight: string)
    ensures insight != []
    ensures probabilities.success <= 95
    ensures probabilities.gradeImprovement == 15 <==> AvgAttendance(attendance) > 85.0
    ensures probabilities == Scores(student.cgpa, student.arrears, AvgAttendance(attendance))
    ensures insight == InsightText(text)
  {
    var panel := new ForecastPanel();
    panel.GenerateForecast(student, Some(attendance), Replied(text));
    probabilities, insight := panel.probabilities, panel.insight;
  }
}
