/**
 * From the predictor's raw output to the stored churn-risk percentage, and
 * the thresholds the views apply to that percentage.
 */
module Scoring {
  import opened Arith

  /**
   * Normalisation of the raw regressor output. An output above 2.0 is taken
   * to be a percentage already and is only capped at 100; anything else is
   * taken to be a probability, clamped to [0, 1] and scaled by 100.
   */
  function NormalizeRisk(raw: real): (r: real)
    ensures 0.0 <= r <= 100.0
  {
    if raw > 2.0 then Min(raw, 100.0) else Min(Max(raw, 0.0), 1.0) * 100.0
  }

  /** The probability reading: a raw output in [0, 1] becomes that fraction of 100. */
  lemma NormalizeProbability(raw: real)
    requires 0.0 <= raw <= 1.0
    ensures NormalizeRisk(raw) == raw * 100.0
  {
  }

  /** The percentage reading: a raw output in (2, 100] is kept unchanged, one above 100 is capped. */
  lemma NormalizePercentage(raw: real)
    requires raw > 2.0
    ensures raw <= 100.0 ==> NormalizeRisk(raw) == raw
    ensures raw > 100.0 ==> NormalizeRisk(raw) == 100.0
  {
  }

  /** Raw outputs in (1, 2] saturate at 100; non-positive outputs give 0. */
  lemma NormalizeSaturates(raw: real)
    ensures 1.0 < raw <= 2.0 ==> NormalizeRisk(raw) == 100.0
    ensures raw <= 0.0 ==> NormalizeRisk(raw) == 0.0
  {
  }

  lemma NormalizeExamples()
    ensures NormalizeRisk(0.42) == 42.0
    ensures NormalizeRisk(75.0) == 75.0
    ensures NormalizeRisk(1.5) == 100.0
    ensures NormalizeRisk(2.0) == 100.0
  {
  }

  /**
   * The two readings meet badly at 2.0: the normalisation is not monotone,
   * since a raw 2.0 scores 100 while a larger raw 2.5 scores 2.5.
   */
  lemma NormalizeNotMonotone()
    ensures exists a: real, b: real :: a < b && NormalizeRisk(a) > NormalizeRisk(b)
  {
    assert NormalizeRisk(2.0) == 100.0 && NormalizeRisk(2.5) == 2.5;
  }

  /** The three bands of the primary risk panel. */
  datatype Band = High | Moderate | Secure

  /** Each band is exactly its risk interval. */
  function RiskBand(risk: real): (b: Band)
    ensures b == High <==> 60.0 < risk
    ensures b == Moderate <==> 30.0 < risk <= 60.0
    ensures b == Secure <==> risk <= 30.0
  {
    if risk > 60.0 then High else if risk > 30.0 then Moderate else Secure
  }

  /** Severity order of the bands: Secure < Moderate < High. */
  function Severity(b: Band): nat {
    match b
    case Secure => 0
    case Moderate => 1
    case High => 2
  }

  /** The band boundaries belong to the lower band: 60 is still moderate and 30 still secure. */
  lemma BandBoundaries()
    ensures RiskBand(60.0) == Moderate && RiskBand(60.1) == High
    ensures RiskBand(30.0) == Secure && RiskBand(30.1) == Moderate
  {
  }

  /** A higher risk never lands in a less severe band. */
  lemma BandMonotone(a: real, b: real)
    requires a <= b
    ensures Severity(RiskBand(a)) <= Severity(RiskBand(b))
  {
  }

  /** Sidebar status: critical strictly above 50. */
  predicate SidebarCritical(risk: real)
    ensures SidebarCritical(risk) ==> DossierHighRisk(risk)
  {
    risk > 50.0
  }

  /** Dossier status (on screen and in the export): high risk from 50 on. */
  predicate DossierHighRisk(risk: real)
    ensures DossierHighRisk(risk) ==> RiskBand(risk) != Secure
  {
    risk >= 50.0
  }

  /** The sidebar and the dossier disagree on exactly one score, 50. */
  lemma StatusFlagsDisagreeOnlyAtFifty(risk: real)
    ensures SidebarCritical(risk) != DossierHighRisk(risk) <==> risk == 50.0
  {
  }

  /** The bands agree with both flags away from the 50 boundary: high is flagged by both, secure by neither. */
  lemma BandsAgreeWithFlags(risk: real)
    ensures RiskBand(risk) == High ==> SidebarCritical(risk) && DossierHighRisk(risk)
    ensures RiskBand(risk) == Secure ==> !SidebarCritical(risk) && !DossierHighRisk(risk)
  {
  }

  /** Colour of the risk gauge. */
  datatype Tone = Red | Amber | Green

  function GaugeTone(risk: real): (t: Tone)
    ensures t == Red <==> 50.0 <= risk
    ensures t == Amber <==> 25.0 <= risk < 50.0
    ensures t == Green <==> risk < 25.0
  {
    if risk >= 50.0 then Red else if risk >= 25.0 then Amber else Green
  }

  /** The gauge is red exactly when the dossier says high risk, and a green gauge is always in the secure band. */
  lemma GaugeMatchesDossier(risk: real)
    ensures GaugeTone(risk) == Red <==> DossierHighRisk(risk)
    ensures GaugeTone(risk) == Green ==> RiskBand(risk) == Secure
  {
  }
}
