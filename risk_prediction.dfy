/**
 * The ban-risk scorer: five factor assessments over the metrics a session
 * reports, their fixed-weight combination, a bounded score history, the
 * four risk levels, the trend of recent scores, and the alerts, mitigation
 * actions and recommendations each level calls for. Clock readings are
 * parameters.
 */
module RiskPrediction {
  import opened Common

  /** A value in the reported session data: a number, an object of numeric
      fields, or any other value (one that compares false with every number). */
  datatype Value = Num(n: real) | Obj(fields: map<string, real>) | Other

  /** The session data an assessment reads. */
  type SessionData = map<string, Value>

  /** `sessionData[key]` when it is a number. */
  function NumAt(d: SessionData, key: string): Option<real>
  {
    if key in d && d[key].Num? then Some(d[key].n) else None
  }

  /** `sessionData[key]` when it is a truthy number (present and not zero). */
  function TruthyAt(d: SessionData, key: string): Option<real>
  {
    if key in d && d[key].Num? && d[key].n != 0.0 then Some(d[key].n) else None
  }

  /** `sessionData[key][field]` when `sessionData[key]` is an object with that field. */
  function FieldAt(d: SessionData, key: string, field: string): Option<real>
  {
    if key in d && d[key].Obj? && field in d[key].fields then Some(d[key].fields[field]) else None
  }

  /** A comparison with a missing value is false, as one with `undefined` is. */
  predicate Above(v: Option<real>, t: real)
  {
    v.Some? && v.value > t
  }

  predicate Below(v: Option<real>, t: real)
  {
    v.Some? && v.value < t
  }

  /** `Math.min(x, 1)`. */
  function Min1(x: real): (r: real)
    ensures r <= 1.0 && r <= x
    ensures x <= 1.0 ==> r == x
  {
    if x < 1.0 then x else 1.0
  }

  /** Two-step penalty: `high` below `t1`, else `low` below `t2`, else none. */
  function BelowPenalty(v: Option<real>, t1: real, high: real, t2: real, low: real): real
  {
    if Below(v, t1) then high else if Below(v, t2) then low else 0.0
  }

  /** Two-step penalty: `high` above `t1`, else `low` above `t2`, else none. */
  function AbovePenalty(v: Option<real>, t1: real, high: real, t2: real, low: real): real
  {
    if Above(v, t1) then high else if Above(v, t2) then low else 0.0
  }

  /** One-step penalty. */
  function Flag(b: bool, p: real): real
  {
    if b then p else 0.0
  }

  /** The session duration in minutes, when reported. */
  function DurationMinutes(d: SessionData): Option<real>
  {
    match TruthyAt(d, "sessionDuration")
    case Some(ms) => Some(ms / 60000.0)
    case None => None
  }

  /** The hours since the previous session, when reported. */
  function HoursSinceLast(d: SessionData): Option<real>
  {
    match TruthyAt(d, "timeSinceLastSession")
    case Some(ms) => Some(ms / 3600000.0)
    case None => None
  }

  /** `assessTimingRisk`: action speed, timing variance and session length. */
  function TimingRisk(d: SessionData): (r: real)
    ensures 0.0 <= r <= 1.0
  {
    Min1(BelowPenalty(TruthyAt(d, "actionSpeed"), 500.0, 0.4, 1000.0, 0.2)
       + BelowPenalty(TruthyAt(d, "timingVariance"), 100.0, 0.3, 300.0, 0.1)
       + AbovePenalty(DurationMinutes(d), 60.0, 0.2, 30.0, 0.1))
  }

  /** `assessBehaviorRisk`: mouse linearity and pauses, scroll consistency and
      direction, and the error rate (which counts even when it is 0). */
  function BehaviorRisk(d: SessionData): (r: real)
    ensures 0.0 <= r <= 1.0
  {
    Min1(Flag(Above(FieldAt(d, "mouseMovements", "linearity"), 0.9), 0.3)
       + Flag(Below(FieldAt(d, "mouseMovements", "pauseFrequency"), 0.1), 0.2)
       + Flag(Above(FieldAt(d, "scrollBehavior", "consistency"), 0.8), 0.2)
       + Flag(Above(FieldAt(d, "scrollBehavior", "directionRatio"), 0.95), 0.1)
       + (if Below(NumAt(d, "errorRate"), 0.01) then 0.2 else if Above(NumAt(d, "errorRate"), 0.1) then 0.1 else 0.0))
  }

  /** `assessPatternRisk`: path repetition, action variety and element reuse. */
  function PatternRisk(d: SessionData): (r: real)
    ensures 0.0 <= r <= 1.0
  {
    Min1(AbovePenalty(TruthyAt(d, "pathRepetition"), 0.8, 0.4, 0.6, 0.2)
       + Flag(Below(FieldAt(d, "actionSequences", "variety"), 3.0), 0.3)
       + Flag(Above(FieldAt(d, "elementInteractions", "sameElements"), 0.7), 0.2))
  }

  /** `assessNetworkRisk`: proxy failures and reputation, request frequency and bursts. */
  function NetworkRisk(d: SessionData): (r: real)
    ensures 0.0 <= r <= 1.0
  {
    Min1(Flag(Above(FieldAt(d, "proxyInfo", "failedAttempts"), 3.0), 0.3)
       + Flag(Below(FieldAt(d, "proxyInfo", "reputation"), 0.5), 0.2)
       + Flag(Above(FieldAt(d, "requestPatterns", "frequency"), 10.0), 0.3)
       + Flag(Above(FieldAt(d, "requestPatterns", "burstiness"), 0.8), 0.2))
  }

  /** `assessSessionRisk`: posts processed, success rate (which counts even
      when it is 0) and time since the previous session. */
  function SessionRisk(d: SessionData): (r: real)
    ensures 0.0 <= r <= 1.0
  {
    Min1(AbovePenalty(TruthyAt(d, "postsProcessed"), 50.0, 0.3, 30.0, 0.1)
       + Flag(Below(NumAt(d, "successRate"), 0.5), 0.2)
       + BelowPenalty(HoursSinceLast(d), 1.0, 0.3, 6.0, 0.1))
  }

  /** A zero action speed, timing variance or session length is ignored, just
      as a missing one is. */
  lemma ZeroTimingSignalIsAbsent(d: SessionData, key: string)
    requires key in {"actionSpeed", "timingVariance", "sessionDuration"}
    ensures TimingRisk(d[key := Num(0.0)]) == TimingRisk(d - {key})
  {
  }

  /** A zero error rate is not ignored: it is the "too few errors" signal. */
  lemma ZeroErrorRateCounts(d: SessionData)
    ensures BehaviorRisk(d["errorRate" := Num(0.0)]) >= 0.2
  {
    var e := d["errorRate" := Num(0.0)];
    assert NumAt(e, "errorRate") == Some(0.0);
  }

  /** A faster reported action speed never lowers the timing risk. */
  lemma FasterActionsAreRiskier(d: SessionData, slow: real, fast: real)
    requires 0.0 < fast <= slow
    ensures TimingRisk(d["actionSpeed" := Num(fast)]) >= TimingRisk(d["actionSpeed" := Num(slow)])
  {
    var a := d["actionSpeed" := Num(fast)];
    var b := d["actionSpeed" := Num(slow)];
    assert TruthyAt(a, "timingVariance") == TruthyAt(b, "timingVariance");
    assert DurationMinutes(a) == DurationMinutes(b);
  }

  /** The keys `sanitizeSessionData` strips. */
  const SensitiveKeys: set<string> := {"cookies", "userData", "sensitiveData"}

  /** `sanitizeSessionData`: a copy without the sensitive keys. */
  function Sanitize(d: SessionData): (r: SessionData)
    ensures r.Keys == d.Keys - SensitiveKeys
    ensures forall k :: k in r ==> r[k] == d[k]
  {
    map k | k in d && k !in SensitiveKeys :: d[k]
  }

  /** The scores of the five factors. */
  datatype Breakdown = Breakdown(timing: real, behavior: real, patterns: real, network: real, session: real)

  function Assess(d: SessionData): (b: Breakdown)
    ensures InUnit(b)
  {
    Breakdown(TimingRisk(d), BehaviorRisk(d), PatternRisk(d), NetworkRisk(d), SessionRisk(d))
  }

  predicate InUnit(b: Breakdown)
  {
    0.0 <= b.timing <= 1.0 && 0.0 <= b.behavior <= 1.0 && 0.0 <= b.patterns <= 1.0 &&
    0.0 <= b.network <= 1.0 && 0.0 <= b.session <= 1.0
  }

  /** A key that is not sensitive reads the same after sanitising. */
  lemma SanitizeKeepsKey(d: SessionData, k: string)
    requires k !in SensitiveKeys
    ensures NumAt(Sanitize(d), k) == NumAt(d, k) && TruthyAt(Sanitize(d), k) == TruthyAt(d, k)
    ensures forall f :: FieldAt(Sanitize(d), k, f) == FieldAt(d, k, f)
  {
  }

  /** Removing the sensitive keys changes no assessment. */
  lemma SanitizeKeepsAssessment(d: SessionData)
    ensures Assess(Sanitize(d)) == Assess(d)
  {
    SanitizeKeepsTiming(d);
    SanitizeKeepsBehavior(d);
    SanitizeKeepsPatterns(d);
    SanitizeKeepsNetwork(d);
    SanitizeKeepsSession(d);
  }

  lemma SanitizeKeepsTiming(d: SessionData)
    ensures TimingRisk(Sanitize(d)) == TimingRisk(d)
  {
    SanitizeKeepsKey(d, "actionSpeed");
    SanitizeKeepsKey(d, "timingVariance");
    SanitizeKeepsKey(d, "sessionDuration");
    assert DurationMinutes(Sanitize(d)) == DurationMinutes(d);
  }

  lemma SanitizeKeepsBehavior(d: SessionData)
    ensures BehaviorRisk(Sanitize(d)) == BehaviorRisk(d)
  {
    SanitizeKeepsKey(d, "mouseMovements");
    SanitizeKeepsKey(d, "scrollBehavior");
    SanitizeKeepsKey(d, "errorRate");
  }

  lemma SanitizeKeepsPatterns(d: SessionData)
    ensures PatternRisk(Sanitize(d)) == PatternRisk(d)
  {
    SanitizeKeepsKey(d, "pathRepetition");
    SanitizeKeepsKey(d, "actionSequences");
    SanitizeKeepsKey(d, "elementInteractions");
  }

  lemma SanitizeKeepsNetwork(d: SessionData)
    ensures NetworkRisk(Sanitize(d)) == NetworkRisk(d)
  {
    SanitizeKeepsKey(d, "proxyInfo");
    SanitizeKeepsKey(d, "requestPatterns");
  }

  lemma SanitizeKeepsSession(d: SessionData)
    ensures SessionRisk(Sanitize(d)) == SessionRisk(d)
  {
    SanitizeKeepsKey(d, "postsProcessed");
    SanitizeKeepsKey(d, "successRate");
    SanitizeKeepsKey(d, "timeSinceLastSession");
    assert HoursSinceLast(Sanitize(d)) == HoursSinceLast(d);
  }

  /** The five risk factors, in the order their scores are combined. */
  datatype Factor = TimingFactor | BehaviorFactor | PatternFactor | NetworkFactor | SessionFactor

  const Factors: seq<Factor> := [TimingFactor, BehaviorFactor, PatternFactor, NetworkFactor, SessionFactor]

  /** The configured weight of a factor. */
  function Weight(f: Factor): real
  {
    match f
    case TimingFactor => 0.3
    case BehaviorFactor => 0.25
    case PatternFactor => 0.2
    case NetworkFactor => 0.15
    case SessionFactor => 0.1
  }

  function ScoreOf(b: Breakdown, f: Factor): real
  {
    match f
    case TimingFactor => b.timing
    case BehaviorFactor => b.behavior
    case PatternFactor => b.patterns
    case NetworkFactor => b.network
    case SessionFactor => b.session
  }

  /** `Σ score·weight` over `fs`. */
  function WeightedSum(b: Breakdown, fs: seq<Factor>): real
  {
    if |fs| == 0 then 0.0 else WeightedSum(b, fs[..|fs| - 1]) + ScoreOf(b, fs[|fs| - 1]) * Weight(fs[|fs| - 1])
  }

  /** `Σ weight` over `fs`. */
  function TotalWeight(fs: seq<Factor>): real
  {
    if |fs| == 0 then 0.0 else TotalWeight(fs[..|fs| - 1]) + Weight(fs[|fs| - 1])
  }

  /** The weights add up to 1, so the combined score is the plain weighted sum. */
  lemma {:induction false} CombinedClosedForm(b: Breakdown)
    ensures TotalWeight(Factors) == 1.0
    ensures WeightedSum(b, Factors) / TotalWeight(Factors) ==
      0.3 * b.timing + 0.25 * b.behavior + 0.2 * b.patterns + 0.15 * b.network + 0.1 * b.session
  {
    var f4 := [TimingFactor, BehaviorFactor, PatternFactor, NetworkFactor];
    var f3 := [TimingFactor, BehaviorFactor, PatternFactor];
    var f2 := [TimingFactor, BehaviorFactor];
    var f1 := [TimingFactor];
    assert Factors[..4] == f4 && f4[..3] == f3 && f3[..2] == f2 && f2[..1] == f1 && f1[..0] == [];
    assert WeightedSum(b, f1) == b.timing * 0.3;
    assert WeightedSum(b, f2) == b.timing * 0.3 + b.behavior * 0.25;
    assert WeightedSum(b, f3) == b.timing * 0.3 + b.behavior * 0.25 + b.patterns * 0.2;
    assert WeightedSum(b, f4) == b.timing * 0.3 + b.behavior * 0.25 + b.patterns * 0.2 + b.network * 0.15;
    assert TotalWeight(f4) == 0.9;
  }

  /** The combined score of factor scores in [0, 1] is in [0, 1]. */
  lemma CombinedInUnit(b: Breakdown)
    requires InUnit(b)
    ensures TotalWeight(Factors) == 1.0
    ensures 0.0 <= WeightedSum(b, Factors) / TotalWeight(Factors) <= 1.0
  {
    CombinedClosedForm(b);
    MulMonotone(b.timing, 1.0, 0.3);
    MulMonotone(b.behavior, 1.0, 0.25);
    MulMonotone(b.patterns, 1.0, 0.2);
    MulMonotone(b.network, 1.0, 0.15);
    MulMonotone(b.session, 1.0, 0.1);
    MulNonNegative(b.timing, 0.3);
    MulNonNegative(b.behavior, 0.25);
    MulNonNegative(b.patterns, 0.2);
    MulNonNegative(b.network, 0.15);
    MulNonNegative(b.session, 0.1);
  }

  /** A stored assessment. */
  datatype Assessment = Assessment(timestamp: int, score: real, breakdown: Breakdown, sessionData: SessionData)

  const HistoryLimit: nat := 100

  /** The history after a push: the last 100 entries. */
  function Capped(h: seq<Assessment>): (r: seq<Assessment>)
    ensures |r| <= HistoryLimit
    ensures |h| <= HistoryLimit ==> r == h
    ensures |h| > HistoryLimit ==> |r| == HistoryLimit && r == h[|h| - HistoryLimit..]
  {
    if |h| > HistoryLimit then h[|h| - HistoryLimit..] else h
  }

  /** Pushing an entry keeps every score of the capped history in [0, 1] and
      makes the entry the last one. */
  lemma CappedKeepsScores(h: seq<Assessment>, e: Assessment)
    requires forall i :: 0 <= i < |h| ==> 0.0 <= h[i].score <= 1.0
    requires 0.0 <= e.score <= 1.0
    ensures var r := Capped(h + [e]);
            |r| > 0 && r[|r| - 1] == e && forall i :: 0 <= i < |r| ==> 0.0 <= r[i].score <= 1.0
  {
  }

  /** The four risk levels. */
  datatype Level = Low | Medium | High | Critical

  /** `getRiskLevel()` for a score. */
  function LevelOf(score: real): (l: Level)
    ensures l == Low <==> score < 0.3
    ensures l == Medium <==> 0.3 <= score < 0.6
    ensures l == High <==> 0.6 <= score < 0.8
    ensures l == Critical <==> score >= 0.8
  {
    if score < 0.3 then Low else if score < 0.6 then Medium else if score < 0.8 then High else Critical
  }

  /** A higher score never has a lower level. */
  lemma LevelMonotone(a: real, b: real)
    requires a <= b
    ensures LevelRank(LevelOf(a)) <= LevelRank(LevelOf(b))
  {
  }

  function LevelRank(l: Level): nat
  {
    match l
    case Low => 0
    case Medium => 1
    case High => 2
    case Critical => 3
  }

  /** The direction `analyzeRiskTrend` reports. */
  datatype RiskTrend = Increasing | Decreasing | Steady

  /** `analyzeRiskTrend()` over the stored scores: the mean of the last five
      against the mean of up to five before them, with ±20% thresholds. A
      zero older mean divides to an infinity of the sign of the recent mean
      (NaN, hence steady, when both are 0). */
  function TrendOf(scores: seq<real>): (t: RiskTrend)
    ensures |scores| < 6 ==> t == Steady
  {
    if |scores| < 5 then Steady
    else
      var n := |scores|;
      var recent := scores[n - 5..];
      var older := scores[if n >= 10 then n - 10 else 0 .. n - 5];
      if |older| == 0 then Steady
      else
        var ra := Mean(recent);
        var oa := Mean(older);
        if oa == 0.0 then (if ra > 0.0 then Increasing else if ra < 0.0 then Decreasing else Steady)
        else
          var change := (ra - oa) / oa;
          if change > 0.2 then Increasing else if change < -0.2 then Decreasing else Steady
  }

  /** The trend reads only the last ten scores: older entries in front of
      them change nothing. */
  lemma TrendReadsLastTen(before: seq<real>, scores: seq<real>)
    requires |scores| >= 10
    ensures TrendOf(before + scores) == TrendOf(scores)
  {
    var all := before + scores;
    var n := |all|;
    var m := |scores|;
    assert all[n - 5..] == scores[m - 5..];
    assert all[n - 10 .. n - 5] == scores[m - 10 .. m - 5];
  }

  /** With a positive older mean, the trend is increasing exactly when the
      recent mean is more than 20% higher, and decreasing exactly when it is
      more than 20% lower. */
  lemma TrendAgainstOlder(scores: seq<real>)
    requires |scores| >= 6
    requires Mean(scores[if |scores| >= 10 then |scores| - 10 else 0 .. |scores| - 5]) > 0.0
    ensures var n := |scores|;
            var ra := Mean(scores[n - 5..]);
            var oa := Mean(scores[if n >= 10 then n - 10 else 0 .. n - 5]);
            (TrendOf(scores) == Increasing <==> ra > 1.2 * oa) &&
            (TrendOf(scores) == Decreasing <==> ra < 0.8 * oa)
  {
    var n := |scores|;
    var ra := Mean(scores[n - 5..]);
    var oa := Mean(scores[if n >= 10 then n - 10 else 0 .. n - 5]);
    QuotientCompare(ra - oa, oa, 0.2);
    QuotientCompare(ra - oa, oa, -0.2);
  }

  /** With a zero older mean, the trend follows the sign of the recent mean. */
  lemma TrendAgainstZeroOlder(scores: seq<real>)
    requires |scores| >= 6
    requires Mean(scores[if |scores| >= 10 then |scores| - 10 else 0 .. |scores| - 5]) == 0.0
    ensures var ra := Mean(scores[|scores| - 5..]);
            (TrendOf(scores) == Increasing <==> ra > 0.0) &&
            (TrendOf(scores) == Decreasing <==> ra < 0.0) &&
            (TrendOf(scores) == Steady <==> ra == 0.0)
  {
  }

  /** With a negative older mean, dividing by it flips both comparisons. */
  lemma TrendAgainstNegativeOlder(scores: seq<real>)
    requires |scores| >= 6
    requires Mean(scores[if |scores| >= 10 then |scores| - 10 else 0 .. |scores| - 5]) < 0.0
    ensures var n := |scores|;
            var ra := Mean(scores[n - 5..]);
            var oa := Mean(scores[if n >= 10 then n - 10 else 0 .. n - 5]);
            (TrendOf(scores) == Increasing <==> ra < 1.2 * oa) &&
            (TrendOf(scores) == Decreasing <==> ra > 0.8 * oa)
  {
    var n := |scores|;
    var ra := Mean(scores[n - 5..]);
    var oa := Mean(scores[if n >= 10 then n - 10 else 0 .. n - 5]);
    QuotientCompareNegative(ra - oa, oa, 0.2);
    QuotientCompareNegative(ra - oa, oa, -0.2);
  }

  /** The alert messages and recommendation texts. */
  const CriticalAlertMessage: string := "Krytyczne ryzyko bana! Zalecane natychmiastowe zatrzymanie sesji."
  const HighAlertMessage: string := "Wysokie ryzyko bana. Zalecane zwolnienie aktywności."
  const MediumAlertMessage: string := "Średnie ryzyko bana. Zalecana ostrożność."
  const TrendAlertMessage: string := "Ryzyko rośnie. Rozważ przerwę."
  const StopAdvice: string := "Natychmiast zatrzymaj sesję i odczekaj co najmniej 30 minut"
  const ChangeProxyAdvice: string := "Zmień proxy i odśwież fingerprint urządzenia"
  const ReviewLogsAdvice: string := "Przejrzyj logi aby zidentyfikować problematyczne wzorce"
  const IncreaseDelaysAdvice: string := "Zwiększ opóźnienia między akcjami o 25-50%"
  const NaturalBehaviourAdvice: string := "Dodaj więcej naturalnych zachowań (mysz, scroll)"
  const ShortBreakAdvice: string := "Rozważ krótką przerwę 5-10 minut"
  const LongBreakAdvice: string := "Ryzyko systematycznie rośnie - rozważ dłuższą przerwę"
  const DetectionChangeAdvice: string := "Sprawdź czy nie nastąpiła zmiana w systemie detekcji Facebooka"

  /** An alert: its level, message, suggested action and clock reading. */
  datatype Alert = Alert(kind: string, message: string, action: string, timestamp: int)

  /** `generateAlerts()`: one alert for a medium, high or critical level,
      followed by a trend alert when the risk is increasing. */
  function AlertsFor(level: Level, trend: RiskTrend, now: int): (r: seq<Alert>)
    ensures |r| == (if level == Low then 0 else 1) + (if trend == Increasing then 1 else 0)
    ensures level != Low ==> r[0].action == LevelAlertAction(level) && r[0].timestamp == now
    ensures trend == Increasing ==> r[|r| - 1].kind == "trend" && r[|r| - 1].action == "take_break"
    ensures forall i :: 0 <= i < |r| ==> r[i].timestamp == now
  {
    var levelAlert :=
      match level
      case Critical => [Alert("critical", CriticalAlertMessage, "stop_session", now)]
      case High => [Alert("high", HighAlertMessage, "slow_down", now)]
      case Medium => [Alert("medium", MediumAlertMessage, "be_cautious", now)]
      case Low => [];
    levelAlert + (if trend == Increasing then [Alert("trend", TrendAlertMessage, "take_break", now)] else [])
  }

  /** The action the level alert suggests. */
  function LevelAlertAction(level: Level): string
  {
    match level
    case Critical => "stop_session"
    case High => "slow_down"
    case Medium => "be_cautious"
    case Low => ""
  }

  /** A mitigation action with its priority. */
  datatype Mitigation = Mitigation(kind: string, action: string, description: string, priority: int)

  /** The descriptions of the mitigation actions. */
  const StopSessionText: string := "Natychmiastowe zatrzymanie sesji"
  const ChangeProxyText: string := "Zmiana proxy IP"
  const IncreaseDelaysText: string := "Zwiększenie opóźnień o 50%"
  const ReduceActivityText: string := "Redukcja aktywności o 30%"
  const AddRandomnessText: string := "Dodanie więcej losowości do zachowań"
  const ShortBreakText: string := "Krótka przerwa 5-10 minut"

  /** `generateMitigationActions()`. */
  function MitigationsFor(level: Level): (r: seq<Mitigation>)
    ensures level == Low <==> r == []
    ensures level != Low ==> |r| == 2 && r[0].priority == 1 && r[1].priority == 2 && r[0].kind == r[1].kind
    ensures level == Critical ==> r[0].action == "stop_session" && r[1].action == "change_proxy"
    ensures level == High ==> r[0].action == "increase_delays" && r[1].action == "reduce_activity"
    ensures level == Medium ==> r[0].action == "add_randomness" && r[1].action == "take_short_break"
  {
    match level
    case Critical => [Mitigation("immediate", "stop_session", StopSessionText, 1),
                      Mitigation("immediate", "change_proxy", ChangeProxyText, 2)]
    case High => [Mitigation("adjustment", "increase_delays", IncreaseDelaysText, 1),
                  Mitigation("adjustment", "reduce_activity", ReduceActivityText, 2)]
    case Medium => [Mitigation("prevention", "add_randomness", AddRandomnessText, 1),
                    Mitigation("prevention", "take_short_break", ShortBreakText, 2)]
    case Low => []
  }

  /** At a critical level the alert and the first mitigation agree: stop the session. */
  lemma CriticalMeansStop(trend: RiskTrend, now: int)
    ensures AlertsFor(Critical, trend, now)[0].action == MitigationsFor(Critical)[0].action == "stop_session"
  {
  }

  /** `getRecommendations()`: three stop-and-change items for high or
      critical, three slow-down items for medium, and two more when the
      risk is increasing. */
  function RecommendationsFor(level: Level, trend: RiskTrend): (r: seq<string>)
    ensures |r| == (if level == Low then 0 else 3) + (if trend == Increasing then 2 else 0)
    ensures (level == High || level == Critical) ==> r[0] == StopAdvice
    ensures level == Medium ==> r[0] == IncreaseDelaysAdvice
  {
    (if level == Critical || level == High then
       [StopAdvice,
        ChangeProxyAdvice,
        ReviewLogsAdvice]
     else [])
    + (if level == Medium then
         [IncreaseDelaysAdvice,
          NaturalBehaviourAdvice,
          ShortBreakAdvice]
       else [])
    + (if trend == Increasing then
         [LongBreakAdvice,
          DetectionChangeAdvice]
       else [])
  }

  /** The scores of a history, oldest first. */
  function Scores(h: seq<Assessment>): (s: seq<real>)
    ensures |s| == |h| && forall i :: 0 <= i < |h| ==> s[i] == h[i].score
  {
    seq(|h|, i requires 0 <= i < |h| => h[i].score)
  }

  /** The entries newer than `cutoff`, in order (`filter`). */
  function NewerThan(h: seq<Assessment>, cutoff: int): (r: seq<Assessment>)
    ensures |r| <= |h|
    ensures forall i :: 0 <= i < |r| ==> r[i].timestamp > cutoff && r[i] in h
    ensures forall i :: 0 <= i < |h| && h[i].timestamp > cutoff ==> h[i] in r
  {
    var r := Filter(h, (x: Assessment) => x.timestamp > cutoff);
    assert forall i :: 0 <= i < |r| ==> r[i] in r;
    r
  }

  /** The cleanup keeps the order of the history: it distributes over
      concatenation, keeps a newer entry and drops an older one, and
      cleaning twice at the same cutoff changes nothing more. */
  lemma NewerThanKeepsOrder(a: seq<Assessment>, b: seq<Assessment>, x: Assessment, cutoff: int)
    ensures NewerThan(a + b, cutoff) == NewerThan(a, cutoff) + NewerThan(b, cutoff)
    ensures NewerThan([x], cutoff) == if x.timestamp > cutoff then [x] else []
    ensures NewerThan(NewerThan(a, cutoff), cutoff) == NewerThan(a, cutoff)
  {
    var p := (y: Assessment) => y.timestamp > cutoff;
    FilterAppend(a, b, p);
    assert [x][..0] == [];
    FilterTwice(a, p);
  }

  const Day: int := 24 * 60 * 60 * 1000

  /** The predictor's state. */
  class RiskPredictor {
    var currentRiskScore: real
    var riskHistory: seq<Assessment>
    var alerts: seq<Alert>
    var mitigationActions: seq<Mitigation>

    ghost predicate Valid()
      reads this
    {
      0.0 <= currentRiskScore <= 1.0 && |riskHistory| <= HistoryLimit &&
      forall i :: 0 <= i < |riskHistory| ==> 0.0 <= riskHistory[i].score <= 1.0
    }

    constructor()
      ensures Valid()
      ensures currentRiskScore == 0.0 && riskHistory == [] && alerts == [] && mitigationActions == []
    {
      currentRiskScore := 0.0;
      riskHistory := [];
      alerts := [];
      mitigationActions := [];
    }

    /** `calculateRiskScore(sessionData)` at clock reading `now`. */
    method CalculateRiskScore(d: SessionData, now: int) returns (score: real)
      requires Valid()
      modifies this
      ensures Valid()
      ensures score == currentRiskScore
      ensures score == 0.3 * TimingRisk(d) + 0.25 * BehaviorRisk(d) + 0.2 * PatternRisk(d)
                     + 0.15 * NetworkRisk(d) + 0.1 * SessionRisk(d)
      ensures 0.0 <= score <= 1.0
      ensures riskHistory == Capped(old(riskHistory) + [Assessment(now, score, Assess(d), Sanitize(d))])
      ensures riskHistory[|riskHistory| - 1].score == score
      ensures alerts == old(alerts) && mitigationActions == old(mitigationActions)
    {
      var b := Assess(d);
      var combined := CombineScores(b);
      CombinedClosedForm(b);
      CombinedInUnit(b);
      currentRiskScore := combined;
      var entry := Assessment(now, combined, b, Sanitize(d));
      CappedKeepsScores(riskHistory, entry);
      riskHistory := Capped(riskHistory + [entry]);
      score := combined;
    }

    /** The weighted-sum loop of `calculateRiskScore`. */
    static method CombineScores(b: Breakdown) returns (combined: real)
      ensures TotalWeight(Factors) != 0.0
      ensures combined == WeightedSum(b, Factors) / TotalWeight(Factors)
    {
      var totalScore := 0.0;
      var totalWeight := 0.0;
      for i := 0 to |Factors|
        invariant totalScore == WeightedSum(b, Factors[..i])
        invariant totalWeight == TotalWeight(Factors[..i])
      {
        assert Factors[..i + 1][..i] == Factors[..i];
        totalScore := totalScore + ScoreOf(b, Factors[i]) * Weight(Factors[i]);
        totalWeight := totalWeight + Weight(Factors[i]);
      }
      assert Factors[..|Factors|] == Factors;
      CombinedClosedForm(b);
      combined := totalScore / totalWeight;
    }

    /** `getRiskLevel()`. */
    function RiskLevel(): (l: Level)
      reads this
      ensures l == Low <==> currentRiskScore < 0.3
      ensures l == Medium <==> 0.3 <= currentRiskScore < 0.6
      ensures l == High <==> 0.6 <= currentRiskScore < 0.8
      ensures l == Critical <==> currentRiskScore >= 0.8
    {
      LevelOf(currentRiskScore)
    }

    /** `analyzeRiskTrend()`. */
    function Trend(): (t: RiskTrend)
      reads this
      ensures |riskHistory| < 6 ==> t == Steady
    {
      TrendOf(Scores(riskHistory))
    }

    /** `generateAlerts()` at clock reading `now`. */
    method GenerateAlerts(now: int) returns (r: seq<Alert>)
      requires Valid()
      modifies this
      ensures Valid()
      ensures r == AlertsFor(LevelOf(currentRiskScore), TrendOf(Scores(riskHistory)), now) && alerts == r
      ensures currentRiskScore == old(currentRiskScore) && riskHistory == old(riskHistory)
      ensures mitigationActions == old(mitigationActions)
    {
      r := AlertsFor(RiskLevel(), Trend(), now);
      alerts := r;
    }

    /** `generateMitigationActions()`. */
    method GenerateMitigationActions() returns (r: seq<Mitigation>)
      requires Valid()
      modifies this
      ensures Valid()
      ensures r == MitigationsFor(LevelOf(currentRiskScore)) && mitigationActions == r
      ensures currentRiskScore == old(currentRiskScore) && riskHistory == old(riskHistory) && alerts == old(alerts)
    {
      r := MitigationsFor(RiskLevel());
      mitigationActions := r;
    }

    /** `reset()`: the score, alerts and actions are cleared; the history is kept. */
    method Reset()
      requires Valid()
      modifies this
      ensures Valid()
      ensures currentRiskScore == 0.0 && alerts == [] && mitigationActions == []
      ensures riskHistory == old(riskHistory)
    {
      currentRiskScore := 0.0;
      alerts := [];
      mitigationActions := [];
    }

    /** `cleanup()` at clock reading `now`: entries older than a day are dropped. */
    method Cleanup(now: int)
      requires Valid()
      modifies this
      ensures Valid()
      ensures riskHistory == NewerThan(old(riskHistory), now - Day)
      ensures currentRiskScore == old(currentRiskScore) && alerts == old(alerts)
      ensures mitigationActions == old(mitigationActions)
    {
      riskHistory := NewerThan(riskHistory, now - Day);
    }
  }
}
