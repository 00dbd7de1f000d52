/** Governance resilience: recovery from emergencies, service disruption, improvement between the
    first and last thirds of the run, and stability of availability and satisfaction. */
module Resilience {
  import opened Common
  import opened Records
  import opened Rounds
  import Agents

  const EmergencyResponseTag := "emergency_response"

  /** Recovery times are measured against this many rounds. */
  const MaxRecoveryTime: real := 10.0

  /** Availability below this counts as a disrupted round. */
  const DisruptionLevel: real := 0.8

  /** Runs shorter than this report the neutral adaptive capacity. */
  const MinRecordsForTrend: nat := 10

  datatype ResilienceMetrics = ResilienceMetrics(
    recoverySpeed: real,
    disruptionRate: real,
    adaptiveCapacity: real,
    stabilityIndex: real)

  /** `calculate_resilience`; no records give all four metrics 0. */
  function CalculateResilience(records: seq<RoundRecord>): (r: ResilienceMetrics)
    ensures records == [] ==> r == ResilienceMetrics(0.0, 0.0, 0.0, 0.0)
  {
    if records == [] then ResilienceMetrics(0.0, 0.0, 0.0, 0.0)
    else ResilienceMetrics(RecoverySpeed(records), DisruptionRate(records),
                           AdaptiveCapacity(records), StabilityIndex(records))
  }

  // ---------------------------------------------------------------------------
  // Recovery speed

  predicate IsEmergencyResponse(x: Interaction) { x.kind == EmergencyResponseTag }

  /** `interaction.get('recovery_time', 5.0)` */
  function RecoveryTime(x: Interaction): real { x.recoveryTime.GetOr(5.0) }

  /** `calculate_system_recovery_speed`: 0.8 without emergencies, otherwise 1 minus the mean
      recovery time over 10, floored at 0. */
  function RecoverySpeed(records: seq<RoundRecord>): (r: real)
    ensures r >= 0.0
  {
    var events := Filter(AllInteractions(records), IsEmergencyResponse);
    if records == [] then 0.0
    else if events == [] then 0.8
    else Max(0.0, 1.0 - Mean(MapSeq(events, RecoveryTime)) / MaxRecoveryTime)
  }

  /** A run with records but no emergency response reports 0.8. */
  lemma RecoveryWithoutEmergencies(records: seq<RoundRecord>)
    requires records != [] && Count(AllInteractions(records), IsEmergencyResponse) == 0
    ensures RecoverySpeed(records) == 0.8
  {
  }

  /** With non-negative recovery times the speed lies in [0, 1]; it is 1 only when every
      recovery took no time. */
  lemma RecoverySpeedBounds(records: seq<RoundRecord>)
    requires forall x :: x in AllInteractions(records) && IsEmergencyResponse(x) ==> RecoveryTime(x) >= 0.0
    ensures 0.0 <= RecoverySpeed(records) <= 1.0
  {
    var events := Filter(AllInteractions(records), IsEmergencyResponse);
    if records != [] && events != [] {
      var ts := MapSeq(events, RecoveryTime);
      forall i | 0 <= i < |ts| ensures ts[i] >= 0.0 {
        assert events[i] in events;
      }
      SumNonNegative(ts);
    }
  }

  // ---------------------------------------------------------------------------
  // Service disruption

  /** `environment.get('service_availability', 1.0) < 0.8` */
  predicate Disrupted(rec: RoundRecord) { rec.environment.availability < DisruptionLevel }

  /** `calculate_service_disruption_rate`: the fraction of disrupted rounds. */
  function DisruptionRate(records: seq<RoundRecord>): (r: real)
    ensures 0.0 <= r <= 1.0
    ensures records != [] ==> r == (Count(records, Disrupted) as real) / (|records| as real)
  {
    Ratio(Count(records, Disrupted), |records|)
  }

  // ---------------------------------------------------------------------------
  // Adaptive capacity

  /** `records[:len(records)//3]`: the first third, rounded down. */
  function EarlyRecords(records: seq<RoundRecord>): seq<RoundRecord> {
    records[..|records| / 3]
  }

  /** Where `records[-len(records)//3:]` starts. `-len//3` floors the negated length, so the slice
      keeps the last third rounded up. */
  function LateStart(n: nat): (start: nat)
    ensures start <= n
  {
    var back := (-(n as int)) / 3;
    assert -(n as int) <= back <= 0;
    n + back
  }

  function LateRecords(records: seq<RoundRecord>): seq<RoundRecord> {
    records[LateStart(|records|)..]
  }

  /** The early window holds floor(n/3) records and the late one ceil(n/3). */
  lemma WindowSizes(records: seq<RoundRecord>)
    ensures |EarlyRecords(records)| == |records| / 3
    ensures |LateRecords(records)| == (|records| + 2) / 3
  {
    var n := |records|;
    var q := (-(n as int)) / 3;
    assert 3 * q <= -(n as int) < 3 * q + 3;
  }

  /** Ten records: three early and four late. */
  lemma TenRecordWindows(records: seq<RoundRecord>)
    requires |records| == 10
    ensures |EarlyRecords(records)| == 3 && |LateRecords(records)| == 4
  {
    WindowSizes(records);
  }

  /** The success fraction of each round that has interactions, in order. */
  function RoundEfficiencies(records: seq<RoundRecord>): seq<real> {
    if records == [] then []
    else
      var last := records[|records| - 1].interactions;
      RoundEfficiencies(records[..|records| - 1])
        + (if |last| > 0 then [Ratio(Count(last, IsSuccess), |last|)] else [])
  }

  /** `calculate_period_efficiency`: the mean success fraction over the rounds that have
      interactions, 0 when there are none. */
  function PeriodEfficiency(records: seq<RoundRecord>): real {
    var scores := RoundEfficiencies(records);
    if records == [] || scores == [] then 0.0 else Mean(scores)
  }

  lemma {:induction false} RoundEfficienciesBounds(records: seq<RoundRecord>)
    ensures AllIn(RoundEfficiencies(records), 0.0, 1.0)
  {
    if records != [] {
      RoundEfficienciesBounds(records[..|records| - 1]);
    }
  }

  /** The period efficiency lies in [0, 1]. */
  lemma PeriodEfficiencyBounds(records: seq<RoundRecord>)
    ensures 0.0 <= PeriodEfficiency(records) <= 1.0
  {
    RoundEfficienciesBounds(records);
    if records != [] && RoundEfficiencies(records) != [] {
      MeanBounds(RoundEfficiencies(records), 0.0, 1.0);
    }
  }

  /** A round without interactions is skipped: it changes nothing. */
  lemma EmptyRoundSkipped(records: seq<RoundRecord>, rec: RoundRecord)
    requires rec.interactions == []
    ensures RoundEfficiencies(records + [rec]) == RoundEfficiencies(records)
    ensures records != [] ==> PeriodEfficiency(records + [rec]) == PeriodEfficiency(records)
  {
    assert (records + [rec])[..|records|] == records;
  }

  /** `calculate_adaptive_capacity`: 0.5 for fewer than ten records, otherwise 0.5 plus the gain
      in period efficiency from the early window to the late one, clamped to [0, 1]. */
  function AdaptiveCapacity(records: seq<RoundRecord>): (r: real)
    ensures 0.0 <= r <= 1.0
    ensures |records| < MinRecordsForTrend ==> r == 0.5
  {
    if |records| < MinRecordsForTrend then 0.5
    else Clamp01(0.5 + (PeriodEfficiency(LateRecords(records)) - PeriodEfficiency(EarlyRecords(records))))
  }

  /** The capacity is above 0.5 exactly when the late window is more efficient than the early one. */
  lemma AdaptiveCapacityTrend(records: seq<RoundRecord>)
    requires |records| >= MinRecordsForTrend
    ensures AdaptiveCapacity(records) > 0.5
      <==> PeriodEfficiency(LateRecords(records)) > PeriodEfficiency(EarlyRecords(records))
  {
    PeriodEfficiencyBounds(LateRecords(records));
    PeriodEfficiencyBounds(EarlyRecords(records));
  }

  // ---------------------------------------------------------------------------
  // Stability

  /** `environment.get('service_availability', 1.0)` */
  function ServiceLevel(rec: RoundRecord): real { rec.environment.availability }

  /** `r.get('satisfaction', 3.0)` */
  function ResidentSatisfaction(r: map<string, Value>): real { NumOr(r, Agents.Satisfaction, 3.0) }

  /** The round's mean resident satisfaction over 5, or 0.6 when the round lists no residents. */
  function SatisfactionLevel(rec: RoundRecord): real {
    if rec.residents == [] then 0.6 else Mean(MapSeq(rec.residents, ResidentSatisfaction)) / 5.0
  }

  /** `calculate_stability_index`: 1 minus ten times the mean of the population variances of
      availability and satisfaction level, held in [0, 1]; 1 for fewer than two records. */
  function StabilityIndex(records: seq<RoundRecord>): (r: real)
    ensures 0.0 <= r <= 1.0
    ensures |records| < 2 ==> r == 1.0
  {
    if |records| < 2 then 1.0
    else
      var serviceVariance := Variance(MapSeq(records, ServiceLevel));
      var satisfactionVariance := Variance(MapSeq(records, SatisfactionLevel));
      VarianceNonNegative(MapSeq(records, ServiceLevel));
      VarianceNonNegative(MapSeq(records, SatisfactionLevel));
      Max(0.0, 1.0 - (serviceVariance + satisfactionVariance) / 2.0 * 10.0)
  }

  /** A run whose availability and satisfaction level never change is fully stable. */
  lemma SteadyRunIsStable(records: seq<RoundRecord>)
    requires records != []
    requires forall i :: 0 <= i < |records| ==> ServiceLevel(records[i]) == ServiceLevel(records[0])
    requires forall i :: 0 <= i < |records| ==> SatisfactionLevel(records[i]) == SatisfactionLevel(records[0])
    ensures StabilityIndex(records) == 1.0
  {
    if |records| >= 2 {
      VarianceOfConstant(MapSeq(records, ServiceLevel));
      VarianceOfConstant(MapSeq(records, SatisfactionLevel));
    }
  }

  /** Any variation at all lowers stability below 1: the index is 1 exactly when both variances are 0. */
  lemma StabilityOneIffNoVariance(records: seq<RoundRecord>)
    requires |records| >= 2
    ensures StabilityIndex(records) == 1.0
      <==> Variance(MapSeq(records, ServiceLevel)) + Variance(MapSeq(records, SatisfactionLevel)) == 0.0
  {
    VarianceNonNegative(MapSeq(records, ServiceLevel));
    VarianceNonNegative(MapSeq(records, SatisfactionLevel));
  }
}
