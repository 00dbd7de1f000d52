/** Agent status: resident, enterprise and government indicators and the overall health, balance
    and sustainability computed from them. The inputs are the agents' `get_state()` dictionaries. */
module AgentStatus {
  import opened Common
  import opened Records
  import Agents

  const TrustKey := "trust_in_government"
  const DigitalAccessKey := "digital_access"
  const MarketShareKey := "market_share"
  const AttributesKey := "attributes"
  const StateKey := "state"
  const TypeKey := "type"
  const InteractionCountKey := "interaction_count"
  const FinancialResources := "financial_resources"
  const TechnicalCapability := "technical_capability"
  const PolicyToolkit := "policy_toolkit"
  const PlatformRegulation := "platform_regulation"
  const ResourceUtilizationKey := "resource_utilization"

  /** The spreads are reported as population variances (see the model notes). */
  datatype ResidentMetrics = ResidentMetrics(
    avgSatisfaction: real,
    avgTrust: real,
    satisfactionVariance: real,
    trustVariance: real,
    digitalAdoptionRate: real)

  datatype EnterpriseMetrics = EnterpriseMetrics(
    avgMarketShare: real,
    avgInnovationLevel: real,
    avgComplianceRate: real,
    marketConcentration: real)

  datatype GovernmentMetrics = GovernmentMetrics(
    goalAchievementRate: real,
    policyEffectiveness: real,
    resourceUtilization: real,
    financialEfficiency: real,
    transparencyLevel: real)

  datatype OverallStatus = OverallStatus(systemHealth: real, stakeholderBalance: real, sustainability: real)

  datatype StatusReport = StatusReport(
    residents: ResidentMetrics,
    enterprises: EnterpriseMetrics,
    government: GovernmentMetrics,
    overall: OverallStatus)

  /** The dictionary `get_state()` returns: the type, the two dictionaries nested, and the count. */
  function StatusDict(s: Agents.Status): (d: map<string, Value>)
    ensures d.Keys == {TypeKey, AttributesKey, StateKey, InteractionCountKey}
    ensures NestedOr(d, AttributesKey) == s.attributes && NestedOr(d, StateKey) == s.state
  {
    map[TypeKey := Text(s.kind), AttributesKey := Nested(s.attributes), StateKey := Nested(s.state),
        InteractionCountKey := Number(s.interactionCount as real)]
  }

  // ---------------------------------------------------------------------------
  // Residents

  function SatisfactionScore(r: map<string, Value>): real { NumOr(r, Agents.Satisfaction, 3.0) }

  function TrustScore(r: map<string, Value>): real { NumOr(r, TrustKey, 50.0) }

  /** `r.get('digital_access', False) and r.get('service_usage_frequency', 0) > 2` */
  predicate DigitalUser(r: map<string, Value>) {
    FlagOr(r, DigitalAccessKey) && NumOr(r, Agents.UsageFrequency, 0.0) > 2.0
  }

  /** `calculate_resident_metrics`; no residents give all five metrics 0. */
  function ResidentMetricsOf(rs: seq<map<string, Value>>): (m: ResidentMetrics)
    ensures rs == [] ==> m == ResidentMetrics(0.0, 0.0, 0.0, 0.0, 0.0)
    ensures 0.0 <= m.digitalAdoptionRate <= 1.0
    ensures rs != [] ==> m.digitalAdoptionRate == (Count(rs, DigitalUser) as real) / (|rs| as real)
  {
    if rs == [] then ResidentMetrics(0.0, 0.0, 0.0, 0.0, 0.0)
    else
      var satisfaction := MapSeq(rs, SatisfactionScore);
      var trust := MapSeq(rs, TrustScore);
      ResidentMetrics(Mean(satisfaction), Mean(trust), Variance(satisfaction), Variance(trust),
                      Ratio(Count(rs, DigitalUser), |rs|))
  }

  /** The spreads are never negative, and the mean satisfaction stays within any bounds that hold
      every resident's score. */
  lemma ResidentMetricsBounds(rs: seq<map<string, Value>>, lo: real, hi: real)
    requires lo <= hi
    requires forall r :: r in rs ==> lo <= SatisfactionScore(r) <= hi
    ensures ResidentMetricsOf(rs).satisfactionVariance >= 0.0 && ResidentMetricsOf(rs).trustVariance >= 0.0
    ensures rs != [] ==> lo <= ResidentMetricsOf(rs).avgSatisfaction <= hi
  {
    if rs != [] {
      var satisfaction := MapSeq(rs, SatisfactionScore);
      VarianceNonNegative(satisfaction);
      VarianceNonNegative(MapSeq(rs, TrustScore));
      MapBounds(rs, SatisfactionScore, lo, hi);
      MeanBounds(satisfaction, lo, hi);
    }
  }

  // ---------------------------------------------------------------------------
  // Enterprises

  function MarketShareOf(e: map<string, Value>): real { NumOr(e, MarketShareKey, 0.1) }

  function InnovationOf(e: map<string, Value>): real { NumOr(e, Agents.Innovation, 50.0) }

  function ComplianceOf(e: map<string, Value>): real { NumOr(e, Agents.Compliance, 90.0) }

  /** The sum of the squared shares, each divided by `total`. */
  function SquaredShares(shares: seq<real>, total: real): real
    requires total != 0.0
  {
    if shares == [] then 0.0
    else
      var s := shares[|shares| - 1] / total;
      SquaredShares(shares[..|shares| - 1], total) + s * s
  }

  /** `calculate_herfindahl_index`: the sum of squared normalised shares, 0 for no shares or a
      zero total. */
  function Herfindahl(shares: seq<real>): (r: real)
    ensures shares == [] || Sum(shares) == 0.0 ==> r == 0.0
  {
    if shares == [] || Sum(shares) == 0.0 then 0.0 else SquaredShares(shares, Sum(shares))
  }

  /** A share no larger than the total is a fraction whose square is no larger than itself. */
  lemma UnitShare(x: real, total: real)
    requires total > 0.0 && 0.0 <= x <= total
    ensures 0.0 <= x / total <= 1.0 && (x / total) * (x / total) <= x / total
  {
    var s := x / total;
    assert s * total == x;
    assert s * s <= s * 1.0;
  }

  /** With non-negative shares summing to at most `total`, the squared normalised shares sum to at
      most the normalised total. */
  lemma {:induction false} SquaredSharesBound(shares: seq<real>, total: real)
    requires total > 0.0 && AllIn(shares, 0.0, total) && Sum(shares) <= total
    ensures 0.0 <= SquaredShares(shares, total) <= Sum(shares) / total
  {
    if shares != [] {
      var init := shares[..|shares| - 1];
      var x := shares[|shares| - 1];
      assert AllIn(init, 0.0, total) by {
        forall i | 0 <= i < |init| ensures 0.0 <= init[i] <= total {
          assert init[i] == shares[i];
        }
      }
      assert Sum(shares) == Sum(init) + x;
      assert Sum(init) <= total;
      SquaredSharesBound(init, total);
      UnitShare(x, total);
      assert SquaredShares(shares, total) == SquaredShares(init, total) + (x / total) * (x / total);
      DivideSum(Sum(init), x, total);
    }
  }

  lemma DivideSum(a: real, b: real, t: real)
    requires t != 0.0
    ensures (a + b) / t == a / t + b / t
  {
  }

  /** For non-negative shares the index lies in [0, 1]. */
  lemma HerfindahlBounds(shares: seq<real>)
    requires AllIn(shares, 0.0, Sum(shares))
    ensures 0.0 <= Herfindahl(shares) <= 1.0
  {
    if shares != [] && Sum(shares) != 0.0 {
      SumBounds(shares, 0.0, Sum(shares));
      SquaredSharesBound(shares, Sum(shares));
    }
  }

  /** Each of `k` equal shares contributes the square of its normalised size. */
  lemma {:induction false} SquaredSharesConstant(shares: seq<real>, c: real, total: real)
    requires total != 0.0 && forall i :: 0 <= i < |shares| ==> shares[i] == c
    ensures SquaredShares(shares, total) == (|shares| as real) * ((c / total) * (c / total))
  {
    if shares != [] {
      SquaredSharesConstant(shares[..|shares| - 1], c, total);
    }
  }

  /** `n` equal positive shares give an index of 1/n: one firm alone gives 1. */
  lemma HerfindahlOfEqualShares(shares: seq<real>, c: real)
    requires |shares| > 0 && c > 0.0 && forall i :: 0 <= i < |shares| ==> shares[i] == c
    ensures Herfindahl(shares) == 1.0 / (|shares| as real)
  {
    var n := |shares| as real;
    assert AllIn(shares, c, c);
    SumBounds(shares, c, c);
    assert Sum(shares) == n * c;
    SquaredSharesConstant(shares, c, n * c);
    assert c / (n * c) == 1.0 / n;
    assert n * ((1.0 / n) * (1.0 / n)) == 1.0 / n;
  }

  /** `calculate_enterprise_metrics`; no enterprises give all four metrics 0. */
  function EnterpriseMetricsOf(es: seq<map<string, Value>>): (m: EnterpriseMetrics)
    ensures es == [] ==> m == EnterpriseMetrics(0.0, 0.0, 0.0, 0.0)
  {
    if es == [] then EnterpriseMetrics(0.0, 0.0, 0.0, 0.0)
    else
      var shares := MapSeq(es, MarketShareOf);
      EnterpriseMetrics(Mean(shares), Mean(MapSeq(es, InnovationOf)), Mean(MapSeq(es, ComplianceOf)),
                        Herfindahl(shares))
  }

  // ---------------------------------------------------------------------------
  // Government

  /** `calculate_goal_achievement`: (financial resources + technical capability) / 200, times the
      fixed alignment 0.8, capped at 1. */
  function GoalAchievement(government: map<string, Value>): (r: real)
    ensures r <= 1.0
  {
    var attributes := NestedOr(government, AttributesKey);
    Min(1.0, (NumOr(attributes, FinancialResources, 100.0) + NumOr(attributes, TechnicalCapability, 80.0)) / 200.0 * 0.8)
  }

  /** `calculate_policy_effectiveness`: 0.3 times the toolkit size over 5 (capped at 1), plus 0.3
      times transparency over 100, plus 0.4 times platform regulation over 100. */
  function PolicyEffectiveness(government: map<string, Value>): real {
    var attributes := NestedOr(government, AttributesKey);
    var toolkit := Min(1.0, (LengthOr(attributes, PolicyToolkit) as real) / 5.0);
    toolkit * 0.3 + NumOr(attributes, Agents.Transparency, 70.0) / 100.0 * 0.3
      + NumOr(attributes, PlatformRegulation, 90.0) / 100.0 * 0.4
  }

  /** `calculate_government_metrics` */
  function GovernmentMetricsOf(government: map<string, Value>): (m: GovernmentMetrics)
    ensures m.goalAchievementRate == GoalAchievement(government)
    ensures m.policyEffectiveness == PolicyEffectiveness(government)
  {
    var attributes := NestedOr(government, AttributesKey);
    GovernmentMetrics(GoalAchievement(government), PolicyEffectiveness(government),
                      NumOr(NestedOr(government, StateKey), ResourceUtilizationKey, 0.7),
                      NumOr(attributes, FinancialResources, 100.0) / 100.0,
                      NumOr(attributes, Agents.Transparency, 70.0) / 100.0)
  }

  /** A government without attributes or state scores its defaults. */
  lemma GovernmentDefaults(government: map<string, Value>)
    requires AttributesKey !in government && StateKey !in government
    ensures GovernmentMetricsOf(government) == GovernmentMetrics(0.72, 0.57, 0.7, 1.0, 0.7)
  {
  }

  /** With resources, capability, transparency and regulation on their 0 to 100 scales, the goal
      achievement and policy effectiveness lie in [0, 1]. */
  lemma GovernmentScoresBounds(government: map<string, Value>)
    requires var a := NestedOr(government, AttributesKey);
      0.0 <= NumOr(a, FinancialResources, 100.0) && 0.0 <= NumOr(a, TechnicalCapability, 80.0)
      && 0.0 <= NumOr(a, Agents.Transparency, 70.0) <= 100.0
      && 0.0 <= NumOr(a, PlatformRegulation, 90.0) <= 100.0
    ensures 0.0 <= GoalAchievement(government) <= 1.0
    ensures 0.0 <= PolicyEffectiveness(government) <= 1.0
  {
  }

  // ---------------------------------------------------------------------------
  // Overall status

  /** The three stakeholder scores the balance compares: satisfaction over 5, innovation over 100
      and goal achievement. */
  function StakeholderScores(r: ResidentMetrics, e: EnterpriseMetrics, g: GovernmentMetrics): (s: seq<real>)
    ensures |s| == 3
  {
    [r.avgSatisfaction / 5.0, e.avgInnovationLevel / 100.0, g.goalAchievementRate]
  }

  /** `calculate_overall_status`. `spread` is the standard deviation of the stakeholder scores:
      a non-negative number whose square is their population variance. */
  function Overall(r: ResidentMetrics, e: EnterpriseMetrics, g: GovernmentMetrics, spread: real): (o: OverallStatus)
    requires spread >= 0.0 && spread * spread == Variance(StakeholderScores(r, e, g))
    ensures 0.0 <= o.stakeholderBalance <= 1.0
  {
    var scores := StakeholderScores(r, e, g);
    OverallStatus(scores[0] * 0.3 + scores[1] * 0.3 + scores[2] * 0.4,
                  1.0 - Min(1.0, spread),
                  g.resourceUtilization * 0.4 + e.avgComplianceRate / 100.0 * 0.3 + r.digitalAdoptionRate * 0.3)
  }

  /** When the three stakeholder scores are equal their spread is 0, and with it the stakeholders
      are perfectly balanced. */
  lemma EqualScoresBalanced(r: ResidentMetrics, e: EnterpriseMetrics, g: GovernmentMetrics)
    requires r.avgSatisfaction / 5.0 == g.goalAchievementRate && e.avgInnovationLevel / 100.0 == g.goalAchievementRate
    ensures Variance(StakeholderScores(r, e, g)) == 0.0
    ensures Overall(r, e, g, 0.0).stakeholderBalance == 1.0
  {
    var scores := StakeholderScores(r, e, g);
    assert scores[1] == scores[0] && scores[2] == scores[0];
    VarianceOfConstant(scores);
  }

  /** Health and sustainability are weighted means: with every normalised input in [0, 1], both
      lie in [0, 1]. */
  lemma OverallBounds(r: ResidentMetrics, e: EnterpriseMetrics, g: GovernmentMetrics, spread: real)
    requires spread >= 0.0 && spread * spread == Variance(StakeholderScores(r, e, g))
    requires AllIn(StakeholderScores(r, e, g), 0.0, 1.0)
    requires 0.0 <= g.resourceUtilization <= 1.0 && 0.0 <= e.avgComplianceRate <= 100.0
    requires 0.0 <= r.digitalAdoptionRate <= 1.0
    ensures 0.0 <= Overall(r, e, g, spread).systemHealth <= 1.0
    ensures 0.0 <= Overall(r, e, g, spread).sustainability <= 1.0
  {
    var s := StakeholderScores(r, e, g);
    assert 0.0 <= s[0] <= 1.0 && 0.0 <= s[1] <= 1.0 && 0.0 <= s[2] <= 1.0;
  }

  /** `calculate_agent_status` */
  function CalculateAgentStatus(government: map<string, Value>, enterprises: seq<map<string, Value>>,
                                residents: seq<map<string, Value>>, spread: real): (s: StatusReport)
    requires spread >= 0.0
    requires spread * spread == Variance(StakeholderScores(ResidentMetricsOf(residents),
      EnterpriseMetricsOf(enterprises), GovernmentMetricsOf(government)))
    ensures s.residents == ResidentMetricsOf(residents) && s.enterprises == EnterpriseMetricsOf(enterprises)
    ensures s.government == GovernmentMetricsOf(government)
    ensures 0.0 <= s.overall.stakeholderBalance <= 1.0
  {
    var r, e, g := ResidentMetricsOf(residents), EnterpriseMetricsOf(enterprises), GovernmentMetricsOf(government);
    StatusReport(r, e, g, Overall(r, e, g, spread))
  }

  /** The `get_state()` dictionary has none of the per-agent keys the status metrics look up. */
  lemma StatusDictMissing(s: Agents.Status, key: string)
    requires key != TypeKey && key != AttributesKey && key != StateKey && key != InteractionCountKey
    ensures key !in StatusDict(s)
  {
  }

  /** The resident keys are looked up at the top level of the `get_state()` dictionaries, where
      they never are: every resident scores the defaults and none counts as a digital user. */
  lemma ResidentStatusDefaults(rs: seq<Agents.Status>)
    requires |rs| > 0
    ensures var m := ResidentMetricsOf(MapSeq(rs, StatusDict));
      m.avgSatisfaction == 3.0 && m.avgTrust == 50.0 && m.satisfactionVariance == 0.0
      && m.trustVariance == 0.0 && m.digitalAdoptionRate == 0.0
  {
    var rd := MapSeq(rs, StatusDict);
    var satisfaction := MapSeq(rd, SatisfactionScore);
    var trust := MapSeq(rd, TrustScore);
    forall i | 0 <= i < |rd| ensures satisfaction[i] == 3.0 && trust[i] == 50.0 {
      StatusDictMissing(rs[i], Agents.Satisfaction);
      StatusDictMissing(rs[i], TrustKey);
    }
    VarianceOfConstant(satisfaction);
    VarianceOfConstant(trust);
    NoDigitalUsers(rs);
  }

  lemma NoDigitalUsers(rs: seq<Agents.Status>)
    ensures Count(MapSeq(rs, StatusDict), DigitalUser) == 0
  {
    var rd := MapSeq(rs, StatusDict);
    forall d | d in rd ensures !DigitalUser(d) {
      var i :| 0 <= i < |rd| && rd[i] == d;
      StatusDictMissing(rs[i], DigitalAccessKey);
    }
    CountNone(rd, DigitalUser);
  }

  /** Every enterprise likewise holds the default share 0.1, innovation 50 and compliance 90, so
      the market always looks evenly split among the enterprises. */
  lemma EnterpriseStatusDefaults(es: seq<Agents.Status>)
    requires |es| > 0
    ensures var m := EnterpriseMetricsOf(MapSeq(es, StatusDict));
      m.avgMarketShare == 0.1 && m.avgInnovationLevel == 50.0 && m.avgComplianceRate == 90.0
      && m.marketConcentration == 1.0 / (|es| as real)
  {
    var ed := MapSeq(es, StatusDict);
    var shares := MapSeq(ed, MarketShareOf);
    var innovation := MapSeq(ed, InnovationOf);
    var compliance := MapSeq(ed, ComplianceOf);
    forall i | 0 <= i < |ed| ensures shares[i] == 0.1 && innovation[i] == 50.0 && compliance[i] == 90.0 {
      StatusDictMissing(es[i], MarketShareKey);
      StatusDictMissing(es[i], Agents.Innovation);
      StatusDictMissing(es[i], Agents.Compliance);
    }
    VarianceOfConstant(shares);
    VarianceOfConstant(innovation);
    VarianceOfConstant(compliance);
    HerfindahlOfEqualShares(shares, 0.1);
  }
}
