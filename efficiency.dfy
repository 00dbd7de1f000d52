/** Governance efficiency: how fast service requests are answered and how many are resolved,
    the share of active interactions and the mean cost of policy implementation. */
module Efficiency {
  import opened Common
  import opened Records

  const ServiceRequestTag := "service_request"
  const PolicyImplementationTag := "policy_implementation"
  const ActiveStatus := "active"

  datatype EfficiencyMetrics = EfficiencyMetrics(
    avgResponseTime: real,
    resolutionRate: real,
    resourceUtilization: real,
    policyCost: real)

  predicate IsServiceRequest(x: Interaction) { x.kind == ServiceRequestTag }

  predicate IsPolicyImplementation(x: Interaction) { x.kind == PolicyImplementationTag }

  predicate IsActive(x: Interaction) { x.status == Some(ActiveStatus) }

  predicate IsResolved(x: Interaction) { x.resolved == Some(true) }

  /** `r.get('response_time', 1.0)` */
  function ResponseTime(x: Interaction): real { x.responseTime.GetOr(1.0) }

  /** `1.0 if r.get('resolved', False) else 0.0` */
  function ResolvedScore(x: Interaction): real { if IsResolved(x) then 1.0 else 0.0 }

  /** `r.get('cost', 0.0)` */
  function CostOf(x: Interaction): real { x.cost.GetOr(0.0) }

  /** The response times that are averaged: one per service request, or the single default 1.0. */
  function ResponseTimes(xs: seq<Interaction>): (r: seq<real>)
    ensures |r| > 0
  {
    var requests := Filter(xs, IsServiceRequest);
    if requests == [] then [1.0] else MapSeq(requests, ResponseTime)
  }

  /** The resolution scores that are averaged: one per service request, or the single default 0.5. */
  function ResolutionScores(xs: seq<Interaction>): (r: seq<real>)
    ensures |r| > 0
  {
    var requests := Filter(xs, IsServiceRequest);
    if requests == [] then [0.5] else MapSeq(requests, ResolvedScore)
  }

  /** `calculate_efficiency`; an empty list gives all four metrics 0. */
  function CalculateEfficiency(xs: seq<Interaction>): (r: EfficiencyMetrics)
    ensures xs == [] ==> r == EfficiencyMetrics(0.0, 0.0, 0.0, 0.0)
  {
    if xs == [] then EfficiencyMetrics(0.0, 0.0, 0.0, 0.0)
    else EfficiencyMetrics(Mean(ResponseTimes(xs)), Mean(ResolutionScores(xs)),
                           ResourceUsage(xs), PolicyImplementationCost(xs))
  }

  /** `calculate_resource_usage`: the capped share of active interactions. The cap at 1 never
      binds, so the result is exactly that share. */
  function ResourceUsage(xs: seq<Interaction>): (r: real)
    ensures 0.0 <= r <= 1.0
    ensures xs != [] ==> r == (Count(xs, IsActive) as real) / (|xs| as real)
    ensures xs == [] ==> r == 0.0
  {
    if xs == [] then 0.0 else Min(Ratio(Count(xs, IsActive), |xs|), 1.0)
  }

  /** `calculate_policy_implementation_cost`: the mean cost of the policy_implementation records,
      0 when there are none. */
  function PolicyImplementationCost(xs: seq<Interaction>): (r: real)
    ensures Count(xs, IsPolicyImplementation) == 0 ==> r == 0.0
  {
    var policies := Filter(xs, IsPolicyImplementation);
    if xs == [] || policies == [] then 0.0 else Mean(MapSeq(policies, CostOf))
  }

  /** Without a service request the two request metrics take their defaults 1.0 and 0.5. */
  lemma NoRequestDefaults(xs: seq<Interaction>)
    requires xs != [] && Count(xs, IsServiceRequest) == 0
    ensures CalculateEfficiency(xs).avgResponseTime == 1.0
    ensures CalculateEfficiency(xs).resolutionRate == 0.5
  {
    assert |Filter(xs, IsServiceRequest)| == 0;
    assert ResponseTimes(xs) == [1.0] && ResolutionScores(xs) == [0.5];
    MeanSingle(1.0);
    MeanSingle(0.5);
  }

  /** With service requests present the resolution rate is the fraction of them marked resolved. */
  lemma ResolutionRateIsFraction(xs: seq<Interaction>)
    requires Count(xs, IsServiceRequest) > 0
    ensures CalculateEfficiency(xs).resolutionRate
      == Ratio(Count(Filter(xs, IsServiceRequest), IsResolved), Count(xs, IsServiceRequest))
  {
    var requests := Filter(xs, IsServiceRequest);
    assert xs != [] && requests != [];
    assert CalculateEfficiency(xs).resolutionRate == Mean(MapSeq(requests, ResolvedScore));
    MeanOfIndicators(requests, ResolvedScore, IsResolved);
  }

  /** The resolution rate lies in [0, 1] for every list. */
  lemma ResolutionRateBounds(xs: seq<Interaction>)
    ensures 0.0 <= CalculateEfficiency(xs).resolutionRate <= 1.0
  {
    if xs != [] {
      if Count(xs, IsServiceRequest) > 0 {
        ResolutionRateIsFraction(xs);
      } else {
        NoRequestDefaults(xs);
      }
    }
  }

  /** The mean response time lies within any bounds that hold the service requests' response
      times and the default 1.0. */
  lemma ResponseTimeBounds(xs: seq<Interaction>, lo: real, hi: real)
    requires xs != [] && lo <= 1.0 <= hi
    requires forall x :: x in xs && IsServiceRequest(x) ==> lo <= ResponseTime(x) <= hi
    ensures lo <= CalculateEfficiency(xs).avgResponseTime <= hi
  {
    var requests := Filter(xs, IsServiceRequest);
    if requests == [] {
      MeanSingle(1.0);
    } else {
      MapBounds(requests, ResponseTime, lo, hi);
      MeanBounds(MapSeq(requests, ResponseTime), lo, hi);
    }
  }

  /** The policy cost lies within any bounds that hold every policy record's cost (a missing cost
      counting 0) and 0 itself. */
  lemma PolicyCostBounds(xs: seq<Interaction>, lo: real, hi: real)
    requires lo <= 0.0 <= hi
    requires forall x :: x in xs && IsPolicyImplementation(x) ==> lo <= CostOf(x) <= hi
    ensures lo <= PolicyImplementationCost(xs) <= hi
  {
    var policies := Filter(xs, IsPolicyImplementation);
    if xs != [] && policies != [] {
      MapBounds(policies, CostOf, lo, hi);
      MeanBounds(MapSeq(policies, CostOf), lo, hi);
    }
  }
}
