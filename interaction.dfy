/** The interaction engine: one round's decisions become interaction records through threshold
    tests against the round's random draws, and the records' outcomes are folded back into the
    agents' state with clamped increments. */
module Interactions {
  import opened Common
  import opened Records
  import opened Agents

  const GovernmentId := "government"

  const GovEnterpriseRules := "government_enterprise"
  const GovResidentRules := "government_resident"
  const EntResidentRules := "enterprise_resident"

  const ProcurementTag := "procurement_cooperation"
  const RegulationTag := "regulation"
  const DataSharingTag := "data_sharing"
  const BiddingTag := "project_bidding"
  const DataRequestTag := "data_request"
  const ServiceTag := "service_provision"
  const FeedbackTag := "demand_response"
  const SupplyTag := "service_supply"
  const SharingTag := "information_sharing"

  const ResourceUtilization := "resource_utilization"
  const MarketShare := "market_share"
  const Trust := "trust_in_government"
  const Acceptance := "technology_acceptance"

  /** `getattr(agent, 'agent_id', default)` */
  function IdOr(p: Profile, default: string): string { p.id.GetOr(default) }

  /** `getattr(agent, 'area', 'core_area')` */
  function AreaOfAgent(p: Profile): string { p.area.GetOr(CoreArea) }

  /** The random draws of one round, by position: one unit draw per enterprise for the government's
      action on it and one for its own action towards the government; the residents
      `random.sample` picks for service provision with two draws each (outcome, service type);
      one draw per resident for feedback; per enterprise the `randint(5, 15)` count, the residents
      sampled for its service supply and one draw for each; and the resident pairs of the
      information-sharing attempts with one draw each. */
  datatype RoundDraws = RoundDraws(
    govEnt: seq<real>,
    entGov: seq<real>,
    serviceSample: seq<nat>,
    serviceOutcome: seq<real>,
    serviceType: seq<real>,
    feedback: seq<real>,
    supplyCount: seq<nat>,
    supplySample: seq<seq<nat>>,
    supplyDraws: seq<seq<real>>,
    pairs: seq<(nat, nat)>,
    pairDraws: seq<real>)

  /** What the random module guarantees about a round's draws for `nEnt` enterprises and `nRes`
      residents: the sizes the engine asks for, and samples of distinct positions. */
  predicate ValidDraws(d: RoundDraws, nEnt: nat, nRes: nat) {
    && |d.govEnt| == nEnt && |d.entGov| == nEnt
    && IsSample(d.serviceSample, MinNat(20, nRes), nRes)
    && |d.serviceOutcome| == |d.serviceSample| && |d.serviceType| == |d.serviceSample|
    && |d.feedback| == nRes
    && |d.supplyCount| == nEnt && |d.supplySample| == nEnt && |d.supplyDraws| == nEnt
    && (forall i :: 0 <= i < nEnt ==> 5 <= d.supplyCount[i] <= 15)
    && (forall i :: 0 <= i < nEnt ==> IsSample(d.supplySample[i], MinNat(d.supplyCount[i], nRes), nRes))
    && (forall i :: 0 <= i < nEnt ==> |d.supplyDraws[i]| == |d.supplySample[i]|)
    && |d.pairs| == MinNat(10, nRes / 10) && |d.pairDraws| == |d.pairs|
    && (forall t :: 0 <= t < |d.pairs| ==> d.pairs[t].0 < nRes && d.pairs[t].1 < nRes && d.pairs[t].0 != d.pairs[t].1)
  }

  /** The service-provision draws fit `nRes` residents. */
  predicate ServiceDraws(d: RoundDraws, nRes: nat) {
    && |d.serviceOutcome| == |d.serviceSample| && |d.serviceType| == |d.serviceSample|
    && (forall j :: 0 <= j < |d.serviceSample| ==> d.serviceSample[j] < nRes)
  }

  /** The supply draws fit `nEnt` enterprises and `nRes` residents. */
  predicate SupplyDraws(d: RoundDraws, nEnt: nat, nRes: nat) {
    && |d.supplySample| == nEnt && |d.supplyDraws| == nEnt
    && (forall i :: 0 <= i < nEnt ==> |d.supplyDraws[i]| == |d.supplySample[i]|)
    && (forall i, j :: 0 <= i < nEnt && 0 <= j < |d.supplySample[i]| ==> d.supplySample[i][j] < nRes)
  }

  /** The information-sharing draws fit `nRes` residents. */
  predicate PairDraws(d: RoundDraws, nRes: nat) {
    && |d.pairs| == MinNat(10, nRes / 10) && |d.pairDraws| == |d.pairs|
    && (forall t :: 0 <= t < |d.pairs| ==> d.pairs[t].0 < nRes && d.pairs[t].1 < nRes && d.pairs[t].0 != d.pairs[t].1)
  }

  /** The parts of a valid round's draws each stage reads. */
  lemma ValidDrawsParts(d: RoundDraws, nEnt: nat, nRes: nat)
    requires ValidDraws(d, nEnt, nRes)
    ensures ServiceDraws(d, nRes) && SupplyDraws(d, nEnt, nRes) && PairDraws(d, nRes) && |d.feedback| == nRes
  {
    forall i, j | 0 <= i < nEnt && 0 <= j < |d.supplySample[i]| ensures d.supplySample[i][j] < nRes {
      assert IsSample(d.supplySample[i], MinNat(d.supplyCount[i], nRes), nRes);
    }
  }

  // ---------------------------------------------------------------------------
  // Builders: one record from one draw

  /** The chance a procurement succeeds. */
  function ProcurementChance(ent: Profile, rules: RuleGroup): real {
    Probability(rules, ProcurementTag, 0.7) * (NumOr(ent.state, Innovation, 50.0) / 100.0)
  }

  /** `_create_procurement_interaction`: succeeds when the draw falls below the rule probability
      (default 0.7) scaled by the enterprise's innovation level (default 50) out of 100. */
  function Procurement(ent: Profile, rules: RuleGroup, draw: real): (r: Interaction)
    ensures r.kind == ProcurementTag && r.participants == [GovernmentId, IdOr(ent, "enterprise")]
    ensures r.outcome == "success" || r.outcome == "failed"
    ensures r.outcome == "success" <==> draw < ProcurementChance(ent, rules)
  {
    Basic(ProcurementTag, [GovernmentId, IdOr(ent, "enterprise")], if draw < ProcurementChance(ent, rules) then "success" else "failed",
      EffectOf(rules, ProcurementTag)).(serviceType := Some("digital"))
  }

  /** The chance an enterprise complies with a regulation. */
  function ComplianceChance(ent: Profile): real {
    NumOr(ent.attributes, Compliance, 90.0) / 100.0
  }

  /** `_create_regulation_interaction`: the enterprise complies when the draw falls below its
      compliance rate (default 90) out of 100; the rule probability is read but never used. */
  function Regulation(ent: Profile, rules: RuleGroup, draw: real): (r: Interaction)
    ensures r.kind == RegulationTag && r.participants == [GovernmentId, IdOr(ent, "enterprise")]
    ensures r.compliance.Some? && (r.compliance.value <==> r.outcome == "success")
    ensures r.outcome == "success" || r.outcome == "violation"
    ensures r.outcome == "success" <==> draw < ComplianceChance(ent)
  {
    var compliant := draw < ComplianceChance(ent);
    Basic(RegulationTag, [GovernmentId, IdOr(ent, "enterprise")], if compliant then "success" else "violation",
      EffectOf(rules, RegulationTag)).(compliance := Some(compliant))
  }

  /** The chance the government shares data with an enterprise. */
  function DataSharingChance(gov: Profile, rules: RuleGroup): real {
    Probability(rules, DataSharingTag, 0.3) * (NumOr(gov.attributes, Transparency, 70.0) / 100.0)
  }

  /** `_create_data_sharing_interaction`: the rule probability (default 0.3) scaled by the
      government's transparency (default 70) out of 100. */
  function DataSharing(gov: Profile, ent: Profile, rules: RuleGroup, draw: real): (r: Interaction)
    ensures r.kind == DataSharingTag && r.participants == [GovernmentId, IdOr(ent, "enterprise")]
    ensures r.outcome == "success" || r.outcome == "denied"
    ensures r.outcome == "success" <==> draw < DataSharingChance(gov, rules)
  {
    Basic(DataSharingTag, [GovernmentId, IdOr(ent, "enterprise")], if draw < DataSharingChance(gov, rules) then "success" else "denied",
      EffectOf(rules, DataSharingTag))
  }

  /** `_create_gov_ent_interaction`: a missing action counts as regulation; only procurement,
      regulation and data sharing give a record, of that type. */
  function GovToEnterprise(gov: Profile, ent: Profile, gd: Decision, rules: RuleGroup, draw: real): (r: Option<Interaction>)
    ensures r.Some? <==> ActionOr(gd, RegulationTag) in [ProcurementTag, RegulationTag, DataSharingTag]
    ensures r.Some? ==>
      r.value.kind == ActionOr(gd, RegulationTag) && r.value.participants == [GovernmentId, IdOr(ent, "enterprise")]
  {
    var action := ActionOr(gd, RegulationTag);
    if action == ProcurementTag then Some(Procurement(ent, rules, draw))
    else if action == RegulationTag then Some(Regulation(ent, rules, draw))
    else if action == DataSharingTag then Some(DataSharing(gov, ent, rules, draw))
    else None
  }

  /** A bid's score: the mean of innovation (default 50) and compliance (default 90), out of 100. */
  function BiddingScore(ent: Profile): real {
    (NumOr(ent.state, Innovation, 50.0) + NumOr(ent.attributes, Compliance, 90.0)) / 200.0
  }

  /** `_create_bidding_interaction`: succeeds when the draw falls below the bid's score. */
  function Bidding(ent: Profile, draw: real): (r: Interaction)
    ensures r.kind == BiddingTag && r.participants == [IdOr(ent, "enterprise"), GovernmentId]
    ensures r.outcome == "success" <==> r.effect == "contract_award"
    ensures r.outcome == "success" || r.outcome == "failed"
    ensures r.outcome == "success" <==> draw < BiddingScore(ent)
  {
    var outcome := if draw < BiddingScore(ent) then "success" else "failed";
    Basic(BiddingTag, [IdOr(ent, "enterprise"), GovernmentId], outcome,
      if outcome == "success" then "contract_award" else "bid_rejected")
  }

  /** The chance a data request is approved. */
  function DataRequestChance(ent: Profile, rules: RuleGroup): real {
    Probability(rules, DataSharingTag, 0.3) * (NumOr(ent.attributes, Compliance, 90.0) / 100.0)
  }

  /** `_create_data_request_interaction`: the data-sharing probability (default 0.3) scaled by
      compliance (default 90) out of 100. */
  function DataRequest(ent: Profile, rules: RuleGroup, draw: real): (r: Interaction)
    ensures r.kind == DataRequestTag && r.participants == [IdOr(ent, "enterprise"), GovernmentId]
    ensures r.outcome == "approved" <==> r.effect == "data_access"
    ensures r.outcome == "approved" || r.outcome == "denied"
    ensures r.outcome == "approved" <==> draw < DataRequestChance(ent, rules)
  {
    var outcome := if draw < DataRequestChance(ent, rules) then "approved" else "denied";
    Basic(DataRequestTag, [IdOr(ent, "enterprise"), GovernmentId], outcome,
      if outcome == "approved" then "data_access" else "access_denied")
  }

  /** `_create_ent_gov_interaction`: a missing action counts as compliance reporting, which gives
      no record; only project bidding and data requests do. */
  function EnterpriseToGov(ent: Profile, ed: Decision, rules: RuleGroup, draw: real): (r: Option<Interaction>)
    ensures r.Some? <==> ActionOr(ed, "compliance_reporting") in [BiddingTag, DataRequestTag]
    ensures r.Some? ==>
      r.value.kind == ActionOr(ed, "compliance_reporting") && r.value.participants == [IdOr(ent, "enterprise"), GovernmentId]
  {
    var action := ActionOr(ed, "compliance_reporting");
    if action == BiddingTag then Some(Bidding(ent, draw))
    else if action == DataRequestTag then Some(DataRequest(ent, rules, draw))
    else None
  }

  /** The infrastructure factor of service provision by area; an unknown area counts 0.7. */
  function InfrastructureFactor(area: string): (q: real)
    ensures 0.5 <= q <= 0.9
  {
    if area == CoreArea then 0.9 else if area == FringeArea then 0.7 else if area == RuralArea then 0.5 else 0.7
  }

  /** The chance a service reaches a resident. */
  function ServiceChance(res: Profile, rule: Rule): real {
    rule.probability.GetOr(0.8) * InfrastructureFactor(AreaOfAgent(res))
  }

  /** `_create_service_interaction`: the rule probability (default 0.8) times the area's
      infrastructure factor; the record carries the resident's area and a service type drawn
      digital above 0.3. */
  function Service(res: Profile, rule: Rule, draw: real, typeDraw: real): (r: Interaction)
    ensures r.kind == ServiceTag && r.participants == [GovernmentId, IdOr(res, "resident")]
    ensures r.area == Some(AreaOfAgent(res))
    ensures r.outcome == "success" || r.outcome == "failed"
    ensures r.outcome == "success" <==> draw < ServiceChance(res, rule)
  {
    var area := AreaOfAgent(res);
    Basic(ServiceTag, [GovernmentId, IdOr(res, "resident")], if draw < ServiceChance(res, rule) then "success" else "failed",
      rule.effect.GetOr("")).(area := Some(area), serviceType := Some(if typeDraw > 0.3 then "digital" else "physical"))
  }

  /** The chance the government answers a resident's feedback. */
  function FeedbackChance(gov: Profile, rules: RuleGroup): real {
    Probability(rules, FeedbackTag, 0.7) * (NumOr(gov.attributes, Transparency, 70.0) / 100.0)
  }

  /** `_create_resident_gov_interaction`: feedback is answered when the draw falls below the
      demand-response probability (default 0.7) scaled by transparency; any other action gives
      no record. */
  function Feedback(res: Profile, gov: Profile, rd: Decision, rules: RuleGroup, draw: real): (r: Option<Interaction>)
    ensures r.Some? <==> ActionOr(rd, "provide_feedback") == "provide_feedback"
    ensures r.Some? ==>
      r.value.kind == FeedbackTag && (r.value.outcome == "success" || r.value.outcome == "ignored")
      && r.value.participants == [IdOr(res, "resident"), GovernmentId]
    ensures r.Some? ==> (r.value.outcome == "success" <==> draw < FeedbackChance(gov, rules))
  {
    if ActionOr(rd, "provide_feedback") == "provide_feedback" then
      Some(Basic(FeedbackTag, [IdOr(res, "resident"), GovernmentId], if draw < FeedbackChance(gov, rules) then "success" else "ignored",
        EffectOf(rules, FeedbackTag)).(area := Some(AreaOfAgent(res))))
    else None
  }

  /** The chance an enterprise's service reaches a resident. */
  function SupplyChance(ent: Profile, res: Profile, rules: RuleGroup): real {
    Probability(rules, SupplyTag, 0.8) * (NumOr(res.attributes, Acceptance, 70.0) / 100.0)
      * (NumOr(ent.state, Innovation, 50.0) / 100.0)
  }

  /** `_create_enterprise_service_interaction`: the supply probability (default 0.8) scaled by the
      resident's technology acceptance (default 70) and the enterprise's innovation (default 50). */
  function Supply(ent: Profile, res: Profile, rules: RuleGroup, draw: real): (r: Interaction)
    ensures r.kind == SupplyTag && r.participants == [IdOr(ent, "enterprise"), IdOr(res, "resident")]
    ensures r.area == Some(AreaOfAgent(res))
    ensures r.outcome == "success" || r.outcome == "rejected"
    ensures r.outcome == "success" <==> draw < SupplyChance(ent, res, rules)
  {
    Basic(SupplyTag, [IdOr(ent, "enterprise"), IdOr(res, "resident")], if draw < SupplyChance(ent, res, rules) then "success" else "rejected",
      EffectOf(rules, SupplyTag)).(area := Some(AreaOfAgent(res)))
  }

  /** The information-sharing record of one successful pair. */
  function Sharing(a: Profile, b: Profile): (r: Interaction)
    ensures r.kind == SharingTag && r.outcome == "success" && |r.participants| == 2
    ensures r.participants == [IdOr(a, "resident_1"), IdOr(b, "resident_2")]
  {
    Basic(SharingTag, [IdOr(a, "resident_1"), IdOr(b, "resident_2")], "success", "knowledge_transfer")
  }

  /** A more innovative enterprise never turns a successful procurement or supply into a failure. */
  lemma CapabilityMonotone(ent: Profile, ent2: Profile, res: Profile, rules: RuleGroup, draw: real)
    requires NumOr(ent.state, Innovation, 50.0) <= NumOr(ent2.state, Innovation, 50.0)
    requires Probability(rules, ProcurementTag, 0.7) >= 0.0 && Probability(rules, SupplyTag, 0.8) >= 0.0
    requires NumOr(res.attributes, Acceptance, 70.0) >= 0.0
    ensures Procurement(ent, rules, draw).outcome == "success" ==> Procurement(ent2, rules, draw).outcome == "success"
    ensures Supply(ent, res, rules, draw).outcome == "success" ==> Supply(ent2, res, rules, draw).outcome == "success"
  {
    ProcurementChanceMonotone(ent, ent2, rules);
    SupplyChanceMonotone(ent, ent2, res, rules);
  }

  lemma ProcurementChanceMonotone(ent: Profile, ent2: Profile, rules: RuleGroup)
    requires NumOr(ent.state, Innovation, 50.0) <= NumOr(ent2.state, Innovation, 50.0)
    requires Probability(rules, ProcurementTag, 0.7) >= 0.0
    ensures ProcurementChance(ent, rules) <= ProcurementChance(ent2, rules)
  {
    ScaleMonotone(Probability(rules, ProcurementTag, 0.7), NumOr(ent.state, Innovation, 50.0) / 100.0,
      NumOr(ent2.state, Innovation, 50.0) / 100.0);
  }

  lemma SupplyChanceMonotone(ent: Profile, ent2: Profile, res: Profile, rules: RuleGroup)
    requires NumOr(ent.state, Innovation, 50.0) <= NumOr(ent2.state, Innovation, 50.0)
    requires Probability(rules, SupplyTag, 0.8) >= 0.0 && NumOr(res.attributes, Acceptance, 70.0) >= 0.0
    ensures SupplyChance(ent, res, rules) <= SupplyChance(ent2, res, rules)
  {
    var acc := NumOr(res.attributes, Acceptance, 70.0) / 100.0;
    var q := Probability(rules, SupplyTag, 0.8) * acc;
    ScaleMonotone(Probability(rules, SupplyTag, 0.8), 0.0, acc);
    ScaleMonotone(q, NumOr(ent.state, Innovation, 50.0) / 100.0, NumOr(ent2.state, Innovation, 50.0) / 100.0);
  }

  lemma ScaleMonotone(p: real, a: real, b: real)
    requires p >= 0.0 && a <= b
    ensures p * a <= p * b
  {
    assert p * b - p * a == p * (b - a);
  }

  /** Regulation does not depend on the rule's probability, only on its effect text. */
  lemma RegulationIgnoresProbability(ent: Profile, rules: RuleGroup, draw: real, p: real)
    requires RegulationTag in rules
    ensures Regulation(ent, rules[RegulationTag := rules[RegulationTag].(probability := Some(p))], draw)
         == Regulation(ent, rules, draw)
  {
  }

  // ---------------------------------------------------------------------------
  // Generators

  /** The record an optional builder result contributes. */
  function Opt(o: Option<Interaction>): (r: seq<Interaction>)
    ensures o.Some? ==> r == [o.value]
    ensures o.None? ==> r == []
  {
    if o.Some? then [o.value] else []
  }

  predicate TargetsEnterprises(d: Decision) { d.target == Some("enterprises") || d.target == Some("enterprise") }

  predicate TargetsGovernment(d: Decision) { d.target == Some("government") || d.target == Some("gov") }

  /** The government's records for the first `n` enterprises. */
  function GovToEnterprises(gov: Profile, ents: seq<Profile>, gd: Decision, rules: RuleGroup, draws: seq<real>, n: nat): seq<Interaction>
    requires n <= |ents| && n <= |draws|
  {
    if n == 0 then []
    else GovToEnterprises(gov, ents, gd, rules, draws, n - 1) + Opt(GovToEnterprise(gov, ents[n - 1], gd, rules, draws[n - 1]))
  }

  /** The records of the first `n` enterprise-decision pairs addressed to the government. */
  function EnterprisesToGov(ents: seq<Profile>, eds: seq<Decision>, rules: RuleGroup, draws: seq<real>, n: nat): seq<Interaction>
    requires n <= |ents| && n <= |eds| && n <= |draws|
  {
    if n == 0 then []
    else
      EnterprisesToGov(ents, eds, rules, draws, n - 1)
        + (if TargetsGovernment(eds[n - 1]) then Opt(EnterpriseToGov(ents[n - 1], eds[n - 1], rules, draws[n - 1])) else [])
  }

  /** `_process_government_enterprise_interactions` */
  function GovEnterprise(gov: Profile, ents: seq<Profile>, gd: Decision, eds: seq<Decision>, table: RuleTable, d: RoundDraws): seq<Interaction>
    requires |d.govEnt| == |ents| && |d.entGov| == |ents|
  {
    var rules := GroupOf(table, GovEnterpriseRules);
    (if TargetsEnterprises(gd) then GovToEnterprises(gov, ents, gd, rules, d.govEnt, |ents|) else [])
      + EnterprisesToGov(ents, eds, rules, d.entGov, MinNat(|ents|, |eds|))
  }

  /** The service records of the first `n` sampled residents. */
  function Services(res: seq<Profile>, rule: Rule, sample: seq<nat>, outs: seq<real>, types: seq<real>, n: nat): seq<Interaction>
    requires n <= |sample| && n <= |outs| && n <= |types|
    requires forall j :: 0 <= j < |sample| ==> sample[j] < |res|
  {
    if n == 0 then []
    else Services(res, rule, sample, outs, types, n - 1) + [Service(res[sample[n - 1]], rule, outs[n - 1], types[n - 1])]
  }

  /** A resident decision passes the feedback filter: addressed to the government with action
      provide_feedback or request_service. */
  predicate FeedbackFilter(rd: Decision) {
    rd.target == Some("government") && (rd.action == Some("provide_feedback") || rd.action == Some("request_service"))
  }

  /** The feedback records of the first `n` resident-decision pairs. */
  function Feedbacks(gov: Profile, res: seq<Profile>, rds: seq<Decision>, rules: RuleGroup, draws: seq<real>, n: nat): seq<Interaction>
    requires n <= |res| && n <= |rds| && n <= |draws|
  {
    if n == 0 then []
    else
      Feedbacks(gov, res, rds, rules, draws, n - 1)
        + (if FeedbackFilter(rds[n - 1]) then Opt(Feedback(res[n - 1], gov, rds[n - 1], rules, draws[n - 1])) else [])
  }

  /** The service-provision records: none unless the government chose service provision; a
      missing service_provision rule raises KeyError as soon as one resident is served. */
  function ServiceRound(res: seq<Profile>, gd: Decision, rules: RuleGroup, d: RoundDraws): Result<seq<Interaction>>
    requires ServiceDraws(d, |res|)
  {
    if gd.action != Some(ServiceTag) then Ok([])
    else if ServiceTag in rules then
      Ok(Services(res, rules[ServiceTag], d.serviceSample, d.serviceOutcome, d.serviceType, |d.serviceSample|))
    else if |d.serviceSample| > 0 then Err("KeyError")
    else Ok([])
  }

  /** `_process_government_resident_interactions` */
  function GovResident(gov: Profile, res: seq<Profile>, gd: Decision, rds: seq<Decision>, table: RuleTable, d: RoundDraws): Result<seq<Interaction>>
    requires ServiceDraws(d, |res|) && |d.feedback| == |res|
  {
    var rules := GroupOf(table, GovResidentRules);
    match ServiceRound(res, gd, rules, d)
    case Err(e) => Err(e)
    case Ok(services) => Ok(services + Feedbacks(gov, res, rds, rules, d.feedback, MinNat(|res|, |rds|)))
  }

  /** The supply records of one enterprise for the first `n` residents of its sample. */
  function Supplies(ent: Profile, res: seq<Profile>, rules: RuleGroup, sample: seq<nat>, draws: seq<real>, n: nat): seq<Interaction>
    requires n <= |sample| && n <= |draws|
    requires forall j :: 0 <= j < |sample| ==> sample[j] < |res|
  {
    if n == 0 then []
    else Supplies(ent, res, rules, sample, draws, n - 1) + [Supply(ent, res[sample[n - 1]], rules, draws[n - 1])]
  }

  predicate SuppliesService(ed: Decision) {
    ed.action == Some("service_development") || ed.action == Some("service_promotion")
  }

  /** The supply records of the first `n` enterprise-decision pairs. */
  function EnterpriseSupplies(ents: seq<Profile>, res: seq<Profile>, eds: seq<Decision>, rules: RuleGroup, d: RoundDraws, n: nat): seq<Interaction>
    requires SupplyDraws(d, |ents|, |res|)
    requires n <= |ents| && n <= |eds|
  {
    if n == 0 then []
    else
      EnterpriseSupplies(ents, res, eds, rules, d, n - 1)
        + (if SuppliesService(eds[n - 1]) then
             Supplies(ents[n - 1], res, rules, d.supplySample[n - 1], d.supplyDraws[n - 1], |d.supplySample[n - 1]|)
           else [])
  }

  /** `_process_enterprise_resident_interactions` */
  function EntResident(ents: seq<Profile>, res: seq<Profile>, eds: seq<Decision>, table: RuleTable, d: RoundDraws): seq<Interaction>
    requires SupplyDraws(d, |ents|, |res|)
  {
    EnterpriseSupplies(ents, res, eds, GroupOf(table, EntResidentRules), d, MinNat(|ents|, |eds|))
  }

  /** The sharing threshold of a pair: 0.3 in the same area, 0.1 across areas. */
  function PairThreshold(a: Profile, b: Profile): (r: real)
    ensures AreaOfAgent(a) == AreaOfAgent(b) ==> r == 0.3
    ensures AreaOfAgent(a) != AreaOfAgent(b) ==> r == 0.1
  {
    if AreaOfAgent(a) == AreaOfAgent(b) then 0.3 else 0.1
  }

  /** The records of the first `n` information-sharing attempts. */
  function Sharings(res: seq<Profile>, pairs: seq<(nat, nat)>, draws: seq<real>, n: nat): seq<Interaction>
    requires n <= |pairs| && n <= |draws|
    requires forall t :: 0 <= t < |pairs| ==> pairs[t].0 < |res| && pairs[t].1 < |res|
  {
    if n == 0 then []
    else
      var (i, j) := pairs[n - 1];
      Sharings(res, pairs, draws, n - 1)
        + (if |res| >= 2 && draws[n - 1] < PairThreshold(res[i], res[j]) then [Sharing(res[i], res[j])] else [])
  }

  /** `_process_resident_resident_interactions`: min(10, n div 10) attempts. */
  function ResResident(res: seq<Profile>, d: RoundDraws): seq<Interaction>
    requires PairDraws(d, |res|)
  {
    Sharings(res, d.pairs, d.pairDraws, MinNat(10, |res| / 10))
  }

  /** The records of a round, in the order `process` concatenates them, or the KeyError of a
      missing service-provision rule. */
  function RoundRecords(gov: Profile, ents: seq<Profile>, res: seq<Profile>, gd: Decision, eds: seq<Decision>,
                        rds: seq<Decision>, table: RuleTable, d: RoundDraws): Result<seq<Interaction>>
    requires ValidDraws(d, |ents|, |res|)
  {
    ValidDrawsParts(d, |ents|, |res|);
    match GovResident(gov, res, gd, rds, table, d)
    case Err(e) => Err(e)
    case Ok(gr) => Ok(GovEnterprise(gov, ents, gd, eds, table, d) + gr + EntResident(ents, res, eds, table, d) + ResResident(res, d))
  }

  // ---------------------------------------------------------------------------
  // Properties of the generators

  /** The government produces at most one record per enterprise, each of the chosen action's type
      and naming that enterprise; none when the decision does not address enterprises or names
      another action. */
  lemma {:induction false} GovToEnterprisesShape(gov: Profile, ents: seq<Profile>, gd: Decision, rules: RuleGroup, draws: seq<real>, n: nat)
    requires n <= |ents| && n <= |draws|
    ensures |GovToEnterprises(gov, ents, gd, rules, draws, n)| ==
      (if ActionOr(gd, RegulationTag) in [ProcurementTag, RegulationTag, DataSharingTag] then n else 0)
    ensures forall x :: x in GovToEnterprises(gov, ents, gd, rules, draws, n) ==>
      x.kind == ActionOr(gd, RegulationTag) && |x.participants| == 2 && x.participants[0] == GovernmentId
  {
    if n > 0 {
      GovToEnterprisesShape(gov, ents, gd, rules, draws, n - 1);
    }
  }

  /** An enterprise's record for the government exists only for a decision addressed to the
      government with action project_bidding or data_request, and there are no more records than
      enterprise-decision pairs. */
  lemma {:induction false} EnterprisesToGovShape(ents: seq<Profile>, eds: seq<Decision>, rules: RuleGroup, draws: seq<real>, n: nat)
    requires n <= |ents| && n <= |eds| && n <= |draws|
    ensures |EnterprisesToGov(ents, eds, rules, draws, n)| <= n
    ensures forall x :: x in EnterprisesToGov(ents, eds, rules, draws, n) ==>
      (x.kind == BiddingTag || x.kind == DataRequestTag) && |x.participants| == 2 && x.participants[1] == GovernmentId
    ensures (forall i :: 0 <= i < n ==> !TargetsGovernment(eds[i])) ==> EnterprisesToGov(ents, eds, rules, draws, n) == []
  {
    if n > 0 {
      EnterprisesToGovShape(ents, eds, rules, draws, n - 1);
    }
  }

  /** Service provision serves exactly the sampled residents, in sample order, each record naming
      its resident and carrying that resident's area. */
  lemma {:induction false} ServicesShape(res: seq<Profile>, rule: Rule, sample: seq<nat>, outs: seq<real>, types: seq<real>, n: nat)
    requires n <= |sample| && n <= |outs| && n <= |types|
    requires forall j :: 0 <= j < |sample| ==> sample[j] < |res|
    ensures |Services(res, rule, sample, outs, types, n)| == n
    ensures forall j :: 0 <= j < n ==>
      Services(res, rule, sample, outs, types, n)[j].participants == [GovernmentId, IdOr(res[sample[j]], "resident")]
      && Services(res, rule, sample, outs, types, n)[j].area == Some(AreaOfAgent(res[sample[j]]))
  {
    if n > 0 {
      ServicesShape(res, rule, sample, outs, types, n - 1);
      var prev := Services(res, rule, sample, outs, types, n - 1);
      var all := Services(res, rule, sample, outs, types, n);
      assert all == prev + [Service(res[sample[n - 1]], rule, outs[n - 1], types[n - 1])];
      forall j | 0 <= j < n
        ensures all[j].participants == [GovernmentId, IdOr(res[sample[j]], "resident")]
        ensures all[j].area == Some(AreaOfAgent(res[sample[j]]))
      {
        if j < n - 1 {
          assert all[j] == prev[j];
        }
      }
    }
  }

  /** With service provision chosen and its rule present, exactly min(20, |residents|) residents
      are served. */
  lemma ServiceCount(res: seq<Profile>, gd: Decision, rules: RuleGroup, d: RoundDraws)
    requires ValidDraws(d, |d.govEnt|, |res|)
    requires gd.action == Some(ServiceTag) && ServiceTag in rules
    ensures ServiceRound(res, gd, rules, d).Ok?
    ensures |ServiceRound(res, gd, rules, d).value| == MinNat(20, |res|)
  {
    ServicesShape(res, rules[ServiceTag], d.serviceSample, d.serviceOutcome, d.serviceType, |d.serviceSample|);
  }

  /** Every feedback record is a demand response answered or ignored; a request_service decision
      passes the filter yet produces nothing. */
  lemma {:induction false} FeedbacksShape(gov: Profile, res: seq<Profile>, rds: seq<Decision>, rules: RuleGroup, draws: seq<real>, n: nat)
    requires n <= |res| && n <= |rds| && n <= |draws|
    ensures forall x :: x in Feedbacks(gov, res, rds, rules, draws, n) ==>
      x.kind == FeedbackTag && (x.outcome == "success" || x.outcome == "ignored")
    ensures (forall i :: 0 <= i < n ==> rds[i].action != Some("provide_feedback")) ==> Feedbacks(gov, res, rds, rules, draws, n) == []
  {
    if n > 0 {
      FeedbacksShape(gov, res, rds, rules, draws, n - 1);
    }
  }

  /** Information sharing makes at most one record per attempt, each a success: an attempt whose
      draw falls below the pair's threshold (0.3 in one area, 0.1 across areas) gives the
      pair's record, and every record comes from such an attempt. */
  lemma {:induction false} SharingsShape(res: seq<Profile>, pairs: seq<(nat, nat)>, draws: seq<real>, n: nat)
    requires n <= |pairs| && n <= |draws|
    requires forall t :: 0 <= t < |pairs| ==> pairs[t].0 < |res| && pairs[t].1 < |res|
    ensures |Sharings(res, pairs, draws, n)| <= n
    ensures forall x :: x in Sharings(res, pairs, draws, n) ==> x.kind == SharingTag && x.outcome == "success"
    ensures forall t :: 0 <= t < n && |res| >= 2 && draws[t] < PairThreshold(res[pairs[t].0], res[pairs[t].1]) ==>
      Sharing(res[pairs[t].0], res[pairs[t].1]) in Sharings(res, pairs, draws, n)
    ensures forall x :: x in Sharings(res, pairs, draws, n) ==>
      exists t :: 0 <= t < n && draws[t] < PairThreshold(res[pairs[t].0], res[pairs[t].1])
        && x == Sharing(res[pairs[t].0], res[pairs[t].1])
  {
    if n > 0 {
      SharingsShape(res, pairs, draws, n - 1);
    }
  }

  /** Residents with distinct identifiers, paired at two distinct positions, never share with
      themselves. */
  lemma ResResidentDistinct(res: seq<Profile>, d: RoundDraws)
    requires PairDraws(d, |res|)
    requires forall i :: 0 <= i < |res| ==> res[i].id.Some?
    requires forall i, j :: 0 <= i < |res| && 0 <= j < |res| && i != j ==> res[i].id != res[j].id
    ensures forall x :: x in ResResident(res, d) ==> |x.participants| == 2 && x.participants[0] != x.participants[1]
  {
    var n := MinNat(10, |res| / 10);
    SharingsShape(res, d.pairs, d.pairDraws, n);
    forall x | x in ResResident(res, d) ensures |x.participants| == 2 && x.participants[0] != x.participants[1] {
      var t :| 0 <= t < n && d.pairDraws[t] < PairThreshold(res[d.pairs[t].0], res[d.pairs[t].1])
        && x == Sharing(res[d.pairs[t].0], res[d.pairs[t].1]);
      assert res[d.pairs[t].0].id != res[d.pairs[t].1].id;
    }
  }

  /** At most min(10, n div 10) sharing records, so none among fewer than ten residents. */
  lemma ResResidentBound(res: seq<Profile>, d: RoundDraws)
    requires PairDraws(d, |res|)
    ensures |ResResident(res, d)| <= MinNat(10, |res| / 10)
    ensures |res| < 10 ==> ResResident(res, d) == []
  {
    SharingsShape(res, d.pairs, d.pairDraws, MinNat(10, |res| / 10));
  }

  /** A government falling back on its default decision addresses residents, so it produces no
      record for any enterprise. */
  lemma FallbackReachesNoEnterprise(gov: Profile, ents: seq<Profile>, eds: seq<Decision>, table: RuleTable, d: RoundDraws, draw: ChoiceDraw)
    requires ValidChoice(draw)
    requires |d.govEnt| == |ents| && |d.entGov| == |ents|
    ensures GovEnterprise(gov, ents, FallbackDecision(Role.Government, draw), eds, table, d)
         == EnterprisesToGov(ents, eds, GroupOf(table, GovEnterpriseRules), d.entGov, MinNat(|ents|, |eds|))
  {
  }

  // ---------------------------------------------------------------------------
  // Folding outcomes into agent state

  /** How often `id` occurs among a record's participants. */
  function Occurrences(ps: seq<string>, id: string): (n: nat)
    ensures n <= |ps|
    ensures id !in ps ==> n == 0
  {
    if ps == [] then 0 else Occurrences(ps[..|ps| - 1], id) + (if ps[|ps| - 1] == id then 1 else 0)
  }

  /** The records grouped under `id`, in order: a record appears once for each time `id` is
      among its participants. */
  function Involving(xs: seq<Interaction>, id: string): (r: seq<Interaction>)
    ensures forall x :: x in r ==> x in xs && id in x.participants
  {
    if xs == [] then []
    else
      var last := xs[|xs| - 1];
      Involving(xs[..|xs| - 1], id) + Repeat(last, Occurrences(last.participants, id))
  }

  /** `_update_government_state` for one record: success adds 0.01 to resource utilization
      (default 0.7, cap 1), failed and violation take 0.01 away (floor 0). */
  function GovernmentStep(s: map<string, Value>, x: Interaction): map<string, Value> {
    if x.outcome == "success" then s[ResourceUtilization := Number(Min(1.0, NumOr(s, ResourceUtilization, 0.7) + 0.01))]
    else if x.outcome == "failed" || x.outcome == "violation" then
      s[ResourceUtilization := Number(Max(0.0, NumOr(s, ResourceUtilization, 0.7) - 0.01))]
    else s
  }

  function GovernmentFold(s: map<string, Value>, xs: seq<Interaction>): map<string, Value> {
    if xs == [] then s else GovernmentStep(GovernmentFold(s, xs[..|xs| - 1]), xs[|xs| - 1])
  }

  /** `_update_enterprise_state` for one record: a successful procurement adds 2 to innovation
      (default 50, cap 100), a successful supply 0.01 to market share (default 0.1, cap 1). */
  function EnterpriseStep(s: map<string, Value>, x: Interaction): map<string, Value> {
    if x.outcome == "success" && x.kind == ProcurementTag then s[Innovation := Number(Min(100.0, NumOr(s, Innovation, 50.0) + 2.0))]
    else if x.outcome == "success" && x.kind == SupplyTag then s[MarketShare := Number(Min(1.0, NumOr(s, MarketShare, 0.1) + 0.01))]
    else s
  }

  function EnterpriseFold(s: map<string, Value>, xs: seq<Interaction>): map<string, Value> {
    if xs == [] then s else EnterpriseStep(EnterpriseFold(s, xs[..|xs| - 1]), xs[|xs| - 1])
  }

  /** A resident's state and attributes. */
  datatype Mind = Mind(state: map<string, Value>, attributes: map<string, Value>)

  /** `_update_resident_state` for one record: a successful service adds 0.1 satisfaction
      (default 3, cap 5), an answered demand adds 1 trust (default 80, cap 100); a failed or
      ignored record takes 0.05 satisfaction (floor 1) and, for a demand, 2 trust (floor 0). */
  function ResidentStep(m: Mind, x: Interaction): Mind {
    if x.outcome == "success" then
      if x.kind == ServiceTag then m.(state := m.state[Satisfaction := Number(Min(5.0, NumOr(m.state, Satisfaction, 3.0) + 0.1))])
      else if x.kind == FeedbackTag then m.(attributes := m.attributes[Trust := Number(Min(100.0, NumOr(m.attributes, Trust, 80.0) + 1.0))])
      else m
    else if x.outcome == "failed" || x.outcome == "ignored" then
      var s := m.state[Satisfaction := Number(Max(1.0, NumOr(m.state, Satisfaction, 3.0) - 0.05))];
      if x.kind == FeedbackTag then Mind(s, m.attributes[Trust := Number(Max(0.0, NumOr(m.attributes, Trust, 80.0) - 2.0))])
      else m.(state := s)
    else m
  }

  function ResidentFold(m: Mind, xs: seq<Interaction>): Mind {
    if xs == [] then m else ResidentStep(ResidentFold(m, xs[..|xs| - 1]), xs[|xs| - 1])
  }

  /** A numeric entry within [lo, hi], or missing with its default within [lo, hi]. */
  predicate Within(m: map<string, Value>, key: string, default: real, lo: real, hi: real) {
    lo <= NumOr(m, key, default) <= hi
  }

  /** Resource utilization stays within [0, 1]; records that neither succeeded nor failed
      (denied, approved, rejected, ...) leave the government's state as it was. */
  lemma {:induction false} GovernmentFoldBounds(s: map<string, Value>, xs: seq<Interaction>)
    requires Within(s, ResourceUtilization, 0.7, 0.0, 1.0)
    ensures Within(GovernmentFold(s, xs), ResourceUtilization, 0.7, 0.0, 1.0)
    ensures (forall x :: x in xs ==> x.outcome !in ["success", "failed", "violation"]) ==> GovernmentFold(s, xs) == s
  {
    if xs != [] {
      GovernmentFoldBounds(s, xs[..|xs| - 1]);
      assert forall x :: x in xs[..|xs| - 1] ==> x in xs;
    }
  }

  /** Innovation stays at most 100 and market share at most 1, and both only rise. */
  lemma {:induction false} EnterpriseFoldBounds(s: map<string, Value>, xs: seq<Interaction>)
    requires NumOr(s, Innovation, 50.0) <= 100.0 && NumOr(s, MarketShare, 0.1) <= 1.0
    ensures NumOr(s, Innovation, 50.0) <= NumOr(EnterpriseFold(s, xs), Innovation, 50.0) <= 100.0
    ensures NumOr(s, MarketShare, 0.1) <= NumOr(EnterpriseFold(s, xs), MarketShare, 0.1) <= 1.0
    ensures (forall x :: x in xs ==> x.outcome != "success") ==> EnterpriseFold(s, xs) == s
  {
    if xs != [] {
      EnterpriseFoldBounds(s, xs[..|xs| - 1]);
      assert forall x :: x in xs[..|xs| - 1] ==> x in xs;
    }
  }

  /** Satisfaction stays within [1, 5] and trust within [0, 100]; records that neither succeeded
      nor failed nor were ignored leave the resident as it was. */
  lemma {:induction false} ResidentFoldBounds(m: Mind, xs: seq<Interaction>)
    requires Within(m.state, Satisfaction, 3.0, 1.0, 5.0) && Within(m.attributes, Trust, 80.0, 0.0, 100.0)
    ensures Within(ResidentFold(m, xs).state, Satisfaction, 3.0, 1.0, 5.0)
    ensures Within(ResidentFold(m, xs).attributes, Trust, 80.0, 0.0, 100.0)
    ensures (forall x :: x in xs ==> x.outcome !in ["success", "failed", "ignored"]) ==> ResidentFold(m, xs) == m
  {
    if xs != [] {
      ResidentFoldBounds(m, xs[..|xs| - 1]);
      assert forall x :: x in xs[..|xs| - 1] ==> x in xs;
    }
  }

  /** An agent named in no record has nothing grouped under it. */
  lemma {:induction false} InvolvingNone(xs: seq<Interaction>, id: string)
    requires forall x :: x in xs ==> id !in x.participants
    ensures Involving(xs, id) == []
  {
    if xs != [] {
      assert forall x :: x in xs[..|xs| - 1] ==> x in xs;
      InvolvingNone(xs[..|xs| - 1], id);
    }
  }

  // ---------------------------------------------------------------------------
  // The engine

  /** The profiles of a list of agents. */
  function Snapshots(agents: seq<Agent>): seq<Profile>
    reads agents
  {
    seq(|agents|, i requires 0 <= i < |agents| reads agents => agents[i].Snapshot())
  }

  function EnterpriseKey(a: Agent): string { a.agentId.GetOr("enterprise") }

  function ResidentKey(a: Agent): string { a.agentId.GetOr("resident") }

  /** The government's state is its former state folded with the records naming it; nothing
      else of it differs. */
  predicate GovernmentFolded(gov: Agent, g: AgentFields, xs: seq<Interaction>)
    reads gov
  {
    gov.Fields() == g.(state := GovernmentFold(g.state, Involving(xs, GovernmentId)))
  }

  /** Each enterprise's state is its former state folded with the records naming it. */
  predicate EnterprisesFolded(ents: seq<Agent>, es: seq<AgentFields>, xs: seq<Interaction>)
    reads ents
  {
    |es| == |ents|
    && forall i :: 0 <= i < |ents| ==>
         ents[i].Fields() == es[i].(state := EnterpriseFold(es[i].state, Involving(xs, EnterpriseKey(ents[i]))))
  }

  /** Each resident's state and attributes are their former values folded with the records
      naming the resident. */
  predicate ResidentsFolded(res: seq<Agent>, rs: seq<AgentFields>, xs: seq<Interaction>)
    reads res
  {
    |rs| == |res|
    && forall i :: 0 <= i < |res| ==>
         Mind(res[i].state, res[i].attributes)
           == ResidentFold(Mind(rs[i].state, rs[i].attributes), Involving(xs, ResidentKey(res[i])))
         && res[i].Fields() == rs[i].(state := res[i].state, attributes := res[i].attributes)
  }

  /** Every agent absorbed the records naming it, starting from `g`, `es` and `rs`. */
  predicate Folded(gov: Agent, ents: seq<Agent>, res: seq<Agent>,
                   g: AgentFields, es: seq<AgentFields>, rs: seq<AgentFields>, xs: seq<Interaction>)
    reads gov, ents, res
  {
    GovernmentFolded(gov, g, xs) && EnterprisesFolded(ents, es, xs) && ResidentsFolded(res, rs, xs)
  }

  class InteractionEngine {
    const rules: RuleTable
    var history: seq<Interaction>

    constructor(rules: RuleTable)
      ensures this.rules == rules && history == []
    {
      this.rules := rules;
      history := [];
    }

    /** `process`: the round's records in the order government-enterprise, government-resident,
        enterprise-resident, resident-resident; the history grows by exactly those records and
        every agent's state absorbs the records naming it. A missing service-provision rule
        raises KeyError before anything changes. */
    method Process(gov: Agent, ents: seq<Agent>, res: seq<Agent>, gd: Decision, eds: seq<Decision>, rds: seq<Decision>, d: RoundDraws)
      returns (r: Result<seq<Interaction>>)
      requires ValidDraws(d, |ents|, |res|) && Separate(gov, ents, res)
      modifies this`history, gov, ents, res
      ensures r == RoundRecords(old(gov.Snapshot()), old(Snapshots(ents)), old(Snapshots(res)), gd, eds, rds, rules, d)
      ensures r.Err? ==> history == old(history) && unchanged(gov, ents, res)
      ensures r.Ok? ==> history == old(history) + r.value
      ensures r.Ok? ==> Folded(gov, ents, res, old(gov.Fields()), old(FieldsOf(ents)), old(FieldsOf(res)), r.value)
    {
      var g, es, rs := gov.Snapshot(), Snapshots(ents), Snapshots(res);
      r := Generate(g, es, rs, gd, eds, rds, d);
      if r.Ok? {
        Commit(gov, ents, res, r.value);
      }
    }

    /** The agents absorb a round's records, which then join the history. */
    method Commit(gov: Agent, ents: seq<Agent>, res: seq<Agent>, xs: seq<Interaction>)
      requires Separate(gov, ents, res)
      modifies this`history, gov, ents, res
      ensures history == old(history) + xs
      ensures Folded(gov, ents, res, old(gov.Fields()), old(FieldsOf(ents)), old(FieldsOf(res)), xs)
    {
      UpdateAgentStates(gov, ents, res, xs);
      history := history + xs;
    }

    /** The records of one round, before any agent changes. */
    method Generate(g: Profile, es: seq<Profile>, rs: seq<Profile>, gd: Decision, eds: seq<Decision>, rds: seq<Decision>, d: RoundDraws)
      returns (r: Result<seq<Interaction>>)
      requires ValidDraws(d, |es|, |rs|)
      ensures r == RoundRecords(g, es, rs, gd, eds, rds, rules, d)
    {
      ValidDrawsParts(d, |es|, |rs|);
      var a := ProcessGovernmentEnterprise(g, es, gd, eds, d);
      var b := ProcessGovernmentResident(g, rs, gd, rds, d);
      if b.Err? {
        return Err(b.error);
      }
      var c := ProcessEnterpriseResident(es, rs, eds, d);
      var e := ProcessResidentResident(rs, d);
      r := Ok(a + b.value + c + e);
    }

    /** `_process_government_enterprise_interactions` */
    method ProcessGovernmentEnterprise(gov: Profile, ents: seq<Profile>, gd: Decision, eds: seq<Decision>, d: RoundDraws)
      returns (out: seq<Interaction>)
      requires |d.govEnt| == |ents| && |d.entGov| == |ents|
      ensures out == GovEnterprise(gov, ents, gd, eds, rules, d)
    {
      var group := GroupOf(rules, GovEnterpriseRules);
      out := [];
      if TargetsEnterprises(gd) {
        for i := 0 to |ents|
          invariant out == GovToEnterprises(gov, ents, gd, group, d.govEnt, i)
        {
          var x := GovToEnterprise(gov, ents[i], gd, group, d.govEnt[i]);
          if x.Some? {
            out := out + [x.value];
          }
        }
      }
      var back := ProcessEnterprisesToGov(ents, eds, group, d.entGov);
      out := out + back;
    }

    /** The second half of `_process_government_enterprise_interactions`: each enterprise whose
        decision targets the government, paired with its decision in order. */
    static method ProcessEnterprisesToGov(ents: seq<Profile>, eds: seq<Decision>, group: RuleGroup, draws: seq<real>)
      returns (out: seq<Interaction>)
      requires |draws| == |ents|
      ensures out == EnterprisesToGov(ents, eds, group, draws, MinNat(|ents|, |eds|))
    {
      out := [];
      for i := 0 to MinNat(|ents|, |eds|)
        invariant out == EnterprisesToGov(ents, eds, group, draws, i)
      {
        if TargetsGovernment(eds[i]) {
          var x := EnterpriseToGov(ents[i], eds[i], group, draws[i]);
          if x.Some? {
            out := out + [x.value];
          }
        }
      }
    }

    /** `_process_government_resident_interactions` */
    method ProcessGovernmentResident(gov: Profile, res: seq<Profile>, gd: Decision, rds: seq<Decision>, d: RoundDraws)
      returns (out: Result<seq<Interaction>>)
      requires ServiceDraws(d, |res|) && |d.feedback| == |res|
      ensures out == GovResident(gov, res, gd, rds, rules, d)
    {
      var group := GroupOf(rules, GovResidentRules);
      var served := ServeResidents(res, gd, group, d);
      if served.Err? {
        return Err(served.error);
      }
      var feedback := CollectFeedback(gov, res, rds, group, d.feedback);
      out := Ok(served.value + feedback);
    }

    /** The service-provision loop of `_process_government_resident_interactions`. */
    static method ServeResidents(res: seq<Profile>, gd: Decision, group: RuleGroup, d: RoundDraws)
      returns (out: Result<seq<Interaction>>)
      requires ServiceDraws(d, |res|)
      ensures out == ServiceRound(res, gd, group, d)
    {
      var xs: seq<Interaction> := [];
      if gd.action == Some(ServiceTag) {
        for j := 0 to |d.serviceSample|
          invariant ServiceTag in group ==> xs == Services(res, group[ServiceTag], d.serviceSample, d.serviceOutcome, d.serviceType, j)
          invariant ServiceTag !in group ==> j == 0 && xs == []
        {
          if ServiceTag !in group {
            return Err("KeyError");
          }
          xs := xs + [Service(res[d.serviceSample[j]], group[ServiceTag], d.serviceOutcome[j], d.serviceType[j])];
        }
      }
      out := Ok(xs);
    }

    /** The feedback loop of `_process_government_resident_interactions`. */
    static method CollectFeedback(gov: Profile, res: seq<Profile>, rds: seq<Decision>, group: RuleGroup, draws: seq<real>)
      returns (xs: seq<Interaction>)
      requires |draws| >= MinNat(|res|, |rds|)
      ensures xs == Feedbacks(gov, res, rds, group, draws, MinNat(|res|, |rds|))
    {
      xs := [];
      for i := 0 to MinNat(|res|, |rds|)
        invariant xs == Feedbacks(gov, res, rds, group, draws, i)
      {
        if FeedbackFilter(rds[i]) {
          var x := Feedback(res[i], gov, rds[i], group, draws[i]);
          if x.Some? {
            xs := xs + [x.value];
          }
        }
      }
    }

    /** `_process_enterprise_resident_interactions` */
    method ProcessEnterpriseResident(ents: seq<Profile>, res: seq<Profile>, eds: seq<Decision>, d: RoundDraws)
      returns (out: seq<Interaction>)
      requires SupplyDraws(d, |ents|, |res|)
      ensures out == EntResident(ents, res, eds, rules, d)
    {
      var group := GroupOf(rules, EntResidentRules);
      out := [];
      for i := 0 to MinNat(|ents|, |eds|)
        invariant out == EnterpriseSupplies(ents, res, eds, group, d, i)
      {
        if SuppliesService(eds[i]) {
          var supplied := SupplyResidents(ents[i], res, group, d.supplySample[i], d.supplyDraws[i]);
          out := out + supplied;
        }
      }
    }

    /** The inner loop of `_process_enterprise_resident_interactions`: one enterprise supplies
        each resident of its sample. */
    static method SupplyResidents(ent: Profile, res: seq<Profile>, group: RuleGroup, sample: seq<nat>, draws: seq<real>)
      returns (out: seq<Interaction>)
      requires |draws| == |sample| && forall j :: 0 <= j < |sample| ==> sample[j] < |res|
      ensures out == Supplies(ent, res, group, sample, draws, |sample|)
    {
      out := [];
      for j := 0 to |sample|
        invariant out == Supplies(ent, res, group, sample, draws, j)
      {
        out := out + [Supply(ent, res[sample[j]], group, draws[j])];
      }
    }

    /** `_process_resident_resident_interactions` */
    method ProcessResidentResident(res: seq<Profile>, d: RoundDraws) returns (out: seq<Interaction>)
      requires PairDraws(d, |res|)
      ensures out == ResResident(res, d)
    {
      out := [];
      for t := 0 to MinNat(10, |res| / 10)
        invariant out == Sharings(res, d.pairs, d.pairDraws, t)
      {
        if |res| >= 2 {
          var (i, j) := d.pairs[t];
          if d.pairDraws[t] < PairThreshold(res[i], res[j]) {
            out := out + [Sharing(res[i], res[j])];
          }
        }
      }
    }

    /** `_update_agent_states`: groups the records by participant and folds each agent's group
        into it; an agent named nowhere is untouched. */
    method UpdateAgentStates(gov: Agent, ents: seq<Agent>, res: seq<Agent>, xs: seq<Interaction>)
      requires Separate(gov, ents, res)
      modifies gov, ents, res
      ensures Folded(gov, ents, res, old(gov.Fields()), old(FieldsOf(ents)), old(FieldsOf(res)), xs)
    {
      ghost var g, es, rs := gov.Fields(), FieldsOf(ents), FieldsOf(res);
      UpdateGovernmentState(gov, Involving(xs, GovernmentId));
      assert FieldsOf(ents) == es && FieldsOf(res) == rs;
      UpdateEnterpriseStates(ents, xs);
      assert GovernmentFolded(gov, g, xs) && FieldsOf(res) == rs;
      UpdateResidentStates(res, xs);
      assert GovernmentFolded(gov, g, xs) && EnterprisesFolded(ents, es, xs);
    }
  }

  /** The enterprise part of `_update_agent_states`. */
  method UpdateEnterpriseStates(ents: seq<Agent>, xs: seq<Interaction>)
    requires NoDuplicates(ents)
    modifies ents
    ensures EnterprisesFolded(ents, old(FieldsOf(ents)), xs)
  {
    for i := 0 to |ents|
      invariant forall k :: 0 <= k < i ==>
        ents[k].Fields() == old(ents[k].Fields()).(state := EnterpriseFold(old(ents[k].state), Involving(xs, EnterpriseKey(ents[k]))))
      invariant forall k :: i <= k < |ents| ==> ents[k].Fields() == old(ents[k].Fields())
    {
      UpdateEnterpriseState(ents[i], Involving(xs, EnterpriseKey(ents[i])));
    }
  }

  /** The resident part of `_update_agent_states`. */
  method UpdateResidentStates(res: seq<Agent>, xs: seq<Interaction>)
    requires NoDuplicates(res)
    modifies res
    ensures ResidentsFolded(res, old(FieldsOf(res)), xs)
  {
    for i := 0 to |res|
      invariant forall k :: 0 <= k < i ==>
        Mind(res[k].state, res[k].attributes)
          == ResidentFold(Mind(old(res[k].state), old(res[k].attributes)), Involving(xs, ResidentKey(res[k])))
      invariant forall k :: 0 <= k < |res| ==>
        res[k].Fields() == old(res[k].Fields()).(state := res[k].state, attributes := res[k].attributes)
      invariant forall k :: i <= k < |res| ==> res[k].Fields() == old(res[k].Fields())
    {
      UpdateResidentState(res[i], Involving(xs, ResidentKey(res[i])));
    }
  }

  /** `_update_government_state` */
  method UpdateGovernmentState(gov: Agent, xs: seq<Interaction>)
    modifies gov`state
    ensures gov.state == GovernmentFold(old(gov.state), xs)
  {
    for k := 0 to |xs|
      invariant gov.state == GovernmentFold(old(gov.state), xs[..k])
    {
      assert xs[..k + 1][..k] == xs[..k];
      var x := xs[k];
      if x.outcome == "success" {
        gov.state := gov.state[ResourceUtilization := Number(Min(1.0, NumOr(gov.state, ResourceUtilization, 0.7) + 0.01))];
      } else if x.outcome == "failed" || x.outcome == "violation" {
        gov.state := gov.state[ResourceUtilization := Number(Max(0.0, NumOr(gov.state, ResourceUtilization, 0.7) - 0.01))];
      }
    }
    assert xs[..|xs|] == xs;
  }

  /** `_update_enterprise_state` */
  method UpdateEnterpriseState(ent: Agent, xs: seq<Interaction>)
    modifies ent`state
    ensures ent.state == EnterpriseFold(old(ent.state), xs)
  {
    for k := 0 to |xs|
      invariant ent.state == EnterpriseFold(old(ent.state), xs[..k])
    {
      assert xs[..k + 1][..k] == xs[..k];
      var x := xs[k];
      if x.outcome == "success" {
        if x.kind == ProcurementTag {
          ent.state := ent.state[Innovation := Number(Min(100.0, NumOr(ent.state, Innovation, 50.0) + 2.0))];
        } else if x.kind == SupplyTag {
          ent.state := ent.state[MarketShare := Number(Min(1.0, NumOr(ent.state, MarketShare, 0.1) + 0.01))];
        }
      }
    }
    assert xs[..|xs|] == xs;
  }

  /** `_update_resident_state` */
  method UpdateResidentState(r: Agent, xs: seq<Interaction>)
    modifies r`state, r`attributes
    ensures Mind(r.state, r.attributes) == ResidentFold(Mind(old(r.state), old(r.attributes)), xs)
  {
    for k := 0 to |xs|
      invariant Mind(r.state, r.attributes) == ResidentFold(Mind(old(r.state), old(r.attributes)), xs[..k])
    {
      assert xs[..k + 1][..k] == xs[..k];
      var x := xs[k];
      if x.outcome == "success" {
        if x.kind == ServiceTag {
          r.state := r.state[Satisfaction := Number(Min(5.0, NumOr(r.state, Satisfaction, 3.0) + 0.1))];
        } else if x.kind == FeedbackTag {
          r.attributes := r.attributes[Trust := Number(Min(100.0, NumOr(r.attributes, Trust, 80.0) + 1.0))];
        }
      } else if x.outcome == "failed" || x.outcome == "ignored" {
        r.state := r.state[Satisfaction := Number(Max(1.0, NumOr(r.state, Satisfaction, 3.0) - 0.05))];
        if x.kind == FeedbackTag {
          r.attributes := r.attributes[Trust := Number(Max(0.0, NumOr(r.attributes, Trust, 80.0) - 2.0))];
        }
      }
    }
    assert xs[..|xs|] == xs;
  }
}
