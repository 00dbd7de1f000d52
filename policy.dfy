/** The policy engine: named interventions from the policy table, applied to the agents' attribute
    and modifier tables and to the environment's infrastructure, with a record of what was applied. */
module Policies {
  import opened Common
  import opened Records
  import Decimal
  import opened Agents
  import EnvironmentModel

  const ResidentTarget := "resident"
  const GovernmentEnterpriseTarget := "government_enterprise"
  const EnvironmentTarget := "environment"
  const GovernmentTarget := "government"
  const EnterpriseTarget := "enterprise"

  const LiteracyTraining := "digital_literacy_training"
  const InclusiveInfrastructure := "inclusive_infrastructure"
  const DataOpenSharing := "data_open_sharing"
  const AlgorithmRegulation := "algorithm_regulation"

  const Strategy := "data_collection_strategy"
  const Compliant := "compliant"
  const Willingness := "data_sharing_willingness"

  // ---------------------------------------------------------------------------
  // Change values

  /** `_parse_change_value`: a number passes through; text is parsed as a signed decimal, and
      text that does not parse counts 0.0. */
  function ParseChange(c: ChangeValue): (x: real)
    ensures c.Num? ==> x == c.amount
    ensures c.Str? && Decimal.ParseFloat(c.text).None? ==> x == 0.0
  {
    match c
    case Num(a) => a
    case Str(s) => Decimal.ParseFloat(s).GetOr(0.0)
  }

  /** "+20", "-10" and "20" read as the signed whole number they spell. */
  lemma ParseChangeSigned(n: nat)
    ensures ParseChange(Str("+" + Decimal.NatToString(n))) == n as real
    ensures ParseChange(Str("-" + Decimal.NatToString(n))) == -(n as real)
    ensures ParseChange(Str(Decimal.NatToString(n))) == n as real
  {
    Decimal.ParsePlusInteger(n);
    Decimal.ParseMinusInteger(n);
    Decimal.ParseInteger(n);
  }

  /** Text starting with a letter is no change at all. */
  lemma ParseChangeRejectsText(s: string)
    requires s != [] && 'a' <= s[0] <= 'z'
    ensures ParseChange(Str(s)) == 0.0
  {
    Decimal.ParseRejectsLetters(s);
  }

  // ---------------------------------------------------------------------------
  // Attribute changes

  /** One clamped additive change: `min(100, max(0, old + change))`. A flag adds as 1 or 0, as
      Python's `bool` does; any other value is left as it is. */
  function Shift(v: Value, c: ChangeValue): (r: Value)
    ensures v.Number? || v.Flag? <==> r.Number?
    ensures r.Number? ==> 0.0 <= r.number <= 100.0
    ensures v.Flag? ==> r.number == Clamp(0.0, 100.0, (if v.flag then 1.0 else 0.0) + ParseChange(c))
    ensures !v.Number? && !v.Flag? ==> r == v
  {
    match v
    case Number(n) => Number(Clamp(0.0, 100.0, n + ParseChange(c)))
    case Flag(b) => Number(Clamp(0.0, 100.0, (if b then 1.0 else 0.0) + ParseChange(c)))
    case _ => v
  }

  /** The attribute table after a policy's `attribute_change`: only attributes already present
      change, each by its own entry. */
  function Shifted(attrs: map<string, Value>, changes: map<string, ChangeValue>): (r: map<string, Value>)
    ensures r.Keys == attrs.Keys
  {
    map k | k in attrs :: if k in changes then Shift(attrs[k], changes[k]) else attrs[k]
  }

  /** No attribute is added, an attribute without a change keeps its value, and a changed
      number lands in [0, 100] at its old value plus the change when that stays in range. */
  lemma ShiftedSpec(attrs: map<string, Value>, changes: map<string, ChangeValue>, k: string)
    requires k in attrs
    ensures k in Shifted(attrs, changes)
    ensures k !in changes ==> Shifted(attrs, changes)[k] == attrs[k]
    ensures k in changes && attrs[k].Number? ==>
      var x := attrs[k].number + ParseChange(changes[k]);
      Shifted(attrs, changes)[k].Number?
      && 0.0 <= Shifted(attrs, changes)[k].number <= 100.0
      && (0.0 <= x <= 100.0 ==> Shifted(attrs, changes)[k].number == x)
  {
  }

  /** `for attr_name, change in attribute_changes.items(): if attr_name in attributes: ...` */
  method ShiftAttributes(attrs: map<string, Value>, changes: map<string, ChangeValue>) returns (r: map<string, Value>)
    ensures r == Shifted(attrs, changes)
  {
    r := attrs;
    var todo := changes.Keys;
    while todo != {}
      invariant todo <= changes.Keys
      invariant r.Keys == attrs.Keys
      invariant forall k :: k in r ==> r[k] == if k in changes && k !in todo then Shift(attrs[k], changes[k]) else attrs[k]
      decreases todo
    {
      var k :| k in todo;
      if k in r {
        r := r[k := Shift(r[k], changes[k])];
      }
      todo := todo - {k};
    }
  }

  // ---------------------------------------------------------------------------
  // Modifier tables

  /** `modifiers[name] = parse(change)` for every entry: entries are overwritten, never added up. */
  function Overwritten(m: map<string, real>, changes: map<string, ChangeValue>): (r: map<string, real>)
    ensures r.Keys == m.Keys + changes.Keys
  {
    map k | k in m.Keys + changes.Keys :: if k in changes then ParseChange(changes[k]) else m[k]
  }

  /** Applying the same changes twice is applying them once. */
  lemma OverwrittenIdempotent(m: map<string, real>, changes: map<string, ChangeValue>)
    ensures Overwritten(Overwritten(m, changes), changes) == Overwritten(m, changes)
  {
  }

  method Overwrite(m: map<string, real>, changes: map<string, ChangeValue>) returns (r: map<string, real>)
    ensures r == Overwritten(m, changes)
  {
    r := m;
    var todo := changes.Keys;
    while todo != {}
      invariant todo <= changes.Keys
      invariant r.Keys == m.Keys + (changes.Keys - todo)
      invariant forall k :: k in r ==> r[k] == if k in changes && k !in todo then ParseChange(changes[k]) else m[k]
      decreases todo
    {
      var k :| k in todo;
      r := r[k := ParseChange(changes[k])];
      todo := todo - {k};
    }
  }

  /** The government's `policy_modifiers` after a `rule_change` table: each named rule gets a
      table (empty if new) whose named parameters are overwritten. */
  function RulesOverwritten(pm: map<string, map<string, real>>, rc: map<string, map<string, ChangeValue>>)
    : (r: map<string, map<string, real>>)
    ensures r.Keys == pm.Keys + rc.Keys
  {
    map k | k in pm.Keys + rc.Keys :: RuleAfter(pm, rc, k)
  }

  /** One rule's table after a `rule_change` table. */
  function RuleAfter(pm: map<string, map<string, real>>, rc: map<string, map<string, ChangeValue>>, k: string): map<string, real>
    requires k in pm || k in rc
  {
    if k in rc then Overwritten(if k in pm then pm[k] else map[], rc[k]) else pm[k]
  }

  lemma RulesOverwrittenIdempotent(pm: map<string, map<string, real>>, rc: map<string, map<string, ChangeValue>>)
    ensures RulesOverwritten(RulesOverwritten(pm, rc), rc) == RulesOverwritten(pm, rc)
  {
    var once := RulesOverwritten(pm, rc);
    forall k | k in rc
      ensures RuleAfter(once, rc, k) == once[k]
    {
      OverwrittenIdempotent(if k in pm then pm[k] else map[], rc[k]);
    }
  }

  method OverwriteRules(pm: map<string, map<string, real>>, rc: map<string, map<string, ChangeValue>>)
    returns (r: map<string, map<string, real>>)
    ensures r == RulesOverwritten(pm, rc)
  {
    r := pm;
    var todo := rc.Keys;
    while todo != {}
      invariant todo <= rc.Keys
      invariant r.Keys == pm.Keys + (rc.Keys - todo)
      invariant forall k :: k in r ==> r[k] == if k in todo then pm[k] else RuleAfter(pm, rc, k)
      decreases todo
    {
      var k :| k in todo;
      var inner := if k in r then r[k] else map[];
      assert inner == if k in pm then pm[k] else map[];
      inner := Overwrite(inner, rc[k]);
      assert inner == RuleAfter(pm, rc, k);
      r := r[k := inner];
      todo := todo - {k};
    }
  }

  // ---------------------------------------------------------------------------
  // One agent

  /** `_apply_resident_policy` on one resident: literacy training reaches only residents whose
      information literacy (default 60) is below 70; the others get the attribute changes and
      have their behaviour modifiers overwritten. */
  function ResidentAfter(f: AgentFields, name: string, config: PolicyConfig): (r: AgentFields)
    ensures r.state == f.state && r.policyModifiers == f.policyModifiers && r.history == f.history
    ensures name == LiteracyTraining && NumOr(f.attributes, Literacy, 60.0) >= 70.0 ==> r == f
  {
    if name == LiteracyTraining && !(NumOr(f.attributes, Literacy, 60.0) < 70.0) then f
    else f.(attributes := Shifted(f.attributes, config.attributeChange),
            behaviorModifiers := Overwritten(f.behaviorModifiers, config.behaviorChange))
  }

  /** `data_collection_strategy`, read with default 'compliant'. */
  predicate IsCompliant(attrs: map<string, Value>) { Strategy !in attrs || attrs[Strategy] == Text(Compliant) }

  /** The enterprise side of `_apply_government_enterprise_policy`: open data sharing sets a
      compliant enterprise's sharing willingness to 0.8; algorithm regulation raises its compliance
      (default 90) by 5, capped at 100; any other policy leaves it alone. */
  function EnterpriseRuled(attrs: map<string, Value>, name: string): (r: map<string, Value>)
    ensures name == DataOpenSharing && IsCompliant(attrs) ==> r == attrs[Willingness := Number(0.8)]
    ensures name == AlgorithmRegulation ==>
      r == attrs[Compliance := Number(Min(100.0, NumOr(attrs, Compliance, 90.0) + 5.0))]
    ensures name != AlgorithmRegulation && !(name == DataOpenSharing && IsCompliant(attrs)) ==> r == attrs
  {
    if name == DataOpenSharing then
      if IsCompliant(attrs) then attrs[Willingness := Number(0.8)] else attrs
    else if name == AlgorithmRegulation then
      attrs[Compliance := Number(Min(100.0, NumOr(attrs, Compliance, 90.0) + 5.0))]
    else attrs
  }

  /** Compliance never exceeds 100 after regulation, and a value below 95 rises by exactly 5. */
  lemma RegulationRaisesCompliance(attrs: map<string, Value>)
    ensures NumOr(EnterpriseRuled(attrs, AlgorithmRegulation), Compliance, 90.0) <= 100.0
    ensures NumOr(attrs, Compliance, 90.0) <= 100.0 ==>
      NumOr(EnterpriseRuled(attrs, AlgorithmRegulation), Compliance, 90.0) >= NumOr(attrs, Compliance, 90.0)
    ensures NumOr(attrs, Compliance, 90.0) <= 95.0 ==>
      NumOr(EnterpriseRuled(attrs, AlgorithmRegulation), Compliance, 90.0) == NumOr(attrs, Compliance, 90.0) + 5.0
  {
  }

  /** How one policy changes one agent of a list. */
  datatype AgentChange =
    | ForResident(name: string, config: PolicyConfig)
    | ForEnterprise(name: string)
    | Shifting(changes: map<string, ChangeValue>)

  function Changed(f: AgentFields, c: AgentChange): AgentFields {
    match c
    case ForResident(name, config) => ResidentAfter(f, name, config)
    case ForEnterprise(name) => f.(attributes := EnterpriseRuled(f.attributes, name))
    case Shifting(changes) => f.(attributes := Shifted(f.attributes, changes))
  }

  /** Every agent of a list changed alike, in place. */
  function AllChanged(fs: seq<AgentFields>, c: AgentChange): (r: seq<AgentFields>)
    ensures |r| == |fs| && forall i :: 0 <= i < |fs| ==> r[i] == Changed(fs[i], c)
  {
    if fs == [] then [] else AllChanged(fs[..|fs| - 1], c) + [Changed(fs[|fs| - 1], c)]
  }

  // ---------------------------------------------------------------------------
  // One policy, on values

  /** Everything a policy can change: the agents' fields and the environment's two
      infrastructure tables. */
  datatype World = World(
    gov: AgentFields,
    ents: seq<AgentFields>,
    res: seq<AgentFields>,
    digital: map<string, real>,
    physical: map<string, real>)

  /** The branch of `_apply_single_policy` a `target` selects. */
  datatype Target = ToResidents | ToGovernmentEnterprise | ToEnvironment | ToGovernment | ToEnterprises | ToNothing

  function TargetOf(target: string): (t: Target)
    ensures t == ToEnvironment <==> target == EnvironmentTarget
  {
    if target == ResidentTarget then ToResidents
    else if target == GovernmentEnterpriseTarget then ToGovernmentEnterprise
    else if target == EnvironmentTarget then ToEnvironment
    else if target == GovernmentTarget then ToGovernment
    else if target == EnterpriseTarget then ToEnterprises
    else ToNothing
  }

  /** `_apply_single_policy` without its history entry: dispatch on the target; an unknown
      target changes nothing, and only the environment can fail. */
  function Single(w: World, name: string, config: PolicyConfig): (r: (World, Outcome))
    ensures r.1.Fail? ==> config.target == EnvironmentTarget
    ensures config.target != EnvironmentTarget ==> r.0.digital == w.digital && r.0.physical == w.physical
    ensures r.0.digital.Keys == w.digital.Keys && r.0.physical.Keys == w.physical.Keys
    ensures |r.0.ents| == |w.ents| && |r.0.res| == |w.res|
  {
    match TargetOf(config.target)
    case ToResidents =>
      (w.(res := AllChanged(w.res, ForResident(name, config))), Pass)
    case ToGovernmentEnterprise =>
      (w.(gov := w.gov.(policyModifiers := RulesOverwritten(w.gov.policyModifiers, config.ruleChange)),
          ents := AllChanged(w.ents, ForEnterprise(name))), Pass)
    case ToEnvironment =>
      var e := EnvironmentModel.Intervention(w.digital, w.physical, config);
      (w.(digital := e.0, physical := e.1), e.2)
    case ToGovernment =>
      (w.(gov := w.gov.(attributes := Shifted(w.gov.attributes, config.attributeChange))), Pass)
    case ToEnterprises =>
      (w.(ents := AllChanged(w.ents, Shifting(config.attributeChange))), Pass)
    case ToNothing => (w, Pass)
  }

  /** One `policy_history` entry. */
  datatype PolicyRecord = PolicyRecord(name: string, target: string, config: PolicyConfig)

  /** The world and the engine's two lists, and whether an application has failed. */
  datatype Run = Run(world: World, applied: seq<string>, history: seq<PolicyRecord>, outcome: Outcome)

  /** One name of `apply`'s list: an unknown name changes nothing; a known one is applied and
      recorded, and joins `applied` the first time. A failure stops the run. */
  function ApplyName(r: Run, policies: map<string, PolicyConfig>, name: string): Run {
    if r.outcome.Fail? || name !in policies then r
    else
      var config := policies[name];
      var (w, o) := Single(r.world, name, config);
      if o.Fail? then Run(w, r.applied, r.history, o)
      else Run(w, if name in r.applied then r.applied else r.applied + [name],
               r.history + [PolicyRecord(name, config.target, config)], Pass)
  }

  /** `apply` over a list of names. */
  function ApplyAll(r: Run, policies: map<string, PolicyConfig>, names: seq<string>): Run {
    if names == [] then r else ApplyName(ApplyAll(r, policies, names[..|names| - 1]), policies, names[|names| - 1])
  }

  /** Once an application fails, the rest of the list is not looked at. */
  lemma {:induction false} FailureSticks(r: Run, policies: map<string, PolicyConfig>, names: seq<string>, k: nat)
    requires k <= |names| && ApplyAll(r, policies, names[..k]).outcome.Fail?
    ensures ApplyAll(r, policies, names) == ApplyAll(r, policies, names[..k])
    decreases |names|
  {
    if k < |names| {
      var front := names[..|names| - 1];
      assert front[..k] == names[..k];
      FailureSticks(r, policies, front, k);
    } else {
      assert names[..k] == names;
    }
  }

  /** A list of unknown names changes nothing. */
  lemma {:induction false} UnknownNamesIgnored(r: Run, policies: map<string, PolicyConfig>, names: seq<string>)
    requires forall i :: 0 <= i < |names| ==> names[i] !in policies
    ensures ApplyAll(r, policies, names) == r
  {
    if names != [] {
      UnknownNamesIgnored(r, policies, names[..|names| - 1]);
    }
  }

  /** The known names of a list, in order, repeats included. */
  function Known(policies: map<string, PolicyConfig>, names: seq<string>): (r: seq<string>)
    ensures |r| <= |names|
  {
    if names == [] then []
    else Known(policies, names[..|names| - 1]) + (if names[|names| - 1] in policies then [names[|names| - 1]] else [])
  }

  /** A run that does not fail records every application of a known name once, in order; the
      applied list gains exactly the known names, each once, and stays free of repeats. */
  lemma {:induction false} ApplyAllRecords(r: Run, policies: map<string, PolicyConfig>, names: seq<string>)
    requires r.outcome.Pass? && NoDuplicates(r.applied)
    ensures var e := ApplyAll(r, policies, names);
      e.outcome.Pass? ==>
        && |e.history| == |r.history| + |Known(policies, names)|
        && e.history[..|r.history|] == r.history
        && (forall i :: 0 <= i < |Known(policies, names)| ==> e.history[|r.history| + i].name == Known(policies, names)[i])
        && NoDuplicates(e.applied)
        && (forall n :: n in e.applied <==> n in r.applied || n in Known(policies, names))
  {
    if names != [] {
      var front := names[..|names| - 1];
      var name := names[|names| - 1];
      var p := ApplyAll(r, policies, front);
      var e := ApplyAll(r, policies, names);
      if e.outcome.Pass? {
        ApplyAllRecords(r, policies, front);
        assert p.outcome.Pass?;
        if name in policies {
          assert Known(policies, names) == Known(policies, front) + [name];
          assert e.history == p.history + [PolicyRecord(name, policies[name].target, policies[name])];
          assert e.history[..|p.history|] == p.history;
        } else {
          assert Known(policies, names) == Known(policies, front);
        }
      }
    }
  }

  /** Only an environment policy can stop a run. */
  lemma {:induction false} OnlyEnvironmentFails(r: Run, policies: map<string, PolicyConfig>, names: seq<string>)
    requires r.outcome.Pass?
    ensures ApplyAll(r, policies, names).outcome.Fail? ==>
      exists i :: 0 <= i < |names| && names[i] in policies && policies[names[i]].target == EnvironmentTarget
  {
    if names != [] {
      var front := names[..|names| - 1];
      OnlyEnvironmentFails(r, policies, front);
      if ApplyAll(r, policies, front).outcome.Fail? {
        var i :| 0 <= i < |front| && front[i] in policies && policies[front[i]].target == EnvironmentTarget;
        assert names[i] == front[i];
      }
    }
  }

  // ---------------------------------------------------------------------------
  // Reports

  /** What `get_policy_effects` returns. */
  datatype Effects = Effects(applied: seq<string>, policyCount: nat, history: seq<PolicyRecord>)

  /** The top-level keys of an `attribute_change` table. */
  function ChangedKeys(config: PolicyConfig): (r: set<string>)
    ensures config.attributeChange.Keys <= r
  {
    config.attributeChange.Keys
      + (if config.digitalChange.Some? then {"digital_infrastructure"} else {})
      + (if config.physicalChange.Some? then {"physical_infrastructure"} else {})
  }

  /** The `estimated_effects` of `simulate_policy_impact`, by target. */
  datatype Estimate =
    | NoEstimate
    | ResidentEstimate(affectedResidents: nat, attributeImprovements: set<string>)
    | InfrastructureEstimate(config: PolicyConfig)
    | RuleEstimate(ruleChanges: set<string>)

  /** What `simulate_policy_impact` returns: an error for an unknown name, else an assessment. */
  datatype Impact = UnknownPolicy(error: string) | Assessment(name: string, target: string, estimate: Estimate)

  const UnknownPrefix := "Unknown policy: "

  /** The four policies `recommend_policies` can suggest, in the order it considers them. */
  const Candidates: seq<string> := [LiteracyTraining, InclusiveInfrastructure, DataOpenSharing, AlgorithmRegulation]

  /** `current_metrics.get(group, {}).get(key, 0)` */
  function Metric(metrics: map<string, map<string, real>>, group: string, key: string): real {
    if group in metrics && key in metrics[group] then metrics[group][key] else 0.0
  }

  /** Whether `recommend_policies` calls for the `j`-th candidate, before removing applied ones. */
  predicate CalledAt(metrics: map<string, map<string, real>>, targets: seq<string>, j: nat) {
    if j == 0 then Metric(metrics, "fairness", "digital_divide_index") > 0.3 || "digital_equity" in targets
    else if j == 1 then Metric(metrics, "fairness", "service_access_gini") > 0.4 || "infrastructure" in targets
    else if j == 2 then Metric(metrics, "efficiency", "resource_utilization") < 0.6 || "efficiency" in targets
    else if j == 3 then Metric(metrics, "collaboration", "conflict_rate") > 0.2 || "regulation" in targets
    else false
  }

  /** For each candidate, whether `recommend_policies` keeps it: called and not yet applied. */
  function Wanted(metrics: map<string, map<string, real>>, targets: seq<string>, applied: seq<string>): (w: seq<bool>)
    ensures |w| == |Candidates|
    ensures forall j :: 0 <= j < |Candidates| ==> (w[j] <==> CalledAt(metrics, targets, j) && Candidates[j] !in applied)
  {
    seq(|Candidates|, j requires 0 <= j < |Candidates| => CalledAt(metrics, targets, j) && Candidates[j] !in applied)
  }

  /** The positions from the `k`-th on whose flag is set, in order. */
  function Picked(want: seq<bool>, k: nat): seq<nat>
    requires k <= |want|
    decreases |want| - k
  {
    if k == |want| then []
    else (if want[k] then [k] else []) + Picked(want, k + 1)
  }

  /** Every picked position is a flagged one from `k` on. */
  lemma {:induction false} PickedFlagged(want: seq<bool>, k: nat)
    requires k <= |want|
    ensures forall i :: 0 <= i < |Picked(want, k)| ==> k <= Picked(want, k)[i] < |want| && want[Picked(want, k)[i]]
    decreases |want| - k
  {
    if k < |want| {
      PickedFlagged(want, k + 1);
      var rest := Picked(want, k + 1);
      var head: seq<nat> := if want[k] then [k] else [];
      var p := Picked(want, k);
      assert p == head + rest;
      forall i | 0 <= i < |p| ensures k <= p[i] < |want| && want[p[i]] {
        if i >= |head| { assert p[i] == rest[i - |head|]; }
      }
    }
  }

  /** Every flagged position from `k` on is picked. */
  lemma {:induction false} PickedComplete(want: seq<bool>, k: nat)
    requires k <= |want|
    ensures forall j :: k <= j < |want| && want[j] ==> j in Picked(want, k)
    decreases |want| - k
  {
    if k < |want| {
      PickedComplete(want, k + 1);
      var rest := Picked(want, k + 1);
      var head: seq<nat> := if want[k] then [k] else [];
      assert Picked(want, k) == head + rest;
    }
  }

  /** The picked positions increase. */
  lemma {:induction false} PickedIncreasing(want: seq<bool>, k: nat)
    requires k <= |want|
    ensures forall i, i2 :: 0 <= i < i2 < |Picked(want, k)| ==> Picked(want, k)[i] < Picked(want, k)[i2]
    decreases |want| - k
  {
    if k < |want| {
      PickedIncreasing(want, k + 1);
      PickedFlagged(want, k + 1);
      var rest := Picked(want, k + 1);
      var head: seq<nat> := if want[k] then [k] else [];
      var p := Picked(want, k);
      assert p == head + rest;
      forall i, i2 | 0 <= i < i2 < |p| ensures p[i] < p[i2] {
        assert p[i2] == rest[i2 - |head|];
        if i >= |head| { assert p[i] == rest[i - |head|]; }
      }
    }
  }

  /** A position is picked exactly when its flag is set. */
  lemma PickedExactly(want: seq<bool>)
    ensures forall j :: 0 <= j < |want| ==> (j in Picked(want, 0) <==> want[j])
  {
    PickedFlagged(want, 0);
    PickedComplete(want, 0);
    var p := Picked(want, 0);
    forall j | 0 <= j < |want| && j in p ensures want[j] {
      var i :| 0 <= i < |p| && p[i] == j;
    }
  }

  /** The four candidate names differ (their lengths do). */
  lemma CandidatesDistinct()
    ensures forall j, j2 :: 0 <= j < |Candidates| && 0 <= j2 < |Candidates| && j != j2 ==> Candidates[j] != Candidates[j2]
  {
    assert |Candidates[0]| == 25 && |Candidates[1]| == 24 && |Candidates[2]| == 17 && |Candidates[3]| == 20;
  }

  /** `recommend_policies`: the called candidates, in candidate order, less the applied ones. */
  function Recommendations(metrics: map<string, map<string, real>>, targets: seq<string>, applied: seq<string>): seq<string> {
    var p := Picked(Wanted(metrics, targets, applied), 0);
    PickedFlagged(Wanted(metrics, targets, applied), 0);
    seq(|p|, i requires 0 <= i < |p| => Candidates[p[i]])
  }

  /** The recommendations are the called, unapplied candidates, each once, taken in candidate
      order (the picked positions increase). */
  lemma RecommendationsExact(metrics: map<string, map<string, real>>, targets: seq<string>, applied: seq<string>)
    ensures var r := Recommendations(metrics, targets, applied);
      forall j :: 0 <= j < |Candidates| ==> (Candidates[j] in r <==> CalledAt(metrics, targets, j) && Candidates[j] !in applied)
    ensures var r := Recommendations(metrics, targets, applied);
      forall n :: n in r ==> n in Candidates
    ensures NoDuplicates(Recommendations(metrics, targets, applied))
    ensures var r := Recommendations(metrics, targets, applied); var p := Picked(Wanted(metrics, targets, applied), 0);
      |r| == |p| && forall i :: 0 <= i < |r| ==> p[i] < |Candidates| && r[i] == Candidates[p[i]]
  {
    var w := Wanted(metrics, targets, applied);
    var p := Picked(w, 0);
    var r := Recommendations(metrics, targets, applied);
    PickedFlagged(w, 0);
    PickedIncreasing(w, 0);
    PickedExactly(w);
    NamesOfPositions(p, r);
  }

  /** Names drawn from strictly increasing candidate positions are distinct candidates, and a
      candidate is among them exactly when its position is. */
  lemma NamesOfPositions(p: seq<nat>, r: seq<string>)
    requires forall i :: 0 <= i < |p| ==> p[i] < |Candidates|
    requires forall i, i2 :: 0 <= i < i2 < |p| ==> p[i] < p[i2]
    requires |r| == |p| && forall i :: 0 <= i < |r| ==> r[i] == Candidates[p[i]]
    ensures forall j :: 0 <= j < |Candidates| ==> (Candidates[j] in r <==> j in p)
    ensures forall n :: n in r ==> n in Candidates
    ensures NoDuplicates(r)
  {
    CandidatesDistinct();
    forall j | 0 <= j < |Candidates| ensures Candidates[j] in r <==> j in p {
      if Candidates[j] in r {
        var i :| 0 <= i < |r| && r[i] == Candidates[j];
        assert p[i] == j;
      }
      if j in p {
        var i :| 0 <= i < |p| && p[i] == j;
        assert r[i] == Candidates[j];
      }
    }
    forall n | n in r ensures n in Candidates {
      var i :| 0 <= i < |r| && r[i] == n;
    }
    forall i, i2 | 0 <= i < i2 < |r| ensures r[i] != r[i2] {
      assert p[i] != p[i2];
    }
  }

  // ---------------------------------------------------------------------------
  // The engine

  /** Everything a policy can change, read from the objects. */
  function WorldOf(gov: Agent, ents: seq<Agent>, res: seq<Agent>, env: EnvironmentModel.Environment): World
    reads gov, ents, res, env
  {
    World(gov.Fields(), FieldsOf(ents), FieldsOf(res), env.digital, env.physical)
  }

  class PolicyEngine {
    const policies: map<string, PolicyConfig>
    var applied: seq<string>
    var history: seq<PolicyRecord>

    constructor(policies: map<string, PolicyConfig>)
      ensures this.policies == policies && applied == [] && history == []
    {
      this.policies := policies;
      applied := [];
      history := [];
    }

    /** `apply`: the names in order, as `ApplyAll` describes; an environment failure stops the
        list and is returned. */
    method Apply(gov: Agent, ents: seq<Agent>, res: seq<Agent>, env: EnvironmentModel.Environment, names: seq<string>)
      returns (outcome: Outcome)
      requires Separate(gov, ents, res)
      modifies this`applied, this`history, gov, ents, res, env`digital, env`physical
      ensures Run(WorldOf(gov, ents, res, env), applied, history, outcome)
           == ApplyAll(Run(old(WorldOf(gov, ents, res, env)), old(applied), old(history), Pass), policies, names)
    {
      ghost var start := Run(WorldOf(gov, ents, res, env), applied, history, Pass);
      outcome := Pass;
      for i := 0 to |names|
        invariant Run(WorldOf(gov, ents, res, env), applied, history, Pass) == ApplyAll(start, policies, names[..i])
        invariant outcome.Pass?
      {
        assert names[..i + 1][..i] == names[..i];
        var name := names[i];
        ghost var before := Run(WorldOf(gov, ents, res, env), applied, history, Pass);
        if name in policies {
          outcome := ApplySingle(name, policies[name], gov, ents, res, env);
          ghost var w := WorldOf(gov, ents, res, env);
          if outcome.Fail? {
            FailureSticks(start, policies, names, i + 1);
            return;
          }
          if name !in applied {
            Remember(name, gov, ents, res, env);
          }
          assert WorldOf(gov, ents, res, env) == w;
        }
        assert Run(WorldOf(gov, ents, res, env), applied, history, Pass) == ApplyName(before, policies, name);
      }
      assert names[..|names|] == names;
    }

    /** `_apply_single_policy`: the change `Single` describes, then one history entry. */
    method ApplySingle(name: string, config: PolicyConfig, gov: Agent, ents: seq<Agent>, res: seq<Agent>, env: EnvironmentModel.Environment)
      returns (outcome: Outcome)
      requires Separate(gov, ents, res)
      modifies this`history, gov, ents, res, env`digital, env`physical
      ensures (WorldOf(gov, ents, res, env), outcome) == Single(old(WorldOf(gov, ents, res, env)), name, config)
      ensures history == if outcome.Pass? then old(history) + [PolicyRecord(name, config.target, config)] else old(history)
    {
      outcome := Pass;
      match TargetOf(config.target) {
      case ToResidents => ResidentBranch(name, config, gov, ents, res, env);
      case ToGovernmentEnterprise => GovernmentEnterpriseBranch(name, config, gov, ents, res, env);
      case ToEnvironment =>
        outcome := EnvironmentBranch(name, config, gov, ents, res, env);
        if outcome.Fail? {
          return;
        }
      case ToGovernment => GovernmentBranch(name, config, gov, ents, res, env);
      case ToEnterprises => EnterpriseBranch(name, config, gov, ents, res, env);
      case ToNothing =>
      }
      Record(PolicyRecord(name, config.target, config), gov, ents, res, env);
    }

    /** Appends one history entry; the world is not touched. */
    method Record(entry: PolicyRecord, ghost gov: Agent, ghost ents: seq<Agent>, ghost res: seq<Agent>, ghost env: EnvironmentModel.Environment)
      modifies this`history
      ensures history == old(history) + [entry]
      ensures WorldOf(gov, ents, res, env) == old(WorldOf(gov, ents, res, env))
    {
      history := history + [entry];
    }

    /** Appends one name to the applied list; the world is not touched. */
    method Remember(name: string, ghost gov: Agent, ghost ents: seq<Agent>, ghost res: seq<Agent>, ghost env: EnvironmentModel.Environment)
      modifies this`applied
      ensures applied == old(applied) + [name]
      ensures WorldOf(gov, ents, res, env) == old(WorldOf(gov, ents, res, env))
    {
      applied := applied + [name];
    }

    /** `get_policy_effects`: copies of the applied names and of the history, and their count. */
    function GetPolicyEffects(): (r: Effects)
      reads this
      ensures r.applied == applied && r.history == history
      ensures r.policyCount == |r.applied|
    {
      Effects(applied, |applied|, history)
    }

    /** `simulate_policy_impact`: an error for an unknown name; otherwise the target and an
        estimate that only a resident, environment or government-enterprise policy fills in. */
    function SimulatePolicyImpact(name: string, residentCount: nat): (r: Impact)
      ensures r.UnknownPolicy? <==> name !in policies
      ensures r.Assessment? ==> r.name == name && r.target == policies[name].target
      ensures r.Assessment? && r.estimate.ResidentEstimate? ==> r.estimate.affectedResidents == residentCount
      ensures r.Assessment? && r.target !in {ResidentTarget, EnvironmentTarget, GovernmentEnterpriseTarget} ==> r.estimate.NoEstimate?
    {
      if name !in policies then UnknownPolicy(UnknownPrefix + name)
      else
        var config := policies[name];
        var target := config.target;
        var estimate :=
          if target == ResidentTarget then ResidentEstimate(residentCount, ChangedKeys(config))
          else if target == EnvironmentTarget then InfrastructureEstimate(config)
          else if target == GovernmentEnterpriseTarget then RuleEstimate(config.ruleChange.Keys)
          else NoEstimate;
        Assessment(name, target, estimate)
    }

    /** `recommend_policies` with this engine's applied policies. */
    function RecommendPolicies(metrics: map<string, map<string, real>>, targets: seq<string>): (r: seq<string>)
      reads this
      ensures forall j :: 0 <= j < |Candidates| ==>
        (Candidates[j] in r <==> CalledAt(metrics, targets, j) && Candidates[j] !in applied)
      ensures forall n :: n in r ==> n in Candidates
      ensures NoDuplicates(r)
    {
      RecommendationsExact(metrics, targets, applied);
      Recommendations(metrics, targets, applied)
    }
  }

  // The five branches of `_apply_single_policy`, each changing only its own part of the world.

  method ResidentBranch(name: string, config: PolicyConfig, gov: Agent, ents: seq<Agent>, res: seq<Agent>, env: EnvironmentModel.Environment)
    requires Separate(gov, ents, res) && TargetOf(config.target) == ToResidents
    modifies res
    ensures WorldOf(gov, ents, res, env) == Single(old(WorldOf(gov, ents, res, env)), name, config).0
  {
    ghost var w := WorldOf(gov, ents, res, env);
    ApplyResidentPolicy(name, config, res);
    ghost var rs := FieldsOf(res);
    assert gov.Fields() == w.gov && FieldsOf(ents) == w.ents && env.digital == w.digital && env.physical == w.physical;
    SingleResident(w, name, config, rs);
  }

  /** The resident case of `Single`, stated on the part it changes. */
  lemma SingleResident(w: World, name: string, config: PolicyConfig, rs: seq<AgentFields>)
    requires TargetOf(config.target) == ToResidents
    requires rs == AllChanged(w.res, ForResident(name, config))
    ensures Single(w, name, config).0 == World(w.gov, w.ents, rs, w.digital, w.physical)
  {
  }

  method GovernmentEnterpriseBranch(name: string, config: PolicyConfig, gov: Agent, ents: seq<Agent>, res: seq<Agent>, env: EnvironmentModel.Environment)
    requires Separate(gov, ents, res) && TargetOf(config.target) == ToGovernmentEnterprise
    modifies gov`policyModifiers, ents
    ensures WorldOf(gov, ents, res, env) == Single(old(WorldOf(gov, ents, res, env)), name, config).0
  {
    ghost var w := WorldOf(gov, ents, res, env);
    ApplyGovernmentEnterprisePolicy(name, config, gov, ents);
    ghost var g := gov.Fields();
    ghost var es := FieldsOf(ents);
    assert FieldsOf(res) == w.res && env.digital == w.digital && env.physical == w.physical;
    SingleGovernmentEnterprise(w, name, config, g, es);
  }

  /** The government-enterprise case of `Single`, stated on the parts it changes. */
  lemma SingleGovernmentEnterprise(w: World, name: string, config: PolicyConfig, g: AgentFields, es: seq<AgentFields>)
    requires TargetOf(config.target) == ToGovernmentEnterprise
    requires g == w.gov.(policyModifiers := RulesOverwritten(w.gov.policyModifiers, config.ruleChange))
    requires es == AllChanged(w.ents, ForEnterprise(name))
    ensures Single(w, name, config).0 == World(g, es, w.res, w.digital, w.physical)
  {
  }

  method EnvironmentBranch(name: string, config: PolicyConfig, gov: Agent, ents: seq<Agent>, res: seq<Agent>, env: EnvironmentModel.Environment)
    returns (outcome: Outcome)
    requires TargetOf(config.target) == ToEnvironment
    modifies env`digital, env`physical
    ensures (WorldOf(gov, ents, res, env), outcome) == Single(old(WorldOf(gov, ents, res, env)), name, config)
  {
    ghost var w := WorldOf(gov, ents, res, env);
    outcome := env.ApplyPolicyIntervention(name, config);
    assert gov.Fields() == w.gov && FieldsOf(ents) == w.ents && FieldsOf(res) == w.res;
  }

  /** `_apply_government_policy` */
  method GovernmentBranch(name: string, config: PolicyConfig, gov: Agent, ents: seq<Agent>, res: seq<Agent>, env: EnvironmentModel.Environment)
    requires Separate(gov, ents, res) && TargetOf(config.target) == ToGovernment
    modifies gov`attributes
    ensures WorldOf(gov, ents, res, env) == Single(old(WorldOf(gov, ents, res, env)), name, config).0
  {
    ghost var w := WorldOf(gov, ents, res, env);
    gov.attributes := ShiftAttributes(gov.attributes, config.attributeChange);
    assert FieldsOf(ents) == w.ents && FieldsOf(res) == w.res;
  }

  method EnterpriseBranch(name: string, config: PolicyConfig, gov: Agent, ents: seq<Agent>, res: seq<Agent>, env: EnvironmentModel.Environment)
    requires Separate(gov, ents, res) && TargetOf(config.target) == ToEnterprises
    modifies ents
    ensures WorldOf(gov, ents, res, env) == Single(old(WorldOf(gov, ents, res, env)), name, config).0
  {
    ghost var w := WorldOf(gov, ents, res, env);
    ApplyEnterprisePolicy(config, ents);
    assert gov.Fields() == w.gov && FieldsOf(res) == w.res;
  }

  /** `_apply_resident_policy`. The residents literacy training reaches are chosen one by one
      just before each is changed, which picks the same residents as choosing them all first
      because each resident is changed once. */
  method ApplyResidentPolicy(name: string, config: PolicyConfig, res: seq<Agent>)
    requires NoDuplicates(res)
    modifies res
    ensures FieldsOf(res) == AllChanged(old(FieldsOf(res)), ForResident(name, config))
  {
    ghost var fs := FieldsOf(res);
    ghost var c := ForResident(name, config);
    for i := 0 to |res|
      invariant forall k :: 0 <= k < i ==> res[k].Fields() == Changed(fs[k], c)
      invariant forall k :: i <= k < |res| ==> res[k].Fields() == fs[k]
    {
      var r := res[i];
      assert forall k :: 0 <= k < |res| && k != i ==> res[k] != r;
      ApplyToResident(name, config, r);
      assert r.Fields() == Changed(fs[i], c);
    }
    assert forall k :: 0 <= k < |res| ==> FieldsOf(res)[k] == AllChanged(fs, c)[k];
  }

  /** One resident of `_apply_resident_policy`. */
  method ApplyToResident(name: string, config: PolicyConfig, r: Agent)
    modifies r`attributes, r`behaviorModifiers
    ensures r.Fields() == ResidentAfter(old(r.Fields()), name, config)
  {
    if name != LiteracyTraining || NumOr(r.attributes, Literacy, 60.0) < 70.0 {
      r.attributes := ShiftAttributes(r.attributes, config.attributeChange);
      r.behaviorModifiers := Overwrite(r.behaviorModifiers, config.behaviorChange);
    }
  }

  /** `_apply_government_enterprise_policy` */
  method ApplyGovernmentEnterprisePolicy(name: string, config: PolicyConfig, gov: Agent, ents: seq<Agent>)
    requires NoDuplicates(ents) && gov !in ents
    modifies gov`policyModifiers, ents
    ensures gov.Fields() == old(gov.Fields()).(policyModifiers := RulesOverwritten(old(gov.policyModifiers), config.ruleChange))
    ensures FieldsOf(ents) == AllChanged(old(FieldsOf(ents)), ForEnterprise(name))
  {
    var rules := OverwriteRules(gov.policyModifiers, config.ruleChange);
    SetRules(gov, rules, ents);
    RuleEnterprises(name, ents);
  }

  /** Replaces the government's rule modifiers; no enterprise is touched. */
  method SetRules(gov: Agent, rules: map<string, map<string, real>>, ghost ents: seq<Agent>)
    requires gov !in ents
    modifies gov`policyModifiers
    ensures gov.Fields() == old(gov.Fields()).(policyModifiers := rules)
    ensures FieldsOf(ents) == old(FieldsOf(ents))
  {
    gov.policyModifiers := rules;
  }

  /** The enterprise part of `_apply_government_enterprise_policy`: only data_open_sharing and
      algorithm_regulation touch the enterprises. */
  method RuleEnterprises(name: string, ents: seq<Agent>)
    requires NoDuplicates(ents)
    modifies ents
    ensures FieldsOf(ents) == AllChanged(old(FieldsOf(ents)), ForEnterprise(name))
  {
    if name == DataOpenSharing {
      OpenDataSharing(ents);
    } else if name == AlgorithmRegulation {
      RegulateAlgorithms(ents);
    } else {
      UnruledUnchanged(FieldsOf(ents), name);
    }
  }

  /** A policy other than the two enterprise rules leaves every enterprise as it is. */
  lemma UnruledUnchanged(fs: seq<AgentFields>, name: string)
    requires name != DataOpenSharing && name != AlgorithmRegulation
    ensures AllChanged(fs, ForEnterprise(name)) == fs
  {
    var r := AllChanged(fs, ForEnterprise(name));
    assert forall i :: 0 <= i < |fs| ==> r[i] == fs[i];
  }

  /** The `data_open_sharing` loop of `_apply_government_enterprise_policy`. */
  method OpenDataSharing(ents: seq<Agent>)
    requires NoDuplicates(ents)
    modifies ents
    ensures FieldsOf(ents) == AllChanged(old(FieldsOf(ents)), ForEnterprise(DataOpenSharing))
  {
    ghost var fs := FieldsOf(ents);
    ghost var c := ForEnterprise(DataOpenSharing);
    for i := 0 to |ents|
      invariant forall k :: 0 <= k < i ==> ents[k].Fields() == Changed(fs[k], c)
      invariant forall k :: i <= k < |ents| ==> ents[k].Fields() == fs[k]
    {
      var e := ents[i];
      assert forall k :: 0 <= k < |ents| && k != i ==> ents[k] != e;
      if IsCompliant(e.attributes) {
        e.attributes := e.attributes[Willingness := Number(0.8)];
      }
      assert e.Fields() == Changed(fs[i], c);
    }
    assert forall k :: 0 <= k < |ents| ==> FieldsOf(ents)[k] == AllChanged(fs, c)[k];
  }

  /** The `algorithm_regulation` loop of `_apply_government_enterprise_policy`. */
  method RegulateAlgorithms(ents: seq<Agent>)
    requires NoDuplicates(ents)
    modifies ents
    ensures FieldsOf(ents) == AllChanged(old(FieldsOf(ents)), ForEnterprise(AlgorithmRegulation))
  {
    ghost var fs := FieldsOf(ents);
    ghost var c := ForEnterprise(AlgorithmRegulation);
    for i := 0 to |ents|
      invariant forall k :: 0 <= k < i ==> ents[k].Fields() == Changed(fs[k], c)
      invariant forall k :: i <= k < |ents| ==> ents[k].Fields() == fs[k]
    {
      var e := ents[i];
      assert forall k :: 0 <= k < |ents| && k != i ==> ents[k] != e;
      e.attributes := e.attributes[Compliance := Number(Min(100.0, NumOr(e.attributes, Compliance, 90.0) + 5.0))];
      assert e.Fields() == Changed(fs[i], c);
    }
    assert forall k :: 0 <= k < |ents| ==> FieldsOf(ents)[k] == AllChanged(fs, c)[k];
  }

  /** `_apply_enterprise_policy` */
  method ApplyEnterprisePolicy(config: PolicyConfig, ents: seq<Agent>)
    requires NoDuplicates(ents)
    modifies ents
    ensures FieldsOf(ents) == AllChanged(old(FieldsOf(ents)), Shifting(config.attributeChange))
  {
    ghost var fs := FieldsOf(ents);
    ghost var c := Shifting(config.attributeChange);
    for i := 0 to |ents|
      invariant forall k :: 0 <= k < i ==> ents[k].Fields() == Changed(fs[k], c)
      invariant forall k :: i <= k < |ents| ==> ents[k].Fields() == fs[k]
    {
      var e := ents[i];
      assert forall k :: 0 <= k < |ents| && k != i ==> ents[k] != e;
      e.attributes := ShiftAttributes(e.attributes, config.attributeChange);
      assert e.Fields() == Changed(fs[i], c);
    }
    assert forall k :: 0 <= k < |ents| ==> FieldsOf(ents)[k] == AllChanged(fs, c)[k];
  }
}
