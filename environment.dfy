/** The shared environment of one city: infrastructure levels per area, service availability,
    system load, the emergency flag, service quality per area and infrastructure utilisation.
    `update` evolves it once per round from that round's interactions. */
module EnvironmentModel {
  import opened Common
  import opened Records
  import Decimal

  /** The per-city configuration the environment starts from. */
  datatype EnvConfig = EnvConfig(digital: map<string, real>, physical: map<string, real>, policy: map<string, Value>)

  /** The random draws one `update` consumes: the emergency trigger, the recovery draw (read only
      while an emergency is active) and one drift in [-1, 1] per digital-infrastructure area. */
  datatype EnvDraws = EnvDraws(trigger: real, recovery: real, drift: map<string, real>)

  /** What `get_state` returns. */
  datatype EnvSnapshot = EnvSnapshot(
    digital: map<string, real>,
    physical: map<string, real>,
    policy: map<string, Value>,
    availability: real,
    load: real,
    emergency: bool,
    quality: map<string, real>,
    utilization: map<string, real>,
    updateCount: nat)

  /** Requests the system serves per round before it is fully loaded. */
  const Capacity: real := 50.0

  const InitialQuality: map<string, real> := map[CoreArea := 0.9, FringeArea := 0.7, RuralArea := 0.6]
  const InitialUtilization: map<string, real> := map["digital" := 0.6, "physical" := 0.7]

  // ---------------------------------------------------------------------------
  // The six sub-steps of `update`, as functions of the old state

  /** Interactions that load the system. */
  predicate IsLoadKind(i: Interaction) {
    i.kind == "service_request" || i.kind == "data_request" || i.kind == "service_use"
  }

  predicate IsSystemFailure(i: Interaction) { i.outcome == "system_failure" }

  /** Smoothed load: 0.7 of the old load plus 0.3 of the round's load factor, clamped to [0, 1]. */
  function NextLoad(load: real, xs: seq<Interaction>): (r: real)
    ensures 0.0 <= r <= 1.0
  {
    Clamp01(0.7 * load + 0.3 * Min(1.0, (Count(xs, IsLoadKind) as real) / Capacity))
  }

  /** The load-driven part of the availability change. */
  function LoadDelta(load: real): real {
    if load > 0.8 then -0.05 else if load < 0.3 then 0.02 else 0.0
  }

  /** Availability after the load delta and 0.1 per system failure, clamped to [0, 1]. */
  function NextAvailability(availability: real, load: real, xs: seq<Interaction>): (r: real)
    ensures 0.0 <= r <= 1.0
  {
    Clamp01(availability + (LoadDelta(load) - 0.1 * (Count(xs, IsSystemFailure) as real)))
  }

  /** The emergency check: a trigger draw below 0.02 sets the flag and cuts availability to 70%,
      whether or not an emergency is already active; otherwise an active emergency ends when the
      recovery draw is below 0.3. Result: (flag, availability). */
  function EmergencyStep(emergency: bool, availability: real, trigger: real, recovery: real): (bool, real) {
    if trigger < 0.02 then (true, availability * 0.7)
    else if emergency then (recovery >= 0.3, availability)
    else (false, availability)
  }

  /** The number of records whose `service_type` is `tag`. */
  function CountService(xs: seq<Interaction>, tag: string): (n: nat)
    ensures n <= |xs|
  {
    if xs == [] then 0
    else CountService(xs[..|xs| - 1], tag) + (if xs[|xs| - 1].serviceType == Some(tag) then 1 else 0)
  }

  /** Smoothed utilisation of one channel; unchanged in a round without interactions. */
  function NextUtilization(prev: real, xs: seq<Interaction>, tag: string): (r: real)
    ensures 0.0 <= prev <= 1.0 ==> 0.0 <= r <= 1.0
  {
    if |xs| > 0 then 0.8 * prev + 0.2 * Ratio(CountService(xs, tag), |xs|) else prev
  }

  /** The records of one area, in order; a record without an area counts as core_area. */
  function RecordsIn(xs: seq<Interaction>, a: string): (r: seq<Interaction>)
    ensures |r| <= |xs|
    ensures forall x :: x in r ==> x in xs && AreaOf(x) == a
  {
    if xs == [] then []
    else RecordsIn(xs[..|xs| - 1], a) + (if AreaOf(xs[|xs| - 1]) == a then [xs[|xs| - 1]] else [])
  }

  /** One area's quality after a round with the given interactions in that area. */
  function AreaQuality(q: real, group: seq<Interaction>): (r: real)
    ensures |group| == 0 ==> r == q
    ensures |group| > 0 ==> 0.0 <= r <= 1.0
  {
    if |group| == 0 then q
    else Clamp01(q + (Ratio(Count(group, IsSuccess), |group|) - 0.7) * 0.05)
  }

  /** Quality of the three areas nudged towards a 70% success rate; other keys are left alone. */
  function NextQuality(quality: map<string, real>, xs: seq<Interaction>): (r: map<string, real>)
    ensures r.Keys == quality.Keys
  {
    map a | a in quality :: if IsArea(a) then AreaQuality(quality[a], RecordsIn(xs, a)) else quality[a]
  }

  /** The 2% degradation of digital infrastructure during an emergency. */
  function Decay(x: real, emergency: bool): real {
    if emergency then x * 0.98 else x
  }

  /** Digital infrastructure after the random drift, clamped to [0, 100], and the decay. */
  function Drifted(digital: map<string, real>, drift: map<string, real>, emergency: bool): (r: map<string, real>)
    requires digital.Keys <= drift.Keys
    ensures r.Keys == digital.Keys
  {
    map a | a in digital :: Decay(Clamp(0.0, 100.0, digital[a] + drift[a]), emergency)
  }

  // ---------------------------------------------------------------------------
  // Policy interventions on infrastructure

  /** `float(change.replace('+', ''))`: a number has no `replace` and raises AttributeError;
      text that does not parse raises ValueError. */
  function InfraChange(c: ChangeValue): Result<real> {
    match c
    case Num(_) => Err("AttributeError")
    case Str(s) =>
      match Decimal.ParseFloat(RemoveChar(s, '+'))
      case Some(x) => Ok(x)
      case None => Err("ValueError")
  }

  /** An infrastructure change table entry with its change converted. Conversion has no side
      effect, so converting all entries first and stopping at the first failure is the same as
      converting each one as the loop reaches it. */
  type Parsed = (string, Result<real>)

  function ParseEntry(e: (string, ChangeValue)): Parsed { (e.0, InfraChange(e.1)) }

  /** The changes applied in order to the areas already present, each to min(100, old + change);
      the first change that does not convert stops the loop with the earlier changes kept. */
  function ApplyInfra(levels: map<string, real>, changes: seq<Parsed>): (r: (map<string, real>, Outcome))
    ensures r.0.Keys == levels.Keys
    decreases |changes|
  {
    if changes == [] then (levels, Pass)
    else
      var area := changes[0].0;
      if area !in levels then ApplyInfra(levels, changes[1..])
      else
        match changes[0].1
        case Err(e) => (levels, Fail(e))
        case Ok(x) => ApplyInfra(levels[area := Min(100.0, levels[area] + x)], changes[1..])
  }

  /** An area no change names keeps its level. */
  lemma {:induction false} ApplyInfraUntouched(levels: map<string, real>, changes: seq<Parsed>, a: string)
    requires a in levels
    requires forall j :: 0 <= j < |changes| ==> changes[j].0 != a
    ensures ApplyInfra(levels, changes).0[a] == levels[a]
    decreases |changes|
  {
    if changes != [] {
      var area := changes[0].0;
      if area !in levels {
        ApplyInfraUntouched(levels, changes[1..], a);
      } else if changes[0].1.Ok? {
        ApplyInfraUntouched(levels[area := Min(100.0, levels[area] + changes[0].1.value)], changes[1..], a);
      }
    }
  }

  /** An intervention never raises a level above 100, and never lowers one that is above 100
      unless the change itself is negative: every level ends untouched or at most 100. */
  lemma {:induction false} ApplyInfraCapped(levels: map<string, real>, changes: seq<Parsed>, a: string)
    requires a in levels
    ensures ApplyInfra(levels, changes).0[a] == levels[a] || ApplyInfra(levels, changes).0[a] <= 100.0
    decreases |changes|
  {
    if changes != [] {
      var area := changes[0].0;
      if area !in levels {
        ApplyInfraCapped(levels, changes[1..], a);
      } else if changes[0].1.Ok? {
        var next := levels[area := Min(100.0, levels[area] + changes[0].1.value)];
        ApplyInfraCapped(next, changes[1..], a);
      }
    }
  }

  /** Only a failing conversion makes the intervention fail, and only for an area present. */
  lemma {:induction false} ApplyInfraFails(levels: map<string, real>, changes: seq<Parsed>)
    requires ApplyInfra(levels, changes).1.Fail?
    ensures exists j :: 0 <= j < |changes| && changes[j].0 in levels && changes[j].1.Err?
    decreases |changes|
  {
    var area := changes[0].0;
    if area !in levels {
      ApplyInfraFails(levels, changes[1..]);
      var j :| 0 <= j < |changes[1..]| && changes[1..][j].0 in levels && changes[1..][j].1.Err?;
      assert changes[j + 1] == changes[1..][j];
    } else if changes[0].1.Ok? {
      var next := levels[area := Min(100.0, levels[area] + changes[0].1.value)];
      ApplyInfraFails(next, changes[1..]);
      var j :| 0 <= j < |changes[1..]| && changes[1..][j].0 in next && changes[1..][j].1.Err?;
      assert changes[j + 1] == changes[1..][j];
    }
  }

  /** "+n" raises the level by n. */
  lemma InfraChangeSigned(n: nat)
    ensures InfraChange(Str("+" + Decimal.NatToString(n))) == Ok(n as real)
  {
    var s := Decimal.NatToString(n);
    RemovePlusDigits(s);
    assert RemoveChar("+" + s, '+') == RemoveChar(s, '+') by {
      assert ("+" + s)[1..] == s;
    }
    Decimal.ParseInteger(n);
  }

  lemma RemovePlusDigits(s: string)
    requires Decimal.AllDigits(s)
    ensures RemoveChar(s, '+') == s
  {
    forall j | 0 <= j < |s| ensures s[j] != '+' {
      assert Decimal.IsDigit(s[j]);
    }
  }

  /** A number in the infrastructure table is rejected, unlike in the agent tables. */
  lemma InfraChangeRejectsNumbers(x: real)
    ensures InfraChange(Num(x)).Err?
  {
  }

  /** `apply_policy_intervention` as a function of the old levels: (digital, physical, outcome).
      The digital table is processed first; a failure there leaves physical untouched. */
  function Intervention(digital: map<string, real>, physical: map<string, real>, config: PolicyConfig): (r: (map<string, real>, map<string, real>, Outcome))
    ensures r.0.Keys == digital.Keys && r.1.Keys == physical.Keys
    ensures config.target != "environment" ==> r == (digital, physical, Pass)
  {
    if config.target != "environment" then (digital, physical, Pass)
    else
      var d := ApplyInfra(digital, MapSeq(config.digitalChange.GetOr([]), ParseEntry));
      if d.1.Fail? then (d.0, physical, d.1)
      else
        var p := ApplyInfra(physical, MapSeq(config.physicalChange.GetOr([]), ParseEntry));
        (d.0, p.0, p.1)
  }

  // ---------------------------------------------------------------------------
  // One whole `update`, on snapshots

  /** Both utilisation channels after a round. */
  function NextUtilizations(u: map<string, real>, xs: seq<Interaction>): (r: map<string, real>)
    requires "digital" in u && "physical" in u
    ensures r.Keys == u.Keys
  {
    u["digital" := NextUtilization(u["digital"], xs, "digital")]["physical" := NextUtilization(u["physical"], xs, "physical")]
  }

  /** The three areas are present. */
  predicate HasAreas<T>(m: map<string, T>) {
    CoreArea in m && FringeArea in m && RuralArea in m
  }

  /** The ranges the environment keeps: availability, load, quality and utilisation in [0, 1],
      with quality kept for the three areas and utilisation for the two channels. */
  predicate ValidState(s: EnvSnapshot) {
    && 0.0 <= s.availability <= 1.0
    && 0.0 <= s.load <= 1.0
    && HasAreas(s.quality)
    && (forall a :: a in s.quality ==> 0.0 <= s.quality[a] <= 1.0)
    && "digital" in s.utilization && "physical" in s.utilization
    && (forall k :: k in s.utilization ==> 0.0 <= s.utilization[k] <= 1.0)
  }

  /** Quality stays in [0, 1]. */
  lemma NextQualityBounded(quality: map<string, real>, xs: seq<Interaction>)
    requires forall a :: a in quality ==> 0.0 <= quality[a] <= 1.0
    ensures forall a :: a in NextQuality(quality, xs) ==> 0.0 <= NextQuality(quality, xs)[a] <= 1.0
  {
  }

  /** Digital infrastructure stays in [0, 100] under drift and decay. */
  lemma DriftedBounded(digital: map<string, real>, drift: map<string, real>, emergency: bool)
    requires digital.Keys <= drift.Keys
    ensures forall a :: a in Drifted(digital, drift, emergency) ==> 0.0 <= Drifted(digital, drift, emergency)[a] <= 100.0
  {
  }

  /** `update` as a function of the state before it: load, availability, the emergency check,
      utilisation, quality and drift, in that order; each step reads what the previous one wrote. */
  function NextState(s: EnvSnapshot, xs: seq<Interaction>, d: EnvDraws): EnvSnapshot
    requires "digital" in s.utilization && "physical" in s.utilization
    requires s.digital.Keys <= d.drift.Keys
  {
    var load := NextLoad(s.load, xs);
    var step := EmergencyStep(s.emergency, NextAvailability(s.availability, load, xs), d.trigger, d.recovery);
    s.(load := load, availability := step.1, emergency := step.0,
       utilization := NextUtilizations(s.utilization, xs),
       quality := NextQuality(s.quality, xs),
       digital := Drifted(s.digital, d.drift, step.0),
       updateCount := s.updateCount + 1)
  }

  /** `update` keeps every range, whatever the interactions and the draws, and leaves digital
      infrastructure in [0, 100] whatever it was before. */
  lemma NextStateValid(s: EnvSnapshot, xs: seq<Interaction>, d: EnvDraws)
    requires ValidState(s) && s.digital.Keys <= d.drift.Keys
    ensures ValidState(NextState(s, xs, d))
    ensures forall a :: a in NextState(s, xs, d).digital ==> 0.0 <= NextState(s, xs, d).digital[a] <= 100.0
  {
    DriftedBounded(s.digital, d.drift, NextState(s, xs, d).emergency);
    var load := NextLoad(s.load, xs);
    var avail := NextAvailability(s.availability, load, xs);
    EmergencyStepBounded(s.emergency, avail, d.trigger, d.recovery);
    NextQualityBounded(s.quality, xs);
  }

  /** The emergency check never pushes availability out of [0, 1]. */
  lemma EmergencyStepBounded(emergency: bool, availability: real, trigger: real, recovery: real)
    requires 0.0 <= availability <= 1.0
    ensures 0.0 <= EmergencyStep(emergency, availability, trigger, recovery).1 <= availability
  {
  }

  /** A trigger draw below 2% starts an emergency and cuts availability by 30% even when an
      emergency is already active, so back-to-back triggers compound. */
  lemma EmergencyCompounds(availability: real, t1: real, t2: real, r: real)
    requires t1 < 0.02 && t2 < 0.02
    ensures var first := EmergencyStep(false, availability, t1, r);
      EmergencyStep(first.0, first.1, t2, r) == (true, availability * 0.49)
  {
  }

  /** An active emergency ends exactly when the trigger misses and the recovery draw is below 0.3. */
  lemma EmergencyRecovery(availability: real, trigger: real, recovery: real)
    ensures !EmergencyStep(true, availability, trigger, recovery).0 <==> trigger >= 0.02 && recovery < 0.3
    ensures EmergencyStep(true, availability, trigger, recovery).1 == availability <==> trigger >= 0.02 || availability == 0.0
  {
  }

  /** More load-generating interactions never lower the load. */
  lemma NextLoadMonotone(load: real, xs: seq<Interaction>, ys: seq<Interaction>)
    requires Count(xs, IsLoadKind) <= Count(ys, IsLoadKind)
    ensures NextLoad(load, xs) <= NextLoad(load, ys)
  {
    var fx := Min(1.0, (Count(xs, IsLoadKind) as real) / Capacity);
    var fy := Min(1.0, (Count(ys, IsLoadKind) as real) / Capacity);
    assert (Count(xs, IsLoadKind) as real) / Capacity <= (Count(ys, IsLoadKind) as real) / Capacity;
    assert fx <= fy;
    ClampMonotone(0.7 * load + 0.3 * fx, 0.7 * load + 0.3 * fy);
  }

  lemma ClampMonotone(x: real, y: real)
    requires x <= y
    ensures Clamp01(x) <= Clamp01(y)
  {
  }

  /** Fifty or more requests saturate the load factor; without requests the load decays by 30%. */
  lemma NextLoadExtremes(load: real, xs: seq<Interaction>)
    requires 0.0 <= load <= 1.0
    ensures Count(xs, IsLoadKind) == 0 ==> NextLoad(load, xs) == 0.7 * load
    ensures Count(xs, IsLoadKind) >= 50 ==> NextLoad(load, xs) == 0.7 * load + 0.3
  {
  }

  /** Eleven system failures in one round bring availability down to zero whatever the load. */
  lemma FailuresExhaustAvailability(availability: real, load: real, xs: seq<Interaction>)
    requires 0.0 <= availability <= 1.0
    requires Count(xs, IsSystemFailure) >= 11
    ensures NextAvailability(availability, load, xs) == 0.0
  {
  }

  /** The digital and physical shares of a round's interactions add up to at most one, since no
      interaction has both service types. */
  lemma {:induction false} UtilizationShares(xs: seq<Interaction>)
    ensures CountService(xs, "digital") + CountService(xs, "physical") <= |xs|
  {
    if xs != [] {
      UtilizationShares(xs[..|xs| - 1]);
    }
  }

  /** Quality rises when an area's success rate is at least 70% and falls when it is at most 70%. */
  lemma AreaQualityDirection(q: real, group: seq<Interaction>)
    requires 0.0 <= q <= 1.0 && |group| > 0
    ensures Ratio(Count(group, IsSuccess), |group|) >= 0.7 ==> AreaQuality(q, group) >= q
    ensures Ratio(Count(group, IsSuccess), |group|) <= 0.7 ==> AreaQuality(q, group) <= q
  {
  }

  /** A record whose area is not one of the three changes no quality. */
  lemma NextQualityIgnoresUnknownArea(quality: map<string, real>, xs: seq<Interaction>, x: Interaction)
    requires !IsArea(AreaOf(x))
    ensures NextQuality(quality, xs + [x]) == NextQuality(quality, xs)
  {
    var ys := xs + [x];
    assert ys[..|ys| - 1] == xs;
    forall a | IsArea(a) ensures RecordsIn(ys, a) == RecordsIn(xs, a) {
    }
  }

  /** A round without interactions leaves quality and utilisation as they were. */
  lemma QuietRound(quality: map<string, real>, utilization: map<string, real>)
    requires "digital" in utilization && "physical" in utilization
    ensures NextQuality(quality, []) == quality
    ensures NextUtilizations(utilization, []) == utilization
  {
    var q := NextQuality(quality, []);
    forall a | a in q ensures q[a] == quality[a] {
      if IsArea(a) {
        assert RecordsIn([], a) == [];
      }
    }
  }

  const AvailableServices := "Digital governance services, Public services, Enterprise services"
  const AvailableData := "Government open data, Enterprise reports, Public feedback"
  const RecentInteractions := "Regular service requests and responses"

  /** The prompt context of a state, for a given infrastructure level. */
  function ContextMap(s: EnvSnapshot, level: real, format2: real -> string): (r: map<string, Value>)
    ensures "service_availability" in r && r["service_availability"] == Number(s.availability)
    ensures "regulation_intensity" in r && r["regulation_intensity"] == Text(if s.load > 0.7 then "Medium to High" else "Medium")
    ensures "market_conditions" in r && r["market_conditions"] == Text(if s.emergency then "Challenging" else "Stable")
    ensures "infrastructure_level" in r && r["infrastructure_level"] == Number(level)
  {
    map[
      "digital_infrastructure" := Table(s.digital),
      "physical_infrastructure" := Table(s.physical),
      "policy_environment" := Nested(s.policy),
      "system_load" := Number(s.load),
      "emergency_status" := Flag(s.emergency),
      "service_quality" := Table(s.quality),
      "infrastructure_utilization" := Table(s.utilization),
      "environment_context" := Text("Service availability: " + format2(s.availability) + ", System load: " + format2(s.load)),
      "available_services" := Text(AvailableServices),
      "available_data" := Text(AvailableData),
      "competition_level" := Text("Medium"),
      "recent_interactions" := Text(RecentInteractions)][
      "service_availability" := Number(s.availability)][
      "regulation_intensity" := Text(if s.load > 0.7 then "Medium to High" else "Medium")][
      "market_conditions" := Text(if s.emergency then "Challenging" else "Stable")][
      "infrastructure_level" := Number(level)]
  }

  // ---------------------------------------------------------------------------

  class Environment {
    var digital: map<string, real>
    var physical: map<string, real>
    var policyEnvironment: map<string, Value>
    var availability: real
    var load: real
    var emergency: bool
    var updateCount: nat
    var quality: map<string, real>
    var utilization: map<string, real>

    predicate Valid()
      reads this
    {
      ValidState(GetState())
    }

    constructor (config: EnvConfig)
      ensures Valid()
      ensures digital == config.digital && physical == config.physical && policyEnvironment == config.policy
      ensures availability == 1.0 && load == 0.5 && !emergency && updateCount == 0
      ensures quality == InitialQuality && utilization == InitialUtilization
    {
      digital := config.digital;
      physical := config.physical;
      policyEnvironment := config.policy;
      availability := 1.0;
      load := 0.5;
      emergency := false;
      updateCount := 0;
      quality := InitialQuality;
      utilization := InitialUtilization;
    }

    /** `get_state`: a copy of every field. */
    function GetState(): EnvSnapshot
      reads this
    {
      EnvSnapshot(digital, physical, policyEnvironment, availability, load, emergency, quality, utilization, updateCount)
    }

    /** `get_infrastructure_level`: 0.6 digital + 0.4 physical, each 50 when the area is unknown;
        the result lies between the two levels. */
    function GetInfrastructureLevel(area: string): (r: real)
      reads this
      ensures var d, p := Get(digital, area, 50.0), Get(physical, area, 50.0);
        Min(d, p) <= r <= Max(d, p)
      ensures area !in digital && area !in physical ==> r == 50.0
    {
      0.6 * Get(digital, area, 50.0) + 0.4 * Get(physical, area, 50.0)
    }

    /** `get_area_context`: the two levels (50 when unknown), the quality (0.6 when unknown) and
        the combined level. */
    function GetAreaContext(area: string): (r: map<string, Value>)
      reads this
      ensures "combined_infrastructure" in r && r["combined_infrastructure"].Number?
      ensures var c := r["combined_infrastructure"].number;
        Min(Get(digital, area, 50.0), Get(physical, area, 50.0)) <= c <= Max(Get(digital, area, 50.0), Get(physical, area, 50.0))
      ensures "service_quality" in r && (area !in quality ==> r["service_quality"] == Number(0.6))
    {
      map[
        "digital_infrastructure_level" := Number(Get(digital, area, 50.0)),
        "physical_infrastructure_level" := Number(Get(physical, area, 50.0)),
        "service_quality" := Number(Get(quality, area, 0.6)),
        "combined_infrastructure" := Number(GetInfrastructureLevel(area))]
    }

    /** `get_context`. The averages divide by the number of areas, so an empty infrastructure
        table raises ZeroDivisionError; otherwise the level is the mean of the two averages.
        `format2` renders a number with two decimals. */
    method GetContext(format2: real -> string) returns (r: Result<map<string, Value>>)
      ensures r.Err? <==> (digital == map[] || physical == map[])
      ensures r.Ok? ==> r.value == ContextMap(GetState(),
        (SumValues(digital) / (|digital| as real) + SumValues(physical) / (|physical| as real)) / 2.0, format2)
    {
      if digital == map[] || physical == map[] {
        return Err("ZeroDivisionError");
      }
      var sumDigital := SumMap(digital);
      var sumPhysical := SumMap(physical);
      var level := (sumDigital / (|digital| as real) + sumPhysical / (|physical| as real)) / 2.0;
      r := Ok(ContextMap(GetState(), level, format2));
    }

    /** `update`: one round's evolution, in the source's order of sub-steps. */
    method Update(xs: seq<Interaction>, draws: EnvDraws)
      requires Valid()
      requires digital.Keys <= draws.drift.Keys
      modifies this
      ensures GetState() == NextState(old(GetState()), xs, draws)
      ensures Valid()
    {
      var s := GetState();
      NextStateValid(s, xs, draws);
      var next := Step(s, xs, draws);
      SetState(next);
    }

    /** Every field takes its value from `next`. */
    method SetState(next: EnvSnapshot)
      modifies this
      ensures GetState() == next
    {
      digital, physical, policyEnvironment := next.digital, next.physical, next.policy;
      availability, load, emergency := next.availability, next.load, next.emergency;
      quality, utilization, updateCount := next.quality, next.utilization, next.updateCount;
    }

    /** The six sub-steps of `update` in order, each reading what the previous ones wrote. */
    static method Step(s: EnvSnapshot, xs: seq<Interaction>, draws: EnvDraws) returns (next: EnvSnapshot)
      requires ValidState(s) && s.digital.Keys <= draws.drift.Keys
      ensures next == NextState(s, xs, draws)
      ensures next.physical == s.physical && next.policy == s.policy
    {
      var l := UpdateSystemLoad(s.load, xs);
      var av := UpdateServiceAvailability(s.availability, l, xs);
      var em;
      em, av := CheckEmergencyEvents(s.emergency, av, draws.trigger, draws.recovery);
      var u := UpdateInfrastructureUtilization(s.utilization, xs);
      var q := UpdateServiceQuality(s.quality, xs);
      var d := ApplyRandomChanges(s.digital, em, draws.drift);
      next := s.(updateCount := s.updateCount + 1, load := l, availability := av, emergency := em,
                 utilization := u, quality := q, digital := d);
    }

    /** `_update_system_load` */
    static method UpdateSystemLoad(load: real, xs: seq<Interaction>) returns (r: real)
      ensures r == NextLoad(load, xs)
    {
      var requests := Count(xs, IsLoadKind);
      var factor := Min(1.0, (requests as real) / Capacity);
      r := 0.7 * load + 0.3 * factor;
      r := Clamp01(r);
    }

    /** `_update_service_availability` */
    static method UpdateServiceAvailability(availability: real, load: real, xs: seq<Interaction>) returns (r: real)
      ensures r == NextAvailability(availability, load, xs)
    {
      var change := LoadDelta(load);
      var failures := Count(xs, IsSystemFailure);
      if failures > 0 {
        change := change - 0.1 * (failures as real);
      }
      r := Clamp01(availability + change);
    }

    /** `_check_emergency_events` */
    static method CheckEmergencyEvents(emergency: bool, availability: real, trigger: real, recovery: real)
      returns (flag: bool, avail: real)
      ensures (flag, avail) == EmergencyStep(emergency, availability, trigger, recovery)
    {
      flag, avail := emergency, availability;
      if trigger < 0.02 {
        flag := true;
        avail := avail * 0.7;
      } else if flag {
        if recovery < 0.3 {
          flag := false;
        }
      }
    }

    /** `_update_infrastructure_utilization` */
    static method UpdateInfrastructureUtilization(utilization: map<string, real>, xs: seq<Interaction>) returns (r: map<string, real>)
      requires "digital" in utilization && "physical" in utilization
      ensures r == NextUtilizations(utilization, xs)
    {
      r := utilization;
      var digitalUsage := CountService(xs, "digital");
      var physicalUsage := CountService(xs, "physical");
      var total := |xs|;
      if total > 0 {
        var digitalRatio := Ratio(digitalUsage, total);
        var physicalRatio := Ratio(physicalUsage, total);
        r := r["digital" := 0.8 * r["digital"] + 0.2 * digitalRatio];
        r := r["physical" := 0.8 * r["physical"] + 0.2 * physicalRatio];
      }
    }

    /** `_update_service_quality`: group the records by area, then move each area's quality. */
    static method UpdateServiceQuality(quality: map<string, real>, xs: seq<Interaction>) returns (r: map<string, real>)
      requires HasAreas(quality)
      ensures r == NextQuality(quality, xs)
    {
      r := quality;
      var groups := GroupByArea(xs);
      var j := 0;
      while j < |Areas|
        invariant 0 <= j <= |Areas|
        invariant r.Keys == quality.Keys
        invariant forall a :: a in r && !IsArea(a) ==> r[a] == quality[a]
        invariant r[CoreArea] == if j > 0 then AreaQuality(quality[CoreArea], groups[CoreArea]) else quality[CoreArea]
        invariant r[FringeArea] == if j > 1 then AreaQuality(quality[FringeArea], groups[FringeArea]) else quality[FringeArea]
        invariant r[RuralArea] == if j > 2 then AreaQuality(quality[RuralArea], groups[RuralArea]) else quality[RuralArea]
      {
        var area := Areas[j];
        var group := groups[area];
        if |group| > 0 {
          r := r[area := AreaQuality(r[area], group)];
        }
        j := j + 1;
      }
      QualityFromGroups(quality, xs, groups, r);
    }

    /** `_apply_random_changes`: drift every digital level, then decay them all during an emergency. */
    static method ApplyRandomChanges(digital: map<string, real>, emergency: bool, drift: map<string, real>) returns (r: map<string, real>)
      requires digital.Keys <= drift.Keys
      ensures r == Drifted(digital, drift, emergency)
    {
      r := digital;
      var pending := r.Keys;
      while pending != {}
        invariant pending <= r.Keys && r.Keys == digital.Keys
        invariant forall a :: a in r ==>
          r[a] == if a in pending then digital[a] else Clamp(0.0, 100.0, digital[a] + drift[a])
        decreases pending
      {
        var area :| area in pending;
        r := r[area := Clamp(0.0, 100.0, r[area] + drift[area])];
        pending := pending - {area};
      }
      if emergency {
        pending := r.Keys;
        while pending != {}
          invariant pending <= r.Keys && r.Keys == digital.Keys
          invariant forall a :: a in r ==>
            r[a] == if a in pending then Clamp(0.0, 100.0, digital[a] + drift[a])
                    else Clamp(0.0, 100.0, digital[a] + drift[a]) * 0.98
          decreases pending
        {
          var area :| area in pending;
          r := r[area := r[area] * 0.98];
          pending := pending - {area};
        }
      }
    }

    /** `apply_policy_intervention`: only a policy targeted at the environment changes anything,
        only areas already present change, and a change that does not convert raises after the
        earlier changes took effect. */
    method ApplyPolicyIntervention(name: string, config: PolicyConfig) returns (outcome: Outcome)
      modifies this`digital, this`physical
      ensures (digital, physical, outcome) == Intervention(old(digital), old(physical), config)
    {
      outcome := Pass;
      if config.target != "environment" {
        return;
      }
      var ds := MapSeq(config.digitalChange.GetOr([]), ParseEntry);
      digital, outcome := ApplyChanges(digital, ds);
      if outcome.Fail? {
        return;
      }
      var ps := MapSeq(config.physicalChange.GetOr([]), ParseEntry);
      physical, outcome := ApplyChanges(physical, ps);
    }
  }

  /** Updating the three areas one after another from their groups gives `NextQuality`. */
  lemma QualityFromGroups(q: map<string, real>, xs: seq<Interaction>, groups: map<string, seq<Interaction>>, r: map<string, real>)
    requires HasAreas(q) && r.Keys == q.Keys && Grouped(groups, xs)
    requires forall a :: a in r && !IsArea(a) ==> r[a] == q[a]
    requires r[CoreArea] == AreaQuality(q[CoreArea], groups[CoreArea])
    requires r[FringeArea] == AreaQuality(q[FringeArea], groups[FringeArea])
    requires r[RuralArea] == AreaQuality(q[RuralArea], groups[RuralArea])
    ensures r == NextQuality(q, xs)
  {
    var n := NextQuality(q, xs);
    assert n[CoreArea] == r[CoreArea];
    assert n[FringeArea] == r[FringeArea];
    assert n[RuralArea] == r[RuralArea];
    forall a | a in r ensures r[a] == n[a] {
      if a != CoreArea && a != FringeArea && a != RuralArea {
        assert !IsArea(a);
      }
    }
  }

  /** `groups` holds, for each of the three areas, the records of `ys` in that area, in order. */
  predicate Grouped(groups: map<string, seq<Interaction>>, ys: seq<Interaction>) {
    && HasAreas(groups)
    && groups[CoreArea] == RecordsIn(ys, CoreArea)
    && groups[FringeArea] == RecordsIn(ys, FringeArea)
    && groups[RuralArea] == RecordsIn(ys, RuralArea)
  }

  lemma RecordsInSnoc(ys: seq<Interaction>, x: Interaction, a: string)
    ensures RecordsIn(ys + [x], a) == RecordsIn(ys, a) + (if AreaOf(x) == a then [x] else [])
  {
    assert (ys + [x])[..|ys|] == ys;
  }

  /** Appending a record to its area's group (when it has one of the three areas) keeps the grouping. */
  lemma GroupedStep(groups: map<string, seq<Interaction>>, ys: seq<Interaction>, x: Interaction)
    requires Grouped(groups, ys)
    ensures Grouped(if AreaOf(x) in groups then groups[AreaOf(x) := groups[AreaOf(x)] + [x]] else groups, ys + [x])
  {
    RecordsInSnoc(ys, x, CoreArea);
    RecordsInSnoc(ys, x, FringeArea);
    RecordsInSnoc(ys, x, RuralArea);
  }

  /** The grouping loop of `_update_service_quality`: records of the three areas, in order. */
  method GroupByArea(xs: seq<Interaction>) returns (groups: map<string, seq<Interaction>>)
    ensures Grouped(groups, xs)
  {
    groups := map[CoreArea := [], FringeArea := [], RuralArea := []];
    var k := 0;
    while k < |xs|
      invariant 0 <= k <= |xs|
      invariant Grouped(groups, xs[..k])
    {
      var x := xs[k];
      var area := AreaOf(x);
      GroupedStep(groups, xs[..k], x);
      assert xs[..k + 1] == xs[..k] + [x];
      if area in groups {
        groups := groups[area := groups[area] + [x]];
      }
      k := k + 1;
    }
    assert xs[..k] == xs;
  }

  /** The loop over one infrastructure change table. */
  method ApplyChanges(levels: map<string, real>, cs: seq<Parsed>) returns (result: map<string, real>, outcome: Outcome)
    ensures (result, outcome) == ApplyInfra(levels, cs)
  {
    result, outcome := levels, Pass;
    var k := 0;
    while k < |cs| && outcome.Pass?
      invariant 0 <= k <= |cs|
      invariant outcome.Pass? ==> ApplyInfra(result, cs[k..]) == ApplyInfra(levels, cs)
      invariant outcome.Fail? ==> (result, outcome) == ApplyInfra(levels, cs)
    {
      var area := cs[k].0;
      assert cs[k..][1..] == cs[k + 1..];
      if area in result {
        match cs[k].1
        case Err(e) => outcome := Fail(e);
        case Ok(x) => result := result[area := Min(100.0, result[area] + x)];
      }
      k := k + 1;
    }
  }

  /** `sum(m.values())`, one key at a time. */
  method SumMap(m: map<string, real>) returns (total: real)
    ensures total == SumValues(m)
  {
    total := 0.0;
    var rest := m;
    while rest != map[]
      invariant total + SumValues(rest) == SumValues(m)
      decreases |rest.Keys|
    {
      var area :| area in rest;
      SumValuesRemove(rest, area);
      total := total + rest[area];
      assert (rest - {area}).Keys == rest.Keys - {area};
      rest := rest - {area};
    }
  }
}
