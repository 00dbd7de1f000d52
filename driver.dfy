/** The simulation driver: the round loop of `run_simulation` with its per-agent decision
    fallback and the record it keeps per round, `calculate_metrics`, and the winners of
    `compare_cities`. The body of a round (the environment context, the agents' `decide` calls,
    the interaction engine and the environment update) is given as the outcome it ends with. */
module Driver {
  import opened Common
  import opened Records
  import opened Rounds
  import Agents
  import EnvironmentModel
  import Efficiency
  import Fairness
  import Resilience
  import AgentStatus
  import Collaboration

  // ---------------------------------------------------------------------------
  // Decisions

  predicate ValidDraws(draws: seq<Agents.ChoiceDraw>) {
    forall i :: 0 <= i < |draws| ==> Agents.ValidChoice(draws[i])
  }

  /** The decision list of one role: each agent's decision in order, or the role's default
      decision where its `decide` call raised. */
  function Gathered(role: Agents.Role, attempts: seq<Result<Decision>>, draws: seq<Agents.ChoiceDraw>): (r: seq<Decision>)
    requires |draws| == |attempts| && ValidDraws(draws)
    ensures |r| == |attempts|
  {
    seq(|attempts|, i requires 0 <= i < |attempts| =>
      if attempts[i].Ok? then attempts[i].value else Agents.FallbackDecision(role, draws[i]))
  }

  /** One entry per agent: a decision that was made is kept, and a raised `decide` is replaced by
      a default naming one of the role's fallback actions and its fallback target. */
  lemma GatheredEntries(role: Agents.Role, attempts: seq<Result<Decision>>, draws: seq<Agents.ChoiceDraw>, i: nat)
    requires |draws| == |attempts| && ValidDraws(draws) && i < |attempts|
    ensures attempts[i].Ok? ==> Gathered(role, attempts, draws)[i] == attempts[i].value
    ensures attempts[i].Err? ==>
      && Gathered(role, attempts, draws)[i].action.Some?
      && Gathered(role, attempts, draws)[i].action.value in Agents.FallbackActions(role)
      && Gathered(role, attempts, draws)[i].target == Some(Agents.FallbackTarget(role))
  {
  }

  /** The enterprise and resident loops of a round: `decide` for each agent in order, the
      default decision when it raises. */
  method GatherDecisions(role: Agents.Role, attempts: seq<Result<Decision>>, draws: seq<Agents.ChoiceDraw>)
    returns (decisions: seq<Decision>)
    requires |draws| == |attempts| && ValidDraws(draws)
    ensures decisions == Gathered(role, attempts, draws)
  {
    ghost var all := Gathered(role, attempts, draws);
    decisions := [];
    for i := 0 to |attempts|
      invariant decisions == all[..i]
    {
      var d := if attempts[i].Ok? then attempts[i].value else Agents.FallbackDecision(role, draws[i]);
      assert all[..i + 1] == all[..i] + [d];
      decisions := decisions + [d];
    }
    assert all[..|attempts|] == all;
  }

  const EnterpriseSampleSize: nat := 5
  const ResidentSampleSize: nat := 10

  function Smaller(a: nat, b: nat): nat { if a <= b then a else b }

  /** `decisions_sample`: the government's decision, the first five enterprise decisions and
      the first ten resident decisions. */
  function Sample(government: Decision, enterprises: seq<Decision>, residents: seq<Decision>): (s: DecisionsSample)
    ensures s.government == government
    ensures |s.enterprises| == Smaller(EnterpriseSampleSize, |enterprises|) && s.enterprises <= enterprises
    ensures |s.residents| == Smaller(ResidentSampleSize, |residents|) && s.residents <= residents
  {
    DecisionsSample(government, enterprises[..Smaller(EnterpriseSampleSize, |enterprises|)],
                    residents[..Smaller(ResidentSampleSize, |residents|)])
  }

  // ---------------------------------------------------------------------------
  // The round loop

  /** How the body of one round ends: it completes, with the government's decision, the outcome
      of every enterprise's and resident's `decide` call (with the draws of their default
      decisions), the round's interactions and the environment's state afterwards; or it raises
      an exception and the round is skipped; or it is interrupted from the keyboard. */
  datatype RoundOutcome =
    | Completed(
        government: Decision,
        enterprises: seq<Result<Decision>>, enterpriseDraws: seq<Agents.ChoiceDraw>,
        residents: seq<Result<Decision>>, residentDraws: seq<Agents.ChoiceDraw>,
        interactions: seq<Interaction>,
        environment: EnvironmentModel.EnvSnapshot)
    | Failed
    | Interrupted

  predicate WellFormed(o: RoundOutcome) {
    o.Completed? ==>
      && |o.enterpriseDraws| == |o.enterprises| && ValidDraws(o.enterpriseDraws)
      && |o.residentDraws| == |o.residents| && ValidDraws(o.residentDraws)
  }

  predicate AllWellFormed(os: seq<RoundOutcome>) {
    forall i :: 0 <= i < |os| ==> WellFormed(os[i])
  }

  /** What a round record holds apart from the agents' state dictionaries, which it refers to
      rather than copies. */
  datatype RoundHead = RoundHead(
    round: nat,
    interactions: seq<Interaction>,
    environment: EnvironmentModel.EnvSnapshot,
    sample: DecisionsSample)

  /** The record a completed round `i` appends. */
  function Head(i: nat, o: RoundOutcome): RoundHead
    requires o.Completed? && WellFormed(o)
  {
    RoundHead(i, o.interactions, o.environment,
      Sample(o.government, Gathered(Agents.Role.Enterprise, o.enterprises, o.enterpriseDraws),
                           Gathered(Agents.Role.Resident, o.residents, o.residentDraws)))
  }

  /** The records the rounds numbered from `start` leave: a completed round appends its record,
      a failed one appends nothing, and an interrupt ends the loop. */
  function Run(os: seq<RoundOutcome>, start: nat): seq<RoundHead>
    requires AllWellFormed(os)
    decreases |os|
  {
    if os == [] then []
    else
      assert AllWellFormed(os[1..]) by {
        forall i | 0 <= i < |os[1..]| ensures WellFormed(os[1..][i]) {
          assert os[1..][i] == os[i + 1];
        }
      }
      match os[0]
      case Interrupted => []
      case Failed => Run(os[1..], start + 1)
      case Completed(_, _, _, _, _, _, _) => [Head(start, os[0])] + Run(os[1..], start + 1)
  }

  lemma TailWellFormed(os: seq<RoundOutcome>, i: nat)
    requires AllWellFormed(os) && i <= |os|
    ensures AllWellFormed(os[i..])
  {
    forall j | 0 <= j < |os[i..]| ensures WellFormed(os[i..][j]) {
      assert os[i..][j] == os[i + j];
    }
  }

  lemma RunStep(os: seq<RoundOutcome>, i: nat)
    requires AllWellFormed(os) && i < |os|
    ensures AllWellFormed(os[i..]) && AllWellFormed(os[i + 1..])
    ensures os[i].Interrupted? ==> Run(os[i..], i) == []
    ensures os[i].Failed? ==> Run(os[i..], i) == Run(os[i + 1..], i + 1)
    ensures os[i].Completed? ==> Run(os[i..], i) == [Head(i, os[i])] + Run(os[i + 1..], i + 1)
  {
    TailWellFormed(os, i);
    TailWellFormed(os, i + 1);
    assert os[i..][0] == os[i];
    assert os[i..][1..] == os[i + 1..];
  }

  /** The round loop of `run_simulation`: rounds `0 .. numRounds - 1`, each either appending its
      record, skipped by an exception, or ending the loop by an interrupt. */
  method RunRounds(numRounds: nat, outcomes: seq<RoundOutcome>) returns (heads: seq<RoundHead>)
    requires |outcomes| == numRounds && AllWellFormed(outcomes)
    ensures heads == Run(outcomes, 0)
  {
    heads := [];
    var i := 0;
    assert outcomes[0..] == outcomes;
    while i < numRounds
      invariant i <= numRounds
      invariant AllWellFormed(outcomes[i..])
      invariant heads + Run(outcomes[i..], i) == Run(outcomes, 0)
    {
      RunStep(outcomes, i);
      var o := outcomes[i];
      if o.Interrupted? {
        assert heads == Run(outcomes, 0);
        break;
      }
      if o.Completed? {
        var eds := GatherDecisions(Agents.Role.Enterprise, o.enterprises, o.enterpriseDraws);
        var rds := GatherDecisions(Agents.Role.Resident, o.residents, o.residentDraws);
        heads := heads + [RoundHead(i, o.interactions, o.environment, Sample(o.government, eds, rds))];
      }
      i := i + 1;
    }
  }

  /** Recorded round numbers lie in `start .. start + |os| - 1` and strictly increase. */
  lemma {:induction false} RecordedRoundsIncrease(os: seq<RoundOutcome>, start: nat)
    requires AllWellFormed(os)
    ensures forall j :: 0 <= j < |Run(os, start)| ==> start <= Run(os, start)[j].round < start + |os|
    ensures forall j, k :: 0 <= j < k < |Run(os, start)| ==> Run(os, start)[j].round < Run(os, start)[k].round
  {
    if os != [] {
      TailWellFormed(os, 1);
      RecordedRoundsIncrease(os[1..], start + 1);
    }
  }

  /** Every record is the record of a completed round, numbered by its place in the loop. */
  lemma {:induction false} RecordsAreCompletedRounds(os: seq<RoundOutcome>, start: nat, j: nat)
    requires AllWellFormed(os) && j < |Run(os, start)|
    ensures start <= Run(os, start)[j].round < start + |os|
    ensures os[Run(os, start)[j].round - start].Completed?
    ensures Run(os, start)[j] == Head(Run(os, start)[j].round, os[Run(os, start)[j].round - start])
  {
    TailWellFormed(os, 1);
    var rest := Run(os[1..], start + 1);
    if os[0].Completed? && j == 0 {
    } else {
      var j' := if os[0].Completed? then j - 1 else j;
      assert Run(os, start)[j] == rest[j'];
      RecordsAreCompletedRounds(os[1..], start + 1, j');
      assert os[1..][rest[j'].round - (start + 1)] == os[rest[j'].round - start];
    }
  }

  /** A completed round with no interrupt before it has its record. */
  lemma {:induction false} CompletedRoundRecorded(os: seq<RoundOutcome>, start: nat, k: nat)
    requires AllWellFormed(os) && k < |os| && os[k].Completed?
    requires forall j :: 0 <= j < k ==> !os[j].Interrupted?
    ensures Head(start + k, os[k]) in Run(os, start)
  {
    TailWellFormed(os, 1);
    if k > 0 {
      assert !os[0].Interrupted?;
      forall j | 0 <= j < k - 1 ensures !os[1..][j].Interrupted? {
        assert os[1..][j] == os[j + 1];
      }
      assert os[1..][k - 1] == os[k];
      CompletedRoundRecorded(os[1..], start + 1, k - 1);
    }
  }

  /** An interrupt in round `k` ends the loop: the records are those of the rounds before it. */
  lemma {:induction false} InterruptStops(os: seq<RoundOutcome>, start: nat, k: nat)
    requires AllWellFormed(os) && k < |os| && os[k].Interrupted?
    ensures AllWellFormed(os[..k])
    ensures Run(os, start) == Run(os[..k], start)
  {
    forall j | 0 <= j < k ensures WellFormed(os[..k][j]) {
      assert os[..k][j] == os[j];
    }
    if k > 0 {
      TailWellFormed(os, 1);
      assert os[1..][k - 1] == os[k];
      InterruptStops(os[1..], start + 1, k - 1);
      assert os[..k][1..] == os[1..][..k - 1];
      assert os[..k][0] == os[0];
    }
  }

  /** Never more records than rounds. */
  lemma {:induction false} RecordCount(os: seq<RoundOutcome>, start: nat)
    requires AllWellFormed(os)
    ensures |Run(os, start)| <= |os|
  {
    if os != [] {
      TailWellFormed(os, 1);
      RecordCount(os[1..], start + 1);
    }
  }

  // ---------------------------------------------------------------------------
  // The agents as the metrics read them

  /** What the metrics read of the agents once the loop ends: every agent's `get_state()`
      dictionary and each resident's area. */
  datatype Population = Population(
    government: Agents.Status,
    enterprises: seq<Agents.Status>,
    residents: seq<Agents.Status>,
    residentAreas: seq<Option<string>>)

  predicate ValidPopulation(p: Population) { |p.residentAreas| == |p.residents| }

  /** `[a.get_state() for a in agents]` */
  function Statuses(agents: seq<Agents.Agent>): (r: seq<Agents.Status>)
    reads agents
    ensures |r| == |agents|
  {
    seq(|agents|, i requires 0 <= i < |agents| reads agents => agents[i].GetState())
  }

  /** `getattr(resident, 'area', 'core_area')` before the default is applied. */
  function Areas(agents: seq<Agents.Agent>): (r: seq<Option<string>>)
    reads agents
    ensures |r| == |agents|
  {
    seq(|agents|, i requires 0 <= i < |agents| reads agents => agents[i].area)
  }

  /** The population of a set of agents as it stands. */
  function PopulationOf(government: Agents.Agent, enterprises: seq<Agents.Agent>, residents: seq<Agents.Agent>): (p: Population)
    reads government, enterprises, residents
    ensures ValidPopulation(p)
    ensures p.government.state == government.state
    ensures |p.enterprises| == |enterprises| && |p.residents| == |residents|
    ensures forall i :: 0 <= i < |enterprises| ==> p.enterprises[i].state == enterprises[i].state
    ensures forall i :: 0 <= i < |residents| ==>
      p.residents[i].state == residents[i].state && p.residentAreas[i] == residents[i].area
  {
    Population(government.GetState(), Statuses(enterprises), Statuses(residents), Areas(residents))
  }

  /** The state dictionaries of a list of `get_state()` results. */
  function StatesOf(ss: seq<Agents.Status>): (r: seq<map<string, Value>>)
    ensures |r| == |ss|
    ensures forall i :: 0 <= i < |ss| ==> r[i] == ss[i].state
  {
    seq(|ss|, i requires 0 <= i < |ss| => ss[i].state)
  }

  /** The records as the metrics see them: every record refers to the agents' state
      dictionaries, so each shows the states as they are when the metrics run. */
  function Materialise(heads: seq<RoundHead>, p: Population): (r: seq<RoundRecord>)
    ensures |r| == |heads|
    ensures forall j :: 0 <= j < |r| ==> r[j].round == heads[j].round && r[j].interactions == heads[j].interactions
    ensures forall j :: 0 <= j < |r| ==>
      r[j].government == p.government.state && r[j].enterprises == StatesOf(p.enterprises)
      && r[j].residents == StatesOf(p.residents)
  {
    seq(|heads|, j requires 0 <= j < |heads| =>
      RoundRecord(heads[j].round, heads[j].interactions, heads[j].environment,
                  p.government.state, StatesOf(p.enterprises), StatesOf(p.residents), heads[j].sample))
  }

  // ---------------------------------------------------------------------------
  // calculate_metrics

  datatype Metrics = Metrics(
    efficiency: Efficiency.EfficiencyMetrics,
    fairness: Fairness.FairnessMetrics,
    resilience: Resilience.ResilienceMetrics,
    agentStatus: AgentStatus.StatusReport,
    collaboration: Collaboration.CollaborationMetrics)

  /** `d.get(key, default)` */
  function ValueOr(m: map<string, Value>, key: string, default: Value): Value {
    if key in m then m[key] else default
  }

  /** The fairness entry of one resident: its area (default core_area), and its digital access
      (default true), usage frequency (5), satisfaction (3.0) and income level (5000). */
  function ResidentEntry(area: Option<string>, s: Agents.Status): map<string, Value> {
    map[Fairness.AreaKey := Text(area.GetOr(CoreArea)),
        Fairness.DigitalAccess := ValueOr(s.state, Fairness.DigitalAccess, Flag(true)),
        Agents.UsageFrequency := ValueOr(s.state, Agents.UsageFrequency, Number(5.0)),
        Agents.Satisfaction := ValueOr(s.state, Agents.Satisfaction, Number(3.0)),
        Agents.Income := ValueOr(s.attributes, Agents.Income, Number(5000.0))]
  }

  /** What the fairness metrics read from a resident's entry: its area, and for each key the
      resident's own value when it has one and the driver's default when it has none. */
  lemma ResidentEntryReads(area: Option<string>, s: Agents.Status)
    ensures Fairness.AreaOfResident(ResidentEntry(area, s)) == area.GetOr(CoreArea)
    ensures Fairness.DigitalAccess !in s.state ==> Fairness.AccessScore(ResidentEntry(area, s)) == 1.0
    ensures Fairness.DigitalAccess in s.state ==>
      Fairness.AccessScore(ResidentEntry(area, s)) == if Truthy(s.state[Fairness.DigitalAccess]) then 1.0 else 0.0
    ensures Fairness.UsageDepth(ResidentEntry(area, s)) == NumOr(s.state, Agents.UsageFrequency, 5.0)
      || (Agents.UsageFrequency in s.state && !s.state[Agents.UsageFrequency].Number?)
    ensures Fairness.SatisfactionOf(ResidentEntry(area, s)) == NumOr(s.state, Agents.Satisfaction, 3.0)
    ensures Agents.Income !in s.attributes ==> !Fairness.HighIncome(ResidentEntry(area, s))
  {
  }

  /** One fairness entry per resident, in order. */
  function ResidentEntries(p: Population): (r: seq<map<string, Value>>)
    requires ValidPopulation(p)
    ensures |r| == |p.residents|
  {
    seq(|p.residents|, i requires 0 <= i < |p.residents| => ResidentEntry(p.residentAreas[i], p.residents[i]))
  }

  /** The three stakeholder scores `calculate_agent_status` computes from the agents' states. */
  function AgentScores(p: Population): (s: seq<real>)
    ensures |s| == 3
  {
    AgentStatus.StakeholderScores(
      AgentStatus.ResidentMetricsOf(MapSeq(p.residents, AgentStatus.StatusDict)),
      AgentStatus.EnterpriseMetricsOf(MapSeq(p.enterprises, AgentStatus.StatusDict)),
      AgentStatus.GovernmentMetricsOf(AgentStatus.StatusDict(p.government)))
  }

  /** `spread` is the standard deviation of the scores. */
  predicate SpreadOf(spread: real, scores: seq<real>) {
    |scores| > 0 && spread >= 0.0 && spread * spread == Variance(scores)
  }

  /** The five metric groups over the flattened interactions, the residents' fairness entries,
      the round records and the agents' `get_state()` dictionaries. */
  function MetricsOf(all: seq<Interaction>, records: seq<RoundRecord>, residentData: seq<map<string, Value>>,
                     p: Population, spread: real): (m: Metrics)
    requires SpreadOf(spread, AgentScores(p))
    ensures 0.0 <= m.collaboration.trustDensity && 0.0 <= m.collaboration.jointActionRate <= 1.0
    ensures Collaboration.NoSelfPairs(AllInteractions(records)) ==> m.collaboration.trustDensity <= 1.0
    ensures 0.0 <= m.agentStatus.overall.stakeholderBalance <= 1.0
    ensures records == [] ==> m.resilience == Resilience.ResilienceMetrics(0.0, 0.0, 0.0, 0.0)
  {
    Metrics(
      Efficiency.CalculateEfficiency(all),
      Fairness.CalculateFairness(residentData),
      Resilience.CalculateResilience(records),
      AgentStatus.CalculateAgentStatus(AgentStatus.StatusDict(p.government),
        MapSeq(p.enterprises, AgentStatus.StatusDict), MapSeq(p.residents, AgentStatus.StatusDict), spread),
      Collaboration.CalculateCollaboration(records))
  }

  /** The agent-status group is fed nested `get_state()` dictionaries but looks its resident and
      enterprise keys up at the top level: whatever the agents' states, it reports the defaults. */
  lemma MetricsIgnoreAgentStates(all: seq<Interaction>, records: seq<RoundRecord>,
                                 residentData: seq<map<string, Value>>, p: Population, spread: real)
    requires SpreadOf(spread, AgentScores(p))
    requires |p.enterprises| > 0 && |p.residents| > 0
    ensures var s := MetricsOf(all, records, residentData, p, spread).agentStatus;
      && s.residents.avgSatisfaction == 3.0 && s.residents.avgTrust == 50.0
      && s.residents.digitalAdoptionRate == 0.0
      && s.enterprises.avgInnovationLevel == 50.0 && s.enterprises.avgMarketShare == 0.1
  {
    AgentStatus.ResidentStatusDefaults(p.residents);
    AgentStatus.EnterpriseStatusDefaults(p.enterprises);
  }

  /** `all_interactions.extend(record.get('interactions', []))` for each record. */
  method Flatten(records: seq<RoundRecord>) returns (all: seq<Interaction>)
    ensures all == AllInteractions(records)
    ensures |all| == TotalInteractions(records)
  {
    all := [];
    for i := 0 to |records|
      invariant all == AllInteractions(records[..i])
    {
      assert records[..i + 1][..i] == records[..i];
      all := all + records[i].interactions;
    }
    assert records[..|records|] == records;
    AllInteractionsLength(records);
  }

  /** The resident loop of `calculate_metrics`. */
  method ResidentData(p: Population) returns (data: seq<map<string, Value>>)
    requires ValidPopulation(p)
    ensures data == ResidentEntries(p)
  {
    data := [];
    for i := 0 to |p.residents|
      invariant data == ResidentEntries(p)[..i]
    {
      data := data + [ResidentEntry(p.residentAreas[i], p.residents[i])];
    }
  }

  /** `calculate_metrics` */
  method CalculateMetrics(records: seq<RoundRecord>, p: Population, spread: real) returns (m: Metrics)
    requires ValidPopulation(p) && SpreadOf(spread, AgentScores(p))
    ensures m == MetricsOf(AllInteractions(records), records, ResidentEntries(p), p, spread)
  {
    var all := Flatten(records);
    var data := ResidentData(p);
    m := MetricsOf(all, records, data, p, spread);
  }

  // ---------------------------------------------------------------------------
  // run_simulation

  datatype SimulationResults = SimulationResults(
    city: string,
    numRounds: nat,
    interventions: seq<string>,
    metrics: Metrics,
    rawRecords: seq<RoundRecord>)

  /** `run_simulation` after the agents are created and the interventions applied: the round
      loop, then the metrics over the records kept so far, with the raw records alongside. `p`
      is the agents as they stand when the loop ends. */
  method RunSimulation(city: string, interventions: seq<string>, numRounds: nat,
                       outcomes: seq<RoundOutcome>, p: Population, spread: real)
    returns (results: SimulationResults)
    requires |outcomes| == numRounds && AllWellFormed(outcomes)
    requires ValidPopulation(p) && SpreadOf(spread, AgentScores(p))
    ensures results.city == city && results.numRounds == numRounds && results.interventions == interventions
    ensures results.rawRecords == Materialise(Run(outcomes, 0), p)
    ensures results.metrics
         == MetricsOf(AllInteractions(results.rawRecords), results.rawRecords, ResidentEntries(p), p, spread)
  {
    var heads := RunRounds(numRounds, outcomes);
    var records := Materialise(heads, p);
    var metrics := CalculateMetrics(records, p, spread);
    results := SimulationResults(city, numRounds, interventions, metrics, records);
  }

  /** The records a run keeps: at most one per round, numbered in increasing order, each that of
      a completed round, and every completed round before any interrupt among them. */
  lemma RunRecords(outcomes: seq<RoundOutcome>, p: Population, k: nat)
    requires AllWellFormed(outcomes) && k < |outcomes| && outcomes[k].Completed?
    requires forall j :: 0 <= j < k ==> !outcomes[j].Interrupted?
    ensures exists j :: 0 <= j < |Materialise(Run(outcomes, 0), p)| && Materialise(Run(outcomes, 0), p)[j].round == k
  {
    CompletedRoundRecorded(outcomes, 0, k);
    var heads := Run(outcomes, 0);
    var j :| 0 <= j < |heads| && heads[j] == Head(k, outcomes[k]);
    assert Materialise(heads, p)[j].round == k;
  }

  // ---------------------------------------------------------------------------
  // compare_cities

  /** The winner of a comparison where smaller is better: Beijing only when strictly smaller. */
  function Winner(beijing: real, shenzhen: real): (w: string)
    ensures w == Agents.Beijing <==> beijing < shenzhen
    ensures w == Agents.Beijing || w == Agents.Shenzhen
  {
    if beijing < shenzhen then Agents.Beijing else Agents.Shenzhen
  }

  /** Ties go to Shenzhen, and swapping two different values swaps the winner. */
  lemma WinnerSwap(a: real, b: real)
    ensures a == b ==> Winner(a, b) == Agents.Shenzhen
    ensures a != b ==> Winner(a, b) != Winner(b, a)
  {
  }

  datatype Comparison = Comparison(efficiencyWinner: string, fairnessWinner: string)

  /** The comparison summary: the city with the shorter average response time and the city with
      the lower service-access Gini coefficient. */
  function CompareCities(beijing: Metrics, shenzhen: Metrics): (c: Comparison)
    ensures c.efficiencyWinner == Agents.Beijing
        <==> beijing.efficiency.avgResponseTime < shenzhen.efficiency.avgResponseTime
    ensures c.fairnessWinner == Agents.Beijing
        <==> beijing.fairness.serviceAccessGini < shenzhen.fairness.serviceAccessGini
  {
    Comparison(Winner(beijing.efficiency.avgResponseTime, shenzhen.efficiency.avgResponseTime),
               Winner(beijing.fairness.serviceAccessGini, shenzhen.fairness.serviceAccessGini))
  }
}
