# CitySim core in Dafny

This project models the core of CitySim, an agent-based simulation of digital governance in two
cities, Beijing and Shenzhen. Three kinds of agents take part: government, enterprise and resident.
Each agent holds a state dictionary and asks a language model for a decision every round. An
`Environment` holds the city's digital and physical infrastructure, policy intensity and resource
levels. An `InteractionEngine` pairs agents, draws interactions and applies their effects to both
sides. A `PolicyEngine` applies policy interventions to the environment and to agent behaviour.
Five metric calculators (efficiency, fairness, resilience, agent status and collaboration) summarise
a run, and the `main.py` driver strings everything together.

Modules follow the source files:

- `common.dfy` (`Common`): clamping, sums, means, variance and the sequence helpers the rest uses.
- `decimal.dfy` (`Decimal`): `str(i)` for agent identifiers, and the reading of signed decimal
  text that the policy engine applies to changes such as `"+20"` or `"-0.3"`.
- `records.dfy` (`Records`): dictionary values, interaction records, decisions, interaction
  rules and policy definitions.
- `agent.dfy` (`Agents`, class `Agent`): agent construction per type and city, decision parsing
  with its fallback, and state updates.
- `environment.dfy` (`EnvironmentModel`, class `Environment`): city profiles, per-round updates
  with clamping, and infrastructure queries.
- `interaction.dfy` (`Interactions`, class `InteractionEngine`): pair selection, interaction
  outcomes and their effects on both parties.
- `policy.dfy` (`Policies`, class `PolicyEngine`): policy application to the environment, to
  behaviour parameters and to interaction rules.
- `efficiency.dfy`, `fairness.dfy`, `resilience.dfy`, `status.dfy` (`AgentStatus`),
  `collaboration.dfy`: the five metric calculators as functions over the round records.
- `rounds.dfy` (`Rounds`): the round record and the flattening of the rounds into one list of
  interactions. The early and late windows over the rounds are part of `resilience.dfy`.
- `driver.dfy` (`Driver`): the round loop, the recording of rounds and the metrics report.

Mutable objects (`Agent`, `Environment`, `InteractionEngine`, `PolicyEngine`) are classes. Their
methods state the whole new state and the invariant they keep. The metric calculators are pure,
so they are functions with lemmas about their bounds and their behaviour on the edge cases.

## Model

| member | source | states |
|---|---|---|
| Decimal.DigitChar | abm_simulation/simulation/agent.py:367 | each digit is written as the character that reads back as it |
| Decimal.NatToString | abm_simulation/simulation/agent.py:367 | `str(i)` is a nonempty run of decimal digits |
| Decimal.NatToStringRoundTrip | abm_simulation/simulation/agent.py:367 | reading back the digits `str(i)` writes gives i |
| Decimal.NatToStringInjective | abm_simulation/simulation/agent.py:367-378 | distinct numbers are written differently |
| Decimal.ParseUnsigned | abm_simulation/simulation/policy_engine.py:220-227 | an unsigned decimal body never denotes a negative number |
| Decimal.ParseDigits | abm_simulation/simulation/policy_engine.py:224-227 | a run of digits parses to the number it denotes |
| Decimal.ParsePlus | abm_simulation/simulation/policy_engine.py:224-225 | a leading '+' keeps the body's value |
| Decimal.ParseMinus | abm_simulation/simulation/policy_engine.py:224-225 | a leading '-' negates the body's value |
| Decimal.ParseBareDigits | abm_simulation/simulation/policy_engine.py:226-227 | unsigned digits parse to their value |
| Decimal.ParsePlusInteger | abm_simulation/simulation/policy_engine.py:214-225 | "+n" parses to n, as in the change "+20" |
| Decimal.ParseMinusInteger | abm_simulation/simulation/policy_engine.py:214-225 | "-n" parses to -n, as in the change "-10" |
| Decimal.ParseInteger | abm_simulation/simulation/policy_engine.py:226-227 | "n" parses to n |
| Decimal.ParseWholeDotFraction | abm_simulation/simulation/policy_engine.py:214-227 | "w.f" parses to w + f / 10^len(f) |
| Decimal.ParseAtDot | abm_simulation/simulation/policy_engine.py:224-227 | a body with digits on both sides of its first dot parses to that fraction |
| Decimal.ParseSignedFraction | abm_simulation/simulation/policy_engine.py:214-225 | "+w.f" parses to w + f / 10^len(f), as in the change "+0.3" |
| Decimal.ParseRejectsLetters | abm_simulation/simulation/policy_engine.py:228-230 | text starting with a letter raises ValueError |
| Decimal.StripUnpadded | abm_simulation/simulation/policy_engine.py:223 | text without surrounding whitespace is unchanged by `strip()` |
| Decimal.NoDotInDigits | abm_simulation/simulation/policy_engine.py:224-227 | a run of digits contains no dot |
| Decimal.FindDotAfterDigits | abm_simulation/simulation/policy_engine.py:224-227 | the first dot of "w.f" follows the whole part |
| Decimal.FindFirst | abm_simulation/simulation/agent.py:204 | `find` returns the first place a pattern occurs |
| Agents.GovernmentAttributes | abm_simulation/simulation/agent.py:270-279 | Beijing's government prefers fairness with platform regulation 95, Shenzhen's efficiency with transparency 85; other cities keep the configured attributes; no configured key is lost |
| Agents.EnterpriseAttributes | abm_simulation/simulation/agent.py:295-304 | Beijing's enterprises collect data compliantly, Shenzhen's flexibly; other cities keep the configured attributes; no configured key is lost |
| Agents.AreaAdjusted | abm_simulation/simulation/agent.py:320-335 | only literacy and income change; every other attribute is kept |
| Agents.AreaAdjustmentOrder | abm_simulation/simulation/agent.py:325-335 | core residents are not adjusted; fringe residents keep at least 30 literacy and 3000 income, rural ones 20 and 2000, and rural values never exceed fringe values |
| Agents.FringeNeverRaises | abm_simulation/simulation/agent.py:327-331 | for values at or above their floors, the fringe adjustment never raises literacy or income |
| Agents.FallbackActions | abm_simulation/simulation/agent.py:220-226 | the base class has one fallback action, each role three |
| Agents.FallbackDecision | abm_simulation/simulation/agent.py:281-346 | a fallback decision picks one of its role's actions and addresses its role's target; a resident's satisfaction lies in [2, 4] |
| Agents.ExtractJsonNone | abm_simulation/simulation/agent.py:200-212 | "No JSON found" exactly when the trimmed reply has no "```json" marker and lacks '{' or '}' |
| Agents.ExtractJsonBraced | abm_simulation/simulation/agent.py:207-210 | without the marker, a nonempty extracted text runs from a '{' to a '}' |
| Agents.BracedSlice | abm_simulation/simulation/agent.py:208-210 | a slice from a '{' through a '}' is empty or starts and ends with them |
| Agents.FindAt | abm_simulation/simulation/agent.py:204-205 | `find` returns the first occurrence at or after its start |
| Agents.NotFound | abm_simulation/simulation/agent.py:204-205 | a pattern whose first character is absent is not found |
| Agents.ExtractFenced | abm_simulation/simulation/agent.py:203-206 | a fenced JSON reply yields its trimmed body |
| Agents.FenceOpens | abm_simulation/simulation/agent.py:204 | the marker is found at the start of a fenced reply |
| Agents.FenceCloses | abm_simulation/simulation/agent.py:205 | the closing fence is the first one after the marker when the body has no back-quote |
| Agents.FindInTail | abm_simulation/simulation/agent.py:205 | a search from the end of a prefix finds a pattern that begins the suffix when the middle cannot start it |
| Agents.ExtractBraced | abm_simulation/simulation/agent.py:207-210 | a bare braced reply is handed over whole |
| Agents.ExtractNothing | abm_simulation/simulation/agent.py:211-212 | a reply with neither marker nor opening brace yields no JSON |
| Agents.ParseResponse | abm_simulation/simulation/agent.py:196-218 | no JSON or an undecodable text gives the role's default decision; otherwise the decoded decision |
| Agents.PromptDefaults | abm_simulation/simulation/agent.py:100-116 | there are twelve prompt defaults |
| Agents.WithDefaultsSpec | abm_simulation/simulation/agent.py:118-121 | existing entries are kept, every default key becomes present, and each added key carries its default |
| Agents.AddMissingVariables | abm_simulation/simulation/agent.py:100-123 | the loop adds exactly the missing defaults |
| Agents.PromptContext | abm_simulation/simulation/agent.py:136-141 | the prompt holds the city, the attributes, the state and the context, and context entries win |
| Agents.Decided | abm_simulation/simulation/agent.py:125-194 | a failing model call gives the role's default decision and records the error; a successful one records none |
| Agents.DecideFallsBackOnError | abm_simulation/simulation/agent.py:174-194 | a history entry is a fallback exactly when the model call failed, and the fallback addresses the role's target |
| Agents.SatisfactionStep | abm_simulation/simulation/agent.py:247-254 | satisfaction stays in [1, 5]; success never lowers it, failure never raises it, any other outcome keeps it |
| Agents.CountersCapped | abm_simulation/simulation/agent.py:236-245 | literacy, usage frequency and innovation never decrease and never pass 100, 10 and 100 |
| Agents.Agent.Government | abm_simulation/simulation/agent.py:22-48 | a new government agent has the city's attributes, the configured initial state and an empty history |
| Agents.Agent.Enterprise | abm_simulation/simulation/agent.py:295-304 | a new enterprise agent has the city's attributes, the configured initial state and an empty history |
| Agents.Agent.Resident | abm_simulation/simulation/agent.py:320-335 | a new resident agent has its area, the area-adjusted attributes, the configured initial state and an empty history |
| Agents.Agent.GetState | abm_simulation/simulation/agent.py:257-264 | the agent's type, attributes, state and number of history entries |
| Agents.Agent.Decide | abm_simulation/simulation/agent.py:125-194 | returns the decision of the completed prompt and appends exactly one history entry; state and attributes do not change |
| Agents.Agent.UpdateState | abm_simulation/simulation/agent.py:228-255 | attributes and state become their updated values; nothing else changes |
| Agents.AgentIdInjective | abm_simulation/simulation/agent.py:368-380 | ids of one prefix are distinct for distinct numbers |
| Agents.AgentIdsApart | abm_simulation/simulation/agent.py:368-380 | no enterprise id is a resident id, and neither is "government" |
| Agents.CreateAgents | abm_simulation/simulation/agent.py:348-387 | one fresh government, and the requested numbers of fresh enterprises and residents, numbered from 0, each with its drawn area; no agent appears twice |
| Agents.MakeEnterprises | abm_simulation/simulation/agent.py:364-369 | n fresh, distinct enterprises with ids `enterprise_0` onwards |
| Agents.MakeResidents | abm_simulation/simulation/agent.py:371-381 | one fresh, distinct resident per area draw, with ids `resident_0` onwards |
| Efficiency.ResponseTimes | abm_simulation/metrics/efficiency.py:32-39 | never empty: the service requests' response times (default 1.0 each), or the single default 1.0 when there are none |
| Efficiency.ResolutionScores | abm_simulation/metrics/efficiency.py:32-43 | never empty: 1/0 per service request by `resolved`, or the single default 0.5 |
| Efficiency.CalculateEfficiency | abm_simulation/metrics/efficiency.py:18-24 | no interaction records give all four metrics 0 |
| Efficiency.ResourceUsage | abm_simulation/metrics/efficiency.py:59-83 | lies in [0, 1]; is the fraction of records whose status is `active`; 0 for no records |
| Efficiency.PolicyImplementationCost | abm_simulation/metrics/efficiency.py:96-105 | 0 when no record is a policy implementation |
| Efficiency.NoRequestDefaults | abm_simulation/metrics/efficiency.py:32-34 | records without a service request report response time 1.0 and resolution rate 0.5 |
| Efficiency.ResolutionRateIsFraction | abm_simulation/metrics/efficiency.py:40-47 | with service requests, the resolution rate is the fraction of them that are resolved |
| Efficiency.ResolutionRateBounds | abm_simulation/metrics/efficiency.py:32-47 | the resolution rate lies in [0, 1] |
| Efficiency.ResponseTimeBounds | abm_simulation/metrics/efficiency.py:32-46 | the average response time lies within any bounds that contain every request's response time and the default 1.0 |
| Efficiency.PolicyCostBounds | abm_simulation/metrics/efficiency.py:96-111 | the policy cost lies within any bounds that contain every policy implementation's cost and 0 |
| EnvironmentModel.NextLoad | abm_simulation/simulation/environment.py:117-130 | the smoothed system load lies in [0, 1] |
| EnvironmentModel.NextLoadMonotone | abm_simulation/simulation/environment.py:120-129 | more service, data or usage requests never lower the load |
| EnvironmentModel.NextLoadExtremes | abm_simulation/simulation/environment.py:126-129 | without requests the load decays to 70%; fifty or more requests give 0.7 of the load plus 0.3 |
| EnvironmentModel.NextAvailability | abm_simulation/simulation/environment.py:132-153 | availability after load and failures lies in [0, 1] |
| EnvironmentModel.FailuresExhaustAvailability | abm_simulation/simulation/environment.py:143-153 | eleven system failures in one round bring availability to 0 whatever the load |
| EnvironmentModel.EmergencyStepBounded | abm_simulation/simulation/environment.py:155-166 | the emergency check keeps availability in [0, 1] and never raises it |
| EnvironmentModel.EmergencyCompounds | abm_simulation/simulation/environment.py:158-160 | a trigger below 2% sets the emergency and cuts availability to 70% again even during an emergency |
| EnvironmentModel.EmergencyRecovery | abm_simulation/simulation/environment.py:158-166 | an emergency ends exactly when the trigger misses and the recovery draw is below 0.3; availability is kept exactly when the trigger misses (or is already 0) |
| EnvironmentModel.CountService | abm_simulation/simulation/environment.py:171-179 | a channel's count never exceeds the number of interactions |
| EnvironmentModel.NextUtilization | abm_simulation/simulation/environment.py:181-194 | a utilisation in [0, 1] stays in [0, 1] |
| EnvironmentModel.NextUtilizations | abm_simulation/simulation/environment.py:168-194 | both channels are updated and no key is added or lost |
| EnvironmentModel.UtilizationShares | abm_simulation/simulation/environment.py:171-184 | the digital and physical counts together never exceed the number of interactions |
| EnvironmentModel.RecordsIn | abm_simulation/simulation/environment.py:205-208 | an area's group holds only records of that area, in order, with a missing area read as core_area |
| EnvironmentModel.AreaQuality | abm_simulation/simulation/environment.py:211-221 | an area without records keeps its quality; otherwise the new quality lies in [0, 1] |
| EnvironmentModel.AreaQualityDirection | abm_simulation/simulation/environment.py:213-221 | quality rises when the success rate is at least 70% and falls when it is at most 70% |
| EnvironmentModel.NextQuality | abm_simulation/simulation/environment.py:196-221 | quality keeps its keys |
| EnvironmentModel.NextQualityBounded | abm_simulation/simulation/environment.py:196-221 | every quality in [0, 1] stays there |
| EnvironmentModel.NextQualityIgnoresUnknownArea | abm_simulation/simulation/environment.py:205-208 | a record of an unknown area changes no quality |
| EnvironmentModel.QuietRound | abm_simulation/simulation/environment.py:181-212 | a round without interactions leaves quality and utilisation as they were |
| EnvironmentModel.Drifted | abm_simulation/simulation/environment.py:223-234 | drift and decay keep the areas |
| EnvironmentModel.DriftedBounded | abm_simulation/simulation/environment.py:226-234 | digital infrastructure stays in [0, 100] under drift and decay |
| EnvironmentModel.NextStateValid | abm_simulation/simulation/environment.py:90-234 | one update keeps availability, load, quality and utilisation in [0, 1] and digital infrastructure in [0, 100] |
| EnvironmentModel.ApplyInfra | abm_simulation/simulation/environment.py:250-266 | an infrastructure table keeps the areas |
| EnvironmentModel.ApplyInfraUntouched | abm_simulation/simulation/environment.py:252-253 | an area no change names keeps its level |
| EnvironmentModel.ApplyInfraCapped | abm_simulation/simulation/environment.py:255-256 | a changed level is at most 100 |
| EnvironmentModel.ApplyInfraFails | abm_simulation/simulation/environment.py:252-256 | the intervention fails only on a change that does not convert, for an area present |
| EnvironmentModel.InfraChangeSigned | abm_simulation/simulation/environment.py:254 | "+n" converts to n |
| EnvironmentModel.RemovePlusDigits | abm_simulation/simulation/environment.py:254 | removing '+' leaves digits unchanged |
| EnvironmentModel.InfraChangeRejectsNumbers | abm_simulation/simulation/environment.py:254 | a number in the table raises, since numbers have no `replace` |
| EnvironmentModel.Intervention | abm_simulation/simulation/environment.py:236-266 | a policy not targeted at the environment changes nothing; areas are kept |
| EnvironmentModel.ContextMap | abm_simulation/simulation/environment.py:56-74 | the context reports availability, "Medium to High" regulation above load 0.7, "Challenging" markets during an emergency and the infrastructure level |
| EnvironmentModel.Environment.constructor | abm_simulation/simulation/environment.py:14-43 | a new environment copies the configured tables and starts at availability 1, load 0.5, no emergency and the initial quality and utilisation |
| EnvironmentModel.Environment.GetInfrastructureLevel | abm_simulation/simulation/environment.py:268-283 | 0.6 digital plus 0.4 physical, each 50 when unknown; 50 for an unknown area |
| EnvironmentModel.Environment.GetAreaContext | abm_simulation/simulation/environment.py:285-299 | the combined level lies between the two levels, and an unknown area's quality is 0.6 |
| EnvironmentModel.Environment.GetContext | abm_simulation/simulation/environment.py:45-74 | fails exactly when an infrastructure table is empty (division by zero); otherwise the context of the state with the mean level |
| EnvironmentModel.Environment.Update | abm_simulation/simulation/environment.py:90-115 | the new state is one step of the state before, and the ranges hold |
| EnvironmentModel.Environment.SetState | abm_simulation/simulation/environment.py:76-88 | every field takes the given value |
| EnvironmentModel.Environment.Step | abm_simulation/simulation/environment.py:97-115 | the six sub-steps in order give the next state; physical infrastructure and policy are kept |
| EnvironmentModel.Environment.UpdateSystemLoad | abm_simulation/simulation/environment.py:117-130 | computes the smoothed load |
| EnvironmentModel.Environment.UpdateServiceAvailability | abm_simulation/simulation/environment.py:132-153 | computes the next availability |
| EnvironmentModel.Environment.CheckEmergencyEvents | abm_simulation/simulation/environment.py:155-166 | computes the emergency step |
| EnvironmentModel.Environment.UpdateInfrastructureUtilization | abm_simulation/simulation/environment.py:168-194 | computes both utilisations |
| EnvironmentModel.Environment.UpdateServiceQuality | abm_simulation/simulation/environment.py:196-221 | groups by area and computes the next quality |
| EnvironmentModel.Environment.ApplyRandomChanges | abm_simulation/simulation/environment.py:223-234 | computes the drifted levels |
| EnvironmentModel.Environment.ApplyPolicyIntervention | abm_simulation/simulation/environment.py:236-266 | both tables and the outcome are those of the intervention on the old tables |
| EnvironmentModel.QualityFromGroups | abm_simulation/simulation/environment.py:211-221 | updating the three areas from their groups gives the next quality |
| EnvironmentModel.RecordsInSnoc | abm_simulation/simulation/environment.py:205-208 | one more record joins its own area's group only |
| EnvironmentModel.GroupedStep | abm_simulation/simulation/environment.py:205-208 | appending a record to its area's group keeps the grouping |
| EnvironmentModel.GroupByArea | abm_simulation/simulation/environment.py:199-208 | the loop builds each area's records, in order |
| EnvironmentModel.ApplyChanges | abm_simulation/simulation/environment.py:252-256 | the loop over a change table gives the table's result |
| EnvironmentModel.SumMap | abm_simulation/simulation/environment.py:53-54 | the loop gives the sum of the values |
| Interactions.ValidDrawsParts | abm_simulation/simulation/interaction.py:24-83 | a round's draws supply every stage of `process` |
| Interactions.Procurement | abm_simulation/simulation/interaction.py:252-276 | a procurement names the government and the enterprise, and succeeds exactly when the draw falls below the rule probability (default 0.7) times innovation / 100 |
| Interactions.Regulation | abm_simulation/simulation/interaction.py:278-302 | a regulation names the government and the enterprise, records compliance exactly when it succeeds, and succeeds exactly when the draw falls below the compliance rate (default 90) out of 100 |
| Interactions.RegulationIgnoresProbability | abm_simulation/simulation/interaction.py:285-292 | the regulation rule's probability has no effect on the record |
| Interactions.DataSharing | abm_simulation/simulation/interaction.py:304-327 | a data sharing names the government and the enterprise, ends in success or denied, and succeeds exactly when the draw falls below the rule probability (default 0.3) times transparency (default 70) out of 100 |
| Interactions.GovToEnterprise | abm_simulation/simulation/interaction.py:216-233 | a record exists exactly for procurement, regulation or data sharing (a missing action counts as regulation), of that type, naming the government and the enterprise |
| Interactions.Bidding | abm_simulation/simulation/interaction.py:423-442 | a bid names the enterprise and the government; it is awarded exactly when it succeeds, and succeeds exactly when the draw falls below the mean of innovation (default 50) and compliance (default 90) out of 100 |
| Interactions.DataRequest | abm_simulation/simulation/interaction.py:444-465 | a data request is approved exactly when data access is granted, and exactly when the draw falls below the data-sharing probability (default 0.3) times compliance (default 90) out of 100 |
| Interactions.EnterpriseToGov | abm_simulation/simulation/interaction.py:235-250 | a record exists exactly for project bidding or a data request (a missing action counts as compliance reporting), of that type |
| Interactions.InfrastructureFactor | abm_simulation/simulation/interaction.py:340-346 | the area factor lies in [0.5, 0.9] |
| Interactions.Service | abm_simulation/simulation/interaction.py:329-360 | a service names the government and the resident, carries the resident's area, and succeeds exactly when the draw falls below the rule probability (default 0.8) times the area's infrastructure factor |
| Interactions.Feedback | abm_simulation/simulation/interaction.py:362-390 | a record exists exactly for feedback (the default action); it is a demand response from the resident to the government, answered exactly when the draw falls below the rule probability (default 0.7) times transparency (default 70) out of 100 |
| Interactions.Supply | abm_simulation/simulation/interaction.py:392-421 | a supply names the enterprise and the resident, carries the resident's area, and succeeds exactly when the draw falls below its chance |
| Interactions.Sharing | abm_simulation/simulation/interaction.py:202-212 | an information sharing record is a success naming the two residents in the order drawn |
| Interactions.CapabilityMonotone | abm_simulation/simulation/interaction.py:262-266 | a more innovative enterprise never turns a successful procurement or supply into a failure |
| Interactions.ProcurementChanceMonotone | abm_simulation/simulation/interaction.py:263-264 | the procurement chance never falls as innovation rises |
| Interactions.SupplyChanceMonotone | abm_simulation/simulation/interaction.py:404-407 | the supply chance never falls as innovation rises |
| Interactions.Opt | abm_simulation/simulation/interaction.py:102-103 | a built record is appended, a missing one is not |
| Interactions.GovToEnterprisesShape | abm_simulation/simulation/interaction.py:97-103 | one record per enterprise when the action gives records, else none; each of the action's type and from the government |
| Interactions.EnterprisesToGovShape | abm_simulation/simulation/interaction.py:106-112 | at most one record per pair, each a bid or data request addressed to the government; none when no decision addresses the government |
| Interactions.ServicesShape | abm_simulation/simulation/interaction.py:133-137 | one service record per sampled resident, in sample order, naming that resident and its area |
| Interactions.ServiceCount | abm_simulation/simulation/interaction.py:128-137 | with service provision chosen and its rule present, exactly min(20, residents) records |
| Interactions.FeedbacksShape | abm_simulation/simulation/interaction.py:140-148 | every feedback record is a demand response answered or ignored; without feedback decisions there are none |
| Interactions.ResResidentBound | abm_simulation/simulation/interaction.py:189-212 | at most min(10, n div 10) sharing records, none among fewer than ten residents |
| Interactions.SharingsShape | abm_simulation/simulation/interaction.py:191-212 | at most one record per attempt, each a success; an attempt whose draw falls below its threshold (0.3 for a pair in one area, 0.1 across areas) gives its pair's record, and every record comes from such an attempt |
| Interactions.PairThreshold | abm_simulation/simulation/interaction.py:196-200 | the sharing threshold is 0.3 for two residents of one area and 0.1 otherwise |
| Interactions.ResResidentDistinct | abm_simulation/simulation/interaction.py:192-212 | with two distinct sampled positions and distinct resident identifiers, no sharing record pairs a resident with itself |
| Interactions.FallbackReachesNoEnterprise | abm_simulation/simulation/agent.py:281-289 | a government on its default decision addresses residents, so only the enterprises' own records remain |
| Interactions.Occurrences | abm_simulation/simulation/interaction.py:478-483 | an id is listed at most once per participant, and not at all when absent |
| Interactions.Involving | abm_simulation/simulation/interaction.py:476-483 | an agent's group holds only records that name it |
| Interactions.InvolvingNone | abm_simulation/simulation/interaction.py:486-502 | an agent named by no record has an empty group and is not updated |
| Interactions.GovernmentFoldBounds | abm_simulation/simulation/interaction.py:504-516 | resource utilization stays in [0, 1]; records other than success, failed or violation change nothing |
| Interactions.EnterpriseFoldBounds | abm_simulation/simulation/interaction.py:518-532 | innovation stays at most 100 and market share at most 1, both only rise, and only successes change them |
| Interactions.ResidentFoldBounds | abm_simulation/simulation/interaction.py:534-555 | satisfaction stays in [1, 5] and trust in [0, 100]; records other than success, failed or ignored change nothing |
| Interactions.InteractionEngine.constructor | abm_simulation/simulation/interaction.py:14-22 | a new engine keeps the rules and an empty history |
| Interactions.InteractionEngine.Process | abm_simulation/simulation/interaction.py:24-83 | the round's records from the agents as they were; on a missing service rule nothing changes, otherwise the history grows by the records and every agent absorbs the records naming it |
| Interactions.InteractionEngine.Commit | abm_simulation/simulation/interaction.py:77-81 | the records join the history and every agent absorbs those naming it |
| Interactions.InteractionEngine.Generate | abm_simulation/simulation/interaction.py:47-75 | the four stages' records, concatenated in order |
| Interactions.InteractionEngine.ProcessGovernmentEnterprise | abm_simulation/simulation/interaction.py:85-114 | computes the government-enterprise records |
| Interactions.InteractionEngine.ProcessEnterprisesToGov | abm_simulation/simulation/interaction.py:105-112 | the loop over enterprise-decision pairs builds their records |
| Interactions.InteractionEngine.ProcessGovernmentResident | abm_simulation/simulation/interaction.py:116-150 | computes the government-resident records or the missing-rule error |
| Interactions.InteractionEngine.ServeResidents | abm_simulation/simulation/interaction.py:128-137 | the service loop builds the service records |
| Interactions.InteractionEngine.CollectFeedback | abm_simulation/simulation/interaction.py:139-148 | the feedback loop builds the feedback records |
| Interactions.InteractionEngine.ProcessEnterpriseResident | abm_simulation/simulation/interaction.py:152-178 | computes the supply records |
| Interactions.InteractionEngine.SupplyResidents | abm_simulation/simulation/interaction.py:172-176 | one enterprise's supply loop builds its records |
| Interactions.InteractionEngine.ProcessResidentResident | abm_simulation/simulation/interaction.py:180-214 | computes the information sharing records of min(10, n div 10) attempts, each pairing two distinct residents as `random.sample` does |
| Interactions.InteractionEngine.UpdateAgentStates | abm_simulation/simulation/interaction.py:467-502 | every agent's state is its former state folded with the records naming it |
| Interactions.UpdateEnterpriseStates | abm_simulation/simulation/interaction.py:490-495 | each enterprise absorbs the records naming it |
| Interactions.UpdateResidentStates | abm_simulation/simulation/interaction.py:497-502 | each resident absorbs the records naming it |
| Interactions.UpdateGovernmentState | abm_simulation/simulation/interaction.py:504-516 | the government's state is folded over its records |
| Interactions.UpdateEnterpriseState | abm_simulation/simulation/interaction.py:518-532 | the enterprise's state is folded over its records |
| Interactions.UpdateResidentState | abm_simulation/simulation/interaction.py:534-555 | the resident's state and attributes are folded over its records |
| Policies.ParseChange | abm_simulation/simulation/policy_engine.py:209-230 | a number passes through unchanged; text that does not parse reads as 0 |
| Policies.ParseChangeSigned | abm_simulation/simulation/policy_engine.py:214-227 | "+n", "-n" and "n" read as n, -n and n |
| Policies.ParseChangeRejectsText | abm_simulation/simulation/policy_engine.py:228-230 | text starting with a letter is no change |
| Policies.Shift | abm_simulation/simulation/policy_engine.py:113-116 | a numeric or boolean attribute (a flag adds as 1 or 0) becomes a number in [0, 100]; other values are left unchanged |
| Policies.Shifted | abm_simulation/simulation/policy_engine.py:111-116 | no attribute is added or removed |
| Policies.ShiftedSpec | abm_simulation/simulation/policy_engine.py:111-116 | an attribute without a change keeps its value; a changed numeric one becomes min(100, max(0, old + change)) |
| Policies.ShiftAttributes | abm_simulation/simulation/policy_engine.py:184-189 | the loop gives the shifted table |
| Policies.Overwritten | abm_simulation/simulation/policy_engine.py:120-124 | modifiers gain the changed keys and keep the rest |
| Policies.OverwrittenIdempotent | abm_simulation/simulation/policy_engine.py:120-124 | setting the same modifiers twice equals setting them once |
| Policies.Overwrite | abm_simulation/simulation/policy_engine.py:120-124 | the loop gives the overwritten modifiers |
| Policies.RulesOverwritten | abm_simulation/simulation/policy_engine.py:140-146 | rule modifiers gain every named rule and keep the rest |
| Policies.RulesOverwrittenIdempotent | abm_simulation/simulation/policy_engine.py:140-146 | applying the same rule changes twice equals applying them once |
| Policies.OverwriteRules | abm_simulation/simulation/policy_engine.py:137-146 | the loop gives the overwritten rule modifiers |
| Policies.ResidentAfter | abm_simulation/simulation/policy_engine.py:96-124 | a resident's state is untouched; literacy training skips residents at 70 or more |
| Policies.EnterpriseRuled | abm_simulation/simulation/policy_engine.py:149-163 | open data sharing sets a compliant enterprise's willingness to 0.8; regulation raises compliance by 5 up to 100; other policies change nothing |
| Policies.RegulationRaisesCompliance | abm_simulation/simulation/policy_engine.py:158-163 | compliance never passes 100, never falls from at most 100, and below 95 rises by exactly 5 |
| Policies.AllChanged | abm_simulation/simulation/policy_engine.py:109-124 | every agent of the list is changed alike |
| Policies.TargetOf | abm_simulation/simulation/policy_engine.py:67-80 | the environment branch is taken exactly for target "environment" |
| Policies.Single | abm_simulation/simulation/policy_engine.py:57-87 | only environment policies can fail; others leave the infrastructure alone; no area or agent is added or lost |
| Policies.FailureSticks | abm_simulation/simulation/policy_engine.py:42-55 | after a failing application the rest of the list is not looked at |
| Policies.UnknownNamesIgnored | abm_simulation/simulation/policy_engine.py:54-55 | a list of unknown names changes nothing |
| Policies.Known | abm_simulation/simulation/policy_engine.py:42-44 | the known names are at most the names given |
| Policies.ApplyAllRecords | abm_simulation/simulation/policy_engine.py:42-53 | a run without failure adds one history entry per known name, in order, and the applied list gains exactly the known names without repeats |
| Policies.OnlyEnvironmentFails | abm_simulation/simulation/policy_engine.py:75-76 | a run fails only when some name is an environment policy |
| Policies.ChangedKeys | abm_simulation/simulation/policy_engine.py:277-293 | the reported keys include every top-level key of the attribute changes |
| Policies.Wanted | abm_simulation/simulation/policy_engine.py:319-341 | a candidate is wanted exactly when its condition holds and it has not been applied |
| Policies.PickedFlagged | abm_simulation/simulation/policy_engine.py:341 | every kept position is a wanted one |
| Policies.PickedComplete | abm_simulation/simulation/policy_engine.py:341 | every wanted position is kept |
| Policies.PickedIncreasing | abm_simulation/simulation/policy_engine.py:341 | kept positions stay in order |
| Policies.PickedExactly | abm_simulation/simulation/policy_engine.py:341 | a position is kept exactly when it is wanted |
| Policies.CandidatesDistinct | abm_simulation/simulation/policy_engine.py:322-338 | the four candidate names differ |
| Policies.RecommendationsExact | abm_simulation/simulation/policy_engine.py:313-342 | the recommendations are exactly the called, unapplied candidates, each once, in candidate order |
| Policies.NamesOfPositions | abm_simulation/simulation/policy_engine.py:341 | names taken at increasing candidate positions are distinct candidates |
| Policies.PolicyEngine.constructor | abm_simulation/simulation/policy_engine.py:13-22 | a new engine keeps the policy table with no applied policies and no history |
| Policies.PolicyEngine.Apply | abm_simulation/simulation/policy_engine.py:24-55 | the agents, the environment and both lists end as the run over the names describes |
| Policies.PolicyEngine.ApplySingle | abm_simulation/simulation/policy_engine.py:57-87 | the world changes as the single application describes, and one history entry follows a success |
| Policies.PolicyEngine.Record | abm_simulation/simulation/policy_engine.py:83-87 | one history entry is appended; nothing else changes |
| Policies.PolicyEngine.Remember | abm_simulation/simulation/policy_engine.py:51-52 | one name is appended to the applied list; nothing else changes |
| Policies.PolicyEngine.GetPolicyEffects | abm_simulation/simulation/policy_engine.py:232-243 | the summary holds the applied names and the history as they stand, and a policy count equal to the number of applied policies |
| Policies.PolicyEngine.SimulatePolicyImpact | abm_simulation/simulation/policy_engine.py:245-296 | an error exactly for an unknown name; otherwise the name and target, the resident count for resident policies, and no estimate for other targets |
| Policies.PolicyEngine.RecommendPolicies | abm_simulation/simulation/policy_engine.py:298-342 | a candidate is recommended exactly when its condition holds and it is not applied; no repeats |
| Policies.ResidentBranch | abm_simulation/simulation/policy_engine.py:69-70 | the resident branch changes the world as the single application describes |
| Policies.GovernmentEnterpriseBranch | abm_simulation/simulation/policy_engine.py:71-74 | the government-enterprise branch changes the world as described |
| Policies.SingleGovernmentEnterprise | abm_simulation/simulation/policy_engine.py:126-163 | that branch changes only the government's rule modifiers and the enterprises |
| Policies.SingleResident | abm_simulation/simulation/policy_engine.py:89-124 | the resident branch changes only the residents |
| Policies.EnvironmentBranch | abm_simulation/simulation/policy_engine.py:165-173 | the environment branch changes the world and outcome as described |
| Policies.GovernmentBranch | abm_simulation/simulation/policy_engine.py:175-190 | the government branch changes the world as described |
| Policies.EnterpriseBranch | abm_simulation/simulation/policy_engine.py:192-207 | the enterprise branch changes the world as described |
| Policies.ApplyResidentPolicy | abm_simulation/simulation/policy_engine.py:89-124 | every resident changes as the policy describes for it |
| Policies.ApplyToResident | abm_simulation/simulation/policy_engine.py:103-124 | one resident changes as the policy describes for it |
| Policies.ApplyGovernmentEnterprisePolicy | abm_simulation/simulation/policy_engine.py:126-163 | the government's rule modifiers are overwritten and every enterprise is ruled by the policy |
| Policies.SetRules | abm_simulation/simulation/policy_engine.py:137-146 | only the government's rule modifiers change |
| Policies.RuleEnterprises | abm_simulation/simulation/policy_engine.py:149-163 | every enterprise is ruled by the policy |
| Policies.UnruledUnchanged | abm_simulation/simulation/policy_engine.py:149-163 | other policies leave every enterprise as it was |
| Policies.OpenDataSharing | abm_simulation/simulation/policy_engine.py:150-156 | the open data sharing loop |
| Policies.RegulateAlgorithms | abm_simulation/simulation/policy_engine.py:158-163 | the algorithm regulation loop |
| Policies.ApplyEnterprisePolicy | abm_simulation/simulation/policy_engine.py:192-207 | every enterprise gets the attribute changes |
| Fairness.CalculateFairness | abm_simulation/metrics/fairness.py:8-85 | no residents give all four metrics 0 |
| Fairness.FairnessBounds | abm_simulation/metrics/fairness.py:72-85 | the three Gini coefficients and the digital divide all lie in [0, 1] |
| Fairness.MissingAreaIsCore | abm_simulation/metrics/fairness.py:28-32 | a resident without an `area` key is grouped with `core_area` |
| Fairness.AccessLevelIsFraction | abm_simulation/metrics/fairness.py:44-49 | an area's access level is the fraction of its residents whose `digital_access` is truthy |
| Fairness.Insert | abm_simulation/metrics/fairness.py:102 | inserting adds exactly one element (with InsertPermutes, InsertSorted: keeps the multiset plus the new value, keeps order) |
| Fairness.InsertPermutes | abm_simulation/metrics/fairness.py:102 | insertion adds exactly the inserted value to the multiset |
| Fairness.InsertSorted | abm_simulation/metrics/fairness.py:102 | insertion into a sorted list leaves it sorted |
| Fairness.SortAscending | abm_simulation/metrics/fairness.py:102 | `sorted` keeps the length |
| Fairness.SortSpec | abm_simulation/metrics/fairness.py:102 | `sorted` returns an ascending permutation of its input |
| Fairness.SortedUnique | abm_simulation/metrics/fairness.py:102 | two ascending lists with the same multiset are equal, so the sorted order is unique |
| Fairness.CumSums | abm_simulation/metrics/fairness.py:109 | `np.cumsum` keeps the length |
| Fairness.Gini | abm_simulation/metrics/fairness.py:88-116 | the coefficient lies in [0, 1]; fewer than two values give 0 |
| Fairness.Prepared | abm_simulation/metrics/fairness.py:102 | clamping negatives to 0 and sorting keeps the length |
| Fairness.GiniOfSorted | abm_simulation/metrics/fairness.py:103-116 | on two or more prepared values the clamped coefficient lies in [0, 1] |
| Fairness.GiniPermutationInvariant | abm_simulation/metrics/fairness.py:88-116 | the coefficient depends only on the multiset of values, not their order |
| Fairness.PreparedPermutation | abm_simulation/metrics/fairness.py:102 | permuted inputs give the same prepared list |
| Fairness.GiniNegativesAsZero | abm_simulation/metrics/fairness.py:102 | negative values count as 0 |
| Fairness.GiniOfEqualValues | abm_simulation/metrics/fairness.py:105-106 | equal values give a coefficient of 0 |
| Fairness.GiniOfZeroAndPositive | abm_simulation/metrics/fairness.py:109-116 | the values 0 and x > 0 give 0.5 |
| Fairness.AccessRateIsFraction | abm_simulation/metrics/fairness.py:140-148 | a group's access rate is the fraction of it with digital access |
| Fairness.DigitalDivideIsGap | abm_simulation/metrics/fairness.py:129-152 | with both income groups non-empty, the divide is the absolute gap between the two groups' access fractions (income above 6000 is high, a missing income counts as 0) |
| Fairness.DigitalDivideBounds | abm_simulation/metrics/fairness.py:119-152 | the divide lies in [0, 1] |
| Resilience.CalculateResilience | abm_simulation/metrics/resilience.py:8-36 | no records give all four metrics 0 |
| Resilience.RecoverySpeed | abm_simulation/metrics/resilience.py:39-78 | the recovery speed is never negative |
| Resilience.RecoveryWithoutEmergencies | abm_simulation/metrics/resilience.py:66-68 | records without an `emergency_response` interaction give 0.8 |
| Resilience.RecoverySpeedBounds | abm_simulation/metrics/resilience.py:70-78 | with non-negative recovery times the speed lies in [0, 1] |
| Resilience.DisruptionRate | abm_simulation/metrics/resilience.py:81-106 | lies in [0, 1] and is the fraction of records whose availability (default 1.0) is below 0.8 |
| Resilience.LateStart | abm_simulation/metrics/resilience.py:124 | the start of `records[-len//3:]` (floor division of the negated length) lies within the list |
| Resilience.WindowSizes | abm_simulation/metrics/resilience.py:123-124 | the early window holds floor(n/3) records and the late window ceil(n/3) |
| Resilience.TenRecordWindows | abm_simulation/metrics/resilience.py:119-124 | ten records give an early window of 3 and a late window of 4 |
| Resilience.RoundEfficienciesBounds | abm_simulation/metrics/resilience.py:154-166 | every per-round success fraction lies in [0, 1] |
| Resilience.PeriodEfficiencyBounds | abm_simulation/metrics/resilience.py:139-168 | the period efficiency lies in [0, 1] |
| Resilience.EmptyRoundSkipped | abm_simulation/metrics/resilience.py:164-166 | a round without interactions adds no score and leaves the period efficiency unchanged |
| Resilience.AdaptiveCapacity | abm_simulation/metrics/resilience.py:109-136 | lies in [0, 1]; fewer than ten records give 0.5 |
| Resilience.AdaptiveCapacityTrend | abm_simulation/metrics/resilience.py:127-136 | the capacity exceeds 0.5 exactly when the late window is more efficient than the early one |
| Resilience.StabilityIndex | abm_simulation/metrics/resilience.py:171-212 | lies in [0, 1]; fewer than two records give 1 |
| Resilience.SteadyRunIsStable | abm_simulation/metrics/resilience.py:188-212 | constant availability and satisfaction level give stability 1 |
| Resilience.StabilityOneIffNoVariance | abm_simulation/metrics/resilience.py:205-212 | stability is 1 exactly when both population variances are 0 |
| AgentStatus.StatusDict | abm_simulation/simulation/agent.py:257-264 | `get_state()` has exactly the keys type, attributes, state and interaction_count, and gives back the attributes and the state |
| AgentStatus.ResidentMetricsOf | abm_simulation/metrics/agent_status.py:38-78 | no residents give all zeros; the adoption rate lies in [0, 1] and is the fraction of residents with truthy `digital_access` and usage frequency above 2 |
| AgentStatus.ResidentMetricsBounds | abm_simulation/metrics/agent_status.py:58-76 | the spreads are never negative; the mean satisfaction lies within any bounds holding every resident's score |
| AgentStatus.Herfindahl | abm_simulation/metrics/agent_status.py:153-175 | no shares, or shares summing to 0, give 0 |
| AgentStatus.HerfindahlBounds | abm_simulation/metrics/agent_status.py:153-175 | with non-negative shares the index lies in [0, 1] |
| AgentStatus.HerfindahlOfEqualShares | abm_simulation/metrics/agent_status.py:166-175 | n equal positive shares give 1/n |
| AgentStatus.EnterpriseMetricsOf | abm_simulation/metrics/agent_status.py:81-118 | no enterprises give all zeros |
| AgentStatus.GoalAchievement | abm_simulation/metrics/agent_status.py:178-205 | the goal achievement never exceeds 1 |
| AgentStatus.GovernmentMetricsOf | abm_simulation/metrics/agent_status.py:121-150 | reports the goal achievement and the policy effectiveness of the government's nested attributes |
| AgentStatus.GovernmentDefaults | abm_simulation/metrics/agent_status.py:121-238 | a government without attributes and state scores 0.72, 0.57, 0.7, 1.0 and 0.7 |
| AgentStatus.GovernmentScoresBounds | abm_simulation/metrics/agent_status.py:178-238 | with resources, capability, transparency and regulation on their 0 to 100 scales, goal achievement and policy effectiveness lie in [0, 1] |
| AgentStatus.StakeholderScores | abm_simulation/metrics/agent_status.py:265-269 | there are three stakeholder scores |
| AgentStatus.Overall | abm_simulation/metrics/agent_status.py:241-284 | the stakeholder balance lies in [0, 1] |
| AgentStatus.EqualScoresBalanced | abm_simulation/metrics/agent_status.py:264-271 | equal stakeholder scores have variance 0, and spread 0 gives balance 1 |
| AgentStatus.OverallBounds | abm_simulation/metrics/agent_status.py:257-278 | with every normalised input in [0, 1], system health and sustainability lie in [0, 1] |
| AgentStatus.CalculateAgentStatus | abm_simulation/metrics/agent_status.py:8-35 | the report holds the resident, enterprise and government metrics of its inputs, and a balance in [0, 1] |
| AgentStatus.StatusDictMissing | abm_simulation/simulation/agent.py:257-264 | a `get_state()` dictionary has no key besides its four |
| AgentStatus.ResidentStatusDefaults | abm_simulation/metrics/agent_status.py:58-70 | residents given as `get_state()` dictionaries score satisfaction 3.0, trust 50 and adoption 0, with no spread, whatever their state |
| AgentStatus.NoDigitalUsers | abm_simulation/metrics/agent_status.py:66-69 | no `get_state()` dictionary counts as a digital user |
| AgentStatus.EnterpriseStatusDefaults | abm_simulation/metrics/agent_status.py:99-118 | enterprises given as `get_state()` dictionaries score share 0.1, innovation 50, compliance 90 and concentration 1/n |
| Collaboration.CalculateCollaboration | abm_simulation/metrics/collaboration.py:8-39 | no records give all zeros; the joint action rate lies in [0, 1] and the conflict rate in [0, 2]; the trust density is the source's, never negative, and equal to the corrected density, so at most 1, when no trust-building interaction pairs an agent with itself |
| Collaboration.SharingFrequency | abm_simulation/metrics/collaboration.py:42-72 | the number of data sharing, information exchange and coordination interactions over all rounds, divided by the number of rounds; 0 without rounds |
| Collaboration.ResidentSharingNotCounted | abm_simulation/simulation/interaction.py:180-214 | the residents' `information_sharing` exchanges are not among the kinds the sharing frequency counts |
| Collaboration.JointActionRate | abm_simulation/metrics/collaboration.py:75-109 | the fraction of all interactions that have more than one participant and a joint kind; lies in [0, 1] and is 0 without interactions |
| Collaboration.ConflictRate | abm_simulation/metrics/collaboration.py:112-145 | conflicts over interactions lies in [0, 2] because one interaction can count twice; 0 without interactions |
| Collaboration.ConflictRateAtMostOne | abm_simulation/metrics/collaboration.py:133-143 | when no interaction is both a conflict outcome and a non-compliant regulation, the rate is at most 1 |
| Collaboration.DoubleCountedConflict | abm_simulation/metrics/collaboration.py:133-141 | a lone non-compliant regulation with a conflict outcome gives a rate of exactly 2 |
| Collaboration.RegulationCountedOnce | abm_simulation/simulation/interaction.py:278-302 | a regulation interaction never has a conflict outcome, and is a regulatory conflict exactly when it ends in violation |
| Collaboration.CooperationScore | abm_simulation/metrics/collaboration.py:173-196 | every interaction scores between 0.1 and 1 |
| Collaboration.RoundCooperation | abm_simulation/metrics/collaboration.py:164-200 | every round scores between 0.1 and 1; a round without interactions scores 0.5 |
| Collaboration.CooperationIndex | abm_simulation/metrics/collaboration.py:148-205 | no records give 0; otherwise the index lies in [0.1, 1] |
| Collaboration.SuccessfulRoundCooperates | abm_simulation/metrics/collaboration.py:173-200 | a round whose interactions all succeed scores 1 |
| Collaboration.FullCooperation | abm_simulation/metrics/collaboration.py:158-205 | a run in which every round has interactions and all of them succeed has index 1 |
| Collaboration.QuietRunIsNeutral | abm_simulation/metrics/collaboration.py:163-168 | a run without interactions has index 0.5 |
| Collaboration.BuildTrustNetwork | abm_simulation/metrics/collaboration.py:221-243 | the loop collects every participant and both directions of each successful two-party interaction |
| Collaboration.NetworkStep | abm_simulation/metrics/collaboration.py:228-243 | one more interaction adds its participants and its trust pairs to the network built so far |
| Collaboration.TrustPairsSymmetric | abm_simulation/metrics/collaboration.py:240-243 | trust relationships are symmetric: every pair is recorded in both directions |
| Collaboration.TrustPairsAgree | abm_simulation/metrics/collaboration.py:237-243 | without self-interactions the relationships as written and the corrected ones are the same |
| Collaboration.TrustDensityAgrees | abm_simulation/metrics/collaboration.py:225-257 | the source's density is never negative, and without self-pairs it equals the corrected density |
| Collaboration.OffDiagonalSize | abm_simulation/metrics/collaboration.py:250-251 | there are n(n - 1) ordered pairs of distinct agents among n |
| Collaboration.TrustPairsWithinParticipants | abm_simulation/metrics/collaboration.py:233-243 | every corrected trust relationship joins two distinct known agents |
| Collaboration.TrustDensity | abm_simulation/metrics/collaboration.py:208-259 | the corrected density lies in [0, 1] |
| Collaboration.TrustDensityBounds | abm_simulation/metrics/collaboration.py:245-257 | distinct relationships over n(n - 1) lies in [0, 1] for any interactions |
| Collaboration.SelfPairInflatesDensity | abm_simulation/metrics/collaboration.py:237-257 | a success between a and b plus a success of a with itself gives the source's density 1.5 and the corrected density 1 |
| Collaboration.SelfPairNetwork | abm_simulation/metrics/collaboration.py:225-243 | those two interactions give the agents {a, b}; as written the relationships also hold (a, a) |
| Collaboration.StakeholderEngagement | abm_simulation/metrics/collaboration.py:262-312 | no records give zero engagement for all three types |
| Collaboration.TypeOfPrefixed | abm_simulation/metrics/collaboration.py:294 | the type of `<kind>_<rest>` is `kind` when `kind` has no underscore |
| Collaboration.AgentIdTypes | abm_simulation/metrics/collaboration.py:294 | the government's id and the ids `enterprise_<i>` and `resident_<i>` have the types government, enterprise and resident |
| Collaboration.OneMentionEach | abm_simulation/metrics/collaboration.py:291-296 | when each interaction names one agent of a type, that type is mentioned once per interaction |
| Collaboration.FullEngagement | abm_simulation/metrics/collaboration.py:298-303 | a nonempty round in which every interaction names one agent of a type engages that type at rate 1 |
| Rounds.AllInteractionsLength | abm_simulation/main.py:301-304 | the flattened interaction list is exactly as long as all rounds' lists together |
| Rounds.SumCountsFlattened | abm_simulation/metrics/collaboration.py:91-105 | counting round by round and adding the counts is the same as counting over the flattened list |
| Rounds.SumCountsBound | abm_simulation/metrics/collaboration.py:128-143 | a per-round count summed over the rounds never exceeds the total number of interactions |
| Driver.Gathered | abm_simulation/main.py:150-196 | one decision per agent, in the agents' order |
| Driver.GatheredEntries | abm_simulation/main.py:152-170 | an agent whose decision succeeds keeps it; one whose decision fails gets its role's default: an action among the role's fallback actions, with the role's fallback target |
| Driver.GatherDecisions | abm_simulation/main.py:172-196 | the loop builds exactly the gathered decisions |
| Driver.Sample | abm_simulation/main.py:223-227 | the sample keeps the government's decision, and prefixes of the enterprises' and residents' decisions of at most 5 and 10 |
| Driver.RunStep | abm_simulation/main.py:138-251 | an interrupted round ends the run; a failed round is skipped; a completed round adds its record before those of the later rounds |
| Driver.RunRounds | abm_simulation/main.py:133-251 | the round loop records exactly the completed rounds up to the first interrupt, in order |
| Driver.RecordedRoundsIncrease | abm_simulation/main.py:133-230 | recorded round numbers lie in the run's range and strictly increase |
| Driver.RecordsAreCompletedRounds | abm_simulation/main.py:211-230 | every record comes from a round that completed, and carries that round's number, interactions and environment |
| Driver.CompletedRoundRecorded | abm_simulation/main.py:230-251 | a round that completes with no interrupt before it is recorded |
| Driver.InterruptStops | abm_simulation/main.py:242-246 | the rounds after an interrupt leave no record |
| Driver.RecordCount | abm_simulation/main.py:133-251 | there are never more records than rounds |
| Driver.TailWellFormed | abm_simulation/main.py:133-251 | the rounds still to run are well formed when all are |
| Driver.Statuses | abm_simulation/main.py:320-323 | one `get_state()` per agent |
| Driver.Areas | abm_simulation/main.py:306-310 | one area per resident |
| Driver.PopulationOf | abm_simulation/main.py:213-218 | the population holds each agent's state and each resident's area |
| Driver.StatesOf | abm_simulation/main.py:215-218 | the record keeps each agent's state, in order |
| Driver.Materialise | abm_simulation/main.py:211-228 | each record keeps its round's number and interactions and shows the agents' states as they are after the loop |
| Driver.ResidentEntryReads | abm_simulation/main.py:306-316 | the fairness calculation reads a resident's area, access, usage, satisfaction and income with the driver's defaults core_area, True, 5, 3.0 and 5000 |
| Driver.ResidentEntries | abm_simulation/main.py:306-316 | one fairness entry per resident |
| Driver.AgentScores | abm_simulation/metrics/agent_status.py:265-269 | three stakeholder scores |
| Driver.MetricsOf | abm_simulation/main.py:318-335 | the joint action rate and the stakeholder balance lie in [0, 1]; the trust density is never negative and at most 1 when no recorded interaction pairs an agent with itself; no records give zero resilience |
| Driver.MetricsIgnoreAgentStates | abm_simulation/main.py:320-324 | since the status metrics read `get_state()` dictionaries, residents score 3.0, 50 and 0 and enterprises 0.1, 50 and 90 whatever their states |
| Driver.Flatten | abm_simulation/main.py:301-304 | the loop builds all rounds' interactions, flattened in order |
| Driver.ResidentData | abm_simulation/main.py:306-316 | the loop builds exactly the residents' fairness entries |
| Driver.CalculateMetrics | abm_simulation/main.py:283-335 | the five metric groups of the flattened interactions, the records, the residents' entries and the agents' states |
| Driver.RunSimulation | abm_simulation/main.py:60-290 | the results hold the city, the rounds, the interventions, the recorded rounds and the metrics of those records |
| Driver.RunRecords | abm_simulation/main.py:230-251 | a round that completes before any interrupt appears in the results with its number |
| Driver.Winner | abm_simulation/main.py:362 | Beijing wins exactly when its value is strictly lower; otherwise Shenzhen |
| Driver.WinnerSwap | abm_simulation/main.py:362-367 | a tie goes to Shenzhen; with distinct values, swapping the cities swaps the winner |
| Driver.CompareCities | abm_simulation/main.py:355-369 | Beijing wins efficiency exactly when its average response time is lower, and fairness exactly when its access Gini is lower |

## Left out

- Language-model access: the model call is a parameter `llm` returning a `Result<string>`, and `json.loads` is a parameter `decode`. Prompt formatting, the API configuration loading and the template loading (`abm_simulation/simulation/agent.py:39-98`) are not modelled.
- Randomness: every random draw is a parameter (round draws, choice draws, environment draws, area draws). Predicates state the range each draw must lie in. The distributions themselves are not modelled.
- Floating point: IEEE doubles are modelled as `real`, so rounding is not modelled.
- AgentStatus.ResidentMetricsOf: reports the variance where the source reports `np.std`, because a square root is not available over `real`.
- AgentStatus.Overall: takes the standard deviation of the stakeholder scores as a parameter `spread`, required to satisfy `spread >= 0` and `spread * spread` equal to the variance, instead of computing it.
- AgentStatus.EqualScoresBalanced: shows only that a spread of 0 is admissible when the three scores are equal.
- Decimal parsing covers plain signed decimals, after stripping the six ASCII whitespace characters (`Common.IsSpace`) as `strip()` does. Exponents, `inf`, `nan`, underscores and other Unicode whitespace are not modelled; such text takes the error path.
- Policies.Shift: a text, table or list attribute is left unchanged, where Python raises `TypeError` and the error ends `apply_policy_interventions`. Modelling it would turn every policy branch into a fallible one.
- Dictionary values of the wrong kind: a value of another type is read as the key's default (`NumOr`, `TextOr`, `LengthOr`), where Python would raise `TypeError` or compute with it.
- `hasattr` tests in the engines are taken as always true, because every modelled agent has the attributes they look for.
- Aliasing between agents is excluded by the distinctness requirements of the engine methods; the source does not guard against it.
- Logging: `simulation/logger.py` and every logging call are not part of this model.
- Driver I/O: configuration loading, result saving, menus and console input/output in `abm_simulation/main.py` are not modelled.
- Demo scripts and package `__init__.py` files are not part of this model.
- Driver.RunRounds: the body of one round is given as its outcome. Agent decisions, interaction processing and the environment update are modelled as their own members but are not composed inside the loop.
- Driver.RunSimulation: receives the agent population as it stands after the loop. Round records hold references to the agents' state dictionaries, so the model records final states.
- The empty-metrics fallback of the driver when a calculator raises is not modelled, because every metric function is total over the typed records.
- Collaboration.CalculateCollaboration: the trust density is the source's formula, so its bound of 1 is promised only when no trust-building interaction pairs an agent with itself (see "## Findings").
- Driver.MetricsOf: the round records are inputs, so the no-self-pair condition of the trust-density bound stays a hypothesis. The engine meets it for information sharing (`Interactions.ResResidentDistinct`), but the driver does not compose the engine.
- Where the written description of the system and the code disagree, the model follows the code. For example, the conflict rate can reach 2, and the late window holds the last ceil(n/3) rounds.

## Findings

| source | as written | input that shows it | evidently intended | confidence | as-written member | corrected member |
|---|---|---|---|---|---|---|
| abm_simulation/metrics/collaboration.py:237-257 | a successful two-participant interaction of an agent with itself adds the pair (a, a) to the trust network, while the denominator n(n-1) counts only distinct pairs | one round with a successful interaction between a and b and a successful interaction between a and a gives density 1.5 | the trust density lies in [0, 1] and counts only distinct pairs | not executed | Collaboration.SelfPairInflatesDensity | Collaboration.TrustDensityBounds |
