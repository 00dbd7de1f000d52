/** The per-round record the simulation keeps and the metrics read. */
module Rounds {
  import opened Common
  import opened Records
  import EnvironmentModel

  /** The decisions a round keeps for review: the government's, and the first enterprise and
      resident decisions. */
  datatype DecisionsSample = DecisionsSample(government: Decision, enterprises: seq<Decision>, residents: seq<Decision>)

  /** One round record: its number, its interactions, the environment's state after the round,
      the agents' state dictionaries and the decision sample. The record holds references to the
      agents' state dictionaries, so whoever reads it sees the states as they are at that time. */
  datatype RoundRecord = RoundRecord(
    round: nat,
    interactions: seq<Interaction>,
    environment: EnvironmentModel.EnvSnapshot,
    government: map<string, Value>,
    enterprises: seq<map<string, Value>>,
    residents: seq<map<string, Value>>,
    sample: DecisionsSample)

  /** `for record in records: all_interactions.extend(record.get('interactions', []))` */
  function AllInteractions(records: seq<RoundRecord>): seq<Interaction> {
    if records == [] then [] else AllInteractions(records[..|records| - 1]) + records[|records| - 1].interactions
  }

  /** The number of interactions of all rounds, record by record. */
  function TotalInteractions(records: seq<RoundRecord>): nat {
    if records == [] then 0 else TotalInteractions(records[..|records| - 1]) + |records[|records| - 1].interactions|
  }

  /** The interactions passing `p`, counted record by record and summed. */
  function SumCounts(records: seq<RoundRecord>, p: Interaction -> bool): nat {
    if records == [] then 0 else SumCounts(records[..|records| - 1], p) + Count(records[|records| - 1].interactions, p)
  }

  /** The flattened list is as long as all rounds' lists together. */
  lemma {:induction false} AllInteractionsLength(records: seq<RoundRecord>)
    ensures |AllInteractions(records)| == TotalInteractions(records)
  {
    if records != [] {
      AllInteractionsLength(records[..|records| - 1]);
    }
  }

  /** Counting round by round and summing is counting over the flattened list. */
  lemma {:induction false} SumCountsFlattened(records: seq<RoundRecord>, p: Interaction -> bool)
    ensures SumCounts(records, p) == Count(AllInteractions(records), p)
  {
    if records != [] {
      var init := records[..|records| - 1];
      SumCountsFlattened(init, p);
      CountAppend(AllInteractions(init), records[|records| - 1].interactions, p);
    }
  }

  /** A per-round count never exceeds the number of interactions. */
  lemma SumCountsBound(records: seq<RoundRecord>, p: Interaction -> bool)
    ensures SumCounts(records, p) <= TotalInteractions(records)
  {
    SumCountsFlattened(records, p);
    AllInteractionsLength(records);
  }
}
