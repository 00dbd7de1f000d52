/** Governance collaboration: how often information is shared, how many actions are joint, how
    many interactions end in conflict, how cooperative the rounds are, how dense the network of
    trust between agents is, and how much each kind of stakeholder takes part. */
module Collaboration {
  import opened Common
  import opened Records
  import opened Rounds
  import Agents
  import Decimal
  import Interactions

  datatype CollaborationMetrics = CollaborationMetrics(
    sharingFrequency: real,
    jointActionRate: real,
    conflictRate: real,
    cooperationIndex: real,
    trustDensity: real)

  /** `calculate_collaboration`; no records give all five metrics 0. The trust density is the
      one the source computes, which stays within [0, 1] only while no trust-building
      interaction pairs an agent with itself (see `SelfPairInflatesDensity`). */
  function CalculateCollaboration(records: seq<RoundRecord>): (r: CollaborationMetrics)
    ensures records == [] ==> r == CollaborationMetrics(0.0, 0.0, 0.0, 0.0, 0.0)
    ensures 0.0 <= r.jointActionRate <= 1.0 && 0.0 <= r.conflictRate <= 2.0
    ensures r.trustDensity == TrustDensityAsWritten(records) && 0.0 <= r.trustDensity
    ensures NoSelfPairs(AllInteractions(records)) ==> r.trustDensity == TrustDensity(records) <= 1.0
  {
    TrustDensityAgrees(records);
    if records == [] then CollaborationMetrics(0.0, 0.0, 0.0, 0.0, 0.0)
    else CollaborationMetrics(SharingFrequency(records), JointActionRate(records), ConflictRate(records),
                              CooperationIndex(records), TrustDensityAsWritten(records))
  }

  // ---------------------------------------------------------------------------
  // Information sharing

  /** The three types that count as cross-department sharing. */
  predicate IsSharingEvent(x: Interaction) {
    x.kind == "data_sharing" || x.kind == "information_exchange" || x.kind == "coordination"
  }

  /** `calculate_information_sharing_frequency`: sharing interactions per round. */
  function SharingFrequency(records: seq<RoundRecord>): (r: real)
    ensures records == [] ==> r == 0.0
    ensures records != [] ==> r == (Count(AllInteractions(records), IsSharingEvent) as real) / (|records| as real)
  {
    SumCountsFlattened(records, IsSharingEvent);
    if records == [] then 0.0 else (SumCounts(records, IsSharingEvent) as real) / (|records| as real)
  }

  /** The residents' own `information_sharing` records are not among the counted types. */
  lemma ResidentSharingNotCounted(a: Agents.Profile, b: Agents.Profile)
    ensures !IsSharingEvent(Interactions.Sharing(a, b))
  {
    var x := Interactions.Sharing(a, b);
    assert x.kind == "information_sharing";
    assert x.kind[0] == 'i' && x.kind[2] == 'f';
  }

  // ---------------------------------------------------------------------------
  // Joint action

  predicate IsJointKind(kind: string) {
    kind == "joint_project" || kind == "collaborative_service" || kind == "multi_agency_response" || kind == "partnership"
  }

  /** More than one participant and one of the four joint types. */
  predicate IsJointAction(x: Interaction) { |x.participants| > 1 && IsJointKind(x.kind) }

  /** `calculate_joint_action_rate`: joint actions over all interactions, 0 without interactions. */
  function JointActionRate(records: seq<RoundRecord>): (r: real)
    ensures 0.0 <= r <= 1.0
    ensures TotalInteractions(records) == 0 ==> r == 0.0
    ensures r == Ratio(Count(AllInteractions(records), IsJointAction), |AllInteractions(records)|)
  {
    SumCountsBound(records, IsJointAction);
    SumCountsFlattened(records, IsJointAction);
    AllInteractionsLength(records);
    Ratio(SumCounts(records, IsJointAction), TotalInteractions(records))
  }

  // ---------------------------------------------------------------------------
  // Conflict

  predicate ConflictOutcome(x: Interaction) {
    x.outcome == "conflict" || x.outcome == "disagreement" || x.outcome == "failed_negotiation"
  }

  /** A regulation whose `compliance` is explicitly false; a missing field counts as compliant. */
  predicate RegulatoryConflict(x: Interaction) {
    x.kind == Interactions.RegulationTag && x.compliance == Some(false)
  }

  /** Each interaction adds one for a conflict outcome and one more for a regulatory conflict. */
  function Conflicts(records: seq<RoundRecord>): nat {
    SumCounts(records, ConflictOutcome) + SumCounts(records, RegulatoryConflict)
  }

  /** `calculate_conflict_rate`: conflicts over interactions, 0 without interactions. An
      interaction can count twice, so the rate can reach 2. */
  function ConflictRate(records: seq<RoundRecord>): (r: real)
    ensures 0.0 <= r <= 2.0
    ensures TotalInteractions(records) == 0 ==> r == 0.0
  {
    SumCountsBound(records, ConflictOutcome);
    SumCountsBound(records, RegulatoryConflict);
    RatioAtMostTwice(Conflicts(records), TotalInteractions(records));
    Ratio(Conflicts(records), TotalInteractions(records))
  }

  lemma RatioAtMostTwice(a: nat, b: nat)
    requires a <= 2 * b
    ensures Ratio(a, b) <= 2.0
  {
    if b > 0 {
      assert (a as real) <= 2.0 * (b as real);
    }
  }

  /** When no interaction is both a conflict outcome and a regulatory conflict, the rate is a
      fraction. */
  lemma ConflictRateAtMostOne(records: seq<RoundRecord>)
    requires forall x :: x in AllInteractions(records) ==> !(ConflictOutcome(x) && RegulatoryConflict(x))
    ensures ConflictRate(records) <= 1.0
  {
    var all := AllInteractions(records);
    SumCountsFlattened(records, ConflictOutcome);
    SumCountsFlattened(records, RegulatoryConflict);
    AllInteractionsLength(records);
    CountDisjoint(all, ConflictOutcome, RegulatoryConflict);
  }

  /** A lone regulation that ends in conflict without compliance counts twice: the rate is 2. */
  lemma DoubleCountedConflict(rec: RoundRecord)
    requires |rec.interactions| == 1
    requires ConflictOutcome(rec.interactions[0]) && RegulatoryConflict(rec.interactions[0])
    ensures ConflictRate([rec]) == 2.0
  {
    var xs := rec.interactions;
    assert [rec][..0] == [];
    assert xs[..0] == [];
    assert Count(xs, ConflictOutcome) == 1 && Count(xs, RegulatoryConflict) == 1;
    assert SumCounts([rec], ConflictOutcome) == 1 && SumCounts([rec], RegulatoryConflict) == 1;
    assert TotalInteractions([rec]) == 1;
    assert Conflicts([rec]) == 2;
  }

  /** The simulation's regulation records end in "success" or "violation", so they never count
      twice: they are regulatory conflicts exactly when they end in violation. */
  lemma RegulationCountedOnce(ent: Agents.Profile, rules: RuleGroup, draw: real)
    ensures var x := Interactions.Regulation(ent, rules, draw);
      !ConflictOutcome(x) && (RegulatoryConflict(x) <==> x.outcome == "violation")
  {
    var x := Interactions.Regulation(ent, rules, draw);
    assert x.outcome == "success" || x.outcome == "violation";
  }

  // ---------------------------------------------------------------------------
  // Cooperation

  /** The outcome table: 1 for success, mutual benefit or win-win, 0.7 for a partial success or
      compromise, 0.1 for conflict or failure, 0.5 for anything else. */
  function OutcomeScore(outcome: string): real {
    if outcome == "success" || outcome == "mutual_benefit" || outcome == "win_win" then 1.0
    else if outcome == "partial_success" || outcome == "compromise" then 0.7
    else if outcome == "neutral" || outcome == "no_change" then 0.5
    else if outcome == "conflict" || outcome == "failed" then 0.1
    else 0.5
  }

  predicate IsCooperativeKind(kind: string) {
    kind == "data_sharing" || kind == "joint_project" || kind == "collaboration"
      || kind == "partnership" || kind == "mutual_support"
  }

  /** The outcome's score, plus 0.2 (capped at 1) for a cooperative type. */
  function CooperationScore(x: Interaction): (s: real)
    ensures 0.1 <= s <= 1.0
  {
    var base := OutcomeScore(x.outcome);
    if IsCooperativeKind(x.kind) then Min(1.0, base + 0.2) else base
  }

  /** The mean score of the round's interactions; 0.5 for a round without any. */
  function RoundCooperation(rec: RoundRecord): (s: real)
    ensures 0.1 <= s <= 1.0
  {
    var xs := rec.interactions;
    if xs == [] then 0.5
    else
      MapBounds(xs, CooperationScore, 0.1, 1.0);
      MeanBounds(MapSeq(xs, CooperationScore), 0.1, 1.0);
      Mean(MapSeq(xs, CooperationScore))
  }

  /** `calculate_cooperation_index`: the mean of the round scores. */
  function CooperationIndex(records: seq<RoundRecord>): (r: real)
    ensures records == [] ==> r == 0.0
    ensures records != [] ==> 0.1 <= r <= 1.0
  {
    if records == [] then 0.0
    else
      MapBounds(records, RoundCooperation, 0.1, 1.0);
      MeanBounds(MapSeq(records, RoundCooperation), 0.1, 1.0);
      Mean(MapSeq(records, RoundCooperation))
  }

  /** Rounds whose interactions all succeed score 1. */
  lemma SuccessfulRoundCooperates(rec: RoundRecord)
    requires rec.interactions != [] && forall j :: 0 <= j < |rec.interactions| ==> IsSuccess(rec.interactions[j])
    ensures RoundCooperation(rec) == 1.0
  {
    var xs := rec.interactions;
    forall x | x in xs ensures CooperationScore(x) == 1.0 {
      var j :| 0 <= j < |xs| && xs[j] == x;
    }
    MapBounds(xs, CooperationScore, 1.0, 1.0);
    MeanBounds(MapSeq(xs, CooperationScore), 1.0, 1.0);
  }

  /** A run in which every round has interactions and every interaction succeeds has index 1. */
  lemma FullCooperation(records: seq<RoundRecord>)
    requires records != []
    requires forall i :: 0 <= i < |records| ==> records[i].interactions != []
    requires forall i, j :: 0 <= i < |records| && 0 <= j < |records[i].interactions| ==> IsSuccess(records[i].interactions[j])
    ensures CooperationIndex(records) == 1.0
  {
    forall rec | rec in records ensures RoundCooperation(rec) == 1.0 {
      var i :| 0 <= i < |records| && records[i] == rec;
      SuccessfulRoundCooperates(rec);
    }
    MapBounds(records, RoundCooperation, 1.0, 1.0);
    MeanBounds(MapSeq(records, RoundCooperation), 1.0, 1.0);
  }

  /** A run without any interaction is neutral: every round scores 0.5, and so does the index. */
  lemma QuietRunIsNeutral(records: seq<RoundRecord>)
    requires records != [] && forall i :: 0 <= i < |records| ==> records[i].interactions == []
    ensures CooperationIndex(records) == 0.5
  {
    forall rec | rec in records ensures RoundCooperation(rec) == 0.5 {
      var i :| 0 <= i < |records| && records[i] == rec;
    }
    MapBounds(records, RoundCooperation, 0.5, 0.5);
    MeanBounds(MapSeq(records, RoundCooperation), 0.5, 0.5);
  }

  // ---------------------------------------------------------------------------
  // Trust network

  type Pair = (string, string)

  predicate PositiveOutcome(outcome: string) {
    outcome == "success" || outcome == "mutual_benefit" || outcome == "win_win"
  }

  /** Exactly two participants and a positive outcome. */
  predicate BuildsTrust(x: Interaction) { |x.participants| == 2 && PositiveOutcome(x.outcome) }

  /** The agents one interaction names. */
  function Names(x: Interaction): set<string> { set p | p in x.participants }

  /** Every agent named as a participant. */
  function Participants(xs: seq<Interaction>): set<string> {
    if xs == [] then {} else Participants(xs[..|xs| - 1]) + Names(xs[|xs| - 1])
  }

  /** The relations both orders of a trust-building pair add, as the source adds them. */
  function PairsOf(x: Interaction): set<Pair> {
    if BuildsTrust(x) then {(x.participants[0], x.participants[1]), (x.participants[1], x.participants[0])} else {}
  }

  lemma NetworkStep(ys: seq<Interaction>, x: Interaction)
    ensures Participants(ys + [x]) == Participants(ys) + Names(x)
    ensures TrustPairsAsWritten(ys + [x]) == TrustPairsAsWritten(ys) + PairsOf(x)
    ensures TrustPairs(ys + [x]) == TrustPairs(ys) + DistinctPairsOf(x)
  {
    assert (ys + [x])[..|ys|] == ys;
  }

  /** The relation set as the source builds it: both orders of every trust-building pair,
      including an agent paired with itself. */
  function TrustPairsAsWritten(xs: seq<Interaction>): set<Pair> {
    if xs == [] then {}
    else
      TrustPairsAsWritten(xs[..|xs| - 1]) + PairsOf(xs[|xs| - 1])
  }

  /** The relation set of a directed graph without self-loops: as above, but an interaction of an
      agent with itself adds nothing. */
  function TrustPairs(xs: seq<Interaction>): set<Pair> {
    if xs == [] then {}
    else
      TrustPairs(xs[..|xs| - 1]) + DistinctPairsOf(xs[|xs| - 1])
  }

  /** The relations a trust-building pair of two distinct agents adds. */
  function DistinctPairsOf(x: Interaction): set<Pair> {
    if BuildsTrust(x) && x.participants[0] != x.participants[1] then PairsOf(x) else {}
  }

  /** `relationships / (n * (n - 1))`, 0 for fewer than two agents. */
  function Density(relationships: nat, agents: nat): real {
    if agents < 2 then 0.0 else Ratio(relationships, agents * (agents - 1))
  }

  /** `calculate_trust_network_density` as written. */
  function TrustDensityAsWritten(records: seq<RoundRecord>): real {
    var all := AllInteractions(records);
    if records == [] then 0.0 else Density(|TrustPairsAsWritten(all)|, |Participants(all)|)
  }

  /** No trust-building interaction pairs an agent with itself. */
  predicate NoSelfPairs(xs: seq<Interaction>) {
    forall i :: 0 <= i < |xs| && BuildsTrust(xs[i]) ==> xs[i].participants[0] != xs[i].participants[1]
  }

  /** The source's density is never negative, and without self-pairs it is the corrected one. */
  lemma TrustDensityAgrees(records: seq<RoundRecord>)
    ensures 0.0 <= TrustDensityAsWritten(records)
    ensures NoSelfPairs(AllInteractions(records)) ==> TrustDensityAsWritten(records) == TrustDensity(records)
  {
    var all := AllInteractions(records);
    if NoSelfPairs(all) {
      TrustPairsAgree(all);
    }
  }

  /** The trust density with self-pairs left out, which always lies in [0, 1]. */
  function TrustDensity(records: seq<RoundRecord>): (r: real)
    ensures 0.0 <= r <= 1.0
  {
    var all := AllInteractions(records);
    TrustDensityBounds(all);
    if records == [] then 0.0 else Density(|TrustPairs(all)|, |Participants(all)|)
  }

  /** The loop of `calculate_trust_network_density`: record by record, interaction by
      interaction, add every participant to the agents and both orders of every trust-building
      pair to the relations. */
  method BuildTrustNetwork(records: seq<RoundRecord>) returns (agents: set<string>, relations: set<Pair>)
    ensures agents == Participants(AllInteractions(records))
    ensures relations == TrustPairsAsWritten(AllInteractions(records))
  {
    agents, relations := {}, {};
    for i := 0 to |records|
      invariant agents == Participants(AllInteractions(records[..i]))
      invariant relations == TrustPairsAsWritten(AllInteractions(records[..i]))
    {
      var done := AllInteractions(records[..i]);
      var xs := records[i].interactions;
      assert done + xs[..0] == done;
      for j := 0 to |xs|
        invariant agents == Participants(done + xs[..j])
        invariant relations == TrustPairsAsWritten(done + xs[..j])
      {
        var x := xs[j];
        NetworkStep(done + xs[..j], x);
        PrefixStep(done, xs, j);
        agents := agents + Names(x);
        if BuildsTrust(x) {
          relations := relations + PairsOf(x);
        }
      }
      RoundStep(records, i);
    }
    assert records[..|records|] == records;
  }

  lemma PrefixStep(done: seq<Interaction>, xs: seq<Interaction>, j: nat)
    requires j < |xs|
    ensures done + xs[..j + 1] == (done + xs[..j]) + [xs[j]]
  {
    assert xs[..j + 1] == xs[..j] + [xs[j]];
  }

  lemma RoundStep(records: seq<RoundRecord>, i: nat)
    requires i < |records|
    ensures AllInteractions(records[..i + 1]) == AllInteractions(records[..i]) + records[i].interactions[..|records[i].interactions|]
  {
    assert records[..i + 1][..i] == records[..i];
    assert records[i].interactions[..|records[i].interactions|] == records[i].interactions;
  }

  /** Trust is mutual: every relation comes with its reverse. */
  lemma {:induction false} TrustPairsSymmetric(xs: seq<Interaction>)
    ensures forall a, b :: (a, b) in TrustPairsAsWritten(xs) ==> (b, a) in TrustPairsAsWritten(xs)
    ensures forall a, b :: (a, b) in TrustPairs(xs) ==> (b, a) in TrustPairs(xs)
  {
    if xs != [] {
      TrustPairsSymmetric(xs[..|xs| - 1]);
    }
  }

  /** The two relation sets agree when no trust-building interaction pairs an agent with itself. */
  lemma {:induction false} TrustPairsAgree(xs: seq<Interaction>)
    requires NoSelfPairs(xs)
    ensures TrustPairsAsWritten(xs) == TrustPairs(xs)
  {
    if xs != [] {
      TrustPairsAgree(xs[..|xs| - 1]);
    }
  }

  /** Ordered pairs of distinct members of `a`. */
  function OffDiagonal(a: set<string>): set<Pair> {
    set x, y | x in a && y in a && x != y :: (x, y)
  }

  function Row(x: string, s: set<string>): set<Pair> { set y | y in s :: (x, y) }

  function Column(x: string, s: set<string>): set<Pair> { set y | y in s :: (y, x) }

  lemma {:induction false} RowSize(x: string, s: set<string>)
    ensures |Row(x, s)| == |s|
  {
    if s != {} {
      var y :| y in s;
      RowSize(x, s - {y});
      assert Row(x, s) == Row(x, s - {y}) + {(x, y)};
    }
  }

  lemma {:induction false} ColumnSize(x: string, s: set<string>)
    ensures |Column(x, s)| == |s|
  {
    if s != {} {
      var y :| y in s;
      ColumnSize(x, s - {y});
      assert Column(x, s) == Column(x, s - {y}) + {(y, x)};
    }
  }

  /** A set of `n` agents has `n * (n - 1)` ordered pairs of distinct agents. */
  lemma {:induction false} OffDiagonalSize(a: set<string>)
    ensures |OffDiagonal(a)| == |a| * (|a| - 1)
  {
    if a == {} {
      assert OffDiagonal(a) == {};
    } else {
      var x :| x in a;
      var b := a - {x};
      OffDiagonalSize(b);
      RowSize(x, b);
      ColumnSize(x, b);
      OffDiagonalSplit(a, x);
      var d, r, c := OffDiagonal(b), Row(x, b), Column(x, b);
      DisjointUnionSize(d, r);
      DisjointUnionSize(d + r, c);
      PairCountStep(|a|, |b|, |d|, |OffDiagonal(a)|);
    }
  }

  /** The pairs of distinct members of `a` are those avoiding `x`, plus those starting at `x`,
      plus those ending at `x`; the three parts are disjoint. */
  lemma OffDiagonalSplit(a: set<string>, x: string)
    requires x in a
    ensures OffDiagonal(a) == OffDiagonal(a - {x}) + Row(x, a - {x}) + Column(x, a - {x})
    ensures OffDiagonal(a - {x}) * Row(x, a - {x}) == {}
    ensures (OffDiagonal(a - {x}) + Row(x, a - {x})) * Column(x, a - {x}) == {}
  {
    var b := a - {x};
    forall p | p in OffDiagonal(a) ensures p in OffDiagonal(b) + Row(x, b) + Column(x, b) {
      if p.0 != x && p.1 != x {
        assert p in OffDiagonal(b);
      }
    }
  }

  lemma DisjointUnionSize<T>(s: set<T>, t: set<T>)
    requires s * t == {}
    ensures |s + t| == |s| + |t|
  {
  }

  lemma PairCountStep(n: int, m: int, inner: int, total: int)
    requires n == m + 1 && inner == m * (m - 1) && total == inner + m + m
    ensures total == n * (n - 1)
  {
  }

  lemma SubsetSize<T>(a: set<T>, b: set<T>)
    requires a <= b
    ensures |a| <= |b|
  {
    assert b == a + (b - a);
  }

  lemma {:induction false} ParticipantsGrow(xs: seq<Interaction>, k: nat)
    requires k <= |xs|
    ensures Participants(xs[..k]) <= Participants(xs)
    decreases |xs|
  {
    if k < |xs| {
      ParticipantsGrow(xs[..|xs| - 1], k);
      assert xs[..|xs| - 1][..k] == xs[..k];
    } else {
      assert xs[..k] == xs;
    }
  }

  /** Every corrected relation joins two distinct participants. */
  lemma {:induction false} TrustPairsWithinParticipants(xs: seq<Interaction>)
    ensures TrustPairs(xs) <= OffDiagonal(Participants(xs))
  {
    if xs != [] {
      var init := xs[..|xs| - 1];
      var x := xs[|xs| - 1];
      TrustPairsWithinParticipants(init);
      var before, after := Participants(init), Participants(xs);
      assert before <= after;
      forall p | p in OffDiagonal(before) ensures p in OffDiagonal(after) {
        assert p.0 in after && p.1 in after;
      }
      if BuildsTrust(x) && x.participants[0] != x.participants[1] {
        assert x.participants[0] in after && x.participants[1] in after;
        assert (x.participants[0], x.participants[1]) in OffDiagonal(after);
        assert (x.participants[1], x.participants[0]) in OffDiagonal(after);
      }
    }
  }

  /** The corrected density never exceeds 1. */
  lemma TrustDensityBounds(xs: seq<Interaction>)
    ensures 0.0 <= Density(|TrustPairs(xs)|, |Participants(xs)|) <= 1.0
  {
    TrustPairsWithinParticipants(xs);
    SubsetSize(TrustPairs(xs), OffDiagonal(Participants(xs)));
    OffDiagonalSize(Participants(xs));
  }

  /** Two agents, one successful exchange between them and one "exchange" of the first with
      itself: the source's density is 3 / 2, the corrected density 1. */
  lemma SelfPairInflatesDensity(rec: RoundRecord, a: string, b: string)
    requires a != b && |rec.interactions| == 2
    requires rec.interactions[0].participants == [a, b] && rec.interactions[1].participants == [a, a]
    requires IsSuccess(rec.interactions[0]) && IsSuccess(rec.interactions[1])
    ensures TrustDensityAsWritten([rec]) == 1.5
    ensures TrustDensity([rec]) == 1.0
  {
    var xs := rec.interactions;
    assert [rec][..0] == [];
    assert AllInteractions([rec]) == xs;
    SelfPairNetwork(xs[0], xs[1], a, b);
    assert xs == [xs[0], xs[1]];
    assert |{a, b}| == 2;
    assert |{(a, b), (b, a), (a, a)}| == 3;
    assert |{(a, b), (b, a)}| == 2;
    assert TrustDensityAsWritten([rec]) == Density(3, 2) == Ratio(3, 2);
    assert TrustDensity([rec]) == Density(2, 2) == Ratio(2, 2);
  }

  /** The network of the two exchanges above: the source's relation holds the self-pair, the
      corrected one does not. */
  lemma SelfPairNetwork(x0: Interaction, x1: Interaction, a: string, b: string)
    requires a != b && x0.participants == [a, b] && x1.participants == [a, a]
    requires IsSuccess(x0) && IsSuccess(x1)
    ensures Participants([x0, x1]) == {a, b}
    ensures TrustPairsAsWritten([x0, x1]) == {(a, b), (b, a), (a, a)}
    ensures TrustPairs([x0, x1]) == {(a, b), (b, a)}
  {
    assert [x0, x1] == [x0] + [x1];
    assert [x0] == [] + [x0];
    NetworkStep([], x0);
    NetworkStep([x0], x1);
    ExchangeOfTwo(x0, a, b);
    ExchangeWithItself(x1, a);
  }

  lemma ExchangeOfTwo(x: Interaction, a: string, b: string)
    requires a != b && x.participants == [a, b] && IsSuccess(x)
    ensures Names(x) == {a, b}
    ensures PairsOf(x) == DistinctPairsOf(x) == {(a, b), (b, a)}
  {
    assert x.participants[0] == a && x.participants[1] == b;
  }

  lemma ExchangeWithItself(x: Interaction, a: string)
    requires x.participants == [a, a] && IsSuccess(x)
    ensures Names(x) == {a}
    ensures PairsOf(x) == {(a, a)} && DistinctPairsOf(x) == {}
  {
    assert x.participants[0] == a && x.participants[1] == a;
  }

  // ---------------------------------------------------------------------------
  // Stakeholder engagement

  const GovernmentType := "government"
  const EnterpriseType := "enterprise"
  const ResidentType := "resident"

  datatype Engagement = Engagement(government: real, enterprise: real, resident: real)

  /** `participant.split('_')[0]` */
  function TypeOf(participant: string): string { PrefixBefore(participant, '_') }

  function OfType(kind: string): string -> bool { (p: string) => TypeOf(p) == kind }

  /** How often agents of the kind appear among the participants of the interactions. */
  function Mentions(xs: seq<Interaction>, kind: string): nat {
    if xs == [] then 0 else Mentions(xs[..|xs| - 1], kind) + Count(xs[|xs| - 1].participants, OfType(kind))
  }

  /** Mentions per interaction in one round; 0 for a round without interactions. */
  function RoundEngagement(rec: RoundRecord, kind: string): real {
    Ratio(Mentions(rec.interactions, kind), |rec.interactions|)
  }

  /** The mean over rounds of the round engagement of the kind. */
  function EngagementOf(records: seq<RoundRecord>, kind: string): real {
    if records == [] then 0.0
    else Mean(seq(|records|, i requires 0 <= i < |records| => RoundEngagement(records[i], kind)))
  }

  /** `calculate_stakeholder_engagement` */
  function StakeholderEngagement(records: seq<RoundRecord>): (e: Engagement)
    ensures records == [] ==> e == Engagement(0.0, 0.0, 0.0)
  {
    Engagement(EngagementOf(records, GovernmentType), EngagementOf(records, EnterpriseType),
               EngagementOf(records, ResidentType))
  }

  /** The type of an id is the part before its first underscore. */
  lemma {:induction false} TypeOfPrefixed(kind: string, rest: string)
    requires '_' !in kind
    ensures TypeOf(kind + "_" + rest) == kind
  {
    if kind != [] {
      assert (kind + "_" + rest)[1..] == kind[1..] + "_" + rest;
      TypeOfPrefixed(kind[1..], rest);
    }
  }

  /** The simulation's ids are typed as intended: the government, `enterprise_<i>` and
      `resident_<i>`. */
  lemma AgentIdTypes(i: nat)
    ensures TypeOf(Interactions.GovernmentId) == GovernmentType
    ensures TypeOf(Agents.AgentId(Agents.EnterprisePrefix, i)) == EnterpriseType
    ensures TypeOf(Agents.AgentId(Agents.ResidentPrefix, i)) == ResidentType
  {
    var digits := Decimal.NatToString(i);
    assert Agents.AgentId(Agents.EnterprisePrefix, i) == EnterpriseType + "_" + digits;
    assert Agents.AgentId(Agents.ResidentPrefix, i) == ResidentType + "_" + digits;
    TypeOfPrefixed(EnterpriseType, digits);
    TypeOfPrefixed(ResidentType, digits);
  }

  /** A round in which every interaction names exactly one agent of the kind engages that kind
      fully. */
  lemma {:induction false} OneMentionEach(xs: seq<Interaction>, kind: string)
    requires forall i :: 0 <= i < |xs| ==> Count(xs[i].participants, OfType(kind)) == 1
    ensures Mentions(xs, kind) == |xs|
  {
    if xs != [] {
      OneMentionEach(xs[..|xs| - 1], kind);
    }
  }

  lemma FullEngagement(rec: RoundRecord, kind: string)
    requires rec.interactions != []
    requires forall i :: 0 <= i < |rec.interactions| ==> Count(rec.interactions[i].participants, OfType(kind)) == 1
    ensures RoundEngagement(rec, kind) == 1.0
  {
    OneMentionEach(rec.interactions, kind);
  }
}
