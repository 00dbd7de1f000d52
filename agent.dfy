/** The three kinds of agent: their construction from the configuration, their fallback decisions,
    the extraction of a JSON decision from a model reply, the decision history and `update_state`.
    The language-model call and the JSON decoder are parameters. */
module Agents {
  import opened Common
  import opened Records
  import opened Decimal

  datatype Role = Government | Enterprise | Resident | Generic(name: string)

  /** The `type` string an agent carries. */
  function RoleName(role: Role): string {
    match role
    case Government => "government"
    case Enterprise => "enterprise"
    case Resident => "resident"
    case Generic(name) => name
  }

  /** One role's entry of the agents configuration: `initial_state` and `attributes`. */
  datatype AgentConfig = AgentConfig(initialState: map<string, Value>, attributes: map<string, Value>)

  datatype AgentsConfig = AgentsConfig(government: AgentConfig, enterprise: AgentConfig, resident: AgentConfig)

  /** One entry of an agent's `interaction_history`; `error` is present exactly on fallback entries. */
  datatype HistoryEntry = HistoryEntry(context: map<string, Value>, decision: Decision, timestamp: nat, error: Option<string>)
  {
    predicate Fallback() { error.Some? }
  }

  /** What the engines and the metrics read of an agent: `agent_id` and `area` (either may be
      missing), and the `attributes` and `state` dictionaries. */
  datatype Profile = Profile(id: Option<string>, area: Option<string>, attributes: map<string, Value>, state: map<string, Value>)

  /** `get_state()`: the type, copies of both dictionaries and the number of history entries. */
  datatype Status = Status(kind: string, attributes: map<string, Value>, state: map<string, Value>, interactionCount: nat)

  // ---------------------------------------------------------------------------
  // Keys and texts

  const Literacy := "information_literacy"
  const Income := "income_level"
  const Satisfaction := "satisfaction"
  const UsageFrequency := "service_usage_frequency"
  const Innovation := "innovation_level"
  const Transparency := "information_transparency"
  const Compliance := "data_usage_compliance"

  const Beijing := "beijing"
  const Shenzhen := "shenzhen"

  const EnterprisePrefix := "enterprise_"
  const ResidentPrefix := "resident_"

  // ---------------------------------------------------------------------------
  // Construction

  /** `GovernmentAgent.__init__`: Beijing prefers fairness with platform regulation 95, Shenzhen
      prefers efficiency with transparency 85; any other city keeps the configuration. */
  function GovernmentAttributes(attributes: map<string, Value>, city: string): (r: map<string, Value>)
    ensures city == Beijing ==> TextOr(r, "governance_preference", "") == "fairness" && NumOr(r, "platform_regulation", 0.0) == 95.0
    ensures city == Shenzhen ==> TextOr(r, "governance_preference", "") == "efficiency" && NumOr(r, Transparency, 0.0) == 85.0
    ensures city != Beijing && city != Shenzhen ==> r == attributes
    ensures attributes.Keys <= r.Keys
  {
    if city == Beijing then
      attributes["governance_preference" := Text("fairness")]["platform_regulation" := Number(95.0)]
    else if city == Shenzhen then
      attributes["governance_preference" := Text("efficiency")][Transparency := Number(85.0)]
    else attributes
  }

  /** `EnterpriseAgent.__init__`: Beijing enterprises run government projects and collect data
      compliantly, Shenzhen ones are market driven and flexible. */
  function EnterpriseAttributes(attributes: map<string, Value>, city: string): (r: map<string, Value>)
    ensures city == Beijing ==> TextOr(r, "data_collection_strategy", "") == "compliant"
    ensures city == Shenzhen ==> TextOr(r, "data_collection_strategy", "") == "flexible"
    ensures city != Beijing && city != Shenzhen ==> r == attributes
    ensures attributes.Keys <= r.Keys
  {
    if city == Beijing then
      attributes["technology_type" := Text("government_project")]["data_collection_strategy" := Text("compliant")]
    else if city == Shenzhen then
      attributes["technology_type" := Text("market_driven")]["data_collection_strategy" := Text("flexible")]
    else attributes
  }

  /** `ResidentAgent.__init__`: fringe residents lose 20 literacy points (floor 30) and 1500 income
      (floor 3000), rural ones 30 points (floor 20) and 2500 income (floor 2000), read with the
      defaults 60 and 5000; core residents keep their configuration. */
  function AreaAdjusted(attributes: map<string, Value>, areaType: string): (r: map<string, Value>)
    ensures attributes.Keys <= r.Keys
    ensures forall k :: k in attributes && k != Literacy && k != Income ==> r[k] == attributes[k]
  {
    var lit := NumOr(attributes, Literacy, 60.0);
    var inc := NumOr(attributes, Income, 5000.0);
    if areaType == FringeArea then
      attributes[Literacy := Number(Max(30.0, lit - 20.0))][Income := Number(Max(3000.0, inc - 1500.0))]
    else if areaType == RuralArea then
      attributes[Literacy := Number(Max(20.0, lit - 30.0))][Income := Number(Max(2000.0, inc - 2500.0))]
    else attributes
  }

  /** Each adjustment respects its floor, a core resident is not adjusted, and a rural resident
      never ends above a fringe resident built from the same configuration. */
  lemma AreaAdjustmentOrder(attributes: map<string, Value>)
    ensures AreaAdjusted(attributes, CoreArea) == attributes
    ensures NumOr(AreaAdjusted(attributes, FringeArea), Literacy, 0.0) >= 30.0
    ensures NumOr(AreaAdjusted(attributes, FringeArea), Income, 0.0) >= 3000.0
    ensures NumOr(AreaAdjusted(attributes, RuralArea), Literacy, 0.0) >= 20.0
    ensures NumOr(AreaAdjusted(attributes, RuralArea), Income, 0.0) >= 2000.0
    ensures NumOr(AreaAdjusted(attributes, RuralArea), Literacy, 0.0) <= NumOr(AreaAdjusted(attributes, FringeArea), Literacy, 0.0)
    ensures NumOr(AreaAdjusted(attributes, RuralArea), Income, 0.0) <= NumOr(AreaAdjusted(attributes, FringeArea), Income, 0.0)
  {
  }

  /** The fringe adjustment lowers a value only when it starts above its floor: a configured
      literacy of at least 30 (income of at least 3000) never rises. */
  lemma FringeNeverRaises(attributes: map<string, Value>)
    requires NumOr(attributes, Literacy, 60.0) >= 30.0 && NumOr(attributes, Income, 5000.0) >= 3000.0
    ensures NumOr(AreaAdjusted(attributes, FringeArea), Literacy, 0.0) <= NumOr(attributes, Literacy, 60.0)
    ensures NumOr(AreaAdjusted(attributes, FringeArea), Income, 0.0) <= NumOr(attributes, Income, 5000.0)
  {
  }

  // ---------------------------------------------------------------------------
  // Fallback decisions

  /** The draws behind a fallback decision: the index `random.choice` picks among three actions and
      the unit draw behind `random.uniform(2.0, 4.0)`. */
  datatype ChoiceDraw = ChoiceDraw(index: nat, unit: real)

  predicate ValidChoice(d: ChoiceDraw) { d.index < 3 && 0.0 <= d.unit <= 1.0 }

  /** The actions a role's fallback decision chooses from. */
  function FallbackActions(role: Role): (r: seq<string>)
    ensures |r| == (if role.Generic? then 1 else 3)
  {
    match role
    case Government => ["service_provision", "policy_adjustment", "regulation"]
    case Enterprise => ["service_development", "market_expansion", "innovation"]
    case Resident => ["use_service", "provide_feedback", "seek_information"]
    case Generic(_) => ["no_action"]
  }

  /** Whom a role's fallback decision addresses. */
  function FallbackTarget(role: Role): string {
    match role
    case Government => "residents"
    case Enterprise => "residents"
    case Resident => "government"
    case Generic(_) => "none"
  }

  const GovernmentReason := "Government default action"
  const GenericReason := "System fallback due to parsing error"

  /** `_get_default_decision` of each role. */
  function FallbackDecision(role: Role, d: ChoiceDraw): (r: Decision)
    requires ValidChoice(d)
    ensures r.action.Some? && r.action.value in FallbackActions(role)
    ensures r.target == Some(FallbackTarget(role))
    ensures role == Resident ==>
      Satisfaction in r.details && r.details[Satisfaction].Number? && 2.0 <= r.details[Satisfaction].number <= 4.0
  {
    match role
    case Government =>
      Decision(Some(FallbackActions(role)[d.index]), Some("residents"),
        map["reason" := Text(GovernmentReason), "expected_outcome" := Text("maintain_stability")])
    case Enterprise =>
      Decision(Some(FallbackActions(role)[d.index]), Some("residents"),
        map["data_usage" := Text("compliant"), "innovation_focus" := Text("user_experience")])
    case Resident =>
      Decision(Some(FallbackActions(role)[d.index]), Some("government"),
        map[Satisfaction := Number(2.0 + 2.0 * d.unit), "concern" := Text("service_quality")])
    case Generic(_) =>
      Decision(Some("no_action"), Some("none"), map["reason" := Text(GenericReason)])
  }

  // ---------------------------------------------------------------------------
  // Reply parsing

  const Fence := "```"
  const JsonFence := "```json"

  /** The JSON text `_parse_response` hands to the decoder, or None where it raises "No JSON found".
      After a "```json" marker it takes the trimmed text up to the next fence; when no fence
      follows, `find` returns -1 and the slice stops before the last character. Otherwise it
      takes the text from the first '{' to the last '}'. */
  function ExtractJson(response: string): Option<string> {
    var t := Strip(response);
    match Find(t, JsonFence, 0)
    case Some(p) => Some(Fenced(t, p + |JsonFence|))
    case None => Braced(t)
  }

  /** The trimmed text from `start` up to the next fence, or up to the last character. */
  function Fenced(t: string, start: nat): string {
    var end := match Find(t, Fence, start) case Some(e) => e case None => if |t| > 0 then |t| - 1 else 0;
    Strip(Slice(t, start, end))
  }

  /** The text from the first '{' through the last '}', or None when either is missing. */
  function Braced(t: string): Option<string> {
    match (Find(t, "{", 0), RFind(t, '}'))
    case (Some(a), Some(b)) => Some(Slice(t, a, b + 1))
    case _ => None
  }

  /** "No JSON found" is raised only when the trimmed reply has no "```json" marker and lacks an
      opening brace or a closing one. */
  lemma ExtractJsonNone(response: string)
    ensures ExtractJson(response).None? <==>
      Find(Strip(response), JsonFence, 0).None? && (Find(Strip(response), "{", 0).None? || RFind(Strip(response), '}').None?)
  {
  }

  /** Without a "```json" marker the extracted text, when not empty, runs from a '{' to a '}'. */
  lemma ExtractJsonBraced(response: string)
    requires Find(Strip(response), JsonFence, 0).None?
    requires ExtractJson(response).Some?
    ensures var v := ExtractJson(response).value; v == [] || (v[0] == '{' && v[|v| - 1] == '}')
  {
    var t := Strip(response);
    assert ExtractJson(response) == Braced(t);
    var a := Find(t, "{", 0).value;
    var b := RFind(t, '}').value;
    assert t[a..a + 1][0] == t[a];
    BracedSlice(t, a, b);
  }

  /** A slice from a '{' through a '}' is empty or starts and ends with them. */
  lemma BracedSlice(t: string, a: nat, b: nat)
    requires a < |t| && t[a] == '{' && b < |t| && t[b] == '}'
    ensures var v := Slice(t, a, b + 1); v == [] || (v[0] == '{' && v[|v| - 1] == '}')
  {
    if a <= b {
      assert Slice(t, a, b + 1) == t[a..b + 1];
    }
  }

  /** `s.find(pat, start)` is `k` when `pat` occurs at `k` and nowhere between `start` and `k`. */
  lemma {:induction false} FindAt(s: string, pat: string, start: nat, k: nat)
    requires start <= k && OccursAt(s, pat, k)
    requires forall j :: start <= j < k ==> !OccursAt(s, pat, j)
    ensures Find(s, pat, start) == Some(k)
    decreases k - start
  {
    if start < k {
      assert !OccursAt(s, pat, start);
      FindAt(s, pat, start + 1, k);
    }
  }

  /** A pattern whose first character does not occur in `s` is not found in it. */
  lemma NotFound(s: string, pat: string)
    requires pat != [] && pat[0] !in s
    ensures Find(s, pat, 0).None?
  {
    forall j: nat | j + |pat| <= |s| ensures !OccursAt(s, pat, j) {
      assert s[j..j + |pat|][0] == s[j];
    }
  }

  /** A reply that is a fenced JSON block gives back the trimmed block body. */
  lemma ExtractFenced(body: string)
    requires '`' !in body
    ensures ExtractJson(JsonFence + body + Fence) == Some(Strip(body))
  {
    var t := JsonFence + body + Fence;
    StripUnpadded(t);
    FenceOpens(body);
    FenceCloses(body);
    var start := |JsonFence|;
    var close := start + |body|;
    assert Slice(t, start, close) == body;
  }

  /** The marker is found at the start of a fenced block. */
  lemma FenceOpens(body: string)
    ensures Find(JsonFence + body + Fence, JsonFence, 0) == Some(0)
  {
    var t := JsonFence + body + Fence;
    assert t[0..|JsonFence|] == JsonFence;
    FindAt(t, JsonFence, 0, 0);
  }

  /** The first fence after the marker is the closing one when the body has no back-quote. */
  lemma FenceCloses(body: string)
    requires '`' !in body
    ensures Find(JsonFence + body + Fence, Fence, |JsonFence|) == Some(|JsonFence| + |body|)
  {
    FindInTail(JsonFence, body, Fence, Fence);
  }

  /** In `pre + body + post`, searching from the end of `pre` finds a pattern that starts `post`
      right after `body` when `body` lacks the pattern's first character. */
  lemma FindInTail(pre: string, body: string, post: string, pat: string)
    requires pat != [] && pat <= post && pat[0] !in body
    ensures Find(pre + body + post, pat, |pre|) == Some(|pre| + |body|)
  {
    var t := pre + body + post;
    var close := |pre| + |body|;
    assert t[close..] == post;
    assert t[close..close + |pat|] == post[..|pat|] == pat;
    forall j | |pre| <= j < close ensures !OccursAt(t, pat, j) {
      assert t[j] == body[j - |pre|];
      if j + |pat| <= |t| {
        assert t[j..j + |pat|][0] == t[j];
      }
    }
    FindAt(t, pat, |pre|, close);
  }

  /** A reply that is a bare braced object without back-quotes is handed over whole. */
  lemma ExtractBraced(s: string)
    requires |s| >= 2 && s[0] == '{' && s[|s| - 1] == '}' && '`' !in s
    ensures ExtractJson(s) == Some(s)
  {
    StripUnpadded(s);
    NotFound(s, JsonFence);
    assert s[0..1] == "{";
    FindAt(s, "{", 0, 0);
    assert Slice(s, 0, |s|) == s;
  }

  /** A reply with neither a "```json" marker nor an opening brace yields no JSON. */
  lemma ExtractNothing(response: string)
    requires '`' !in response && '{' !in response
    ensures ExtractJson(response) == None
  {
    var t := Strip(response);
    assert StripLeft(response) == response[|response| - |StripLeft(response)|..];
    assert forall c :: c in t ==> c in response;
    NotFound(t, JsonFence);
    NotFound(t, "{");
  }

  /** `_parse_response`: the decoded extracted text, or `fallback` when there is no JSON or it
      does not decode. */
  function ParseResponse(response: string, decode: string -> Option<Decision>, fallback: Decision): (r: Decision)
    ensures ExtractJson(response).None? ==> r == fallback
    ensures ExtractJson(response).Some? && decode(ExtractJson(response).value).Some? ==>
      r == decode(ExtractJson(response).value).value
  {
    match ExtractJson(response)
    case None => fallback
    case Some(text) =>
      match decode(text)
      case Some(d) => d
      case None => fallback
  }

  // ---------------------------------------------------------------------------
  // Prompt context

  const NormalConditions := "Normal operating conditions"
  const NoRecentInteractions := "No recent interactions"
  const BasicServices := "Basic digital services"
  const LimitedData := "Limited public data"

  /** The twelve prompt variables `_add_missing_variables` supplies, with their defaults. */
  function PromptDefaults(areaType: string): (r: seq<(string, Value)>)
    ensures |r| == 12
  {
    [("environment_context", Text(NormalConditions)),
     ("recent_interactions", Text(NoRecentInteractions)),
     ("service_quality", Number(3.5)),
     ("privacy_level", Text("Medium")),
     ("infrastructure_level", Number(70.0)),
     ("available_services", Text(BasicServices)),
     ("usage_frequency", Number(5.0)),
     ("regulation_intensity", Text("Medium")),
     ("available_data", Text(LimitedData)),
     ("market_conditions", Text("Stable")),
     ("competition_level", Text("Medium")),
     ("area_type", Text(areaType))]
  }

  /** The context after the defaults `ds` are offered in order, each added only when its key is
      still missing. */
  function WithDefaults(ctx: map<string, Value>, ds: seq<(string, Value)>): map<string, Value> {
    if ds == [] then ctx
    else
      var m := WithDefaults(ctx, ds[..|ds| - 1]);
      var last := ds[|ds| - 1];
      if last.0 in m then m else m[last.0 := last.1]
  }

  /** Supplying defaults keeps every existing entry, makes every default key present, and adds
      nothing else: a key that was missing carries the value of a default offered for it. */
  lemma {:induction false} WithDefaultsSpec(ctx: map<string, Value>, ds: seq<(string, Value)>)
    ensures forall k :: k in ctx ==> k in WithDefaults(ctx, ds) && WithDefaults(ctx, ds)[k] == ctx[k]
    ensures forall i :: 0 <= i < |ds| ==> ds[i].0 in WithDefaults(ctx, ds)
    ensures forall k :: k in WithDefaults(ctx, ds) && k !in ctx ==>
      exists i :: 0 <= i < |ds| && ds[i].0 == k && WithDefaults(ctx, ds)[k] == ds[i].1
  {
    if ds != [] {
      var init := ds[..|ds| - 1];
      WithDefaultsSpec(ctx, init);
      var m := WithDefaults(ctx, init);
      forall k | k in WithDefaults(ctx, ds) && k !in ctx
        ensures exists i :: 0 <= i < |ds| && ds[i].0 == k && WithDefaults(ctx, ds)[k] == ds[i].1
      {
        if k in m {
          var i :| 0 <= i < |init| && init[i].0 == k && m[k] == init[i].1;
          assert ds[i] == init[i];
        } else {
          assert ds[|ds| - 1].0 == k;
        }
      }
      forall i | 0 <= i < |ds| ensures ds[i].0 in WithDefaults(ctx, ds) {
        if i < |init| { assert ds[i] == init[i]; }
      }
    }
  }

  /** `_add_missing_variables`: offers each prompt default in order, adding it only when the key
      is missing. */
  method AddMissingVariables(ctx: map<string, Value>, areaType: string) returns (r: map<string, Value>)
    ensures r == WithDefaults(ctx, PromptDefaults(areaType))
  {
    var ds := PromptDefaults(areaType);
    r := ctx;
    for k := 0 to |ds|
      invariant r == WithDefaults(ctx, ds[..k])
    {
      assert ds[..k + 1][..k] == ds[..k];
      var key := ds[k].0;
      if key !in r {
        r := r[key := ds[k].1];
      }
    }
    assert ds[..|ds|] == ds;
  }

  /** The prompt context of `decide`: the city, then the attributes, the state and the round
      context, each overriding the earlier ones. */
  function PromptContext(city: string, attributes: map<string, Value>, state: map<string, Value>, context: map<string, Value>): (r: map<string, Value>)
    ensures r.Keys == {"city"} + attributes.Keys + state.Keys + context.Keys
    ensures forall k :: k in context ==> r[k] == context[k]
  {
    map["city" := Text(city)] + attributes + state + context
  }

  /** The outcome of one `decide`: the decision and the error text recorded on a fallback. The
      model call receives the completed prompt context; its failure (including a prompt that does
      not format) gives the role's fallback decision, and so does a reply without decodable JSON,
      though without the fallback mark. */
  function Decided(role: Role, prompt: map<string, Value>, llm: map<string, Value> -> Result<string>,
                   decode: string -> Option<Decision>, draw: ChoiceDraw): (r: (Decision, Option<string>))
    requires ValidChoice(draw)
    ensures llm(prompt).Err? ==> r == (FallbackDecision(role, draw), Some(llm(prompt).error))
    ensures llm(prompt).Ok? ==> r.1.None?
  {
    match llm(prompt)
    case Ok(reply) => (ParseResponse(reply, decode, FallbackDecision(role, draw)), None)
    case Err(e) => (FallbackDecision(role, draw), Some(e))
  }

  // ---------------------------------------------------------------------------
  // update_state

  /** The `type` and `outcome` keys of an action result ("neutral" when `outcome` is missing). */
  datatype ActionResult = ActionResult(kind: Option<string>, outcome: string)

  /** The attributes after `update_state`: learning raises literacy by 5, at most to 100. */
  function AttributesAfter(attributes: map<string, Value>, res: ActionResult): map<string, Value> {
    if res.kind == Some("learning") then
      attributes[Literacy := Number(Min(100.0, NumOr(attributes, Literacy, 60.0) + 5.0))]
    else attributes
  }

  /** The state after `update_state`: service use raises the usage frequency by 1 (cap 10),
      innovation raises the innovation level by 10 (cap 100); success raises satisfaction by 0.2
      (cap 5) and 'failure' lowers it by 0.2 (floor 1). */
  function StateAfter(state: map<string, Value>, res: ActionResult): map<string, Value> {
    var s :=
      if res.kind == Some("service_use") then state[UsageFrequency := Number(Min(10.0, NumOr(state, UsageFrequency, 5.0) + 1.0))]
      else if res.kind == Some("innovation") then state[Innovation := Number(Min(100.0, NumOr(state, Innovation, 50.0) + 10.0))]
      else state;
    if res.outcome == "success" then s[Satisfaction := Number(Min(5.0, NumOr(s, Satisfaction, 3.0) + 0.2))]
    else if res.outcome == "failure" then s[Satisfaction := Number(Max(1.0, NumOr(s, Satisfaction, 3.0) - 0.2))]
    else s
  }

  /** A satisfaction between 1 and 5 (or missing, read as 3) stays between 1 and 5; success never
      lowers it, 'failure' never raises it, and any other outcome leaves it as it was. */
  lemma SatisfactionStep(state: map<string, Value>, res: ActionResult)
    requires 1.0 <= NumOr(state, Satisfaction, 3.0) <= 5.0
    ensures 1.0 <= NumOr(StateAfter(state, res), Satisfaction, 3.0) <= 5.0
    ensures res.outcome == "success" ==> NumOr(StateAfter(state, res), Satisfaction, 3.0) >= NumOr(state, Satisfaction, 3.0)
    ensures res.outcome == "failure" ==> NumOr(StateAfter(state, res), Satisfaction, 3.0) <= NumOr(state, Satisfaction, 3.0)
    ensures res.outcome != "success" && res.outcome != "failure" ==>
      (Satisfaction in StateAfter(state, res) <==> Satisfaction in state)
      && (Satisfaction in state ==> StateAfter(state, res)[Satisfaction] == state[Satisfaction])
  {
  }

  /** Capped counters stay capped: literacy, usage frequency and innovation never pass their caps
      once within them, and each only rises. */
  lemma CountersCapped(attributes: map<string, Value>, state: map<string, Value>, res: ActionResult)
    requires NumOr(attributes, Literacy, 60.0) <= 100.0
    requires NumOr(state, UsageFrequency, 5.0) <= 10.0 && NumOr(state, Innovation, 50.0) <= 100.0
    ensures NumOr(attributes, Literacy, 60.0) <= NumOr(AttributesAfter(attributes, res), Literacy, 60.0) <= 100.0
    ensures NumOr(state, UsageFrequency, 5.0) <= NumOr(StateAfter(state, res), UsageFrequency, 5.0) <= 10.0
    ensures NumOr(state, Innovation, 50.0) <= NumOr(StateAfter(state, res), Innovation, 50.0) <= 100.0
  {
  }

  // ---------------------------------------------------------------------------
  // The agent object

  /** The mutable fields of an agent. */
  datatype AgentFields = AgentFields(
    attributes: map<string, Value>,
    state: map<string, Value>,
    behaviorModifiers: map<string, real>,
    policyModifiers: map<string, map<string, real>>,
    history: seq<HistoryEntry>)

  /** The fields of a list of agents. */
  function FieldsOf(agents: seq<Agent>): seq<AgentFields>
    reads agents
  {
    seq(|agents|, i requires 0 <= i < |agents| reads agents => agents[i].Fields())
  }

  /** The engines update each agent object once: no agent appears twice in the population. */
  predicate Separate(gov: Agent, ents: seq<Agent>, res: seq<Agent>) {
    && NoDuplicates(ents) && NoDuplicates(res) && gov !in ents && gov !in res
    && (forall i :: 0 <= i < |ents| ==> ents[i] !in res)
    && (forall j :: 0 <= j < |res| ==> res[j] !in ents)
  }

  class Agent {
    const role: Role
    const city: string
    /** `area` and `area_type`, which a resident always has and which always agree. */
    const area: Option<string>
    /** `agent_id`, which `create_agents` sets right after construction; the government has none. */
    const agentId: Option<string>
    var attributes: map<string, Value>
    var state: map<string, Value>
    /** Created empty by the first resident policy that reaches the agent. */
    var behaviorModifiers: map<string, real>
    /** Created empty by the first government-enterprise policy. */
    var policyModifiers: map<string, map<string, real>>
    var history: seq<HistoryEntry>

    constructor Government(config: AgentConfig, city: string, id: Option<string>)
      ensures role == Role.Government && this.city == city && area == None && agentId == id
      ensures attributes == GovernmentAttributes(config.attributes, city) && state == config.initialState
      ensures behaviorModifiers == map[] && policyModifiers == map[] && history == []
    {
      role := Role.Government;
      this.city := city;
      area := None;
      agentId := id;
      attributes := GovernmentAttributes(config.attributes, city);
      state := config.initialState;
      behaviorModifiers := map[];
      policyModifiers := map[];
      history := [];
    }

    constructor Enterprise(config: AgentConfig, city: string, id: Option<string>)
      ensures role == Role.Enterprise && this.city == city && area == None && agentId == id
      ensures attributes == EnterpriseAttributes(config.attributes, city) && state == config.initialState
      ensures behaviorModifiers == map[] && policyModifiers == map[] && history == []
    {
      role := Role.Enterprise;
      this.city := city;
      area := None;
      agentId := id;
      attributes := EnterpriseAttributes(config.attributes, city);
      state := config.initialState;
      behaviorModifiers := map[];
      policyModifiers := map[];
      history := [];
    }

    constructor Resident(config: AgentConfig, city: string, id: Option<string>, areaType: string)
      ensures role == Role.Resident && this.city == city && area == Some(areaType) && agentId == id
      ensures attributes == AreaAdjusted(config.attributes, areaType) && state == config.initialState
      ensures behaviorModifiers == map[] && policyModifiers == map[] && history == []
    {
      role := Role.Resident;
      this.city := city;
      area := Some(areaType);
      agentId := id;
      attributes := AreaAdjusted(config.attributes, areaType);
      state := config.initialState;
      behaviorModifiers := map[];
      policyModifiers := map[];
      history := [];
    }

    /** What the engines and metrics read of this agent. */
    function Snapshot(): Profile
      reads this
    {
      Profile(agentId, area, attributes, state)
    }

    /** Every mutable field of this agent, as one value. */
    function Fields(): AgentFields
      reads this
    {
      AgentFields(attributes, state, behaviorModifiers, policyModifiers, history)
    }

    /** `get_state()` */
    function GetState(): (r: Status)
      reads this
      ensures r.interactionCount == |history|
      ensures r.kind == RoleName(role) && r.attributes == attributes && r.state == state
    {
      Status(RoleName(role), attributes, state, |history|)
    }

    /** The area `_add_missing_variables` reports: the resident's area, else core_area. */
    function AreaType(): string
      reads this
    {
      area.GetOr(CoreArea)
    }

    /** `decide`: builds the prompt context, asks the model, and appends exactly one history
        entry stamped with the history length beforehand. */
    method Decide(context: map<string, Value>, llm: map<string, Value> -> Result<string>,
                  decode: string -> Option<Decision>, draw: ChoiceDraw)
      returns (decision: Decision)
      requires ValidChoice(draw)
      modifies this`history
      ensures var prompt := WithDefaults(PromptContext(city, attributes, state, context), PromptDefaults(AreaType()));
        var (d, err) := Decided(role, prompt, llm, decode, draw);
        decision == d && history == old(history) + [HistoryEntry(context, d, |old(history)|, err)]
    {
      var prompt := AddMissingVariables(PromptContext(city, attributes, state, context), AreaType());
      match llm(prompt)
      case Ok(reply) =>
        decision := ParseResponse(reply, decode, FallbackDecision(role, draw));
        history := history + [HistoryEntry(context, decision, |history|, None)];
      case Err(e) =>
        decision := FallbackDecision(role, draw);
        history := history + [HistoryEntry(context, decision, |history|, Some(e))];
    }

    /** `update_state` */
    method UpdateState(res: ActionResult)
      modifies this`attributes, this`state
      ensures attributes == AttributesAfter(old(attributes), res)
      ensures state == StateAfter(old(state), res)
    {
      if res.kind == Some("learning") {
        attributes := attributes[Literacy := Number(Min(100.0, NumOr(attributes, Literacy, 60.0) + 5.0))];
      } else if res.kind == Some("service_use") {
        state := state[UsageFrequency := Number(Min(10.0, NumOr(state, UsageFrequency, 5.0) + 1.0))];
      } else if res.kind == Some("innovation") {
        state := state[Innovation := Number(Min(100.0, NumOr(state, Innovation, 50.0) + 10.0))];
      }
      if res.outcome == "success" {
        state := state[Satisfaction := Number(Min(5.0, NumOr(state, Satisfaction, 3.0) + 0.2))];
      } else if res.outcome == "failure" {
        state := state[Satisfaction := Number(Max(1.0, NumOr(state, Satisfaction, 3.0) - 0.2))];
      }
    }
  }

  /** The `decide` of a history entry records whether it fell back: it does exactly when the
      model call failed, and the stamp counts the entries before it. */
  lemma DecideFallsBackOnError(role: Role, prompt: map<string, Value>, llm: map<string, Value> -> Result<string>,
                               decode: string -> Option<Decision>, draw: ChoiceDraw)
    requires ValidChoice(draw)
    ensures Decided(role, prompt, llm, decode, draw).1.Some? <==> llm(prompt).Err?
    ensures llm(prompt).Err? ==> Decided(role, prompt, llm, decode, draw).0.target == Some(FallbackTarget(role))
  {
  }

  // ---------------------------------------------------------------------------
  // create_agents

  /** `f"enterprise_{i}"`, `f"resident_{i}"` */
  function AgentId(prefix: string, i: nat): string {
    prefix + NatToString(i)
  }

  /** Ids built from one prefix are distinct for distinct numbers. */
  lemma AgentIdInjective(prefix: string, i: nat, j: nat)
    requires AgentId(prefix, i) == AgentId(prefix, j)
    ensures i == j
  {
    assert AgentId(prefix, i)[|prefix|..] == NatToString(i);
    assert AgentId(prefix, j)[|prefix|..] == NatToString(j);
    NatToStringInjective(i, j);
  }

  /** No enterprise id is a resident id, and neither is "government". */
  lemma AgentIdsApart(i: nat, j: nat)
    ensures AgentId(EnterprisePrefix, i) != AgentId(ResidentPrefix, j)
    ensures AgentId(EnterprisePrefix, i) != "government" && AgentId(ResidentPrefix, j) != "government"
  {
    assert AgentId(EnterprisePrefix, i)[0] == 'e';
    assert AgentId(ResidentPrefix, j)[0] == 'r';
  }

  /** `create_agents`: one government, `numEnterprises` enterprises numbered from 0 and
      `numResidents` residents numbered from 0, each resident in the area its draw picks. */
  method CreateAgents(config: AgentsConfig, city: string, numEnterprises: nat, numResidents: nat, areaDraws: seq<nat>)
    returns (government: Agent, enterprises: seq<Agent>, residents: seq<Agent>)
    requires |areaDraws| == numResidents && forall i :: 0 <= i < |areaDraws| ==> areaDraws[i] < 3
    ensures fresh(government) && government.role == Role.Government && government.city == city
    ensures government.attributes == GovernmentAttributes(config.government.attributes, city)
    ensures government.state == config.government.initialState && government.history == []
    ensures |enterprises| == numEnterprises && |residents| == numResidents
    ensures forall i :: 0 <= i < |enterprises| ==> (fresh(enterprises[i]) && enterprises[i].role == Role.Enterprise
      && enterprises[i].agentId == Some(AgentId(EnterprisePrefix, i))
      && enterprises[i].attributes == EnterpriseAttributes(config.enterprise.attributes, city)
      && enterprises[i].state == config.enterprise.initialState && enterprises[i].history == [])
    ensures forall i :: 0 <= i < |residents| ==> (fresh(residents[i]) && residents[i].role == Role.Resident
      && residents[i].agentId == Some(AgentId(ResidentPrefix, i))
      && residents[i].area == Some(Areas[areaDraws[i]])
      && residents[i].attributes == AreaAdjusted(config.resident.attributes, Areas[areaDraws[i]])
      && residents[i].state == config.resident.initialState && residents[i].history == [])
    ensures Separate(government, enterprises, residents)
  {
    government := new Agent.Government(config.government, city, None);
    enterprises := MakeEnterprises(config.enterprise, city, numEnterprises);
    residents := MakeResidents(config.resident, city, areaDraws);
  }

  /** The enterprise loop of `create_agents`: `n` fresh enterprises numbered from 0. */
  method MakeEnterprises(config: AgentConfig, city: string, n: nat) returns (enterprises: seq<Agent>)
    ensures |enterprises| == n && NoDuplicates(enterprises)
    ensures forall i :: 0 <= i < n ==> (fresh(enterprises[i]) && enterprises[i].role == Role.Enterprise
      && enterprises[i].agentId == Some(AgentId(EnterprisePrefix, i))
      && enterprises[i].attributes == EnterpriseAttributes(config.attributes, city)
      && enterprises[i].state == config.initialState && enterprises[i].history == [])
  {
    enterprises := [];
    for i := 0 to n
      invariant |enterprises| == i && NoDuplicates(enterprises)
      invariant forall j :: 0 <= j < i ==> (fresh(enterprises[j]) && enterprises[j].role == Role.Enterprise
        && enterprises[j].agentId == Some(AgentId(EnterprisePrefix, j))
        && enterprises[j].attributes == EnterpriseAttributes(config.attributes, city)
        && enterprises[j].state == config.initialState && enterprises[j].history == [])
    {
      var e := new Agent.Enterprise(config, city, Some(AgentId(EnterprisePrefix, i)));
      enterprises := enterprises + [e];
    }
  }

  /** The resident loop of `create_agents`: one fresh resident per area draw, numbered from 0. */
  method MakeResidents(config: AgentConfig, city: string, areaDraws: seq<nat>) returns (residents: seq<Agent>)
    requires forall i :: 0 <= i < |areaDraws| ==> areaDraws[i] < 3
    ensures |residents| == |areaDraws| && NoDuplicates(residents)
    ensures forall i :: 0 <= i < |residents| ==> (fresh(residents[i]) && residents[i].role == Role.Resident
      && residents[i].agentId == Some(AgentId(ResidentPrefix, i))
      && residents[i].area == Some(Areas[areaDraws[i]])
      && residents[i].attributes == AreaAdjusted(config.attributes, Areas[areaDraws[i]])
      && residents[i].state == config.initialState && residents[i].history == [])
  {
    residents := [];
    for i := 0 to |areaDraws|
      invariant |residents| == i && NoDuplicates(residents)
      invariant forall j :: 0 <= j < i ==> (fresh(residents[j]) && residents[j].role == Role.Resident
        && residents[j].agentId == Some(AgentId(ResidentPrefix, j))
        && residents[j].area == Some(Areas[areaDraws[j]])
        && residents[j].attributes == AreaAdjusted(config.attributes, Areas[areaDraws[j]])
        && residents[j].state == config.initialState && residents[j].history == [])
    {
      var r := new Agent.Resident(config, city, Some(AgentId(ResidentPrefix, i)), Areas[areaDraws[i]]);
      residents := residents + [r];
    }
  }
}
