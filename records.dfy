/** The plain records the simulation passes between its parts: interaction records, agent
    decisions, interaction-rule tables, prompt-context values and the random draws of one round. */
module Records {
  import opened Common

  const CoreArea := "core_area"
  const FringeArea := "urban_rural_fringe"
  const RuralArea := "rural"

  /** The three areas in the order every per-area table uses. */
  const Areas: seq<string> := [CoreArea, FringeArea, RuralArea]

  predicate IsArea(a: string) { a == CoreArea || a == FringeArea || a == RuralArea }

  /** `outcome == 'success'` */
  predicate IsSuccess(i: Interaction) { i.outcome == "success" }

  /** One interaction record. `kind` is the `type` key ("" when absent) and `outcome` the
      `outcome` key ("neutral" when absent); the remaining keys are optional. */
  datatype Interaction = Interaction(
    kind: string,
    participants: seq<string>,
    outcome: string,
    effect: string,
    area: Option<string>,
    serviceType: Option<string>,
    compliance: Option<bool>,
    responseTime: Option<real>,
    recoveryTime: Option<real>,
    cost: Option<real>,
    resolved: Option<bool>,
    status: Option<string>)

  /** A record with the four keys every builder sets and no optional key. */
  function Basic(kind: string, participants: seq<string>, outcome: string, effect: string): (r: Interaction)
    ensures r.kind == kind && r.participants == participants && r.outcome == outcome && r.effect == effect
    ensures r.area.None? && r.serviceType.None? && r.compliance.None?
  {
    Interaction(kind, participants, outcome, effect, None, None, None, None, None, None, None, None)
  }

  /** `interaction.get('area', 'core_area')` */
  function AreaOf(i: Interaction): string {
    i.area.GetOr(CoreArea)
  }

  /** A value in a decision, a prompt context or a snapshot: text, a number, a boolean,
      a numeric table (area -> level), a nested mapping, or a list. */
  datatype Value =
    | Text(text: string)
    | Number(number: real)
    | Flag(flag: bool)
    | Table(table: map<string, real>)
    | Nested(fields: map<string, Value>)
    | Items(items: seq<Value>)

  /** Python truthiness: false, zero and empty containers are false. */
  predicate Truthy(v: Value) {
    match v {
      case Text(t) => t != []
      case Number(n) => n != 0.0
      case Flag(b) => b
      case Table(t) => |t| > 0
      case Nested(m) => |m| > 0
      case Items(xs) => xs != []
    }
  }

  /** `bool(d.get(key, False))` */
  predicate FlagOr(m: map<string, Value>, key: string) {
    key in m && Truthy(m[key])
  }

  /** `d.get(key, {})` where a mapping is expected. */
  function NestedOr(m: map<string, Value>, key: string): map<string, Value> {
    if key in m && m[key].Nested? then m[key].fields else map[]
  }

  /** `len(d.get(key, []))` where a list is expected. */
  function LengthOr(m: map<string, Value>, key: string): nat {
    if key in m && m[key].Items? then |m[key].items| else 0
  }

  /** `d.get(key, default)` where a number is expected; a value of another kind counts as absent. */
  function NumOr(m: map<string, Value>, key: string, default: real): real {
    if key in m && m[key].Number? then m[key].number else default
  }

  /** `d.get(key, default)` where text is expected; a value of another kind counts as absent. */
  function TextOr(m: map<string, Value>, key: string, default: string): string {
    if key in m && m[key].Text? then m[key].text else default
  }

  /** An agent's decision: the `action` and `target` keys the engine reads, and the rest. */
  datatype Decision = Decision(action: Option<string>, target: Option<string>, details: map<string, Value>)

  /** `decision.get('action', default)` */
  function ActionOr(d: Decision, default: string): string { d.action.GetOr(default) }

  /** One interaction rule: `probability` and `effect`, each optional. */
  datatype Rule = Rule(probability: Option<real>, effect: Option<string>)

  /** The rules of one pair class, keyed by interaction type. */
  type RuleGroup = map<string, Rule>

  /** The whole rule table, keyed by pair class (`government_enterprise`, ...). */
  type RuleTable = map<string, RuleGroup>

  /** `rules.get(name, {}).get('probability', default)` */
  function Probability(rules: RuleGroup, name: string, default: real): real {
    if name in rules then rules[name].probability.GetOr(default) else default
  }

  /** `rules.get(name, {}).get('effect', '')` */
  function EffectOf(rules: RuleGroup, name: string): string {
    if name in rules then rules[name].effect.GetOr("") else ""
  }

  /** `table.get(group, {})` */
  function GroupOf(table: RuleTable, group: string): RuleGroup {
    if group in table then table[group] else map[]
  }

  /** A change in a policy table: a number, or text such as "+20" or "-0.3". */
  datatype ChangeValue = Num(amount: real) | Str(text: string)

  /** One policy definition. `target` is "" when absent. The `attribute_change` table is split
      into its scalar entries and its two infrastructure sub-tables, which keep their order. */
  datatype PolicyConfig = PolicyConfig(
    target: string,
    attributeChange: map<string, ChangeValue>,
    digitalChange: Option<seq<(string, ChangeValue)>>,
    physicalChange: Option<seq<(string, ChangeValue)>>,
    behaviorChange: map<string, ChangeValue>,
    ruleChange: map<string, map<string, ChangeValue>>)

  /** The contract of `random.sample(population, k)` on positions: k distinct positions below n. */
  predicate IsSample(s: seq<nat>, k: nat, n: nat) {
    |s| == k && (forall j :: 0 <= j < |s| ==> s[j] < n) && NoDuplicates(s)
  }

  function MinNat(a: nat, b: nat): nat { if a <= b then a else b }
}
