/**
 * The two shapes of a CloudHealth perspective.
 *
 * The wire shape is the service's "perspective schema" payload: ordered rules
 * that point at groups by ref_id, and constant blocks of three kinds whose
 * items are the groups themselves (Static Group, Dynamic Group Block) or the
 * children of a Dynamic Group Block (Dynamic Group, linked back through blk_id).
 *
 * The flat shape is what the Terraform provider keeps in its state: an ordered
 * list of groups, each with its own rules and (for categorize groups) children,
 * plus the catch-all constants ("other groups") kept verbatim.
 *
 * Go slices are modelled as sequences: the encoder's omitempty writes neither a
 * nil nor an empty slice, and the flat state reads an absent list as empty, so
 * the two are one value here. Go pointers (a rule's condition, an item's
 * blk_id) are Options, because absent and present-but-empty differ.
 */
module Perspective {
  import opened Wrappers

  // ---------------------------------------------------------------------------
  // Constant kinds

  /** The three kinds of constant block the service knows. */
  datatype ConstantKind = StaticGroup | DynamicGroup | DynamicGroupBlock

  /** The name of a kind as it is written in a block's `type` on the wire. */
  function KindName(k: ConstantKind): string
  {
    match k
    case StaticGroup => "Static Group"
    case DynamicGroup => "Dynamic Group"
    case DynamicGroupBlock => "Dynamic Group Block"
  }

  /**
   * The kind a name denotes: the exporter's by-kind table looked up by name.
   * The lookup succeeds exactly on the three kind names, and undoes KindName.
   */
  function ParseKind(s: string): (r: Option<ConstantKind>)
    ensures r.Some? ==> KindName(r.value) == s
    ensures r.None? <==> (forall k: ConstantKind :: KindName(k) != s)
  {
    if s == "Static Group" then Some(StaticGroup)
    else if s == "Dynamic Group" then Some(DynamicGroup)
    else if s == "Dynamic Group Block" then Some(DynamicGroupBlock)
    else None
  }

  /** The three kind names are pairwise distinct, so a kind is determined by its name. */
  lemma KindNameInjective(a: ConstantKind, b: ConstantKind)
    ensures KindName(a) == KindName(b) <==> a == b
    ensures ParseKind(KindName(a)) == Some(a)
  {
  }

  /** The position of a kind in the exporter's fixed block order. */
  function KindRank(k: ConstantKind): nat
  {
    match k
    case StaticGroup => 0
    case DynamicGroup => 1
    case DynamicGroupBlock => 2
  }

  /** Group and rule types of the flat state. */
  const FilterType: string := "filter"
  const CategorizeType: string := "categorize"

  // ---------------------------------------------------------------------------
  // Wire shape

  /** One clause of a rule's condition. */
  datatype ClauseJson = ClauseJson(field: seq<string>, tagField: seq<string>, op: string, val: string)

  /** A rule's condition: how the clauses combine, and the clauses. */
  datatype ConditionJson = ConditionJson(combineWith: string, clauses: seq<ClauseJson>)

  /**
   * A rule. A filter rule names its group in `to`, a categorize rule in
   * `refId`; both targets exist on every rule.
   */
  datatype RuleJson = RuleJson(
    ruleType: string,
    asset: string,
    to: string,
    refId: string,
    field: seq<string>,
    tagField: seq<string>,
    condition: Option<ConditionJson>)

  /**
   * An item of a constant block. `blkId` is the back-reference of a Dynamic
   * Group item to its owning Dynamic Group Block; None (absent) and Some("")
   * are different states.
   */
  datatype ConstantItem = ConstantItem(refId: string, blkId: Option<string>, name: string, val: string, isOther: string)

  /** A constant block: its kind and its items. */
  datatype ConstantJson = ConstantJson(kind: ConstantKind, list: seq<ConstantItem>)

  /**
   * The schema record: exactly these five fields. `includeInReports` is a
   * string on the wire, not a boolean; merges are not supported and are kept
   * as opaque entries.
   */
  datatype Schema = Schema(
    name: string,
    includeInReports: string,
    rules: seq<RuleJson>,
    constants: seq<ConstantJson>,
    merges: seq<string>)

  /** The whole payload: `{"schema": ...}`. */
  datatype PerspectiveJson = PerspectiveJson(schema: Schema)

  /** A fresh constant block of kind t, with no items yet. */
  function NewConstantJson(t: ConstantKind): (c: ConstantJson)
    ensures c.kind == t && c.list == []
  {
    ConstantJson(t, [])
  }

  // ---------------------------------------------------------------------------
  // Flat shape

  /** A clause of a flat rule's condition list. */
  datatype Clause = Clause(field: seq<string>, tagField: seq<string>, op: string, val: string)

  /**
   * A flat rule. It has no target (it belongs to the group that holds it);
   * `ruleType` is "filter" or "categorize".
   */
  datatype Rule = Rule(
    ruleType: string,
    asset: string,
    field: seq<string>,
    tagField: seq<string>,
    combineWith: string,
    conditions: seq<Clause>)

  /** A child of a categorize group: one Dynamic Group item. */
  datatype DynamicChild = DynamicChild(name: string, val: string, refId: string)

  /** A flat group. */
  datatype Group = Group(
    name: string,
    refId: string,
    groupType: string,
    rules: seq<Rule>,
    children: seq<DynamicChild>)

  /** A catch-all constant kept verbatim, with the name of its block's kind. */
  datatype OtherGroup = OtherGroup(
    constantType: string,
    refId: string,
    name: string,
    val: string,
    isOther: string,
    blkId: Option<string>)

  /**
   * The flat state of one perspective resource. `name` is "" when unset;
   * `includeInReports` is None when it was never set.
   */
  datatype FlatState = FlatState(
    name: string,
    includeInReports: Option<bool>,
    groups: seq<Group>,
    otherGroups: seq<OtherGroup>)
}
