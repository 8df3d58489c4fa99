/**
 * The exporter: the flat state becomes a perspective-schema payload.
 *
 * Missing group ref_ids are filled in from a supply of generated ids (the
 * filled-in groups are also what the provider persists). Then every group, in
 * order, contributes its Dynamic Group items (one per child), its rules
 * (routed to `to` or `ref_id` by their type) and one constant item in the
 * block its rule type selects; every other group is appended into the block
 * its stored type names. Empty blocks are dropped, merges are always empty.
 *
 * The three blocks are pointer-held in the Go code and reached through a
 * by-kind table; here the table is a map from kind to block value, which is
 * the only copy the loops update.
 */
module TfToJson {
  import opened Wrappers
  import opened Perspective
  import opened Seqs

  /**
   * Why an export failed. GroupWithoutRules stands for the place where the
   * Go code would dereference the missing block of a group without rules.
   */
  datatype ExportError =
    | NameRequired
    | RuleTypeNotSet
    | UnrecognizedRuleType(ruleType: string)
    | MixedRuleTypes
    | GroupWithoutRules(refId: string)
    | UnknownConstantType(constantType: string)

  /** strconv.FormatBool. */
  function FormatBool(b: bool): string
  {
    if b then "true" else "false"
  }

  // ---------------------------------------------------------------------------
  // fillInMissingRefIDs

  /**
   * The groups with every empty ref_id replaced by the next id of the supply;
   * `next` is the number of ids drawn so far.
   */
  function FilledIn(gs: seq<Group>, uuid: nat -> string, next: nat): seq<Group>
  {
    if gs == [] then []
    else if gs[0].refId == "" then [gs[0].(refId := uuid(next))] + FilledIn(gs[1..], uuid, next + 1)
    else [gs[0]] + FilledIn(gs[1..], uuid, next)
  }

  /** How many groups have no ref_id. */
  function MissingRefIds(gs: seq<Group>): nat
  {
    if gs == [] then 0 else (if gs[0].refId == "" then 1 else 0) + MissingRefIds(gs[1..])
  }

  /** The i-th group is filled with the id drawn after those of the groups before it. */
  function FilledAt(gs: seq<Group>, uuid: nat -> string, next: nat, i: nat): Group
    requires i < |gs|
  {
    if gs[i].refId == "" then gs[i].(refId := uuid(next + MissingRefIds(gs[..i]))) else gs[i]
  }

  lemma FilledInStep(gs: seq<Group>, uuid: nat -> string, next: nat, i: nat)
    requires i < |gs|
    ensures FilledIn(gs[i..], uuid, next) ==
      if gs[i].refId == "" then [gs[i].(refId := uuid(next))] + FilledIn(gs[i + 1..], uuid, next + 1)
      else [gs[i]] + FilledIn(gs[i + 1..], uuid, next)
  {
    assert gs[i..][0] == gs[i] && gs[i..][1..] == gs[i + 1..];
  }

  /**
   * fillInMissingRefIDs keeps the number and order of the groups, leaves a
   * non-empty ref_id alone and gives each empty one the next generated id.
   */
  lemma {:induction false} FilledInElements(gs: seq<Group>, uuid: nat -> string, next: nat)
    ensures |FilledIn(gs, uuid, next)| == |gs|
    ensures forall i :: 0 <= i < |gs| ==> FilledIn(gs, uuid, next)[i] == FilledAt(gs, uuid, next, i)
  {
    if gs != [] {
      var next' := if gs[0].refId == "" then next + 1 else next;
      var head := if gs[0].refId == "" then gs[0].(refId := uuid(next)) else gs[0];
      var rest := FilledIn(gs[1..], uuid, next');
      assert FilledIn(gs, uuid, next) == [head] + rest;
      FilledInElements(gs[1..], uuid, next');
      assert gs[..0] == [];
      forall i | 0 < i < |gs| ensures FilledIn(gs, uuid, next)[i] == FilledAt(gs, uuid, next, i) {
        FilledAtShift(gs, uuid, next, i);
      }
    }
  }

  /** Past the first group, filling in is filling in the rest with the supply advanced past the first. */
  lemma FilledAtShift(gs: seq<Group>, uuid: nat -> string, next: nat, i: nat)
    requires 0 < i < |gs|
    ensures FilledAt(gs, uuid, next, i) == FilledAt(gs[1..], uuid, if gs[0].refId == "" then next + 1 else next, i - 1)
  {
    assert gs[..i][1..] == gs[1..][..i - 1];
    assert MissingRefIds(gs[..i]) == (if gs[0].refId == "" then 1 else 0) + MissingRefIds(gs[1..][..i - 1]);
    assert gs[1..][i - 1] == gs[i];
  }

  /** With a supply of non-empty ids, no group is left without a ref_id. */
  lemma {:induction false} FilledInNoneMissing(gs: seq<Group>, uuid: nat -> string, next: nat)
    requires forall k :: uuid(k) != ""
    ensures forall g :: g in FilledIn(gs, uuid, next) ==> g.refId != ""
  {
    if gs != [] {
      FilledInNoneMissing(gs[1..], uuid, if gs[0].refId == "" then next + 1 else next);
    }
  }

  /** Filling in groups that all have a ref_id changes nothing, whatever the supply. */
  lemma {:induction false} FilledInComplete(gs: seq<Group>, uuid: nat -> string, next: nat)
    requires forall g :: g in gs ==> g.refId != ""
    ensures FilledIn(gs, uuid, next) == gs
  {
    if gs != [] {
      assert gs[0] in gs;
      assert forall g :: g in gs[1..] ==> g in gs;
      FilledInComplete(gs[1..], uuid, next);
    }
  }

  /** Filling in twice is filling in once, whatever the second supply. */
  lemma FilledInIdempotent(gs: seq<Group>, uuid: nat -> string, next: nat, uuid2: nat -> string, next2: nat)
    requires forall k :: uuid(k) != ""
    ensures FilledIn(FilledIn(gs, uuid, next), uuid2, next2) == FilledIn(gs, uuid, next)
  {
    FilledInNoneMissing(gs, uuid, next);
    FilledInComplete(FilledIn(gs, uuid, next), uuid2, next2);
  }

  /** One more group filled in: the filled prefix grows by it and the supply advances past its id. */
  lemma FilledInPrefixStep(done: seq<Group>, orig: seq<Group>, uuid: nat -> string, next: nat, i: nat)
    requires i < |orig| && done + FilledIn(orig[i..], uuid, next) == FilledIn(orig, uuid, 0)
    ensures var g := if orig[i].refId == "" then orig[i].(refId := uuid(next)) else orig[i];
      (done + [g]) + FilledIn(orig[i + 1..], uuid, if orig[i].refId == "" then next + 1 else next) == FilledIn(orig, uuid, 0)
  {
    FilledInStep(orig, uuid, next, i);
  }

  /**
   * fillInMissingRefIDs: each group with an empty ref_id gets a generated id,
   * in place. The other groups are not consulted; `generated` counts the ids
   * drawn from the supply, which stands for the UUID generator.
   */
  method FillInMissingRefIds(groups: array<Group>, otherGroups: seq<OtherGroup>, uuid: nat -> string)
    modifies groups
    ensures groups[..] == FilledIn(old(groups[..]), uuid, 0)
  {
    ghost var orig := groups[..];
    var generated := 0;
    assert orig[0..] == orig;
    for i := 0 to groups.Length
      invariant groups.Length == |orig|
      invariant groups[i..] == orig[i..]
      invariant groups[..i] + FilledIn(orig[i..], uuid, generated) == FilledIn(orig, uuid, 0)
    {
      var g := groups[i];
      assert g == orig[i] by { assert groups[i..][0] == orig[i..][0]; }
      ghost var done := groups[..i];
      ghost var generated0 := generated;
      if g.refId == "" {
        groups[i] := g.(refId := uuid(generated));
        generated := generated + 1;
      }
      FilledInPrefixStep(done, orig, uuid, generated0, i);
      assert groups[..i + 1] == done + [groups[i]];
      assert groups[i + 1..] == orig[i + 1..];
    }
    assert groups[..] == groups[..groups.Length];
    assert orig[groups.Length..] == [];
  }

  // ---------------------------------------------------------------------------
  // Small converters

  /** stringOrNil: an absent value reads as the empty string. */
  function StringOrNil(s: Option<string>): string
  {
    match s
    case Some(v) => v
    case None => ""
  }

  /** convertStringArray: a string list copied element by element. */
  method ConvertStringArray(maybeStringArray: seq<string>) returns (result: seq<string>)
    ensures result == maybeStringArray
  {
    var a := new string[|maybeStringArray|];
    for idx := 0 to |maybeStringArray|
      invariant forall i :: 0 <= i < idx ==> a[i] == maybeStringArray[i]
    {
      a[idx] := maybeStringArray[idx];
    }
    result := a[..];
  }

  // ---------------------------------------------------------------------------
  // Conditions (conditionsToJson)

  /** The wire clause of a flat clause: field, tag_field, op and val copied. */
  function ExportedClause(c: Clause): ClauseJson
  {
    ClauseJson(c.field, c.tagField, c.op, c.val)
  }

  function ExportedClauses(cs: seq<Clause>): seq<ClauseJson>
  {
    seq(|cs|, i requires 0 <= i < |cs| => ExportedClause(cs[i]))
  }

  /** The wire condition of a clause list: none for no clauses; combine_with is never written. */
  function ExportedCondition(cs: seq<Clause>): Option<ConditionJson>
  {
    if |cs| == 0 then None else Some(ConditionJson("", ExportedClauses(cs)))
  }

  /**
   * The exported condition is absent exactly for an empty clause list; otherwise
   * it has no combine_with and one clause per condition, in order, each copied.
   */
  lemma ExportedConditionShape(cs: seq<Clause>)
    ensures ExportedCondition(cs).None? <==> cs == []
    ensures ExportedCondition(cs).Some? ==>
      var c := ExportedCondition(cs).value;
      c.combineWith == "" && |c.clauses| == |cs| &&
      forall i :: 0 <= i < |cs| ==> c.clauses[i] == ClauseJson(cs[i].field, cs[i].tagField, cs[i].op, cs[i].val)
  {
  }

  /** conditionsToJson: nothing for an empty list, else one clause per condition, in order. */
  method ConditionsToJson(conditions: seq<Clause>) returns (result: Option<ConditionJson>)
    ensures result == ExportedCondition(conditions)
  {
    if |conditions| == 0 {
      return None;
    }
    var clauses := new ClauseJson[|conditions|];
    for idx := 0 to |conditions|
      invariant forall i :: 0 <= i < idx ==> clauses[i] == ExportedClause(conditions[i])
    {
      var condition := conditions[idx];
      var field := ConvertStringArray(condition.field);
      var tagField := ConvertStringArray(condition.tagField);
      clauses[idx] := ClauseJson(field, tagField, condition.op, condition.val);
    }
    assert clauses[..] == ExportedClauses(conditions);
    return Some(ConditionJson("", clauses[..]));
  }

  // ---------------------------------------------------------------------------
  // Rules (rulesToJson)

  /** The block a rule type sends its group's constant to; None for any other type. */
  function RuleKind(ruleType: string): Option<ConstantKind>
  {
    if ruleType == CategorizeType then Some(DynamicGroupBlock)
    else if ruleType == FilterType then Some(StaticGroup)
    else None
  }

  /** What is wrong with a rule, given the block kind fixed by the rules before it (None: no rule yet). */
  function RuleCheck(r: Rule, constantType: Option<ConstantKind>): Option<ExportError>
  {
    if r.ruleType == CategorizeType then
      if constantType.Some? && constantType != Some(DynamicGroupBlock) then Some(MixedRuleTypes) else None
    else if r.ruleType == FilterType then
      if constantType.Some? && constantType != Some(StaticGroup) then Some(MixedRuleTypes) else None
    else if r.ruleType == "" then Some(RuleTypeNotSet)
    else Some(UnrecognizedRuleType(r.ruleType))
  }

  /** The kind fixed by the first i rules. */
  function KindAfter(rules: seq<Rule>, i: nat): Option<ConstantKind>
    requires i <= |rules|
  {
    if i == 0 then None else RuleKind(rules[0].ruleType)
  }

  /** The first rule error from position i on. */
  function TypeErrorFrom(rules: seq<Rule>, i: nat): Option<ExportError>
    requires i <= |rules|
    decreases |rules| - i
  {
    if i == |rules| then None
    else match RuleCheck(rules[i], KindAfter(rules, i))
      case Some(err) => Some(err)
      case None => TypeErrorFrom(rules, i + 1)
  }

  /** The wire rule of a flat rule of the group groupRefId: routed to `to` (filter) or `ref_id` (categorize). */
  function ExportedRule(groupRefId: string, r: Rule): RuleJson
  {
    RuleJson(r.ruleType, r.asset,
             if r.ruleType == FilterType then groupRefId else "",
             if r.ruleType == CategorizeType then groupRefId else "",
             r.field, r.tagField, ExportedCondition(r.conditions))
  }

  function ExportedRules(groupRefId: string, rules: seq<Rule>): seq<RuleJson>
  {
    seq(|rules|, i requires 0 <= i < |rules| => ExportedRule(groupRefId, rules[i]))
  }

  /** What rulesToJson returns on success: the wire rules, and the block kind ("" when there are no rules). */
  datatype RulesOut = RulesOut(rules: seq<RuleJson>, constantType: Option<ConstantKind>)

  function RulesResult(groupRefId: string, rules: seq<Rule>): Result<RulesOut, ExportError>
  {
    match TypeErrorFrom(rules, 0)
    case Some(err) => Err(err)
    case None => Ok(RulesOut(ExportedRules(groupRefId, rules), KindAfter(rules, |rules|)))
  }

  /** The rules of a group pass the type checks exactly when they are all filter or all categorize. */
  lemma RulesAccepted(rules: seq<Rule>)
    ensures TypeErrorFrom(rules, 0) == None <==>
      forall i :: 0 <= i < |rules| ==> RuleKind(rules[i].ruleType).Some? && rules[i].ruleType == rules[0].ruleType
  {
    if TypeErrorFrom(rules, 0) == None {
      forall i | 0 <= i < |rules| ensures RuleKind(rules[i].ruleType).Some? && rules[i].ruleType == rules[0].ruleType {
        TypeErrorFromSkips(rules, 0, 0);
        TypeErrorFromSkips(rules, 0, i);
      }
    } else {
      var i := TypeErrorFromAt(rules, 0);
    }
  }

  lemma {:induction false} TypeErrorFromSkips(rules: seq<Rule>, i: nat, j: nat)
    requires i <= j < |rules| && TypeErrorFrom(rules, i) == None
    ensures RuleCheck(rules[j], KindAfter(rules, j)) == None
    decreases j - i
  {
    if i < j {
      TypeErrorFromSkips(rules, i + 1, j);
    }
  }

  /** A reported rule error is the error of the first rule that fails its check. */
  lemma {:induction false} TypeErrorFromAt(rules: seq<Rule>, i: nat) returns (j: nat)
    requires i <= |rules| && TypeErrorFrom(rules, i).Some?
    ensures i <= j < |rules| && TypeErrorFrom(rules, i) == RuleCheck(rules[j], KindAfter(rules, j))
    ensures forall l :: i <= l < j ==> RuleCheck(rules[l], KindAfter(rules, l)) == None
    ensures RuleKind(rules[j].ruleType).None? || (0 < j && rules[j].ruleType != rules[0].ruleType)
    decreases |rules| - i
  {
    if RuleCheck(rules[i], KindAfter(rules, i)).Some? {
      j := i;
    } else {
      j := TypeErrorFromAt(rules, i + 1);
    }
  }

  /** A group holding both a filter and a categorize rule is rejected. */
  lemma MixedRulesRejected(rules: seq<Rule>, i: nat, j: nat)
    requires i < |rules| && j < |rules|
    requires rules[i].ruleType == FilterType && rules[j].ruleType == CategorizeType
    ensures TypeErrorFrom(rules, 0).Some?
  {
    RulesAccepted(rules);
  }

  /**
   * rulesToJson: fills a preallocated slice, routing each rule by its type and
   * accumulating the block kind; the first bad rule aborts.
   */
  method RulesToJson(groupRefId: string, rules: seq<Rule>) returns (r: Result<RulesOut, ExportError>)
    ensures r == RulesResult(groupRefId, rules)
  {
    var result := new RuleJson[|rules|];
    var constantType: Option<ConstantKind> := None;
    for ruleIdx := 0 to |rules|
      invariant TypeErrorFrom(rules, ruleIdx) == TypeErrorFrom(rules, 0)
      invariant constantType == KindAfter(rules, ruleIdx)
      invariant 0 < ruleIdx ==> constantType.Some?
      invariant forall i :: 0 <= i < ruleIdx ==> result[i] == ExportedRule(groupRefId, rules[i])
    {
      var rule := rules[ruleIdx];
      var rj := RuleJson(rule.ruleType, "", "", "", [], [], None);
      if rule.ruleType == CategorizeType {
        if constantType.Some? && constantType != Some(DynamicGroupBlock) {
          return Err(MixedRuleTypes);
        }
        constantType := Some(DynamicGroupBlock);
        rj := rj.(refId := groupRefId);
      } else if rule.ruleType == FilterType {
        if constantType.Some? && constantType != Some(StaticGroup) {
          return Err(MixedRuleTypes);
        }
        constantType := Some(StaticGroup);
        rj := rj.(to := groupRefId);
      } else if rule.ruleType == "" {
        return Err(RuleTypeNotSet);
      } else {
        return Err(UnrecognizedRuleType(rule.ruleType));
      }
      var field := ConvertStringArray(rule.field);
      var tagField := ConvertStringArray(rule.tagField);
      var condition := ConditionsToJson(rule.conditions);
      rj := rj.(asset := rule.asset, field := field, tagField := tagField, condition := condition);
      result[ruleIdx] := rj;
    }
    assert result[..] == ExportedRules(groupRefId, rules);
    return Ok(RulesOut(result[..], constantType));
  }

  // ---------------------------------------------------------------------------
  // Constant items (dynamicGroupConstantItemsToJson, otherGroupToJson)

  /** The Dynamic Group item of a child of the group groupRefId. */
  function ChildItem(groupRefId: string, c: DynamicChild): ConstantItem
  {
    ConstantItem(c.refId, Some(groupRefId), c.name, c.val, "")
  }

  function ChildItems(groupRefId: string, children: seq<DynamicChild>): seq<ConstantItem>
  {
    seq(|children|, i requires 0 <= i < |children| => ChildItem(groupRefId, children[i]))
  }

  /** dynamicGroupConstantItemsToJson: one item per child, in order, each pointing back at the group. */
  method DynamicGroupConstantItemsToJson(groupRefId: string, dynamicGroups: seq<DynamicChild>)
    returns (result: seq<ConstantItem>)
    ensures |result| == |dynamicGroups|
    ensures forall i :: 0 <= i < |dynamicGroups| ==>
      result[i] == ConstantItem(dynamicGroups[i].refId, Some(groupRefId), dynamicGroups[i].name, dynamicGroups[i].val, "")
    ensures result == ChildItems(groupRefId, dynamicGroups)
  {
    var a := new ConstantItem[|dynamicGroups|];
    for idx := 0 to |dynamicGroups|
      invariant forall i :: 0 <= i < idx ==> a[i] == ChildItem(groupRefId, dynamicGroups[i])
    {
      var dg := dynamicGroups[idx];
      var blkId := groupRefId;
      a[idx] := ConstantItem(dg.refId, Some(blkId), dg.name, dg.val, "");
    }
    result := a[..];
  }

  /**
   * otherGroupToJson: the stored type, and the item with ref_id, name and val
   * copied; blk_id only for a Dynamic Group entry; is_other only as "true".
   */
  function OtherGroupToJson(otherGroup: OtherGroup): (string, ConstantItem)
  {
    var blkId := if otherGroup.constantType == KindName(DynamicGroup) then Some(StringOrNil(otherGroup.blkId)) else None;
    var isOther := if otherGroup.isOther == "true" then "true" else "";
    (otherGroup.constantType, ConstantItem(otherGroup.refId, blkId, otherGroup.name, otherGroup.val, isOther))
  }

  // ---------------------------------------------------------------------------
  // The whole export (tfToJson)

  /** The block a group's own item goes to, by the type of its first rule. */
  function GroupKind(g: Group): ConstantKind
  {
    if g.rules != [] && g.rules[0].ruleType == CategorizeType then DynamicGroupBlock else StaticGroup
  }

  /** A group's own constant item: just its name and ref_id. */
  function GroupItem(g: Group): ConstantItem
  {
    ConstantItem(g.refId, None, g.name, "", "")
  }

  /** What is wrong with a group: a rule error, else having no rules at all. */
  function GroupError(g: Group): Option<ExportError>
  {
    match TypeErrorFrom(g.rules, 0)
    case Some(err) => Some(err)
    case None => if g.rules == [] then Some(GroupWithoutRules(g.refId)) else None
  }

  /** The error of the first group that has one. */
  function GroupsError(gs: seq<Group>): Option<ExportError>
  {
    if gs == [] then None
    else match GroupsError(gs[..|gs| - 1])
      case Some(err) => Some(err)
      case None => GroupError(gs[|gs| - 1])
  }

  /** The wire rules of all groups: each group's rules in order, groups in order. */
  function AllRules(gs: seq<Group>): seq<RuleJson>
  {
    if gs == [] then []
    else AllRules(gs[..|gs| - 1]) + ExportedRules(gs[|gs| - 1].refId, gs[|gs| - 1].rules)
  }

  /** What one group adds to the block of kind k. */
  function GroupContribution(g: Group, k: ConstantKind): seq<ConstantItem>
  {
    if k == DynamicGroup then ChildItems(g.refId, g.children)
    else if GroupKind(g) == k then [GroupItem(g)]
    else []
  }

  /** The items the groups put into the block of kind k, in group order. */
  function GroupPart(gs: seq<Group>, k: ConstantKind): seq<ConstantItem>
  {
    if gs == [] then [] else GroupPart(gs[..|gs| - 1], k) + GroupContribution(gs[|gs| - 1], k)
  }

  /** The error of the first other group with an unknown type. */
  function OthersError(os: seq<OtherGroup>): Option<ExportError>
  {
    if os == [] then None
    else match OthersError(os[..|os| - 1])
      case Some(err) => Some(err)
      case None =>
        var o := os[|os| - 1];
        if ParseKind(o.constantType).None? then Some(UnknownConstantType(o.constantType)) else None
  }

  /** The items the other groups put into the block of kind k, in order. */
  function OtherPart(os: seq<OtherGroup>, k: ConstantKind): seq<ConstantItem>
  {
    if os == [] then []
    else
      var o := os[|os| - 1];
      OtherPart(os[..|os| - 1], k) + (if ParseKind(o.constantType) == Some(k) then [OtherGroupToJson(o).1] else [])
  }

  /** The block of kind k: the group-derived items, then the catch-all items. */
  function Block(gs: seq<Group>, os: seq<OtherGroup>, k: ConstantKind): ConstantJson
  {
    ConstantJson(k, GroupPart(gs, k) + OtherPart(os, k))
  }

  /** The blocks that have at least one item, in order. */
  function NonEmptyBlocks(bs: seq<ConstantJson>): seq<ConstantJson>
  {
    if bs == [] then []
    else NonEmptyBlocks(bs[..|bs| - 1]) + (if |bs[|bs| - 1].list| > 0 then [bs[|bs| - 1]] else [])
  }

  /** The three kinds in the fixed output order. */
  function Kinds(): seq<ConstantKind>
  {
    [StaticGroup, DynamicGroup, DynamicGroupBlock]
  }

  /** The payload of a flat state, or the first error. */
  function Export(f: FlatState, uuid: nat -> string): Result<PerspectiveJson, ExportError>
  {
    if f.name == "" then Err(NameRequired)
    else
      var gs := FilledIn(f.groups, uuid, 0);
      match GroupsError(gs)
      case Some(err) => Err(err)
      case None =>
        match OthersError(f.otherGroups)
        case Some(err) => Err(err)
        case None =>
          var blocks := [Block(gs, f.otherGroups, StaticGroup), Block(gs, f.otherGroups, DynamicGroup),
                         Block(gs, f.otherGroups, DynamicGroupBlock)];
          Ok(PerspectiveJson(Schema(f.name, FormatBool(f.includeInReports.GetOr(false)),
                                    AllRules(gs), NonEmptyBlocks(blocks), [])))
  }

  /** The groups the exporter writes back into the state: filled in, once the name check has passed. */
  function Persisted(f: FlatState, uuid: nat -> string): seq<Group>
  {
    if f.name == "" then f.groups else FilledIn(f.groups, uuid, 0)
  }

  /** The by-kind table with the items appended to the block of kind k. */
  function Appended(byKind: map<ConstantKind, ConstantJson>, k: ConstantKind, items: seq<ConstantItem>): map<ConstantKind, ConstantJson>
    requires k in byKind
  {
    byKind[k := byKind[k].(list := byKind[k].list + items)]
  }

  /** The table holds, for every kind, the block of that kind built from the given groups and other groups. */
  ghost predicate TableHolds(byKind: map<ConstantKind, ConstantJson>, gs: seq<Group>, os: seq<OtherGroup>)
  {
    forall k: ConstantKind :: k in byKind && byKind[k] == Block(gs, os, k)
  }

  lemma {:induction false} GroupStep(gs: seq<Group>, gi: nat)
    requires gi < |gs|
    ensures GroupsError(gs[..gi + 1]) == if GroupsError(gs[..gi]).Some? then GroupsError(gs[..gi]) else GroupError(gs[gi])
    ensures AllRules(gs[..gi + 1]) == AllRules(gs[..gi]) + ExportedRules(gs[gi].refId, gs[gi].rules)
  {
    assert gs[..gi + 1][..gi] == gs[..gi];
  }

  lemma {:induction false} GroupPartStep(gs: seq<Group>, gi: nat, k: ConstantKind)
    requires gi < |gs|
    ensures GroupPart(gs[..gi + 1], k) == GroupPart(gs[..gi], k) + GroupContribution(gs[gi], k)
  {
    assert gs[..gi + 1][..gi] == gs[..gi];
  }

  /** Adding the group gi to a table of the first gi groups gives the table of the first gi + 1. */
  lemma {:induction false} TableGroupStep(byKind: map<ConstantKind, ConstantJson>, gs: seq<Group>, gi: nat)
    requires gi < |gs| && GroupError(gs[gi]) == None
    requires TableHolds(byKind, gs[..gi], [])
    ensures DynamicGroup in byKind
    ensures var t := Appended(byKind, DynamicGroup, ChildItems(gs[gi].refId, gs[gi].children));
      GroupKind(gs[gi]) in t &&
      TableHolds(Appended(t, GroupKind(gs[gi]), [GroupItem(gs[gi])]), gs[..gi + 1], [])
  {
    var g := gs[gi];
    var t := Appended(byKind, DynamicGroup, ChildItems(g.refId, g.children));
    var t' := Appended(t, GroupKind(g), [GroupItem(g)]);
    forall k: ConstantKind ensures k in t' && t'[k] == Block(gs[..gi + 1], [], k) {
      GroupPartStep(gs, gi, k);
      assert byKind[k].list == GroupPart(gs[..gi], k) by {
        assert GroupPart(gs[..gi], k) + OtherPart([], k) == GroupPart(gs[..gi], k);
      }
      assert GroupPart(gs[..gi + 1], k) + OtherPart([], k) == GroupPart(gs[..gi + 1], k);
    }
  }

  lemma {:induction false} OtherStep(os: seq<OtherGroup>, oi: nat)
    requires oi < |os|
    ensures OthersError(os[..oi + 1]) ==
      if OthersError(os[..oi]).Some? then OthersError(os[..oi])
      else if ParseKind(os[oi].constantType).None? then Some(UnknownConstantType(os[oi].constantType)) else None
  {
    assert os[..oi + 1][..oi] == os[..oi];
  }

  lemma {:induction false} OtherPartStep(os: seq<OtherGroup>, oi: nat, k: ConstantKind)
    requires oi < |os|
    ensures OtherPart(os[..oi + 1], k) ==
      OtherPart(os[..oi], k) + (if ParseKind(os[oi].constantType) == Some(k) then [OtherGroupToJson(os[oi]).1] else [])
  {
    assert os[..oi + 1][..oi] == os[..oi];
  }

  /** Adding the other group oi to the table. */
  lemma {:induction false} TableOtherStep(byKind: map<ConstantKind, ConstantJson>, gs: seq<Group>, os: seq<OtherGroup>, oi: nat)
    requires oi < |os| && ParseKind(os[oi].constantType).Some?
    requires TableHolds(byKind, gs, os[..oi])
    ensures ParseKind(os[oi].constantType).value in byKind
    ensures TableHolds(Appended(byKind, ParseKind(os[oi].constantType).value, [OtherGroupToJson(os[oi]).1]),
                       gs, os[..oi + 1])
  {
    var kind := ParseKind(os[oi].constantType).value;
    var t := Appended(byKind, kind, [OtherGroupToJson(os[oi]).1]);
    forall k: ConstantKind ensures k in t && t[k] == Block(gs, os[..oi + 1], k) {
      OtherPartStep(os, oi, k);
    }
  }

  /** Reading the block of the ki-th kind from a complete table extends the non-empty blocks by it. */
  lemma {:induction false} BlocksStep(byKind: map<ConstantKind, ConstantJson>, gs: seq<Group>, os: seq<OtherGroup>,
                                      blocks: seq<ConstantJson>, ki: nat)
    requires ki < 3 && blocks == seq(3, i requires 0 <= i < 3 => Block(gs, os, Kinds()[i]))
    requires TableHolds(byKind, gs, os)
    ensures Kinds()[ki] in byKind && byKind[Kinds()[ki]] == blocks[ki]
    ensures NonEmptyBlocks(blocks[..ki + 1]) ==
      NonEmptyBlocks(blocks[..ki]) + if |blocks[ki].list| > 0 then [blocks[ki]] else []
  {
    assert blocks[..ki + 1][..ki] == blocks[..ki];
  }

  /** An error at group gi after none before it is the first group error. */
  lemma {:induction false} GroupsErrorAt(gs: seq<Group>, gi: nat)
    requires gi < |gs| && GroupsError(gs[..gi]) == None && GroupError(gs[gi]).Some?
    ensures GroupsError(gs) == GroupError(gs[gi])
  {
    assert gs[..gi + 1] == gs[..gi] + [gs[gi]];
    GroupsErrorSnoc(gs[..gi], gs[gi]);
    GroupsErrorExtend(gs, gi + 1);
  }

  lemma GroupsErrorSnoc(done: seq<Group>, g: Group)
    ensures GroupsError(done + [g]) == if GroupsError(done).Some? then GroupsError(done) else GroupError(g)
  {
    assert (done + [g])[..|done|] == done;
  }

  lemma {:induction false} GroupsErrorExtend(gs: seq<Group>, n: nat)
    requires n <= |gs| && GroupsError(gs[..n]).Some?
    ensures GroupsError(gs) == GroupsError(gs[..n])
  {
    if n < |gs| {
      var gs' := gs[..|gs| - 1];
      assert gs'[..n] == gs[..n];
      GroupsErrorExtend(gs', n);
    } else {
      assert gs[..n] == gs;
    }
  }

  lemma {:induction false} OthersErrorAt(os: seq<OtherGroup>, oi: nat)
    requires oi < |os| && OthersError(os[..oi]) == None && ParseKind(os[oi].constantType).None?
    ensures OthersError(os) == Some(UnknownConstantType(os[oi].constantType))
  {
    OtherStep(os, oi);
    OthersErrorExtend(os, oi + 1);
  }

  lemma {:induction false} OthersErrorExtend(os: seq<OtherGroup>, n: nat)
    requires n <= |os| && OthersError(os[..n]).Some?
    ensures OthersError(os) == OthersError(os[..n])
  {
    if n < |os| {
      var os' := os[..|os| - 1];
      assert os'[..n] == os[..n];
      OthersErrorExtend(os', n);
    } else {
      assert os[..n] == os;
    }
  }

  /** The rule output of a group that passes its checks: its wire rules and its block kind. */
  lemma AcceptedGroup(g: Group)
    requires GroupError(g) == None
    ensures RulesResult(g.refId, g.rules) == Ok(RulesOut(ExportedRules(g.refId, g.rules), Some(GroupKind(g))))
  {
    RulesAccepted(g.rules);
  }

  /** The group loop of tfToJson: each group's children, rules and own item, group by group. */
  method ExportGroups(tfGroups: array<Group>, byKind0: map<ConstantKind, ConstantJson>)
    returns (err: Option<ExportError>, rules: seq<RuleJson>, byKind: map<ConstantKind, ConstantJson>)
    requires TableHolds(byKind0, [], [])
    ensures err == GroupsError(tfGroups[..])
    ensures err == None ==> rules == AllRules(tfGroups[..]) && TableHolds(byKind, tfGroups[..], [])
  {
    ghost var gs := tfGroups[..];
    byKind := byKind0;
    rules := [];
    assert gs[..0] == [];
    for gi := 0 to tfGroups.Length
      invariant GroupsError(gs[..gi]) == None
      invariant rules == AllRules(gs[..gi])
      invariant TableHolds(byKind, gs[..gi], [])
    {
      var tfGroup := tfGroups[gi];
      GroupStep(gs, gi);
      var dynamicGroupConstantItems := DynamicGroupConstantItemsToJson(tfGroup.refId, tfGroup.children);
      var groupRules := RulesToJson(tfGroup.refId, tfGroup.rules);
      if groupRules.Err? {
        GroupsErrorAt(gs, gi);
        return Some(groupRules.error), rules, byKind;
      }
      if groupRules.value.constantType.None? {
        GroupsErrorAt(gs, gi);
        return Some(GroupWithoutRules(tfGroup.refId)), rules, byKind;
      }
      AcceptedGroup(tfGroup);
      TableGroupStep(byKind, gs, gi);
      byKind := Appended(byKind, DynamicGroup, dynamicGroupConstantItems);
      rules := rules + groupRules.value.rules;
      var constantType := groupRules.value.constantType.value;
      var constantItem := ConstantItem(tfGroup.refId, None, tfGroup.name, "", "");
      byKind := Appended(byKind, constantType, [constantItem]);
    }
    assert gs[..tfGroups.Length] == gs;
    err := None;
  }

  /** The other-group loop of tfToJson: each catch-all appended to the block its type names. */
  method ExportOtherGroups(otherGroups: seq<OtherGroup>, ghost gs: seq<Group>, byKind0: map<ConstantKind, ConstantJson>)
    returns (err: Option<ExportError>, byKind: map<ConstantKind, ConstantJson>)
    requires TableHolds(byKind0, gs, [])
    ensures err == OthersError(otherGroups)
    ensures err == None ==> TableHolds(byKind, gs, otherGroups)
  {
    byKind := byKind0;
    assert otherGroups[..0] == [];
    for oi := 0 to |otherGroups|
      invariant OthersError(otherGroups[..oi]) == None
      invariant TableHolds(byKind, gs, otherGroups[..oi])
    {
      var (constantType, constantItem) := OtherGroupToJson(otherGroups[oi]);
      var kind := ParseKind(constantType);
      if kind.None? {
        OthersErrorAt(otherGroups, oi);
        return Some(UnknownConstantType(constantType)), byKind;
      }
      OtherStep(otherGroups, oi);
      TableOtherStep(byKind, gs, otherGroups, oi);
      byKind := Appended(byKind, kind.value, [constantItem]);
    }
    assert otherGroups[..|otherGroups|] == otherGroups;
    err := None;
  }

  /** The last loop of tfToJson: the non-empty blocks of the table, in the fixed kind order. */
  method NonEmptyConstants(byKind: map<ConstantKind, ConstantJson>, ghost gs: seq<Group>, ghost os: seq<OtherGroup>)
    returns (constants: seq<ConstantJson>)
    requires TableHolds(byKind, gs, os)
    ensures constants == NonEmptyBlocks([Block(gs, os, StaticGroup), Block(gs, os, DynamicGroup), Block(gs, os, DynamicGroupBlock)])
  {
    ghost var blocks := seq(3, i requires 0 <= i < 3 => Block(gs, os, Kinds()[i]));
    constants := [];
    var kinds := Kinds();
    for ki := 0 to |kinds|
      invariant constants == NonEmptyBlocks(blocks[..ki])
    {
      var constantGroup := byKind[kinds[ki]];
      BlocksStep(byKind, gs, os, blocks, ki);
      if |constantGroup.list| > 0 {
        constants := constants + [constantGroup];
      }
    }
    assert blocks[..3] == blocks;
    assert blocks == [Block(gs, os, StaticGroup), Block(gs, os, DynamicGroup), Block(gs, os, DynamicGroupBlock)];
  }

  /** The table of three empty blocks is the table of no groups. */
  lemma TableStart(byKind: map<ConstantKind, ConstantJson>)
    requires byKind == map[StaticGroup := NewConstantJson(StaticGroup), DynamicGroup := NewConstantJson(DynamicGroup),
                           DynamicGroupBlock := NewConstantJson(DynamicGroupBlock)]
    ensures TableHolds(byKind, [], [])
  {
    forall k: ConstantKind ensures k in byKind && byKind[k] == Block([], [], k) {
      assert k.StaticGroup? || k.DynamicGroup? || k.DynamicGroupBlock?;
    }
  }

  /**
   * tfToJson: the name check, the ref_id fill-in (whose result is persisted),
   * then the group loop, the other-group loop and the non-empty-block loop.
   */
  method TfToJson(f: FlatState, uuid: nat -> string) returns (r: Result<PerspectiveJson, ExportError>, persisted: seq<Group>)
    ensures r == Export(f, uuid)
    ensures persisted == Persisted(f, uuid)
  {
    var byKind: map<ConstantKind, ConstantJson> := map[
      StaticGroup := NewConstantJson(StaticGroup),
      DynamicGroup := NewConstantJson(DynamicGroup),
      DynamicGroupBlock := NewConstantJson(DynamicGroupBlock)];
    persisted := f.groups;
    if f.name == "" {
      return Err(NameRequired), persisted;
    }
    var name := f.name;
    var includeInReports := FormatBool(f.includeInReports.GetOr(false));

    var tfGroups := new Group[|f.groups|](i requires 0 <= i < |f.groups| => f.groups[i]);
    assert tfGroups[..] == f.groups;
    if tfGroups.Length > 0 {
      FillInMissingRefIds(tfGroups, f.otherGroups, uuid);
      persisted := tfGroups[..];
    }
    ghost var gs := tfGroups[..];
    assert gs == FilledIn(f.groups, uuid, 0);

    TableStart(byKind);
    var err, rules;
    err, rules, byKind := ExportGroups(tfGroups, byKind);
    if err.Some? {
      return Err(err.value), persisted;
    }
    err, byKind := ExportOtherGroups(f.otherGroups, gs, byKind);
    if err.Some? {
      return Err(err.value), persisted;
    }
    var constants := NonEmptyConstants(byKind, gs, f.otherGroups);
    return Ok(PerspectiveJson(Schema(name, includeInReports, rules, constants, []))), persisted;
  }

  // ---------------------------------------------------------------------------
  // Properties of the export

  /**
   * rulesToJson gives one wire rule per flat rule, in order: a filter rule
   * names the group in `to`, a categorize rule in `ref_id`; type, asset, field
   * and tag_field are copied and the clauses become the condition.
   */
  lemma ExportedRulesRouting(groupRefId: string, rules: seq<Rule>)
    ensures |ExportedRules(groupRefId, rules)| == |rules|
    ensures forall i :: 0 <= i < |rules| ==>
      var rj := ExportedRules(groupRefId, rules)[i];
      rj.ruleType == rules[i].ruleType && rj.asset == rules[i].asset &&
      rj.field == rules[i].field && rj.tagField == rules[i].tagField &&
      rj.condition == ExportedCondition(rules[i].conditions) &&
      (rules[i].ruleType == FilterType ==> rj.to == groupRefId && rj.refId == "") &&
      (rules[i].ruleType == CategorizeType ==> rj.refId == groupRefId && rj.to == "")
  {
  }

  /** The rule list of several groups is the concatenation of their rule lists. */
  lemma {:induction false} AllRulesAppend(a: seq<Group>, b: seq<Group>)
    ensures AllRules(a + b) == AllRules(a) + AllRules(b)
    decreases |b|
  {
    if b == [] {
      assert a + b == a;
    } else {
      var b' := b[..|b| - 1];
      var g := b[|b| - 1];
      var ab := a + b;
      AppendSnoc(a, b);
      var last := ExportedRules(g.refId, g.rules);
      assert AllRules(ab) == AllRules(a + b') + last;
      assert AllRules(b) == AllRules(b') + last;
      AllRulesAppend(a, b');
    }
  }

  /** The items the groups put into a block, for several groups, are concatenated in group order. */
  lemma {:induction false} GroupPartAppend(a: seq<Group>, b: seq<Group>, k: ConstantKind)
    ensures GroupPart(a + b, k) == GroupPart(a, k) + GroupPart(b, k)
    decreases |b|
  {
    if b == [] {
      assert a + b == a;
    } else {
      var b' := b[..|b| - 1];
      var last := GroupContribution(b[|b| - 1], k);
      AppendSnoc(a, b);
      assert GroupPart(a + b, k) == GroupPart(a + b', k) + last;
      assert GroupPart(b, k) == GroupPart(b', k) + last;
      GroupPartAppend(a, b', k);
    }
  }

  /** The same for the catch-all items. */
  lemma {:induction false} OtherPartAppend(a: seq<OtherGroup>, b: seq<OtherGroup>, k: ConstantKind)
    ensures OtherPart(a + b, k) == OtherPart(a, k) + OtherPart(b, k)
    decreases |b|
  {
    if b == [] {
      assert a + b == a;
    } else {
      var b' := b[..|b| - 1];
      assert (a + b)[..|a + b| - 1] == a + b';
      OtherPartAppend(a, b', k);
    }
  }

  /** The groups pass the export checks exactly when each group does. */
  lemma {:induction false} GroupsAccepted(gs: seq<Group>)
    ensures GroupsError(gs) == None <==> forall g :: g in gs ==> GroupError(g) == None
  {
    if gs != [] {
      var gs' := gs[..|gs| - 1];
      GroupsAccepted(gs');
      assert gs == gs' + [gs[|gs| - 1]];
      assert forall g :: g in gs <==> g in gs' || g == gs[|gs| - 1];
    }
  }

  /** A group passes the export checks exactly when it has rules and they are all filter or all categorize. */
  lemma GroupAccepted(g: Group)
    ensures GroupError(g) == None <==>
      g.rules != [] && forall i :: 0 <= i < |g.rules| ==> RuleKind(g.rules[i].ruleType).Some? && g.rules[i].ruleType == g.rules[0].ruleType
  {
    RulesAccepted(g.rules);
  }

  /** The other groups pass the export checks exactly when every stored type names a kind. */
  lemma {:induction false} OthersAccepted(os: seq<OtherGroup>)
    ensures OthersError(os) == None <==> forall o :: o in os ==> ParseKind(o.constantType).Some?
  {
    if os != [] {
      var os' := os[..|os| - 1];
      OthersAccepted(os');
      SnocMembers(os);
    }
  }

  /** The export fails exactly for an empty name, a group that fails its checks, or an other group of unknown type. */
  lemma ExportFails(f: FlatState, uuid: nat -> string)
    ensures Export(f, uuid).Err? <==>
      f.name == "" ||
      (exists g :: g in FilledIn(f.groups, uuid, 0) && GroupError(g).Some?) ||
      (exists o :: o in f.otherGroups && ParseKind(o.constantType).None?)
  {
    GroupsAccepted(FilledIn(f.groups, uuid, 0));
    OthersAccepted(f.otherGroups);
  }

  /**
   * A successful export copies the name, writes include_in_reports as
   * "true"/"false" (unset reading as false) and emits no merges.
   */
  lemma ExportHeader(f: FlatState, uuid: nat -> string)
    requires Export(f, uuid).Ok?
    ensures var s := Export(f, uuid).value.schema;
      s.name == f.name && s.name != "" && s.merges == [] &&
      (s.includeInReports == "true" <==> f.includeInReports == Some(true)) &&
      (s.includeInReports == "false" <==> f.includeInReports != Some(true))
  {
  }

  /**
   * The items the groups put into a Static Group or Dynamic Group Block block:
   * exactly one per group of that kind, each group's {name, ref_id}.
   */
  lemma {:induction false} GroupPartMembers(gs: seq<Group>, k: ConstantKind, item: ConstantItem)
    requires k != DynamicGroup
    ensures item in GroupPart(gs, k) <==> exists g :: g in gs && GroupKind(g) == k && item == GroupItem(g)
  {
    if gs != [] {
      var gs' := gs[..|gs| - 1];
      GroupPartMembers(gs', k, item);
      assert gs == gs' + [gs[|gs| - 1]];
      assert forall g :: g in gs <==> g in gs' || g == gs[|gs| - 1];
    }
  }

  /** Every group contributes exactly one item: to Static Group or to Dynamic Group Block. */
  lemma {:induction false} OneItemPerGroup(gs: seq<Group>)
    ensures |GroupPart(gs, StaticGroup)| + |GroupPart(gs, DynamicGroupBlock)| == |gs|
  {
    if gs != [] {
      OneItemPerGroup(gs[..|gs| - 1]);
    }
  }

  /** The Dynamic Group items of the groups: each group's children, in order, pointing back at it. */
  lemma {:induction false} GroupPartChildren(gs: seq<Group>, item: ConstantItem)
    ensures item in GroupPart(gs, DynamicGroup) <==>
      exists g, c :: g in gs && c in g.children && item == ConstantItem(c.refId, Some(g.refId), c.name, c.val, "")
  {
    if gs != [] {
      var gs' := gs[..|gs| - 1];
      var g := gs[|gs| - 1];
      GroupPartChildren(gs', item);
      assert gs == gs' + [g];
      assert forall g' :: g' in gs <==> g' in gs' || g' == g;
      if item in ChildItems(g.refId, g.children) {
        var i :| 0 <= i < |g.children| && ChildItems(g.refId, g.children)[i] == item;
        assert g.children[i] in g.children;
      }
      forall c | c in g.children ensures ChildItem(g.refId, c) in ChildItems(g.refId, g.children) {
        var i :| 0 <= i < |g.children| && g.children[i] == c;
        assert ChildItems(g.refId, g.children)[i] == ChildItem(g.refId, c);
      }
    }
  }

  /**
   * otherGroupToJson copies ref_id, name and val, writes a blk_id exactly for
   * a Dynamic Group entry, and writes is_other only as "true".
   */
  lemma OtherItemShape(o: OtherGroup)
    ensures var item := OtherGroupToJson(o).1;
      OtherGroupToJson(o).0 == o.constantType &&
      item.refId == o.refId && item.name == o.name && item.val == o.val &&
      (item.blkId.Some? <==> o.constantType == "Dynamic Group") &&
      (item.blkId.Some? ==> item.blkId.value == StringOrNil(o.blkId)) &&
      (item.isOther == "true" <==> o.isOther == "true") &&
      (item.isOther != "true" ==> item.isOther == "")
  {
  }

  /** The catch-all items of a block are those of the other groups whose type names it, each converted. */
  lemma {:induction false} OtherPartMembers(os: seq<OtherGroup>, k: ConstantKind, item: ConstantItem)
    ensures item in OtherPart(os, k) <==>
      exists o :: o in os && ParseKind(o.constantType) == Some(k) && item == OtherGroupToJson(o).1
  {
    if os != [] {
      var os' := os[..|os| - 1];
      OtherPartMembers(os', k, item);
      SnocMembers(os);
    }
  }

  /** The non-empty blocks are blocks of the input with an item, and every such block is kept. */
  lemma {:induction false} NonEmptyBlocksMembers(bs: seq<ConstantJson>, c: ConstantJson)
    ensures c in NonEmptyBlocks(bs) <==> c in bs && |c.list| > 0
  {
    if bs != [] {
      var bs' := bs[..|bs| - 1];
      NonEmptyBlocksMembers(bs', c);
      assert bs == bs' + [bs[|bs| - 1]];
    }
  }

  /** The blocks' kinds strictly increase in the fixed kind order. */
  ghost predicate RankOrdered(bs: seq<ConstantJson>)
  {
    forall i, j :: 0 <= i < j < |bs| ==> KindRank(bs[i].kind) < KindRank(bs[j].kind)
  }

  /** Dropping the empty blocks keeps the order of the rest. */
  lemma {:induction false} NonEmptyBlocksOrdered(bs: seq<ConstantJson>)
    requires RankOrdered(bs)
    ensures RankOrdered(NonEmptyBlocks(bs))
  {
    if bs != [] {
      var bs' := bs[..|bs| - 1];
      var last := bs[|bs| - 1];
      NonEmptyBlocksOrdered(bs');
      var cs' := NonEmptyBlocks(bs');
      forall c | c in cs' ensures KindRank(c.kind) < KindRank(last.kind) {
        NonEmptyBlocksMembers(bs', c);
        var m :| 0 <= m < |bs'| && bs'[m] == c;
        assert bs[m] == c && m < |bs| - 1;
        assert KindRank(bs[m].kind) < KindRank(bs[|bs| - 1].kind);
      }
      var cs := NonEmptyBlocks(bs);
      assert cs == cs' + if |last.list| > 0 then [last] else [];
      forall i, j | 0 <= i < j < |cs| ensures KindRank(cs[i].kind) < KindRank(cs[j].kind) {
        if j == |cs'| {
          assert cs[j] == last && cs[i] == cs'[i];
          assert cs'[i] in cs';
          assert KindRank(cs'[i].kind) < KindRank(last.kind);
        } else {
          assert cs[i] == cs'[i] && cs[j] == cs'[j];
          assert KindRank(cs'[i].kind) < KindRank(cs'[j].kind);
        }
      }
    }
  }

  /**
   * The blocks of a successful export: in the order Static Group, Dynamic
   * Group, Dynamic Group Block; each with at least one item; each holding the
   * group-derived items before the catch-all items; and a block of each kind
   * is present exactly when that kind has an item.
   */
  lemma ExportLayout(f: FlatState, uuid: nat -> string)
    requires Export(f, uuid).Ok?
    ensures var cs := Export(f, uuid).value.schema.constants;
      var gs := FilledIn(f.groups, uuid, 0);
      RankOrdered(cs) &&
      (forall c :: c in cs ==> |c.list| > 0 && c == ConstantJson(c.kind, GroupPart(gs, c.kind) + OtherPart(f.otherGroups, c.kind))) &&
      (forall k :: (exists c :: c in cs && c.kind == k) <==> |GroupPart(gs, k) + OtherPart(f.otherGroups, k)| > 0)
  {
    BlocksLayout(FilledIn(f.groups, uuid, 0), f.otherGroups);
  }

  lemma BlocksLayout(gs: seq<Group>, os: seq<OtherGroup>)
    ensures var cs := NonEmptyBlocks([Block(gs, os, StaticGroup), Block(gs, os, DynamicGroup), Block(gs, os, DynamicGroupBlock)]);
      RankOrdered(cs) &&
      (forall c :: c in cs ==> |c.list| > 0 && c == Block(gs, os, c.kind)) &&
      (forall k :: (exists c :: c in cs && c.kind == k) <==> |Block(gs, os, k).list| > 0)
  {
    var bs := [Block(gs, os, StaticGroup), Block(gs, os, DynamicGroup), Block(gs, os, DynamicGroupBlock)];
    var cs := NonEmptyBlocks(bs);
    NonEmptyBlocksOrdered(bs);
    forall c | c in cs ensures |c.list| > 0 && c == Block(gs, os, c.kind) {
      NonEmptyBlocksMembers(bs, c);
    }
    forall k ensures (exists c :: c in cs && c.kind == k) <==> |Block(gs, os, k).list| > 0 {
      var b := Block(gs, os, k);
      NonEmptyBlocksMembers(bs, b);
      assert b in bs by {
        assert k.StaticGroup? || k.DynamicGroup? || k.DynamicGroupBlock?;
      }
      if exists c :: c in cs && c.kind == k {
        var c :| c in cs && c.kind == k;
        NonEmptyBlocksMembers(bs, c);
        assert c == b;
      }
      if |b.list| > 0 {
        assert b in cs && b.kind == k;
      }
    }
  }
}
