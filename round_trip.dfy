/**
 * The importer and the exporter are inverse on the states the exporter can
 * write back faithfully.
 *
 * A flat state is restorable when it has a name and an include_in_reports
 * flag; every group has a ref_id of its own, is filter or categorize, has at
 * least one rule, all its rules of its own type and without combine_with, and
 * (when filter) no children; every other group is a catch-all of a known
 * block (is_other "true" in Static Group and Dynamic Group Block, the
 * "Remaining" item with blk_id "" in Dynamic Group); and the other groups are
 * in block order. Then importing the export gives the state back, and so
 * exporting that import gives the payload back.
 */
module RoundTrip {
  import opened Wrappers
  import opened Perspective
  import opened JsonToTf
  import opened TfToJson
  import opened Seqs

  // ---------------------------------------------------------------------------
  // Restorable states

  /** The block an other group's stored type names (Static Group for an unknown type). */
  function OtherKind(o: OtherGroup): ConstantKind
  {
    ParseKind(o.constantType).GetOr(StaticGroup)
  }

  ghost predicate RestorableGroup(g: Group)
  {
    && g.refId != ""
    && (g.groupType == FilterType || g.groupType == CategorizeType)
    && g.rules != []
    && (forall r :: r in g.rules ==> r.ruleType == g.groupType && r.combineWith == "")
    && (g.groupType == FilterType ==> g.children == [])
  }

  ghost predicate RestorableOther(o: OtherGroup)
  {
    match ParseKind(o.constantType)
    case None => false
    case Some(k) =>
      if k == DynamicGroup then o.blkId == Some("") && o.name == "Remaining" && (o.isOther == "" || o.isOther == "true")
      else o.isOther == "true" && o.blkId == None
  }

  /** No two groups share a ref_id. */
  ghost predicate DistinctRefs(gs: seq<Group>)
  {
    forall i, j :: 0 <= i < j < |gs| ==> gs[i].refId != gs[j].refId
  }

  ghost predicate RestorableGroups(gs: seq<Group>)
  {
    (forall g :: g in gs ==> RestorableGroup(g)) && DistinctRefs(gs)
  }

  /** Each other group comes no earlier in the block order than those before it. */
  ghost predicate InBlockOrder(os: seq<OtherGroup>)
    decreases |os|
  {
    os == [] ||
    (InBlockOrder(os[..|os| - 1]) &&
     forall o :: o in os[..|os| - 1] ==> KindRank(OtherKind(o)) <= KindRank(OtherKind(os[|os| - 1])))
  }

  ghost predicate RestorableOthers(os: seq<OtherGroup>)
  {
    (forall o :: o in os ==> RestorableOther(o)) && InBlockOrder(os)
  }

  ghost predicate Restorable(f: FlatState)
  {
    f.name != "" && f.includeInReports.Some? && RestorableGroups(f.groups) && RestorableOthers(f.otherGroups)
  }

  lemma SameRefSameGroup(gs: seq<Group>, g1: Group, g2: Group)
    requires DistinctRefs(gs) && g1 in gs && g2 in gs && g1.refId == g2.refId
    ensures g1 == g2
  {
    var i :| 0 <= i < |gs| && gs[i] == g1;
    var j :| 0 <= j < |gs| && gs[j] == g2;
  }

  // ---------------------------------------------------------------------------
  // Sequence facts about the importer's folds

  lemma {:induction false} TagAppend(k: ConstantKind, a: seq<ConstantItem>, b: seq<ConstantItem>)
    ensures Tag(k, a + b) == Tag(k, a) + Tag(k, b)
  {
    if a == [] {
      assert a + b == b;
    } else {
      assert (a + b)[0] == a[0] && (a + b)[1..] == a[1..] + b;
      TagAppend(k, a[1..], b);
    }
  }

  lemma {:induction false} TagMembers(k: ConstantKind, items: seq<ConstantItem>, e: Entry)
    ensures e in Tag(k, items) <==> e.kind == k && e.item in items
  {
    if items != [] {
      TagMembers(k, items[1..], e);
      assert items == [items[0]] + items[1..];
    }
  }

  lemma {:induction false} EntriesAppend(a: seq<ConstantJson>, b: seq<ConstantJson>)
    ensures Entries(a + b) == Entries(a) + Entries(b)
  {
    if a == [] {
      assert a + b == b;
    } else {
      assert (a + b)[0] == a[0] && (a + b)[1..] == a[1..] + b;
      EntriesAppend(a[1..], b);
    }
  }

  /** Empty blocks contribute no items, so dropping them does not change what the importer visits. */
  lemma {:induction false} EntriesNonEmpty(bs: seq<ConstantJson>)
    ensures Entries(NonEmptyBlocks(bs)) == Entries(bs)
  {
    if bs != [] {
      var bs' := bs[..|bs| - 1];
      var b := bs[|bs| - 1];
      EntriesNonEmpty(bs');
      assert bs == bs' + [b];
      EntriesAppend(bs', [b]);
      var kept := if |b.list| > 0 then [b] else [];
      EntriesAppend(NonEmptyBlocks(bs'), kept);
      assert [b][1..] == [];
      assert Entries([b]) == Tag(b.kind, b.list);
      if |b.list| == 0 {
        assert Entries(kept) == [] == Entries([b]);
      }
    }
  }

  lemma EntriesOfThree(b0: ConstantJson, b1: ConstantJson, b2: ConstantJson)
    ensures Entries([b0, b1, b2]) == Tag(b0.kind, b0.list) + Tag(b1.kind, b1.list) + Tag(b2.kind, b2.list)
  {
    assert [b0, b1, b2][1..] == [b1, b2];
    assert [b1, b2][1..] == [b2];
    assert [b2][1..] == [];
    assert Entries([b2]) == Tag(b2.kind, b2.list) + [];
    assert Entries([b1, b2]) == Tag(b1.kind, b1.list) + Entries([b2]);
  }

  lemma ChildrenForCons(e: Entry, es: seq<Entry>, t: string)
    ensures ChildrenFor([e] + es, t) == ChildFor(e, t) + ChildrenFor(es, t)
  {
    assert ([e] + es)[1..] == es;
  }

  lemma {:induction false} ChildrenForAppend(a: seq<Entry>, b: seq<Entry>, t: string)
    ensures ChildrenFor(a + b, t) == ChildrenFor(a, t) + ChildrenFor(b, t)
  {
    if a == [] {
      assert a + b == b;
    } else {
      assert (a + b)[0] == a[0] && (a + b)[1..] == a[1..] + b;
      assert ChildrenFor(a + b, t) == ChildFor(a[0], t) + ChildrenFor(a[1..] + b, t);
      ChildrenForAppend(a[1..], b, t);
    }
  }

  lemma {:induction false} OtherGroupsAppend(a: seq<Entry>, b: seq<Entry>)
    ensures OtherGroupsOf(a + b) == OtherGroupsOf(a) + OtherGroupsOf(b)
  {
    if a == [] {
      assert a + b == b;
    } else {
      assert (a + b)[0] == a[0] && (a + b)[1..] == a[1..] + b;
      var x := if IsCatchAll(a[0]) then [OtherOf(a[0])] else [];
      assert OtherGroupsOf(a + b) == x + OtherGroupsOf(a[1..] + b);
      assert OtherGroupsOf(a) == x + OtherGroupsOf(a[1..]);
      OtherGroupsAppend(a[1..], b);
    }
  }

  lemma {:induction false} TargetsAppend(a: seq<RuleJson>, b: seq<RuleJson>)
    ensures Targets(a + b) == Targets(a) + Targets(b)
    decreases |b|
  {
    if b == [] {
      assert a + b == a;
    } else {
      var b' := b[..|b| - 1];
      assert (a + b)[..|a + b| - 1] == a + b' && (a + b)[|a + b| - 1] == b[|b| - 1];
      TargetsAppend(a, b');
    }
  }

  lemma {:induction false} RulesForAppend(a: seq<RuleJson>, b: seq<RuleJson>, t: string, groupType: string)
    ensures RulesFor(a + b, t, groupType) == RulesFor(a, t, groupType) + RulesFor(b, t, groupType)
    decreases |b|
  {
    if b == [] {
      assert a + b == a;
    } else {
      var b' := b[..|b| - 1];
      assert (a + b)[..|a + b| - 1] == a + b' && (a + b)[|a + b| - 1] == b[|b| - 1];
      RulesForAppend(a, b', t, groupType);
    }
  }

  // ---------------------------------------------------------------------------
  // What the exported payload holds

  /** The items the importer visits in an exported payload, block by block. */
  function ExportedEntries(gs: seq<Group>, os: seq<OtherGroup>): seq<Entry>
  {
    Tag(StaticGroup, GroupPart(gs, StaticGroup) + OtherPart(os, StaticGroup))
    + Tag(DynamicGroup, GroupPart(gs, DynamicGroup) + OtherPart(os, DynamicGroup))
    + Tag(DynamicGroupBlock, GroupPart(gs, DynamicGroupBlock) + OtherPart(os, DynamicGroupBlock))
  }

  /** An item of a block is a group-derived item or a catch-all item of that block. */
  lemma InBlock(gs: seq<Group>, os: seq<OtherGroup>, e: Entry)
    ensures e in ExportedEntries(gs, os) <==> e.item in GroupPart(gs, e.kind) + OtherPart(os, e.kind)
  {
    TagMembers(StaticGroup, GroupPart(gs, StaticGroup) + OtherPart(os, StaticGroup), e);
    TagMembers(DynamicGroup, GroupPart(gs, DynamicGroup) + OtherPart(os, DynamicGroup), e);
    TagMembers(DynamicGroupBlock, GroupPart(gs, DynamicGroupBlock) + OtherPart(os, DynamicGroupBlock), e);
  }

  /** Every visited item is a group's own item, a child's item or a catch-all item. */
  lemma ExportedEntryCases(gs: seq<Group>, os: seq<OtherGroup>, e: Entry)
    requires e in ExportedEntries(gs, os)
    ensures || (exists g :: g in gs && e == Entry(GroupKind(g), GroupItem(g)))
            || (exists g, c :: g in gs && c in g.children && e == Entry(DynamicGroup, ChildItem(g.refId, c)))
            || (exists o :: o in os && ParseKind(o.constantType) == Some(e.kind) && e.item == OtherGroupToJson(o).1)
  {
    InBlock(gs, os, e);
    if e.item in OtherPart(os, e.kind) {
      OtherPartMembers(os, e.kind, e.item);
    } else if e.kind == DynamicGroup {
      GroupPartChildren(gs, e.item);
      var g, c :| g in gs && c in g.children && e.item == ConstantItem(c.refId, Some(g.refId), c.name, c.val, "");
      assert e == Entry(DynamicGroup, ChildItem(g.refId, c));
    } else {
      GroupPartMembers(gs, e.kind, e.item);
    }
  }

  /** Each group's own item is visited. */
  lemma GroupEntryVisited(gs: seq<Group>, os: seq<OtherGroup>, g: Group)
    requires g in gs
    ensures Entry(GroupKind(g), GroupItem(g)) in ExportedEntries(gs, os)
  {
    GroupPartMembers(gs, GroupKind(g), GroupItem(g));
    InBlock(gs, os, Entry(GroupKind(g), GroupItem(g)));
  }

  /** The kind of a restorable group's item is the one its type selects. */
  lemma RestorableGroupKind(g: Group)
    requires RestorableGroup(g)
    ensures (GroupKind(g) == DynamicGroupBlock) == (g.groupType == CategorizeType)
    ensures GroupKind(g) != DynamicGroup
  {
    assert g.rules[0] in g.rules;
  }

  /** Pass 1 on an exported payload: one skeleton per group, under its ref_id. */
  lemma SkeletonsOfExport(gs: seq<Group>, os: seq<OtherGroup>)
    requires RestorableGroups(gs) && RestorableOthers(os)
    ensures var sk := SkeletonsFrom(map[], ExportedEntries(gs, os));
      (forall t :: t in sk <==> exists g :: g in gs && g.refId == t) &&
      (forall g :: g in gs ==> sk[g.refId] == g.(rules := [], children := []))
  {
    var es := ExportedEntries(gs, os);
    var sk := SkeletonsFrom(map[], es);
    forall e | e in es && YieldsSkeleton(e) ensures exists g :: g in gs && e == Entry(GroupKind(g), GroupItem(g)) {
      ExportedEntryCases(gs, os, e);
    }
    SkeletonsKeys(map[], es);
    forall t ensures t in sk <==> exists g :: g in gs && g.refId == t {
      if exists g :: g in gs && g.refId == t {
        var g :| g in gs && g.refId == t;
        GroupEntryVisited(gs, os, g);
        assert RestorableGroup(g);
        RestorableGroupKind(g);
        assert YieldsSkeleton(Entry(GroupKind(g), GroupItem(g)));
      }
    }
    forall g | g in gs ensures sk[g.refId] == g.(rules := [], children := []) {
      var e := Entry(GroupKind(g), GroupItem(g));
      GroupEntryVisited(gs, os, g);
      assert RestorableGroup(g);
      RestorableGroupKind(g);
      forall e' | e' in es && YieldsSkeleton(e') && e'.item.refId == e.item.refId ensures e' == e {
        var g' :| g' in gs && e' == Entry(GroupKind(g'), GroupItem(g'));
        SameRefSameGroup(gs, g, g');
      }
      SkeletonsUnique(map[], es, e);
    }
  }

  /** A child list exported under the ref_id r is re-attached under r and nowhere else. */
  lemma {:induction false} ChildItemsChildren(r: string, cs: seq<DynamicChild>, t: string)
    requires r != ""
    ensures ChildrenFor(Tag(DynamicGroup, ChildItems(r, cs)), t) == if r == t then cs else []
  {
    if cs != [] {
      var items := ChildItems(r, cs);
      assert items[0] == ChildItem(r, cs[0]) && items[1..] == ChildItems(r, cs[1..]);
      var e := Entry(DynamicGroup, items[0]);
      var rest := Tag(DynamicGroup, items[1..]);
      assert Tag(DynamicGroup, items) == [e] + rest;
      ChildrenForCons(e, rest, t);
      assert ChildFor(e, t) == if r == t then [cs[0]] else [];
      ChildItemsChildren(r, cs[1..], t);
      assert cs == [cs[0]] + cs[1..];
    }
  }

  /** Items of a block other than Dynamic Group attach nothing. */
  lemma {:induction false} ChildrenForOtherKind(k: ConstantKind, items: seq<ConstantItem>, t: string)
    requires k != DynamicGroup
    ensures ChildrenFor(Tag(k, items), t) == []
  {
    if items != [] {
      ChildrenForOtherKind(k, items[1..], t);
    }
  }

  /** The "Remaining" items attach nothing. */
  lemma {:induction false} ChildrenForRemaining(items: seq<ConstantItem>, t: string)
    requires forall item :: item in items ==> IsRemaining(item)
    ensures ChildrenFor(Tag(DynamicGroup, items), t) == []
  {
    if items != [] {
      assert items[0] in items;
      assert forall item :: item in items[1..] ==> item in items;
      ChildrenForRemaining(items[1..], t);
    }
  }

  /** The last group's children items attach under t exactly its children when it is named t. */
  lemma ChildrenOfGroupsSnoc(gs: seq<Group>, t: string)
    requires gs != [] && gs[|gs| - 1].refId != ""
    ensures var h := gs[|gs| - 1];
      ChildrenFor(Tag(DynamicGroup, GroupPart(gs, DynamicGroup)), t) ==
        ChildrenFor(Tag(DynamicGroup, GroupPart(gs[..|gs| - 1], DynamicGroup)), t) + (if h.refId == t then h.children else [])
  {
    var gs' := gs[..|gs| - 1];
    var h := gs[|gs| - 1];
    assert GroupPart(gs, DynamicGroup) == GroupPart(gs', DynamicGroup) + ChildItems(h.refId, h.children);
    TagAppend(DynamicGroup, GroupPart(gs', DynamicGroup), ChildItems(h.refId, h.children));
    ChildrenForAppend(Tag(DynamicGroup, GroupPart(gs', DynamicGroup)), Tag(DynamicGroup, ChildItems(h.refId, h.children)), t);
    ChildItemsChildren(h.refId, h.children, t);
  }

  /** The group-derived Dynamic Group items attach nothing under a ref_id no group has. */
  lemma {:induction false} ChildrenOfUnnamed(gs: seq<Group>, t: string)
    requires forall j :: 0 <= j < |gs| ==> gs[j].refId != "" && gs[j].refId != t
    ensures ChildrenFor(Tag(DynamicGroup, GroupPart(gs, DynamicGroup)), t) == []
  {
    if gs != [] {
      var gs' := gs[..|gs| - 1];
      assert forall j :: 0 <= j < |gs'| ==> gs'[j] == gs[j];
      ChildrenOfUnnamed(gs', t);
      ChildrenOfGroupsSnoc(gs, t);
    }
  }

  /** When only the i-th group is named t, the group-derived Dynamic Group items attach under t its children. */
  lemma {:induction false} ChildrenOfGroups(gs: seq<Group>, t: string, i: nat)
    requires forall j :: 0 <= j < |gs| ==> gs[j].refId != ""
    requires i < |gs| && gs[i].refId == t
    requires forall j :: 0 <= j < |gs| && j != i ==> gs[j].refId != t
    ensures ChildrenFor(Tag(DynamicGroup, GroupPart(gs, DynamicGroup)), t) == gs[i].children
  {
    var gs' := gs[..|gs| - 1];
    assert forall j :: 0 <= j < |gs'| ==> gs'[j] == gs[j];
    ChildrenOfGroupsSnoc(gs, t);
    if i == |gs| - 1 {
      ChildrenOfUnnamed(gs', t);
    } else {
      ChildrenOfGroups(gs', t, i);
    }
  }

  /** Pass 2 on an exported payload succeeds and gives every group its children back. */
  lemma AttachOfExport(gs: seq<Group>, os: seq<OtherGroup>)
    requires RestorableGroups(gs) && RestorableOthers(os)
    ensures var es := ExportedEntries(gs, os);
      var m := AttachFrom(SkeletonsFrom(map[], es), es);
      m.Ok? &&
      (forall t :: t in m.value <==> exists g :: g in gs && g.refId == t) &&
      (forall g :: g in gs ==> m.value[g.refId] == g.(rules := []))
  {
    var es := ExportedEntries(gs, os);
    var sk := SkeletonsFrom(map[], es);
    SkeletonsOfExport(gs, os);
    forall g | g in gs ensures g.refId in sk && sk[g.refId].groupType == g.groupType {
      assert g.refId in sk by {
        assert exists g' :: g' in gs && g'.refId == g.refId;
      }
    }
    forall e | e in es ensures AttachCheck(sk, e) == None {
      ExportedEntryAttaches(gs, os, sk, e);
    }
    AttachSucceeds(sk, es);
    AttachResult(sk, es);
    forall g | g in gs ensures ChildrenFor(es, g.refId) == g.children {
      ChildrenOfExport(gs, os, g);
    }
  }

  /** No entry of an exported payload makes pass 2 fail, once every group has its skeleton. */
  lemma ExportedEntryAttaches(gs: seq<Group>, os: seq<OtherGroup>, sk: map<string, Group>, e: Entry)
    requires RestorableGroups(gs) && RestorableOthers(os)
    requires e in ExportedEntries(gs, os)
    requires forall g :: g in gs ==> g.refId in sk && sk[g.refId].groupType == g.groupType
    ensures AttachCheck(sk, e) == None
  {
    ExportedEntryCases(gs, os, e);
    if e.kind == DynamicGroup {
      if exists o :: o in os && ParseKind(o.constantType) == Some(e.kind) && e.item == OtherGroupToJson(o).1 {
        var o :| o in os && ParseKind(o.constantType) == Some(e.kind) && e.item == OtherGroupToJson(o).1;
        assert RestorableOther(o);
        assert IsRemaining(e.item);
      } else if exists g, c :: g in gs && c in g.children && e == Entry(DynamicGroup, ChildItem(g.refId, c)) {
        var g, c :| g in gs && c in g.children && e == Entry(DynamicGroup, ChildItem(g.refId, c));
        assert RestorableGroup(g);
        assert g.refId in sk && sk[g.refId].groupType == g.groupType;
      } else {
        var g :| g in gs && e == Entry(GroupKind(g), GroupItem(g));
        assert RestorableGroup(g);
        RestorableGroupKind(g);
      }
    }
  }

  /** Pass 2 attaches under a group's ref_id exactly the children it exported. */
  lemma ChildrenOfExport(gs: seq<Group>, os: seq<OtherGroup>, g: Group)
    requires RestorableGroups(gs) && RestorableOthers(os) && g in gs
    ensures ChildrenFor(ExportedEntries(gs, os), g.refId) == g.children
  {
    var t := g.refId;
    var gp := GroupPart(gs, DynamicGroup);
    var op := OtherPart(os, DynamicGroup);
    var sTag := Tag(StaticGroup, GroupPart(gs, StaticGroup) + OtherPart(os, StaticGroup));
    var dTag := Tag(DynamicGroup, gp + op);
    var bTag := Tag(DynamicGroupBlock, GroupPart(gs, DynamicGroupBlock) + OtherPart(os, DynamicGroupBlock));
    assert ExportedEntries(gs, os) == sTag + dTag + bTag;
    ChildrenForAppend(sTag + dTag, bTag, t);
    ChildrenForAppend(sTag, dTag, t);
    ChildrenForOtherKind(StaticGroup, GroupPart(gs, StaticGroup) + OtherPart(os, StaticGroup), t);
    ChildrenForOtherKind(DynamicGroupBlock, GroupPart(gs, DynamicGroupBlock) + OtherPart(os, DynamicGroupBlock), t);
    TagAppend(DynamicGroup, gp, op);
    ChildrenForAppend(Tag(DynamicGroup, gp), Tag(DynamicGroup, op), t);
    forall item | item in op ensures IsRemaining(item) {
      OtherPartMembers(os, DynamicGroup, item);
      var o :| o in os && ParseKind(o.constantType) == Some(DynamicGroup) && item == OtherGroupToJson(o).1;
      assert RestorableOther(o);
    }
    ChildrenForRemaining(op, t);
    forall g' | g' in gs ensures g'.refId != "" {
      assert RestorableGroup(g');
    }
    var i :| 0 <= i < |gs| && gs[i] == g;
    assert forall j :: 0 <= j < |gs| ==> gs[j] in gs;
    ChildrenOfGroups(gs, t, i);
    assert ChildrenFor(Tag(DynamicGroup, gp), t) == g.children;
    assert ChildrenFor(dTag, t) == g.children + [];
  }

  // ---------------------------------------------------------------------------
  // Pass 3 on exported rules

  /** The ref_ids of the groups, in order. */
  function Refs(gs: seq<Group>): seq<string>
  {
    if gs == [] then [] else Refs(gs[..|gs| - 1]) + [gs[|gs| - 1].refId]
  }

  lemma {:induction false} RefsElements(gs: seq<Group>)
    ensures |Refs(gs)| == |gs|
    ensures forall i :: 0 <= i < |gs| ==> Refs(gs)[i] == gs[i].refId
  {
    if gs != [] {
      RefsElements(gs[..|gs| - 1]);
    }
  }

  /** n copies of x. */
  function Repeat(x: string, n: nat): seq<string>
  {
    if n == 0 then [] else Repeat(x, n - 1) + [x]
  }

  /** Every exported rule of a group targets that group. */
  lemma ExportedRuleTarget(groupRefId: string, r: Rule)
    requires groupRefId != "" && (r.ruleType == FilterType || r.ruleType == CategorizeType)
    ensures Target(ExportedRule(groupRefId, r)) == groupRefId
  {
  }

  /** The clauses survive the trip through the wire condition. */
  lemma ClausesRoundTrip(cs: seq<Clause>)
    ensures ClausesOf(ExportedClauses(cs)) == cs
  {
  }

  /** A rule exported and imported into a group of its own type comes back, minus combine_with. */
  lemma RuleRoundTrip(groupRefId: string, r: Rule)
    ensures ToFlatRule(ExportedRule(groupRefId, r), r.ruleType) == r.(combineWith := "")
  {
    ClausesRoundTrip(r.conditions);
  }

  lemma ExportedRulesSnoc(groupRefId: string, rules: seq<Rule>)
    requires rules != []
    ensures ExportedRules(groupRefId, rules) ==
      ExportedRules(groupRefId, rules[..|rules| - 1]) + [ExportedRule(groupRefId, rules[|rules| - 1])]
  {
  }

  /** A group's exported rules all target the group. */
  lemma {:induction false} ExportedRulesTargets(groupRefId: string, rules: seq<Rule>)
    requires groupRefId != ""
    requires forall r :: r in rules ==> r.ruleType == FilterType || r.ruleType == CategorizeType
    ensures Targets(ExportedRules(groupRefId, rules)) == Repeat(groupRefId, |rules|)
  {
    if rules != [] {
      var rules' := rules[..|rules| - 1];
      var r := rules[|rules| - 1];
      assert forall x :: x in rules' ==> x in rules;
      ExportedRulesTargets(groupRefId, rules');
      ExportedRulesSnoc(groupRefId, rules);
      var xs := ExportedRules(groupRefId, rules);
      assert xs[..|xs| - 1] == ExportedRules(groupRefId, rules');
      assert r in rules;
      ExportedRuleTarget(groupRefId, r);
    }
  }

  /** A group's exported rules, imported into a group of their type, are that group's rules. */
  lemma {:induction false} ExportedRulesBack(groupRefId: string, rules: seq<Rule>, groupType: string)
    requires groupRefId != ""
    requires forall r :: r in rules ==> r.ruleType == groupType && r.combineWith == ""
    requires groupType == FilterType || groupType == CategorizeType
    ensures RulesFor(ExportedRules(groupRefId, rules), groupRefId, groupType) == rules
  {
    if rules != [] {
      var rules' := rules[..|rules| - 1];
      var r := rules[|rules| - 1];
      assert forall x :: x in rules' ==> x in rules;
      ExportedRulesBack(groupRefId, rules', groupType);
      ExportedRulesSnoc(groupRefId, rules);
      var xs := ExportedRules(groupRefId, rules);
      assert xs[..|xs| - 1] == ExportedRules(groupRefId, rules');
      assert r in rules;
      ExportedRuleTarget(groupRefId, r);
      RuleRoundTrip(groupRefId, r);
      assert r.(combineWith := "") == r;
      assert xs[|xs| - 1] == ExportedRule(groupRefId, r);
      assert RulesFor(xs, groupRefId, groupType) == rules' + [r];
      SnocLast(rules);
    }
  }

  /** Rules exported for another group attach nothing under t. */
  lemma {:induction false} RulesForTargetOther(groupRefId: string, rules: seq<Rule>, t: string, groupType: string)
    requires groupRefId != t && groupRefId != ""
    requires forall r :: r in rules ==> r.ruleType == FilterType || r.ruleType == CategorizeType
    ensures RulesFor(ExportedRules(groupRefId, rules), t, groupType) == []
  {
    if rules != [] {
      var rules' := rules[..|rules| - 1];
      var r := rules[|rules| - 1];
      assert forall x :: x in rules' ==> x in rules;
      RulesForTargetOther(groupRefId, rules', t, groupType);
      ExportedRulesSnoc(groupRefId, rules);
      var xs := ExportedRules(groupRefId, rules);
      assert xs[..|xs| - 1] == ExportedRules(groupRefId, rules');
      assert r in rules;
      ExportedRuleTarget(groupRefId, r);
    }
  }

  /** Repeating one new element at the end adds it once to the first-occurrence order. */
  lemma {:induction false} DedupAppendSame(s: seq<string>, x: string, n: nat)
    requires 0 < n && x !in s
    ensures Dedup(s + Repeat(x, n)) == Dedup(s) + [x]
  {
    var prefix := s + Repeat(x, n - 1);
    assert s + Repeat(x, n) == prefix + [x];
    assert (prefix + [x])[..|prefix + [x]| - 1] == prefix;
    if n == 1 {
      assert prefix == s;
      DedupElements(s);
    } else {
      DedupAppendSame(s, x, n - 1);
    }
  }

  /** A restorable group's rules are all filter or categorize. */
  lemma RestorableRuleTypes(g: Group)
    requires RestorableGroup(g)
    ensures forall r :: r in g.rules ==> r.ruleType == FilterType || r.ruleType == CategorizeType
  {
  }

  /** A prefix of restorable groups is restorable. */
  lemma RestorablePrefix(gs: seq<Group>)
    requires gs != [] && RestorableGroups(gs)
    ensures RestorableGroups(gs[..|gs| - 1])
    ensures gs[|gs| - 1] in gs && RestorableGroup(gs[|gs| - 1])
    ensures forall g :: g in gs[..|gs| - 1] ==> g.refId != gs[|gs| - 1].refId
  {
    var gs' := gs[..|gs| - 1];
    assert forall g :: g in gs' ==> g in gs;
    assert forall i :: 0 <= i < |gs'| ==> gs'[i] == gs[i];
    forall g | g in gs' ensures g.refId != gs[|gs| - 1].refId {
      var j :| 0 <= j < |gs'| && gs'[j] == g;
      assert gs[j] == g;
    }
  }

  /** The first-reference order of the exported rules' targets is the group order. */
  lemma {:induction false} AllRulesTargets(gs: seq<Group>)
    requires RestorableGroups(gs)
    ensures Dedup(Targets(AllRules(gs))) == Refs(gs)
  {
    if gs != [] {
      var gs' := gs[..|gs| - 1];
      var h := gs[|gs| - 1];
      RestorablePrefix(gs);
      AllRulesTargets(gs');
      RestorableRuleTypes(h);
      TargetsAppend(AllRules(gs'), ExportedRules(h.refId, h.rules));
      ExportedRulesTargets(h.refId, h.rules);
      DedupElements(Targets(AllRules(gs')));
      RefsElements(gs');
      assert h.refId !in Refs(gs') by {
        forall i | 0 <= i < |gs'| ensures Refs(gs')[i] != h.refId {
          assert gs'[i] in gs';
        }
      }
      DedupAppendSame(Targets(AllRules(gs')), h.refId, |h.rules|);
    }
  }

  /** Every exported rule is the export of a rule of some group. */
  lemma {:induction false} AllRulesMembers(gs: seq<Group>, rj: RuleJson)
    requires rj in AllRules(gs)
    ensures exists g, r :: g in gs && r in g.rules && rj == ExportedRule(g.refId, r)
  {
    var gs' := gs[..|gs| - 1];
    var h := gs[|gs| - 1];
    assert gs == gs' + [h];
    if rj in AllRules(gs') {
      AllRulesMembers(gs', rj);
    } else {
      var i :| 0 <= i < |h.rules| && ExportedRules(h.refId, h.rules)[i] == rj;
      assert h.rules[i] in h.rules;
    }
  }

  /** The groups' exported rules, imported under t, are nothing when no group is named t. */
  lemma {:induction false} RulesOfNoGroup(gs: seq<Group>, t: string, groupType: string)
    requires forall g :: g in gs ==> RestorableGroup(g) && g.refId != t
    ensures RulesFor(AllRules(gs), t, groupType) == []
  {
    if gs != [] {
      var gs' := gs[..|gs| - 1];
      var h := gs[|gs| - 1];
      assert forall g :: g in gs' ==> g in gs;
      assert h in gs;
      RulesOfNoGroup(gs', t, groupType);
      RulesForAppend(AllRules(gs'), ExportedRules(h.refId, h.rules), t, groupType);
      RestorableRuleTypes(h);
      RulesForTargetOther(h.refId, h.rules, t, groupType);
    }
  }

  /** The groups' exported rules, imported under a group's ref_id, are that group's rules. */
  lemma {:induction false} RulesOfGroups(gs: seq<Group>, i: nat)
    requires RestorableGroups(gs) && i < |gs|
    ensures RulesFor(AllRules(gs), gs[i].refId, gs[i].groupType) == gs[i].rules
  {
    var gs' := gs[..|gs| - 1];
    var h := gs[|gs| - 1];
    var t := gs[i].refId;
    RestorablePrefix(gs);
    RulesForAppend(AllRules(gs'), ExportedRules(h.refId, h.rules), t, gs[i].groupType);
    if i == |gs| - 1 {
      RulesOfNoGroup(gs', t, h.groupType);
      ExportedRulesBack(h.refId, h.rules, h.groupType);
    } else {
      assert gs'[i] == gs[i] && gs'[i] in gs';
      RulesOfGroups(gs', i);
      RestorableRuleTypes(h);
      RulesForTargetOther(h.refId, h.rules, t, gs[i].groupType);
    }
  }

  /** Pass 3 on exported rules, over the lookup of pass 2, rebuilds the groups in order. */
  lemma PlaceOfExport(gs: seq<Group>, m: map<string, Group>)
    requires RestorableGroups(gs)
    requires forall t :: t in m <==> exists g :: g in gs && g.refId == t
    requires forall g :: g in gs ==> m[g.refId] == g.(rules := [])
    ensures PlaceRules(AllRules(gs), m) == Ok(gs)
  {
    var rs := AllRules(gs);
    forall i | 0 <= i < |rs| ensures RuleError(rs[i], m) == None {
      assert rs[i] in rs;
      AllRulesMembers(gs, rs[i]);
      var g, r :| g in gs && r in g.rules && rs[i] == ExportedRule(g.refId, r);
      assert RestorableGroup(g);
      ExportedRuleTarget(g.refId, r);
    }
    FirstRuleErrorNone(rs, m);
    AllRulesTargets(gs);
    NoRuleErrorTargetsKnown(rs, m);
    DedupElements(Targets(rs));
    RefsElements(gs);
    var placed := PlacedGroups(m, Refs(gs), rs);
    forall i | 0 <= i < |gs| ensures placed[i] == gs[i] {
      assert gs[i] in gs;
      RulesOfGroups(gs, i);
      assert m[gs[i].refId] == gs[i].(rules := []);
      assert [] + gs[i].rules == gs[i].rules;
    }
    assert placed == gs;
  }

  // ---------------------------------------------------------------------------
  // Pass 4 on exported catch-alls

  /** The other groups whose type names the kind k, in order. */
  function OfKind(os: seq<OtherGroup>, k: ConstantKind): seq<OtherGroup>
  {
    if os == [] then []
    else OfKind(os[..|os| - 1], k) + (if ParseKind(os[|os| - 1].constantType) == Some(k) then [os[|os| - 1]] else [])
  }

  /** Items that are no catch-all records add nothing to pass 4. */
  lemma {:induction false} NoCatchAll(k: ConstantKind, items: seq<ConstantItem>)
    requires forall item :: item in items ==> !IsCatchAll(Entry(k, item))
    ensures OtherGroupsOf(Tag(k, items)) == []
  {
    if items != [] {
      assert items[0] in items;
      assert forall item :: item in items[1..] ==> item in items;
      NoCatchAll(k, items[1..]);
    }
  }

  /** The group-derived items are never catch-alls. */
  lemma GroupPartNoCatchAll(gs: seq<Group>, k: ConstantKind)
    requires forall g :: g in gs ==> g.refId != ""
    ensures OtherGroupsOf(Tag(k, GroupPart(gs, k))) == []
  {
    forall item | item in GroupPart(gs, k) ensures !IsCatchAll(Entry(k, item)) {
      if k == DynamicGroup {
        GroupPartChildren(gs, item);
      } else {
        GroupPartMembers(gs, k, item);
      }
    }
    NoCatchAll(k, GroupPart(gs, k));
  }

  /** A restorable catch-all is recorded back as itself. */
  lemma OtherRoundTrip(o: OtherGroup, k: ConstantKind)
    requires RestorableOther(o) && ParseKind(o.constantType) == Some(k)
    ensures IsCatchAll(Entry(k, OtherGroupToJson(o).1))
    ensures OtherOf(Entry(k, OtherGroupToJson(o).1)) == o
  {
  }

  /** The catch-all items of a block come back as the other groups of that kind, in order. */
  lemma {:induction false} OtherPartBack(os: seq<OtherGroup>, k: ConstantKind)
    requires forall o :: o in os ==> RestorableOther(o)
    ensures OtherGroupsOf(Tag(k, OtherPart(os, k))) == OfKind(os, k)
  {
    if os != [] {
      var os' := os[..|os| - 1];
      var o := os[|os| - 1];
      assert forall x :: x in os' ==> x in os;
      OtherPartBack(os', k);
      var last := if ParseKind(o.constantType) == Some(k) then [OtherGroupToJson(o).1] else [];
      TagAppend(k, OtherPart(os', k), last);
      OtherGroupsAppend(Tag(k, OtherPart(os', k)), Tag(k, last));
      if ParseKind(o.constantType) == Some(k) {
        assert o in os;
        OtherRoundTrip(o, k);
        var e := Entry(k, OtherGroupToJson(o).1);
        assert Tag(k, last) == [e] + [];
        OtherGroupsCons(e, []);
      }
    }
  }

  /** A prefix of sorted catch-alls is sorted, and all of it comes no later than the last one. */
  lemma RestorableOthersPrefix(os: seq<OtherGroup>)
    requires os != [] && RestorableOthers(os)
    ensures RestorableOthers(os[..|os| - 1])
    ensures RestorableOther(os[|os| - 1]) && ParseKind(os[|os| - 1].constantType) == Some(OtherKind(os[|os| - 1]))
    ensures forall x :: x in os[..|os| - 1] ==> RestorableOther(x) && KindRank(OtherKind(x)) <= KindRank(OtherKind(os[|os| - 1]))
  {
    assert forall x :: x in os[..|os| - 1] ==> x in os;
    assert os[|os| - 1] in os;
  }

  /** Other groups in block order are the Static Group ones, then the Dynamic Group ones, then the rest. */
  lemma {:induction false} OfKindSorted(os: seq<OtherGroup>)
    requires RestorableOthers(os)
    ensures OfKind(os, StaticGroup) + OfKind(os, DynamicGroup) + OfKind(os, DynamicGroupBlock) == os
  {
    if os != [] {
      var os' := os[..|os| - 1];
      var o := os[|os| - 1];
      RestorableOthersPrefix(os);
      OfKindSorted(os');
      var k := OtherKind(o);
      if k == StaticGroup {
        OfKindNone(os', DynamicGroup);
      }
      if k != DynamicGroupBlock {
        OfKindNone(os', DynamicGroupBlock);
      }
      var sg, dg, dgb := OfKind(os', StaticGroup), OfKind(os', DynamicGroup), OfKind(os', DynamicGroupBlock);
      OfKindSnoc(os, StaticGroup);
      OfKindSnoc(os, DynamicGroup);
      OfKindSnoc(os, DynamicGroupBlock);
      assert OfKind(os, StaticGroup) == if k == StaticGroup then sg + [o] else sg;
      assert OfKind(os, DynamicGroup) == if k == DynamicGroup then dg + [o] else dg;
      assert OfKind(os, DynamicGroupBlock) == if k == DynamicGroupBlock then dgb + [o] else dgb;
      AppendInBlock(sg, dg, dgb, o, k);
      SnocLast(os);
      assert sg + dg + dgb + [o] == os;
    }
  }

  lemma OfKindSnoc(os: seq<OtherGroup>, k: ConstantKind)
    requires os != [] && RestorableOther(os[|os| - 1])
    ensures OfKind(os, k) == OfKind(os[..|os| - 1], k) + if OtherKind(os[|os| - 1]) == k then [os[|os| - 1]] else []
  {
  }

  /** Appending a catch-all of the latest kind present to the three block lists appends it to their concatenation. */
  lemma AppendInBlock(s: seq<OtherGroup>, d: seq<OtherGroup>, b: seq<OtherGroup>, o: OtherGroup, k: ConstantKind)
    requires k == StaticGroup ==> d == [] && b == []
    requires k == DynamicGroup ==> b == []
    ensures (if k == StaticGroup then s + [o] else s) + (if k == DynamicGroup then d + [o] else d)
      + (if k == DynamicGroupBlock then b + [o] else b) == s + d + b + [o]
  {
  }

  /** No other group of a kind later than all of them. */
  lemma {:induction false} OfKindNone(os: seq<OtherGroup>, k: ConstantKind)
    requires forall o :: o in os ==> RestorableOther(o) && KindRank(OtherKind(o)) < KindRank(k)
    ensures OfKind(os, k) == []
  {
    if os != [] {
      var os' := os[..|os| - 1];
      assert forall x :: x in os' ==> x in os;
      assert os[|os| - 1] in os;
      OfKindNone(os', k);
    }
  }

  /** Pass 4 on an exported payload gives the other groups back. */
  lemma OthersOfExport(gs: seq<Group>, os: seq<OtherGroup>)
    requires RestorableGroups(gs) && RestorableOthers(os)
    ensures OtherGroupsOf(ExportedEntries(gs, os)) == os
  {
    assert forall g :: g in gs ==> g.refId != "" by {
      forall g | g in gs ensures g.refId != "" {
        assert RestorableGroup(g);
      }
    }
    var ks := [StaticGroup, DynamicGroup, DynamicGroupBlock];
    forall k | k in ks ensures OtherGroupsOf(Tag(k, GroupPart(gs, k) + OtherPart(os, k))) == OfKind(os, k) {
      TagAppend(k, GroupPart(gs, k), OtherPart(os, k));
      OtherGroupsAppend(Tag(k, GroupPart(gs, k)), Tag(k, OtherPart(os, k)));
      GroupPartNoCatchAll(gs, k);
      OtherPartBack(os, k);
    }
    var sTag := Tag(StaticGroup, GroupPart(gs, StaticGroup) + OtherPart(os, StaticGroup));
    var dTag := Tag(DynamicGroup, GroupPart(gs, DynamicGroup) + OtherPart(os, DynamicGroup));
    var bTag := Tag(DynamicGroupBlock, GroupPart(gs, DynamicGroupBlock) + OtherPart(os, DynamicGroupBlock));
    OtherGroupsAppend(sTag + dTag, bTag);
    OtherGroupsAppend(sTag, dTag);
    OfKindSorted(os);
  }

  // ---------------------------------------------------------------------------
  // The round trips

  lemma ParseFormatBool(b: bool)
    ensures ParseBool(FormatBool(b)) == Some(b)
  {
  }

  /** A restorable state passes every export check. */
  lemma RestorableExports(f: FlatState, uuid: nat -> string)
    requires Restorable(f)
    ensures FilledIn(f.groups, uuid, 0) == f.groups
    ensures Export(f, uuid).Ok?
  {
    forall g | g in f.groups ensures g.refId != "" && GroupError(g) == None {
      assert RestorableGroup(g);
      GroupAccepted(g);
      forall i | 0 <= i < |g.rules| ensures RuleKind(g.rules[i].ruleType).Some? && g.rules[i].ruleType == g.rules[0].ruleType {
        assert g.rules[i] in g.rules && g.rules[0] in g.rules;
      }
    }
    FilledInComplete(f.groups, uuid, 0);
    GroupsAccepted(f.groups);
    forall o | o in f.otherGroups ensures ParseKind(o.constantType).Some? {
      assert RestorableOther(o);
    }
    OthersAccepted(f.otherGroups);
  }

  /**
   * Importing the export of a restorable state gives the state back: the
   * same name and flag, the same groups in the same order with the same
   * rules and children, and the same catch-alls.
   */
  lemma ImportExport(f: FlatState, uuid: nat -> string)
    requires Restorable(f)
    ensures Export(f, uuid).Ok?
    ensures Import(Decoded(Export(f, uuid).value)) == Ok(f)
  {
    RestorableExports(f, uuid);
    var gs := f.groups;
    var os := f.otherGroups;
    var bs := [Block(gs, os, StaticGroup), Block(gs, os, DynamicGroup), Block(gs, os, DynamicGroupBlock)];
    var p := Export(f, uuid).value;
    assert p.schema.constants == NonEmptyBlocks(bs);
    assert p.schema.rules == AllRules(gs);
    EntriesNonEmpty(bs);
    EntriesOfThree(bs[0], bs[1], bs[2]);
    var es := Entries(p.schema.constants);
    assert es == ExportedEntries(gs, os);
    AttachOfExport(gs, os);
    var m := AttachFrom(SkeletonsFrom(map[], es), es).value;
    PlaceOfExport(gs, m);
    OthersOfExport(gs, os);
    ParseFormatBool(f.includeInReports.value);
  }

  /**
   * A state whose ref_ids the export fills in comes back with the filled-in
   * ids: importing the export gives the persisted state.
   */
  lemma ImportExportFilled(f: FlatState, uuid: nat -> string)
    requires Restorable(f.(groups := Persisted(f, uuid)))
    ensures Export(f, uuid).Ok?
    ensures Import(Decoded(Export(f, uuid).value)) == Ok(f.(groups := Persisted(f, uuid)))
  {
    var f' := f.(groups := Persisted(f, uuid));
    RestorableExports(f', uuid);
    assert Export(f, uuid) == Export(f', uuid);
    ImportExport(f', uuid);
  }

  /**
   * Exporting the import of an exported payload gives the payload back, with
   * any supply of new ids (none is drawn).
   */
  lemma ExportImport(f: FlatState, uuid: nat -> string, uuid2: nat -> string)
    requires Restorable(f)
    ensures Export(f, uuid).Ok?
    ensures var p := Export(f, uuid).value;
      Import(Decoded(p)).Ok? && Export(Import(Decoded(p)).value, uuid2) == Ok(p)
  {
    ImportExport(f, uuid);
    RestorableExports(f, uuid);
    RestorableExports(f, uuid2);
  }
}
