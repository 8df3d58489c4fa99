/**
 * The importer: a decoded perspective-schema payload becomes the flat state.
 *
 * It works in four passes over the payload, each a method with its loops:
 * JsonToGroups builds one skeleton group per Static Group and Dynamic Group
 * Block item, keyed by ref_id; PopulateDynamicGroups hangs every Dynamic Group
 * item under the block its blk_id names; PopulateRules walks the rules in wire
 * order, appending each group to the output the first time a rule targets it
 * and each rule to its group; FindOtherGroups collects the catch-all items.
 * Each method is proved equal to a specification function, and the lemmas
 * below say what those functions mean.
 */
module JsonToTf {
  import opened Wrappers
  import opened Perspective
  import opened Seqs

  // ---------------------------------------------------------------------------
  // Decoding and errors

  /** Why the strict codec refused the bytes. */
  datatype DecodeError = UnknownField(field: string) | MalformedJson(reason: string)

  /** What the strict codec made of the raw bytes. */
  datatype Decoded = Decoded(pj: PerspectiveJson) | Undecodable(reason: DecodeError)

  /**
   * Why an import failed. The last four after Unparsable are the Go code's
   * own error returns; MissingBlkId, ChildOfStaticGroup and UnknownTarget
   * stand for the places where the Go code would panic instead.
   */
  datatype ImportError =
    | Unparsable(reason: DecodeError)
    | MissingBlkId(itemName: string)
    | DanglingBlkId(itemName: string, blkId: string)
    | ChildOfStaticGroup(itemName: string, blkId: string)
    | RuleWithoutTarget(ruleType: string)
    | UnknownTarget(target: string)
    | RuleTypeMismatch(ruleType: string, expected: string)

  /** strconv.ParseBool: the twelve spellings it accepts, and nothing else. */
  function ParseBool(s: string): Option<bool>
  {
    if s == "1" || s == "t" || s == "T" || s == "TRUE" || s == "true" || s == "True" then Some(true)
    else if s == "0" || s == "f" || s == "F" || s == "FALSE" || s == "false" || s == "False" then Some(false)
    else None
  }

  // ---------------------------------------------------------------------------
  // The constant items in wire order, each with the kind of its block

  datatype Entry = Entry(kind: ConstantKind, item: ConstantItem)

  /** The items of one block, tagged with the block's kind. */
  function Tag(k: ConstantKind, items: seq<ConstantItem>): (es: seq<Entry>)
  {
    if items == [] then [] else [Entry(k, items[0])] + Tag(k, items[1..])
  }

  /** Every item of every block, in the order the nested loops visit them. */
  function Entries(cs: seq<ConstantJson>): seq<Entry>
  {
    if cs == [] then [] else Tag(cs[0].kind, cs[0].list) + Entries(cs[1..])
  }

  /** One item of a block visited: the tagged remainder loses its first entry. */
  lemma TagStep(k: ConstantKind, items: seq<ConstantItem>, i: nat, tail: seq<Entry>)
    requires i < |items|
    ensures Tag(k, items[i..]) + tail == [Entry(k, items[i])] + (Tag(k, items[i + 1..]) + tail)
  {
    assert items[i..][1..] == items[i + 1..];
  }

  /** At the start of a block the tagged remainder is the whole block, at its end nothing. */
  lemma TagEnds(k: ConstantKind, items: seq<ConstantItem>, tail: seq<Entry>)
    ensures Tag(k, items[0..]) + tail == Tag(k, items) + tail
    ensures Tag(k, items[|items|..]) + tail == tail
  {
    assert items[0..] == items;
    assert items[|items|..] == [];
  }

  lemma EntriesFrom(cs: seq<ConstantJson>, b: nat)
    requires b < |cs|
    ensures Entries(cs[b..]) == Tag(cs[b].kind, cs[b].list) + Entries(cs[b + 1..])
  {
    assert cs[b..][1..] == cs[b + 1..];
  }

  // ---------------------------------------------------------------------------
  // Pass 1: skeleton groups (jsonToGroups)

  /** A non-catch-all item of a Static Group or Dynamic Group Block block. */
  predicate YieldsSkeleton(e: Entry)
  {
    (e.kind == StaticGroup || e.kind == DynamicGroupBlock) && e.item.isOther != "true"
  }

  /** The group an item stands for: its name and ref_id, no rules, no children yet. */
  function SkeletonOf(e: Entry): Group
  {
    Group(e.item.name, e.item.refId, if e.kind == DynamicGroupBlock then CategorizeType else FilterType, [], [])
  }

  /** The lookup after visiting es, starting from m; a later item overwrites an earlier one. */
  function SkeletonsFrom(m: map<string, Group>, es: seq<Entry>): map<string, Group>
    decreases es
  {
    if es == [] then m else SkeletonsFrom(SkeletonStep(m, es[0]), es[1..])
  }

  /** One item visited: a skeleton-yielding item (over)writes its ref_id. */
  function SkeletonStep(m: map<string, Group>, e: Entry): map<string, Group>
  {
    if YieldsSkeleton(e) then m[e.item.refId := SkeletonOf(e)] else m
  }

  lemma SkeletonsCons(m: map<string, Group>, e: Entry, es: seq<Entry>)
    ensures SkeletonsFrom(m, [e] + es) == SkeletonsFrom(SkeletonStep(m, e), es)
  {
    assert ([e] + es)[1..] == es;
  }

  lemma SkeletonsTagStep(m: map<string, Group>, k: ConstantKind, items: seq<ConstantItem>, i: nat, tail: seq<Entry>)
    requires i < |items|
    ensures SkeletonsFrom(m, Tag(k, items[i..]) + tail)
      == SkeletonsFrom(SkeletonStep(m, Entry(k, items[i])), Tag(k, items[i + 1..]) + tail)
  {
    TagStep(k, items, i, tail);
    SkeletonsCons(m, Entry(k, items[i]), Tag(k, items[i + 1..]) + tail);
  }

  lemma {:induction false} SkeletonsSkipBlock(m: map<string, Group>, items: seq<ConstantItem>, rest: seq<Entry>)
    ensures SkeletonsFrom(m, Tag(DynamicGroup, items) + rest) == SkeletonsFrom(m, rest)
    decreases items
  {
    if items != [] {
      assert Tag(DynamicGroup, items) + rest == [Entry(DynamicGroup, items[0])] + (Tag(DynamicGroup, items[1..]) + rest);
      SkeletonsCons(m, Entry(DynamicGroup, items[0]), Tag(DynamicGroup, items[1..]) + rest);
      SkeletonsSkipBlock(m, items[1..], rest);
    } else {
      assert Tag(DynamicGroup, items) + rest == rest;
    }
  }

  /** A key is in the lookup exactly when it was there before or some skeleton-yielding item has it as ref_id. */
  lemma {:induction false} SkeletonsKeys(m: map<string, Group>, es: seq<Entry>)
    ensures forall t :: t in SkeletonsFrom(m, es) <==>
      (t in m || exists e :: e in es && YieldsSkeleton(e) && e.item.refId == t)
    decreases es
  {
    if es != [] {
      var m' := SkeletonStep(m, es[0]);
      SkeletonsKeys(m', es[1..]);
      assert es == [es[0]] + es[1..];
    }
  }

  /** Keys that no item names keep their value. */
  lemma {:induction false} SkeletonsUntouched(m: map<string, Group>, es: seq<Entry>, t: string)
    requires t in m
    requires forall e :: e in es && YieldsSkeleton(e) ==> e.item.refId != t
    ensures t in SkeletonsFrom(m, es) && SkeletonsFrom(m, es)[t] == m[t]
    decreases es
  {
    if es != [] {
      var m' := SkeletonStep(m, es[0]);
      assert es[0] in es;
      forall e | e in es[1..] && YieldsSkeleton(e) ensures e.item.refId != t {
        assert e in es;
      }
      SkeletonsUntouched(m', es[1..], t);
    }
  }

  /**
   * The last skeleton-yielding item with a given ref_id decides the group
   * stored under it (Go's map assignment overwrites).
   */
  lemma {:induction false} SkeletonsLastWins(m: map<string, Group>, es: seq<Entry>, i: nat)
    requires i < |es| && YieldsSkeleton(es[i])
    requires forall j :: i < j < |es| && YieldsSkeleton(es[j]) ==> es[j].item.refId != es[i].item.refId
    ensures es[i].item.refId in SkeletonsFrom(m, es)
    ensures SkeletonsFrom(m, es)[es[i].item.refId] == SkeletonOf(es[i])
    decreases es
  {
    var m' := SkeletonStep(m, es[0]);
    if i == 0 {
      forall e | e in es[1..] && YieldsSkeleton(e) ensures e.item.refId != es[0].item.refId {
        var j :| 0 <= j < |es[1..]| && es[1..][j] == e;
        assert es[j + 1] == e;
      }
      SkeletonsUntouched(m', es[1..], es[0].item.refId);
    } else {
      SkeletonsLastWins(m', es[1..], i - 1);
    }
  }

  /** When every skeleton-yielding item with e's ref_id is e itself, the lookup holds e's skeleton. */
  lemma {:induction false} SkeletonsUnique(m: map<string, Group>, es: seq<Entry>, e: Entry)
    requires e in es && YieldsSkeleton(e)
    requires forall e' :: e' in es && YieldsSkeleton(e') && e'.item.refId == e.item.refId ==> e' == e
    ensures e.item.refId in SkeletonsFrom(m, es)
    ensures SkeletonsFrom(m, es)[e.item.refId] == SkeletonOf(e)
    decreases es
  {
    var m' := SkeletonStep(m, es[0]);
    assert es == [es[0]] + es[1..];
    if e in es[1..] {
      SkeletonsUnique(m', es[1..], e);
    } else {
      assert es[0] == e;
      forall e' | e' in es[1..] && YieldsSkeleton(e') ensures e'.item.refId != e.item.refId {
        assert e' in es;
      }
      SkeletonsUntouched(m', es[1..], e.item.refId);
    }
  }

  /** Visiting a concatenation visits its first part, then its second. */
  lemma {:induction false} SkeletonsAppend(m: map<string, Group>, a: seq<Entry>, b: seq<Entry>)
    ensures SkeletonsFrom(m, a + b) == SkeletonsFrom(SkeletonsFrom(m, a), b)
    decreases a
  {
    if a == [] {
      assert a + b == b;
    } else {
      assert (a + b)[1..] == a[1..] + b;
      SkeletonsAppend(SkeletonStep(m, a[0]), a[1..], b);
    }
  }

  /** The inner loop of jsonToGroups: the items of one Static Group or Dynamic Group Block block, in order. */
  method BlockSkeletons(groupByRef0: map<string, Group>, constant: ConstantJson) returns (groupByRef: map<string, Group>)
    requires constant.kind == StaticGroup || constant.kind == DynamicGroupBlock
    ensures groupByRef == SkeletonsFrom(groupByRef0, Tag(constant.kind, constant.list))
  {
    ghost var goal := SkeletonsFrom(groupByRef0, Tag(constant.kind, constant.list) + []);
    TagEnds(constant.kind, constant.list, []);
    groupByRef := groupByRef0;
    var i := 0;
    while i < |constant.list|
      invariant 0 <= i <= |constant.list|
      invariant SkeletonsFrom(groupByRef, Tag(constant.kind, constant.list[i..]) + []) == goal
    {
      var item := constant.list[i];
      SkeletonsTagStep(groupByRef, constant.kind, constant.list, i, []);
      ghost var next := SkeletonStep(groupByRef, Entry(constant.kind, item));
      if item.isOther != "true" {
        var group := Group(item.name, item.refId,
                           if constant.kind == DynamicGroupBlock then CategorizeType else FilterType, [], []);
        groupByRef := groupByRef[item.refId := group];
      }
      assert groupByRef == next;
      i := i + 1;
    }
    TagEnds(constant.kind, constant.list, []);
    assert Tag(constant.kind, constant.list) + [] == Tag(constant.kind, constant.list);
  }

  /** jsonToGroups: the skeleton lookup, filled block by block. */
  method JsonToGroups(pj: PerspectiveJson) returns (groupByRef: map<string, Group>)
    ensures groupByRef == SkeletonsFrom(map[], Entries(pj.schema.constants))
  {
    var cs := pj.schema.constants;
    ghost var goal := SkeletonsFrom(map[], Entries(cs));
    groupByRef := map[];
    var b := 0;
    while b < |cs|
      invariant 0 <= b <= |cs|
      invariant SkeletonsFrom(groupByRef, Entries(cs[b..])) == goal
    {
      var constant := cs[b];
      EntriesFrom(cs, b);
      if constant.kind != StaticGroup && constant.kind != DynamicGroupBlock {
        SkeletonsSkipBlock(groupByRef, constant.list, Entries(cs[b + 1..]));
        b := b + 1;
        continue;
      }
      SkeletonsAppend(groupByRef, Tag(constant.kind, constant.list), Entries(cs[b + 1..]));
      groupByRef := BlockSkeletons(groupByRef, constant);
      b := b + 1;
    }
  }

  // ---------------------------------------------------------------------------
  // Pass 2: Dynamic Group children (populateDynamicGroups)

  /** The "Remaining" catch-all of the Dynamic Group block: no owner, handled as an other group. */
  predicate IsRemaining(item: ConstantItem)
  {
    item.blkId == Some("") && item.name == "Remaining"
  }

  /** The child a Dynamic Group item becomes. */
  function ChildOf(item: ConstantItem): DynamicChild
  {
    DynamicChild(item.name, item.val, item.refId)
  }

  /** What is wrong with attaching e, given the lookup m; None when nothing is. */
  function AttachCheck(m: map<string, Group>, e: Entry): Option<ImportError>
  {
    if e.kind != DynamicGroup then None
    else match e.item.blkId
      case None => Some(MissingBlkId(e.item.name))
      case Some(blk) =>
        if IsRemaining(e.item) then None
        else if blk !in m then Some(DanglingBlkId(e.item.name, blk))
        else if m[blk].groupType != CategorizeType then Some(ChildOfStaticGroup(e.item.name, blk))
        else None
  }

  /** The lookup after e has been attached (when e is a child at all). */
  function AttachApply(m: map<string, Group>, e: Entry): map<string, Group>
    requires AttachCheck(m, e) == None
  {
    if e.kind != DynamicGroup || IsRemaining(e.item) then m
    else
      var blk := e.item.blkId.value;
      m[blk := m[blk].(children := m[blk].children + [ChildOf(e.item)])]
  }

  function AttachFrom(m: map<string, Group>, es: seq<Entry>): Result<map<string, Group>, ImportError>
    decreases es
  {
    if es == [] then Ok(m)
    else match AttachCheck(m, es[0])
      case Some(err) => Err(err)
      case None => AttachFrom(AttachApply(m, es[0]), es[1..])
  }

  lemma AttachCons(m: map<string, Group>, e: Entry, es: seq<Entry>)
    ensures AttachFrom(m, [e] + es) ==
      match AttachCheck(m, e)
      case Some(err) => Err(err)
      case None => AttachFrom(AttachApply(m, e), es)
  {
    assert ([e] + es)[0] == e && ([e] + es)[1..] == es;
  }

  /** The children that es attaches under the key t, in wire order. */
  function ChildrenFor(es: seq<Entry>, t: string): seq<DynamicChild>
  {
    if es == [] then [] else ChildFor(es[0], t) + ChildrenFor(es[1..], t)
  }

  /** Two lookups with the same keys and the same group types. */
  ghost predicate SameTypes(m: map<string, Group>, m': map<string, Group>)
  {
    m.Keys == m'.Keys && forall t :: t in m ==> m'[t].groupType == m[t].groupType
  }

  lemma AttachCheckShape(m: map<string, Group>, m': map<string, Group>, e: Entry)
    requires SameTypes(m, m')
    ensures AttachCheck(m', e) == AttachCheck(m, e)
  {
  }

  lemma AttachTagStep(m: map<string, Group>, k: ConstantKind, items: seq<ConstantItem>, i: nat, tail: seq<Entry>)
    requires i < |items|
    ensures AttachFrom(m, Tag(k, items[i..]) + tail) ==
      match AttachCheck(m, Entry(k, items[i]))
      case Some(err) => Err(err)
      case None => AttachFrom(AttachApply(m, Entry(k, items[i])), Tag(k, items[i + 1..]) + tail)
  {
    TagStep(k, items, i, tail);
    AttachCons(m, Entry(k, items[i]), Tag(k, items[i + 1..]) + tail);
  }

  lemma {:induction false} AttachSkipBlock(m: map<string, Group>, k: ConstantKind, items: seq<ConstantItem>, rest: seq<Entry>)
    requires k != DynamicGroup
    ensures AttachFrom(m, Tag(k, items) + rest) == AttachFrom(m, rest)
    decreases items
  {
    if items != [] {
      assert Tag(k, items) + rest == [Entry(k, items[0])] + (Tag(k, items[1..]) + rest);
      AttachCons(m, Entry(k, items[0]), Tag(k, items[1..]) + rest);
      AttachSkipBlock(m, k, items[1..], rest);
    } else {
      assert Tag(k, items) + rest == rest;
    }
  }

  /** The child es[0] contributes under t: itself when it is a Dynamic Group item naming t. */
  function ChildFor(e: Entry, t: string): seq<DynamicChild>
  {
    if e.kind == DynamicGroup && !IsRemaining(e.item) && e.item.blkId == Some(t) then [ChildOf(e.item)] else []
  }

  /** Attaching one item changes no key and no group type; it extends the children of its owner. */
  lemma AttachApplyEffect(m: map<string, Group>, e: Entry)
    requires AttachCheck(m, e) == None
    ensures SameTypes(m, AttachApply(m, e))
    ensures forall t :: t in m ==> AttachApply(m, e)[t] == m[t].(children := m[t].children + ChildFor(e, t))
  {
  }

  /** Pass 2 succeeds exactly when no item is wrong, judged against the lookup it starts from. */
  lemma {:induction false} AttachSucceeds(m: map<string, Group>, es: seq<Entry>)
    ensures AttachFrom(m, es).Ok? <==> forall e :: e in es ==> AttachCheck(m, e) == None
    decreases es
  {
    if es != [] {
      assert es == [es[0]] + es[1..];
      if AttachCheck(m, es[0]).None? {
        var m1 := AttachApply(m, es[0]);
        AttachApplyEffect(m, es[0]);
        forall e ensures AttachCheck(m1, e) == AttachCheck(m, e) {
          AttachCheckShape(m, m1, e);
        }
        AttachSucceeds(m1, es[1..]);
      }
    }
  }

  /**
   * After a successful pass 2 every group keeps everything but gains, at the
   * end of its child list, the children naming it, in wire order.
   */
  lemma {:induction false} AttachResult(m: map<string, Group>, es: seq<Entry>)
    requires AttachFrom(m, es).Ok?
    ensures AttachFrom(m, es).value.Keys == m.Keys
    ensures forall t :: t in m ==>
      AttachFrom(m, es).value[t] == m[t].(children := m[t].children + ChildrenFor(es, t))
    decreases es
  {
    if es != [] {
      var m1 := AttachApply(m, es[0]);
      AttachApplyEffect(m, es[0]);
      AttachResult(m1, es[1..]);
      var m' := AttachFrom(m, es).value;
      forall t | t in m
        ensures m'[t] == m[t].(children := m[t].children + ChildrenFor(es, t))
      {
        ExtendTwice(m[t], m1[t], m'[t], ChildFor(es[0], t), ChildrenFor(es[1..], t));
      }
    }
  }

  lemma ExtendTwice(g: Group, g1: Group, g2: Group, a: seq<DynamicChild>, b: seq<DynamicChild>)
    requires g1 == g.(children := g.children + a) && g2 == g1.(children := g1.children + b)
    ensures g2 == g.(children := g.children + (a + b))
  {
    assert g.children + a + b == g.children + (a + b);
  }

  /** A failed pass 2 reports the first item that is wrong. */
  lemma {:induction false} AttachFirstError(m: map<string, Group>, es: seq<Entry>)
    requires AttachFrom(m, es).Err?
    ensures exists i ::
              0 <= i < |es| && AttachCheck(m, es[i]) == Some(AttachFrom(m, es).error) &&
              forall j :: 0 <= j < i ==> AttachCheck(m, es[j]) == None
    decreases es
  {
    if AttachCheck(m, es[0]).None? {
      var m1 := AttachApply(m, es[0]);
      assert SameTypes(m, m1);
      AttachFirstError(m1, es[1..]);
      var i :| 0 <= i < |es[1..]| && AttachCheck(m1, es[1..][i]) == Some(AttachFrom(m1, es[1..]).error) &&
        forall j :: 0 <= j < i ==> AttachCheck(m1, es[1..][j]) == None;
      AttachCheckShape(m, m1, es[i + 1]);
      forall j | 0 <= j < i + 1 ensures AttachCheck(m, es[j]) == None {
        if j > 0 {
          AttachCheckShape(m, m1, es[j]);
          assert es[j] == es[1..][j - 1];
        }
      }
    }
  }

  /** populateDynamicGroups: children appended into the owning groups of the lookup. */
  method PopulateDynamicGroups(pj: PerspectiveJson, groupByRef: map<string, Group>)
    returns (r: Result<map<string, Group>, ImportError>)
    ensures r == AttachFrom(groupByRef, Entries(pj.schema.constants))
  {
    var cs := pj.schema.constants;
    ghost var goal := AttachFrom(groupByRef, Entries(cs));
    var byRef := groupByRef;
    var b := 0;
    while b < |cs|
      invariant 0 <= b <= |cs|
      invariant AttachFrom(byRef, Entries(cs[b..])) == goal
    {
      var constant := cs[b];
      EntriesFrom(cs, b);
      if constant.kind != DynamicGroup {
        AttachSkipBlock(byRef, constant.kind, constant.list, Entries(cs[b + 1..]));
        b := b + 1;
        continue;
      }
      AttachAppend(byRef, Tag(constant.kind, constant.list), Entries(cs[b + 1..]));
      var attached := BlockChildren(byRef, constant);
      if attached.Err? {
        return Err(attached.error);
      }
      byRef := attached.value;
      b := b + 1;
    }
    return Ok(byRef);
  }

  /** The inner loop of populateDynamicGroups: the items of one Dynamic Group block, in order, stopping at the first error. */
  method BlockChildren(byRef0: map<string, Group>, constant: ConstantJson) returns (r: Result<map<string, Group>, ImportError>)
    requires constant.kind == DynamicGroup
    ensures r == AttachFrom(byRef0, Tag(constant.kind, constant.list))
  {
    ghost var goal := AttachFrom(byRef0, Tag(constant.kind, constant.list) + []);
    assert Tag(constant.kind, constant.list) + [] == Tag(constant.kind, constant.list);
    TagEnds(constant.kind, constant.list, []);
    var byRef := byRef0;
    var i := 0;
    while i < |constant.list|
      invariant 0 <= i <= |constant.list|
      invariant AttachFrom(byRef, Tag(constant.kind, constant.list[i..]) + []) == goal
    {
      var item := constant.list[i];
      AttachTagStep(byRef, constant.kind, constant.list, i, []);
      ghost var e := Entry(constant.kind, item);
      ghost var old_byRef := byRef;
      if item.blkId.None? {
        return Err(MissingBlkId(item.name));
      }
      var blk := item.blkId.value;
      if !(blk == "" && item.name == "Remaining") {
        var child := DynamicChild(item.name, item.val, item.refId);
        if blk !in byRef {
          return Err(DanglingBlkId(item.name, blk));
        }
        var owningGroup := byRef[blk];
        if owningGroup.groupType != CategorizeType {
          return Err(ChildOfStaticGroup(item.name, blk));
        }
        byRef := byRef[blk := owningGroup.(children := owningGroup.children + [child])];
      }
      assert AttachCheck(old_byRef, e) == None && byRef == AttachApply(old_byRef, e);
      i := i + 1;
    }
    TagEnds(constant.kind, constant.list, []);
    return Ok(byRef);
  }

  /** Attaching a concatenation attaches its first part, then, unless that failed, its second. */
  lemma {:induction false} AttachAppend(m: map<string, Group>, a: seq<Entry>, b: seq<Entry>)
    ensures AttachFrom(m, a + b) ==
      match AttachFrom(m, a)
      case Err(err) => Err(err)
      case Ok(m') => AttachFrom(m', b)
    decreases a
  {
    if a == [] {
      assert a + b == b;
    } else {
      assert (a + b)[0] == a[0] && (a + b)[1..] == a[1..] + b;
      if AttachCheck(m, a[0]).None? {
        AttachAppend(AttachApply(m, a[0]), a[1..], b);
      }
    }
  }

  // ---------------------------------------------------------------------------
  // Pass 3: rules and group order (populateRules, buildCondition)

  /** A rule's target: `to` when set, otherwise `ref_id`. */
  function Target(r: RuleJson): string
  {
    if r.to != "" then r.to else r.refId
  }

  /** The targets of the rules, in wire order. */
  function Targets(rs: seq<RuleJson>): (ts: seq<string>)
  {
    if rs == [] then [] else Targets(rs[..|rs| - 1]) + [Target(rs[|rs| - 1])]
  }

  /** Targets lists one target per rule, position by position. */
  lemma {:induction false} TargetsElements(rs: seq<RuleJson>)
    ensures |Targets(rs)| == |rs|
    ensures forall i :: 0 <= i < |rs| ==> Targets(rs)[i] == Target(rs[i])
  {
    if rs != [] {
      TargetsElements(rs[..|rs| - 1]);
    }
  }

  /** What is wrong with one rule, given the lookup. */
  function RuleError(r: RuleJson, m: map<string, Group>): Option<ImportError>
  {
    var t := Target(r);
    if t == "" then Some(RuleWithoutTarget(r.ruleType))
    else if t !in m then Some(UnknownTarget(t))
    else if r.ruleType != m[t].groupType then Some(RuleTypeMismatch(r.ruleType, m[t].groupType))
    else None
  }

  /** The error of the first rule that has one. */
  function FirstRuleError(rs: seq<RuleJson>, m: map<string, Group>): Option<ImportError>
  {
    if rs == [] then None
    else match FirstRuleError(rs[..|rs| - 1], m)
      case Some(err) => Some(err)
      case None => RuleError(rs[|rs| - 1], m)
  }

  /** The distinct elements of s, in the order of their first occurrence. */
  function Dedup(s: seq<string>): seq<string>
  {
    if s == [] then []
    else
      var d := Dedup(s[..|s| - 1]);
      if s[|s| - 1] in d then d else d + [s[|s| - 1]]
  }

  /** The first position of x in s. */
  function IndexOf(s: seq<string>, x: string): (p: nat)
    requires x in s
    ensures p < |s| && s[p] == x && forall q :: 0 <= q < p ==> s[q] != x
  {
    if s[0] == x then 0 else 1 + IndexOf(s[1..], x)
  }

  /** A Dedup-ed sequence has the same elements as s. */
  lemma {:induction false} DedupElements(s: seq<string>)
    ensures forall x :: x in Dedup(s) <==> x in s
  {
    if s != [] {
      DedupElements(s[..|s| - 1]);
      assert s == s[..|s| - 1] + [s[|s| - 1]];
    }
  }

  /** A Dedup-ed sequence has no repeats. */
  lemma {:induction false} DedupDistinct(s: seq<string>)
    ensures forall i, j :: 0 <= i < j < |Dedup(s)| ==> Dedup(s)[i] != Dedup(s)[j]
  {
    if s != [] {
      DedupDistinct(s[..|s| - 1]);
    }
  }

  /** Dedup keeps the order of first occurrence. */
  lemma {:induction false} DedupFirstOccurrence(s: seq<string>, i: nat, j: nat)
    requires i < j < |Dedup(s)|
    ensures Dedup(s)[i] in s && Dedup(s)[j] in s
    ensures IndexOf(s, Dedup(s)[i]) < IndexOf(s, Dedup(s)[j])
  {
    var s' := s[..|s| - 1];
    var y := s[|s| - 1];
    var d := Dedup(s');
    DedupElements(s');
    DedupElements(s);
    assert s == s' + [y];
    forall x | x in s' ensures IndexOf(s, x) == IndexOf(s', x) {
      IndexPrefix(s', y, x);
    }
    if y in d {
      DedupFirstOccurrence(s', i, j);
    } else if j < |d| {
      DedupFirstOccurrence(s', i, j);
    } else {
      assert Dedup(s)[j] == y && y !in s';
      assert IndexOf(s, y) == |s'|;
    }
  }

  lemma IndexPrefix(s: seq<string>, y: string, x: string)
    requires x in s
    ensures x in s + [y] && IndexOf(s + [y], x) == IndexOf(s, x)
  {
    var p := IndexOf(s, x);
    var q := IndexOf(s + [y], x);
    assert (s + [y])[p] == x;
  }

  /** One clause copied into a flat clause. */
  function FlatClauseOf(c: ClauseJson): Clause
  {
    Clause(c.field, c.tagField, c.op, c.val)
  }

  /** The flat condition list of a wire clause list, clause by clause. */
  function ClausesOf(cs: seq<ClauseJson>): seq<Clause>
  {
    seq(|cs|, i requires 0 <= i < |cs| => FlatClauseOf(cs[i]))
  }

  /** buildCondition: fills a slice of the same length, in order. */
  method BuildCondition(jsonClauses: seq<ClauseJson>) returns (clauses: seq<Clause>)
    ensures |clauses| == |jsonClauses|
    ensures forall i :: 0 <= i < |jsonClauses| ==>
      clauses[i] == Clause(jsonClauses[i].field, jsonClauses[i].tagField, jsonClauses[i].op, jsonClauses[i].val)
    ensures clauses == ClausesOf(jsonClauses)
  {
    var a := new Clause[|jsonClauses|];
    for idx := 0 to |jsonClauses|
      invariant forall i :: 0 <= i < idx ==> a[i] == FlatClauseOf(jsonClauses[i])
    {
      var jsonClause := jsonClauses[idx];
      a[idx] := Clause(jsonClause.field, jsonClause.tagField, jsonClause.op, jsonClause.val);
    }
    clauses := a[..];
  }

  /**
   * The flat rule a wire rule becomes in a group of type groupType: asset,
   * field and tag_field copied, the clauses copied when there is a condition,
   * combine_with never copied.
   */
  function ToFlatRule(r: RuleJson, groupType: string): Rule
  {
    var conditions := match r.condition
      case None => []
      case Some(c) => ClausesOf(c.clauses);
    Rule(groupType, r.asset, r.field, r.tagField, "", conditions)
  }

  /** The flat rules of the rules that target t, in wire order. */
  function RulesFor(rs: seq<RuleJson>, t: string, groupType: string): seq<Rule>
  {
    if rs == [] then []
    else
      var last := rs[|rs| - 1];
      RulesFor(rs[..|rs| - 1], t, groupType) + (if Target(last) == t then [ToFlatRule(last, groupType)] else [])
  }

  /** The group stored under t, with the rules that target it appended. */
  function PlacedGroup(m: map<string, Group>, t: string, rs: seq<RuleJson>): Group
    requires t in m
  {
    m[t].(rules := m[t].rules + RulesFor(rs, t, m[t].groupType))
  }

  function PlacedGroups(m: map<string, Group>, order: seq<string>, rs: seq<RuleJson>): seq<Group>
    requires forall t :: t in order ==> t in m
  {
    seq(|order|, i requires 0 <= i < |order| => PlacedGroup(m, order[i], rs))
  }

  /** The first rule error, or else each targeted group once, in first-reference order, with its rules. */
  function PlaceRules(rs: seq<RuleJson>, m: map<string, Group>): Result<seq<Group>, ImportError>
  {
    match FirstRuleError(rs, m)
    case Some(err) => Err(err)
    case None =>
      NoRuleErrorTargetsKnown(rs, m);
      DedupElements(Targets(rs));
      Ok(PlacedGroups(m, Dedup(Targets(rs)), rs))
  }

  /** No rule error means no rule has one, and conversely. */
  lemma {:induction false} FirstRuleErrorNone(rs: seq<RuleJson>, m: map<string, Group>)
    ensures FirstRuleError(rs, m) == None <==> forall i :: 0 <= i < |rs| ==> RuleError(rs[i], m) == None
  {
    if rs != [] {
      FirstRuleErrorNone(rs[..|rs| - 1], m);
    }
  }

  /** A reported rule error is the error of the first rule that has one. */
  lemma {:induction false} FirstRuleErrorSome(rs: seq<RuleJson>, m: map<string, Group>) returns (i: nat)
    requires FirstRuleError(rs, m).Some?
    ensures i < |rs| && RuleError(rs[i], m) == FirstRuleError(rs, m)
    ensures forall j :: 0 <= j < i ==> RuleError(rs[j], m) == None
  {
    var rs' := rs[..|rs| - 1];
    if FirstRuleError(rs', m).Some? {
      i := FirstRuleErrorSome(rs', m);
      assert rs[i] == rs'[i];
      assert forall j :: 0 <= j < i ==> rs[j] == rs'[j];
    } else {
      FirstRuleErrorNone(rs', m);
      i := |rs| - 1;
      assert forall j :: 0 <= j < i ==> rs[j] == rs'[j];
    }
  }

  lemma NoRuleErrorTargetsKnown(rs: seq<RuleJson>, m: map<string, Group>)
    requires FirstRuleError(rs, m) == None
    ensures forall t :: t in Targets(rs) ==> t in m
  {
    FirstRuleErrorNone(rs, m);
    TargetsElements(rs);
    forall t | t in Targets(rs) ensures t in m {
      var i :| 0 <= i < |Targets(rs)| && Targets(rs)[i] == t;
      assert RuleError(rs[i], m) == None;
    }
  }

  /** No rule targets a key that is not among the targets. */
  lemma {:induction false} RulesForUntargeted(rs: seq<RuleJson>, t: string, groupType: string)
    requires t !in Targets(rs)
    ensures RulesFor(rs, t, groupType) == []
  {
    if rs != [] {
      var rs' := rs[..|rs| - 1];
      assert Targets(rs) == Targets(rs') + [Target(rs[|rs| - 1])];
      RulesForUntargeted(rs', t, groupType);
    }
  }

  /**
   * The bookkeeping of populateRules after the rules R: groups[i] is the group
   * under order[i] with R's rules for it, and indexOf maps each key of order
   * back to its position.
   */
  ghost predicate Layout(m: map<string, Group>, rs: seq<RuleJson>, order: seq<string>,
                         groups: seq<Group>, indexOf: map<string, nat>)
  {
    && |groups| == |order|
    && (forall t :: t in indexOf <==> t in order)
    && (forall t :: t in indexOf ==> indexOf[t] < |order| && order[indexOf[t]] == t)
    && (forall i :: 0 <= i < |order| ==> order[i] in m && groups[i] == PlacedGroup(m, order[i], rs))
  }

  /** The order of first reference grows by a rule's target exactly when it is new. */
  lemma DedupTargetsStep(rs: seq<RuleJson>, r: RuleJson)
    ensures Dedup(Targets(rs + [r])) ==
      if Target(r) in Dedup(Targets(rs)) then Dedup(Targets(rs)) else Dedup(Targets(rs)) + [Target(r)]
  {
    assert (rs + [r])[..|rs|] == rs;
    TargetsElements(rs);
    assert Targets(rs + [r]) == Targets(rs) + [Target(r)];
    assert (Targets(rs) + [Target(r)])[..|rs|] == Targets(rs);
  }

  /** The first rule that targets t opens t's group, with no rules yet. */
  lemma LayoutOpen(m: map<string, Group>, rs: seq<RuleJson>, order: seq<string>,
                   groups: seq<Group>, indexOf: map<string, nat>, t: string)
    requires Layout(m, rs, order, groups, indexOf)
    requires t in m && t !in indexOf && t !in Targets(rs)
    ensures Layout(m, rs, order + [t], groups + [m[t]], indexOf[t := |groups|])
  {
    RulesForUntargeted(rs, t, m[t].groupType);
    assert PlacedGroup(m, t, rs) == m[t];
  }

  /** A rule whose group is open is appended to that group's rules, and to no other. */
  lemma LayoutAppend(m: map<string, Group>, rs: seq<RuleJson>, order: seq<string>,
                     groups: seq<Group>, indexOf: map<string, nat>, r: RuleJson)
    requires Layout(m, rs, order, groups, indexOf)
    requires Target(r) in indexOf
    requires forall i, j :: 0 <= i < j < |order| ==> order[i] != order[j]
    ensures var idx := indexOf[Target(r)];
      var g := groups[idx];
      Layout(m, rs + [r], order, groups[idx := g.(rules := g.rules + [ToFlatRule(r, g.groupType)])], indexOf)
  {
    var idx := indexOf[Target(r)];
    var g := groups[idx];
    var groups' := groups[idx := g.(rules := g.rules + [ToFlatRule(r, g.groupType)])];
    forall i | 0 <= i < |order| ensures groups'[i] == PlacedGroup(m, order[i], rs + [r]) {
      RulesForSnoc(rs, r, order[i], m[order[i]].groupType);
      if i != idx {
        assert order[i] != Target(r);
      }
    }
  }

  /** One more rule extends the rules of its target, and of no other key. */
  lemma RulesForSnoc(rs: seq<RuleJson>, r: RuleJson, t: string, groupType: string)
    ensures RulesFor(rs + [r], t, groupType) == RulesFor(rs, t, groupType) + (if Target(r) == t then [ToFlatRule(r, groupType)] else [])
  {
    assert (rs + [r])[..|rs|] == rs;
  }

  /**
   * One error-free rule placed: its group is opened when it is new, and the
   * rule is appended to it; the bookkeeping then describes the longer prefix.
   */
  lemma PlaceStep(m: map<string, Group>, done: seq<RuleJson>, order: seq<string>, groups: seq<Group>,
                  indexOf: map<string, nat>, r: RuleJson,
                  order1: seq<string>, groups1: seq<Group>, indexOf1: map<string, nat>)
    requires FirstRuleError(done, m) == None && order == Dedup(Targets(done))
    requires Layout(m, done, order, groups, indexOf)
    requires RuleError(r, m) == None
    requires Target(r) in indexOf ==> order1 == order && groups1 == groups && indexOf1 == indexOf
    requires Target(r) !in indexOf ==>
      order1 == order + [Target(r)] && groups1 == groups + [m[Target(r)]] && indexOf1 == indexOf[Target(r) := |groups|]
    ensures Target(r) in indexOf1 && indexOf1[Target(r)] < |groups1|
    ensures var idx := indexOf1[Target(r)];
      var g := groups1[idx];
      && FirstRuleError(done + [r], m) == None
      && order1 == Dedup(Targets(done + [r]))
      && Layout(m, done + [r], order1, groups1[idx := g.(rules := g.rules + [ToFlatRule(r, g.groupType)])], indexOf1)
  {
    DedupTargetsStep(done, r);
    FirstRuleErrorSnoc(done, r, m);
    if Target(r) !in indexOf {
      DedupElements(Targets(done));
      LayoutOpen(m, done, order, groups, indexOf, Target(r));
    }
    DedupDistinct(Targets(done + [r]));
    LayoutAppend(m, done, order1, groups1, indexOf1, r);
  }

  /** populateRules: groups appended at first reference, rules appended to their group through a ref_id-to-index map. */
  method PopulateRules(pj: PerspectiveJson, groupByRef: map<string, Group>)
    returns (r: Result<seq<Group>, ImportError>)
    ensures r == PlaceRules(pj.schema.rules, groupByRef)
  {
    var rs := pj.schema.rules;
    var m := groupByRef;
    var groups: seq<Group> := [];
    var indexOf: map<string, nat> := map[];
    ghost var done: seq<RuleJson> := [];
    ghost var order: seq<string> := [];
    for k := 0 to |rs|
      invariant done == rs[..k]
      invariant FirstRuleError(done, m) == None
      invariant order == Dedup(Targets(done))
      invariant Layout(m, done, order, groups, indexOf)
    {
      var jsonRule := rs[k];
      var groupRef := jsonRule.to;
      if groupRef == "" {
        groupRef := jsonRule.refId;
        if groupRef == "" {
          FirstRuleErrorAt(rs, k, done, m);
          return Err(RuleWithoutTarget(jsonRule.ruleType));
        }
      }
      if groupRef !in m {
        FirstRuleErrorAt(rs, k, done, m);
        return Err(UnknownTarget(groupRef));
      }
      ghost var order0, groups0, indexOf0 := order, groups, indexOf;
      if groupRef !in indexOf {
        groups := groups + [m[groupRef]];
        indexOf := indexOf[groupRef := |groups| - 1];
        order := order + [groupRef];
      }
      var idx := indexOf[groupRef];
      var group := groups[idx];
      if jsonRule.ruleType != group.groupType {
        FirstRuleErrorAt(rs, k, done, m);
        return Err(RuleTypeMismatch(jsonRule.ruleType, group.groupType));
      }
      var conditions: seq<Clause> := [];
      if jsonRule.condition.Some? {
        conditions := BuildCondition(jsonRule.condition.value.clauses);
      }
      var rule := Rule(group.groupType, jsonRule.asset, jsonRule.field, jsonRule.tagField, "", conditions);
      PlaceStep(m, done, order0, groups0, indexOf0, jsonRule, order, groups, indexOf);
      assert rule == ToFlatRule(jsonRule, group.groupType);
      groups := groups[idx := group.(rules := group.rules + [rule])];
      PrefixStep(rs, k);
      done := done + [jsonRule];
    }
    LayoutDone(m, rs, |rs|, done, order, groups, indexOf);
    return Ok(groups);
  }

  /** After all the rules, without error, the bookkeeping holds the placed groups. */
  lemma LayoutDone(m: map<string, Group>, rs: seq<RuleJson>, k: nat, done: seq<RuleJson>, order: seq<string>,
                   groups: seq<Group>, indexOf: map<string, nat>)
    requires k == |rs| && done == rs[..k]
    requires FirstRuleError(done, m) == None && order == Dedup(Targets(done))
    requires Layout(m, done, order, groups, indexOf)
    ensures PlaceRules(rs, m) == Ok(groups)
  {
    assert done == rs;
    NoRuleErrorTargetsKnown(rs, m);
    DedupElements(Targets(rs));
    assert groups == PlacedGroups(m, Dedup(Targets(rs)), rs);
  }

  lemma FirstRuleErrorSnoc(rs: seq<RuleJson>, r: RuleJson, m: map<string, Group>)
    ensures FirstRuleError(rs + [r], m) == if FirstRuleError(rs, m).Some? then FirstRuleError(rs, m) else RuleError(r, m)
  {
    assert (rs + [r])[..|rs|] == rs;
  }

  /** The rule at k fails after the rules before it did not: its error is the first of all the rules. */
  lemma FirstRuleErrorAt(rs: seq<RuleJson>, k: nat, done: seq<RuleJson>, m: map<string, Group>)
    requires k < |rs| && done == rs[..k]
    requires FirstRuleError(done, m) == None && RuleError(rs[k], m).Some?
    ensures PlaceRules(rs, m) == Err(RuleError(rs[k], m).value)
  {
    FirstRuleErrorPrefix(rs, k + 1, m);
  }

  /** An error in a prefix, after an error-free shorter prefix, is the first error of all the rules. */
  lemma FirstRuleErrorPrefix(rs: seq<RuleJson>, n: nat, m: map<string, Group>)
    requires 0 < n <= |rs|
    requires FirstRuleError(rs[..n - 1], m) == None && RuleError(rs[n - 1], m).Some?
    ensures FirstRuleError(rs, m) == RuleError(rs[n - 1], m)
  {
    assert rs[..n][..n - 1] == rs[..n - 1];
    FirstRuleErrorExtend(rs, n, m);
  }

  lemma {:induction false} FirstRuleErrorExtend(rs: seq<RuleJson>, n: nat, m: map<string, Group>)
    requires n <= |rs| && FirstRuleError(rs[..n], m).Some?
    ensures FirstRuleError(rs, m) == FirstRuleError(rs[..n], m)
  {
    if n < |rs| {
      var rs' := rs[..|rs| - 1];
      assert rs'[..n] == rs[..n];
      FirstRuleErrorExtend(rs', n, m);
    } else {
      assert rs[..n] == rs;
    }
  }

  // ---------------------------------------------------------------------------
  // Pass 4: catch-all items (findOtherGroups)

  /** An item with is_other "true", or the "Remaining" item of the Dynamic Group block. */
  predicate IsCatchAll(e: Entry)
  {
    e.item.isOther == "true" || (e.kind == DynamicGroup && IsRemaining(e.item))
  }

  /** The other group recorded for a catch-all item: every field verbatim, blk_id when present. */
  function OtherOf(e: Entry): OtherGroup
  {
    OtherGroup(KindName(e.kind), e.item.refId, e.item.name, e.item.val, e.item.isOther, e.item.blkId)
  }

  function OtherGroupsOf(es: seq<Entry>): seq<OtherGroup>
  {
    if es == [] then []
    else (if IsCatchAll(es[0]) then [OtherOf(es[0])] else []) + OtherGroupsOf(es[1..])
  }

  lemma OtherGroupsCons(e: Entry, es: seq<Entry>)
    ensures OtherGroupsOf([e] + es) == (if IsCatchAll(e) then [OtherOf(e)] else []) + OtherGroupsOf(es)
  {
    assert ([e] + es)[0] == e && ([e] + es)[1..] == es;
  }

  lemma OtherGroupsStep(result: seq<OtherGroup>, k: ConstantKind, items: seq<ConstantItem>, i: nat,
                        tail: seq<Entry>, goal: seq<OtherGroup>)
    requires i < |items|
    requires result + OtherGroupsOf(Tag(k, items[i..]) + tail) == goal
    ensures var e := Entry(k, items[i]);
      (result + if IsCatchAll(e) then [OtherOf(e)] else []) + OtherGroupsOf(Tag(k, items[i + 1..]) + tail) == goal
  {
    var e := Entry(k, items[i]);
    var rest := Tag(k, items[i + 1..]) + tail;
    TagStep(k, items, i, tail);
    OtherGroupsCons(e, rest);
    var d := if IsCatchAll(e) then [OtherOf(e)] else [];
    assert (result + d) + OtherGroupsOf(rest) == result + (d + OtherGroupsOf(rest));
  }

  /** The other groups are exactly the records of the catch-all items. */
  lemma {:induction false} OtherGroupsMembers(es: seq<Entry>)
    ensures forall o :: o in OtherGroupsOf(es) <==> exists e :: e in es && IsCatchAll(e) && o == OtherOf(e)
  {
    if es != [] {
      OtherGroupsMembers(es[1..]);
      assert es == [es[0]] + es[1..];
    }
  }

  /** findOtherGroups: one record per catch-all item, across all blocks in wire order. */
  method FindOtherGroups(pj: PerspectiveJson) returns (result: seq<OtherGroup>)
    ensures result == OtherGroupsOf(Entries(pj.schema.constants))
  {
    var cs := pj.schema.constants;
    ghost var goal := OtherGroupsOf(Entries(cs));
    result := [];
    var b := 0;
    while b < |cs|
      invariant 0 <= b <= |cs|
      invariant result + OtherGroupsOf(Entries(cs[b..])) == goal
    {
      var constant := cs[b];
      EntriesFrom(cs, b);
      ghost var tail := Entries(cs[b + 1..]);
      TagEnds(constant.kind, constant.list, tail);
      var i := 0;
      while i < |constant.list|
        invariant 0 <= i <= |constant.list|
        invariant result + OtherGroupsOf(Tag(constant.kind, constant.list[i..]) + tail) == goal
      {
        var constantGroup := constant.list[i];
        OtherGroupsStep(result, constant.kind, constant.list, i, tail, goal);
        ghost var e := Entry(constant.kind, constantGroup);
        ghost var next := result + if IsCatchAll(e) then [OtherOf(e)] else [];
        if constantGroup.isOther == "true" ||
           (constant.kind == DynamicGroup && constantGroup.blkId == Some("") && constantGroup.name == "Remaining") {
          var otherGroup := OtherGroup(KindName(constant.kind), constantGroup.refId, constantGroup.name,
                                       constantGroup.val, constantGroup.isOther, constantGroup.blkId);
          result := result + [otherGroup];
        } else {
          assert result + [] == result;
        }
        assert result == next;
        i := i + 1;
      }
      TagEnds(constant.kind, constant.list, tail);
      b := b + 1;
    }
  }

  // ---------------------------------------------------------------------------
  // The whole import (jsonToTF)

  /** The flat state of a decoded payload, or the first error of the first failing pass. */
  function Import(d: Decoded): Result<FlatState, ImportError>
  {
    match d
    case Undecodable(reason) => Err(Unparsable(reason))
    case Decoded(pj) =>
      var es := Entries(pj.schema.constants);
      match AttachFrom(SkeletonsFrom(map[], es), es)
      case Err(err) => Err(err)
      case Ok(m) =>
        match PlaceRules(pj.schema.rules, m)
        case Err(err) => Err(err)
        case Ok(groups) =>
          Ok(FlatState(pj.schema.name, ParseBool(pj.schema.includeInReports), groups, OtherGroupsOf(es)))
  }

  /** jsonToTF: the four passes in sequence; any failure aborts the import. */
  method JsonToTF(d: Decoded) returns (r: Result<FlatState, ImportError>)
    ensures r == Import(d)
  {
    if d.Undecodable? {
      return Err(Unparsable(d.reason));
    }
    var pj := d.pj;
    var name := pj.schema.name;
    var includeInReports := ParseBool(pj.schema.includeInReports);
    var groupByRef := JsonToGroups(pj);
    var attached := PopulateDynamicGroups(pj, groupByRef);
    if attached.Err? {
      return Err(attached.error);
    }
    var placed := PopulateRules(pj, attached.value);
    if placed.Err? {
      return Err(placed.error);
    }
    var otherGroups := FindOtherGroups(pj);
    return Ok(FlatState(name, includeInReports, placed.value, otherGroups));
  }

  // ---------------------------------------------------------------------------
  // What an import produces

  /** Every group of a lookup is stored under its own ref_id and has no rules yet. */
  ghost predicate Unruled(m: map<string, Group>)
  {
    forall t :: t in m ==> m[t].refId == t && m[t].rules == []
  }

  lemma {:induction false} SkeletonsUnruled(m: map<string, Group>, es: seq<Entry>)
    requires Unruled(m)
    ensures Unruled(SkeletonsFrom(m, es))
    decreases es
  {
    if es != [] {
      SkeletonsUnruled(SkeletonStep(m, es[0]), es[1..]);
    }
  }

  /** A target that some rule names gets at least that rule. */
  lemma {:induction false} RulesForTargeted(rs: seq<RuleJson>, t: string, groupType: string)
    requires t in Targets(rs)
    ensures RulesFor(rs, t, groupType) != []
  {
    var rs' := rs[..|rs| - 1];
    TargetsElements(rs);
    TargetsElements(rs');
    if Target(rs[|rs| - 1]) != t {
      assert Targets(rs) == Targets(rs') + [Target(rs[|rs| - 1])];
      RulesForTargeted(rs', t, groupType);
    }
  }

  /**
   * The groups of an import: one per distinct rule target, in the order of
   * first reference, each stored under its ref_id and holding at least one
   * rule. A group that no rule targets is dropped.
   */
  lemma ImportGroups(pj: PerspectiveJson)
    requires Import(Decoded(pj)).Ok?
    ensures var gs := Import(Decoded(pj)).value.groups;
      var order := Dedup(Targets(pj.schema.rules));
      |gs| == |order| &&
      forall i :: 0 <= i < |gs| ==> gs[i].refId == order[i] && gs[i].rules != []
  {
    var es := Entries(pj.schema.constants);
    var sk := SkeletonsFrom(map[], es);
    SkeletonsUnruled(map[], es);
    AttachResult(sk, es);
    var m := AttachFrom(sk, es).value;
    var rs := pj.schema.rules;
    var order := Dedup(Targets(rs));
    NoRuleErrorTargetsKnown(rs, m);
    DedupElements(Targets(rs));
    var gs := Import(Decoded(pj)).value.groups;
    assert gs == PlacedGroups(m, order, rs);
    forall i | 0 <= i < |gs| ensures gs[i].refId == order[i] && gs[i].rules != [] {
      RulesForTargeted(rs, order[i], m[order[i]].groupType);
    }
  }

  /** An import fails exactly when the payload is undecodable, an item is wrong, or a rule is. */
  lemma ImportFails(pj: PerspectiveJson)
    ensures var es := Entries(pj.schema.constants);
      var sk := SkeletonsFrom(map[], es);
      Import(Decoded(pj)).Err? <==>
        (exists e :: e in es && AttachCheck(sk, e).Some?) ||
        (AttachFrom(sk, es).Ok? && FirstRuleError(pj.schema.rules, AttachFrom(sk, es).value).Some?)
  {
    var es := Entries(pj.schema.constants);
    AttachSucceeds(SkeletonsFrom(map[], es), es);
  }
}
