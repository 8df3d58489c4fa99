# CloudHealth perspective translation, modelled in Dafny

This project models the core of the CloudHealth Terraform provider. That core translates between two shapes of a CloudHealth *perspective*:

- **The wire payload.** This is the service's "perspective schema". It holds ordered rules that point at groups by ref_id. It also holds constant blocks of three kinds:
  - Static Group, whose items are filter groups;
  - Dynamic Group Block, whose items are categorize groups;
  - Dynamic Group, whose items are the children of a Dynamic Group Block, linked back through `blk_id`.
- **The flat state.** This is what the Terraform resource keeps. It holds an ordered list of groups, each with its own rules and children. It also holds the catch-all constants ("other groups"), kept verbatim.

It also models the small tool that prints Terraform configuration from a saved state file.

Modules:

- `Wrappers`: Option and Result.
- `Perspective`:
  - the wire datatypes (rules, conditions, clauses, constant items, constant blocks, the schema record);
  - the flat datatypes;
  - the three constant kinds, as an enumeration with their wire names.
- `JsonToTf`: the importer (wire → flat). It runs four passes, each a method with its loops, and each method is proved equal to a specification function:
  - skeleton groups keyed by ref_id;
  - Dynamic Group children attached through blk_id;
  - rules placed in wire order, with group order fixed by each group's first reference;
  - catch-all items collected.
- `TfToJson`: the exporter (flat → wire). It:
  - fills in missing ref_ids from a supplied id source;
  - routes each rule to `to` or `ref_id` according to its type;
  - emits one constant per group and one Dynamic Group item per child;
  - appends the catch-alls;
  - drops empty blocks.
- `RoundTrip`: the two translations are inverse.
  - Importing the export of a restorable flat state gives that state back.
  - Re-exporting the import of such a payload gives the payload back.
- `StateToConfig`: the state-to-config printer. It turns Terraform's flattened attribute map (`group.N.rule.M.condition.K.op`, with `.#` counts) into configuration lines.

Modelling decisions:

- **Slices and pointers.** Go slices are sequences, and a nil slice and an empty slice are one value. For the fields tagged `omitempty` (a rule's and a clause's `field` and `tag_field`, a condition's `clauses`, a block's `list`) the encoder writes neither, and the flat state reads an absent list as empty. The payload's `rules` and `constants` carry no `omitempty`; see "## Left out" for what that costs. Go pointers (a rule's condition, an item's `blk_id`) are Options, so "absent" and "present but empty" stay distinct.
- **Group and rule types.** The flat state's group type is `"filter"` or `"categorize"`. Each flat rule carries its own `ruleType`, because the exporter reads a per-rule type. The importer fills that type in from the owning group.
- **Panics become errors.** Where the Go code would panic, the model returns a named error instead:
  - a nil `blk_id` becomes `MissingBlkId`;
  - a child whose `blk_id` names a Static Group becomes `ChildOfStaticGroup`;
  - a rule targeting an unknown group becomes `UnknownTarget`;
  - a group with no rules (which leaves no constant kind) becomes `GroupWithoutRules`.
- **UUID generation.** It is a parameter `uuid: nat -> string`, where the k-th generated id is `uuid(k)`.
- **The printer.** It returns either all of its lines or the error that stops the script (a missing attribute, a count `int()` rejects, or a resource key that is not `type.name`). An error is returned without the lines printed before it.
- **include_in_reports on import.** A value that `strconv.ParseBool` rejects is not an error. The Go code's inner `err` is scoped to the `if`, so the flag is then simply left unset (None).

## Model

| member | source | states |
|---|---|---|
| Perspective.ParseKind | cloudhealth/json_cht_perspective.go:50-52 | a string names a kind exactly when it is one of the three kind names, and the kind found is the one with that name |
| Perspective.KindNameInjective | cloudhealth/json_cht_perspective.go:50-52 | the three kind names are pairwise distinct, so the exporter's table from kind name to block is a function |
| Perspective.NewConstantJson | cloudhealth/json_cht_perspective.go:54-59 | a new block has the requested type and no items |
| JsonToTf.JsonToGroups | cloudhealth/json_to_tf.go:55-81 | the loop over the constants builds exactly the skeleton map: one step per constant item, in wire order |
| JsonToTf.BlockSkeletons | cloudhealth/json_to_tf.go:62-78 | the loop over one constant's items adds exactly the skeletons that block yields, later ref_ids overwriting earlier ones |
| JsonToTf.SkeletonsKeys | cloudhealth/json_to_tf.go:58-77 | the skeleton map's keys are exactly the ref_ids of the non-is_other items of Static Group and Dynamic Group Block blocks |
| JsonToTf.SkeletonsSkipBlock | cloudhealth/json_to_tf.go:59-61 | Dynamic Group items never yield a skeleton |
| JsonToTf.SkeletonsLastWins | cloudhealth/json_to_tf.go:67-77 | under a ref_id sits the skeleton of the last item with that ref_id: its name and ref_id, no rules, filter for Static Group and categorize with no children for Dynamic Group Block |
| JsonToTf.SkeletonsUnique | cloudhealth/json_to_tf.go:67-77 | an item whose ref_id no other skeleton-yielding item shares is the skeleton under that ref_id |
| JsonToTf.SkeletonsUnruled | cloudhealth/json_to_tf.go:67-70 | every skeleton is stored under its own ref_id and has an empty rule list |
| JsonToTf.PopulateDynamicGroups | cloudhealth/json_to_tf.go:83-108 | the loop over the constants attaches children exactly as the attachment fold does, and stops at the first failing item |
| JsonToTf.BlockChildren | cloudhealth/json_to_tf.go:89-104 | the loop over one Dynamic Group block appends each child to its owning block in order, and fails on a missing or dangling blk_id or a non-categorize owner |
| JsonToTf.AttachAppend | cloudhealth/json_to_tf.go:85-104 | attaching two runs of entries is attaching the first and then, unless it failed, the second |
| JsonToTf.AttachSucceeds | cloudhealth/json_to_tf.go:89-101 | attachment succeeds exactly when every Dynamic Group item has a blk_id and, unless it is the blk_id "" "Remaining" item, that blk_id names a known categorize group |
| JsonToTf.AttachFirstError | cloudhealth/json_to_tf.go:98-101 | a failed attachment reports the error of the first failing item, and every item before it passes |
| JsonToTf.AttachResult | cloudhealth/json_to_tf.go:94-103 | attachment keeps the set of groups and appends to each group, in wire order, the (name, val, ref_id) child of every item whose blk_id names it |
| JsonToTf.TargetsElements | cloudhealth/json_to_tf.go:114-120 | each rule's target is `to` when it is non-empty, else `ref_id`, one per rule in order |
| JsonToTf.DedupElements | cloudhealth/json_to_tf.go:125-131 | the group order holds exactly the targeted ref_ids |
| JsonToTf.DedupDistinct | cloudhealth/json_to_tf.go:125-131 | the group order holds each ref_id once |
| JsonToTf.DedupFirstOccurrence | cloudhealth/json_to_tf.go:125-131 | groups are ordered by the position of the first rule that targets them |
| JsonToTf.BuildCondition | cloudhealth/json_to_tf.go:157-174 | one flat clause per wire clause, in order, with field, tag_field, op and val copied |
| JsonToTf.PopulateRules | cloudhealth/json_to_tf.go:110-155 | the rule loop, with its ref_id→index bookkeeping, gives exactly the declarative placement: groups in first-reference order, each with its rules in wire order, or the first rule's error |
| JsonToTf.FirstRuleErrorNone | cloudhealth/json_to_tf.go:113-137 | rule placement fails exactly when some rule has no target, targets an unknown group, or has a type other than its group's |
| JsonToTf.FirstRuleErrorSome | cloudhealth/json_to_tf.go:113-137 | the error reported is that of the first failing rule |
| JsonToTf.NoRuleErrorTargetsKnown | cloudhealth/json_to_tf.go:123-133 | when placement succeeds, every target is a known group |
| JsonToTf.RulesForUntargeted | cloudhealth/json_to_tf.go:128-133 | a group no rule targets receives no rules |
| JsonToTf.RulesForTargeted | cloudhealth/json_to_tf.go:128-133 | a targeted group receives at least one rule |
| JsonToTf.OtherGroupsMembers | cloudhealth/json_to_tf.go:176-199 | the catch-all list holds exactly the is_other "true" items and the blk_id "" "Remaining" Dynamic Group items, with kind, ref_id, name, val, is_other and blk_id |
| JsonToTf.FindOtherGroups | cloudhealth/json_to_tf.go:176-199 | the loops collect exactly the catch-all list, in wire order across blocks |
| JsonToTf.JsonToTF | cloudhealth/json_to_tf.go:10-53 | the four passes in sequence give the import: a decode failure first, then the first failing pass's error, else the flat state with the name verbatim and include_in_reports parsed |
| JsonToTf.ImportGroups | cloudhealth/json_to_tf.go:110-155 | the imported groups are exactly the targeted groups, once each, in first-reference order, and none is without rules |
| JsonToTf.ImportFails | cloudhealth/json_to_tf.go:34-42 | an import of a decoded payload fails exactly when a child cannot be attached or some rule fails placement |
| TfToJson.FilledInElements | cloudhealth/tf_to_json.go:92-99 | filling in keeps group count and order; a group with an empty ref_id gets the fresh id numbered by the empty ref_ids before it, every other group is unchanged |
| TfToJson.FilledInNoneMissing | cloudhealth/tf_to_json.go:92-99 | with non-empty fresh ids, no group is left without a ref_id |
| TfToJson.FilledInComplete | cloudhealth/tf_to_json.go:92-99 | groups that all have ref_ids are left unchanged |
| TfToJson.FilledInIdempotent | cloudhealth/tf_to_json.go:92-99 | filling in a second time changes nothing |
| TfToJson.FillInMissingRefIds | cloudhealth/tf_to_json.go:92-99 | the in-place loop over the group array leaves it equal to the filled-in groups |
| TfToJson.ConvertStringArray | cloudhealth/tf_to_json.go:193-203 | the copied list equals the given one, with nil and empty the same list |
| TfToJson.ExportedConditionShape | cloudhealth/tf_to_json.go:158-174 | no condition for an empty list, else one clause per condition in order, copying field, tag_field, op and val, and no combine_with |
| TfToJson.ConditionsToJson | cloudhealth/tf_to_json.go:158-174 | the loop builds exactly the exported condition |
| TfToJson.RulesAccepted | cloudhealth/tf_to_json.go:121-143 | a group's rules are accepted exactly when every rule type is filter or categorize and all are the same |
| TfToJson.TypeErrorFromAt | cloudhealth/tf_to_json.go:127-143 | a rejection comes from the first rule with an empty, unknown or mixed type |
| TfToJson.MixedRulesRejected | cloudhealth/tf_to_json.go:127-137 | a group mixing filter and categorize rules is rejected |
| TfToJson.RulesToJson | cloudhealth/tf_to_json.go:118-156 | the loop, with its accumulated constant type, gives exactly the per-group rule result |
| TfToJson.ExportedRulesRouting | cloudhealth/tf_to_json.go:118-153 | one wire rule per flat rule, in order: filter rules target the group by `to`, categorize rules by `ref_id`, and asset, field, tag_field and condition are copied |
| TfToJson.AcceptedGroup | cloudhealth/tf_to_json.go:54-65 | an accepted group's rules export to its wire rules and name the group's own block kind |
| TfToJson.DynamicGroupConstantItemsToJson | cloudhealth/tf_to_json.go:101-115 | one Dynamic Group item per child, in order, with blk_id the group's ref_id and name, ref_id and val copied |
| TfToJson.OtherItemShape | cloudhealth/tf_to_json.go:176-191 | a catch-all keeps its type, ref_id, name and val; it has a blk_id exactly when it is a Dynamic Group; is_other is "true" exactly when it was "true", else empty |
| TfToJson.ExportGroups | cloudhealth/tf_to_json.go:45-67 | the group loop reports the first group error, else the concatenated rules, and leaves each block holding its group items |
| TfToJson.ExportOtherGroups | cloudhealth/tf_to_json.go:69-79 | the catch-all loop reports the first unknown constant type, else appends each entry to its block |
| TfToJson.NonEmptyConstants | cloudhealth/tf_to_json.go:81-86 | the blocks emitted are the three blocks in kind order, minus the empty ones |
| TfToJson.TfToJson | cloudhealth/tf_to_json.go:11-90 | the whole export, and the groups it writes back to the state, equal the export function and the filled-in groups |
| TfToJson.AllRulesAppend | cloudhealth/tf_to_json.go:45-58 | the rule list is the concatenation of the per-group lists in group order |
| TfToJson.GroupsAccepted | cloudhealth/tf_to_json.go:45-57 | the group loop fails exactly when some group fails |
| TfToJson.GroupAccepted | cloudhealth/tf_to_json.go:54-66 | a group fails exactly when it has no rules or its rule types are not all one of filter and categorize |
| TfToJson.OthersAccepted | cloudhealth/tf_to_json.go:70-77 | the catch-all loop fails exactly when some constant type is not a kind name |
| TfToJson.GroupPartMembers | cloudhealth/tf_to_json.go:60-66 | the Static Group block and the Dynamic Group Block block hold exactly one {name, ref_id} item per filter or categorize group respectively |
| TfToJson.OneItemPerGroup | cloudhealth/tf_to_json.go:60-66 | every group contributes exactly one group item |
| TfToJson.GroupPartChildren | cloudhealth/tf_to_json.go:49-51 | the group-derived Dynamic Group items are exactly the children, each with blk_id its group's ref_id |
| TfToJson.OtherPartMembers | cloudhealth/tf_to_json.go:69-79 | each block's catch-all part holds exactly the entries whose constant type names it |
| TfToJson.NonEmptyBlocksMembers | cloudhealth/tf_to_json.go:81-86 | a block is emitted exactly when it has an item |
| TfToJson.NonEmptyBlocksOrdered | cloudhealth/tf_to_json.go:82-86 | dropping empty blocks keeps the kind order |
| TfToJson.ExportLayout | cloudhealth/tf_to_json.go:14-86 | emitted blocks are in the order Static Group, Dynamic Group, Dynamic Group Block, none is empty, and each holds its group-derived items followed by its catch-alls |
| TfToJson.BlocksLayout | cloudhealth/tf_to_json.go:81-86 | of the three blocks, exactly the non-empty ones are emitted, in kind order |
| TfToJson.ExportFails | cloudhealth/tf_to_json.go:25-79 | the export fails exactly when the name is empty, some filled-in group fails, or some catch-all has an unknown constant type |
| TfToJson.ExportHeader | cloudhealth/tf_to_json.go:25-87 | the exported name is the state's and non-empty, include_in_reports is "true" exactly for a set true flag and "false" otherwise, and merges is empty |
| RoundTrip.ParseFormatBool | cloudhealth/tf_to_json.go:32 | the exported include_in_reports string parses back to the flag |
| RoundTrip.SkeletonsOfExport | cloudhealth/json_to_tf.go:55-81 | on an exported payload, the skeletons are exactly the state's groups without their rules and children |
| RoundTrip.AttachOfExport | cloudhealth/json_to_tf.go:83-108 | on an exported payload, attachment succeeds and gives back every group's children |
| RoundTrip.RuleRoundTrip | cloudhealth/json_to_tf.go:138-151 | importing an exported rule gives it back, except that combine_with is lost |
| RoundTrip.PlaceOfExport | cloudhealth/json_to_tf.go:110-155 | on an exported payload, rule placement gives back the groups in their order with their rules |
| RoundTrip.OthersOfExport | cloudhealth/json_to_tf.go:176-199 | on an exported payload, the catch-all list is the state's, in order |
| RoundTrip.RestorableExports | cloudhealth/tf_to_json.go:25-79 | a restorable state needs no fresh ids and passes every export check |
| RoundTrip.ImportExport | cloudhealth/json_to_tf.go:10-53 | importing the export of a restorable state gives the state back |
| RoundTrip.ImportExportFilled | cloudhealth/tf_to_json.go:37-43 | when ids are filled in, importing the export gives the state with the filled-in ids |
| RoundTrip.ExportImport | cloudhealth/json_to_tf_test.go:92-118 | exporting the import of an exported payload gives the same payload |
| StateToConfig.ParseNatStr | tools/state_to_config.py:23-24 | an index written in decimal reads back as the same count |
| StateToConfig.JoinSplit | tools/state_to_config.py:13 | splitting a key on '.' and joining the pieces gives the key back, no piece holds a '.', and there is one piece more than there are dots |
| StateToConfig.ResourceKey | tools/state_to_config.py:13 | a resource key is accepted exactly when it has one '.', and it is then the type, a '.', and the name |
| StateToConfig.ValuesElements | tools/state_to_config.py:74 | the list values exist exactly when every indexed key 0..count-1 is present, and they are those attributes in index order |
| StateToConfig.QuotedJoin | tools/state_to_config.py:74-75 | `"` + values joined by `", "` + `"` is the list of the quoted values separated by ", " |
| StateToConfig.PrintStrList | tools/state_to_config.py:70-75 | the loop gives exactly the string-list output |
| StateToConfig.StrListShape | tools/state_to_config.py:70-75 | nothing for a zero count; for a positive count one `field = [...]` line listing the quoted values in index order; for a negative count the line `field = [""]` |
| StateToConfig.PrintCondition | tools/state_to_config.py:59-67 | gives exactly the condition block |
| StateToConfig.ConditionOptionalLines | tools/state_to_config.py:63-66 | a condition has an op line exactly when op is not "=", and a val line exactly when val is not empty, each showing its value |
| StateToConfig.PrintRule | tools/state_to_config.py:42-56 | prints asset, the optional combine_with, the field lists and the conditions, in that order inside the rule block |
| StateToConfig.PrintConditions | tools/state_to_config.py:53-54 | the loop prints the conditions 0..count-1 in index order, stopping at the first one that cannot be printed |
| StateToConfig.RuleCombineWith | tools/state_to_config.py:47-48 | a rule has a combine_with line exactly when combine_with is non-empty, showing its value |
| StateToConfig.PrintGroup | tools/state_to_config.py:30-39 | the loop prints the rules 0..count-1 in index order, after the name and type |
| StateToConfig.GroupIgnoresRefId | tools/state_to_config.py:30-39 | a group's output does not depend on its ref_id |
| StateToConfig.PrintResource | tools/state_to_config.py:15-27 | the loop prints the groups 0..count-1 in index order inside the resource block |
| StateToConfig.ResourceFrame | tools/state_to_config.py:16-27 | a resource block starts with its header, then name quoted and include_in_reports bare, and ends with `}` |
| StateToConfig.PrintConfig | tools/state_to_config.py:12-27 | the resource loop gives exactly the output of every entry in order, or the first error |
| StateToConfig.ConfigAppend | tools/state_to_config.py:12-14 | the output of consecutive resource lists is the concatenation of their outputs, or the first error |
| StateToConfig.SkipOtherTypes | tools/state_to_config.py:12-15 | a resource that is not a perspective contributes no output |

## Left out

- HTTP create/read/update/delete, API keys, status checks, writing `cht_update.json` and the id regex (cloudhealth/resource_cht_perspective.go:182-325): network and file I/O.
- Provider configuration and `main`, and the acceptance test against the live service.
- Terraform schema registration and ResourceData Get/Set/GetOk. The flat state is modelled directly as records. Two consequences:
  - The registered schema declares a `constant` field, but the translators use `other_group` and `dynamic_group`; the model follows the translators.
  - The registered rule schema has no `type`, but the exporter reads one; flat rules carry it.
- The exporter's `null` for an empty rule or constant list. `rules` and `constants` have no `omitempty` (cloudhealth/json_cht_perspective.go:42-43), and the exporter leaves them nil when there are no groups (cloudhealth/tf_to_json.go:58) or no non-empty block (cloudhealth/tf_to_json.go:81-86). The encoder then writes `"rules": null` or `"constants": null`, where an empty slice (such as the explicitly allocated `merges`, cloudhealth/tf_to_json.go:87) writes `[]`. The model's Export gives the empty sequence in both cases, so it does not distinguish the two encodings. Importing either gives the same empty sequence.
- Byte-level JSON: encoding/json MarshalIndent, the strict ugorji decoder (ErrorIfNoField), key order and indentation. The import starts from a decoded payload or an abstract decode error.
- Unknown constant block types on the wire cannot be represented: the block kind is a three-value enumeration.
- The order of ResourceData writes: jsonToTF writes name and include_in_reports before a later pass can fail. The model returns only the error.
- The name-keyed rename and reorder reconciliation the group tests expect (cloudhealth/json_to_tf_test.go:191-307). The code does not implement it: fillInMissingRefIDs ignores its other-groups argument and never consults names. Those tests, the `constant.*` assertions and the combine_with expectation at cloudhealth/json_to_tf_test.go:51 are out of sync with the code. The model follows the code.
- JsonToTf.ParseBool: strconv.ParseBool is taken as its twelve accepted spellings; its error value is not modelled.
- TfToJson.FilledInNoneMissing: the UUID generator's error return (ignored by the exporter) is not modelled, and the lemma assumes every generated id is non-empty.
- RoundTrip.ExportImport: export(import(P)) == P is proved for payloads that are the export of a restorable state. A direct characterisation of such payloads (rules contiguous per group, blocks in kind order, group items before catch-alls) is not stated.
- RoundTrip.RuleRoundTrip: combine_with does not survive a round trip. The importer never copies it and the exporter always writes it empty, so restorable states require it empty.
- The printer's command-line handling, file or stdin opening and json.load (tools/state_to_config.py:9-11). The model takes the resource entries, each a key and its `primary.attributes` map, in the order the state file lists them. A state file without `modules`, `resources`, `primary` or `attributes` is outside the model.
- Lines printed before the printer stops with an exception are not modelled; the model returns only the error.
- StateToConfig.ParseInt: `int()` also accepts surrounding whitespace, `_` between digits and non-ASCII Unicode decimal digits (such as Arabic-Indic `١٢`). The model accepts only an optional sign followed by ASCII digits `0`-`9`, and rejects those forms.
