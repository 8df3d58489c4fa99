/**
 * The state-to-config tool: it turns the flattened attribute map Terraform
 * keeps for each perspective resource (`group.N.rule.M.condition.K.op` and so
 * on, with `.#` keys holding the counts) back into configuration text.
 *
 * Output is a sequence of lines, one per print call (a bare print is the empty
 * line). A missing attribute, a count that is not an integer or a resource key
 * that does not split into a type and a name stops the tool; the model then
 * returns that error.
 */
module StateToConfig {
  import opened Wrappers
  import opened Seqs

  /** One entry of the state's resource map: its key ("type.name") and its primary attributes. */
  datatype Resource = Resource(key: string, attributes: map<string, string>)

  /** Why the tool stops: a KeyError, a ValueError of int(), or a key that is not "type.name". */
  datatype PrintError =
    | MissingAttribute(key: string)
    | BadInteger(key: string, text: string)
    | BadResourceKey(key: string)

  type Printed = Result<seq<string>, PrintError>

  const PerspectiveType: string := "cloudhealth_perspective"

  const Indent1: string := "    "
  const Indent2: string := "        "
  const Indent3: string := "            "
  const Indent4: string := "                "

  /** A string in double quotes, as the tool writes string settings. */
  function Quoted(s: string): string
  {
    "\"" + s + "\""
  }

  predicate StartsWith(s: string, prefix: string)
  {
    |prefix| <= |s| && s[..|prefix|] == prefix
  }

  // ---------------------------------------------------------------------------
  // Decimal numbers: str() and '%d' of an index, int() of a count

  predicate IsDigit(c: char)
  {
    '0' <= c <= '9'
  }

  predicate AllDigits(s: string)
  {
    forall i :: 0 <= i < |s| ==> IsDigit(s[i])
  }

  function Digit(d: nat): char
    requires d < 10
  {
    "0123456789"[d]
  }

  /** The decimal text of n, without leading zeros. */
  function NatStr(n: nat): string
  {
    if n < 10 then [Digit(n)] else NatStr(n / 10) + [Digit(n % 10)]
  }

  /** The value of a string of decimal digits. */
  function DigitsValue(s: string): nat
    requires AllDigits(s)
  {
    if s == [] then 0 else 10 * DigitsValue(s[..|s| - 1]) + (s[|s| - 1] as int - '0' as int)
  }

  function ParseNat(s: string): Option<nat>
  {
    if s != [] && AllDigits(s) then Some(DigitsValue(s)) else None
  }

  /** int() of a count: an optional sign, then decimal digits. */
  function ParseInt(s: string): Option<int>
  {
    if |s| > 0 && (s[0] == '-' || s[0] == '+') then
      match ParseNat(s[1..])
      case None => None
      case Some(n) => Some(if s[0] == '-' then -(n as int) else n as int)
    else
      match ParseNat(s)
      case None => None
      case Some(n) => Some(n)
  }

  lemma {:induction false} NatStrDigits(n: nat)
    ensures NatStr(n) != [] && AllDigits(NatStr(n))
  {
    if n >= 10 {
      NatStrDigits(n / 10);
    }
  }

  lemma {:induction false} NatStrValue(n: nat)
    ensures AllDigits(NatStr(n)) && DigitsValue(NatStr(n)) == n
  {
    NatStrDigits(n);
    if n >= 10 {
      NatStrValue(n / 10);
      var s := NatStr(n);
      assert s[..|s| - 1] == NatStr(n / 10);
      assert s[|s| - 1] == Digit(n % 10);
    }
  }

  /** A count written in decimal parses back to itself. */
  lemma ParseNatStr(n: nat)
    ensures ParseNat(NatStr(n)) == Some(n)
    ensures ParseInt(NatStr(n)) == Some(n)
  {
    NatStrValue(n);
    NatStrDigits(n);
    assert IsDigit(NatStr(n)[0]);
  }

  // ---------------------------------------------------------------------------
  // str.split and str.join

  /** s.split(c): the pieces between the occurrences of c. */
  function Split(s: string, c: char): (parts: seq<string>)
    ensures |parts| >= 1
  {
    if s == [] then [""]
    else
      var ps := Split(s[..|s| - 1], c);
      if s[|s| - 1] == c then ps + [""]
      else ps[..|ps| - 1] + [ps[|ps| - 1] + [s[|s| - 1]]]
  }

  /** sep.join(vs). */
  function Join(vs: seq<string>, sep: string): string
  {
    if vs == [] then ""
    else if |vs| == 1 then vs[0]
    else Join(vs[..|vs| - 1], sep) + sep + vs[|vs| - 1]
  }

  /** The number of occurrences of c in s. */
  function Occurrences(s: string, c: char): nat
  {
    if s == [] then 0 else Occurrences(s[..|s| - 1], c) + (if s[|s| - 1] == c then 1 else 0)
  }

  /** There is one piece more than there are separators. */
  lemma {:induction false} SplitCount(s: string, c: char)
    ensures |Split(s, c)| == Occurrences(s, c) + 1
  {
    if s != [] {
      SplitCount(s[..|s| - 1], c);
    }
  }

  /** No piece holds the separator. */
  lemma {:induction false} SplitPieces(s: string, c: char)
    ensures forall p :: p in Split(s, c) ==> c !in p
  {
    if s != [] {
      var ps := Split(s[..|s| - 1], c);
      SplitPieces(s[..|s| - 1], c);
      if s[|s| - 1] != c {
        var last := ps[|ps| - 1];
        assert last in ps;
        assert forall p :: p in ps[..|ps| - 1] ==> p in ps;
      }
    }
  }

  /** Joining the pieces back with the separator gives the string back. */
  lemma {:induction false} SplitJoin(s: string, c: char)
    ensures Join(Split(s, c), [c]) == s
  {
    if s != [] {
      var s' := s[..|s| - 1];
      var x := s[|s| - 1];
      var ps := Split(s', c);
      SplitJoin(s', c);
      SnocLast(s);
      if x == c {
        assert (ps + [""])[..|ps|] == ps;
        assert Join(ps + [""], [c]) == s' + [c] + "";
      } else {
        var ps' := ps[..|ps| - 1];
        var last := ps[|ps| - 1];
        var qs := ps' + [last + [x]];
        assert qs[..|qs| - 1] == ps';
        if |ps| > 1 {
          assert ps == ps' + [last];
          assert Join(ps, [c]) == Join(ps', [c]) + [c] + last;
          assert Join(qs, [c]) == Join(ps', [c]) + [c] + (last + [x]);
        }
        assert Join(qs, [c]) == s' + [x];
      }
    }
  }

  /** str.split followed by str.join gives the string back; no piece holds the separator. */
  lemma JoinSplit(s: string, c: char)
    ensures Join(Split(s, c), [c]) == s
    ensures forall p :: p in Split(s, c) ==> c !in p
    ensures |Split(s, c)| == Occurrences(s, c) + 1
  {
    SplitJoin(s, c);
    SplitPieces(s, c);
    SplitCount(s, c);
  }

  /** The Python form of a string list, `["a", "b"]`, is the list of the quoted values separated by ", ". */
  lemma {:induction false} QuotedJoin(vs: seq<string>)
    requires vs != []
    ensures "\"" + Join(vs, "\", \"") + "\"" == Join(seq(|vs|, i requires 0 <= i < |vs| => Quoted(vs[i])), ", ")
  {
    var qs := seq(|vs|, i requires 0 <= i < |vs| => Quoted(vs[i]));
    if |vs| > 1 {
      var vs' := vs[..|vs| - 1];
      var v := vs[|vs| - 1];
      QuotedJoin(vs');
      var qs' := seq(|vs'|, i requires 0 <= i < |vs'| => Quoted(vs'[i]));
      assert qs[..|qs| - 1] == qs';
      var j := Join(vs', "\", \"");
      calc {
        "\"" + Join(vs, "\", \"") + "\"";
        "\"" + (j + "\", \"" + v) + "\"";
        ("\"" + j + "\"") + ", " + ("\"" + v + "\"");
        Join(qs', ", ") + ", " + Quoted(v);
      }
    }
  }

  // ---------------------------------------------------------------------------
  // Attribute access

  /** state_attr[key]. */
  function Lookup(attrs: map<string, string>, key: string): Result<string, PrintError>
  {
    if key in attrs then Ok(attrs[key]) else Err(MissingAttribute(key))
  }

  /** int(state_attr[key]). */
  function Count(attrs: map<string, string>, key: string): Result<int, PrintError>
  {
    var text :- Lookup(attrs, key);
    match ParseInt(text)
    case None => Err(BadInteger(key, text))
    case Some(n) => Ok(n)
  }

  // ---------------------------------------------------------------------------
  // What each function prints

  /** The values under p + "0", p + "1", ... below n; the first missing one is the error. */
  function Values(attrs: map<string, string>, p: string, n: int): Result<seq<string>, PrintError>
    decreases n
  {
    if n <= 0 then Ok([])
    else
      var vs :- Values(attrs, p, n - 1);
      var v :- Lookup(attrs, p + NatStr(n - 1));
      Ok(vs + [v])
  }

  /** print_str_list: nothing for a zero count, else one `field = ["v0", "v1", ...]` line. */
  function StrListLines(indent: string, attrs: map<string, string>, prefix: string, field: string): Printed
  {
    var count :- Count(attrs, prefix + field + ".#");
    if count == 0 then Ok([])
    else
      var vals :- Values(attrs, prefix + field + ".", count);
      Ok([indent + field + " = [\"" + Join(vals, "\", \"") + "\"]"])
  }

  /** print_condition: the block, the two lists, op unless "=", val unless "". */
  function ConditionLines(attrs: map<string, string>, prefix: string): Printed
  {
    var fieldLines :- StrListLines(Indent4, attrs, prefix, "field");
    var tagLines :- StrListLines(Indent4, attrs, prefix, "tag_field");
    var op :- Lookup(attrs, prefix + "op");
    var val :- Lookup(attrs, prefix + "val");
    Ok([Indent3 + "condition {"] + fieldLines + tagLines
       + (if op != "=" then [Indent4 + "op = " + Quoted(op)] else [])
       + (if val != "" then [Indent4 + "val = " + Quoted(val)] else [])
       + [Indent3 + "}"])
  }

  /** The conditions 0 .. n-1 of the rule under prefix, in index order. */
  function ConditionsLines(attrs: map<string, string>, prefix: string, n: int): Printed
    decreases n
  {
    if n <= 0 then Ok([])
    else
      var before :- ConditionsLines(attrs, prefix, n - 1);
      var c :- ConditionLines(attrs, prefix + "condition." + NatStr(n - 1) + ".");
      Ok(before + c)
  }

  /** print_rule: asset, combine_with when set, the two lists, the conditions. */
  function RuleLines(attrs: map<string, string>, prefix: string): Printed
  {
    var asset :- Lookup(attrs, prefix + "asset");
    var combineWith :- Lookup(attrs, prefix + "combine_with");
    var fieldLines :- StrListLines(Indent3, attrs, prefix, "field");
    var tagLines :- StrListLines(Indent3, attrs, prefix, "tag_field");
    var n :- Count(attrs, prefix + "condition.#");
    var conditions :- ConditionsLines(attrs, prefix, n);
    Ok(["", Indent2 + "rule {"] + [Indent3 + "asset = " + Quoted(asset)]
       + (if combineWith != "" then [Indent3 + "combine_with = " + Quoted(combineWith)] else [])
       + fieldLines + tagLines + conditions + [Indent2 + "}"])
  }

  /** The rules 0 .. n-1 of the group under prefix, in index order. */
  function RulesLines(attrs: map<string, string>, prefix: string, n: int): Printed
    decreases n
  {
    if n <= 0 then Ok([])
    else
      var before :- RulesLines(attrs, prefix, n - 1);
      var r :- RuleLines(attrs, prefix + "rule." + NatStr(n - 1) + ".");
      Ok(before + r)
  }

  /** print_group: name, type and the rules. */
  function GroupLines(attrs: map<string, string>, prefix: string): Printed
  {
    var name :- Lookup(attrs, prefix + "name");
    var groupType :- Lookup(attrs, prefix + "type");
    var n :- Count(attrs, prefix + "rule.#");
    var rules :- RulesLines(attrs, prefix, n);
    Ok(["", Indent1 + "group {"] + [Indent2 + "name = " + Quoted(name)] + [Indent2 + "type = " + Quoted(groupType)]
       + rules + [Indent1 + "}"])
  }

  /** The groups 0 .. n-1, in index order. */
  function GroupsLines(attrs: map<string, string>, n: int): Printed
    decreases n
  {
    if n <= 0 then Ok([])
    else
      var before :- GroupsLines(attrs, n - 1);
      var g :- GroupLines(attrs, "group." + NatStr(n - 1) + ".");
      Ok(before + g)
  }

  /** The header line of a perspective resource block. */
  function Header(tfName: string): string
  {
    "resource \"cloudhealth_perspective\" " + Quoted(tfName) + " {"
  }

  /** One perspective resource: header, name quoted, include_in_reports bare, the groups, the closing brace. */
  function ResourceLines(tfName: string, attrs: map<string, string>): Printed
  {
    var name :- Lookup(attrs, "name");
    var includeInReports :- Lookup(attrs, "include_in_reports");
    var n :- Count(attrs, "group.#");
    var groups :- GroupsLines(attrs, n);
    Ok([Header(tfName)] + [Indent1 + "name = " + Quoted(name)] + [Indent1 + "include_in_reports = " + includeInReports]
       + groups + ["}"])
  }

  /** What a resource entry prints: nothing unless its type is a perspective. */
  function EntryLines(r: Resource): Printed
  {
    var parts := Split(r.key, '.');
    if |parts| != 2 then Err(BadResourceKey(r.key))
    else if parts[0] != PerspectiveType then Ok([])
    else ResourceLines(parts[1], r.attributes)
  }

  /** The main loop: every resource entry in order. */
  function ConfigLines(resources: seq<Resource>): Printed
  {
    if resources == [] then Ok([])
    else
      var before :- ConfigLines(resources[..|resources| - 1]);
      var lines :- EntryLines(resources[|resources| - 1]);
      Ok(before + lines)
  }

  // ---------------------------------------------------------------------------
  // The printing functions, loop by loop

  /** The first failing value stays the failure of every longer list. */
  lemma {:induction false} ValuesFail(attrs: map<string, string>, p: string, k: int, n: int)
    requires k <= n && Values(attrs, p, k).Err?
    ensures Values(attrs, p, n) == Values(attrs, p, k)
    decreases n
  {
    if k < n {
      ValuesFail(attrs, p, k, n - 1);
    }
  }

  /** print_str_list, with the generator of its join as a loop. */
  method PrintStrList(indent: string, stateAttr: map<string, string>, prefix: string, field: string)
    returns (r: Printed)
    ensures r == StrListLines(indent, stateAttr, prefix, field)
  {
    var count :- Count(stateAttr, prefix + field + ".#");
    if count == 0 {
      return Ok([]);
    }
    var bound := if count < 0 then 0 else count;
    var vals: seq<string> := [];
    for x := 0 to bound
      invariant Values(stateAttr, prefix + field + ".", x) == Ok(vals)
    {
      var key := prefix + field + "." + NatStr(x);
      if key !in stateAttr {
        ValuesFail(stateAttr, prefix + field + ".", x + 1, count);
        return Err(MissingAttribute(key));
      }
      vals := vals + [stateAttr[key]];
    }
    r := Ok([indent + field + " = [\"" + Join(vals, "\", \"") + "\"]"]);
  }

  /** print_condition. */
  method PrintCondition(stateAttr: map<string, string>, prefix: string) returns (r: Printed)
    ensures r == ConditionLines(stateAttr, prefix)
  {
    var lines := [Indent3 + "condition {"];
    var fieldLines :- PrintStrList(Indent4, stateAttr, prefix, "field");
    lines := lines + fieldLines;
    var tagLines :- PrintStrList(Indent4, stateAttr, prefix, "tag_field");
    lines := lines + tagLines;
    var op :- Lookup(stateAttr, prefix + "op");
    ghost var opLines: seq<string> := [];
    if op != "=" {
      opLines := [Indent4 + "op = " + Quoted(op)];
      lines := lines + [Indent4 + "op = " + Quoted(op)];
    }
    var val :- Lookup(stateAttr, prefix + "val");
    ghost var valLines: seq<string> := [];
    if val != "" {
      valLines := [Indent4 + "val = " + Quoted(val)];
      lines := lines + [Indent4 + "val = " + Quoted(val)];
    }
    lines := lines + [Indent3 + "}"];
    assert lines == [Indent3 + "condition {"] + fieldLines + tagLines + opLines + valLines + [Indent3 + "}"];
    return Ok(lines);
  }

  lemma {:induction false} ConditionsFail(attrs: map<string, string>, p: string, k: int, n: int)
    requires k <= n && ConditionsLines(attrs, p, k).Err?
    ensures ConditionsLines(attrs, p, n) == ConditionsLines(attrs, p, k)
    decreases n
  {
    if k < n {
      ConditionsFail(attrs, p, k, n - 1);
    }
  }

  /** print_rule, with its loop over the conditions. */
  method PrintRule(stateAttr: map<string, string>, prefix: string) returns (r: Printed)
    ensures r == RuleLines(stateAttr, prefix)
  {
    var lines := ["", Indent2 + "rule {"];
    var asset :- Lookup(stateAttr, prefix + "asset");
    lines := lines + [Indent3 + "asset = " + Quoted(asset)];
    var combineWith :- Lookup(stateAttr, prefix + "combine_with");
    ghost var combineLines: seq<string> := [];
    if combineWith != "" {
      combineLines := [Indent3 + "combine_with = " + Quoted(combineWith)];
      lines := lines + [Indent3 + "combine_with = " + Quoted(combineWith)];
    }
    var fieldLines :- PrintStrList(Indent3, stateAttr, prefix, "field");
    lines := lines + fieldLines;
    var tagLines :- PrintStrList(Indent3, stateAttr, prefix, "tag_field");
    lines := lines + tagLines;
    var count :- Count(stateAttr, prefix + "condition.#");
    var conditionLines :- PrintConditions(stateAttr, prefix, count);
    lines := lines + conditionLines + [Indent2 + "}"];
    assert lines == ["", Indent2 + "rule {"] + [Indent3 + "asset = " + Quoted(asset)] + combineLines
                    + fieldLines + tagLines + conditionLines + [Indent2 + "}"];
    return Ok(lines);
  }

  /** The loop of print_rule over the conditions 0 .. count-1 of the rule under prefix. */
  method PrintConditions(stateAttr: map<string, string>, prefix: string, count: int) returns (r: Printed)
    ensures r == ConditionsLines(stateAttr, prefix, count)
  {
    var bound := if count < 0 then 0 else count;
    var conditionLines: seq<string> := [];
    for condIdx := 0 to bound
      invariant ConditionsLines(stateAttr, prefix, condIdx) == Ok(conditionLines)
    {
      var c := PrintCondition(stateAttr, prefix + "condition." + NatStr(condIdx) + ".");
      if c.Err? {
        ConditionsFail(stateAttr, prefix, condIdx + 1, count);
        return Err(c.error);
      }
      conditionLines := conditionLines + c.value;
    }
    return Ok(conditionLines);
  }

  lemma {:induction false} RulesFail(attrs: map<string, string>, p: string, k: int, n: int)
    requires k <= n && RulesLines(attrs, p, k).Err?
    ensures RulesLines(attrs, p, n) == RulesLines(attrs, p, k)
    decreases n
  {
    if k < n {
      RulesFail(attrs, p, k, n - 1);
    }
  }

  /** print_group, with its loop over the rules. */
  method PrintGroup(stateAttr: map<string, string>, prefix: string) returns (r: Printed)
    ensures r == GroupLines(stateAttr, prefix)
  {
    var lines := ["", Indent1 + "group {"];
    var name :- Lookup(stateAttr, prefix + "name");
    lines := lines + [Indent2 + "name = " + Quoted(name)];
    var groupType :- Lookup(stateAttr, prefix + "type");
    lines := lines + [Indent2 + "type = " + Quoted(groupType)];
    var count :- Count(stateAttr, prefix + "rule.#");
    var bound := if count < 0 then 0 else count;
    var ruleLines: seq<string> := [];
    for ruleIdx := 0 to bound
      invariant RulesLines(stateAttr, prefix, ruleIdx) == Ok(ruleLines)
    {
      var rule := PrintRule(stateAttr, prefix + "rule." + NatStr(ruleIdx) + ".");
      if rule.Err? {
        RulesFail(stateAttr, prefix, ruleIdx + 1, count);
        return Err(rule.error);
      }
      ruleLines := ruleLines + rule.value;
    }
    lines := lines + ruleLines + [Indent1 + "}"];
    return Ok(lines);
  }

  lemma {:induction false} GroupsFail(attrs: map<string, string>, k: int, n: int)
    requires k <= n && GroupsLines(attrs, k).Err?
    ensures GroupsLines(attrs, n) == GroupsLines(attrs, k)
    decreases n
  {
    if k < n {
      GroupsFail(attrs, k, n - 1);
    }
  }

  /** The body of the main loop for one perspective resource: its loop over the groups. */
  method PrintResource(tfName: string, stateAttr: map<string, string>) returns (r: Printed)
    ensures r == ResourceLines(tfName, stateAttr)
  {
    var lines := [Header(tfName)];
    var name :- Lookup(stateAttr, "name");
    lines := lines + [Indent1 + "name = " + Quoted(name)];
    var includeInReports :- Lookup(stateAttr, "include_in_reports");
    lines := lines + [Indent1 + "include_in_reports = " + includeInReports];
    var count :- Count(stateAttr, "group.#");
    var bound := if count < 0 then 0 else count;
    var groupLines: seq<string> := [];
    for groupIdx := 0 to bound
      invariant GroupsLines(stateAttr, groupIdx) == Ok(groupLines)
    {
      var group := PrintGroup(stateAttr, "group." + NatStr(groupIdx) + ".");
      if group.Err? {
        GroupsFail(stateAttr, groupIdx + 1, count);
        return Err(group.error);
      }
      groupLines := groupLines + group.value;
    }
    lines := lines + groupLines + ["}"];
    return Ok(lines);
  }

  lemma {:induction false} ConfigFail(resources: seq<Resource>, k: nat)
    requires k <= |resources| && ConfigLines(resources[..k]).Err?
    ensures ConfigLines(resources) == ConfigLines(resources[..k])
    decreases |resources|
  {
    if k < |resources| {
      var rs' := resources[..|resources| - 1];
      assert rs'[..k] == resources[..k];
      ConfigFail(rs', k);
    } else {
      assert resources[..k] == resources;
    }
  }

  /** main, after the state file has been read: the loop over the resource entries. */
  method PrintConfig(resources: seq<Resource>) returns (r: Printed)
    ensures r == ConfigLines(resources)
  {
    var lines: seq<string> := [];
    for i := 0 to |resources|
      invariant ConfigLines(resources[..i]) == Ok(lines)
    {
      assert resources[..i + 1][..i] == resources[..i];
      var parts := Split(resources[i].key, '.');
      if |parts| != 2 {
        ConfigFail(resources, i + 1);
        return Err(BadResourceKey(resources[i].key));
      }
      var resourceType, tfName := parts[0], parts[1];
      if resourceType != PerspectiveType {
        assert lines + [] == lines;
        continue;
      }
      var printed := PrintResource(tfName, resources[i].attributes);
      if printed.Err? {
        ConfigFail(resources, i + 1);
        return Err(printed.error);
      }
      lines := lines + printed.value;
    }
    assert resources[..|resources|] == resources;
    return Ok(lines);
  }

  // ---------------------------------------------------------------------------
  // Properties of the output

  /** Every key p + "0" .. p + str(n - 1) is present. */
  predicate IndexedPresent(attrs: map<string, string>, p: string, n: int)
  {
    forall i :: 0 <= i < n ==> p + NatStr(i) in attrs
  }

  /** The values of a string list are the attributes under the indices, in index order. */
  lemma {:induction false} ValuesElements(attrs: map<string, string>, p: string, n: int)
    ensures Values(attrs, p, n).Ok? <==> IndexedPresent(attrs, p, n)
    ensures Values(attrs, p, n).Ok? ==>
      var vs := Values(attrs, p, n).value;
      |vs| == (if n < 0 then 0 else n) && forall i :: 0 <= i < |vs| ==> vs[i] == attrs[p + NatStr(i)]
    decreases n
  {
    if n > 0 {
      ValuesElements(attrs, p, n - 1);
      var key := p + NatStr(n - 1);
      if Values(attrs, p, n).Ok? {
        assert Values(attrs, p, n - 1).Ok? && key in attrs;
        var vs' := Values(attrs, p, n - 1).value;
        var vs := Values(attrs, p, n).value;
        assert vs == vs' + [attrs[key]];
        forall i | 0 <= i < n ensures p + NatStr(i) in attrs && vs[i] == attrs[p + NatStr(i)] {
          if i < n - 1 {
            assert vs[i] == vs'[i];
          }
        }
      } else if Values(attrs, p, n - 1).Ok? {
        assert key !in attrs;
        assert !(0 <= n - 1 < n ==> p + NatStr(n - 1) in attrs);
      } else {
        var j :| 0 <= j < n - 1 && p + NatStr(j) !in attrs;
        assert !(0 <= j < n ==> p + NatStr(j) in attrs);
      }
    }
  }

  /**
   * print_str_list prints nothing for a zero count and otherwise one line:
   * the field name and the HCL list of the quoted values, in index order.
   * A negative count (an empty range) prints the list `[""]`.
   */
  lemma StrListShape(indent: string, attrs: map<string, string>, prefix: string, field: string)
    requires StrListLines(indent, attrs, prefix, field).Ok?
    ensures var count := Count(attrs, prefix + field + ".#").value;
      var ls := StrListLines(indent, attrs, prefix, field).value;
      (count == 0 <==> ls == []) &&
      (count > 0 ==>
        (forall i :: 0 <= i < count ==> prefix + field + "." + NatStr(i) in attrs) &&
        var vs := seq(count, i requires 0 <= i < count => attrs[prefix + field + "." + NatStr(i)]);
        ls == [indent + field + " = [" + Join(seq(count, i requires 0 <= i < count => Quoted(vs[i])), ", ") + "]"]) &&
      (count < 0 ==> ls == [indent + field + " = [\"\"]"])
  {
    var count := Count(attrs, prefix + field + ".#").value;
    if count != 0 {
      var p := prefix + field + ".";
      assert Values(attrs, p, count).Ok?;
      ValuesElements(attrs, p, count);
      var vals := Values(attrs, p, count).value;
      if count > 0 {
        var vs := seq(count, i requires 0 <= i < count => attrs[p + NatStr(i)]);
        assert vals == vs;
        QuotedJoin(vs);
        assert indent + field + " = [\"" + Join(vals, "\", \"") + "\"]"
            == indent + field + " = [" + ("\"" + Join(vals, "\", \"") + "\"") + "]";
      } else {
        assert Join(vals, "\", \"") == "";
        assert indent + field + " = [\"" + "" + "\"]" == indent + field + " = [\"\"]";
      }
    }
  }

  /** Two strings that differ at a position inside both cannot both begin a line. */
  lemma Clash(line: string, a: string, b: string, i: nat)
    requires i < |a| && i < |b| && a[i] != b[i]
    ensures !(StartsWith(line, a) && StartsWith(line, b))
  {
  }

  /** No line begins with both of two strings that differ at a position inside both. */
  lemma Exclusive(a: string, b: string, i: nat)
    requires i < |a| && i < |b| && a[i] != b[i]
    ensures forall line :: StartsWith(line, a) ==> !StartsWith(line, b)
  {
    forall line | StartsWith(line, a) ensures !StartsWith(line, b) {
      Clash(line, a, b, i);
    }
  }

  /** The line of a string list begins with its indent and field name. */
  lemma StrListLinesStart(indent: string, attrs: map<string, string>, prefix: string, field: string)
    requires StrListLines(indent, attrs, prefix, field).Ok?
    ensures forall l :: l in StrListLines(indent, attrs, prefix, field).value ==> StartsWith(l, indent + field + " = [")
  {
  }

  /** A line setting key at the given indent. */
  predicate Sets(line: string, indent: string, key: string)
  {
    StartsWith(line, indent + key + " = ")
  }

  /** A line setting op (or val) in a condition is no other line of the condition. */
  lemma ConditionKeyExcludes(key: string, other: string, v: string)
    requires (key == "op" && other == "val") || (key == "val" && other == "op")
    ensures forall line :: Sets(line, Indent4, key) ==>
      && !StartsWith(line, Indent4 + "field" + " = [") && !StartsWith(line, Indent4 + "tag_field" + " = [")
      && line != Indent4 + other + " = " + Quoted(v) && line != Indent3 + "condition {" && line != Indent3 + "}"
  {
    var k := Indent4 + key + " = ";
    Exclusive(k, Indent4 + "field" + " = [", 16);
    Exclusive(k, Indent4 + "tag_field" + " = [", 16);
    Exclusive(k, Indent4 + other + " = " + Quoted(v), 16);
    Exclusive(k, Indent3 + "condition {", 12);
  }

  /**
   * A printed condition has an op line exactly when op is not the default
   * "=", and a val line exactly when val is not empty; each shows its value.
   */
  lemma ConditionOptionalLines(attrs: map<string, string>, prefix: string)
    requires ConditionLines(attrs, prefix).Ok?
    ensures var ls := ConditionLines(attrs, prefix).value;
      var op := attrs[prefix + "op"];
      var val := attrs[prefix + "val"];
      ((exists l :: l in ls && Sets(l, Indent4, "op")) <==> op != "=") &&
      ((exists l :: l in ls && Sets(l, Indent4, "val")) <==> val != "") &&
      (op != "=" ==> Indent4 + "op = " + Quoted(op) in ls) &&
      (val != "" ==> Indent4 + "val = " + Quoted(val) in ls)
  {
    var ls := ConditionLines(attrs, prefix).value;
    var op := attrs[prefix + "op"];
    var val := attrs[prefix + "val"];
    var fieldLines := StrListLines(Indent4, attrs, prefix, "field").value;
    var tagLines := StrListLines(Indent4, attrs, prefix, "tag_field").value;
    StrListLinesStart(Indent4, attrs, prefix, "field");
    StrListLinesStart(Indent4, attrs, prefix, "tag_field");
    var opLine := Indent4 + "op = " + Quoted(op);
    var valLine := Indent4 + "val = " + Quoted(val);
    var opLines := if op != "=" then [opLine] else [];
    var valLines := if val != "" then [valLine] else [];
    assert ls == [Indent3 + "condition {"] + fieldLines + tagLines + opLines + valLines + [Indent3 + "}"];
    assert Sets(opLine, Indent4, "op") by {
      assert opLine[..|Indent4 + "op" + " = "|] == Indent4 + "op" + " = ";
    }
    assert Sets(valLine, Indent4, "val") by {
      assert valLine[..|Indent4 + "val" + " = "|] == Indent4 + "val" + " = ";
    }
    if op != "=" {
      assert opLine in ls;
    }
    if val != "" {
      assert valLine in ls;
    }
    assert forall l :: l in ls ==>
      (l == Indent3 + "condition {" || l == Indent3 + "}" || l in fieldLines
       || l in tagLines || l in opLines || l in valLines);
    OnlyKeyLine(ls, "op", fieldLines, tagLines, opLines, valLines, "val", val);
    OnlyKeyLine(ls, "val", fieldLines, tagLines, valLines, opLines, "op", op);
  }

  /** In a condition, the only line setting key (op or val) is its own line. */
  lemma OnlyKeyLine(ls: seq<string>, key: string, fieldLines: seq<string>, tagLines: seq<string>,
                    mine: seq<string>, theirs: seq<string>, other: string, v: string)
    requires (key == "op" && other == "val") || (key == "val" && other == "op")
    requires forall l :: l in fieldLines ==> StartsWith(l, Indent4 + "field" + " = [")
    requires forall l :: l in tagLines ==> StartsWith(l, Indent4 + "tag_field" + " = [")
    requires forall l :: l in theirs ==> l == Indent4 + other + " = " + Quoted(v)
    requires forall l :: l in ls ==>
      (l == Indent3 + "condition {" || l == Indent3 + "}" || l in fieldLines
       || l in tagLines || l in mine || l in theirs)
    ensures forall l :: l in ls && Sets(l, Indent4, key) ==> l in mine
  {
    ConditionKeyExcludes(key, other, v);
  }

  /** Every line of printed conditions opens or closes a condition block or is indented inside one. */
  lemma {:induction false} ConditionsLinesShape(attrs: map<string, string>, prefix: string, n: int)
    requires ConditionsLines(attrs, prefix, n).Ok?
    ensures forall l :: l in ConditionsLines(attrs, prefix, n).value ==>
      l == Indent3 + "condition {" || l == Indent3 + "}" || StartsWith(l, Indent4)
    decreases n
  {
    if n > 0 {
      ConditionsLinesShape(attrs, prefix, n - 1);
      var p := prefix + "condition." + NatStr(n - 1) + ".";
      StrListLinesStart(Indent4, attrs, p, "field");
      StrListLinesStart(Indent4, attrs, p, "tag_field");
      var fieldLines := StrListLines(Indent4, attrs, p, "field").value;
      var tagLines := StrListLines(Indent4, attrs, p, "tag_field").value;
      forall l | l in fieldLines + tagLines ensures StartsWith(l, Indent4) {
        var f := if l in fieldLines then "field" else "tag_field";
        assert StartsWith(l, Indent4 + f + " = [");
        assert (Indent4 + f + " = [")[..16] == Indent4;
      }
      var op := attrs[p + "op"];
      var val := attrs[p + "val"];
      assert (Indent4 + "op = " + Quoted(op))[..16] == Indent4;
      assert (Indent4 + "val = " + Quoted(val))[..16] == Indent4;
    }
  }

  /** A printed rule has a combine_with line exactly when combine_with is set, and it shows the value. */
  lemma RuleCombineWith(attrs: map<string, string>, prefix: string)
    requires RuleLines(attrs, prefix).Ok?
    ensures var ls := RuleLines(attrs, prefix).value;
      var combineWith := attrs[prefix + "combine_with"];
      ((exists l :: l in ls && Sets(l, Indent3, "combine_with")) <==> combineWith != "") &&
      (combineWith != "" ==> Indent3 + "combine_with = " + Quoted(combineWith) in ls)
  {
    var ls := RuleLines(attrs, prefix).value;
    var asset := attrs[prefix + "asset"];
    var combineWith := attrs[prefix + "combine_with"];
    var fieldLines := StrListLines(Indent3, attrs, prefix, "field").value;
    var tagLines := StrListLines(Indent3, attrs, prefix, "tag_field").value;
    var n := Count(attrs, prefix + "condition.#").value;
    var conditions := ConditionsLines(attrs, prefix, n).value;
    var key := Indent3 + "combine_with" + " = ";
    var cwLine := Indent3 + "combine_with = " + Quoted(combineWith);
    var cwLines := if combineWith != "" then [cwLine] else [];
    var assetLine := Indent3 + "asset = " + Quoted(asset);
    assert ls == ["", Indent2 + "rule {"] + [assetLine] + cwLines
                 + fieldLines + tagLines + conditions + [Indent2 + "}"];
    assert Sets(cwLine, Indent3, "combine_with") by {
      assert cwLine[..|key|] == key;
    }
    if combineWith != "" {
      assert cwLine in ls;
    }
    OnlyCombineLine(attrs, prefix, ls, key, assetLine, cwLines, fieldLines, tagLines, conditions, n);
  }

  /** A line setting combine_with is no other line of a rule. */
  lemma CombineKeyExcludes(key: string)
    requires key == Indent3 + "combine_with" + " = "
    ensures forall line :: StartsWith(line, key) ==>
      && !StartsWith(line, Indent3 + "field" + " = [") && !StartsWith(line, Indent3 + "tag_field" + " = [")
      && !StartsWith(line, Indent4) && !StartsWith(line, Indent3 + "asset")
      && line != Indent3 + "condition {" && line != Indent3 + "}" && line != "" && line != Indent2 + "rule {"
  {
    Exclusive(key, Indent3 + "field" + " = [", 12);
    Exclusive(key, Indent3 + "tag_field" + " = [", 12);
    Exclusive(key, Indent4, 12);
    Exclusive(key, Indent3 + "asset", 12);
    Exclusive(key, Indent3 + "condition {", 14);
  }

  /** The lines of a rule other than its combine_with line cannot set combine_with. */
  lemma OnlyCombineLine(attrs: map<string, string>, prefix: string, ls: seq<string>, key: string,
                        assetLine: string, cwLines: seq<string>, fieldLines: seq<string>,
                        tagLines: seq<string>, conditions: seq<string>, n: int)
    requires key == Indent3 + "combine_with" + " = "
    requires StrListLines(Indent3, attrs, prefix, "field") == Ok(fieldLines)
    requires StrListLines(Indent3, attrs, prefix, "tag_field") == Ok(tagLines)
    requires ConditionsLines(attrs, prefix, n) == Ok(conditions)
    requires StartsWith(assetLine, Indent3 + "asset")
    requires ls == ["", Indent2 + "rule {"] + [assetLine] + cwLines
                   + fieldLines + tagLines + conditions + [Indent2 + "}"]
    ensures forall l :: l in ls && StartsWith(l, key) ==> l in cwLines
  {
    StrListLinesStart(Indent3, attrs, prefix, "field");
    StrListLinesStart(Indent3, attrs, prefix, "tag_field");
    ConditionsLinesShape(attrs, prefix, n);
    CombineKeyExcludes(key);
    assert forall l :: l in ls && StartsWith(l, key) ==> l in cwLines;
  }


  // ---------------------------------------------------------------------------
  // What the output depends on

  /** Two attribute maps that agree on every key beginning with q. */
  ghost predicate AgreeUnder(a: map<string, string>, b: map<string, string>, q: string)
  {
    forall k :: StartsWith(k, q) ==> (k in a <==> k in b) && (k in a ==> a[k] == b[k])
  }

  lemma AgreeNarrow(a: map<string, string>, b: map<string, string>, q: string, r: string)
    requires AgreeUnder(a, b, q)
    ensures AgreeUnder(a, b, q + r)
  {
    forall k | StartsWith(k, q + r) ensures StartsWith(k, q) {
      assert k[..|q|] == k[..|q + r|][..|q|] == (q + r)[..|q|];
    }
  }

  lemma LookupUnder(a: map<string, string>, b: map<string, string>, q: string, s: string)
    requires AgreeUnder(a, b, q)
    ensures Lookup(a, q + s) == Lookup(b, q + s)
    ensures Count(a, q + s) == Count(b, q + s)
  {
    assert StartsWith(q + s, q);
  }

  lemma {:induction false} ValuesUnder(a: map<string, string>, b: map<string, string>, q: string, n: int)
    requires AgreeUnder(a, b, q)
    ensures Values(a, q, n) == Values(b, q, n)
    decreases n
  {
    if n > 0 {
      ValuesUnder(a, b, q, n - 1);
      LookupUnder(a, b, q, NatStr(n - 1));
    }
  }

  lemma StrListUnder(indent: string, a: map<string, string>, b: map<string, string>, q: string, field: string)
    requires AgreeUnder(a, b, q)
    ensures StrListLines(indent, a, q, field) == StrListLines(indent, b, q, field)
  {
    AgreeNarrow(a, b, q, field);
    LookupUnder(a, b, q + field, ".#");
    AgreeNarrow(a, b, q + field, ".");
    if Count(a, q + field + ".#").Ok? {
      ValuesUnder(a, b, q + field + ".", Count(a, q + field + ".#").value);
    }
  }

  lemma ConditionUnder(a: map<string, string>, b: map<string, string>, q: string)
    requires AgreeUnder(a, b, q)
    ensures ConditionLines(a, q) == ConditionLines(b, q)
  {
    StrListUnder(Indent4, a, b, q, "field");
    StrListUnder(Indent4, a, b, q, "tag_field");
    LookupUnder(a, b, q, "op");
    LookupUnder(a, b, q, "val");
  }

  lemma {:induction false} ConditionsUnder(a: map<string, string>, b: map<string, string>, q: string, n: int)
    requires AgreeUnder(a, b, q)
    ensures ConditionsLines(a, q, n) == ConditionsLines(b, q, n)
    decreases n
  {
    if n > 0 {
      ConditionsUnder(a, b, q, n - 1);
      AgreeNarrow(a, b, q, "condition.");
      AgreeNarrow(a, b, q + "condition.", NatStr(n - 1));
      AgreeNarrow(a, b, q + "condition." + NatStr(n - 1), ".");
      ConditionUnder(a, b, q + "condition." + NatStr(n - 1) + ".");
    }
  }

  lemma RuleUnder(a: map<string, string>, b: map<string, string>, q: string)
    requires AgreeUnder(a, b, q)
    ensures RuleLines(a, q) == RuleLines(b, q)
  {
    LookupUnder(a, b, q, "asset");
    LookupUnder(a, b, q, "combine_with");
    StrListUnder(Indent3, a, b, q, "field");
    StrListUnder(Indent3, a, b, q, "tag_field");
    LookupUnder(a, b, q, "condition.#");
    if Count(a, q + "condition.#").Ok? {
      ConditionsUnder(a, b, q, Count(a, q + "condition.#").value);
    }
  }

  /** The rules of a group read only the keys under prefix + "rule.". */
  lemma {:induction false} RulesUnder(a: map<string, string>, b: map<string, string>, prefix: string, n: int)
    requires AgreeUnder(a, b, prefix + "rule.")
    ensures RulesLines(a, prefix, n) == RulesLines(b, prefix, n)
    decreases n
  {
    if n > 0 {
      RulesUnder(a, b, prefix, n - 1);
      AgreeNarrow(a, b, prefix + "rule.", NatStr(n - 1));
      AgreeNarrow(a, b, prefix + "rule." + NatStr(n - 1), ".");
      RuleUnder(a, b, prefix + "rule." + NatStr(n - 1) + ".");
    }
  }

  /** Two keys with the same prefix and suffixes that differ at position i are different keys. */
  lemma DistinctKeys(prefix: string, s: string, t: string, i: nat)
    requires i < |s| && i < |t| && s[i] != t[i]
    ensures prefix + s != prefix + t
    ensures !StartsWith(prefix + t, prefix + s)
  {
    assert (prefix + s)[|prefix| + i] == s[i];
    assert (prefix + t)[|prefix| + i] == t[i];
  }

  /** print_group never prints the group's ref_id: its output does not depend on it. */
  lemma GroupIgnoresRefId(attrs: map<string, string>, prefix: string, refId: string)
    ensures GroupLines(attrs[prefix + "ref_id" := refId], prefix) == GroupLines(attrs, prefix)
  {
    var b := attrs[prefix + "ref_id" := refId];
    DistinctKeys(prefix, "name", "ref_id", 0);
    DistinctKeys(prefix, "type", "ref_id", 0);
    DistinctKeys(prefix, "rule.#", "ref_id", 1);
    DistinctKeys(prefix, "rule.", "ref_id", 1);
    assert AgreeUnder(b, attrs, prefix + "rule.");
    if Count(attrs, prefix + "rule.#").Ok? {
      RulesUnder(b, attrs, prefix, Count(attrs, prefix + "rule.#").value);
    }
  }

  /** A perspective resource's block opens with its header, name quoted and include_in_reports bare, and is closed. */
  lemma ResourceFrame(tfName: string, attrs: map<string, string>)
    requires ResourceLines(tfName, attrs).Ok?
    ensures var ls := ResourceLines(tfName, attrs).value;
      |ls| >= 4 &&
      ls[0] == "resource \"cloudhealth_perspective\" \"" + tfName + "\" {" &&
      ls[1] == Indent1 + "name = " + Quoted(attrs["name"]) &&
      ls[2] == Indent1 + "include_in_reports = " + attrs["include_in_reports"] &&
      ls[|ls| - 1] == "}"
  {
    var name := attrs["name"];
    var includeInReports := attrs["include_in_reports"];
    var groups := GroupsLines(attrs, Count(attrs, "group.#").value).value;
    var ls := ResourceLines(tfName, attrs).value;
    assert ls == [Header(tfName)] + [Indent1 + "name = " + Quoted(name)] + [Indent1 + "include_in_reports = " + includeInReports]
      + groups + ["}"];
    HeaderText(tfName);
  }

  /** The resource header, written out. */
  lemma HeaderText(tfName: string)
    ensures Header(tfName) == "resource \"cloudhealth_perspective\" \"" + tfName + "\" {"
  {
  }

  /** Printing a then printing b: the lines of both, or the first error. */
  function Then(a: Printed, b: Printed): Printed
  {
    match a
    case Err(e) => Err(e)
    case Ok(x) =>
      match b
      case Err(e) => Err(e)
      case Ok(y) => Ok(x + y)
  }

  lemma ThenAssoc(a: Printed, b: Printed, c: Printed)
    ensures Then(Then(a, b), c) == Then(a, Then(b, c))
  {
    if a.Ok? && b.Ok? && c.Ok? {
      assert a.value + b.value + c.value == a.value + (b.value + c.value);
    }
  }

  lemma ConfigSnoc(resources: seq<Resource>)
    requires resources != []
    ensures ConfigLines(resources) == Then(ConfigLines(resources[..|resources| - 1]), EntryLines(resources[|resources| - 1]))
  {
    var a := ConfigLines(resources[..|resources| - 1]);
    var b := EntryLines(resources[|resources| - 1]);
    if a.Ok? && b.Ok? {
      assert ConfigLines(resources) == Ok(a.value + b.value);
    }
  }

  /** The output of consecutive resource lists is the concatenation of their outputs; the first error wins. */
  lemma {:induction false} ConfigAppend(xs: seq<Resource>, ys: seq<Resource>)
    ensures ConfigLines(xs + ys) == Then(ConfigLines(xs), ConfigLines(ys))
    decreases |ys|
  {
    if ys == [] {
      assert xs + ys == xs;
      if ConfigLines(xs).Ok? {
        assert ConfigLines(xs).value + [] == ConfigLines(xs).value;
      }
    } else {
      var ys' := ys[..|ys| - 1];
      var zs := xs + ys;
      assert zs[..|zs| - 1] == xs + ys';
      assert zs[|zs| - 1] == ys[|ys| - 1];
      ConfigSnoc(zs);
      ConfigSnoc(ys);
      ConfigAppend(xs, ys');
      ThenAssoc(ConfigLines(xs), ConfigLines(ys'), EntryLines(ys[|ys| - 1]));
    }
  }

  /** A resource that is not a perspective prints nothing: taking it out changes no output. */
  lemma SkipOtherTypes(xs: seq<Resource>, r: Resource, ys: seq<Resource>)
    requires var parts := Split(r.key, '.'); |parts| == 2 && parts[0] != PerspectiveType
    ensures ConfigLines(xs + [r] + ys) == ConfigLines(xs + ys)
  {
    ConfigAppend(xs + [r], ys);
    ConfigAppend(xs, [r]);
    ConfigAppend(xs, ys);
    assert [r][..0] == [];
    if ConfigLines(xs).Ok? {
      assert ConfigLines(xs).value + [] == ConfigLines(xs).value;
    }
  }

  /** A resource key is rejected exactly when it does not hold exactly one '.'; otherwise it is type "." name. */
  lemma ResourceKey(key: string)
    ensures |Split(key, '.')| == 2 <==> Occurrences(key, '.') == 1
    ensures |Split(key, '.')| == 2 ==>
      var parts := Split(key, '.');
      key == parts[0] + "." + parts[1] && '.' !in parts[0] && '.' !in parts[1]
  {
    JoinSplit(key, '.');
    var parts := Split(key, '.');
    if |parts| == 2 {
      assert parts[..1] == [parts[0]];
      assert Join(parts, ".") == parts[0] + "." + parts[1];
      assert parts[0] in parts && parts[1] in parts;
    }
  }
}
