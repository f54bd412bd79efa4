/** The bounded writer of the legacy redirect: analyse the inventory, plan one write, let the transport
    check that write against what it saw itself, and verify the result. */
module RedirectWrite {
  import opened Shapes
  import opened RedirectRules

  const RULE_REF := "ausmalwiese_legacy_301"
  const RULE_DESCRIPTION := "Ausmalwiese legacy hostname permanent redirect"
  const RULESET_NAME := "Ausmalwiese legacy redirect rules"
  const MATCH := HostEquals(LEGACY_HOST, "http.host eq \"coloring.rozkalns.net\"")
  const REDIRECT :=
    Action("redirect", FromValue("concat(\"https://ausmalwiese.de\", http.request.uri.path)", 301, true))

  /** The writable members of a rule. */
  datatype RuleBody = RuleBody(
    ref: string, description: string, expression: Expression, action: Action, enabled: bool)

  datatype Body =
    | RulesetBody(name: string, kind: string, phase: string, rules: seq<RuleBody>)
    | OneRule(rule: RuleBody)
    | OtherBody(text: string)

  const DESIRED := RuleBody(RULE_REF, RULE_DESCRIPTION, MATCH, REDIRECT, true)
  const CREATE_BODY := RulesetBody(RULESET_NAME, "zone", PHASE, [DESIRED])

  datatype Write = Write(verb: string, path: string, body: Body)

  datatype Operation = CreateRuleset | AddRule | UpdateRule | Noop

  datatype Analysis = Analysis(
    operation: Operation, ruleset: Option<string>, rule: Option<string>, unrelated: seq<Rule>)

  // ---------------------------------------------------------------------------------------------
  // Analysis

  /** A rule without the members the provider changes by itself. */
  function Stable(r: Rule): Rule {
    r.(version := None, lastUpdated := None)
  }

  predicate IsDesired(r: Rule) {
    r.ref == Some(RULE_REF) && r.description == Some(RULE_DESCRIPTION) && r.expression == MATCH
    && r.action == REDIRECT && Enabled(r)
  }

  function LegacyRules(rules: seq<Rule>): seq<Rule> {
    if rules == [] then []
    else (if ScopeOf(rules[0]).LegacyHost? then [rules[0]] else []) + LegacyRules(rules[1..])
  }

  function Unrelated(rules: seq<Rule>): seq<Rule> {
    if rules == [] then []
    else (if ScopeOf(rules[0]).LegacyHost? then [] else [Stable(rules[0])]) + Unrelated(rules[1..])
  }

  lemma {:induction false} SplitAppend(s: seq<Rule>, r: Rule)
    ensures LegacyRules(s + [r]) == LegacyRules(s) + (if ScopeOf(r).LegacyHost? then [r] else [])
    ensures Unrelated(s + [r]) == Unrelated(s) + (if ScopeOf(r).LegacyHost? then [] else [Stable(r)])
  {
    if s == [] {
      assert s + [r] == [r];
    } else {
      assert (s + [r])[1..] == s[1..] + [r];
      SplitAppend(s[1..], r);
    }
  }

  predicate HasId(r: Rule) {
    r.id.Some? && IsHex32(r.id.value)
  }

  /** Every enabled rule is an anchored host equality and so is every disabled one. */
  predicate Unambiguous(rules: seq<Rule>) {
    forall r :: r in rules ==> !ScopeOf(r).Unknown?
  }

  predicate Analysable(entry: Option<Entry>) {
    match entry
    case None => true
    case Some(e) =>
      e.rules.Some? && Unambiguous(e.rules.value)
      && (match |LegacyRules(e.rules.value)|
          case 0 => true
          case 1 => HasId(LegacyRules(e.rules.value)[0])
          case _ => false)
  }

  function Analysed(entry: Option<Entry>): Analysis
    requires Analysable(entry)
  {
    match entry
    case None => Analysis(CreateRuleset, None, None, [])
    case Some(e) =>
      var legacy := LegacyRules(e.rules.value);
      if legacy == [] then Analysis(AddRule, Some(e.id), None, Unrelated(e.rules.value))
      else Analysis(if IsDesired(legacy[0]) then Noop else UpdateRule, Some(e.id), legacy[0].id,
                    Unrelated(e.rules.value))
  }

  /** The inventory's counts of ambiguous rules are empty exactly when no rule is ambiguous. */
  lemma CountsMeanUnambiguous(rules: seq<Rule>, baseline: string)
    ensures Counted(rules, baseline).ambiguous == [] && Counted(rules, baseline).disabledUnknown == 0
            <==> Unambiguous(rules)
  {
    WhereHolds(rules, r => Enabled(r) && ScopeOf(r).Unknown?);
    WhereHolds(rules, r => !Enabled(r) && ScopeOf(r).Unknown?);
    var on := Where(rules, r => Enabled(r) && ScopeOf(r).Unknown?);
    var off := Where(rules, r => !Enabled(r) && ScopeOf(r).Unknown?);
    if on != [] {
      assert on[0] in on;
      assert ScopeOf(rules[on[0] - 1]).Unknown?;
    }
    if off != [] {
      assert off[0] in off;
      assert ScopeOf(rules[off[0] - 1]).Unknown?;
    }
    if on == [] && off == [] {
      forall r | r in rules ensures !ScopeOf(r).Unknown? {
        var i :| 0 <= i < |rules| && rules[i] == r;
        assert i + 1 !in on && i + 1 !in off;
      }
    }
  }

  method Analyze(entry: Option<Entry>, inventory: Inventory) returns (r: Result<Analysis>)
    requires entry.Some? ==>
               entry.value.rules.Some? && inventory == Counted(entry.value.rules.value, inventory.baseline)
    requires entry.None? ==> inventory == Absent(inventory.baseline)
    ensures r.Ok? <==> Analysable(entry)
    ensures r.Ok? ==> r.value == Analysed(entry)
  {
    if entry.Some? {
      CountsMeanUnambiguous(entry.value.rules.value, inventory.baseline);
    }
    if inventory.ambiguous != [] {
      return Stop("AMBIGUOUS_ACTIVE_RULE");
    }
    if inventory.disabledUnknown != 0 {
      return Stop("AMBIGUOUS_DISABLED_RULE");
    }
    if entry.None? {
      if inventory.legacy != [] {
        return Stop("LEGACY_STATE_DRIFT");
      }
      return Ok(Analysis(CreateRuleset, None, None, []));
    }
    var rules := entry.value.rules.value;
    var legacy: seq<Rule>, unrelated: seq<Rule> := [], [];
    for i := 0 to |rules|
      invariant legacy == LegacyRules(rules[..i]) && unrelated == Unrelated(rules[..i])
    {
      assert rules[..i + 1] == rules[..i] + [rules[i]];
      SplitAppend(rules[..i], rules[i]);
      if ScopeOf(rules[i]).LegacyHost? {
        legacy := legacy + [rules[i]];
      } else {
        unrelated := unrelated + [Stable(rules[i])];
      }
    }
    assert rules[..|rules|] == rules;
    if |legacy| > 1 {
      return Stop("DUPLICATE_LEGACY_RULE");
    }
    if |legacy| == 1 {
      var rule := legacy[0];
      if !HasId(rule) {
        return Stop("LEGACY_RULE_ID");
      }
      return Ok(Analysis(if IsDesired(rule) then Noop else UpdateRule, Some(entry.value.id), rule.id, unrelated));
    }
    return Ok(Analysis(AddRule, Some(entry.value.id), None, unrelated));
  }

  // ---------------------------------------------------------------------------------------------
  // The plan, and the transport's own idea of what may be written

  function Prefix(zoneId: string): string {
    "/zones/" + zoneId
  }

  function CreatePath(zoneId: string): string {
    Prefix(zoneId) + "/rulesets"
  }

  function AddPath(zoneId: string, ruleset: string): string {
    Prefix(zoneId) + "/rulesets/" + ruleset + "/rules"
  }

  function UpdatePath(zoneId: string, ruleset: string, rule: string): string {
    AddPath(zoneId, ruleset) + "/" + rule
  }

  function Plan(zoneId: string, a: Analysis): Write
    requires !a.operation.Noop?
    requires a.operation.AddRule? || a.operation.UpdateRule? ==> a.ruleset.Some?
    requires a.operation.UpdateRule? ==> a.rule.Some?
  {
    match a.operation
    case CreateRuleset => Write("POST", CreatePath(zoneId), CREATE_BODY)
    case AddRule => Write("POST", AddPath(zoneId, a.ruleset.value), OneRule(DESIRED))
    case UpdateRule => Write("PATCH", UpdatePath(zoneId, a.ruleset.value, a.rule.value), OneRule(DESIRED))
  }

  /** What the transport remembers of the entry point reply it passed on last. */
  datatype Memory = Memory(seen: bool, absent: bool, entry: Option<string>, legacy: seq<string>)

  /** `{prefix}/rulesets/([0-9a-f]{32})/rules` */
  function ParseAdd(zoneId: string, path: string): Option<string> {
    var p := Prefix(zoneId) + "/rulesets/";
    if |path| == |p| + 38 && path[..|p|] == p && IsHex32(path[|p|..|p| + 32]) && path[|p| + 32..] == "/rules"
    then Some(path[|p|..|p| + 32]) else None
  }

  /** `{prefix}/rulesets/([0-9a-f]{32})/rules/([0-9a-f]{32})` */
  function ParseUpdate(zoneId: string, path: string): Option<(string, string)> {
    var p := Prefix(zoneId) + "/rulesets/";
    if |path| == |p| + 71 && path[..|p|] == p && IsHex32(path[|p|..|p| + 32])
       && path[|p| + 32..|p| + 39] == "/rules/" && IsHex32(path[|p| + 39..])
    then Some((path[|p|..|p| + 32], path[|p| + 39..])) else None
  }

  class FixedZoneRedirectWriteTransport {
    const zoneId: string
    var memory: Memory
    var writes: nat
    var sent: seq<Write>

    constructor (zoneId: string)
      ensures this.zoneId == zoneId && memory == Memory(false, false, None, []) && writes == 0 && sent == []
    {
      this.zoneId := zoneId;
      memory, writes, sent := Memory(false, false, None, []), 0, [];
    }

    /** Passes on an entry point reply, remembering what it shows; an unusable one becomes a failure. */
    method ReadPhase(reply: Reply<Entry>) returns (r: Reply<Entry>)
      modifies this`memory
      ensures r == (if Usable(reply) then reply else Failed)
      ensures Usable(reply) ==> memory == Remembered(reply)
      ensures !Usable(reply) ==> memory == if reply.Failed? then old(memory) else old(memory).(seen := true)
    {
      if reply.Failed? {
        return Failed;
      }
      memory := memory.(seen := true);
      if reply.code == 404 {
        memory := Memory(true, true, None, []);
      } else if reply.code == 200 {
        if reply.result.None? || !IsHex32(reply.result.value.id) || reply.result.value.rules.None? {
          return Failed;
        }
        var rules := reply.result.value.rules.value;
        var ids: seq<string> := [];
        for i := 0 to |rules|
          invariant forall j :: 0 <= j < i && ScopeOf(rules[j]).LegacyHost? ==> HasId(rules[j])
          invariant ids == LegacyIds(rules[..i])
          invariant memory == old(memory).(seen := true)
        {
          assert rules[..i + 1] == rules[..i] + [rules[i]];
          SplitAppend(rules[..i], rules[i]);
          IdsAppend(LegacyRules(rules[..i]), rules[i]);
          if ScopeOf(rules[i]).LegacyHost? {
            if !HasId(rules[i]) {
              return Failed;
            }
            ids := ids + [rules[i].id.value];
          }
        }
        assert rules[..|rules|] == rules;
        memory := Memory(true, false, Some(reply.result.value.id), ids);
      } else {
        return Failed;
      }
      return reply;
    }

    method ValidateWrite(w: Write) returns (ok: bool)
      ensures ok <==> Permits(memory, zoneId, w)
    {
      if !memory.seen {
        return false;
      }
      if w.verb == "POST" && w.path == CreatePath(zoneId) {
        return memory.absent && w.body == CREATE_BODY;
      }
      var add := ParseAdd(zoneId, w.path);
      if w.verb == "POST" && add.Some? {
        return !memory.absent && memory.entry.Some? && add.value == memory.entry.value && w.body == OneRule(DESIRED);
      }
      var update := ParseUpdate(zoneId, w.path);
      if w.verb == "PATCH" && update.Some? {
        return !memory.absent && memory.entry.Some? && update.value.0 == memory.entry.value
               && |memory.legacy| == 1 && update.value.1 == memory.legacy[0] && w.body == OneRule(DESIRED);
      }
      return false;
    }

    /** Sends a permitted write; `delivered` says whether a usable response came back. */
    method WriteOnce(w: Write, delivered: bool) returns (ok: bool)
      modifies this`writes, this`sent
      ensures if old(writes) == 0 && Permits(memory, zoneId, w)
              then sent == old(sent) + [w] && writes == 1 && ok == delivered
              else sent == old(sent) && writes == old(writes) && !ok
    {
      if writes != 0 {
        return false;
      }
      var valid := ValidateWrite(w);
      if !valid {
        return false;
      }
      writes, sent := 1, sent + [w];
      return delivered;
    }
  }

  function LegacyIds(rules: seq<Rule>): seq<string> {
    Ids(LegacyRules(rules))
  }

  function Ids(rules: seq<Rule>): seq<string> {
    if rules == [] then [] else [if rules[0].id.Some? then rules[0].id.value else ""] + Ids(rules[1..])
  }

  lemma {:induction false} IdsAppend(s: seq<Rule>, r: Rule)
    ensures Ids(s + [r]) == Ids(s) + [if r.id.Some? then r.id.value else ""]
    ensures s + [] == s
  {
    if s == [] {
      assert s + [r] == [r];
    } else {
      assert (s + [r])[1..] == s[1..] + [r];
      IdsAppend(s[1..], r);
    }
  }

  /** An entry point reply the transport passes on. */
  predicate Usable(reply: Reply<Entry>) {
    reply.Status?
    && (reply.code == 404
        || (reply.code == 200 && reply.result.Some? && IsHex32(reply.result.value.id)
            && reply.result.value.rules.Some?
            && forall r :: r in reply.result.value.rules.value && ScopeOf(r).LegacyHost? ==> HasId(r)))
  }

  function Remembered(reply: Reply<Entry>): Memory
    requires Usable(reply)
  {
    if reply.code == 404 then Memory(true, true, None, [])
    else Memory(true, false, Some(reply.result.value.id), LegacyIds(reply.result.value.rules.value))
  }

  predicate Permits(m: Memory, zoneId: string, w: Write) {
    m.seen
    && if w.verb == "POST" && w.path == CreatePath(zoneId) then m.absent && w.body == CREATE_BODY
       else if w.verb == "POST" && ParseAdd(zoneId, w.path).Some? then
         !m.absent && m.entry == ParseAdd(zoneId, w.path) && w.body == OneRule(DESIRED)
       else if w.verb == "PATCH" && ParseUpdate(zoneId, w.path).Some? then
         !m.absent && m.entry == Some(ParseUpdate(zoneId, w.path).value.0)
         && m.legacy == [ParseUpdate(zoneId, w.path).value.1] && w.body == OneRule(DESIRED)
       else false
  }
}
