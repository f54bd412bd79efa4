/** Redirect rules of one zone, the inventory that classifies them, and what they mean. */
module RedirectRules {
  import opened Shapes

  const ZONE_NAME := "rozkalns.net"
  const LEGACY_HOST := "coloring.rozkalns.net"
  const PHASE := "http_request_dynamic_redirect"
  const MAX_RULES := 1000

  /** A rule's expression: a fully anchored host equality, any other text, or no text at all. */
  datatype Expression = HostEquals(host: string, text: string) | Unanchored(text: string) | NoText

  datatype Parameters = FromValue(target: string, status: int, preserveQuery: bool) | OtherParameters(text: string)

  datatype Action = Action(verb: string, parameters: Parameters)

  /** The `enabled` member: missing means enabled; anything but a boolean is refused. */
  datatype Flag = Missing | Bool(value: bool) | NotBool

  datatype Rule = Rule(
    id: Option<string>, ref: Option<string>, description: Option<string>, expression: Expression, action: Action,
    enabled: Flag, version: Option<string>, lastUpdated: Option<string>, extra: map<string, string>)

  /** A ruleset entry point; `rules` is `None` when it is not a list of objects. */
  datatype Entry = Entry(id: string, kind: string, phase: string, rules: Option<seq<Rule>>)

  datatype Item = Item(id: string, kind: string, phase: string)

  datatype ZoneInfo = ZoneInfo(id: string, name: string, status: string)

  /** `None` is a list of the wrong shape or one that a cursor cuts short. */
  type Listing = Option<seq<Item>>

  /** A GET: it fails, or has a status and a successful envelope's result. */
  datatype Reply<+T> = Failed | Status(code: int, result: Option<T>)

  /** The replies to the three GETs of one inventory. */
  datatype Replies = Replies(zone: Reply<ZoneInfo>, list: Reply<Listing>, phase: Reply<Entry>)

  datatype Scope = LegacyHost | OtherHost | Unknown

  function ScopeOf(r: Rule): Scope {
    match r.expression
    case HostEquals(host, _) => if host == LEGACY_HOST then LegacyHost else OtherHost
    case _ => Unknown
  }

  predicate Enabled(r: Rule) {
    r.enabled.Missing? || r.enabled == Bool(true)
  }

  // ---------------------------------------------------------------------------------------------
  // Meaning: the first enabled rule that matches decides

  datatype Request = Request(host: string, path: string)

  /** What expressions other than anchored host equalities match is left open. */
  predicate Matches(r: Rule, q: Request, opaqueMatch: (Expression, Request) -> bool) {
    Enabled(r) && if r.expression.HostEquals? then q.host == r.expression.host else opaqueMatch(r.expression, q)
  }

  function FirstMatch(rules: seq<Rule>, q: Request, opaqueMatch: (Expression, Request) -> bool): Option<Action> {
    if rules == [] then None
    else if Matches(rules[0], q, opaqueMatch) then Some(rules[0].action)
    else FirstMatch(rules[1..], q, opaqueMatch)
  }

  // ---------------------------------------------------------------------------------------------
  // Inventory

  datatype Inventory = Inventory(
    present: bool, legacy: seq<nat>, ambiguous: seq<nat>, other: nat, disabled: nat, disabledUnknown: nat,
    baseline: string)

  /** The positions, counted from 1, of the rules that satisfy `p`. */
  function Where(rules: seq<Rule>, p: Rule -> bool): seq<nat> {
    if rules == [] then []
    else Where(rules[..|rules| - 1], p) + if p(rules[|rules| - 1]) then [|rules|] else []
  }

  lemma {:induction false} WhereHolds(rules: seq<Rule>, p: Rule -> bool)
    ensures forall i :: 0 <= i < |rules| ==> (p(rules[i]) <==> i + 1 in Where(rules, p))
    ensures forall n :: n in Where(rules, p) ==> 1 <= n <= |rules|
  {
    if rules != [] {
      WhereHolds(rules[..|rules| - 1], p);
      forall i | 0 <= i < |rules| ensures p(rules[i]) <==> i + 1 in Where(rules, p) {
        if i < |rules| - 1 {
          assert rules[..|rules| - 1][i] == rules[i];
        }
      }
    }
  }

  predicate FlagsOk(rules: seq<Rule>) {
    forall r :: r in rules ==> !r.enabled.NotBool?
  }

  function Counted(rules: seq<Rule>, baseline: string): Inventory {
    Inventory(true,
              Where(rules, r => Enabled(r) && ScopeOf(r).LegacyHost?),
              Where(rules, r => Enabled(r) && ScopeOf(r).Unknown?),
              |Where(rules, r => Enabled(r) && ScopeOf(r).OtherHost?)|,
              |Where(rules, r => !Enabled(r))|,
              |Where(rules, r => !Enabled(r) && ScopeOf(r).Unknown?)|,
              baseline)
  }

  method CountRules(rules: seq<Rule>, baseline: string) returns (r: Result<Inventory>)
    ensures r.Ok? <==> FlagsOk(rules)
    ensures r.Ok? ==> r.value == Counted(rules, baseline)
  {
    var legacy: seq<nat>, ambiguous: seq<nat> := [], [];
    var other: nat, disabled: nat, disabledUnknown: nat := 0, 0, 0;
    for i := 0 to |rules|
      invariant FlagsOk(rules[..i])
      invariant Inventory(true, legacy, ambiguous, other, disabled, disabledUnknown, baseline)
             == Counted(rules[..i], baseline)
    {
      var rule := rules[i];
      assert rules[..i + 1][..i] == rules[..i] && rules[..i + 1] == rules[..i] + [rule];
      if rule.enabled.NotBool? {
        return Stop("invalid_rule_enabled");
      }
      if !Enabled(rule) {
        disabled := disabled + 1;
        if ScopeOf(rule).Unknown? {
          disabledUnknown := disabledUnknown + 1;
        }
      } else if ScopeOf(rule).LegacyHost? {
        legacy := legacy + [i + 1];
      } else if ScopeOf(rule).OtherHost? {
        other := other + 1;
      } else {
        ambiguous := ambiguous + [i + 1];
      }
    }
    assert rules[..|rules|] == rules;
    return Ok(Inventory(true, legacy, ambiguous, other, disabled, disabledUnknown, baseline));
  }

  const MAX_BYTES := 1000000

  /** The digest of an inspected list and entry point, and the length of the text it is taken of. */
  datatype Digest = Digest(hash: (seq<Item>, Option<Entry>) -> string, size: (seq<Item>, Option<Entry>) -> nat)

  predicate ZoneOk(zoneId: string, r: Reply<ZoneInfo>) {
    r == Status(200, Some(ZoneInfo(zoneId, ZONE_NAME, "active")))
  }

  function Present<T>(r: Reply<T>): Option<T> {
    if r.Status? && r.code == 200 then r.result else None
  }

  /** The ids the ruleset list gives for the entry point. */
  function EntryIds(list: seq<Item>): seq<string> {
    if list == [] then []
    else (if list[0].kind == "zone" && list[0].phase == PHASE then [list[0].id] else []) + EntryIds(list[1..])
  }

  predicate ListOk(list: seq<Item>) {
    |list| <= MAX_RULES
    && (forall x :: x in list && x.kind == "zone" && x.phase == PHASE ==> IsHex32(x.id))
    && |EntryIds(list)| <= 1
  }

  predicate EntryOk(e: Entry, list: seq<Item>) {
    e.kind == "zone" && e.phase == PHASE && IsHex32(e.id) && EntryIds(list) == [e.id]
    && e.rules.Some? && |e.rules.value| <= MAX_RULES
  }

  /** What the inventory of these replies is, whatever its size: the inspected list and entry point, unless
      something in them is missing, incomplete or contradictory. */
  function Consistent(zoneId: string, r: Replies): Option<(seq<Item>, Option<Entry>)> {
    if !IsHex32(zoneId) || !ZoneOk(zoneId, r.zone) || Present(r.list).None? || Present(r.list).value.None? then None
    else
      var list := Present(r.list).value.value;
      if !ListOk(list) || r.phase.Failed? then None
      else if r.phase.code == 404 then
        if EntryIds(list) == [] then Some((list, None)) else None
      else if Present(r.phase).None? then None
      else
        var e := Present(r.phase).value;
        if EntryOk(e, list) && FlagsOk(e.rules.value) then Some((list, Some(e))) else None
  }

  /** The same within the size that is digested at all. */
  function Inspected(zoneId: string, r: Replies, digest: Digest): Option<(seq<Item>, Option<Entry>)> {
    var c := Consistent(zoneId, r);
    if c.Some? && digest.size(c.value.0, c.value.1) <= MAX_BYTES then c else None
  }

  function Absent(baseline: string): Inventory {
    Inventory(false, [], [], 0, 0, 0, baseline)
  }

  method Inspect(zoneId: string, r: Replies, digest: Digest) returns (res: Result<Inventory>)
    ensures res.Ok? <==> Inspected(zoneId, r, digest).Some?
    ensures res.Ok? ==>
              var (list, entry) := Inspected(zoneId, r, digest).value;
              res.value == if entry.None? then Absent(digest.hash(list, None))
                           else Counted(entry.value.rules.value, digest.hash(list, entry))
  {
    if !IsHex32(zoneId) {
      return Stop("invalid_zone_identity");
    }
    if !ZoneOk(zoneId, r.zone) {
      return Stop("zone_mismatch");
    }
    if Present(r.list).None? || Present(r.list).value.None? {
      return Stop("ruleset_list_invalid");
    }
    var list := Present(r.list).value.value;
    if |list| > MAX_RULES {
      return Stop("ruleset_list_invalid");
    }
    var entryIds: seq<string> := [];
    for i := 0 to |list|
      invariant entryIds == EntryIds(list[..i])
      invariant forall j :: 0 <= j < i && list[j].kind == "zone" && list[j].phase == PHASE ==> IsHex32(list[j].id)
    {
      assert list[..i + 1] == list[..i] + [list[i]];
      EntryIdsAppend(list[..i], list[i]);
      if list[i].kind == "zone" && list[i].phase == PHASE {
        if !IsHex32(list[i].id) {
          assert list[i] in list;
          return Stop("ruleset_list_invalid");
        }
        entryIds := entryIds + [list[i].id];
      }
    }
    assert list[..|list|] == list;
    if |entryIds| > 1 {
      return Stop("multiple_entrypoints");
    }
    if r.phase.Failed? {
      return Stop("read_only_transport_failed");
    }
    if r.phase.code == 404 {
      if entryIds != [] {
        return Stop("entrypoint_list_disagreement");
      }
      if digest.size(list, None) > MAX_BYTES {
        return Stop("oversize_inventory");
      }
      return Ok(Absent(digest.hash(list, None)));
    }
    if Present(r.phase).None? || !EntryOk(Present(r.phase).value, list) {
      return Stop("entrypoint_mismatch");
    }
    var entry := Present(r.phase).value;
    res := CountRules(entry.rules.value, digest.hash(list, Some(entry)));
    if res.Ok? && digest.size(list, Some(entry)) > MAX_BYTES {
      return Stop("oversize_inventory");
    }
  }

  lemma {:induction false} EntryIdsAppend(s: seq<Item>, x: Item)
    ensures EntryIds(s + [x]) == EntryIds(s) + (if x.kind == "zone" && x.phase == PHASE then [x.id] else [])
  {
    if s == [] {
      assert s + [x] == [x];
    } else {
      assert (s + [x])[1..] == s[1..] + [x];
      EntryIdsAppend(s[1..], x);
    }
  }
}
