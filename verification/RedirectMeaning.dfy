/** What a pass of the redirect writer means for requests, and when an honest provider makes it pass. */
module RedirectMeaning {
  import opened Shapes
  import opened RedirectRules
  import opened RedirectWrite
  import opened RedirectRun

  function RulesOf(entry: Option<Entry>): seq<Rule> {
    if entry.Some? && entry.value.rules.Some? then entry.value.rules.value else []
  }

  // ---------------------------------------------------------------------------------------------
  // Meaning

  /** A host other than the legacy one is decided by the unrelated rules alone. */
  lemma {:induction false} OtherHostsSeeUnrelated(rules: seq<Rule>, q: Request, m: (Expression, Request) -> bool)
    requires q.host != LEGACY_HOST
    ensures FirstMatch(rules, q, m) == FirstMatch(Unrelated(rules), q, m)
  {
    if rules != [] {
      OtherHostsSeeUnrelated(rules[1..], q, m);
      if !ScopeOf(rules[0]).LegacyHost? {
        assert Unrelated(rules)[0] == Stable(rules[0]) && Unrelated(rules)[1..] == Unrelated(rules[1..]);
      } else {
        assert Unrelated(rules) == Unrelated(rules[1..]);
      }
    }
  }

  /** Without ambiguous rules, the legacy host is decided by the first enabled legacy rule. */
  lemma {:induction false} LegacyHostSeesLegacy(rules: seq<Rule>, q: Request, m: (Expression, Request) -> bool)
    requires q.host == LEGACY_HOST && Unambiguous(rules)
    ensures FirstMatch(rules, q, m) == FirstMatch(LegacyRules(rules), q, m)
  {
    if rules != [] {
      assert rules == [rules[0]] + rules[1..];
      LegacyHostSeesLegacy(rules[1..], q, m);
      assert rules[0] in rules;
      if ScopeOf(rules[0]).LegacyHost? {
        assert LegacyRules(rules)[0] == rules[0] && LegacyRules(rules)[1..] == LegacyRules(rules[1..]);
      } else {
        assert LegacyRules(rules) == LegacyRules(rules[1..]);
      }
    }
  }

  /** Whenever the reads are truthful and the run passes, for create, add, update and no-op alike: the
      legacy host gets the permanent redirect on every path, every other host what it got before. */
  lemma PassMeans(zoneId: string, before: Replies, after: Replies, digest: Digest, q: Request,
                  m: (Expression, Request) -> bool)
    requires Seen(zoneId, before, digest).Some? && Seen(zoneId, after, digest).Some?
    requires PostVerified(Seen(zoneId, before, digest).value, Seen(zoneId, after, digest).value)
    ensures var old', new' := Seen(zoneId, before, digest).value.entry, Seen(zoneId, after, digest).value.entry;
            FirstMatch(RulesOf(new'), q, m)
            == if q.host == LEGACY_HOST then Some(REDIRECT) else FirstMatch(RulesOf(old'), q, m)
  {
    var b, a := Seen(zoneId, before, digest).value, Seen(zoneId, after, digest).value;
    if q.host == LEGACY_HOST {
      LegacyHostSeesLegacy(RulesOf(a.entry), q, m);
      assert LegacyRules(RulesOf(a.entry))[0].expression == MATCH;
    } else {
      OtherHostsSeeUnrelated(RulesOf(a.entry), q, m);
      OtherHostsSeeUnrelated(RulesOf(b.entry), q, m);
    }
  }

  /** What a client gets. */
  datatype Response = Response(status: int, location: string)

  /** A redirect answers with its status and the value of its target, behind which the query is put back
      when it is preserved. */
  function Answer(a: Action, q: Request, query: string, value: (string, Request) -> string): Option<Response> {
    match a.parameters
    case FromValue(target, status, preserve) =>
      if a.verb != "redirect" then None
      else Some(Response(status, value(target, q) + if preserve && query != "" then "?" + query else ""))
    case OtherParameters(_) => None
  }

  /** The expression is the address of the new host with the path asked for. */
  ghost predicate Evaluates(value: (string, Request) -> string) {
    forall q ::
      value("concat(\"https://ausmalwiese.de\", http.request.uri.path)", q) == "https://ausmalwiese.de" + q.path
  }

  lemma DesiredAnswers(q: Request, query: string, value: (string, Request) -> string)
    requires Evaluates(value)
    ensures Answer(REDIRECT, q, query, value)
         == Some(Response(301, "https://ausmalwiese.de" + q.path + if query != "" then "?" + query else ""))
  {
  }

  /** What a pass means to clients: a request for the old host is sent on for good to the same path and
      query of the new one, and every other host is answered as before. */
  lemma PassRedirects(zoneId: string, before: Replies, after: Replies, digest: Digest, q: Request, query: string,
                      m: (Expression, Request) -> bool, value: (string, Request) -> string)
    requires Seen(zoneId, before, digest).Some? && Seen(zoneId, after, digest).Some? && Evaluates(value)
    requires PostVerified(Seen(zoneId, before, digest).value, Seen(zoneId, after, digest).value)
    ensures var old', new' := Seen(zoneId, before, digest).value.entry, Seen(zoneId, after, digest).value.entry;
            var decides := FirstMatch(RulesOf(new'), q, m);
            if q.host == "coloring.rozkalns.net"
            then decides.Some? && Answer(decides.value, q, query, value)
                 == Some(Response(301, "https://ausmalwiese.de" + q.path + if query != "" then "?" + query else ""))
            else decides == FirstMatch(RulesOf(old'), q, m)
  {
    hide FirstMatch, Seen, PostVerified, REDIRECT, Evaluates, Answer;
    PassMeans(zoneId, before, after, digest, q, m);
    DesiredAnswers(q, query, value);
  }

  // ---------------------------------------------------------------------------------------------
  // An honest provider

  /** The zone as it is: rulesets other than the entry point, and the entry point. */
  datatype Zone = Zone(others: seq<Item>, entry: Option<Entry>)

  function Listed(z: Zone): seq<Item> {
    z.others + if z.entry.Some? then [Item(z.entry.value.id, "zone", PHASE)] else []
  }

  /** What the three GETs show of it. */
  function Shown(zoneId: string, z: Zone): Replies {
    Replies(Status(200, Some(ZoneInfo(zoneId, ZONE_NAME, "active"))), Status(200, Some(Some(Listed(z)))),
            if z.entry.Some? then Status(200, z.entry) else Status(404, None))
  }

  predicate Sound(zoneId: string, z: Zone) {
    IsHex32(zoneId)
    && (forall x :: x in z.others ==> !(x.kind == "zone" && x.phase == PHASE))
    && |Listed(z)| <= MAX_RULES
    && (z.entry.Some? ==>
          z.entry.value.kind == "zone" && z.entry.value.phase == PHASE && IsHex32(z.entry.value.id)
          && z.entry.value.rules.Some? && |z.entry.value.rules.value| <= MAX_RULES
          && FlagsOk(z.entry.value.rules.value))
  }

  /** What the provider adds on its own to a rule it stores. */
  datatype Stamp = Stamp(id: string, version: string, lastUpdated: string)

  function Stored(b: RuleBody, s: Stamp, id: string, extra: map<string, string>): Rule {
    Rule(Some(id), Some(b.ref), Some(b.description), b.expression, b.action, Bool(b.enabled), Some(s.version),
         Some(s.lastUpdated), extra)
  }

  function Patched(rules: seq<Rule>, id: string, b: RuleBody, s: Stamp): seq<Rule> {
    if rules == [] then []
    else if rules[0].id == Some(id) then [Stored(b, s, id, rules[0].extra)] + rules[1..]
    else [rules[0]] + Patched(rules[1..], id, b, s)
  }

  /** The effect of the planned write. */
  function Written(z: Zone, a: Analysis, ruleset: string, s: Stamp): Zone
    requires Analysable(z.entry) && a == Analysed(z.entry) && !a.operation.Noop?
  {
    match a.operation
    case CreateRuleset => z.(entry := Some(Entry(ruleset, "zone", PHASE, Some([Stored(DESIRED, s, s.id, map[])]))))
    case AddRule =>
      z.(entry := Some(z.entry.value.(rules := Some(z.entry.value.rules.value + [Stored(DESIRED, s, s.id, map[])]))))
    case UpdateRule =>
      z.(entry := Some(z.entry.value.(rules := Some(Patched(z.entry.value.rules.value, a.rule.value, DESIRED, s)))))
  }

  lemma {:induction false} NoEntryIds(list: seq<Item>)
    requires forall x :: x in list ==> !(x.kind == "zone" && x.phase == PHASE)
    ensures EntryIds(list) == []
  {
    if list != [] {
      assert list[0] in list;
      NoEntryIds(list[1..]);
    }
  }

  /** The inventory of a sound zone is the zone. */
  lemma InventoryOfZone(zoneId: string, z: Zone)
    requires Sound(zoneId, z)
    ensures Consistent(zoneId, Shown(zoneId, z)) == Some((Listed(z), z.entry))
  {
    NoEntryIds(z.others);
    if z.entry.Some? {
      EntryIdsAppend(z.others, Item(z.entry.value.id, "zone", PHASE));
    } else {
      assert Listed(z) == z.others;
    }
  }

  ghost predicate Injective(digest: Digest) {
    forall l1, e1, l2, e2 :: digest.hash(l1, e1) == digest.hash(l2, e2) ==> l1 == l2 && e1 == e2
  }

  /** Rule ids are unique, so that the update reaches the rule the analysis found. */
  predicate UniqueIds(rules: seq<Rule>) {
    forall i, j :: 0 <= i < j < |rules| && rules[i].id.Some? ==> rules[i].id != rules[j].id
  }

  lemma {:induction false} PatchKeepsUnrelated(rules: seq<Rule>, s: Stamp)
    requires |LegacyRules(rules)| == 1 && HasId(LegacyRules(rules)[0]) && UniqueIds(rules) && Unambiguous(rules)
    ensures var id := LegacyRules(rules)[0].id.value;
            var p := Patched(rules, id, DESIRED, s);
            Unrelated(p) == Unrelated(rules) && |p| == |rules| && Unambiguous(p)
            && (FlagsOk(rules) ==> FlagsOk(p))
            && |LegacyRules(p)| == 1 && LegacyRules(p)[0] == Stored(DESIRED, s, id, LegacyRules(p)[0].extra)
  {
    var id := LegacyRules(rules)[0].id.value;
    var p := Patched(rules, id, DESIRED, s);
    assert rules == [rules[0]] + rules[1..];
    assert rules[0] in rules;
    if ScopeOf(rules[0]).LegacyHost? {
      var t := Stored(DESIRED, s, id, rules[0].extra);
      assert p == [t] + rules[1..] && p[1..] == rules[1..];
      assert LegacyRules(rules) == [rules[0]] + LegacyRules(rules[1..]);
      assert ScopeOf(t).LegacyHost?;
    } else {
      assert LegacyRules(rules) == LegacyRules(rules[1..]);
      LegacyRulesAre(rules[1..]);
      assert LegacyRules(rules)[0] in LegacyRules(rules[1..]);
      assert rules[0].id != Some(id);
      PatchKeepsUnrelated(rules[1..], s);
      assert p == [rules[0]] + Patched(rules[1..], id, DESIRED, s);
      assert p[1..] == Patched(rules[1..], id, DESIRED, s);
    }
  }

  /** The planned write has its intended effect and leaves a sound zone, provided there is room. */
  lemma WrittenIsDesired(zoneId: string, z: Zone, ruleset: string, s: Stamp)
    requires Sound(zoneId, z) && Analysable(z.entry) && UniqueIds(RulesOf(z.entry))
    requires IsHex32(ruleset) && IsHex32(s.id)
    requires !Analysed(z.entry).operation.Noop?
    ensures var b := Analysed(z.entry);
            var w := Written(z, b, ruleset, s);
            w.entry.Some? && Analysable(w.entry) && w.entry != z.entry
            && Analysed(w.entry).operation.Noop? && Analysed(w.entry).unrelated == b.unrelated
            && (z.entry.Some? ==> w.entry.value.id == z.entry.value.id)
            && (b.operation.UpdateRule? ==> Analysed(w.entry).rule == b.rule)
            && (Sound(zoneId, w) <==>
                  (b.operation.AddRule? ==> |RulesOf(z.entry)| < MAX_RULES)
                  && (b.operation.CreateRuleset? ==> |z.others| < MAX_RULES))
  {
    var b := Analysed(z.entry);
    var w := Written(z, b, ruleset, s);
    match b.operation {
      case CreateRuleset =>
        var rules := RulesOf(w.entry);
        assert rules[1..] == [];
        assert ScopeOf(rules[0]).LegacyHost?;
        assert Unrelated(rules) == [] + Unrelated(rules[1..]) == [];
        assert LegacyRules(rules) == rules;
      case AddRule =>
        var rules := RulesOf(z.entry);
        SplitAppend(rules, Stored(DESIRED, s, s.id, map[]));
        assert |RulesOf(w.entry)| == |rules| + 1;
      case UpdateRule =>
        PatchKeepsUnrelated(RulesOf(z.entry), s);
        assert !IsDesired(LegacyRules(RulesOf(z.entry))[0]) && IsDesired(LegacyRules(RulesOf(w.entry))[0]);
    }
  }

  /** The inventory is not too long to be digested. */
  predicate Fits(z: Zone, digest: Digest) {
    digest.size(Listed(z), z.entry) <= MAX_BYTES
  }

  /** Against an honest provider the run passes from every analysable zone, except when the new rule or
      ruleset exceeds one of the inventory's own limits: a thousand of each, and the size. */
  lemma HonestRunPasses(zoneId: string, z: Zone, ruleset: string, s: Stamp, digest: Digest)
    requires Sound(zoneId, z) && Fits(z, digest) && Analysable(z.entry) && UniqueIds(RulesOf(z.entry))
    requires IsHex32(ruleset) && IsHex32(s.id) && Injective(digest)
    ensures var b := Seen(zoneId, Shown(zoneId, z), digest);
            b.Some?
            && var w := if b.value.analysis.operation.Noop? then z else Written(z, b.value.analysis, ruleset, s);
               var a := Seen(zoneId, Shown(zoneId, w), digest);
               (a.Some? && PostVerified(b.value, a.value) <==>
                  (b.value.analysis.operation.AddRule? ==> |RulesOf(z.entry)| < MAX_RULES)
                  && (b.value.analysis.operation.CreateRuleset? ==> |z.others| < MAX_RULES)
                  && Fits(w, digest))
               && (a.Some? ==> a.value.analysis.operation.Noop?)
  {
    InventoryOfZone(zoneId, z);
    if !Analysed(z.entry).operation.Noop? {
      var w := Written(z, Analysed(z.entry), ruleset, s);
      WrittenIsDesired(zoneId, z, ruleset, s);
      if Sound(zoneId, w) {
        InventoryOfZone(zoneId, w);
      } else {
        TooManyIsUnseen(zoneId, z, w);
      }
    }
  }

  /** One more rule makes the text longer. */
  ghost predicate Grows(digest: Digest) {
    forall list, entry: Entry, rules, rule {:trigger digest.size(list, Some(entry.(rules := Some(rules + [rule]))))} ::
      entry.rules == Some(rules) ==>
        digest.size(list, Some(entry)) < digest.size(list, Some(entry.(rules := Some(rules + [rule]))))
  }

  /** A zone whose inventory is as long as it may be passes the first inventory, has the rule written, and
      fails the second one, however few rules it has. */
  lemma FullZoneStopsAfterWrite(zoneId: string, z: Zone, ruleset: string, s: Stamp, digest: Digest)
    requires Sound(zoneId, z) && Analysable(z.entry) && Injective(digest) && Grows(digest)
    requires z.entry.Some? && LegacyRules(RulesOf(z.entry)) == []
    requires digest.size(Listed(z), z.entry) == MAX_BYTES
    ensures var b := Seen(zoneId, Shown(zoneId, z), digest);
            b.Some? && b.value.analysis.operation.AddRule?
            && Seen(zoneId, Shown(zoneId, Written(z, b.value.analysis, ruleset, s)), digest).None?
  {
    InventoryOfZone(zoneId, z);
    var rules := z.entry.value.rules.value;
    var rule := Stored(DESIRED, s, s.id, map[]);
    var w := Written(z, Analysed(z.entry), ruleset, s);
    assert w.entry == Some(z.entry.value.(rules := Some(rules + [rule])));
    assert Listed(w) == Listed(z);
    assert digest.size(Listed(z), Some(z.entry.value)) < digest.size(Listed(z), w.entry);
    if Consistent(zoneId, Shown(zoneId, w)).Some? {
      ShownIsListed(zoneId, w);
    }
  }

  /** An inventory of what a zone shows is of that zone. */
  lemma ShownIsListed(zoneId: string, z: Zone)
    requires Consistent(zoneId, Shown(zoneId, z)).Some?
    ensures Consistent(zoneId, Shown(zoneId, z)).value == (Listed(z), z.entry)
  {
  }

  lemma TooManyIsUnseen(zoneId: string, z: Zone, w: Zone)
    requires |RulesOf(w.entry)| > MAX_RULES || |Listed(w)| > MAX_RULES
    ensures Consistent(zoneId, Shown(zoneId, w)).None?
  {
  }
}
