/** What the redirect writer's checks come to in the members of what they check: which inventories count,
    what is written, and what a pass has confirmed. */
module RedirectFields {
  import opened Shapes
  import opened RedirectRules
  import opened RedirectWrite
  import opened RedirectRun
  import opened RedirectMeaning

  // ---------------------------------------------------------------------------------------------
  // Inventories

  /** A ruleset of the zone for dynamic redirects. */
  predicate IsEntryPoint(x: Item) {
    x.kind == "zone" && x.phase == "http_request_dynamic_redirect"
  }

  /** The list names no entry point. */
  ghost predicate NamesNone(list: seq<Item>) {
    forall i :: 0 <= i < |list| ==> !IsEntryPoint(list[i])
  }

  /** The list names this entry point and no other, once. */
  ghost predicate NamesOne(list: seq<Item>, id: string) {
    exists i :: 0 <= i < |list| && IsEntryPoint(list[i]) && list[i].id == id
      && forall j :: 0 <= j < |list| && j != i ==> !IsEntryPoint(list[j])
  }

  lemma {:induction false} EntryIdsNone(list: seq<Item>)
    ensures EntryIds(list) == [] <==> NamesNone(list)
  {
    hide PHASE;
    if list != [] {
      EntryIdsNone(list[1..]);
      assert list == [list[0]] + list[1..];
      IsEntry(list[0]);
      assert forall i :: 0 < i < |list| ==> list[i] == list[1..][i - 1];
      assert NamesNone(list) <==> !IsEntryPoint(list[0]) && NamesNone(list[1..]) by {
        if NamesNone(list) {
          assert !IsEntryPoint(list[0]);
          forall i | 0 <= i < |list[1..]| ensures !IsEntryPoint(list[1..][i]) {
            assert list[1..][i] == list[i + 1];
          }
        }
      }
    }
  }

  lemma IsEntry(x: Item)
    ensures IsEntryPoint(x) <==> x.kind == "zone" && x.phase == PHASE
  {
  }

  lemma {:induction false} EntryIdsOne(list: seq<Item>, id: string)
    ensures EntryIds(list) == [id] <==> NamesOne(list, id)
  {
    hide PHASE;
    if list != [] {
      var rest := list[1..];
      EntryIdsOne(rest, id);
      EntryIdsNone(rest);
      IsEntry(list[0]);
      OneInFront(list, id);
      if IsEntryPoint(list[0]) {
        assert EntryIds(list) == [list[0].id] + EntryIds(rest);
        assert EntryIds(list) == [id] <==> list[0].id == id && EntryIds(rest) == [];
      } else {
        assert EntryIds(list) == [] + EntryIds(rest) == EntryIds(rest);
      }
    }
  }

  lemma OneInFront(list: seq<Item>, id: string)
    requires list != []
    ensures NamesOne(list, id) <==>
              if IsEntryPoint(list[0]) then list[0].id == id && NamesNone(list[1..]) else NamesOne(list[1..], id)
  {
    hide IsEntryPoint;
    var rest := list[1..];
    assert forall i :: 0 <= i < |rest| ==> rest[i] == list[i + 1];
    if NamesOne(list, id) {
      var i :| 0 <= i < |list| && IsEntryPoint(list[i]) && list[i].id == id
               && forall j :: 0 <= j < |list| && j != i ==> !IsEntryPoint(list[j]);
      if i > 0 {
        assert rest[i - 1] == list[i];
      }
    }
    if IsEntryPoint(list[0]) && list[0].id == id && NamesNone(rest) {
      forall j | 0 <= j < |list| && j != 0 ensures !IsEntryPoint(list[j]) {
        assert list[j] == rest[j - 1];
      }
    }
    if !IsEntryPoint(list[0]) && NamesOne(rest, id) {
      var i :| 0 <= i < |rest| && IsEntryPoint(rest[i]) && rest[i].id == id
               && forall j :: 0 <= j < |rest| && j != i ==> !IsEntryPoint(rest[j]);
      assert IsEntryPoint(list[i + 1]);
      forall j | 0 <= j < |list| && j != i + 1 ensures !IsEntryPoint(list[j]) {
        if j > 0 {
          assert list[j] == rest[j - 1];
        }
      }
    }
  }

  /** A usable entry point: at most a thousand rules, with `enabled` a boolean where it is given. */
  ghost predicate IsUsable(e: Entry) {
    e.kind == "zone" && e.phase == "http_request_dynamic_redirect" && IsHex32(e.id)
    && e.rules.Some? && |e.rules.value| <= 1000
    && forall i :: 0 <= i < |e.rules.value| ==> !e.rules.value[i].enabled.NotBool?
  }

  /** Which replies make an inventory: the active zone, a list of at most a thousand rulesets, and an entry
      point that the list names, alone, or none where the list names none; and a text that is not too long. */
  lemma InspectedIff(zoneId: string, r: Replies, digest: Digest)
    ensures Inspected(zoneId, r, digest).Some? <==>
              IsHex32(zoneId) && r.zone == Status(200, Some(ZoneInfo(zoneId, "rozkalns.net", "active")))
              && r.list.Status? && r.list.code == 200 && r.list.result.Some? && r.list.result.value.Some?
              && var list := r.list.result.value.value;
                 |list| <= 1000 && r.phase.Status?
                 && if r.phase.code == 404 then NamesNone(list) && digest.size(list, None) <= 1000000
                    else r.phase.code == 200 && r.phase.result.Some? && IsUsable(r.phase.result.value)
                         && NamesOne(list, r.phase.result.value.id) && digest.size(list, r.phase.result) <= 1000000
    ensures Inspected(zoneId, r, digest).Some? ==>
              Inspected(zoneId, r, digest).value
              == (r.list.result.value.value, if r.phase.code == 404 then None else r.phase.result)
  {
    hide IsHex32, EntryIds, NamesOne, NamesNone, IsUsable, ListOk, EntryOk, FlagsOk;
    if Present(r.list).Some? && Present(r.list).value.Some? {
      var list := Present(r.list).value.value;
      EntryIdsNone(list);
      NoneIsOk(list);
      if Present(r.phase).Some? {
        var e := Present(r.phase).value;
        assert r.phase.result == Some(e);
        EntryIdsOne(list, e.id);
        OneIsOk(list, e);
      }
    }
  }

  lemma NoneIsOk(list: seq<Item>)
    requires EntryIds(list) == [] <==> NamesNone(list)
    ensures NamesNone(list) ==> (ListOk(list) <==> |list| <= 1000)
  {
    hide PHASE, EntryIds, IsEntryPoint, IsHex32;
    forall x ensures IsEntryPoint(x) <==> x.kind == "zone" && x.phase == PHASE {
      IsEntry(x);
    }
    if NamesNone(list) {
      forall x | x in list ensures !IsEntryPoint(x) {
        var i :| 0 <= i < |list| && list[i] == x;
      }
    }
  }

  lemma OneIsOk(list: seq<Item>, e: Entry)
    requires EntryIds(list) == [e.id] <==> NamesOne(list, e.id)
    ensures ListOk(list) && EntryOk(e, list) && FlagsOk(e.rules.value)
            <==> IsUsable(e) && NamesOne(list, e.id) && |list| <= 1000
  {
    hide EntryIds, IsEntryPoint, IsHex32, PHASE;
    PhaseIs();
    forall x ensures IsEntryPoint(x) <==> x.kind == "zone" && x.phase == PHASE {
      IsEntry(x);
    }
    if NamesOne(list, e.id) && IsHex32(e.id) {
      forall x | x in list && IsEntryPoint(x) ensures IsHex32(x.id) {
        var j :| 0 <= j < |list| && list[j] == x;
      }
    }
  }

  lemma PhaseIs()
    ensures PHASE == "http_request_dynamic_redirect"
  {
  }

  // ---------------------------------------------------------------------------------------------
  // Writes

  /** The rule that is written. */
  lemma RuleIs()
    ensures DESIRED == RuleBody(
                         "ausmalwiese_legacy_301", "Ausmalwiese legacy hostname permanent redirect",
                         HostEquals("coloring.rozkalns.net", "http.host eq \"coloring.rozkalns.net\""),
                         Action(
                           "redirect",
                           FromValue("concat(\"https://ausmalwiese.de\", http.request.uri.path)", 301, true)), true)
    ensures CREATE_BODY == RulesetBody("Ausmalwiese legacy redirect rules", "zone", "http_request_dynamic_redirect",
                                       [DESIRED])
  {
  }

  /** Where it is written, in a new ruleset, as a new rule of the present one, or over the legacy rule. */
  lemma PlanIs(zoneId: string, entry: Option<Entry>)
    requires Analysable(entry) && !Analysed(entry).operation.Noop?
    ensures var zone := "/zones/" + zoneId + "/rulesets";
            Plan(zoneId, Analysed(entry))
            == match entry
               case None => Write("POST", zone, CREATE_BODY)
               case Some(e) =>
                 var legacy := LegacyRules(e.rules.value);
                 if legacy == [] then Write("POST", zone + "/" + e.id + "/rules", OneRule(DESIRED))
                 else Write("PATCH", zone + "/" + e.id + "/rules/" + legacy[0].id.value, OneRule(DESIRED))
  {
    hide DESIRED, CREATE_BODY, LegacyRules, Unambiguous, IsHex32, IsDesired, Unrelated;
    var p := "/zones/" + zoneId;
    assert p + "/rulesets" + "/" == p + "/rulesets/";
    if entry.Some? && LegacyRules(entry.value.rules.value) != [] {
      var e := entry.value;
      var rule := LegacyRules(e.rules.value)[0].id.value;
      assert p + "/rulesets/" + e.id + "/rules" + "/" + rule == p + "/rulesets" + "/" + e.id + "/rules/" + rule;
    }
  }

  // ---------------------------------------------------------------------------------------------
  // Passes

  /** What a pass has confirmed: the one rule for the legacy host is the reviewed one and enabled, in the
      ruleset and under the id there were before, no rule is ambiguous, every other rule is as it was, and
      the inventory has changed exactly when something was to be written. */
  lemma PassConfirms(zoneId: string, before: Replies, after: Replies, digest: Digest)
    requires Seen(zoneId, before, digest).Some? && Seen(zoneId, after, digest).Some?
    requires PostVerified(Seen(zoneId, before, digest).value, Seen(zoneId, after, digest).value)
    ensures var b, a := Seen(zoneId, before, digest).value, Seen(zoneId, after, digest).value;
            a.entry.Some? && a.entry.value.rules.Some?
            && var was, now := LegacyRules(RulesOf(b.entry)), LegacyRules(a.entry.value.rules.value);
               |now| == 1 && now[0].ref == Some("ausmalwiese_legacy_301")
               && now[0].description == Some("Ausmalwiese legacy hostname permanent redirect")
               && now[0].expression == DESIRED.expression && now[0].action == DESIRED.action && Enabled(now[0])
               && HasId(now[0]) && |was| <= 1 && (was != [] ==> now[0].id == was[0].id || IsDesired(was[0]))
               && (b.entry.Some? && (was == [] || !IsDesired(was[0])) ==> a.entry.value.id == b.entry.value.id)
               && Unambiguous(a.entry.value.rules.value)
               && Unrelated(a.entry.value.rules.value) == Unrelated(RulesOf(b.entry))
               && (a.baseline == b.baseline <==> was != [] && IsDesired(was[0]))
  {
    hide Inspected, LegacyRules, Unrelated, Unambiguous, IsHex32, MATCH, REDIRECT, IsDesired;
    DesiredMeans();
    NoRules();
  }

  lemma NoRules()
    ensures LegacyRules([]) == [] && Unrelated([]) == []
  {
  }

  lemma DesiredMeans()
    ensures forall r :: IsDesired(r) <==>
              r.ref == Some("ausmalwiese_legacy_301")
              && r.description == Some("Ausmalwiese legacy hostname permanent redirect")
              && r.expression == DESIRED.expression && r.action == DESIRED.action && Enabled(r)
  {
  }
}
