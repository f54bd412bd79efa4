/** One run of the redirect writer: what it does, when it passes, and what a pass means for every
    request. */
module RedirectRun {
  import opened Shapes
  import opened RedirectRules
  import opened RedirectWrite

  /** What the writer makes of one inventory. */
  datatype Sight = Sight(baseline: string, entry: Option<Entry>, analysis: Analysis)

  function Seen(zoneId: string, r: Replies, digest: Digest): Option<Sight> {
    var inspected := Inspected(zoneId, r, digest);
    if inspected.Some? && Analysable(inspected.value.1) then
      Some(Sight(digest.hash(inspected.value.0, inspected.value.1), inspected.value.1, Analysed(inspected.value.1)))
    else None
  }

  predicate PostVerified(before: Sight, after: Sight) {
    after.entry.Some? && after.analysis.operation.Noop? && after.analysis.unrelated == before.analysis.unrelated
    && if before.analysis.operation.Noop? then after.baseline == before.baseline
       else
         after.baseline != before.baseline
         && (before.entry.Some? ==> after.entry.value.id == before.entry.value.id)
         && (before.analysis.operation.UpdateRule? ==> after.analysis.rule == before.analysis.rule)
  }

  method Look(t: FixedZoneRedirectWriteTransport, r: Replies, digest: Digest) returns (s: Option<Sight>)
    modifies t`memory
    ensures s == Seen(t.zoneId, r, digest)
    ensures s.Some? ==> Usable(r.phase) && t.memory == Remembered(r.phase)
  {
    var phase := t.ReadPhase(r.phase);
    if Inspected(t.zoneId, r, digest).Some? && Analysable(Inspected(t.zoneId, r, digest).value.1) {
      AnalysableIsUsable(t.zoneId, r);
    }
    if !Usable(r.phase) {
      UnusableIsUnseen(t.zoneId, r);
    }
    var inventory := Inspect(t.zoneId, r.(phase := phase), digest);
    if inventory.Stop? {
      return None;
    }
    var entry := if phase.code == 404 then None else phase.result;
    var analysis := Analyze(entry, inventory.value);
    if analysis.Stop? {
      return None;
    }
    return Some(Sight(inventory.value.baseline, entry, analysis.value));
  }

  lemma {:induction false} LegacyRulesAre(rules: seq<Rule>)
    ensures forall r :: r in LegacyRules(rules) <==> r in rules && ScopeOf(r).LegacyHost?
  {
    if rules != [] {
      assert rules == [rules[0]] + rules[1..];
      LegacyRulesAre(rules[1..]);
    }
  }

  lemma AnalysableIsUsable(zoneId: string, r: Replies)
    requires Consistent(zoneId, r).Some? && Analysable(Consistent(zoneId, r).value.1)
    ensures Usable(r.phase)
  {
    if r.phase.code != 404 {
      LegacyRulesAre(r.phase.result.value.rules.value);
    }
  }

  lemma UnusableIsUnseen(zoneId: string, r: Replies)
    requires !Usable(r.phase)
    ensures Consistent(zoneId, r.(phase := Failed)).None?
  {
  }

  /** One write at most, the planned one, and only from the approved baseline; a pass exactly when the
      second inventory confirms it. */
  method RunOnce(t: FixedZoneRedirectWriteTransport, expected: string, before: Replies, delivered: bool,
                 after: Replies, digest: Digest)
    returns (r: Result<Operation>)
    requires t.writes == 0 && t.sent == []
    modifies t
    ensures var b := Seen(t.zoneId, before, digest);
            var a := Seen(t.zoneId, after, digest);
            var go := IsSha256(expected) && b.Some? && b.value.baseline == expected;
            t.sent == (if go && !b.value.analysis.operation.Noop? then [Plan(t.zoneId, b.value.analysis)] else [])
            && (r.Ok? <==> go && (b.value.analysis.operation.Noop? || delivered)
                           && a.Some? && PostVerified(b.value, a.value))
            && (r.Ok? ==> r.value == b.value.analysis.operation)
            && (r.Stop? ==>
                  r.code == if !IsSha256(expected) then "EXPECTED_BASELINE"
                            else if b.None? then "BEFORE_INVENTORY"
                            else if b.value.baseline != expected then "BASELINE_DRIFT"
                            else if !b.value.analysis.operation.Noop? && !delivered then "WRITE_OUTCOME_UNKNOWN_STOP"
                            else if a.None? then "AFTER_INVENTORY"
                            else "POST_VERIFICATION")
  {
    if !IsSha256(expected) {
      return Stop("EXPECTED_BASELINE");
    }
    var first := Look(t, before, digest);
    if first.None? {
      return Stop("BEFORE_INVENTORY");
    }
    var b := first.value;
    if b.baseline != expected {
      return Stop("BASELINE_DRIFT");
    }
    if !b.analysis.operation.Noop? {
      PlanIsPermitted(t.zoneId, before, digest);
      var ok := t.WriteOnce(Plan(t.zoneId, b.analysis), delivered);
      if !ok {
        return Stop("WRITE_OUTCOME_UNKNOWN_STOP");
      }
    }
    var second := Look(t, after, digest);
    if second.None? {
      return Stop("AFTER_INVENTORY");
    }
    if !PostVerified(b, second.value) {
      return Stop("POST_VERIFICATION");
    }
    return Ok(b.analysis.operation);
  }

  // ---------------------------------------------------------------------------------------------
  // Plan and validator

  lemma PathsParse(zoneId: string, ruleset: string, rule: string)
    requires IsHex32(ruleset) && IsHex32(rule)
    ensures ParseAdd(zoneId, AddPath(zoneId, ruleset)) == Some(ruleset)
    ensures ParseUpdate(zoneId, UpdatePath(zoneId, ruleset, rule)) == Some((ruleset, rule))
    ensures AddPath(zoneId, ruleset) != CreatePath(zoneId)
    ensures UpdatePath(zoneId, ruleset, rule) != CreatePath(zoneId)
  {
    var p := Prefix(zoneId) + "/rulesets/";
    var add, update := AddPath(zoneId, ruleset), UpdatePath(zoneId, ruleset, rule);
    assert add[..|p|] == p && add[|p|..|p| + 32] == ruleset && add[|p| + 32..] == "/rules";
    assert update[..|p|] == p && update[|p|..|p| + 32] == ruleset && update[|p| + 32..|p| + 39] == "/rules/"
           && update[|p| + 39..] == rule;
  }

  lemma PathsPrint(zoneId: string, path: string)
    ensures ParseAdd(zoneId, path).Some? ==> path == AddPath(zoneId, ParseAdd(zoneId, path).value)
    ensures ParseUpdate(zoneId, path).Some? ==>
              path == UpdatePath(zoneId, ParseUpdate(zoneId, path).value.0, ParseUpdate(zoneId, path).value.1)
  {
    var p := Prefix(zoneId) + "/rulesets/";
    if ParseAdd(zoneId, path).Some? {
      assert path == path[..|p|] + path[|p|..|p| + 32] + path[|p| + 32..];
    }
    if ParseUpdate(zoneId, path).Some? {
      assert path == path[..|p|] + path[|p|..|p| + 32] + path[|p| + 32..|p| + 39] + path[|p| + 39..];
    }
  }

  /** The transport permits exactly these writes: the creation when the entry point is absent; when it
      is present, the addition, and the update of the legacy rule if there is exactly one. */
  lemma PermitsExactly(reply: Reply<Entry>, zoneId: string, w: Write)
    requires Usable(reply)
    ensures Permits(Remembered(reply), zoneId, w) <==>
              if reply.code == 404 then w == Write("POST", CreatePath(zoneId), CREATE_BODY)
              else
                var legacy := LegacyRules(reply.result.value.rules.value);
                w == Write("POST", AddPath(zoneId, reply.result.value.id), OneRule(DESIRED))
                || (|legacy| == 1 && HasId(legacy[0])
                    && w == Write("PATCH", UpdatePath(zoneId, reply.result.value.id, legacy[0].id.value),
                                  OneRule(DESIRED)))
  {
    hide ParseAdd, ParseUpdate, AddPath, UpdatePath, CreatePath, IsHex32, Ids, LegacyRules;
    PathsPrint(zoneId, w.path);
    if reply.code == 200 {
      var id := reply.result.value.id;
      var legacy := LegacyRules(reply.result.value.rules.value);
      LegacyRulesAre(reply.result.value.rules.value);
      PathsParse(zoneId, id, id);
      IdsShape(legacy);
      if legacy != [] {
        assert legacy[0] in legacy;
        PathsParse(zoneId, id, legacy[0].id.value);
      }
    }
  }

  /** With a legacy rule present the planned write is the update or none, and yet the transport permits
      the addition as well. */
  lemma AdditionAlsoPermitted(zoneId: string, ruleset: string, rule: string)
    requires IsHex32(ruleset) && IsHex32(rule)
    ensures var r := Rule(Some(rule), None, None, MATCH, REDIRECT, Missing, None, None, map[]);
            var entry := Entry(ruleset, "zone", PHASE, Some([r]));
            Analysable(Some(entry)) && Analysed(Some(entry)).operation.UpdateRule?
            && Usable(Status(200, Some(entry)))
            && Permits(Remembered(Status(200, Some(entry))), zoneId,
                       Write("POST", AddPath(zoneId, ruleset), OneRule(DESIRED)))
  {
    hide AddPath, ParseAdd, ParseUpdate, CreatePath, UpdatePath, IsHex32, DESIRED, REDIRECT;
    var r := Rule(Some(rule), None, None, MATCH, REDIRECT, Missing, None, None, map[]);
    assert [r][1..] == [];
    assert LegacyRules([r]) == [r];
    PermitsExactly(Status(200, Some(Entry(ruleset, "zone", PHASE, Some([r])))), zoneId,
                   Write("POST", AddPath(zoneId, ruleset), OneRule(DESIRED)));
  }

  /** The planned write is the only one permitted exactly when no legacy rule is remembered. */
  lemma OnlyThePlanIff(zoneId: string, r: Replies, digest: Digest)
    requires Seen(zoneId, r, digest).Some? && !Seen(zoneId, r, digest).value.analysis.operation.Noop?
    ensures Usable(r.phase)
    ensures (forall w :: Permits(Remembered(r.phase), zoneId, w)
                         <==> w == Plan(zoneId, Seen(zoneId, r, digest).value.analysis))
            <==> Remembered(r.phase).legacy == []
  {
    hide ParseAdd, ParseUpdate, IsHex32, Ids, DESIRED, CREATE_BODY, Permits, Consistent;
    var a := Seen(zoneId, r, digest).value.analysis;
    PlanIsPermitted(zoneId, r, digest);
    RepliesAre(zoneId, r, digest);
    forall w {
      PermitsExactly(r.phase, zoneId, w);
    }
    if r.phase.code != 404 {
      var entry := r.phase.result.value;
      IdsShape(LegacyRules(entry.rules.value));
      if a.operation.UpdateRule? {
        var w := Write("POST", AddPath(zoneId, entry.id), OneRule(DESIRED));
        PermitsExactly(r.phase, zoneId, w);
        assert w.verb != Plan(zoneId, a).verb;
      }
    }
  }

  lemma RepliesAre(zoneId: string, r: Replies, digest: Digest)
    requires Seen(zoneId, r, digest).Some?
    ensures var s := Seen(zoneId, r, digest).value;
            if r.phase.code == 404 then s.entry.None?
            else r.phase.code == 200 && r.phase.result.Some? && s.entry == r.phase.result
    ensures Analysable(Seen(zoneId, r, digest).value.entry)
    ensures Seen(zoneId, r, digest).value.analysis == Analysed(Seen(zoneId, r, digest).value.entry)
  {
    hide Analysable, Analysed, ListOk, EntryOk, FlagsOk, ZoneOk, IsHex32;
  }

  lemma {:induction false} IdsLength(rules: seq<Rule>)
    ensures |Ids(rules)| == |rules|
  {
    if rules != [] {
      IdsLength(rules[1..]);
    }
  }

  lemma IdsShape(rules: seq<Rule>)
    ensures |Ids(rules)| == |rules|
    ensures rules != [] && HasId(rules[0]) ==> Ids(rules)[0] == rules[0].id.value
  {
    IdsLength(rules);
  }

  /** Whatever the analysis plans, the transport's separately derived state permits. */
  lemma PlanIsPermitted(zoneId: string, r: Replies, digest: Digest)
    requires Seen(zoneId, r, digest).Some? && !Seen(zoneId, r, digest).value.analysis.operation.Noop?
    ensures Usable(r.phase)
    ensures Permits(Remembered(r.phase), zoneId, Plan(zoneId, Seen(zoneId, r, digest).value.analysis))
  {
    AnalysableIsUsable(zoneId, r);
    PermitsExactly(r.phase, zoneId, Plan(zoneId, Seen(zoneId, r, digest).value.analysis));
  }
}
