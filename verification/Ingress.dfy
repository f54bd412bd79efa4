/** The two tunnel ingress transformers: each puts one exact path of the two public hosts in front of
    their fallback rule and refuses every table where that could mean something else. */
module Ingress {
  import opened Shapes
  import opened Json

  /** `/count` to the counter, `/api/pageview` to the collector. */
  datatype Kind = Count | Pageview

  const APEX := "ausmalwiese.de"
  const WWW := "www.ausmalwiese.de"
  const NOT_FOUND := Obj(map["service" := Str("http_status:404")])

  predicate IsPublic(host: string) {
    host == APEX || host == WWW
  }

  function Pattern(kind: Kind): string {
    if kind.Count? then "^/count$" else "^/api/pageview$"
  }

  function ExactPath(kind: Kind): string {
    if kind.Count? then "/count" else "/api/pageview"
  }

  function Backend(kind: Kind): string {
    if kind.Count? then "http://127.0.0.1:9194" else "http://127.0.0.1:9193"
  }

  function HostHeader(kind: Kind, host: string): string {
    if kind.Count? then "goatcounter.ausmalwiese.invalid" else host
  }

  /** The rule to install for a host. */
  function EntryFor(kind: Kind, host: string): Value {
    Obj(map["hostname" := Str(host), "path" := Str(Pattern(kind)), "service" := Str(Backend(kind)),
            "originRequest" := Obj(map["httpHostHeader" := Str(HostHeader(kind, host))])])
  }

  predicate HasPath(rule: Value) {
    Get(rule, "path").Some?
  }

  predicate IsFor(rule: Value, host: string) {
    Get(rule, "hostname") == Some(Str(host))
  }

  predicate IsForPublic(rule: Value) {
    IsFor(rule, APEX) || IsFor(rule, WWW)
  }

  function PublicHost(rule: Value): (h: string)
    requires IsForPublic(rule)
    ensures IsPublic(h) && IsFor(rule, h)
  {
    if IsFor(rule, APEX) then APEX else WWW
  }

  // ---------------------------------------------------------------------------------------------
  // Which tables are accepted

  predicate AllDigits(s: string) {
    forall i :: 0 <= i < |s| ==> '0' <= s[i] <= '9'
  }

  function Decimal(digits: string): nat
    requires AllDigits(digits)
  {
    if digits == "" then 0
    else 10 * Decimal(digits[..|digits| - 1]) + (digits[|digits| - 1] as int - '0' as int)
  }

  /** `http://(?:127\.0\.0\.1|localhost):([0-9]{2,5})`, and the number the group spells. */
  function LocalPort(service: string): Option<nat> {
    var a, b := "http://127.0.0.1:", "http://localhost:";
    var digits :=
      if a <= service then service[|a|..] else if b <= service then service[|b|..] else "";
    if 2 <= |digits| <= 5 && AllDigits(digits) then Some(Decimal(digits)) else None
  }

  predicate FallbackOk(kind: Kind, rule: Value) {
    var s := Get(rule, "service");
    s.Some? && s.value.Str? && LocalPort(s.value.text).Some?
    && var port := LocalPort(s.value.text).value;
       port <= 65535 && port != 9193 && port != 9194 && (kind.Pageview? ==> port >= 1)
  }

  /** The rules that name the host, in order. */
  function OnHost(rules: seq<Value>, host: string): seq<Value> {
    if rules == [] then []
    else OnHost(rules[..|rules| - 1], host) + if IsFor(rules[|rules| - 1], host) then [rules[|rules| - 1]] else []
  }

  function Bare(rules: seq<Value>): seq<Value> {
    if rules == [] then []
    else Bare(rules[..|rules| - 1]) + if HasPath(rules[|rules| - 1]) then [] else [rules[|rules| - 1]]
  }

  /** Whether the host's entry is installed: its rules are the fallback alone, or the entry and then it. */
  function HostState(kind: Kind, rules: seq<Value>, host: string): Result<bool> {
    var on := OnHost(rules, host);
    var bare := Bare(on);
    if |bare| != 1 || !FallbackOk(kind, bare[0]) then Stop("APP_FALLBACK_INVALID")
    else if on == bare then Ok(false)
    else if on == [EntryFor(kind, host), bare[0]] then Ok(true)
    else Stop("EXISTING_PATH_CONFLICT")
  }

  /** Not empty, lower case, no trailing dot. */
  predicate Canonical(host: string) {
    host != "" && (forall c :: c in host ==> !('A' <= c <= 'Z')) && host[|host| - 1] != '.'
  }

  type Glob = (string, string) -> bool

  predicate HostnameOk(rule: Value, glob: Glob) {
    var h := Get(rule, "hostname");
    h.Some? && h.value.Str? && Canonical(h.value.text)
    && (IsPublic(h.value.text) || (!glob(APEX, h.value.text) && !glob(WWW, h.value.text)))
  }

  predicate HostnamesOk(rules: seq<Value>, glob: Glob) {
    forall i :: 0 <= i < |rules| ==> HostnameOk(rules[i], glob)
  }

  predicate ShapeOk(rules: seq<Value>) {
    |rules| >= 3 && (forall r :: r in rules ==> r.Obj?) && rules[|rules| - 1] == NOT_FOUND
  }

  predicate GlobalOk(config: Value) {
    config.Obj? && (var o := Get(config, "originRequest"); o.None? || o == Some(Obj(map[])))
  }

  function Table(config: Value): seq<Value> {
    var t := Get(config, "ingress");
    if t.Some? && t.value.Arr? then t.value.items else []
  }

  /** The stop code for a config, none when it is accepted. */
  function Refusal(kind: Kind, config: Value, glob: Glob): Option<string> {
    var rules := Table(config);
    if !GlobalOk(config) then Some("GLOBAL_ORIGIN_SETTINGS_REQUIRE_REVIEW")
    else if !ShapeOk(rules) then Some("INGRESS_SHAPE_INVALID")
    else if !HostnamesOk(rules[..|rules| - 1], glob) then Some("HOST_MATCH_AMBIGUOUS")
    else
      var a, w := HostState(kind, rules, APEX), HostState(kind, rules, WWW);
      if a.Stop? then Some(a.code)
      else if w.Stop? then Some(w.code)
      else if a.value != w.value then Some("PARTIAL_ROUTE_STATE")
      else None
  }

  predicate Accepts(kind: Kind, config: Value, glob: Glob) {
    Refusal(kind, config, glob).None?
  }

  /** The one transformer goes by missing paths, the other by the host alone. */
  predicate Precedes(kind: Kind, rule: Value) {
    IsForPublic(rule) && (kind.Count? ==> !HasPath(rule))
  }

  function Inserted(kind: Kind, rules: seq<Value>): seq<Value> {
    if rules == [] then []
    else
      var last := rules[|rules| - 1];
      Inserted(kind, rules[..|rules| - 1])
      + (if Precedes(kind, last) then [EntryFor(kind, PublicHost(last)), last] else [last])
  }

  predicate Installed(kind: Kind, config: Value) {
    HostState(kind, Table(config), APEX) == Ok(true)
  }

  function Desired(kind: Kind, config: Value): Value
    requires config.Obj?
  {
    if Installed(kind, config) then config
    else Obj(config.members["ingress" := Arr(Inserted(kind, Table(config)))])
  }

  // ---------------------------------------------------------------------------------------------
  // The transformers

  /** The rules `on` of a host below position `n`, parted by whether they have a path. */
  ghost predicate Parted(on: seq<Value>, fallback: seq<(nat, Value)>, scoped: seq<(nat, Value)>, n: nat) {
    |on| == |fallback| + |scoped|
    && Bare(on) == seq(|fallback|, k requires 0 <= k < |fallback| => fallback[k].1)
    && (forall k :: 0 <= k < |fallback| ==> fallback[k].0 < n)
    && (forall k :: 0 <= k < |scoped| ==> scoped[k].0 < n && HasPath(scoped[k].1))
    && (scoped == [] ==> on == Bare(on))
    && (fallback == [] && |scoped| == 1 ==> on == [scoped[0].1])
    && (|fallback| == 1 && |scoped| == 1 ==>
          scoped[0].0 != fallback[0].0
          && on == if scoped[0].0 < fallback[0].0 then [scoped[0].1, fallback[0].1] else [fallback[0].1, scoped[0].1])
  }

  lemma PartedStep(on: seq<Value>, fallback: seq<(nat, Value)>, scoped: seq<(nat, Value)>, n: nat, rule: Value)
    requires Parted(on, fallback, scoped, n)
    ensures HasPath(rule) ==> Parted(on + [rule], fallback, scoped + [(n, rule)], n + 1)
    ensures !HasPath(rule) ==> Parted(on + [rule], fallback + [(n, rule)], scoped, n + 1)
    ensures Parted(on, fallback, scoped, n + 1)
  {
    hide HasPath;
    assert (on + [rule])[..|on|] == on;
    assert Bare(on + [rule]) == Bare(on) + if HasPath(rule) then [] else [rule];
    if HasPath(rule) {
      assert (scoped + [(n, rule)])[|scoped|] == (n, rule);
    }
  }

  lemma PartedEnds(on: seq<Value>, fallback: seq<(nat, Value)>, scoped: seq<(nat, Value)>, n: nat)
    ensures Parted([], [], [], 0)
    ensures Parted(on, fallback, scoped, n) ==>
              |Bare(on)| == |fallback|
              && (|fallback| == 1 ==>
                    Bare(on)[0] == fallback[0].1
                    && (on == Bare(on) <==> scoped == [])
                    && (forall e :: HasPath(e) ==>
                          (on == [e, fallback[0].1] <==>
                             |scoped| == 1 && scoped[0].1 == e && scoped[0].0 < fallback[0].0)))
  {
    hide HasPath;
    if Parted(on, fallback, scoped, n) && |fallback| == 1 {
      forall e | HasPath(e) && on == [e, fallback[0].1] ensures |scoped| == 1 {
        assert |on| == 2;
      }
      BareHasNone(on);
      assert Bare(on)[0] == fallback[0].1;
      assert Bare([fallback[0].1]) == [] + if HasPath(fallback[0].1) then [] else [fallback[0].1];
    }
  }

  lemma {:induction false} BareHasNone(rules: seq<Value>)
    ensures forall r :: r in Bare(rules) ==> !HasPath(r)
  {
    if rules != [] {
      BareHasNone(rules[..|rules| - 1]);
    }
  }

  method HostInstalled(kind: Kind, rules: seq<Value>, host: string) returns (r: Result<bool>)
    ensures r == HostState(kind, rules, host)
  {
    hide EntryFor, IsFor, FallbackOk, Bare, Parted;
    var fallback: seq<(nat, Value)>, scoped: seq<(nat, Value)> := [], [];
    PartedEnds([], [], [], 0);
    for i := 0 to |rules|
      invariant Parted(OnHost(rules[..i], host), fallback, scoped, i)
    {
      var on := OnHost(rules[..i], host);
      assert rules[..i + 1][..i] == rules[..i];
      PartedStep(on, fallback, scoped, i, rules[i]);
      assert OnHost(rules[..i + 1], host) == if IsFor(rules[i], host) then on + [rules[i]] else on;
      if IsFor(rules[i], host) {
        if HasPath(rules[i]) {
          scoped := scoped + [(i, rules[i])];
        } else {
          fallback := fallback + [(i, rules[i])];
        }
      }
    }
    assert rules[..|rules|] == rules;
    PartedEnds(OnHost(rules, host), fallback, scoped, |rules|);
    EntryHasPath(kind, host);
    if |fallback| != 1 {
      return Stop("APP_FALLBACK_INVALID");
    }
    if !FallbackOk(kind, fallback[0].1) {
      return Stop("APP_FALLBACK_INVALID");
    }
    if |scoped| > 0 && (|scoped| != 1 || scoped[0].1 != EntryFor(kind, host) || scoped[0].0 >= fallback[0].0) {
      return Stop("EXISTING_PATH_CONFLICT");
    }
    return Ok(|scoped| > 0);
  }

  lemma EntryHasPath(kind: Kind, host: string)
    ensures HasPath(EntryFor(kind, host))
  {
  }

  /** The desired config and whether it differs, or the stop of the first check that fails. */
  method Prepare(kind: Kind, config: Value, glob: Glob) returns (r: Result<(Value, bool)>)
    ensures r == (var no := Refusal(kind, config, glob);
                  if no.Some? then Stop(no.value)
                  else Ok((Desired(kind, config), !Installed(kind, config))))
  {
    hide HostState, HostnameOk, EntryFor, IsFor, HasPath, NOT_FOUND, PublicHost, IsPublic, FallbackOk;
    if !GlobalOk(config) {
      return Stop("GLOBAL_ORIGIN_SETTINGS_REQUIRE_REVIEW");
    }
    var rules := Table(config);
    if !ShapeOk(rules) {
      return Stop("INGRESS_SHAPE_INVALID");
    }
    for i := 0 to |rules| - 1
      invariant HostnamesOk(rules[..i], glob)
    {
      if !HostnameOk(rules[i], glob) {
        assert rules[..|rules| - 1][i] == rules[i];
        return Stop("HOST_MATCH_AMBIGUOUS");
      }
    }
    var apex := HostInstalled(kind, rules, APEX);
    if apex.Stop? {
      return Stop(apex.code);
    }
    var www := HostInstalled(kind, rules, WWW);
    if www.Stop? {
      return Stop(www.code);
    }
    if apex.value != www.value {
      return Stop("PARTIAL_ROUTE_STATE");
    }
    if apex.value {
      return Ok((config, false));
    }
    var updated: seq<Value> := [];
    for i := 0 to |rules|
      invariant updated == Inserted(kind, rules[..i])
    {
      assert rules[..i + 1][..i] == rules[..i];
      if Precedes(kind, rules[i]) {
        updated := updated + [EntryFor(kind, PublicHost(rules[i]))];
      }
      updated := updated + [rules[i]];
    }
    assert rules[..|rules|] == rules;
    return Ok((Obj(config.members["ingress" := Arr(updated)]), true));
  }
}
