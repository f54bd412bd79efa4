/** What the ingress transformers do to the meaning of a table, which is its first matching rule. */
module IngressMeaning {
  import opened Shapes
  import opened Json
  import opened Ingress

  datatype Request = Request(host: string, path: string)

  /** How the tunnel matches a rule's hostname and its path against a request. */
  datatype Router = Router(host: (string, string) -> bool, path: (Value, string) -> bool)

  /** A rule without a hostname or without a path leaves that open. */
  predicate Matches(rule: Value, q: Request, router: Router) {
    var h, p := Get(rule, "hostname"), Get(rule, "path");
    (h.Some? && h.value.Str? ==> router.host(h.value.text, q.host))
    && (p.Some? ==> router.path(p.value, q.path))
  }

  /** The first rule that matches. */
  function Route(rules: seq<Value>, q: Request, router: Router): Option<Value> {
    if rules == [] then None
    else
      var earlier := Route(rules[..|rules| - 1], q, router);
      if earlier.Some? then earlier
      else if Matches(rules[|rules| - 1], q, router) then Some(rules[|rules| - 1])
      else None
  }

  /** All that is assumed of the router: the two public names match only themselves, what else matches
      them the glob also matches, and the two anchored patterns match their one path. */
  ghost predicate Honours(router: Router, glob: Glob) {
    (forall h, public :: IsPublic(public) ==> (router.host(public, h) <==> h == public))
    && (forall pattern, public :: IsPublic(public) && router.host(pattern, public) ==>
          pattern == public || glob(public, pattern))
    && Anchored(router.path)
  }

  ghost predicate Anchored(matches: (Value, string) -> bool) {
    (forall path :: matches(Str("^/count$"), path) <==> path == "/count")
    && (forall path :: matches(Str("^/api/pageview$"), path) <==> path == "/api/pageview")
  }

  /** Where a rule sends a request, and under which Host header. */
  datatype Delivery = Delivery(service: Option<Value>, hostHeader: Value)

  function Delivered(rule: Value, q: Request): Delivery {
    var origin := Get(rule, "originRequest");
    var header := if origin.Some? then Get(origin.value, "httpHostHeader") else None;
    Delivery(Get(rule, "service"), if header.Some? then header.value else Str(q.host))
  }

  predicate Redirected(kind: Kind, q: Request) {
    IsPublic(q.host) && q.path == ExactPath(kind)
  }

  // ---------------------------------------------------------------------------------------------
  // The rewritten table

  lemma NamesOneHost(kind: Kind, rule: Value, host: string)
    ensures IsFor(EntryFor(kind, host), host) && HasPath(EntryFor(kind, host))
    ensures forall other :: IsFor(EntryFor(kind, host), other) ==> other == host
    ensures IsFor(rule, host) ==> forall other :: IsFor(rule, other) ==> other == host
    ensures IsPublic(host) && IsFor(rule, host) ==> IsForPublic(rule) && PublicHost(rule) == host
    ensures IsForPublic(rule) ==> IsFor(EntryFor(kind, PublicHost(rule)), host) == IsFor(rule, host)
  {
  }

  lemma InsertedAppend(kind: Kind, s: seq<Value>, x: Value)
    ensures Inserted(kind, s + [x])
         == if Precedes(kind, x) then Inserted(kind, s) + [EntryFor(kind, PublicHost(x))] + [x]
            else Inserted(kind, s) + [x]
  {
    assert (s + [x])[..|s|] == s;
  }

  lemma {:induction false} InsertedOnHost(kind: Kind, s: seq<Value>, host: string)
    requires IsPublic(host) && |OnHost(s, host)| <= 1
    requires forall r :: r in OnHost(s, host) ==> !HasPath(r)
    ensures OnHost(Inserted(kind, s), host)
         == if OnHost(s, host) == [] then [] else [EntryFor(kind, host)] + OnHost(s, host)
  {
    hide EntryFor, IsFor, HasPath, Inserted, IsForPublic, OnHost, IsPublic;
    if s == [] {
      InsertedEmpty(kind);
    } else {
      var front, last := s[..|s| - 1], s[|s| - 1];
      assert s == front + [last];
      OnHostAppend(front, last, host);
      InsertedOnHost(kind, front, host);
      InsertedAppend(kind, front, last);
      NamesOneHost(kind, last, host);
      var before := Inserted(kind, front);
      if Precedes(kind, last) {
        var e := EntryFor(kind, PublicHost(last));
        OnHostAppend(before, e, host);
        OnHostAppend(before + [e], last, host);
        assert IsFor(last, host) ==> OnHost(front, host) == [];
      } else {
        assert IsFor(last, host) ==> last in OnHost(s, host);
        OnHostAppend(before, last, host);
      }
    }
  }

  lemma InsertedEmpty(kind: Kind)
    ensures Inserted(kind, []) == [] && forall host :: OnHost([], host) == []
  {
  }

  lemma OnHostAppend(s: seq<Value>, x: Value, host: string)
    ensures OnHost(s + [x], host) == OnHost(s, host) + if IsFor(x, host) then [x] else []
  {
    assert (s + [x])[..|s|] == s;
  }

  lemma {:induction false} InsertedHostnames(kind: Kind, s: seq<Value>, glob: Glob)
    requires HostnamesOk(s, glob)
    ensures HostnamesOk(Inserted(kind, s), glob)
    ensures (forall r :: r in s ==> r.Obj?) ==> forall r :: r in Inserted(kind, s) ==> r.Obj?
    ensures |Inserted(kind, s)| >= |s|
  {
    if s != [] {
      var front, last := s[..|s| - 1], s[|s| - 1];
      InsertedHostnames(kind, front, glob);
      if Precedes(kind, last) {
        PublicIsCanonical(kind, PublicHost(last), glob);
      }
    }
  }

  lemma PublicNamesAreCanonical()
    ensures Canonical(APEX) && Canonical(WWW)
  {
  }

  lemma PublicIsCanonical(kind: Kind, host: string, glob: Glob)
    requires IsPublic(host)
    ensures HostnameOk(EntryFor(kind, host), glob)
  {
    hide Canonical, APEX, WWW, Pattern, Backend, HostHeader;
    PublicNamesAreCanonical();
  }

  lemma {:induction false} AllBare(rules: seq<Value>)
    requires Bare(rules) == rules
    ensures forall r :: r in rules ==> !HasPath(r)
  {
    BareHasNone(rules);
  }

  /** What being accepted comes to. */
  lemma AcceptedIs(kind: Kind, config: Value, glob: Glob)
    ensures Accepts(kind, config, glob) <==>
              var t := Table(config);
              GlobalOk(config) && ShapeOk(t) && HostnamesOk(t[..|t| - 1], glob)
              && HostState(kind, t, APEX).Ok? && HostState(kind, t, APEX) == HostState(kind, t, WWW)
  {
    hide GlobalOk, ShapeOk, HostnamesOk, HostState, Table;
  }

  /** A host has just its fallback, which has no path, or with `entry` first that host's entry. */
  ghost predicate HostIs(kind: Kind, rules: seq<Value>, host: string, entry: bool) {
    exists fallback :: FallbackOk(kind, fallback) && Get(fallback, "path").None?
      && OnHost(rules, host) == if entry then [EntryFor(kind, host), fallback] else [fallback]
  }

  lemma HostStateIs(kind: Kind, rules: seq<Value>, host: string, entry: bool)
    ensures HostState(kind, rules, host) == Ok(entry) <==> HostIs(kind, rules, host, entry)
  {
    hide EntryFor, FallbackOk, OnHost;
    var on := OnHost(rules, host);
    if HostState(kind, rules, host) == Ok(entry) {
      BareHasNone(on);
      assert Bare(on)[0] in Bare(on);
    }
    forall fallback | FallbackOk(kind, fallback) && Get(fallback, "path").None?
                      && on == if entry then [EntryFor(kind, host), fallback] else [fallback]
      ensures Bare(on) == [fallback]
    {
      BareOne(fallback);
      if entry {
        EntryHasPath(kind, host);
        BareAfterEntry(kind, host, [fallback]);
      }
    }
    EntryHasPath(kind, host);
  }

  /** Which configs are accepted, told by their members. */
  lemma AcceptsIff(kind: Kind, config: Value, glob: Glob)
    ensures Accepts(kind, config, glob) <==>
              config.Obj?
              && ("originRequest" in config.members ==> config.members["originRequest"] == Obj(map[]))
              && "ingress" in config.members && config.members["ingress"].Arr?
              && var t := config.members["ingress"].items;
                 |t| >= 3 && (forall r :: r in t ==> r.Obj?)
                 && t[|t| - 1] == Obj(map["service" := Str("http_status:404")])
                 && (forall i :: 0 <= i < |t| - 1 ==> HostnameIs(t[i], glob))
                 && exists entry ::
                      HostIs(kind, t, "ausmalwiese.de", entry) && HostIs(kind, t, "www.ausmalwiese.de", entry)
  {
    hide HostState, OnHost, HostIs, HostnameOk, HostnameIs;
    AcceptedIs(kind, config, glob);
    var t := Table(config);
    forall host, entry ensures HostState(kind, t, host) == Ok(entry) <==> HostIs(kind, t, host, entry) {
      HostStateIs(kind, t, host, entry);
    }
    forall rule ensures HostnameOk(rule, glob) <==> HostnameIs(rule, glob) {
      HostnameIff(rule, glob);
    }
    if |t| > 0 {
      assert forall i :: 0 <= i < |t| - 1 ==> t[..|t| - 1][i] == t[i];
    }
  }

  /** A lower case name without a trailing dot, which is a public one or covers neither of them. */
  ghost predicate HostnameIs(rule: Value, glob: Glob) {
    exists h :: Get(rule, "hostname") == Some(Str(h)) && h != "" && h[|h| - 1] != '.'
      && (forall i :: 0 <= i < |h| ==> h[i] < 'A' || h[i] > 'Z')
      && (glob(APEX, h) || glob(WWW, h) ==> h == APEX || h == WWW)
  }

  lemma HostnameIff(rule: Value, glob: Glob)
    ensures HostnameOk(rule, glob) <==> HostnameIs(rule, glob)
  {
    hide Canonical, APEX, WWW;
    var g := Get(rule, "hostname");
    if g.Some? && g.value.Str? {
      CanonicalIs(g.value.text);
      assert g == Some(Str(g.value.text));
    }
  }

  lemma CanonicalIs(h: string)
    ensures Canonical(h) <==>
              h != "" && h[|h| - 1] != '.' && forall i :: 0 <= i < |h| ==> h[i] < 'A' || h[i] > 'Z'
  {
    assert forall i :: 0 <= i < |h| ==> h[i] in h;
  }

  lemma UninstalledIsBare(kind: Kind, config: Value, glob: Glob, host: string)
    requires Accepts(kind, config, glob) && !Installed(kind, config) && IsPublic(host)
    ensures |OnHost(Table(config), host)| == 1 && FallbackOk(kind, OnHost(Table(config), host)[0])
    ensures forall r :: r in OnHost(Table(config), host) ==> !HasPath(r)
  {
    hide EntryFor, IsFor, HasPath, FallbackOk, GlobalOk, ShapeOk, HostnamesOk, Table, OnHost, Bare;
    AcceptedIs(kind, config, glob);
    AllBare(OnHost(Table(config), host));
  }

  /** The desired table is accepted again, with the entries installed. */
  lemma DesiredTable(kind: Kind, config: Value, glob: Glob)
    requires Accepts(kind, config, glob)
    ensures var d := Desired(kind, config);
            Accepts(kind, d, glob)
            && HostState(kind, Table(d), APEX) == Ok(true) && HostState(kind, Table(d), WWW) == Ok(true)
            && (!Installed(kind, config) ==>
                  OnHost(Table(d), APEX) == [EntryFor(kind, APEX)] + OnHost(Table(config), APEX)
                  && OnHost(Table(d), WWW) == [EntryFor(kind, WWW)] + OnHost(Table(config), WWW))
  {
    hide EntryFor, IsFor, HasPath, FallbackOk, HostnamesOk, IsForPublic, NOT_FOUND, Inserted, OnHost, Bare, HostState,
         Desired, Table, Accepts;
    AcceptedIs(kind, config, glob);
    var d := Desired(kind, config);
    DesiredIs(kind, config);
    if Installed(kind, config) {
      assert HostState(kind, Table(config), WWW) == Ok(true);
    } else {
      var front := Table(config)[..|Table(config)| - 1];
      assert Table(config) == front + [NOT_FOUND];
      NotFoundIsOpen();
      InsertedAppend(kind, front, NOT_FOUND);
      InsertedHostnames(kind, front, glob);
      assert Table(d)[..|Table(d)| - 1] == Inserted(kind, front);
      InsertedState(kind, config, glob, APEX);
      InsertedState(kind, config, glob, WWW);
    }
    AcceptedIs(kind, d, glob);
  }

  lemma InsertedState(kind: Kind, config: Value, glob: Glob, host: string)
    requires Accepts(kind, config, glob) && !Installed(kind, config) && IsPublic(host)
    ensures OnHost(Inserted(kind, Table(config)), host) == [EntryFor(kind, host)] + OnHost(Table(config), host)
    ensures HostState(kind, Inserted(kind, Table(config)), host) == Ok(true)
  {
    hide EntryFor, IsFor, HasPath, FallbackOk, Inserted, OnHost, Bare, Table, Accepts, Installed;
    UninstalledIsBare(kind, config, glob, host);
    InsertedOnHost(kind, Table(config), host);
    BareAfterEntry(kind, host, OnHost(Table(config), host));
  }

  lemma NotFoundIsOpen()
    ensures !IsForPublic(NOT_FOUND) && !HasPath(NOT_FOUND) && forall host :: !IsFor(NOT_FOUND, host)
  {
  }

  lemma DesiredIs(kind: Kind, config: Value)
    requires config.Obj?
    ensures GlobalOk(config) ==> GlobalOk(Desired(kind, config))
    ensures Table(Desired(kind, config))
         == if Installed(kind, config) then Table(config) else Inserted(kind, Table(config))
  {
  }

  lemma InstalledFirst(kind: Kind, rules: seq<Value>, host: string)
    ensures IsPublic(host) && HostState(kind, rules, APEX) == Ok(true) && HostState(kind, rules, WWW) == Ok(true) ==>
              |OnHost(rules, host)| == 2 && OnHost(rules, host)[0] == EntryFor(kind, host)
  {
    hide EntryFor, FallbackOk, OnHost, Bare;
  }

  lemma BareAfterEntry(kind: Kind, host: string, on: seq<Value>)
    requires |on| == 1 && !HasPath(on[0])
    ensures Bare([EntryFor(kind, host)] + on) == on
  {
    var s := [EntryFor(kind, host)] + on;
    assert s[..1] == [EntryFor(kind, host)];
    assert Bare(s[..1]) == Bare([]);
  }

  // ---------------------------------------------------------------------------------------------
  // Meaning

  lemma {:induction false} OthersRouteAsBefore(kind: Kind, s: seq<Value>, q: Request, router: Router, glob: Glob)
    requires Honours(router, glob) && !Redirected(kind, q)
    ensures Route(Inserted(kind, s), q, router) == Route(s, q, router)
  {
    hide EntryFor, IsFor, IsForPublic, HasPath, Inserted, Route, Matches;
    if s == [] {
      InsertedEmpty(kind);
    } else {
      var front, last := s[..|s| - 1], s[|s| - 1];
      assert s == front + [last];
      OthersRouteAsBefore(kind, front, q, router, glob);
      InsertedAppend(kind, front, last);
      RouteAppend(front, last, q, router);
      if Precedes(kind, last) {
        var e := EntryFor(kind, PublicHost(last));
        EntryMatches(kind, PublicHost(last), q, router, glob);
        RouteAppend(Inserted(kind, front), e, q, router);
        RouteAppend(Inserted(kind, front) + [e], last, q, router);
      } else {
        RouteAppend(Inserted(kind, front), last, q, router);
      }
    }
  }

  lemma EntryMatches(kind: Kind, host: string, q: Request, router: Router, glob: Glob)
    requires IsPublic(host) && Honours(router, glob)
    ensures Matches(EntryFor(kind, host), q, router) <==> q.host == host && q.path == ExactPath(kind)
  {
    hide APEX, WWW, Backend, HostHeader;
  }

  lemma RouteAppend(s: seq<Value>, x: Value, q: Request, router: Router)
    ensures Route(s + [x], q, router)
         == if Route(s, q, router).Some? then Route(s, q, router)
            else if Matches(x, q, router) then Some(x) else None
  {
    assert (s + [x])[..|s|] == s;
  }

  /** With unambiguous hostnames, a public host's request is decided by the rules that name the host. */
  lemma {:induction false} FirstOnHostDecides(kind: Kind, s: seq<Value>, q: Request, router: Router, glob: Glob)
    requires Honours(router, glob) && Redirected(kind, q) && HostnamesOk(s, glob)
    requires OnHost(s, q.host) != [] ==> OnHost(s, q.host)[0] == EntryFor(kind, q.host)
    ensures Route(s, q, router) == if OnHost(s, q.host) == [] then None else Some(EntryFor(kind, q.host))
  {
    if s != [] {
      var front, last := s[..|s| - 1], s[|s| - 1];
      assert OnHost(s, q.host) == OnHost(front, q.host) + if IsFor(last, q.host) then [last] else [];
      FirstOnHostDecides(kind, front, q, router, glob);
      assert HostnameOk(s[|s| - 1], glob);
      if !IsFor(last, q.host) {
        assert !router.host(Get(last, "hostname").value.text, q.host);
      }
    }
  }

  /** Every request is routed by the very rule that routed it before, except the one exact path on the
      two public hosts, which the entry takes. This holds whether or not the entries were there. */
  lemma PreparedMeans(kind: Kind, config: Value, q: Request, router: Router, glob: Glob)
    requires Accepts(kind, config, glob) && Honours(router, glob)
    ensures Route(Table(Desired(kind, config)), q, router)
         == if Redirected(kind, q) then Some(EntryFor(kind, q.host)) else Route(Table(config), q, router)
  {
    hide EntryFor, IsFor, HostnamesOk, NOT_FOUND, Honours, HostState, Desired, Accepts, Table,
         Matches, IsPublic, OnHost, Inserted, FallbackOk;
    AcceptedIs(kind, config, glob);
    DesiredIs(kind, config);
    if Redirected(kind, q) {
      DesiredTable(kind, config, glob);
      AcceptedIs(kind, Desired(kind, config), glob);
      var t := Table(Desired(kind, config));
      var front := t[..|t| - 1];
      NotFoundIsOpen();
      assert t == front + [NOT_FOUND];
      OnHostAppend(front, NOT_FOUND, q.host);
      RouteAppend(front, NOT_FOUND, q, router);
      InstalledFirst(kind, t, q.host);
      FirstOnHostDecides(kind, front, q, router, glob);
    } else {
      OthersRouteAsBefore(kind, Table(config), q, router, glob);
    }
  }

  /** What a client reaches: after the one transformer `/count` on the two hosts is the counter's under its
      own name, after the other `/api/pageview` is the collector's under the host asked for; every other
      request is routed by the very rule that routed it before. */
  lemma PreparedReaches(kind: Kind, config: Value, q: Request, router: Router, glob: Glob)
    requires Accepts(kind, config, glob) && Honours(router, glob)
    ensures var rule := Route(Table(Desired(kind, config)), q, router);
            if q.host !in ["ausmalwiese.de", "www.ausmalwiese.de"]
               || q.path != (if kind.Count? then "/count" else "/api/pageview")
            then rule == Route(Table(config), q, router)
            else rule.Some? && Delivered(rule.value, q)
                 == if kind.Count?
                    then Delivery(Some(Str("http://127.0.0.1:9194")), Str("goatcounter.ausmalwiese.invalid"))
                    else Delivery(Some(Str("http://127.0.0.1:9193")), Str(q.host))
  {
    PreparedMeans(kind, config, q, router, glob);
    RedirectedIs(kind, q);
    EntryDelivers(kind, q);
    hide EntryFor, Redirected, Delivered, Route, Desired, Table, Accepts, Honours;
  }

  lemma RedirectedIs(kind: Kind, q: Request)
    ensures Redirected(kind, q) <==>
              q.host in ["ausmalwiese.de", "www.ausmalwiese.de"]
              && q.path == if kind.Count? then "/count" else "/api/pageview"
  {
  }

  lemma EntryDelivers(kind: Kind, q: Request)
    ensures Delivered(EntryFor(kind, q.host), q)
         == if kind.Count?
            then Delivery(Some(Str("http://127.0.0.1:9194")), Str("goatcounter.ausmalwiese.invalid"))
            else Delivery(Some(Str("http://127.0.0.1:9193")), Str(q.host))
  {
  }

  /** Preparing the result again changes nothing. */
  lemma PreparedTwice(kind: Kind, config: Value, glob: Glob)
    requires Accepts(kind, config, glob)
    ensures var d := Desired(kind, config);
            Accepts(kind, d, glob) && Installed(kind, d) && Desired(kind, d) == d
            && (Installed(kind, config) <==> d == config)
  {
    DesiredTable(kind, config, glob);
  }

  /** Neither transformer accepts what the other one yields. */
  lemma OtherRefuses(kind: Kind, other: Kind, config: Value, glob: Glob)
    requires Accepts(kind, config, glob) && other != kind
    ensures Refusal(other, Desired(kind, config), glob)
         in {Some("EXISTING_PATH_CONFLICT"), Some("APP_FALLBACK_INVALID")}
  {
    hide EntryFor, IsFor, HasPath, HostnamesOk, NOT_FOUND, Desired, Table, OnHost, Inserted, FallbackOk, Bare;
    DesiredTable(kind, config, glob);
    var t := Table(Desired(kind, config));
    AcceptedIs(kind, Desired(kind, config), glob);
    EntriesDiffer(kind, other, APEX);
    InstalledFirst(kind, t, APEX);
  }

  lemma EntriesDiffer(kind: Kind, other: Kind, host: string)
    requires other != kind
    ensures EntryFor(kind, host) != EntryFor(other, host)
  {
    assert Get(EntryFor(kind, host), "path") == Some(Str(Pattern(kind)));
    assert Get(EntryFor(other, host), "path") == Some(Str(Pattern(other)));
    assert Pattern(kind)[1..] != Pattern(other)[1..] by {
      assert "^/count$"[2] != "^/api/pageview$"[2];
    }
  }

  /** The table without the entries. */
  function Erased(kind: Kind, rules: seq<Value>): seq<Value> {
    if rules == [] then []
    else
      var last := rules[|rules| - 1];
      Erased(kind, rules[..|rules| - 1])
      + if last == EntryFor(kind, APEX) || last == EntryFor(kind, WWW) then [] else [last]
  }

  lemma ErasedAppend(kind: Kind, s: seq<Value>, x: Value)
    ensures Erased(kind, s + [x])
         == Erased(kind, s) + if x == EntryFor(kind, APEX) || x == EntryFor(kind, WWW) then [] else [x]
  {
    assert (s + [x])[..|s|] == s;
  }

  lemma {:induction false} ErasedInserted(kind: Kind, s: seq<Value>)
    requires forall r :: r in OnHost(s, APEX) || r in OnHost(s, WWW) ==> !HasPath(r)
    ensures Erased(kind, Inserted(kind, s)) == s
  {
    hide EntryFor, IsFor, HasPath, Inserted, IsForPublic, Erased;
    if s == [] {
      InsertedEmpty(kind);
      ErasedEmpty(kind);
    } else {
      var front, last := s[..|s| - 1], s[|s| - 1];
      assert s == front + [last];
      OnHostAppend(front, last, APEX);
      OnHostAppend(front, last, WWW);
      ErasedInserted(kind, front);
      InsertedAppend(kind, front, last);
      NamesOneHost(kind, last, APEX);
      NamesOneHost(kind, last, WWW);
      var before := Inserted(kind, front);
      assert IsForPublic(last) ==> last in OnHost(s, PublicHost(last));
      assert last != EntryFor(kind, APEX) && last != EntryFor(kind, WWW);
      if Precedes(kind, last) {
        var e := EntryFor(kind, PublicHost(last));
        ErasedAppend(kind, before, e);
        ErasedAppend(kind, before + [e], last);
      } else {
        ErasedAppend(kind, before, last);
      }
    }
  }

  lemma ErasedEmpty(kind: Kind)
    ensures Erased(kind, []) == []
  {
  }

  /** Taking the entries out again gives back the config as it was, every member of it. */
  lemma ErasingRestores(kind: Kind, config: Value, glob: Glob)
    requires Accepts(kind, config, glob) && !Installed(kind, config)
    ensures var d := Desired(kind, config);
            Obj(d.members["ingress" := Arr(Erased(kind, Table(d)))]) == config
  {
    var rules := Table(config);
    hide EntryFor, IsFor, HostnamesOk, NOT_FOUND, HostState, OnHost, Inserted, Erased, FallbackOk;
    UninstalledIsBare(kind, config, glob, APEX);
    UninstalledIsBare(kind, config, glob, WWW);
    ErasedInserted(kind, rules);
    DesiredIs(kind, config);
    assert config.members["ingress"] == Arr(rules);
  }

  lemma PortOf(prefix: string, digits: string)
    requires prefix == "http://127.0.0.1:" || prefix == "http://localhost:"
    ensures LocalPort(prefix + digits)
         == if 2 <= |digits| <= 5 && AllDigits(digits) then Some(Decimal(digits)) else None
  {
    hide AllDigits, Decimal;
    var s := prefix + digits;
    assert prefix <= s && s[|prefix|..] == digits;
    if prefix == "http://localhost:" {
      OtherPrefix(s);
    }
  }

  lemma OtherPrefix(s: string)
    requires "http://localhost:" <= s
    ensures !("http://127.0.0.1:" <= s)
  {
    assert s[7] == 'l' && "http://127.0.0.1:"[7] == '1';
  }

  lemma PortHasPrefix(s: string) returns (prefix: string, digits: string)
    requires LocalPort(s).Some?
    ensures s == prefix + digits
    ensures prefix == "http://127.0.0.1:" || prefix == "http://localhost:"
  {
    hide AllDigits, Decimal;
    prefix := if "http://127.0.0.1:" <= s then "http://127.0.0.1:" else "http://localhost:";
    digits := s[|prefix|..];
  }

  /** An address of this machine in two to five digits, with a port that is neither entry's. */
  ghost predicate LocalAddress(kind: Kind, service: string, prefix: string, digits: string) {
    (prefix == "http://127.0.0.1:" || prefix == "http://localhost:") && service == prefix + digits
    && 2 <= |digits| <= 5 && AllDigits(digits)
    && Decimal(digits) <= 65535 && Decimal(digits) != 9193 && Decimal(digits) != 9194
    && (kind.Pageview? ==> Decimal(digits) > 0)
  }

  /** What a fallback must be; the one transformer lets port zero pass. */
  lemma FallbackIs(kind: Kind, rule: Value)
    ensures FallbackOk(kind, rule) <==>
              exists s, prefix, digits :: Get(rule, "service") == Some(Str(s))
                && LocalAddress(kind, s, prefix, digits)
  {
    hide AllDigits, Decimal, LocalPort;
    if FallbackOk(kind, rule) {
      var s := Get(rule, "service").value.text;
      var prefix, digits := PortHasPrefix(s);
      PortOf(prefix, digits);
      assert LocalAddress(kind, s, prefix, digits);
    } else {
      forall s, prefix, digits | LocalAddress(kind, s, prefix, digits)
        ensures Get(rule, "service") != Some(Str(s)) {
        PortOf(prefix, digits);
      }
    }
  }

  /** A host's fallback is never one of the two services that the entries lead to, under either name. */
  lemma FallbackIsNoEntry(kind: Kind, rule: Value, prefix: string, digits: string)
    requires FallbackOk(kind, rule)
    requires prefix == "http://127.0.0.1:" || prefix == "http://localhost:"
    requires digits == "9193" || digits == "9194"
    ensures Get(rule, "service") != Some(Str(prefix + digits))
  {
    BackendPorts(prefix, digits);
  }

  lemma BackendPorts(prefix: string, digits: string)
    requires prefix == "http://127.0.0.1:" || prefix == "http://localhost:"
    requires digits == "9193" || digits == "9194"
    ensures LocalPort(prefix + digits) == Some(if digits == "9193" then 9193 else 9194)
  {
    var s := prefix + digits;
    assert s[|prefix|..] == digits;
    assert "http://127.0.0.1:"[7] != "http://localhost:"[7];
    assert digits[..3] == "919" && digits[..3][..2] == "91" && digits[..3][..2][..1] == "9";
    assert Decimal("9") == 9;
    assert Decimal("91") == 91;
    assert Decimal("919") == 919;
  }

  // ---------------------------------------------------------------------------------------------
  // A router and a glob that meet the assumptions

  /** A name, `*`, or `*.` before a suffix. */
  predicate WildcardHost(pattern: string, host: string) {
    pattern == host || pattern == "*"
    || (2 <= |pattern| <= |host| && pattern[..2] == "*." && host[|host| - |pattern| + 1..] == pattern[1..])
  }

  /** Shell-style matching; what `[` introduces is left open. */
  predicate GlobMatches(text: string, pattern: string, bracket: Glob)
    decreases |pattern| + |text|
  {
    if pattern == "" then text == ""
    else if pattern[0] == '*' then
      GlobMatches(text, pattern[1..], bracket) || (text != "" && GlobMatches(text[1..], pattern, bracket))
    else if pattern[0] == '[' then bracket(text, pattern)
    else text != "" && (pattern[0] == '?' || pattern[0] == text[0]) && GlobMatches(text[1..], pattern[1..], bracket)
  }

  predicate Plain(s: string) {
    forall i :: 0 <= i < |s| ==> s[i] != '*' && s[i] != '['
  }

  lemma {:induction false} PlainMatchesItself(s: string, bracket: Glob)
    requires Plain(s)
    ensures GlobMatches(s, s, bracket)
    decreases |s|
  {
    if s != "" {
      PlainMatchesItself(s[1..], bracket);
    }
  }

  lemma {:induction false} StarMatchesSuffix(text: string, suffix: string, bracket: Glob)
    requires Plain(suffix) && |suffix| <= |text| && text[|text| - |suffix|..] == suffix
    ensures GlobMatches(text, "*" + suffix, bracket)
    decreases |text|
  {
    var pattern := "*" + suffix;
    assert pattern[1..] == suffix;
    if |text| == |suffix| {
      assert text == suffix;
      PlainMatchesItself(suffix, bracket);
    } else {
      assert text[1..][|text[1..]| - |suffix|..] == suffix;
      StarMatchesSuffix(text[1..], suffix, bracket);
    }
  }

  lemma PublicIsPlain(public: string)
    requires IsPublic(public)
    ensures public != "" && Plain(public) && public[0] != '*'
  {
  }

  lemma LiteralHost(public: string, host: string)
    requires public != "" && public[0] != '*'
    ensures WildcardHost(public, host) <==> host == public
  {
  }

  lemma WildcardIsCovered(pattern: string, public: string, bracket: Glob)
    requires Plain(public) && WildcardHost(pattern, public) && pattern != public
    ensures GlobMatches(public, pattern, bracket)
  {
    hide GlobMatches, WildcardHost, Plain;
    var n := WildcardSuffix(pattern, public);
    PlainSuffix(public, n);
    StarMatchesSuffix(public, public[n..], bracket);
  }

  /** A wildcard that matches is a star and an end of the name. */
  lemma WildcardSuffix(pattern: string, public: string) returns (n: nat)
    requires WildcardHost(pattern, public) && pattern != public
    ensures n <= |public| && pattern == "*" + public[n..]
  {
    if pattern == "*" {
      n := |public|;
      assert public[n..] == "";
    } else {
      n := |public| - |pattern| + 1;
      assert pattern == pattern[..1] + pattern[1..];
      assert pattern[..1] == pattern[..2][..1] == "*";
    }
  }

  lemma PlainSuffix(s: string, n: nat)
    requires Plain(s) && n <= |s|
    ensures Plain(s[n..])
  {
  }

  /** The assumptions hold of a wildcard router and the shell-style glob the transformers consult. */
  lemma WildcardRouterHonours(bracket: Glob, path: (Value, string) -> bool)
    requires Anchored(path)
    ensures Honours(Router(WildcardHost, path), (text, pattern) => GlobMatches(text, pattern, bracket))
  {
    hide GlobMatches, Plain, WildcardHost, IsPublic, Anchored;
    forall pattern, public | IsPublic(public) && WildcardHost(pattern, public) && pattern != public
      ensures GlobMatches(public, pattern, bracket)
    {
      PublicIsPlain(public);
      WildcardIsCovered(pattern, public, bracket);
    }
    forall h, public | IsPublic(public) ensures WildcardHost(public, h) <==> h == public {
      PublicIsPlain(public);
      LiteralHost(public, h);
    }
  }

  // ---------------------------------------------------------------------------------------------
  // An accepted config

  const APP := "http://127.0.0.1:8080"

  function AppRule(host: string): Value {
    Obj(map["hostname" := Str(host), "service" := Str(APP)])
  }

  const PLAIN := Obj(map["ingress" := Arr([AppRule(APEX), AppRule(WWW), NOT_FOUND])])

  lemma AppPort()
    ensures LocalPort(APP) == Some(8080)
  {
    var prefix := "http://127.0.0.1:";
    var digits := APP[|prefix|..];
    assert digits == "8080";
    assert digits[..3] == "808" && digits[..3][..2] == "80" && digits[..3][..2][..1] == "8";
    assert Decimal("8") == 8;
    assert Decimal("80") == 80;
    assert Decimal("808") == 808;
  }

  lemma AppRuleIs(kind: Kind, host: string)
    requires IsPublic(host)
    ensures IsFor(AppRule(host), host) && !HasPath(AppRule(host)) && FallbackOk(kind, AppRule(host))
    ensures forall other :: IsFor(AppRule(host), other) ==> other == host
  {
    hide LocalPort, APP;
    AppPort();
  }

  lemma AppRuleHostname(host: string, glob: Glob)
    requires IsPublic(host)
    ensures HostnameOk(AppRule(host), glob)
  {
    hide Canonical, APEX, WWW, APP;
    PublicNamesAreCanonical();
  }

  /** The table of two fallbacks is accepted by both transformers and lacks their entries. */
  lemma PlainIsAccepted(kind: Kind, glob: Glob)
    ensures Accepts(kind, PLAIN, glob) && !Installed(kind, PLAIN)
  {
    hide IsFor, HasPath, FallbackOk, HostnameOk, EntryFor, AppRule, Accepts;
    var t := [AppRule(APEX), AppRule(WWW), NOT_FOUND];
    var two := [AppRule(APEX), AppRule(WWW)];
    assert GlobalOk(PLAIN) && Table(PLAIN) == t && ShapeOk(t) by { PlainShape(); }
    assert t[..2] == two;
    AppRuleHostname(APEX, glob);
    AppRuleHostname(WWW, glob);
    PlainOnHost(kind, APEX, t);
    PlainOnHost(kind, WWW, t);
    AcceptedIs(kind, PLAIN, glob);
  }

  lemma PlainShape()
    ensures GlobalOk(PLAIN) && Table(PLAIN) == [AppRule(APEX), AppRule(WWW), NOT_FOUND]
    ensures ShapeOk([AppRule(APEX), AppRule(WWW), NOT_FOUND])
  {
    hide APEX, WWW, APP;
  }

  lemma PlainOnHost(kind: Kind, host: string, t: seq<Value>)
    requires IsPublic(host) && t == [AppRule(APEX), AppRule(WWW), NOT_FOUND]
    ensures HostState(kind, t, host) == Ok(false)
  {
    hide IsFor, HasPath, FallbackOk, HostnameOk, EntryFor, AppRule, OnHost, Bare, NOT_FOUND;
    AppRuleIs(kind, APEX);
    AppRuleIs(kind, WWW);
    NotFoundIsOpen();
    InsertedEmpty(kind);
    assert t == [] + [AppRule(APEX)] + [AppRule(WWW)] + [NOT_FOUND];
    OnHostAppend([], AppRule(APEX), host);
    OnHostAppend([] + [AppRule(APEX)], AppRule(WWW), host);
    OnHostAppend([] + [AppRule(APEX)] + [AppRule(WWW)], NOT_FOUND, host);
    assert OnHost(t, host) == [AppRule(host)] by { assert APEX != WWW by { assert APEX[0] != WWW[0]; } }
    BareOne(AppRule(host));
  }

  lemma BareOne(rule: Value)
    requires !HasPath(rule)
    ensures Bare([rule]) == [rule]
  {
    assert [rule][..0] == [];
    assert Bare([]) == [];
  }
}
