/** The report deployment against a provider that does what it is asked and shows what it has, and a
    network that may lose requests and replies. */
module ReportHonest {
  import opened Shapes
  import opened Journal
  import opened Report

  /** The version that serves, the deployment that made it so, and its share of the traffic. */
  datatype Live = Live(version: string, deployment: string, percent: int)

  /** What the provider has: the digest of everything unrelated, the namespaces it was provisioned with, the
      uploaded version of the reviewed source, the live one, and the routes. */
  datatype Site = Site(
    unrelated: string, namespaces: map<string, string>, uploaded: Option<string>, live: Option<Live>,
    routes: Routes)

  datatype Fate = Lost | ReplyLost | Delivered

  type Routes = seq<(string, string)>

  /** The reads that are answered, the order in which each lists the routes, the fates of the writes in their
      order, and the ids to be issued. */
  datatype Luck = Luck(
    answered: nat -> bool, listing: (nat, Routes) -> Routes, fates: nat -> Fate, version: string, deployment: string)

  /** A provisioned site without the worker; every read lists all routes it has and no others. */
  ghost predicate Ready(s: Site, l: Luck) {
    IsSha256(s.unrelated) && IsUuid(l.version) && IsUuid(l.deployment)
    && s.namespaces.Keys == {"REPORT_RATE", "REPORT_DUP"}
    && IsNamespace(s.namespaces["REPORT_RATE"]) && IsNamespace(s.namespaces["REPORT_DUP"])
    && s.namespaces["REPORT_RATE"] != s.namespaces["REPORT_DUP"]
    && s.uploaded.None? && s.live.None? && s.routes == []
    && forall n, routes :: multiset(l.listing(n, routes)) == multiset(routes)
  }

  function Snap(s: Site): Snapshot {
    var up, on := s.uploaded.Some?, s.uploaded.Some? && s.live.Some?;
    Snapshot(SCHEMA, TARGET, PROOFS, {}, up,
             if on then Some(s.live.value.version) else None, s.uploaded,
             if on then Some(s.live.value.deployment) else None, if on then Some(s.live.value.percent) else None,
             if on then Some(SOURCE_SHA256) else None, if up then Some(SOURCE_SHA256) else None,
             if up then KINDS else map[], if up then LIMITS else map[], if up then s.namespaces else map[],
             s.routes, s.unrelated)
  }

  /** What read number `n` shows. */
  function Shown(s: Site, l: Luck, n: nat): Snapshot {
    Snap(s).(routes := l.listing(n, s.routes))
  }

  /** A call that reaches the provider. Only a version it has can be deployed. */
  function Effect(s: Site, d: Dispatch, l: Luck): Site {
    match d
    case Read => s
    case Upload => s.(uploaded := Some(l.version))
    case Deploy(version, percent) =>
      if s.uploaded == Some(version) then s.(live := Some(Live(version, l.deployment, percent))) else s
    case AddRoute(route, worker) => s.(routes := s.routes + [(route, worker)])
  }

  /** The site after these calls: every write that was not lost has taken effect, in order. */
  function After(s: Site, calls: seq<Dispatch>, l: Luck): Site {
    if calls == [] then s
    else
      var front, last := calls[..|calls| - 1], calls[|calls| - 1];
      var before := After(s, front, l);
      if !last.Read? && l.fates(|Reservations(front)|).Lost? then before else Effect(before, last, l)
  }

  /** The place of read number `n` in the plan. */
  function ReadAt(n: nat): nat {
    if n < 2 then n else 2 * n - 1
  }

  /** What the adapter is told when it makes the calls of the plan, for as long as it does: each read shows
      the site after the calls before it, each delivered write is confirmed. */
  function Told(s: Site, l: Luck): Answers {
    Answers((n: nat) => if n < 8 && l.answered(n) && ReadAt(n) <= |Plan(l.version)| then
                          Replied(Some(Shown(After(s, Plan(l.version)[..ReadAt(n)], l), l, n)))
                        else Raised,
            if l.fates(0).Delivered? then Replied(Some(l.version)) else Raised,
            if l.fates(1).Delivered? then Replied(Some(l.deployment)) else Raised,
            (i: nat) => if i < |ROUTES| && l.fates(2 + i).Delivered? then Replied(Some((ROUTES[i], WORKER)))
                        else Raised)
  }

  // ---------------------------------------------------------------------------------------------
  // The site when the first writes have taken effect

  function Served(n: nat): Routes
    requires n <= |ROUTES|
  {
    seq(n, i requires 0 <= i < n => (ROUTES[i], WORKER))
  }

  /** The site with the first `k` of the six writes done. */
  function With(s: Site, l: Luck, k: nat): Site
    requires k <= 2 + |ROUTES|
  {
    s.(uploaded := if k >= 1 then Some(l.version) else None,
       live := if k >= 2 then Some(Live(l.version, l.deployment, 100)) else None,
       routes := if k >= 2 then Served(k - 2) else [])
  }

  lemma EffectStep(s: Site, l: Luck, n: nat)
    requires n < 14 && |ROUTES| == 4 && Dispatched(n + 1) <= 6
    ensures |Plan(l.version)| == 14
    ensures Effect(With(s, l, Dispatched(n)), Plan(l.version)[n], l) == With(s, l, Dispatched(n + 1))
    ensures Plan(l.version)[n].Read? <==> Dispatched(n + 1) == Dispatched(n)
    ensures Dispatched(n) <= Dispatched(n + 1) <= Dispatched(n) + 1
  {
    hide ROUTES, WORKER, Plan;
    EarlyCalls(l.version);
    PlanShape(l.version);
    if n >= 6 {
      var i := (n - 6) / 2;
      assert n == 6 + 2 * i || n == 7 + 2 * i;
      if n == 6 + 2 * i {
        assert Dispatched(n) == 2 + i && Dispatched(n + 1) == 3 + i;
        assert Served(i) + [(ROUTES[i], WORKER)] == Served(i + 1);
      }
    }
  }

  /** After `n` calls of the plan of which no write was lost. */
  lemma {:induction false} AfterPlan(s: Site, l: Luck, n: nat)
    requires Ready(s, l) && n <= 14 && forall k :: 0 <= k < Dispatched(n) ==> !l.fates(k).Lost?
    ensures |Plan(l.version)| == 14 && |ROUTES| == 4 && Dispatched(n) <= 6
    ensures After(s, Plan(l.version)[..n], l) == With(s, l, Dispatched(n))
  {
    hide ROUTES, WORKER, Plan, STEPS, Effect, Reservations;
    PlanShape(l.version);
    var p := Plan(l.version);
    PlanReserves(l.version, n);
    if n > 0 {
      PlanReserves(l.version, n - 1);
      EffectStep(s, l, n - 1);
      AfterPlan(s, l, n - 1);
      assert p[..n][..n - 1] == p[..n - 1];
    } else {
      assert s == With(s, l, 0);
    }
  }

  /** The last call's write may have been lost. */
  lemma AfterPlanButLast(s: Site, l: Luck, n: nat)
    requires Ready(s, l) && 1 <= n <= 14 && forall k :: 0 <= k < Dispatched(n) - 1 ==> !l.fates(k).Lost?
    requires Dispatched(n - 1) < Dispatched(n)
    ensures |Plan(l.version)| == 14 && |ROUTES| == 4 && Dispatched(n) <= 6
    ensures After(s, Plan(l.version)[..n], l)
         == With(s, l, if l.fates(Dispatched(n) - 1).Lost? then Dispatched(n) - 1 else Dispatched(n))
  {
    hide ROUTES, WORKER, Plan, STEPS, Effect, Reservations, With;
    PlanShape(l.version);
    PlanReserves(l.version, n);
    PlanReserves(l.version, n - 1);
    EffectStep(s, l, n - 1);
    AfterPlan(s, l, n - 1);
    assert Plan(l.version)[..n][..n - 1] == Plan(l.version)[..n - 1];
  }

  // ---------------------------------------------------------------------------------------------
  // What is seen of it

  lemma SourceIsSha256()
    ensures IsSha256(SOURCE_SHA256)
  {
    DigestOfParts("26d4e597d8c2c961", "c3a637957ea56665", "4c97c5657a4b2595", "129c410e9fae22a1");
  }

  lemma WithIsValid(s: Site, l: Luck, k: nat)
    requires Ready(s, l) && k <= 6 && |ROUTES| == 4
    ensures var v := Snap(With(s, l, k));
            v.unrelated == s.unrelated
            && (k == 0 ==> Valid(v, Absent, []))
            && (k == 1 ==> Valid(v, Uploaded, []) && v.latest == Some(l.version) && v.latestCode == Some(SOURCE_SHA256))
            && (k >= 2 ==> Valid(v, Active, ROUTES[..k - 2]) && v.active == Some(l.version)
                           && v.activeCode == Some(SOURCE_SHA256) && v.deployment == Some(l.deployment))
  {
    hide IsSha256, IsUuid, IsNamespace, SOURCE_SHA256, ROUTES, WORKER, KINDS, LIMITS, TARGET, PROOFS, SCHEMA;
    SourceIsSha256();
    assert k >= 2 ==> RoutesAre(Snap(With(s, l, k)), ROUTES[..k - 2]);
    assert k < 2 ==> RoutesAre(Snap(With(s, l, k)), []);
  }

  /** A read before which no write was lost sees the plan's state at that point. */
  lemma Seen(s: Site, l: Luck, n: nat)
    requires Ready(s, l) && n < 8 && l.answered(n)
    requires forall k :: 0 <= k < n - 1 ==> l.fates(k).Delivered?
    ensures |ROUTES| == 4
    ensures Told(s, l).views(n) == Replied(Some(Shown(With(s, l, if n < 2 then 0 else n - 1), l, n)))
  {
    hide ROUTES, Plan, With, Snap, After, Shown;
    assert Dispatched(ReadAt(n)) == if n < 2 then 0 else n - 1;
    PlanShape(l.version);
    AfterPlan(s, l, ReadAt(n));
  }

  predicate NothingLost(l: Luck) {
    (forall n :: 0 <= n < 8 ==> l.answered(n)) && forall k :: 0 <= k < 6 ==> l.fates(k).Delivered?
  }

  /** Every read that follows a route lists the routes in the order in which they were added. */
  predicate InOrder(l: Luck) {
    forall j :: 0 <= j <= |ROUTES| ==> l.listing(3 + j, Served(j)) == Served(j)
  }

  lemma NoRoutes(s: Site, l: Luck, n: nat)
    requires Ready(s, l)
    ensures l.listing(n, []) == []
  {
    assert multiset(l.listing(n, [])) == multiset([]);
    assert |l.listing(n, [])| == |multiset(l.listing(n, []))|;
  }

  lemma SeenInOrder(s: Site, l: Luck, n: nat)
    requires Ready(s, l) && n < 8 && NothingLost(l) && InOrder(l)
    ensures |ROUTES| == 4
    ensures Told(s, l).views(n) == Replied(Some(Snap(With(s, l, if n < 2 then 0 else n - 1))))
  {
    Seen(s, l, n);
    NoRoutes(s, l, n);
    hide ROUTES, Plan, After, Told, Ready, WORKER, Served;
    assert n >= 3 ==> l.listing(3 + (n - 3), Served(n - 3)) == Served(n - 3);
    NoneServed();
  }

  lemma NoneServed()
    ensures Served(0) == []
  {
  }

  lemma WritesConfirmed(s: Site, l: Luck)
    requires Ready(s, l) && NothingLost(l)
    ensures var a := Told(s, l);
            Version(a) == l.version && a.deploy == Replied(Some(l.deployment)) && |ROUTES| == 4
            && forall i :: 0 <= i < 4 ==> a.routes(i) == Replied(Some((ROUTES[i], WORKER)))
  {
    PlanShape("");
    hide Plan, Snap, After, ROUTES, WORKER, IsUuid;
  }

  lemma {:induction false} RoutesGood(s: Site, l: Luck, index: nat)
    requires Ready(s, l) && index <= 4 && NothingLost(l) && InOrder(l)
    ensures GoodRoutes(Told(s, l), s.unrelated, index) == 2 * (4 - index)
    decreases 4 - index
  {
    hide ROUTES, Plan, With, Snap, After, Valid, SOURCE_SHA256, Ready, GoodRoutes, Told, Version, WORKER, InOrder;
    PlanShape("");
    WritesConfirmed(s, l);
    RouteStep(Told(s, l), s.unrelated, if index < 4 then index else 3);
    if index < 4 {
      SeenInOrder(s, l, 4 + index);
      WithIsValid(s, l, 3 + index);
      RoutesGood(s, l, index + 1);
    }
  }

  lemma EarlyGood(s: Site, l: Luck)
    requires Ready(s, l) && NothingLost(l) && InOrder(l)
    ensures var a := Told(s, l);
            Sees(a, 0, Absent, []) && Sees(a, 1, Absent, []) && a.views(1) == a.views(0)
            && View(a, 0).unrelated == s.unrelated
            && GoodId(a.upload) && SeesUpload(a, s.unrelated) && GoodId(a.deploy) && SeesActive(a, s.unrelated, 0)
  {
    PlanShape("");
    ReadyIds(s, l);
    hide ROUTES, Plan, With, Snap, After, Valid, SOURCE_SHA256, Ready, IsUuid;
    SeenInOrder(s, l, 0);
    SeenInOrder(s, l, 1);
    SeenInOrder(s, l, 2);
    SeenInOrder(s, l, 3);
    WithIsValid(s, l, 0);
    WithIsValid(s, l, 1);
    WithIsValid(s, l, 2);
  }

  lemma ReadyIds(s: Site, l: Luck)
    requires Ready(s, l)
    ensures IsUuid(l.version) && IsUuid(l.deployment)
  {
  }

  // ---------------------------------------------------------------------------------------------
  // The run

  /** Each route whose answer was good was confirmed. */
  lemma {:induction false} RouteConfirmed(a: Answers, stable: string, index: nat, j: nat)
    requires index <= j < 4 && GoodRoutes(a, stable, index) > 2 * (j - index)
    ensures |ROUTES| == 4 && a.routes(j) == Replied(Some((ROUTES[j], WORKER)))
    decreases j - index
  {
    hide WORKER, SeesActive;
    if index < j {
      RouteConfirmed(a, stable, index + 1, j);
    }
  }

  /** As many answers as are good, so many writes were delivered. */
  lemma GoodIsDelivered(s: Site, l: Luck, k: nat)
    requires k < 6 && GoodAnswers(Told(s, l)) > 2 * k + 2
    ensures l.fates(k).Delivered?
  {
    hide ROUTES, Plan, Snap, After, Valid, SOURCE_SHA256, GoodRoutes, SeesActive, SeesUpload, WORKER, GoodAnswers;
    var a := Told(s, l);
    FirstBad(a);
    if k >= 2 {
      RouteConfirmed(a, View(a, 0).unrelated, 0, k - 2);
    }
  }

  /** The run finishes exactly when every read is answered, every write delivered, and the routes are listed
      in the order in which they were added: the checks compare lists. */
  lemma FinishesIffNothingLost(s: Site, l: Luck)
    requires Ready(s, l)
    ensures GoodAnswers(Told(s, l)) == 14 <==> NothingLost(l) && InOrder(l)
  {
    hide GoodAnswers, GoodRoutes, Told, Ready, SeesUpload, SeesActive, Sees, Valid, Served;
    PlanShape("");
    hide ROUTES;
    var a := Told(s, l);
    FirstBad(a);
    if NothingLost(l) && InOrder(l) {
      EarlyGood(s, l);
      RoutesGood(s, l, 0);
    }
    if GoodAnswers(a) == 14 {
      forall k | 0 <= k < 6 ensures l.fates(k).Delivered? {
        GoodIsDelivered(s, l, k);
      }
      forall n | 0 <= n < 8 ensures l.answered(n) {
        GoodIsAnswered(s, l, n);
      }
      forall j | 0 <= j <= |ROUTES| ensures l.listing(3 + j, Served(j)) == Served(j) {
        GoodIsInOrder(s, l, j);
      }
    }
  }

  lemma GoodIsInOrder(s: Site, l: Luck, j: nat)
    requires Ready(s, l) && NothingLost(l) && GoodAnswers(Told(s, l)) == 14 && |ROUTES| == 4 && j <= 4
    ensures l.listing(3 + j, Served(j)) == Served(j)
  {
    hide ROUTES, Plan, After, Valid, SOURCE_SHA256, GoodRoutes, WORKER, GoodAnswers, Told, Ready, SeesUpload, Snap;
    var a := Told(s, l);
    FirstBad(a);
    if j > 0 {
      AllRoutesSeen(a, View(a, 0).unrelated, 0, j - 1);
    }
    Seen(s, l, 3 + j);
    ListedInOrder(View(a, 3 + j), j);
  }

  lemma ListedInOrder(v: Snapshot, j: nat)
    requires j <= 4 == |ROUTES| && Valid(v, Active, ROUTES[..j])
    ensures v.routes == Served(j)
  {
    hide ROUTES, WORKER, Identified, BindingsOk;
  }

  lemma GoodIsAnswered(s: Site, l: Luck, n: nat)
    requires n < 8 && GoodAnswers(Told(s, l)) == 14
    ensures l.answered(n)
  {
    hide ROUTES, Plan, Snap, After, Valid, SOURCE_SHA256, GoodRoutes, WORKER, GoodAnswers;
    var a := Told(s, l);
    FirstBad(a);
    if n >= 4 {
      AllRoutesSeen(a, View(a, 0).unrelated, 0, n - 4);
    }
  }

  /** However a run ends, all its writes but the last have taken effect and been confirmed; the last one may
      have been lost. So a stopped run leaves the site at one of two known points. */
  lemma OnlyTheLastIsInDoubt(s: Site, l: Luck)
    requires Ready(s, l)
    ensures var calls := Calls(Version(Told(s, l)), GoodAnswers(Told(s, l)));
            var k := |Reservations(calls)|;
            k <= 6 && |ROUTES| == 4
            && (forall j: nat :: j + 1 < k ==> l.fates(j).Delivered?)
            && After(s, calls, l) == With(s, l, if k > 0 && l.fates(k - 1).Lost? then k - 1 else k)
  {
    hide ROUTES, Plan, With, Snap, After, Valid, SOURCE_SHA256, GoodRoutes, WORKER, GoodAnswers, Told, Ready, STEPS,
         Reservations;
    var a := Told(s, l);
    var good := GoodAnswers(a);
    var n := if good < 14 then good + 1 else 14;
    PlanEnds(Version(a));
    SamePlan(s, l, n);
    PlanReserves(l.version, n);
    var k := Dispatched(n);
    forall j: nat | j + 1 < k ensures l.fates(j).Delivered? {
      GoodIsDelivered(s, l, j);
    }
    if Dispatched(n - 1) < Dispatched(n) {
      AfterPlanButLast(s, l, n);
    } else {
      if k > 0 {
        assert good > 2 * (k - 1) + 2;
        GoodIsDelivered(s, l, k - 1);
      }
      AfterPlan(s, l, n);
    }
  }

  /** Up to the upload the plan does not depend on the version, and then the version is the one issued. */
  lemma SamePlan(s: Site, l: Luck, n: nat)
    requires 1 <= n <= 14 && n <= GoodAnswers(Told(s, l)) + 1
    ensures var v := Version(Told(s, l));
            |Plan(v)| == |Plan(l.version)| == 14 && Plan(v)[..n] == Plan(l.version)[..n]
  {
    hide ROUTES, Plan, Snap, After, Valid, SOURCE_SHA256, GoodRoutes, WORKER, GoodAnswers, Sees, SeesUpload, SeesActive;
    var v := Version(Told(s, l));
    FirstBad(Told(s, l));
    CallsAre(v);
    CallsAre(l.version);
    PlanShape(v);
    PlanShape(l.version);
    if n > 3 {
      assert v == l.version;
    } else {
      assert Plan(v)[..n] == Plan(v)[..3][..n] && Plan(l.version)[..n] == Plan(l.version)[..3][..n];
    }
  }
}
