/** The staged deployment of the report worker: upload, deploy, then four routes, with a verifying
    read after every write.  The adapter it talks to may answer anything. */
module Report {
  import opened Shapes
  import opened Journal
  import Ledger

  const WORKER := "coloring-pages-report-v1"
  const SOURCE_SHA256 :=
    "26d4e597d8c2c961" + "c3a637957ea56665" + "4c97c5657a4b2595" + "129c410e9fae22a1"
  const SCHEMA := "ausmalwiese.report-worker.sanitized-snapshot.v1"
  const TARGET: map<string, string> := map[
    "account_sha256" := "3239859bf3aeb05fe2ca1d41545615bf689801fa347de533cc2ece45ead98b34",
    "zone" := "ausmalwiese.de",
    "worker" := WORKER,
    "environment" := "production"
  ]
  const KINDS: map<string, string> := map[
    "TURNSTILE_SITE_KEY" := "plain_text",
    "TURNSTILE_SECRET" := "secret_text",
    "BREVO_API_KEY" := "secret_text",
    "REPORT_TO" := "secret_text",
    "REPORT_RATE" := "ratelimit",
    "REPORT_DUP" := "ratelimit"
  ]
  const LIMITS: map<string, (int, int)> := map["REPORT_RATE" := (12, 60), "REPORT_DUP" := (1, 60)]
  const PROOFS: set<string> := {
    "account_verified", "zone_verified", "operator_capability_verified", "turnstile_hostnames_verified",
    "brevo_account_eligibility_verified", "protected_binding_provisioner_ready", "privacy_review_completed",
    "unrelated_routes_inventory_verified"
  }

  /** A sanitized snapshot.  `proven` lists the proof flags that are true, `routes` keeps the order
      in which the provider lists them. */
  datatype Snapshot = Snapshot(
    schema: string, target: map<string, string>, proven: set<string>, refuted: set<string>,
    workerExists: bool, active: Option<string>, latest: Option<string>, deployment: Option<string>,
    traffic: Option<int>, activeCode: Option<string>, latestCode: Option<string>,
    kinds: map<string, string>, limits: map<string, (int, int)>, namespaces: map<string, string>,
    routes: seq<(string, string)>, unrelated: string)

  datatype Stage = Absent | Uploaded | Active

  predicate IsDigit(c: char) {
    '0' <= c <= '9'
  }

  /** `[1-9][0-9]{0,9}` and at most 4294967295; the last bound is compared digit by digit. */
  predicate IsNamespace(s: string) {
    1 <= |s| <= 10 && s[0] != '0' && (forall i :: 0 <= i < |s| ==> IsDigit(s[i]))
    && Decimal(s) <= 4294967295
  }

  function Decimal(s: string): nat
    requires forall i :: 0 <= i < |s| ==> IsDigit(s[i])
  {
    if s == "" then 0 else assert IsDigit(s[|s| - 1]); 10 * Decimal(s[..|s| - 1]) + (s[|s| - 1] as int - '0' as int)
  }

  predicate Holds<T>(o: Option<T>, p: T -> bool) {
    o.Some? && p(o.value)
  }

  predicate Identified(s: Snapshot) {
    s.schema == SCHEMA && s.target == TARGET && s.proven == PROOFS && s.refuted == {} && IsSha256(s.unrelated)
  }

  /** The report routes are exactly `expected`, in order, and all served by the worker. */
  predicate RoutesAre(s: Snapshot, expected: seq<string>) {
    |s.routes| == |expected|
    && forall i :: 0 <= i < |expected| ==> s.routes[i] == (expected[i], WORKER) && expected[i] in ROUTES
  }

  predicate BindingsOk(s: Snapshot) {
    s.kinds == KINDS && s.limits == LIMITS
    && s.namespaces.Keys == {"REPORT_RATE", "REPORT_DUP"}
    && IsNamespace(s.namespaces["REPORT_RATE"]) && IsNamespace(s.namespaces["REPORT_DUP"])
    && s.namespaces["REPORT_RATE"] != s.namespaces["REPORT_DUP"]
  }

  predicate Valid(s: Snapshot, stage: Stage, expected: seq<string>) {
    Identified(s) && RoutesAre(s, expected) && s.workerExists == !stage.Absent?
    && (match stage
        case Absent =>
          s.active.None? && s.latest.None? && s.deployment.None? && s.traffic.None? && s.activeCode.None?
          && s.latestCode.None? && s.kinds == map[] && s.limits == map[] && s.namespaces == map[] && expected == []
        case Uploaded =>
          Holds(s.latest, IsUuid) && Holds(s.latestCode, IsSha256) && BindingsOk(s)
          && s.active.None? && s.deployment.None? && s.traffic.None? && s.activeCode.None?
        case Active =>
          Holds(s.latest, IsUuid) && Holds(s.latestCode, IsSha256) && BindingsOk(s)
          && Holds(s.active, IsUuid) && Holds(s.deployment, IsUuid) && s.active == s.latest
          && s.traffic == Some(100) && Holds(s.activeCode, IsSha256) && s.activeCode == s.latestCode)
  }

  lemma ActiveIsLatest(s: Snapshot, expected: seq<string>)
    ensures Valid(s, Active, expected) ==> s.active == s.latest
  {
  }

  /** Everything the adapter will answer, call by call.  `None` is a reply of the wrong shape. */
  datatype Answers = Answers(
    views: nat -> Answer<Option<Snapshot>>, upload: Answer<Option<string>>, deploy: Answer<Option<string>>,
    routes: nat -> Answer<Option<(string, string)>>)

  datatype Dispatch = Read | Upload | Deploy(version: string, percent: int) | AddRoute(route: string, worker: string)

  class Adapter {
    const answers: Answers
    var viewed: nat
    var trace: seq<Dispatch>

    constructor (answers: Answers)
      ensures this.answers == answers && viewed == 0 && trace == []
    {
      this.answers := answers;
      viewed, trace := 0, [];
    }

    method ReadSanitized() returns (r: Answer<Option<Snapshot>>)
      modifies this
      ensures r == answers.views(old(viewed)) && viewed == old(viewed) + 1 && trace == old(trace) + [Read]
    {
      r := answers.views(viewed);
      viewed, trace := viewed + 1, trace + [Read];
    }

    method UploadOnce() returns (r: Answer<Option<string>>)
      modifies this
      ensures r == answers.upload && viewed == old(viewed) && trace == old(trace) + [Upload]
    {
      r := answers.upload;
      trace := trace + [Upload];
    }

    method DeployOnce(version: string, percent: int) returns (r: Answer<Option<string>>)
      modifies this
      ensures r == answers.deploy && viewed == old(viewed) && trace == old(trace) + [Deploy(version, percent)]
    {
      r := answers.deploy;
      trace := trace + [Deploy(version, percent)];
    }

    method AddRouteOnce(index: nat, route: string, worker: string) returns (r: Answer<Option<(string, string)>>)
      modifies this
      ensures r == answers.routes(index) && viewed == old(viewed) && trace == old(trace) + [AddRoute(route, worker)]
    {
      r := answers.routes(index);
      trace := trace + [AddRoute(route, worker)];
    }
  }

  // ---------------------------------------------------------------------------------------------
  // What a good answer to each call is

  predicate Sees(a: Answers, view: nat, stage: Stage, expected: seq<string>) {
    a.views(view).Replied? && a.views(view).value.Some? && Valid(a.views(view).value.value, stage, expected)
  }

  function View(a: Answers, view: nat): Snapshot
    requires a.views(view).Replied? && a.views(view).value.Some?
  {
    a.views(view).value.value
  }

  predicate GoodId(r: Answer<Option<string>>) {
    r.Replied? && Holds(r.value, IsUuid)
  }

  function Version(a: Answers): string {
    if GoodId(a.upload) then a.upload.value.value else ""
  }

  /** After the upload: the new version is there with the reviewed code, and nothing else changed. */
  predicate SeesUpload(a: Answers, stable: string) {
    Sees(a, 2, Uploaded, []) && View(a, 2).unrelated == stable
    && View(a, 2).latest == Some(Version(a)) && View(a, 2).latestCode == Some(SOURCE_SHA256)
  }

  /** After the deployment or route `routes - 1`: the new version is active under the deployment the
      provider named, serves exactly the first `routes` routes, and nothing else changed. */
  predicate SeesActive(a: Answers, stable: string, routes: nat)
    requires routes <= 4
  {
    Sees(a, 3 + routes, Active, ROUTES[..routes]) && View(a, 3 + routes).unrelated == stable
    && View(a, 3 + routes).active == Some(Version(a)) && View(a, 3 + routes).activeCode == Some(SOURCE_SHA256)
    && a.deploy.Replied? && View(a, 3 + routes).deployment == a.deploy.value
  }

  /** How many calls in a row, starting with the first route, are answered well. */
  function GoodRoutes(a: Answers, stable: string, index: nat): nat
    requires index <= 4
    decreases 4 - index
  {
    if index == 4 || a.routes(index) != Replied(Some((ROUTES[index], WORKER))) then 0
    else if !SeesActive(a, stable, index + 1) then 1
    else 2 + GoodRoutes(a, stable, index + 1)
  }

  /** How many of the fourteen calls are answered well before the first that is not. */
  function GoodAnswers(a: Answers): nat {
    if !Sees(a, 0, Absent, []) then 0
    else if !Sees(a, 1, Absent, []) || a.views(1) != a.views(0) then 1
    else if !GoodId(a.upload) then 2
    else if !SeesUpload(a, View(a, 0).unrelated) then 3
    else if !GoodId(a.deploy) then 4
    else if !SeesActive(a, View(a, 0).unrelated, 0) then 5
    else 6 + GoodRoutes(a, View(a, 0).unrelated, 0)
  }

  /** The only order in which calls are ever made. */
  function Plan(version: string): seq<Dispatch> {
    [Read, Read, Upload, Read, Deploy(version, 100), Read,
     AddRoute(ROUTES[0], WORKER), Read, AddRoute(ROUTES[1], WORKER), Read,
     AddRoute(ROUTES[2], WORKER), Read, AddRoute(ROUTES[3], WORKER), Read]
  }

  /** The calls of a run whose answers are good `good` times in a row: one more than that. */
  function Calls(version: string, good: nat): seq<Dispatch> {
    if good < 14 then Plan(version)[..good + 1] else Plan(version)
  }

  lemma PlanShape(version: string)
    ensures |Plan(version)| == 14 && |ROUTES| == 4
    ensures Plan(version)[..1] == [Read] && Plan(version)[..2] == [Read, Read]
    ensures Plan(version)[..3] == [Read, Read, Upload] && Plan(version)[..4] == [Read, Read, Upload, Read]
    ensures Plan(version)[..5] == [Read, Read, Upload, Read, Deploy(version, 100)]
    ensures Plan(version)[..6] == [Read, Read, Upload, Read, Deploy(version, 100), Read]
    ensures forall i :: 0 <= i < 4 ==>
              Plan(version)[6 + 2 * i] == AddRoute(ROUTES[i], WORKER) && Plan(version)[7 + 2 * i] == Read
  {
  }

  lemma PlanNext(version: string, n: nat)
    requires n < 14
    ensures |Plan(version)| == 14 && Plan(version)[..n + 1] == Plan(version)[..n] + [Plan(version)[n]]
  {
  }

  /** One route: its reply and the read after it decide whether the loop goes on. */
  lemma RouteStep(a: Answers, stable: string, index: nat)
    requires index < 4
    ensures |ROUTES| == 4
    ensures var replied := a.routes(index) == Replied(Some((ROUTES[index], WORKER)));
            GoodRoutes(a, stable, index)
            == if !replied then 0
               else if !SeesActive(a, stable, index + 1) then 1
               else 2 + GoodRoutes(a, stable, index + 1)
    ensures GoodRoutes(a, stable, 4) == 0
  {
    hide SeesActive, WORKER;
  }

  /** The call that comes after `6 + n` calls of the plan. */
  lemma CallsInRoutes(version: string, n: nat)
    requires n < 8
    ensures |Plan(version)| == 14 && Calls(version, 6 + n) == Plan(version)[..6 + n] + [Plan(version)[6 + n]]
    ensures Plan(version)[..7 + n] == Plan(version)[..6 + n] + [Plan(version)[6 + n]]
    ensures Calls(version, 14) == Plan(version)
  {
    PlanNext(version, 6 + n);
    hide Plan;
  }

  /** Which stop codes tell that call number `good` was not answered well. */
  predicate Tells(code: string, good: nat) {
    if good == 0 then code == "PREFLIGHT_UNAVAILABLE_STOP"
    else if good == 1 then code == "PREFLIGHT_UNAVAILABLE_STOP" || code == "PREFLIGHT_DRIFT_STOP"
    else if good == 2 then
      code == "UPLOAD_OUTCOME_UNKNOWN_STOP" || code == "UPLOAD_REPLY_AMBIGUOUS_STOP"
      || code == "UPLOAD_VERSION_INVALID_STOP"
    else if good == 3 then code == "POST_UPLOAD_UNVERIFIED_STOP"
    else if good == 4 then
      code == "DEPLOY_OUTCOME_UNKNOWN_STOP" || code == "DEPLOY_REPLY_AMBIGUOUS_STOP" || code == "DEPLOY_ID_INVALID_STOP"
    else if good == 5 then code == "POST_DEPLOY_UNVERIFIED_STOP"
    else if good % 2 == 0 then code == "ROUTE_OUTCOME_UNKNOWN_STOP" || code == "ROUTE_REPLY_AMBIGUOUS_STOP"
    else code == "POST_ROUTE_UNVERIFIED_STOP"
  }

  lemma CodesTell(index: nat)
    ensures Tells("PREFLIGHT_UNAVAILABLE_STOP", 0) && Tells("PREFLIGHT_UNAVAILABLE_STOP", 1)
    ensures Tells("PREFLIGHT_DRIFT_STOP", 1)
    ensures Tells("UPLOAD_OUTCOME_UNKNOWN_STOP", 2) && Tells("UPLOAD_REPLY_AMBIGUOUS_STOP", 2)
    ensures Tells("UPLOAD_VERSION_INVALID_STOP", 2) && Tells("POST_UPLOAD_UNVERIFIED_STOP", 3)
    ensures Tells("DEPLOY_OUTCOME_UNKNOWN_STOP", 4) && Tells("DEPLOY_REPLY_AMBIGUOUS_STOP", 4)
    ensures Tells("DEPLOY_ID_INVALID_STOP", 4) && Tells("POST_DEPLOY_UNVERIFIED_STOP", 5)
    ensures Tells("ROUTE_OUTCOME_UNKNOWN_STOP", 6 + 2 * index) && Tells("ROUTE_REPLY_AMBIGUOUS_STOP", 6 + 2 * index)
    ensures Tells("POST_ROUTE_UNVERIFIED_STOP", 7 + 2 * index)
  {
  }

  lemma SeesActiveIs(a: Answers, stable: string, routes: nat, version: string, deployment: string)
    requires routes <= 4 == |ROUTES| && version == Version(a) && a.deploy == Replied(Some(deployment))
    ensures SeesActive(a, stable, routes) <==>
              var state := a.views(3 + routes);
              state.Replied? && state.value.Some? && Valid(state.value.value, Active, ROUTES[..routes])
              && state.value.value.active == Some(version) && state.value.value.deployment == Some(deployment)
              && state.value.value.activeCode == Some(SOURCE_SHA256) && state.value.value.unrelated == stable
  {
    hide Valid, ROUTES, SOURCE_SHA256;
  }

  /** The four routes, one at a time. */
  method AddRoutes(trusted: Adapter, version: string, deployment: string, stable: string) returns (r: Result<string>)
    requires trusted.trace == Plan(version)[..6] && trusted.viewed == 4
    requires version == Version(trusted.answers) && trusted.answers.deploy == Replied(Some(deployment))
    modifies trusted
    ensures trusted.trace == Calls(version, 6 + GoodRoutes(trusted.answers, stable, 0))
    ensures r.Ok? <==> GoodRoutes(trusted.answers, stable, 0) == 8
    ensures r.Ok? ==> r.value == SOURCE_SHA256
    ensures r.Stop? ==> Tells(r.code, 6 + GoodRoutes(trusted.answers, stable, 0))
  {
    hide Tells, Valid, Plan, Calls, GoodRoutes, ROUTES, SOURCE_SHA256, WORKER, Version, SeesActive;
    ghost var a := trusted.answers;
    PlanShape(version);
    RouteStep(a, stable, 0);
    for index := 0 to |ROUTES|
      invariant trusted.trace == Plan(version)[..6 + 2 * index] && trusted.viewed == 4 + index
      invariant GoodRoutes(a, stable, 0) == 2 * index + GoodRoutes(a, stable, index)
    {
      var route := ROUTES[index];
      RouteStep(a, stable, index);
      CodesTell(index);
      SeesActiveIs(a, stable, index + 1, version, deployment);
      CallsInRoutes(version, 2 * index);
      CallsInRoutes(version, 2 * index + 1);
      var routeReply := trusted.AddRouteOnce(index, route, WORKER);
      if routeReply.Raised? {
        return Stop("ROUTE_OUTCOME_UNKNOWN_STOP");
      }
      if routeReply.value != Some((route, WORKER)) {
        return Stop("ROUTE_REPLY_AMBIGUOUS_STOP");
      }
      var state := trusted.ReadSanitized();
      if state.Raised? || state.value.None? || !Valid(state.value.value, Active, ROUTES[..index + 1])
         || state.value.value.active != Some(version)
         || state.value.value.deployment != Some(deployment)
         || state.value.value.activeCode != Some(SOURCE_SHA256)
         || state.value.value.unrelated != stable {
        return Stop("POST_ROUTE_UNVERIFIED_STOP");
      }
    }
    PlanEnds(version);
    return Ok(SOURCE_SHA256);
  }

  lemma PlanEnds(version: string)
    ensures |Plan(version)| == 14 && Plan(version)[..14] == Plan(version) == Calls(version, 14)
  {
  }

  /** The calls up to the deployment's read, by the number of good answers. */
  lemma CallsAre(version: string)
    ensures Calls(version, 0) == [Read] && Calls(version, 1) == [Read, Read]
    ensures Calls(version, 2) == [Read, Read, Upload] && Calls(version, 3) == [Read, Read, Upload, Read]
    ensures Calls(version, 4) == [Read, Read, Upload, Read, Deploy(version, 100)]
    ensures Calls(version, 5) == [Read, Read, Upload, Read, Deploy(version, 100), Read] == Plan(version)[..6]
  {
    hide Plan;
    PlanShape(version);
  }

  /** The first answer that is not good decides. */
  lemma FirstBad(a: Answers)
    ensures !Sees(a, 0, Absent, []) ==> GoodAnswers(a) == 0
    ensures Sees(a, 0, Absent, []) && (!Sees(a, 1, Absent, []) || a.views(1) != a.views(0)) ==> GoodAnswers(a) == 1
    ensures var ready := Sees(a, 0, Absent, []) && Sees(a, 1, Absent, []) && a.views(1) == a.views(0);
            (ready && !GoodId(a.upload) ==> GoodAnswers(a) == 2)
            && (ready && GoodId(a.upload) ==>
                  (!SeesUpload(a, View(a, 0).unrelated) ==> GoodAnswers(a) == 3)
                  && (SeesUpload(a, View(a, 0).unrelated) ==>
                        (!GoodId(a.deploy) ==> GoodAnswers(a) == 4)
                        && (GoodId(a.deploy) ==>
                              GoodAnswers(a) == if !SeesActive(a, View(a, 0).unrelated, 0) then 5
                                                else 6 + GoodRoutes(a, View(a, 0).unrelated, 0))))
  {
    hide Sees, SeesUpload, SeesActive, GoodRoutes, GoodId;
  }

  /** Calls follow the plan, each made only when all earlier answers were good, and stop right after
      the first bad answer; without approval nothing is called. */
  method FutureProtocol(trusted: Adapter, approved: bool, sourceOk: bool) returns (r: Result<string>)
    requires trusted.trace == [] && trusted.viewed == 0
    modifies trusted
    ensures approved && sourceOk ==>
              trusted.trace == Calls(Version(trusted.answers), GoodAnswers(trusted.answers))
    ensures !(approved && sourceOk) ==> trusted.trace == []
    ensures r.Ok? <==> approved && sourceOk && GoodAnswers(trusted.answers) == 14
    ensures r.Ok? ==> r.value == SOURCE_SHA256
    ensures r.Stop? ==>
              if !approved then r.code == "OWNER_ENVELOPE_NOT_FROZEN"
              else if !sourceOk then r.code == "SOURCE_BYTES_DRIFT"
              else Tells(r.code, GoodAnswers(trusted.answers))
  {
    hide Tells, Valid, Plan, GoodRoutes, IsUuid, IsSha256, ROUTES, SOURCE_SHA256, WORKER, GoodAnswers, Calls;
    if !approved {
      return Stop("OWNER_ENVELOPE_NOT_FROZEN");
    }
    if !sourceOk {
      return Stop("SOURCE_BYTES_DRIFT");
    }
    CodesTell(0);
    CallsAre(Version(trusted.answers));
    FirstBad(trusted.answers);
    var before := trusted.ReadSanitized();
    if before.Raised? || before.value.None? || !Valid(before.value.value, Absent, []) {
      return Stop("PREFLIGHT_UNAVAILABLE_STOP");
    }
    var again := trusted.ReadSanitized();
    if again.Raised? || again.value.None? || !Valid(again.value.value, Absent, []) {
      return Stop("PREFLIGHT_UNAVAILABLE_STOP");
    }
    if before.value != again.value {
      return Stop("PREFLIGHT_DRIFT_STOP");
    }
    var stable := before.value.value.unrelated;

    var reply := trusted.UploadOnce();
    if reply.Raised? {
      return Stop("UPLOAD_OUTCOME_UNKNOWN_STOP");
    }
    if reply.value.None? {
      return Stop("UPLOAD_REPLY_AMBIGUOUS_STOP");
    }
    var version := reply.value.value;
    if !IsUuid(version) {
      return Stop("UPLOAD_VERSION_INVALID_STOP");
    }
    var staged := trusted.ReadSanitized();
    if staged.Raised? || staged.value.None? || !Valid(staged.value.value, Uploaded, [])
       || staged.value.value.latest != Some(version)
       || staged.value.value.latestCode != Some(SOURCE_SHA256)
       || staged.value.value.unrelated != stable {
      return Stop("POST_UPLOAD_UNVERIFIED_STOP");
    }

    var deployReply := trusted.DeployOnce(version, 100);
    if deployReply.Raised? {
      return Stop("DEPLOY_OUTCOME_UNKNOWN_STOP");
    }
    if deployReply.value.None? {
      return Stop("DEPLOY_REPLY_AMBIGUOUS_STOP");
    }
    var deployment := deployReply.value.value;
    if !IsUuid(deployment) {
      return Stop("DEPLOY_ID_INVALID_STOP");
    }
    var deployed := trusted.ReadSanitized();
    if deployed.Replied? && deployed.value.Some? {
      ActiveIsLatest(deployed.value.value, []);
    }
    assert ROUTES[..0] == [];
    if deployed.Raised? || deployed.value.None? || !Valid(deployed.value.value, Active, [])
       || deployed.value.value.latest != Some(version)
       || deployed.value.value.activeCode != Some(SOURCE_SHA256)
       || deployed.value.value.deployment != Some(deployment)
       || deployed.value.value.unrelated != stable {
      return Stop("POST_DEPLOY_UNVERIFIED_STOP");
    }
    r := AddRoutes(trusted, version, deployment, stable);
  }

  // ---------------------------------------------------------------------------------------------
  // The protocol as a client of the journal

  /** The name under which the journal and the ledger reserve a call, if it is a write. */
  function Reserved(d: Dispatch): seq<string> {
    match d
    case Read => []
    case Upload => [Ledger.RequestTarget("upload", None)]
    case Deploy(_, _) => [Ledger.RequestTarget("deploy", None)]
    case AddRoute(route, _) => [Ledger.RequestTarget("add_route", Some(route))]
  }

  function Reservations(trace: seq<Dispatch>): seq<string>
    decreases |trace|
  {
    if trace == [] then [] else Reserved(trace[0]) + Reservations(trace[1..])
  }

  lemma {:induction false} ReservationsAppend(s: seq<Dispatch>, d: Dispatch)
    ensures Reservations(s + [d]) == Reservations(s) + Reserved(d)
    decreases |s|
  {
    hide Reserved;
    if s == [] {
      assert s + [d] == [d] && [d][1..] == [];
    } else {
      assert (s + [d])[1..] == s[1..] + [d];
      ReservationsAppend(s[1..], d);
    }
  }

  /** How many steps a run of `n` calls has dispatched. */
  function Dispatched(n: nat): nat {
    if n < 3 then 0 else if n < 5 then 1 else n / 2 - 1 + n % 2
  }

  lemma StepNames()
    ensures |STEPS| == 6 && STEPS[0] == "upload" && STEPS[1] == "deploy" && |ROUTES| == 4
    ensures forall i :: 0 <= i < 4 ==> STEPS[2 + i] == "route:" + ROUTES[i]
  {
  }

  lemma EarlyCalls(version: string)
    ensures var p := Plan(version);
            |p| == 14 && p[0] == Read && p[1] == Read && p[2] == Upload && p[3] == Read && p[4] == Deploy(version, 100)
            && p[5] == Read
  {
  }

  /** What call number `n` of the plan reserves. */
  lemma PlanCall(version: string, n: nat)
    requires n < 14
    ensures |Plan(version)| == 14 && Dispatched(n) <= Dispatched(n + 1) <= 6 == |STEPS|
    ensures Reserved(Plan(version)[n]) == STEPS[Dispatched(n)..Dispatched(n + 1)]
  {
    hide ROUTES, STEPS, WORKER, Plan;
    StepNames();
    EarlyCalls(version);
    PlanShape(version);
    if n >= 6 {
      var i := (n - 6) / 2;
      assert n == 6 + 2 * i || n == 7 + 2 * i;
      assert n == 6 + 2 * i ==> Dispatched(n) == 2 + i && Dispatched(n + 1) == 3 + i;
    }
  }

  lemma {:induction false} PlanReserves(version: string, n: nat)
    requires n <= 14
    ensures Dispatched(n) <= 6 == |STEPS| && Reservations(Plan(version)[..n]) == STEPS[..Dispatched(n)]
  {
    hide ROUTES, WORKER, STEPS, Plan, Reservations, Reserved;
    if n == 0 {
      NoneReserved(version);
    } else {
      var p := Plan(version);
      PlanCall(version, n - 1);
      PlanReserves(version, n - 1);
      ReservationsAppend(p[..n - 1], p[n - 1]);
      assert p[..n] == p[..n - 1] + [p[n - 1]];
    }
  }

  lemma NoneReserved(version: string)
    ensures |Plan(version)| == 14 && Plan(version)[..0] == [] && Reservations([]) == [] && |STEPS| == 6
  {
    StepNames();
    hide STEPS, ROUTES;
  }

  /** Whatever the adapter answers, the writes of a run are a prefix of the fixed step order, so the
      ledger accepts every one of them; all six are dispatched exactly when the last route was tried. */
  lemma WritesAreReservable(a: Answers)
    ensures var writes := Reservations(Calls(Version(a), GoodAnswers(a)));
            writes <= STEPS
            && (forall b :: b in Ledger.LedgerAnswers(Ledger.FRESH, writes) ==> b)
            && (writes == STEPS <==> GoodAnswers(a) >= 12)
  {
    hide ROUTES, STEPS, GoodAnswers;
    var good := GoodAnswers(a);
    var n := if good < 14 then good + 1 else 14;
    PlanReserves(Version(a), n);
    assert Plan(Version(a))[..14] == Plan(Version(a));
    Ledger.PrefixAccepted(Ledger.FRESH, 0, Dispatched(n));
    assert STEPS[0..Dispatched(n)] == STEPS[..Dispatched(n)];
  }

  lemma {:induction false} AllRoutesSeen(a: Answers, stable: string, index: nat, j: nat)
    requires index <= j < 4 && GoodRoutes(a, stable, index) == 2 * (4 - index)
    ensures SeesActive(a, stable, j + 1)
    decreases j - index
  {
    GoodRoutesBound(a, stable, index + 1);
    if index < j {
      AllRoutesSeen(a, stable, index + 1, j);
    }
  }

  lemma {:induction false} GoodRoutesBound(a: Answers, stable: string, index: nat)
    requires index <= 4
    ensures GoodRoutes(a, stable, index) <= 2 * (4 - index)
    decreases 4 - index
  {
    if index < 4 {
      GoodRoutesBound(a, stable, index + 1);
    }
  }

  /** A finished run has watched the routes appear one at a time, in order, under one version and one
      deployment, while everything else stayed as it was first read. */
  lemma FinishedRunSawEachRoute(a: Answers, j: nat)
    requires j < 4 && GoodAnswers(a) == 14
    ensures Sees(a, 0, Absent, []) && Sees(a, 3 + j, Active, ROUTES[..j]) && Sees(a, 4 + j, Active, ROUTES[..j + 1])
    ensures View(a, 4 + j).routes == View(a, 3 + j).routes + [(ROUTES[j], WORKER)]
    ensures View(a, 4 + j).unrelated == View(a, 0).unrelated
    ensures a.upload.Replied? && a.deploy.Replied?
    ensures View(a, 4 + j).active == a.upload.value && View(a, 4 + j).deployment == a.deploy.value
  {
    hide BindingsOk, Identified;
    var stable := View(a, 0).unrelated;
    AllRoutesSeen(a, stable, 0, j);
    if j > 0 {
      AllRoutesSeen(a, stable, 0, j - 1);
    }
  }

  /** A number without leading zeros that a 32 bit counter can hold. */
  ghost predicate IsId(n: string) {
    1 <= |n| <= 10 && n[0] != '0' && (forall i :: 0 <= i < |n| ==> '0' <= n[i] <= '9') && Decimal(n) <= 4294967295
  }

  lemma IdsAre(n: string)
    ensures IsNamespace(n) <==> IsId(n)
  {
    hide Decimal;
  }

  /** What the worker's bindings are in every read of a finished run but the first two. */
  ghost predicate Bound(s: Snapshot) {
    s.kinds == map["TURNSTILE_SITE_KEY" := "plain_text", "TURNSTILE_SECRET" := "secret_text",
                   "BREVO_API_KEY" := "secret_text", "REPORT_TO" := "secret_text",
                   "REPORT_RATE" := "ratelimit", "REPORT_DUP" := "ratelimit"]
    && s.limits == map["REPORT_RATE" := (12, 60), "REPORT_DUP" := (1, 60)]
    && s.namespaces.Keys == {"REPORT_RATE", "REPORT_DUP"}
    && IsId(s.namespaces["REPORT_RATE"]) && IsId(s.namespaces["REPORT_DUP"])
    && s.namespaces["REPORT_RATE"] != s.namespaces["REPORT_DUP"]
  }

  lemma BindingsAre(s: Snapshot)
    ensures BindingsOk(s) <==> Bound(s)
  {
    hide IsNamespace, IsId;
    forall n ensures IsNamespace(n) <==> IsId(n) {
      IdsAre(n);
    }
  }

  const ACCOUNT_SHA256 := "3239859bf3aeb05fe2ca1d41545615bf689801fa347de533cc2ece45ead98b34"

  /** What every read of a finished run shows: the reviewed target with all eight proofs and no other. */
  ghost predicate Targeted(s: Snapshot) {
    s.schema == "ausmalwiese.report-worker.sanitized-snapshot.v1"
    && s.target == map["account_sha256" := ACCOUNT_SHA256, "zone" := "ausmalwiese.de",
                       "worker" := "coloring-pages-report-v1", "environment" := "production"]
    && s.proven == {"account_verified", "zone_verified", "operator_capability_verified",
                    "turnstile_hostnames_verified", "brevo_account_eligibility_verified",
                    "protected_binding_provisioner_ready", "privacy_review_completed",
                    "unrelated_routes_inventory_verified"}
    && s.refuted == {}
  }

  lemma IdentifiedMeans(s: Snapshot)
    ensures Identified(s) <==> Targeted(s) && IsSha256(s.unrelated)
  {
    hide IsSha256;
  }

  /** Read number `view` was answered. */
  predicate Shown(a: Answers, view: nat) {
    a.views(view).Replied? && a.views(view).value.Some?
  }

  /** No worker at all. */
  ghost predicate Nothing(s: Snapshot) {
    Targeted(s)
    && s == Snapshot(s.schema, s.target, s.proven, s.refuted, false, None, None, None, None, None, None,
                     map[], map[], map[], [], s.unrelated)
  }

  /** The version uploaded, with the reviewed code, and not active. */
  ghost predicate OnlyUploaded(s: Snapshot, before: Snapshot, version: Option<string>) {
    Targeted(s) && Bound(s) && version.Some?
    && s == before.(workerExists := true, latest := version, latestCode := Some(SOURCE_SHA256),
                    kinds := s.kinds, limits := s.limits, namespaces := s.namespaces)
  }

  /** All the traffic on that version, under that deployment, for the first `n` routes in order. */
  ghost predicate Serving(s: Snapshot, before: Snapshot, version: Option<string>, deployment: Option<string>, n: nat)
    requires n <= 4
  {
    Targeted(s) && Bound(s) && version.Some? && deployment.Some?
    && s == before.(workerExists := true, latest := version, latestCode := Some(SOURCE_SHA256),
                    active := version, activeCode := Some(SOURCE_SHA256), traffic := Some(100),
                    deployment := deployment, routes := s.routes,
                    kinds := s.kinds, limits := s.limits, namespaces := s.namespaces)
    && |s.routes| == n && forall i :: 0 <= i < n ==> s.routes[i] == (ROUTES[i], WORKER)
  }

  /** What a finished run saw before its deployment. */
  lemma FinishedRunBefore(a: Answers)
    requires GoodAnswers(a) == 14
    ensures a.views(0) == a.views(1) && Shown(a, 0) && Shown(a, 2) && a.upload.Replied?
    ensures Nothing(View(a, 0)) && OnlyUploaded(View(a, 2), View(a, 0), a.upload.value)
  {
    hide ROUTES, SOURCE_SHA256, BindingsOk, IsUuid, IsSha256, Bound, GoodRoutes, SeesActive, Identified, Targeted;
    BindingsAre(View(a, 2));
    IdentifiedMeans(View(a, 0));
    IdentifiedMeans(View(a, 2));
    hide TARGET, PROOFS, SCHEMA, KINDS, LIMITS;
    ValidTarget(View(a, 0), Absent, [], View(a, 2), Uploaded, []);
  }

  /** Everything a read is compared with is the same in any two of them. */
  lemma ValidTarget(s: Snapshot, stage: Stage, routes: seq<string>, t: Snapshot, later: Stage, more: seq<string>)
    requires Valid(s, stage, routes) && Valid(t, later, more)
    ensures s.schema == t.schema && s.target == t.target && s.proven == t.proven && s.refuted == t.refuted
    ensures routes == [] ==> s.routes == []
    ensures more == [] ==> t.routes == []
  {
    hide TARGET, PROOFS, SCHEMA, KINDS, LIMITS, ROUTES, BindingsOk, IsUuid, IsSha256, WORKER;
  }

  lemma ActiveFields(s: Snapshot, n: nat)
    requires n <= 4 == |ROUTES| && Valid(s, Active, ROUTES[..n])
    ensures s.traffic == Some(100) && s.active == s.latest && s.activeCode == s.latestCode && s.workerExists
    ensures |s.routes| == n && forall i :: 0 <= i < n ==> s.routes[i] == (ROUTES[i], WORKER)
    ensures BindingsOk(s) && Identified(s)
  {
    hide ROUTES, SOURCE_SHA256, BindingsOk, IsUuid, IsSha256, Identified, WORKER, SCHEMA;
  }

  /** From the deployment on all the traffic is on the version that was uploaded, which is the latest, with
      the reviewed code, under the deployment the provider named, serving the first `n` routes; whatever
      else is there is as it was first read. */
  lemma FinishedRunAfter(a: Answers, n: nat)
    requires n <= 4 && GoodAnswers(a) == 14
    ensures Shown(a, 0) && Shown(a, 3 + n) && a.upload.Replied? && a.deploy.Replied?
    ensures Serving(View(a, 3 + n), View(a, 0), a.upload.value, a.deploy.value, n)
  {
    hide ROUTES, SOURCE_SHA256, BindingsOk, IsUuid, IsSha256, Bound, GoodRoutes, Identified, Targeted, WORKER, Valid,
         Plan;
    var stable := View(a, 0).unrelated;
    if n > 0 {
      AllRoutesSeen(a, stable, 0, n - 1);
    }
    var s := View(a, 3 + n);
    PlanShape("");
    assert SeesActive(a, stable, n);
    ActiveFields(s, n);
    BindingsAre(s);
    IdentifiedMeans(s);
    AbsentFields(View(a, 0));
    ValidTarget(View(a, 0), Absent, [], s, Active, ROUTES[..n]);
  }

  lemma AbsentFields(s: Snapshot)
    ensures Valid(s, Absent, []) ==>
              s == s.(workerExists := false, active := None, latest := None, deployment := None, traffic := None,
                      activeCode := None, latestCode := None, kinds := map[], limits := map[], namespaces := map[],
                      routes := [])
  {
    hide TARGET, PROOFS, SCHEMA, KINDS, LIMITS, ROUTES;
  }

  /** From one read to the next only the one route is added, as far as anything is compared: the namespace
      ids are checked in every read and compared in none. */
  lemma OnlyTheRouteIsAdded(a: Answers, n: nat)
    requires n < 4 && GoodAnswers(a) == 14
    ensures Shown(a, 3 + n) && Shown(a, 4 + n) && |ROUTES| == 4
    ensures View(a, 4 + n) == View(a, 3 + n).(routes := View(a, 3 + n).routes + [(ROUTES[n], WORKER)])
            <==> View(a, 4 + n).namespaces == View(a, 3 + n).namespaces
  {
    hide ROUTES, SOURCE_SHA256, GoodAnswers, WORKER, IsId, ACCOUNT_SHA256;
    PlanShape("");
    FinishedRunAfter(a, n);
    FinishedRunAfter(a, n + 1);
  }

  function WithNamespaces(a: Answers, view: nat, ids: map<string, string>): Answers
    requires Shown(a, view)
  {
    a.(views := (i: nat) =>
         if i == view then Replied(Some(View(a, view).(namespaces := ids))) else a.views(i))
  }

  predicate GoodIds(a: Answers, view: nat, ids: map<string, string>)
    requires Shown(a, view)
  {
    BindingsOk(View(a, view).(namespaces := ids))
  }

  lemma SeesIgnoresIds(a: Answers, view: nat, ids: map<string, string>, stable: string, index: nat)
    requires 3 <= view && Shown(a, view) && index <= 4 == |ROUTES|
    requires BindingsOk(View(a, view)) && BindingsOk(View(a, view).(namespaces := ids))
    ensures SeesActive(WithNamespaces(a, view, ids), stable, index) <==> SeesActive(a, stable, index)
  {
    hide ROUTES, SOURCE_SHA256, WORKER, SCHEMA, TARGET, PROOFS, BindingsOk, IsUuid, IsSha256;
  }

  lemma {:induction false} RoutesIgnoreIds(a: Answers, view: nat, ids: map<string, string>, stable: string, index: nat)
    requires 3 <= view && Shown(a, view) && index <= 4 == |ROUTES|
    requires BindingsOk(View(a, view)) && BindingsOk(View(a, view).(namespaces := ids))
    ensures GoodRoutes(WithNamespaces(a, view, ids), stable, index) == GoodRoutes(a, stable, index)
    decreases 4 - index
  {
    hide ROUTES, SOURCE_SHA256, WORKER, SeesActive, BindingsOk;
    if index < 4 {
      SeesIgnoresIds(a, view, ids, stable, index + 1);
      RoutesIgnoreIds(a, view, ids, stable, index + 1);
    }
  }

  /** Any two good namespace ids may stand in any read of the routes, and the run finishes all the same. */
  lemma NamespacesMayChange(a: Answers, n: nat, ids: map<string, string>)
    requires 1 <= n <= 4 && Shown(a, 3 + n) && GoodIds(a, 3 + n, ids) && GoodAnswers(a) == 14
    ensures GoodAnswers(WithNamespaces(a, 3 + n, ids)) == 14
  {
    hide ROUTES, SOURCE_SHA256, WORKER, IsUuid, IsSha256, Bound, BindingsOk, GoodRoutes, Identified, SeesActive,
         SeesUpload, Serving, Plan;
    PlanShape("");
    FinishedRunAfter(a, n);
    BindingsAre(View(a, 3 + n));
    ServingIsBound(a, n);
    SeesIgnoresIds(a, 3 + n, ids, View(a, 0).unrelated, 0);
    RoutesIgnoreIds(a, 3 + n, ids, View(a, 0).unrelated, 0);
    EarlyReadsStay(a, 3 + n, ids);
  }

  lemma ServingIsBound(a: Answers, n: nat)
    requires n <= 4 && Shown(a, 0) && Shown(a, 3 + n) && a.upload.Replied? && a.deploy.Replied?
    requires Serving(View(a, 3 + n), View(a, 0), a.upload.value, a.deploy.value, n)
    ensures Bound(View(a, 3 + n))
  {
    hide Bound;
  }

  lemma EarlyReadsStay(a: Answers, view: nat, ids: map<string, string>)
    requires 3 <= view && Shown(a, view)
    ensures var b := WithNamespaces(a, view, ids);
            b.views(0) == a.views(0) && b.views(1) == a.views(1) && b.views(2) == a.views(2)
            && (forall stable :: SeesUpload(b, stable) <==> SeesUpload(a, stable))
            && b.upload == a.upload && b.deploy == a.deploy
  {
    hide Valid, IsUuid, SOURCE_SHA256;
  }
}
