/** The state of the stats worker as its protected collector reports it, and the requests that
    change it. */
module StatsWorker {
  import opened Shapes
  import opened Sorting

  const WORKER := "coloring-pages-stats-v1"
  const SCHEMA := "ausmalwiese.stats-worker-protected-inventory.v1"
  const ACCOUNT_SHA256 := "3239859bf3aeb05fe2ca1d41545615bf689801fa347de533cc2ece45ead98b34"
  const ROUTES: map<string, string> := map[
    "coloring.rozkalns.net/api/stats/*" := "rozkalns.net",
    "ausmalwiese.de/api/stats/*" := "ausmalwiese.de",
    "www.ausmalwiese.de/api/stats/*" := "ausmalwiese.de",
    "ausmalwiese.de/q" := "ausmalwiese.de"
  ]
  const KINDS: map<string, string> := map[
    "DB" := "d1",
    "RATE_LIMITER" := "ratelimit",
    "PUBLIC_ORIGIN" := "plain_text",
    "CF_ANALYTICS_HOST" := "plain_text",
    "CF_ZONE_TAG" := "plain_text",
    "VISITOR_HMAC_KEY" := "secret_text",
    "CF_ANALYTICS_API_TOKEN" := "secret_text"
  ]

  datatype Binding = Binding(kind: string, fingerprint: Option<string>)

  datatype Config = Config(date: string, flags: seq<string>, settings: string)

  datatype Snapshot = Snapshot(
    schema: string, account: string, worker: string, environment: string,
    active: string, latest: string, deployment: string, traffic: int, routes: map<string, string>,
    activeBindings: map<string, Binding>, latestBindings: map<string, Binding>,
    activeConfig: Config, latestConfig: Config, activeCode: string, latestCode: string)

  /** The reviewed worker: whether its bytes pass `verify_source`, and their digest. */
  datatype Source = Source(reviewed: bool, sha256: string)

  // ---------------------------------------------------------------------------------------------
  // Snapshots

  /** `20[0-9]{2}-[01][0-9]-[0-3][0-9]` */
  predicate IsDate(s: string) {
    |s| == 10 && s[0] == '2' && s[1] == '0' && '0' <= s[2] <= '9' && '0' <= s[3] <= '9' && s[4] == '-'
    && '0' <= s[5] <= '1' && '0' <= s[6] <= '9' && s[7] == '-' && '0' <= s[8] <= '3' && '0' <= s[9] <= '9'
  }

  /** `[a-z0-9_]{1,80}` */
  predicate IsFlag(s: string) {
    1 <= |s| <= 80 && forall i :: 0 <= i < |s| ==> 'a' <= s[i] <= 'z' || '0' <= s[i] <= '9' || s[i] == '_'
  }

  predicate BindingsOk(b: map<string, Binding>) {
    b.Keys == KINDS.Keys
    && forall n :: n in b ==>
         b[n].kind == KINDS[n]
         && if KINDS[n] == "secret_text" then b[n].fingerprint.None?
            else b[n].fingerprint.Some? && IsSha256(b[n].fingerprint.value)
  }

  predicate ConfigOk(c: Config) {
    IsDate(c.date) && IsSha256(c.settings) && |c.flags| <= 30
    && (forall f :: f in c.flags ==> IsFlag(f))
    && (forall i, j :: 0 <= i < j < |c.flags| ==> c.flags[i] != c.flags[j])
  }

  predicate Targeted(s: Snapshot) {
    s.schema == SCHEMA && s.account == ACCOUNT_SHA256 && s.worker == WORKER && s.environment == "production"
    && s.traffic == 100 && s.routes == ROUTES
  }

  predicate ShapesOk(s: Snapshot) {
    IsUuid(s.active) && IsUuid(s.latest) && IsUuid(s.deployment)
    && IsSha256(s.activeCode) && IsSha256(s.latestCode)
    && BindingsOk(s.activeBindings) && BindingsOk(s.latestBindings)
    && ConfigOk(s.activeConfig) && ConfigOk(s.latestConfig)
  }

  /** `validate_snapshot` */
  predicate Valid(s: Snapshot, allowLatestDifference: bool) {
    Targeted(s) && ShapesOk(s)
    && (allowLatestDifference || (s.latest == s.active && s.latestCode == s.activeCode))
  }

  /** `_same_preserved`: routes, bindings and configuration of `b` are the active ones of `a`. */
  predicate Preserved(a: Snapshot, b: Snapshot) {
    b.routes == a.routes
    && b.activeBindings == a.activeBindings && b.latestBindings == a.activeBindings
    && b.activeConfig == a.activeConfig && b.latestConfig == a.activeConfig
  }

  // ---------------------------------------------------------------------------------------------
  // Requests

  /** How an uploaded version obtains one binding. */
  datatype Request = Inherit | PlainText(text: string)

  /** The upload metadata; the list of binding requests is keyed by binding name. */
  datatype Metadata = Metadata(date: string, flags: seq<string>, bindings: map<string, Request>)

  function UploadMetadata(s: Snapshot): Metadata {
    Metadata(s.activeConfig.date, Sort(s.activeConfig.flags, StringLeq), map n | n in KINDS :: Inherit)
  }

  predicate MetadataAgrees(s: Snapshot) {
    s.activeBindings == s.latestBindings && s.activeConfig == s.latestConfig
  }

  datatype Dispatch =
    | Read
    | Upload(code: string, metadata: Metadata)
    | Deploy(version: string, percent: int)

  /** Everything the provider will answer, call by call, and nothing after that; `None` is a reply of
      the wrong shape. */
  datatype Answers = Answers(
    views: seq<Answer<Option<Snapshot>>>, upload: Answer<Option<string>>, deploy: Answer<Option<string>>)

  predicate Sees(a: Answers, view: nat) {
    view < |a.views| && a.views[view].Replied? && a.views[view].value.Some?
  }

  function View(a: Answers, view: nat): Snapshot
    requires Sees(a, view)
  {
    a.views[view].value.value
  }

  predicate GoodId(r: Answer<Option<string>>) {
    r.Replied? && r.value.Some? && IsUuid(r.value.value)
  }

  lemma StrictIsActive(s: Snapshot)
    ensures Valid(s, false) ==> s.latest == s.active && Valid(s, true)
  {
  }
}
