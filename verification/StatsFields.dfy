/** What the stats worker's checks come to in the members of what they check: of a snapshot, of an approval,
    and of the runs that pass. */
module StatsFields {
  import opened Shapes
  import opened Sorting
  import opened StatsWorker
  import opened Transport
  import Deploy
  import Recovery
  import ZoneBinding

  // ---------------------------------------------------------------------------------------------
  // Snapshots

  const ACCOUNT := "3239859bf3aeb05fe2ca1d41545615bf689801fa347de533cc2ece45ead98b34"

  /** All the traffic of the reviewed worker in its account, on its four routes. */
  ghost predicate Served(s: Snapshot) {
    s.schema == "ausmalwiese.stats-worker-protected-inventory.v1" && s.account == ACCOUNT
    && s.worker == "coloring-pages-stats-v1" && s.environment == "production" && s.traffic == 100
    && s.routes == map["coloring.rozkalns.net/api/stats/*" := "rozkalns.net",
                       "ausmalwiese.de/api/stats/*" := "ausmalwiese.de",
                       "www.ausmalwiese.de/api/stats/*" := "ausmalwiese.de",
                       "ausmalwiese.de/q" := "ausmalwiese.de"]
  }

  lemma ServedIs(s: Snapshot)
    ensures Targeted(s) <==> Served(s)
  {
  }

  ghost predicate Public(b: map<string, Binding>, name: string, kind: string) {
    name in b && b[name].kind == kind && b[name].fingerprint.Some? && IsSha256(b[name].fingerprint.value)
  }

  ghost predicate Secret(b: map<string, Binding>, name: string) {
    name in b && b[name] == Binding("secret_text", None)
  }

  const NAMES := {"DB", "RATE_LIMITER", "PUBLIC_ORIGIN", "CF_ANALYTICS_HOST", "CF_ZONE_TAG", "VISITOR_HMAC_KEY",
                  "CF_ANALYTICS_API_TOKEN"}

  /** The seven bindings; of a secret nothing but its kind is shown. */
  ghost predicate Bound(b: map<string, Binding>) {
    b.Keys == NAMES && Public(b, "DB", "d1") && Public(b, "RATE_LIMITER", "ratelimit")
    && Public(b, "PUBLIC_ORIGIN", "plain_text") && Public(b, "CF_ANALYTICS_HOST", "plain_text")
    && Public(b, "CF_ZONE_TAG", "plain_text")
    && Secret(b, "VISITOR_HMAC_KEY") && Secret(b, "CF_ANALYTICS_API_TOKEN")
  }

  lemma SevenNames()
    ensures KINDS.Keys == NAMES
    ensures KINDS["DB"] == "d1" && KINDS["RATE_LIMITER"] == "ratelimit"
    ensures KINDS["PUBLIC_ORIGIN"] == "plain_text" && KINDS["CF_ANALYTICS_HOST"] == "plain_text"
    ensures KINDS["CF_ZONE_TAG"] == "plain_text"
    ensures KINDS["VISITOR_HMAC_KEY"] == "secret_text" && KINDS["CF_ANALYTICS_API_TOKEN"] == "secret_text"
  {
  }

  lemma BoundIs(b: map<string, Binding>)
    ensures BindingsOk(b) <==> Bound(b)
  {
    hide KINDS, IsSha256;
    SevenNames();
  }

  /** A configuration with a date of this century, different flags in plain letters, at most thirty, and the
      digest of its settings. */
  ghost predicate Configured(c: Config) {
    |c.date| == 10 && c.date[..2] == "20" && c.date[4] == '-' && c.date[7] == '-' && IsSha256(c.settings)
    && (forall i :: 0 <= i < 10 && i != 4 && i != 7 ==> '0' <= c.date[i] <= '9') && c.date[5] <= '1' && c.date[8] <= '3'
    && |c.flags| <= 30 && (forall i, j :: 0 <= i < j < |c.flags| ==> c.flags[i] != c.flags[j])
    && forall f :: f in c.flags ==>
         1 <= |f| <= 80 && forall i :: 0 <= i < |f| ==> 'a' <= f[i] <= 'z' || '0' <= f[i] <= '9' || f[i] == '_'
  }

  lemma ConfiguredIs(c: Config)
    ensures ConfigOk(c) <==> Configured(c)
  {
    hide IsSha256;
  }

  /** Which snapshots are valid. */
  ghost predicate Sound(s: Snapshot) {
    Served(s) && Bound(s.activeBindings) && Bound(s.latestBindings)
    && Configured(s.activeConfig) && Configured(s.latestConfig)
    && IsUuid(s.active) && IsUuid(s.latest) && IsUuid(s.deployment) && IsSha256(s.activeCode) && IsSha256(s.latestCode)
  }

  lemma ValidIff(s: Snapshot, allowLatestDifference: bool)
    ensures Valid(s, allowLatestDifference) <==>
              Sound(s) && (s.latest != s.active || s.latestCode != s.activeCode ==> allowLatestDifference)
  {
    hide Targeted, Served, BindingsOk, Bound, ConfigOk, Configured, IsUuid, IsSha256;
    ServedIs(s);
    BoundIs(s.activeBindings);
    BoundIs(s.latestBindings);
    ConfiguredIs(s.activeConfig);
    ConfiguredIs(s.latestConfig);
  }

  /** Sound snapshots differ in their versions, deployments, codes, bindings and configurations alone. */
  lemma SoundAlike(s: Snapshot, t: Snapshot)
    requires Sound(s) && Sound(t)
    ensures s == t.(active := s.active, latest := s.latest, deployment := s.deployment, activeCode := s.activeCode,
                    latestCode := s.latestCode, activeBindings := s.activeBindings, latestBindings := s.latestBindings,
                    activeConfig := s.activeConfig, latestConfig := s.latestConfig)
  {
    hide Bound, Configured, IsUuid, IsSha256, ACCOUNT;
  }

  /** What the transport lets through: one of the two known versions, the candidate only with its handlers. */
  ghost predicate Known(b: map<string, Binding>, c: Config, code: string, handlers: set<string>, candidate: string) {
    Bound(b)
    && b["DB"].fingerprint == Some("480381eb0604e398" + "ade6571d5e5d9516" + "010bf34b8fba3d6b" + "9bc0440052c44f00")
    && b["RATE_LIMITER"].fingerprint
       == Some("849158c0a89323aa" + "f029be6ab8c584c3" + "89bc1893b96d7244" + "fb6e89574b2d213d")
    && c == Config("2026-10-06", [], c.settings) && IsSha256(c.settings) && IsSha256(code)
    && (code == candidate ==> handlers == {"fetch", "scheduled"})
  }

  lemma KnownIs(b: map<string, Binding>, c: Config, code: string, handlers: set<string>, candidate: string)
    ensures KnownVersion(b, c, code, handlers, candidate) <==> Known(b, c, code, handlers, candidate)
  {
    hide IsSha256, BindingsOk, Bound;
    BoundIs(b);
    HasBoth(b);
  }

  lemma HasBoth(b: map<string, Binding>)
    ensures Bound(b) ==> "DB" in b && "RATE_LIMITER" in b
  {
  }

  /** Which reads come through: no GET of the eight or ten failed, and what they show is known. */
  lemma ReadIff(s: Sight, candidate: string)
    ensures AsRead(s, candidate).Raised? <==> AsRead(s, candidate) != Replied(Some(s.snapshot))
    ensures AsRead(s, candidate).Replied? <==>
              var t := s.snapshot;
              (forall k :: 0 <= k < (if t.latest == t.active then 8 else 10) ==> !s.fails(k))
              && Served(t) && IsUuid(t.active) && IsUuid(t.latest) && IsUuid(t.deployment)
              && Known(t.activeBindings, t.activeConfig, t.activeCode, s.activeHandlers, candidate)
              && Known(t.latestBindings, t.latestConfig, t.latestCode, s.latestHandlers, candidate)
  {
    hide Targeted, Served, KnownVersion, Known, IsUuid;
    var t := s.snapshot;
    ServedIs(t);
    KnownIs(t.activeBindings, t.activeConfig, t.activeCode, s.activeHandlers, candidate);
    KnownIs(t.latestBindings, t.latestConfig, t.latestCode, s.latestHandlers, candidate);
  }

  // ---------------------------------------------------------------------------------------------
  // The deployment

  lemma ApprovedIff(p: Deploy.Approval)
    ensures Deploy.Approved(p) <==>
              p == Deploy.Approval("8790a8ddc3b83771088c4cceb16a3b57ce5d1c8b",
                                   "3733263a391274f2b6b0f2023c8656565bde8e1a",
                                   "coloring-pages-stats-v1", p.preflight, true, true)
              && IsSha256(p.preflight)
  {
  }

  /** The request of the upload: every binding is inherited, date and flags are those of the live version. */
  lemma RequestIs(s: Snapshot)
    ensures var m := UploadMetadata(s);
            m.date == s.activeConfig.date && multiset(m.flags) == multiset(s.activeConfig.flags)
            && Ordered(m.flags, StringLeq) && m.bindings.Keys == NAMES
            && forall n :: n in NAMES ==> m.bindings[n].Inherit?
  {
    hide Sort, StringLeq, Ordered, KINDS;
    SevenNames();
    StringOrder();
    SortSorts(s.activeConfig.flags, StringLeq);
  }

  /** What the first write rests on: two equal reads of a worker whose latest version is live, with the
      digest that was approved. */
  lemma UploadRests(a: Answers, p: Deploy.Approval, w: Source, sha: Snapshot -> string)
    ensures Deploy.GoodAnswers(a, p, w, sha) >= 2 <==>
              Sees(a, 0) && Sees(a, 1) && View(a, 0) == View(a, 1) && sha(View(a, 0)) == p.preflight
              && var s := View(a, 0);
                 Sound(s) && s.latest == s.active && s.latestCode == s.activeCode
                 && s.latestBindings == s.activeBindings && s.latestConfig == s.activeConfig
  {
    hide Valid, Sound, Deploy.GoodWrites;
    if Sees(a, 0) {
      ValidIff(View(a, 0), false);
    }
  }

  /** What the deployment rests on: the upload was read back as the latest version, with the reviewed code
      and all else as before. */
  lemma DeploymentRests(a: Answers, p: Deploy.Approval, w: Source, sha: Snapshot -> string)
    requires Deploy.GoodAnswers(a, p, w, sha) >= 2
    ensures Deploy.GoodAnswers(a, p, w, sha) >= 4 <==>
              Sees(a, 0) && GoodId(a.upload) && a.upload.value.value != View(a, 0).active
              && Sees(a, 2) && Sound(View(a, 2))
              && View(a, 2) == View(a, 0).(latest := a.upload.value.value, latestCode := w.sha256)
  {
    hide Valid, Sound, IsUuid;
    UploadRests(a, p, w, sha);
    if Sees(a, 2) {
      ValidIff(View(a, 2), true);
      if Sound(View(a, 2)) {
        SoundAlike(View(a, 2), View(a, 0));
      }
    }
  }

  /** What success rests on: the deployment was read back under a new id the provider named, with the
      uploaded version live and all else as before. */
  lemma SuccessRests(a: Answers, p: Deploy.Approval, w: Source, sha: Snapshot -> string)
    requires Deploy.GoodAnswers(a, p, w, sha) >= 4
    ensures Deploy.GoodAnswers(a, p, w, sha) == 6 <==>
              Sees(a, 0) && GoodId(a.upload) && GoodId(a.deploy)
              && a.deploy.value.value != View(a, 0).deployment && Sees(a, 3) && Sound(View(a, 3))
              && var id := a.upload.value.value;
                 View(a, 3) == View(a, 0).(active := id, latest := id, deployment := a.deploy.value.value,
                                           activeCode := w.sha256, latestCode := w.sha256)
  {
    hide Valid, Sound, IsUuid;
    UploadRests(a, p, w, sha);
    DeploymentRests(a, p, w, sha);
    if Sees(a, 3) {
      ValidIff(View(a, 3), false);
      if Sound(View(a, 3)) {
        SoundAlike(View(a, 3), View(a, 0));
      }
    }
  }

  // ---------------------------------------------------------------------------------------------
  // The recovery

  /** What a recovery's deployment rests on: two equal reads of a worker whose latest version is the
      candidate, is not live, and differs from the live one in its code alone. */
  lemma RecoveryRests(a: Answers, w: Source, expected: string, sha: Snapshot -> string)
    ensures Recovery.GoodAnswers(a, w, expected, sha) >= 2 <==>
              Sees(a, 0) && Sees(a, 1) && View(a, 0) == View(a, 1) && sha(View(a, 0)) == expected
              && var s := View(a, 0);
                 Sound(s) && s.latest != s.active && s.latestCode == w.sha256 != s.activeCode
                 && s.latestBindings == s.activeBindings && s.latestConfig == s.activeConfig
  {
    hide Valid, Sound, Recovery.GoodWrites;
    if Sees(a, 0) {
      ValidIff(View(a, 0), true);
    }
  }

  /** What its success rests on: the version was read back live under a new id, and all else as before. */
  lemma RecoveredRests(a: Answers, w: Source, expected: string, sha: Snapshot -> string)
    requires Recovery.GoodAnswers(a, w, expected, sha) >= 2
    ensures Recovery.GoodAnswers(a, w, expected, sha) == 4 <==>
              Sees(a, 0) && GoodId(a.deploy) && a.deploy.value.value != View(a, 0).deployment
              && Sees(a, 2) && Sound(View(a, 2))
              && View(a, 2) == View(a, 0).(active := View(a, 0).latest, deployment := a.deploy.value.value,
                                           activeCode := w.sha256)
  {
    hide Valid, Sound, IsUuid;
    RecoveryRests(a, w, expected, sha);
    if Sees(a, 2) {
      ValidIff(View(a, 2), false);
      if Sound(View(a, 2)) {
        SoundAlike(View(a, 2), View(a, 0));
      }
    }
  }

  // ---------------------------------------------------------------------------------------------
  // The zone tag's correction

  lemma CorrectionApprovedIff(p: ZoneBinding.Approval)
    ensures ZoneBinding.Approved(p) <==>
              p == ZoneBinding.Approval(
                     "coloring-pages-stats-v1", "8790a8ddc3b83771088c4cceb16a3b57ce5d1c8b",
                     "3733263a391274f2b6b0f2023c8656565bde8e1a",
                     "47f7490918d25e8f" + "1dcc683cebe3c4d3" + "d9a75230f33ae5a1" + "d26cbd6bd3ec1173", p.active,
                     p.preflight, true, true)
              && IsUuid(p.active) && IsSha256(p.preflight)
  {
    hide IsUuid, IsSha256;
  }

  /** The request of the correction: the zone tag is sent as text, every other binding is inherited. */
  lemma CorrectionIs(s: Snapshot, zone: string)
    ensures ZoneBinding.Correction(s, zone).bindings.Keys == NAMES
    ensures forall n :: n in NAMES ==>
              ZoneBinding.Correction(s, zone).bindings[n] == if n == "CF_ZONE_TAG" then PlainText(zone) else Inherit
  {
    RequestIs(s);
    hide UploadMetadata;
  }

  /** What the correction's upload rests on. */
  lemma CorrectionRests(z: ZoneBinding.Lookups, a: Answers, p: ZoneBinding.Approval, zone: string, zoneHash: string,
                        sha: Snapshot -> string)
    ensures ZoneBinding.Ready(z, a, p, zone, zoneHash, sha) <==>
              z.first == z.second == Replied(Some(ZoneBinding.ZoneItem(zone, "ausmalwiese.de", "active")))
              && IsHex32(zone)
              && Sees(a, 0) && Sees(a, 1) && View(a, 0) == View(a, 1) && sha(View(a, 0)) == p.preflight
              && var s := View(a, 0);
                 Sound(s) && s.latest == s.active == p.active
                 && s.latestCode == s.activeCode == ZoneBinding.CODE_SHA
                 && s.latestBindings == s.activeBindings && s.latestConfig == s.activeConfig
                 && s.activeBindings["CF_ZONE_TAG"].fingerprint != Some(zoneHash)
  {
    hide Valid, Sound, IsHex32, ZoneBinding.CODE_SHA;
    if Sees(a, 0) {
      ValidIff(View(a, 0), false);
    }
  }

  lemma HasTag(s: Snapshot)
    requires Sound(s)
    ensures ZoneBinding.BINDING in s.activeBindings
  {
  }

  /** What its deployment rests on: the upload was read back with the tag replaced, and all else as before. */
  lemma CorrectedRests(z: ZoneBinding.Lookups, a: Answers, p: ZoneBinding.Approval, zone: string, zoneHash: string,
                       sha: Snapshot -> string)
    requires ZoneBinding.Ready(z, a, p, zone, zoneHash, sha)
    ensures ZoneBinding.GoodWrites(a, View(a, 0), zoneHash) >= 2 <==>
              Sees(a, 0) && GoodId(a.upload) && a.upload.value.value != View(a, 0).active
              && Sees(a, 2) && Sound(View(a, 2))
              && View(a, 2) == View(a, 0).(latest := a.upload.value.value,
                                           latestBindings := ZoneBinding.Retagged(View(a, 0).activeBindings, zoneHash))
  {
    hide Valid, Sound, IsUuid, ZoneBinding.CODE_SHA, ZoneBinding.Retagged, ZoneBinding.PreservedBindings;
    CorrectionRests(z, a, p, zone, zoneHash, sha);
    HasTag(View(a, 0));
    if Sees(a, 2) {
      ValidIff(View(a, 2), true);
      if Sound(View(a, 2)) {
        SoundAlike(View(a, 2), View(a, 0));
      }
      ZoneBinding.PreservedMeansRetagged(View(a, 0).activeBindings, View(a, 2).latestBindings, zoneHash);
    }
  }
}
