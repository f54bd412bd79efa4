/** The zone tag correction through its transport, against the honest provider. */
module ZoneHonest {
  import opened Shapes
  import opened Sorting
  import opened StatsWorker
  import opened Transport
  import opened DeployCloud
  import opened ZoneBinding

  /** A new version takes over what is inherited and stores the digest of what is sent as text. */
  function Bound(m: Metadata, latest: map<string, Binding>, hash: string -> string): map<string, Binding> {
    map n | n in m.bindings && n in latest ::
      match m.bindings[n]
      case Inherit => latest[n]
      case PlainText(text) => Binding("plain_text", Some(hash(text)))
  }

  function Corrected(c: Cloud, l: Luck, m: Metadata, hash: string -> string): Cloud
    requires Sound(c)
  {
    var was := c.versions[c.latest];
    c.(versions := c.versions[l.version := Version(CODE_SHA, Bound(m, was.bindings, hash),
                                                   Config(m.date, m.flags, was.config.settings), l.handlers)],
       latest := l.version)
  }

  /** What the run is told when both writes are delivered. */
  function Told(c: Cloud, l: Luck, zone: string, hash: string -> string): Answers
    requires Sound(c)
  {
    var c1 := Corrected(c, l, Correction(Snap(c), zone), hash);
    var c2 := WithDeployment(c1, l.version, l.deployment);
    AsTold(Provider([Shown(c, l, 0), Shown(c, l, 1), Shown(c1, l, 2), Shown(c2, l, 3)],
                    Replied(Some(l.version)), Replied(Some(l.deployment))), CODE_SHA)
  }

  // ---------------------------------------------------------------------------------------------
  // The corrected worker

  lemma ZoneTagIsText()
    ensures BINDING in KINDS && KINDS[BINDING] == "plain_text" && BINDING != "DB" && BINDING != "RATE_LIMITER"
    ensures "DB" in KINDS && "RATE_LIMITER" in KINDS
  {
  }

  lemma BoundIsRetagged(s: Snapshot, zone: string, hash: string -> string)
    requires s.latestBindings.Keys == KINDS.Keys
    ensures Bound(Correction(s, zone), s.latestBindings, hash) == Retagged(s.latestBindings, hash(zone))
  {
    ZoneTagIsText();
    hide KINDS;
  }

  lemma RetaggedIsOk(b: map<string, Binding>, h: string)
    requires BindingsOk(b) && IsSha256(h)
    ensures b.Keys == KINDS.Keys && BINDING in b && BindingsOk(Retagged(b, h))
    ensures "DB" in b && "RATE_LIMITER" in b
    ensures Retagged(b, h)["DB"] == b["DB"] && Retagged(b, h)["RATE_LIMITER"] == b["RATE_LIMITER"]
  {
    ZoneTagIsText();
    hide KINDS, IsSha256;
  }

  /** The snapshots after the two writes. */
  function AfterUpload(s: Snapshot, version: string, h: string): Snapshot {
    s.(latest := version, latestCode := CODE_SHA, latestBindings := Retagged(s.activeBindings, h))
  }

  function AfterDeployment(s: Snapshot, deployment: string): Snapshot {
    s.(active := s.latest, activeCode := s.latestCode, activeBindings := s.latestBindings,
       activeConfig := s.latestConfig, deployment := deployment)
  }

  lemma CodeIsSha256()
    ensures IsSha256(CODE_SHA)
  {
    DigestOfParts("47f7490918d25e8f", "1dcc683cebe3c4d3", "d9a75230f33ae5a1", "d26cbd6bd3ec1173");
  }

  lemma CorrectedCanBeRead(c: Cloud, l: Luck, zone: string, hash: string -> string)
    requires Sound(c) && Fresh(c, l) && CanRead(c, CODE_SHA) && c.latest == c.active && IsSha256(hash(zone))
    ensures var c1 := Corrected(c, l, Correction(Snap(c), zone), hash);
            Sound(c1) && Snap(c1) == AfterUpload(Snap(c), l.version, hash(zone))
            && (CanRead(c1, CODE_SHA) <==> l.handlers == CANDIDATE_HANDLERS)
  {
    var s := Snap(c);
    RetaggedIsOk(s.latestBindings, hash(zone));
    BoundIsRetagged(s, zone, hash);
    CodeIsSha256();
    assert Sort([], StringLeq) == [];
    hide BindingsOk, Sort, IsSha256, IsUuid, Bound, CANDIDATE_HANDLERS, DB_FINGERPRINT, RATE_FINGERPRINT,
         COMPATIBILITY_DATE, StringLeq, KINDS, ROUTES, CODE_SHA, SCHEMA, ACCOUNT_SHA256, Retagged;
  }

  lemma DeployedCanBeRead(c: Cloud, l: Luck)
    requires Sound(c) && CanRead(c, CODE_SHA) && c.latest == l.version && IsUuid(l.deployment)
    ensures var d := WithDeployment(c, l.version, l.deployment);
            Sound(d) && CanRead(d, CODE_SHA) && Snap(d) == AfterDeployment(Snap(c), l.deployment)
  {
    hide BindingsOk, IsSha256, IsUuid, CANDIDATE_HANDLERS, DB_FINGERPRINT, RATE_FINGERPRINT, COMPATIBILITY_DATE, ROUTES,
         SCHEMA, ACCOUNT_SHA256, CODE_SHA;
  }

  lemma StagesVerify(s: Snapshot, version: string, deployment: string, h: string)
    requires CheckedBefore(s, h) && IsSha256(h) && IsUuid(version) && IsUuid(deployment) && deployment != s.deployment
    ensures var up := AfterUpload(s, version, h);
            VerifyAfter(s, up, version, h, None)
            && VerifyAfter(s, AfterDeployment(up, deployment), version, h, Some(deployment))
  {
    hide BindingsOk, ConfigOk, Retagged, PreservedBindings, IsSha256, IsUuid, ROUTES, SCHEMA, ACCOUNT_SHA256, CODE_SHA,
         BINDING;
    RetaggedIsOk(s.activeBindings, h);
    PreservedMeansRetagged(s.activeBindings, Retagged(s.activeBindings, h), h);
  }

  // ---------------------------------------------------------------------------------------------
  // The run

  lemma ToldViews(c: Cloud, l: Luck, zone: string, hash: string -> string)
    requires Sound(c) && Fresh(c, l) && forall view, get :: !l.fails(view, get)
    ensures var a, c1 := Told(c, l, zone, hash), Corrected(c, l, Correction(Snap(c), zone), hash);
            var c2 := WithDeployment(c1, l.version, l.deployment);
            Sound(c1) && Sound(c2) && |a.views| == 4
            && a.views[0] == a.views[1] == (if CanRead(c, CODE_SHA) then Replied(Some(Snap(c))) else Raised)
            && a.views[2] == (if CanRead(c1, CODE_SHA) then Replied(Some(Snap(c1))) else Raised)
            && (CanRead(c2, CODE_SHA) ==> a.views[3] == Replied(Some(Snap(c2))))
            && a.upload == Replied(Some(l.version)) && a.deploy == Replied(Some(l.deployment))
  {
    hide Snap, CanRead, IsUuid, Correction, Readable, Targeted, Bound, CODE_SHA;
    var c1 := Corrected(c, l, Correction(Snap(c), zone), hash);
    var c2 := WithDeployment(c1, l.version, l.deployment);
    CanReadMeans(c, l, 0, CODE_SHA);
    CanReadMeans(c, l, 1, CODE_SHA);
    CanReadMeans(c1, l, 2, CODE_SHA);
    CanReadMeans(c2, l, 3, CODE_SHA);
    hide AsRead, Shown;
  }

  /** The state that a correction is for: readable, the reviewed code live and latest, another zone tag. */
  predicate Correctable(c: Cloud, h: string)
    requires Sound(c)
  {
    CanRead(c, CODE_SHA) && c.latest == c.active && c.versions[c.active].code == CODE_SHA
    && Snap(c).activeBindings[BINDING].fingerprint != Some(h)
  }

  lemma CorrectableIs(c: Cloud, h: string)
    requires Sound(c) && CanRead(c, CODE_SHA)
    ensures CheckedBefore(Snap(c), h) <==> Correctable(c, h)
  {
    CanReadValid(c, CODE_SHA);
    hide Valid, CanRead;
  }

  /** A correction in which nothing is lost succeeds exactly when both lookups give the zone, the state can
      be corrected, the approval is for it, and the provider finds the reviewed handlers in the code. */
  lemma CorrectionSucceedsIff(z: Lookups, c: Cloud, l: Luck, p: Approval, zone: string, hash: string -> string,
                              sha: Snapshot -> string)
    requires Sound(c) && Fresh(c, l) && IsSha256(hash(zone)) && forall view, get :: !l.fails(view, get)
    ensures var a := Told(c, l, zone, hash);
            Ready(z, a, p, zone, hash(zone), sha) && GoodWrites(a, View(a, 0), hash(zone)) == 4
            <==> Verified(z.first, zone) && Verified(z.second, zone) && Correctable(c, hash(zone))
                 && p.active == c.active && p.preflight == sha(Snap(c)) && l.handlers == CANDIDATE_HANDLERS
  {
    hide VerifyAfter, Valid, IsUuid, IsSha256, Told, Snap, AfterUpload, AfterDeployment, CheckedBefore, CanRead,
         CANDIDATE_HANDLERS, Corrected, WithDeployment, Correctable, Verified;
    ToldViews(c, l, zone, hash);
    FreshDiffers(c, l);
    if CanRead(c, CODE_SHA) {
      CorrectableIs(c, hash(zone));
      if CheckedBefore(Snap(c), hash(zone)) {
        LatestIsActive(c, hash(zone));
        CorrectedCanBeRead(c, l, zone, hash);
        StagesVerify(Snap(c), l.version, l.deployment, hash(zone));
        var c1 := Corrected(c, l, Correction(Snap(c), zone), hash);
        if CanRead(c1, CODE_SHA) {
          CorrectedIsLatest(c, l, zone, hash);
          DeployedCanBeRead(c1, l);
        }
      }
    } else {
      UnreadableIsNot(c, hash(zone));
    }
  }

  lemma LatestIsActive(c: Cloud, h: string)
    requires Sound(c) && Correctable(c, h)
    ensures c.latest == c.active
  {
  }

  lemma UnreadableIsNot(c: Cloud, h: string)
    requires Sound(c) && !CanRead(c, CODE_SHA)
    ensures !Correctable(c, h)
  {
  }

  lemma CorrectedIsLatest(c: Cloud, l: Luck, zone: string, hash: string -> string)
    requires Sound(c)
    ensures Corrected(c, l, Correction(Snap(c), zone), hash).latest == l.version
  {
    hide Correction, Snap, Bound;
  }
}
