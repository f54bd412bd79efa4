/** The recovery run through its transport, against the honest provider. */
module RecoveryHonest {
  import opened Shapes
  import opened StatsWorker
  import opened Transport
  import opened DeployCloud
  import opened DeployReplay
  import Recovery

  /** The state that recovery is for: readable, the candidate uploaded and not active, all else the same. */
  predicate Recoverable(c: Cloud, w: Source)
    requires Sound(c)
  {
    var a, l := c.versions[c.active], c.versions[c.latest];
    CanRead(c, w.sha256) && l.code == w.sha256 && a.code != w.sha256
    && a.bindings == l.bindings && a.config == l.config
  }

  lemma RecoverableIs(c: Cloud, w: Source)
    requires Sound(c) && CanRead(c, w.sha256)
    ensures Recovery.Recoverable(Snap(c), w) <==> Recoverable(c, w)
    ensures Recoverable(c, w) ==> Valid(Snap(c), true) && Snap(c).latest == c.latest != c.active
  {
    CanReadValid(c, w.sha256);
    var a, l := c.versions[c.active], c.versions[c.latest];
    ReadableIsValid(Sight(Snap(c), a.handlers, l.handlers, get => false), w.sha256);
    hide Valid, CanRead;
  }

  lemma RecoveredCanBeRead(c: Cloud, l: Luck, w: Source)
    requires Sound(c) && Recoverable(c, w) && !l.deploy.Lost? && IsUuid(l.deployment) && l.deployment !in c.deployments
    ensures var d := AfterDeploy(c, l, c.latest);
            Sound(d) && CanRead(d, w.sha256) && Recovery.PostRecovery(Snap(c), Snap(d), w)
            && Snap(d).deployment == l.deployment
  {
    DeployedCanBeRead(c, l, w.sha256);
    CanReadValid(AfterDeploy(c, l, c.latest), w.sha256);
    hide Valid, CanRead;
  }

  lemma DeployedCanBeRead(c: Cloud, l: Luck, candidate: string)
    requires Sound(c) && CanRead(c, candidate) && !l.deploy.Lost? && IsUuid(l.deployment)
    ensures var d := AfterDeploy(c, l, c.latest); Sound(d) && CanRead(d, candidate) && d.latest == d.active
  {
    hide BindingsOk, IsSha256, IsUuid, CANDIDATE_HANDLERS, DB_FINGERPRINT, RATE_FINGERPRINT, COMPATIBILITY_DATE, ROUTES,
         SCHEMA, ACCOUNT_SHA256;
  }

  lemma ShownViews(c: Cloud, l: Luck, candidate: string)
    requires Sound(c) && !l.deploy.Lost? && IsUuid(l.deployment) && forall view, get :: !l.fails(view, get)
    ensures var a, d := AsTold(ShownInRecovery(c, l), candidate), AfterDeploy(c, l, c.latest);
            Sound(d) && |a.views| == 3
            && a.views[0] == a.views[1] == (if CanRead(c, candidate) then Replied(Some(Snap(c))) else Raised)
            && a.views[2] == (if CanRead(d, candidate) then Replied(Some(Snap(d))) else Raised)
            && a.deploy == Reply(l.deploy, l.deployment)
  {
    hide Snap, CanRead, IsUuid, Readable;
    CanReadMeans(c, l, 0, candidate);
    CanReadMeans(c, l, 1, candidate);
    CanReadMeans(AfterDeploy(c, l, c.latest), l, 2, candidate);
    hide AsRead, Shown;
  }

  /** A recovery in which nothing is lost succeeds exactly when it is approved for the state as it is and
      that state has the candidate uploaded, not active, and otherwise equal. */
  lemma RecoverySucceedsIff(c: Cloud, l: Luck, t: Terms)
    requires Sound(c) && l.deploy.Delivered? && IsUuid(l.deployment) && l.deployment !in c.deployments
    requires forall view, get :: !l.fails(view, get)
    ensures RecoveryProgress(c, l, t) == 4 <==>
              t.source.reviewed && Recoverable(c, t.source) && t.sha(Snap(c)) == t.recovery
  {
    hide Snap, CanRead, Valid, Recoverable, Recovery.Recoverable, Recovery.PostRecovery, IsUuid, AsTold;
    ShownViews(c, l, t.source.sha256);
    if CanRead(c, t.source.sha256) {
      RecoverableIs(c, t.source);
      if Recoverable(c, t.source) {
        RecoveredCanBeRead(c, l, t.source);
      }
    } else {
      UnreadableIsNot(c, t.source);
    }
  }

  lemma UnreadableIsNot(c: Cloud, w: Source)
    requires Sound(c) && !CanRead(c, w.sha256)
    ensures !Recoverable(c, w)
  {
  }

  /** Whatever became of the rest of the run, an upload that took effect can be recovered from, provided
      the candidate was not live already and the provider finds its handlers in the code. */
  lemma UploadedIsRecoverable(c: Cloud, l: Luck, w: Source)
    requires Sound(c) && CanRead(c, w.sha256) && c.latest == c.active && c.versions[c.active].code != w.sha256
    requires Fresh(c, l) && !l.upload.Lost? && l.handlers == CANDIDATE_HANDLERS && IsSha256(w.sha256)
    ensures Sound(AfterUpload(c, l, w)) && Recoverable(AfterUpload(c, l, w), w)
  {
    CanReadValid(c, w.sha256);
    UploadCanBeRead(c, l, w);
    FlagsAreEmpty(c, w.sha256);
    hide CanRead, Snap, IsUuid, IsSha256;
  }

  lemma FlagsAreEmpty(c: Cloud, candidate: string)
    requires Sound(c) && CanRead(c, candidate)
    ensures UploadMetadata(Snap(c)).flags == c.versions[c.active].config.flags == []
    ensures UploadMetadata(Snap(c)).date == c.versions[c.active].config.date
  {
    hide BindingsOk, IsSha256, IsUuid;
  }
}
