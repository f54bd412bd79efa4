/** One live worker: the approved run, the same run with the upload's reply lost, and the way out of that. */
module DeployExample {
  import opened Shapes
  import opened StatsWorker
  import opened Transport
  import opened Deploy
  import opened DeployCloud
  import opened DeployReplay
  import RecoveryHonest
  import DeployTwice

  function Same(c: char, n: nat): string {
    seq(n, i => c)
  }

  function Uuid(c: char): string {
    seq(36, i => if i == 8 || i == 13 || i == 18 || i == 23 then '-' else c)
  }

  function Digest(): string {
    Same('0', 64)
  }

  function Fingerprint(name: string): Option<string> {
    if name == "DB" then Some(DB_FINGERPRINT)
    else if name == "RATE_LIMITER" then Some(RATE_FINGERPRINT)
    else if name in KINDS && KINDS[name] == "secret_text" then None
    else Some(Digest())
  }

  function Bindings(): map<string, Binding> {
    map n | n in KINDS :: Binding(KINDS[n], Fingerprint(n))
  }

  /** A worker with one version, live. */
  function Worker(): Cloud {
    var v := Version(Digest(), Bindings(), Config(COMPATIBILITY_DATE, [], Digest()), {"fetch"});
    Cloud(map[Uuid('a') := v], Uuid('a'), Uuid('a'), Uuid('b'), {Uuid('b')}, ROUTES)
  }

  function Fortune(upload: Fate): Luck {
    Luck((view, get) => false, upload, Uuid('c'), CANDIDATE_HANDLERS, Delivered, Uuid('d'))
  }

  /** Approvals of the deployment and of a recovery, with a digest they name. */
  function Owned(): Terms {
    Terms(Approval(SOURCE_BLOB, CONFIG_BLOB, WORKER, Digest(), true, true), Digest(), Source(true, Same('1', 64)),
          s => Digest())
  }

  lemma IdsAreUuids()
    ensures IsUuid(Uuid('a')) && IsUuid(Uuid('b')) && IsUuid(Uuid('c')) && IsUuid(Uuid('d'))
    ensures Uuid('a') != Uuid('c') && Uuid('b') != Uuid('d')
  {
    assert Uuid('a')[0] != Uuid('c')[0] && Uuid('b')[0] != Uuid('d')[0];
  }

  lemma DigestsAreSha256()
    ensures IsSha256(Digest()) && IsSha256(Same('1', 64)) && Digest() != Same('1', 64)
    ensures IsSha256(DB_FINGERPRINT) && IsSha256(RATE_FINGERPRINT)
  {
    assert Digest()[0] != Same('1', 64)[0];
    DigestOfParts("480381eb0604e398", "ade6571d5e5d9516", "010bf34b8fba3d6b", "9bc0440052c44f00");
    DigestOfParts("849158c0a89323aa", "f029be6ab8c584c3", "89bc1893b96d7244", "fb6e89574b2d213d");
  }

  lemma KindsOfFixed()
    ensures "DB" in KINDS && "RATE_LIMITER" in KINDS
    ensures KINDS["DB"] != "secret_text" && KINDS["RATE_LIMITER"] != "secret_text"
  {
  }

  lemma BindingsAreOk()
    ensures BindingsOk(Bindings()) && "DB" in Bindings() && "RATE_LIMITER" in Bindings()
    ensures Bindings()["DB"].fingerprint == Some(DB_FINGERPRINT)
    ensures Bindings()["RATE_LIMITER"].fingerprint == Some(RATE_FINGERPRINT)
  {
    DigestsAreSha256();
    KindsOfFixed();
    hide KINDS, Digest, IsSha256, DB_FINGERPRINT, RATE_FINGERPRINT;
  }

  lemma WorkerIsLive(upload: Fate)
    ensures var c := Worker();
            Sound(c) && c.latest == c.active && CanRead(c, Same('1', 64)) && Fresh(c, Fortune(upload))
            && Approved(Owned().approval) && c.versions[c.active].code == Digest() && c.active == Uuid('a')
            && c.deployments == {Uuid('b')}
  {
    IdsAreUuids();
    DigestsAreSha256();
    BindingsAreOk();
    hide Uuid, Digest, Bindings, BindingsOk, IsSha256, IsUuid, Same, ROUTES, DB_FINGERPRINT, RATE_FINGERPRINT,
         CANDIDATE_HANDLERS, COMPATIBILITY_DATE, ACCOUNT_SHA256, SCHEMA;
  }

  /** With everything delivered the run succeeds. */
  lemma RunSucceeds()
    ensures Sound(Worker())
    ensures var t := Owned(); Progress(Worker(), Fortune(Delivered), t.approval, t.source, t.sha) == 6
  {
    var t := Owned();
    WorkerIsLive(Delivered);
    DigestsAreSha256();
    hide Worker, CanRead, Snap, Progress, Fresh, IsSha256, Same, Digest, Approved;
    RunSucceedsIff(Worker(), Fortune(Delivered), t.approval, t.source, t.sha);
  }

  lemma MoreIds()
    ensures IsUuid(Uuid('e')) && IsUuid(Uuid('f'))
    ensures Uuid('c') != Uuid('e') && Uuid('d') != Uuid('f') && Uuid('a') != Uuid('e') && Uuid('b') != Uuid('f')
  {
    assert Uuid('c')[0] != Uuid('e')[0] && Uuid('d')[0] != Uuid('f')[0];
    assert Uuid('a')[0] != Uuid('e')[0] && Uuid('b')[0] != Uuid('f')[0];
  }

  /** Two operators can use this approval twice. */
  lemma WorkerCanBeDeployedTwice()
    ensures DeployTwice.Possible(DeployTwice.Case(Worker(), Uuid('c'), Uuid('e'), Uuid('d'), Uuid('f')), Owned())
  {
    hide Worker, CanRead, Snap, IsSha256, Same, Digest, IsUuid, CANDIDATE_HANDLERS, Uuid, Approved;
    WorkerIsLive(Delivered);
    DigestsAreSha256();
    IdsAreUuids();
    MoreIds();
    OnlyVersion();
  }

  lemma OnlyVersion()
    ensures Worker().versions.Keys == {Uuid('a')}
  {
    hide Uuid, Digest, Bindings, ROUTES, COMPATIBILITY_DATE;
  }

  /** With the upload's reply lost it stops with the version uploaded; the same run again stops before any
      write; an approved recovery then deploys the version. */
  lemma LostReplyNeedsRecovery()
    ensures var c, t, l := Worker(), Owned(), Fortune(ReplyLost);
            Sound(c) && Progress(c, l, t.approval, t.source, t.sha) == 2
            && UploadTook(c, l, t.approval, t.source, t.sha) && !DeployTook(c, l, t.approval, t.source, t.sha)
            && var d := AfterRun(c, l, t.approval, t.source, t.sha);
               Sound(d) && d.latest == Uuid('c') && d.active == Uuid('a')
               && Progress(d, l, t.approval, t.source, t.sha) == 0
               && RecoveryProgress(d, l, t) == 4
  {
    var c, t, l := Worker(), Owned(), Fortune(ReplyLost);
    WorkerIsLive(ReplyLost);
    DigestsAreSha256();
    IdsAreUuids();
    hide Worker, CanRead, Snap, IsSha256, Same, Digest, Approved, Uuid, CANDIDATE_HANDLERS, AfterUpload, Progress,
         Fresh, UploadTook, DeployTook, AfterRun;
    ReplyLostStops(c, l, t);
    RecoveryHonest.UploadedIsRecoverable(c, l, t.source);
    var d := AfterUpload(c, l, t.source);
    UploadedIds(c, l, t.source);
    SplitStops(d, l, t);
    RecoveryHonest.RecoverySucceedsIff(d, l, t);
  }

  lemma ReplyLostStops(c: Cloud, l: Luck, t: Terms)
    requires Sound(c) && CanRead(c, t.source.sha256) && c.latest == c.active && l.upload.ReplyLost?
    requires forall view, get :: !l.fails(view, get)
    requires Approved(t.approval) && t.source.reviewed && t.approval.preflight == t.sha(Snap(c))
    ensures Progress(c, l, t.approval, t.source, t.sha) == 2
    ensures UploadTook(c, l, t.approval, t.source, t.sha) && !DeployTook(c, l, t.approval, t.source, t.sha)
    ensures AfterRun(c, l, t.approval, t.source, t.sha) == AfterUpload(c, l, t.source)
  {
    hide Valid, CanRead, Snap, Told, Approved, AfterUpload, AfterDeploy, AsRead, Shown;
    FirstViews(c, l, t.source);
    CanReadValid(c, t.source.sha256);
    NoReply(c, l, t.source);
  }

  lemma NoReply(c: Cloud, l: Luck, w: Source)
    requires Sound(c) && !l.upload.Delivered?
    ensures Told(c, l, w).upload == Raised
  {
    hide AsRead, Snap, Shown, AfterUpload, AfterDeploy;
  }

  lemma FirstViews(c: Cloud, l: Luck, w: Source)
    requires Sound(c) && forall view, get :: !l.fails(view, get)
    ensures var a := Told(c, l, w);
            |a.views| == 4
            && a.views[0] == a.views[1] == (if CanRead(c, w.sha256) then Replied(Some(Snap(c))) else Raised)
  {
    hide Told, AsRead, CanRead, Snap, Shown, AfterUpload, AfterDeploy, Reply, Readable;
    ToldIs(c, l, w, 0);
    ToldIs(c, l, w, 1);
    CanReadMeans(c, l, 0, w.sha256);
    CanReadMeans(c, l, 1, w.sha256);
  }

  /** No run of the deployment gets further than its first read while the latest version is not active. */
  lemma SplitStops(c: Cloud, l: Luck, t: Terms)
    requires Sound(c) && c.latest != c.active
    ensures Progress(c, l, t.approval, t.source, t.sha) == 0
  {
    ToldIs(c, l, t.source, 0);
    hide Told, AsRead;
  }

  lemma UploadedIds(c: Cloud, l: Luck, w: Source)
    requires Sound(c) && !l.upload.Lost?
    ensures AfterUpload(c, l, w).latest == l.version && AfterUpload(c, l, w).active == c.active
    ensures AfterUpload(c, l, w).deployments == c.deployments
  {
    hide UploadMetadata, Snap;
  }
}
