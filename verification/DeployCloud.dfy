/** The provider behind the stats worker as an honest state machine that may lose requests or
    replies, and any number of deployment and recovery runs against it. */
module DeployCloud {
  import opened Shapes
  import opened Sorting
  import opened StatsWorker
  import opened Transport
  import opened Deploy

  /** The handler names are those the provider finds in the code. */
  datatype Version = Version(code: string, bindings: map<string, Binding>, config: Config, handlers: set<string>)

  /** `deployments` lists every deployment id ever issued. */
  datatype Cloud = Cloud(
    versions: map<string, Version>, latest: string, active: string, deployment: string, deployments: set<string>,
    routes: map<string, string>)

  predicate Sound(c: Cloud) {
    c.latest in c.versions && c.active in c.versions && c.deployment in c.deployments
  }

  function Snap(c: Cloud): Snapshot
    requires Sound(c)
  {
    var a, l := c.versions[c.active], c.versions[c.latest];
    Snapshot(SCHEMA, ACCOUNT_SHA256, WORKER, "production", c.active, c.latest, c.deployment, 100, c.routes,
             a.bindings, l.bindings, a.config, l.config, a.code, l.code)
  }

  /** Strict inheritance takes every binding from the latest version; the settings stay too. */
  function WithVersion(c: Cloud, id: string, code: string, m: Metadata, handlers: set<string>): Cloud
    requires Sound(c)
  {
    var l := c.versions[c.latest];
    c.(versions := c.versions[id := Version(code, l.bindings, Config(m.date, m.flags, l.config.settings), handlers)],
       latest := id)
  }

  function WithDeployment(c: Cloud, version: string, id: string): Cloud {
    c.(active := version, deployment := id, deployments := c.deployments + {id})
  }

  /** What becomes of a write: it never takes effect, it does but the reply is lost, or all is well. */
  datatype Fate = Lost | ReplyLost | Delivered

  /** The provider's and the network's choices during one run: the GETs that fail in each read, the fates
      of the writes, the ids issued and the handler names found in the uploaded code. */
  datatype Luck = Luck(
    fails: (nat, nat) -> bool, upload: Fate, version: string, handlers: set<string>, deploy: Fate, deployment: string)

  /** New ids are well formed and were never used. */
  predicate Fresh(c: Cloud, l: Luck) {
    IsUuid(l.version) && l.version !in c.versions && IsUuid(l.deployment) && l.deployment !in c.deployments
  }

  /** The cloud as snapshot read number `view` meets it. */
  function Shown(c: Cloud, l: Luck, view: nat): Sight
    requires Sound(c)
  {
    Sight(Snap(c), c.versions[c.active].handlers, c.versions[c.latest].handlers, (get: nat) => l.fails(view, get))
  }

  function Reply(f: Fate, id: string): Answer<Option<string>> {
    if f.Delivered? then Replied(Some(id)) else Raised
  }

  // ---------------------------------------------------------------------------------------------
  // One deployment run

  /** The cloud once the upload request has had its effect, if it had one. */
  function AfterUpload(c: Cloud, l: Luck, w: Source): Cloud
    requires Sound(c)
  {
    if l.upload.Lost? then c else WithVersion(c, l.version, w.sha256, UploadMetadata(Snap(c)), l.handlers)
  }

  function AfterDeploy(c: Cloud, l: Luck, version: string): Cloud {
    if l.deploy.Lost? then c else WithDeployment(c, version, l.deployment)
  }

  /** What the provider shows and answers, provided the protocol makes the calls. */
  function Shows(c: Cloud, l: Luck, w: Source): Provider
    requires Sound(c)
  {
    var c1 := AfterUpload(c, l, w);
    var c2 := if l.version in c1.versions then AfterDeploy(c1, l, l.version) else c1;
    Provider([Shown(c, l, 0), Shown(c, l, 1), Shown(c1, l, 2), Shown(c2, l, 3)],
             Reply(l.upload, l.version), Reply(l.deploy, l.deployment))
  }

  /** What the protocol is told of it by its transport. */
  function Told(c: Cloud, l: Luck, w: Source): Answers
    requires Sound(c)
  {
    AsTold(Shows(c, l, w), w.sha256)
  }

  /** How many calls of the run are answered well; none is made without approval. */
  function Progress(c: Cloud, l: Luck, p: Approval, w: Source, sha: Snapshot -> string): nat
    requires Sound(c)
  {
    if Approved(p) && w.reviewed then GoodAnswers(Told(c, l, w), p, w, sha) else 0
  }

  predicate UploadTook(c: Cloud, l: Luck, p: Approval, w: Source, sha: Snapshot -> string)
    requires Sound(c)
  {
    Progress(c, l, p, w, sha) >= 2 && !l.upload.Lost?
  }

  predicate DeployTook(c: Cloud, l: Luck, p: Approval, w: Source, sha: Snapshot -> string)
    requires Sound(c)
  {
    Progress(c, l, p, w, sha) >= 4 && !l.deploy.Lost?
  }

  /** The cloud after the run: exactly the dispatched writes that were not lost have taken effect. */
  function AfterRun(c: Cloud, l: Luck, p: Approval, w: Source, sha: Snapshot -> string): Cloud
    requires Sound(c)
  {
    var c1 := if UploadTook(c, l, p, w, sha) then AfterUpload(c, l, w) else c;
    if DeployTook(c, l, p, w, sha) then AfterDeploy(c1, l, l.version) else c1
  }

  // ---------------------------------------------------------------------------------------------
  // Completeness

  ghost predicate AllDelivered(l: Luck) {
    (forall view, get :: !l.fails(view, get)) && l.upload.Delivered? && l.deploy.Delivered?
  }

  /** The snapshot after the upload differs from the one before in the latest version alone. */
  lemma SnapAfterUpload(c: Cloud, l: Luck, w: Source)
    requires Sound(c) && MetadataAgrees(Snap(c)) && Fresh(c, l) && !l.upload.Lost?
    ensures Sound(AfterUpload(c, l, w))
    ensures var s := Snap(c);
            Snap(AfterUpload(c, l, w))
            == s.(latest := l.version, latestCode := w.sha256, latestBindings := s.activeBindings,
                  latestConfig := s.activeConfig.(flags := Sort(s.activeConfig.flags, StringLeq)))
  {
  }

  lemma SnapAfterDeploy(c: Cloud, l: Luck)
    requires Sound(c) && Fresh(c.(versions := map[]), l) && l.version == c.latest && !l.deploy.Lost?
    ensures Sound(AfterDeploy(c, l, l.version))
    ensures var s := Snap(c);
            Snap(AfterDeploy(c, l, l.version))
            == s.(active := s.latest, activeCode := s.latestCode, activeBindings := s.latestBindings,
                  activeConfig := s.latestConfig, deployment := l.deployment)
  {
  }

  /** What the run sees, if it sees anything, is the cloud at that moment. */
  lemma ToldIs(c: Cloud, l: Luck, w: Source, view: nat)
    requires Sound(c) && view < 4
    ensures |Told(c, l, w).views| == |Shows(c, l, w).views| == 4
    ensures Told(c, l, w).views[view] == AsRead(Shows(c, l, w).views[view], w.sha256)
    ensures Sees(Told(c, l, w), view) ==> View(Told(c, l, w), view) == Shows(c, l, w).views[view].snapshot
  {
    hide AsWritten, Readable, Snap, AfterUpload, AfterDeploy;
  }

  /** Any version with the date, without flags, with the known bindings, and with the candidate's handlers
      if it is the candidate, can be read; so can any deployment of such versions. */
  predicate CanRead(c: Cloud, candidate: string)
    requires Sound(c)
  {
    Readable(Sight(Snap(c), c.versions[c.active].handlers, c.versions[c.latest].handlers, get => false), candidate)
  }

  lemma CanReadMeans(c: Cloud, l: Luck, view: nat, candidate: string)
    requires Sound(c)
    ensures CanRead(c, candidate) <==> Readable(Shown(c, l, view), candidate)
    ensures (forall get :: !l.fails(view, get)) ==>
              AsRead(Shown(c, l, view), candidate) == if CanRead(c, candidate) then Replied(Some(Snap(c))) else Raised
  {
    hide KnownVersion, Targeted, IsUuid, Snap;
  }

  /** After the upload the cloud can be read exactly when the provider finds the two handlers. */
  lemma UploadCanBeRead(c: Cloud, l: Luck, w: Source)
    requires Sound(c) && CanRead(c, w.sha256) && MetadataAgrees(Snap(c)) && Fresh(c, l) && !l.upload.Lost?
    requires IsSha256(w.sha256)
    ensures var d := AfterUpload(c, l, w);
            Sound(d) && Snap(d) == Snap(c).(latest := l.version, latestCode := w.sha256)
            && (CanRead(d, w.sha256) <==> l.handlers == CANDIDATE_HANDLERS)
  {
    SnapAfterUpload(c, l, w);
    var s := Snap(c);
    assert Sort([], StringLeq) == [];
    hide BindingsOk, Snap, Sort, IsSha256, IsUuid, Targeted, CANDIDATE_HANDLERS, DB_FINGERPRINT, RATE_FINGERPRINT,
         COMPATIBILITY_DATE, StringLeq;
  }

  lemma DeployCanBeRead(c: Cloud, l: Luck, candidate: string)
    requires Sound(c) && CanRead(c, candidate) && c.latest == l.version && !l.deploy.Lost?
    requires IsUuid(l.deployment)
    ensures var d := AfterDeploy(c, l, l.version);
            Sound(d) && CanRead(d, candidate)
            && Snap(d) == Snap(c).(active := c.latest, activeCode := Snap(c).latestCode,
                                   activeBindings := Snap(c).latestBindings, activeConfig := Snap(c).latestConfig,
                                   deployment := l.deployment)
  {
    hide BindingsOk, IsSha256, IsUuid, CANDIDATE_HANDLERS, DB_FINGERPRINT, RATE_FINGERPRINT, COMPATIBILITY_DATE, ROUTES,
         SCHEMA, ACCOUNT_SHA256;
  }

  lemma ToldViews(c: Cloud, l: Luck, w: Source)
    requires Sound(c) && AllDelivered(l) && Fresh(c, l)
    ensures var a, c1 := Told(c, l, w), AfterUpload(c, l, w);
            Sound(c1) && Sound(AfterDeploy(c1, l, l.version)) && |a.views| == 4
            && a.views[0] == a.views[1] == (if CanRead(c, w.sha256) then Replied(Some(Snap(c))) else Raised)
            && a.views[2] == (if CanRead(c1, w.sha256) then Replied(Some(Snap(c1))) else Raised)
            && (CanRead(AfterDeploy(c1, l, l.version), w.sha256) ==>
                  a.views[3] == Replied(Some(Snap(AfterDeploy(c1, l, l.version)))))
            && a.upload == Replied(Some(l.version)) && a.deploy == Replied(Some(l.deployment))
  {
    hide Snap, CanRead, IsUuid, UploadMetadata, Readable, Targeted;
    var c1 := AfterUpload(c, l, w);
    var c2 := AfterDeploy(c1, l, l.version);
    CanReadMeans(c, l, 0, w.sha256);
    CanReadMeans(c, l, 1, w.sha256);
    CanReadMeans(c1, l, 2, w.sha256);
    CanReadMeans(c2, l, 3, w.sha256);
    hide AsRead, Shown, AllDelivered;
  }

  /** The run on these answers: the state before, the upload unless it cannot be read, the deployment. */
  lemma AnswersVerify(a: Answers, s: Snapshot, version: string, deployment: string, known: bool, p: Approval,
                      w: Source, sha: Snapshot -> string)
    requires |a.views| == 4 && a.views[0] == a.views[1] == Replied(Some(s))
    requires a.upload == Replied(Some(version)) && a.deploy == Replied(Some(deployment))
    requires IsUuid(version) && IsUuid(deployment) && version != s.active && deployment != s.deployment
    requires Valid(s, false) && MetadataAgrees(s)
    requires var up := s.(latest := version, latestCode := w.sha256);
             var live := up.(active := version, activeCode := w.sha256, deployment := deployment);
             if known then Valid(up, true) && Valid(live, false)
                           && a.views[2] == Replied(Some(up)) && a.views[3] == Replied(Some(live))
             else a.views[2] == Raised
    ensures GoodAnswers(a, p, w, sha) == if sha(s) != p.preflight then 1 else if known then 6 else 3
  {
    hide Valid, IsUuid;
  }

  lemma NothingRead(a: Answers, p: Approval, w: Source, sha: Snapshot -> string)
    requires |a.views| == 4
    requires Sees(a, 0) ==> !Valid(View(a, 0), false)
    ensures GoodAnswers(a, p, w, sha) == 0
  {
    hide Valid;
  }

  lemma CanReadValid(c: Cloud, candidate: string)
    requires Sound(c) && CanRead(c, candidate)
    ensures if c.latest == c.active then
              Valid(Snap(c), false) && MetadataAgrees(Snap(c)) && Snap(c).latest == Snap(c).active
            else Valid(Snap(c), true) && !Valid(Snap(c), false)
  {
    var a, l := c.versions[c.active], c.versions[c.latest];
    ReadableIsValid(Sight(Snap(c), a.handlers, l.handlers, get => false), candidate);
    hide Readable, Targeted, ShapesOk;
  }

  lemma DeliveredIsNotLost(l: Luck)
    ensures AllDelivered(l) ==> !l.upload.Lost? && !l.deploy.Lost?
  {
  }

  lemma FreshDiffers(c: Cloud, l: Luck)
    requires Sound(c) && Fresh(c, l)
    ensures IsUuid(l.version) && IsUuid(l.deployment)
    ensures l.version != Snap(c).active == c.active && l.deployment != Snap(c).deployment
  {
    hide IsUuid;
  }

  lemma UploadedIsLatest(c: Cloud, l: Luck, w: Source)
    requires Sound(c) && !l.upload.Lost? && !l.deploy.Lost?
    ensures var c1 := AfterUpload(c, l, w);
            c1.latest == l.version && c1.active == c.active
            && AfterDeploy(c1, l, l.version).active == AfterDeploy(c1, l, l.version).latest == l.version
  {
    hide UploadMetadata, Snap;
  }

  /** A run in which nothing is lost succeeds exactly when it is approved for the state as it is, that state
      can be read and has its latest version active, and the provider finds the reviewed handlers in the
      uploaded code; otherwise it stops at the first read, at the approval, or at the read after the upload. */
  lemma RunSucceedsIff(c: Cloud, l: Luck, p: Approval, w: Source, sha: Snapshot -> string)
    requires Sound(c) && Fresh(c, l) && AllDelivered(l) && IsSha256(w.sha256)
    ensures Progress(c, l, p, w, sha) == 6 <==>
              Approved(p) && w.reviewed && p.preflight == sha(Snap(c)) && CanRead(c, w.sha256) && c.latest == c.active
              && l.handlers == CANDIDATE_HANDLERS
    ensures Progress(c, l, p, w, sha) in {0, 1, 3, 6}
  {
    hide GoodAnswers, Valid, Approved, Snap, CanRead, AfterUpload, AfterDeploy, IsUuid, CANDIDATE_HANDLERS, Told,
         IsSha256, AllDelivered;
    ToldViews(c, l, w);
    var a := Told(c, l, w);
    if CanRead(c, w.sha256) {
      CanReadValid(c, w.sha256);
    }
    if CanRead(c, w.sha256) && c.latest == c.active {
      var c1 := AfterUpload(c, l, w);
      DeliveredIsNotLost(l);
      UploadCanBeRead(c, l, w);
      FreshDiffers(c, l);
      if l.handlers == CANDIDATE_HANDLERS {
        UploadedIsLatest(c, l, w);
        DeployCanBeRead(c1, l, w.sha256);
        CanReadValid(c1, w.sha256);
        CanReadValid(AfterDeploy(c1, l, l.version), w.sha256);
      }
      AnswersVerify(a, Snap(c), l.version, l.deployment, l.handlers == CANDIDATE_HANDLERS, p, w, sha);
    } else {
      NothingRead(a, p, w, sha);
    }
  }

  /** A successful run leaves the candidate active, and its bindings, configuration and routes are
      those of the version that was active before. */
  lemma SuccessActivatesCandidate(c: Cloud, l: Luck, p: Approval, w: Source, sha: Snapshot -> string)
    requires Sound(c) && Fresh(c, l) && Progress(c, l, p, w, sha) == 6
    ensures var d := AfterRun(c, l, p, w, sha);
            Sound(d) && d.active == d.latest == l.version
            && d.versions[d.active] == c.versions[c.active].(code := w.sha256, handlers := l.handlers)
            && d.routes == c.routes && d.deployment == l.deployment
            && (forall v :: v in c.versions ==> v in d.versions && d.versions[v] == c.versions[v])
  {
    hide Valid, Approved;
    var a := Told(c, l, w);
    assert Sees(a, 0) && Sees(a, 2) && Sees(a, 3);
    SnapAfterUpload(c, l, w);
    assert View(a, 2) == Snap(AfterUpload(c, l, w));
  }
}
