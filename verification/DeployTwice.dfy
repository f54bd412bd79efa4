/** Two operators under one approval, interleaved: both uploads and both deployments take effect, and the
    version that the successful run reports is not the one that is live in the end. */
module DeployTwice {
  import opened Shapes
  import opened StatsWorker
  import opened Transport
  import opened Deploy
  import opened DeployCloud
  import opened DeployReplay
  import opened DeployInterleaved

  /** Some steps lead from the one state to the other. */
  ghost predicate Leads(s: System, z: System, t: Terms)
    requires Sound(s.cloud)
  {
    exists steps :: Runs(s, steps, t) && DeployInterleaved.After(s, steps, t) == z
  }

  lemma LeadsSelf(s: System, t: Terms)
    requires Sound(s.cloud)
    ensures Leads(s, s, t)
  {
    assert Runs(s, [], t) && DeployInterleaved.After(s, [], t) == s;
  }

  lemma LeadsStep(s: System, e: Step, z: System, t: Terms)
    requires Sound(s.cloud) && Enabled(s, e)
    ensures Sound(Next(s, e, t).cloud)
    ensures Leads(Next(s, e, t), z, t) ==> Leads(s, z, t)
  {
    hide Enabled, Next;
    NextIsSound(s, e, t);
    if Leads(Next(s, e, t), z, t) {
      var steps :| Runs(Next(s, e, t), steps, t) && DeployInterleaved.After(Next(s, e, t), steps, t) == z;
      var more := [e] + steps;
      assert more[0] == e && more[1..] == steps;
      assert Runs(s, more, t) && DeployInterleaved.After(s, more, t) == z;
    }
  }

  /** An undisturbed snapshot read. */
  lemma ReadAlone(s: System, p: nat, n: nat, z: System, t: Terms)
    requires Sound(s.cloud) && In(s, p, Looking(n, None)) && CanRead(s.cloud, t.source.sha256)
    ensures var j := Judged(s.runs[p].(phase := Looking(n, Some(s.cloud.latest))), Snap(s.cloud), t);
            Leads(To(s, p, j), z, t) ==> Leads(s, z, t)
  {
    hide Judged, CanRead, Snap, Leads;
    var m := Next(s, GetLatest(p), t);
    assert Mixed(s.cloud, s.cloud.latest) == s.cloud;
    var j := Judged(s.runs[p].(phase := Looking(n, Some(s.cloud.latest))), Snap(s.cloud), t);
    LeadsStep(m, GetRest(p), z, t);
    assert m.runs[p := j] == s.runs[p := j];
    assert Next(m, GetRest(p), t) == To(s, p, j);
    LeadsStep(s, GetLatest(p), z, t);
  }

  function Fortune(version: string, deployment: string): Luck {
    Luck((view, get) => false, Delivered, version, CANDIDATE_HANDLERS, Delivered, deployment)
  }

  /** The states that snapshots show after an upload and after its deployment. */
  function Up(b: Snapshot, version: string, code: string): Snapshot {
    b.(latest := version, latestCode := code)
  }

  function On(b: Snapshot, version: string, code: string, deployment: string): Snapshot {
    Up(b, version, code).(active := version, activeCode := code, deployment := deployment)
  }

  lemma Confirms(b: Snapshot, version: string, code: string, deployment: string)
    requires MetadataAgrees(b) && version != b.active && deployment != b.deployment
    ensures Valid(Up(b, version, code), true) ==> PostUpload(b, Up(b, version, code), version)
    ensures Valid(On(b, version, code, deployment), false) ==>
              PostDeploy(b, On(b, version, code, deployment), version)
  {
    hide Valid;
  }

  // ---------------------------------------------------------------------------------------------
  // The run

  datatype Case = Case(c: Cloud, x: string, y: string, dx: string, dy: string)

  /** A state from which a run alone succeeds, and ids still to be issued. */
  predicate Possible(k: Case, t: Terms) {
    Sound(k.c) && CanRead(k.c, t.source.sha256) && k.c.latest == k.c.active && t.approval.preflight == t.sha(Snap(k.c))
    && IsSha256(t.source.sha256) && k.x != k.y && k.dx != k.dy
    && Fresh(k.c, Fortune(k.x, k.dx)) && Fresh(k.c, Fortune(k.y, k.dy))
  }

  function First(k: Case, t: Terms): (c: Cloud)
    requires Sound(k.c)
    ensures Sound(c)
  {
    WithVersion(k.c, k.x, t.source.sha256, UploadMetadata(Snap(k.c)), CANDIDATE_HANDLERS)
  }

  function Second(k: Case, t: Terms): (c: Cloud)
    requires Sound(k.c)
    ensures Sound(c)
  {
    WithVersion(First(k, t), k.y, t.source.sha256, UploadMetadata(Snap(k.c)), CANDIDATE_HANDLERS)
  }

  /** The clouds on the way and what is read of them. */
  lemma Clouds(k: Case, t: Terms)
    requires Possible(k, t)
    ensures var b, code := Snap(k.c), t.source.sha256;
            var (c1, c2) := (First(k, t), Second(k, t));
            var c3 := WithDeployment(c2, k.y, k.dy);
            Sound(c1) && CanRead(c1, code) && Snap(c1) == Up(b, k.x, code)
            && Sound(c2) && CanRead(c2, code) && Snap(c2) == Up(b, k.y, code)
            && Sound(c3) && CanRead(c3, code) && Snap(c3) == On(b, k.y, code, k.dy)
            && Valid(b, false) && MetadataAgrees(b)
            && Valid(Snap(c1), true) && Valid(Snap(c2), true) && Valid(Snap(c3), false)
            && k.x != b.active && k.y != b.active && k.dy != b.deployment
  {
    var b, code := Snap(k.c), t.source.sha256;
    var (c1, c2) := (First(k, t), Second(k, t));
    var (lx, ly) := (Fortune(k.x, k.dx), Fortune(k.y, k.dy));
    CanReadValid(k.c, code);
    FreshDiffers(k.c, lx);
    FreshDiffers(k.c, ly);
    UploadCanBeRead(k.c, lx, t.source);
    CloudsAre(k, t);
    hide CanRead, Valid, Snap, IsUuid, IsSha256, UploadMetadata;
    CanReadValid(c1, code);
    UploadCanBeRead(c1, ly, t.source);
    CanReadValid(c2, code);
    DeployCanBeRead(c2, ly, code);
    CanReadValid(WithDeployment(c2, k.y, k.dy), code);
  }

  lemma CloudsAre(k: Case, t: Terms)
    requires Possible(k, t) && MetadataAgrees(Snap(k.c))
    requires Snap(First(k, t)) == Up(Snap(k.c), k.x, t.source.sha256)
    ensures var (lx, ly) := (Fortune(k.x, k.dx), Fortune(k.y, k.dy));
            First(k, t) == AfterUpload(k.c, lx, t.source) && Second(k, t) == AfterUpload(First(k, t), ly, t.source)
            && Fresh(First(k, t), ly) && MetadataAgrees(Snap(First(k, t)))
            && AfterDeploy(Second(k, t), ly, k.y) == WithDeployment(Second(k, t), k.y, k.dy)
            && First(k, t).active == Second(k, t).active == k.c.active && Second(k, t).latest == k.y
  {
    hide CanRead, IsUuid, IsSha256, CANDIDATE_HANDLERS;
  }

  function Approving(b: Snapshot): Operator {
    Operator(Uploading, Some(b), "", 0, "")
  }

  lemma Preflight(s: System, p: nat, z: System, t: Terms)
    requires Sound(s.cloud) && p !in s.runs && CanRead(s.cloud, t.source.sha256)
    requires Valid(Snap(s.cloud), false) && MetadataAgrees(Snap(s.cloud))
    requires t.approval.preflight == t.sha(Snap(s.cloud))
    ensures Leads(To(s, p, Approving(Snap(s.cloud))), z, t) ==> Leads(s, z, t)
  {
    hide CanRead, Snap, Valid, MetadataAgrees, Leads;
    var b := Snap(s.cloud);
    var s1 := Next(s, Begin(p), t);
    LeadsStep(s, Begin(p), z, t);
    ReadAlone(s1, p, 0, z, t);
    var r := Operator(Looking(1, None), Some(b), "", 0, "");
    assert Judged(s1.runs[p].(phase := Looking(0, Some(s1.cloud.latest))), b, t) == r;
    var s2 := To(s1, p, r);
    ReadAlone(s2, p, 1, z, t);
    assert Judged(r.(phase := Looking(1, Some(s2.cloud.latest))), b, t) == Approving(b);
    assert To(s2, p, Approving(b)).runs == To(s, p, Approving(b)).runs;
    assert To(s2, p, Approving(b)) == To(s, p, Approving(b));
  }

  /** The read after a run's own upload. */
  lemma UploadConfirmed(s: System, p: nat, r: Operator, b: Snapshot, z: System, t: Terms)
    requires Sound(s.cloud) && p in s.runs && s.runs[p] == r && r.phase == Looking(2, None) && r.before == Some(b)
    requires CanRead(s.cloud, t.source.sha256) && Snap(s.cloud) == Up(b, r.id, t.source.sha256)
    requires Valid(Snap(s.cloud), true) && MetadataAgrees(b) && r.id != b.active
    ensures Leads(To(s, p, r.(phase := Deploying)), z, t) ==> Leads(s, z, t)
  {
    hide CanRead, Snap, Valid, MetadataAgrees, Leads, PostUpload;
    Confirms(b, r.id, t.source.sha256, b.deployment + "x");
    ReadAlone(s, p, 2, z, t);
  }

  /** The read after a run's own deployment. */
  lemma DeployConfirmed(s: System, p: nat, r: Operator, b: Snapshot, z: System, t: Terms)
    requires Sound(s.cloud) && p in s.runs && s.runs[p] == r && r.phase == Looking(3, None) && r.before == Some(b)
    requires CanRead(s.cloud, t.source.sha256) && Snap(s.cloud) == On(b, r.id, t.source.sha256, r.deployment)
    requires Valid(Snap(s.cloud), false) && MetadataAgrees(b) && r.id != b.active && r.deployment != b.deployment
    ensures Leads(To(s, p, r.(phase := Succeeded)), z, t) ==> Leads(s, z, t)
  {
    hide CanRead, Snap, Valid, MetadataAgrees, Leads, PostDeploy;
    Confirms(b, r.id, t.source.sha256, r.deployment);
    ReadAlone(s, p, 3, z, t);
  }

  lemma UploadDone(s: System, p: nat, b: Snapshot, id: string, z: System, t: Terms)
    requires Sound(s.cloud) && In(s, p, Uploading) && s.runs[p].before == Some(b)
    requires IsUuid(id) && id !in s.cloud.versions
    ensures var c := WithVersion(s.cloud, id, t.source.sha256, UploadMetadata(b), CANDIDATE_HANDLERS);
            var r := s.runs[p].(phase := Looking(2, None), id := id, turn := s.uploads);
            Sound(c) && (Leads(System(c, s.uploads + 1, s.deploys, s.runs[p := r]), z, t) ==> Leads(s, z, t))
  {
    hide Leads, IsUuid, UploadMetadata, CANDIDATE_HANDLERS;
    LeadsStep(s, Step.Upload(p, id, CANDIDATE_HANDLERS, Delivered), z, t);
  }

  lemma DeployDone(s: System, p: nat, deployment: string, z: System, t: Terms)
    requires Sound(s.cloud) && In(s, p, Deploying) && s.runs[p].id in s.cloud.versions
    requires IsUuid(deployment) && deployment !in s.cloud.deployments
    ensures var c := WithDeployment(s.cloud, s.runs[p].id, deployment);
            var r := s.runs[p].(phase := Looking(3, None), deployment := deployment);
            Sound(c) && (Leads(System(c, s.uploads, s.deploys + 1, s.runs[p := r]), z, t) ==> Leads(s, z, t))
  {
    hide Leads, IsUuid;
    LeadsStep(s, Step.Deploy(p, deployment, Delivered), z, t);
  }

  /** The states on the way. */
  function AfterFirst(k: Case, t: Terms, b: Snapshot, first: Phase): System
    requires Sound(k.c)
  {
    System(First(k, t), 1, 0, map[0 := Operator(first, Some(b), k.x, 0, ""), 1 := Approving(b)])
  }

  function AfterSecond(k: Case, t: Terms, b: Snapshot, second: Phase): System
    requires Sound(k.c)
  {
    System(Second(k, t), 2, 0,
           map[0 := Operator(Deploying, Some(b), k.x, 0, ""), 1 := Operator(second, Some(b), k.y, 1, "")])
  }

  function AfterThird(k: Case, t: Terms, b: Snapshot, second: Phase): System
    requires Sound(k.c)
  {
    System(WithDeployment(Second(k, t), k.y, k.dy), 2, 1,
           map[0 := Operator(Deploying, Some(b), k.x, 0, ""), 1 := Operator(second, Some(b), k.y, 1, k.dy)])
  }

  function AtEnd(k: Case, t: Terms, b: Snapshot): System
    requires Sound(k.c)
  {
    System(WithDeployment(WithDeployment(Second(k, t), k.y, k.dy), k.x, k.dx), 2, 2,
           map[0 := Operator(Looking(3, None), Some(b), k.x, 0, k.dx), 1 := Operator(Succeeded, Some(b), k.y, 1, k.dy)])
  }

  lemma DeploysFirst(k: Case, t: Terms, b: Snapshot, z: System)
    requires Possible(k, t) && b == Snap(k.c)
    ensures Sound(AfterThird(k, t, b, Succeeded).cloud) && Sound(AtEnd(k, t, b).cloud)
    ensures Leads(AtEnd(k, t, b), z, t) ==> Leads(AfterThird(k, t, b, Succeeded), z, t)
  {
    hide CanRead, Snap, Valid, MetadataAgrees, Leads, First, Second, IsUuid, UploadMetadata, IsSha256, Possible, Up, On,
         Next, Enabled, Judged, Runs, WithVersion, WithDeployment, Fresh, PostUpload, PostDeploy;
    PossibleIs(k, t);
    Ids(k, t);
    var s := AfterThird(k, t, b, Succeeded);
    DeployDone(s, 0, k.dx, z, t);
    assert s.runs[0 := AtEnd(k, t, b).runs[0]] == AtEnd(k, t, b).runs;
  }

  lemma ReadsDeployment(k: Case, t: Terms, b: Snapshot, z: System)
    requires Possible(k, t) && b == Snap(k.c)
    ensures Sound(AfterThird(k, t, b, Looking(3, None)).cloud) && Sound(AfterThird(k, t, b, Succeeded).cloud)
    ensures Leads(AfterThird(k, t, b, Succeeded), z, t) ==> Leads(AfterThird(k, t, b, Looking(3, None)), z, t)
  {
    hide CanRead, Snap, Valid, MetadataAgrees, Leads, First, Second, IsUuid, UploadMetadata, IsSha256, Possible, Up, On,
         Next, Enabled, Judged, Runs, WithVersion, WithDeployment, Fresh, PostUpload, PostDeploy;
    PossibleIs(k, t);
    Clouds(k, t);
    var s := AfterThird(k, t, b, Looking(3, None));
    DeployConfirmed(s, 1, s.runs[1], b, z, t);
    assert To(s, 1, s.runs[1].(phase := Succeeded)).runs == AfterThird(k, t, b, Succeeded).runs;
  }

  lemma DeploysSecond(k: Case, t: Terms, b: Snapshot, z: System)
    requires Possible(k, t) && b == Snap(k.c)
    ensures Sound(AfterSecond(k, t, b, Deploying).cloud) && Sound(AfterThird(k, t, b, Looking(3, None)).cloud)
    ensures Leads(AfterThird(k, t, b, Looking(3, None)), z, t) ==> Leads(AfterSecond(k, t, b, Deploying), z, t)
  {
    hide CanRead, Snap, Valid, MetadataAgrees, Leads, First, Second, IsUuid, UploadMetadata, IsSha256, Possible, Up, On,
         Next, Enabled, Judged, Runs, WithVersion, WithDeployment, Fresh, PostUpload, PostDeploy;
    PossibleIs(k, t);
    Ids(k, t);
    var s := AfterSecond(k, t, b, Deploying);
    DeployDone(s, 1, k.dy, z, t);
    assert s.runs[1 := AfterThird(k, t, b, Looking(3, None)).runs[1]] == AfterThird(k, t, b, Looking(3, None)).runs;
  }

  lemma ReadsSecond(k: Case, t: Terms, b: Snapshot, z: System)
    requires Possible(k, t) && b == Snap(k.c)
    ensures Sound(AfterSecond(k, t, b, Looking(2, None)).cloud) && Sound(AfterSecond(k, t, b, Deploying).cloud)
    ensures Leads(AfterSecond(k, t, b, Deploying), z, t) ==> Leads(AfterSecond(k, t, b, Looking(2, None)), z, t)
  {
    hide CanRead, Snap, Valid, MetadataAgrees, Leads, First, Second, IsUuid, UploadMetadata, IsSha256, Possible, Up, On,
         Next, Enabled, Judged, Runs, WithVersion, WithDeployment, Fresh, PostUpload, PostDeploy;
    PossibleIs(k, t);
    Clouds(k, t);
    var s := AfterSecond(k, t, b, Looking(2, None));
    UploadConfirmed(s, 1, s.runs[1], b, z, t);
    assert To(s, 1, s.runs[1].(phase := Deploying)).runs == AfterSecond(k, t, b, Deploying).runs;
  }

  lemma UploadsSecond(k: Case, t: Terms, b: Snapshot, z: System)
    requires Possible(k, t) && b == Snap(k.c)
    ensures Sound(AfterFirst(k, t, b, Deploying).cloud) && Sound(AfterSecond(k, t, b, Looking(2, None)).cloud)
    ensures Leads(AfterSecond(k, t, b, Looking(2, None)), z, t) ==> Leads(AfterFirst(k, t, b, Deploying), z, t)
  {
    hide CanRead, Snap, Valid, MetadataAgrees, Leads, First, Second, IsUuid, UploadMetadata, IsSha256, Possible, Up, On,
         Next, Enabled, Judged, Runs, WithVersion, WithDeployment, Fresh, PostUpload, PostDeploy;
    PossibleIs(k, t);
    Ids(k, t);
    var s := AfterFirst(k, t, b, Deploying);
    UploadDone(s, 1, b, k.y, z, t);
    SecondIs(k, t);
    assert s.runs[1 := AfterSecond(k, t, b, Looking(2, None)).runs[1]] == AfterSecond(k, t, b, Looking(2, None)).runs;
  }

  lemma FirstIs(k: Case, t: Terms)
    requires Possible(k, t)
    ensures var b, c1 := Snap(k.c), First(k, t);
            CanRead(c1, t.source.sha256) && Snap(c1) == Up(b, k.x, t.source.sha256) && Valid(Snap(c1), true)
            && MetadataAgrees(b) && k.x != b.active && Sound(Second(k, t))
  {
    hide Possible, CanRead, Snap, Valid, MetadataAgrees, First, Second, Up, On;
    PossibleIs(k, t);
    Clouds(k, t);
  }

  lemma ReadsFirst(k: Case, t: Terms, b: Snapshot, z: System)
    requires Possible(k, t) && b == Snap(k.c)
    ensures Sound(AfterFirst(k, t, b, Looking(2, None)).cloud) && Sound(AfterFirst(k, t, b, Deploying).cloud)
    ensures Leads(AfterFirst(k, t, b, Deploying), z, t) ==> Leads(AfterFirst(k, t, b, Looking(2, None)), z, t)
  {
    hide CanRead, Snap, Valid, MetadataAgrees, Leads, First, Second, IsUuid, UploadMetadata, IsSha256, Possible, Up, On,
         Next, Enabled, Judged, Runs, WithVersion, WithDeployment, Fresh, PostUpload, PostDeploy;
    PossibleIs(k, t);
    FirstIs(k, t);
    var s := AfterFirst(k, t, b, Looking(2, None));
    UploadConfirmed(s, 0, s.runs[0], b, z, t);
    assert To(s, 0, s.runs[0].(phase := Deploying)).runs == AfterFirst(k, t, b, Deploying).runs;
  }

  lemma UploadsFirst(k: Case, t: Terms, b: Snapshot, z: System)
    requires Possible(k, t) && b == Snap(k.c)
    ensures Sound(Both(k, b).cloud) && Sound(AfterFirst(k, t, b, Looking(2, None)).cloud)
    ensures Leads(AfterFirst(k, t, b, Looking(2, None)), z, t) ==> Leads(Both(k, b), z, t)
  {
    hide CanRead, Snap, Valid, MetadataAgrees, Leads, First, Second, IsUuid, UploadMetadata, IsSha256, Possible, Up, On,
         Next, Enabled, Judged, Runs, WithVersion, WithDeployment, Fresh, PostUpload, PostDeploy;
    PossibleIs(k, t);
    Ids(k, t);
    var s := Both(k, b);
    UploadDone(s, 0, b, k.x, z, t);
    SecondIs(k, t);
    assert s.runs[0 := AfterFirst(k, t, b, Looking(2, None)).runs[0]] == AfterFirst(k, t, b, Looking(2, None)).runs;
  }

  lemma BothBegin(k: Case, t: Terms, b: Snapshot, z: System)
    requires Possible(k, t) && b == Snap(k.c)
    ensures Sound(System(k.c, 0, 0, map[]).cloud) && Sound(Both(k, b).cloud)
    ensures Leads(Both(k, b), z, t) ==> Leads(System(k.c, 0, 0, map[]), z, t)
  {
    hide CanRead, Snap, Valid, MetadataAgrees, Leads, First, Second, IsUuid, UploadMetadata, IsSha256, Possible, Up, On,
         Next, Enabled, Judged, Runs, WithVersion, WithDeployment, Fresh, PostUpload, PostDeploy;
    PossibleIs(k, t);
    Clouds(k, t);
    Ids(k, t);
    var s := System(k.c, 0, 0, map[]);
    var s1 := To(s, 0, Approving(b));
    Preflight(s1, 1, z, t);
    assert To(s1, 1, Approving(b)) == Both(k, b);
    Preflight(s, 0, z, t);
  }

  lemma SecondIs(k: Case, t: Terms)
    requires Sound(k.c)
    ensures First(k, t) == WithVersion(k.c, k.x, t.source.sha256, UploadMetadata(Snap(k.c)), CANDIDATE_HANDLERS)
    ensures Second(k, t)
         == WithVersion(First(k, t), k.y, t.source.sha256, UploadMetadata(Snap(k.c)), CANDIDATE_HANDLERS)
  {
  }

  lemma PossibleIs(k: Case, t: Terms)
    requires Possible(k, t)
    ensures Sound(k.c) && CanRead(k.c, t.source.sha256) && t.approval.preflight == t.sha(Snap(k.c))
  {
  }

  function Both(k: Case, b: Snapshot): System {
    System(k.c, 0, 0, map[0 := Approving(b), 1 := Approving(b)])
  }

  /** From every state from which a run alone succeeds, the second of two operators can succeed after both
      have uploaded, and then the first deploys its own version over it. */
  lemma ApprovalCanPayTwice(k: Case, t: Terms)
    requires Possible(k, t)
    ensures Leads(System(k.c, 0, 0, map[]), AtEnd(k, t, Snap(k.c)), t)
    ensures var z := AtEnd(k, t, Snap(k.c));
            z.uploads == z.deploys == 2 && In(z, 1, Succeeded) && z.runs[1].id == z.cloud.latest == k.y
            && z.cloud.active == k.x != k.y
  {
    hide Possible, CanRead, Snap, Valid, MetadataAgrees, Leads, First, Second, IsUuid, UploadMetadata, IsSha256, Up, On;
    PossibleIs(k, t);
    Ids(k, t);
    var b := Snap(k.c);
    var z := AtEnd(k, t, b);
    LeadsSelf(z, t);
    DeploysFirst(k, t, b, z);
    ReadsDeployment(k, t, b, z);
    DeploysSecond(k, t, b, z);
    ReadsSecond(k, t, b, z);
    UploadsSecond(k, t, b, z);
    ReadsFirst(k, t, b, z);
    UploadsFirst(k, t, b, z);
    BothBegin(k, t, b, z);
  }

  lemma Ids(k: Case, t: Terms)
    requires Possible(k, t)
    ensures IsUuid(k.x) && IsUuid(k.y) && IsUuid(k.dx) && IsUuid(k.dy)
    ensures k.x !in k.c.versions && k.y !in First(k, t).versions && k.x != k.y
    ensures k.x in Second(k, t).versions && k.y in Second(k, t).versions
    ensures k.dy !in Second(k, t).deployments && k.dx !in WithDeployment(Second(k, t), k.y, k.dy).deployments
    ensures Sound(WithDeployment(Second(k, t), k.y, k.dy))
    ensures Second(k, t).latest == k.y && k.x in WithDeployment(Second(k, t), k.y, k.dy).versions
  {
    hide IsUuid, CanRead, Snap, UploadMetadata;
  }
}
