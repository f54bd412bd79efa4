/** Several operators running the deployment at the same time under one approval. The provider has no
    conditional write, so an approval can then be used twice; but at most one run ever succeeds. */
module DeployInterleaved {
  import opened Shapes
  import opened StatsWorker
  import opened Transport
  import opened Deploy
  import opened DeployCloud
  import opened DeployReplay

  /** Where a run is: in snapshot read number `read`, with the latest version once that GET is done; about
      to write; or at its end. */
  datatype Phase = Looking(read: nat, latest: Option<string>) | Uploading | Deploying | Succeeded | Stopped

  /** A run; `turn` counts the uploads that took effect before its own. */
  datatype Operator = Operator(phase: Phase, before: Option<Snapshot>, id: string, turn: nat, deployment: string)

  datatype System = System(cloud: Cloud, uploads: nat, deploys: nat, runs: map<nat, Operator>)

  /** A snapshot read is not atomic: the latest version is read first, all that can change besides it, the
      deployment, after that. Versions never change. */
  datatype Step =
    | Begin(who: nat)
    | GetLatest(who: nat)
    | GetRest(who: nat)
    | Upload(who: nat, id: string, handlers: set<string>, fate: Fate)
    | Deploy(who: nat, deployment: string, fate: Fate)
    | Abort(who: nat)

  predicate In(s: System, p: nat, phase: Phase) {
    p in s.runs && s.runs[p].phase == phase
  }

  predicate Enabled(s: System, e: Step)
    requires Sound(s.cloud)
  {
    match e
    case Begin(p) => p !in s.runs
    case GetLatest(p) => p in s.runs && s.runs[p].phase.Looking? && s.runs[p].phase.latest.None?
    case GetRest(p) =>
      p in s.runs && s.runs[p].phase.Looking? && s.runs[p].phase.latest.Some?
      && s.runs[p].phase.latest.value in s.cloud.versions
    case Upload(p, id, _, _) =>
      In(s, p, Uploading) && s.runs[p].before.Some? && IsUuid(id) && id !in s.cloud.versions
    case Deploy(p, deployment, _) =>
      In(s, p, Deploying) && s.runs[p].id in s.cloud.versions
      && IsUuid(deployment) && deployment !in s.cloud.deployments
    case Abort(p) => p in s.runs && !s.runs[p].phase.Succeeded?
  }

  /** The snapshot put together from the latest version read first and the deployment read after it. */
  function Mixed(c: Cloud, latest: string): Cloud {
    c.(latest := latest)
  }

  /** What a run makes of snapshot `s`, read well. */
  function Judged(r: Operator, s: Snapshot, t: Terms): Operator
    requires r.phase.Looking?
  {
    match r.phase.read
    case 0 => if Valid(s, false) then r.(phase := Looking(1, None), before := Some(s)) else r.(phase := Stopped)
    case 1 =>
      if Valid(s, false) && r.before == Some(s) && t.sha(s) == t.approval.preflight && MetadataAgrees(s) then
        r.(phase := Uploading)
      else r.(phase := Stopped)
    case 2 =>
      if r.before.Some? && PostUpload(r.before.value, s, r.id) && s.latestCode == t.source.sha256 then
        r.(phase := Deploying)
      else r.(phase := Stopped)
    case _ =>
      if r.before.Some? && PostDeploy(r.before.value, s, r.id) && s.activeCode == t.source.sha256
         && s.latestCode == t.source.sha256 && s.deployment == r.deployment then r.(phase := Succeeded)
      else r.(phase := Stopped)
  }

  /** An operator judges each of its reads as the protocol does that gets the same answers: it goes on
      exactly when one more of its calls counts as answered well. */
  lemma JudgedAsByTheProtocol(r: Operator, a: Answers, t: Terms)
    requires r.phase.Looking? && r.phase.read <= 3
    requires Sees(a, 0) && Sees(a, 1) && Sees(a, 2) && Sees(a, 3)
    requires GoodId(a.upload) && GoodId(a.deploy) && a.upload.value.value != View(a, 0).active
    requires r.phase.read >= 1 ==> r.before == Some(View(a, 0)) && GoodAnswers(a, t.approval, t.source, t.sha) >= 1
    requires r.phase.read >= 2 ==> r.id == a.upload.value.value && GoodAnswers(a, t.approval, t.source, t.sha) >= 2
    requires r.phase.read >= 3 ==>
               r.deployment == a.deploy.value.value && GoodAnswers(a, t.approval, t.source, t.sha) >= 4
    ensures var good := GoodAnswers(a, t.approval, t.source, t.sha);
            Judged(r, View(a, r.phase.read), t)
            == match r.phase.read
               case 0 => if good >= 1 then r.(phase := Looking(1, None), before := Some(View(a, 0)))
                         else r.(phase := Stopped)
               case 1 => r.(phase := if good >= 2 then Uploading else Stopped)
               case 2 => r.(phase := if good >= 4 then Deploying else Stopped)
               case _ => r.(phase := if good == 6 then Succeeded else Stopped)
  {
    hide Valid, PostUpload, PostDeploy, MetadataAgrees, IsUuid;
  }

  function To(s: System, p: nat, r: Operator): System {
    s.(runs := s.runs[p := r])
  }

  function Next(s: System, e: Step, t: Terms): System
    requires Sound(s.cloud) && Enabled(s, e)
  {
    match e
    case Begin(p) => To(s, p, Operator(Looking(0, None), None, "", 0, ""))
    case GetLatest(p) => To(s, p, s.runs[p].(phase := Looking(s.runs[p].phase.read, Some(s.cloud.latest))))
    case GetRest(p) =>
      var c := Mixed(s.cloud, s.runs[p].phase.latest.value);
      if CanRead(c, t.source.sha256) then To(s, p, Judged(s.runs[p], Snap(c), t))
      else To(s, p, s.runs[p].(phase := Stopped))
    case Upload(p, id, handlers, fate) =>
      var m := UploadMetadata(s.runs[p].before.value);
      var u := if fate.Lost? then s
               else s.(cloud := WithVersion(s.cloud, id, t.source.sha256, m, handlers), uploads := s.uploads + 1);
      To(u, p, s.runs[p].(phase := if fate.Delivered? then Looking(2, None) else Stopped, id := id, turn := s.uploads))
    case Deploy(p, deployment, fate) =>
      var d := if fate.Lost? then s
               else s.(cloud := WithDeployment(s.cloud, s.runs[p].id, deployment), deploys := s.deploys + 1);
      To(d, p, s.runs[p].(phase := if fate.Delivered? then Looking(3, None) else Stopped, deployment := deployment))
    case Abort(p) => To(s, p, s.runs[p].(phase := Stopped))
  }

  lemma NextIsSound(s: System, e: Step, t: Terms)
    requires Sound(s.cloud) && Enabled(s, e)
    ensures Sound(Next(s, e, t).cloud)
    ensures s.cloud.versions.Keys <= Next(s, e, t).cloud.versions.Keys
  {
    hide CanRead, Judged, UploadMetadata, IsUuid, Snap;
  }

  ghost predicate Runs(s: System, steps: seq<Step>, t: Terms)
    requires Sound(s.cloud)
    decreases |steps|
  {
    steps == []
    || (Enabled(s, steps[0]) && (NextIsSound(s, steps[0], t); Runs(Next(s, steps[0], t), steps[1..], t)))
  }

  ghost function After(s: System, steps: seq<Step>, t: Terms): System
    requires Sound(s.cloud) && Runs(s, steps, t)
    decreases |steps|
  {
    if steps == [] then s else (NextIsSound(s, steps[0], t); After(Next(s, steps[0], t), steps[1..], t))
  }

  // ---------------------------------------------------------------------------------------------
  // At most one run succeeds

  /** The approval was checked. */
  predicate Checked(r: Operator) {
    r.phase.Uploading? || Uploaded(r)
  }

  /** The upload was confirmed by its reply. */
  predicate Uploaded(r: Operator) {
    r.phase.Deploying? || r.phase.Succeeded? || (r.phase.Looking? && r.phase.read >= 2)
  }

  predicate PastSecondRead(r: Operator) {
    r.phase.Deploying? || Deployed(r)
  }

  predicate Deployed(r: Operator) {
    r.phase.Succeeded? || (r.phase.Looking? && r.phase.read >= 3)
  }

  /** The last read has found its own version the latest. */
  predicate Sure(r: Operator) {
    r.phase.Succeeded? || (r.phase.Looking? && r.phase.read >= 3 && r.phase.latest == Some(r.id))
  }

  ghost predicate RunKept(s: System, r: Operator, t: Terms) {
    (r.phase.Looking? ==> r.phase.read <= 3)
    && (r.phase.Looking? && r.phase.latest.Some? ==> r.phase.latest.value in s.cloud.versions)
    && (r.before.Some? ==>
          r.before.value.active in s.cloud.versions && r.before.value.latest == r.before.value.active)
    && (Checked(r) ==> r.before.Some? && t.sha(r.before.value) == t.approval.preflight)
    && (Uploaded(r) ==>
          r.id in s.cloud.versions && r.id != r.before.value.active && r.turn < s.uploads
          && (s.cloud.latest == r.id ==> r.turn == s.uploads - 1))
    && (Deployed(r) ==> s.cloud.active != r.before.value.active)
  }

  /** No run that is past its second read uploaded after a run that is sure. */
  ghost predicate Ordered(s: System) {
    forall p, q :: p in s.runs && q in s.runs && p != q && Uploaded(s.runs[p]) && Uploaded(s.runs[q]) ==>
      s.runs[p].turn != s.runs[q].turn && s.runs[p].id != s.runs[q].id
      && (Sure(s.runs[p]) && PastSecondRead(s.runs[q]) ==> s.runs[q].turn < s.runs[p].turn)
  }

  ghost predicate Kept(s: System, t: Terms) {
    (forall p :: p in s.runs ==> RunKept(s, s.runs[p], t)) && Ordered(s)
    && (s.uploads > 0 ==> ApprovalSpent(s.cloud, t))
  }

  /** What the states before and after a judgement of snapshot `s` have in common. */
  predicate Judgement(r: Operator, s: Snapshot, j: Operator, t: Terms)
    requires r.phase.Looking?
  {
    j.id == r.id && j.turn == r.turn
    && match j.phase
       case Stopped => j.before == r.before
       case Looking(n, latest) =>
         r.phase.read == 0 && n == 1 && latest.None? && j.before == Some(s) && s.latest == s.active
       case Uploading =>
         r.phase.read == 1 && j.before == r.before == Some(s) && t.sha(s) == t.approval.preflight
       case Deploying =>
         r.phase.read == 2 && j.before == r.before && r.before.Some? && s.active == r.before.value.active
       case Succeeded => r.phase.read > 2 && j.before == r.before && s.latest == r.id
  }

  lemma JudgedIs(r: Operator, s: Snapshot, t: Terms)
    requires r.phase.Looking?
    ensures Judgement(r, s, Judged(r, s, t), t)
    ensures Judgement(r, s, r.(phase := Stopped), t)
  {
    StrictIsActive(s);
    hide Valid, MetadataAgrees, Preserved;
  }

  lemma MixedIs(c: Cloud, latest: string)
    requires Sound(c) && latest in c.versions
    ensures Sound(Mixed(c, latest))
    ensures Snap(Mixed(c, latest)).active == c.active && Snap(Mixed(c, latest)).latest == latest
  {
  }

  /** A run that changes its own state while cloud and counters stay. */
  lemma OwnStepKeeps(s: System, p: nat, r: Operator, t: Terms)
    requires Kept(s, t) && RunKept(s, r, t)
    requires Uploaded(r) ==>
               p in s.runs && Uploaded(s.runs[p]) && r.turn == s.runs[p].turn && r.id == s.runs[p].id
               && forall q :: q in s.runs && q != p && Uploaded(s.runs[q]) ==>
                    (Sure(r) && PastSecondRead(s.runs[q]) ==> s.runs[q].turn < r.turn)
                    && (Sure(s.runs[q]) && PastSecondRead(r) ==> r.turn < s.runs[q].turn)
    ensures Kept(To(s, p, r), t)
  {
    hide Uploaded, Sure, PastSecondRead, RunKept, ApprovalSpent;
    var n := To(s, p, r);
    forall q | q in n.runs ensures RunKept(n, n.runs[q], t) {
      SameRun(s, n, n.runs[q], t);
    }
  }

  lemma SameRun(s: System, n: System, r: Operator, t: Terms)
    requires n.cloud == s.cloud && n.uploads == s.uploads
    ensures RunKept(s, r, t) == RunKept(n, r, t)
  {
  }

  lemma LookKeeps(s: System, p: nat, t: Terms)
    requires Sound(s.cloud) && Kept(s, t) && Enabled(s, GetLatest(p))
    ensures Kept(Next(s, GetLatest(p), t), t)
  {
    var old' := s.runs[p];
    var r := old'.(phase := Looking(old'.phase.read, Some(s.cloud.latest)));
    assert RunKept(s, old', t);
    OwnStepKeeps(s, p, r, t);
  }

  lemma JudgementKept(s: System, r: Operator, snap: Snapshot, j: Operator, t: Terms)
    requires Sound(s.cloud) && RunKept(s, r, t) && r.phase.Looking? && r.phase.latest == Some(snap.latest)
    requires snap.active == s.cloud.active && Judgement(r, snap, j, t)
    ensures RunKept(s, j, t)
    ensures Uploaded(j) ==> Uploaded(r) && (Sure(j) ==> Sure(r))
                              && (PastSecondRead(j) && !PastSecondRead(r) ==> j.phase.Deploying?)
  {
  }

  /** Once some run is sure, the active version is another, and no run gets past its second read. */
  lemma NoneSure(s: System, r: Operator, snap: Snapshot, j: Operator, q: nat, t: Terms)
    requires Kept(s, t) && RunKept(s, r, t) && r.phase.Looking? && snap.active == s.cloud.active && Injective(t.sha)
    requires Judgement(r, snap, j, t) && j.phase.Deploying? && q in s.runs
    ensures !Sure(s.runs[q])
  {
    var other := s.runs[q];
    assert RunKept(s, other, t);
    assert Checked(other) ==> t.sha(other.before.value) == t.sha(r.before.value);
  }

  lemma RestKeeps(s: System, p: nat, t: Terms)
    requires Sound(s.cloud) && Kept(s, t) && Enabled(s, GetRest(p)) && Injective(t.sha)
    ensures Kept(Next(s, GetRest(p), t), t)
  {
    hide Snap, Judged, CanRead, Mixed, RunKept, Judgement, Uploaded, Sure, PastSecondRead;
    var r := s.runs[p];
    var v := r.phase.latest.value;
    MixedIs(s.cloud, v);
    var snap := Snap(Mixed(s.cloud, v));
    JudgedIs(r, snap, t);
    var j := if CanRead(Mixed(s.cloud, v), t.source.sha256) then Judged(r, snap, t) else r.(phase := Stopped);
    JudgementKept(s, r, snap, j, t);
    JudgementTurn(r, snap, j, t);
    if j.phase.Deploying? {
      forall q | q in s.runs ensures !Sure(s.runs[q]) {
        NoneSure(s, r, snap, j, q, t);
      }
    }
    OwnStepKeeps(s, p, j, t);
  }

  lemma JudgementTurn(r: Operator, s: Snapshot, j: Operator, t: Terms)
    requires r.phase.Looking? && Judgement(r, s, j, t)
    ensures j.turn == r.turn && j.id == r.id
  {
  }

  /** A write of another run: a new latest version, or an active version that is not the one before. */
  lemma OtherKept(s: System, n: System, r: Operator, t: Terms)
    requires RunKept(s, r, t) && s.cloud.versions.Keys <= n.cloud.versions.Keys && s.uploads <= n.uploads
    requires (n.cloud.latest == s.cloud.latest && n.uploads == s.uploads) || n.cloud.latest !in s.cloud.versions
    requires n.cloud.active != s.cloud.active && Checked(r) ==> n.cloud.active != r.before.value.active
    ensures RunKept(n, r, t)
  {
  }

  /** The written run itself, and that its turn is its own. */
  lemma UploaderKept(s: System, n: System, r: Operator, id: string, fate: Fate, t: Terms)
    requires Sound(s.cloud) && RunKept(s, r, t) && r.phase.Uploading? && id !in s.cloud.versions
    requires s.cloud.versions.Keys <= n.cloud.versions.Keys
    requires fate.Delivered? ==>
               id in n.cloud.versions && n.cloud.latest == id && n.uploads == s.uploads + 1
    ensures var phase := if fate.Delivered? then Looking(2, None) else Stopped;
            RunKept(n, r.(phase := phase, id := id, turn := s.uploads), t)
  {
  }

  lemma UploadKeeps(s: System, p: nat, id: string, handlers: set<string>, fate: Fate, t: Terms)
    requires Sound(s.cloud) && Kept(s, t) && Enabled(s, Step.Upload(p, id, handlers, fate))
    ensures Kept(Next(s, Step.Upload(p, id, handlers, fate), t), t)
  {
    hide UploadMetadata, IsUuid, RunKept, Checked, ApprovalSpent, Snap;
    var n := Next(s, Step.Upload(p, id, handlers, fate), t);
    UploadSpendsIt(s, n, s.runs[p], t);
    UploaderKept(s, n, s.runs[p], id, fate, t);
    forall q | q in n.runs ensures RunKept(n, n.runs[q], t) {
      if q != p {
        OtherKept(s, n, s.runs[q], t);
      }
    }
    forall q | q in n.runs && q != p && Uploaded(n.runs[q]) ensures n.runs[q].turn < s.uploads && n.runs[q].id != id {
      TurnIsPast(s, s.runs[q], t);
    }
  }

  lemma TurnIsPast(s: System, r: Operator, t: Terms)
    requires RunKept(s, r, t) && Uploaded(r)
    ensures r.turn < s.uploads && r.id in s.cloud.versions
  {
  }

  /** An upload that takes effect spends the approval, and it stays spent. */
  lemma UploadSpendsIt(s: System, n: System, r: Operator, t: Terms)
    requires RunKept(s, r, t) && r.phase.Uploading? && s.cloud.versions.Keys <= n.cloud.versions.Keys
    requires if n.uploads == s.uploads then n.cloud.latest == s.cloud.latest
             else n.cloud.latest !in s.cloud.versions
    ensures n.uploads > s.uploads || ApprovalSpent(s.cloud, t) ==> ApprovalSpent(n.cloud, t)
  {
    if n.uploads != s.uploads {
      var b := r.before.value;
      assert t.sha(b) == t.approval.preflight && b.latest in n.cloud.versions && n.cloud.latest != b.latest;
    } else if ApprovalSpent(s.cloud, t) {
      SameLatestSpent(s.cloud, n.cloud, t);
    }
  }

  lemma SameLatestSpent(c: Cloud, d: Cloud, t: Terms)
    requires ApprovalSpent(c, t) && c.versions.Keys <= d.versions.Keys && d.latest == c.latest
    ensures ApprovalSpent(d, t)
  {
    var b: Snapshot :| t.sha(b) == t.approval.preflight && b.latest in c.versions && c.latest != b.latest;
    assert b.latest in d.versions;
  }

  lemma DeployKeeps(s: System, p: nat, deployment: string, fate: Fate, t: Terms)
    requires Sound(s.cloud) && Kept(s, t) && Enabled(s, Step.Deploy(p, deployment, fate)) && Injective(t.sha)
    ensures Kept(Next(s, Step.Deploy(p, deployment, fate), t), t)
  {
    hide IsUuid, RunKept, Checked, ApprovalSpent;
    var n := Next(s, Step.Deploy(p, deployment, fate), t);
    if s.uploads > 0 {
      SameLatestSpent(s.cloud, n.cloud, t);
    }
    DeployerIs(s, s.runs[p], t);
    forall q | q in n.runs ensures RunKept(n, n.runs[q], t) {
      CheckedIs(s, s.runs[q], s.runs[p], t);
      OtherKept(s, n, s.runs[q], t);
      if q == p {
        DeployerKept(n, s.runs[p], deployment, fate, t);
      }
    }
  }

  lemma DeployerIs(s: System, r: Operator, t: Terms)
    requires RunKept(s, r, t) && r.phase.Deploying?
    ensures r.before.Some? && r.id != r.before.value.active && t.sha(r.before.value) == t.approval.preflight
  {
  }

  lemma CheckedIs(s: System, r: Operator, other: Operator, t: Terms)
    requires RunKept(s, r, t) && Injective(t.sha)
    requires other.before.Some? && t.sha(other.before.value) == t.approval.preflight
    ensures Checked(r) ==> r.before == other.before
  {
    assert Checked(r) ==> t.sha(r.before.value) == t.sha(other.before.value);
  }

  lemma DeployerKept(n: System, r: Operator, deployment: string, fate: Fate, t: Terms)
    requires RunKept(n, r, t) && r.phase.Deploying?
    requires fate.Delivered? ==> n.cloud.active == r.id
    ensures RunKept(n, r.(phase := if fate.Delivered? then Looking(3, None) else Stopped, deployment := deployment), t)
  {
  }

  lemma NextKeeps(s: System, e: Step, t: Terms)
    requires Sound(s.cloud) && Kept(s, t) && Enabled(s, e) && Injective(t.sha)
    ensures Kept(Next(s, e, t), t)
  {
    match e {
      case Begin(p) => OwnStepKeeps(s, p, Operator(Looking(0, None), None, "", 0, ""), t);
      case GetLatest(p) => LookKeeps(s, p, t);
      case GetRest(p) => RestKeeps(s, p, t);
      case Upload(p, id, handlers, fate) => UploadKeeps(s, p, id, handlers, fate, t);
      case Deploy(p, deployment, fate) => DeployKeeps(s, p, deployment, fate, t);
      case Abort(p) =>
        assert RunKept(s, s.runs[p], t);
        OwnStepKeeps(s, p, s.runs[p].(phase := Stopped), t);
    }
  }

  lemma {:induction false} RunsKeep(s: System, steps: seq<Step>, t: Terms)
    requires Sound(s.cloud) && Kept(s, t) && Runs(s, steps, t) && Injective(t.sha)
    ensures Kept(After(s, steps, t), t)
    decreases |steps|
  {
    hide Kept, Enabled, Next, Sound;
    if steps != [] {
      NextIsSound(s, steps[0], t);
      NextKeeps(s, steps[0], t);
      RunsKeep(Next(s, steps[0], t), steps[1..], t);
    }
  }

  /** However many operators run the deployment under one approval, and however their requests and their
      half-read snapshots interleave: at most one of the runs succeeds. */
  lemma AtMostOneSucceeds(c: Cloud, steps: seq<Step>, t: Terms, p: nat, q: nat)
    requires Sound(c) && Injective(t.sha) && Runs(System(c, 0, 0, map[]), steps, t)
    requires var s := After(System(c, 0, 0, map[]), steps, t);
             In(s, p, Succeeded) && In(s, q, Succeeded)
    ensures p == q
  {
    var start := System(c, 0, 0, map[]);
    assert Kept(start, t);
    RunsKeep(start, steps, t);
    hide RunKept, Runs;
  }
}
