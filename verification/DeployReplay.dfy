/** Any number of deployment and recovery runs with the same approvals against an honest provider:
    each approval pays for at most one upload and one deployment. */
module DeployReplay {
  import opened Shapes
  import opened StatsWorker
  import opened Transport
  import opened Deploy
  import opened DeployCloud
  import Recovery

  /** Equal digests mean equal snapshots. */
  ghost predicate Injective(sha: Snapshot -> string) {
    forall x, y :: sha(x) == sha(y) ==> x == y
  }

  datatype Run = Apply(luck: Luck) | Recover(luck: Luck)

  /** What the owner approved, once and for all. */
  datatype Terms = Terms(approval: Approval, recovery: string, source: Source, sha: Snapshot -> string)

  function ShownInRecovery(c: Cloud, l: Luck): Provider
    requires Sound(c)
  {
    Provider([Shown(c, l, 0), Shown(c, l, 1), Shown(AfterDeploy(c, l, c.latest), l, 2)], Raised,
             Reply(l.deploy, l.deployment))
  }

  /** How many calls of a recovery run are answered well. */
  function RecoveryProgress(c: Cloud, l: Luck, t: Terms): nat
    requires Sound(c)
  {
    if !t.source.reviewed then 0
    else Recovery.GoodAnswers(AsTold(ShownInRecovery(c, l), t.source.sha256), t.source, t.recovery, t.sha)
  }

  predicate RecoveryTook(c: Cloud, l: Luck, t: Terms)
    requires Sound(c)
  {
    RecoveryProgress(c, l, t) >= 2 && !l.deploy.Lost?
  }

  function After(c: Cloud, r: Run, t: Terms): Cloud
    requires Sound(c)
  {
    match r
    case Apply(l) => AfterRun(c, l, t.approval, t.source, t.sha)
    case Recover(l) => if RecoveryTook(c, l, t) then AfterDeploy(c, l, c.latest) else c
  }

  lemma AfterIsSound(c: Cloud, r: Run, t: Terms)
    requires Sound(c)
    ensures Sound(After(c, r, t))
    ensures c.versions.Keys <= After(c, r, t).versions.Keys && c.deployments <= After(c, r, t).deployments
  {
    if r.Apply? && DeployTook(c, r.luck, t.approval, t.source, t.sha) {
      assert r.luck.upload.Delivered?;
    }
  }

  /** Every run draws ids the provider has not used before. */
  ghost predicate FreshThroughout(c: Cloud, runs: seq<Run>, t: Terms)
    requires Sound(c)
    decreases |runs|
  {
    runs == []
    || (Fresh(c, runs[0].luck) && (AfterIsSound(c, runs[0], t); FreshThroughout(After(c, runs[0], t), runs[1..], t)))
  }

  /** The writes that took effect. */
  datatype Tally = Tally(uploads: nat, deploys: nat, recoveries: nat)

  function Effects(c: Cloud, r: Run, t: Terms): Tally
    requires Sound(c)
  {
    match r
    case Apply(l) =>
      Tally(if UploadTook(c, l, t.approval, t.source, t.sha) then 1 else 0,
            if DeployTook(c, l, t.approval, t.source, t.sha) then 1 else 0, 0)
    case Recover(l) => Tally(0, 0, if RecoveryTook(c, l, t) then 1 else 0)
  }

  function Total(c: Cloud, runs: seq<Run>, t: Terms): Tally
    requires Sound(c)
    decreases |runs|
  {
    if runs == [] then Tally(0, 0, 0)
    else
      AfterIsSound(c, runs[0], t);
      var now, later := Effects(c, runs[0], t), Total(After(c, runs[0], t), runs[1..], t);
      Tally(now.uploads + later.uploads, now.deploys + later.deploys, now.recoveries + later.recoveries)
  }

  // ---------------------------------------------------------------------------------------------
  // Why an approval cannot be used twice

  /** The deployment approval was given for a snapshot whose latest version is no longer the latest. */
  ghost predicate ApprovalSpent(c: Cloud, t: Terms) {
    exists s: Snapshot :: t.sha(s) == t.approval.preflight && s.latest in c.versions && c.latest != s.latest
  }

  /** The recovery approval was given for a snapshot whose deployment is no longer the current one. */
  ghost predicate RecoverySpent(c: Cloud, t: Terms) {
    exists s: Snapshot :: t.sha(s) == t.recovery && s.deployment in c.deployments && c.deployment != s.deployment
  }

  lemma WritesNeedTheApprovedState(c: Cloud, l: Luck, t: Terms)
    requires Sound(c)
    ensures UploadTook(c, l, t.approval, t.source, t.sha) ==> t.sha(Snap(c)) == t.approval.preflight
    ensures DeployTook(c, l, t.approval, t.source, t.sha) ==> UploadTook(c, l, t.approval, t.source, t.sha)
    ensures RecoveryTook(c, l, t) ==> t.sha(Snap(c)) == t.recovery
  {
    hide Valid, Approved, MetadataAgrees, PostUpload, PostDeploy;
  }

  lemma UploadSpends(c: Cloud, l: Luck, t: Terms)
    requires Sound(c) && Fresh(c, l) && UploadTook(c, l, t.approval, t.source, t.sha)
    ensures ApprovalSpent(After(c, Apply(l), t), t)
  {
    hide Valid, Approved, MetadataAgrees, PostUpload, PostDeploy, GoodAnswers;
    WritesNeedTheApprovedState(c, l, t);
    assert Snap(c).latest in After(c, Apply(l), t).versions;
  }

  lemma RecoverySpends(c: Cloud, l: Luck, t: Terms)
    requires Sound(c) && Fresh(c, l) && RecoveryTook(c, l, t)
    ensures RecoverySpent(After(c, Recover(l), t), t)
  {
    WritesNeedTheApprovedState(c, l, t);
    assert Snap(c).deployment in After(c, Recover(l), t).deployments;
  }

  /** Spent approvals stay spent, because ids are never reused. */
  lemma SpentStays(c: Cloud, r: Run, t: Terms)
    requires Sound(c) && Fresh(c, r.luck)
    ensures ApprovalSpent(c, t) ==> ApprovalSpent(After(c, r, t), t)
    ensures RecoverySpent(c, t) ==> RecoverySpent(After(c, r, t), t)
  {
    hide GoodAnswers, Approved;
    var d := After(c, r, t);
    if ApprovalSpent(c, t) {
      var s: Snapshot :| t.sha(s) == t.approval.preflight && s.latest in c.versions && c.latest != s.latest;
      assert s.latest in d.versions && d.latest != s.latest;
    }
    if RecoverySpent(c, t) {
      var s: Snapshot :| t.sha(s) == t.recovery && s.deployment in c.deployments && c.deployment != s.deployment;
      assert s.deployment in d.deployments && d.deployment != s.deployment;
    }
  }

  lemma SpentBlocks(c: Cloud, l: Luck, t: Terms)
    requires Sound(c) && Injective(t.sha)
    ensures ApprovalSpent(c, t) ==>
              !UploadTook(c, l, t.approval, t.source, t.sha) && !DeployTook(c, l, t.approval, t.source, t.sha)
    ensures RecoverySpent(c, t) ==> !RecoveryTook(c, l, t)
  {
    hide GoodAnswers, Approved;
    WritesNeedTheApprovedState(c, l, t);
  }

  lemma {:induction false} TotalIsBounded(c: Cloud, runs: seq<Run>, t: Terms)
    requires Sound(c) && Injective(t.sha) && FreshThroughout(c, runs, t)
    ensures Total(c, runs, t).uploads <= (if ApprovalSpent(c, t) then 0 else 1)
    ensures Total(c, runs, t).recoveries <= (if RecoverySpent(c, t) then 0 else 1)
    ensures Total(c, runs, t).deploys <= Total(c, runs, t).uploads
    decreases |runs|
  {
    hide GoodAnswers, Approved, UploadTook, DeployTook, RecoveryTook, ApprovalSpent, RecoverySpent, Injective, AfterRun;
    if runs != [] {
      var r := runs[0];
      AfterIsSound(c, r, t);
      SpentStays(c, r, t);
      SpentBlocks(c, r.luck, t);
      WritesNeedTheApprovedState(c, r.luck, t);
      match r {
        case Apply(l) =>
          if UploadTook(c, l, t.approval, t.source, t.sha) {
            UploadSpends(c, l, t);
          }
        case Recover(l) =>
          if RecoveryTook(c, l, t) {
            RecoverySpends(c, l, t);
          }
      }
      TotalIsBounded(After(c, r, t), runs[1..], t);
    }
  }

  /** However often the deployment and the recovery are run with the same approvals, and whatever
      requests and replies are lost on the way, at most one upload and one deployment of each kind
      ever take effect. */
  lemma ApprovalsPayOnce(c: Cloud, runs: seq<Run>, t: Terms)
    requires Sound(c) && Injective(t.sha) && FreshThroughout(c, runs, t)
    ensures Total(c, runs, t).deploys <= Total(c, runs, t).uploads <= 1 && Total(c, runs, t).recoveries <= 1
  {
    TotalIsBounded(c, runs, t);
  }
}
