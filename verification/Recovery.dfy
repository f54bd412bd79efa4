/** The recovery run of the stats worker: it deploys a version that is already uploaded. */
module Recovery {
  import opened Shapes
  import opened StatsWorker
  import opened Transport

  /** `_recovery_state`, for one snapshot: the candidate is uploaded and not active, and nothing else
      differs between the latest and the active version. */
  predicate Recoverable(s: Snapshot, w: Source) {
    Valid(s, true) && s.latest != s.active && s.latestCode == w.sha256 && s.activeCode != w.sha256
    && MetadataAgrees(s)
  }

  predicate PostRecovery(before: Snapshot, s: Snapshot, w: Source) {
    Valid(s, false) && s.active == before.latest && s.latest == before.latest && s.deployment != before.deployment
    && s.activeCode == w.sha256 && s.latestCode == w.sha256 && s.routes == before.routes
    && s.activeBindings == before.latestBindings && s.latestBindings == before.latestBindings
    && s.activeConfig == before.latestConfig && s.latestConfig == before.latestConfig
  }

  /** How many of the two calls from the deployment on are answered well. */
  function GoodWrites(a: Answers, before: Snapshot, w: Source): nat {
    if !GoodId(a.deploy) then 0
    else if !Sees(a, 2) || !PostRecovery(before, View(a, 2), w)
            || View(a, 2).deployment != a.deploy.value.value then 1
    else 2
  }

  /** How many of the four calls are answered well before the first that is not. */
  function GoodAnswers(a: Answers, w: Source, expected: string, sha: Snapshot -> string): nat {
    if !Sees(a, 0) || !Valid(View(a, 0), true) then 0
    else if !Sees(a, 1) || !Valid(View(a, 1), true) || View(a, 1) != View(a, 0) || !Recoverable(View(a, 0), w)
            || sha(View(a, 0)) != expected then 1
    else 2 + GoodWrites(a, View(a, 0), w)
  }

  function Calls(a: Answers, w: Source, expected: string, sha: Snapshot -> string): seq<Dispatch> {
    var good := GoodAnswers(a, w, expected, sha);
    if good == 0 then [Read]
    else if good == 1 then [Read, Read]
    else [Read, Read] + Writes(a, View(a, 0), w)
  }

  function Writes(a: Answers, before: Snapshot, w: Source): seq<Dispatch> {
    [Dispatch.Deploy(before.latest, 100)] + (if GoodWrites(a, before, w) < 1 then [] else [Read])
  }

  predicate Uncertain(code: string) {
    |code| >= 21 && code[|code| - 21..] == "_outcome_unknown_stop"
  }

  lemma RecoveredIsActive(before: Snapshot, s: Snapshot, w: Source)
    ensures PostRecovery(before, s, w) ==> s.latest == s.active
  {
  }

  /** Which stop codes tell that call number `good` was not answered well, or what was read in it is not
      what was approved. */
  predicate Tells(code: string, good: nat) {
    if good == 0 then code == "recovery_read_failed"
    else if good == 1 then
      code == "recovery_read_failed" || code == "recovery_state_drift" || code == "recovery_not_required"
      || code == "recovery_candidate_state_invalid" || code == "recovery_binding_drift"
      || code == "recovery_configuration_drift" || code == "recovery_snapshot_binding_drift"
    else if good == 2 then
      code == "recovery_deploy_outcome_unknown_stop" || code == "recovery_deploy_reply_outcome_unknown_stop"
    else code == "recovery_post_deploy_outcome_unknown_stop"
  }

  lemma CodesTell()
    ensures Tells("recovery_read_failed", 0) && Tells("recovery_read_failed", 1) && Tells("recovery_state_drift", 1)
    ensures Tells("recovery_not_required", 1) && Tells("recovery_candidate_state_invalid", 1)
    ensures Tells("recovery_binding_drift", 1) && Tells("recovery_configuration_drift", 1)
    ensures Tells("recovery_snapshot_binding_drift", 1)
    ensures Tells("recovery_deploy_outcome_unknown_stop", 2) && Tells("recovery_deploy_reply_outcome_unknown_stop", 2)
    ensures Tells("recovery_post_deploy_outcome_unknown_stop", 3)
  {
  }

  /** Only the codes after a dispatch admit an unknown outcome. */
  lemma UncertainCodes()
    ensures Uncertain("recovery_deploy_outcome_unknown_stop") && Uncertain("recovery_deploy_reply_outcome_unknown_stop")
    ensures Uncertain("recovery_post_deploy_outcome_unknown_stop")
    ensures !Uncertain("source_blob_drift") && !Uncertain("recovery_read_failed") && !Uncertain("recovery_state_drift")
    ensures !Uncertain("recovery_not_required") && !Uncertain("recovery_candidate_state_invalid")
    ensures !Uncertain("recovery_binding_drift") && !Uncertain("recovery_configuration_drift")
    ensures !Uncertain("recovery_snapshot_binding_drift")
  {
  }

  /** The part of the run that writes. */
  method Redeploy(trusted: CloudflareTransport, before: Snapshot, w: Source) returns (r: Result<string>)
    requires trusted.trace == [Read, Read] && trusted.viewed == 2 && trusted.gets <= 20
    requires trusted.allowDeployExisting && trusted.uploads == 0 && trusted.deploys == 0
    modifies trusted
    ensures trusted.gets <= 30 && trusted.uploads == 0 && trusted.deploys == 1
    ensures trusted.trace == [Read, Read] + Writes(trusted.Told(), before, w)
    ensures r.Ok? <==> GoodWrites(trusted.Told(), before, w) == 2
    ensures r.Stop? ==> Uncertain(r.code) && Tells(r.code, 2 + GoodWrites(trusted.Told(), before, w))
  {
    hide Tells, Uncertain, AsTold, IsUuid, PostRecovery;
    CodesTell();
    UncertainCodes();
    if Sees(trusted.Told(), 2) {
      RecoveredIsActive(before, View(trusted.Told(), 2), w);
    }
    var deployment := trusted.DeployVersionOnce(before.latest, 100);
    if deployment.Raised? {
      return Stop("recovery_deploy_outcome_unknown_stop");
    }
    if deployment.value.None? || !IsUuid(deployment.value.value) {
      return Stop("recovery_deploy_reply_outcome_unknown_stop");
    }
    var after := trusted.ReadSnapshot(false);
    if after.Raised? || after.value.None? || !PostRecovery(before, after.value.value, w)
       || after.value.value.deployment != deployment.value.value {
      return Stop("recovery_post_deploy_outcome_unknown_stop");
    }
    return Ok(before.latest);
  }

  /** One deployment of the uploaded version at most; the stop code admits an unknown outcome exactly
      when it was dispatched. */
  method DeployExisting(trusted: CloudflareTransport, w: Source, expected: string, sha: Snapshot -> string)
    returns (r: Result<string>)
    requires trusted.Unused() && trusted.allowDeployExisting
    modifies trusted
    ensures trusted.gets <= 30 && trusted.uploads == 0
    ensures trusted.deploys == (if |trusted.trace| > 2 then 1 else 0)
    ensures w.reviewed ==> trusted.trace == Calls(trusted.Told(), w, expected, sha)
    ensures !w.reviewed ==> trusted.trace == []
    ensures r.Ok? <==> w.reviewed && GoodAnswers(trusted.Told(), w, expected, sha) == 4
    ensures r.Ok? ==> trusted.deploys == 1
    ensures r.Stop? ==> (Uncertain(r.code) <==> trusted.deploys == 1)
    ensures r.Stop? ==>
              if !w.reviewed then r.code == "source_blob_drift"
              else Tells(r.code, GoodAnswers(trusted.Told(), w, expected, sha))
  {
    hide Tells, AsTold, Valid, PostRecovery, GoodWrites, Uncertain;
    CodesTell();
    UncertainCodes();
    if !w.reviewed {
      return Stop("source_blob_drift");
    }
    var first := trusted.ReadSnapshot(true);
    if first.Raised? || first.value.None? || !Valid(first.value.value, true) {
      return Stop("recovery_read_failed");
    }
    var before := first.value.value;
    var second := trusted.ReadSnapshot(true);
    if second.Raised? || second.value.None? || !Valid(second.value.value, true) {
      return Stop("recovery_read_failed");
    }
    if before != second.value.value {
      return Stop("recovery_state_drift");
    }
    if before.latest == before.active {
      return Stop("recovery_not_required");
    }
    if before.latestCode != w.sha256 || before.activeCode == w.sha256 {
      return Stop("recovery_candidate_state_invalid");
    }
    if before.activeBindings != before.latestBindings {
      return Stop("recovery_binding_drift");
    }
    if before.activeConfig != before.latestConfig {
      return Stop("recovery_configuration_drift");
    }
    if sha(before) != expected {
      return Stop("recovery_snapshot_binding_drift");
    }
    r := Redeploy(trusted, before, w);
  }
}
