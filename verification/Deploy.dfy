/** The two-phase deployment of the stats worker: one upload, one deployment, each confirmed by a
    fresh read, against a provider that may answer anything. */
module Deploy {
  import opened Shapes
  import opened StatsWorker
  import opened Transport

  const SOURCE_BLOB := "8790a8ddc3b83771088c4cceb16a3b57ce5d1c8b"
  const CONFIG_BLOB := "3733263a391274f2b6b0f2023c8656565bde8e1a"

  datatype Approval = Approval(
    sourceBlob: string, configBlob: string, worker: string, preflight: string, upload: bool, deploy: bool)

  predicate Approved(p: Approval) {
    p.sourceBlob == SOURCE_BLOB && p.configBlob == CONFIG_BLOB && p.worker == WORKER && IsSha256(p.preflight)
    && p.upload && p.deploy
  }

  predicate PostUpload(old': Snapshot, s: Snapshot, id: string) {
    Valid(s, true) && s.active == old'.active && s.latest == id && s.deployment == old'.deployment
    && s.activeCode == old'.activeCode && Preserved(old', s)
  }

  predicate PostDeploy(old': Snapshot, s: Snapshot, id: string) {
    Valid(s, false) && s.active == id && s.latest == id && s.deployment != old'.deployment && Preserved(old', s)
  }

  /** How many of the four calls from the upload on are answered well before the first that is not. */
  function GoodWrites(a: Answers, before: Snapshot, w: Source): nat {
    if !GoodId(a.upload) || a.upload.value.value == before.active then 0
    else if !Sees(a, 2) || !PostUpload(before, View(a, 2), a.upload.value.value)
            || View(a, 2).latestCode != w.sha256 then 1
    else if !GoodId(a.deploy) then 2
    else if !Sees(a, 3) || !PostDeploy(before, View(a, 3), a.upload.value.value)
            || View(a, 3).activeCode != w.sha256 || View(a, 3).latestCode != w.sha256
            || View(a, 3).deployment != a.deploy.value.value then 3
    else 4
  }

  /** The same for all six calls. */
  function GoodAnswers(a: Answers, p: Approval, w: Source, sha: Snapshot -> string): nat {
    if !Sees(a, 0) || !Valid(View(a, 0), false) then 0
    else if !Sees(a, 1) || !Valid(View(a, 1), false) || View(a, 1) != View(a, 0)
            || sha(View(a, 0)) != p.preflight || !MetadataAgrees(View(a, 0)) then 1
    else 2 + GoodWrites(a, View(a, 0), w)
  }

  /** The calls from the upload on when `good` answers in a row are good: one more than that. */
  function Writes(a: Answers, before: Snapshot, w: Source, good: nat): seq<Dispatch>
    requires good >= 2 ==> GoodId(a.upload)
  {
    [Upload(w.sha256, UploadMetadata(before))]
    + (if good < 1 then [] else [Read])
    + (if good < 2 then [] else [Deploy(a.upload.value.value, 100)])
    + (if good < 3 then [] else [Read])
  }

  function Calls(a: Answers, p: Approval, w: Source, sha: Snapshot -> string): seq<Dispatch> {
    if GoodAnswers(a, p, w, sha) == 0 then [Read]
    else if GoodAnswers(a, p, w, sha) == 1 then [Read, Read]
    else [Read, Read] + Writes(a, View(a, 0), w, GoodWrites(a, View(a, 0), w))
  }

  predicate EndsInStop(code: string) {
    |code| >= 5 && code[|code| - 5..] == "_STOP"
  }

  lemma ReadableIsActive(a: Answers, view: nat)
    ensures Sees(a, view) && Valid(View(a, view), false) ==> View(a, view).latest == View(a, view).active
  {
    if Sees(a, view) {
      StrictIsActive(View(a, view));
    }
  }

  /** Which stop codes tell that call number `good` was not answered well, or what was read in it is not
      what was approved. */
  predicate Tells(code: string, good: nat) {
    if good == 0 then code == "PREFLIGHT_READ_FAILED"
    else if good == 1 then
      code == "PREFLIGHT_READ_FAILED" || code == "PREFLIGHT_STATE_DRIFT" || code == "PREFLIGHT_BINDING_DRIFT"
      || code == "LATEST_METADATA_DRIFT"
    else if good == 2 then
      code == "UPLOAD_OUTCOME_UNKNOWN_STOP" || code == "UPLOAD_REPLY_AMBIGUOUS_STOP"
      || code == "UPLOAD_VERSION_INVALID_STOP" || code == "UPLOAD_VERSION_UNCHANGED_STOP"
    else if good == 3 then code == "POST_UPLOAD_UNVERIFIED_STOP"
    else if good == 4 then code == "DEPLOY_OUTCOME_UNKNOWN_STOP" || code == "DEPLOY_REPLY_AMBIGUOUS_STOP"
    else code == "POST_DEPLOY_UNVERIFIED_STOP"
  }

  lemma CodesTell()
    ensures Tells("PREFLIGHT_READ_FAILED", 0) && Tells("PREFLIGHT_READ_FAILED", 1) && Tells("PREFLIGHT_STATE_DRIFT", 1)
    ensures Tells("PREFLIGHT_BINDING_DRIFT", 1) && Tells("LATEST_METADATA_DRIFT", 1)
    ensures Tells("UPLOAD_OUTCOME_UNKNOWN_STOP", 2) && Tells("UPLOAD_REPLY_AMBIGUOUS_STOP", 2)
    ensures Tells("UPLOAD_VERSION_INVALID_STOP", 2) && Tells("UPLOAD_VERSION_UNCHANGED_STOP", 2)
    ensures Tells("POST_UPLOAD_UNVERIFIED_STOP", 3) && Tells("DEPLOY_OUTCOME_UNKNOWN_STOP", 4)
    ensures Tells("DEPLOY_REPLY_AMBIGUOUS_STOP", 4) && Tells("POST_DEPLOY_UNVERIFIED_STOP", 5)
  {
  }

  lemma StopEndings()
    ensures EndsInStop("UPLOAD_OUTCOME_UNKNOWN_STOP") && EndsInStop("UPLOAD_REPLY_AMBIGUOUS_STOP")
    ensures EndsInStop("UPLOAD_VERSION_INVALID_STOP") && EndsInStop("UPLOAD_VERSION_UNCHANGED_STOP")
    ensures EndsInStop("POST_UPLOAD_UNVERIFIED_STOP") && EndsInStop("DEPLOY_OUTCOME_UNKNOWN_STOP")
    ensures EndsInStop("DEPLOY_REPLY_AMBIGUOUS_STOP") && EndsInStop("POST_DEPLOY_UNVERIFIED_STOP")
  {
  }

  /** The first answer that is not good decides. */
  lemma FirstBad(a: Answers, before: Snapshot, w: Source)
    ensures var good := GoodWrites(a, before, w);
            var uploaded := GoodId(a.upload) && a.upload.value.value != before.active;
            (!uploaded ==> good == 0)
            && (uploaded ==>
                  var staged := Sees(a, 2) && PostUpload(before, View(a, 2), a.upload.value.value)
                                && View(a, 2).latestCode == w.sha256;
                  (!staged ==> good == 1)
                  && (staged && !GoodId(a.deploy) ==> good == 2)
                  && (staged && GoodId(a.deploy) ==>
                        var live := Sees(a, 3) && PostDeploy(before, View(a, 3), a.upload.value.value)
                                    && View(a, 3).activeCode == w.sha256 && View(a, 3).latestCode == w.sha256
                                    && View(a, 3).deployment == a.deploy.value.value;
                        good == if live then 4 else 3))
  {
    hide PostUpload, PostDeploy, IsUuid;
  }

  lemma WritesAre(a: Answers, before: Snapshot, w: Source)
    ensures Writes(a, before, w, 0) == [Upload(w.sha256, UploadMetadata(before))]
    ensures Writes(a, before, w, 1) == Writes(a, before, w, 0) + [Read]
    ensures GoodId(a.upload) ==>
              Writes(a, before, w, 2) == Writes(a, before, w, 1) + [Deploy(a.upload.value.value, 100)]
              && Writes(a, before, w, 3) == Writes(a, before, w, 2) + [Read] == Writes(a, before, w, 4)
  {
    hide UploadMetadata, IsUuid;
  }

  /** The part of the run that writes. */
  method Dispatched(trusted: CloudflareTransport, before: Snapshot, w: Source) returns (r: Result<string>)
    requires trusted.trace == [Read, Read] && trusted.viewed == 2 && trusted.gets <= 20
    requires !trusted.allowDeployExisting && trusted.uploads == 0 && trusted.deploys == 0
    modifies trusted
    ensures trusted.gets <= 40 && trusted.uploads == 1
    ensures trusted.deploys == (if GoodWrites(trusted.Told(), before, w) >= 2 then 1 else 0)
    ensures trusted.trace ==
              [Read, Read] + Writes(trusted.Told(), before, w, GoodWrites(trusted.Told(), before, w))
    ensures r.Ok? <==> GoodWrites(trusted.Told(), before, w) == 4
    ensures r.Ok? ==> r.value == trusted.Told().upload.value.value
    ensures r.Stop? ==> EndsInStop(r.code)
    ensures r.Stop? ==> Tells(r.code, 2 + GoodWrites(trusted.Told(), before, w))
  {
    hide Tells, EndsInStop, AsTold, UploadMetadata, IsUuid, PostUpload, PostDeploy, GoodWrites, Writes;
    CodesTell();
    StopEndings();
    FirstBad(trusted.Told(), before, w);
    WritesAre(trusted.Told(), before, w);
    var uploaded := trusted.UploadVersionOnce(w.sha256, UploadMetadata(before));
    if uploaded.Raised? {
      return Stop("UPLOAD_OUTCOME_UNKNOWN_STOP");
    }
    if uploaded.value.None? {
      return Stop("UPLOAD_REPLY_AMBIGUOUS_STOP");
    }
    var id := uploaded.value.value;
    if !IsUuid(id) {
      return Stop("UPLOAD_VERSION_INVALID_STOP");
    }
    if id == before.active {
      return Stop("UPLOAD_VERSION_UNCHANGED_STOP");
    }
    var intermediate := trusted.ReadSnapshot(false);
    if intermediate.Raised? || intermediate.value.None? || !PostUpload(before, intermediate.value.value, id)
       || intermediate.value.value.latestCode != w.sha256 {
      return Stop("POST_UPLOAD_UNVERIFIED_STOP");
    }
    var deployment := trusted.DeployVersionOnce(id, 100);
    if deployment.Raised? {
      return Stop("DEPLOY_OUTCOME_UNKNOWN_STOP");
    }
    if deployment.value.None? || !IsUuid(deployment.value.value) {
      return Stop("DEPLOY_REPLY_AMBIGUOUS_STOP");
    }
    var after := trusted.ReadSnapshot(false);
    if after.Raised? || after.value.None? || !PostDeploy(before, after.value.value, id)
       || after.value.value.activeCode != w.sha256 || after.value.value.latestCode != w.sha256
       || after.value.value.deployment != deployment.value.value {
      return Stop("POST_DEPLOY_UNVERIFIED_STOP");
    }
    return Ok(id);
  }

  /** The protocol makes the calls of `Calls`, succeeds exactly when all six are answered well, and
      its stop code ends in `_STOP` exactly when the upload was dispatched.  The budgets always suffice. */
  method FutureRunOnce(trusted: CloudflareTransport, p: Approval, w: Source, sha: Snapshot -> string)
    returns (r: Result<string>)
    requires trusted.Unused() && !trusted.allowDeployExisting
    modifies trusted
    ensures trusted.gets <= 40
    ensures trusted.uploads == (if |trusted.trace| > 2 then 1 else 0)
    ensures trusted.deploys == (if |trusted.trace| > 4 then 1 else 0)
    ensures Approved(p) && w.reviewed ==>
              trusted.trace == Calls(trusted.Told(), p, w, sha)
    ensures !(Approved(p) && w.reviewed) ==> trusted.trace == []
    ensures r.Ok? <==> Approved(p) && w.reviewed && GoodAnswers(trusted.Told(), p, w, sha) == 6
    ensures r.Ok? ==> r.value == trusted.Told().upload.value.value && trusted.deploys == trusted.uploads == 1
    ensures r.Stop? ==> (EndsInStop(r.code) <==> trusted.uploads == 1)
    ensures r.Stop? ==>
              if !Approved(p) then r.code == "OWNER_GATE_UNBOUND"
              else if !w.reviewed then r.code == "SOURCE_BLOB_DRIFT"
              else Tells(r.code, GoodAnswers(trusted.Told(), p, w, sha))
  {
    hide Tells, AsTold, Valid, UploadMetadata, Approved, Preserved, IsUuid, MetadataAgrees, GoodWrites;
    CodesTell();
    if !Approved(p) {
      return Stop("OWNER_GATE_UNBOUND");
    }
    if !w.reviewed {
      return Stop("SOURCE_BLOB_DRIFT");
    }
    ReadableIsActive(trusted.Told(), 0);
    ReadableIsActive(trusted.Told(), 1);
    var first := trusted.ReadSnapshot(false);
    if first.Raised? || first.value.None? || !Valid(first.value.value, false) {
      return Stop("PREFLIGHT_READ_FAILED");
    }
    var before := first.value.value;
    var second := trusted.ReadSnapshot(false);
    if second.Raised? || second.value.None? || !Valid(second.value.value, false) {
      return Stop("PREFLIGHT_READ_FAILED");
    }
    if before != second.value.value {
      return Stop("PREFLIGHT_STATE_DRIFT");
    }
    if sha(before) != p.preflight {
      return Stop("PREFLIGHT_BINDING_DRIFT");
    }
    if !MetadataAgrees(before) {
      return Stop("LATEST_METADATA_DRIFT");
    }
    r := Dispatched(trusted, before, w);
  }

  /** Whatever the provider answers, a run that succeeds has seen the same snapshot before and after,
      except for the version, the deployment and the code. */
  lemma SuccessFrame(a: Answers, p: Approval, w: Source, sha: Snapshot -> string)
    requires GoodAnswers(a, p, w, sha) == 6
    ensures Sees(a, 0) && Sees(a, 3) && a.upload.Replied? && a.upload.value.Some?
    ensures a.deploy.Replied? && a.deploy.value.Some?
    ensures var id := a.upload.value.value;
            View(a, 3) == View(a, 0).(active := id, latest := id, deployment := a.deploy.value.value,
                                      activeCode := w.sha256, latestCode := w.sha256)
    ensures a.upload.value.value != View(a, 0).active && a.deploy.value.value != View(a, 0).deployment
  {
  }

  /** At most one upload and one deployment are dispatched, the deployment only of the uploaded
      version, only after a read that confirmed it, and at 100 percent. */
  lemma DispatchedOnce(a: Answers, p: Approval, w: Source, sha: Snapshot -> string, i: nat)
    requires i < |Calls(a, p, w, sha)| && !Calls(a, p, w, sha)[i].Read?
    ensures if i == 2 then Calls(a, p, w, sha)[i].Upload? && Calls(a, p, w, sha)[i].code == w.sha256
            else i == 4 && Calls(a, p, w, sha)[i].Deploy? && Calls(a, p, w, sha)[i].percent == 100
                 && Sees(a, 0) && Sees(a, 2)
                 && PostUpload(View(a, 0), View(a, 2), Calls(a, p, w, sha)[i].version)
                 && View(a, 2).latestCode == w.sha256
  {
  }
}
