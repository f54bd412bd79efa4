/** Correction of the zone tag of the stats worker: the same two-phase deployment with the same code,
    changing one binding, through an adapter that guards the transport's budgets. */
module ZoneBinding {
  import opened Shapes
  import opened StatsWorker
  import opened Transport
  import Deploy

  const ZONE := "ausmalwiese.de"
  const BINDING := "CF_ZONE_TAG"
  const CODE_SHA := "47f7490918d25e8f" + "1dcc683cebe3c4d3" + "d9a75230f33ae5a1" + "d26cbd6bd3ec1173"

  datatype Approval = Approval(
    worker: string, sourceBlob: string, configBlob: string, candidate: string, active: string, preflight: string,
    upload: bool, deploy: bool)

  /** The only element of a zone lookup's result list. */
  datatype ZoneItem = ZoneItem(id: string, name: string, status: string)

  /** The provider's answers to the two zone lookups; `None` is a list without exactly one element. */
  datatype Lookups = Lookups(first: Answer<Option<ZoneItem>>, second: Answer<Option<ZoneItem>>)

  /** `verified_zone_id` accepts this answer: the active zone with the allowlisted id. */
  predicate Verified(answer: Answer<Option<ZoneItem>>, zone: string) {
    answer == Replied(Some(ZoneItem(zone, ZONE, "active"))) && IsHex32(zone)
  }

  class TrustedZoneBindingAdapter {
    const transport: CloudflareTransport
    const zone: string            // the allowlisted id of the zone

    constructor (transport: CloudflareTransport, zone: string)
      ensures this.transport == transport && this.zone == zone
    {
      this.transport, this.zone := transport, zone;
    }

    /** The write budgets have not been tampered with. */
    predicate Stable()
      reads this, transport
    {
      transport.deploys <= transport.uploads <= 1
    }

    method VerifiedZoneId(answer: Answer<Option<ZoneItem>>) returns (r: Result<string>)
      modifies transport`gets
      ensures transport.gets <= old(transport.gets) + 1
      ensures Stable() && old(transport.gets) < READ_BUDGET ==> (r.Ok? <==> Verified(answer, zone))
      ensures r.Ok? ==> Verified(answer, zone) && r.value == zone
    {
      if !Stable() {
        return Stop("WRITE_BUDGET_DRIFT");
      }
      var ok := transport.Lookup();
      if !ok || answer.Raised? {
        return Stop("PROVIDER_ZONE_LOOKUP_STOP");
      }
      if answer.value.None? {
        return Stop("ZONE_LOOKUP_CARDINALITY");
      }
      var item := answer.value.value;
      if !IsHex32(item.id) || item.name != ZONE || item.status != "active" {
        return Stop("ZONE_LOOKUP_IDENTITY");
      }
      if item.id != zone {
        return Stop("ZONE_ALLOWLIST_MISMATCH");
      }
      return Ok(item.id);
    }

    method UploadVersionOnce(code: string, metadata: Metadata) returns (r: Answer<Option<string>>)
      modifies transport`uploads, transport`trace
      ensures if !transport.allowDeployExisting && old(transport.uploads) == 0 && transport.deploys == 0
              then r == transport.Told().upload && transport.uploads == 1
                   && transport.trace == old(transport.trace) + [Upload(code, metadata)]
              else r == Raised && transport.uploads == old(transport.uploads) && transport.trace == old(transport.trace)
    {
      if !Stable() || transport.uploads != 0 || transport.deploys != 0 {
        return Raised;
      }
      r := transport.UploadVersionOnce(code, metadata);
    }

    method DeployVersionOnce(version: string, percent: int) returns (r: Answer<Option<string>>)
      requires !transport.allowDeployExisting
      modifies transport`deploys, transport`trace
      ensures if transport.uploads == 1 && old(transport.deploys) == 0
              then r == transport.Told().deploy && transport.deploys == 1
                   && transport.trace == old(transport.trace) + [Dispatch.Deploy(version, percent)]
              else r == Raised && transport.deploys == old(transport.deploys) && transport.trace == old(transport.trace)
    {
      if !Stable() || transport.uploads != 1 || transport.deploys != 0 {
        return Raised;
      }
      r := transport.DeployVersionOnce(version, percent);
    }
  }

  // ---------------------------------------------------------------------------------------------
  // The protocol

  /** The bindings with the zone tag replaced. */
  function Retagged(b: map<string, Binding>, zoneHash: string): map<string, Binding> {
    b[BINDING := Binding("plain_text", Some(zoneHash))]
  }

  /** `preserved_bindings`: name by name, everything but the zone tag is as it was. */
  predicate PreservedBindings(old': map<string, Binding>, new': map<string, Binding>, zoneHash: string) {
    old'.Keys == new'.Keys
    && forall n :: n in old' ==> new'[n] == if n == BINDING then Binding("plain_text", Some(zoneHash)) else old'[n]
  }

  predicate CheckedBefore(s: Snapshot, zoneHash: string) {
    Valid(s, false) && MetadataAgrees(s) && s.activeCode == CODE_SHA && s.latestCode == CODE_SHA
    && s.activeBindings[BINDING].fingerprint != Some(zoneHash)
  }

  predicate VerifyAfter(before: Snapshot, s: Snapshot, version: string, zoneHash: string, deployment: Option<string>) {
    Valid(s, deployment.None?) && s.routes == before.routes
    && s.activeConfig == before.activeConfig && s.latestConfig == before.activeConfig
    && s.activeCode == CODE_SHA && s.latestCode == CODE_SHA && s.latest == version
    && PreservedBindings(before.activeBindings, s.latestBindings, zoneHash)
    && (match deployment
        case None =>
          s.active == before.active && s.deployment == before.deployment && s.activeBindings == before.activeBindings
        case Some(d) =>
          s.active == version && s.deployment == d && d != before.deployment
          && PreservedBindings(before.activeBindings, s.activeBindings, zoneHash))
  }

  predicate Approved(p: Approval) {
    p.worker == WORKER && p.sourceBlob == Deploy.SOURCE_BLOB && p.configBlob == Deploy.CONFIG_BLOB
    && p.candidate == CODE_SHA && IsUuid(p.active) && IsSha256(p.preflight) && p.upload && p.deploy
  }

  /** Strict inheritance of all bindings but the zone tag, which is sent as text. */
  function Correction(s: Snapshot, zone: string): Metadata {
    UploadMetadata(s).(bindings := UploadMetadata(s).bindings[BINDING := PlainText(zone)])
  }

  /** How many of the four calls from the upload on are answered well before the first that is not. */
  function GoodWrites(a: Answers, before: Snapshot, zoneHash: string): nat {
    if !GoodId(a.upload) || a.upload.value.value == before.active then 0
    else if !Sees(a, 2) || !VerifyAfter(before, View(a, 2), a.upload.value.value, zoneHash, None) then 1
    else if !GoodId(a.deploy) then 2
    else if !Sees(a, 3) || !VerifyAfter(before, View(a, 3), a.upload.value.value, zoneHash, a.deploy.value) then 3
    else 4
  }

  /** The calls from the upload on. */
  function Writes(a: Answers, before: Snapshot, zone: string, zoneHash: string): seq<Dispatch> {
    [Upload(CODE_SHA, Correction(before, zone))]
    + (if GoodWrites(a, before, zoneHash) < 1 then [] else [Read])
    + (if GoodWrites(a, before, zoneHash) < 2 then [] else [Dispatch.Deploy(a.upload.value.value, 100)])
    + (if GoodWrites(a, before, zoneHash) < 3 then [] else [Read])
  }

  /** The two lookups and the two reads before the first write all agree with the approval. */
  predicate Ready(z: Lookups, a: Answers, p: Approval, zone: string, zoneHash: string, sha: Snapshot -> string) {
    Verified(z.first, zone) && Verified(z.second, zone)
    && Sees(a, 0) && Sees(a, 1) && View(a, 0) == View(a, 1) && CheckedBefore(View(a, 0), zoneHash)
    && p.active == View(a, 0).active && p.preflight == sha(View(a, 0))
  }

  /** The part of the run that writes. */
  method Dispatched(trusted: TrustedZoneBindingAdapter, before: Snapshot, zoneHash: string) returns (r: Result<string>)
    requires var t := trusted.transport;
             t.viewed == 2 && t.gets <= 22 && t.trace == [Read, Read] && t.uploads == 0 && t.deploys == 0
             && !t.allowDeployExisting
    modifies trusted.transport
    ensures var t := trusted.transport;
            t.gets <= 42 && t.uploads == 1
            && t.deploys == (if GoodWrites(t.Told(), before, zoneHash) >= 2 then 1 else 0)
            && t.trace == [Read, Read] + Writes(t.Told(), before, trusted.zone, zoneHash)
            && (r.Ok? <==> GoodWrites(t.Told(), before, zoneHash) == 4)
            && (r.Ok? ==> r.value == t.Told().upload.value.value)
    ensures r.Stop? ==> Deploy.EndsInStop(r.code)
  {
    hide AsTold, VerifyAfter, IsUuid, Correction;
    var t := trusted.transport;
    var uploaded := trusted.UploadVersionOnce(CODE_SHA, Correction(before, trusted.zone));
    if uploaded.Raised? {
      return Stop("UPLOAD_OUTCOME_UNKNOWN_STOP");
    }
    if uploaded.value.None? || !IsUuid(uploaded.value.value) || uploaded.value.value == before.active {
      return Stop("UPLOAD_REPLY_UNKNOWN_STOP");
    }
    var version := uploaded.value.value;
    var staged := t.ReadSnapshot(true);
    if staged.Raised? || staged.value.None? || !VerifyAfter(before, staged.value.value, version, zoneHash, None) {
      return Stop("UPLOAD_POSTVERIFY_STOP");
    }
    var deployed := trusted.DeployVersionOnce(version, 100);
    if deployed.Raised? || deployed.value.None? || !IsUuid(deployed.value.value) {
      return Stop("DEPLOY_OUTCOME_OR_REPLY_UNKNOWN_STOP");
    }
    var state := t.ReadSnapshot(false);
    if state.Raised? || state.value.None?
       || !VerifyAfter(before, state.value.value, version, zoneHash, deployed.value) {
      return Stop("DEPLOY_POSTVERIFY_STOP");
    }
    return Ok(version);
  }

  lemma HasTag(s: Snapshot)
    requires Valid(s, false)
    ensures BINDING in s.activeBindings
  {
  }

  /** The first check that the state fails. */
  method Eligible(before: Snapshot, zoneHash: string) returns (stop: Option<string>)
    requires Valid(before, false)
    ensures stop.None? <==> CheckedBefore(before, zoneHash)
    ensures stop.Some? ==>
              stop.value == if before.activeBindings != before.latestBindings
                               || before.activeConfig != before.latestConfig
                            then "ACTIVE_LATEST_DRIFT"
                            else if before.activeCode != CODE_SHA || before.latestCode != CODE_SHA
                            then "PROVIDER_CODE_DRIFT"
                            else "ZONE_ALREADY_CORRECT_NO_WRITE"
  {
    hide Valid, CODE_SHA;
    HasTag(before);
    if !MetadataAgrees(before) {
      return Some("ACTIVE_LATEST_DRIFT");
    }
    if before.activeCode != CODE_SHA || before.latestCode != CODE_SHA {
      return Some("PROVIDER_CODE_DRIFT");
    }
    if before.activeBindings[BINDING].fingerprint == Some(zoneHash) {
      return Some("ZONE_ALREADY_CORRECT_NO_WRITE");
    }
    return None;
  }

  lemma CheckedIsValid(zoneHash: string)
    ensures forall s :: CheckedBefore(s, zoneHash) ==> Valid(s, false)
  {
  }

  /** The adapter's budgets hold throughout and never run out; the run writes only when everything it
      read agrees with the approval, and succeeds exactly when both writes were then confirmed. */
  method ApplyOnce(trusted: TrustedZoneBindingAdapter, z: Lookups, w: Source, p: Approval, zoneHash: string,
                   sha: Snapshot -> string)
    returns (r: Result<string>)
    requires trusted.transport.Unused() && !trusted.transport.allowDeployExisting
    modifies trusted.transport
    ensures var t := trusted.transport;
            var a := t.Told();
            var ready := Approved(p) && w.reviewed && w.sha256 == CODE_SHA
                         && Ready(z, a, p, trusted.zone, zoneHash, sha);
            t.gets <= 42 && t.deploys <= t.uploads <= 1
            && (t.uploads == 1 <==> ready)
            && (t.deploys == 1 <==> ready && GoodWrites(a, View(a, 0), zoneHash) >= 2)
            && (r.Ok? <==> ready && GoodWrites(a, View(a, 0), zoneHash) == 4)
            && (ready ==> t.trace == [Read, Read] + Writes(a, View(a, 0), trusted.zone, zoneHash))
  {
    hide AsTold, Valid, Approved, GoodWrites, Correction, CheckedBefore, Verified, CODE_SHA;
    var t := trusted.transport;
    CheckedIsValid(zoneHash);
    if !Approved(p) {
      return Stop("OWNER_ENVELOPE_INVALID");
    }
    if w.sha256 != CODE_SHA {
      return Stop("SOURCE_SHA_DRIFT");
    }
    if !w.reviewed {
      return Stop("PROVENANCE_OR_PROVIDER_READ_STOP");
    }
    Deploy.ReadableIsActive(t.Told(), 0);
    Deploy.ReadableIsActive(t.Told(), 1);
    var zone := trusted.VerifiedZoneId(z.first);
    if zone.Stop? {
      return Stop("PROVENANCE_OR_PROVIDER_READ_STOP");
    }
    var first := t.ReadSnapshot(false);
    if first.Raised? || first.value.None? || !Valid(first.value.value, false) {
      return Stop("PROVENANCE_OR_PROVIDER_READ_STOP");
    }
    var again := trusted.VerifiedZoneId(z.second);
    if again.Stop? {
      return Stop("PROVENANCE_OR_PROVIDER_READ_STOP");
    }
    var second := t.ReadSnapshot(false);
    if second.Raised? || second.value.None? || !Valid(second.value.value, false) {
      return Stop("PROVENANCE_OR_PROVIDER_READ_STOP");
    }
    var before := first.value.value;
    if before != second.value.value {
      return Stop("DOUBLE_READ_DRIFT");
    }
    var stop := Eligible(before, zoneHash);
    if stop.Some? {
      return Stop(stop.value);
    }
    if p.active != before.active || p.preflight != sha(before) {
      return Stop("APPROVED_SNAPSHOT_DRIFT");
    }
    r := Dispatched(trusted, before, zoneHash);
  }

  lemma PreservedMeansRetagged(old': map<string, Binding>, new': map<string, Binding>, zoneHash: string)
    ensures PreservedBindings(old', new', zoneHash) && BINDING in old' <==>
            new' == Retagged(old', zoneHash) && BINDING in old'
  {
    if PreservedBindings(old', new', zoneHash) && BINDING in old' {
      assert new'.Keys == Retagged(old', zoneHash).Keys;
    }
  }

  /** Success means that the worker differs from before in the version and deployment ids and in the
      fingerprint of the zone tag, and in nothing else. */
  lemma ZoneFrame(z: Lookups, a: Answers, p: Approval, zone: string, zoneHash: string, sha: Snapshot -> string)
    requires Ready(z, a, p, zone, zoneHash, sha) && GoodWrites(a, View(a, 0), zoneHash) == 4
    ensures Sees(a, 3) && GoodId(a.upload) && GoodId(a.deploy)
    ensures var s := View(a, 0);
            var b := Retagged(s.activeBindings, zoneHash);
            View(a, 3) == s.(active := a.upload.value.value, latest := a.upload.value.value,
                             deployment := a.deploy.value.value, activeBindings := b, latestBindings := b)
            && View(a, 3) != s && b[BINDING] != s.activeBindings[BINDING]
  {
    hide ConfigOk;
    var s, t := View(a, 0), View(a, 3);
    PreservedMeansRetagged(s.activeBindings, t.activeBindings, zoneHash);
    PreservedMeansRetagged(s.activeBindings, t.latestBindings, zoneHash);
  }
}
