/** The authenticated transport to the provider: a read budget, one upload and one deployment. */
module Transport {
  import opened Shapes
  import opened StatsWorker

  const READ_BUDGET := 48
  const ZONES: seq<string> := ["ausmalwiese.de", "rozkalns.net"]

  const COMPATIBILITY_DATE := "2026-10-06"
  const CANDIDATE_HANDLERS := {"fetch", "scheduled"}
  /** The digests of the database and of the rate limiter that the worker must be bound to. */
  const DB_FINGERPRINT :=
    "480381eb0604e398" + "ade6571d5e5d9516" + "010bf34b8fba3d6b" + "9bc0440052c44f00"
  const RATE_FINGERPRINT :=
    "849158c0a89323aa" + "f029be6ab8c584c3" + "89bc1893b96d7244" + "fb6e89574b2d213d"

  /** One snapshot read as the provider shows it: what is there, the handler names of the two versions,
      and those of the read's GETs that raise or come back malformed. */
  datatype Sight = Sight(
    snapshot: Snapshot, activeHandlers: set<string>, latestHandlers: set<string>, fails: nat -> bool)

  /** Everything the provider will show and answer; a read beyond its views fails. */
  datatype Provider = Provider(views: seq<Sight>, upload: Answer<Option<string>>, deploy: Answer<Option<string>>)

  /** What `_version_metadata` and `_code_sha` let pass for one version, given the candidate's code: the one
      date, no flags, the known database and rate limiter, and for the candidate its two handlers. */
  predicate KnownVersion(b: map<string, Binding>, c: Config, code: string, handlers: set<string>, candidate: string) {
    BindingsOk(b) && b["DB"].fingerprint == Some(DB_FINGERPRINT)
    && b["RATE_LIMITER"].fingerprint == Some(RATE_FINGERPRINT)
    && c.date == COMPATIBILITY_DATE && c.flags == [] && IsSha256(c.settings) && IsSha256(code)
    && (code == candidate ==> handlers == CANDIDATE_HANDLERS)
  }

  /** What `read_snapshot` lets pass but for the difference of latest and active version. */
  predicate Readable(s: Sight, candidate: string) {
    var t := s.snapshot;
    Targeted(t) && IsUuid(t.active) && IsUuid(t.latest) && IsUuid(t.deployment)
    && KnownVersion(t.activeBindings, t.activeConfig, t.activeCode, s.activeHandlers, candidate)
    && KnownVersion(t.latestBindings, t.latestConfig, t.latestCode, s.latestHandlers, candidate)
  }

  /** The GETs of one snapshot read: versions, deployment, two a zone, two a version. */
  function GetsFor(s: Snapshot): nat {
    2 + 2 * |ZONES| + 2 * if s.latest == s.active then 1 else 2
  }

  function AsRead(s: Sight, candidate: string): Answer<Option<Snapshot>> {
    if (forall k :: 0 <= k < GetsFor(s.snapshot) ==> !s.fails(k)) && Readable(s, candidate) then
      Replied(Some(s.snapshot))
    else Raised
  }

  /** A write's reply without a well-formed id raises. */
  function AsWritten(r: Answer<Option<string>>): Answer<Option<string>> {
    if GoodId(r) then r else Raised
  }

  /** What a transport makes of everything the provider shows and answers. */
  function AsTold(p: Provider, candidate: string): Answers {
    Answers(seq(|p.views|, i requires 0 <= i < |p.views| => AsRead(p.views[i], candidate)),
            AsWritten(p.upload), AsWritten(p.deploy))
  }

  /** A snapshot that can be read is valid, apart from a latest version that is not active. */
  lemma ReadableIsValid(s: Sight, candidate: string)
    requires Readable(s, candidate)
    ensures Valid(s.snapshot, true)
    ensures s.snapshot.latest == s.snapshot.active && s.snapshot.latestCode == s.snapshot.activeCode ==>
              Valid(s.snapshot, false)
  {
    hide BindingsOk, IsSha256, IsUuid;
  }

  /** Without leave to differ, and before any upload, a latest version that is not active is refused. */
  function Served(answer: Answer<Option<Snapshot>>, uploads: nat, allowLatestDifference: bool)
    : Answer<Option<Snapshot>>
  {
    if answer.Replied? && answer.value.Some? && answer.value.value.latest != answer.value.value.active
       && uploads != 1 && !allowLatestDifference then Raised
    else answer
  }

  class CloudflareTransport {
    const allowDeployExisting: bool
    const candidate: string          // the digest of the candidate's code
    const provider: Provider
    var gets: nat
    var uploads: nat
    var deploys: nat
    var viewed: nat
    var trace: seq<Dispatch>

    constructor (allowDeployExisting: bool, candidate: string, provider: Provider)
      ensures this.allowDeployExisting == allowDeployExisting && this.candidate == candidate
      ensures this.provider == provider && Unused()
    {
      this.allowDeployExisting, this.candidate, this.provider := allowDeployExisting, candidate, provider;
      gets, uploads, deploys, viewed, trace := 0, 0, 0, 0, [];
    }

    ghost predicate Unused()
      reads this
    {
      gets == 0 && uploads == 0 && deploys == 0 && viewed == 0 && trace == []
    }

    function Told(): Answers {
      AsTold(provider, candidate)
    }

    /** What comes of snapshot read number `view`. */
    function Scripted(view: nat): Answer<Option<Snapshot>> {
      if view < |Told().views| then Told().views[view] else Raised
    }

    predicate Fails(view: nat, get: nat) {
      view >= |provider.views| || provider.views[view].fails(get)
    }

    /** One GET outside a snapshot read. */
    method Lookup() returns (ok: bool)
      modifies this`gets
      ensures ok <==> old(gets) < READ_BUDGET
      ensures gets == old(gets) + (if ok then 1 else 0)
    {
      ok := gets < READ_BUDGET;
      if ok {
        gets := gets + 1;
      }
    }

    /** GET number `done` of a snapshot read: it spends budget, and it succeeds unless that is exhausted or
        the provider fails it. */
    method Get(view: nat, done: nat) returns (ok: bool)
      modifies this`gets
      ensures gets == old(gets) + (if old(gets) < READ_BUDGET then 1 else 0)
      ensures ok <==> old(gets) < READ_BUDGET && !Fails(view, done)
    {
      if gets >= READ_BUDGET {
        return false;
      }
      gets := gets + 1;
      return !Fails(view, done);
    }

    /** Two GETs for each of `n` items, up to the first that fails. */
    method GetPairs(view: nat, first: nat, n: nat) returns (ok: bool)
      modifies this`gets
      ensures old(gets) <= gets <= old(gets) + 2 * n
      ensures old(gets) <= READ_BUDGET ==> gets <= READ_BUDGET
      ensures ok ==> gets == old(gets) + 2 * n && forall k :: first <= k < first + 2 * n ==> !Fails(view, k)
      ensures !ok ==> old(gets) + 2 * n > READ_BUDGET || exists k :: first <= k < first + 2 * n && Fails(view, k)
    {
      for i := 0 to n
        invariant gets == old(gets) + 2 * i
        invariant old(gets) <= READ_BUDGET ==> gets <= READ_BUDGET
        invariant forall k :: first <= k < first + 2 * i ==> !Fails(view, k)
      {
        ok := Get(view, first + 2 * i);
        if !ok {
          return;
        }
        ok := Get(view, first + 2 * i + 1);
        if !ok {
          return;
        }
      }
      return true;
    }

    /** Versions, deployment, zone and routes of both zones, metadata and code of each version: ten GETs at
        most.  With that much budget left the result is what can be read of the provider's view. */
    method ReadSnapshot(allowLatestDifference: bool) returns (r: Answer<Option<Snapshot>>)
      requires gets <= READ_BUDGET
      modifies this`gets, this`viewed, this`trace
      ensures gets <= old(gets) + 10 && gets <= READ_BUDGET
      ensures viewed == old(viewed) + 1 && trace == old(trace) + [Read]
      ensures r.Replied? ==>
                r.value.Some? && old(viewed) < |provider.views| && r.value.value == provider.views[old(viewed)].snapshot
                && (r.value.value.latest == r.value.value.active || uploads == 1 || allowLatestDifference)
                && gets == old(gets) + (if r.value.value.latest == r.value.value.active then 8 else 10) <= 48
      ensures old(gets) + 10 <= 48 ==> r == Served(Scripted(old(viewed)), uploads, allowLatestDifference)
    {
      hide Readable;
      var view := viewed;
      viewed, trace := viewed + 1, trace + [Read];
      var ok := Get(view, 0);
      if !ok {
        return Raised;
      }
      ok := Get(view, 1);
      if !ok {
        return Raised;
      }
      var sight := provider.views[view];
      var versions := if sight.snapshot.latest == sight.snapshot.active then 1 else 2;
      if versions == 2 && uploads != 1 && !allowLatestDifference {
        return Raised;
      }
      ok := GetPairs(view, 2, |ZONES|);
      if !ok {
        return Raised;
      }
      ok := GetPairs(view, 6, versions);
      if !ok {
        return Raised;
      }
      if !Readable(sight, candidate) {
        return Raised;
      }
      assert GetsFor(sight.snapshot) == 6 + 2 * versions && !Fails(view, 0) && !Fails(view, 1);
      forall k | 0 <= k < GetsFor(sight.snapshot) ensures !sight.fails(k) {
        assert !Fails(view, k);
      }
      return Replied(Some(sight.snapshot));
    }

    /** The upload is dispatched at most once, and never by a transport opened for recovery. */
    method UploadVersionOnce(code: string, metadata: Metadata) returns (r: Answer<Option<string>>)
      modifies this`uploads, this`trace
      ensures if !allowDeployExisting && old(uploads) == 0 && deploys == 0
              then r == Told().upload && uploads == 1 && trace == old(trace) + [Upload(code, metadata)]
              else r == Raised && uploads == old(uploads) && trace == old(trace)
    {
      if allowDeployExisting || uploads != 0 || deploys != 0 {
        return Raised;
      }
      uploads, trace := 1, trace + [Upload(code, metadata)];
      return AsWritten(provider.upload);
    }

    /** The deployment is dispatched at most once, and only after an upload or by a transport opened
        for recovery. */
    method DeployVersionOnce(version: string, percent: int) returns (r: Answer<Option<string>>)
      modifies this`deploys, this`trace
      ensures if uploads == (if allowDeployExisting then 0 else 1) && old(deploys) == 0
              then r == Told().deploy && deploys == 1 && trace == old(trace) + [Deploy(version, percent)]
              else r == Raised && deploys == old(deploys) && trace == old(trace)
    {
      if uploads != (if allowDeployExisting then 0 else 1) || deploys != 0 {
        return Raised;
      }
      deploys, trace := 1, trace + [Deploy(version, percent)];
      return AsWritten(provider.deploy);
    }
  }
}
