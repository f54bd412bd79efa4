/** Exactly when interleaved runs can use one approval twice, and when a reported version stays live. */
module DeployWindow {
  import opened Shapes
  import opened StatsWorker
  import opened Transport
  import opened Deploy
  import opened DeployCloud
  import DeployReplay
  import opened DeployInterleaved

  type Terms = DeployReplay.Terms

  function Start(c: Cloud): System {
    System(c, 0, 0, map[])
  }

  /** The run is about to upload, or has taken the approved latest version in its second read and will be
      once it has the rest. */
  predicate WillUpload(s: System, p: nat, t: Terms)
    requires Sound(s.cloud)
  {
    p in s.runs
    && match s.runs[p].phase
       case Uploading => true
       case Looking(n, latest) =>
         n == 1 && latest.Some? && latest.value in s.cloud.versions
         && CanRead(Mixed(s.cloud, latest.value), t.source.sha256)
         && Judged(s.runs[p], Snap(Mixed(s.cloud, latest.value)), t).phase.Uploading?
       case _ => false
  }

  // ---------------------------------------------------------------------------------------------
  // Runs put together

  lemma {:induction false} AfterIsSound(s: System, steps: seq<Step>, t: Terms)
    requires Sound(s.cloud) && Runs(s, steps, t)
    ensures Sound(After(s, steps, t).cloud)
    decreases |steps|
  {
    hide Sound, Enabled, Next;
    if steps != [] {
      NextIsSound(s, steps[0], t);
      AfterIsSound(Next(s, steps[0], t), steps[1..], t);
    }
  }

  lemma {:induction false} RunsConcat(s: System, a: seq<Step>, b: seq<Step>, t: Terms)
    requires Sound(s.cloud) && Runs(s, a, t) && Sound(After(s, a, t).cloud) && Runs(After(s, a, t), b, t)
    ensures Runs(s, a + b, t) && After(s, a + b, t) == After(After(s, a, t), b, t)
    decreases |a|
  {
    hide Sound, Enabled, Next;
    if a == [] {
      assert a + b == b;
    } else {
      NextIsSound(s, a[0], t);
      RunsConcat(Next(s, a[0], t), a[1..], b, t);
      assert (a + b)[0] == a[0] && (a + b)[1..] == a[1..] + b;
    }
  }

  lemma RunsOne(s: System, e: Step, t: Terms)
    requires Sound(s.cloud) && Enabled(s, e)
    ensures Sound(Next(s, e, t).cloud) && Runs(s, [e], t) && After(s, [e], t) == Next(s, e, t)
  {
    hide Sound, Enabled, Next;
    NextIsSound(s, e, t);
    assert [e][1..] == [];
    assert Runs(Next(s, e, t), [], t) && After(Next(s, e, t), [], t) == Next(s, e, t);
  }

  lemma StartIsKept(c: Cloud, t: Terms)
    requires Sound(c)
    ensures Kept(Start(c), t)
  {
    hide DeployReplay.ApprovalSpent;
  }

  /** A state that some interleaving leads to. */
  ghost predicate Reachable(s: System, t: Terms) {
    exists c, steps :: Sound(c) && Runs(Start(c), steps, t) && After(Start(c), steps, t) == s
  }

  lemma ReachableIsKept(s: System, t: Terms)
    requires Reachable(s, t) && DeployReplay.Injective(t.sha)
    ensures Kept(s, t)
  {
    hide Kept, DeployReplay.Injective;
    var c, steps :| Sound(c) && Runs(Start(c), steps, t) && After(Start(c), steps, t) == s;
    StartIsKept(c, t);
    RunsKeep(Start(c), steps, t);
  }

  // ---------------------------------------------------------------------------------------------
  // When no upload can take effect any more

  /** The approval is spent and no run will still upload. */
  ghost predicate Over(s: System, t: Terms)
    requires Sound(s.cloud)
  {
    DeployReplay.ApprovalSpent(s.cloud, t) && forall p :: !WillUpload(s, p, t)
  }

  /** A judgement that leads to an upload is of the approved snapshot. */
  lemma JudgedForUpload(r: Operator, snap: Snapshot, t: Terms)
    requires r.phase.Looking?
    ensures Judged(r, snap, t).phase.Uploading? ==> r.phase.read == 1 && t.sha(snap) == t.approval.preflight
    ensures Judged(r, snap, t).phase.Looking? ==> Judged(r, snap, t).phase == Looking(1, None)
  {
    JudgedIs(r, snap, t);
    hide Judged;
  }

  lemma SameSnapshot(t: Terms, x: Snapshot, y: Snapshot)
    requires DeployReplay.Injective(t.sha)
    ensures t.sha(x) == t.sha(y) ==> x == y
  {
  }

  lemma SpentIsNotLatest(c: Cloud, t: Terms)
    requires Sound(c) && DeployReplay.ApprovalSpent(c, t) && DeployReplay.Injective(t.sha)
    ensures t.sha(Snap(c)) != t.approval.preflight
  {
    var b: Snapshot :| t.sha(b) == t.approval.preflight && b.latest in c.versions && c.latest != b.latest;
    assert Snap(c).latest == c.latest;
    hide Snap;
    SameSnapshot(t, Snap(c), b);
  }

  lemma SameWill(s: System, n: System, p: nat, t: Terms)
    requires Sound(s.cloud) && n.cloud == s.cloud && p in s.runs && p in n.runs && n.runs[p] == s.runs[p]
    ensures WillUpload(n, p, t) == WillUpload(s, p, t)
  {
  }

  lemma LatestIsTooLate(s: System, p: nat, t: Terms)
    requires Sound(s.cloud) && Over(s, t) && Enabled(s, GetLatest(p)) && DeployReplay.Injective(t.sha)
    ensures !WillUpload(Next(s, GetLatest(p), t), p, t)
  {
    hide Snap, Judged, CanRead, DeployReplay.ApprovalSpent, DeployReplay.Injective;
    var n := Next(s, GetLatest(p), t);
    assert Mixed(s.cloud, s.cloud.latest) == s.cloud;
    JudgedForUpload(n.runs[p], Snap(s.cloud), t);
    SpentIsNotLatest(s.cloud, t);
  }

  lemma RestDoesNotUpload(s: System, p: nat, t: Terms)
    requires Sound(s.cloud) && !WillUpload(s, p, t) && Enabled(s, GetRest(p))
    ensures !WillUpload(Next(s, GetRest(p), t), p, t)
  {
    hide Snap, Judged, CanRead;
    var c := Mixed(s.cloud, s.runs[p].phase.latest.value);
    if CanRead(c, t.source.sha256) {
      MixedIs(s.cloud, s.runs[p].phase.latest.value);
      JudgedForUpload(s.runs[p], Snap(c), t);
    }
  }

  /** Once another version is live, no half-read snapshot is the approved one any more. */
  lemma DeployedElsewhere(s: System, n: System, p: nat, q: nat, t: Terms)
    requires Sound(s.cloud) && Sound(n.cloud) && Kept(s, t) && DeployReplay.Injective(t.sha)
    requires p in s.runs && s.runs[p].phase.Deploying? && n.cloud.active == s.runs[p].id
    requires q in n.runs && n.runs[q].phase.Looking?
    ensures !WillUpload(n, q, t)
  {
    hide Judged, CanRead, DeployReplay.ApprovalSpent, Snap, Mixed;
    var r := s.runs[p];
    assert RunKept(s, r, t);
    if n.runs[q].phase.latest.Some? && n.runs[q].phase.latest.value in n.cloud.versions {
      var v := n.runs[q].phase.latest.value;
      MixedIs(n.cloud, v);
      var snap := Snap(Mixed(n.cloud, v));
      JudgedForUpload(n.runs[q], snap, t);
      SameSnapshot(t, snap, r.before.value);
    }
  }

  lemma NoUploadEnabled(s: System, e: Step, t: Terms)
    requires Sound(s.cloud) && Over(s, t) && Enabled(s, e)
    ensures !e.Upload?
  {
    hide Snap, Judged, CanRead, Mixed, IsUuid;
    assert e.Upload? ==> WillUpload(s, e.who, t);
  }

  lemma OverForOther(s: System, e: Step, q: nat, t: Terms)
    requires Sound(s.cloud) && Kept(s, t) && Over(s, t) && Enabled(s, e) && DeployReplay.Injective(t.sha)
    requires !e.Upload? && q != e.who
    ensures Sound(Next(s, e, t).cloud) && !WillUpload(Next(s, e, t), q, t)
  {
    hide Snap, Judged, CanRead, DeployReplay.ApprovalSpent, Mixed, Kept, IsUuid, DeployReplay.Injective;
    NextIsSound(s, e, t);
    var n := Next(s, e, t);
    if q in n.runs {
      if e.Deploy? && !e.fate.Lost? {
        assert n.runs[q].phase.Uploading? ==> WillUpload(s, q, t);
        if n.runs[q].phase.Looking? {
          DeployedElsewhere(s, n, e.who, q, t);
        }
      } else {
        SameWill(s, n, q, t);
      }
    }
  }

  lemma OverForItself(s: System, e: Step, t: Terms)
    requires Sound(s.cloud) && Over(s, t) && Enabled(s, e) && DeployReplay.Injective(t.sha) && !e.Upload?
    ensures Sound(Next(s, e, t).cloud) && !WillUpload(Next(s, e, t), e.who, t)
  {
    hide Snap, Judged, CanRead, DeployReplay.ApprovalSpent, Mixed, IsUuid, DeployReplay.Injective;
    NextIsSound(s, e, t);
    match e {
      case GetLatest(p) => LatestIsTooLate(s, p, t);
      case GetRest(p) => RestDoesNotUpload(s, p, t);
      case _ =>
    }
  }

  /** From then on that is so for good. */
  lemma OverStays(s: System, e: Step, t: Terms)
    requires Sound(s.cloud) && Kept(s, t) && Over(s, t) && Enabled(s, e) && DeployReplay.Injective(t.sha)
    ensures Sound(Next(s, e, t).cloud) && Over(Next(s, e, t), t) && Next(s, e, t).uploads == s.uploads
  {
    hide Snap, Judged, CanRead, DeployReplay.ApprovalSpent, Mixed, Kept, UploadMetadata, WillUpload, IsUuid,
         DeployReplay.Injective;
    NextIsSound(s, e, t);
    NoUploadEnabled(s, e, t);
    SameLatestSpent(s.cloud, Next(s, e, t).cloud, t);
    OverForItself(s, e, t);
    forall q | q != e.who ensures !WillUpload(Next(s, e, t), q, t) {
      OverForOther(s, e, q, t);
    }
  }

  lemma {:induction false} OverForGood(s: System, steps: seq<Step>, t: Terms)
    requires Sound(s.cloud) && Kept(s, t) && Over(s, t) && Runs(s, steps, t) && DeployReplay.Injective(t.sha)
    ensures After(s, steps, t).uploads == s.uploads
    decreases |steps|
  {
    hide Sound, Enabled, Next, Kept, Over;
    if steps != [] {
      OverStays(s, steps[0], t);
      NextKeeps(s, steps[0], t);
      OverForGood(Next(s, steps[0], t), steps[1..], t);
    }
  }

  // ---------------------------------------------------------------------------------------------
  // When another one can

  lemma UploadTakesEffect(s: System, p: nat, id: string, t: Terms) returns (e: Step)
    requires Sound(s.cloud) && Kept(s, t) && In(s, p, Uploading) && IsUuid(id) && id !in s.cloud.versions
    ensures e == Step.Upload(p, id, {}, Delivered) && Enabled(s, e) && Next(s, e, t).uploads == s.uploads + 1
    ensures Next(s, e, t).cloud.versions.Keys == s.cloud.versions.Keys + {id}
    ensures forall q :: q != p && q in s.runs ==> q in Next(s, e, t).runs && Next(s, e, t).runs[q] == s.runs[q]
  {
    hide UploadMetadata, IsUuid, Ordered, DeployReplay.ApprovalSpent;
    e := Step.Upload(p, id, {}, Delivered);
    assert RunKept(s, s.runs[p], t);
  }

  /** A run in the window gets to its upload by itself. */
  lemma GetsToUpload(s: System, p: nat, t: Terms) returns (steps: seq<Step>)
    requires Sound(s.cloud) && Kept(s, t) && WillUpload(s, p, t) && DeployReplay.Injective(t.sha)
    ensures Runs(s, steps, t) && forall i :: 0 <= i < |steps| ==> steps[i].who == p
    ensures var n := After(s, steps, t);
            n.cloud == s.cloud && n.uploads == s.uploads && Kept(n, t) && In(n, p, Uploading)
            && forall q :: q != p && q in s.runs ==> q in n.runs && n.runs[q] == s.runs[q]
  {
    hide Snap, Judged, CanRead, Kept, Mixed;
    if s.runs[p].phase.Uploading? {
      steps := [];
      assert Runs(s, [], t) && After(s, [], t) == s;
    } else {
      steps := [GetRest(p)];
      RunsOne(s, GetRest(p), t);
      NextKeeps(s, GetRest(p), t);
    }
  }

  /** After an upload has taken effect, another one can if and only if some run is about to upload or has
      taken the approved latest version in its second read; whoever takes the latest version later stops. */
  lemma AnotherUploadIff(s: System, t: Terms, id: string)
    requires Sound(s.cloud) && Reachable(s, t) && DeployReplay.Injective(t.sha) && s.uploads >= 1
    requires IsUuid(id) && id !in s.cloud.versions
    ensures (exists steps :: Runs(s, steps, t) && After(s, steps, t).uploads > s.uploads)
            <==> exists p :: WillUpload(s, p, t)
  {
    hide Reachable, Snap, Judged, CanRead, Mixed, IsUuid, WillUpload, Enabled, Next, Sound;
    ReachableIsKept(s, t);
    if exists p :: WillUpload(s, p, t) {
      var p :| WillUpload(s, p, t);
      var steps := GetsToUpload(s, p, t);
      AfterIsSound(s, steps, t);
      var n := After(s, steps, t);
      var e := UploadTakesEffect(n, p, id, t);
      RunsOne(n, e, t);
      RunsConcat(s, steps, [e], t);
      assert Runs(s, steps + [e], t) && After(s, steps + [e], t).uploads > s.uploads;
    } else {
      forall steps | Runs(s, steps, t) ensures After(s, steps, t).uploads == s.uploads {
        OverForGood(s, steps, t);
      }
    }
  }

  // ---------------------------------------------------------------------------------------------
  // One at a time

  /** No two runs stand together between taking the approved latest version and the upload's effect. */
  ghost predicate Alone(s: System, t: Terms)
    requires Sound(s.cloud)
  {
    forall p, q :: WillUpload(s, p, t) && WillUpload(s, q, t) ==> p == q
  }

  ghost predicate OneAtATime(s: System, steps: seq<Step>, t: Terms)
    requires Sound(s.cloud) && Runs(s, steps, t)
    decreases |steps|
  {
    Alone(s, t)
    && (steps == [] || (NextIsSound(s, steps[0], t); OneAtATime(Next(s, steps[0], t), steps[1..], t)))
  }

  /** Nothing has been uploaded yet, or one version has and no other will be. */
  ghost predicate AtMostOne(s: System, t: Terms)
    requires Sound(s.cloud)
  {
    s.uploads == 0 || (s.uploads == 1 && Over(s, t))
  }

  lemma UploadDoesNotAdmit(s: System, e: Step, q: nat, t: Terms)
    requires Sound(s.cloud) && Kept(s, t) && Enabled(s, e) && e.Upload? && q != e.who && !WillUpload(s, q, t)
    ensures Sound(Next(s, e, t).cloud) && !WillUpload(Next(s, e, t), q, t)
  {
    hide Judged, IsUuid, UploadMetadata, Ordered, DeployReplay.ApprovalSpent;
    NextIsSound(s, e, t);
    var n := Next(s, e, t);
    if q in s.runs && s.runs[q].phase.Looking? && s.runs[q].phase.latest.Some? {
      assert RunKept(s, s.runs[q], t);
      var v := s.runs[q].phase.latest.value;
      SameMixed(s.cloud, n.cloud, v, t.source.sha256);
    }
  }

  /** A version more does not change what is read of the others. */
  lemma SameMixed(c: Cloud, d: Cloud, v: string, candidate: string)
    requires Sound(c) && Sound(d) && v in c.versions
    requires d.active == c.active && d.deployment == c.deployment && d.routes == c.routes
    requires forall w :: w in c.versions ==> w in d.versions && d.versions[w] == c.versions[w]
    ensures Sound(Mixed(c, v)) && Sound(Mixed(d, v)) && Snap(Mixed(d, v)) == Snap(Mixed(c, v))
    ensures CanRead(Mixed(d, v), candidate) == CanRead(Mixed(c, v), candidate)
  {
    hide Readable;
  }

  lemma UploaderIsDone(s: System, e: Step, t: Terms)
    requires Sound(s.cloud) && Enabled(s, e) && e.Upload?
    ensures WillUpload(s, e.who, t)
    ensures Sound(Next(s, e, t).cloud) && !WillUpload(Next(s, e, t), e.who, t)
    ensures Next(s, e, t).uploads == s.uploads + if e.fate.Lost? then 0 else 1
  {
    hide Judged, IsUuid, UploadMetadata, CanRead, Snap, Mixed;
    NextIsSound(s, e, t);
  }

  lemma AtMostOneStays(s: System, e: Step, t: Terms)
    requires Sound(s.cloud) && Kept(s, t) && AtMostOne(s, t) && Alone(s, t) && Enabled(s, e)
    requires DeployReplay.Injective(t.sha)
    ensures Sound(Next(s, e, t).cloud) && AtMostOne(Next(s, e, t), t)
  {
    hide WillUpload, RunKept, Ordered, DeployReplay.ApprovalSpent, DeployReplay.Injective, Sound, Judged, Snap, CanRead,
         Mixed, IsUuid, UploadMetadata;
    NextIsSound(s, e, t);
    var n := Next(s, e, t);
    if s.uploads == 1 {
      OverStays(s, e, t);
    } else if e.Upload? {
      NextKeeps(s, e, t);
      UploaderIsDone(s, e, t);
      forall q | q != e.who ensures !WillUpload(n, q, t) {
        UploadDoesNotAdmit(s, e, q, t);
      }
    }
  }

  lemma {:induction false} OneAtATimeKeeps(s: System, steps: seq<Step>, t: Terms)
    requires Sound(s.cloud) && Kept(s, t) && AtMostOne(s, t) && DeployReplay.Injective(t.sha)
    requires Runs(s, steps, t) && OneAtATime(s, steps, t)
    ensures After(s, steps, t).uploads <= 1
    decreases |steps|
  {
    hide Sound, Enabled, Next, Kept, Over, Alone, DeployReplay.Injective;
    if steps != [] {
      NextKeeps(s, steps[0], t);
      AtMostOneStays(s, steps[0], t);
      OneAtATimeKeeps(Next(s, steps[0], t), steps[1..], t);
    }
  }

  /** In every run in which no two operators stand in that window together, at most one upload takes effect. */
  lemma OneAtATimeUploadsOnce(c: Cloud, steps: seq<Step>, t: Terms)
    requires Sound(c) && DeployReplay.Injective(t.sha) && Runs(Start(c), steps, t) && OneAtATime(Start(c), steps, t)
    ensures After(Start(c), steps, t).uploads <= 1
  {
    hide Kept;
    StartIsKept(c, t);
    OneAtATimeKeeps(Start(c), steps, t);
  }

  // ---------------------------------------------------------------------------------------------
  // Two together

  /** Steps of the operators that now stand in the window. */
  ghost predicate OfTheWindow(s: System, steps: seq<Step>, t: Terms)
    requires Sound(s.cloud)
  {
    forall i :: 0 <= i < |steps| ==> WillUpload(s, steps[i].who, t)
  }

  function CanStill(r: Operator): nat {
    if r.phase.Uploading? || (r.phase.Looking? && r.phase.read <= 1) then 1 else 0
  }

  lemma OneStepAlone(s: System, e: Step, t: Terms)
    requires Sound(s.cloud) && Enabled(s, e) && e.who in s.runs
    ensures var n := Next(s, e, t);
            Sound(n.cloud) && e.who in n.runs
            && n.uploads + CanStill(n.runs[e.who]) <= s.uploads + CanStill(s.runs[e.who])
  {
    NextIsSound(s, e, t);
    hide Snap, CanRead, UploadMetadata, IsUuid, Judged;
    if e.GetRest? {
      JudgedIs(s.runs[e.who], Snap(Mixed(s.cloud, s.runs[e.who].phase.latest.value)), t);
    }
  }

  lemma {:induction false} SoloUploads(s: System, p: nat, steps: seq<Step>, t: Terms)
    requires Sound(s.cloud) && p in s.runs && Runs(s, steps, t)
    requires forall i :: 0 <= i < |steps| ==> steps[i].who == p
    ensures After(s, steps, t).uploads <= s.uploads + CanStill(s.runs[p])
    decreases |steps|
  {
    hide Sound, Enabled, Next, CanStill;
    if steps != [] {
      OneStepAlone(s, steps[0], t);
      SoloUploads(Next(s, steps[0], t), p, steps[1..], t);
    }
  }

  lemma TwoCan(s: System, p: nat, q: nat, t: Terms, x: string, y: string) returns (steps: seq<Step>)
    requires Sound(s.cloud) && Kept(s, t) && DeployReplay.Injective(t.sha)
    requires IsUuid(x) && IsUuid(y) && x != y && x !in s.cloud.versions && y !in s.cloud.versions
    requires p != q && WillUpload(s, p, t) && WillUpload(s, q, t)
    ensures Runs(s, steps, t) && OfTheWindow(s, steps, t) && After(s, steps, t).uploads == s.uploads + 2
  {
    hide Snap, Judged, CanRead, Mixed, IsUuid, WillUpload, Enabled, Next, Sound, Kept, DeployReplay.Injective;
    InRuns(s, p, q, t);
    var a := GetsToUpload(s, p, t);
    AfterIsSound(s, a, t);
    var n1 := After(s, a, t);
    SameWill(s, n1, q, t);
    var b := GetsToUpload(n1, q, t);
    RunsConcat(s, a, b, t);
    AfterIsSound(n1, b, t);
    var n2 := After(n1, b, t);
    var e := UploadTakesEffect(n2, p, x, t);
    RunsOne(n2, e, t);
    NextKeeps(n2, e, t);
    RunsConcat(s, a + b, [e], t);
    var n3 := Next(n2, e, t);
    var f := UploadTakesEffect(n3, q, y, t);
    RunsOne(n3, f, t);
    RunsConcat(s, a + b + [e], [f], t);
    steps := a + b + [e] + [f];
  }

  lemma InRuns(s: System, p: nat, q: nat, t: Terms)
    requires Sound(s.cloud) && WillUpload(s, p, t) && WillUpload(s, q, t)
    ensures p in s.runs && q in s.runs
  {
  }

  lemma CanStillOnce(r: Operator)
    ensures CanStill(r) <= 1
  {
  }

  /** The operators in the window can make two uploads take effect between them exactly when they are two. */
  lemma TwoUploadsIff(s: System, t: Terms, x: string, y: string)
    requires Sound(s.cloud) && Reachable(s, t) && DeployReplay.Injective(t.sha)
    requires IsUuid(x) && IsUuid(y) && x != y && x !in s.cloud.versions && y !in s.cloud.versions
    ensures (exists steps :: Runs(s, steps, t) && OfTheWindow(s, steps, t)
                             && After(s, steps, t).uploads >= s.uploads + 2)
            <==> !Alone(s, t)
  {
    hide Reachable, Snap, Judged, CanRead, Mixed, IsUuid, WillUpload, Enabled, Next, Sound, Kept,
         DeployReplay.Injective, CanStill;
    ReachableIsKept(s, t);
    if !Alone(s, t) {
      var p, q :| WillUpload(s, p, t) && WillUpload(s, q, t) && p != q;
      var steps := TwoCan(s, p, q, t, x, y);
    } else {
      forall steps: seq<Step> | Runs(s, steps, t) && OfTheWindow(s, steps, t)
        ensures After(s, steps, t).uploads <= s.uploads + 1
      {
        if steps != [] {
          var p := steps[0].who;
          InRuns(s, p, p, t);
          SoloUploads(s, p, steps, t);
          CanStillOnce(s.runs[p]);
        }
      }
    }
  }

  // ---------------------------------------------------------------------------------------------
  // The reported version

  /** When a run succeeds its version is live. */
  lemma ReportedIsLive(s: System, e: Step, p: nat, t: Terms)
    requires Sound(s.cloud) && Enabled(s, e) && !In(s, p, Succeeded) && In(Next(s, e, t), p, Succeeded)
    ensures Next(s, e, t).cloud.active == Next(s, e, t).runs[p].id
  {
    hide Judged, UploadMetadata, IsUuid, CanRead, Snap;
    if e.GetRest? && e.who == p {
      var v := s.runs[p].phase.latest.value;
      MixedIs(s.cloud, v);
      SucceedsLive(s.runs[p], Snap(Mixed(s.cloud, v)), t);
    }
  }

  lemma SucceedsLive(r: Operator, snap: Snapshot, t: Terms)
    requires r.phase.Looking?
    ensures Judged(r, snap, t).phase.Succeeded? ==> snap.active == Judged(r, snap, t).id
  {
    hide Valid, Preserved, MetadataAgrees;
  }

  /** A reported version is live and no run is about to deploy another. */
  predicate Settled(s: System, p: nat) {
    In(s, p, Succeeded) && s.cloud.active == s.runs[p].id && forall q :: q in s.runs ==> !s.runs[q].phase.Deploying?
  }

  /** Beside a run that has succeeded no other gets past its second read. */
  lemma SettledStays(s: System, e: Step, p: nat, t: Terms)
    requires Sound(s.cloud) && Kept(s, t) && Settled(s, p) && Enabled(s, e) && DeployReplay.Injective(t.sha)
    ensures Sound(Next(s, e, t).cloud) && Settled(Next(s, e, t), p) && Next(s, e, t).runs[p].id == s.runs[p].id
  {
    hide Judged, UploadMetadata, IsUuid, CanRead, Snap, Ordered, RunKept, DeployReplay.ApprovalSpent,
         DeployReplay.Injective;
    NextIsSound(s, e, t);
    if e.GetRest? {
      var r := s.runs[e.who];
      var v := r.phase.latest.value;
      MixedIs(s.cloud, v);
      var snap := Snap(Mixed(s.cloud, v));
      JudgedIs(r, snap, t);
      var j := Judged(r, snap, t);
      if j.phase.Deploying? {
        NoneSure(s, r, snap, j, p, t);
      }
    }
  }

  lemma {:induction false} SettledForGood(s: System, steps: seq<Step>, p: nat, t: Terms)
    requires Sound(s.cloud) && Kept(s, t) && Settled(s, p) && Runs(s, steps, t) && DeployReplay.Injective(t.sha)
    ensures After(s, steps, t).cloud.active == s.runs[p].id
    decreases |steps|
  {
    hide Sound, Enabled, Next, Kept, DeployReplay.Injective;
    if steps != [] {
      SettledStays(s, steps[0], p, t);
      NextKeeps(s, steps[0], t);
      SettledForGood(Next(s, steps[0], t), steps[1..], p, t);
    }
  }

  /** A run about to deploy can make its version live, and it is another one. */
  lemma DeploysAnother(s: System, p: nat, q: nat, deployment: string, t: Terms) returns (e: Step)
    requires Sound(s.cloud) && Kept(s, t) && In(s, p, Succeeded) && In(s, q, Deploying)
    requires IsUuid(deployment) && deployment !in s.cloud.deployments
    ensures Enabled(s, e) && Next(s, e, t).cloud.active == s.runs[q].id != s.runs[p].id
  {
    hide IsUuid, DeployReplay.ApprovalSpent;
    e := Step.Deploy(q, deployment, Delivered);
    assert RunKept(s, s.runs[q], t);
  }

  lemma LeadsAway(s: System, p: nat, t: Terms, deployment: string) returns (steps: seq<Step>)
    requires Sound(s.cloud) && Kept(s, t) && In(s, p, Succeeded) && !Settled(s, p)
    requires IsUuid(deployment) && deployment !in s.cloud.deployments
    ensures Runs(s, steps, t) && After(s, steps, t).cloud.active != s.runs[p].id
  {
    hide IsUuid, Enabled, Next, Sound, Kept;
    if s.cloud.active != s.runs[p].id {
      steps := [];
    } else {
      var q :| q in s.runs && s.runs[q].phase.Deploying?;
      var e := DeploysAnother(s, p, q, deployment, t);
      RunsOne(s, e, t);
      steps := [e];
    }
  }

  /** A reported version stays live, whatever comes, if and only if it is live and no other run is past its
      second read and about to deploy. */
  lemma ReportedStaysLiveIff(s: System, p: nat, t: Terms, deployment: string)
    requires Sound(s.cloud) && Reachable(s, t) && DeployReplay.Injective(t.sha) && In(s, p, Succeeded)
    requires IsUuid(deployment) && deployment !in s.cloud.deployments
    ensures (forall steps :: Runs(s, steps, t) ==> After(s, steps, t).cloud.active == s.runs[p].id) <==> Settled(s, p)
  {
    hide Reachable, IsUuid, Enabled, Next, Sound, Kept, DeployReplay.Injective;
    ReachableIsKept(s, t);
    if Settled(s, p) {
      forall steps | Runs(s, steps, t) ensures After(s, steps, t).cloud.active == s.runs[p].id {
        SettledForGood(s, steps, p, t);
      }
    } else {
      var steps := LeadsAway(s, p, t, deployment);
      assert Runs(s, steps, t) && After(s, steps, t).cloud.active != s.runs[p].id;
    }
  }
}
