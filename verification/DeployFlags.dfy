/** The deployment protocol by itself, with an adapter that reports compatibility flags, as its own checks
    allow. The transport of this runtime never does: it refuses every version that has any. */
module DeployFlags {
  import opened Shapes
  import opened Sorting
  import opened StatsWorker
  import opened Deploy
  import opened DeployCloud

  lemma SortedFlagsAreOk(c: Config)
    requires ConfigOk(c)
    ensures ConfigOk(c.(flags := Sort(c.flags, StringLeq)))
  {
    StringOrder();
    var t := Sort(c.flags, StringLeq);
    SortSorts(c.flags, StringLeq);
    assert |t| == |multiset(t)| == |multiset(c.flags)| == |c.flags|;
    forall f | f in t ensures IsFlag(f) {
      assert f in multiset(c.flags);
    }
    forall i, j | 0 <= i < j < |t| ensures t[i] != t[j] {
      Distinct(c.flags);
      if t[i] == t[j] {
        Repeated(t, i, j);
      }
    }
  }

  lemma {:induction false} Distinct(s: seq<string>)
    requires forall i, j :: 0 <= i < j < |s| ==> s[i] != s[j]
    ensures forall x :: multiset(s)[x] <= 1
    decreases |s|
  {
    if s != [] {
      Distinct(s[1..]);
      assert s == [s[0]] + s[1..];
    }
  }

  lemma Repeated(s: seq<string>, i: nat, j: nat)
    requires i < j < |s| && s[i] == s[j]
    ensures multiset(s)[s[i]] >= 2
  {
    assert s == s[..i] + [s[i]] + s[i + 1..j] + [s[j]] + s[j + 1..];
  }

  /** What such an adapter tells of the cloud when nothing is lost. */
  function ToldPlainly(c: Cloud, l: Luck, w: Source): Answers
    requires Sound(c)
  {
    var c1 := WithVersion(c, l.version, w.sha256, UploadMetadata(Snap(c)), l.handlers);
    var c2 := WithDeployment(c1, l.version, l.deployment);
    Answers([Replied(Some(Snap(c))), Replied(Some(Snap(c))), Replied(Some(Snap(c1))), Replied(Some(Snap(c2)))],
            Replied(Some(l.version)), Replied(Some(l.deployment)))
  }

  /** The upload sends the flags sorted, and the read after it compares them with the order they had before:
      from a valid, approved state the protocol succeeds exactly when they were sorted. */
  lemma CoreSucceedsIffFlagsSorted(c: Cloud, l: Luck, p: Approval, w: Source, sha: Snapshot -> string)
    requires Sound(c) && Valid(Snap(c), false) && MetadataAgrees(Snap(c))
    requires p.preflight == sha(Snap(c)) && IsSha256(w.sha256)
    requires Fresh(c, l) && !l.upload.Lost? && !l.deploy.Lost?
    ensures GoodAnswers(ToldPlainly(c, l, w), p, w, sha) == 6 <==> Ordered(c.versions[c.active].config.flags, StringLeq)
    ensures GoodAnswers(ToldPlainly(c, l, w), p, w, sha) in {3, 6}
  {
    hide BindingsOk, ConfigOk, ROUTES, Sort;
    var s := Snap(c);
    StringOrder();
    SortFixes(s.activeConfig.flags, StringLeq);
    SortedFlagsAreOk(s.activeConfig);
    SnapAfterUpload(c, l, w);
    SnapAfterDeploy(AfterUpload(c, l, w), l);
  }

  /** The transport's own refusal: no state with flags can be read at all. */
  lemma FlagsAreUnreadable(c: Cloud, candidate: string)
    requires Sound(c) && (c.versions[c.active].config.flags != [] || c.versions[c.latest].config.flags != [])
    ensures !CanRead(c, candidate)
  {
  }
}
