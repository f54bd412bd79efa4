/** What admission guarantees: over orderings of the records, over removals, and over whole runs. */
module LaneRuns {
  import opened Shapes
  import opened Json
  import opened Sorting
  import opened Lanes

  predicate Normal(records: seq<Value>, p: Policy) {
    forall r :: r in records ==> NormalizeLane(r, p).Ok?
  }

  function LaneOf(v: Value, p: Policy): Lane
    requires NormalizeLane(v, p).Ok?
  {
    NormalizeLane(v, p).value
  }

  function LanesOf(records: seq<Value>, p: Policy): seq<Lane>
    requires Normal(records, p)
  {
    seq(|records|, i requires 0 <= i < |records| => LaneOf(records[i], p))
  }

  predicate Distinct(lanes: seq<Lane>) {
    forall i, j :: 0 <= i < j < |lanes| ==> Identity(lanes[i]) != Identity(lanes[j])
  }

  /** Records are accepted exactly when each is by itself and no two are of the same issue. */
  lemma {:induction false} ScannedIs(records: seq<Value>, p: Policy)
    ensures Scanned(records, p).Ok? <==> Normal(records, p) && Distinct(LanesOf(records, p))
    ensures Scanned(records, p).Ok? ==> Scanned(records, p).value == LanesOf(records, p)
  {
    hide NormalizeLane, Identity;
    if records != [] {
      var front, last := records[..|records| - 1], records[|records| - 1];
      ScannedIs(front, p);
      assert records == front + [last];
      if Normal(records, p) {
        assert LanesOf(records, p) == LanesOf(front, p) + [LaneOf(last, p)];
        var id := Identity(LaneOf(last, p));
        if id in Identities(LanesOf(front, p)) {
          var x :| x in LanesOf(front, p) && Identity(x) == id;
          var i :| 0 <= i < |front| && LanesOf(front, p)[i] == x;
          assert Identity(LanesOf(records, p)[i]) == Identity(LanesOf(records, p)[|front|]);
        } else {
          forall i | 0 <= i < |front| ensures Identity(LanesOf(front, p)[i]) != id {
            assert LanesOf(front, p)[i] in LanesOf(front, p);
          }
        }
        assert Distinct(LanesOf(records, p)) ==> Distinct(LanesOf(front, p)) by {
          assert forall i :: 0 <= i < |front| ==> LanesOf(records, p)[i] == LanesOf(front, p)[i];
        }
      }
    }
  }

  lemma {:induction false} ActiveAre(lanes: seq<Lane>, p: Policy)
    ensures forall x :: x in Active(lanes, p) <==> x in lanes && x.state !in p.terminal
    ensures Distinct(lanes) ==> Distinct(Active(lanes, p))
  {
    hide Identity;
    if lanes != [] {
      var front, last := lanes[..|lanes| - 1], lanes[|lanes| - 1];
      assert lanes == front + [last];
      ActiveAre(front, p);
      if Distinct(lanes) {
        var a := Active(front, p);
        forall i | 0 <= i < |a| ensures Identity(a[i]) != Identity(last) {
          assert a[i] in a;
          var k :| 0 <= k < |front| && lanes[k] == a[i];
        }
      }
    }
  }

  // ---------------------------------------------------------------------------------------------
  // The order of the records does not matter

  lemma LaneOrder()
    ensures TotalPreorder(LaneLeq)
  {
    StringOrder();
    hide StringLeq;
  }

  lemma {:induction false} DistinctCounts(lanes: seq<Lane>)
    ensures |Identities(lanes)| <= |lanes|
    ensures Distinct(lanes) <==> |Identities(lanes)| == |lanes|
  {
    hide Identity;
    if lanes != [] {
      var front, last := lanes[..|lanes| - 1], lanes[|lanes| - 1];
      assert lanes == front + [last];
      DistinctCounts(front);
      IdentitiesAppend(front, last);
      DistinctAppend(front, last);
    }
  }

  lemma DistinctAppend(front: seq<Lane>, last: Lane)
    ensures Distinct(front + [last]) <==> Distinct(front) && Identity(last) !in Identities(front)
  {
    hide Identity;
    var lanes := front + [last];
    if Identity(last) in Identities(front) {
      var x :| x in front && Identity(x) == Identity(last);
      var i :| 0 <= i < |front| && front[i] == x;
      assert Identity(lanes[i]) == Identity(lanes[|front|]);
    } else {
      forall i | 0 <= i < |front| ensures Identity(lanes[i]) != Identity(last) {
        assert lanes[i] in front;
      }
    }
    if Distinct(lanes) {
      forall i, j | 0 <= i < j < |front| ensures Identity(front[i]) != Identity(front[j]) {
        assert lanes[i] == front[i] && lanes[j] == front[j];
      }
    }
  }

  lemma {:induction false} DistinctMultiset(lanes: seq<Lane>)
    requires Distinct(lanes)
    ensures multiset(lanes) == multiset(set x | x in lanes)
  {
    hide Identity;
    if lanes != [] {
      var front, last := lanes[..|lanes| - 1], lanes[|lanes| - 1];
      assert lanes == front + [last];
      DistinctAppend(front, last);
      DistinctMultiset(front);
      assert last !in front;
      assert (set x | x in lanes) == (set x | x in front) + {last};
    }
  }

  lemma DistinctStrict(lanes: seq<Lane>)
    requires Distinct(lanes)
    ensures Strict(lanes, LaneLeq)
  {
    hide StringLeq;
    StringOrder();
    forall x, y | x in lanes && y in lanes && LaneLeq(x, y) && LaneLeq(y, x) ensures x == y {
      var i :| 0 <= i < |lanes| && lanes[i] == x;
      var j :| 0 <= j < |lanes| && lanes[j] == y;
      assert Identity(x) == Identity(y);
    }
  }

  lemma LanesOfMembers(a: seq<Value>, b: seq<Value>, p: Policy)
    requires Normal(a, p) && Normal(b, p) && forall r :: r in a ==> r in b
    ensures forall x :: x in LanesOf(a, p) ==> x in LanesOf(b, p)
  {
    hide NormalizeLane;
    forall x | x in LanesOf(a, p) ensures x in LanesOf(b, p) {
      var i :| 0 <= i < |a| && LaneOf(a[i], p) == x;
      assert a[i] in b;
      var j :| 0 <= j < |b| && b[j] == a[i];
      assert LanesOf(b, p)[j] == x;
    }
  }

  /** Rearranging the records changes neither whether they are accepted nor the active lanes. */
  lemma OrderForgotten(a: seq<Value>, b: seq<Value>, p: Policy)
    requires multiset(a) == multiset(b)
    ensures Reconstructed(a, p).Ok? == Reconstructed(b, p).Ok?
    ensures Reconstructed(a, p).Ok? ==> Reconstructed(a, p) == Reconstructed(b, p)
  {
    hide NormalizeLane, Identity, Sort;
    assert |a| == |multiset(a)| == |b|;
    assert forall r :: r in a <==> r in multiset(a);
    assert forall r :: r in b <==> r in multiset(b);
    ScannedIs(a, p);
    ScannedIs(b, p);
    if Normal(a, p) {
      var la, lb := LanesOf(a, p), LanesOf(b, p);
      LanesOfMembers(a, b, p);
      LanesOfMembers(b, a, p);
      assert Identities(la) == Identities(lb);
      DistinctCounts(la);
      DistinctCounts(lb);
      if Distinct(la) {
        ActiveAre(la, p);
        ActiveAre(lb, p);
        var aa, ab := Active(la, p), Active(lb, p);
        assert (set x | x in aa) == (set x | x in ab);
        DistinctMultiset(aa);
        DistinctMultiset(ab);
        DistinctStrict(aa);
        LaneOrder();
        SortForgetsOrder(aa, ab, LaneLeq);
      }
    }
  }

  /** A candidate's verdict does not depend on the order of the records. */
  lemma ClassifyForgetsOrder(candidate: Value, a: seq<Value>, b: seq<Value>, p: Policy)
    requires multiset(a) == multiset(b)
    ensures Classified(candidate, a, p).Ok? == Classified(candidate, b, p).Ok?
    ensures Classified(candidate, a, p).Ok? ==> Classified(candidate, a, p) == Classified(candidate, b, p)
  {
    hide NormalizeLane, Decide, Reconstructed;
    OrderForgotten(a, b, p);
  }

  // ---------------------------------------------------------------------------------------------
  // What being admitted means

  lemma {:induction false} CommonAre(names: seq<string>, s: set<string>)
    ensures forall x :: x in Common(names, s) <==> x in names && x in s
  {
    if names != [] {
      CommonAre(names[..|names| - 1], s);
      assert names == names[..|names| - 1] + [names[|names| - 1]];
    }
  }

  predicate Disjoint(x: Lane, y: Lane) {
    KeySet(x.conflictKeys) !! KeySet(y.conflictKeys)
  }

  /** The blocker names `x` and a conflict key of both. */
  predicate Hits(cand: Lane, x: Lane, blocker: string) {
    exists k :: k in cand.conflictKeys && k in x.conflictKeys && blocker == Identity(x) + ":" + k
  }

  lemma SharedKeys(cand: Lane, x: Lane, k: string)
    ensures k in Sort(Common(cand.conflictKeys, KeySet(x.conflictKeys)), StringLeq)
            <==> k in cand.conflictKeys && k in x.conflictKeys
  {
    hide Sort, Common, StringLeq;
    var common := Common(cand.conflictKeys, KeySet(x.conflictKeys));
    CommonAre(cand.conflictKeys, KeySet(x.conflictKeys));
    StringOrder();
    SortSorts(common, StringLeq);
    assert k in Sort(common, StringLeq) <==> k in multiset(Sort(common, StringLeq));
    assert k in common <==> k in multiset(common);
  }

  lemma PrefixedHit(cand: Lane, x: Lane, blocker: string)
    ensures blocker in Prefixed(x, Sort(Common(cand.conflictKeys, KeySet(x.conflictKeys)), StringLeq))
            <==> Hits(cand, x, blocker)
  {
    hide Identity, Sort, Common, StringLeq;
    var keys := Sort(Common(cand.conflictKeys, KeySet(x.conflictKeys)), StringLeq);
    if blocker in Prefixed(x, keys) {
      var i :| 0 <= i < |keys| && blocker == Identity(x) + ":" + keys[i];
      SharedKeys(cand, x, keys[i]);
    }
    if Hits(cand, x, blocker) {
      var k :| k in cand.conflictKeys && k in x.conflictKeys && blocker == Identity(x) + ":" + k;
      SharedKeys(cand, x, k);
      var i :| 0 <= i < |keys| && keys[i] == k;
      assert Prefixed(x, keys)[i] == blocker;
    }
  }

  /** The blockers of a conflict are exactly the shared keys, each with the lane that holds it. */
  lemma {:induction false} SharedAre(cand: Lane, lanes: seq<Lane>, blocker: string)
    ensures blocker in Shared(cand, lanes) <==> exists x :: x in lanes && Hits(cand, x, blocker)
  {
    hide Identity, Sort, Common, Hits, Prefixed;
    if lanes != [] {
      var front, last := lanes[..|lanes| - 1], lanes[|lanes| - 1];
      assert lanes == front + [last];
      SharedAre(cand, front, blocker);
      PrefixedHit(cand, last, blocker);
    }
  }

  lemma NothingShared(cand: Lane, lanes: seq<Lane>)
    ensures Shared(cand, lanes) == [] <==> forall x :: x in lanes ==> Disjoint(cand, x)
  {
    hide Identity, Shared;
    if Shared(cand, lanes) != [] {
      var b := Shared(cand, lanes)[0];
      SharedAre(cand, lanes, b);
      var x :| x in lanes && Hits(cand, x, b);
      var k :| k in cand.conflictKeys && k in x.conflictKeys && b == Identity(x) + ":" + k;
      assert k in KeySet(cand.conflictKeys) && k in KeySet(x.conflictKeys);
    } else {
      forall x | x in lanes ensures Disjoint(cand, x) {
        forall k ensures !(k in cand.conflictKeys && k in x.conflictKeys) {
          SharedAre(cand, lanes, Identity(x) + ":" + k);
          assert k in cand.conflictKeys && k in x.conflictKeys ==> Hits(cand, x, Identity(x) + ":" + k);
        }
      }
    }
  }

  lemma {:induction false} NoneLive(lanes: seq<Lane>)
    ensures LiveOnes(lanes) == [] <==> forall x :: x in lanes ==> x.laneClass != LIVE
  {
    hide LIVE, Identity;
    if lanes != [] {
      NoneLive(lanes[..|lanes| - 1]);
      assert lanes == lanes[..|lanes| - 1] + [lanes[|lanes| - 1]];
    }
  }

  /** May run beside `x`. */
  predicate Compatible(cand: Lane, x: Lane) {
    Identity(cand) != Identity(x) && Disjoint(cand, x) && !(cand.laneClass == LIVE && x.laneClass == LIVE)
  }

  predicate Unhindered(cand: Lane, lanes: seq<Lane>) {
    !cand.blocked
    && forall x :: x in lanes ==> Compatible(cand, x) && Identity(x) !in cand.dependencies
  }

  predicate Admitted(v: Verdict) {
    v.decision == "ELIGIBLE" || v.decision == "DURABLE_WAIT"
  }

  /** A candidate is admitted exactly when nothing active hinders it and, if it is not a LIVE or waiting
      lane, a worker is free. */
  lemma AdmittedIs(cand: Lane, lanes: seq<Lane>, p: Policy)
    ensures Admitted(Decide(cand, lanes, p)) <==>
              Unhindered(cand, lanes)
              && (cand.laneClass == LIVE || cand.laneClass in WAITING || Used(lanes, p) < p.limit)
    ensures Decide(cand, lanes, p).decision == "DURABLE_WAIT" ==> cand.laneClass in WAITING
    ensures cand.laneClass in WAITING ==> Decide(cand, lanes, p).decision != "ELIGIBLE"
  {
    hide Identity, Shared, Common, LiveOnes, Used, Disjoint, Sort, Decimal;
    var ids := Identities(lanes);
    NothingShared(cand, lanes);
    NoneLive(lanes);
    CommonAre(cand.dependencies, ids);
    if Common(cand.dependencies, ids) != [] {
      assert Common(cand.dependencies, ids)[0] in Common(cand.dependencies, ids);
      var x :| x in lanes && Identity(x) == Common(cand.dependencies, ids)[0];
    } else {
      forall x | x in lanes ensures Identity(x) !in cand.dependencies {
        assert Identity(x) in ids;
        assert Identity(x) !in Common(cand.dependencies, ids);
      }
    }
    assert Identity(cand) in ids <==> exists x :: x in lanes && Identity(x) == Identity(cand);
  }

  // ---------------------------------------------------------------------------------------------
  // Removing an active lane

  function Without<T>(s: seq<T>, i: nat): seq<T>
    requires i < |s|
  {
    s[..i] + s[i + 1..]
  }

  lemma {:induction false} UsedCounts(lanes: seq<Lane>, p: Policy)
    requires Distinct(lanes)
    ensures Used(lanes, p) == |set x | x in lanes && TakesWorker(x, p)|
  {
    hide Identity, TakesWorker;
    if lanes != [] {
      var front, last := lanes[..|lanes| - 1], lanes[|lanes| - 1];
      assert lanes == front + [last];
      UsedCounts(front, p);
      var before, after := (set x | x in front && TakesWorker(x, p)), (set x | x in lanes && TakesWorker(x, p));
      DistinctAppend(front, last);
      assert last !in front;
      assert after == before + if TakesWorker(last, p) then {last} else {};
    }
  }

  lemma SmallerSet<T>(a: set<T>, b: set<T>)
    requires a <= b
    ensures |a| <= |b|
  {
    assert b == a + (b - a);
  }

  lemma FewerUse(a: seq<Lane>, b: seq<Lane>, p: Policy)
    requires Distinct(a) && Distinct(b) && forall x :: x in a ==> x in b
    ensures Used(a, p) <= Used(b, p)
  {
    hide Identity, TakesWorker, Used;
    UsedCounts(a, p);
    UsedCounts(b, p);
    SmallerSet(set x | x in a && TakesWorker(x, p), set x | x in b && TakesWorker(x, p));
  }

  lemma SortedAre(lanes: seq<Lane>, p: Policy)
    ensures var s := Sort(lanes, LaneLeq);
            (forall x :: x in s <==> x in lanes) && multiset(s) == multiset(lanes)
  {
    hide Sort;
    LaneOrder();
    SortSorts(lanes, LaneLeq);
    var s := Sort(lanes, LaneLeq);
    assert forall x :: x in s <==> x in multiset(s);
  }

  lemma ReconstructedAre(records: seq<Value>, p: Policy)
    requires Reconstructed(records, p).Ok?
    ensures Normal(records, p) && Distinct(LanesOf(records, p))
    ensures var lanes := Reconstructed(records, p).value;
            Distinct(lanes)
            && forall x :: x in lanes <==> x in LanesOf(records, p) && x.state !in p.terminal
  {
    hide NormalizeLane, Identity, Sort, Active;
    ScannedIs(records, p);
    var all := LanesOf(records, p);
    ActiveAre(all, p);
    SortedAre(Active(all, p), p);
    DistinctCounts(Active(all, p));
    var s := Sort(Active(all, p), LaneLeq);
    DistinctCounts(s);
    assert |s| == |multiset(s)|;
    assert Identities(s) == Identities(Active(all, p));
  }

  /** Taking away a record never turns an admission into a queue or a refusal. */
  lemma RemovalKeepsAdmission(candidate: Value, records: seq<Value>, i: nat, p: Policy)
    requires i < |records| && Classified(candidate, records, p).Ok?
    requires Admitted(Classified(candidate, records, p).value)
    ensures Classified(candidate, Without(records, i), p).Ok?
    ensures Classified(candidate, Without(records, i), p).value.decision
         == Classified(candidate, records, p).value.decision
  {
    hide NormalizeLane, Identity, Sort, Active, Decide, Compatible, Used;
    var fewer := Without(records, i);
    ReconstructedAre(records, p);
    ScannedIs(fewer, p);
    assert forall r :: r in fewer ==> r in records;
    var l, m := LanesOf(records, p), LanesOf(fewer, p);
    assert forall k :: 0 <= k < |m| ==> m[k] == l[if k < i then k else k + 1];
    LanesOfMembers(fewer, records, p);
    ReconstructedAre(fewer, p);
    var cand := NormalizeLane(candidate, p).value;
    var many, few := Reconstructed(records, p).value, Reconstructed(fewer, p).value;
    FewerUse(few, many, p);
    AdmittedIs(cand, many, p);
    AdmittedIs(cand, few, p);
  }

  // ---------------------------------------------------------------------------------------------
  // Runs

  /** A candidate is admitted; a lane that goes on changes its state or other particulars, but not its
      issue, class or conflict keys; a record is no longer listed. */
  datatype Event = Admit(record: Value) | Change(at: nat, to: Value) | Drop(at: nat)

  predicate Enabled(records: seq<Value>, e: Event, p: Policy) {
    match e
    case Admit(record) =>
      Classified(record, records, p).Ok? && Admitted(Classified(record, records, p).value)
    case Change(at, to) =>
      at < |records| && NormalizeLane(records[at], p).Ok? && NormalizeLane(to, p).Ok?
      && (var x, y := LaneOf(records[at], p), LaneOf(to, p);
          x.state !in p.terminal && y.repository == x.repository && y.issue == x.issue
          && y.laneClass == x.laneClass && y.conflictKeys == x.conflictKeys)
    case Drop(at) => at < |records|
  }

  function Next(records: seq<Value>, e: Event, p: Policy): seq<Value>
    requires Enabled(records, e, p)
  {
    match e
    case Admit(record) => records + [record]
    case Change(at, to) => records[at := to]
    case Drop(at) => Without(records, at)
  }

  ghost predicate Runs(records: seq<Value>, events: seq<Event>, p: Policy)
    decreases |events|
  {
    events == [] || (Enabled(records, events[0], p) && Runs(Next(records, events[0], p), events[1..], p))
  }

  ghost function After(records: seq<Value>, events: seq<Event>, p: Policy): seq<Value>
    requires Runs(records, events, p)
    decreases |events|
  {
    if events == [] then records else After(Next(records, events[0], p), events[1..], p)
  }

  /** Lanes that both go on are compatible. */
  predicate Safe(records: seq<Value>, p: Policy) {
    Normal(records, p)
    && forall i, j :: 0 <= i < j < |records| ==>
         var x, y := LaneOf(records[i], p), LaneOf(records[j], p);
         x.state in p.terminal || y.state in p.terminal || Compatible(x, y)
  }

  lemma AdmitKeepsSafe(records: seq<Value>, record: Value, p: Policy)
    requires Safe(records, p) && Enabled(records, Admit(record), p)
    ensures Safe(records + [record], p)
  {
    hide NormalizeLane, Identity, Decide, Used, Disjoint;
    ReconstructedAre(records, p);
    var lanes := Reconstructed(records, p).value;
    var cand := LaneOf(record, p);
    AdmittedIs(cand, lanes, p);
    forall i | 0 <= i < |records| && LaneOf(records[i], p).state !in p.terminal
      ensures Compatible(LaneOf(records[i], p), cand)
    {
      assert LanesOf(records, p)[i] == LaneOf(records[i], p);
      assert LaneOf(records[i], p) in lanes;
      DisjointBothWays(cand, LaneOf(records[i], p));
    }
    assert forall r :: r in records + [record] ==> r in records || r == record;
  }

  lemma DisjointBothWays(x: Lane, y: Lane)
    ensures Disjoint(x, y) == Disjoint(y, x)
  {
  }

  lemma NextKeepsSafe(records: seq<Value>, e: Event, p: Policy)
    requires Safe(records, p) && Enabled(records, e, p)
    ensures Safe(Next(records, e, p), p)
  {
    hide NormalizeLane, Identity, Classified, Disjoint;
    match e {
      case Admit(record) => AdmitKeepsSafe(records, record, p);
      case Change(at, to) =>
        var next := records[at := to];
        assert forall r :: r in next ==> r in records || r == to;
        SameIssue(LaneOf(records[at], p), LaneOf(to, p));
      case Drop(at) =>
        var next := Without(records, at);
        assert forall r :: r in next ==> r in records;
        assert forall k :: 0 <= k < |next| ==> next[k] == records[if k < at then k else k + 1];
    }
  }

  lemma SameIssue(x: Lane, y: Lane)
    requires x.repository == y.repository && x.issue == y.issue && x.conflictKeys == y.conflictKeys
    ensures Identity(x) == Identity(y)
    ensures forall z :: Disjoint(x, z) == Disjoint(y, z) && Disjoint(z, x) == Disjoint(z, y)
  {
  }

  /** In every run, any two lanes that go on are of different issues, share no conflict key and are not
      both LIVE_EXCLUSIVE. */
  lemma {:induction false} RunsAreSafe(records: seq<Value>, events: seq<Event>, p: Policy)
    requires Safe(records, p) && Runs(records, events, p)
    ensures Safe(After(records, events, p), p)
    decreases |events|
  {
    hide Safe, Enabled, Next;
    if events != [] {
      NextKeepsSafe(records, events[0], p);
      RunsAreSafe(Next(records, events[0], p), events[1..], p);
    }
  }

  /** From no records at all. */
  lemma RunsFromNothingAreSafe(events: seq<Event>, p: Policy)
    requires Runs([], events, p)
    ensures Safe(After([], events, p), p)
  {
    RunsAreSafe([], events, p);
  }

  // ---------------------------------------------------------------------------------------------
  // Capacity

  predicate Works(v: Value, p: Policy)
    requires NormalizeLane(v, p).Ok?
  {
    LaneOf(v, p).state !in p.terminal && TakesWorker(LaneOf(v, p), p)
  }

  /** The source workers in use. */
  function Working(records: seq<Value>, p: Policy): nat
    requires Normal(records, p)
  {
    if records == [] then 0
    else
      var last := records[|records| - 1];
      Working(records[..|records| - 1], p) + if Works(last, p) then 1 else 0
  }

  lemma {:induction false} WorkingSum(a: seq<Value>, b: seq<Value>, p: Policy)
    requires Normal(a, p) && Normal(b, p)
    ensures Normal(a + b, p) && Working(a + b, p) == Working(a, p) + Working(b, p)
  {
    hide Works, NormalizeLane;
    if b == [] {
      assert a + b == a;
    } else {
      var front := b[..|b| - 1];
      WorkingSum(a, front, p);
      assert (a + b)[..|a + b| - 1] == a + front;
    }
  }

  lemma WorkingOne(v: Value, p: Policy)
    requires NormalizeLane(v, p).Ok?
    ensures Normal([v], p) && Working([v], p) == if Works(v, p) then 1 else 0
  {
    hide Works, NormalizeLane;
    assert [v][..0] == [];
  }

  lemma WorkingAt(records: seq<Value>, i: nat, p: Policy)
    requires i < |records| && Normal(records, p)
    ensures Normal(records[..i], p) && Normal(records[i + 1..], p)
    ensures Working(records, p)
         == Working(records[..i], p) + Working(records[i + 1..], p) + if Works(records[i], p) then 1 else 0
  {
    hide Works, NormalizeLane, Working;
    assert records == records[..i] + ([records[i]] + records[i + 1..]);
    WorkingOne(records[i], p);
    WorkingSum([records[i]], records[i + 1..], p);
    WorkingSum(records[..i], [records[i]] + records[i + 1..], p);
  }

  lemma UsedAppend(lanes: seq<Lane>, l: Lane, p: Policy)
    ensures Used(lanes + [l], p) == Used(lanes, p) + if TakesWorker(l, p) then 1 else 0
    ensures Active(lanes + [l], p) == Active(lanes, p) + if l.state in p.terminal then [] else [l]
  {
    hide TakesWorker;
    assert (lanes + [l])[..|lanes|] == lanes;
  }

  lemma {:induction false} UsedIsWorking(records: seq<Value>, p: Policy)
    requires Normal(records, p)
    ensures Used(Active(LanesOf(records, p), p), p) == Working(records, p)
  {
    hide NormalizeLane, TakesWorker, Used, Active;
    if records == [] {
      UsedNothing(p);
    } else {
      var front, last := records[..|records| - 1], records[|records| - 1];
      UsedIsWorking(front, p);
      assert LanesOf(records, p) == LanesOf(front, p) + [LaneOf(last, p)];
      UsedAppend(LanesOf(front, p), LaneOf(last, p), p);
      UsedAppend(Active(LanesOf(front, p), p), LaneOf(last, p), p);
      assert Active(LanesOf(front, p), p) + [] == Active(LanesOf(front, p), p);
    }
  }

  lemma UsedNothing(p: Policy)
    ensures Active([], p) == [] && Used([], p) == 0
  {
  }

  lemma ClassifyUsesWorking(records: seq<Value>, p: Policy)
    requires Reconstructed(records, p).Ok?
    ensures Normal(records, p) && Used(Reconstructed(records, p).value, p) == Working(records, p)
  {
    hide NormalizeLane, Identity, Sort, Active, Used, Working;
    ReconstructedAre(records, p);
    ScannedIs(records, p);
    var all := LanesOf(records, p);
    ActiveAre(all, p);
    var a := Active(all, p);
    SortedAre(a, p);
    FewerUse(a, Sort(a, LaneLeq), p);
    FewerUse(Sort(a, LaneLeq), a, p);
    UsedIsWorking(records, p);
  }

  /** A lane without a worker goes on working. */
  predicate Resumes(records: seq<Value>, e: Event, p: Policy)
    requires Enabled(records, e, p)
  {
    e.Change? && !Works(records[e.at], p) && Works(e.to, p)
  }

  /** A step leads beyond the limit exactly when it resumes a lane while all workers are taken. */
  lemma StepCapacity(records: seq<Value>, e: Event, p: Policy)
    requires Safe(records, p) && Enabled(records, e, p) && Working(records, p) <= p.limit
    ensures Normal(Next(records, e, p), p)
    ensures Working(Next(records, e, p), p) > p.limit <==> Resumes(records, e, p) && Working(records, p) == p.limit
  {
    hide NormalizeLane, Identity, Works, Working, Compatible, Decide;
    NextKeepsSafe(records, e, p);
    match e {
      case Admit(record) =>
        ClassifyUsesWorking(records, p);
        AdmittedIs(LaneOf(record, p), Reconstructed(records, p).value, p);
        WorkingOne(record, p);
        WorkingSum(records, [record], p);
        SourceWorks(record, p);
      case Change(at, to) =>
        WorkingAt(records, at, p);
        var next := records[at := to];
        assert next[..at] == records[..at] && next[at + 1..] == records[at + 1..];
        WorkingAt(next, at, p);
      case Drop(at) =>
        WorkingAt(records, at, p);
        WorkingSum(records[..at], records[at + 1..], p);
    }
  }

  lemma SourceWorks(v: Value, p: Policy)
    requires NormalizeLane(v, p).Ok?
    ensures Works(v, p) ==> LaneOf(v, p).laneClass in SOURCE
    ensures LaneOf(v, p).laneClass in SOURCE ==> LaneOf(v, p).laneClass != LIVE && LaneOf(v, p).laneClass !in WAITING
  {
    hide NormalizeLane;
  }

  /** No lane resumes while all workers are taken. */
  ghost predicate ResumesInTime(records: seq<Value>, events: seq<Event>, p: Policy)
    requires Safe(records, p) && Runs(records, events, p)
    decreases |events|
  {
    events == []
    || (NextKeepsSafe(records, events[0], p);
        !(Resumes(records, events[0], p) && Working(records, p) == p.limit)
        && ResumesInTime(Next(records, events[0], p), events[1..], p))
  }

  ghost predicate StaysWithin(records: seq<Value>, events: seq<Event>, p: Policy)
    requires Safe(records, p) && Runs(records, events, p)
    decreases |events|
  {
    Working(records, p) <= p.limit
    && (events == []
        || (NextKeepsSafe(records, events[0], p);
            StaysWithin(Next(records, events[0], p), events[1..], p)))
  }

  /** A run stays within the limit throughout exactly when every resumption finds a worker free: admission
      alone does not keep the limit. */
  lemma {:induction false} CapacityOverRuns(records: seq<Value>, events: seq<Event>, p: Policy)
    requires Safe(records, p) && Runs(records, events, p) && Working(records, p) <= p.limit
    ensures StaysWithin(records, events, p) <==> ResumesInTime(records, events, p)
    decreases |events|
  {
    hide Safe, Enabled, Next, Resumes, Working;
    if events != [] {
      NextKeepsSafe(records, events[0], p);
      StepCapacity(records, events[0], p);
      var next := Next(records, events[0], p);
      if Working(next, p) <= p.limit {
        CapacityOverRuns(next, events[1..], p);
      }
    }
  }

  /** The same from no records at all. */
  lemma CapacityFromNothing(events: seq<Event>, p: Policy)
    requires Runs([], events, p)
    ensures Safe([], p) && (StaysWithin([], events, p) <==> ResumesInTime([], events, p))
  {
    assert Safe([], p) && Working([], p) == 0;
    CapacityOverRuns([], events, p);
  }

  /** After an admission, a valid candidate can be classified if and only if none of the records listed
      before is of the admitted issue. Only a finished one can be. */
  lemma AdmissionStallsIff(records: seq<Value>, record: Value, candidate: Value, p: Policy)
    requires Enabled(records, Admit(record), p) && NormalizeLane(candidate, p).Ok?
    ensures Normal(records, p)
    ensures Classified(candidate, records + [record], p).Ok?
            <==> forall i :: 0 <= i < |records| ==> Identity(LaneOf(records[i], p)) != Identity(LaneOf(record, p))
    ensures forall i :: 0 <= i < |records| && Identity(LaneOf(records[i], p)) == Identity(LaneOf(record, p)) ==>
                          LaneOf(records[i], p).state in p.terminal
  {
    hide NormalizeLane, Identity, Decide, Sort, Active, Compatible, Used;
    ScannedIs(records, p);
    var more := records + [record];
    ScannedIs(more, p);
    assert forall r :: r in more <==> r in records || r == record;
    var l := LanesOf(records, p);
    assert LanesOf(more, p) == l + [LaneOf(record, p)];
    DistinctAppend(l, LaneOf(record, p));
    assert forall i :: 0 <= i < |records| ==> l[i] in l && l[i] == LaneOf(records[i], p);
    FinishedOnly(records, record, p);
  }

  lemma FinishedOnly(records: seq<Value>, record: Value, p: Policy)
    requires Enabled(records, Admit(record), p) && Normal(records, p)
    ensures forall i :: 0 <= i < |records| && Identity(LaneOf(records[i], p)) == Identity(LaneOf(record, p)) ==>
                          LaneOf(records[i], p).state in p.terminal
  {
    hide NormalizeLane, Identity, Decide, Used, Disjoint, Sort, Active;
    ReconstructedAre(records, p);
    AdmittedIs(LaneOf(record, p), Reconstructed(records, p).value, p);
    forall i | 0 <= i < |records| && LaneOf(records[i], p).state !in p.terminal
      ensures Identity(LaneOf(records[i], p)) != Identity(LaneOf(record, p))
    {
      assert LanesOf(records, p)[i] == LaneOf(records[i], p);
      assert Compatible(LaneOf(record, p), LaneOf(records[i], p));
    }
  }

  /** Admitting an issue whose finished record is still listed makes every later classification stop. */
  lemma ReadmissionStalls(records: seq<Value>, i: nat, record: Value, candidate: Value, p: Policy)
    requires i < |records| && Normal(records, p) && Enabled(records, Admit(record), p)
    requires Identity(LaneOf(records[i], p)) == Identity(LaneOf(record, p))
    ensures Classified(candidate, records + [record], p).Stop?
  {
    hide NormalizeLane, Identity, Decide;
    var more := records + [record];
    ScannedIs(more, p);
    assert more[i] == records[i] && more[|records|] == record;
    assert record in more && records[i] in more;
    if Normal(more, p) {
      assert Identity(LanesOf(more, p)[i]) == Identity(LanesOf(more, p)[|records|]);
    }
  }
}
