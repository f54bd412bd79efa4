/** The verdict on a candidate, told by what is active: which hindrance it is queued for when there are
    several, and what the blockers name. */
module LaneDecisions {
  import opened Shapes
  import opened Json
  import opened Sorting
  import opened Lanes
  import opened LaneRuns

  // ---------------------------------------------------------------------------------------------
  // Hindrances

  ghost predicate OfSameIssue(cand: Lane, lanes: seq<Lane>) {
    exists x :: x in lanes && x.repository == cand.repository && x.issue == cand.issue
  }

  ghost predicate DependsOnActive(cand: Lane, lanes: seq<Lane>) {
    exists x :: x in lanes && Identity(x) in cand.dependencies
  }

  ghost predicate SharesKey(cand: Lane, lanes: seq<Lane>) {
    exists x, k :: x in lanes && k in x.conflictKeys && k in cand.conflictKeys
  }

  ghost predicate LiveActive(lanes: seq<Lane>) {
    exists x :: x in lanes && x.laneClass == "LIVE_EXCLUSIVE"
  }

  /** The active source lanes that work. */
  ghost function Workers(lanes: seq<Lane>, p: Policy): set<Lane> {
    set x | x in lanes && (x.laneClass == "SOURCE_INDEPENDENT" || x.laneClass == "SOURCE_EXCLUSIVE")
            && x.state in p.runnable
  }

  ghost predicate Waits(cand: Lane) {
    cand.laneClass == "WAITING_EXTERNAL" || cand.laneClass == "WAITING_OWNER"
  }

  /** The first hindrance in this order decides. */
  ghost function Outcome(cand: Lane, lanes: seq<Lane>, p: Policy): string {
    if cand.blocked then "QUEUED_PROGRAM_ORDER"
    else if OfSameIssue(cand, lanes) then "QUEUED_DUPLICATE"
    else if DependsOnActive(cand, lanes) then "QUEUED_DEPENDENCY"
    else if SharesKey(cand, lanes) then "QUEUED_CONFLICT"
    else if cand.laneClass == "LIVE_EXCLUSIVE" then
      if LiveActive(lanes) then "QUEUED_LIVE_EXCLUSIVE" else "ELIGIBLE"
    else if Waits(cand) then "DURABLE_WAIT"
    else if |Workers(lanes, p)| >= p.limit then "QUEUED_CAPACITY"
    else "ELIGIBLE"
  }

  ghost predicate Named(cand: Lane, lanes: seq<Lane>) {
    IsRepository(cand.repository) && forall x :: x in lanes ==> IsRepository(x.repository)
  }

  lemma SameIssueIs(cand: Lane, lanes: seq<Lane>)
    requires Named(cand, lanes)
    ensures OfSameIssue(cand, lanes) <==> Identity(cand) in Identities(lanes)
  {
    hide IsRepository, Identity;
    forall x | x in lanes
      ensures Identity(x) == Identity(cand) <==> x.repository == cand.repository && x.issue == cand.issue
    {
      IdentityInjective(x, cand);
    }
  }

  lemma DependsIs(cand: Lane, lanes: seq<Lane>)
    ensures DependsOnActive(cand, lanes) <==> Common(cand.dependencies, Identities(lanes)) != []
  {
    hide Identity, Common;
    var common := Common(cand.dependencies, Identities(lanes));
    CommonAre(cand.dependencies, Identities(lanes));
    if common != [] {
      assert common[0] in common;
    }
    forall x | x in lanes && Identity(x) in cand.dependencies ensures common != [] {
      assert Identity(x) in common;
    }
  }

  lemma SharesIs(cand: Lane, lanes: seq<Lane>)
    ensures SharesKey(cand, lanes) <==> Shared(cand, lanes) != []
  {
    hide Shared;
    NothingShared(cand, lanes);
    forall x | x in lanes ensures Disjoint(cand, x) <==> forall k :: !(k in x.conflictKeys && k in cand.conflictKeys) {
      assert forall k :: (k in KeySet(x.conflictKeys) <==> k in x.conflictKeys)
                         && (k in KeySet(cand.conflictKeys) <==> k in cand.conflictKeys);
    }
  }

  lemma LiveIs(lanes: seq<Lane>)
    ensures LiveActive(lanes) <==> LiveOnes(lanes) != []
  {
    hide LiveOnes;
    NoneLive(lanes);
  }

  lemma WorkersAre(lanes: seq<Lane>, p: Policy)
    requires Distinct(lanes)
    ensures Used(lanes, p) == |Workers(lanes, p)|
  {
    UsedCounts(lanes, p);
    assert Workers(lanes, p) == set x | x in lanes && TakesWorker(x, p);
  }

  lemma WaitsIs(cand: Lane)
    ensures Waits(cand) <==> cand.laneClass in WAITING
    ensures cand.laneClass == LIVE <==> cand.laneClass == "LIVE_EXCLUSIVE"
  {
  }

  /** The decision is the first hindrance there is. */
  lemma DecisionIs(cand: Lane, lanes: seq<Lane>, p: Policy)
    requires Named(cand, lanes) && Distinct(lanes)
    ensures Decide(cand, lanes, p).decision == Outcome(cand, lanes, p)
  {
    hide Named, Distinct, OfSameIssue, DependsOnActive, SharesKey, LiveActive, Workers, Waits, Identity, Identities,
         Common, Shared, LiveOnes, Used, Sort, Decimal, WAITING, LIVE;
    SameIssueIs(cand, lanes);
    DependsIs(cand, lanes);
    SharesIs(cand, lanes);
    LiveIs(lanes);
    WorkersAre(lanes, p);
    WaitsIs(cand);
  }

  // ---------------------------------------------------------------------------------------------
  // Blockers

  /** What a decision's blockers name. */
  ghost predicate Blocks(cand: Lane, lanes: seq<Lane>, p: Policy, decision: string, blocker: string) {
    match decision
    case "QUEUED_PROGRAM_ORDER" => blocker == "explicit-program-order"
    case "QUEUED_DUPLICATE" => blocker == Identity(cand)
    case "QUEUED_DEPENDENCY" => blocker in cand.dependencies && exists x :: x in lanes && Identity(x) == blocker
    case "QUEUED_CONFLICT" => exists x :: x in lanes && Hits(cand, x, blocker)
    case "QUEUED_LIVE_EXCLUSIVE" => exists x :: x in lanes && x.laneClass == "LIVE_EXCLUSIVE" && Identity(x) == blocker
    case "QUEUED_CAPACITY" =>
      blocker == "source-workers:" + Decimal(|Workers(lanes, p)|) + "/" + Decimal(p.limit)
    case _ => false
  }

  lemma {:induction false} LiveOnesAre(lanes: seq<Lane>, blocker: string)
    ensures blocker in LiveOnes(lanes) <==>
              exists x :: x in lanes && x.laneClass == "LIVE_EXCLUSIVE" && Identity(x) == blocker
  {
    hide Identity;
    if lanes != [] {
      LiveOnesAre(lanes[..|lanes| - 1], blocker);
      assert lanes == lanes[..|lanes| - 1] + [lanes[|lanes| - 1]];
    }
  }

  lemma SortKeeps(names: seq<string>, b: string)
    ensures b in Sort(names, StringLeq) <==> b in names
    ensures Ordered(Sort(names, StringLeq), StringLeq)
  {
    hide Sort, StringLeq, Ordered;
    StringOrder();
    SortSorts(names, StringLeq);
    assert b in Sort(names, StringLeq) <==> b in multiset(Sort(names, StringLeq));
    assert b in names <==> b in multiset(names);
  }

  lemma DependenciesAre(cand: Lane, lanes: seq<Lane>, b: string)
    ensures b in Common(cand.dependencies, Identities(lanes))
            <==> b in cand.dependencies && exists x :: x in lanes && Identity(x) == b
  {
    hide Identity, Common;
    CommonAre(cand.dependencies, Identities(lanes));
  }

  /** The blockers are exactly what the decision names, in order. */
  lemma BlockersAre(cand: Lane, lanes: seq<Lane>, p: Policy, b: string)
    requires Named(cand, lanes) && Distinct(lanes)
    ensures b in Decide(cand, lanes, p).blockers <==> Blocks(cand, lanes, p, Outcome(cand, lanes, p), b)
    ensures Ordered(Decide(cand, lanes, p).blockers, StringLeq)
  {
    hide Named, Distinct, OfSameIssue, DependsOnActive, SharesKey, LiveActive, Workers, Waits, Identity, Identities,
         Common, Shared, LiveOnes, Used, Sort, Decimal, WAITING, LIVE, Hits, StringLeq;
    SameIssueIs(cand, lanes);
    DependsIs(cand, lanes);
    SharesIs(cand, lanes);
    LiveIs(lanes);
    WorkersAre(lanes, p);
    WaitsIs(cand);
    DependenciesAre(cand, lanes, b);
    SharedAre(cand, lanes, b);
    LiveOnesAre(lanes, b);
    SortKeeps(Common(cand.dependencies, Identities(lanes)), b);
    SortKeeps(Shared(cand, lanes), b);
    SortKeeps(LiveOnes(lanes), b);
  }

  lemma NormalIsNamed(v: Value, p: Policy)
    requires NormalizeLane(v, p).Ok?
    ensures IsRepository(LaneOf(v, p).repository)
  {
    hide IsRepository, IsNames, Sort;
  }

  /** A classification that does not stop gives the candidate's verdict among the active lanes, which are
      those of the records that are not finished. */
  lemma VerdictIs(candidate: Value, records: seq<Value>, p: Policy, b: string)
    requires Classified(candidate, records, p).Ok?
    ensures NormalizeLane(candidate, p).Ok? && Normal(records, p) && Reconstructed(records, p).Ok?
    ensures var cand, lanes, v :=
              LaneOf(candidate, p), Reconstructed(records, p).value, Classified(candidate, records, p).value;
            (forall x :: x in lanes <==> x in LanesOf(records, p) && x.state !in p.terminal)
            && v.decision == Outcome(cand, lanes, p)
            && (b in v.blockers <==> Blocks(cand, lanes, p, v.decision, b))
            && Ordered(v.blockers, StringLeq)
  {
    hide NormalizeLane, Reconstructed, Decide, Outcome, Blocks, IsRepository, Ordered, StringLeq, Distinct;
    var cand, lanes := LaneOf(candidate, p), Reconstructed(records, p).value;
    ReconstructedAre(records, p);
    NormalIsNamed(candidate, p);
    forall x | x in lanes ensures IsRepository(x.repository) {
      var i :| 0 <= i < |records| && LanesOf(records, p)[i] == x;
      NormalIsNamed(records[i], p);
    }
    DecisionIs(cand, lanes, p);
    BlockersAre(cand, lanes, p, b);
  }
}
