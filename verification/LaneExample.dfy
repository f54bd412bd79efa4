/** Under the policy on file: a run of five lanes in which admission keeps the limit of four workers and a
    resumption exceeds it, and a finished lane that is admitted again. */
module LaneExample {
  import opened Shapes
  import opened Json
  import opened Sorting
  import opened Lanes
  import opened LaneRecords
  import opened LaneRuns

  const ON_FILE := Policy(
    {"SOURCE_INDEPENDENT", "SOURCE_EXCLUSIVE", "LIVE_EXCLUSIVE", "WAITING_EXTERNAL", "WAITING_OWNER"},
    {"ACTIVATING", "WORKING", "CORRECTING", "VERIFYING"},
    {"WAITING_CI", "WAITING_REVIEW", "WAITING_EXTERNAL", "WAITING_OWNER", "WAITING_EVENT_RESUME",
     "WAITING_WATCHDOG_RESUME", "PAUSED_USAGE", "PAUSED_PLATFORM_APPROVAL", "PAUSED_EXTERNAL"},
    {"DONE", "STOP_SCOPE_OR_RISK", "STOP_ERROR"}, 4)

  predicate Usual(state: string) {
    state == "WORKING" || state == "WAITING_CI" || state == "DONE"
  }

  function Zeros(n: nat): string {
    seq(n, i => '0')
  }

  /** The `n`-th source lane, with a conflict key of its own. */
  function LaneFor(n: nat, state: string): Lane {
    Lane("a/b", n + 1, "SOURCE_INDEPENDENT", state, [Decimal(n)], [], false, Zeros(40), false, false)
  }

  function Record(n: nat, state: string): Value {
    Shown(LaneFor(n, state))
  }

  lemma RepositoryOk()
    ensures IsRepository("a/b")
  {
    var s := "a/b";
    assert 0 < 1 < |s| - 1 && s[1] == '/' && forall i :: 0 <= i < |s| && i != 1 ==> NameChar(s[i]);
  }

  lemma ClassesOnFile(state: string)
    requires Usual(state)
    ensures "SOURCE_INDEPENDENT" in ON_FILE.classes && state in ON_FILE.runnable + ON_FILE.durable + ON_FILE.terminal
    ensures "SOURCE_INDEPENDENT" in SOURCE && "SOURCE_INDEPENDENT" !in WAITING && "SOURCE_INDEPENDENT" != LIVE
    ensures state in ON_FILE.terminal <==> state == "DONE"
    ensures state in ON_FILE.runnable <==> state == "WORKING"
  {
  }

  lemma LimitOnFile()
    ensures ON_FILE.limit == 4
  {
  }

  lemma RecordIsLane(n: nat, state: string)
    requires Usual(state)
    ensures NormalizeLane(Record(n, state), ON_FILE) == Ok(LaneFor(n, state))
  {
    hide ON_FILE, SOURCE, WAITING, LIVE, IsRepository, OwnerAndName, Decimal, StringLeq;
    RepositoryOk();
    RepositoryIs(LaneFor(n, state).repository);
    ClassesOnFile(state);
    DecimalNotEmpty(n);
    assert LaneOk(LaneFor(n, state), ON_FILE);
    ShownIsNormal(LaneFor(n, state), ON_FILE);
  }

  /** The lane that waits, and `k` that work. */
  function State(k: nat): seq<Value> {
    [Record(0, "WAITING_CI")] + seq(k, i requires 0 <= i < k => Record(i + 1, "WORKING"))
  }

  function StateOf(i: nat): string {
    if i == 0 then "WAITING_CI" else "WORKING"
  }

  lemma StateIs(k: nat)
    ensures Normal(State(k), ON_FILE) && |State(k)| == k + 1
    ensures forall i :: 0 <= i <= k ==> LaneOf(State(k)[i], ON_FILE) == LaneFor(i, StateOf(i))
    ensures Distinct(LanesOf(State(k), ON_FILE))
  {
    hide NormalizeLane, Identity, Record;
    forall i | 0 <= i <= k
      ensures NormalizeLane(State(k)[i], ON_FILE) == Ok(LaneFor(i, StateOf(i)))
    {
      RecordIsLane(i, StateOf(i));
    }
    forall i, j | 0 <= i < j <= k ensures Identity(LaneFor(i, StateOf(i))) != Identity(LaneFor(j, StateOf(j))) {
      OtherIssues(i, j, StateOf(i), StateOf(j));
    }
  }

  lemma OtherIssues(n: nat, m: nat, s: string, t: string)
    requires n != m
    ensures Identity(LaneFor(n, s)) != Identity(LaneFor(m, t))
    ensures Compatible(LaneFor(n, s), LaneFor(m, t))
  {
    hide Identity, IsRepository;
    RepositoryOk();
    IdentityInjective(LaneFor(n, s), LaneFor(m, t));
    if Decimal(n) == Decimal(m) {
      DecimalInjective(n, m);
    }
    ClassesOnFile("DONE");
  }

  lemma {:induction false} WorkingIn(k: nat)
    ensures Normal(State(k), ON_FILE) && Working(State(k), ON_FILE) == k
  {
    hide NormalizeLane, Record, ON_FILE;
    StateIs(k);
    WorksWhen(k);
    if k == 0 {
      assert State(0) == [Record(0, "WAITING_CI")];
      RecordIsLane(0, "WAITING_CI");
      WorkingOne(Record(0, "WAITING_CI"), ON_FILE);
    } else {
      WorkingIn(k - 1);
      assert State(k)[..k] == State(k - 1);
      assert State(k)[k] == Record(k, "WORKING");
      RecordIsLane(k, "WORKING");
    }
  }

  lemma WorksWhen(n: nat)
    ensures forall state :: Usual(state) ==>
              NormalizeLane(Record(n, state), ON_FILE).Ok?
              && (Works(Record(n, state), ON_FILE) <==> state == "WORKING")
  {
    hide NormalizeLane, ON_FILE, Record, SOURCE;
    forall state | Usual(state)
      ensures NormalizeLane(Record(n, state), ON_FILE).Ok? && (Works(Record(n, state), ON_FILE) <==> state == "WORKING")
    {
      RecordIsLane(n, state);
      ClassesOnFile(state);
    }
  }

  lemma NothingHinders(k: nat, lanes: seq<Lane>)
    requires Normal(State(k), ON_FILE) && forall x :: x in lanes ==> x in LanesOf(State(k), ON_FILE)
    ensures Unhindered(LaneFor(k + 1, "WORKING"), lanes)
  {
    hide NormalizeLane, Record, Identity, Compatible;
    StateIs(k);
    forall x | x in lanes ensures Compatible(LaneFor(k + 1, "WORKING"), x) {
      var i :| 0 <= i <= k && LanesOf(State(k), ON_FILE)[i] == x;
      OtherIssues(k + 1, i, "WORKING", StateOf(i));
    }
  }

  lemma Admits(k: nat)
    requires k < 4
    ensures Enabled(State(k), Admit(Record(k + 1, "WORKING")), ON_FILE)
    ensures Next(State(k), Admit(Record(k + 1, "WORKING")), ON_FILE) == State(k + 1)
  {
    hide NormalizeLane, Record, Decide, Sort, Active, Scanned, Normal, Distinct, Unhindered, Used, Working, ON_FILE,
         SOURCE, WAITING, LIVE;
    LimitOnFile();
    var cand := LaneFor(k + 1, "WORKING");
    RecordIsLane(k + 1, "WORKING");
    StateIs(k);
    ScannedIs(State(k), ON_FILE);
    ReconstructedAre(State(k), ON_FILE);
    ClassifyUsesWorking(State(k), ON_FILE);
    WorkingIn(k);
    var lanes := Reconstructed(State(k), ON_FILE).value;
    NothingHinders(k, lanes);
    ClassesOnFile("WORKING");
    AdmittedIs(cand, lanes, ON_FILE);
    assert State(k) + [Record(k + 1, "WORKING")] == State(k + 1);
  }

  function FromState(k: nat): seq<Event>
    requires k <= 4
    decreases 4 - k
  {
    if k == 4 then [Change(0, Record(0, "WORKING"))] else [Admit(Record(k + 1, "WORKING"))] + FromState(k + 1)
  }

  lemma {:induction false} RunsFrom(k: nat)
    requires k <= 4
    ensures Runs(State(k), FromState(k), ON_FILE)
    ensures After(State(k), FromState(k), ON_FILE) == State(4)[0 := Record(0, "WORKING")]
    decreases 4 - k
  {
    hide NormalizeLane, Record, Classified, Working, State;
    if k == 4 {
      Resumes4();
      var change := Change(0, Record(0, "WORKING"));
      assert FromState(4) == [change] && [change][1..] == [];
    } else {
      Admits(k);
      RunsFrom(k + 1);
      assert FromState(k)[1..] == FromState(k + 1);
    }
  }

  lemma Resumes4()
    ensures Enabled(State(4), Change(0, Record(0, "WORKING")), ON_FILE)
  {
    hide NormalizeLane, Record;
    StateIs(4);
    RecordIsLane(0, "WORKING");
    RecordIsLane(0, "WAITING_CI");
    ClassesOnFile("WAITING_CI");
  }

  /** From nothing, five admissions and one resumption: five workers under a limit of four. */
  lemma ResumptionExceedsLimit()
    ensures var events := [Admit(Record(0, "WAITING_CI"))] + FromState(0);
            Runs([], events, ON_FILE)
            && Normal(After([], events, ON_FILE), ON_FILE)
            && Working(After([], events, ON_FILE), ON_FILE) == 5 == ON_FILE.limit + 1
  {
    hide NormalizeLane, Record, Working, Classified, FromState;
    var first := Admit(Record(0, "WAITING_CI"));
    var events := [first] + FromState(0);
    FirstAdmitted("WAITING_CI", []);
    assert State(0) == [Record(0, "WAITING_CI")] == [] + [Record(0, "WAITING_CI")];
    assert events[1..] == FromState(0);
    RunsFrom(0);
    var last := State(4)[0 := Record(0, "WORKING")];
    StateIs(4);
    WorkingIn(4);
    WorksWhen(0);
    WorkingAt(State(4), 0, ON_FILE);
    assert forall r :: r in last ==> r in State(4) || r == Record(0, "WORKING");
    WorkingAt(last, 0, ON_FILE);
    assert last[..0] == State(4)[..0] && last[1..] == State(4)[1..];
  }

  lemma Inhabited(lanes: seq<Lane>)
    ensures lanes == [] || exists x :: x in lanes
  {
    if lanes != [] {
      assert lanes[0] in lanes;
    }
  }

  /** A lane is admitted beside nothing, or beside its own finished record. */
  lemma FirstAdmitted(state: string, before: seq<Value>)
    requires Usual(state)
    requires before == [] || before == [Record(0, "DONE")]
    ensures Enabled(before, Admit(Record(0, state)), ON_FILE)
  {
    hide NormalizeLane, Record, Decide, Identity, Sort, Compatible, Used, Active;
    RecordIsLane(0, state);
    RecordIsLane(0, "DONE");
    ClassesOnFile("DONE");
    assert Normal(before, ON_FILE) && Distinct(LanesOf(before, ON_FILE));
    ScannedIs(before, ON_FILE);
    ReconstructedAre(before, ON_FILE);
    var lanes := Reconstructed(before, ON_FILE).value;
    assert forall x :: x in LanesOf(before, ON_FILE) ==> x == LaneFor(0, "DONE");
    assert forall x :: x !in lanes;
    Inhabited(lanes);
    UsedNothing(ON_FILE);
    AdmittedIs(LaneFor(0, state), lanes, ON_FILE);
  }

  /** An issue is admitted again beside its finished record, and from then on nothing can be classified. */
  lemma ReadmissionHappens(candidate: Value)
    ensures Enabled([Record(0, "DONE")], Admit(Record(0, "WORKING")), ON_FILE)
    ensures Classified(candidate, [Record(0, "DONE"), Record(0, "WORKING")], ON_FILE).Stop?
  {
    hide NormalizeLane, Record, Classified, Identity;
    FirstAdmitted("WORKING", [Record(0, "DONE")]);
    RecordIsLane(0, "DONE");
    RecordIsLane(0, "WORKING");
    RepositoryOk();
    IdentityInjective(LaneFor(0, "DONE"), LaneFor(0, "WORKING"));
    ReadmissionStalls([Record(0, "DONE")], 0, Record(0, "WORKING"), candidate, ON_FILE);
    assert [Record(0, "DONE")] + [Record(0, "WORKING")] == [Record(0, "DONE"), Record(0, "WORKING")];
  }
}
