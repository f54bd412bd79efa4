/** The collector's pool: one accepting loop, a thread per connection, four slots. Every interleaving of
    their steps, with refusals, failed thread starts and exceptions anywhere in a handler. */
module Collector {
  import opened Shapes
  import opened OriginReader

  const MAX_ACTIVE: nat := 4

  /** Where a connection is: in the accepting loop, in its handler, or done with. `Leaked` is a handler
      that ended because closing the connection raised. */
  datatype Phase =
    | Accepted | Acquired | Unspawned | Refused
    | Reading | Checking(id: string) | Sending(id: string) | Replying | Ending | Closed
    | Finished | Leaked

  /** What has happened to a connection. */
  datatype Connection = Connection(
    phase: Phase, trusted: bool, closes: nat, acquires: nat, releases: nat, sends: seq<string>)

  datatype Pool = Pool(free: nat, accepting: Option<nat>, connections: seq<Connection>)

  const START := Pool(MAX_ACTIVE, None, [])

  datatype Step =
    | Accept(trusted: bool)
    | Refuse(at: nat)
    | Acquire(at: nat)
    | Spawn(at: nat)
    | SpawnFails(at: nat)
    | ReturnUnspawned(at: nat)
    | CloseRefused(at: nat)
    | Read(at: nat, r: Result<string>)
    | Check(at: nat, published: Result<set<string>>)
    | Send(at: nat, ok: bool)
    | Reply(at: nat)
    | Close(at: nat)
    | CloseFails(at: nat)
    | Return(at: nat)

  function PhaseOf(s: Pool, i: nat): Option<Phase> {
    if i < |s.connections| then Some(s.connections[i].phase) else None
  }

  /** Refusing is always possible, since getting the peer's credentials may fail; a slot is for the trusted
      peer only. A read yields page ids only. */
  predicate Enabled(s: Pool, e: Step) {
    match e
    case Accept(_) => s.accepting.None?
    case Refuse(i) => s.accepting == Some(i) && PhaseOf(s, i) == Some(Accepted)
    case Acquire(i) =>
      s.accepting == Some(i) && PhaseOf(s, i) == Some(Accepted) && s.connections[i].trusted && s.free > 0
    case Spawn(i) => s.accepting == Some(i) && PhaseOf(s, i) == Some(Acquired)
    case SpawnFails(i) => s.accepting == Some(i) && PhaseOf(s, i) == Some(Acquired)
    case ReturnUnspawned(i) => s.accepting == Some(i) && PhaseOf(s, i) == Some(Unspawned)
    case CloseRefused(i) => s.accepting == Some(i) && PhaseOf(s, i) == Some(Refused)
    case Read(i, r) => PhaseOf(s, i) == Some(Reading) && (r.Ok? ==> IsPageId(r.value))
    case Check(i, _) => PhaseOf(s, i).Some? && PhaseOf(s, i).value.Checking?
    case Send(i, _) => PhaseOf(s, i).Some? && PhaseOf(s, i).value.Sending?
    case Reply(i) => PhaseOf(s, i) == Some(Replying)
    case Close(i) => PhaseOf(s, i) == Some(Ending)
    case CloseFails(i) => PhaseOf(s, i) == Some(Ending)
    case Return(i) => PhaseOf(s, i) == Some(Closed)
  }

  function To(s: Pool, i: nat, c: Connection): Pool
    requires i < |s.connections|
  {
    s.(connections := s.connections[i := c])
  }

  function Next(s: Pool, e: Step): Pool
    requires Enabled(s, e)
  {
    match e
    case Accept(trusted) =>
      s.(accepting := Some(|s.connections|),
         connections := s.connections + [Connection(Accepted, trusted, 0, 0, 0, [])])
    case Refuse(i) => To(s, i, s.connections[i].(phase := Refused))
    case Acquire(i) =>
      To(s, i, s.connections[i].(phase := Acquired, acquires := s.connections[i].acquires + 1)).(free := s.free - 1)
    case Spawn(i) => To(s, i, s.connections[i].(phase := Reading)).(accepting := None)
    case SpawnFails(i) => To(s, i, s.connections[i].(phase := Unspawned))
    case ReturnUnspawned(i) =>
      To(s, i, s.connections[i].(phase := Refused, releases := s.connections[i].releases + 1)).(free := s.free + 1)
    case CloseRefused(i) =>
      To(s, i, s.connections[i].(phase := Finished, closes := s.connections[i].closes + 1)).(accepting := None)
    case Read(i, r) => To(s, i, s.connections[i].(phase := if r.Ok? then Checking(r.value) else Ending))
    case Check(i, published) =>
      var id := s.connections[i].phase.id;
      To(s, i, s.connections[i].(phase := if published.Ok? && id in published.value then Sending(id) else Ending))
    case Send(i, ok) =>
      var c := s.connections[i];
      To(s, i, c.(phase := if ok then Replying else Ending, sends := c.sends + [c.phase.id]))
    case Reply(i) => To(s, i, s.connections[i].(phase := Ending))
    case Close(i) => To(s, i, s.connections[i].(phase := Closed, closes := s.connections[i].closes + 1))
    case CloseFails(i) => To(s, i, s.connections[i].(phase := Leaked, closes := s.connections[i].closes + 1))
    case Return(i) =>
      To(s, i, s.connections[i].(phase := Finished, releases := s.connections[i].releases + 1)).(free := s.free + 1)
  }

  ghost predicate Runs(s: Pool, steps: seq<Step>)
    decreases |steps|
  {
    steps == [] || (Enabled(s, steps[0]) && Runs(Next(s, steps[0]), steps[1..]))
  }

  ghost function After(s: Pool, steps: seq<Step>): Pool
    requires Runs(s, steps)
    decreases |steps|
  {
    if steps == [] then s else After(Next(s, steps[0]), steps[1..])
  }

  // ---------------------------------------------------------------------------------------------
  // Slots and connections

  predicate InLoop(p: Phase) {
    p.Accepted? || p.Acquired? || p.Unspawned? || p.Refused?
  }

  predicate Holding(c: Connection) {
    c.acquires != c.releases
  }

  function Held(connections: seq<Connection>): nat {
    if connections == [] then 0
    else Held(connections[..|connections| - 1]) + if Holding(connections[|connections| - 1]) then 1 else 0
  }

  /** Each connection's account agrees with where it is. */
  predicate Accounted(c: Connection) {
    (c.closes == if c.phase.Closed? || c.phase.Finished? || c.phase.Leaked? then 1 else 0)
    && c.acquires <= 1 && c.releases <= c.acquires
    && (c.phase.Accepted? ==> c.acquires == 0)
    && (c.phase.Refused? || c.phase.Finished? ==> c.acquires == c.releases)
    && (!c.phase.Accepted? && !c.phase.Refused? && !c.phase.Finished? ==> c.acquires == 1 && c.releases == 0)
    && |c.sends| <= 1 && (c.sends != [] ==> c.acquires == 1) && (c.acquires == 1 ==> c.trusted)
    && (InLoop(c.phase) || c.phase.Reading? || c.phase.Checking? || c.phase.Sending? ==> c.sends == [])
  }

  predicate Kept(s: Pool) {
    s.free + Held(s.connections) == MAX_ACTIVE
    && (forall i :: 0 <= i < |s.connections| ==>
          Accounted(s.connections[i]) && (InLoop(s.connections[i].phase) <==> s.accepting == Some(i)))
    && (s.accepting.Some? ==> s.accepting.value < |s.connections|)
  }

  lemma {:induction false} HeldAt(cs: seq<Connection>, i: nat, c: Connection)
    requires i < |cs|
    ensures Held(cs[i := c]) == Held(cs) - (if Holding(cs[i]) then 1 else 0) + (if Holding(c) then 1 else 0)
    ensures Holding(cs[i]) ==> Held(cs) > 0
  {
    var last := |cs| - 1;
    if i == last {
      assert cs[i := c][..last] == cs[..last];
    } else {
      HeldAt(cs[..last], i, c);
      assert cs[i := c][..last] == cs[..last][i := c];
    }
  }

  lemma HeldAppend(cs: seq<Connection>, c: Connection)
    ensures Held(cs + [c]) == Held(cs) + if Holding(c) then 1 else 0
  {
    assert (cs + [c])[..|cs|] == cs;
  }

  lemma StepAccounts(s: Pool, e: Step)
    requires Kept(s) && Enabled(s, e) && !e.Accept?
    ensures var t := Next(s, e);
            e.at < |s.connections| && e.at < |t.connections|
            && var (c, d) := (s.connections[e.at], t.connections[e.at]);
            t.connections == s.connections[e.at := d]
            && Accounted(d) && (InLoop(d.phase) <==> t.accepting == Some(e.at))
            && t.free + (if Holding(d) then 1 else 0) == s.free + (if Holding(c) then 1 else 0)
            && (t.accepting == s.accepting || (s.accepting == Some(e.at) && t.accepting.None?))
  {
    hide Held;
    assert Accounted(s.connections[e.at]);
  }

  lemma AcceptAccounts(s: Pool, trusted: bool)
    requires Enabled(s, Accept(trusted))
    ensures s.accepting.None?
    ensures var c := Connection(Accepted, trusted, 0, 0, 0, []);
            Accounted(c) && !Holding(c)
            && Next(s, Accept(trusted))
            == s.(accepting := Some(|s.connections|), connections := s.connections + [c])
  {
  }

  lemma NextKeeps(s: Pool, e: Step)
    requires Kept(s) && Enabled(s, e)
    ensures Kept(Next(s, e))
  {
    hide Held, Accounted, Holding, Next, Enabled;
    if e.Accept? {
      AcceptAccounts(s, e.trusted);
      HeldAppend(s.connections, Connection(Accepted, e.trusted, 0, 0, 0, []));
    } else {
      StepAccounts(s, e);
      HeldAt(s.connections, e.at, Next(s, e).connections[e.at]);
    }
  }

  /** In every run: free and held slots make up the four; no connection is closed, takes a slot, gives it
      back or is forwarded more than once; and only the trusted peer's are forwarded. */
  lemma {:induction false} RunsKeep(s: Pool, steps: seq<Step>)
    requires Kept(s) && Runs(s, steps)
    ensures Kept(After(s, steps))
    decreases |steps|
  {
    hide Kept, Enabled, Next;
    if steps != [] {
      NextKeeps(s, steps[0]);
      RunsKeep(Next(s, steps[0]), steps[1..]);
    }
  }

  lemma StartIsKept()
    ensures Kept(START)
  {
  }

  // ---------------------------------------------------------------------------------------------
  // Forwarding

  /** The catalog answers and ids read, as the steps of a run carry them. */
  ghost predicate CheckedBefore(steps: seq<Step>, i: nat, id: string) {
    exists k, published :: 0 <= k < |steps| && steps[k] == Check(i, Ok(published)) && id in published
  }

  ghost predicate ReadBefore(steps: seq<Step>, i: nat, id: string) {
    exists k :: 0 <= k < |steps| && steps[k] == Read(i, Ok(id))
  }

  ghost predicate Vouched(s: Pool, past: seq<Step>) {
    forall i :: 0 <= i < |s.connections| ==>
      var c := s.connections[i];
      (c.phase.Checking? ==> ReadBefore(past, i, c.phase.id))
      && (c.phase.Sending? ==> ReadBefore(past, i, c.phase.id) && CheckedBefore(past, i, c.phase.id))
      && (forall id :: id in c.sends ==> ReadBefore(past, i, id) && CheckedBefore(past, i, id))
  }

  lemma StillBefore(past: seq<Step>, e: Step, i: nat, id: string)
    ensures ReadBefore(past, i, id) ==> ReadBefore(past + [e], i, id)
    ensures CheckedBefore(past, i, id) ==> CheckedBefore(past + [e], i, id)
    ensures e == Read(i, Ok(id)) ==> ReadBefore(past + [e], i, id)
    ensures forall published :: e == Check(i, Ok(published)) && id in published ==> CheckedBefore(past + [e], i, id)
  {
    var more := past + [e];
    assert more[|past|] == e;
    if ReadBefore(past, i, id) {
      var k :| 0 <= k < |past| && past[k] == Read(i, Ok(id));
      assert more[k] == Read(i, Ok(id));
    }
    if CheckedBefore(past, i, id) {
      var k, published :| 0 <= k < |past| && past[k] == Check(i, Ok(published)) && id in published;
      assert more[k] == Check(i, Ok(published));
    }
  }

  lemma NextVouches(s: Pool, e: Step, past: seq<Step>)
    requires Vouched(s, past) && Enabled(s, e)
    ensures Vouched(Next(s, e), past + [e])
  {
    hide ReadBefore, CheckedBefore;
    var t, more := Next(s, e), past + [e];
    forall i | 0 <= i < |t.connections|
      ensures var c := t.connections[i];
              (c.phase.Checking? ==> ReadBefore(more, i, c.phase.id))
              && (c.phase.Sending? ==> ReadBefore(more, i, c.phase.id) && CheckedBefore(more, i, c.phase.id))
              && (forall id :: id in c.sends ==> ReadBefore(more, i, id) && CheckedBefore(more, i, id))
    {
      forall id {
        StillBefore(past, e, i, id);
      }
    }
  }

  /** In every run, an id is forwarded only for a connection that sent it and only after a catalog read for
      that connection had it. */
  lemma {:induction false} ForwardedArePublished(s: Pool, past: seq<Step>, steps: seq<Step>)
    requires Vouched(s, past) && Runs(s, steps)
    ensures Vouched(After(s, steps), past + steps)
    decreases |steps|
  {
    hide Vouched, Enabled, Next;
    if steps == [] {
      assert past + steps == past;
    } else {
      NextVouches(s, steps[0], past);
      ForwardedArePublished(Next(s, steps[0]), past + [steps[0]], steps[1..]);
      assert past + [steps[0]] + steps[1..] == past + steps;
    }
  }

  /** What a past of its own leaves a connection in: one that was read from is checked for the id it sent,
      one that was checked is past that, and a published id is being sent or was. */
  ghost predicate Owed(c: Connection, past: seq<Step>, i: nat, id: string) {
    (ReadBefore(past, i, id) ==>
       !InLoop(c.phase) && !c.phase.Reading? && (c.phase.Checking? ==> c.phase.id == id))
    && (CheckedBefore(past, i, id) ==> !InLoop(c.phase) && !c.phase.Reading? && !c.phase.Checking?)
    && (ReadBefore(past, i, id) && CheckedBefore(past, i, id) ==> c.phase == Sending(id) || id in c.sends)
  }

  ghost predicate AllOwed(s: Pool, past: seq<Step>) {
    (forall i, id: string :: 0 <= i < |s.connections| ==> Owed(s.connections[i], past, i, id))
    && (forall i: nat, id: string :: ReadBefore(past, i, id) || CheckedBefore(past, i, id) ==> i < |s.connections|)
  }

  /** Only a step of its own adds to a connection's past. */
  lemma BeforeWas(past: seq<Step>, e: Step, i: nat, id: string)
    ensures ReadBefore(past + [e], i, id) <==> ReadBefore(past, i, id) || e == Read(i, Ok(id))
    ensures CheckedBefore(past + [e], i, id) <==>
              CheckedBefore(past, i, id) || (e.Check? && e.at == i && e.published.Ok? && id in e.published.value)
  {
    hide InLoop;
    StillBefore(past, e, i, id);
    var more := past + [e];
    if ReadBefore(more, i, id) {
      var k :| 0 <= k < |more| && more[k] == Read(i, Ok(id));
      assert k < |past| ==> past[k] == Read(i, Ok(id));
    }
    if CheckedBefore(more, i, id) {
      var k, published :| 0 <= k < |more| && more[k] == Check(i, Ok(published)) && id in published;
      assert k < |past| ==> past[k] == Check(i, Ok(published));
    }
    if e.Check? && e.at == i && e.published.Ok? {
      assert e == Check(i, Ok(e.published.value));
    }
  }

  lemma NextOwes(s: Pool, e: Step, past: seq<Step>)
    requires Kept(s) && AllOwed(s, past) && Enabled(s, e)
    ensures AllOwed(Next(s, e), past + [e])
  {
    hide ReadBefore, CheckedBefore, Held;
    var t, more := Next(s, e), past + [e];
    forall i: nat, id: string
      ensures i < |t.connections| ==> Owed(t.connections[i], more, i, id)
      ensures ReadBefore(more, i, id) || CheckedBefore(more, i, id) ==> i < |t.connections|
    {
      BeforeWas(past, e, i, id);
      if i < |s.connections| {
        assert Owed(s.connections[i], past, i, id);
      }
    }
  }

  lemma {:induction false} RunOwes(s: Pool, past: seq<Step>, steps: seq<Step>)
    requires Kept(s) && AllOwed(s, past) && Runs(s, steps)
    ensures AllOwed(After(s, steps), past + steps)
    decreases |steps|
  {
    hide AllOwed, Kept, Enabled, Next;
    if steps == [] {
      assert past + steps == past;
    } else {
      NextKeeps(s, steps[0]);
      NextOwes(s, steps[0], past);
      RunOwes(Next(s, steps[0]), past + [steps[0]], steps[1..]);
      assert past + [steps[0]] + steps[1..] == past + steps;
    }
  }

  // ---------------------------------------------------------------------------------------------
  // Every connection comes to its end

  /** The steps a connection has at most before it. */
  function Rank(p: Phase): nat {
    match p
    case Accepted => 8
    case Acquired => 7
    case Unspawned => 2
    case Refused => 1
    case Reading => 6
    case Checking(_) => 5
    case Sending(_) => 4
    case Replying => 3
    case Ending => 2
    case Closed => 1
    case Finished => 0
    case Leaked => 0
  }

  function Remaining(cs: seq<Connection>): nat {
    if cs == [] then 0 else Remaining(cs[..|cs| - 1]) + Rank(cs[|cs| - 1].phase)
  }

  lemma {:induction false} RemainingAt(cs: seq<Connection>, i: nat, c: Connection)
    requires i < |cs|
    ensures Remaining(cs[i := c]) == Remaining(cs) - Rank(cs[i].phase) + Rank(c.phase)
    ensures Rank(cs[i].phase) <= Remaining(cs)
  {
    hide Rank;
    var last := |cs| - 1;
    if i == last {
      assert cs[i := c][..last] == cs[..last];
    } else {
      RemainingAt(cs[..last], i, c);
      assert cs[i := c][..last] == cs[..last][i := c];
    }
  }

  function Accepts(steps: seq<Step>): nat {
    if steps == [] then 0 else (if steps[0].Accept? then 1 else 0) + Accepts(steps[1..])
  }

  lemma NextLeavesLess(s: Pool, e: Step)
    requires Enabled(s, e)
    ensures Remaining(Next(s, e).connections) + 1 <= Remaining(s.connections) + if e.Accept? then 9 else 0
  {
    hide Remaining;
    var t := Next(s, e);
    if e.Accept? {
      RemainingAppend(s.connections, t.connections[|s.connections|]);
    } else {
      RemainingAt(s.connections, e.at, t.connections[e.at]);
    }
  }

  lemma RemainingAppend(cs: seq<Connection>, c: Connection)
    ensures Remaining(cs + [c]) == Remaining(cs) + Rank(c.phase)
  {
    assert (cs + [c])[..|cs|] == cs;
  }

  /** No run goes on for ever without accepting: it has at most nine steps for each connection accepted. */
  lemma {:induction false} RunsAreShort(s: Pool, steps: seq<Step>)
    requires Runs(s, steps)
    ensures |steps| + Remaining(After(s, steps).connections) <= Remaining(s.connections) + 9 * Accepts(steps)
    decreases |steps|
  {
    hide Enabled, Next, Remaining;
    if steps != [] {
      NextLeavesLess(s, steps[0]);
      RunsAreShort(Next(s, steps[0]), steps[1..]);
    }
  }

  /** Nothing but accepting can happen any more. */
  ghost predicate Quiet(s: Pool) {
    forall e :: Enabled(s, e) ==> e.Accept?
  }

  function Leaks(cs: seq<Connection>): nat {
    if cs == [] then 0 else Leaks(cs[..|cs| - 1]) + if cs[|cs| - 1].phase.Leaked? then 1 else 0
  }

  /** The step that a connection which is not done with can take. */
  lemma NotDoneMoves(s: Pool, i: nat) returns (e: Step)
    requires Kept(s) && i < |s.connections| && !s.connections[i].phase.Finished? && !s.connections[i].phase.Leaked?
    ensures Enabled(s, e) && !e.Accept?
  {
    hide Held, Accounted;
    match s.connections[i].phase {
      case Accepted => e := Refuse(i);
      case Acquired => e := Spawn(i);
      case Unspawned => e := ReturnUnspawned(i);
      case Refused => e := CloseRefused(i);
      case Reading => e := Read(i, Stop(""));
      case Checking(_) => e := Check(i, Stop(""));
      case Sending(_) => e := Send(i, false);
      case Replying => e := Reply(i);
      case Ending => e := Close(i);
      case Closed => e := Return(i);
      case _ => assert false;
    }
  }

  lemma {:induction false} HeldIsLeaked(cs: seq<Connection>)
    requires forall c :: c in cs ==> Accounted(c) && (c.phase.Finished? || c.phase.Leaked?)
    ensures Held(cs) == Leaks(cs)
  {
    if cs != [] {
      assert cs == cs[..|cs| - 1] + [cs[|cs| - 1]];
      HeldIsLeaked(cs[..|cs| - 1]);
    }
  }

  /** When things have come to rest, every accepted connection has been closed once and its slot, if it
      had one, given back once; all slots are free except one for each handler whose close raised. */
  lemma RestingPool(s: Pool)
    requires Kept(s) && Quiet(s)
    ensures forall i :: 0 <= i < |s.connections| ==>
              var c := s.connections[i];
              c.closes == 1 && (c.phase.Finished? || c.phase.Leaked?)
              && (c.phase.Finished? ==> c.releases == c.acquires)
    ensures s.free + Leaks(s.connections) == MAX_ACTIVE
  {
    hide Held, Leaks, Enabled;
    forall i | 0 <= i < |s.connections| ensures s.connections[i].phase.Finished? || s.connections[i].phase.Leaked? {
      if !s.connections[i].phase.Finished? && !s.connections[i].phase.Leaked? {
        var e := NotDoneMoves(s, i);
        assert false;
      }
    }
    HeldIsLeaked(s.connections);
  }

  // ---------------------------------------------------------------------------------------------
  // From the start

  function CloseFailures(steps: seq<Step>): nat {
    if steps == [] then 0 else (if steps[0].CloseFails? then 1 else 0) + CloseFailures(steps[1..])
  }

  lemma {:induction false} LeaksAt(cs: seq<Connection>, i: nat, c: Connection)
    requires i < |cs| && !cs[i].phase.Leaked?
    ensures Leaks(cs[i := c]) == Leaks(cs) + if c.phase.Leaked? then 1 else 0
  {
    var last := |cs| - 1;
    if i == last {
      assert cs[i := c][..last] == cs[..last];
    } else {
      LeaksAt(cs[..last], i, c);
      assert cs[i := c][..last] == cs[..last][i := c];
    }
  }

  lemma NextLeaks(s: Pool, e: Step)
    requires Enabled(s, e)
    ensures Leaks(Next(s, e).connections) == Leaks(s.connections) + if e.CloseFails? then 1 else 0
  {
    hide Leaks;
    var t := Next(s, e);
    if e.Accept? {
      LeaksAppend(s.connections, t.connections[|s.connections|]);
    } else {
      LeaksAt(s.connections, e.at, t.connections[e.at]);
    }
  }

  lemma LeaksAppend(cs: seq<Connection>, c: Connection)
    requires !c.phase.Leaked?
    ensures Leaks(cs + [c]) == Leaks(cs)
  {
    assert (cs + [c])[..|cs|] == cs;
  }

  lemma {:induction false} RunLeaks(s: Pool, steps: seq<Step>)
    requires Runs(s, steps)
    ensures Leaks(After(s, steps).connections) == Leaks(s.connections) + CloseFailures(steps)
    decreases |steps|
  {
    hide Enabled, Next, Leaks;
    if steps != [] {
      NextLeaks(s, steps[0]);
      RunLeaks(Next(s, steps[0]), steps[1..]);
    }
  }

  /** From the start, in every interleaving: the slots add up, nothing happens to a connection twice, only
      the trusted peer's are forwarded, and only ids that were read from it and found in the catalog. */
  lemma PoolIsKept(steps: seq<Step>)
    requires Runs(START, steps)
    ensures Kept(After(START, steps)) && Vouched(After(START, steps), steps)
  {
    hide Kept, Runs, After;
    StartIsKept();
    RunsKeep(START, steps);
    NothingVouched();
    ForwardedArePublished(START, [], steps);
    assert [] + steps == steps;
  }

  /** From the start, when things have come to rest: an id was forwarded for a connection if and only if it
      was read from it and the catalog read for it had that id; each was forwarded once. */
  lemma ForwardedIff(steps: seq<Step>, i: nat, id: string)
    requires Runs(START, steps) && Quiet(After(START, steps)) && i < |After(START, steps).connections|
    ensures var c := After(START, steps).connections[i];
            (c.sends == [id] <==> ReadBefore(steps, i, id) && CheckedBefore(steps, i, id))
            && (c.sends == [] || |c.sends| == 1)
  {
    hide Runs, After, Quiet, ReadBefore, CheckedBefore;
    PoolIsKept(steps);
    PoolAtRest(steps);
    StartIsKept();
    NothingOwed();
    RunOwes(START, [], steps);
    assert [] + steps == steps;
    var c := After(START, steps).connections[i];
    assert Accounted(c);
    assert Owed(c, steps, i, id);
    assert c.sends == [id] ==> id in c.sends;
    assert id in c.sends ==> c.sends == [id];
  }

  lemma NothingOwed()
    ensures AllOwed(START, [])
  {
  }

  lemma NothingVouched()
    ensures Vouched(START, [])
  {
  }

  /** From the start, when things have come to rest: every accepted connection was closed once, every slot
      is back, once, except one for each close that raised. */
  lemma PoolAtRest(steps: seq<Step>)
    requires Runs(START, steps) && Quiet(After(START, steps))
    ensures var s := After(START, steps);
            s.free + CloseFailures(steps) == MAX_ACTIVE
            && forall i :: 0 <= i < |s.connections| ==>
                 var c := s.connections[i];
                 c.closes == 1 && (c.phase.Finished? || c.phase.Leaked?)
                 && (c.phase.Finished? ==> c.releases == c.acquires)
  {
    hide Kept, Runs, After, Quiet, Leaks, Vouched;
    PoolIsKept(steps);
    RestingPool(After(START, steps));
    RunLeaks(START, steps);
    assert Leaks(START.connections) == 0 by { NoLeaks(); }
  }

  lemma NoLeaks()
    ensures Leaks([]) == 0
  {
  }

  /** A connection that has its slot and its handler. */
  const HANDLED := Pool(3, None, [Connection(Reading, true, 0, 1, 0, [])])

  lemma TrustedIsHandled(rest: seq<Step>)
    requires Runs(HANDLED, rest)
    ensures var steps := [Accept(true)] + ([Acquire(0)] + ([Spawn(0)] + rest));
            Runs(START, steps) && After(START, steps) == After(HANDLED, rest)
  {
    hide Runs, After;
    var s1 := Pool(4, Some(0), [Connection(Accepted, true, 0, 0, 0, [])]);
    var s2 := Pool(3, Some(0), [Connection(Acquired, true, 0, 1, 0, [])]);
    assert Next(START, Accept(true)) == s1;
    assert Next(s1, Acquire(0)) == s2;
    assert Next(s2, Spawn(0)) == HANDLED;
    OneStep(s2, Spawn(0), rest);
    OneStep(s1, Acquire(0), [Spawn(0)] + rest);
    OneStep(START, Accept(true), [Acquire(0)] + ([Spawn(0)] + rest));
  }

  /** One accepted connection whose close raises: things are at rest and a slot is gone. */
  lemma LeakHappens()
    ensures var steps := [Accept(true)] + ([Acquire(0)] + ([Spawn(0)] + ([Read(0, Stop(""))] + [CloseFails(0)])));
            Runs(START, steps) && After(START, steps) == Pool(3, None, [Connection(Leaked, true, 1, 1, 0, [])])
  {
    hide Runs, After;
    var s4 := Pool(3, None, [Connection(Ending, true, 0, 1, 0, [])]);
    var s5 := Pool(3, None, [Connection(Leaked, true, 1, 1, 0, [])]);
    assert Next(HANDLED, Read(0, Stop(""))) == s4;
    assert Next(s4, CloseFails(0)) == s5;
    NoStep(s5);
    assert [CloseFails(0)] + [] == [CloseFails(0)];
    OneStep(s4, CloseFails(0), []);
    OneStep(HANDLED, Read(0, Stop("")), [CloseFails(0)]);
    TrustedIsHandled([Read(0, Stop(""))] + [CloseFails(0)]);
  }

  lemma NoStep(s: Pool)
    ensures Runs(s, []) && After(s, []) == s
  {
  }

  lemma OneStep(s: Pool, e: Step, rest: seq<Step>)
    requires Enabled(s, e) && Runs(Next(s, e), rest)
    ensures Runs(s, [e] + rest) && After(s, [e] + rest) == After(Next(s, e), rest)
  {
    assert ([e] + rest)[1..] == rest;
  }
}
