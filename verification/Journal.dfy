/** The write-once step journal of the report deployment and its in-memory counterpart.

    A journal record is created with O_EXCL, written once and never removed.  Processes are
    modelled as interleaved atomic system calls; a process can die between any two of them,
    and the machine can lose power at any time. */
module Journal {
  import opened Shapes

  const ROUTES: seq<string> := [
    "ausmalwiese.de/api/report",
    "ausmalwiese.de/api/report/config",
    "www.ausmalwiese.de/api/report",
    "www.ausmalwiese.de/api/report/config"
  ]
  const STEPS: seq<string> :=
    ["upload", "deploy", "route:" + ROUTES[0], "route:" + ROUTES[1], "route:" + ROUTES[2], "route:" + ROUTES[3]]

  datatype Mark = Reserved | Verified

  /** The file name `step-NN.reserved` or `step-NN.verified`. */
  datatype Name = Name(step: nat, mark: Mark)

  /** A journal file: its bytes, whether they were fsynced, and whether the directory entry was. */
  datatype Entry = Entry(bytes: string, synced: bool, linked: bool)

  type Directory = map<Name, Entry>

  /** A call of `reserve` or `mark_verified`. */
  datatype Call =
    | Reserve(step: int, envelope: string, previous: Option<string>)
    | MarkVerified(step: int, envelope: string, proof: string)

  predicate StepOk(step: int) {
    0 <= step < |STEPS|
  }

  /** What a record must look like to be read back: a digest and a newline. */
  predicate IsRecord(bytes: string) {
    |bytes| == 65 && bytes[64] == '\n' && IsSha256(bytes[..64])
  }

  predicate Complete(dir: Directory, n: Name) {
    n in dir && IsRecord(dir[n].bytes)
  }

  function Target(c: Call): Name
    requires StepOk(c.step)
  {
    Name(c.step, if c.Reserve? then Reserved else Verified)
  }

  function Fingerprint(c: Call): string {
    if c.Reserve? then c.envelope else c.proof
  }

  function Record(c: Call): string {
    Fingerprint(c) + "\n"
  }

  /** The record whose presence a name presupposes. */
  function Predecessor(n: Name): Option<Name> {
    match n
    case Name(i, Verified) => Some(Name(i, Reserved))
    case Name(i, Reserved) => if i == 0 then None else Some(Name(i - 1, Verified))
  }

  /** The digest the caller claims the predecessor record holds. */
  function Claim(c: Call): string
    requires c.Reserve? ==> c.previous.Some?
  {
    if c.Reserve? then c.previous.value else c.envelope
  }

  /** The checks that need no file access. */
  predicate ArgumentsOk(c: Call) {
    StepOk(c.step)
    && IsSha256(Fingerprint(c))
    && (c.Reserve? ==>
          if c.step == 0 then c.previous.None? else c.previous.Some? && IsSha256(c.previous.value))
  }

  type GoodCall = c: Call | ArgumentsOk(c) witness GOOD_CALL

  function Zeros(n: nat): (s: string)
    ensures |s| == n && forall i :: 0 <= i < n ==> s[i] == '0'
  {
    if n == 0 then "" else Zeros(n - 1) + "0"
  }

  /** Some well-formed digest. */
  const DIGEST := Zeros(64)
  const GOOD_CALL := Call.Reserve(0, DIGEST, None)

  /** The predecessor record is complete and holds the claimed digest. */
  predicate EvidenceOk(dir: Directory, c: GoodCall) {
    var need := Predecessor(Target(c));
    need.Some? ==> Complete(dir, need.value) && dir[need.value].bytes[..64] == Claim(c)
  }

  /** Every record presupposes a complete predecessor. */
  ghost predicate Chained(dir: Directory) {
    forall n :: n in dir && Predecessor(n).Some? ==> Complete(dir, Predecessor(n).value)
  }

  // ---------------------------------------------------------------------------------------------
  // One call, run alone

  /** The outcome of one uninterrupted call when the kernel accepts `accepted` bytes of the record. */
  function Outcome(dir: Directory, c: Call, accepted: nat): (Result<string>, Directory) {
    if !ArgumentsOk(c) then (Stop("JOURNAL_ARGUMENT"), dir)
    else if !EvidenceOk(dir, c) then (Stop("JOURNAL_EVIDENCE"), dir)
    else if Target(c) in dir then (Stop("JOURNAL_ALREADY_RESERVED_OR_UNAVAILABLE"), dir)
    else if accepted < 65 then
      (Stop("JOURNAL_SHORT_WRITE"), dir[Target(c) := Entry(Record(c)[..accepted], false, false)])
    else
      (Ok(STEPS[c.step]), Linked(dir[Target(c) := Entry(Record(c), true, true)]))
  }

  /** fsync of the directory makes every entry durable. */
  function Linked(dir: Directory): Directory {
    map n | n in dir :: dir[n].(linked := true)
  }

  /** A durable record has come, and nothing else is different but that every entry is now durable. */
  ghost predicate Grown(before: Directory, after: Directory, n: Name, bytes: string) {
    after.Keys == before.Keys + {n} && after[n] == Entry(bytes, true, true)
    && forall m :: m in before && m != n ==> after[m] == Entry(before[m].bytes, before[m].synced, true)
  }

  lemma RecordHolds(dir: Directory, n: Name, digest: string)
    ensures Complete(dir, n) && dir[n].bytes[..64] == digest
            <==> IsSha256(digest) && n in dir && dir[n].bytes == digest + "\n"
  {
    if n in dir && IsRecord(dir[n].bytes) {
      assert dir[n].bytes == dir[n].bytes[..64] + "\n";
    }
    assert (digest + "\n")[..|digest|] == digest;
  }

  class OfflineDurableGate {
    var dir: Directory

    constructor ()
      ensures dir == map[]
    {
      dir := map[];
    }

    method Read(name: Name) returns (r: Result<string>)
      ensures r.Ok? <==> Complete(dir, name)
      ensures r.Ok? ==> r.value == dir[name].bytes[..64]
    {
      if name !in dir {
        return Stop("JOURNAL_PREVIOUS_MISSING");
      }
      var raw := dir[name].bytes;
      if |raw| != 65 || raw[64] != '\n' || !IsSha256(raw[..64]) {
        return Stop("JOURNAL_RECORD_TAMPER");
      }
      return Ok(raw[..64]);
    }

    method CreateOnce(name: Name, fingerprint: string, accepted: nat) returns (r: Result<()>)
      requires IsSha256(fingerprint)
      modifies this
      ensures r.Ok? <==> name !in old(dir) && accepted >= 65
      ensures name in old(dir) ==> dir == old(dir) && r == Stop("JOURNAL_ALREADY_RESERVED_OR_UNAVAILABLE")
      ensures name !in old(dir) && accepted < 65 ==>
                r == Stop("JOURNAL_SHORT_WRITE")
                && dir == old(dir)[name := Entry((fingerprint + "\n")[..accepted], false, false)]
      ensures r.Ok? ==> dir == Linked(old(dir)[name := Entry(fingerprint + "\n", true, true)])
    {
      if name in dir {
        return Stop("JOURNAL_ALREADY_RESERVED_OR_UNAVAILABLE");
      }
      var data := fingerprint + "\n";
      dir := dir[name := Entry("", false, false)];
      var written := if accepted < |data| then accepted else |data|;
      dir := dir[name := Entry(data[..written], false, false)];
      if written != |data| {
        return Stop("JOURNAL_SHORT_WRITE");
      }
      assert data[..written] == data;
      dir := dir[name := Entry(data, true, false)];
      dir := Linked(dir);
      return Ok(());
    }

    method Reserve(step: int, envelope: string, previous: Option<string>, accepted: nat) returns (r: Result<string>)
      modifies this
      ensures dir == Outcome(old(dir), Call.Reserve(step, envelope, previous), accepted).1
      ensures r.Ok? <==> Outcome(old(dir), Call.Reserve(step, envelope, previous), accepted).0.Ok?
      ensures r.Ok? ==> StepOk(step) && r.value == STEPS[step]
      ensures r.Ok? <==>
                0 <= step < 6 && IsSha256(envelope) && Name(step, Reserved) !in old(dir) && accepted >= 65
                && if step == 0 then previous.None?
                   else previous.Some? && IsSha256(previous.value)
                        && Name(step - 1, Verified) in old(dir)
                        && old(dir)[Name(step - 1, Verified)].bytes == previous.value + "\n"
      ensures r.Ok? ==> Grown(old(dir), dir, Name(step, Reserved), envelope + "\n")
      ensures r.Stop? && r.code != "JOURNAL_SHORT_WRITE" ==> dir == old(dir)
    {
      if !IsSha256(envelope) {
        return Stop("JOURNAL_ENVELOPE");
      }
      if !StepOk(step) {
        return Stop("JOURNAL_STEP");
      }
      if step != 0 {
        if previous.None? || !IsSha256(previous.value) {
          return Stop("JOURNAL_PREVIOUS_PROOF");
        }
        RecordHolds(dir, Name(step - 1, Verified), previous.value);
        var before := Read(Name(step - 1, Verified));
        if before.Stop? {
          return Stop(before.code);
        }
        if before.value != previous.value {
          return Stop("JOURNAL_PREVIOUS_DRIFT");
        }
      } else if previous.Some? {
        return Stop("JOURNAL_FIRST_STEP_PROOF");
      }
      var created := CreateOnce(Name(step, Reserved), envelope, accepted);
      if created.Stop? {
        return Stop(created.code);
      }
      return Ok(STEPS[step]);
    }

    method MarkVerified(step: int, envelope: string, proof: string, accepted: nat) returns (r: Result<()>)
      modifies this
      ensures dir == Outcome(old(dir), Call.MarkVerified(step, envelope, proof), accepted).1
      ensures r.Ok? <==> Outcome(old(dir), Call.MarkVerified(step, envelope, proof), accepted).0.Ok?
      ensures r.Ok? <==>
                0 <= step < 6 && IsSha256(proof) && Name(step, Verified) !in old(dir) && accepted >= 65
                && IsSha256(envelope) && Name(step, Reserved) in old(dir)
                && old(dir)[Name(step, Reserved)].bytes == envelope + "\n"
      ensures r.Ok? ==> Grown(old(dir), dir, Name(step, Verified), proof + "\n")
      ensures r.Stop? && r.code != "JOURNAL_SHORT_WRITE" ==> dir == old(dir)
    {
      if !IsSha256(proof) {
        return Stop("JOURNAL_VERIFICATION_DRIFT");
      }
      if !StepOk(step) {
        return Stop("JOURNAL_STEP");
      }
      RecordHolds(dir, Name(step, Reserved), envelope);
      var reserved := Read(Name(step, Reserved));
      if reserved.Stop? {
        return Stop(reserved.code);
      }
      if reserved.value != envelope {
        return Stop("JOURNAL_VERIFICATION_DRIFT");
      }
      r := CreateOnce(Name(step, Verified), proof, accepted);
    }
  }

  // ---------------------------------------------------------------------------------------------
  // Many processes, one system call at a time

  /** Where a process stands inside a call whose arguments passed the checks that read no file. */
  datatype Pc =
    | Idle
    | Opening(call: GoodCall)     // next: open the predecessor record and fstat it
    | Loading(call: GoodCall)     // fstat saw 65 bytes; next: read and compare them
    | Creating(call: GoodCall)    // evidence accepted; next: open with O_EXCL
    | Writing(call: GoodCall)     // file created; next: write the record
    | Syncing(call: GoodCall)     // all bytes written; next: fsync the file
    | Publishing(call: GoodCall)  // file fsynced; next: fsync the directory
  {
    /** The process has created a file and not yet published it. */
    predicate Owner() {
      Writing? || Syncing? || Publishing?
    }
  }

  type Pid = nat

  /** `done` is the history of calls that returned normally. */
  datatype System = System(dir: Directory, procs: map<Pid, Pc>, done: seq<GoodCall>)

  datatype Action =
    | Begin(pid: Pid, call: GoodCall)
    | Stat(pid: Pid)
    | Load(pid: Pid)
    | Create(pid: Pid)
    | Append(pid: Pid, count: nat)
    | Sync(pid: Pid)
    | Publish(pid: Pid)
    | Abort(pid: Pid)                          // an exception, or the death of the process
    | PowerLoss(remains: map<Name, string>)    // what the disk still holds afterwards

  const START := System(map[], map[], [])

  function At(s: System, p: Pid): Pc {
    if p in s.procs then s.procs[p] else Idle
  }

  /** After a power loss a durable entry is still there, fsynced bytes are intact, and anything else
      may be missing or hold arbitrary bytes. */
  ghost predicate MayRemain(dir: Directory, remains: map<Name, string>) {
    (forall n :: n in remains ==> n in dir)
    && (forall n :: n in dir && dir[n].linked ==> n in remains)
    && (forall n :: n in remains && dir[n].synced ==> remains[n] == dir[n].bytes)
  }

  ghost predicate Enabled(s: System, a: Action) {
    match a
    case Begin(p, c) => At(s, p).Idle?
    case Stat(p) => At(s, p).Opening? && Predecessor(Target(At(s, p).call)).Some?
    case Load(p) => At(s, p).Loading?
    case Create(p) => At(s, p).Creating?
    case Append(p, k) =>
      At(s, p).Writing? && Target(At(s, p).call) in s.dir
      && 0 < k && |s.dir[Target(At(s, p).call)].bytes| + k <= 65
    case Sync(p) => At(s, p).Syncing? && Target(At(s, p).call) in s.dir
    case Publish(p) => At(s, p).Publishing?
    case Abort(p) => true
    case PowerLoss(remains) => MayRemain(s.dir, remains)
  }

  function Remaining(remains: map<Name, string>): Directory {
    map n | n in remains :: Entry(remains[n], true, true)
  }

  /** One atomic step.  A failed check raises, so the process is idle again. */
  ghost function Next(s: System, a: Action): System
    requires Enabled(s, a)
  {
    match a
    case Begin(p, c) =>
      s.(procs := s.procs[p := if Predecessor(Target(c)).None? then Creating(c) else Opening(c)])
    case Stat(p) =>
      var c := At(s, p).call;
      var n := Predecessor(Target(c)).value;
      s.(procs := s.procs[p := if n in s.dir && |s.dir[n].bytes| == 65 then Loading(c) else Idle])
    case Load(p) =>
      var c := At(s, p).call;
      s.(procs := s.procs[p := if EvidenceOk(s.dir, c) then Creating(c) else Idle])
    case Create(p) =>
      var c := At(s, p).call;
      if Target(c) in s.dir then s.(procs := s.procs[p := Idle])
      else s.(dir := s.dir[Target(c) := Entry("", false, false)], procs := s.procs[p := Writing(c)])
    case Append(p, k) =>
      var c := At(s, p).call;
      var size := |s.dir[Target(c)].bytes| + k;
      s.(dir := s.dir[Target(c) := s.dir[Target(c)].(bytes := Record(c)[..size])],
         procs := s.procs[p := if size == 65 then Syncing(c) else Writing(c)])
    case Sync(p) =>
      var c := At(s, p).call;
      s.(dir := s.dir[Target(c) := s.dir[Target(c)].(synced := true)], procs := s.procs[p := Publishing(c)])
    case Publish(p) =>
      s.(dir := Linked(s.dir), procs := s.procs[p := Idle], done := s.done + [At(s, p).call])
    case Abort(p) => s.(procs := s.procs[p := Idle])
    case PowerLoss(remains) => s.(dir := Remaining(remains), procs := map[])
  }

  /** `acts` can be performed one after the other from `s`. */
  ghost predicate Runs(s: System, acts: seq<Action>)
    decreases |acts|
  {
    acts == [] || (Enabled(s, acts[0]) && Runs(Next(s, acts[0]), acts[1..]))
  }

  ghost function After(s: System, acts: seq<Action>): System
    requires Runs(s, acts)
    decreases |acts|
  {
    if acts == [] then s else After(Next(s, acts[0]), acts[1..])
  }

  // ---------------------------------------------------------------------------------------------
  // What every step keeps, power losses included

  /** What the file of an owner holds. */
  predicate FileMatches(dir: Directory, pc: Pc)
    requires pc.Owner()
  {
    var n := Target(pc.call);
    n in dir
    && (if pc.Writing? then |dir[n].bytes| < 65 && dir[n].bytes == Record(pc.call)[..|dir[n].bytes|]
        else dir[n].bytes == Record(pc.call))
    && (pc.Publishing? ==> dir[n].synced)
  }

  ghost predicate Owned(s: System) {
    forall p :: p in s.procs && s.procs[p].Owner() ==> FileMatches(s.dir, s.procs[p])
  }

  ghost predicate OneOwner(s: System) {
    forall p, q :: p in s.procs && q in s.procs && p != q && s.procs[p].Owner() && s.procs[q].Owner()
                   ==> Target(s.procs[p].call) != Target(s.procs[q].call)
  }

  /** A call that returned left a durable record, which no process is still writing. */
  ghost predicate DoneIsDurable(s: System) {
    (forall i :: 0 <= i < |s.done| ==>
       Target(s.done[i]) in s.dir && s.dir[Target(s.done[i])] == Entry(Record(s.done[i]), true, true))
    && (forall i, p :: 0 <= i < |s.done| && p in s.procs && s.procs[p].Owner()
                       ==> Target(s.procs[p].call) != Target(s.done[i]))
  }

  ghost predicate DoneOnce(s: System) {
    forall i, j :: 0 <= i < j < |s.done| ==> Target(s.done[i]) != Target(s.done[j])
  }

  ghost predicate Kept(s: System) {
    Owned(s) && OneOwner(s) && DoneIsDurable(s) && DoneOnce(s)
  }

  /** An owner that moves to a process state and changes only its own file keeps everything. */
  lemma OwnerStepKeeps(s: System, p: Pid, pc: Pc, e: Entry)
    requires Kept(s) && pc.Owner()
    requires Target(pc.call) !in s.dir || (At(s, p).Owner() && At(s, p).call == pc.call)
    requires FileMatches(s.dir[Target(pc.call) := e], pc)
    ensures Kept(s.(dir := s.dir[Target(pc.call) := e], procs := s.procs[p := pc]))
  {
  }

  /** A process that stops owning, or never owned, changes nothing else. */
  lemma ReleaseKeeps(s: System, p: Pid, pc: Pc)
    requires Kept(s) && !pc.Owner()
    ensures Kept(s.(procs := s.procs[p := pc]))
  {
  }

  lemma PublishKeeps(s: System, p: Pid)
    requires Kept(s) && At(s, p).Publishing?
    ensures Kept(Next(s, Publish(p)))
  {
    hide STEPS, ArgumentsOk;
    var t := Next(s, Publish(p));
    forall q | q in t.procs && t.procs[q].Owner() ensures FileMatches(t.dir, t.procs[q]) {
      assert FileMatches(s.dir, s.procs[q]);
    }
    assert FileMatches(s.dir, s.procs[p]);
  }

  lemma PowerLossKeeps(s: System, remains: map<Name, string>)
    requires Kept(s) && MayRemain(s.dir, remains)
    ensures Kept(Next(s, PowerLoss(remains)))
  {
  }

  lemma NextKeeps(s: System, a: Action)
    requires Kept(s) && Enabled(s, a)
    ensures Kept(Next(s, a))
  {
    match a {
      case Begin(p, c) =>
        ReleaseKeeps(s, p, if Predecessor(Target(c)).None? then Creating(c) else Opening(c));
      case Stat(p) =>
        ReleaseKeeps(s, p, Loading(At(s, p).call));
        ReleaseKeeps(s, p, Idle);
      case Load(p) =>
        ReleaseKeeps(s, p, Creating(At(s, p).call));
        ReleaseKeeps(s, p, Idle);
      case Create(p) =>
        var c := At(s, p).call;
        if Target(c) in s.dir {
          ReleaseKeeps(s, p, Idle);
        } else {
          OwnerStepKeeps(s, p, Writing(c), Entry("", false, false));
        }
      case Append(p, k) =>
        var c := At(s, p).call;
        var size := |s.dir[Target(c)].bytes| + k;
        var e := s.dir[Target(c)].(bytes := Record(c)[..size]);
        OwnerStepKeeps(s, p, if size == 65 then Syncing(c) else Writing(c), e);
      case Sync(p) =>
        var c := At(s, p).call;
        assert FileMatches(s.dir, s.procs[p]);
        OwnerStepKeeps(s, p, Publishing(c), s.dir[Target(c)].(synced := true));
      case Publish(p) => PublishKeeps(s, p);
      case Abort(p) => ReleaseKeeps(s, p, Idle);
      case PowerLoss(remains) => PowerLossKeeps(s, remains);
    }
  }

  lemma {:induction false} RunKeeps(s: System, acts: seq<Action>)
    requires Kept(s) && Runs(s, acts)
    ensures Kept(After(s, acts))
    decreases |acts|
  {
    if acts != [] {
      NextKeeps(s, acts[0]);
      RunKeeps(Next(s, acts[0]), acts[1..]);
    }
  }

  /** Over every interleaving, with any crashes, restarts and power losses, no step is reserved
      twice; a reservation that returned is on disk, complete and durable, from then on. */
  lemma ReservedAtMostOnce(acts: seq<Action>, i: nat, j: nat)
    requires Runs(START, acts) && i < j < |After(START, acts).done|
    requires After(START, acts).done[i].Reserve? && After(START, acts).done[j].Reserve?
    ensures After(START, acts).done[i].step != After(START, acts).done[j].step
    ensures var s := After(START, acts);
            var n := Name(s.done[i].step, Reserved);
            n in s.dir && s.dir[n] == Entry(s.done[i].envelope + "\n", true, true)
  {
    RunKeeps(START, acts);
  }

  // ---------------------------------------------------------------------------------------------
  // What process crashes cannot break

  /** A process that has passed its evidence check still has that evidence. */
  ghost predicate Informed(s: System) {
    forall p :: p in s.procs && (s.procs[p].Creating? || s.procs[p].Owner()) ==> EvidenceOk(s.dir, s.procs[p].call)
  }

  ghost predicate NoPowerLoss(acts: seq<Action>) {
    forall i :: 0 <= i < |acts| ==> !acts[i].PowerLoss?
  }

  /** Bytes of a complete record do not change while the machine has power. */
  lemma CompleteStays(s: System, a: Action, n: Name)
    requires Kept(s) && Enabled(s, a) && !a.PowerLoss? && Complete(s.dir, n)
    ensures n in Next(s, a).dir && Next(s, a).dir[n].bytes == s.dir[n].bytes
  {
    if a.Append? {
      assert FileMatches(s.dir, s.procs[a.pid]);
    }
  }

  lemma NextChains(s: System, a: Action)
    requires Kept(s) && Chained(s.dir) && Informed(s) && Enabled(s, a) && !a.PowerLoss?
    ensures Chained(Next(s, a).dir) && Informed(Next(s, a))
  {
    var t := Next(s, a);
    forall n | n in t.dir && Predecessor(n).Some? ensures Complete(t.dir, Predecessor(n).value) {
      var m := Predecessor(n).value;
      if n in s.dir {
        CompleteStays(s, a, m);
      } else {
        assert EvidenceOk(s.dir, At(s, a.pid).call);
        CompleteStays(s, a, m);
      }
    }
    forall p | p in t.procs && (t.procs[p].Creating? || t.procs[p].Owner()) ensures EvidenceOk(t.dir, t.procs[p].call) {
      var need := Predecessor(Target(t.procs[p].call));
      if need.Some? {
        assert EvidenceOk(s.dir, t.procs[p].call);
        CompleteStays(s, a, need.value);
      }
    }
  }

  lemma {:induction false} RunChains(s: System, acts: seq<Action>)
    requires Kept(s) && Chained(s.dir) && Informed(s) && Runs(s, acts) && NoPowerLoss(acts)
    ensures Chained(After(s, acts).dir) && Informed(After(s, acts))
    decreases |acts|
  {
    if acts != [] {
      assert acts[0] in acts;
      NextKeeps(s, acts[0]);
      NextChains(s, acts[0]);
      RunChains(Next(s, acts[0]), acts[1..]);
    }
  }

  /** In a chained journal any record of a step, torn or not, stands on complete records of all
      earlier steps. */
  lemma {:induction false} ChainedDown(dir: Directory, n: Name, i: nat)
    requires Chained(dir) && n in dir && i < n.step
    ensures Complete(dir, Name(i, Reserved)) && Complete(dir, Name(i, Verified))
    decreases n.step, n.mark.Verified?
  {
    var m := Predecessor(n).value;
    if n.mark.Verified? || m.step > i {
      ChainedDown(dir, m, i);
    } else {
      assert Predecessor(m) == Some(Name(i, Reserved));
    }
  }

  /** Whatever processes do and wherever they die, a reserved record, even a torn one, implies
      complete reserved and verified records for every earlier step. */
  lemma ReservedImpliesEarlier(acts: seq<Action>, step: nat, i: nat)
    requires Runs(START, acts) && NoPowerLoss(acts) && i < step
    requires Name(step, Reserved) in After(START, acts).dir
    ensures Complete(After(START, acts).dir, Name(i, Reserved)) && Complete(After(START, acts).dir, Name(i, Verified))
  {
    RunChains(START, acts);
    ChainedDown(After(START, acts).dir, Name(step, Reserved), i);
  }

  /** What the record before a call's own says, in bytes. */
  ghost predicate Proven(dir: Directory, c: GoodCall) {
    match c
    case Reserve(i, _, previous) =>
      i > 0 ==> Name(i - 1, Verified) in dir && dir[Name(i - 1, Verified)].bytes == previous.value + "\n"
    case MarkVerified(i, envelope, _) =>
      Name(i, Reserved) in dir && dir[Name(i, Reserved)].bytes == envelope + "\n"
  }

  lemma EvidenceProves(dir: Directory, c: GoodCall)
    requires EvidenceOk(dir, c)
    ensures Proven(dir, c) && (Predecessor(Target(c)).Some? ==> Complete(dir, Predecessor(Target(c)).value))
  {
    if Predecessor(Target(c)).Some? {
      RecordHolds(dir, Predecessor(Target(c)).value, Claim(c));
    }
  }

  /** Every call that returned still has the record it was checked against. */
  ghost predicate AllProven(s: System) {
    forall c :: c in s.done ==>
      Proven(s.dir, c) && (Predecessor(Target(c)).Some? ==> Complete(s.dir, Predecessor(Target(c)).value))
  }

  lemma NextProves(s: System, a: Action)
    requires Kept(s) && Informed(s) && AllProven(s) && Enabled(s, a) && !a.PowerLoss?
    ensures AllProven(Next(s, a))
  {
    hide STEPS, IsRecord;
    var t := Next(s, a);
    forall c | c in t.done
      ensures Proven(t.dir, c) && (Predecessor(Target(c)).Some? ==> Complete(t.dir, Predecessor(Target(c)).value))
    {
      if c !in s.done {
        assert c == s.procs[a.pid].call;
        EvidenceProves(s.dir, c);
      }
      if Predecessor(Target(c)).Some? {
        CompleteStays(s, a, Predecessor(Target(c)).value);
      }
    }
  }

  lemma {:induction false} RunProves(s: System, acts: seq<Action>)
    requires Kept(s) && Chained(s.dir) && Informed(s) && AllProven(s) && Runs(s, acts) && NoPowerLoss(acts)
    ensures AllProven(After(s, acts))
    decreases |acts|
  {
    if acts != [] {
      assert acts[0] in acts;
      NextKeeps(s, acts[0]);
      NextChains(s, acts[0]);
      NextProves(s, acts[0]);
      RunProves(Next(s, acts[0]), acts[1..]);
    }
  }

  /** Over every interleaving with crashes, a reservation that returned named the proof recorded for
      the step before, and a verification that returned the envelope recorded for its own step. */
  lemma ReturnedHadEvidence(acts: seq<Action>, c: GoodCall)
    requires Runs(START, acts) && NoPowerLoss(acts) && c in After(START, acts).done
    ensures var dir := After(START, acts).dir;
            match c
            case Reserve(i, envelope, previous) =>
              (i == 0 && previous.None?)
              || (i > 0 && previous.Some? && Name(i - 1, Verified) in dir
                  && dir[Name(i - 1, Verified)].bytes == previous.value + "\n")
            case MarkVerified(i, envelope, proof) =>
              Name(i, Reserved) in dir && dir[Name(i, Reserved)].bytes == envelope + "\n"
  {
    RunProves(START, acts);
  }

  /** The order in which records are written. */
  predicate Before(m: Name, n: Name) {
    m.step < n.step || (m.step == n.step && m.mark.Reserved? && n.mark.Verified?)
  }

  /** A torn record whose writer is gone. */
  ghost predicate Torn(s: System, n: Name) {
    n in s.dir && !IsRecord(s.dir[n].bytes)
    && forall p :: p in s.procs && s.procs[p].Owner() ==> Target(s.procs[p].call) != n
  }

  lemma {:induction false} TornStays(s: System, acts: seq<Action>, n: Name)
    requires Kept(s) && Runs(s, acts) && NoPowerLoss(acts) && Torn(s, n)
    ensures Torn(After(s, acts), n) && After(s, acts).dir[n].bytes == s.dir[n].bytes
    decreases |acts|
  {
    if acts != [] {
      assert acts[0] in acts;
      NextKeeps(s, acts[0]);
      TornStays(Next(s, acts[0]), acts[1..], n);
    }
  }

  lemma TornShutsOut(s: System, n: Name, m: Name)
    requires Kept(s) && Chained(s.dir) && Torn(s, n)
    requires m == n || Before(n, m)
    ensures m != n ==> m !in s.dir
    ensures forall c :: c in s.done ==> Target(c) != m
  {
    hide STEPS;
    if m != n && m in s.dir {
      if n.step < m.step {
        ChainedDown(s.dir, m, n.step);
      }
      assert false;
    }
    forall c | c in s.done ensures Target(c) != m {
      var i :| 0 <= i < |s.done| && s.done[i] == c;
      assert Target(s.done[i]) in s.dir && s.dir[Target(c)].bytes == Record(c);
      assert Record(c)[..64] == Fingerprint(c);
    }
  }

  /** A torn record blocks its own step and all later ones for good: in every continuation no later
      record appears and no call for it, or for a later one, ever returns. */
  lemma TornBlocks(s: System, acts: seq<Action>, n: Name, m: Name)
    requires Kept(s) && Chained(s.dir) && Informed(s) && Torn(s, n)
    requires Runs(s, acts) && NoPowerLoss(acts)
    requires m == n || Before(n, m)
    ensures m != n ==> m !in After(s, acts).dir
    ensures forall c :: c in After(s, acts).done ==> Target(c) != m
  {
    hide STEPS, Next, Enabled;
    RunKeeps(s, acts);
    RunChains(s, acts);
    TornStays(s, acts, n);
    TornShutsOut(After(s, acts), n, m);
  }

  // ---------------------------------------------------------------------------------------------
  // Power losses

  /** Every record that others presuppose is durable, in its bytes and in its directory entry. */
  ghost predicate DurablyChained(dir: Directory) {
    forall n :: n in dir && Predecessor(n).Some? ==>
      Complete(dir, Predecessor(n).value)
      && dir[Predecessor(n).value].synced && dir[Predecessor(n).value].linked
  }

  /** A power loss is certain to leave a chained journal exactly when every presupposed record is
      durable. */
  lemma PowerLossChains(dir: Directory)
    requires Chained(dir)
    ensures (forall remains :: MayRemain(dir, remains) ==> Chained(Remaining(remains))) <==> DurablyChained(dir)
  {
    if !DurablyChained(dir) {
      var n :| n in dir && Predecessor(n).Some?
               && !(dir[Predecessor(n).value].synced && dir[Predecessor(n).value].linked);
      var m := Predecessor(n).value;
      var remains := map x | x in dir && (x == m ==> dir[m].linked) ::
                       if x == m && !dir[m].synced then "" else dir[x].bytes;
      assert MayRemain(dir, remains);
      assert n in Remaining(remains) && !Complete(Remaining(remains), m);
    } else {
      forall remains | MayRemain(dir, remains) ensures Chained(Remaining(remains)) {
        forall n | n in Remaining(remains) && Predecessor(n).Some?
          ensures Complete(Remaining(remains), Predecessor(n).value) {
          assert n in dir;
        }
      }
    }
  }

  /** One call at a time, none abandoned between the end of its write and its directory fsync. */
  ghost predicate Orderly(s: System, a: Action) {
    (a.Begin? ==> forall q :: At(s, q).Idle?)
    && (a.Abort? ==> !At(s, a.pid).Syncing? && !At(s, a.pid).Publishing?)
  }

  ghost predicate OrderlyRun(s: System, acts: seq<Action>)
    requires Runs(s, acts)
    decreases |acts|
  {
    acts == [] || (Orderly(s, acts[0]) && OrderlyRun(Next(s, acts[0]), acts[1..]))
  }

  ghost predicate OneActive(s: System) {
    forall p, q :: !At(s, p).Idle? && !At(s, q).Idle? ==> p == q
  }

  ghost predicate BeingWritten(s: System, n: Name) {
    exists p :: At(s, p).Owner() && Target(At(s, p).call) == n
  }

  /** One process is active, nothing presupposes the record it is writing, and every other complete
      record is durable. */
  ghost predicate Settled(s: System) {
    OneActive(s)
    && (forall n :: Complete(s.dir, n) && !BeingWritten(s, n) ==> s.dir[n].synced && s.dir[n].linked)
    && (forall m, n :: BeingWritten(s, m) && n in s.dir ==> Predecessor(n) != Some(m))
  }

  lemma SettledIsDurable(s: System)
    requires Kept(s) && Chained(s.dir) && Informed(s) && Settled(s)
    ensures DurablyChained(s.dir)
  {
  }

  lemma OrderlyKeeps(s: System, a: Action)
    requires Kept(s) && Chained(s.dir) && Informed(s) && Settled(s)
    requires Enabled(s, a) && Orderly(s, a)
    ensures Kept(Next(s, a)) && Chained(Next(s, a).dir) && Informed(Next(s, a)) && Settled(Next(s, a))
  {
    NextKeeps(s, a);
    match a {
      case PowerLoss(remains) =>
        SettledIsDurable(s);
        PowerLossChains(s.dir);
      case _ =>
        NextChains(s, a);
        OrderlySettles(s, a);
    }
  }

  lemma OthersWait(s: System, a: Action, q: Pid)
    requires Enabled(s, a) && !a.PowerLoss? && q != a.pid
    ensures At(Next(s, a), q) == At(s, q)
  {
  }

  lemma OneActiveStays(s: System, a: Action)
    requires OneActive(s) && Enabled(s, a) && Orderly(s, a) && !a.PowerLoss?
    ensures OneActive(Next(s, a))
  {
    var t := Next(s, a);
    forall p, q | !At(t, p).Idle? && !At(t, q).Idle? ensures p == q {
      if p != a.pid {
        OthersWait(s, a, p);
      }
      if q != a.pid {
        OthersWait(s, a, q);
      }
      assert a.Begin? || !At(s, a.pid).Idle? || At(t, a.pid).Idle?;
    }
  }

  /** A record is being written afterwards only if it was before or has just been created, and it
      stops being written only when its writer publishes it or gives up. */
  lemma WritingAfter(s: System, a: Action, n: Name)
    requires Enabled(s, a) && !a.PowerLoss?
    ensures BeingWritten(Next(s, a), n) ==>
              BeingWritten(s, n) || (a.Create? && n !in s.dir && n == Target(At(s, a.pid).call))
  {
    if BeingWritten(Next(s, a), n) {
      var q :| At(Next(s, a), q).Owner() && Target(At(Next(s, a), q).call) == n;
      if q != a.pid {
        OthersWait(s, a, q);
      }
    }
  }

  lemma WritingBefore(s: System, a: Action, n: Name)
    requires Enabled(s, a) && !a.PowerLoss? && BeingWritten(s, n)
    ensures BeingWritten(Next(s, a), n)
            || (At(s, a.pid).Owner() && Target(At(s, a.pid).call) == n && (a.Publish? || a.Abort?))
  {
    var q :| At(s, q).Owner() && Target(At(s, q).call) == n;
    if q != a.pid {
      OthersWait(s, a, q);
    }
    assert At(Next(s, a), q).Owner() || a.Publish? || a.Abort?;
  }

  lemma OrderlyDurable(s: System, a: Action, n: Name)
    requires Kept(s) && Settled(s) && Enabled(s, a) && Orderly(s, a) && !a.PowerLoss?
    requires Complete(Next(s, a).dir, n) && !BeingWritten(Next(s, a), n)
    ensures Next(s, a).dir[n].synced && Next(s, a).dir[n].linked
  {
    if BeingWritten(s, n) {
      WritingBefore(s, a, n);
      assert FileMatches(s.dir, At(s, a.pid));
    } else if a.Append? {
      assert BeingWritten(s, Target(At(s, a.pid).call));
    } else if a.Sync? {
      assert BeingWritten(s, Target(At(s, a.pid).call));
    }
  }

  lemma OrderlyLast(s: System, a: Action, m: Name, n: Name)
    requires Kept(s) && Chained(s.dir) && Settled(s) && Enabled(s, a) && Orderly(s, a) && !a.PowerLoss?
    requires BeingWritten(Next(s, a), m) && n in Next(s, a).dir
    ensures Predecessor(n) != Some(m)
  {
    WritingAfter(s, a, m);
  }

  lemma OrderlySettles(s: System, a: Action)
    requires Kept(s) && Chained(s.dir) && Settled(s)
    requires Enabled(s, a) && Orderly(s, a) && !a.PowerLoss?
    ensures Settled(Next(s, a))
  {
    var t := Next(s, a);
    forall n | Complete(t.dir, n) && !BeingWritten(t, n) ensures t.dir[n].synced && t.dir[n].linked {
      OrderlyDurable(s, a, n);
    }
    forall m, n | BeingWritten(t, m) && n in t.dir ensures Predecessor(n) != Some(m) {
      OrderlyLast(s, a, m, n);
    }
    OneActiveStays(s, a);
  }

  lemma {:induction false} OrderlyRunKeeps(s: System, acts: seq<Action>)
    requires Kept(s) && Chained(s.dir) && Informed(s) && Settled(s)
    requires Runs(s, acts) && OrderlyRun(s, acts)
    ensures Chained(After(s, acts).dir) && DurablyChained(After(s, acts).dir)
    decreases |acts|
  {
    if acts == [] {
      SettledIsDurable(s);
    } else {
      OrderlyKeeps(s, acts[0]);
      OrderlyRunKeeps(Next(s, acts[0]), acts[1..]);
    }
  }

  /** With one writer at a time that is not killed between writing and publishing a record, the
      journal stays chained through any number of power losses. */
  lemma OrderlyRunsSurvivePowerLoss(acts: seq<Action>, remains: map<Name, string>)
    requires Runs(START, acts) && OrderlyRun(START, acts) && MayRemain(After(START, acts).dir, remains)
    ensures Chained(Remaining(remains))
  {
    OrderlyRunKeeps(START, acts);
    PowerLossChains(After(START, acts).dir);
  }

  lemma Prepend(s: System, a: Action, acts: seq<Action>)
    requires Enabled(s, a) && Runs(Next(s, a), acts)
    ensures Runs(s, [a] + acts) && After(s, [a] + acts) == After(Next(s, a), acts)
  {
    assert ([a] + acts)[1..] == acts;
  }

  /** The system calls of one uninterrupted call of which the kernel accepts `accepted` bytes. */
  function Script(dir: Directory, p: Pid, c: GoodCall, accepted: nat): seq<Action> {
    [Begin(p, c)]
    + (match Predecessor(Target(c))
       case None => CreateScript(dir, p, c, accepted)
       case Some(n) =>
         [Stat(p)]
         + if n in dir && |dir[n].bytes| == 65 then
             [Load(p)] + if EvidenceOk(dir, c) then CreateScript(dir, p, c, accepted) else []
           else [])
  }

  function CreateScript(dir: Directory, p: Pid, c: GoodCall, accepted: nat): seq<Action> {
    [Create(p)]
    + if Target(c) in dir then []
      else if accepted == 0 then [Abort(p)]
      else if accepted < 65 then [Append(p, accepted)] + [Abort(p)]
      else [Append(p, 65)] + ([Sync(p)] + [Publish(p)])
  }

  lemma ShortWriteAlone(s: System, p: Pid, c: GoodCall, accepted: nat)
    requires At(s, p) == Writing(c) && Target(c) in s.dir && s.dir[Target(c)] == Entry("", false, false)
    requires accepted < 65
    ensures var acts := if accepted == 0 then [Abort(p)] else [Append(p, accepted)] + [Abort(p)];
            Runs(s, acts) && At(After(s, acts), p) == Idle && After(s, acts).done == s.done
            && After(s, acts).dir == s.dir[Target(c) := Entry(Record(c)[..accepted], false, false)]
  {
    hide STEPS;
    var u := if accepted == 0 then s else Next(s, Append(p, accepted));
    var v := Next(u, Abort(p));
    assert u.dir == s.dir[Target(c) := Entry(Record(c)[..accepted], false, false)];
    assert Runs(v, []) && After(v, []) == v;
    Prepend(u, Abort(p), []);
    if accepted > 0 {
      Prepend(s, Append(p, accepted), [Abort(p)]);
    }
  }

  lemma WholeWriteAlone(s: System, p: Pid, c: GoodCall)
    requires At(s, p) == Writing(c) && Target(c) in s.dir && s.dir[Target(c)] == Entry("", false, false)
    ensures var acts := [Append(p, 65)] + ([Sync(p)] + [Publish(p)]);
            Runs(s, acts) && At(After(s, acts), p) == Idle && After(s, acts).done == s.done + [c]
            && After(s, acts).dir == Linked(s.dir[Target(c) := Entry(Record(c), true, true)])
  {
    hide STEPS;
    var u := Next(s, Append(p, 65));
    var v := Next(u, Sync(p));
    var w := Next(v, Publish(p));
    assert Record(c)[..65] == Record(c);
    assert w.dir == Linked(s.dir[Target(c) := Entry(Record(c), true, true)]);
    assert Runs(w, []) && After(w, []) == w;
    Prepend(v, Publish(p), []);
    Prepend(u, Sync(p), [Publish(p)]);
    Prepend(s, Append(p, 65), [Sync(p)] + [Publish(p)]);
  }

  lemma CreateAlone(s: System, p: Pid, c: GoodCall, accepted: nat)
    requires At(s, p) == Creating(c) && EvidenceOk(s.dir, c)
    ensures var acts := CreateScript(s.dir, p, c, accepted);
            Runs(s, acts) && At(After(s, acts), p) == Idle
            && After(s, acts).dir == Outcome(s.dir, c, accepted).1
            && After(s, acts).done == if Outcome(s.dir, c, accepted).0.Ok? then s.done + [c] else s.done
  {
    hide STEPS, EvidenceOk;
    var n := Target(c);
    var t := Next(s, Create(p));
    if n in s.dir {
      assert Runs(t, []) && After(t, []) == t;
      Prepend(s, Create(p), []);
    } else if accepted < 65 {
      ShortWriteAlone(t, p, c, accepted);
      assert t.dir[n := Entry(Record(c)[..accepted], false, false)]
          == s.dir[n := Entry(Record(c)[..accepted], false, false)];
      Prepend(s, Create(p), if accepted == 0 then [Abort(p)] else [Append(p, accepted)] + [Abort(p)]);
    } else {
      WholeWriteAlone(t, p, c);
      assert t.dir[n := Entry(Record(c), true, true)] == s.dir[n := Entry(Record(c), true, true)];
      Prepend(s, Create(p), [Append(p, 65)] + ([Sync(p)] + [Publish(p)]));
    }
  }

  /** The gate's methods are the atomic steps run without interruption. */
  lemma CallAlone(s: System, p: Pid, c: GoodCall, accepted: nat)
    requires At(s, p).Idle?
    ensures var acts := Script(s.dir, p, c, accepted);
            Runs(s, acts) && At(After(s, acts), p) == Idle
            && After(s, acts).dir == Outcome(s.dir, c, accepted).1
            && After(s, acts).done == if Outcome(s.dir, c, accepted).0.Ok? then s.done + [c] else s.done
  {
    var t := Next(s, Begin(p, c));
    match Predecessor(Target(c)) {
      case None =>
        CreateAlone(t, p, c, accepted);
        Prepend(s, Begin(p, c), CreateScript(s.dir, p, c, accepted));
      case Some(n) =>
        var u := Next(t, Stat(p));
        if n in s.dir && |s.dir[n].bytes| == 65 {
          var v := Next(u, Load(p));
          if EvidenceOk(s.dir, c) {
            CreateAlone(v, p, c, accepted);
            Prepend(u, Load(p), CreateScript(s.dir, p, c, accepted));
          } else {
            assert Runs(v, []) && After(v, []) == v;
            Prepend(u, Load(p), []);
          }
          Prepend(t, Stat(p), [Load(p)] + if EvidenceOk(s.dir, c) then CreateScript(s.dir, p, c, accepted) else []);
        } else {
          assert Runs(u, []) && After(u, []) == u;
          Prepend(t, Stat(p), []);
        }
        Prepend(s, Begin(p, c), Script(s.dir, p, c, accepted)[1..]);
        assert Script(s.dir, p, c, accepted) == [Begin(p, c)] + Script(s.dir, p, c, accepted)[1..];
    }
  }

  /** The state a reservation of the first step leaves when its process dies before the fsync. */
  function Killed(digest: string): System
    requires IsSha256(digest)
  {
    System(map[Name(0, Reserved) := Entry(digest + "\n", false, false)], map[0 := Idle], [])
  }

  lemma KilledIsReachable(digest: string, rest: seq<Action>)
    requires IsSha256(digest) && Runs(Killed(digest), rest)
    ensures var acts := [Begin(0, Call.Reserve(0, digest, None)), Create(0), Append(0, 65), Abort(0)] + rest;
            Runs(START, acts) && After(START, acts) == After(Killed(digest), rest)
  {
    var c := Call.Reserve(0, digest, None);
    assert Record(c)[..65] == Record(c);
    var s1 := Next(START, Begin(0, c));
    var s2 := Next(s1, Create(0));
    var s3 := Next(s2, Append(0, 65));
    assert Next(s3, Abort(0)) == Killed(digest);
    Prepend(s3, Abort(0), rest);
    Prepend(s2, Append(0, 65), [Abort(0)] + rest);
    Prepend(s1, Create(0), [Append(0, 65)] + ([Abort(0)] + rest));
    Prepend(START, Begin(0, c), [Create(0)] + ([Append(0, 65)] + ([Abort(0)] + rest)));
    assert [Begin(0, c)] + ([Create(0)] + ([Append(0, 65)] + ([Abort(0)] + rest)))
        == [Begin(0, c), Create(0), Append(0, 65), Abort(0)] + rest;
  }

  lemma ScriptHasPower(dir: Directory, p: Pid, c: GoodCall, accepted: nat)
    ensures NoPowerLoss(Script(dir, p, c, accepted))
  {
  }

  lemma KilledThenVerified(digest: string)
    requires IsSha256(digest)
    ensures Outcome(Killed(digest).dir, Call.MarkVerified(0, digest, digest), 65).1
         == map[Name(0, Reserved) := Entry(digest + "\n", false, true),
                Name(0, Verified) := Entry(digest + "\n", true, true)]
  {
    assert (digest + "\n")[..64] == digest;
  }

  lemma LossAfterKill(dir: Directory, digest: string)
    requires dir == map[Name(0, Reserved) := Entry(digest + "\n", false, true),
                        Name(0, Verified) := Entry(digest + "\n", true, true)]
    ensures var remains := map[Name(0, Reserved) := "", Name(0, Verified) := digest + "\n"];
            MayRemain(dir, remains) && !Chained(Remaining(remains))
  {
    var remains := map[Name(0, Reserved) := "", Name(0, Verified) := digest + "\n"];
    assert Name(0, Verified) in Remaining(remains) && !Complete(Remaining(remains), Name(0, Reserved));
  }

  /** A writer killed after its write and before its fsync leaves a record that the next call
      accepts; a power loss can then take that record away from under its successor. */
  lemma KilledWriterBreaksChain(digest: string)
    requires IsSha256(digest)
    ensures exists acts, remains ::
              Runs(START, acts) && NoPowerLoss(acts) && MayRemain(After(START, acts).dir, remains)
              && !Chained(Remaining(remains))
  {
    hide MayRemain, Outcome, Next, Enabled, Runs, After;
    var c := Call.MarkVerified(0, digest, digest);
    var rest := Script(Killed(digest).dir, 0, c, 65);
    CallAlone(Killed(digest), 0, c, 65);
    KilledIsReachable(digest, rest);
    KilledThenVerified(digest);
    ScriptHasPower(Killed(digest).dir, 0, c, 65);
    var dir := After(Killed(digest), rest).dir;
    LossAfterKill(dir, digest);
    var acts := [Begin(0, Call.Reserve(0, digest, None)), Create(0), Append(0, 65), Abort(0)] + rest;
    assert NoPowerLoss(acts);
    assert After(START, acts).dir == dir;
  }
}
