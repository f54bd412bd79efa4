/** Adopting the second deploy target: two staged files, a link, an unlink and a replacement, in an order
    that a power loss at any point must not turn into a half-adopted registry. */
module Adoption {
  import opened Shapes

  datatype Name = HermesStage | RegistryStage | Hermes | Registry

  datatype Directory = Root | Compose

  function DirectoryOf(n: Name): Directory {
    if n.HermesStage? || n.Hermes? then Compose else Root
  }

  /** The files now, and what a power loss could leave: for every name each inode it may still or already
      stand for, and the inodes whose bytes are settled. An inode that is not settled may lose or mix up
      its bytes in any way. */
  datatype Disk = Disk(
    names: Name -> Option<nat>, maybe: Name -> set<Option<nat>>, bytes: nat -> string, settled: set<nat>, next: nat)

  datatype Op =
    | Create(name: Name)
    | Write(name: Name, chunk: string)
    | SyncFile(name: Name)
    | Link(from: Name, to: Name)
    | Unlink(name: Name)
    | Replace(from: Name, to: Name)
    | SyncDirectory(directory: Directory)

  function Named(d: Disk, n: Name, e: Option<nat>): Disk {
    d.(names := m => if m == n then e else d.names(m),
       maybe := m => if m == n then d.maybe(m) + {e} else d.maybe(m))
  }

  /** Whether the system would do it at all. */
  predicate Possible(d: Disk, op: Op) {
    match op
    case Create(n) => d.names(n).None?
    case Write(n, _) => d.names(n).Some?
    case SyncFile(n) => d.names(n).Some?
    case Link(from, to) => d.names(from).Some? && d.names(to).None?
    case Unlink(n) => d.names(n).Some?
    case Replace(from, to) => d.names(from).Some? && from != to
    case SyncDirectory(_) => true
  }

  function Done(d: Disk, op: Op): Disk
    requires Possible(d, op)
  {
    match op
    case Create(n) =>
      var e := Named(d, n, Some(d.next));
      e.(bytes := (i: nat) => if i == d.next then "" else d.bytes(i), settled := d.settled - {d.next},
         next := d.next + 1)
    case Write(n, chunk) =>
      var file := d.names(n).value;
      d.(bytes := (i: nat) => if i == file then d.bytes(i) + chunk else d.bytes(i), settled := d.settled - {file})
    case SyncFile(n) => d.(settled := d.settled + {d.names(n).value})
    case Link(from, to) => Named(d, to, d.names(from))
    case Unlink(n) => Named(d, n, None)
    case Replace(from, to) => Named(Named(d, to, d.names(from)), from, None)
    case SyncDirectory(directory) => d.(maybe := m => if DirectoryOf(m) == directory then {d.names(m)} else d.maybe(m))
  }

  /** What a name may hold after a power loss; `None` is no such file. */
  ghost predicate MayHold(d: Disk, n: Name, content: Option<string>) {
    exists e :: e in d.maybe(n)
      && match e
         case None => content.None?
         case Some(file) => content.Some? && (file in d.settled ==> content.value == d.bytes(file))
  }

  function Holds(d: Disk, n: Name): Option<string> {
    if d.names(n).None? then None else Some(d.bytes(d.names(n).value))
  }

  /** The reviewed bytes. */
  datatype Reviewed = Reviewed(baseline: string, desired: string, compose: string)

  /** Now and after a power loss: the registry is the old or the new one, the compose file is complete or
      absent, and the new registry never comes without the compose file. */
  ghost predicate Safe(d: Disk, r: Reviewed) {
    (Holds(d, Registry) == Some(r.baseline) || Holds(d, Registry) == Some(r.desired))
    && (Holds(d, Hermes).None? || Holds(d, Hermes) == Some(r.compose))
    && (Holds(d, Registry) == Some(r.desired) ==> Holds(d, Hermes) == Some(r.compose))
    && (forall c :: MayHold(d, Registry, c) ==> c == Some(r.baseline) || c == Some(r.desired))
    && (forall c :: MayHold(d, Hermes, c) ==> c.None? || c == Some(r.compose))
    && (MayHold(d, Registry, Some(r.desired)) ==> forall c :: MayHold(d, Hermes, c) ==> c == Some(r.compose))
  }

  /** What the preflight finds: the settled baseline registry, and nothing under the three other names. */
  ghost predicate Ready(d: Disk, r: Reviewed) {
    Holds(d, Registry) == Some(r.baseline) && d.names(Registry).value in d.settled
    && d.names(Hermes).None? && d.names(HermesStage).None? && d.names(RegistryStage).None?
    && (forall n :: d.maybe(n) == {d.names(n)})
    && d.names(Registry).value < d.next
  }

  // ---------------------------------------------------------------------------------------------
  // The host

  /** How a call ends: an error without effect, or done, for a write as far as `count` bytes. */
  datatype Luck = Error | Does(count: nat)

  /** The next call is done. */
  predicate Lucky(luck: seq<Luck>) {
    luck != [] && luck[0].Does?
  }

  function Later(luck: seq<Luck>): seq<Luck> {
    if luck == [] then [] else luck[1..]
  }

  function Least(a: nat, b: nat): nat {
    if a < b then a else b
  }

  /** The disk after these operations, each of them possible when it is done. */
  ghost function Replay(start: Disk, log: seq<Op>): Option<Disk>
    decreases |log|
  {
    if log == [] then Some(start)
    else
      var d := Replay(start, log[..|log| - 1]);
      if d.Some? && Possible(d.value, log[|log| - 1]) then Some(Done(d.value, log[|log| - 1])) else None
  }

  /** Every state on the way is safe. */
  ghost predicate SafeThroughout(start: Disk, log: seq<Op>, r: Reviewed) {
    forall n :: 0 <= n <= |log| ==> Replay(start, log[..n]).Some? && Safe(Replay(start, log[..n]).value, r)
  }

  class Host {
    var disk: Disk
    var luck: seq<Luck>
    /** The operations that took effect. */
    var log: seq<Op>

    method Draw() returns (l: Luck)
      modifies this`luck
      ensures l == if old(luck) == [] then Error else old(luck)[0]
      ensures luck == Later(old(luck))
    {
      if luck == [] {
        return Error;
      }
      l := luck[0];
      luck := luck[1..];
    }

    /** A read, a check or a metadata change that touches no modelled byte or name. */
    method Look() returns (ok: bool)
      modifies this`luck
      ensures ok <==> Lucky(old(luck))
      ensures luck == Later(old(luck))
    {
      var l := Draw();
      return l.Does?;
    }

    method Do(op: Op) returns (ok: bool)
      modifies this
      ensures ok <==> Lucky(old(luck)) && Possible(old(disk), op)
      ensures luck == Later(old(luck))
      ensures ok ==> Possible(old(disk), op) && disk == Done(old(disk), op) && log == old(log) + [op]
      ensures !ok ==> disk == old(disk) && log == old(log)
    {
      var l := Draw();
      if l.Error? || !Possible(disk, op) {
        return false;
      }
      disk, log := Done(disk, op), log + [op];
      return true;
    }

    /** The number of bytes written, which may be fewer than asked, or an exception. */
    method WriteSome(n: Name, rest: string) returns (r: Answer<nat>)
      modifies this
      ensures r.Replied? <==> Lucky(old(luck)) && Possible(old(disk), Write(n, ""))
      ensures r.Replied? ==> r.value == Least(old(luck)[0].count, |rest|)
      ensures luck == Later(old(luck))
      ensures r.Replied? ==> r.value <= |rest| && Possible(old(disk), Write(n, rest[..r.value]))
                             && disk == Done(old(disk), Write(n, rest[..r.value]))
                             && log == old(log) + [Write(n, rest[..r.value])]
      ensures r.Raised? ==> disk == old(disk) && log == old(log)
    {
      var l := Draw();
      if l.Error? || !Possible(disk, Write(n, "")) {
        return Raised;
      }
      var count := Least(l.count, |rest|);
      disk, log := Done(disk, Write(n, rest[..count])), log + [Write(n, rest[..count])];
      return Replied(count);
    }
  }

  // ---------------------------------------------------------------------------------------------
  // Progress

  function Creations(log: seq<Op>): nat {
    if log == [] then 0
    else Creations(log[..|log| - 1]) + if log[|log| - 1].Create? then 1 else 0
  }

  function Installations(log: seq<Op>): nat {
    if log == [] then 0
    else Installations(log[..|log| - 1]) + if log[|log| - 1].Link? || log[|log| - 1].Replace? then 1 else 0
  }

  class Progress {
    var started: bool
    var staged: nat
    var installed: nat

    constructor ()
      ensures !started && staged == 0 && installed == 0
    {
      started, staged, installed := false, 0, 0;
    }

    /** The counters are what the operations done amount to. */
    predicate True(log: seq<Op>) reads this {
      staged == Creations(log) && installed == Installations(log) && (started <==> log != [])
    }
  }

  // ---------------------------------------------------------------------------------------------
  // What keeps a disk safe

  ghost predicate Sane(d: Disk) {
    forall n :: d.names(n) in d.maybe(n) && forall e :: e in d.maybe(n) && e.Some? ==> e.value < d.next
  }

  predicate Is(d: Disk, e: Option<nat>, content: string) {
    e.Some? && e.value in d.settled && d.bytes(e.value) == content
  }

  /** Safety told by the inodes a name may stand for. */
  ghost predicate Sound(d: Disk, r: Reviewed) {
    Sane(d) && r.baseline != r.desired
    && (forall e :: e in d.maybe(Registry) ==> Is(d, e, r.baseline) || Is(d, e, r.desired))
    && (forall e :: e in d.maybe(Hermes) ==> e.None? || Is(d, e, r.compose))
    && ((forall e :: e in d.maybe(Registry) ==> Is(d, e, r.baseline)) || None !in d.maybe(Hermes))
  }

  lemma SoundIsSafe(d: Disk, r: Reviewed)
    requires Sound(d, r)
    ensures Safe(d, r)
  {
  }

  /** No name of an installed file stands for it. */
  ghost predicate Apart(d: Disk, file: nat) {
    Some(file) !in d.maybe(Registry) && Some(file) !in d.maybe(Hermes)
  }

  lemma StagingKeepsSound(d: Disk, r: Reviewed, n: Name, op: Op)
    requires Sound(d, r) && Possible(d, op) && (n.HermesStage? || n.RegistryStage?)
    requires op == Create(n) || (exists chunk :: op == Write(n, chunk)) || op == SyncFile(n)
    requires !op.Create? ==> Apart(d, d.names(n).value)
    ensures Sound(Done(d, op), r) && Done(d, op).names(n).Some? && Apart(Done(d, op), Done(d, op).names(n).value)
  {
  }

  lemma LinkKeepsSound(d: Disk, r: Reviewed)
    requires Sound(d, r) && Possible(d, Link(HermesStage, Hermes)) && Is(d, d.names(HermesStage), r.compose)
    requires forall e :: e in d.maybe(Registry) ==> Is(d, e, r.baseline)
    ensures Sound(Done(d, Link(HermesStage, Hermes)), r)
  {
  }

  lemma ReplaceKeepsSound(d: Disk, r: Reviewed)
    requires Sound(d, r) && Possible(d, Replace(RegistryStage, Registry)) && Is(d, d.names(RegistryStage), r.desired)
    requires None !in d.maybe(Hermes)
    ensures Sound(Done(d, Replace(RegistryStage, Registry)), r)
  {
  }

  lemma TidyingKeepsSound(d: Disk, r: Reviewed, op: Op)
    requires Sound(d, r) && Possible(d, op) && (op == Unlink(HermesStage) || op.SyncDirectory?)
    ensures Sound(Done(d, op), r)
  {
  }
}
