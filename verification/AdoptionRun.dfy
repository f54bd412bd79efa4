/** The adoption itself: every state it passes through is safe, and its progress report is true. */
module AdoptionRun {
  import opened Shapes
  import opened Adoption

  /** Since `start` only safe states were passed through. */
  ghost predicate Tracks(h: Host, start: Disk, r: Reviewed)
    reads h`disk, h`log
  {
    Replay(start, h.log) == Some(h.disk) && SafeThroughout(start, h.log, r) && Sound(h.disk, r)
  }

  lemma StartTracks(d: Disk, r: Reviewed)
    requires Ready(d, r) && r.baseline != r.desired
    ensures Sound(d, r) && SafeThroughout(d, [], r)
  {
    forall n ensures d.names(n) in d.maybe(n) && forall e :: e in d.maybe(n) && e.Some? ==> e.value < d.next {
      assert d.maybe(n) == {d.names(n)};
      assert n.Registry? || d.names(n).None?;
    }
    SoundIsSafe(d, r);
    var none: seq<Op> := [];
    assert none[..0] == none;
  }

  lemma OneMore(start: Disk, log: seq<Op>, d: Disk, op: Op, r: Reviewed)
    requires Replay(start, log) == Some(d) && SafeThroughout(start, log, r)
    requires Possible(d, op) && Sound(Done(d, op), r)
    ensures Replay(start, log + [op]) == Some(Done(d, op)) && SafeThroughout(start, log + [op], r)
  {
    hide Possible, Done, Sound, Safe;
    var more := log + [op];
    SoundIsSafe(Done(d, op), r);
    assert more[..|log|] == log;
    forall n | 0 <= n <= |more| ensures Replay(start, more[..n]).Some? && Safe(Replay(start, more[..n]).value, r) {
      if n <= |log| {
        assert more[..n] == log[..n];
      } else {
        assert more[..n] == more;
      }
    }
  }

  lemma Counted(log: seq<Op>, op: Op)
    ensures Creations(log + [op]) == Creations(log) + if op.Create? then 1 else 0
    ensures Installations(log + [op]) == Installations(log) + if op.Link? || op.Replace? then 1 else 0
  {
    assert (log + [op])[..|log|] == log;
  }

  /** All but `n` and new files is as it was. */
  ghost predicate Untouched(d: Disk, e: Disk, n: Name) {
    (forall m :: m != n ==> e.names(m) == d.names(m) && e.maybe(m) == d.maybe(m))
    && (forall i: nat :: i < d.next ==> e.bytes(i) == d.bytes(i) && (i in e.settled <==> i in d.settled))
    && d.next <= e.next
  }

  ghost predicate OnlyStaged(d: Disk, e: Disk, n: Name) {
    Untouched(d, e, n) && e.names(n) == Some(d.next) && d.next < e.next
  }

  // ---------------------------------------------------------------------------------------------
  // The luck a run needs

  /** What is left of the luck after `n` calls that are all done. */
  function AfterCalls(luck: seq<Luck>, n: nat): Option<seq<Luck>> {
    if n == 0 then Some(luck)
    else if !Lucky(luck) then None
    else AfterCalls(luck[1..], n - 1)
  }

  /** What is left after as many writes as it takes for `size` bytes; a write of nothing ends it. */
  function AfterWrites(luck: seq<Luck>, size: nat): Option<seq<Luck>> {
    if size == 0 then Some(luck)
    else if !Lucky(luck) || luck[0].count == 0 then None
    else AfterWrites(luck[1..], size - Least(luck[0].count, size))
  }

  /** Creating a staged file, writing it, its fsync, and its owner and mode. */
  function AfterStage(luck: seq<Luck>, size: nat): Option<seq<Luck>> {
    if !Lucky(luck) then None
    else
      var written := AfterWrites(luck[1..], size);
      if written.None? then None else AfterCalls(written.value, 2)
  }

  /** Both stages, and then the nine calls of publishing. */
  predicate Enough(luck: seq<Luck>, r: Reviewed) {
    var first := AfterStage(luck, |r.compose|);
    first.Some?
    && var second := AfterStage(first.value, |r.desired|);
       second.Some? && AfterCalls(second.value, 9).Some?
  }

  /** Every call is done, and every write makes progress. */
  predicate AllDone(luck: seq<Luck>) {
    forall i :: 0 <= i < |luck| ==> luck[i].Does? && luck[i].count > 0
  }

  lemma {:induction false} CallsLeave(luck: seq<Luck>, n: nat)
    requires AllDone(luck) && |luck| >= n
    ensures AfterCalls(luck, n) == Some(luck[n..])
  {
    if n > 0 {
      CallsLeave(luck[1..], n - 1);
      assert luck[1..][n - 1..] == luck[n..];
    }
  }

  lemma {:induction false} WritesLeave(luck: seq<Luck>, size: nat)
    requires AllDone(luck) && |luck| >= size
    ensures AfterWrites(luck, size).Some?
    ensures AllDone(AfterWrites(luck, size).value) && |AfterWrites(luck, size).value| >= |luck| - size
  {
    if size > 0 {
      WritesLeave(luck[1..], size - Least(luck[0].count, size));
    }
  }

  lemma StageLeaves(luck: seq<Luck>, size: nat)
    requires AllDone(luck) && |luck| >= size + 3
    ensures AfterStage(luck, size).Some?
    ensures AllDone(AfterStage(luck, size).value) && |AfterStage(luck, size).value| >= |luck| - size - 3
  {
    WritesLeave(luck[1..], size);
    CallsLeave(AfterWrites(luck[1..], size).value, 2);
  }

  /** When every call is done, one draw for each byte and fifteen more are enough. */
  lemma AllDoneIsEnough(luck: seq<Luck>, r: Reviewed)
    requires AllDone(luck) && |luck| >= |r.compose| + |r.desired| + 15
    ensures Enough(luck, r)
  {
    hide AfterStage, AfterCalls, AllDone;
    StageLeaves(luck, |r.compose|);
    var first := AfterStage(luck, |r.compose|).value;
    StageLeaves(first, |r.desired|);
    CallsLeave(AfterStage(first, |r.desired|).value, 9);
  }

  /** What a stage needs can be told before the first write. */
  lemma StageNeeds(luck: seq<Luck>, size: nat)
    ensures AfterStage(luck, size).Some? <==>
              Lucky(luck) && AfterWrites(Later(luck), size).Some?
              && Lucky(AfterWrites(Later(luck), size).value) && Lucky(Later(AfterWrites(Later(luck), size).value))
    ensures AfterStage(luck, size).Some? ==>
              AfterStage(luck, size).value == Later(Later(AfterWrites(Later(luck), size).value))
  {
    if Lucky(luck) && AfterWrites(luck[1..], size).Some? {
      var written := AfterWrites(luck[1..], size).value;
      CallsNeed(written, 2);
      CallsNeed(Later(written), 1);
    }
  }

  lemma CallsNeed(luck: seq<Luck>, n: nat)
    requires n > 0
    ensures AfterCalls(luck, n) == if Lucky(luck) then AfterCalls(Later(luck), n - 1) else None
    ensures AfterCalls(Later(luck), 0) == Some(Later(luck))
  {
  }

  lemma {:induction false} CallsSplit(luck: seq<Luck>, m: nat, n: nat)
    ensures AfterCalls(luck, m + n)
         == if AfterCalls(luck, m).Some? then AfterCalls(AfterCalls(luck, m).value, n) else None
  {
    if m > 0 && Lucky(luck) {
      CallsSplit(luck[1..], m - 1, n);
    }
  }

  lemma WritesNeed(luck: seq<Luck>, size: nat)
    ensures size == 0 ==> AfterWrites(luck, size) == Some(luck)
    ensures size > 0 && (!Lucky(luck) || luck[0].count == 0) ==> AfterWrites(luck, size).None?
    ensures size > 0 && Lucky(luck) && luck[0].count > 0 ==>
              AfterWrites(luck, size) == AfterWrites(Later(luck), size - Least(luck[0].count, size))
  {
  }

  lemma PossibleStaging(d: Disk, n: Name)
    ensures Possible(d, Create(n)) <==> d.names(n).None?
    ensures forall chunk :: Possible(d, Write(n, chunk)) <==> d.names(n).Some?
    ensures Possible(d, SyncFile(n)) <==> d.names(n).Some?
  {
  }

  method WriteStage(h: Host, n: Name, content: string, p: Progress, ghost start: Disk, r: Reviewed) returns (ok: bool)
    requires n.HermesStage? || n.RegistryStage?
    requires Tracks(h, start, r) && p.True(h.log)
    modifies h, p
    ensures Tracks(h, start, r) && p.True(h.log)
    ensures p.installed == old(p.installed) && Untouched(old(h.disk), h.disk, n)
    ensures ok ==> Is(h.disk, h.disk.names(n), content) && Apart(h.disk, h.disk.names(n).value)
                   && OnlyStaged(old(h.disk), h.disk, n) && p.staged == old(p.staged) + 1
    ensures ok <==> old(h.disk).names(n).None? && AfterStage(old(h.luck), |content|).Some?
    ensures ok ==> Some(h.luck) == AfterStage(old(h.luck), |content|)
  {
    hide Possible, Done, Sound, SafeThroughout, Replay, Untouched, OnlyStaged, Creations, Installations, Apart,
         AfterStage, AfterWrites, Lucky, Later;
    ghost var d, log, luck := h.disk, h.log, h.luck;
    StagedIs(d, d, n);
    PossibleStaging(d, n);
    StageNeeds(luck, |content|);
    ok := h.Do(Create(n));
    if !ok {
      return;
    }
    Staging(h, start, r, n, d, log, Create(n));
    CreateStages(d, n);
    StagedIs(d, h.disk, n);
    p.started, p.staged := true, p.staged + 1;
    var offset := 0;
    while offset < |content|
      invariant 0 <= offset <= |content|
      invariant Tracks(h, start, r) && p.True(h.log)
      invariant p.started && p.installed == old(p.installed) && p.staged == old(p.staged) + 1
      invariant h.disk.names(n) == Some(d.next) && h.disk.bytes(d.next) == content[..offset]
      invariant Apart(h.disk, d.next) && OnlyStaged(d, h.disk, n) && Untouched(d, h.disk, n)
      invariant AfterWrites(h.luck, |content| - offset) == AfterWrites(Later(luck), |content|)
      decreases |content| - offset
    {
      ghost var before, past := h.disk, h.log;
      WritesNeed(h.luck, |content| - offset);
      PossibleStaging(h.disk, n);
      var written := h.WriteSome(n, content[offset..]);
      if written.Raised? {
        return false;
      }
      ghost var chunk := content[offset..][..written.value];
      Staging(h, start, r, n, before, past, Write(n, chunk));
      WriteStages(before, d, n, chunk);
      StagedIs(d, h.disk, n);
      if written.value == 0 {
        return false;
      }
      assert content[..offset] + chunk == content[..offset + written.value];
      offset := offset + written.value;
    }
    assert content[..offset] == content;
    WritesNeed(h.luck, 0);
    PossibleStaging(h.disk, n);
    ghost var before, past := h.disk, h.log;
    ok := h.Do(SyncFile(n));
    if !ok {
      return;
    }
    Staging(h, start, r, n, before, past, SyncFile(n));
    SyncStages(before, d, n);
    StagedIs(d, h.disk, n);
    ok := h.Look();
  }

  lemma StagedIs(d: Disk, e: Disk, n: Name)
    ensures Untouched(d, d, n)
    ensures OnlyStaged(d, e, n) ==> Untouched(d, e, n)
  {
  }

  lemma CreateStages(d: Disk, n: Name)
    requires Possible(d, Create(n))
    ensures var e := Done(d, Create(n));
            e.names(n) == Some(d.next) && e.bytes(d.next) == "" && OnlyStaged(d, e, n)
  {
  }

  lemma WriteStages(before: Disk, d: Disk, n: Name, chunk: string)
    requires OnlyStaged(d, before, n) && before.names(n) == Some(d.next) && Possible(before, Write(n, chunk))
    ensures var e := Done(before, Write(n, chunk));
            e.names(n) == Some(d.next) && e.bytes(d.next) == before.bytes(d.next) + chunk && OnlyStaged(d, e, n)
  {
  }

  lemma SyncStages(before: Disk, d: Disk, n: Name)
    requires OnlyStaged(d, before, n) && before.names(n) == Some(d.next) && Possible(before, SyncFile(n))
    ensures var e := Done(before, SyncFile(n));
            e.names(n) == Some(d.next) && e.bytes(d.next) == before.bytes(d.next) && d.next in e.settled
            && OnlyStaged(d, e, n)
  {
  }

  /** One step of staging. */
  lemma Staging(h: Host, start: Disk, r: Reviewed, n: Name, d: Disk, log: seq<Op>, op: Op)
    requires Replay(start, log) == Some(d) && SafeThroughout(start, log, r) && Sound(d, r)
    requires Possible(d, op) && h.disk == Done(d, op) && h.log == log + [op]
    requires n.HermesStage? || n.RegistryStage?
    requires op == Create(n) || (exists chunk :: op == Write(n, chunk)) || op == SyncFile(n)
    requires !op.Create? ==> d.names(n).Some? && Apart(d, d.names(n).value)
    ensures Tracks(h, start, r)
    ensures h.disk.names(n).Some? && Apart(h.disk, h.disk.names(n).value)
    ensures Creations(h.log) == Creations(log) + if op.Create? then 1 else 0
    ensures Installations(h.log) == Installations(log)
  {
    hide Possible, Done, Sound, SafeThroughout, Replay;
    StagingKeepsSound(d, r, n, op);
    OneMore(start, log, d, op, r);
    Counted(log, op);
  }

  /** The new registry and the compose file are installed for good, no staged file is left. */
  ghost predicate Adopted(d: Disk, r: Reviewed) {
    Holds(d, Registry) == Some(r.desired) && Holds(d, Hermes) == Some(r.compose)
    && (forall c :: MayHold(d, Registry, c) <==> c == Some(r.desired))
    && (forall c :: MayHold(d, Hermes, c) <==> c == Some(r.compose))
    && (forall c :: MayHold(d, HermesStage, c) || MayHold(d, RegistryStage, c) <==> c.None?)
  }

  /** One step of publishing. */
  method Publish(h: Host, op: Op, p: Progress, ghost start: Disk, r: Reviewed) returns (ok: bool)
    requires Tracks(h, start, r) && p.True(h.log) && h.log != []
    requires Possible(h.disk, op) ==> Sound(Done(h.disk, op), r)
    requires !op.Create?
    modifies h, p
    ensures Tracks(h, start, r) && p.True(h.log) && h.log != [] && Sound(h.disk, r)
    ensures p.started == old(p.started) && p.staged == old(p.staged)
    ensures if ok then Possible(old(h.disk), op) && h.disk == Done(old(h.disk), op) else h.disk == old(h.disk)
    ensures p.installed == old(p.installed) + if ok && (op.Link? || op.Replace?) then 1 else 0
    ensures ok <==> Lucky(old(h.luck)) && Possible(old(h.disk), op)
    ensures h.luck == Later(old(h.luck))
  {
    hide Possible, Done, Sound, SafeThroughout, Replay;
    ghost var d, log := h.disk, h.log;
    ok := h.Do(op);
    if ok {
      OneMore(start, log, d, op, r);
      Counted(log, op);
      if op.Link? || op.Replace? {
        p.installed := p.installed + 1;
      }
    }
  }

  /** How far publishing has got: nothing, the compose file (`sure` when its entry is durable), or all. */
  ghost predicate Prepared(d: Disk, r: Reviewed) {
    Is(d, d.names(HermesStage), r.compose) && Is(d, d.names(RegistryStage), r.desired)
    && Is(d, d.names(Registry), r.baseline) && d.maybe(Registry) == {d.names(Registry)}
    && d.names(Hermes).None? && d.maybe(Hermes) == {None}
    && d.names(RegistryStage) != d.names(Registry)
  }

  ghost predicate ComposeLinked(d: Disk, r: Reviewed, sure: bool) {
    Is(d, d.names(Hermes), r.compose) && Is(d, d.names(RegistryStage), r.desired)
    && Is(d, d.names(Registry), r.baseline) && d.maybe(Registry) == {d.names(Registry)}
    && (sure ==> None !in d.maybe(Hermes))
  }

  ghost predicate Replaced(d: Disk, r: Reviewed) {
    Is(d, d.names(Registry), r.desired) && Is(d, d.names(Hermes), r.compose) && None !in d.maybe(Hermes)
    && d.maybe(HermesStage) == {None} && d.names(HermesStage).None? && d.names(RegistryStage).None?
    && d.maybe(Hermes) == {d.names(Hermes)}
  }

  lemma BothStaged(d0: Disk, d1: Disk, d2: Disk, r: Reviewed)
    requires Ready(d0, r) && OnlyStaged(d0, d1, HermesStage) && OnlyStaged(d1, d2, RegistryStage)
    requires Is(d1, d1.names(HermesStage), r.compose) && Is(d2, d2.names(RegistryStage), r.desired)
    ensures Prepared(d2, r)
  {
  }

  lemma Linked(d: Disk, r: Reviewed)
    requires Prepared(d, r) && Sound(d, r) && Possible(d, Link(HermesStage, Hermes))
    ensures Sound(Done(d, Link(HermesStage, Hermes)), r) && ComposeLinked(Done(d, Link(HermesStage, Hermes)), r, false)
    ensures Done(d, Link(HermesStage, Hermes)).names(HermesStage) == d.names(HermesStage)
  {
    LinkKeepsSound(d, r);
  }

  lemma ComposeSynced(d: Disk, r: Reviewed, sure: bool)
    requires ComposeLinked(d, r, sure) && Sound(d, r)
    ensures var e := Done(d, SyncDirectory(Compose));
            Sound(e, r) && ComposeLinked(e, r, true) && e.maybe(Hermes) == {e.names(Hermes)}
            && e.maybe(HermesStage) == {e.names(HermesStage)} && e.names(HermesStage) == d.names(HermesStage)
  {
    TidyingKeepsSound(d, r, SyncDirectory(Compose));
  }

  lemma StageUnlinked(d: Disk, r: Reviewed)
    requires ComposeLinked(d, r, true) && Sound(d, r) && Possible(d, Unlink(HermesStage))
    ensures var e := Done(d, Unlink(HermesStage));
            Sound(e, r) && ComposeLinked(e, r, true) && e.names(HermesStage).None?
  {
    TidyingKeepsSound(d, r, Unlink(HermesStage));
  }

  lemma RegistryReplaced(d: Disk, r: Reviewed)
    requires ComposeLinked(d, r, true) && Sound(d, r) && Possible(d, Replace(RegistryStage, Registry))
    requires d.maybe(HermesStage) == {None} && d.names(HermesStage).None? && d.maybe(Hermes) == {d.names(Hermes)}
    ensures var e := Done(d, Replace(RegistryStage, Registry)); Sound(e, r) && Replaced(e, r)
  {
    ReplaceKeepsSound(d, r);
  }

  lemma RootSynced(d: Disk, r: Reviewed)
    requires Replaced(d, r) && Sound(d, r)
    ensures var e := Done(d, SyncDirectory(Root)); Sound(e, r) && Replaced(e, r) && Adopted(e, r)
  {
    TidyingKeepsSound(d, r, SyncDirectory(Root));
    var e := Done(d, SyncDirectory(Root));
    assert e.maybe(Registry) == {e.names(Registry)} && e.maybe(RegistryStage) == {None};
  }

  /** Replacing the registry is safe exactly when the compose file's entry cannot be lost any more, which
      is what the directory sync before it is for. */
  lemma ReplaceSafeIff(d: Disk, r: Reviewed)
    requires ComposeLinked(d, r, false) && Sound(d, r) && Possible(d, Replace(RegistryStage, Registry))
    ensures Safe(Done(d, Replace(RegistryStage, Registry)), r) <==> None !in d.maybe(Hermes)
  {
    var e := Done(d, Replace(RegistryStage, Registry));
    if None !in d.maybe(Hermes) {
      ReplaceKeepsSound(d, r);
      SoundIsSafe(e, r);
    } else {
      assert None in e.maybe(Hermes) && d.names(RegistryStage) in e.maybe(Registry);
      assert MayHold(e, Hermes, None) && MayHold(e, Registry, Some(r.desired));
    }
  }

  /** Linking the staged file is safe exactly when its bytes are settled. */
  lemma LinkSafeIff(d: Disk, r: Reviewed)
    requires Sound(d, r) && Possible(d, Link(HermesStage, Hermes)) && Holds(d, HermesStage) == Some(r.compose)
    requires forall e :: e in d.maybe(Registry) ==> Is(d, e, r.baseline)
    ensures Safe(Done(d, Link(HermesStage, Hermes)), r) <==> d.names(HermesStage).value in d.settled
  {
    var e := Done(d, Link(HermesStage, Hermes));
    if d.names(HermesStage).value in d.settled {
      LinkKeepsSound(d, r);
      SoundIsSafe(e, r);
    } else {
      assert d.names(HermesStage) in e.maybe(Hermes);
      assert MayHold(e, Hermes, Some(r.compose + "x"));
      assert |r.compose + "x"| != |r.compose|;
    }
  }

  /** What the report's count of installed targets says about the files. */
  ghost predicate Reports(d: Disk, p: Progress, r: Reviewed)
    reads p
  {
    p.installed <= 2
    && (p.installed >= 1 <==> Holds(d, Hermes).Some?)
    && (p.installed == 2 <==> Holds(d, Registry) == Some(r.desired))
  }

  ghost predicate NothingInstalled(d: Disk, r: Reviewed) {
    Holds(d, Registry) == Some(r.baseline) && d.names(Registry).value < d.next && d.names(Hermes).None?
  }

  lemma StillNothing(d: Disk, e: Disk, n: Name, r: Reviewed)
    requires NothingInstalled(d, r) && Untouched(d, e, n) && (n.HermesStage? || n.RegistryStage?)
    ensures NothingInstalled(e, r)
  {
  }

  /** The states in which a run can end, and what is reported of them. */
  lemma EndsReported(d: Disk, p: Progress, r: Reviewed)
    requires r.baseline != r.desired
    ensures Ready(d, r) ==> NothingInstalled(d, r)
    ensures (NothingInstalled(d, r) || Prepared(d, r)) && p.installed == 0 ==> Reports(d, p, r)
    ensures (ComposeLinked(d, r, true) || ComposeLinked(d, r, false)) && p.installed == 1 ==> Reports(d, p, r)
    ensures Replaced(d, r) && p.installed == 2 ==> Reports(d, p, r)
    ensures Prepared(d, r) ==> Holds(d, Hermes).None? && Holds(d, Registry) == Some(r.baseline)
  {
  }

  lemma TracksSound(h: Host, start: Disk, r: Reviewed)
    requires Tracks(h, start, r)
    ensures Sound(h.disk, r)
  {
  }

  /** Nothing but bad luck stops publishing. */
  lemma PossiblePublishing(d: Disk, r: Reviewed)
    ensures Possible(d, Link(HermesStage, Hermes)) <==> d.names(HermesStage).Some? && d.names(Hermes).None?
    ensures Possible(d, Unlink(HermesStage)) <==> d.names(HermesStage).Some?
    ensures Possible(d, Replace(RegistryStage, Registry)) <==> d.names(RegistryStage).Some?
    ensures forall directory :: Possible(d, SyncDirectory(directory))
    ensures Prepared(d, r) ==> d.names(HermesStage).Some? && d.names(Hermes).None?
                               && Holds(d, Registry) == Some(r.baseline)
    ensures forall sure :: ComposeLinked(d, r, sure) ==>
              d.names(RegistryStage).Some? && Holds(d, Registry) == Some(r.baseline)
    ensures Replaced(d, r) ==> Holds(d, Registry) == Some(r.desired) && Holds(d, Hermes) == Some(r.compose)
                               && Holds(d, HermesStage).None? && Holds(d, RegistryStage).None?
  {
  }

  /** The compose file is linked for good and its staged name gone for good. */
  ghost predicate ComposeDone(d: Disk, r: Reviewed) {
    ComposeLinked(d, r, true) && d.names(HermesStage).None? && d.maybe(HermesStage) == {None}
    && d.maybe(Hermes) == {d.names(Hermes)}
  }

  /** From the two staged files on: the compose file. */
  method PublishCompose(h: Host, r: Reviewed, p: Progress, ghost start: Disk) returns (ok: bool)
    requires Prepared(h.disk, r) && r.baseline != r.desired && h.log != []
    requires Tracks(h, start, r) && p.True(h.log) && p.installed == 0
    modifies h, p
    ensures Tracks(h, start, r) && p.True(h.log) && h.log != [] && Reports(h.disk, p, r)
    ensures p.started == old(p.started) && p.staged == old(p.staged)
    ensures ok ==> ComposeDone(h.disk, r) && p.installed == 1
    ensures ok <==> AfterCalls(old(h.luck), 5).Some?
    ensures ok ==> Some(h.luck) == AfterCalls(old(h.luck), 5)
  {
    hide Possible, Done, SafeThroughout, Replay, Adopted, Ready, Reports, Prepared, ComposeLinked, Replaced, Tracks,
         Sound, Creations, Installations, AfterCalls, Lucky, Later, Holds;
    EndsReported(h.disk, p, r);
    TracksSound(h, start, r);
    PossiblePublishing(h.disk, r);
    CallsNeed(h.luck, 5);
    ok := h.Look();
    if !ok || Holds(h.disk, Hermes).Some? || Holds(h.disk, Registry) != Some(r.baseline) {
      return false;
    }
    Linked(h.disk, r);
    CallsNeed(h.luck, 4);
    ok := Publish(h, Link(HermesStage, Hermes), p, start, r);
    EndsReported(h.disk, p, r);
    if !ok {
      return;
    }
    PossiblePublishing(h.disk, r);
    ComposeSynced(h.disk, r, false);
    CallsNeed(h.luck, 3);
    ok := Publish(h, SyncDirectory(Compose), p, start, r);
    EndsReported(h.disk, p, r);
    if !ok {
      return;
    }
    PossiblePublishing(h.disk, r);
    StageUnlinked(h.disk, r);
    CallsNeed(h.luck, 2);
    ok := Publish(h, Unlink(HermesStage), p, start, r);
    EndsReported(h.disk, p, r);
    if !ok {
      return;
    }
    PossiblePublishing(h.disk, r);
    ComposeSynced(h.disk, r, true);
    CallsNeed(h.luck, 1);
    ok := Publish(h, SyncDirectory(Compose), p, start, r);
    EndsReported(h.disk, p, r);
  }

  /** And then the registry, and the checks of the end. */
  method PublishRegistry(h: Host, r: Reviewed, others: bool, p: Progress, ghost start: Disk) returns (ok: bool)
    requires ComposeDone(h.disk, r) && r.baseline != r.desired && h.log != []
    requires Tracks(h, start, r) && p.True(h.log) && p.installed == 1
    modifies h, p
    ensures Tracks(h, start, r) && p.True(h.log) && h.log != [] && Reports(h.disk, p, r)
    ensures p.started == old(p.started) && p.staged == old(p.staged)
    ensures ok ==> Adopted(h.disk, r) && p.installed == 2 && others
    ensures ok <==> others && AfterCalls(old(h.luck), 4).Some?
  {
    hide Possible, Done, SafeThroughout, Replay, Adopted, Ready, Reports, Prepared, ComposeLinked, Replaced, Tracks,
         Sound, Creations, Installations, AfterCalls, Lucky, Later, Holds;
    EndsReported(h.disk, p, r);
    TracksSound(h, start, r);
    PossiblePublishing(h.disk, r);
    CallsNeed(h.luck, 4);
    ok := h.Look();
    if !ok || Holds(h.disk, Registry) != Some(r.baseline) {
      return false;
    }
    RegistryReplaced(h.disk, r);
    CallsNeed(h.luck, 3);
    ok := Publish(h, Replace(RegistryStage, Registry), p, start, r);
    EndsReported(h.disk, p, r);
    if !ok {
      return;
    }
    PossiblePublishing(h.disk, r);
    RootSynced(h.disk, r);
    CallsNeed(h.luck, 2);
    ok := Publish(h, SyncDirectory(Root), p, start, r);
    EndsReported(h.disk, p, r);
    if !ok {
      return;
    }
    PossiblePublishing(h.disk, r);
    CallsNeed(h.luck, 1);
    ok := h.Look();
    return ok && Holds(h.disk, Registry) == Some(r.desired) && Holds(h.disk, Hermes) == Some(r.compose) && others
           && Holds(h.disk, HermesStage).None? && Holds(h.disk, RegistryStage).None?;
  }

  /** From the two staged files on. */
  method PublishAll(h: Host, r: Reviewed, others: bool, p: Progress, ghost start: Disk) returns (ok: bool)
    requires Prepared(h.disk, r) && r.baseline != r.desired && h.log != []
    requires Tracks(h, start, r) && p.True(h.log) && p.installed == 0 && p.staged == 2
    modifies h, p
    ensures Tracks(h, start, r) && p.True(h.log) && Reports(h.disk, p, r)
    ensures ok ==> Adopted(h.disk, r) && p.staged == 2 && p.installed == 2 && p.started && others
    ensures ok <==> others && AfterCalls(old(h.luck), 9).Some?
  {
    hide Possible, Done, SafeThroughout, Replay, Adopted, Ready, Reports, Prepared, ComposeDone, Replaced, Tracks,
         Sound, Creations, Installations, AfterCalls;
    CallsSplit(h.luck, 5, 4);
    ok := PublishCompose(h, r, p, start);
    if !ok {
      return;
    }
    ok := PublishRegistry(h, r, others, p, start);
  }

  lemma ReplayNothing(d: Disk)
    ensures Replay(d, []) == Some(d)
  {
  }

  lemma NoStages(d: Disk, r: Reviewed)
    requires Ready(d, r)
    ensures d.names(HermesStage).None? && d.names(RegistryStage).None?
  {
  }

  lemma OthersStay(d: Disk, e: Disk, n: Name)
    requires Untouched(d, e, n)
    ensures forall m :: m != n ==> e.names(m) == d.names(m)
  {
  }

  /** From what the preflight found: every state passed through is safe, also under a power loss; success
      means adopted for good; and however it ends, the progress report is true. `others` says whether the
      files that are only compared still are the same. */
  method Apply(h: Host, r: Reviewed, others: bool) returns (ok: bool, p: Progress)
    requires Ready(h.disk, r) && r.baseline != r.desired && h.log == []
    modifies h
    ensures fresh(p) && p.True(h.log) && Reports(h.disk, p, r)
    ensures Replay(old(h.disk), h.log) == Some(h.disk) && SafeThroughout(old(h.disk), h.log, r)
    ensures ok ==> Adopted(h.disk, r) && p.started && p.staged == 2 && p.installed == 2 && others
    ensures ok <==> others && Enough(old(h.luck), r)
    ensures (others && |old(h.luck)| >= |r.compose| + |r.desired| + 15
             && forall l :: l in old(h.luck) ==> l.Does? && l.count > 0)
            ==> ok
  {
    hide Possible, Done, Sound, SafeThroughout, Replay, Prepared, ComposeLinked, Replaced, Adopted, OnlyStaged, Ready,
         Reports, NothingInstalled, Untouched, AfterStage, AfterCalls;
    p := new Progress();
    ghost var start := h.disk;
    StartTracks(start, r);
    NoStages(start, r);
    if AllDone(h.luck) && |h.luck| >= |r.compose| + |r.desired| + 15 {
      AllDoneIsEnough(h.luck, r);
    }
    assert Tracks(h, start, r) by { ReplayNothing(start); }
    EndsReported(start, p, r);
    ok := WriteStage(h, HermesStage, r.compose, p, start, r);
    ghost var d1 := h.disk;
    StillNothing(start, d1, HermesStage, r);
    assert d1.names(RegistryStage) == start.names(RegistryStage) by { OthersStay(start, d1, HermesStage); }
    EndsReported(d1, p, r);
    if !ok {
      return;
    }
    ok := WriteStage(h, RegistryStage, r.desired, p, start, r);
    ghost var d2 := h.disk;
    StillNothing(d1, d2, RegistryStage, r);
    EndsReported(d2, p, r);
    if !ok {
      return;
    }
    BothStaged(start, d1, d2, r);
    ok := PublishAll(h, r, others, p, start);
  }
}
