/** The in-memory dispatch ledger, and its agreement with the durable journal. */
module Ledger {
  import opened Shapes
  import opened Journal

  datatype State = State(spent: bool, done: set<string>, next: nat)

  const FRESH := State(false, {}, 0)

  predicate Accepts(s: State, target: string) {
    !s.spent && s.next < |STEPS| && target == STEPS[s.next] && target !in s.done
  }

  function Advanced(s: State, target: string): State {
    if Accepts(s, target) then s.(done := s.done + {target}, next := s.next + 1) else s
  }

  /** `str(route)` of an optional route. */
  function RequestTarget(operation: string, route: Option<string>): string {
    if operation != "add_route" then operation
    else "route:" + (if route.Some? then route.value else "None")
  }

  class SingleDispatchLedger {
    var spent: bool
    var done: set<string>
    var next: nat

    ghost function Value(): State
      reads this
    {
      State(spent, done, next)
    }

    constructor ()
      ensures Value() == FRESH
    {
      spent, done, next := false, {}, 0;
    }

    method Reserve(operation: string, route: Option<string>) returns (r: Result<()>)
      modifies this
      ensures r.Ok? <==> Accepts(old(Value()), RequestTarget(operation, route))
      ensures Value() == Advanced(old(Value()), RequestTarget(operation, route))
    {
      if spent || next >= |STEPS| {
        return Stop("DISPATCH_EXHAUSTED");
      }
      var target := RequestTarget(operation, route);
      if target != STEPS[next] || target in done {
        return Stop("OUT_OF_ORDER_OR_REPEATED");
      }
      done := done + {target};
      next := next + 1;
      return Ok(());
    }

    method Freeze()
      modifies this
      ensures Value() == old(Value()).(spent := true)
    {
      spent := true;
    }
  }

  /** The first `k` steps are reserved and nothing else is. */
  ghost predicate Reached(s: State, k: nat) {
    k <= |STEPS| && !s.spent && s.next == k && (forall t :: t in s.done <==> t in STEPS[..k])
  }

  lemma StepsDiffer(i: nat, j: nat)
    requires i < |STEPS| && j < |STEPS| && STEPS[i] == STEPS[j]
    ensures i == j
  {
    assert |STEPS[0]| == |STEPS[1]| == 6 && STEPS[0][0] == 'u' && STEPS[1][0] == 'd';
    assert |STEPS[2]| == 31 && |STEPS[3]| == 38 && |STEPS[4]| == 35 && |STEPS[5]| == 42;
  }

  lemma ReachedAccepts(s: State, k: nat, target: string)
    requires Reached(s, k)
    ensures Accepts(s, target) <==> k < |STEPS| && target == STEPS[k]
    ensures Accepts(s, target) ==> Reached(Advanced(s, target), k + 1)
  {
    if k < |STEPS| {
      assert STEPS[..k + 1] == STEPS[..k] + [STEPS[k]];
    }
    if k < |STEPS| && STEPS[k] in s.done {
      var i :| 0 <= i < k && STEPS[..k][i] == STEPS[k];
      StepsDiffer(i, k);
    }
  }

  /** Which of a sequence of reservation attempts the ledger accepts. */
  function LedgerAnswers(s: State, targets: seq<string>): seq<bool>
    decreases |targets|
  {
    if targets == [] then []
    else [Accepts(s, targets[0])] + LedgerAnswers(Advanced(s, targets[0]), targets[1..])
  }

  /** The proof digest a caller presents for the step before `step`. */
  function Proof(dir: Directory, step: int): Option<string> {
    if step == 0 then None
    else if step > 0 && Complete(dir, Name(step - 1, Verified)) then Some(dir[Name(step - 1, Verified)].bytes[..64])
    else Some(DIGEST)
  }

  /** A reservation by a caller that presents the proof of the previous step. */
  function Reservation(dir: Directory, step: int, envelope: string): (Result<string>, Directory) {
    Outcome(dir, Call.Reserve(step, envelope, Proof(dir, step)), 65)
  }

  /** A reservation that is verified at once when it succeeds. */
  function Attempt(dir: Directory, step: int, envelope: string, proof: string): (bool, Directory) {
    if Reservation(dir, step, envelope).0.Stop? then (false, dir)
    else (true, Outcome(Reservation(dir, step, envelope).1, Call.MarkVerified(step, envelope, proof), 65).1)
  }

  /** Which of a sequence of reservation attempts the journal accepts. */
  function JournalAnswers(dir: Directory, steps: seq<int>, envelope: string, proof: string): seq<bool>
    decreases |steps|
  {
    if steps == [] then []
    else
      var answer := Attempt(dir, steps[0], envelope, proof);
      [answer.0] + JournalAnswers(answer.1, steps[1..], envelope, proof)
  }

  /** The journal of `k` completed steps. */
  ghost predicate Completed(dir: Directory, k: nat) {
    k <= |STEPS|
    && (forall n :: n in dir <==> n.step < k)
    && (forall n :: n in dir ==> Complete(dir, n))
  }

  lemma RefusedUnlessNext(dir: Directory, k: nat, step: int, envelope: string)
    requires Completed(dir, k) && (step != k || k == |STEPS|)
    ensures Reservation(dir, step, envelope).0.Stop?
  {
  }

  /** The next step is reserved. */
  lemma NextIsReserved(dir: Directory, k: nat, envelope: string)
    requires Completed(dir, k) && k < |STEPS| && IsSha256(envelope)
    ensures Reservation(dir, k, envelope)
         == (Ok(STEPS[k]), Linked(dir[Name(k, Mark.Reserved) := Entry(envelope + "\n", true, true)]))
  {
    if k > 0 {
      assert Complete(dir, Name(k - 1, Verified));
    }
  }

  /** What is reserved can be verified. */
  lemma ReservedIsVerified(dir: Directory, k: nat, envelope: string, proof: string)
    requires Completed(dir, k) && k < |STEPS| && IsSha256(envelope) && IsSha256(proof)
    ensures var reserved := Linked(dir[Name(k, Mark.Reserved) := Entry(envelope + "\n", true, true)]);
            Outcome(reserved, Call.MarkVerified(k, envelope, proof), 65).1 ==
            Linked(reserved[Name(k, Verified) := Entry(proof + "\n", true, true)])
  {
    assert (envelope + "\n")[..64] == envelope;
  }

  lemma AttemptCompletes(dir: Directory, k: nat, step: int, envelope: string, proof: string)
    requires Completed(dir, k) && IsSha256(envelope) && IsSha256(proof)
    ensures Attempt(dir, step, envelope, proof).0 <==> step == k < |STEPS|
    ensures Attempt(dir, step, envelope, proof).0 ==> Completed(Attempt(dir, step, envelope, proof).1, k + 1)
    ensures !Attempt(dir, step, envelope, proof).0 ==> Attempt(dir, step, envelope, proof).1 == dir
  {
    hide STEPS, Outcome;
    if step != k || k == |STEPS| {
      RefusedUnlessNext(dir, k, step, envelope);
    } else {
      NextIsReserved(dir, k, envelope);
      ReservedIsVerified(dir, k, envelope, proof);
      assert (envelope + "\n")[..64] == envelope && (proof + "\n")[..64] == proof;
      var next := Attempt(dir, step, envelope, proof).1;
      forall n | n in next ensures Complete(next, n) {
        assert n in dir ==> next[n].bytes == dir[n].bytes;
      }
      forall n: Name | n.step < k + 1 ensures n in next {
        assert n.step == k ==> n == Name(k, n.mark) && (n.mark.Reserved? || n.mark.Verified?);
        assert n.step < k || n == Name(k, Mark.Reserved) || n == Name(k, Verified);
      }
    }
  }

  /** The ledger and the journal accept the same sequences of reservations. */
  lemma {:induction false} SameAnswers(s: State, dir: Directory, k: nat, steps: seq<int>, targets: seq<string>,
                                       envelope: string, proof: string)
    requires Reached(s, k) && Completed(dir, k) && IsSha256(envelope) && IsSha256(proof)
    requires |steps| == |targets|
    requires forall i :: 0 <= i < |steps| ==>
               if StepOk(steps[i]) then targets[i] == STEPS[steps[i]] else targets[i] !in STEPS
    ensures LedgerAnswers(s, targets) == JournalAnswers(dir, steps, envelope, proof)
    decreases |steps|
  {
    if steps != [] {
      ReachedAccepts(s, k, targets[0]);
      AttemptCompletes(dir, k, steps[0], envelope, proof);
      if k < |STEPS| && targets[0] == STEPS[k] && steps[0] != k {
        StepsDiffer(steps[0], k);
      }
      var ok := Accepts(s, targets[0]);
      SameAnswers(Advanced(s, targets[0]), Attempt(dir, steps[0], envelope, proof).1, if ok then k + 1 else k,
                  steps[1..], targets[1..], envelope, proof);
    }
  }

  /** The ledger accepts every prefix of the fixed dispatch order. */
  lemma {:induction false} PrefixAccepted(s: State, k: nat, n: nat)
    requires Reached(s, k) && k <= n <= |STEPS|
    ensures |LedgerAnswers(s, STEPS[k..n])| == n - k
    ensures forall i :: 0 <= i < n - k ==> LedgerAnswers(s, STEPS[k..n])[i]
    decreases n - k
  {
    if k < n {
      ReachedAccepts(s, k, STEPS[k]);
      PrefixAccepted(Advanced(s, STEPS[k]), k + 1, n);
      assert STEPS[k..n][1..] == STEPS[k + 1..n];
    }
  }

  /** A frozen ledger refuses everything, whatever it has accepted before. */
  lemma {:induction false} FrozenRefuses(s: State, targets: seq<string>)
    requires s.spent
    ensures forall b :: b in LedgerAnswers(s, targets) ==> !b
    decreases |targets|
  {
    if targets != [] {
      FrozenRefuses(s, targets[1..]);
    }
  }
}
