/** Lane admission: issue-local lane records, the lanes that are active, and what a candidate gets. */
module Lanes {
  import opened Shapes
  import opened Json
  import opened Sorting

  const REQUIRED := {
    "repository", "issue_number", "lane_class", "state", "conflict_keys", "explicit_dependencies",
    "activation_receipt_issue", "runtime_live_authority", "head_sha", "merge_ready", "program_order_blocked"}

  const SOURCE := {"SOURCE_INDEPENDENT", "SOURCE_EXCLUSIVE"}
  const WAITING := {"WAITING_EXTERNAL", "WAITING_OWNER"}
  const LIVE := "LIVE_EXCLUSIVE"

  datatype Policy = Policy(
    classes: set<string>, runnable: set<string>, durable: set<string>, terminal: set<string>, limit: nat)

  datatype Lane = Lane(
    repository: string, issue: nat, laneClass: string, state: string, conflictKeys: seq<string>,
    dependencies: seq<string>, liveAuthority: bool, head: string, mergeReady: bool, blocked: bool)

  // ---------------------------------------------------------------------------------------------
  // Records

  predicate NameChar(c: char) {
    'A' <= c <= 'Z' || 'a' <= c <= 'z' || '0' <= c <= '9' || c == '_' || c == '.' || c == '-'
  }

  /** `[A-Za-z0-9_.-]+/[A-Za-z0-9_.-]+` */
  predicate IsRepository(s: string) {
    exists k :: 0 < k < |s| - 1 && s[k] == '/' && forall i :: 0 <= i < |s| && i != k ==> NameChar(s[i])
  }

  /** `[0-9a-f]{40}` */
  predicate IsSha40(s: string) {
    |s| == 40 && AllHex(s)
  }

  /** A list of different nonempty strings. */
  predicate IsNames(v: Value) {
    v.Arr? && (forall x :: x in v.items ==> x.Str? && x.text != "")
    && forall i, j :: 0 <= i < j < |v.items| ==> v.items[i] != v.items[j]
  }

  function Texts(items: seq<Value>): seq<string>
    requires forall x :: x in items ==> x.Str?
  {
    seq(|items|, i requires 0 <= i < |items| => items[i].text)
  }

  /** Python's `v == n` for `n >= 1`: `True` equals 1. */
  predicate EqualsNumber(v: Value, n: int) {
    v == Num(n) || (v == Bool(true) && n == 1)
  }

  predicate InText(v: Value, s: set<string>) {
    v.Str? && v.text in s
  }

  predicate ShapeOk(v: Value) {
    v.Obj? && v.members.Keys == REQUIRED
  }

  function RecordStop(m: map<string, Value>, p: Policy): Option<string>
    requires m.Keys == REQUIRED
  {
    if !(m["repository"].Str? && IsRepository(m["repository"].text)) then Some("repository invalid")
    else if !(m["issue_number"].Num? && m["issue_number"].number >= 1) then Some("issue invalid")
    else if !InText(m["lane_class"], p.classes) then Some("lane class unknown")
    else if !InText(m["state"], p.runnable + p.durable + p.terminal) then Some("lane state unknown")
    else if !IsNames(m["conflict_keys"]) then Some("conflict_keys invalid")
    else if !IsNames(m["explicit_dependencies"]) then Some("explicit_dependencies invalid")
    else if m["lane_class"].text in SOURCE && m["conflict_keys"].items == [] then
      Some("source conflict evidence required")
    else if !EqualsNumber(m["activation_receipt_issue"], m["issue_number"].number) then
      Some("activation receipt cannot authorize another issue")
    else if !(m["runtime_live_authority"].Bool? && m["merge_ready"].Bool? && m["program_order_blocked"].Bool?) then
      Some("boolean field invalid")
    else if !(m["head_sha"].Str? && IsSha40(m["head_sha"].text)) then Some("head SHA invalid")
    else if m["lane_class"].text == LIVE && !m["runtime_live_authority"].flag then
      Some("LIVE_EXCLUSIVE requires frozen LIVE authority")
    else if m["lane_class"].text != LIVE && m["runtime_live_authority"].flag then
      Some("source/waiting lane cannot inherit LIVE authority")
    else if m["lane_class"].text in WAITING && m["state"] != m["lane_class"] then Some("waiting lane/state mismatch")
    else None
  }

  function NormalizeLane(v: Value, p: Policy): Result<Lane> {
    if !ShapeOk(v) then Stop("lane record shape is incomplete or widened")
    else
      var m := v.members;
      if RecordStop(m, p).Some? then Stop(RecordStop(m, p).value)
      else
        Ok(Lane(m["repository"].text, m["issue_number"].number, m["lane_class"].text, m["state"].text,
                Sort(Texts(m["conflict_keys"].items), StringLeq),
                Sort(Texts(m["explicit_dependencies"].items), StringLeq),
                m["runtime_live_authority"].flag, m["head_sha"].text, m["merge_ready"].flag,
                m["program_order_blocked"].flag))
  }

  // ---------------------------------------------------------------------------------------------
  // Identity

  function Decimal(n: nat): string {
    (if n < 10 then "" else Decimal(n / 10)) + [(n % 10 + '0' as int) as char]
  }

  function Identity(l: Lane): string {
    l.repository + "#" + Decimal(l.issue)
  }

  lemma {:induction false} DecimalInjective(a: nat, b: nat)
    requires Decimal(a) == Decimal(b)
    ensures a == b
  {
    var s, t := Decimal(a), Decimal(b);
    assert s[|s| - 1] == t[|t| - 1];
    assert s[..|s| - 1] == if a < 10 then "" else Decimal(a / 10);
    assert t[..|t| - 1] == if b < 10 then "" else Decimal(b / 10);
    DecimalNotEmpty(a / 10);
    DecimalNotEmpty(b / 10);
    if a >= 10 {
      DecimalInjective(a / 10, b / 10);
    }
  }

  lemma DecimalNotEmpty(n: nat)
    ensures Decimal(n) != ""
  {
  }

  lemma RepositoryHasNoHash(s: string)
    requires IsRepository(s)
    ensures '#' !in s
  {
  }

  lemma {:induction false} CutAtHash(a: string, b: string, c: string, d: string)
    requires a + "#" + c == b + "#" + d && '#' !in a && '#' !in b
    ensures a == b && c == d
    decreases |a|
  {
    var s := a + "#" + c;
    assert a != "" ==> s[0] == a[0] && a[0] in a && a == [a[0]] + a[1..];
    assert b != "" ==> s[0] == b[0] && b[0] in b && b == [b[0]] + b[1..];
    if a == "" {
      assert s[1..] == c && s[1..] == d;
    } else {
      assert s[1..] == a[1..] + "#" + c && s[1..] == b[1..] + "#" + d;
      CutAtHash(a[1..], b[1..], c, d);
    }
  }

  /** Lanes with the same identity are lanes of the same issue of the same repository. */
  lemma IdentityInjective(x: Lane, y: Lane)
    requires IsRepository(x.repository) && IsRepository(y.repository)
    ensures Identity(x) == Identity(y) <==> x.repository == y.repository && x.issue == y.issue
  {
    hide IsRepository;
    if Identity(x) == Identity(y) {
      RepositoryHasNoHash(x.repository);
      RepositoryHasNoHash(y.repository);
      CutAtHash(x.repository, y.repository, Decimal(x.issue), Decimal(y.issue));
      DecimalInjective(x.issue, y.issue);
    }
  }

  // ---------------------------------------------------------------------------------------------
  // Active lanes

  function Identities(lanes: seq<Lane>): set<string> {
    set x | x in lanes :: Identity(x)
  }

  lemma IdentitiesAppend(lanes: seq<Lane>, l: Lane)
    ensures Identities(lanes + [l]) == Identities(lanes) + {Identity(l)}
  {
    hide Identity;
    assert forall x :: x in lanes + [l] <==> x in lanes || x == l;
  }

  /** All records normalized, unless one of them is refused or repeats an issue. */
  function Scanned(records: seq<Value>, p: Policy): Result<seq<Lane>> {
    if records == [] then Ok([])
    else
      var front := Scanned(records[..|records| - 1], p);
      if front.Stop? then front
      else
        var last := NormalizeLane(records[|records| - 1], p);
        if last.Stop? then Stop(last.code)
        else if Identity(last.value) in Identities(front.value) then
          Stop("duplicate issue-local lane state")
        else Ok(front.value + [last.value])
  }

  function Active(lanes: seq<Lane>, p: Policy): seq<Lane> {
    if lanes == [] then []
    else Active(lanes[..|lanes| - 1], p)
         + if lanes[|lanes| - 1].state in p.terminal then [] else [lanes[|lanes| - 1]]
  }

  predicate LaneLeq(x: Lane, y: Lane) {
    if x.repository == y.repository then x.issue <= y.issue else StringLeq(x.repository, y.repository)
  }

  function Reconstructed(records: seq<Value>, p: Policy): Result<seq<Lane>> {
    var all := Scanned(records, p);
    if all.Stop? then all else Ok(Sort(Active(all.value, p), LaneLeq))
  }

  method ReconstructActiveLanes(records: seq<Value>, p: Policy) returns (r: Result<seq<Lane>>)
    ensures r == Reconstructed(records, p)
  {
    hide NormalizeLane, Identity, Sort;
    var seen: set<string> := {};
    var out: seq<Lane> := [];
    ghost var all: seq<Lane> := [];
    for i := 0 to |records|
      invariant Scanned(records[..i], p) == Ok(all)
      invariant seen == Identities(all)
      invariant out == Active(all, p)
    {
      assert records[..i + 1][..i] == records[..i];
      ScannedStops(records, i + 1, p);
      var lane := NormalizeLane(records[i], p);
      if lane.Stop? {
        return Stop(lane.code);
      }
      var key := Identity(lane.value);
      if key in seen {
        return Stop("duplicate issue-local lane state");
      }
      seen := seen + {key};
      if lane.value.state !in p.terminal {
        out := out + [lane.value];
      }
      IdentitiesAppend(all, lane.value);
      assert (all + [lane.value])[..|all|] == all;
      all := all + [lane.value];
    }
    assert records[..|records|] == records;
    return Ok(Sort(out, LaneLeq));
  }

  /** The first refused record decides the stop. */
  lemma {:induction false} ScannedStops(records: seq<Value>, n: nat, p: Policy)
    requires n <= |records|
    ensures Scanned(records[..n], p).Stop? ==> Scanned(records, p) == Scanned(records[..n], p)
    decreases |records|
  {
    if n == |records| {
      assert records[..n] == records;
    } else {
      ScannedStops(records[..|records| - 1], n, p);
      assert records[..|records| - 1][..n] == records[..n];
    }
  }

  // ---------------------------------------------------------------------------------------------
  // Decisions

  datatype Verdict = Verdict(decision: string, blockers: seq<string>)

  /** The elements of a list that are in a set. */
  function Common(names: seq<string>, s: set<string>): seq<string> {
    if names == [] then []
    else Common(names[..|names| - 1], s) + if names[|names| - 1] in s then [names[|names| - 1]] else []
  }

  function KeySet(keys: seq<string>): set<string> {
    set k | k in keys
  }

  function Prefixed(l: Lane, keys: seq<string>): seq<string> {
    seq(|keys|, i requires 0 <= i < |keys| => Identity(l) + ":" + keys[i])
  }

  /** For every lane and every conflict key it shares with the candidate. */
  function Shared(cand: Lane, lanes: seq<Lane>): seq<string> {
    if lanes == [] then []
    else
      var l := lanes[|lanes| - 1];
      Shared(cand, lanes[..|lanes| - 1])
      + Prefixed(l, Sort(Common(cand.conflictKeys, KeySet(l.conflictKeys)), StringLeq))
  }

  function LiveOnes(lanes: seq<Lane>): seq<string> {
    if lanes == [] then []
    else LiveOnes(lanes[..|lanes| - 1])
         + if lanes[|lanes| - 1].laneClass == LIVE then [Identity(lanes[|lanes| - 1])] else []
  }

  predicate TakesWorker(l: Lane, p: Policy) {
    l.laneClass in SOURCE && l.state in p.runnable
  }

  function Used(lanes: seq<Lane>, p: Policy): nat {
    if lanes == [] then 0
    else Used(lanes[..|lanes| - 1], p) + if TakesWorker(lanes[|lanes| - 1], p) then 1 else 0
  }

  function Decide(cand: Lane, lanes: seq<Lane>, p: Policy): Verdict {
    var unresolved := Common(cand.dependencies, Identities(lanes));
    var shared := Shared(cand, lanes);
    if cand.blocked then Verdict("QUEUED_PROGRAM_ORDER", ["explicit-program-order"])
    else if Identity(cand) in Identities(lanes) then Verdict("QUEUED_DUPLICATE", [Identity(cand)])
    else if unresolved != [] then Verdict("QUEUED_DEPENDENCY", Sort(unresolved, StringLeq))
    else if shared != [] then Verdict("QUEUED_CONFLICT", Sort(shared, StringLeq))
    else if cand.laneClass == LIVE then
      if LiveOnes(lanes) != [] then Verdict("QUEUED_LIVE_EXCLUSIVE", Sort(LiveOnes(lanes), StringLeq))
      else Verdict("ELIGIBLE", [])
    else if cand.laneClass in WAITING then Verdict("DURABLE_WAIT", [])
    else if Used(lanes, p) >= p.limit then
      Verdict("QUEUED_CAPACITY", ["source-workers:" + Decimal(Used(lanes, p)) + "/" + Decimal(p.limit)])
    else Verdict("ELIGIBLE", [])
  }

  function Classified(candidate: Value, records: seq<Value>, p: Policy): Result<Verdict> {
    var cand := NormalizeLane(candidate, p);
    if cand.Stop? then Stop(cand.code)
    else
      var lanes := Reconstructed(records, p);
      if lanes.Stop? then Stop(lanes.code) else Ok(Decide(cand.value, lanes.value, p))
  }

  method Classify(candidate: Value, records: seq<Value>, p: Policy) returns (r: Result<Verdict>)
    ensures r == Classified(candidate, records, p)
  {
    hide NormalizeLane, Reconstructed, Identity, Sort, Decimal, Prefixed, Common;
    var normal := NormalizeLane(candidate, p);
    if normal.Stop? {
      return Stop(normal.code);
    }
    var cand := normal.value;
    var reconstructed := ReconstructActiveLanes(records, p);
    if reconstructed.Stop? {
      return Stop(reconstructed.code);
    }
    var lanes := reconstructed.value;
    if cand.blocked {
      return Ok(Verdict("QUEUED_PROGRAM_ORDER", ["explicit-program-order"]));
    }
    var ids := Identities(lanes);
    if Identity(cand) in ids {
      return Ok(Verdict("QUEUED_DUPLICATE", [Identity(cand)]));
    }
    var unresolved := Common(cand.dependencies, ids);
    if unresolved != [] {
      return Ok(Verdict("QUEUED_DEPENDENCY", Sort(unresolved, StringLeq)));
    }
    var shared: seq<string> := [];
    var live: seq<string> := [];
    var used: nat := 0;
    for i := 0 to |lanes|
      invariant shared == Shared(cand, lanes[..i])
    {
      assert lanes[..i + 1][..i] == lanes[..i];
      var overlap := Common(cand.conflictKeys, KeySet(lanes[i].conflictKeys));
      shared := shared + Prefixed(lanes[i], Sort(overlap, StringLeq));
    }
    assert lanes[..|lanes|] == lanes;
    if shared != [] {
      return Ok(Verdict("QUEUED_CONFLICT", Sort(shared, StringLeq)));
    }
    if cand.laneClass == LIVE {
      for i := 0 to |lanes|
        invariant live == LiveOnes(lanes[..i])
      {
        assert lanes[..i + 1][..i] == lanes[..i];
        if lanes[i].laneClass == LIVE {
          live := live + [Identity(lanes[i])];
        }
      }
      return Ok(if live != [] then Verdict("QUEUED_LIVE_EXCLUSIVE", Sort(live, StringLeq))
                else Verdict("ELIGIBLE", []));
    }
    if cand.laneClass in WAITING {
      return Ok(Verdict("DURABLE_WAIT", []));
    }
    for i := 0 to |lanes|
      invariant used == Used(lanes[..i], p)
    {
      assert lanes[..i + 1][..i] == lanes[..i];
      if TakesWorker(lanes[i], p) {
        used := used + 1;
      }
    }
    if used >= p.limit {
      return Ok(Verdict("QUEUED_CAPACITY", ["source-workers:" + Decimal(used) + "/" + Decimal(p.limit)]));
    }
    return Ok(Verdict("ELIGIBLE", []));
  }
}
