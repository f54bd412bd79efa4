/** Which lanes normalisation can yield, and that it leaves them alone when they come back as records. */
module LaneRecords {
  import opened Shapes
  import opened Json
  import opened Sorting
  import opened Lanes

  /** Different nonempty names in order. */
  ghost predicate NamesInOrder(names: seq<string>) {
    Ordered(names, StringLeq) && (forall x :: x in names ==> x != "")
    && forall i, j :: 0 <= i < j < |names| ==> names[i] != names[j]
  }

  /** Letters, digits and three signs. */
  ghost predicate Plain(s: string) {
    s != "" && forall c :: c in s ==> 'A' <= c <= 'Z' || 'a' <= c <= 'z' || '0' <= c <= '9' || c in ['_', '.', '-']
  }

  ghost predicate OwnerAndName(s: string) {
    exists owner, name :: Plain(owner) && Plain(name) && s == owner + ['/'] + name
  }

  lemma RepositoryIs(s: string)
    ensures IsRepository(s) <==> OwnerAndName(s)
  {
    if IsRepository(s) {
      var k :| 0 < k < |s| - 1 && s[k] == '/' && forall i :: 0 <= i < |s| && i != k ==> NameChar(s[i]);
      assert s == s[..k] + ['/'] + s[k + 1..];
      assert Plain(s[..k]) && Plain(s[k + 1..]);
    }
    forall owner, name | Plain(owner) && Plain(name) && s == owner + ['/'] + name ensures IsRepository(s) {
      assert s[|owner|] == '/';
      forall i | 0 <= i < |s| && i != |owner| ensures NameChar(s[i]) {
        assert s[i] in owner || s[i] in name;
      }
    }
  }

  lemma HeadIs(s: string)
    ensures IsSha40(s) <==> |s| == 40 && InHex(s)
  {
    HexIs(s);
  }

  /** A lane under a policy: source lanes show conflict evidence, exactly the LIVE_EXCLUSIVE ones hold LIVE
      authority, waiting lanes are in the state of their class. */
  ghost predicate LaneOk(l: Lane, p: Policy) {
    OwnerAndName(l.repository) && l.issue >= 1 && l.laneClass in p.classes
    && l.state in p.runnable + p.durable + p.terminal
    && NamesInOrder(l.conflictKeys) && NamesInOrder(l.dependencies)
    && (l.laneClass in SOURCE ==> l.conflictKeys != [])
    && |l.head| == 40 && InHex(l.head) && (l.liveAuthority <==> l.laneClass == LIVE)
    && (l.laneClass in WAITING ==> l.state == l.laneClass)
  }

  function Names(names: seq<string>): Value {
    Arr(seq(|names|, i requires 0 <= i < |names| => Str(names[i])))
  }

  /** The lane as a record. */
  function Shown(l: Lane): Value {
    Obj(map[
      "repository" := Str(l.repository), "issue_number" := Num(l.issue), "lane_class" := Str(l.laneClass),
      "state" := Str(l.state), "conflict_keys" := Names(l.conflictKeys),
      "explicit_dependencies" := Names(l.dependencies), "activation_receipt_issue" := Num(l.issue),
      "runtime_live_authority" := Bool(l.liveAuthority), "head_sha" := Str(l.head),
      "merge_ready" := Bool(l.mergeReady), "program_order_blocked" := Bool(l.blocked)])
  }

  lemma SortedNames(v: Value)
    requires IsNames(v)
    ensures var s := Sort(Texts(v.items), StringLeq); NamesInOrder(s) && (s == [] <==> v.items == [])
  {
    var texts := Texts(v.items);
    var s := Sort(texts, StringLeq);
    StringOrder();
    SortSorts(texts, StringLeq);
    hide Sort, StringLeq;
    assert |s| == |multiset(s)| == |multiset(texts)| == |texts|;
    forall x | x in s ensures x != "" {
      assert x in multiset(s) && x in multiset(texts);
      var i :| 0 <= i < |texts| && texts[i] == x;
      assert v.items[i] in v.items;
    }
    forall i, j | 0 <= i < j < |s| ensures s[i] != s[j] {
      TextsDiffer(v);
      SameMultisetDistinct(texts, s, i, j);
    }
  }

  lemma TextsDiffer(v: Value)
    requires IsNames(v)
    ensures var t := Texts(v.items); forall i, j :: 0 <= i < j < |t| ==> t[i] != t[j]
  {
    var t := Texts(v.items);
    forall i, j | 0 <= i < j < |t| ensures t[i] != t[j] {
      assert v.items[i] != v.items[j] && v.items[i] in v.items && v.items[j] in v.items;
    }
  }

  lemma {:induction false} OnceEach(s: seq<string>, x: string)
    requires forall i, j :: 0 <= i < j < |s| ==> s[i] != s[j]
    ensures multiset(s)[x] <= 1
    decreases |s|
  {
    if s != [] {
      OnceEach(s[1..], x);
      assert s == [s[0]] + s[1..];
      if x == s[0] {
        assert forall i :: 0 <= i < |s[1..]| ==> s[1..][i] == s[i + 1];
        assert x !in s[1..];
      }
    }
  }

  lemma SameMultisetDistinct(a: seq<string>, b: seq<string>, i: nat, j: nat)
    requires forall k, m :: 0 <= k < m < |a| ==> a[k] != a[m]
    requires multiset(a) == multiset(b) && i < j < |b|
    ensures b[i] != b[j]
  {
    OnceEach(a, b[i]);
    assert b == b[..i] + [b[i]] + b[i + 1..j] + [b[j]] + b[j + 1..];
  }

  lemma {:induction false} NamesShown(names: seq<string>)
    requires NamesInOrder(names)
    ensures IsNames(Names(names)) && Sort(Texts(Names(names).items), StringLeq) == names
  {
    StringOrder();
    SortFixes(names, StringLeq);
    hide Sort, StringLeq;
    var v := Names(names);
    forall x | x in v.items ensures x.Str? && x.text != "" {
      var i :| 0 <= i < |names| && v.items[i] == x;
      assert names[i] in names;
    }
    assert Texts(v.items) == names;
  }

  lemma NormalIsOk(v: Value, p: Policy)
    requires NormalizeLane(v, p).Ok?
    ensures LaneOk(NormalizeLane(v, p).value, p)
  {
    hide NamesInOrder, IsNames, IsRepository, IsSha40, OwnerAndName, InHex, SOURCE, WAITING, LIVE, Sort, StringLeq;
    var l := NormalizeLane(v, p).value;
    RepositoryIs(l.repository);
    HeadIs(l.head);
    SortedNames(v.members["conflict_keys"]);
    SortedNames(v.members["explicit_dependencies"]);
  }

  predicate Spells(m: map<string, Value>, l: Lane) {
    m.Keys == REQUIRED
    && m["repository"] == Str(l.repository) && m["issue_number"] == Num(l.issue) && m["lane_class"] == Str(l.laneClass)
    && m["state"] == Str(l.state) && m["conflict_keys"] == Names(l.conflictKeys)
    && m["explicit_dependencies"] == Names(l.dependencies) && m["activation_receipt_issue"] == Num(l.issue)
    && m["runtime_live_authority"] == Bool(l.liveAuthority) && m["head_sha"] == Str(l.head)
    && m["merge_ready"] == Bool(l.mergeReady) && m["program_order_blocked"] == Bool(l.blocked)
  }

  lemma ShownSpells(l: Lane)
    ensures Shown(l).Obj? && Spells(Shown(l).members, l)
  {
    hide Names;
  }

  lemma SpelledIsNormal(m: map<string, Value>, l: Lane, p: Policy)
    requires LaneOk(l, p) && Spells(m, l)
    ensures NormalizeLane(Obj(m), p) == Ok(l)
  {
    NamesShown(l.conflictKeys);
    NamesShown(l.dependencies);
    NamesEmpty(l.conflictKeys);
    RepositoryIs(l.repository);
    HeadIs(l.head);
    hide NamesInOrder, IsNames, IsRepository, IsSha40, SOURCE, WAITING, LIVE, Sort, StringLeq, Names, REQUIRED,
         OwnerAndName, InHex;
    assert RecordStop(m, p).None?;
  }

  lemma ShownIsNormal(l: Lane, p: Policy)
    requires LaneOk(l, p)
    ensures NormalizeLane(Shown(l), p) == Ok(l)
  {
    hide LaneOk, NormalizeLane, Shown, Spells;
    ShownSpells(l);
    SpelledIsNormal(Shown(l).members, l, p);
  }

  lemma NamesEmpty(names: seq<string>)
    ensures Names(names).Arr? && (Names(names).items == [] <==> names == [])
  {
  }

  /** Normalisation yields exactly the lanes that are in order, and yields each of them from itself. */
  lemma NormalLanesAre(l: Lane, p: Policy)
    ensures LaneOk(l, p) <==> exists v :: NormalizeLane(v, p) == Ok(l)
    ensures LaneOk(l, p) ==> NormalizeLane(Shown(l), p) == Ok(l)
  {
    hide LaneOk, NormalizeLane, Shown;
    forall v | NormalizeLane(v, p) == Ok(l) ensures LaneOk(l, p) {
      NormalIsOk(v, p);
    }
    if LaneOk(l, p) {
      ShownIsNormal(l, p);
    }
  }
}
