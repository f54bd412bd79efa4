/** Whether a Worker route pattern intercepts `/count` on a public host: yes, no, or not decided. */
module WorkerRoutes {
  import opened Shapes
  import opened Json
  import opened Ingress
  import opened IngressMeaning

  datatype Pattern = Pattern(scheme: Option<string>, host: string, path: Option<string>)

  /** The position of the first `/`, `?` or `#`. */
  function HostEnd(s: string): (n: nat)
    ensures n <= |s|
  {
    if s == "" || s[0] == '/' || s[0] == '?' || s[0] == '#' then 0 else 1 + HostEnd(s[1..])
  }

  /** `([^/?#]+)(/[^?#]*)?` */
  function Cut(scheme: Option<string>, s: string): Option<Pattern> {
    var n := HostEnd(s);
    if n == 0 then None
    else if n == |s| then Some(Pattern(scheme, s, None))
    else if s[n] == '/' && forall i :: n <= i < |s| ==> s[i] != '?' && s[i] != '#' then
      Some(Pattern(scheme, s[..n], Some(s[n..])))
    else None
  }

  /** `(?:(https?)://)?` before it. */
  function Parse(s: string): Option<Pattern> {
    if "http://" <= s && Cut(Some("http"), s[7..]).Some? then Cut(Some("http"), s[7..])
    else if "https://" <= s && Cut(Some("https"), s[8..]).Some? then Cut(Some("https"), s[8..])
    else Cut(None, s)
  }

  function Labels(s: string): seq<string> {
    if s == "" then [""]
    else if s[0] == '.' then [""] + Labels(s[1..])
    else
      var rest := Labels(s[1..]);
      if rest == [] then [[s[0]]] else [[s[0]] + rest[0]] + rest[1..]
  }

  predicate Alphanumeric(c: char) {
    'a' <= c <= 'z' || '0' <= c <= '9'
  }

  predicate LabelOk(l: string) {
    l != "" && Alphanumeric(l[0]) && Alphanumeric(l[|l| - 1])
    && forall i :: 0 <= i < |l| ==> Alphanumeric(l[i]) || l[i] == '-'
  }

  function BareHost(host: string): string {
    if "*." <= host then host[2..] else if "*" <= host then host[1..] else host
  }

  /** At most one star, in front, and then a name of two or more labels. */
  predicate HostOk(host: string) {
    (forall i :: 1 <= i < |host| ==> host[i] != '*')
    && |Labels(BareHost(host))| >= 2 && forall l :: l in Labels(BareHost(host)) ==> LabelOk(l)
  }

  predicate PathChar(c: char) {
    Alphanumeric(c) || c == '/' || c == '_' || c == '.' || c == '~' || c == '*' || c == '-'
  }

  /** At most one star, at the end. */
  predicate PathOk(path: string) {
    path != "" && path[0] == '/' && (forall i :: 0 <= i < |path| ==> PathChar(path[i]))
    && forall i :: 0 <= i < |path| - 1 ==> path[i] != '*'
  }

  const COUNT := "/count"

  predicate Covers(path: Option<string>) {
    path.Some? && (path.value == COUNT
                   || (path.value != "" && path.value[|path.value| - 1] == '*'
                       && path.value[..|path.value| - 1] <= COUNT))
  }

  /** `Some(true)` intercepted, `Some(false)` disjoint, `None` unknown. */
  function RouteVerdict(v: Value, glob: Glob): Option<bool> {
    if !v.Str? || !(1 <= |v.text| <= 255) || Parse(v.text).None? then None
    else
      var p := Parse(v.text).value;
      if !HostOk(p.host) || (p.path.Some? && !PathOk(p.path.value)) then None
      else if glob(APEX, p.host) && Covers(p.path) then Some(true)
      else if glob(WWW, p.host) && Covers(p.path) then Some(true)
      else Some(false)
  }

  // ---------------------------------------------------------------------------------------------
  // What a route matches

  datatype Url = Url(scheme: string, host: string, path: string, query: Option<string>)

  /** A star stands for anything, every other character for itself. */
  predicate StarMatches(text: string, pattern: string)
    decreases |pattern| + |text|
  {
    if pattern == "" then text == ""
    else if pattern[0] == '*' then StarMatches(text, pattern[1..]) || (text != "" && StarMatches(text[1..], pattern))
    else text != "" && pattern[0] == text[0] && StarMatches(text[1..], pattern[1..])
  }

  function Target(u: Url): string {
    u.path + if u.query.Some? then "?" + u.query.value else ""
  }

  /** The route matches the scheme if it names one, the host, and the path with the query; without a path
      it matches the root alone. */
  predicate RouteMatches(p: Pattern, u: Url) {
    (p.scheme.None? || p.scheme.value == u.scheme) && StarMatches(u.host, p.host)
    && StarMatches(Target(u), if p.path.Some? then p.path.value else "/")
  }

  /** A request for the counter on a public host, with any scheme and any query. */
  predicate Counts(u: Url) {
    IsPublic(u.host) && u.path == COUNT
  }

  lemma {:induction false} GlobIsStar(text: string, pattern: string, bracket: Glob)
    requires forall i :: 0 <= i < |pattern| ==> pattern[i] != '?' && pattern[i] != '['
    ensures GlobMatches(text, pattern, bracket) <==> StarMatches(text, pattern)
    decreases |pattern| + |text|
  {
    if pattern != "" {
      GlobIsStar(text, pattern[1..], bracket);
      if text != "" {
        GlobIsStar(text[1..], pattern, bracket);
        GlobIsStar(text[1..], pattern[1..], bracket);
      }
    }
  }

  lemma {:induction false} LabelCharacters(s: string)
    requires forall l :: l in Labels(s) ==> LabelOk(l)
    ensures forall i :: 0 <= i < |s| ==> s[i] != '?' && s[i] != '['
  {
    LabelsSpell(s);
    forall i | 0 <= i < |s| ensures s[i] != '?' && s[i] != '[' {
      if s[i] != '.' {
        var l :| l in Labels(s) && s[i] in l;
        assert LabelOk(l);
      }
    }
  }

  lemma {:induction false} LabelsSpell(s: string)
    ensures Labels(s) != []
    ensures forall i :: 0 <= i < |s| && s[i] != '.' ==> exists l :: l in Labels(s) && s[i] in l
  {
    if s != "" {
      LabelsSpell(s[1..]);
      var rest := Labels(s[1..]);
      forall i | 0 <= i < |s| && s[i] != '.' ensures exists l :: l in Labels(s) && s[i] in l {
        if i > 0 {
          var l :| l in rest && s[1..][i - 1] in l;
          if s[0] == '.' || l != rest[0] {
            assert l in Labels(s);
          } else {
            assert Labels(s)[0] == [s[0]] + l && s[i] in Labels(s)[0];
          }
        } else {
          assert s[0] in Labels(s)[0];
        }
      }
    }
  }

  lemma HostIsPlain(host: string, text: string, bracket: Glob)
    requires HostOk(host)
    ensures GlobMatches(text, host, bracket) <==> StarMatches(text, host)
  {
    LabelCharacters(BareHost(host));
    var bare := BareHost(host);
    assert forall i :: 0 <= i < |bare| ==> bare[i] == host[|host| - |bare| + i];
    forall i | 0 <= i < |host| ensures host[i] != '?' && host[i] != '[' {
      if i >= |host| - |bare| {
        assert host[i] == bare[i - (|host| - |bare|)];
      }
    }
    GlobIsStar(text, host, bracket);
  }

  lemma {:induction false} LiteralMatches(text: string, pattern: string)
    requires forall i :: 0 <= i < |pattern| ==> pattern[i] != '*'
    ensures StarMatches(text, pattern) <==> text == pattern
    ensures StarMatches(text, pattern + "*") <==> pattern <= text
    decreases |pattern|
  {
    if pattern == "" {
      assert pattern + "*" == "*";
      StarMatchesAll(text);
    } else if text != "" {
      assert (pattern + "*")[1..] == pattern[1..] + "*";
      LiteralMatches(text[1..], pattern[1..]);
      assert text == [text[0]] + text[1..] && pattern == [pattern[0]] + pattern[1..];
    }
  }

  lemma {:induction false} StarMatchesAll(text: string)
    ensures StarMatches(text, "*")
    decreases |text|
  {
    if text != "" {
      StarMatchesAll(text[1..]);
    } else {
      assert "*"[1..] == "";
    }
  }

  lemma PathMeans(p: Pattern, u: Url)
    requires Counts(u) && (p.path.Some? ==> PathOk(p.path.value))
    ensures StarMatches(Target(u), if p.path.Some? then p.path.value else "/") ==> Covers(p.path)
    ensures Covers(p.path) && u.query.None? ==> StarMatches(Target(u), if p.path.Some? then p.path.value else "/")
  {
    var target := Target(u);
    if p.path.None? {
      LiteralMatches(target, "/");
      assert |target| >= 6;
    } else {
      var path := p.path.value;
      var front := path[..|path| - 1];
      assert |target| > |COUNT| ==> target[|COUNT|] == '?';
      assert |path| > |COUNT| ==> PathChar(path[|COUNT|]);
      if path[|path| - 1] == '*' {
        assert path == front + "*";
        LiteralMatches(target, front);
        assert target[..|COUNT|] == COUNT;
        assert |front| <= |COUNT| ==> target[..|front|] == COUNT[..|front|];
      } else {
        LiteralMatches(target, path);
      }
    }
  }

  /** A definite verdict is right: `false` when no scheme, public host or query makes `/count` match the
      pattern, `true` when some does. */
  lemma VerdictIsRight(v: Value, bracket: Glob)
    requires RouteVerdict(v, (text, pattern) => GlobMatches(text, pattern, bracket)).Some?
    ensures RouteVerdict(v, (text, pattern) => GlobMatches(text, pattern, bracket)).value
            <==> exists u :: Counts(u) && RouteMatches(Parse(v.text).value, u)
  {
    hide GlobMatches, StarMatches, HostOk, PathOk, Covers, Cut;
    var p := Parse(v.text).value;
    HostIsPlain(p.host, APEX, bracket);
    HostIsPlain(p.host, WWW, bracket);
    forall u | Counts(u) && RouteMatches(p, u) ensures StarMatches(u.host, p.host) && Covers(p.path) {
      PathMeans(p, u);
    }
    var scheme := if p.scheme.Some? then p.scheme.value else "https";
    var a, w := Url(scheme, APEX, COUNT, None), Url(scheme, WWW, COUNT, None);
    PathMeans(p, a);
    PathMeans(p, w);
    assert Covers(p.path) && StarMatches(APEX, p.host) ==> RouteMatches(p, a);
    assert Covers(p.path) && StarMatches(WWW, p.host) ==> RouteMatches(p, w);
  }

  // ---------------------------------------------------------------------------------------------
  // Where the verdict is definite

  function Written(p: Pattern): string {
    (if p.scheme.Some? then p.scheme.value + "://" else "") + p.host + if p.path.Some? then p.path.value else ""
  }

  /** The subset of route patterns the analyser understands. */
  predicate Understood(p: Pattern) {
    (p.scheme.Some? ==> p.scheme.value == "http" || p.scheme.value == "https")
    && HostOk(p.host) && (p.path.Some? ==> PathOk(p.path.value)) && |Written(p)| <= 255
  }

  // Which hosts are understood

  function Dotted(labels: seq<string>): string
    requires labels != []
    decreases |labels|
  {
    if |labels| == 1 then labels[0] else labels[0] + "." + Dotted(labels[1..])
  }

  lemma {:induction false} LabelsJoin(s: string)
    ensures Labels(s) != [] && Dotted(Labels(s)) == s
    ensures forall l :: l in Labels(s) ==> '.' !in l
    decreases |s|
  {
    if s != "" {
      LabelsJoin(s[1..]);
      var rest := Labels(s[1..]);
      assert s == [s[0]] + s[1..];
      if s[0] == '.' {
        assert Labels(s)[1..] == rest;
        assert "" + "." + Dotted(rest) == ['.'] + Dotted(rest);
      } else {
        assert Labels(s) == [[s[0]] + rest[0]] + rest[1..];
        assert Labels(s)[1..] == rest[1..];
        if |rest| > 1 {
          assert [s[0]] + rest[0] + "." + Dotted(rest[1..]) == [s[0]] + (rest[0] + "." + Dotted(rest[1..]));
        }
        forall l | l in Labels(s) ensures '.' !in l {
          assert l == [s[0]] + rest[0] || l in rest;
        }
      }
    }
  }

  lemma {:induction false} LabelSplits(l: string, tail: string)
    requires '.' !in l
    ensures Labels(l + "." + tail) == [l] + Labels(tail) && Labels(l) == [l]
    decreases |l|
  {
    var s := l + "." + tail;
    if l == "" {
      assert s[1..] == tail;
    } else {
      assert l[0] in l && s[0] == l[0] && s[1..] == l[1..] + "." + tail;
      LabelSplits(l[1..], tail);
      assert [l[0]] + l[1..] == l;
    }
  }

  lemma {:induction false} LabelsBack(labels: seq<string>)
    requires labels != [] && forall l :: l in labels ==> '.' !in l
    ensures Labels(Dotted(labels)) == labels
    decreases |labels|
  {
    if |labels| == 1 {
      LabelSplits(labels[0], "");
    } else {
      LabelsBack(labels[1..]);
      LabelSplits(labels[0], Dotted(labels[1..]));
      assert labels == [labels[0]] + labels[1..];
    }
  }

  /** Small letters, digits and, inside, hyphens. */
  ghost predicate IsLabel(l: string) {
    l != "" && l[0] != '-' && l[|l| - 1] != '-'
    && forall i :: 0 <= i < |l| ==> 'a' <= l[i] <= 'z' || '0' <= l[i] <= '9' || l[i] == '-'
  }

  ghost predicate Spelled(host: string, prefix: string, labels: seq<string>) {
    (prefix == "" || prefix == "*" || prefix == "*.")
    && |labels| >= 2 && (forall l :: l in labels ==> IsLabel(l)) && host == prefix + Dotted(labels)
  }

  lemma LabelIff(l: string)
    ensures LabelOk(l) <==> IsLabel(l)
  {
  }

  /** A dotted name of such labels starts with a character of its first and has no star. */
  lemma DottedIs(labels: seq<string>)
    requires labels != [] && forall l :: l in labels ==> IsLabel(l)
    ensures var s := Dotted(labels); s != "" && s[0] != '*' && s[0] != '.' && '*' !in s && Labels(s) == labels
  {
    hide Labels;
    forall l | l in labels ensures '.' !in l && '*' !in l && IsLabel(l) {
    }
    LabelsBack(labels);
    var s := Dotted(labels);
    assert labels[0] in labels && s[0] == labels[0][0];
    LabelsSpell(s);
    forall i | 0 <= i < |s| && s[i] != '.' ensures s[i] != '*' {
      var l :| l in labels && s[i] in l;
    }
  }

  lemma SpelledIsOk(host: string, prefix: string, labels: seq<string>)
    requires Spelled(host, prefix, labels)
    ensures HostOk(host)
  {
    hide Labels, Dotted, IsLabel, LabelOk;
    var bare := Dotted(labels);
    forall l | l in labels ensures LabelOk(l) {
      LabelIff(l);
    }
    DottedIs(labels);
    assert host[|prefix|..] == bare;
    assert BareHost(host) == bare;
    forall i | 1 <= i < |host| ensures host[i] != '*' {
      if i >= |prefix| {
        assert host[i] == bare[i - |prefix|];
      }
    }
  }

  /** The hosts that are understood: two or more labels, with a star, or a star and a dot, in front or not. */
  lemma HostOkIff(host: string)
    ensures HostOk(host) <==> exists prefix, labels :: Spelled(host, prefix, labels)
  {
    if HostOk(host) {
      var bare := BareHost(host);
      var prefix := if "*." <= host then "*." else if "*" <= host then "*" else "";
      LabelsJoin(bare);
      forall l | l in Labels(bare) ensures IsLabel(l) {
        LabelIff(l);
      }
      assert host == prefix + bare;
      assert Spelled(host, prefix, Labels(bare));
    }
    forall prefix, labels | Spelled(host, prefix, labels) ensures HostOk(host) {
      SpelledIsOk(host, prefix, labels);
    }
  }

  predicate HostChar(c: char) {
    Alphanumeric(c) || c == '-' || c == '.' || c == '*'
  }

  lemma HostCharacters(host: string)
    requires HostOk(host)
    ensures host != "" && forall i :: 0 <= i < |host| ==> HostChar(host[i])
  {
    var bare := BareHost(host);
    LabelsSpell(bare);
    assert Labels("") == [""];
    assert forall i :: 0 <= i < |bare| ==> bare[i] == host[|host| - |bare| + i];
    forall i | 0 <= i < |host| ensures HostChar(host[i]) {
      if i >= |host| - |bare| && host[i] != '.' {
        assert host[i] == bare[i - (|host| - |bare|)];
        var l :| l in Labels(bare) && host[i] in l;
        assert LabelOk(l);
      }
    }
  }

  lemma {:induction false} HostEndsAt(host: string, rest: string)
    requires forall i :: 0 <= i < |host| ==> HostChar(host[i])
    requires rest == "" || rest[0] == '/'
    ensures HostEnd(host + rest) == |host|
  {
    if host != "" {
      assert (host + rest)[1..] == host[1..] + rest;
      HostEndsAt(host[1..], rest);
    } else {
      assert host + rest == rest;
    }
  }

  lemma CutsAt(scheme: Option<string>, host: string, path: Option<string>)
    requires HostOk(host) && (path.Some? ==> PathOk(path.value))
    ensures Cut(scheme, host + if path.Some? then path.value else "") == Some(Pattern(scheme, host, path))
  {
    hide HostOk;
    var rest := if path.Some? then path.value else "";
    var s := host + rest;
    HostCharacters(host);
    HostEndsAt(host, rest);
    assert s[..|host|] == host && s[|host|..] == rest;
    forall i | |host| <= i < |s| ensures s[i] != '?' && s[i] != '#' {
      assert s[i] == rest[i - |host|] && PathChar(rest[i - |host|]);
    }
    if path.None? {
      assert s == host;
    }
  }

  /** A pattern of that subset is read as it was written, and its verdict is definite. */
  lemma UnderstoodIsDefinite(p: Pattern, glob: Glob)
    requires Understood(p)
    ensures Parse(Written(p)) == Some(p) && RouteVerdict(Str(Written(p)), glob).Some?
  {
    hide Cut, HostOk, Covers;
    var rest := p.host + if p.path.Some? then p.path.value else "";
    var s := Written(p);
    HostCharacters(p.host);
    CutsAt(p.scheme, p.host, p.path);
    if p.scheme.None? {
      assert s == rest;
      NoScheme(p.host, s);
    } else if p.scheme.value == "http" {
      assert s == "http://" + rest && s[7..] == rest;
    } else {
      assert s == "https://" + rest && s[8..] == rest;
      assert s[4] != "http://"[4];
    }
  }

  lemma NoScheme(host: string, s: string)
    requires host <= s && host != "" && forall i :: 0 <= i < |host| ==> HostChar(host[i])
    requires |s| > |host| ==> s[|host|] == '/'
    ensures !("http://" <= s) && !("https://" <= s)
  {
    if |host| > 4 {
      assert s[4] == host[4];
    }
    if |host| > 5 {
      assert s[5] == host[5];
    }
    assert "http://"[4] == ':' && "https://"[5] == ':' && "https://"[4] == 's' && !HostChar(':');
    if |host| <= 4 {
      assert s[..|host|] == host;
    }
  }
}
