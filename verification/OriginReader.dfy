/** The collector's request reader: bounded receives until the blank line, five exact head lines in any
    header order, and a body of 21 bytes. A byte is written as the character of the same code. */
module OriginReader {
  import opened Shapes

  const CRLF := "\r\n"
  const END := "\r\n\r\n"
  const REQUEST_LINE := "POST /internal/origin-count HTTP/1.0"
  const EXPECTED := map["host" := "origin-counter.invalid", "content-type" := "application/json",
                        "content-length" := "21", "connection" := "close"]
  const MAX_HEADER := 512

  /** What is still to come from the peer, and how it comes: each receive takes the next entry of `plan`
      as the bytes at hand, or finds the deadline passed when that is 0 or nothing is left. */
  datatype Wire = Wire(stream: string, plan: seq<nat>)

  function Least(a: nat, b: nat): nat {
    if a < b then a else b
  }

  function Chunk(w: Wire, size: nat): nat
    requires w.plan != []
  {
    Least(Least(w.plan[0], size), |w.stream|)
  }

  predicate Late(w: Wire) {
    w.plan == [] || w.plan[0] == 0
  }

  function Rest(w: Wire, size: nat): Wire
    requires w.plan != []
  {
    Wire(w.stream[Chunk(w, size)..], w.plan[1..])
  }

  class Connection {
    var stream: string
    var plan: seq<nat>
    /** The sizes of the receives made. */
    var asked: seq<nat>

    function State(): Wire reads this {
      Wire(stream, plan)
    }

    /** Some bytes, none at the end of the stream, or an exception when time is up. */
    method Recv(size: nat) returns (r: Answer<string>)
      modifies this
      ensures asked == old(asked) + [size]
      ensures r.Raised? <==> Late(old(State()))
      ensures r.Raised? ==> State() == old(State())
      ensures r.Replied? ==> r.value == old(stream)[..Chunk(old(State()), size)] && State() == Rest(old(State()), size)
    {
      asked := asked + [size];
      if Late(State()) {
        return Raised;
      }
      var n := Chunk(State(), size);
      r := Replied(stream[..n]);
      stream, plan := stream[n..], plan[1..];
    }
  }

  // ---------------------------------------------------------------------------------------------
  // The head

  predicate At(s: string, part: string, j: nat) {
    j + |part| <= |s| && s[j..j + |part|] == part
  }

  /** The first position of `part`, the length when there is none. */
  function Find(s: string, part: string): (i: nat)
    requires part != ""
    ensures i <= |s|
    ensures i < |s| ==> At(s, part, i)
    ensures forall j :: 0 <= j < i ==> !At(s, part, j)
  {
    if s == "" || At(s, part, 0) then 0
    else
      assert forall j: nat :: 0 < j <= |s| ==> (At(s, part, j) <==> At(s[1..], part, j - 1));
      1 + Find(s[1..], part)
  }

  predicate Ended(data: string) {
    Find(data, END) < |data|
  }

  /** Reading on from `data`: the head and the bytes after its blank line, or the stop, and what is left. */
  function HeadRun(data: string, w: Wire, limit: nat): (Result<(string, string)>, Wire)
    requires Find(data, END) <= limit
    decreases |w.plan|
  {
    var at := Find(data, END);
    if Ended(data) then (Ok((data[..at], data[at + 4..])), w)
    else if Late(w) then (Stop("DEADLINE"), w)
    else
      var size := Least(256, limit + 25 - |data|);
      var rest := Rest(w, size);
      if Chunk(w, size) == 0 then (Stop("TRUNCATED"), rest)
      else
        var more := data + w.stream[..Chunk(w, size)];
        if Find(more, END) > limit then (Stop("HEADER_LIMIT"), rest)
        else HeadRun(more, rest, limit)
  }

  method ReadHeaders(conn: Connection, limit: nat) returns (r: Result<(string, string)>)
    modifies conn
    ensures (r, conn.State()) == HeadRun("", old(conn.State()), limit)
    ensures |old(conn.stream)| <= |conn.stream| + limit + 25
    ensures old(conn.asked) <= conn.asked
            && forall i :: |old(conn.asked)| <= i < |conn.asked| ==> 1 <= conn.asked[i] <= 256
  {
    var data := "";
    while !Ended(data)
      invariant Find(data, END) <= limit
      invariant HeadRun(data, conn.State(), limit) == HeadRun("", old(conn.State()), limit)
      invariant |data| <= limit + 25
      invariant |old(conn.stream)| == |data| + |conn.stream|
      invariant old(conn.asked) <= conn.asked
                && forall i :: |old(conn.asked)| <= i < |conn.asked| ==> 1 <= conn.asked[i] <= 256
      decreases limit + 25 - |data|
    {
      var chunk := conn.Recv(Least(256, limit + 4 + 21 - |data|));
      if chunk.Raised? {
        return Stop("DEADLINE");
      }
      if chunk.value == "" {
        return Stop("TRUNCATED");
      }
      data := data + chunk.value;
      if Find(data, END) > limit {
        return Stop("HEADER_LIMIT");
      }
    }
    var at := Find(data, END);
    return Ok((data[..at], data[at + 4..]));
  }

  /** `head.split(CRLF)` */
  function Lines(s: string): seq<string>
    decreases |s|
  {
    var i := Find(s, CRLF);
    if i == |s| then [s] else [s[..i]] + Lines(s[i + 2..])
  }

  function Lower(s: string): string {
    seq(|s|, i requires 0 <= i < |s| =>
      if 'A' <= s[i] <= 'Z' then (s[i] as int + 32) as char else s[i])
  }

  predicate Blank(c: char) {
    c == ' ' || c == '\t'
  }

  function Strip(s: string): string
    decreases |s|
  {
    if s == "" then ""
    else if Blank(s[0]) then Strip(s[1..])
    else if Blank(s[|s| - 1]) then Strip(s[..|s| - 1])
    else s
  }

  function Colon(line: string): (at: nat)
    ensures at <= |line|
  {
    Find(line, ":")
  }

  function Key(line: string): string {
    Lower(line[..Colon(line)])
  }

  function FieldValue(line: string): string
    requires Colon(line) < |line|
  {
    Strip(line[Colon(line) + 1..])
  }

  predicate FieldOk(line: string) {
    Colon(line) < |line| && Key(line) in EXPECTED && FieldValue(line) == EXPECTED[Key(line)]
  }

  /** Each line gives an expected header its expected value, no header twice. */
  predicate FieldsOk(fields: seq<string>) {
    (forall i :: 0 <= i < |fields| ==> FieldOk(fields[i]))
    && forall i, j :: 0 <= i < j < |fields| ==> Key(fields[i]) != Key(fields[j])
  }

  /** The stop code for a head, none when it is accepted. */
  function HeadStop(head: string): Option<string> {
    var lines := Lines(head);
    if |lines| != 5 || lines[0] != REQUEST_LINE then Some("WIRE_REQUEST")
    else if !FieldsOk(lines[1..]) then Some("WIRE_HEADERS")
    else None
  }

  predicate HeadOk(head: string) {
    HeadStop(head).None?
  }

  lemma SameKeys(a: set<string>, b: set<string>)
    requires a <= b && |a| == |b|
    ensures a == b
  {
    assert |b - a| == |b| - |a|;
  }

  lemma FourHeaders()
    ensures |EXPECTED| == |EXPECTED.Keys| == 4
  {
  }

  ghost function KeysOf(fields: seq<string>, n: nat): set<string>
    requires n <= |fields|
  {
    if n == 0 then {} else KeysOf(fields, n - 1) + {Key(fields[n - 1])}
  }

  lemma {:induction false} KeyHasLine(fields: seq<string>, n: nat, h: string)
    requires n <= |fields|
    ensures h in KeysOf(fields, n) <==> exists k :: 0 <= k < n && Key(fields[k]) == h
  {
    if n > 0 {
      KeyHasLine(fields, n - 1, h);
      assert Key(fields[n - 1]) == h ==> exists k :: 0 <= k < n && Key(fields[k]) == h;
    }
  }

  /** The headers collected from the first `n` lines, none twice. */
  ghost predicate Collected(fields: seq<string>, n: nat, headers: map<string, string>) {
    n <= |fields| && |headers.Keys| == n && headers.Keys <= EXPECTED.Keys
    && (forall k :: 0 <= k < n ==>
          Colon(fields[k]) < |fields[k]|
          && Key(fields[k]) in headers && headers[Key(fields[k])] == FieldValue(fields[k]))
    && headers.Keys == KeysOf(fields, n)
    && (forall j, k :: 0 <= j < k < n ==> Key(fields[j]) != Key(fields[k]))
  }

  lemma CollectedMore(fields: seq<string>, n: nat, headers: map<string, string>, line: string)
    requires n < |fields| && Collected(fields, n, headers) && line == fields[n]
    requires Colon(line) < |line| && Key(line) !in headers && Key(line) in EXPECTED
    ensures Collected(fields, n + 1, headers[Key(line) := FieldValue(line)])
  {
    hide Key, Colon, FieldValue, EXPECTED;
    KeyHasLine(fields, n, Key(line));
    var more := headers[Key(line) := FieldValue(line)];
    assert more.Keys == headers.Keys + {Key(line)};
  }

  lemma RefusedLine(fields: seq<string>, n: nat, headers: map<string, string>, line: string)
    requires n < |fields| && Collected(fields, n, headers) && line == fields[n]
    requires Colon(line) == |line| || Key(line) in headers || Key(line) !in EXPECTED
    ensures !FieldsOk(fields)
  {
    hide Key, Colon, FieldValue, EXPECTED;
    KeyHasLine(fields, n, Key(line));
    assert FieldOk(line) ==> Colon(line) < |line| && Key(line) in EXPECTED;
  }

  lemma CollectedAll(fields: seq<string>, headers: map<string, string>)
    requires |fields| == 4 && Collected(fields, 4, headers)
    ensures headers == EXPECTED <==> FieldsOk(fields)
  {
    hide Key, Colon, FieldValue, EXPECTED;
    FourHeaders();
    SameKeys(headers.Keys, EXPECTED.Keys);
    if FieldsOk(fields) {
      forall h | h in headers ensures headers[h] == EXPECTED[h] {
        KeyHasLine(fields, 4, h);
        var k :| 0 <= k < 4 && Key(fields[k]) == h;
        assert FieldOk(fields[k]);
      }
    }
  }

  lemma CollectedNone(fields: seq<string>)
    ensures Collected(fields, 0, map[])
  {
    hide EXPECTED;
  }

  method CheckFields(fields: seq<string>) returns (ok: bool)
    requires |fields| == 4
    ensures ok == FieldsOk(fields)
  {
    hide Key, Colon, FieldValue, FieldsOk, EXPECTED;
    hide Collected;
    CollectedNone(fields);
    var headers: map<string, string> := map[];
    for i := 0 to 4
      invariant Collected(fields, i, headers)
    {
      var line := fields[i];
      if Colon(line) == |line| || Key(line) in headers || Key(line) !in EXPECTED {
        RefusedLine(fields, i, headers, line);
        return false;
      }
      CollectedMore(fields, i, headers, line);
      headers := headers[Key(line) := FieldValue(line)];
    }
    CollectedAll(fields, headers);
    return headers == EXPECTED;
  }

  method CheckHead(head: string) returns (stop: Option<string>)
    ensures stop == HeadStop(head)
  {
    hide Lines, REQUEST_LINE, FieldsOk;
    var lines := Lines(head);
    if |lines| == 0 || lines[0] != REQUEST_LINE || |lines| != 5 {
      return Some("WIRE_REQUEST");
    }
    var ok := CheckFields(lines[1..]);
    return if ok then None else Some("WIRE_HEADERS");
  }

  // ---------------------------------------------------------------------------------------------
  // The message

  predicate IsPageId(id: string) {
    |id| == 7 && forall i :: 0 <= i < 7 ==> '0' <= id[i] <= '9'
  }

  function Body(id: string): string {
    "{\"page_id\":\"" + id + "\"}"
  }

  /** The id a body carries. */
  function Carried(body: string): Option<string> {
    if |body| == 21 && IsPageId(body[12..19]) && body == Body(body[12..19]) then Some(body[12..19]) else None
  }

  function BodyRun(body: string, w: Wire): (Result<string>, Wire)
    decreases |w.plan|
  {
    if |body| >= 21 then (if Carried(body).Some? then Ok(Carried(body).value) else Stop("WIRE_BODY"), w)
    else if Late(w) then (Stop("DEADLINE"), w)
    else
      var rest := Rest(w, 22 - |body|);
      if Chunk(w, 22 - |body|) == 0 then (Stop("WIRE_BODY"), rest)
      else BodyRun(body + w.stream[..Chunk(w, 22 - |body|)], rest)
  }

  function MessageRun(w: Wire): (Result<string>, Wire) {
    var (head, rest) := HeadRun("", w, MAX_HEADER);
    if head.Stop? then (Stop(head.code), rest)
    else if HeadStop(head.value.0).Some? then (Stop(HeadStop(head.value.0).value), rest)
    else BodyRun(head.value.1, rest)
  }

  method ReadMessage(conn: Connection) returns (r: Result<string>)
    modifies conn
    ensures (r, conn.State()) == MessageRun(old(conn.State()))
    ensures |old(conn.stream)| <= |conn.stream| + MAX_HEADER + 26
    ensures old(conn.asked) <= conn.asked
            && forall i :: |old(conn.asked)| <= i < |conn.asked| ==> 1 <= conn.asked[i] <= 256
  {
    hide HeadRun, HeadStop, Carried;
    ghost var w := conn.State();
    HeadRunTakes("", w, MAX_HEADER);
    var head := ReadHeaders(conn, MAX_HEADER);
    if head.Stop? {
      return Stop(head.code);
    }
    var stop := CheckHead(head.value.0);
    if stop.Some? {
      return Stop(stop.value);
    }
    var body := head.value.1;
    while |body| < 21
      invariant BodyRun(body, conn.State()) == MessageRun(w)
      invariant |w.stream| == |head.value.0| + 4 + |body| + |conn.stream|
      invariant |body| <= 22 || |w.stream| <= |conn.stream| + MAX_HEADER + 25
      invariant old(conn.asked) <= conn.asked
                && forall i :: |old(conn.asked)| <= i < |conn.asked| ==> 1 <= conn.asked[i] <= 256
      decreases 22 - |body|
    {
      var chunk := conn.Recv(22 - |body|);
      if chunk.Raised? {
        return Stop("DEADLINE");
      }
      if chunk.value == "" {
        return Stop("WIRE_BODY");
      }
      body := body + chunk.value;
    }
    if Carried(body).None? {
      return Stop("WIRE_BODY");
    }
    return Ok(Carried(body).value);
  }

  // ---------------------------------------------------------------------------------------------
  // Soundness

  /** A head that is read, its blank line and the bytes after it are what was taken from the stream. */
  lemma {:induction false} HeadRunTakes(data: string, w: Wire, limit: nat)
    requires Find(data, END) <= limit
    ensures var (head, rest) := HeadRun(data, w, limit);
            head.Ok? ==>
              data + w.stream == head.value.0 + END + head.value.1 + rest.stream && |head.value.0| <= limit
    decreases |w.plan|
  {
    var at := Find(data, END);
    if Ended(data) {
      assert data == data[..at] + END + data[at + 4..];
    } else if !Late(w) {
      var size := Least(256, limit + 25 - |data|);
      var n := Chunk(w, size);
      var more := data + w.stream[..n];
      assert data + w.stream == more + w.stream[n..];
      if n != 0 && Find(more, END) <= limit {
        HeadRunTakes(more, Rest(w, size), limit);
      }
    }
  }

  lemma {:induction false} BodyRunTakes(body: string, w: Wire)
    ensures var (id, rest) := BodyRun(body, w);
            id.Ok? ==> IsPageId(id.value) && body + w.stream == Body(id.value) + rest.stream
    decreases |w.plan|
  {
    if |body| < 21 && !Late(w) {
      var n := Chunk(w, 22 - |body|);
      assert body + w.stream == body + w.stream[..n] + w.stream[n..];
      if n != 0 {
        BodyRunTakes(body + w.stream[..n], Rest(w, 22 - |body|));
      }
    }
  }

  /** However the bytes arrive: an accepted id came in exactly one canonical request, and nothing behind
      that request was taken from the connection. */
  lemma AcceptedIsCanonical(w: Wire) returns (head: string)
    requires MessageRun(w).0.Ok?
    ensures var (id, rest) := MessageRun(w);
            |id.value| == 7 && (forall i :: 0 <= i < 7 ==> '0' <= id.value[i] <= '9') && HeadOk(head) && |head| <= 512
            && w.stream == head + END + Body(id.value) + rest.stream
            && END == "\r\n\r\n" && Body(id.value) == "{\"page_id\":\"" + id.value + "\"}"
  {
    hide HeadRun, BodyRun, HeadStop;
    HeadRunTakes("", w, MAX_HEADER);
    var (read, rest) := HeadRun("", w, MAX_HEADER);
    head := read.value.0;
    assert "" + w.stream == w.stream;
    BodyRunTakes(read.value.1, rest);
    assert w.stream == head + END + (read.value.1 + rest.stream);
  }
}
