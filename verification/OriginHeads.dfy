/** The heads the reader accepts, written out: the request line and the four headers in any order, in any
    letter case, with any blanks around the value, and nothing else. */
module OriginHeads {
  import opened OriginReader
  import opened OriginChunking

  datatype Field = Field(name: string, before: string, after: string)

  predicate Blanks(s: string) {
    forall i :: 0 <= i < |s| ==> Blank(s[i])
  }

  predicate FieldWritten(f: Field) {
    Lower(f.name) in EXPECTED && Blanks(f.before) && Blanks(f.after)
  }

  predicate Written(fs: seq<Field>) {
    |fs| == 4 && (forall i :: 0 <= i < 4 ==> FieldWritten(fs[i]))
    && forall i, j :: 0 <= i < j < 4 ==> Lower(fs[i].name) != Lower(fs[j].name)
  }

  function FieldText(f: Field): string
    requires FieldWritten(f)
  {
    f.name + ":" + f.before + EXPECTED[Lower(f.name)] + f.after
  }

  function Join(lines: seq<string>): string
    requires lines != []
    decreases |lines|
  {
    if |lines| == 1 then lines[0] else lines[0] + CRLF + Join(lines[1..])
  }

  function HeadText(fs: seq<Field>): string
    requires Written(fs)
  {
    Join([REQUEST_LINE, FieldText(fs[0]), FieldText(fs[1]), FieldText(fs[2]), FieldText(fs[3])])
  }

  // ---------------------------------------------------------------------------------------------
  // Lines

  predicate OneLine(s: string) {
    forall j :: 0 <= j < |s| ==> !At(s, CRLF, j)
  }

  lemma {:induction false} LinesOfJoin(lines: seq<string>)
    requires lines != [] && forall l :: l in lines ==> OneLine(l)
    ensures Lines(Join(lines)) == lines
    decreases |lines|
  {
    hide Find, Lines, At;
    var s := Join(lines);
    LinesAre(s);
    var i := Find(s, CRLF);
    assert lines[0] in lines;
    AtChars(s, i);
    if |lines| == 1 {
      assert i == |s|;
    } else {
      var n := |lines[0]|;
      AtChars(s, n);
      if i < n {
        AtChars(lines[0], i);
      }
      assert s[..n] == lines[0] && s[n + 2..] == Join(lines[1..]);
      LinesOfJoin(lines[1..]);
    }
  }

  lemma {:induction false} JoinOfLines(s: string)
    ensures Lines(s) != [] && Join(Lines(s)) == s
    decreases |s|
  {
    hide Find, Lines;
    LinesAre(s);
    var i := Find(s, CRLF);
    if i < |s| {
      JoinOfLines(s[i + 2..]);
      assert s == s[..i] + CRLF + s[i + 2..];
      assert Lines(s)[1..] == Lines(s[i + 2..]);
    }
  }

  // ---------------------------------------------------------------------------------------------
  // Fields

  lemma {:induction false} StripLeaves(before: string, s: string, after: string)
    requires Blanks(before) && Blanks(after)
    requires s != "" && !Blank(s[0]) && !Blank(s[|s| - 1])
    ensures Strip(before + s + after) == s
    decreases |before| + |after|
  {
    var all := before + s + after;
    if before != "" {
      assert all[1..] == before[1..] + s + after;
      StripLeaves(before[1..], s, after);
    } else if after != "" {
      assert all[..|all| - 1] == before + s + after[..|after| - 1];
      StripLeaves(before, s, after[..|after| - 1]);
    } else {
      assert all == s;
    }
  }

  lemma {:induction false} StripCuts(s: string) returns (before: string, after: string)
    ensures Blanks(before) && Blanks(after) && s == before + Strip(s) + after
    decreases |s|
  {
    before, after := "", "";
    if s == "" {
    } else if Blank(s[0]) {
      var inner: string;
      inner, after := StripCuts(s[1..]);
      before := [s[0]] + inner;
      assert s == [s[0]] + (inner + Strip(s[1..]) + after) == before + Strip(s[1..]) + after;
    } else if Blank(s[|s| - 1]) {
      var inner: string;
      before, inner := StripCuts(s[..|s| - 1]);
      after := inner + [s[|s| - 1]];
      assert s == (before + Strip(s[..|s| - 1]) + inner) + [s[|s| - 1]] == before + Strip(s[..|s| - 1]) + after;
    }
  }

  predicate Calm(s: string) {
    forall i :: 0 <= i < |s| ==> s[i] != ':' && s[i] != '\r' && s[i] != '\n'
  }

  lemma ExpectedIsCalm(name: string)
    requires name in EXPECTED
    ensures Calm(name) && Calm(EXPECTED[name])
    ensures var v := EXPECTED[name]; v != "" && !Blank(v[0]) && !Blank(v[|v| - 1])
  {
  }

  lemma WrittenFieldOk(f: Field)
    requires FieldWritten(f)
    ensures FieldOk(FieldText(f)) && Key(FieldText(f)) == Lower(f.name) && OneLine(FieldText(f))
  {
    hide Find, EXPECTED, Strip, At;
    var line, n := FieldText(f), |f.name|;
    var v := EXPECTED[Lower(f.name)];
    ExpectedIsCalm(Lower(f.name));
    forall i | 0 <= i < n ensures f.name[i] != ':' && f.name[i] != '\r' {
      assert Lower(f.name)[i] != ':' && Lower(f.name)[i] != '\r';
    }
    forall j | 0 <= j < |line| ensures (j < n ==> !At(line, ":", j)) && !At(line, CRLF, j) {
      ColonAt(line, j);
      AtChars(line, j);
      assert line[j] != '\r';
    }
    ColonAt(line, n);
    assert line[..n] == f.name;
    StripLeaves(f.before, v, f.after);
    assert line[n + 1..] == f.before + v + f.after;
  }

  lemma ColonAt(s: string, j: nat)
    ensures At(s, ":", j) <==> j < |s| && s[j] == ':'
  {
    if j < |s| {
      assert s[j..j + 1] == [s[j]];
    }
  }

  lemma OkFieldWritten(line: string) returns (f: Field)
    requires FieldOk(line)
    ensures FieldWritten(f) && FieldText(f) == line && Key(line) == Lower(f.name)
  {
    hide Find, EXPECTED, Strip, Lower;
    var n := Colon(line);
    ColonAt(line, n);
    var before, after := StripCuts(line[n + 1..]);
    f := Field(line[..n], before, after);
    assert line == line[..n] + ":" + line[n + 1..];
  }

  // ---------------------------------------------------------------------------------------------
  // Heads

  lemma WrittenHeadOk(fs: seq<Field>)
    requires Written(fs)
    ensures HeadOk(HeadText(fs))
  {
    hide FieldOk, Key, Lower, FieldText, FieldWritten, Join, Lines, OneLine, REQUEST_LINE;
    var lines := [REQUEST_LINE, FieldText(fs[0]), FieldText(fs[1]), FieldText(fs[2]), FieldText(fs[3])];
    RequestLineIsOne();
    forall i | 0 <= i < 4
      ensures FieldOk(FieldText(fs[i])) && Key(FieldText(fs[i])) == Lower(fs[i].name) && OneLine(FieldText(fs[i]))
    {
      WrittenFieldOk(fs[i]);
    }
    LinesOfJoin(lines);
    assert lines[1..] == [FieldText(fs[0]), FieldText(fs[1]), FieldText(fs[2]), FieldText(fs[3])];
  }

  lemma RequestLineIsOne()
    ensures OneLine(REQUEST_LINE)
  {
    hide At;
    forall j | 0 <= j < |REQUEST_LINE| ensures !At(REQUEST_LINE, CRLF, j) {
      AtChars(REQUEST_LINE, j);
    }
  }

  /** The accepted heads are exactly the written ones. */
  lemma AcceptedHeads(head: string)
    ensures HeadOk(head) <==> exists fs :: Written(fs) && HeadText(fs) == head
  {
    hide FieldOk, Key, Lower, FieldText, FieldWritten, Join, Lines, REQUEST_LINE;
    if HeadOk(head) {
      var lines := Lines(head);
      var fields := lines[1..];
      var f0 := OkFieldWritten(fields[0]);
      var f1 := OkFieldWritten(fields[1]);
      var f2 := OkFieldWritten(fields[2]);
      var f3 := OkFieldWritten(fields[3]);
      var fs := [f0, f1, f2, f3];
      assert forall i :: 0 <= i < 4 ==> Key(fields[i]) == Lower(fs[i].name);
      JoinOfLines(head);
      assert lines == [REQUEST_LINE, FieldText(f0), FieldText(f1), FieldText(f2), FieldText(f3)];
      assert Written(fs) && HeadText(fs) == head;
    }
    forall fs | Written(fs) ensures HeadOk(HeadText(fs)) {
      WrittenHeadOk(fs);
    }
  }

  // ---------------------------------------------------------------------------------------------
  // Heads of every length

  function Spaces(n: nat): string {
    seq(n, i => ' ')
  }

  /** The usual head with `n` more blanks. */
  function Padded(n: nat): seq<Field> {
    [Field("host", Spaces(n), ""), Field("content-type", "", ""), Field("content-length", "", ""),
     Field("connection", "", "")]
  }

  lemma LowerIsLower(s: string)
    requires forall i :: 0 <= i < |s| ==> !('A' <= s[i] <= 'Z')
    ensures Lower(s) == s
  {
  }

  lemma PaddedIsWritten(n: nat)
    ensures Written(Padded(n))
  {
    LowerIsLower("host");
    LowerIsLower("content-type");
    LowerIsLower("content-length");
    LowerIsLower("connection");
    hide Lower;
  }

  lemma HeadLength(fs: seq<Field>)
    requires Written(fs)
    ensures |HeadText(fs)|
         == |REQUEST_LINE| + 8 + |FieldText(fs[0])| + |FieldText(fs[1])| + |FieldText(fs[2])| + |FieldText(fs[3])|
  {
    hide REQUEST_LINE, FieldText, FieldWritten;
    var lines := [REQUEST_LINE, FieldText(fs[0]), FieldText(fs[1]), FieldText(fs[2]), FieldText(fs[3])];
    JoinLength(lines);
    JoinLength(lines[1..]);
    JoinLength(lines[2..]);
    JoinLength(lines[3..]);
    assert lines[3..][1..] == [FieldText(fs[3])];
  }

  lemma JoinLength(lines: seq<string>)
    requires |lines| >= 2
    ensures |Join(lines)| == |lines[0]| + 2 + |Join(lines[1..])|
  {
  }

  lemma FieldLength(name: string, before: string)
    requires name in EXPECTED && Lower(name) == name && Blanks(before)
    ensures |FieldText(Field(name, before, ""))| == |name| + 1 + |before| + |EXPECTED[name]|
  {
    hide EXPECTED;
  }

  lemma ExpectedLengths()
    ensures "host" in EXPECTED && |EXPECTED["host"]| == 22
    ensures "content-type" in EXPECTED && |EXPECTED["content-type"]| == 16
    ensures "content-length" in EXPECTED && |EXPECTED["content-length"]| == 2
    ensures "connection" in EXPECTED && |EXPECTED["connection"]| == 5
  {
  }

  /** There are accepted heads of every length from 133 on, so that every case of the limit does arise. */
  lemma HeadsOfEveryLength(n: nat) returns (head: string)
    requires n >= 133
    ensures HeadOk(head) && |head| == n
  {
    hide EXPECTED, HeadStop, Lower;
    var fs := Padded(n - 133);
    PaddedIsWritten(n - 133);
    ExpectedLengths();
    LowerIsLower("host");
    LowerIsLower("content-type");
    LowerIsLower("content-length");
    LowerIsLower("connection");
    FieldLength("host", Spaces(n - 133));
    FieldLength("content-type", "");
    FieldLength("content-length", "");
    FieldLength("connection", "");
    HeadLength(fs);
    head := HeadText(fs);
    WrittenHeadOk(fs);
  }

  // ---------------------------------------------------------------------------------------------
  // The usual head, as a client writes it

  lemma LowerNames()
    ensures Lower("Host") == "host" && Lower("Content-Type") == "content-type"
    ensures Lower("Content-Length") == "content-length" && Lower("Connection") == "connection"
  {
  }

  lemma UsualField(name: string, lower: string, value: string)
    requires Lower(name) == lower && lower in EXPECTED && EXPECTED[lower] == value
    ensures FieldWritten(Field(name, " ", "")) && FieldText(Field(name, " ", "")) == name + ": " + value
  {
    hide EXPECTED, Lower;
    assert name + ":" + " " == name + ": ";
  }

  lemma ExpectedValues()
    ensures "host" in EXPECTED && EXPECTED["host"] == "origin-counter.invalid"
    ensures "content-type" in EXPECTED && EXPECTED["content-type"] == "application/json"
    ensures "content-length" in EXPECTED && EXPECTED["content-length"] == "21"
    ensures "connection" in EXPECTED && EXPECTED["connection"] == "close"
    ensures REQUEST_LINE == "POST /internal/origin-count HTTP/1.0"
  {
  }

  lemma JoinFive(a: string, b: string, c: string, d: string, e: string)
    ensures Join([a, b, c, d, e]) == a + "\r\n" + (b + "\r\n" + (c + "\r\n" + (d + "\r\n" + e)))
  {
    assert [a, b, c, d, e][1..] == [b, c, d, e] && [b, c, d, e][1..] == [c, d, e];
    assert [c, d, e][1..] == [d, e] && [d, e][1..] == [e];
    assert Join([e]) == e;
    assert Join([d, e]) == d + "\r\n" + e;
    assert Join([c, d, e]) == c + "\r\n" + (d + "\r\n" + e);
    assert Join([b, c, d, e]) == b + "\r\n" + (c + "\r\n" + (d + "\r\n" + e));
  }

  lemma NamesDiffer()
    ensures "host" != "content-type" && "host" != "content-length" && "host" != "connection"
    ensures "content-type" != "content-length" && "content-type" != "connection" && "content-length" != "connection"
  {
    assert |"host"| == 4 && |"content-type"| == 12 && |"content-length"| == 14 && |"connection"| == 10;
  }

  /** This head is accepted. */
  lemma UsualHead()
    ensures HeadOk("POST /internal/origin-count HTTP/1.0" + "\r\n"
                   + ("Host: " + "origin-counter.invalid" + "\r\n"
                      + ("Content-Type: " + "application/json" + "\r\n"
                         + ("Content-Length: " + "21" + "\r\n" + ("Connection: " + "close")))))
  {
    hide EXPECTED, Lower, HeadStop, Join, REQUEST_LINE, FieldWritten, FieldText;
    LowerNames();
    ExpectedValues();
    UsualField("Host", "host", "origin-counter.invalid");
    UsualField("Content-Type", "content-type", "application/json");
    UsualField("Content-Length", "content-length", "21");
    UsualField("Connection", "connection", "close");
    NamesDiffer();
    var fs := [Field("Host", " ", ""), Field("Content-Type", " ", ""), Field("Content-Length", " ", ""),
               Field("Connection", " ", "")];
    JoinFive(REQUEST_LINE, FieldText(fs[0]), FieldText(fs[1]), FieldText(fs[2]), FieldText(fs[3]));
    UsualTexts();
    WrittenHeadOk(fs);
  }

  lemma UsualTexts()
    ensures "Host" + ": " + "origin-counter.invalid" == "Host: " + "origin-counter.invalid"
    ensures "Content-Type" + ": " + "application/json" == "Content-Type: " + "application/json"
    ensures "Content-Length" + ": " + "21" == "Content-Length: " + "21"
    ensures "Connection" + ": " + "close" == "Connection: " + "close"
  {
    assert "Host" + ": " == "Host: " && "Content-Type" + ": " == "Content-Type: ";
    assert "Content-Length" + ": " == "Content-Length: " && "Connection" + ": " == "Connection: ";
  }
}
