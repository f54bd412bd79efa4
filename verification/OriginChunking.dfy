/** How the reader depends on the sizes in which a request arrives. */
module OriginChunking {
  import opened Shapes
  import opened OriginReader

  /** Bytes are at hand at every receive, before the deadline. */
  predicate Timely(w: Wire) {
    |w.plan| >= |w.stream| && forall i :: 0 <= i < |w.plan| ==> w.plan[i] > 0
  }

  function Message(head: string, id: string): string {
    head + END + Body(id)
  }

  // ---------------------------------------------------------------------------------------------
  // Where the head ends

  predicate NoBlankLine(s: string) {
    forall l :: l in Lines(s) ==> l != ""
  }

  lemma AtChars(s: string, j: nat)
    ensures At(s, CRLF, j) <==> j + 2 <= |s| && s[j] == '\r' && s[j + 1] == '\n'
    ensures At(s, END, j) <==>
              j + 4 <= |s| && s[j] == '\r' && s[j + 1] == '\n' && s[j + 2] == '\r' && s[j + 3] == '\n'
  {
    if j + 2 <= |s| {
      var t := s[j..j + 2];
      assert t[0] == s[j] && t[1] == s[j + 1];
    }
    if j + 4 <= |s| {
      var t := s[j..j + 4];
      assert t[0] == s[j] && t[1] == s[j + 1] && t[2] == s[j + 2] && t[3] == s[j + 3];
    }
  }

  /** No blank line begins in `s`, nor at its end when one more line break follows. */
  predicate EndsNowhere(s: string) {
    (forall j :: 0 <= j < |s| ==> !At(s, END, j)) && (|s| >= 2 ==> !At(s, CRLF, |s| - 2))
  }

  lemma EndsNowhereAfter(s: string, i: nat)
    requires i + 2 < |s| && At(s, CRLF, i) && !At(s, CRLF, i + 2) && EndsNowhere(s[i + 2..])
    requires forall j :: 0 <= j < i ==> !At(s, CRLF, j)
    ensures EndsNowhere(s)
  {
    hide At;
    var rest := s[i + 2..];
    AtChars(s, i);
    forall j | 0 <= j < |s| ensures !At(s, END, j) {
      AtChars(s, j);
      AtChars(s, j + 2);
      if j >= i + 2 {
        AtChars(rest, j - i - 2);
      }
    }
    AtChars(s, |s| - 2);
    if |rest| >= 2 {
      AtChars(rest, |rest| - 2);
    }
  }

  lemma {:induction false} NoBlankLineNoEnd(s: string)
    requires NoBlankLine(s)
    ensures EndsNowhere(s)
    decreases |s|
  {
    hide Lines, Find, EndsNowhere, At;
    LinesAre(s);
    var i := Find(s, CRLF);
    if i < |s| {
      AtChars(s, i);
      AtChars(s, i + 2);
      var rest := s[i + 2..];
      LinesAre(rest);
      AtChars(rest, 0);
      forall l | l in Lines(rest) ensures l != "" {
        assert l in Lines(s);
      }
      assert Lines(rest)[0] in Lines(rest);
      assert Find(rest, CRLF) > 0;
      NoBlankLineNoEnd(rest);
      EndsNowhereAfter(s, i);
    } else {
      NoCutNoEnd(s);
    }
  }

  lemma NoCutNoEnd(s: string)
    requires forall j :: 0 <= j < |s| ==> !At(s, CRLF, j)
    ensures EndsNowhere(s)
  {
    hide At;
    forall j | 0 <= j < |s| ensures !At(s, END, j) {
      AtChars(s, j);
    }
  }

  lemma LinesWhole(s: string)
    requires Find(s, CRLF) == |s|
    ensures Lines(s) == [s]
  {
    hide Find, At;
  }

  lemma LinesCut(s: string, i: nat)
    requires i == Find(s, CRLF) && i < |s| && i + 2 <= |s|
    ensures Lines(s) == [s[..i]] + Lines(s[i + 2..])
  {
    hide Find, At;
  }

  lemma LinesAre(s: string)
    ensures var i := Find(s, CRLF);
            (i < |s| ==> i + 2 <= |s|)
            && Lines(s) == if i == |s| then [s] else [s[..i]] + Lines(s[i + 2..])
    ensures Lines(s) != [] && Lines(s)[0] == s[..Find(s, CRLF)]
  {
    hide Find, Lines;
    var i := Find(s, CRLF);
    if i == |s| {
      LinesWhole(s);
    } else {
      AtChars(s, i);
      LinesCut(s, i);
    }
  }

  lemma HeadHasNoBlankLine(head: string)
    requires HeadOk(head)
    ensures NoBlankLine(head)
  {
    hide Lines, FieldOk, REQUEST_LINE;
    var lines := Lines(head);
    forall l | l in lines ensures l != "" {
      var i :| 0 <= i < |lines| && lines[i] == l;
      NotBlank(l);
      if i > 0 {
        assert FieldOk(lines[1..][i - 1]);
      }
    }
  }

  lemma NotBlank(line: string)
    ensures line == REQUEST_LINE || FieldOk(line) ==> line != ""
  {
    hide Key, FieldValue, EXPECTED, Find;
  }

  lemma NoEarlierEnd(head: string, tail: string, j: nat)
    requires HeadOk(head) && j < |head|
    ensures !At(head + END + tail, END, j)
  {
    hide HeadStop, Lines, Find, At;
    HeadHasNoBlankLine(head);
    NoBlankLineNoEnd(head);
    AtChars(head + END + tail, j);
    AtChars(head, j);
    if |head| >= 2 {
      AtChars(head, |head| - 2);
    }
  }

  /** In a message as far as it has come, the blank line is behind the head or not there yet. */
  lemma FindInMessage(head: string, tail: string, data: string)
    requires HeadOk(head) && data <= head + END + tail
    ensures Find(data, END) == if |data| >= |head| + 4 then |head| else |data|
  {
    hide HeadStop, Find, At;
    var all := head + END + tail;
    var at := Find(data, END);
    AtChars(data, at);
    AtChars(all, at);
    AtChars(all, |head|);
    AtChars(data, |head|);
    if at < |head| {
      NoEarlierEnd(head, tail, at);
    }
  }

  // ---------------------------------------------------------------------------------------------
  // Every chunking

  lemma {:induction false} HeadArrives(head: string, tail: string, data: string, w: Wire, limit: nat)
    requires HeadOk(head) && |head| + 3 <= limit && |tail| <= 21
    requires data + w.stream == head + END + tail && Timely(w)
    requires Find(data, END) <= limit
    ensures var (r, rest) := HeadRun(data, w, limit);
            r.Ok? && r.value.0 == head && r.value.1 + rest.stream == tail && Timely(rest)
    decreases |w.plan|
  {
    hide HeadStop, Timely, Find;
    TimelyGoesOn(w, Least(256, limit + 25 - |data|));
    assert data <= head + END + tail;
    FindInMessage(head, tail, data);
    if |data| >= |head| + 4 {
      assert data[..|head|] == head;
      assert data[|head| + 4..] + w.stream == (data + w.stream)[|head| + 4..] == tail;
    } else {
      var size := Least(256, limit + 25 - |data|);
      var n := Chunk(w, size);
      var more := data + w.stream[..n];
      assert more + w.stream[n..] == head + END + tail;
      assert more <= head + END + tail;
      FindInMessage(head, tail, more);
      HeadArrives(head, tail, more, Rest(w, size), limit);
    }
  }

  lemma TimelyGoesOn(w: Wire, size: nat)
    requires Timely(w) && size > 0
    ensures w.stream != "" ==> !Late(w) && Chunk(w, size) > 0 && Timely(Rest(w, size))
  {
  }

  lemma {:induction false} BodyArrives(id: string, body: string, w: Wire)
    requires IsPageId(id) && body + w.stream == Body(id) && Timely(w)
    ensures var (r, rest) := BodyRun(body, w);
            r == Ok(id) && rest.stream == ""
    decreases |w.plan|
  {
    hide Timely, Carried;
    if |body| >= 21 {
      assert body == Body(id) && w.stream == "";
      BodyCarries(id);
    } else {
      var size := 22 - |body|;
      TimelyGoesOn(w, size);
      var n := Chunk(w, size);
      assert body + w.stream[..n] + w.stream[n..] == Body(id);
      BodyArrives(id, body + w.stream[..n], Rest(w, size));
    }
  }

  lemma BodyCarries(id: string)
    requires IsPageId(id)
    ensures |Body(id)| == 21 && Carried(Body(id)) == Some(id)
  {
    assert Body(id)[12..19] == id;
  }

  /** A canonical message whose head leaves three bytes below the limit is accepted in every chunking. */
  lemma EveryChunkingAccepted(head: string, id: string, w: Wire)
    requires HeadOk(head) && |head| <= MAX_HEADER - 3 && IsPageId(id)
    requires w.stream == Message(head, id) && Timely(w)
    ensures MessageRun(w).0 == Ok(id) && MessageRun(w).1.stream == ""
  {
    hide HeadRun, BodyRun, Timely, Carried, Body;
    BodyCarries(id);
    assert "" + w.stream == head + END + Body(id);
    HeadArrives(head, Body(id), "", w, MAX_HEADER);
    var (r, rest) := HeadRun("", w, MAX_HEADER);
    BodyArrives(id, r.value.1, rest);
  }

  // ---------------------------------------------------------------------------------------------
  // The chunkings that matter

  /** One receive of a head that is not complete yet. */
  lemma HeadStep(head: string, tail: string, taken: nat, n: nat, plan: seq<nat>, limit: nat)
    requires HeadOk(head) && taken < |head| + 4 && taken <= limit
    requires 0 < n <= 256 && taken + n <= limit + 25 && taken + n <= |head| + 4 + |tail|
    ensures var all := head + END + tail;
            var (before, after) := (all[..taken], all[..taken + n]);
            Find(before, END) <= limit
            && HeadRun(before, Wire(all[taken..], [n] + plan), limit)
            == if Find(after, END) > limit then (Stop("HEADER_LIMIT"), Wire(all[taken + n..], plan))
               else HeadRun(after, Wire(all[taken + n..], plan), limit)
  {
    hide HeadStop, Find;
    var all := head + END + tail;
    FindInMessage(head, tail, all[..taken]);
    var w := Wire(all[taken..], [n] + plan);
    assert w.stream[..n] == all[taken..taken + n] && all[..taken] + w.stream[..n] == all[..taken + n];
    assert w.stream[n..] == all[taken + n..];
    assert w.plan[1..] == plan;
  }

  lemma HeadDone(head: string, tail: string, taken: nat, plan: seq<nat>, limit: nat)
    requires HeadOk(head) && |head| + 4 <= taken <= |head| + 4 + |tail| && |head| <= limit
    ensures var all := head + END + tail;
            Find(all[..taken], END) <= limit
            && HeadRun(all[..taken], Wire(all[taken..], plan), limit)
            == (Ok((head, tail[..taken - |head| - 4])), Wire(tail[taken - |head| - 4..], plan))
  {
    hide HeadStop, Find;
    var all := head + END + tail;
    FindInMessage(head, tail, all[..taken]);
    assert all[..taken][..|head|] == head && all[..taken][|head| + 4..] == tail[..taken - |head| - 4];
    assert all[taken..] == tail[taken - |head| - 4..];
  }

  /** Exactly the heads with three bytes to spare are accepted in every chunking, and exactly the heads
      within the limit are accepted in some. */
  lemma ChunkingDecides(head: string, id: string)
    requires HeadOk(head) && IsPageId(id)
    ensures (forall plan :: Timely(Wire(Message(head, id), plan)) ==>
                              MessageRun(Wire(Message(head, id), plan)).0 == Ok(id))
            <==> |head| <= MAX_HEADER - 3
    ensures (exists plan :: Timely(Wire(Message(head, id), plan)) && MessageRun(Wire(Message(head, id), plan)).0.Ok?)
            <==> |head| <= MAX_HEADER
  {
    hide HeadStop, HeadRun, Find, BodyRun, Timely, Carried, Body;
    var all := Message(head, id);
    BodyCarries(id);
    if |head| <= MAX_HEADER - 3 {
      forall plan | Timely(Wire(all, plan)) ensures MessageRun(Wire(all, plan)).0 == Ok(id) {
        EveryChunkingAccepted(head, id, Wire(all, plan));
      }
      assert Timely(Wire(all, Ones(|all|))) by {
        OnesAreTimely(all, []);
        assert [] + Ones(|all|) == Ones(|all|);
      }
    } else if |head| <= MAX_HEADER {
      LongHeadRefused(head, id);
      LongHeadAccepted(head, id);
    } else {
      forall plan ensures !MessageRun(Wire(all, plan)).0.Ok? {
        if MessageRun(Wire(all, plan)).0.Ok? {
          var other := AcceptedIsCanonical(Wire(all, plan));
          var rest := MessageRun(Wire(all, plan)).1.stream;
          SameHead(head, Body(id), other, Body(MessageRun(Wire(all, plan)).0.value) + rest);
        }
      }
      assert Timely(Wire(all, Ones(|all|))) by {
        OnesAreTimely(all, []);
        assert [] + Ones(|all|) == Ones(|all|);
      }
    }
  }

  lemma SameHead(a: string, aTail: string, b: string, bTail: string)
    requires HeadOk(a) && HeadOk(b) && a + END + aTail == b + END + bTail
    ensures a == b
  {
    hide HeadStop, Find;
    var all := a + END + aTail;
    FindInMessage(a, aTail, all);
    FindInMessage(b, bTail, all);
    assert a == all[..|a|] && b == all[..|b|];
  }

  function Ones(n: nat): seq<nat> {
    seq(n, i => 1)
  }

  lemma OnesAreTimely(stream: string, first: seq<nat>)
    requires forall i :: 0 <= i < |first| ==> first[i] > 0
    ensures Timely(Wire(stream, first + Ones(|stream|)))
  {
  }

  /** 256, 256 and then a single byte: the head is found too long before its end is seen. */
  lemma LongHeadRefused(head: string, id: string)
    requires HeadOk(head) && IsPageId(id) && MAX_HEADER - 3 < |head| <= MAX_HEADER
    ensures exists plan :: Timely(Wire(Message(head, id), plan))
                           && MessageRun(Wire(Message(head, id), plan)).0 == Stop("HEADER_LIMIT")
  {
    hide HeadStop, HeadRun, Find, Carried, Body, Timely;
    var all, tail := Message(head, id), Body(id);
    BodyCarries(id);
    var ones := Ones(|all|);
    OnesAreTimely(all, [256, 256, 1]);
    assert [256, 256, 1] + ones == [256] + ([256] + ([1] + ones));
    HeadStep(head, tail, 0, 256, [256] + ([1] + ones), MAX_HEADER);
    HeadStep(head, tail, 256, 256, [1] + ones, MAX_HEADER);
    HeadStep(head, tail, 512, 1, ones, MAX_HEADER);
    FindInMessage(head, tail, all[..256]);
    FindInMessage(head, tail, all[..512]);
    FindInMessage(head, tail, all[..513]);
    assert all[..0] == "" && all[0..] == all;
    assert MessageRun(Wire(all, [256, 256, 1] + ones)).0 == Stop("HEADER_LIMIT");
  }

  /** 256, 250 and then the rest at once. */
  lemma LongHeadAccepted(head: string, id: string)
    requires HeadOk(head) && IsPageId(id) && MAX_HEADER - 3 < |head| <= MAX_HEADER
    ensures exists plan :: Timely(Wire(Message(head, id), plan)) && MessageRun(Wire(Message(head, id), plan)).0.Ok?
  {
    hide HeadStop, HeadRun, Find, Carried, Body, Timely;
    var all, tail := Message(head, id), Body(id);
    BodyCarries(id);
    var ones := Ones(|all|);
    var n := |all| - 506;
    OnesAreTimely(all, [256, 250, n]);
    assert [256, 250, n] + ones == [256] + ([250] + ([n] + ones));
    HeadStep(head, tail, 0, 256, [250] + ([n] + ones), MAX_HEADER);
    HeadStep(head, tail, 256, 250, [n] + ones, MAX_HEADER);
    HeadStep(head, tail, 506, n, ones, MAX_HEADER);
    FindInMessage(head, tail, all[..256]);
    FindInMessage(head, tail, all[..506]);
    FindInMessage(head, tail, all[..|all|]);
    HeadDone(head, tail, |all|, ones, MAX_HEADER);
    assert all[..0] == "" && all[0..] == all && tail[..21] == tail;
    assert MessageRun(Wire(all, [256, 250, n] + ones)).0 == Ok(id);
  }

  // ---------------------------------------------------------------------------------------------
  // Bytes behind the request

  lemma {:induction false} ByteByByte(head: string, tail: string, taken: nat, after: seq<nat>, limit: nat)
    requires HeadOk(head) && |head| + 3 <= limit && taken <= |head| + 4
    ensures var all := head + END + tail;
            Find(all[..taken], END) <= limit
            && HeadRun(all[..taken], Wire(all[taken..], Ones(|head| + 4 - taken) + after), limit)
            == (Ok((head, "")), Wire(tail, after))
    decreases |head| + 4 - taken
  {
    hide HeadStop, HeadRun;
    var all := head + END + tail;
    if taken == |head| + 4 {
      HeadDone(head, tail, taken, after, limit);
      assert Ones(0) + after == after && tail[..0] == "" && tail[0..] == tail;
    } else {
      var plan := Ones(|head| + 4 - taken - 1) + after;
      assert Ones(|head| + 4 - taken) + after == [1] + plan;
      HeadStep(head, tail, taken, 1, plan, limit);
      ByteByByte(head, tail, taken + 1, after, limit);
    }
  }

  /** Whether bytes sent behind a request make it fail depends on the chunking alone. */
  lemma TrailingBytesDepend(head: string, id: string, extra: string)
    requires HeadOk(head) && |head| <= MAX_HEADER - 3 && IsPageId(id) && extra != ""
    ensures exists plan :: MessageRun(Wire(Message(head, id) + extra, plan)) == (Ok(id), Wire(extra, []))
    ensures exists plan :: MessageRun(Wire(Message(head, id) + extra, plan)).0 == Stop("WIRE_BODY")
  {
    hide HeadStop, HeadRun, Find, Body, Carried;
    var tail := Body(id) + extra;
    var all := head + END + tail;
    assert Message(head, id) + extra == all;
    BodyCarries(id);
    assert all[..0] == "" && all[0..] == all;
    ByteByByte(head, tail, 0, [21], MAX_HEADER);
    ByteByByte(head, tail, 0, [22], MAX_HEADER);
    TailRuns(id, extra);
    assert MessageRun(Wire(all, Ones(|head| + 4) + [21])) == (Ok(id), Wire(extra, []));
    assert MessageRun(Wire(all, Ones(|head| + 4) + [22])).0 == Stop("WIRE_BODY");
  }

  lemma TailRuns(id: string, extra: string)
    requires IsPageId(id) && extra != ""
    ensures BodyRun("", Wire(Body(id) + extra, [21])) == (Ok(id), Wire(extra, []))
    ensures BodyRun("", Wire(Body(id) + extra, [22])).0 == Stop("WIRE_BODY")
  {
    hide Body, Carried;
    BodyCarries(id);
    var tail := Body(id) + extra;
    assert "" + tail[..21] == Body(id) && tail[21..] == extra;
    assert |"" + tail[..22]| == 22;
    assert Carried("" + tail[..22]).None? by { LongCarriesNone("" + tail[..22]); }
    assert BodyRun(Body(id), Wire(extra, [])) == (Ok(id), Wire(extra, []));
    var w := Wire(tail, [21]);
    assert Rest(w, 22) == Wire(extra, []);
    var v := Wire(tail, [22]);
    assert Chunk(v, 22) == 22;
  }

  lemma LongCarriesNone(body: string)
    ensures |body| != 21 ==> Carried(body).None?
  {
  }
}
