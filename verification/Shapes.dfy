/** Value shapes shared by the scripts: the identifiers their regular expressions accept,
    and the result of a check that stops with a fixed code. */
module Shapes {

  datatype Option<+T> = None | Some(value: T)

  /** A call either returns a value or raises a stop that carries only a fixed code. */
  datatype Result<+T> = Ok(value: T) | Stop(code: string)

  /** What a call to an untrusted provider comes back with: an exception, or some value. */
  datatype Answer<+T> = Raised | Replied(value: T)

  predicate IsHexDigit(c: char) {
    '0' <= c <= '9' || 'a' <= c <= 'f'
  }

  predicate AllHex(s: string) {
    forall i :: 0 <= i < |s| ==> IsHexDigit(s[i])
  }

  /** `[0-9a-f]{64}` */
  predicate IsSha256(s: string) {
    |s| == 64 && AllHex(s)
  }

  lemma HexParts(a: string, b: string)
    requires AllHex(a) && AllHex(b)
    ensures AllHex(a + b)
  {
  }

  /** A digest written in four parts. */
  lemma DigestOfParts(a: string, b: string, c: string, d: string)
    requires |a| == |b| == |c| == |d| == 16 && AllHex(a) && AllHex(b) && AllHex(c) && AllHex(d)
    ensures IsSha256(a + b + c + d)
  {
    HexParts(a, b);
    HexParts(a + b, c);
    HexParts(a + b + c, d);
  }

  /** `[0-9a-f]{32}` */
  predicate IsHex32(s: string) {
    |s| == 32 && AllHex(s)
  }

  /** `[0-9a-f]{8}-(?:[0-9a-f]{4}-){3}[0-9a-f]{12}` */
  predicate IsUuid(s: string) {
    |s| == 36
    && forall i :: 0 <= i < 36 ==>
         if i == 8 || i == 13 || i == 18 || i == 23 then s[i] == '-' else IsHexDigit(s[i])
  }

  const HEX := ['0', '1', '2', '3', '4', '5', '6', '7', '8', '9', 'a', 'b', 'c', 'd', 'e', 'f']

  /** Every character is one of the sixteen. */
  ghost predicate InHex(s: string) {
    forall c :: c in s ==> c in HEX
  }

  lemma HexDigits(c: char)
    ensures IsHexDigit(c) <==> c in HEX
  {
  }

  lemma HexIs(s: string)
    ensures AllHex(s) <==> InHex(s)
  {
    hide IsHexDigit, HEX;
    forall c ensures IsHexDigit(c) <==> c in HEX {
      HexDigits(c);
    }
    assert forall i :: 0 <= i < |s| ==> s[i] in s;
  }

  /** Five groups of such characters with hyphens between them. */
  ghost predicate Grouped(s: string, a: string, b: string, c: string, d: string, e: string) {
    |a| == 8 && |b| == 4 && |c| == 4 && |d| == 4 && |e| == 12
    && InHex(a) && InHex(b) && InHex(c) && InHex(d) && InHex(e)
    && s == a + ['-'] + b + ['-'] + c + ['-'] + d + ['-'] + e
  }

  /** What passes for a digest, and for an id of the two kinds. */
  lemma ShapesAre(s: string)
    ensures IsSha256(s) <==> |s| == 64 && InHex(s)
    ensures IsHex32(s) <==> |s| == 32 && InHex(s)
    ensures IsUuid(s) <==> exists a, b, c, d, e :: Grouped(s, a, b, c, d, e)
  {
    hide InHex, IsHexDigit;
    HexIs(s);
    if IsUuid(s) {
      var a, b, c, d, e := s[..8], s[9..13], s[14..18], s[19..23], s[24..];
      HexIs(a);
      HexIs(b);
      HexIs(c);
      HexIs(d);
      HexIs(e);
      assert s == a + ['-'] + b + ['-'] + c + ['-'] + d + ['-'] + e;
      assert Grouped(s, a, b, c, d, e);
    }
    forall a, b, c, d, e | Grouped(s, a, b, c, d, e) ensures IsUuid(s) {
      HexIs(a);
      HexIs(b);
      HexIs(c);
      HexIs(d);
      HexIs(e);
      assert s[..8] == a && s[9..13] == b && s[14..18] == c && s[19..23] == d && s[24..] == e;
    }
  }
}
