/** Unpadded base64url (RFC 4648, section 5) as the wire format accepts it, and the signed message frame. */
module Wire {
  import opened Wrappers

  type Byte = b: int | 0 <= b < 256
  type Sextet = v: int | 0 <= v < 64

  datatype Refusal = InvalidBase64

  // ----- The alphabet -----

  function Symbol(v: Sextet): (c: char)
    ensures InAlphabet(c) && Value(c) == v
  {
    if v < 26 then 'A' + v as char
    else if v < 52 then 'a' + (v - 26) as char
    else if v < 62 then '0' + (v - 52) as char
    else if v == 62 then '-'
    else '_'
  }

  predicate InAlphabet(c: char) {
    'A' <= c <= 'Z' || 'a' <= c <= 'z' || '0' <= c <= '9' || c == '-' || c == '_'
  }

  function Value(c: char): Sextet
    requires InAlphabet(c)
  {
    if 'A' <= c <= 'Z' then c as int - 'A' as int
    else if 'a' <= c <= 'z' then c as int - 'a' as int + 26
    else if '0' <= c <= '9' then c as int - '0' as int + 52
    else if c == '-' then 62
    else 63
  }

  lemma SymbolOfValue(c: char)
    requires InAlphabet(c)
    ensures Symbol(Value(c)) == c
  {
  }

  const UPPER := "ABCDEFGHIJKLMNOPQRSTUVWXYZ"
  const LOWER := "abcdefghijklmnopqrstuvwxyz"
  const DIGITS := "0123456789"

  /** The symbols are the alphabet of RFC 4648, section 5, in its order. */
  lemma SymbolsAreTheAlphabet(v: Sextet)
    ensures Symbol(v) == if v < 26 then UPPER[v] else if v < 52 then LOWER[v - 26]
                         else if v < 62 then DIGITS[v - 52] else "-_"[v - 62]
  {
    if v < 26 {
      assert UPPER[v] == 'A' + v as char;
    } else if v < 52 {
      assert LOWER[v - 26] == 'a' + (v - 26) as char;
    }
  }

  predicate AllInAlphabet(s: string) {
    forall i :: 0 <= i < |s| ==> InAlphabet(s[i])
  }

  // ----- Three bytes are four six-bit values -----

  function V1(a: Byte): Sextet { a / 4 }
  function V2(a: Byte, b: Byte): Sextet { a % 4 * 16 + b / 16 }
  function V3(b: Byte, c: Byte): Sextet { b % 16 * 4 + c / 64 }
  function V4(c: Byte): Sextet { c % 64 }

  function B1(w: Sextet, x: Sextet): Byte { w * 4 + x / 16 }
  function B2(x: Sextet, y: Sextet): Byte { x % 16 * 16 + y / 4 }
  function B3(y: Sextet, z: Sextet): Byte { y % 4 * 64 + z }

  lemma BytesBack(a: Byte, b: Byte, c: Byte)
    ensures B1(V1(a), V2(a, b)) == a && B2(V2(a, b), V3(b, c)) == b && B3(V3(b, c), V4(c)) == c
  {
  }

  lemma ValuesBack(w: Sextet, x: Sextet, y: Sextet, z: Sextet)
    ensures V1(B1(w, x)) == w && V2(B1(w, x), B2(x, y)) == x && V3(B2(x, y), B3(y, z)) == y && V4(B3(y, z)) == z
    ensures V2(B1(w, x), 0) == x <==> x % 16 == 0
    ensures V3(B2(x, y), 0) == y <==> y % 4 == 0
  {
  }

  /** Three bytes and the four values that stand for them are one 24-bit number, most significant first. */
  lemma SameBits(a: Byte, b: Byte, c: Byte)
    ensures 65536 * a + 256 * b + c == 262144 * V1(a) + 4096 * V2(a, b) + 64 * V3(b, c) + V4(c)
  {
  }

  function Pack(d: seq<Byte>): seq<Sextet> {
    if d == [] then []
    else if |d| == 1 then [V1(d[0]), V2(d[0], 0)]
    else if |d| == 2 then [V1(d[0]), V2(d[0], d[1]), V3(d[1], 0)]
    else [V1(d[0]), V2(d[0], d[1]), V3(d[1], d[2]), V4(d[2])] + Pack(d[3..])
  }

  /** Bits left over at the end are dropped. */
  function Unpack(v: seq<Sextet>): seq<Byte>
    requires |v| % 4 != 1
  {
    if v == [] then []
    else if |v| == 2 then [B1(v[0], v[1])]
    else if |v| == 3 then [B1(v[0], v[1]), B2(v[1], v[2])]
    else [B1(v[0], v[1]), B2(v[1], v[2]), B3(v[2], v[3])] + Unpack(v[4..])
  }

  // ----- Encoding and decoding -----

  function Symbols(v: seq<Sextet>): string {
    seq(|v|, i requires 0 <= i < |v| => Symbol(v[i]))
  }

  function Values(s: string): seq<Sextet>
    requires AllInAlphabet(s)
  {
    seq(|s|, i requires 0 <= i < |s| => Value(s[i]))
  }

  lemma SymbolsBack(v: seq<Sextet>)
    ensures AllInAlphabet(Symbols(v)) && Values(Symbols(v)) == v
  {
  }

  lemma ValuesOfSymbols(s: string)
    requires AllInAlphabet(s)
    ensures Symbols(Values(s)) == s
  {
    forall i | 0 <= i < |s| ensures Symbol(Value(s[i])) == s[i] { SymbolOfValue(s[i]); }
  }

  function Encode(d: seq<Byte>): string {
    Symbols(Pack(d))
  }

  /** A single left-over symbol is an error. */
  function Decode(s: string): Option<seq<Byte>>
    requires AllInAlphabet(s)
  {
    if |s| % 4 == 1 then None else Some(Unpack(Values(s)))
  }

  /** Accept only what encoding could have produced, within the size bound. */
  function Accept(s: string, maximum: nat): Result<seq<Byte>, Refusal> {
    var bounded := 0 < |s| <= (4 * maximum + 2) / 3 && AllInAlphabet(s);
    :- Need(bounded, InvalidBase64);
    var decoded := Decode(s);
    :- Need(decoded.Some? && |decoded.value| <= maximum && Encode(decoded.value) == s, InvalidBase64);
    Success(decoded.value)
  }

  // ----- Laws -----

  lemma {:induction false} PackedLength(d: seq<Byte>)
    ensures |Pack(d)| == (4 * |d| + 2) / 3
  {
    hide V1, V2, V3, V4;
    if |d| >= 3 { PackedLength(d[3..]); }
  }

  /** The length bound is the length of the longest encoding allowed, exactly. */
  lemma EncodedLength(d: seq<Byte>)
    ensures |Encode(d)| == (4 * |d| + 2) / 3
  {
    PackedLength(d);
  }

  lemma UnpackFour(s: seq<Sextet>)
    requires |s| >= 4 && |s| % 4 != 1
    ensures Unpack(s) == [B1(s[0], s[1]), B2(s[1], s[2]), B3(s[2], s[3])] + Unpack(s[4..])
  {
    hide B1, B2, B3;
  }

  lemma ThreeAndRest(d: seq<Byte>)
    requires |d| >= 3
    ensures [d[0], d[1], d[2]] + d[3..] == d
  {
  }

  lemma PackThree(d: seq<Byte>)
    requires |d| >= 3
    ensures Pack(d) == [V1(d[0]), V2(d[0], d[1]), V3(d[1], d[2]), V4(d[2])] + Pack(d[3..])
  {
    hide V1, V2, V3, V4;
  }

  lemma UnpackQuantum(d: seq<Byte>)
    requires |d| >= 3 && |Pack(d[3..])| % 4 != 1
    ensures |Pack(d)| % 4 != 1 && Unpack(Pack(d)) == [d[0], d[1], d[2]] + Unpack(Pack(d[3..]))
  {
    hide Pack, Unpack, V1, V2, V3, V4, B1, B2, B3;
    PackThree(d);
    BytesBack(d[0], d[1], d[2]);
    var s := Pack(d);
    assert s[4..] == Pack(d[3..]);
    UnpackFour(s);
  }

  lemma {:induction false} UnpackPacked(d: seq<Byte>)
    ensures |Pack(d)| % 4 != 1 && Unpack(Pack(d)) == d
  {
    hide V1, V2, V3, V4, B1, B2, B3;
    PackedLength(d);
    if |d| >= 3 {
      UnpackPacked(d[3..]);
      UnpackQuantum(d);
      ThreeAndRest(d);
    } else if |d| > 0 {
      UnpackShort(d);
    }
  }

  lemma UnpackShort(d: seq<Byte>)
    requires 1 <= |d| <= 2
    ensures |Pack(d)| % 4 != 1 && Unpack(Pack(d)) == d
  {
    hide V1, V2, V3, V4, B1, B2, B3;
    if |d| == 2 {
      BytesBack(d[0], d[1], 0);
      assert d == [d[0], d[1]];
    } else {
      BytesBack(d[0], 0, 0);
      assert d == [d[0]];
    }
  }

  lemma DecodeEncoded(d: seq<Byte>)
    ensures AllInAlphabet(Encode(d)) && Decode(Encode(d)) == Some(d)
  {
    UnpackPacked(d);
    SymbolsBack(Pack(d));
  }

  /** No bits are left over after the last whole byte. */
  predicate TailClear(v: seq<Sextet>) {
    && |v| % 4 != 1
    && (|v| % 4 == 2 ==> v[|v| - 1] % 16 == 0)
    && (|v| % 4 == 3 ==> v[|v| - 1] % 4 == 0)
  }

  /** Unpacking loses nothing exactly when no bits are left over. */
  lemma {:induction false} PackUnpacked(v: seq<Sextet>)
    requires |v| % 4 != 1
    ensures Pack(Unpack(v)) == v <==> TailClear(v)
  {
    hide Pack, Unpack, TailClear;
    if |v| >= 4 {
      PackUnpacked(v[4..]);
      PackQuantum(v);
      TailOfRest(v);
    } else {
      PackShort(v);
    }
  }

  lemma TailOfRest(v: seq<Sextet>)
    requires |v| >= 4
    ensures TailClear(v) <==> TailClear(v[4..])
  {
    assert |v| > 4 ==> v[|v| - 1] == v[4..][|v| - 5];
  }

  lemma PackShort(v: seq<Sextet>)
    requires |v| < 4 && |v| != 1
    ensures Pack(Unpack(v)) == v <==> TailClear(v)
  {
    hide V1, V2, V3, V4, B1, B2, B3;
    if |v| == 3 {
      ValuesBack(v[0], v[1], v[2], 0);
      assert v == [v[0], v[1], v[2]];
    } else if |v| == 2 {
      ValuesBack(v[0], v[1], 0, 0);
      assert v == [v[0], v[1]];
    }
  }

  lemma PackQuantum(v: seq<Sextet>)
    requires |v| >= 4 && |v| % 4 != 1
    ensures Pack(Unpack(v)) == v <==> Pack(Unpack(v[4..])) == v[4..]
  {
    hide Pack, Unpack, V1, V2, V3, V4, B1, B2, B3;
    ValuesBack(v[0], v[1], v[2], v[3]);
    UnpackFour(v);
    var d, rest := Unpack(v), Unpack(v[4..]);
    assert d[3..] == rest;
    PackThree(d);
    var four := [v[0], v[1], v[2], v[3]];
    assert Pack(d) == four + Pack(rest);
    assert v == four + v[4..];
    assert Pack(d)[4..] == Pack(rest);
  }

  lemma EncodeDecoded(s: string)
    requires AllInAlphabet(s)
    ensures Decode(s).Some? <==> |s| % 4 != 1
    ensures Decode(s).Some? ==> (Encode(Decode(s).value) == s <==> TailClear(Values(s)))
  {
    ValuesOfSymbols(s);
    if |s| % 4 != 1 {
      PackUnpacked(Values(s));
      SymbolsBack(Pack(Unpack(Values(s))));
    }
  }

  /** Acceptance and encoding are inverse: a text is accepted as d exactly when it is the encoding of d
      and d is not empty and within the bound. */
  lemma AcceptInvertsEncode(s: string, d: seq<Byte>, maximum: nat)
    ensures Accept(s, maximum) == Success(d) <==> s == Encode(d) && 0 < |d| <= maximum
  {
    DecodeEncoded(d);
    EncodedLength(d);
    if Accept(s, maximum).Success? { EncodedLength(Accept(s, maximum).value); }
  }

  /** Which texts are accepted, from the text alone: the alphabet, the length, and no left-over bits. */
  lemma AcceptedExactly(s: string, maximum: nat)
    ensures Accept(s, maximum).Success?
       <==> 0 < |s| <= (4 * maximum + 2) / 3 && AllInAlphabet(s) && TailClear(Values(s))
  {
    if AllInAlphabet(s) {
      EncodeDecoded(s);
      if Decode(s).Some? && Encode(Decode(s).value) == s { EncodedLength(Decode(s).value); }
    }
  }

  // ----- The signed message -----

  /** A fixed prefix, the purpose, a zero byte, then the document. */
  function Message(prefix: seq<Byte>, purpose: seq<Byte>, data: seq<Byte>): seq<Byte> {
    prefix + [0] + purpose + [0] + data
  }

  lemma ZeroSeparates(p: seq<Byte>, d: seq<Byte>, q: seq<Byte>, e: seq<Byte>)
    requires 0 !in p && 0 !in q && p + [0] + d == q + [0] + e
    ensures p == q && d == e
  {
    var s, t := p + [0] + d, q + [0] + e;
    assert s[|p|] == 0 && t[|q|] == 0;
    assert forall i :: 0 <= i < |p| ==> s[i] == p[i] && p[i] in p;
    assert forall i :: 0 <= i < |q| ==> t[i] == q[i] && q[i] in q;
    assert |p| == |q|;
    assert p == s[..|p|] && q == t[..|q|];
    assert d == s[|p| + 1..] && e == t[|q| + 1..];
  }

  /** A signature for one purpose is never one for another: purposes hold no zero byte, so the message
      determines both the purpose and the document. */
  lemma MessageIsInjective(prefix: seq<Byte>, p: seq<Byte>, d: seq<Byte>, q: seq<Byte>, e: seq<Byte>)
    requires 0 !in p && 0 !in q && Message(prefix, p, d) == Message(prefix, q, e)
    ensures p == q && d == e
  {
    var front := prefix + [0];
    assert Message(prefix, p, d) == front + (p + [0] + d);
    assert Message(prefix, q, e) == front + (q + [0] + e);
    assert p + [0] + d == (front + (p + [0] + d))[|front|..];
    assert q + [0] + e == (front + (q + [0] + e))[|front|..];
    ZeroSeparates(p, d, q, e);
  }
}
