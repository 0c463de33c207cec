/**
 When a byte string is UTF-8 text: the check, and the encoding it is a check for (section 3 of RFC 3629).
 */
module Unicode {
  import opened Bytes

  predicate Continues(s: seq<byte>, n: nat) {
    n <= |s| && forall i :: 1 <= i < n ==> 0x80 <= s[i] <= 0xBF
  }

  /** The length of the UTF-8 sequence in front (section 4 of RFC 3629), or 0. */
  function Utf8Char(s: seq<byte>): (n: nat)
    requires s != []
    ensures n <= |s|
  {
    var b := s[0];
    if b < 0x80 then 1
    else if 0xC2 <= b <= 0xDF && Continues(s, 2) then 2
    else if 0xE0 <= b <= 0xEF && Continues(s, 3) && (b == 0xE0 ==> s[1] >= 0xA0) && (b == 0xED ==> s[1] < 0xA0) then 3
    else if 0xF0 <= b <= 0xF4 && Continues(s, 4) && (b == 0xF0 ==> s[1] >= 0x90) && (b == 0xF4 ==> s[1] < 0x90) then 4
    else 0
  }

  predicate Utf8(s: seq<byte>) {
    s == [] || (Utf8Char(s) > 0 && Utf8(s[Utf8Char(s)..]))
  }

  // ---------------------------------------------------------------- the encoding

  /** A character: any code point but the surrogates. */
  type Scalar = c: nat | c < 0xD800 || 0xE000 <= c < 0x110000

  function Encode(c: Scalar): (r: seq<byte>)
    ensures r != []
  {
    if c < 0x80 then [c as byte]
    else if c < 0x800 then [(0xC0 + c / 64) as byte, (0x80 + c % 64) as byte]
    else if c < 0x10000 then
      [(0xE0 + c / 4096) as byte, (0x80 + c / 64 % 64) as byte, (0x80 + c % 64) as byte]
    else
      [(0xF0 + c / 262144) as byte, (0x80 + c / 4096 % 64) as byte, (0x80 + c / 64 % 64) as byte,
       (0x80 + c % 64) as byte]
  }

  function EncodeAll(cs: seq<Scalar>): seq<byte> {
    if cs == [] then [] else Encode(cs[0]) + EncodeAll(cs[1..])
  }

  lemma EncodedChar(c: Scalar, rest: seq<byte>)
    ensures Utf8Char(Encode(c) + rest) == |Encode(c)|
  {
    var s := Encode(c) + rest;
    assert forall i :: 0 <= i < |Encode(c)| ==> s[i] == Encode(c)[i];
  }

  lemma {:induction false} EncodedText(cs: seq<Scalar>)
    ensures Utf8(EncodeAll(cs))
  {
    if cs != [] {
      var rest := EncodeAll(cs[1..]);
      EncodedChar(cs[0], rest);
      EncodedText(cs[1..]);
      assert (Encode(cs[0]) + rest)[|Encode(cs[0])|..] == rest;
    }
  }

  /** The character in front. */
  lemma FirstChar(s: seq<byte>) returns (c: Scalar)
    requires s != [] && Utf8Char(s) > 0
    ensures Encode(c) == s[..Utf8Char(s)]
  {
    var n := Utf8Char(s);
    if n == 1 {
      c := s[0] as nat;
    } else if n == 2 {
      c := TwoBytes(s[0], s[1]);
    } else if n == 3 {
      c := ThreeBytes(s[0], s[1], s[2]);
    } else {
      c := FourBytes(s[0], s[1], s[2], s[3]);
    }
  }

  lemma TwoBytes(x: byte, y: byte) returns (c: Scalar)
    requires 0xC2 <= x <= 0xDF && 0x80 <= y <= 0xBF
    ensures Encode(c) == [x, y]
  {
    c := (x as nat - 0xC0) * 64 + (y as nat - 0x80);
  }

  lemma ThreeBytes(x: byte, y: byte, z: byte) returns (c: Scalar)
    requires 0xE0 <= x <= 0xEF && 0x80 <= y <= 0xBF && 0x80 <= z <= 0xBF
    requires (x == 0xE0 ==> y >= 0xA0) && (x == 0xED ==> y < 0xA0)
    ensures Encode(c) == [x, y, z]
  {
    var a, b, d := x as nat - 0xE0, y as nat - 0x80, z as nat - 0x80;
    c := a * 4096 + b * 64 + d;
    assert c / 64 == a * 64 + b;
  }

  lemma FourBytes(x: byte, y: byte, z: byte, w: byte) returns (c: Scalar)
    requires 0xF0 <= x <= 0xF4 && 0x80 <= y <= 0xBF && 0x80 <= z <= 0xBF && 0x80 <= w <= 0xBF
    requires (x == 0xF0 ==> y >= 0x90) && (x == 0xF4 ==> y < 0x90)
    ensures Encode(c) == [x, y, z, w]
  {
    var a, b, d, e := x as nat - 0xF0, y as nat - 0x80, z as nat - 0x80, w as nat - 0x80;
    c := a * 262144 + b * 4096 + d * 64 + e;
    assert c / 64 == a * 4096 + b * 64 + d && c / 4096 == a * 64 + b;
  }

  lemma {:induction false} Characters(s: seq<byte>) returns (cs: seq<Scalar>)
    requires Utf8(s)
    ensures EncodeAll(cs) == s
    decreases |s|
  {
    if s == [] { return []; }
    var n := Utf8Char(s);
    var c := FirstChar(s);
    var rest := Characters(s[n..]);
    cs := [c] + rest;
    assert cs[1..] == rest && s == s[..n] + s[n..];
  }

  /** The check accepts exactly the encodings of texts. */
  lemma Utf8Iff(s: seq<byte>)
    ensures Utf8(s) <==> exists cs :: EncodeAll(cs) == s
  {
    if Utf8(s) {
      var cs := Characters(s);
    }
    forall cs: seq<Scalar> | EncodeAll(cs) == s ensures Utf8(s) {
      EncodedText(cs);
    }
  }
}
