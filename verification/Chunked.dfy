/**
 The chunked transfer coding of section 7.1 of RFC 9112: an independent decoder for it, and the
 framing bytes the server writes.
 */
module Chunked {
  import opened Bytes

  /** "0" CRLF CRLF, the last chunk without trailer fields. */
  const LAST: seq<byte> := [48, 13, 10, 13, 10]

  // ---------------------------------------------------------------- decoder

  /** A decoded body and what follows it, or None when the input does not start with a chunked body. */
  type Decoded = Option<(seq<byte>, seq<byte>)>

  /** chunk-size = 1*HEXDIG; `acc` is the value of the digits read so far. */
  function ParseDigits(s: seq<byte>, acc: nat, any: bool): (r: Option<(nat, seq<byte>)>)
    ensures r.Some? ==> |r.value.1| <= |s| && (!any ==> |r.value.1| < |s|)
  {
    if s != [] && HexToDig(s[0]) >= 0 then ParseDigits(s[1..], 16 * acc + HexToDig(s[0]), true)
    else if any then Some((acc, s))
    else None
  }

  function Skip(prefix: seq<byte>, s: seq<byte>): (r: Option<seq<byte>>)
    ensures r.Some? ==> |r.value| + |prefix| == |s|
  {
    if prefix <= s then Some(s[|prefix|..]) else None
  }

  /** chunked-body, without chunk extensions and with an empty trailer section. */
  function Decode(s: seq<byte>): Decoded
    decreases |s|
  {
    match ParseDigits(s, 0, false)
    case None => None
    case Some((n, afterSize)) =>
      match Skip(CRLF, afterSize)
      case None => None
      case Some(data) =>
        if n == 0 then
          match Skip(CRLF, data)
          case None => None
          case Some(rest) => Some(([], rest))
        else if n > |data| then None
        else
          match Skip(CRLF, data[n..])
          case None => None
          case Some(next) =>
            match Decode(next)
            case None => None
            case Some((body, rest)) => Some((data[..n] + body, rest))
  }

  // ---------------------------------------------------------------- framing

  function UpperDigit(d: nat): (r: byte)
    requires d < 16
    ensures HexToDig(r) == d
  {
    if d < 10 then (48 + d) as byte else (55 + d) as byte
  }

  /** sprintf("%X") of a value that fits an unsigned int. */
  function Hex(n: nat): (r: seq<byte>)
    ensures |r| >= 1
  {
    if n < 16 then [UpperDigit(n)] else Hex(n / 16) + [UpperDigit(n % 16)]
  }

  /** The chunk-size line of a chunk of `n` bytes. */
  function SizeLine(n: nat): seq<byte> {
    Hex(n) + CRLF
  }

  function Frame(data: seq<byte>): seq<byte> {
    SizeLine(|data|) + data + CRLF
  }

  function Frames(pieces: seq<seq<byte>>): seq<byte> {
    if pieces == [] then [] else Frame(pieces[0]) + Frames(pieces[1..])
  }

  /** Reading back a printed size, whatever follows it. */
  lemma {:induction false} ParsePrinted(n: nat, any: bool, rest: seq<byte>)
    ensures ParseDigits(Hex(n) + rest, 0, any) == ParseDigits(rest, n, true)
  {
    if n < 16 {
      assert ([UpperDigit(n)] + rest)[1..] == rest;
    } else {
      var d := UpperDigit(n % 16);
      ParsePrinted(n / 16, any, [d] + rest);
      assert Hex(n) + rest == Hex(n / 16) + ([d] + rest);
      assert ([d] + rest)[1..] == rest;
    }
  }

  /** A chunk in front of a body is decoded as its data in front of that body. */
  lemma DecodeFrame(data: seq<byte>, rest: seq<byte>)
    requires data != []
    ensures Decode(Frame(data) + rest) ==
            match Decode(rest)
            case None => None
            case Some((body, tail)) => Some((data + body, tail))
  {
    var s := Frame(data) + rest;
    var line := CRLF + (data + (CRLF + rest));
    assert s == Hex(|data|) + line;
    ParsePrinted(|data|, false, line);
    assert Skip(CRLF, line) == Some(data + (CRLF + rest));
    assert (data + (CRLF + rest))[|data|..] == CRLF + rest;
    assert (data + (CRLF + rest))[..|data|] == data;
    assert (CRLF + rest)[2..] == rest;
  }

  lemma DecodeLast(rest: seq<byte>)
    ensures Decode(LAST + rest) == Some(([], rest))
  {
    var s := LAST + rest;
    assert s == Hex(0) + (CRLF + (CRLF + rest));
    ParsePrinted(0, false, CRLF + (CRLF + rest));
    assert (CRLF + (CRLF + rest))[2..] == CRLF + rest;
    assert (CRLF + rest)[2..] == rest;
  }

  /** Any sequence of non-empty chunks closed by the last chunk decodes to their concatenation. */
  lemma {:induction false} DecodeFrames(pieces: seq<seq<byte>>, rest: seq<byte>)
    requires [] !in pieces
    ensures Decode(Frames(pieces) + LAST + rest) == Some((Concat(pieces), rest))
  {
    if pieces == [] {
      DecodeLast(rest);
      assert Frames(pieces) + LAST + rest == LAST + rest;
    } else {
      DecodeFrames(pieces[1..], rest);
      DecodeFrame(pieces[0], Frames(pieces[1..]) + LAST + rest);
      assert Frames(pieces) + LAST + rest == Frame(pieces[0]) + (Frames(pieces[1..]) + LAST + rest);
    }
  }

  /** A body cut short before its last chunk is never taken for a whole one. */
  lemma {:induction false} DecodeUnfinished(pieces: seq<seq<byte>>)
    requires [] !in pieces
    ensures Decode(Frames(pieces)) == None
  {
    if pieces != [] {
      DecodeUnfinished(pieces[1..]);
      DecodeFrame(pieces[0], Frames(pieces[1..]));
    }
  }

  /** The digits of a size, with nothing behind them. */
  lemma {:induction false} DigitsOnly(s: seq<byte>, acc: nat, any: bool)
    requires forall i :: 0 <= i < |s| ==> HexToDig(s[i]) >= 0
    ensures var r := ParseDigits(s, acc, any); r.Some? ==> r.value.1 == []
  {
    if s != [] {
      DigitsOnly(s[1..], 16 * acc + HexToDig(s[0]), true);
    }
  }

  lemma {:induction false} HexIsDigits(n: nat)
    ensures forall i :: 0 <= i < |Hex(n)| ==> HexToDig(Hex(n)[i]) >= 0
  {
    if n >= 16 { HexIsDigits(n / 16); }
  }

  /** A part of one chunk is no body, be it the last chunk. */
  lemma DecodeCutFrame(data: seq<byte>, j: nat)
    requires j < |Frame(data)|
    ensures Decode(Frame(data)[..j]) == None
  {
    var n, digits, s := |data|, Hex(|data|), Frame(data)[..j];
    var behind := CRLF + (data + CRLF);
    assert Frame(data) == digits + behind;
    if j <= |digits| {
      assert s == digits[..j];
      HexIsDigits(n);
      DigitsOnly(s, 0, false);
    } else {
      var rest := behind[..j - |digits|];
      assert s == digits + rest;
      ParsePrinted(n, false, rest);
      assert rest[0] == CR;
      if CRLF <= rest {
        assert rest[2..] == (data + CRLF)[..|rest| - 2];
      }
    }
  }

  lemma FramesCons(pieces: seq<seq<byte>>, k: nat)
    requires pieces != [] && k < |pieces|
    ensures Frames(pieces[..k + 1]) == Frame(pieces[0]) + Frames(pieces[1..][..k])
  {
    assert pieces[..k + 1][1..] == pieces[1..][..k];
  }

  /** The k-th chunk is empty and among the first j bytes. */
  predicate Passed(pieces: seq<seq<byte>>, k: nat, j: nat)
    requires k < |pieces|
  {
    pieces[k] == [] && |Frames(pieces[..k + 1])| <= j
  }

  /** A part of some chunks, closed by the last chunk or not, is a body exactly when an empty chunk is whole
      in it. */
  lemma {:induction false} DecodeCut(pieces: seq<seq<byte>>, end: seq<byte>, j: nat)
    requires (end == [] || end == LAST) && j < |Frames(pieces) + end|
    ensures Decode((Frames(pieces) + end)[..j]).Some? <==> exists k :: 0 <= k < |pieces| && Passed(pieces, k, j)
    decreases |pieces|
  {
    hide Decode, Frame;
    var all := Frames(pieces) + end;
    if pieces == [] {
      assert all == LAST == Frame([]) by { EmptyFrame(); }
      DecodeCutFrame([], j);
    } else {
      var first, more := Frame(pieces[0]), Frames(pieces[1..]) + end;
      assert all == first + more;
      forall k | 0 <= k < |pieces| ensures |Frames(pieces[..k + 1])| == |first| + |Frames(pieces[1..][..k])| {
        FramesCons(pieces, k);
      }
      if j < |first| {
        assert all[..j] == first[..j];
        DecodeCutFrame(pieces[0], j);
      } else {
        assert all[..j] == first + more[..j - |first|];
        if pieces[0] == [] {
          EmptyFrame();
          DecodeLast(more[..j - |first|]);
          assert pieces[1..][..0] == [];
          assert Passed(pieces, 0, j);
        } else {
          DecodeFrame(pieces[0], more[..j - |first|]);
          var rest, left := pieces[1..], j - |first|;
          DecodeCut(rest, end, left);
          if k :| 0 <= k < |pieces| && Passed(pieces, k, j) {
            assert Passed(rest, k - 1, left);
          }
          if k :| 0 <= k < |rest| && Passed(rest, k, left) {
            assert Passed(pieces, k + 1, j);
          }
        }
      }
    }
  }

  lemma EmptyFrame()
    ensures Frame([]) == LAST
  {
  }

  lemma {:induction false} FramesSnoc(pieces: seq<seq<byte>>, data: seq<byte>)
    ensures Frames(pieces + [data]) == Frames(pieces) + Frame(data)
  {
    if pieces == [] {
      assert [data][1..] == [];
      assert Frames([data]) == Frame(data) + [];
    } else {
      calc {
        Frames(pieces + [data]);
        { assert (pieces + [data])[1..] == pieces[1..] + [data]; }
        Frame(pieces[0]) + Frames(pieces[1..] + [data]);
        { FramesSnoc(pieces[1..], data); }
        Frame(pieces[0]) + (Frames(pieces[1..]) + Frame(data));
        Frames(pieces) + Frame(data);
      }
    }
  }
}
