/**
 uri_percent_decode_inplace (fastwsgi/common.c): percent-decoding of the request path,
 done in the buffer that holds it.
 */
module UriDecode {
  import opened Bytes

  const PERCENT: byte := 37
  const SLASH: byte := 47

  datatype Outcome = Decoded(bytes: seq<byte>) | Failed(code: int)

  function Prepend(p: seq<byte>, r: Outcome): Outcome {
    if r.Decoded? then Decoded(p + r.bytes) else r
  }

  /** The code the decoder gives up with on the escape of `val`, or 0. */
  function Refusal(val: int, check: int, prev: byte): int {
    if check >= 1 && val < 0x20 then -11
    else if check >= 2 && val == 0xFF then -12
    else if check >= 3 && prev == LF && val == 0x0D then -13
    else 0
  }

  /** What the front of a non-empty string decodes to: either the decoder gives up, or its first
      `n` bytes become `piece`, with `prev` the byte to remember. */
  datatype Turn = Stop(code: int) | Take(piece: seq<byte>, n: nat, prev: byte)

  function FirstTurn(s: seq<byte>, skip2F: bool, check: int, prev: byte): (t: Turn)
    requires s != []
    ensures t.Take? ==> 1 <= t.n <= |s| && |t.piece| <= t.n
    ensures t.Stop? ==> t.code < 0
  {
    if s[0] != PERCENT then Take([s[0]], 1, s[0])
    else if |s| < 3 then Stop(-1)
    else
      var hi, lo := HexToDig(s[1]), HexToDig(s[2]);
      if hi < 0 || lo < 0 then Stop(-2)
      else
        var val := 16 * hi + lo;
        if val == 0x2F && skip2F then Take(s[..3], 3, 1)
        else if Refusal(val, check, prev) != 0 then Stop(Refusal(val, check, prev))
        else Take([val as byte], 3, val as byte)
  }

  /** Pure decoder on the bytes as they arrived. `prev` is the byte decoded last. */
  function Decode(s: seq<byte>, skip2F: bool, check: int, prev: byte): Outcome {
    if s == [] then Decoded([])
    else match FirstTurn(s, skip2F, check, prev)
      case Stop(code) => Failed(code)
      case Take(piece, n, next) => Prepend(piece, Decode(s[n..], skip2F, check, next))
  }

  /** The decoder as set_header calls it on PATH_INFO. */
  function DecodePath(s: seq<byte>): Outcome {
    Decode(s, true, 100, 0)
  }

  lemma PrependTwice(p: seq<byte>, q: seq<byte>, r: Outcome)
    ensures Prepend(p, Prepend(q, r)) == Prepend(p + q, r)
  {
    if r.Decoded? {
      assert p + (q + r.bytes) == p + q + r.bytes;
    }
  }

  lemma Advance(done: seq<byte>, rest: seq<byte>, skip2F: bool, check: int, prev: byte)
    requires rest != [] && FirstTurn(rest, skip2F, check, prev).Take?
    ensures var t := FirstTurn(rest, skip2F, check, prev);
              Prepend(done, Decode(rest, skip2F, check, prev))
              == Prepend(done + t.piece, Decode(rest[t.n..], skip2F, check, t.prev))
  {
    var t := FirstTurn(rest, skip2F, check, prev);
    PrependTwice(done, t.piece, Decode(rest[t.n..], skip2F, check, t.prev));
  }

  /** The checks on the escape at `src`: an error code, or 0 and the value of its two digits. */
  method ReadEscape(buf: array<byte>, size: nat, src: nat, skip2F: bool, check: int, prev: byte)
    returns (hr: int, val: int)
    requires src < size <= buf.Length && buf[src] == PERCENT
    ensures hr < 0 ==> FirstTurn(buf[src..size], skip2F, check, prev) == Stop(hr)
    ensures hr >= 0 ==> hr == 0 && src + 3 <= size && 0 <= val < 256
    ensures hr >= 0 && val == 0x2F && skip2F ==>
              FirstTurn(buf[src..size], skip2F, check, prev)
              == Take([buf[src], buf[src + 1], buf[src + 2]], 3, 1)
    ensures hr >= 0 && !(val == 0x2F && skip2F) ==>
              FirstTurn(buf[src..size], skip2F, check, prev) == Take([val as byte], 3, val as byte)
  {
    ghost var s := buf[src..size];
    if src + 2 >= size { return -1, 0; }
    assert s[1] == buf[src + 1] && s[2] == buf[src + 2];
    var hi, lo := HexToDig(buf[src + 1]), HexToDig(buf[src + 2]);
    if hi < 0 || lo < 0 { return -2, 0; }
    val := 16 * hi + lo;
    if val == 0x2F && skip2F {
      assert s[..3] == [buf[src], buf[src + 1], buf[src + 2]];
      return 0, val;
    }
    if check >= 1 && val < 0x20 { return -11, val; }
    if check >= 2 && val == 0xFF { return -12, val; }
    if check >= 3 && prev == LF && val == 0x0D { return -13, val; }
    return 0, val;
  }

  /** One turn of the loop: the front of buf[src..size] is decoded to buf[dst..]. */
  method DecodeTurn(buf: array<byte>, size: nat, src: nat, dst: nat, skip2F: bool, check: int, prev: byte)
    returns (err: int, src': nat, dst': nat, prev': byte)
    requires dst <= src < size <= buf.Length
    modifies buf
    ensures var t := FirstTurn(old(buf[src..size]), skip2F, check, prev);
              if err < 0 then t == Stop(err) && buf[..] == old(buf[..])
              else
                && dst <= dst' <= src' <= size && src < src'
                && t == Take(buf[dst..dst'], src' - src, prev')
                && buf[..dst] == old(buf[..dst]) && buf[src'..] == old(buf[src'..])
    ensures buf[size..] == old(buf[size..])
  {
    if buf[src] != PERCENT {
      buf[dst] := buf[src];
      return 0, src + 1, dst + 1, buf[dst];
    }
    var val;
    err, val := ReadEscape(buf, size, src, skip2F, check, prev);
    if err < 0 { return err, src, dst, prev; }
    if val == 0x2F && skip2F {
      buf[dst] := buf[src];
      buf[dst + 1] := buf[src + 1];
      buf[dst + 2] := buf[src + 2];
      return 0, src + 3, dst + 3, 1;
    }
    buf[dst] := val as byte;
    return 0, src + 3, dst + 1, val as byte;
  }

  method DecodeInPlace(buf: array<byte>, size: nat, skip2F: bool, check: int) returns (hr: int)
    requires size <= buf.Length
    modifies buf
    ensures match Decode(old(buf[..size]), skip2F, check, 0)
            case Decoded(out) => hr == |out| <= size && buf[..hr] == out
            case Failed(code) => hr == code < 0
    ensures buf[size..] == old(buf[size..])
  {
    hide FirstTurn;
    ghost var whole := Decode(buf[..size], skip2F, check, 0);
    assert buf[0..size] == buf[..size];
    var src, dst := 0, 0;
    var prev: byte := 0;
    while src < size
      invariant 0 <= dst <= src <= size
      invariant buf[size..] == old(buf[size..])
      invariant whole == Prepend(buf[..dst], Decode(buf[src..size], skip2F, check, prev))
    {
      ghost var done, rest := buf[..dst], buf[src..size];
      ghost var turn := FirstTurn(rest, skip2F, check, prev);
      if turn.Take? { Advance(done, rest, skip2F, check, prev); }
      label before:
      ghost var dst0 := dst;
      hr, src, dst, prev := DecodeTurn(buf, size, src, dst, skip2F, check, prev);
      if hr < 0 { return; }
      assert buf[..dst] == buf[..dst0] + buf[dst0..dst];
      assert rest[turn.n..] == old@before(buf[src..size]) == buf[src..][..size - src] == buf[src..size];
    }
    return dst;
  }

  // ---------------------------------------------------------------- separators

  /** For a checking decoder the byte before never matters: the refusal that looks at it is
      pre-empted by the refusal of control bytes. */
  lemma {:induction false} PrevIrrelevant(s: seq<byte>, skip2F: bool, check: int, p: byte, q: byte)
    requires check >= 1
    ensures Decode(s, skip2F, check, p) == Decode(s, skip2F, check, q)
  {
  }

  /** Without a '%' there is nothing to decode. */
  lemma {:induction false} NoEscapes(s: seq<byte>)
    requires PERCENT !in s
    ensures DecodePath(s) == Decoded(s)
  {
    if s != [] {
      NoEscapes(s[1..]);
      DecodePathTurn(s);
      assert s == [s[0]] + s[1..];
    }
  }

  /** DecodePath, one turn at a time. */
  lemma DecodePathTurn(s: seq<byte>)
    requires s != []
    ensures match FirstTurn(s, true, 100, 0)
            case Stop(code) => DecodePath(s) == Failed(code)
            case Take(piece, n, _) => DecodePath(s) == Prepend(piece, DecodePath(s[n..]))
  {
    match FirstTurn(s, true, 100, 0)
    case Stop(_) =>
    case Take(piece, n, next) => PrevIrrelevant(s[n..], true, 100, 0, next);
  }

  /** The segments of a path, as splitting at every '/' gives them. */
  function Split(s: seq<byte>): (r: seq<seq<byte>>)
    ensures |r| >= 1
    ensures r[0] <= s && SLASH !in r[0]
    ensures |r[0]| < |s| ==> s[|r[0]|] == SLASH
  {
    if s == [] then [[]]
    else if s[0] == SLASH then [[]] + Split(s[1..])
    else var t := Split(s[1..]); [[s[0]] + t[0]] + t[1..]
  }

  predicate AllDecode(segs: seq<seq<byte>>) {
    forall i :: 0 <= i < |segs| ==> DecodePath(segs[i]).Decoded?
  }

  /** `outs` are the decoded `segs`, one for one. */
  predicate DecodeTo(segs: seq<seq<byte>>, outs: seq<seq<byte>>) {
    |outs| == |segs| && forall i :: 0 <= i < |segs| ==> DecodePath(segs[i]) == Decoded(outs[i])
  }

  lemma SplitCons(b: byte, s: seq<byte>)
    ensures b == SLASH ==> Split([b] + s) == [[]] + Split(s)
    ensures b != SLASH ==> Split([b] + s) == [[b] + Split(s)[0]] + Split(s)[1..]
  {
    assert ([b] + s)[1..] == s;
  }

  /** A prefix without '/' goes into the first segment. */
  lemma {:induction false} SplitPrefix(p: seq<byte>, s: seq<byte>)
    requires SLASH !in p
    ensures Split(p + s) == [p + Split(s)[0]] + Split(s)[1..]
  {
    hide Split;
    if p == [] {
      assert p + s == s && p + Split(s)[0] == Split(s)[0];
    } else {
      SplitPrefix(p[1..], s);
      SplitCons(p[0], p[1..] + s);
      assert p + s == [p[0]] + (p[1..] + s);
      assert [p[0]] + (p[1..] + Split(s)[0]) == p + Split(s)[0];
    }
  }

  /** No separator is created or lost: decoding a path decodes its segments one by one, and
      succeeds exactly when each segment decodes. */
  lemma {:induction false} DecodeCommutesWithSplit(s: seq<byte>)
    ensures DecodePath(s).Decoded? <==> AllDecode(Split(s))
    ensures DecodePath(s).Decoded? ==> DecodeTo(Split(s), Split(DecodePath(s).bytes))
  {
    if s == [] {
    } else if s[0] == SLASH {
      DecodeCommutesWithSplit(s[1..]);
      SlashStep(s);
    } else {
      match FirstTurn(s, true, 100, 0)
      case Stop(_) => StopStep(s);
      case Take(piece, n, _) =>
        DecodeCommutesWithSplit(s[n..]);
        TakeStep(s, piece, n);
    }
  }

  lemma SlashStep(s: seq<byte>)
    requires s != [] && s[0] == SLASH
    requires DecodePath(s[1..]).Decoded? <==> AllDecode(Split(s[1..]))
    requires DecodePath(s[1..]).Decoded? ==> DecodeTo(Split(s[1..]), Split(DecodePath(s[1..]).bytes))
    ensures DecodePath(s).Decoded? <==> AllDecode(Split(s))
    ensures DecodePath(s).Decoded? ==> DecodeTo(Split(s), Split(DecodePath(s).bytes))
  {
    DecodePathTurn(s);
    var t := Split(s[1..]);
    assert DecodePath([]) == Decoded([]);
    SplitCons(s[0], s[1..]);
    hide Decode, DecodePath, FirstTurn, Split;
    assert s == [s[0]] + s[1..];
    assert Split(s) == [[]] + t;
    assert forall i :: 0 <= i < |t| ==> t[i] == Split(s)[i + 1];
    if DecodePath(s).Decoded? {
      assert DecodePath(s).bytes == [SLASH] + DecodePath(s[1..]).bytes;
      SplitCons(SLASH, DecodePath(s[1..]).bytes);
    }
  }

  lemma StopStep(s: seq<byte>)
    requires s != [] && s[0] != SLASH && FirstTurn(s, true, 100, 0).Stop?
    ensures !DecodePath(s).Decoded? && !AllDecode(Split(s))
  {
    DecodePathTurn(s);
    var seg := Split(s)[0];
    assert seg != [] by { assert Split(s)[0] == [s[0]] + Split(s[1..])[0]; }
    assert seg[0] == s[0];
    if |seg| >= 3 {
      assert seg[1] == s[1] && seg[2] == s[2];
    }
    assert FirstTurn(seg, true, 100, 0).Stop? by {
      if |s| >= 3 && |seg| < 3 {
        assert s[|seg|] == SLASH;
      }
    }
    DecodePathTurn(seg);
  }

  lemma FirstTurnOfSegment(s: seq<byte>, tail: seq<byte>)
    requires s != [] && s[0] != SLASH && FirstTurn(s, true, 100, 0).Take?
    ensures var t := FirstTurn(s, true, 100, 0);
              SLASH !in s[..t.n] && SLASH !in t.piece && FirstTurn(s[..t.n] + tail, true, 100, 0) == t
  {
    var t := FirstTurn(s, true, 100, 0);
    var seg := s[..t.n] + tail;
    assert forall i :: 0 <= i < t.n ==> seg[i] == s[i];
    if t.n == 3 {
      assert seg[..3] == s[..3];
    }
  }

  lemma TakeStep(s: seq<byte>, piece: seq<byte>, n: nat)
    requires s != [] && s[0] != SLASH && FirstTurn(s, true, 100, 0).Take?
    requires piece == FirstTurn(s, true, 100, 0).piece && n == FirstTurn(s, true, 100, 0).n
    requires DecodePath(s[n..]).Decoded? <==> AllDecode(Split(s[n..]))
    requires DecodePath(s[n..]).Decoded? ==> DecodeTo(Split(s[n..]), Split(DecodePath(s[n..]).bytes))
    ensures DecodePath(s).Decoded? <==> AllDecode(Split(s))
    ensures DecodePath(s).Decoded? ==> DecodeTo(Split(s), Split(DecodePath(s).bytes))
  {
    hide FirstTurn, Split, DecodePath, Decode;
    var t := Split(s[n..]);
    var seg := s[..n] + t[0];
    FirstTurnOfSegment(s, t[0]);
    DecodePathTurn(s);
    DecodePathTurn(seg);
    assert seg[n..] == t[0];
    SplitPrefix(s[..n], s[n..]);
    assert s[..n] + s[n..] == s;
    assert Split(s) == [seg] + t[1..];
    assert forall i :: 1 <= i < |t| ==> t[i] == Split(s)[i];
    assert AllDecode(Split(s)) <==> AllDecode(t);
    if DecodePath(s).Decoded? {
      SplitPrefix(piece, DecodePath(s[n..]).bytes);
    }
  }

  // ---------------------------------------------------------------- undoing percent-encoding

  /** One byte of a path as a client may write it: literally, or escaped with hex digits of
      either case (section 2.1 of RFC 3986). */
  datatype Symbol = Literal(b: byte) | Escaped(b: byte, upperHi: bool, upperLo: bool)

  function HexDigit(d: int, upper: bool): (r: byte)
    requires 0 <= d < 16
    ensures HexToDig(r) == d && r != PERCENT && r != SLASH
  {
    if d < 10 then (48 + d) as byte else if upper then (55 + d) as byte else (87 + d) as byte
  }

  function Write(y: Symbol): seq<byte> {
    match y
    case Literal(b) => [b]
    case Escaped(b, u, v) => [PERCENT, HexDigit(b as int / 16, u), HexDigit(b as int % 16, v)]
  }

  function WriteAll(ys: seq<Symbol>): seq<byte> {
    if ys == [] then [] else Write(ys[0]) + WriteAll(ys[1..])
  }

  function Plain(ys: seq<Symbol>): (r: seq<byte>)
    ensures |r| == |ys|
  {
    if ys == [] then [] else [ys[0].b] + Plain(ys[1..])
  }

  /** A '%' is always escaped: that is what makes a string an encoding. */
  predicate IsEncoding(ys: seq<Symbol>) {
    forall i :: 0 <= i < |ys| ==> ys[i].Literal? ==> ys[i].b != PERCENT
  }

  /** The bytes the decoder is willing to give back from an escape. */
  predicate Recoverable(y: Symbol) {
    y.Escaped? ==> 0x20 <= y.b < 0xFF && y.b != SLASH
  }

  lemma WriteTurn(y: Symbol, rest: seq<byte>)
    requires y.Literal? ==> y.b != PERCENT
    ensures match FirstTurn(Write(y) + rest, true, 100, 0)
            case Stop(_) => y.Escaped? && !Recoverable(y)
            case Take(piece, n, _) => n == |Write(y)| && (Recoverable(y) ==> piece == [y.b])
                                      && (!Recoverable(y) ==> y.b == SLASH && |piece| == 3)
  {
    var s := Write(y) + rest;
    if y.Escaped? {
      assert s[1] == Write(y)[1] && s[2] == Write(y)[2];
      assert 16 * (y.b as int / 16) + y.b as int % 16 == y.b as int;
      assert s[..3] == Write(y);
    }
  }

  /** What a successful decode of an encoding is at least as long as. */
  lemma {:induction false} DecodeLength(ys: seq<Symbol>)
    requires IsEncoding(ys)
    ensures DecodePath(WriteAll(ys)).Decoded? ==> |DecodePath(WriteAll(ys)).bytes| >= |ys|
  {
    if ys != [] {
      WriteTurn(ys[0], WriteAll(ys[1..]));
      DecodePathTurn(WriteAll(ys));
      assert WriteAll(ys)[|Write(ys[0])|..] == WriteAll(ys[1..]);
      DecodeLength(ys[1..]);
    }
  }

  /** Decoding undoes percent-encoding exactly when no escape stands for a control byte, 0xFF
      or a '/'; literal bytes are never a problem. */
  lemma {:induction false} DecodeUndoesEncoding(ys: seq<Symbol>)
    requires IsEncoding(ys)
    ensures DecodePath(WriteAll(ys)) == Decoded(Plain(ys))
            <==> forall i :: 0 <= i < |ys| ==> Recoverable(ys[i])
  {
    if ys != [] {
      var rest := WriteAll(ys[1..]);
      WriteTurn(ys[0], rest);
      DecodePathTurn(WriteAll(ys));
      assert WriteAll(ys)[|Write(ys[0])|..] == rest;
      DecodeUndoesEncoding(ys[1..]);
      DecodeLength(ys[1..]);
      assert (forall i :: 0 <= i < |ys| ==> Recoverable(ys[i])) <==>
             Recoverable(ys[0]) && forall i :: 0 <= i < |ys[1..]| ==> Recoverable(ys[1..][i]) by {
        assert forall i :: 1 <= i < |ys| ==> ys[i] == ys[1..][i - 1];
      }
      if Recoverable(ys[0]) && DecodePath(rest).Decoded? {
        assert DecodePath(WriteAll(ys)).bytes[1..] == DecodePath(rest).bytes;
      }
    }
  }

  /** No escape stands for a control byte or for 0xFF. */
  predicate AllTame(ys: seq<Symbol>) {
    forall i :: 0 <= i < |ys| ==> ys[i].Escaped? ==> 0x20 <= ys[i].b < 0xFF
  }

  /** The bytes written, but an escaped '/' as it is. */
  function Shown(ys: seq<Symbol>): seq<byte> {
    if ys == [] then []
    else (if ys[0].Escaped? && ys[0].b == SLASH then Write(ys[0]) else [ys[0].b]) + Shown(ys[1..])
  }

  lemma {:induction false} DecodeShows(ys: seq<Symbol>)
    requires IsEncoding(ys) && AllTame(ys)
    ensures DecodePath(WriteAll(ys)) == Decoded(Shown(ys))
  {
    if ys != [] {
      var y, rest := ys[0], WriteAll(ys[1..]);
      WriteTurn(y, rest);
      DecodePathTurn(WriteAll(ys));
      assert WriteAll(ys)[|Write(y)|..] == rest;
      DecodeShows(ys[1..]);
      if y.Escaped? && y.b == SLASH { SlashTurn(y, rest); }
    }
  }

  lemma SlashTurn(y: Symbol, rest: seq<byte>)
    requires y.Escaped? && y.b == SLASH
    ensures FirstTurn(Write(y) + rest, true, 100, 0) == Take(Write(y), 3, 1)
  {
    var s := Write(y) + rest;
    assert s[1] == Write(y)[1] && s[2] == Write(y)[2] && s[..3] == Write(y);
  }

  lemma DigitOf(b: byte)
    requires HexToDig(b) >= 0
    ensures HexDigit(HexToDig(b), b <= 70) == b
  {
  }

  /** The symbol in front of a string that decodes. */
  lemma FirstSymbol(s: seq<byte>) returns (y: Symbol)
    requires s != [] && FirstTurn(s, true, 100, 0).Take?
    ensures (y.Literal? ==> y.b != PERCENT) && (y.Escaped? ==> 0x20 <= y.b < 0xFF)
    ensures FirstTurn(s, true, 100, 0).n == |Write(y)| && s[..|Write(y)|] == Write(y)
  {
    if s[0] != PERCENT {
      y := Literal(s[0]);
    } else {
      var hi, lo := HexToDig(s[1]), HexToDig(s[2]);
      DigitOf(s[1]);
      DigitOf(s[2]);
      y := Escaped((16 * hi + lo) as byte, s[1] <= 70, s[2] <= 70);
    }
  }

  lemma {:induction false} Symbols(s: seq<byte>) returns (ys: seq<Symbol>)
    requires DecodePath(s).Decoded?
    ensures IsEncoding(ys) && AllTame(ys) && WriteAll(ys) == s
  {
    if s == [] { return []; }
    DecodePathTurn(s);
    var y := FirstSymbol(s);
    var n := |Write(y)|;
    var rest := Symbols(s[n..]);
    ys := [y] + rest;
    assert ys[1..] == rest && s == s[..n] + s[n..];
  }

  /** A path decodes exactly when it is written as a client may write one, every '%' in front of two
      hexadecimal digits, without an escaped control byte or 0xFF. */
  lemma DecodesIff(s: seq<byte>)
    ensures DecodePath(s).Decoded? <==> exists ys :: IsEncoding(ys) && AllTame(ys) && WriteAll(ys) == s
  {
    if DecodePath(s).Decoded? {
      var ys := Symbols(s);
    }
    forall ys | IsEncoding(ys) && AllTame(ys) && WriteAll(ys) == s ensures DecodePath(s).Decoded? {
      DecodeShows(ys);
    }
  }

  /** An escaped slash stays escaped, whatever the case of its digits. */
  lemma EscapedSlashKept(u: bool, v: bool)
    ensures DecodePath(Write(Escaped(SLASH, u, v))) == Decoded(Write(Escaped(SLASH, u, v)))
  {
    WriteTurn(Escaped(SLASH, u, v), []);
    var s := Write(Escaped(SLASH, u, v));
    assert s[..3] == s && s + [] == s;
    DecodePathTurn(s);
    assert DecodePath(s[3..]) == Decoded([]);
  }
}
