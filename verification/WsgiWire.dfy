/**
 What a client makes of the bytes of a WSGI response: theorems about every response the server
 can send.
 */
module WsgiWire {
  import opened Bytes
  import opened Chunked
  import opened Wsgi
  import Head

  /** No item is so long that its length is cut to 32 bits. */
  predicate AllShort(pieces: seq<seq<byte>>) {
    forall i :: 0 <= i < |pieces| ==> |pieces[i]| < UINT_RANGE
  }

  lemma ShortSent(pieces: seq<seq<byte>>)
    requires AllShort(pieces)
    ensures AllSent(pieces) == pieces
  {
    assert forall i :: 0 <= i < |pieces| ==> Sent(pieces[i]) == pieces[i];
  }

  lemma {:induction false} TotalBounds(pieces: seq<seq<byte>>)
    requires |Concat(pieces)| < UINT_RANGE
    ensures AllShort(pieces)
  {
    if pieces != [] {
      TotalBounds(pieces[1..]);
      assert forall i :: 1 <= i < |pieces| ==> pieces[i] == pieces[1..][i - 1];
    }
  }

  // ---------------------------------------------------------------- chunked bodies

  /** The writes behind the head of a chunked body are its items as chunks, then the last chunk. */
  lemma {:induction false} TailFrames(rest: seq<seq<byte>>, breaks: bool, written: nat)
    ensures Concat(Tail(rest, breaks, true, 0, written)) == Frames(AllSent(rest)) + if breaks then [] else LAST
  {
    if rest == [] {
      assert AllSent(rest) == [];
      ConcatEmpty<byte>();
      assert Concat([LAST]) == LAST + Concat([]);
    } else {
      var w := ItemWrite(rest[0], true);
      var more := Tail(rest[1..], breaks, true, 0, written + |rest[0]|);
      assert AllSent(rest)[1..] == AllSent(rest[1..]);
      TailFrames(rest[1..], breaks, written + |rest[0]|);
      assert ([w] + more)[1..] == more;
      assert Concat([w] + more) == w + Concat(more);
    }
  }

  /** A decoder takes something. */
  lemma {:induction false} DecodeTakes(s: seq<byte>)
    ensures Decode(s).Some? ==> |Decode(s).value.1| < |s|
    decreases |s|
  {
    hide ParseDigits;
    match ParseDigits(s, 0, false)
    case None =>
    case Some((n, afterSize)) =>
      match Skip(CRLF, afterSize)
      case None =>
      case Some(data) =>
        if 0 < n <= |data| {
          match Skip(CRLF, data[n..])
          case None =>
          case Some(next) => DecodeTakes(next);
        }
  }

  /** A decoder that stops exactly behind some chunks has seen the last chunk, or one that looks like it,
      and no more bytes than the chunks hold. */
  lemma {:induction false} DecodeOnto(sent: seq<seq<byte>>, end: seq<byte>, more: seq<byte>)
    requires end == [] || end == LAST
    ensures var r := Decode(Frames(sent) + end + more);
              r.Some? && r.value.1 == more ==> |r.value.0| <= |Concat(sent)| && (end == LAST || [] in sent)
  {
    hide Decode, Frame;
    if sent == [] {
      assert Frames(sent) + end + more == end + more;
      DecodeLast(more);
      DecodeTakes(more);
      assert end == [] ==> end + more == more;
    } else {
      var behind := Frames(sent[1..]) + end + more;
      assert Frames(sent) + end + more == Frame(sent[0]) + behind;
      assert sent == [sent[0]] + sent[1..];
      DecodeOnto(sent[1..], end, more);
      if sent[0] == [] {
        EmptyFrame();
        DecodeLast(behind);
      } else {
        DecodeFrame(sent[0], behind);
      }
    }
  }

  lemma {:induction false} SentShorter(pieces: seq<seq<byte>>)
    ensures |Concat(AllSent(pieces))| <= |Concat(pieces)|
    ensures |Concat(AllSent(pieces))| == |Concat(pieces)| ==> AllShort(pieces)
  {
    if pieces != [] {
      SentShorter(pieces[1..]);
      assert AllSent(pieces)[1..] == AllSent(pieces[1..]);
      assert |Sent(pieces[0])| <= |pieces[0]|;
      if |Concat(AllSent(pieces))| == |Concat(pieces)| {
        forall i | 0 <= i < |pieces| ensures |pieces[i]| < UINT_RANGE {
          if i > 0 { assert pieces[i] == pieces[1..][i - 1]; }
        }
      }
    }
  }

  /** The preload of a chunked body is one chunk with all its items. */
  lemma StartIsFrame(pieces: seq<seq<byte>>, n: nat)
    requires n <= |pieces| && |Concat(pieces[..n])| < INT_MAX
    ensures BodyStart(pieces, Streamed(n)) == Frame(Concat(pieces[..n]))
  {
    TotalBounds(pieces[..n]);
    ShortSent(pieces[..n]);
  }

  lemma ShortSplit(pieces: seq<seq<byte>>, n: nat)
    requires n <= |pieces| && |Concat(pieces[..n])| < INT_MAX
    ensures AllShort(pieces) <==> AllShort(pieces[n..])
  {
    TotalBounds(pieces[..n]);
    forall i | 0 <= i < |pieces| ensures pieces[i] == if i < n then pieces[..n][i] else pieces[n..][i - n] {}
    if AllShort(pieces[n..]) {
      forall i | 0 <= i < |pieces| ensures |pieces[i]| < UINT_RANGE {
        if i < n { assert |pieces[..n][i]| < UINT_RANGE; } else { assert |pieces[n..][i - n]| < UINT_RANGE; }
      }
    }
    if AllShort(pieces) {
      forall i | 0 <= i < |pieces[n..]| ensures |pieces[n..][i]| < UINT_RANGE {
        assert pieces[n..][i] == pieces[n + i];
      }
    }
  }

  /** A chunked body with more behind it decodes to the app's bytes and leaves just the rest if and only if
      the iterator did not break and no item needs more than 32 bits. */
  lemma ChunkedThenMore(pieces: seq<seq<byte>>, breaks: bool, n: nat, more: seq<byte>)
    requires [] !in pieces && 1 <= n <= |pieces| && |Concat(pieces[..n])| < INT_MAX
    ensures var wire := BodyStart(pieces, Streamed(n)) + Concat(TailOf(pieces, breaks, Streamed(n)));
              Decode(wire + more) == Some((Concat(pieces), more)) <==> !breaks && AllShort(pieces)
  {
    hide Decode, Frame, Concat, AllShort, AllSent, BodyStart, Tail;
    var first, rest := Concat(pieces[..n]), pieces[n..];
    var sent, end := AllSent(rest), if breaks then [] else LAST;
    var all := [first] + sent;
    TailFrames(rest, breaks, |first|);
    StartIsFrame(pieces, n);
    NonEmptyPieces(pieces[..n]);
    assert all[1..] == sent;
    assert BodyStart(pieces, Streamed(n)) + Concat(TailOf(pieces, breaks, Streamed(n))) + more
      == Frames(all) + end + more;
    ConcatAppend(pieces[..n], rest);
    assert pieces == pieces[..n] + rest;
    ConcatCons(first, sent);
    SentShorter(rest);
    ShortSplit(pieces, n);
    DecodeOnto(all, end, more);
    if AllShort(rest) {
      ShortSent(rest);
      assert [] !in all;
      if !breaks { DecodeFrames(all, more); }
    }
  }

  /** Whatever mix of preloading and streaming was taken: a client decodes the body of a chunked
      response to exactly the app's bytes, with nothing left over, if and only if the iterator did
      not break and no item needs more than 32 bits for its length. */
  lemma ChunkedRun(pieces: seq<seq<byte>>, breaks: bool, n: nat)
    requires [] !in pieces && 1 <= n <= |pieces| && |Concat(pieces[..n])| < INT_MAX
    ensures Decode(BodyStart(pieces, Streamed(n)) + Concat(TailOf(pieces, breaks, Streamed(n))))
              == Some((Concat(pieces), []))
            <==> !breaks && AllShort(pieces)
  {
    hide Decode, BodyStart, TailOf, AllShort;
    var wire := BodyStart(pieces, Streamed(n)) + Concat(TailOf(pieces, breaks, Streamed(n)));
    assert wire + [] == wire;
    ChunkedThenMore(pieces, breaks, n, []);
  }

  lemma {:induction false} TailPrefix(rest: seq<seq<byte>>, breaks: bool, written: nat, k: nat)
    requires k <= |rest|
    ensures |Tail(rest, breaks, true, 0, written)| == |rest| + if breaks then 0 else 1
    ensures Concat(Tail(rest, breaks, true, 0, written)[..k]) == Frames(AllSent(rest[..k]))
  {
    if rest != [] {
      var more := Tail(rest[1..], breaks, true, 0, written + |rest[0]|);
      TailPrefix(rest[1..], breaks, written + |rest[0]|, if k == 0 then 0 else k - 1);
      if k > 0 {
        assert Tail(rest, breaks, true, 0, written)[..k] == [ItemWrite(rest[0], true)] + more[..k - 1];
        assert AllSent(rest[..k])[1..] == AllSent(rest[1..][..k - 1]);
      }
    }
    if k == 0 { ConcatEmpty<byte>(); }
  }

  /** What the decoder sees of a chunk's length field is 0 for an item whose length is a multiple of 4 GiB. */
  predicate Vanishes(data: seq<byte>) {
    |data| % UINT_RANGE == 0
  }

  /** Chunks are a whole body when the last chunk follows them, or when one of them looks like it. */
  lemma {:induction false} DecodeSome(sent: seq<seq<byte>>, end: seq<byte>)
    requires end == [] || end == LAST
    ensures Decode(Frames(sent) + end).Some? <==> end == LAST || [] in sent
  {
    if sent == [] {
      assert Frames(sent) + end == end == end + [];
      DecodeLast([]);
    } else {
      var more := Frames(sent[1..]) + end;
      assert Frames(sent) + end == Frame(sent[0]) + more;
      assert [] in sent <==> sent[0] == [] || [] in sent[1..] by {
        assert sent == [sent[0]] + sent[1..];
      }
      DecodeSome(sent[1..], end);
      if sent[0] == [] {
        assert Frame([]) == LAST;
        DecodeLast(more);
      } else {
        DecodeFrame(sent[0], more);
      }
    }
  }

  /** The i-th item vanished and is among the first j bytes of a chunked body; the first `n` went out with
      the head. */
  predicate Lost(pieces: seq<seq<byte>>, breaks: bool, n: nat, i: nat, j: nat)
    requires n <= i < |pieces|
  {
    var tail := TailOf(pieces, breaks, Streamed(n));
    && Vanishes(pieces[i]) && i + 1 - n <= |tail|
    && |BodyStart(pieces, Streamed(n))| + |Concat(tail[..i + 1 - n])| <= j
  }

  /** A client that loses the connection behind any byte of a chunked body, or whose response broke, takes
      what it got for a whole body if and only if an item that vanished is in it. */
  lemma ChunkedCut(pieces: seq<seq<byte>>, breaks: bool, n: nat, j: nat)
    requires [] !in pieces && 1 <= n <= |pieces| && |Concat(pieces[..n])| < INT_MAX
    requires j <= |BodyStart(pieces, Streamed(n)) + Concat(TailOf(pieces, breaks, Streamed(n)))|
    ensures var wire := BodyStart(pieces, Streamed(n)) + Concat(TailOf(pieces, breaks, Streamed(n)));
              Decode(wire[..j]).Some?
              <==> (j == |wire| && !breaks) || exists i :: n <= i < |pieces| && Lost(pieces, breaks, n, i, j)
  {
    hide Decode, BodyStart, Frame, AllSent, Tail, Vanishes;
    var first, rest := Concat(pieces[..n]), pieces[n..];
    var tail, sent, end := TailOf(pieces, breaks, Streamed(n)), AllSent(rest), if breaks then [] else LAST;
    var all, wire := [first] + sent, BodyStart(pieces, Streamed(n)) + Concat(tail);
    TailFrames(rest, breaks, |first|);
    StartIsFrame(pieces, n);
    NonEmptyPieces(pieces[..n]);
    assert all[1..] == sent;
    assert wire == Frames(all) + end;
    forall i | n <= i < |pieces| ensures Lost(pieces, breaks, n, i, j) <==> Passed(all, i + 1 - n, j) {
      LostIs(pieces, breaks, n, i, j);
    }
    forall k | 1 <= k < |all| ensures Passed(all, k, j) <==> Lost(pieces, breaks, n, k + n - 1, j) {
      LostIs(pieces, breaks, n, k + n - 1, j);
    }
    if j < |wire| {
      DecodeCut(all, end, j);
    } else {
      assert wire[..j] == wire;
      DecodeSome(all, end);
      AllPassed(all, end, j);
    }
  }

  lemma LostIs(pieces: seq<seq<byte>>, breaks: bool, n: nat, i: nat, j: nat)
    requires 1 <= n <= i < |pieces| && |Concat(pieces[..n])| < INT_MAX
    ensures Lost(pieces, breaks, n, i, j) <==> Passed([Concat(pieces[..n])] + AllSent(pieces[n..]), i + 1 - n, j)
  {
    hide Decode, BodyStart, Frame, AllSent, Tail;
    var first, rest, k := Concat(pieces[..n]), pieces[n..], i + 1 - n;
    var all := [first] + AllSent(rest);
    TailPrefix(rest, breaks, |first|, k);
    StartIsFrame(pieces, n);
    FramesCons(all, k);
    AllSentOf(rest, k);
    assert all[1..] == AllSent(rest);
  }

  lemma AllSentOf(rest: seq<seq<byte>>, k: nat)
    requires 1 <= k <= |rest|
    ensures AllSent(rest)[..k] == AllSent(rest[..k])
    ensures AllSent(rest)[k - 1] == [] <==> Vanishes(rest[k - 1])
  {
  }

  lemma AllPassed(all: seq<seq<byte>>, end: seq<byte>, j: nat)
    requires j == |Frames(all) + end|
    ensures [] in all <==> exists k :: 0 <= k < |all| && Passed(all, k, j)
  {
    hide Frame;
    forall k | 0 <= k < |all| ensures all[k] == [] ==> Passed(all, k, j) {
      FramesUpTo(all, k + 1);
    }
    if [] in all {
      var k :| 0 <= k < |all| && all[k] == [];
      assert Passed(all, k, j);
    }
  }

  lemma {:induction false} FramesUpTo(all: seq<seq<byte>>, k: nat)
    requires k <= |all|
    ensures |Frames(all[..k])| <= |Frames(all)|
  {
    if k > 0 {
      FramesCons(all, k - 1);
      FramesUpTo(all[1..], k - 1);
    }
  }

  /** So without items of 4 GiB or more no part of a chunked body is ever taken for a whole one. */
  lemma NeverMistaken(pieces: seq<seq<byte>>, breaks: bool, n: nat, j: nat)
    requires [] !in pieces && 1 <= n <= |pieces| && |Concat(pieces[..n])| < INT_MAX && AllShort(pieces)
    requires j <= |BodyStart(pieces, Streamed(n)) + Concat(TailOf(pieces, breaks, Streamed(n)))|
    ensures var wire := BodyStart(pieces, Streamed(n)) + Concat(TailOf(pieces, breaks, Streamed(n)));
              Decode(wire[..j]).Some? <==> j == |wire| && !breaks
  {
    hide Decode, BodyStart, TailOf, Concat;
    ChunkedCut(pieces, breaks, n, j);
    forall i | n <= i < |pieces| ensures !Lost(pieces, breaks, n, i, j) {
      assert pieces[i] in pieces && 0 < |pieces[i]| < UINT_RANGE;
    }
  }

  // ---------------------------------------------------------------- bodies with a Content-Length

  /** How many more items are pulled: none once `total` bytes were written. */
  function PulledRest(rest: seq<seq<byte>>, total: nat, written: nat): (m: nat)
    ensures m <= |rest|
  {
    if written >= total || rest == [] then 0 else 1 + PulledRest(rest[1..], total, written + |rest[0]|)
  }

  /** How many items of the body are sent when the first `n` go out with the head. */
  function Pulled(pieces: seq<seq<byte>>, total: nat, n: nat): (m: nat)
    requires n <= |pieces|
    ensures n <= m <= |pieces|
  {
    n + PulledRest(pieces[n..], total, |Concat(pieces[..n])|)
  }

  /** How a body of `size` bytes ends that was to have `total`. */
  function EndBy(size: nat, total: nat, breaks: bool): End {
    if size > total then Overrun else if size == total then Complete else if breaks then Broke else Short
  }

  lemma {:induction false} LengthTail(rest: seq<seq<byte>>, breaks: bool, total: nat, written: nat)
    ensures var m := PulledRest(rest, total, written);
              && Concat(Tail(rest, breaks, false, total, written)) == Concat(AllSent(rest[..m]))
              && EndOf(rest, breaks, false, total, written) == EndBy(written + |Concat(rest[..m])|, total, breaks)
              && (m < |rest| ==> written + |Concat(rest[..m])| >= total)
  {
    hide Sent;
    NothingSent();
    if written < total && rest != [] {
      var more := Tail(rest[1..], breaks, false, total, written + |rest[0]|);
      var m := PulledRest(rest, total, written);
      LengthTail(rest[1..], breaks, total, written + |rest[0]|);
      assert rest[..m] == [rest[0]] + rest[1..][..m - 1];
      ConcatCons(rest[0], rest[1..][..m - 1]);
      assert AllSent(rest[..m]) == [Sent(rest[0])] + AllSent(rest[1..][..m - 1]);
      ConcatCons(Sent(rest[0]), AllSent(rest[1..][..m - 1]));
      ConcatCons(Sent(rest[0]), more);
    }
  }

  /** The body bytes of a response with a Content-Length are the items pulled, each cut to 32 bits of
      length: no item is pulled once the announced length is reached, and all are when it is not. The end
      that write_cb sees tells exactly how the size of these items compares to the length announced. */
  lemma LengthRun(pieces: seq<seq<byte>>, breaks: bool, total: nat, n: nat)
    requires n <= |pieces|
    ensures var d := Announce(total, n);
            var m := Pulled(pieces, total, n);
            var wire, size := BodyStart(pieces, d) + Concat(TailOf(pieces, breaks, d)), |Concat(pieces[..m])|;
              && wire == Concat(AllSent(pieces[..m]))
              && EndFor(pieces, breaks, d) == EndBy(size, total, breaks)
              && (m == |pieces| || size >= total)
              && (wire == Concat(pieces[..m]) <==> AllShort(pieces[..m]))
              && (|Concat(pieces)| == total ==>
                    EndFor(pieces, breaks, d) == Complete && Concat(pieces[..m]) == Concat(pieces))
  {
    hide Tail, EndOf, Concat, AllSent, PulledRest;
    var first, rest := pieces[..n], pieces[n..];
    var k := PulledRest(rest, total, |Concat(first)|);
    var pulled := pieces[..n + k];
    LengthTail(rest, breaks, total, |Concat(first)|);
    assert pulled == first + rest[..k] && pieces == pulled + pieces[n + k..];
    ConcatAppend(first, rest[..k]);
    ConcatAppend(pulled, pieces[n + k..]);
    AllSentAppend(first, rest[..k]);
    ConcatAppend(AllSent(first), AllSent(rest[..k]));
    SentShorter(pulled);
    if AllShort(pulled) { ShortSent(pulled); }
    if n + k == |pieces| { assert pulled == pieces; }
    if |Concat(pieces)| == total {
      assert Concat(pulled) == Concat(pieces)[..|Concat(pulled)|];
    }
  }

  lemma AllSentAppend(a: seq<seq<byte>>, b: seq<seq<byte>>)
    ensures AllSent(a + b) == AllSent(a) + AllSent(b)
  {
  }

  /** Without items of 4 GiB or more these bytes are simply the beginning of what the app yields. */
  lemma LengthPrefix(pieces: seq<seq<byte>>, breaks: bool, total: nat, n: nat)
    requires n <= |pieces| && AllShort(pieces)
    ensures var d := Announce(total, n);
            var wire := BodyStart(pieces, d) + Concat(TailOf(pieces, breaks, d));
              && wire <= Concat(pieces) && EndFor(pieces, breaks, d) == EndBy(|wire|, total, breaks)
  {
    hide Concat, AllSent, EndFor, BodyStart, TailOf;
    LengthRun(pieces, breaks, total, n);
    var m := Pulled(pieces, total, n);
    assert pieces == pieces[..m] + pieces[m..];
    ConcatAppend(pieces[..m], pieces[m..]);
    assert forall i :: 0 <= i < m ==> pieces[..m][i] == pieces[i];
  }

  /** Only a length that the app declared itself can turn out wrong. */
  lemma OnlyDeclaredLengthsFail(req: Request, app: App, kind: BodyKind, items: seq<Item>)
    ensures EndingOf(req, app, kind, items) in {Overrun, Short} ==>
              DeclaredBy(app.headers).Length? && DeclaredBy(app.headers).n > 0
  {
    var pieces, breaks := PiecesOf(kind, items), !kind.BytesBody? && Breaks(items);
    if Servable(req, app, kind, items) && !Bodyless(app.status, req.isHead) {
      var d := DecisionFor(req, app, kind, items);
      match d
      case Announce(total, n) =>
        LengthRun(pieces, breaks, total, n);
        assert n == |pieces| ==> pieces[..n] == pieces;
      case Streamed(n) =>
        ChunkedNeverWrong(pieces[n..], breaks, |Concat(pieces[..n])|);
    }
  }

  lemma {:induction false} ChunkedNeverWrong(rest: seq<seq<byte>>, breaks: bool, written: nat)
    ensures EndOf(rest, breaks, true, 0, written) == if breaks then Broke else Complete
  {
    if rest != [] {
      ChunkedNeverWrong(rest[1..], breaks, written + |rest[0]|);
    }
  }

  // ---------------------------------------------------------------- whole responses

  /** What keeps the parts of a head apart; the status line states the status. */
  predicate WellFormed(req: Request, app: App, date: seq<byte>) {
    && app.start.Some? && Head.OneLine(app.start.value) && Head.Sound(req.cfg, date)
    && Head.StatusIn(app.start.value) == Some(app.status)
    && forall i :: 0 <= i < |app.headers| ==> Head.Printable(app.headers[i])
  }

  /** The first write starts with a head, and a client parses the whole response into that head's
      fields and a body. */
  lemma ParseWrites(req: Request, app: App, date: seq<byte>, kind: BodyKind, items: seq<Item>)
    requires Servable(req, app, kind, items) && WellFormed(req, app, date) && !Bodyless(app.status, req.isHead)
    ensures var d, pieces := DecisionFor(req, app, kind, items), PiecesOf(kind, items);
            var fields := Head.Fields(req.cfg, app.headers, date, req.keepAlive, FramingFor(req, app, d));
            var body := BodyStart(pieces, d) + Concat(TailOf(pieces, !kind.BytesBody? && Breaks(items), d));
              Head.Parse(Concat(Writes(req, app, date, kind, items))) ==
                Some(Head.Parsed(app.start.value, Head.AllTrimmed(fields), body))
  {
    hide DecideFor, PiecesOf, TailOf, BodyStart, Head.Fields, Head.Text, Head.Parse, Breaks, Concat;
    var d, pieces := DecisionFor(req, app, kind, items), PiecesOf(kind, items);
    var framing := FramingFor(req, app, d);
    var text := Head.Text(app.start.value, Head.Fields(req.cfg, app.headers, date, req.keepAlive, framing));
    var tail := TailOf(pieces, !kind.BytesBody? && Breaks(items), d);
    ConcatCons(text + BodyStart(pieces, d), tail);
    assert text + BodyStart(pieces, d) + Concat(tail) == text + (BodyStart(pieces, d) + Concat(tail));
    Head.HeadRoundTrip(req.cfg, app.start.value, app.headers, date, req.keepAlive, framing,
                       BodyStart(pieces, d) + Concat(tail));
  }

  /** Every chunked response: parsing the head and decoding the rest gives the app's bytes exactly. */
  lemma ChunkedResponse(req: Request, app: App, date: seq<byte>, kind: BodyKind, items: seq<Item>)
    requires Servable(req, app, kind, items) && WellFormed(req, app, date) && !Bodyless(app.status, req.isHead)
    requires DecisionFor(req, app, kind, items).Streamed?
    ensures var parsed := Head.Parse(Concat(Writes(req, app, date, kind, items)));
              && parsed.Some?
              && parsed.value.fields ==
                   Head.AllTrimmed(Head.Fields(req.cfg, app.headers, date, req.keepAlive, Head.ChunkedCoding))
              && (Decode(parsed.value.rest) == Some((Concat(Good(items)), []))
                  <==> !Breaks(items) && AllShort(Good(items)))
  {
    hide Writes, Head.Parse, Head.Fields, Head.AllTrimmed, TailOf, BodyStart, Decode, Breaks, Concat, Good, AllShort;
    ParseWrites(req, app, date, kind, items);
    ChunkedRun(Good(items), Breaks(items), DecisionFor(req, app, kind, items).first);
  }

  lemma EndingIs(req: Request, app: App, kind: BodyKind, items: seq<Item>)
    requires Servable(req, app, kind, items) && !Bodyless(app.status, req.isHead)
    ensures EndingOf(req, app, kind, items) ==
            EndFor(PiecesOf(kind, items), !kind.BytesBody? && Breaks(items), DecisionFor(req, app, kind, items))
  {
  }

  /** Every response with a Content-Length: the length in the head is the one the body is held to, the body
      on the wire is the items pulled, and write_cb sees the end as complete exactly when their size is that
      length. */
  lemma LengthResponse(req: Request, app: App, date: seq<byte>, kind: BodyKind, items: seq<Item>)
    requires Servable(req, app, kind, items) && WellFormed(req, app, date) && !Bodyless(app.status, req.isHead)
    requires DecisionFor(req, app, kind, items).Announce?
    ensures var parsed := Head.Parse(Concat(Writes(req, app, date, kind, items)));
              && parsed.Some? && |parsed.value.fields| >= 1
              && Head.Named(parsed.value.fields[|parsed.value.fields| - 1].name, Head.CONTENT_LENGTH)
              && Head.ParseDecimal(parsed.value.fields[|parsed.value.fields| - 1].value)
                   == Some(DecisionFor(req, app, kind, items).total)
    ensures var rest := Head.Parse(Concat(Writes(req, app, date, kind, items))).value.rest;
            var d, breaks := DecisionFor(req, app, kind, items), !kind.BytesBody? && Breaks(items);
            var pulled := PiecesOf(kind, items)[..Pulled(PiecesOf(kind, items), d.total, d.first)];
              && rest == Concat(AllSent(pulled)) && (rest == Concat(pulled) <==> AllShort(pulled))
              && EndingOf(req, app, kind, items) == EndBy(|Concat(pulled)|, d.total, breaks)
              && (AllShort(PiecesOf(kind, items)) ==>
                    && rest <= Concat(PiecesOf(kind, items))
                    && EndingOf(req, app, kind, items) == EndBy(|rest|, d.total, breaks))
  {
    hide Writes, Head.Parse, Head.Fields, Head.AllTrimmed, TailOf, BodyStart, Breaks, Concat, Good, AllShort, DecideFor;
    hide EndFor, EndingOf, EndBy, Head.Named, Head.ParseDecimal, PiecesOf, WellFormed, AllSent, PulledRest;
    ParseWrites(req, app, date, kind, items);
    var d, breaks := DecisionFor(req, app, kind, items), !kind.BytesBody? && Breaks(items);
    Head.ContentLengthRoundTrip(req.cfg, app.headers, date, req.keepAlive, d.total);
    EndingIs(req, app, kind, items);
    LengthRun(PiecesOf(kind, items), breaks, d.total, d.first);
    if AllShort(PiecesOf(kind, items)) {
      LengthPrefix(PiecesOf(kind, items), breaks, d.total, d.first);
    }
  }

  /** The response to a HEAD request depends on whether more bytes were received behind it, because the
      parser is reset when none were: its Content-Length is then 0, and otherwise the app's. The two
      responses are the same exactly when the app declares a length of 0. */
  lemma HeadDependsOnBuffer(req: Request, app: App, date: seq<byte>, kind: BodyKind, items: seq<Item>)
    requires req.isHead && Servable(req, app, kind, items)
    ensures var left, none := req.(parserHead := true), req.(parserHead := false);
              && Servable(left, app, kind, items) && Servable(none, app, kind, items)
              && (Writes(left, app, date, kind, items) == Writes(none, app, date, kind, items)
                  <==> DeclaredBy(app.headers) == Length(0))
  {
    hide DecideFor, PiecesOf, Head.Text, Head.Fields, Concat, DeclaredBy;
    var left, none := req.(parserHead := true), req.(parserHead := false);
    var d := DecisionFor(req, app, kind, items);
    Head.FramingTold(req.cfg, app.start.value, app.headers, date, req.keepAlive,
                     FramingFor(left, app, d), FramingFor(none, app, d));
  }
}
