/**
 The ASGI response of one request: the `http.response.body` events of the app, each awaited before the
 next, and the writes made for them (fastwsgi/asgi.c, server.c).
 */
module Asgi {
  import opened Bytes
  import opened Chunked
  import opened Wsgi
  import Head

  /** The chunk that ends the data of the last part and the body: CRLF and the last chunk. */
  const FOOTER: seq<byte> := [13, 10, 48, 13, 10, 13, 10]
  const INT_HALF: nat := 0x8000_0000

  // ---------------------------------------------------------------- what goes on the wire

  /** (int)n */
  function ToInt(n: nat): int {
    var m := n % UINT_RANGE;
    if m < INT_HALF then m else m - UINT_RANGE
  }

  /** The bytes in front of a part that is not the first: its size, unless that is not positive as an int. */
  function PartLine(n: nat): seq<byte> {
    if ToInt(n) > 0 then SizeLine(ToInt(n)) else LAST
  }

  function Part(data: seq<byte>): seq<byte> {
    PartLine(|data|) + Sent(data) + CRLF
  }

  function Parts(parts: seq<seq<byte>>): seq<byte> {
    if parts == [] then [] else Part(parts[0]) + Parts(parts[1..])
  }

  /** Empty parts are not sent. */
  function Filled(parts: seq<seq<byte>>): (r: seq<seq<byte>>)
    ensures [] !in r
  {
    if parts == [] then []
    else if parts[0] == [] then Filled(parts[1..])
    else [parts[0]] + Filled(parts[1..])
  }

  lemma {:induction false} FilledSnoc(parts: seq<seq<byte>>, data: seq<byte>)
    ensures Filled(parts + [data]) == Filled(parts) + if data == [] then [] else [data]
  {
    if parts == [] {
      assert [data][1..] == [];
    } else {
      FilledSnoc(parts[1..], data);
      assert (parts + [data])[1..] == parts[1..] + [data];
    }
  }

  lemma {:induction false} PartsSnoc(parts: seq<seq<byte>>, data: seq<byte>)
    ensures Parts(parts + [data]) == Parts(parts) + Part(data)
  {
    if parts == [] {
      assert [data][1..] == [];
      assert Parts([data]) == Part(data) + [];
    } else {
      calc {
        Parts(parts + [data]);
        { assert (parts + [data])[1..] == parts[1..] + [data]; }
        Part(parts[0]) + Parts(parts[1..] + [data]);
        { PartsSnoc(parts[1..], data); }
        Part(parts[0]) + (Parts(parts[1..]) + Part(data));
        Parts(parts) + Part(data);
      }
    }
  }

  /** The body bytes of a response with several parts. When all are empty, the head that was held back
      says "0" CRLF and nothing follows. */
  function BodyBytes(parts: seq<seq<byte>>, last: bool): seq<byte> {
    if Filled(parts) == [] then (if last then SizeLine(0) else [])
    else Parts(Filled(parts)) + if last then LAST else []
  }

  // ---------------------------------------------------------------- what a client decodes

  predicate AllSmall(parts: seq<seq<byte>>) {
    forall i :: 0 <= i < |parts| ==> |parts[i]| < INT_HALF
  }

  /** A part whose size fits an int is a chunk with its bytes. */
  lemma DecodeSmall(data: seq<byte>, more: seq<byte>)
    requires 0 < |data| < INT_HALF
    ensures Decode(Part(data) + more) ==
            match Decode(more)
            case None => None
            case Some((body, tail)) => Some((data + body, tail))
  {
    hide Decode, SizeLine;
    assert Sent(data) == data;
    DecodeFrame(data, more);
  }

  /** Any other part is decoded as less than itself, or ends the body. */
  lemma DecodeBig(data: seq<byte>, more: seq<byte>)
    requires |data| >= INT_HALF
    ensures Decode(Part(data) + more).Some? ==>
              var n := |Decode(Part(data) + more).value.0|;
              n == 0 || (Decode(more).Some? && n < |data| + |Decode(more).value.0|)
  {
    hide Decode, SizeLine;
    if ToInt(|data|) > 0 {
      assert |Sent(data)| == ToInt(|data|) < |data|;
      assert Part(data) == Frame(Sent(data));
      DecodeFrame(Sent(data), more);
    } else {
      var next := Sent(data) + CRLF + more;
      assert Part(data) + more == LAST + next;
      DecodeLast(next);
    }
  }

  lemma {:induction false} DecodeParts(parts: seq<seq<byte>>)
    requires [] !in parts
    decreases |parts|, 0
    ensures var d := Decode(Parts(parts) + LAST);
              && (d.Some? ==> |d.value.0| <= |Concat(parts)|)
              && (d == Some((Concat(parts), [])) <==> AllSmall(parts))
  {
    if parts == [] {
      assert Parts(parts) + LAST == LAST == LAST + [];
      DecodeLast([]);
    } else {
      DecodeCons(parts[0], parts[1..]);
      assert parts == [parts[0]] + parts[1..];
    }
  }

  lemma {:induction false} DecodeCons(x: seq<byte>, rest: seq<seq<byte>>)
    requires x != [] && [] !in rest
    ensures var d := Decode(Parts([x] + rest) + LAST);
              && (d.Some? ==> |d.value.0| <= |Concat([x] + rest)|)
              && (d == Some((Concat([x] + rest), [])) <==> AllSmall([x] + rest))
    decreases |rest|, 1
  {
    hide Decode, AllSmall, Part, Concat;
    var more := Parts(rest) + LAST;
    assert ([x] + rest)[1..] == rest;
    assert Parts([x] + rest) + LAST == Part(x) + more;
    DecodeParts(rest);
    SmallCons(x, rest);
    ConcatCons(x, rest);
    if |x| < INT_HALF {
      DecodeSmall(x, more);
      if Decode(more).Some? {
        assert (x + Decode(more).value.0)[|x|..] == Decode(more).value.0;
        assert (x + Concat(rest))[|x|..] == Concat(rest);
      }
    } else {
      DecodeBig(x, more);
    }
  }

  lemma {:induction false} FilledConcat(parts: seq<seq<byte>>)
    ensures Concat(Filled(parts)) == Concat(parts)
    ensures AllSmall(Filled(parts)) <==> AllSmall(parts)
  {
    if parts != [] {
      FilledConcat(parts[1..]);
      SmallCons(parts[0], parts[1..]);
      SmallCons(parts[0], Filled(parts[1..]));
      assert parts == [parts[0]] + parts[1..];
      if parts[0] != [] {
        ConcatCons(parts[0], Filled(parts[1..]));
      }
    }
  }

  lemma SmallCons(x: seq<byte>, rest: seq<seq<byte>>)
    ensures AllSmall([x] + rest) <==> |x| < INT_HALF && AllSmall(rest)
  {
    if AllSmall([x] + rest) {
      assert |([x] + rest)[0]| < INT_HALF;
      forall i | 0 <= i < |rest| ensures |rest[i]| < INT_HALF { assert |([x] + rest)[i + 1]| < INT_HALF; }
    }
  }

  /** A response of several parts decodes to exactly the app's bytes, with nothing left over, if and only
      if some part is not empty and the size of every part fits an int. */
  lemma AsgiRun(parts: seq<seq<byte>>)
    ensures Decode(BodyBytes(parts, true)) == Some((Concat(parts), []))
            <==> (exists i :: 0 <= i < |parts| && parts[i] != []) && AllSmall(parts)
  {
    FilledSome(parts);
    FilledConcat(parts);
    if Filled(parts) == [] {
      assert SizeLine(0) == Hex(0) + CRLF;
      ParsePrinted(0, false, CRLF);
    } else {
      DecodeParts(Filled(parts));
    }
  }

  lemma {:induction false} FilledSome(parts: seq<seq<byte>>)
    ensures Filled(parts) != [] <==> exists i :: 0 <= i < |parts| && parts[i] != []
  {
    if parts != [] {
      FilledSome(parts[1..]);
      if i :| 0 <= i < |parts| && parts[i] != [] {
        if i > 0 { assert parts[1..][i - 1] != []; }
      }
      if j :| 0 <= j < |parts[1..]| && parts[1..][j] != [] {
        assert parts[j + 1] != [];
      }
    }
  }

  // ---------------------------------------------------------------- asgi_send

  /** The bytes of one write behind the head, for the part `data` after `parts`. */
  function Piece(parts: seq<seq<byte>>, data: seq<byte>, last: bool): seq<byte> {
    (if Filled(parts) == [] then SizeLine(|data|) else PartLine(|data|))
    + (if data == [] then [] else Sent(data) + if last then FOOTER else CRLF)
  }

  lemma PieceAdds(parts: seq<seq<byte>>, data: seq<byte>, last: bool)
    requires data != [] || last
    requires Filled(parts) == [] ==> |data| < INT_MAX
    ensures BodyBytes(parts + [data], last) == BodyBytes(parts, false) + Piece(parts, data, last)
    ensures Filled(parts + [data]) == [] <==> Filled(parts) == [] && data == []
  {
    hide SizeLine, Parts, Filled, Sent, PartLine;
    var before := Filled(parts);
    FilledSnoc(parts, data);
    PartLines(|data|);
    if data == [] {
      assert before + [] == before;
    } else {
      NoParts();
      var line, sent, end := PartLine(|data|), Sent(data), if last then LAST else [];
      calc {
        BodyBytes(parts + [data], last);
        Parts(before + [data]) + end;
        { PartsSnoc(before, data); }
        (Parts(before) + (line + sent + CRLF)) + end;
        Parts(before) + (line + (sent + (CRLF + end)));
        { assert CRLF + end == if last then FOOTER else CRLF; }
        BodyBytes(parts, false) + Piece(parts, data, last);
      }
    }
  }

  lemma PartLines(n: nat)
    ensures n == 0 ==> PartLine(n) == LAST
    ensures 0 < n < INT_MAX ==> PartLine(n) == SizeLine(n)
  {
  }

  lemma NoParts()
    ensures Parts([]) == []
  {
  }

  lemma NoneFilled()
    ensures Filled([]) == []
  {
  }

  lemma NothingToSend()
    ensures Sent([]) == []
  {
  }

  lemma NoBytes(parts: seq<seq<byte>>)
    requires Filled(parts) == []
    ensures BodyBytes(parts, false) == []
  {
  }

  /** What the scatter list makes of the chunks of one part. */
  lemma ChunksSent(data: seq<byte>)
    ensures Concat(AllSent([data])) == Sent(data)
    ensures Concat(AllSent([data, FOOTER])) == Sent(data) + FOOTER
    ensures AllSent(OneBytes(data)) == if data == [] then [] else AllSent([data])
  {
    assert AllSent([data]) == [Sent(data)];
    assert Sent(FOOTER) == FOOTER[..7] == FOOTER;
    assert AllSent([data, FOOTER]) == [Sent(data)] + [FOOTER];
    ConcatEmpty<byte>();
    ConcatSnoc([], Sent(data));
    ConcatSnoc([Sent(data)], FOOTER);
    assert [] + [Sent(data)] == [Sent(data)] && [] + Sent(data) == Sent(data);
  }

  datatype Answer = Immediate | Future | Failed
  datatype Queued = Skip | Ready | Full

  class Sender {
    const client: Client
    const start: Option<seq<byte>>  // the status line, if the status has a name
    const status: int
    const headers: seq<Head.Header>
    const date: seq<byte>

    var startResponse: bool         // the head is still held back
    var numBody: nat
    var latestChunk: bool
    var future: bool                // the app awaits the write
    ghost var parts: seq<seq<byte>> // the bodies of all events so far
    ghost const base: seq<byte>     // what was on the wire before this response

    constructor (client: Client, start: Option<seq<byte>>, status: int, headers: seq<Head.Header>, date: seq<byte>)
      requires client.Reset() && !client.inFlight && (client.parserHead ==> client.isHead)
      ensures this.client == client && this.start == start && this.status == status && this.headers == headers
      ensures this.date == date && base == Concat(client.writes) && parts == [] && Waiting()
    {
      this.client, this.start, this.status, this.headers, this.date := client, start, status, headers, date;
      startResponse, numBody, latestChunk, future, parts := true, 0, false, false, [];
      base := Concat(client.writes);
    }

    ghost function Text(framing: Head.Framing): seq<byte> {
      if start.None? then []
      else Head.Text(start.value, Head.Fields(client.cfg, headers, date, client.keepAlive, framing))
    }

    /** A response in one part has a Content-Length of its own. */
    ghost function OnePart(data: seq<byte>): seq<byte>
      reads client`contentLength
    {
      if !Bodyless(status, client.isHead) then Text(Head.ContentLength(|data|)) + Sent(data)
      else if !client.parserHead then Text(Head.ContentLength(0))
      else if client.contentLength >= 0 then Text(Head.ContentLength(client.contentLength))
      else Text(Head.NoFraming)
    }

    /** What the response has put on the wire when the parts `ps` were sent, the last of all among them or
        not: without a body it is the head alone. */
    ghost function Wire(ps: seq<seq<byte>>, last: bool): seq<byte>
      reads client`contentLength
    {
      if Bodyless(status, client.isHead) then (if last || Filled(ps) != [] then OnePart([]) else [])
      else if last && |ps| == 1 then OnePart(ps[0])
      else if Filled(ps) == [] && !last then []
      else Text(Head.ChunkedCoding) + BodyBytes(ps, last)
    }

    lemma BareAdds(data: seq<byte>, last: bool)
      requires Bodyless(status, client.isHead) && (data != [] || last || Filled(parts) != [])
      ensures Wire(parts + [data], last) == Wire(parts, false) + if Filled(parts) == [] then OnePart([]) else []
    {
      hide OnePart, Filled;
      FilledSnoc(parts, data);
      assert [] + OnePart([]) == OnePart([]) && OnePart([]) + [] == OnePart([]);
    }

    lemma WireAdds(data: seq<byte>, last: bool)
      requires (data != [] || last) && !Bodyless(status, client.isHead)
      requires Filled(parts) == [] ==> |data| < INT_MAX
      requires !(last && parts == [])
      ensures Wire(parts + [data], last) ==
              Wire(parts, false) + ((if Filled(parts) == [] then Text(Head.ChunkedCoding) else [])
                + Piece(parts, data, last))
    {
      hide Text, Filled, BodyBytes, Piece;
      PieceAdds(parts, data, last);
      var text, piece, before := Text(Head.ChunkedCoding), Piece(parts, data, last), BodyBytes(parts, false);
      if Filled(parts) == [] {
        NoBytes(parts);
        assert [] + (text + piece) == text + piece && [] + piece == piece;
      } else {
        assert [] + piece == piece;
        assert text + (before + piece) == (text + before) + piece;
      }
    }

    lemma WireSkips()
      ensures Wire(parts + [[]], false) == Wire(parts, false)
      ensures Filled(parts + [[]]) == Filled(parts)
    {
      hide Text, OnePart;
      FilledSnoc(parts, []);
      assert Filled(parts) + [] == Filled(parts);
    }

    /** What holds whatever the app does: the array of chunks keeps one place free. */
    ghost predicate Safe()
      reads `numBody, `startResponse, client`bodyChunkNum, client`wsgiBody, client`bodyIterator, client`live
      reads client`taken
      reads client`chunked, client`bodyTotalSize, client`bodyPreloadedSize, client.body, client.bodyIterator
    {
      && client.Sound() && client.Balanced() && client.bodyIterator == null && client.wsgiBody == null
      && client.bodyChunkNum <= MAX_PRELOADED_BODY_CHUNKS && client.chunked <= 2 && client.bodyTotalSize >= 0
      && (client.parserHead ==> client.isHead)
      && (numBody == 0 ==>
            client.bodyChunkNum == 0 && client.bodyPreloadedSize == 0 && client.chunked == 0 && startResponse)
    }

    /** The head of a response without a body is made: nothing else is written. */
    ghost predicate Dropped()
      reads `startResponse
    {
      Bodyless(status, client.isHead) && !startResponse
    }

    /** Between the events: nothing is on its way and the app may send the next part. */
    ghost predicate Waiting()
      reads this, client, client.body, client.bodyIterator
    {
      && Safe() && !latestChunk && !client.inFlight && !future
      && client.bodyChunkNum == 0 && client.bodyPreloadedSize == 0 && client.bodyTotalSize == 0
      && numBody == |parts| && client.chunked == (if parts == [] || Dropped() then 0 else 1)
      && (startResponse <==> Filled(parts) == []) && (!startResponse ==> client.headersSize == 0)
      && Concat(client.writes) == base + Wire(parts, latestChunk)
      && (parts == [] || Dropped() ==> client.bodyTotalWritten == 0)
    }

    /** A part is on its way and the app awaits it. */
    ghost predicate Writing()
      reads this, client, client.body, client.bodyIterator
    {
      && Safe() && client.inFlight && future && client.state == RespSend
      && numBody == |parts| >= 1 && !startResponse
      && client.chunked == (if Dropped() || (latestChunk && |parts| == 1) then 0 else if latestChunk then 2 else 1)
      && (!latestChunk ==> client.bodyTotalSize == 0 && Filled(parts) != [])
      && (client.chunked == 0 ==> client.bodyTotalWritten + client.bodyPreloadedSize == client.bodyTotalSize)
      && Concat(client.writes) == base + Wire(parts, latestChunk)
    }

    /** body[body_chunk_num++] = data, if there is room. */
    method Append(data: seq<byte>, counted: bool) returns (ok: bool)
      requires client.Sound() && client.Balanced() && client.bodyChunkNum <= MAX_PRELOADED_BODY_CHUNKS
      modifies client`bodyChunkNum, client`bodyPreloadedSize, client`live, client`taken, client.body
      ensures client.Sound() && client.Balanced() && client.bodyChunkNum <= MAX_PRELOADED_BODY_CHUNKS
      ensures ok == (old(client.bodyChunkNum) < MAX_PRELOADED_BODY_CHUNKS)
      ensures ok ==> Datas(client.Held()) == old(Datas(client.Held())) + [data]
      ensures ok ==> client.bodyPreloadedSize == old(client.bodyPreloadedSize) + if counted then |data| else 0
      ensures !ok ==> client.Held() == old(client.Held()) && client.bodyPreloadedSize == old(client.bodyPreloadedSize)
    {
      if client.bodyChunkNum >= MAX_PRELOADED_BODY_CHUNKS { return false; }
      ghost var held := client.Held();
      var c := Chunk(client.taken, data);
      client.taken := client.taken + 1;
      client.live := client.live + {c.id};
      client.body[client.bodyChunkNum] := c;
      client.bodyChunkNum := client.bodyChunkNum + 1;
      if counted {
        client.bodyPreloadedSize := client.bodyPreloadedSize + |data|;
      }
      assert client.Held() == held + [c];
      assert Datas(client.Held()) == Datas(held) + [data];
      return true;
    }

    /** The part of asgi_send that queues the event's body; `numBody` already counts it. */
    method Queue(data: seq<byte>, more: bool) returns (r: Queued)
      requires client.Sound() && client.Balanced() && client.bodyChunkNum <= MAX_PRELOADED_BODY_CHUNKS
      requires client.chunked <= 2
      requires numBody >= 1
      requires numBody == 1 ==> client.bodyChunkNum == 0 && client.bodyPreloadedSize == 0 && client.chunked == 0
      requires client.bodyTotalSize >= 0
      modifies client`bodyChunkNum, client`bodyPreloadedSize, client`live, client`taken, client.body
      modifies client`bodyTotalSize, client`chunked
      ensures client.Sound() && client.Balanced() && client.bodyChunkNum <= MAX_PRELOADED_BODY_CHUNKS
      ensures client.chunked <= 2
      ensures client.bodyTotalSize >= 0 && client.chunked >= old(client.chunked)
      ensures numBody == 1 && !more ==>
                r == Ready && client.chunked == 0 && Datas(client.Held()) == OneBytes(data)
                && client.bodyPreloadedSize == client.bodyTotalSize == |data|
      ensures !(numBody == 1 && !more) ==> client.bodyTotalSize == old(client.bodyTotalSize)
      ensures && !(numBody == 1 && !more) && old(client.bodyChunkNum) == 0
              && (numBody == 1 || old(client.chunked) == 1) ==>
                && client.chunked == (if more then 1 else 2)
                && r == (if data == [] && more then Skip else Ready)
                && Datas(client.Held()) == (if data == [] then [] else if more then [data] else [data, FOOTER])
                && client.bodyPreloadedSize == old(client.bodyPreloadedSize) + |data|
      ensures numBody > 1 && old(client.chunked) == 0 ==>
                && r == Ready && client.chunked == 0 && client.bodyChunkNum == old(client.bodyChunkNum)
                && client.bodyPreloadedSize == old(client.bodyPreloadedSize)
    {
      hide Datas, Client.Balanced, Client.Sound;
      if numBody == 1 {
        if !more {
          client.bodyTotalSize := |data|;
          if |data| == 0 {
            client.bodyPreloadedSize := 0;
          } else {
            var _ := Append(data, true);
          }
        } else {
          client.chunked := 1;
          client.bodyChunkNum := 0;
        }
      }
      if client.chunked != 0 {
        if |data| == 0 && more { return Skip; }
        if |data| > 0 {
          var ok := Append(data, true);
          if !ok { return Full; }
        }
        if !more {
          client.chunked := 2;
          if |data| > 0 {
            var ok := Append(FOOTER, false);
            if !ok { return Full; }
          }
        }
      }
      return Ready;
    }

    /** asgi_build_response for the first write, a size line for the others. */
    method SetHead() returns (ok: bool)
      requires client.Sound() && client.Balanced() && client.bodyIterator == null && client.wsgiBody == null
      requires client.chunked <= 2 && client.bodyTotalSize >= 0 && (client.parserHead ==> client.isHead)
      modifies this`startResponse, client`head, client`headersSize, client`bodyChunkNum, client`bodyPreloadedSize
      modifies client`live, client`bodyTotalSize, client`bodyTotalWritten, client`wsgiBody, client`bodyIterator
      modifies client`chunked, client.wsgiBody
      ensures client.Sound() && client.Balanced() && client.bodyIterator == null && client.wsgiBody == null
      ensures client.chunked <= 2 && client.bodyTotalSize >= 0 && client.bodyChunkNum <= old(client.bodyChunkNum)
      ensures !startResponse
      ensures var bodyless := Bodyless(status, client.isHead);
                if old(startResponse) then
                  && ok == (start.Some? &&
                            !(!bodyless && old(client.chunked) != 0 && old(client.bodyPreloadedSize) >= INT_MAX))
                  && (ok ==> client.headersSize == |client.head| > 0)
                  && (ok && !bodyless && old(client.chunked) == 0 ==>
                        client.head == Text(Head.ContentLength(old(client.bodyTotalSize))))
                  && (ok && !bodyless && old(client.chunked) != 0 ==>
                        client.head == Text(Head.ChunkedCoding) + SizeLine(old(client.bodyPreloadedSize)))
                  && (ok && bodyless ==>
                        client.head == OnePart([]) && client.bodyChunkNum == client.bodyPreloadedSize == 0
                        && client.bodyTotalSize == client.bodyTotalWritten == client.chunked == 0)
                else
                  ok && (client.chunked != 0 ==>
                           client.head == PartLine(old(client.bodyPreloadedSize))
                             && client.headersSize == |client.head| > 0)
                  && (client.chunked == 0 ==> client.headersSize == old(client.headersSize))
      ensures ok && !(old(startResponse) && Bodyless(status, client.isHead)) ==>
                && client.Held() == old(client.Held()) && client.bodyPreloadedSize == old(client.bodyPreloadedSize)
                && client.bodyTotalSize == old(client.bodyTotalSize) && client.chunked == old(client.chunked)
                && client.bodyTotalWritten == old(client.bodyTotalWritten)
    {
      hide Head.Fields, Closes, Hex;
      if startResponse {
        var len := client.BuildResponse(client.keepAlive, start, status, headers, date, -1);
        startResponse := false;
        ok := len > 0;
        if !ok {
          client.ResetHead();
          client.ResetBody();
        }
      } else {
        if client.chunked != 0 {
          var csize := ToInt(client.bodyPreloadedSize);
          client.head := if csize > 0 then SizeLine(csize) else LAST;
          client.headersSize := |client.head|;
        }
        return true;
      }
    }

    /** The head of this response cannot be made for the part. */
    ghost predicate Refused(data: seq<byte>, more: bool)
      reads `startResponse, `parts
    {
      && startResponse && (data != [] || !more)
      && (start.None? || ((parts != [] || more) && !Bodyless(status, client.isHead) && |data| >= INT_MAX))
    }

    /** The payload of the write for the part `data`, the chunks being queued and the head being set. */
    lemma PayloadIs(data: seq<byte>)
      requires client.Sound() && client.chunked <= 2
      requires client.headersSize == |client.head| > 0 && client.bodyPreloadedSize == |data|
      requires Datas(client.Held()) == if data == [] then [] else if client.chunked == 2 then [data, FOOTER] else [data]
      ensures client.chunked != 1 || data != [] ==>
                client.Payload() == client.head + if data == [] then [] else
                    Sent(data) + if client.chunked == 2 then FOOTER else if client.chunked == 1 then CRLF else []
    {
      hide Concat, AllSent, Sent;
      ChunksSent(data);
      var head, sent := client.head, Sent(data);
      assert head + [] == head && head + sent + [] == head + sent && sent + [] == sent;
      assert head + sent + CRLF == head + (sent + CRLF);
    }

    /** The chunks of a part. */
    ghost function Queueing(data: seq<byte>): seq<seq<byte>>
      reads client`chunked
    {
      if data == [] then [] else if client.chunked == 2 then [data, FOOTER] else [data]
    }

    /** A part is queued, unless it is dropped, and nothing is on its way. */
    ghost predicate Holding(data: seq<byte>, more: bool)
      reads this, client, client.body
      requires client.bodyChunkNum <= client.body.Length
    {
      && (data != [] || !more || Dropped()) && !client.inFlight && !future
      && (if Dropped() then
            && client.chunked == client.bodyChunkNum == client.bodyPreloadedSize == client.bodyTotalSize == 0
            && client.headersSize == client.bodyTotalWritten == 0
          else
            && client.chunked == (if numBody == 1 && !more then 0 else if more then 1 else 2)
            && Datas(client.Held()) == Queueing(data)
            && client.bodyPreloadedSize == |data| && client.bodyTotalSize == if client.chunked == 0 then |data| else 0)
      && numBody == |parts| + 1 && latestChunk == !more
      && (startResponse <==> Filled(parts) == []) && (parts == [] ==> client.bodyTotalWritten == 0)
      && Concat(client.writes) == base + Wire(parts, false)
    }

    /** The head that SetHead leaves for a queued part, or for one that is dropped. */
    ghost predicate Headed(data: seq<byte>, more: bool)
      reads this, client, client.body
      requires client.bodyChunkNum <= client.body.Length
    {
      && numBody == |parts| + 1
      && if Bodyless(status, client.isHead) then
           && (data != [] || !more || Filled(parts) != [])
           && client.chunked == client.bodyPreloadedSize == client.bodyTotalSize == client.bodyTotalWritten == 0
           && if Filled(parts) == [] then client.head == OnePart([]) && client.headersSize == |client.head| > 0
              else client.headersSize == 0
         else
           && (data != [] || !more) && client.headersSize == |client.head| > 0 && client.bodyPreloadedSize == |data|
           && client.chunked == (if numBody == 1 && !more then 0 else if more then 1 else 2)
           && (Filled(parts) == [] ==> |data| < INT_MAX || client.chunked == 0)
           && Datas(client.Held()) == Queueing(data)
           && client.head == if client.chunked == 0 then Text(Head.ContentLength(|data|))
                             else if Filled(parts) == [] then Text(Head.ChunkedCoding) + SizeLine(|data|)
                             else PartLine(|data|)
    }

    lemma BarePayload(data: seq<byte>, more: bool)
      requires client.Sound() && Headed(data, more) && Bodyless(status, client.isHead)
      ensures Wire(parts + [data], !more) == Wire(parts, false) + client.Payload()
    {
      hide Text, Filled, SizeLine, PartLine, Concat, AllSent, Sent, BodyBytes, OnePart, Wire;
      BareAdds(data, !more);
      assert client.head + [] + [] == client.head;
    }

    lemma OnePayload(data: seq<byte>)
      requires client.Sound() && Headed(data, false) && numBody == 1 && !Bodyless(status, client.isHead)
      ensures Wire(parts + [data], true) == Wire(parts, false) + client.Payload()
    {
      hide Text, Filled, SizeLine, PartLine, Concat, AllSent, Sent, BodyBytes;
      assert parts == [] && parts + [data] == [data];
      NoneFilled();
      assert Wire(parts, false) == [];
      PayloadIs(data);
      assert Sent(data) + [] == Sent(data);
      if data == [] { NothingToSend(); }
      assert [] + client.Payload() == client.Payload();
    }

    /** What a part is written as: the head if it is the first that is filled, its size, and its bytes. */
    lemma PartWritten(data: seq<byte>, more: bool)
      requires client.Sound() && Headed(data, more) && (numBody > 1 || more) && !Bodyless(status, client.isHead)
      ensures client.Payload() ==
              (if Filled(parts) == [] then Text(Head.ChunkedCoding) else []) + Piece(parts, data, !more)
    {
      hide Text, Filled, SizeLine, PartLine, Concat, AllSent, Sent, BodyBytes, Datas, Client.Payload;
      var text := Text(Head.ChunkedCoding);
      var tail := if data == [] then [] else Sent(data) + if !more then FOOTER else CRLF;
      PayloadIs(data);
      if Filled(parts) == [] {
        assert text + SizeLine(|data|) + tail == text + (SizeLine(|data|) + tail);
      } else {
        assert [] + (PartLine(|data|) + tail) == PartLine(|data|) + tail;
      }
    }

    lemma PartPayload(data: seq<byte>, more: bool)
      requires client.Sound() && Headed(data, more) && (numBody > 1 || more) && !Bodyless(status, client.isHead)
      ensures Wire(parts + [data], !more) == Wire(parts, false) + client.Payload()
    {
      hide Text, Filled, SizeLine, PartLine, Concat, Piece, BodyBytes, Datas, Wire, Client.Payload;
      PartWritten(data, more);
      WireAdds(data, !more);
    }

    /** SetHead, and what it means for a part that is queued. */
    method HeadPart(data: seq<byte>, more: bool) returns (ok: bool)
      requires Safe() && numBody >= 1
      modifies this`startResponse, client`head, client`headersSize, client`bodyChunkNum
      modifies client`bodyPreloadedSize, client`live, client`bodyTotalSize, client`bodyTotalWritten
      modifies client`wsgiBody, client`bodyIterator, client`chunked, client.wsgiBody
      ensures Safe() && !startResponse
      ensures old(Holding(data, more)) ==> ok == !old(Refused(data, more))
      ensures ok && old(Holding(data, more)) ==>
                && Headed(data, more)
                && Wire(parts + [data], !more) == Wire(parts, false) + client.Payload()
                && (more ==> client.bodyTotalSize == 0 && Filled(parts + [data]) != [])
                && (client.chunked == 0 ==> client.bodyTotalWritten + client.bodyPreloadedSize == client.bodyTotalSize)
    {
      hide Filled, Wire, Text, SizeLine, PartLine, Datas;
      NoneFilled();
      FilledSnoc(parts, data);
      ghost var held := Holding(data, more);
      ok := SetHead();
      if ok && held {
        if Bodyless(status, client.isHead) {
          BarePayload(data, more);
        } else if numBody == 1 && !more {
          OnePayload(data);
        } else {
          PartPayload(data, more);
        }
      }
    }

    /** A part is queued, its head is made, and nothing is on its way. */
    ghost predicate Made(data: seq<byte>, more: bool)
      reads this, client, client.body
      requires client.bodyChunkNum <= client.body.Length
    {
      && Headed(data, more) && latestChunk == !more && !client.inFlight && !future && !startResponse
      && Wire(parts + [data], !more) == Wire(parts, false) + client.Payload()
      && (more ==> client.bodyTotalSize == 0 && Filled(parts + [data]) != [])
      && (client.chunked == 0 ==> client.bodyTotalWritten + client.bodyPreloadedSize == client.bodyTotalSize)
      && Concat(client.writes) == base + Wire(parts, false)
    }

    /** The write of asgi_send, and a future for the app. */
    method Transmit(data: seq<byte>, more: bool, uvOk: bool) returns (r: Answer)
      requires Safe() && client.state == RespBuild && !startResponse && numBody >= 1
      modifies this`future, this`parts, client`state, client`writes, client`inFlight, client.bufs
      ensures Safe() && r != Immediate && |client.writes| <= |old(client.writes)| + 1
      ensures r == Failed ==> client.state == Destroy && client.writes == old(client.writes)
      ensures old(Made(data, more)) ==> (r == Failed <==> !uvOk)
      ensures old(Made(data, more)) && r == Future ==>
                Writing() && parts == old(parts) + [data] && |client.writes| == |old(client.writes)| + 1
    {
      hide Filled, Wire, Text, Concat, OnePart, Client.Payload, Client.Balanced, Wsgi.Bodyless;
      ghost var before, payload := Wire(parts, false), client.Payload();
      ConcatSnoc(client.writes, payload);
      assert base + before + payload == base + (before + payload);
      var act := client.StreamWrite(uvOk);
      if act != Ok || client.state == Destroy {
        client.state := Destroy;
        return Failed;
      }
      future := true;
      parts := parts + [data];
      return Future;
    }

    /** The end of asgi_send: the head, and the write. */
    method WriteOut(data: seq<byte>, more: bool, uvOk: bool) returns (r: Answer)
      requires Safe() && client.state == RespBuild && numBody >= 1
      modifies this`startResponse, this`future, this`parts, client`head, client`headersSize, client`bodyChunkNum
      modifies client`bodyPreloadedSize, client`live, client`bodyTotalSize, client`bodyTotalWritten
      modifies client`wsgiBody, client`bodyIterator, client`chunked, client`state, client`writes, client`inFlight
      modifies client.bufs, client.wsgiBody
      ensures Safe() && r != Immediate && |client.writes| <= |old(client.writes)| + 1
      ensures r == Failed ==> client.state == Destroy && client.writes == old(client.writes)
      ensures old(Holding(data, more)) ==> (r == Failed <==> old(Refused(data, more)) || !uvOk)
      ensures old(Holding(data, more)) && r == Future ==>
                Writing() && parts == old(parts) + [data] && |client.writes| == |old(client.writes)| + 1
    {
      hide Safe, Filled, Wire, Text, Concat, OnePart, Headed, Client.Payload, Wsgi.Bodyless;
      var ok := HeadPart(data, more);
      if !ok {
        client.state := Destroy;
        return Failed;
      }
      r := Transmit(data, more, uvOk);
    }

    /** The start of asgi_send: the part is counted and queued, skipped, or there is no room for it. */
    method Enqueue(data: seq<byte>, more: bool) returns (queued: Queued)
      requires Safe() && !latestChunk
      modifies this`parts, this`numBody, this`latestChunk, client`bodyChunkNum, client`bodyPreloadedSize, client`live
      modifies client`taken, client`bodyTotalSize, client`chunked, client`state, client.body
      ensures Safe() && client.state == RespBuild && numBody >= 1 && latestChunk == !more
      ensures parts == old(parts) + if queued == Skip then [data] else []
      ensures old(Waiting()) ==> queued == if data == [] && more && !old(Dropped()) then Skip else Ready
      ensures old(Waiting()) ==> if queued == Skip then Waiting() else Holding(data, more)
    {
      hide Filled, Wire, Text, Concat, OnePart, Client.Balanced, Datas, Wsgi.Bodyless;
      numBody := numBody + 1;
      client.state := RespBuild;
      if !more {
        latestChunk := true;
      }
      queued := Queue(data, more);
      if queued == Skip {
        WireSkips();
        parts := parts + [data];
      }
      assert queued != Skip ==> parts + [] == parts;
    }

    /** asgi_send of an `http.response.body` event. Whatever state the app calls it in, the array of chunks
        is not overrun; an app that awaits each part gets the bytes of Wire written. An empty part that is
        not the last is skipped, but behind the head of a response without a body it is a write of nothing. */
    method Send(data: seq<byte>, more: bool, uvOk: bool) returns (r: Answer)
      requires Safe()
      modifies this`startResponse, this`future, this`parts, this`numBody, this`latestChunk, client`head
      modifies client`headersSize
      modifies client`bodyChunkNum, client`bodyPreloadedSize, client`live, client`taken, client`bodyTotalSize
      modifies client`bodyTotalWritten, client`wsgiBody, client`bodyIterator, client`chunked, client`state
      modifies client`writes
      modifies client`inFlight, client.body, client.bufs, client.wsgiBody
      ensures Safe() && |client.writes| <= |old(client.writes)| + 1
      ensures old(latestChunk) ==> r == Immediate && client.writes == old(client.writes)
      ensures old(Waiting()) && old(Refused(data, more)) ==>
                r == Failed && client.state == Destroy && client.writes == old(client.writes)
      ensures old(Waiting()) && data == [] && more && !old(Dropped()) ==>
                r == Immediate && Waiting() && parts == old(parts) + [data] && client.writes == old(client.writes)
      ensures old(Waiting()) && !old(Refused(data, more)) && (data != [] || !more || old(Dropped())) && uvOk ==>
                r == Future && Writing() && parts == old(parts) + [data] && latestChunk == !more
                && |client.writes| == |old(client.writes)| + 1
    {
      hide Filled, Wire, Text, Concat, OnePart, Client.Payload, Client.Balanced, Datas, Wsgi.Bodyless, Holding, Safe;
      if latestChunk { return Immediate; }
      var queued := Enqueue(data, more);
      if queued == Full {
        client.state := Destroy;
        return Failed;
      }
      if queued == Skip { return Immediate; }
      r := WriteOut(data, more, uvOk);
    }

    // -------------------------------------------------------------- write_cb and whole responses

    /** The end of write_cb for an ASGI response: the app is told that its part was sent. When it awaits no
        part any more, the connection is closed. */
    method Resolve(code: int, now: nat) returns (done: Done)
      requires Safe() && numBody >= 1
      modifies this`future, client`head, client`headersSize, client`bodyChunkNum, client`bodyPreloadedSize, client`live
      modifies client`bodyTotalSize, client`bodyTotalWritten, client`wsgiBody, client`bodyIterator, client`chunked
      modifies client`state, client`lastChunkTime, client.wsgiBody
      ensures Safe() && !future
      ensures done == if code < 0 || !old(future) then Closing else if !latestChunk then Sending
                      else if client.keepAlive && client.cfg.allowKeepalive then KeptAlive else Closing
      ensures code >= 0 && old(future) && latestChunk ==> client.lastChunkTime == now
      ensures done == Sending ==>
                && client.headersSize == 0 && client.bodyChunkNum == old(client.bodyChunkNum)
                && client.bodyPreloadedSize == old(client.bodyPreloadedSize)
                && client.bodyTotalSize == old(client.bodyTotalSize) && client.chunked == old(client.chunked)
                && client.bodyTotalWritten == old(client.bodyTotalWritten)
      ensures done == KeptAlive ==> client.Reset() && client.state == RespEnd
      ensures done == Closing ==> client.state == Destroy
    {
      hide Closes, Client.Balanced;
      var awaited := future;
      client.state := RespBuild;
      client.ResetHead();
      future := false;
      if code < 0 || !awaited {
        client.state := Destroy;
        return Closing;
      }
      if !latestChunk {
        client.state := RespSend;
        return Sending;
      }
      client.lastChunkTime := now;
      client.state := RespEnd;
      if !client.keepAlive || !client.cfg.allowKeepalive {
        client.state := Destroy;
        return Closing;
      }
      client.ResetBody();
      return KeptAlive;
    }

    /** write_cb for an ASGI response. Whatever state the app's calls have led to, the array of chunks is not
        overrun; an app that awaits the part may send the next one. */
    method WriteCb(status: int, now: nat) returns (done: Done)
      requires Safe() && numBody >= 1 && status <= 0
      modifies this`future, client`head, client`headersSize, client`bodyChunkNum, client`bodyPreloadedSize, client`live
      modifies client`bodyTotalSize, client`bodyTotalWritten, client`wsgiBody, client`bodyIterator, client`chunked
      modifies client`state, client`inFlight, client`lastChunkTime, client.wsgiBody
      ensures Safe() && !client.inFlight && !future
      ensures status < 0 || !old(future) ==> done == Closing
      ensures old(Writing()) && status == 0 && !latestChunk ==> done == Sending && Waiting()
      ensures old(Writing()) && status == 0 && latestChunk ==>
                && done == (if client.keepAlive && client.cfg.allowKeepalive then KeptAlive else Closing)
                && client.lastChunkTime == now
      ensures done == KeptAlive ==> client.Reset() && client.state == RespEnd
      ensures done == Closing ==> client.state == Destroy
    {
      hide Filled, Wire, Text, OnePart, Concat, Client.Coming, Good, Breaks, Client.Balanced, Client.Reset;
      client.inFlight := false;
      var code, finished := status, true;
      if status != 0 {
        client.ResetPreload();
      } else {
        client.state := RespSended;
        code, finished := client.CountWritten(now);
      }
      done := Resolve(code, now);
    }

    /** An app that sends `bodies` in turn, awaits each and has all its writes succeed. */
    method SendAll(bodies: seq<seq<byte>>, now: nat) returns (r: Answer)
      requires Waiting() && parts == [] && bodies != []
      modifies this, client, client.body, client.bufs, client.wsgiBody
      ensures r != Failed ==> Concat(client.writes) == base + Wire(bodies, true) && client.lastChunkTime == now
      ensures start.Some? && (|bodies| == 1 || forall b :: b in bodies ==> |b| < INT_MAX) ==> r != Failed
    {
      hide Filled, Wire, Text, OnePart, Concat, Client.Balanced;
      var i := 0;
      r := Immediate;
      while i < |bodies|
        invariant i <= |bodies| && parts == bodies[..i]
        invariant i < |bodies| ==> Waiting()
        invariant i == |bodies| ==> Concat(client.writes) == base + Wire(bodies, true) && client.lastChunkTime == now
        invariant r != Failed
      {
        assert bodies[..i + 1] == bodies[..i] + [bodies[i]];
        assert i + 1 == |bodies| ==> bodies[..i + 1] == bodies;
        r := Send(bodies[i], i + 1 < |bodies|, true);
        if r == Failed {
          assert bodies[i] in bodies;
          return;
        }
        if r == Future {
          var _ := WriteCb(0, now);
        }
        i := i + 1;
      }
    }

    /** What keeps the parts of a head apart. */
    predicate Legible() {
      && start.Some? && Head.OneLine(start.value) && Head.Sound(client.cfg, date)
      && forall i :: 0 <= i < |headers| ==> Head.Printable(headers[i])
    }

    /** A head and what follows it, as a client parses them. */
    lemma HeadRead(framing: Head.Framing, rest: seq<byte>)
      requires Legible()
      ensures var parsed := Head.Parse(Text(framing) + rest);
                && parsed.Some? && parsed.value.start == start.value && parsed.value.rest == rest
                && Head.Tells(client.cfg, headers, date, client.keepAlive, framing, parsed.value.fields)
    {
      hide Head.Fields, Head.Text, Head.Parse, Head.Tells;
      Head.HeadTells(client.cfg, start.value, headers, date, client.keepAlive, framing, rest);
    }

    /** Every response in several parts: parsing the head and decoding the rest gives the app's bytes
        exactly, if and only if some part is not empty and the size of every part fits an int. */
    lemma MultiPart(bodies: seq<seq<byte>>)
      requires Legible() && |bodies| >= 2 && !Bodyless(status, client.isHead)
      ensures var parsed := Head.Parse(Wire(bodies, true));
                && parsed.Some?
                && Head.Tells(client.cfg, headers, date, client.keepAlive, Head.ChunkedCoding, parsed.value.fields)
                && (Decode(parsed.value.rest) == Some((Concat(bodies), []))
                    <==> (exists i :: 0 <= i < |bodies| && bodies[i] != []) && AllSmall(bodies))
    {
      hide Text, Head.Parse, Head.Tells, BodyBytes, AllSmall, Decode, Concat, Filled;
      HeadRead(Head.ChunkedCoding, BodyBytes(bodies, true));
      AsgiRun(bodies);
    }

    /** A response in one part has its size as its length, and these bytes behind the head, unless it needs more
        than 32 bits. */
    lemma SinglePart(data: seq<byte>)
      requires Legible() && !Bodyless(status, client.isHead)
      ensures var parsed := Head.Parse(Wire([data], true));
                && parsed.Some?
                && Head.Tells(client.cfg, headers, date, client.keepAlive, Head.ContentLength(|data|),
                              parsed.value.fields)
                && (parsed.value.rest == data <==> |data| < 0x1_0000_0000)
    {
      hide Text, Head.Parse, Head.Tells, Filled;
      HeadRead(Head.ContentLength(|data|), Sent(data));
    }

    /** A response without a body is one head and nothing behind it, in however many parts the app sends it. Its
        length is 0, or the one declared when more bytes were received behind a HEAD request. */
    lemma BareResponse(bodies: seq<seq<byte>>)
      requires Legible() && (status == 204 || status == 304 || client.isHead)
      ensures var parsed := Head.Parse(Wire(bodies, true));
              var framing := if !client.parserHead then Head.ContentLength(0)
                             else if client.contentLength >= 0 then Head.ContentLength(client.contentLength)
                             else Head.NoFraming;
                && parsed.Some? && parsed.value.rest == []
                && Head.Tells(client.cfg, headers, date, client.keepAlive, framing, parsed.value.fields)
    {
      hide Text, Head.Parse, Head.Tells;
      var framing := if !client.parserHead then Head.ContentLength(0)
                     else if client.contentLength >= 0 then Head.ContentLength(client.contentLength)
                     else Head.NoFraming;
      assert Wire(bodies, true) == Text(framing) + [];
      HeadRead(framing, []);
    }
  }
}
