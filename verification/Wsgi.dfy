/**
 The WSGI response of one request: preloading the app's body, choosing between Content-Length and
 chunked framing, and streaming the rest one item per write (fastwsgi/request.c, server.c).
 */
module Wsgi {
  import opened Bytes
  import opened Chunked
  import Head

  const MAX_PRELOADED_BODY_CHUNKS: nat := 48
  const UINT_RANGE: nat := 0x1_0000_0000
  /** body_total_size while the first item of a generator waits in the preload. */
  const GENERATOR: int := -111

  // ---------------------------------------------------------------- what the app gives

  /** One result of advancing the body iterator. */
  datatype Item = Data(bytes: seq<byte>) | NotBytes | Raises

  /** What the app's call gives; one that raises is answered like an object that is not iterable. */
  datatype BodyKind = BytesBody(data: seq<byte>) | Generator | Iterator | Iterable | NotIterable

  /** The app's Content-Length header. */
  datatype Declared = Unspecified | Length(n: nat) | Malformed

  /** The non-empty byte strings an iterator yields before it ends or breaks. */
  function Good(items: seq<Item>): (r: seq<seq<byte>>)
    ensures [] !in r
  {
    if items == [] || !items[0].Data? then []
    else if items[0].bytes == [] then Good(items[1..])
    else [items[0].bytes] + Good(items[1..])
  }

  /** The iterator raises, or yields something that is not bytes. */
  predicate Breaks(items: seq<Item>) {
    items != [] && (!items[0].Data? || Breaks(items[1..]))
  }

  /** How many of the items are objects; an exception is none. */
  function Objects(items: seq<Item>): nat {
    if items == [] then 0 else (if items[0].Raises? then 0 else 1) + Objects(items[1..])
  }

  lemma {:induction false} AllObjects(items: seq<Item>)
    ensures Objects(items) <= |items|
    ensures Objects(items) == |items| <==> forall i :: 0 <= i < |items| ==> !items[i].Raises?
  {
    if items != [] {
      AllObjects(items[1..]);
      assert forall i :: 1 <= i < |items| ==> items[i] == items[1..][i - 1];
    }
  }

  lemma ItemTaken(items: seq<Item>)
    requires items != []
    ensures if items[0].Data? then
              && Good(items) == (if items[0].bytes == [] then [] else [items[0].bytes]) + Good(items[1..])
              && Breaks(items) == Breaks(items[1..])
            else Good(items) == [] && Breaks(items)
    ensures Objects(items) == (if items[0].Raises? then 0 else 1) + Objects(items[1..])
  {
  }

  lemma NothingLeft()
    ensures Concat<byte>([]) == [] && Good([]) == [] && !Breaks([])
  {
  }

  /** The object the app returned, or the iterator made from it. */
  class PyBody {
    const kind: BodyKind
    var rest: seq<Item>
    var closes: nat

    constructor (kind: BodyKind, rest: seq<Item>)
      ensures this.kind == kind && this.rest == rest && closes == 0
    {
      this.kind, this.rest, closes := kind, rest, 0;
    }

    /** PyIter_Next; it must not be called once the iterator was closed. */
    method Next() returns (item: Option<Item>)
      requires closes == 0
      modifies this`rest
      ensures item == if old(rest) == [] then None else Some(old(rest)[0])
      ensures rest == if old(rest) == [] then [] else old(rest)[1..]
    {
      if rest == [] { return None; }
      item := Some(rest[0]);
      rest := rest[1..];
    }

    /** close_iterator: only an iterator is asked to close. */
    method CloseIterator()
      modifies this`closes
      ensures closes == old(closes) + Closes(kind)
    {
      if kind.Generator? || kind.Iterator? {
        closes := closes + 1;
      }
    }
  }

  /** A reference to a bytes object: `id` numbers the references in the order they were taken. */
  datatype Chunk = Chunk(id: nat, data: seq<byte>)

  function Datas(chunks: seq<Chunk>): (r: seq<seq<byte>>)
    ensures |r| == |chunks|
  {
    seq(|chunks|, i requires 0 <= i < |chunks| => chunks[i].data)
  }

  // ---------------------------------------------------------------- how much is preloaded

  /** The preload stops behind item `k` (counting from 1): the array is full, or the items look like
      file reads and the next one might exceed the chunk size. */
  predicate StopAfter(all: seq<seq<byte>>, k: nat, filelike: bool, maxChunkSize: nat)
    requires 1 <= k <= |all|
  {
    || k == MAX_PRELOADED_BODY_CHUNKS + 1
    || (filelike && |Concat(all[..k])| + (if k >= 2 then |all[k - 2]| else 0) >= maxChunkSize)
  }

  /** How many of the items are preloaded, `k` having been without a reason to stop. */
  function Preloaded(all: seq<seq<byte>>, k: nat, filelike: bool, maxChunkSize: nat): (n: nat)
    requires k <= |all| && k <= MAX_PRELOADED_BODY_CHUNKS + 1
    ensures k <= n <= |all| && n <= MAX_PRELOADED_BODY_CHUNKS + 1
    decreases |all| - k
  {
    if k < |all| && !(k >= 1 && StopAfter(all, k, filelike, maxChunkSize))
    then Preloaded(all, k + 1, filelike, maxChunkSize) else k
  }

  lemma NextOf(all: seq<seq<byte>>, k: nat, x: seq<byte>, rest: seq<seq<byte>>)
    requires k <= |all| && all[k..] == [x] + rest
    ensures k < |all| && all[k] == x && all[k + 1..] == rest
  {
    assert all[k + 1..] == all[k..][1..];
  }

  lemma PreloadedStep(all: seq<seq<byte>>, k: nat, filelike: bool, maxChunkSize: nat)
    requires k <= |all| && k <= MAX_PRELOADED_BODY_CHUNKS + 1
    ensures Preloaded(all, k, filelike, maxChunkSize) ==
              if k < |all| && (k == 0 || !StopAfter(all, k, filelike, maxChunkSize))
              then Preloaded(all, k + 1, filelike, maxChunkSize) else k
  {
  }

  /** All items were preloaded and their end was seen. */
  predicate FullyLoaded(all: seq<seq<byte>>, filelike: bool, maxChunkSize: nat) {
    var n := Preloaded(all, 0, filelike, maxChunkSize);
    n == 0 || !StopAfter(all, n, filelike, maxChunkSize)
  }

  // ---------------------------------------------------------------- how the body is framed

  /** The outcome of the preload: an error, a Content-Length, or chunked sending; `first` pieces go
      out with the head. */
  datatype Decision = Refuse | Announce(total: nat, first: nat) | Streamed(first: nat)

  /** What is decided for a body that is not a bytes object; `declared` is the app's Content-Length or -1. */
  function Decide(pieces: seq<seq<byte>>, breaks: bool, filelike: bool, maxChunkSize: nat, declared: int): (d: Decision)
    ensures !d.Refuse? ==> d.first <= |pieces|
  {
    var n := Preloaded(pieces, 0, filelike, maxChunkSize);
    var sum := |Concat(pieces[..n])|;
    if declared == 0 then Announce(0, 0)
    else if FullyLoaded(pieces, filelike, maxChunkSize) then
      if breaks || (declared > 0 && sum > declared) then Refuse else Announce(sum, n)
    else if declared > 0 then Announce(declared, n)
    else Streamed(n)
  }

  /** A bytes object as the pieces of a body. */
  function OneBytes(data: seq<byte>): (r: seq<seq<byte>>)
    ensures [] !in r && Concat(r) == data
  {
    if data == [] then [] else [data]
  }

  lemma {:induction false} NonEmptyPieces(pieces: seq<seq<byte>>)
    requires [] !in pieces
    ensures |Concat(pieces)| >= |pieces|
  {
    if pieces != [] {
      NonEmptyPieces(pieces[1..]);
    }
  }

  function LengthOf(declared: Declared): (n: int)
    ensures n >= -1
  {
    if declared.Length? then declared.n else -1
  }

  /** What strtoll makes of a string, base 10. */
  const LLONG_MAX: int := 0x7FFF_FFFF_FFFF_FFFF

  function LeadingDigits(s: seq<byte>, acc: nat): nat {
    if s != [] && 48 <= s[0] <= 57 then LeadingDigits(s[1..], 10 * acc + (s[0] as nat - 48)) else acc
  }

  function SkipSpace(s: seq<byte>): seq<byte> {
    if s != [] && (s[0] == 32 || 9 <= s[0] <= 13) then SkipSpace(s[1..]) else s
  }

  function StrToLL(s: seq<byte>): int {
    var t := SkipSpace(s);
    var n: int := LeadingDigits(if t != [] && t[0] in {43, 45} then t[1..] else t, 0);
    if t != [] && t[0] == 45 then (if n > LLONG_MAX then -LLONG_MAX - 1 else -n)
    else if n > LLONG_MAX then LLONG_MAX else n
  }

  /** The value of a Content-Length header of the app's. */
  function LengthValue(v: seq<byte>): Declared {
    if v == [] then Malformed
    else if v == [48] then Length(0)
    else if StrToLL(v) <= 0 || StrToLL(v) == LLONG_MAX then Malformed
    else Length(StrToLL(v))
  }

  /** The length the app's headers declare: the last one counts, and none may be malformed. */
  function DeclaredBy(headers: seq<Head.Header>): Declared {
    if headers == [] then Unspecified
    else
      var h := headers[|headers| - 1];
      var before := DeclaredBy(headers[..|headers| - 1]);
      if before.Malformed? || !Head.Named(h.name, Head.CONTENT_LENGTH) then before else LengthValue(h.value)
  }

  lemma {:induction false} MalformedStays(headers: seq<Head.Header>, i: nat)
    requires i <= |headers| && DeclaredBy(headers[..i]).Malformed?
    ensures DeclaredBy(headers).Malformed?
    decreases |headers|
  {
    if i == |headers| {
      assert headers[..i] == headers;
    } else {
      var n := |headers| - 1;
      assert headers[..n][..i] == headers[..i];
      MalformedStays(headers[..n], i);
    }
  }

  lemma {:induction false} LeadingDigitsSnoc(s: seq<byte>, d: byte, acc: nat)
    requires 48 <= d <= 57 && forall i :: 0 <= i < |s| ==> 48 <= s[i] <= 57
    ensures LeadingDigits(s + [d], acc) == 10 * LeadingDigits(s, acc) + (d as nat - 48)
  {
    if s == [] {
      assert [d][1..] == [];
    } else {
      LeadingDigitsSnoc(s[1..], d, 10 * acc + (s[0] as nat - 48));
      assert (s + [d])[1..] == s[1..] + [d];
    }
  }

  lemma {:induction false} LeadingDecimal(n: nat)
    ensures LeadingDigits(Head.Decimal(n), 0) == n
  {
    if n >= 10 {
      LeadingDecimal(n / 10);
      LeadingDigitsSnoc(Head.Decimal(n / 10), (48 + n % 10) as byte, 0);
    }
  }

  /** A length printed the way the server prints its own is read back, up to the largest int64_t. */
  lemma DeclaredDecimal(n: nat)
    ensures LengthValue(Head.Decimal(n)) == if n < LLONG_MAX then Length(n) else Malformed
  {
    LeadingDecimal(n);
    var v := Head.Decimal(n);
    assert SkipSpace(v) == v;
    var zero: seq<byte> := [48];
    assert zero[1..] == [] && LeadingDigits(zero, 0) == 0;
  }

  /** The framing of an app's response, given all it will yield. */
  function DecideFor(kind: BodyKind, items: seq<Item>, filelike: bool, maxChunkSize: nat,
                     declared: Declared): (d: Decision)
    ensures !d.Refuse? ==> d.first <= |PiecesOf(kind, items)|
  {
    if kind.NotIterable? || (kind.Generator? && Good(items) == [] && Breaks(items)) || declared.Malformed? then Refuse
    else if kind.BytesBody? then Announce(|kind.data|, |OneBytes(kind.data)|)
    else Decide(Good(items), Breaks(items), filelike, maxChunkSize, LengthOf(declared))
  }

  /** The iterator breaks while the body is preloaded. */
  predicate Broken(kind: BodyKind, items: seq<Item>, filelike: bool, maxChunkSize: nat, declared: Declared) {
    && !kind.NotIterable? && !kind.BytesBody? && Breaks(items)
    && ((kind.Generator? && Good(items) == []) ||
        (!declared.Malformed? && declared != Length(0) && FullyLoaded(Good(items), filelike, maxChunkSize)))
  }

  /** The pieces of the body, given all the app will yield. */
  function PiecesOf(kind: BodyKind, items: seq<Item>): (r: seq<seq<byte>>)
    ensures [] !in r
  {
    if kind.BytesBody? then OneBytes(kind.data) else Good(items)
  }

  /** How often the server closes a body: once when it is its own iterator, otherwise never. */
  function Closes(kind: BodyKind): nat {
    if kind.Generator? || kind.Iterator? then 1 else 0
  }

  // ---------------------------------------------------------------- what goes on the wire

  /** What one uv_buf_t sends: its length is cut to an unsigned int. */
  function Sent(data: seq<byte>): (r: seq<byte>) {
    data[..|data| % UINT_RANGE]
  }

  function AllSent(pieces: seq<seq<byte>>): (r: seq<seq<byte>>)
    ensures |r| == |pieces|
  {
    seq(|pieces|, i requires 0 <= i < |pieces| => Sent(pieces[i]))
  }

  /** The write that carries one more item. */
  function ItemWrite(data: seq<byte>, chunked: bool): seq<byte> {
    if chunked then Frame(Sent(data)) else Sent(data)
  }

  lemma NothingSent()
    ensures AllSent([]) == [] && Concat<byte>([]) == []
  {
  }

  lemma OneSent(c: Chunk)
    ensures Concat(AllSent(Datas([c]))) == Sent(c.data)
    ensures [] + Sent(c.data) + [] == Sent(c.data)
    ensures SizeLine(|c.data| % UINT_RANGE) + Sent(c.data) + CRLF == ItemWrite(c.data, true)
    ensures |SizeLine(|c.data| % UINT_RANGE)| > 0 && ItemWrite(c.data, false) == Sent(c.data)
  {
    assert AllSent(Datas([c])) == [Sent(c.data)];
    ConcatEmpty<byte>();
  }

  /** The writes still to come once `written` body bytes are on the wire: one item each, then, for a
      chunked body that did not break, the last chunk. With a Content-Length of `total` nothing is
      pulled any more when that many bytes were written. */
  function Tail(rest: seq<seq<byte>>, breaks: bool, chunked: bool, total: int, written: nat): seq<seq<byte>> {
    if !chunked && written >= total then []
    else if rest == [] then (if chunked && !breaks then [LAST] else [])
    else [ItemWrite(rest[0], chunked)] + Tail(rest[1..], breaks, chunked, total, written + |rest[0]|)
  }

  /** The body bytes that go out with the head. */
  function BodyStart(pieces: seq<seq<byte>>, d: Decision): seq<byte>
    requires !d.Refuse? && d.first <= |pieces|
  {
    var data := Concat(AllSent(pieces[..d.first]));
    if d.Streamed? then SizeLine(|Concat(pieces[..d.first])|) + data + CRLF else data
  }

  /** The writes behind the first one. */
  function TailOf(pieces: seq<seq<byte>>, breaks: bool, d: Decision): seq<seq<byte>>
    requires !d.Refuse? && d.first <= |pieces|
  {
    Tail(pieces[d.first..], breaks, d.Streamed?, if d.Streamed? then 0 else d.total, |Concat(pieces[..d.first])|)
  }

  /** How a response ends when every write succeeds. */
  datatype End = Complete | Overrun | Short | Broke

  function EndOf(rest: seq<seq<byte>>, breaks: bool, chunked: bool, total: int, written: nat): End {
    if !chunked && written > total then Overrun
    else if !chunked && written == total then Complete
    else if rest == [] then (if breaks then Broke else if chunked then Complete else Short)
    else EndOf(rest[1..], breaks, chunked, total, written + |rest[0]|)
  }

  function EndFor(pieces: seq<seq<byte>>, breaks: bool, d: Decision): End
    requires !d.Refuse? && d.first <= |pieces|
  {
    EndOf(pieces[d.first..], breaks, d.Streamed?, if d.Streamed? then 0 else d.total, |Concat(pieces[..d.first])|)
  }

  lemma TailStep(rest: seq<seq<byte>>, breaks: bool, chunked: bool, total: int, written: nat)
    ensures !chunked && written >= total ==>
              && Tail(rest, breaks, chunked, total, written) == []
              && EndOf(rest, breaks, chunked, total, written) == if written > total then Overrun else Complete
    ensures (chunked || written < total) && rest == [] ==>
              && Tail(rest, breaks, chunked, total, written) == (if chunked && !breaks then [LAST] else [])
              && EndOf(rest, breaks, chunked, total, written) ==
                   if breaks then Broke else if chunked then Complete else Short
    ensures (chunked || written < total) && rest != [] ==>
              && Tail(rest, breaks, chunked, total, written) ==
                   [ItemWrite(rest[0], chunked)] + Tail(rest[1..], breaks, chunked, total, written + |rest[0]|)
              && EndOf(rest, breaks, chunked, total, written) ==
                   EndOf(rest[1..], breaks, chunked, total, written + |rest[0]|)
  {
  }

  /** A response without a body, whatever the app returned. */
  predicate Bodyless(status: int, isHead: bool) {
    status == 204 || status == 304 || isHead
  }

  // ---------------------------------------------------------------- a whole response

  /** What a WSGI app hands to the server besides its body: the status line unless its status has no
      name, the headers, and how the body's first item looks. */
  datatype App = App(start: Option<seq<byte>>, status: int, headers: seq<Head.Header>, filelike: bool)

  /** What is fixed for a request: the configuration and how it was made. */
  datatype Request = Request(cfg: Head.Config, maxChunkSize: nat, keepAlive: bool, isHead: bool, parserHead: bool)

  function DecisionFor(req: Request, app: App, kind: BodyKind, items: seq<Item>): Decision {
    DecideFor(kind, items, app.filelike, req.maxChunkSize, DeclaredBy(app.headers))
  }

  /** The response can be sent; otherwise the client gets the server's own error response. */
  predicate Servable(req: Request, app: App, kind: BodyKind, items: seq<Item>) {
    var d := DecisionFor(req, app, kind, items);
    && !d.Refuse? && app.start.Some?
    && (d.Streamed? && !Bodyless(app.status, req.isHead) ==> |Concat(PiecesOf(kind, items)[..d.first])| < INT_MAX)
  }

  function FramingFor(req: Request, app: App, d: Decision): Head.Framing
    requires !d.Refuse?
  {
    if Bodyless(app.status, req.isHead) then
      if !req.parserHead then Head.ContentLength(0)
      else if DeclaredBy(app.headers).Length? then Head.ContentLength(DeclaredBy(app.headers).n)
      else Head.NoFraming
    else if d.Streamed? then Head.ChunkedCoding
    else Head.ContentLength(d.total)
  }

  /** All the writes of a response that can be sent. */
  function Writes(req: Request, app: App, date: seq<byte>, kind: BodyKind, items: seq<Item>): (r: seq<seq<byte>>)
    requires Servable(req, app, kind, items)
    ensures r != []
  {
    var d := DecisionFor(req, app, kind, items);
    var pieces := PiecesOf(kind, items);
    var fields := Head.Fields(req.cfg, app.headers, date, req.keepAlive, FramingFor(req, app, d));
    var text := Head.Text(app.start.value, fields);
    if Bodyless(app.status, req.isHead) then [text]
    else [text + BodyStart(pieces, d)] + TailOf(pieces, !kind.BytesBody? && Breaks(items), d)
  }

  /** How many writes follow the first one of the response, be it the app's or the server's own. */
  function WritesBehind(req: Request, app: App, date: seq<byte>, kind: BodyKind, items: seq<Item>): nat {
    if Servable(req, app, kind, items) then |Writes(req, app, date, kind, items)| - 1 else 0
  }

  function EndingOf(req: Request, app: App, kind: BodyKind, items: seq<Item>): End {
    if !Servable(req, app, kind, items) || Bodyless(app.status, req.isHead) then Complete
    else EndFor(PiecesOf(kind, items), !kind.BytesBody? && Breaks(items), DecisionFor(req, app, kind, items))
  }

  /** A body that breaks while it is preloaded is never sent. */
  lemma BrokenRefused(req: Request, app: App, kind: BodyKind, items: seq<Item>)
    ensures Broken(kind, items, app.filelike, req.maxChunkSize, DeclaredBy(app.headers)) ==>
              !Servable(req, app, kind, items) && EndingOf(req, app, kind, items) == Complete
    ensures !Servable(req, app, kind, items) ==> EndingOf(req, app, kind, items) == Complete
  {
  }

  // ---------------------------------------------------------------- the state of a response

  datatype Action = Ok | Shutdown
  /** What write_cb leaves behind, or read_cb when nothing is on its way: a connection that is neither closed
      nor waits for anything is stuck. */
  datatype Done = Sending | KeptAlive | Closing | Stuck

  datatype State = ReqParse | RespBuild | RespSend | RespSended | RespEnd | Destroy

  /** What libuv reports for a write, when, and whether it takes the write that is made then. */
  datatype Completion = Completion(status: int, now: nat, accepts: bool)

  /** How many of `n` writes are made when libuv reports `events`; a connection that is torn down reports
      its write in flight as failed. */
  function Made(events: seq<Completion>, n: nat): (k: nat)
    ensures k <= n
  {
    if n == 0 || events == [] || events[0].status < 0 || !events[0].accepts then 0 else 1 + Made(events[1..], n - 1)
  }

  /** They are made one for each success that is reported in turn, up to the first that libuv does not take. */
  lemma {:induction false} MadeIs(events: seq<Completion>, n: nat)
    ensures var k := Made(events, n);
              && k <= |events| && (forall i :: 0 <= i < k ==> events[i].status >= 0 && events[i].accepts)
              && (k < n && k < |events| ==> events[k].status < 0 || !events[k].accepts)
  {
    if n > 0 && events != [] {
      MadeIs(events[1..], n - 1);
      assert forall i :: 1 <= i < |events| ==> events[i] == events[1..][i - 1];
    }
  }

  /** All `n` writes and the one before them succeed. */
  predicate Through(events: seq<Completion>, n: nat) {
    Made(events, n) == n && n < |events| && events[n].status == 0
  }

  /** In particular when no write ever fails. */
  lemma {:induction false} AllSucceed(events: seq<Completion>, n: nat)
    requires n < |events| && forall e :: e in events ==> e.status == 0 && e.accepts
    ensures Through(events, n)
  {
    if n > 0 {
      assert events[0] in events && forall e :: e in events[1..] ==> e in events;
      AllSucceed(events[1..], n - 1);
    }
  }

  /** The first write and then m of the others are the first m + 1. */
  lemma FirstAndNext(before: seq<seq<byte>>, all: seq<seq<byte>>, m: nat)
    requires m < |all|
    ensures before + [all[0]] + all[1..][..m] == before + all[..1 + m]
  {
    assert [all[0]] + all[1..][..m] == all[..1 + m];
    assert before + [all[0]] + all[1..][..m] == before + ([all[0]] + all[1..][..m]);
  }

  class Client {
    const cfg: Head.Config
    const maxChunkSize: nat
    const keepAlive: bool     // of the request
    const isHead: bool        // request.method == HEAD
    const parserHead: bool    // request.parser.method == HEAD, unless the parser was reset

    var state: State
    var error: int
    var head: seq<byte>
    var headersSize: nat
    var contentLength: int    // wsgi_content_length
    var wsgiBody: PyBody?
    var bodyIterator: PyBody?
    const body: array<Chunk>
    var bodyChunkNum: nat
    var bodyPreloadedSize: nat
    var bodyTotalSize: int
    var bodyTotalWritten: nat
    var chunked: nat          // 1 = chunked sending; 2 = last chunk sent
    const bufs: array<seq<byte>>

    /** Every uv_write so far, and the one that has not completed. */
    ghost var writes: seq<seq<byte>>
    var inFlight: bool
    var lastChunkTime: nat
    /** Reference counting: the references taken and not yet given back, and the next number. */
    ghost var live: set<nat>
    var taken: nat
    /** The iterator of the last response, also when it was given back. */
    ghost var source: PyBody?

    ghost function Held(): seq<Chunk>
      reads `bodyChunkNum, body
      requires bodyChunkNum <= body.Length
    {
      body[..bodyChunkNum]
    }

    /** The fixed-size arrays are not overrun, and no closed iterator is kept. */
    ghost predicate Sound()
      reads `bodyChunkNum, `wsgiBody, `bodyIterator, bodyIterator
    {
      && body.Length == MAX_PRELOADED_BODY_CHUNKS + 1 && bufs.Length == MAX_PRELOADED_BODY_CHUNKS + 3
      && bodyChunkNum <= body.Length
      && (bodyIterator != null ==> wsgiBody != null && bodyIterator.closes == 0)
    }

    /** The references that are live are exactly those in the preload, each there once. */
    ghost predicate Balanced()
      reads `live, `taken, `bodyChunkNum, body
      requires bodyChunkNum <= body.Length
    {
      && (forall i :: 0 <= i < bodyChunkNum ==> body[i].id in live)
      && (forall i, j :: 0 <= i < j < bodyChunkNum ==> body[i].id != body[j].id)
      && |live| == bodyChunkNum
      && forall id :: id in live ==> id < taken
    }

    /** Py_DECREF: a reference can be given back once only. */
    ghost method Release(id: nat)
      requires id in live
      modifies this`live
      ensures live == old(live) - {id}
    {
      live := live - {id};
    }

    constructor (cfg: Head.Config, maxChunkSize: nat, keepAlive: bool, isHead: bool, parserHead: bool,
                 wsgiBody: PyBody?)
      requires wsgiBody != null ==> wsgiBody.closes == 0
      ensures Sound() && Balanced() && fresh(body) && fresh(bufs)
      ensures this.cfg == cfg && this.maxChunkSize == maxChunkSize && this.keepAlive == keepAlive
      ensures this.isHead == isHead && this.parserHead == parserHead && this.wsgiBody == wsgiBody
      ensures state == ReqParse && error == 0 && bodyIterator == null && writes == [] && !inFlight
      ensures bodyChunkNum == bodyPreloadedSize == bodyTotalSize == bodyTotalWritten == chunked == 0
    {
      this.cfg, this.maxChunkSize, this.keepAlive := cfg, maxChunkSize, keepAlive;
      this.isHead, this.parserHead, this.wsgiBody := isHead, parserHead, wsgiBody;
      state, error, head, headersSize, contentLength := ReqParse, 0, [], 0, -1;
      bodyIterator := null;
      body := new Chunk[MAX_PRELOADED_BODY_CHUNKS + 1](_ => Chunk(0, []));
      bufs := new seq<byte>[MAX_PRELOADED_BODY_CHUNKS + 3](_ => []);
      bodyChunkNum, bodyPreloadedSize, bodyTotalSize, bodyTotalWritten, chunked := 0, 0, 0, 0, 0;
      writes, inFlight, live, taken, lastChunkTime := [], false, {}, 0, 0;
      source := null;
    }

    // -------------------------------------------------------------- giving things back

    method ResetHead()
      modifies this`head, this`headersSize
      ensures head == [] && headersSize == 0
    {
      head := [];
      headersSize := 0;
    }

    method ResetPreload()
      requires Sound() && Balanced()
      modifies this`bodyChunkNum, this`bodyPreloadedSize, this`live
      ensures Sound() && Balanced() && bodyChunkNum == 0 && bodyPreloadedSize == 0 && live == {}
    {
      for i := 0 to bodyChunkNum
        invariant forall j :: i <= j < bodyChunkNum ==> body[j].id in live
        invariant |live| == bodyChunkNum - i
      {
        Release(body[i].id);
      }
      bodyChunkNum := 0;
      bodyPreloadedSize := 0;
    }

    /** What ResetBody does to the body object. */
    twostate predicate Closed(b: PyBody)
      reads b
    {
      b.rest == old(b.rest) && b.closes == old(b.closes) + if old(bodyIterator) == b then Closes(b.kind) else 0
    }

    method ResetBody()
      requires Sound() && Balanced()
      modifies this`bodyChunkNum, this`bodyPreloadedSize, this`live, this`bodyTotalSize, this`bodyTotalWritten
      modifies this`wsgiBody, this`bodyIterator, this`chunked, wsgiBody
      ensures Sound() && Balanced() && live == {}
      ensures bodyChunkNum == 0 && bodyPreloadedSize == 0 && bodyTotalSize == 0 && bodyTotalWritten == 0 && chunked == 0
      ensures wsgiBody == null && bodyIterator == null
      ensures old(wsgiBody) != null ==> Closed(old(wsgiBody))
      ensures Stock(old(bodyIterator)) == old(Stock(bodyIterator))
    {
      hide Objects;
      ResetPreload();
      bodyTotalSize := 0;
      if wsgiBody != null {
        if bodyIterator == wsgiBody {
          wsgiBody.CloseIterator();
        } else {
          bodyIterator := null;
        }
      }
      wsgiBody := null;
      bodyIterator := null;
      bodyTotalWritten := 0;
      chunked := 0;
    }

    // -------------------------------------------------------------- pulling items

    /** A reference in hand, besides those in the preload. */
    ghost predicate BalancedWith(c: Chunk)
      reads `live, `taken, `bodyChunkNum, body
      requires bodyChunkNum <= body.Length
    {
      && (forall i :: 0 <= i < bodyChunkNum ==> body[i].id in live && body[i].id != c.id)
      && (forall i, j :: 0 <= i < j < bodyChunkNum ==> body[i].id != body[j].id)
      && c.id in live && |live| == bodyChunkNum + 1
      && forall id :: id in live ==> id < taken
    }

    /** The first item of a generator is waiting in the preload, or the generator had none. */
    ghost predicate GeneratorStarted()
      reads this, body, bodyIterator
      requires Sound()
    {
      && bodyIterator != null && bodyChunkNum <= 1
      && (bodyChunkNum == 0 ==> bodyIterator.rest == [])
      && (bodyChunkNum == 1 ==> bodyPreloadedSize == |body[0].data|)
    }

    /** What the iterator has still to give. */
    ghost function Left(): seq<Item>
      reads `bodyIterator, bodyIterator
    {
      if bodyIterator == null then [] else bodyIterator.rest
    }

    /** The references taken so far, and the objects that `it` has still to give: each object that it gives
        is one reference more. */
    ghost function Stock(it: PyBody?): nat
      reads `taken, it
    {
      taken + if it == null then 0 else Objects(it.rest)
    }

    /** A reference to an object that an iterator gave, with its bytes. */
    method NewChunk(bytes: seq<byte>) returns (c: Chunk)
      requires Sound() && Balanced()
      modifies this`live, this`taken
      ensures c.data == bytes && BalancedWith(c) && taken == old(taken) + 1
    {
      c := Chunk(taken, bytes);
      taken := taken + 1;
      live := live + {c.id};
    }

    /** Py_DECREF of an object that is not kept. */
    method GiveBack(c: Chunk)
      requires Sound() && BalancedWith(c)
      modifies this`live
      ensures Balanced()
    {
      Release(c.id);
    }

    /** The loop of wsgi_iterator_get_next_chunk: objects that are empty or no bytes are given back. */
    method PullChunk() returns (item: Option<Chunk>)
      requires Sound() && Balanced() && bodyIterator != null
      modifies this`error, this`live, this`taken, bodyIterator`rest
      ensures Sound() && Held() == old(Held())
      ensures if item.None? then Balanced() else BalancedWith(item.value)
      ensures Good(old(Left())) == (if item.None? then [] else [item.value.data] + Good(Left()))
      ensures item.Some? ==> Breaks(Left()) == Breaks(old(Left())) && |Left()| < |old(Left())|
      ensures error == if item.None? && Breaks(old(Left())) then 11 else old(error)
      ensures item.None? && !Breaks(old(Left())) ==> Left() == []
      ensures Stock(bodyIterator) == old(Stock(bodyIterator))
    {
      hide Good, Breaks, Balanced, BalancedWith, Objects;
      NothingLeft();
      while true
        invariant Sound() && Balanced() && error == old(error)
        invariant Good(Left()) == Good(old(Left())) && Breaks(Left()) == Breaks(old(Left()))
        invariant |Left()| <= |old(Left())| && Stock(bodyIterator) == old(Stock(bodyIterator))
        decreases |bodyIterator.rest|
      {
        if Left() != [] { ItemTaken(Left()); }
        var next := bodyIterator.Next();
        match next {
          case None =>
            return None;
          case Some(Raises) =>
            error := 11;
            return None;
          case Some(NotBytes) =>
            var c := NewChunk([]);
            error := 11;
            GiveBack(c);
            return None;
          case Some(Data(bytes)) =>
            var c := NewChunk(bytes);
            if |bytes| > 0 { return Some(c); }
            GiveBack(c);
        }
      }
    }

    /** wsgi_iterator_get_next_chunk: the next non-empty item, or None at the end or at an error. */
    method NextChunk() returns (item: Option<Chunk>)
      requires Sound() && Balanced()
      requires bodyTotalSize == GENERATOR ==> GeneratorStarted()
      modifies this`error, this`live, this`taken, this`bodyTotalSize, this`bodyPreloadedSize, this`bodyChunkNum
      modifies bodyIterator
      ensures Sound() && bodyTotalSize != GENERATOR
      ensures if item.None? then Balanced() else BalancedWith(item.value)
      ensures old(bodyTotalSize) != GENERATOR ==>
                bodyTotalSize == old(bodyTotalSize) && bodyPreloadedSize == old(bodyPreloadedSize)
                && bodyChunkNum == old(bodyChunkNum) && Held() == old(Held())
      ensures old(bodyTotalSize) != GENERATOR ==>
                Good(old(Left())) == (if item.None? then [] else [item.value.data] + Good(Left()))
                && (item.Some? ==> Breaks(Left()) == Breaks(old(Left())) && |Left()| < |old(Left())|)
                && (item.None? && !Breaks(old(Left())) ==> Left() == [])
                && error == if item.None? && Breaks(old(Left())) then 11 else old(error)
      ensures old(bodyTotalSize) == GENERATOR ==>
                bodyTotalSize == 0 && bodyPreloadedSize == 0 && bodyChunkNum == 0 && Left() == old(Left())
                && error == old(error)
                && item == if old(bodyChunkNum) == 1 && old(bodyPreloadedSize) > 0 then Some(old(body[0])) else None
      ensures old(bodyIterator) == null ==> item.None?
      ensures Stock(bodyIterator) == old(Stock(bodyIterator))
    {
      hide Objects, Good, Breaks, Concat;
      NothingLeft();
      if bodyIterator == null { return None; }
      if bodyTotalSize == GENERATOR {
        bodyTotalSize := 0;
        var size := bodyPreloadedSize;
        bodyPreloadedSize := 0;
        if bodyChunkNum > 0 {
          bodyChunkNum := 0;
          if size == 0 {
            Release(body[0].id);
            return None;
          }
          return Some(body[0]);
        }
        return None;
      }
      item := PullChunk();
    }

    /** The same once the first item of a generator is used up. */
    method NextItem() returns (item: Option<Chunk>)
      requires Sound() && Balanced() && bodyTotalSize != GENERATOR
      modifies this`error, this`live, this`taken, this`bodyTotalSize, this`bodyPreloadedSize, this`bodyChunkNum
      modifies bodyIterator
      ensures Sound() && bodyTotalSize == old(bodyTotalSize) && bodyPreloadedSize == old(bodyPreloadedSize)
      ensures bodyChunkNum == old(bodyChunkNum) && Held() == old(Held())
      ensures if item.None? then Balanced() else BalancedWith(item.value)
      ensures Good(old(Left())) == if item.None? then [] else [item.value.data] + Good(Left())
      ensures item.Some? ==> Breaks(Left()) == Breaks(old(Left())) && |Left()| < |old(Left())|
      ensures item.None? && !Breaks(old(Left())) ==> Left() == []
      ensures error == if item.None? && Breaks(old(Left())) then 11 else old(error)
      ensures Stock(bodyIterator) == old(Stock(bodyIterator))
    {
      hide Balanced, BalancedWith, Good, Breaks, GeneratorStarted, Left, Objects;
      item := NextChunk();
    }

    // -------------------------------------------------------------- preloading

    /** The items of the body from here on, the waiting first item of a generator included. */
    ghost function Remaining(): seq<seq<byte>>
      reads `bodyIterator, `bodyTotalSize, `bodyChunkNum, `wsgiBody, body, bodyIterator
      requires Sound()
    {
      (if bodyTotalSize == GENERATOR && bodyChunkNum >= 1 then [body[0].data] else []) + Good(Left())
    }

    /** body[chunks++] = item */
    method Keep(c: Chunk)
      requires Sound() && BalancedWith(c) && bodyChunkNum < body.Length
      modifies this`bodyChunkNum, this`bodyPreloadedSize, body
      ensures Sound() && Balanced()
      ensures Datas(Held()) == old(Datas(Held())) + [c.data]
      ensures bodyPreloadedSize == old(bodyPreloadedSize) + |c.data|
      ensures old(Counted()) ==> Counted()
    {
      ghost var held := Held();
      ConcatSnoc(Datas(held), c.data);
      body[bodyChunkNum] := c;
      bodyChunkNum := bodyChunkNum + 1;
      bodyPreloadedSize := bodyPreloadedSize + |c.data|;
      assert Held() == held + [c];
      assert Datas(Held()) == Datas(held) + [c.data];
    }

    /** The preload is exactly the bytes of the chunks held. */
    ghost predicate Counted()
      reads `bodyPreloadedSize, `bodyChunkNum, body
      requires bodyChunkNum <= body.Length
    {
      bodyPreloadedSize == |Concat(Datas(Held()))|
    }

    /** One turn of the loop of wsgi_body_preload: is there a reason to stop behind this item? */
    method PreloadOne(c: Chunk, prevSize: nat, filelike: bool, ghost all: seq<seq<byte>>, ghost tail: seq<seq<byte>>)
      returns (stop: bool)
      requires Sound() && Counted() && bodyChunkNum <= MAX_PRELOADED_BODY_CHUNKS && BalancedWith(c)
      requires bodyChunkNum < |all| && all[..bodyChunkNum] == Datas(Held())
      requires all[bodyChunkNum] == c.data && all[bodyChunkNum + 1..] == tail
      requires prevSize == if bodyChunkNum == 0 then 0 else |all[bodyChunkNum - 1]|
      modifies this`bodyChunkNum, this`bodyPreloadedSize, body
      ensures Sound() && Balanced() && Counted() && bodyChunkNum == old(bodyChunkNum) + 1
      ensures bodyChunkNum <= |all| && all[bodyChunkNum - 1] == c.data
      ensures all[..bodyChunkNum] == Datas(Held()) && all[bodyChunkNum..] == tail
      ensures stop == StopAfter(all, bodyChunkNum, filelike, maxChunkSize)
      ensures !stop ==> bodyChunkNum <= MAX_PRELOADED_BODY_CHUNKS
    {
      Keep(c);
      assert all[..bodyChunkNum] == Datas(Held());
      if bodyChunkNum == MAX_PRELOADED_BODY_CHUNKS + 1 {
        return true;
      }
      if filelike {
        if bodyPreloadedSize + prevSize >= maxChunkSize {
          return true;
        }
      }
      return false;
    }

    /** In the loop of wsgi_body_preload: the items before the one in hand are in the preload, and there was
        no reason to stop behind them. */
    ghost predicate Midway(all: seq<seq<byte>>, breaks: bool, item: Option<Chunk>, prevSize: nat, filelike: bool)
      reads this, body, bodyIterator
      requires Sound()
    {
      && bodyTotalSize != GENERATOR && Counted() && bodyChunkNum <= MAX_PRELOADED_BODY_CHUNKS
      && (if item.None? then Balanced() else BalancedWith(item.value))
      && bodyChunkNum <= |all| && all[..bodyChunkNum] == Datas(Held())
      && (if item.None? then
            bodyChunkNum == |all| && error == (if breaks then 11 else 0) && (!breaks ==> Left() == [])
          else
            all[bodyChunkNum..] == [item.value.data] + Good(Left()) && Breaks(Left()) == breaks && error == 0)
      && (bodyChunkNum >= 1 ==> !StopAfter(all, bodyChunkNum, filelike, maxChunkSize))
      && Preloaded(all, 0, filelike, maxChunkSize) == Preloaded(all, bodyChunkNum, filelike, maxChunkSize)
      && prevSize == if bodyChunkNum == 0 then 0 else |all[bodyChunkNum - 1]|
    }

    /** One turn of the loop. */
    method PreloadTurn(c: Chunk, prevSize: nat, filelike: bool, ghost all: seq<seq<byte>>, ghost breaks: bool)
      returns (stop: bool, next: Option<Chunk>)
      requires Sound() && Midway(all, breaks, Some(c), prevSize, filelike)
      modifies this`error, this`live, this`taken, this`bodyTotalSize, this`bodyPreloadedSize, this`bodyChunkNum
      modifies bodyIterator, body
      ensures Sound() && bodyTotalSize == old(bodyTotalSize) && Stock(bodyIterator) == old(Stock(bodyIterator))
      ensures stop ==>
                && Balanced() && Counted() && |Held()| == Preloaded(all, 0, filelike, maxChunkSize) >= 1
                && StopAfter(all, |Held()|, filelike, maxChunkSize) && Datas(Held()) == all[..|Held()|]
                && Good(Left()) == all[|Held()|..] && Breaks(Left()) == breaks && error == 0
      ensures !stop ==> Midway(all, breaks, next, |c.data|, filelike)
      ensures !stop && next.Some? ==> |Left()| < |old(Left())|
    {
      hide Preloaded, Concat, StopAfter, Breaks, Good, Balanced, BalancedWith, Counted, Left, Objects;
      PreloadedStep(all, bodyChunkNum, filelike, maxChunkSize);
      NextOf(all, bodyChunkNum, c.data, Good(Left()));
      stop := PreloadOne(c, prevSize, filelike, all, Good(Left()));
      next := None;
      if stop {
        PreloadedStep(all, bodyChunkNum, filelike, maxChunkSize);
      } else {
        next := NextItem();
      }
    }

    /** The loop of wsgi_body_preload, from the item in hand on. */
    method PreloadRest(first: Option<Chunk>, filelike: bool, ghost all: seq<seq<byte>>, ghost breaks: bool)
      returns (fullyLoaded: bool)
      requires Sound() && bodyTotalSize != GENERATOR && bodyChunkNum == 0 && Counted()
      requires if first.None? then Balanced() else BalancedWith(first.value)
      requires all == if first.None? then [] else [first.value.data] + Good(Left())
      requires first.Some? ==> Breaks(Left()) == breaks && error == 0
      requires first.None? ==> error == (if breaks then 11 else 0) && (!breaks ==> Left() == [])
      modifies this`error, this`live, this`taken, this`bodyTotalSize, this`bodyPreloadedSize, this`bodyChunkNum
      modifies bodyIterator, body
      ensures Sound() && Balanced() && Counted() && bodyTotalSize == old(bodyTotalSize)
      ensures |Held()| == Preloaded(all, 0, filelike, maxChunkSize)
      ensures Datas(Held()) == all[..|Held()|]
      ensures !fullyLoaded ==> Good(Left()) == all[|Held()|..] && Breaks(Left()) == breaks
      ensures fullyLoaded == FullyLoaded(all, filelike, maxChunkSize)
      ensures fullyLoaded ==> |Held()| == |all|
      ensures error == if fullyLoaded && breaks then 11 else 0
      ensures fullyLoaded && !breaks ==> Left() == []
      ensures Stock(bodyIterator) == old(Stock(bodyIterator))
    {
      hide Preloaded, Concat, StopAfter, Breaks, Good, Balanced, BalancedWith, Counted, Left, Objects;
      var item := first;
      var prevSize: nat := 0;
      while item.Some?
        invariant Sound() && bodyTotalSize == old(bodyTotalSize) && Stock(bodyIterator) == old(Stock(bodyIterator))
        invariant Midway(all, breaks, item, prevSize, filelike)
        decreases item.Some?, |Left()|
      {
        var size := |item.value.data|;
        var stop, next := PreloadTurn(item.value, prevSize, filelike, all, breaks);
        if stop { return false; }
        prevSize, item := size, next;
      }
      PreloadedStep(all, bodyChunkNum, filelike, maxChunkSize);
      return true;
    }

    /** The items part of wsgi_body_preload. `filelike` is the guess made from the first item's reference count. */
    method PreloadItems(filelike: bool) returns (fullyLoaded: bool)
      requires Sound() && Balanced() && error == 0
      requires bodyTotalSize == GENERATOR ==> GeneratorStarted() && (bodyChunkNum == 1 ==> body[0].data != [])
      requires bodyTotalSize != GENERATOR ==> bodyChunkNum == 0 && bodyPreloadedSize == 0
      modifies this`error, this`live, this`taken, this`bodyTotalSize, this`bodyPreloadedSize, this`bodyChunkNum
      modifies bodyIterator, body
      ensures Sound() && Balanced() && Counted()
      ensures bodyTotalSize == if old(bodyTotalSize) == GENERATOR then 0 else old(bodyTotalSize)
      ensures |Held()| == Preloaded(old(Remaining()), 0, filelike, maxChunkSize)
      ensures Datas(Held()) == old(Remaining())[..|Held()|]
      ensures !fullyLoaded ==> Good(Left()) == old(Remaining())[|Held()|..] && Breaks(Left()) == Breaks(old(Left()))
      ensures fullyLoaded == FullyLoaded(old(Remaining()), filelike, maxChunkSize)
      ensures fullyLoaded ==> |Held()| == |old(Remaining())|
      ensures error == if fullyLoaded && Breaks(old(Left())) then 11 else 0
      ensures fullyLoaded && !Breaks(old(Left())) ==> Left() == []
      ensures Stock(bodyIterator) == old(Stock(bodyIterator))
    {
      hide Objects;
      ghost var all, breaks := Remaining(), Breaks(Left());
      var first := NextChunk();
      fullyLoaded := PreloadRest(first, filelike, all, breaks);
    }

    /** The preload holds the first `n` pieces and the iterator has the others. */
    ghost predicate Holds(pieces: seq<seq<byte>>, n: nat)
      reads `bodyPreloadedSize, `bodyChunkNum, body
      requires bodyChunkNum <= body.Length
    {
      && n <= |pieces|
      && bodyPreloadedSize == |Concat(pieces[..n])|
      && (n > 0 ==> Datas(Held()) == pieces[..n])
    }

    ghost predicate Follows(pieces: seq<seq<byte>>, breaks: bool, d: Decision)
      reads `bodyPreloadedSize, `bodyTotalSize, `bodyChunkNum, `chunked, `bodyIterator, body, bodyIterator
      requires bodyChunkNum <= body.Length
    {
      match d
      case Refuse => false
      case Announce(total, n) =>
        && chunked == 0 && bodyTotalSize == total && Holds(pieces, n)
        && (total > 0 ==> Good(Left()) == pieces[n..] && Breaks(Left()) == breaks)
      case Streamed(n) =>
        && chunked == 1 && bodyTotalSize == 0 && Holds(pieces, n)
        && Good(Left()) == pieces[n..] && Breaks(Left()) == breaks
    }

    /** wsgi_body_preload of a bytes object. */
    method PreloadBytes(bytes: seq<byte>) returns (rc: int)
      requires Sound() && Balanced() && chunked == 0 && bodyIterator == null
      requires bodyChunkNum == 0 && bodyPreloadedSize == 0
      modifies this`live, this`taken, this`bodyTotalSize, this`bodyPreloadedSize, this`bodyChunkNum, body
      ensures Sound() && Balanced() && rc >= 0
      ensures Follows(OneBytes(bytes), false, Announce(|bytes|, |OneBytes(bytes)|))
    {
      if |bytes| == 0 {
        bodyTotalSize := 0;
        bodyPreloadedSize := 0;
        return 0;
      }
      body[0] := Chunk(taken, bytes);
      live := live + {taken};
      taken := taken + 1;
      bodyChunkNum := 1;
      bodyTotalSize := |bytes|;
      bodyPreloadedSize := |bytes|;
      assert OneBytes(bytes)[..1] == [bytes] == Datas(Held());
      return 1;
    }

    /** wsgi_body_preload: a negative code for a body that cannot be sent, 2 for chunked sending. */
    method BodyPreload(filelike: bool) returns (rc: int)
      requires Sound() && Balanced() && error == 0 && wsgiBody != null && chunked == 0
      requires bodyTotalSize == GENERATOR ==> GeneratorStarted() && (bodyChunkNum == 1 ==> body[0].data != [])
      requires bodyTotalSize != GENERATOR ==> bodyChunkNum == 0 && bodyPreloadedSize == 0 && bodyTotalSize == 0
      requires wsgiBody.kind.BytesBody? <==> bodyIterator == null
      requires contentLength >= -1
      modifies this`error, this`live, this`taken, this`bodyTotalSize, this`bodyPreloadedSize, this`bodyChunkNum
      modifies this`chunked, bodyIterator, body
      ensures Sound() && Balanced()
      ensures wsgiBody.kind.BytesBody? ==>
                rc >= 0 && Follows(OneBytes(wsgiBody.kind.data), false,
                                   Announce(|wsgiBody.kind.data|, |OneBytes(wsgiBody.kind.data)|))
      ensures !wsgiBody.kind.BytesBody? ==>
                var pieces, breaks := old(Remaining()), Breaks(old(Left()));
                var d := Decide(pieces, breaks, filelike, maxChunkSize, contentLength);
                if d.Refuse? then rc < 0 else rc >= 0 && Follows(pieces, breaks, d)
      ensures error == if !wsgiBody.kind.BytesBody? && contentLength != 0 && Breaks(old(Left()))
                          && FullyLoaded(old(Remaining()), filelike, maxChunkSize) then 11 else 0
      ensures bodyIterator != null ==> Stock(bodyIterator) == old(Stock(bodyIterator))
    {
      hide Preloaded, StopAfter, FullyLoaded, Good, Breaks, Concat, OneBytes, Balanced, Objects;
      NothingLeft();
      if wsgiBody.kind.BytesBody? {
        rc := PreloadBytes(wsgiBody.kind.data);
        return;
      }
      if contentLength == 0 {
        bodyTotalSize := 0;
        bodyPreloadedSize := 0;
        return 0;
      }
      var fullyLoaded := PreloadItems(filelike);
      if error != 0 { return -13; }
      if fullyLoaded {
        if contentLength > 0 && bodyPreloadedSize > contentLength { return -14; }
        bodyTotalSize := bodyPreloadedSize;
        return 1;
      }
      if bodyPreloadedSize == contentLength {
        bodyTotalSize := contentLength;
        return 1;
      }
      if contentLength > 0 {
        bodyTotalSize := contentLength;
        return 1;
      }
      chunked := 1;
      return 2;
    }

    // -------------------------------------------------------------- one response, from the app's return on

    /** Nothing of an earlier response is left. */
    ghost predicate Fresh()
      reads this, body, wsgiBody, bodyIterator
    {
      && Sound() && Balanced() && wsgiBody != null && wsgiBody.closes == 0 && bodyIterator == null
      && error == 0 && chunked == 0 && bodyChunkNum == 0
      && bodyPreloadedSize == 0 && bodyTotalSize == 0 && bodyTotalWritten == 0
    }

    /** Everything of this response is given back. */
    ghost predicate Reset()
      reads this, body, bodyIterator
    {
      && Sound() && Balanced() && live == {} && wsgiBody == null && bodyIterator == null
      && chunked == 0 && bodyChunkNum == 0
      && bodyPreloadedSize == 0 && bodyTotalSize == 0 && bodyTotalWritten == 0
    }

    /** A generator is started: its first item waits in the preload. */
    method StartGenerator() returns (err: int)
      requires Sound() && Balanced() && bodyIterator != null && error == 0
      requires bodyChunkNum == 0 && bodyPreloadedSize == 0 && bodyTotalSize == 0
      modifies this`error, this`live, this`taken, this`bodyTotalSize, this`bodyPreloadedSize, this`bodyChunkNum
      modifies body, bodyIterator
      ensures Sound() && Balanced() && Stock(bodyIterator) == old(Stock(bodyIterator))
      ensures err == if Good(old(Left())) == [] && Breaks(old(Left())) then 500 else 0
      ensures err == 0 ==>
                && error == 0 && bodyTotalSize == GENERATOR
                && GeneratorStarted() && (bodyChunkNum == 1 ==> body[0].data != [])
                && Remaining() == Good(old(Left())) && Breaks(Left()) == Breaks(old(Left()))
      ensures err != 0 ==> error == 11
    {
      hide Good, Breaks, Objects;
      NothingLeft();
      var item := NextItem();
      if item.None? && error != 0 { return 500; }
      if item.Some? {
        body[0] := item.value;
        bodyChunkNum := 1;
        bodyPreloadedSize := |item.value.data|;
      }
      bodyTotalSize := GENERATOR;
      return 0;
    }

    /** The part of process_wsgi_response that gets hold of an iterator, and of a generator's first item. */
    method MakeIterator() returns (err: int)
      requires Fresh()
      modifies this`bodyIterator, this`source, this`error, this`live, this`taken
      modifies this`bodyTotalSize, this`bodyPreloadedSize, this`bodyChunkNum, body, wsgiBody
      ensures Sound() && Balanced() && wsgiBody.closes == 0
      ensures err == if wsgiBody.kind.NotIterable? ||
                        (wsgiBody.kind.Generator? && Good(old(wsgiBody.rest)) == [] && Breaks(old(wsgiBody.rest)))
                     then 500 else 0
      ensures wsgiBody.kind.BytesBody? || wsgiBody.kind.NotIterable? ==> bodyIterator == null
      ensures wsgiBody.kind.Generator? || wsgiBody.kind.Iterator? ==> bodyIterator == wsgiBody
      ensures wsgiBody.kind.Iterable? ==> bodyIterator != null && fresh(bodyIterator)
      ensures err == 0 ==> error == 0
      ensures err == 0 && !wsgiBody.kind.BytesBody? ==>
                Remaining() == Good(old(wsgiBody.rest)) && Breaks(Left()) == Breaks(old(wsgiBody.rest))
      ensures err == 0 && bodyTotalSize == GENERATOR ==>
                GeneratorStarted() && (bodyChunkNum == 1 ==> body[0].data != [])
      ensures err == 0 && bodyTotalSize != GENERATOR ==>
                bodyChunkNum == 0 && bodyPreloadedSize == 0 && bodyTotalSize == 0
      ensures err != 0 ==> error == if wsgiBody.kind.NotIterable? then 0 else 11
      ensures source == bodyIterator && (source == null <==> wsgiBody.kind.BytesBody? || wsgiBody.kind.NotIterable?)
      ensures source != null ==> Stock(source) == old(taken) + Objects(old(wsgiBody.rest))
    {
      hide Objects, Good, Breaks, Balanced;
      NothingLeft();
      match wsgiBody.kind {
        case BytesBody(_) =>
          source := null;
          return 0;
        case Generator =>
          bodyIterator, source := wsgiBody, wsgiBody;
          err := StartGenerator();
        case Iterator =>
          bodyIterator, source := wsgiBody, wsgiBody;
          return 0;
        case Iterable =>
          bodyIterator := new PyBody(Iterator, wsgiBody.rest);
          source := bodyIterator;
          return 0;
        case NotIterable =>
          source := null;
          return 500;
      }
    }

    /** get_info_from_wsgi_response */
    method GetInfo(headers: seq<Head.Header>) returns (err: int)
      modifies this`contentLength
      ensures err == 0 <==> !DeclaredBy(headers).Malformed?
      ensures err == 0 ==> contentLength == LengthOf(DeclaredBy(headers))
    {
      contentLength := -1;
      for i := 0 to |headers|
        invariant !DeclaredBy(headers[..i]).Malformed? && contentLength == LengthOf(DeclaredBy(headers[..i]))
      {
        var h := headers[i];
        assert headers[..i + 1][..i] == headers[..i] && headers[..i + 1][i] == h;
        if Head.Named(h.name, Head.CONTENT_LENGTH) {
          if |h.value| == 0 {
            MalformedStays(headers, i + 1);
            return -2;
          }
          var clen := 0;
          if h.value != [48] {
            clen := StrToLL(h.value);
            if clen <= 0 || clen == LLONG_MAX {
              MalformedStays(headers, i + 1);
              return -3;
            }
          }
          contentLength := clen;
        }
      }
      assert headers[..|headers|] == headers;
      return 0;
    }

    /** The part of process_wsgi_response behind the iterator: the declared length and the preload. */
    method LoadBody(headers: seq<Head.Header>, filelike: bool) returns (err: int)
      requires Sound() && Balanced() && error == 0 && wsgiBody != null && chunked == 0
      requires bodyTotalSize == GENERATOR ==> GeneratorStarted() && (bodyChunkNum == 1 ==> body[0].data != [])
      requires bodyTotalSize != GENERATOR ==> bodyChunkNum == 0 && bodyPreloadedSize == 0 && bodyTotalSize == 0
      requires wsgiBody.kind.BytesBody? <==> bodyIterator == null
      requires contentLength == -1
      modifies this`error, this`live, this`taken, this`bodyTotalSize, this`bodyPreloadedSize, this`bodyChunkNum
      modifies this`chunked, this`contentLength, bodyIterator, body
      ensures Sound() && Balanced()
      ensures DeclaredBy(headers).Malformed? ==> err == 500 && error == 0
      ensures !DeclaredBy(headers).Malformed? ==> contentLength == LengthOf(DeclaredBy(headers))
      ensures !DeclaredBy(headers).Malformed? && wsgiBody.kind.BytesBody? ==>
                err == 0 && Follows(OneBytes(wsgiBody.kind.data), false,
                                    Announce(|wsgiBody.kind.data|, |OneBytes(wsgiBody.kind.data)|))
      ensures !DeclaredBy(headers).Malformed? && !wsgiBody.kind.BytesBody? ==>
                var pieces, breaks := old(Remaining()), Breaks(old(Left()));
                var d := Decide(pieces, breaks, filelike, maxChunkSize, LengthOf(DeclaredBy(headers)));
                if d.Refuse? then err == 500 else err == 0 && Follows(pieces, breaks, d)
      ensures error == if !DeclaredBy(headers).Malformed? && !wsgiBody.kind.BytesBody?
                && DeclaredBy(headers) != Length(0)
                          && Breaks(old(Left())) && FullyLoaded(old(Remaining()), filelike, maxChunkSize) then 11 else 0
      ensures bodyIterator != null ==> Stock(bodyIterator) == old(Stock(bodyIterator))
    {
      hide Good, Breaks, Decide, OneBytes, FullyLoaded, DeclaredBy, Objects;
      var info := GetInfo(headers);
      if info != 0 { return 500; }
      var rc := BodyPreload(filelike);
      return if rc < 0 then 500 else 0;
    }

    /** process_wsgi_response without its cleaning up. */
    method PrepareBody(headers: seq<Head.Header>, filelike: bool) returns (err: int)
      requires Fresh()
      modifies `bodyChunkNum, `bodyPreloadedSize, `live, `bodyTotalSize, `bodyIterator, `chunked, `error, `taken
      modifies `source
      modifies `contentLength, body, wsgiBody
      ensures Sound() && Balanced() && wsgiBody.closes == 0
      ensures err == 0 || err == 500
      ensures var d := DecideFor(wsgiBody.kind, old(wsgiBody.rest), filelike, maxChunkSize, DeclaredBy(headers));
                if d.Refuse? then err == 500
                else
                  && err == 0 && contentLength == LengthOf(DeclaredBy(headers))
                  && Follows(PiecesOf(wsgiBody.kind, old(wsgiBody.rest)),
                             !wsgiBody.kind.BytesBody? && Breaks(old(wsgiBody.rest)), d)
      ensures bodyIterator == wsgiBody <==> Closes(wsgiBody.kind) == 1
      ensures bodyIterator == null || bodyIterator == wsgiBody || fresh(bodyIterator)
      ensures error ==
                if Broken(wsgiBody.kind, old(wsgiBody.rest), filelike, maxChunkSize, DeclaredBy(headers)) then 11 else 0
      ensures source == bodyIterator && (source == null <==> wsgiBody.kind.BytesBody? || wsgiBody.kind.NotIterable?)
      ensures source != null ==> Stock(source) == old(taken) + Objects(old(wsgiBody.rest))
    {
      hide Good, Breaks, Decide, OneBytes, Follows, FullyLoaded, Balanced, Remaining, DeclaredBy, Objects;
      contentLength := -1;
      err := MakeIterator();
      if err == 0 {
        err := LoadBody(headers, filelike);
      }
    }

    /** process_wsgi_response: either an error and everything is given back, or the body is ready to be
        sent the way DecideFor says. */
    method ProcessResponse(headers: seq<Head.Header>, filelike: bool) returns (err: int)
      requires Fresh()
      modifies `head, `headersSize, `bodyChunkNum, `bodyPreloadedSize, `live, `bodyTotalSize, `bodyTotalWritten
      modifies `wsgiBody, `bodyIterator, `chunked, `error, `taken, `source, `contentLength, body, wsgiBody
      ensures Sound() && Balanced() && InUse(old(wsgiBody)) && bodyTotalWritten == 0
      ensures var d := DecideFor(old(wsgiBody).kind, old(wsgiBody.rest), filelike, maxChunkSize, DeclaredBy(headers));
                if d.Refuse? then err == 500 && Reset() && head == [] && headersSize == 0
                else
                  && err == 0 && wsgiBody == old(wsgiBody) && contentLength == LengthOf(DeclaredBy(headers))
                  && Follows(PiecesOf(old(wsgiBody).kind, old(wsgiBody.rest)),
                             !old(wsgiBody).kind.BytesBody? && Breaks(old(wsgiBody.rest)), d)
      ensures bodyIterator == null || bodyIterator == old(wsgiBody) || fresh(bodyIterator)
      ensures error == if Broken(old(wsgiBody).kind, old(wsgiBody.rest), filelike, maxChunkSize, DeclaredBy(headers))
                       then 11
                       else 0
      ensures bodyIterator == source || (bodyIterator == null && wsgiBody == null)
      ensures source == null <==> old(wsgiBody).kind.BytesBody? || old(wsgiBody).kind.NotIterable?
      ensures source != null ==> Stock(source) == old(taken) + Objects(old(wsgiBody.rest))
    {
      hide Good, Breaks, DecideFor, Broken, Follows, Balanced, Remaining, DeclaredBy, Objects;
      err := PrepareBody(headers, filelike);
      if err != 0 {
        ResetHead();
        ResetBody();
      }
    }

    // -------------------------------------------------------------- the head

    /** The framing of a response that has a body, or none to tell apart. */
    function FramingNow(status: int): Head.Framing
      reads `contentLength, `chunked, `bodyTotalSize
    {
      if Bodyless(status, isHead) then
        if !parserHead then Head.ContentLength(0)
        else if contentLength >= 0 then Head.ContentLength(contentLength) else Head.NoFraming
      else if chunked != 0 then Head.ChunkedCoding
      else if bodyTotalSize >= 0 then Head.ContentLength(bodyTotalSize)
      else Head.NoFraming
    }

    /** The head's text: the fields, then how the body is framed. */
    method PutHead(keep: bool, start: seq<byte>, headers: seq<Head.Header>, date: seq<byte>, framing: Head.Framing)
      modifies `head
      ensures head == Head.Text(start, Head.Fields(cfg, headers, date, keep, framing))
    {
      hide Head.Fields, Head.Text, Head.Lines, Head.FramingFields;
      Head.FramedText(cfg, start, headers, date, keep, framing);
      head := Head.BuildFields(cfg, start, headers, date, keep);
      head := Head.AddFraming(cfg, head, framing);
    }

    /** build_response, for the app's headers (`bodySize` -1) or for a response without a body (0).
        `start` is the status line, unless the status has no name. */
    method BuildResponse(keep: bool, start: Option<seq<byte>>, status: int, headers: seq<Head.Header>, date: seq<byte>,
                         bodySize: int) returns (hr: int)
      requires Sound() && Balanced() && chunked <= 2 && (parserHead ==> isHead)
      requires bodySize == 0 ==> chunked == 0 && bodyTotalSize == 0
      modifies `head, `headersSize, `bodyChunkNum, `bodyPreloadedSize, `live, `bodyTotalSize, `bodyTotalWritten
      modifies `wsgiBody, `bodyIterator, `chunked, wsgiBody
      ensures Sound() && Balanced() && chunked <= old(chunked)
      ensures hr < 0 <==>
                start.None? || (!Bodyless(status, isHead) && old(chunked) != 0 && old(bodyPreloadedSize) >= INT_MAX)
      ensures hr < 0 || hr == |head| == headersSize
      ensures hr >= 0 ==>
                head == Head.Text(start.value, Head.Fields(cfg, headers, date, keep, old(FramingNow(status))))
                  + if !Bodyless(status, isHead) && old(chunked) != 0 then SizeLine(old(bodyPreloadedSize)) else []
      ensures Bodyless(status, isHead) || (hr >= 0 && bodySize == 0) ==>
                Reset() && (old(wsgiBody) != null ==> Closed(old(wsgiBody)))
      ensures !Bodyless(status, isHead) && (hr < 0 || bodySize != 0) ==>
                && wsgiBody == old(wsgiBody) && bodyIterator == old(bodyIterator) && Held() == old(Held())
                && bodyPreloadedSize == old(bodyPreloadedSize) && bodyTotalSize == old(bodyTotalSize)
                && bodyTotalWritten == old(bodyTotalWritten) && chunked == old(chunked) && live == old(live)
                && (wsgiBody != null ==> unchanged(wsgiBody))
    {
      hide Head.Fields, Head.Text, Head.Lines, Head.FramingFields, SizeLine, Closes;
      ghost var framing := FramingNow(status);
      var size := bodySize;
      ResetHead();
      if Bodyless(status, isHead) {
        size := 0;
        ResetBody();
      }
      if start.None? { return -3; }
      if parserHead {
        ResetBody();
        PutHead(keep, start.value, headers, date,
                if contentLength >= 0 then Head.ContentLength(contentLength) else Head.NoFraming);
      } else if chunked != 0 {
        PutHead(keep, start.value, headers, date, Head.ChunkedCoding);
        if bodyPreloadedSize >= INT_MAX { return -7; }
        head := head + SizeLine(bodyPreloadedSize);
      } else {
        if size == 0 {
          ResetBody();
        }
        PutHead(keep, start.value, headers, date,
                if bodyTotalSize >= 0 then Head.ContentLength(bodyTotalSize) else Head.NoFraming);
      }
      headersSize := |head|;
      return |head|;
    }

    // -------------------------------------------------------------- writing

    /** The bytes stream_write hands to uv_write. */
    ghost function Payload(): seq<byte>
      reads `head, `headersSize, `bodyPreloadedSize, `bodyChunkNum, `chunked, body
      requires bodyChunkNum <= body.Length
    {
      (if headersSize > 0 then head else [])
      + (if bodyPreloadedSize > 0 then Concat(AllSent(Datas(Held()))) else [])
      + (if chunked == 1 then CRLF else [])
    }

    /** One more entry of the scatter list. */
    method AddBuf(nbufs: nat, data: seq<byte>)
      requires nbufs < bufs.Length
      modifies bufs
      ensures bufs[..nbufs + 1] == old(bufs[..nbufs]) + [data]
      ensures Concat(bufs[..nbufs + 1]) == Concat(old(bufs[..nbufs])) + data
    {
      ghost var before := bufs[..nbufs];
      bufs[nbufs] := data;
      assert bufs[..nbufs + 1] == before + [data];
      ConcatSnoc(before, data);
    }

    /** The entries of the preloaded chunks, after one entry at most. */
    method FillChunks(start: nat) returns (nbufs: nat)
      requires Sound() && start <= 1
      modifies bufs
      ensures nbufs == start + bodyChunkNum
      ensures Concat(bufs[..nbufs]) == old(Concat(bufs[..start])) + Concat(AllSent(Datas(Held())))
    {
      hide Concat;
      ghost var front, pieces := Concat(bufs[..start]), AllSent(Datas(Held()));
      nbufs := start;
      assert pieces[..0] == [] && front + [] == front;
      ConcatEmpty<byte>();
      for i := 0 to bodyChunkNum
        invariant nbufs == start + i
        invariant Concat(bufs[..nbufs]) == front + Concat(pieces[..i])
      {
        assert pieces[..i + 1] == pieces[..i] + [pieces[i]];
        ConcatSnoc(pieces[..i], pieces[i]);
        AddBuf(nbufs, Sent(body[i].data));
        nbufs := nbufs + 1;
        assert pieces[i] == Sent(body[i].data);
      }
      assert pieces[..bodyChunkNum] == pieces;
    }

    /** The scatter list: it never holds more than its 51 entries. */
    method FillBufs() returns (nbufs: nat)
      requires Sound() && (headersSize > 0 ==> headersSize == |head|)
      modifies bufs
      ensures nbufs <= bufs.Length && Concat(bufs[..nbufs]) == Payload()
    {
      hide Concat, AllSent, Datas;
      ConcatEmpty<byte>();
      nbufs := 0;
      assert bufs[..0] == [];
      if headersSize > 0 {
        AddBuf(0, head);
        nbufs := 1;
        assert [] + head == head;
      }
      if bodyPreloadedSize > 0 {
        nbufs := FillChunks(nbufs);
      }
      if chunked == 1 {
        AddBuf(nbufs, CRLF);
        nbufs := nbufs + 1;
      }
    }

    /** stream_write. `uvOk` says whether uv_write accepts the request. */
    method StreamWrite(uvOk: bool) returns (hr: Action)
      requires Sound()
      modifies `state, `writes, `inFlight, bufs
      ensures old(state) == RespSend ==> hr == Shutdown && state == Destroy && writes == old(writes)
      ensures old(state) != RespSend && headersSize > 0 && headersSize != |head| ==>
                hr == Ok && state == old(state) && writes == old(writes)
      ensures old(state) != RespSend && (headersSize > 0 ==> headersSize == |head|) ==>
                if uvOk then hr == Ok && state == RespSend && inFlight && writes == old(writes) + [Payload()]
                else hr == Shutdown && state == Destroy && writes == old(writes) && inFlight == old(inFlight)
    {
      if state == RespSend {
        state := Destroy;
        return Shutdown;
      }
      if headersSize > 0 {
        if headersSize != |head| { return Ok; }
      }
      var nbufs := FillBufs();
      state := RespSend;
      if !uvOk {
        state := Destroy;
        return Shutdown;
      }
      writes := writes + [Concat(bufs[..nbufs])];
      inFlight := true;
      return Ok;
    }

    /** create_response: on an error nothing of the response is left. */
    method CreateResponse(start: Option<seq<byte>>, status: int, headers: seq<Head.Header>, date: seq<byte>)
      returns (err: int)
      requires Sound() && Balanced() && chunked <= 1 && (parserHead ==> isHead)
      modifies `head, `headersSize, `bodyChunkNum, `bodyPreloadedSize, `live, `bodyTotalSize, `bodyTotalWritten
      modifies `wsgiBody, `bodyIterator, `chunked, wsgiBody
      ensures Sound() && Balanced() && chunked <= 1
      ensures headersSize == |head|
      ensures err == (if start.None? ||
                         (!Bodyless(status, isHead) && old(chunked) == 1 && old(bodyPreloadedSize) >= INT_MAX)
                      then 500 else 0)
      ensures err == 0 ==>
                head == Head.Text(start.value, Head.Fields(cfg, headers, date, keepAlive, old(FramingNow(status))))
                  + if !Bodyless(status, isHead) && old(chunked) == 1 then SizeLine(old(bodyPreloadedSize)) else []
      ensures err != 0 || Bodyless(status, isHead) ==> Reset() && (old(wsgiBody) != null ==> Closed(old(wsgiBody)))
      ensures err == 0 && !Bodyless(status, isHead) ==>
                && wsgiBody == old(wsgiBody) && bodyIterator == old(bodyIterator) && Held() == old(Held())
                && bodyPreloadedSize == old(bodyPreloadedSize) && bodyTotalSize == old(bodyTotalSize)
                && bodyTotalWritten == old(bodyTotalWritten) && chunked == old(chunked) && live == old(live)
                && (wsgiBody != null ==> unchanged(wsgiBody))
      ensures Stock(old(bodyIterator)) == old(Stock(bodyIterator))
    {
      hide Head.Fields, SizeLine, Closes, Balanced, Objects;
      var len := BuildResponse(keepAlive, start, status, headers, date, -1);
      err := if len <= 0 then 500 else 0;
      if err != 0 {
        ResetHead();
        ResetBody();
      }
    }

    // -------------------------------------------------------------- streaming the rest

    /** What holds while a response is on its way. */
    ghost predicate Running()
      reads this, body, bodyIterator
    {
      Sound() && Balanced() && chunked <= 2 && bodyTotalSize >= 0 && (headersSize > 0 ==> headersSize == |head|)
    }

    /** The writes to come behind the one in flight. */
    ghost function Coming(): seq<seq<byte>>
      reads `chunked, `bodyTotalSize, `bodyTotalWritten, `bodyPreloadedSize, `bodyIterator, bodyIterator
    {
      if chunked == 2 then []
      else Tail(Good(Left()), Breaks(Left()), chunked == 1, bodyTotalSize, bodyTotalWritten + bodyPreloadedSize)
    }

    /** How the response will end, all writes succeeding. */
    ghost function Ending(): End
      reads `chunked, `bodyTotalSize, `bodyTotalWritten, `bodyPreloadedSize, `bodyIterator, bodyIterator
    {
      if chunked == 2 then Complete
      else EndOf(Good(Left()), Breaks(Left()), chunked == 1, bodyTotalSize, bodyTotalWritten + bodyPreloadedSize)
    }

    /** What one call of write_cb does, given the writes that were to come, how the response was to end
        and the writes so far: it makes the next write, or, when none is to come, gives the connection
        the next request unless the response went wrong or keep-alive is off. */
    ghost predicate Moved(done: Done, uvOk: bool, coming: seq<seq<byte>>, ending: End, before: seq<seq<byte>>)
      reads this, body, bodyIterator
    {
      if coming == [] then
        && writes == before && !inFlight
        && done == if ending in {Overrun, Broke} || !keepAlive || !cfg.allowKeepalive then Closing else KeptAlive
      else if uvOk then
        && done == Sending && writes == before + [coming[0]] && inFlight && state == RespSend
        && Running() && Coming() == coming[1..] && Ending() == ending && error == 0
      else
        done == Closing && writes == before && !inFlight
    }

    /** The response is given back when the connection is kept, and not yet otherwise; `b`, `it` and
        `closes` are the app's body, its iterator and its number of close calls before. */
    ghost predicate GivenBack(done: Done, b: PyBody?, it: PyBody?, closes: nat)
      reads this, body, bodyIterator, b
    {
      if done == KeptAlive then
        state == RespEnd && Reset() && (b != null ==> b.closes == closes + if it == b then Closes(b.kind) else 0)
      else
        && wsgiBody == b && bodyIterator == it && (b != null ==> b.closes == closes)
        && (done == Closing ==> state == Destroy)
    }

    ghost function TimesClosed(): nat
      reads `wsgiBody, wsgiBody
    {
      if wsgiBody == null then 0 else wsgiBody.closes
    }

    /** The next write is to be one item, as a chunk or bare. */
    method LoadItem(chunk: Chunk)
      requires Sound() && BalancedWith(chunk) && chunk.data != [] && bodyChunkNum == 0 && chunked <= 1
      modifies `head, `headersSize, `bodyChunkNum, `bodyPreloadedSize, body
      ensures Sound() && Balanced() && bodyPreloadedSize == |chunk.data| && (headersSize > 0 ==> headersSize == |head|)
      ensures Payload() == ItemWrite(chunk.data, chunked == 1)
    {
      hide Concat, AllSent, Datas, Sent, ItemWrite, SizeLine;
      head := [];
      if chunked == 0 {
        headersSize := 0;
      } else {
        head := SizeLine(|chunk.data| % UINT_RANGE);
        headersSize := |head|;
      }
      body[0] := chunk;
      bodyChunkNum := 1;
      bodyPreloadedSize := |chunk.data|;
      assert Held() == [chunk];
      OneSent(chunk);
      assert headersSize > 0 <==> chunked == 1;
    }

    /** The part of write_cb that sends one more item. */
    method SendItem(chunk: Chunk, uvOk: bool) returns (hr: Action)
      requires Sound() && BalancedWith(chunk) && chunk.data != [] && bodyChunkNum == 0 && chunked <= 1
      requires state == RespBuild
      modifies `head, `headersSize, `bodyChunkNum, `bodyPreloadedSize, `state, `writes, `inFlight, body, bufs
      ensures Sound() && Balanced() && bodyPreloadedSize == |chunk.data| && (headersSize > 0 ==> headersSize == |head|)
      ensures if uvOk then hr == Ok && state == RespSend && inFlight
                           && writes == old(writes) + [ItemWrite(chunk.data, chunked == 1)]
              else hr == Shutdown && state == Destroy && writes == old(writes) && inFlight == old(inFlight)
    {
      hide Payload, ItemWrite, Balanced, BalancedWith;
      LoadItem(chunk);
      hr := StreamWrite(uvOk);
    }

    /** The part of write_cb that ends a chunked body. */
    method SendLast(uvOk: bool) returns (hr: Action)
      requires Sound() && Balanced() && bodyPreloadedSize == 0 && state == RespBuild
      modifies `head, `headersSize, `chunked, `state, `writes, `inFlight, bufs
      ensures Sound() && Balanced() && chunked == 2 && headersSize == |head|
      ensures if uvOk then hr == Ok && state == RespSend && inFlight && writes == old(writes) + [LAST]
              else hr == Shutdown && state == Destroy && writes == old(writes) && inFlight == old(inFlight)
    {
      head := LAST;
      headersSize := |head|;
      chunked := 2;
      assert Payload() == LAST;
      hr := StreamWrite(uvOk);
    }

    /** The end of write_cb: the connection is kept for the next request, or closed. */
    method Finish(status: int) returns (done: Done)
      requires Sound() && Balanced()
      modifies `state, `bodyChunkNum, `bodyPreloadedSize, `live, `bodyTotalSize, `bodyTotalWritten
      modifies `wsgiBody, `bodyIterator, `chunked, wsgiBody
      ensures Sound() && Balanced()
      ensures done == if status < 0 || !keepAlive || !cfg.allowKeepalive then Closing else KeptAlive
      ensures GivenBack(done, old(wsgiBody), old(bodyIterator), old(TimesClosed()))
      ensures Stock(old(bodyIterator)) == old(Stock(bodyIterator))
    {
      hide Objects;
      if status < 0 || !keepAlive || !cfg.allowKeepalive {
        state := Destroy;
        return Closing;
      }
      ResetBody();
      state := RespEnd;
      return KeptAlive;
    }

    /** The part of write_cb for an iterator that gave no item. */
    method EndItems(uvOk: bool, ghost coming: seq<seq<byte>>, ghost ending: End) returns (done: Done)
      requires Sound() && Balanced() && !inFlight && chunked <= 1 && bodyTotalSize >= 0
      requires bodyChunkNum == 0 && bodyPreloadedSize == 0 && state == RespBuild
      requires coming == if error == 0 && chunked == 1 then [LAST] else []
      requires ending == if error != 0 then Broke else if chunked == 1 then Complete else Short
      modifies `head, `headersSize, `bodyChunkNum, `bodyPreloadedSize, `live, `bodyTotalSize, `bodyTotalWritten
      modifies `wsgiBody, `bodyIterator, `chunked, `state, `writes, `inFlight, bufs, wsgiBody
      ensures Sound() && Balanced()
      ensures Moved(done, uvOk, coming, ending, old(writes))
      ensures done == KeptAlive ==> error == 0 && ending == Short
      ensures GivenBack(done, old(wsgiBody), old(bodyIterator), old(TimesClosed()))
      ensures Stock(old(bodyIterator)) == old(Stock(bodyIterator))
    {
      hide Tail, EndOf, Good, Breaks, Balanced, Closes, Objects;
      if error != 0 {
        done := Finish(-1);
        return;
      }
      if chunked == 1 {
        var hr := SendLast(uvOk);
        done := if hr != Ok then Closing else Sending;
        return;
      }
      done := Finish(0);
    }

    /** The part of write_cb that pulls the next item. */
    method PullNext() returns (chunk: Option<Chunk>)
      requires Sound() && Balanced() && chunked <= 1 && bodyTotalSize >= 0
      requires bodyChunkNum == 0 && bodyPreloadedSize == 0 && (chunked == 0 ==> bodyTotalWritten < bodyTotalSize)
      modifies `bodyChunkNum, `bodyPreloadedSize, `live, `bodyTotalSize, `error, `taken, `state, bodyIterator
      ensures Sound() && state == RespBuild && TimesClosed() == old(TimesClosed())
      ensures bodyTotalSize == old(bodyTotalSize) && bodyChunkNum == 0 && bodyPreloadedSize == 0
      ensures chunk.None? ==>
                && Balanced() && old(Coming()) == (if error == 0 && chunked == 1 then [LAST] else [])
                && old(Ending()) == if error != 0 then Broke else if chunked == 1 then Complete else Short
      ensures chunk.Some? ==>
                && BalancedWith(chunk.value) && chunk.value.data != [] && error == 0
                && var written := bodyTotalWritten + |chunk.value.data|;
                   && old(Coming()) == [ItemWrite(chunk.value.data, chunked == 1)]
                                       + Tail(Good(Left()), Breaks(Left()), chunked == 1, bodyTotalSize, written)
                   && old(Ending()) == EndOf(Good(Left()), Breaks(Left()), chunked == 1, bodyTotalSize, written)
      ensures Stock(bodyIterator) == old(Stock(bodyIterator))
    {
      hide Tail, EndOf, ItemWrite, Good, Breaks, Balanced, BalancedWith, Objects;
      NothingLeft();
      TailStep(Good(Left()), Breaks(Left()), chunked == 1, bodyTotalSize, bodyTotalWritten);
      state := RespBuild;
      error := 0;
      chunk := NextItem();
    }

    /** The part of write_cb behind its checks: the next item, the last chunk, or the end. */
    method PullAndSend(uvOk: bool) returns (done: Done)
      requires Sound() && Balanced() && !inFlight && chunked <= 1 && bodyTotalSize >= 0
      requires bodyChunkNum == 0 && bodyPreloadedSize == 0 && (chunked == 0 ==> bodyTotalWritten < bodyTotalSize)
      modifies `head, `headersSize, `bodyChunkNum, `bodyPreloadedSize, `live, `bodyTotalSize, `bodyTotalWritten
      modifies `wsgiBody, `bodyIterator, `chunked, `error, `taken, `state, `writes, `inFlight
      modifies body, bufs, wsgiBody, bodyIterator
      ensures Sound() && Balanced()
      ensures Moved(done, uvOk, old(Coming()), old(Ending()), old(writes))
      ensures done == KeptAlive ==> error == 0 && old(Ending()) == Short
      ensures GivenBack(done, old(wsgiBody), old(bodyIterator), old(TimesClosed()))
      ensures Stock(old(bodyIterator)) == old(Stock(bodyIterator))
    {
      hide Tail, EndOf, ItemWrite, Good, Breaks, Balanced, BalancedWith, Closes, Reset, Objects;
      ghost var coming, ending := Coming(), Ending();
      var chunk := PullNext();
      if chunk.None? {
        done := EndItems(uvOk, coming, ending);
        return;
      }
      var hr := SendItem(chunk.value, uvOk);
      done := if hr != Ok then Closing else Sending;
    }

    /** The part of write_cb that counts what was written: `finished` when nothing more is to be pulled. */
    method CountWritten(now: nat) returns (status: int, finished: bool)
      requires Sound() && Balanced() && chunked <= 2 && bodyTotalSize >= 0
      modifies `bodyChunkNum, `bodyPreloadedSize, `live, `bodyTotalWritten, `lastChunkTime
      ensures Sound() && Balanced() && bodyChunkNum == 0 && bodyPreloadedSize == 0
      ensures Coming() == old(Coming()) && Ending() == old(Ending())
      ensures finished ==> Coming() == [] && status == if Ending() == Overrun then -1 else 0
      ensures finished ==> Ending() in {Overrun, Complete} && chunked != 1
      ensures !finished ==> status == 0 && chunked <= 1 && (chunked == 0 ==> bodyTotalWritten < bodyTotalSize)
      ensures !finished && Coming() == [] ==> Ending() in {Short, Broke}
      ensures lastChunkTime == if finished && Ending() == Complete then now else old(lastChunkTime)
    {
      hide Tail, EndOf, Good, Breaks, Balanced;
      TailStep(Good(Left()), Breaks(Left()), chunked == 1, bodyTotalSize, bodyTotalWritten + bodyPreloadedSize);
      bodyTotalWritten := bodyTotalWritten + bodyPreloadedSize;
      ResetPreload();
      if chunked == 2 {
        lastChunkTime := now;
        return 0, true;
      }
      if chunked == 0 {
        if bodyTotalWritten > bodyTotalSize {
          return -1, true;
        }
        if bodyTotalWritten == bodyTotalSize {
          lastChunkTime := now;
          return 0, true;
        }
      }
      return 0, false;
    }

    /** write_cb: libuv reports the write in flight as done (0) or failed (negative); `now` is the loop's
        clock and `uvOk` says whether uv_write accepts the next request. */
    method WriteCb(status: int, now: nat, uvOk: bool) returns (done: Done)
      requires Running() && state == RespSend && inFlight && status <= 0
      modifies `head, `headersSize, `bodyChunkNum, `bodyPreloadedSize, `live, `bodyTotalSize, `bodyTotalWritten
      modifies `wsgiBody, `bodyIterator, `chunked, `error, `taken, `state, `writes, `inFlight, `lastChunkTime
      modifies body, bufs, wsgiBody, bodyIterator
      ensures Sound() && Balanced()
      ensures status < 0 ==> done == Closing && writes == old(writes) && !inFlight
      ensures status == 0 ==> Moved(done, uvOk, old(Coming()), old(Ending()), old(writes))
      ensures done == KeptAlive ==> error == if old(Ending()) == Short then 0 else old(error)
      ensures lastChunkTime == if status == 0 && old(Coming()) == [] && old(Ending()) == Complete then now
                               else old(lastChunkTime)
      ensures GivenBack(done, old(wsgiBody), old(bodyIterator), old(TimesClosed()))
      ensures Stock(old(bodyIterator)) == old(Stock(bodyIterator))
    {
      hide Tail, EndOf, Good, Breaks, Balanced, GivenBack, Coming, Ending, Objects;
      inFlight := false;
      if status != 0 {
        ResetPreload();
        done := Finish(status);
        return;
      }
      state := RespSended;
      var code, finished := CountWritten(now);
      if finished {
        done := Finish(code);
        return;
      }
      done := PullAndSend(uvOk);
    }

    /** close_cb, for the response: whatever is left of it is given back. */
    method CloseCb()
      requires Sound() && Balanced()
      modifies `head, `headersSize, `bodyChunkNum, `bodyPreloadedSize, `live, `bodyTotalSize, `bodyTotalWritten
      modifies `wsgiBody, `bodyIterator, `chunked, wsgiBody
      ensures Reset()
      ensures old(wsgiBody) != null ==> Closed(old(wsgiBody))
      ensures Stock(old(bodyIterator)) == old(Stock(bodyIterator))
    {
      hide Closes, Balanced, Objects;
      ResetHead();
      ResetBody();
    }

    /** send_error: the response to a request that cannot be served; `start` is its status line. */
    method SendError(start: seq<byte>, status: int, date: seq<byte>, uvOk: bool) returns (hr: Action)
      requires Reset() && (parserHead ==> isHead) && state != RespSend && !Bodyless(status, false)
      modifies `head, `headersSize, `bodyChunkNum, `bodyPreloadedSize, `live, `bodyTotalSize, `bodyTotalWritten
      modifies `wsgiBody, `bodyIterator, `chunked, `state, `writes, `inFlight, bufs
      ensures Running() && Reset()
      ensures uvOk ==>
                && inFlight && state == RespSend
                && writes == old(writes) +
                     [Head.Text(start, Head.Fields(cfg, [], date, keepAlive, old(FramingNow(status))))]
      ensures !uvOk ==> writes == old(writes) && inFlight == old(inFlight) && state == Destroy
      ensures hr == if keepAlive && cfg.allowKeepalive then Ok else Shutdown
      ensures wsgiBody == null && Coming() == [] && Ending() == Complete
      ensures taken == old(taken)
    {
      hide Head.Fields, Head.Text, FramingNow, Closes, Balanced, Concat, Good, Breaks;
      ghost var text := Head.Text(start, Head.Fields(cfg, [], date, keepAlive, FramingNow(status)));
      assert text + [] == text;
      var len := BuildResponse(keepAlive, Some(start), status, [], date, 0);
      assert Payload() == head + [] == head;
      var _ := StreamWrite(uvOk);
      hr := if keepAlive && cfg.allowKeepalive then Ok else Shutdown;
    }

    // -------------------------------------------------------------- a whole response

    function Req(): Request {
      Request(cfg, maxChunkSize, keepAlive, isHead, parserHead)
    }

    /** The first write and what it leaves to come, the head and the body being ready. */
    lemma FirstPayload(pieces: seq<seq<byte>>, breaks: bool, d: Decision, text: seq<byte>)
      requires Sound() && [] !in pieces && !d.Refuse? && d.first <= |pieces|
      requires Follows(pieces, breaks, d) && bodyTotalWritten == 0 && headersSize == |head| > 0
      requires head == text + if chunked == 1 then SizeLine(bodyPreloadedSize) else []
      ensures Payload() == text + BodyStart(pieces, d)
      ensures Coming() == TailOf(pieces, breaks, d) && Ending() == EndFor(pieces, breaks, d)
    {
      hide Good, Breaks, SizeLine, AllSent, Datas;
      NonEmptyPieces(pieces[..d.first]);
      var data := Concat(AllSent(pieces[..d.first]));
      if d.first == 0 {
        NothingSent();
      }
      if d.Streamed? {
        assert Payload() == text + BodyStart(pieces, d);
      } else {
        assert text + [] == text && text + data + [] == text + data;
      }
    }

    /** The framing of the server's own error responses. */
    function ErrorFraming(): Head.Framing
      reads `contentLength
    {
      if !isHead || !parserHead then Head.ContentLength(0)
      else if contentLength >= 0 then Head.ContentLength(contentLength)
      else Head.NoFraming
    }

    /** The server's own response to a request that cannot be served. */
    function ErrorText(start: seq<byte>, date: seq<byte>): seq<byte>
      reads `contentLength
    {
      Head.Text(start, Head.Fields(cfg, [], date, keepAlive, ErrorFraming()))
    }

    /** Who holds the app's body: it is in use and open, or closed if it can be. */
    ghost predicate InUse(b: PyBody)
      reads `wsgiBody, `bodyIterator, b
    {
      if wsgiBody == null then bodyIterator == null && b.closes == Closes(b.kind)
      else wsgiBody == b && b.closes == 0 && (bodyIterator == b <==> Closes(b.kind) == 1)
    }

    /** create_response for a body that is ready: the first write is prepared, and what is to come behind it. */
    method CreateApp(app: App, date: seq<byte>, ghost d: Decision, ghost pieces: seq<seq<byte>>, ghost breaks: bool)
      returns (err: int)
      requires Sound() && Balanced() && (parserHead ==> isHead)
      requires [] !in pieces && !d.Refuse? && d.first <= |pieces| && Follows(pieces, breaks, d)
      requires wsgiBody != null && InUse(wsgiBody) && bodyTotalWritten == 0
      requires contentLength == LengthOf(DeclaredBy(app.headers))
      modifies `head, `headersSize, `bodyChunkNum, `bodyPreloadedSize, `live, `bodyTotalSize, `bodyTotalWritten
      modifies `wsgiBody, `bodyIterator, `chunked, wsgiBody
      ensures Sound() && Balanced() && InUse(old(wsgiBody))
      ensures bodyIterator == old(bodyIterator) || (bodyIterator == null && wsgiBody == null)
      ensures var bodyless := Bodyless(app.status, isHead);
                if app.start.None? || (d.Streamed? && !bodyless && |Concat(pieces[..d.first])| >= INT_MAX) then
                  err == 500 && Reset()
                else
                  var framing := FramingFor(Req(), app, d);
                  var text := Head.Text(app.start.value, Head.Fields(cfg, app.headers, date, keepAlive, framing));
                  && err == 0 && Running() && headersSize == |head|
                  && Payload() == (if bodyless then text else text + BodyStart(pieces, d))
                  && Coming() == (if bodyless then [] else TailOf(pieces, breaks, d))
                  && Ending() == (if bodyless then Complete else EndFor(pieces, breaks, d))
      ensures Stock(old(bodyIterator)) == old(Stock(bodyIterator))
    {
      hide Head.Fields, Good, Breaks, SizeLine, Balanced, Tail, EndOf, Head.Lines, TailOf, Objects;
      ghost var framing := FramingNow(app.status);
      err := CreateResponse(app.start, app.status, app.headers, date);
      if err != 0 { return; }
      ghost var text := Head.Text(app.start.value, Head.Fields(cfg, app.headers, date, keepAlive, framing));
      if Bodyless(app.status, isHead) {
        assert text + [] == text;
        TailStep(Good(Left()), Breaks(Left()), false, 0, 0);
      } else {
        FirstPayload(pieces, breaks, d, text);
      }
    }

    /** create_response and stream_write for a body that is ready. */
    method SendApp(app: App, date: seq<byte>, uvOk: bool, ghost d: Decision, ghost pieces: seq<seq<byte>>,
                   ghost breaks: bool)
      returns (err: int, hr: Action)
      requires Sound() && Balanced() && state != RespSend && !inFlight && (parserHead ==> isHead)
      requires [] !in pieces && !d.Refuse? && d.first <= |pieces| && Follows(pieces, breaks, d)
      requires wsgiBody != null && InUse(wsgiBody) && bodyTotalWritten == 0
      requires contentLength == LengthOf(DeclaredBy(app.headers))
      modifies `head, `headersSize, `bodyChunkNum, `bodyPreloadedSize, `live, `bodyTotalSize, `bodyTotalWritten
      modifies `wsgiBody, `bodyIterator, `chunked, `state, `writes, `inFlight, bufs, wsgiBody
      ensures Sound() && Balanced() && InUse(old(wsgiBody))
      ensures bodyIterator == old(bodyIterator) || (bodyIterator == null && wsgiBody == null)
      ensures var bodyless := Bodyless(app.status, isHead);
                if app.start.None? || (d.Streamed? && !bodyless && |Concat(pieces[..d.first])| >= INT_MAX) then
                  err == 500 && Reset() && writes == old(writes) && !inFlight && state == old(state)
                else
                  var framing := FramingFor(Req(), app, d);
                  var text := Head.Text(app.start.value, Head.Fields(cfg, app.headers, date, keepAlive, framing));
                  && err == 0
                  && if uvOk then
                    && hr == Ok && state == RespSend && inFlight && Running()
                    && writes == old(writes) + [if bodyless then text else text + BodyStart(pieces, d)]
                    && Coming() == (if bodyless then [] else TailOf(pieces, breaks, d))
                    && Ending() == (if bodyless then Complete else EndFor(pieces, breaks, d))
                  else hr == Shutdown && state == Destroy && !inFlight && writes == old(writes)
      ensures Stock(old(bodyIterator)) == old(Stock(bodyIterator))
    {
      hide Head.Text, Head.Fields, Balanced, InUse, Follows, FramingFor, TailOf, EndFor, BodyStart, Concat;
      hide Bodyless, Objects;
      hide Payload, Coming, Ending;
      hr := Ok;
      err := CreateApp(app, date, d, pieces, breaks);
      if err == 0 {
        hr := StreamWrite(uvOk);
      }
    }

    /** The app's response, if it can be sent. */
    method SendResponse(app: App, date: seq<byte>, uvOk: bool) returns (err: int, hr: Action)
      requires Fresh() && state != RespSend && !inFlight && (parserHead ==> isHead)
      modifies this, body, bufs, wsgiBody
      ensures Sound() && Balanced() && InUse(old(wsgiBody)) && lastChunkTime == old(lastChunkTime)
      ensures bodyIterator == null || bodyIterator == old(wsgiBody) || fresh(bodyIterator)
      ensures err == if Servable(Req(), app, old(wsgiBody).kind, old(wsgiBody.rest)) then 0 else 500
      ensures err != 0 ==> Reset() && writes == old(writes) && !inFlight && state == RespBuild
      ensures err == 0 && uvOk ==>
                var all := Writes(Req(), app, date, old(wsgiBody).kind, old(wsgiBody.rest));
                && Running() && inFlight && state == RespSend && hr == Ok
                && writes == old(writes) + [all[0]] && Coming() == all[1..]
                && Ending() == EndingOf(Req(), app, old(wsgiBody).kind, old(wsgiBody.rest))
      ensures err == 0 && !uvOk ==> hr == Shutdown && writes == old(writes) && !inFlight && state == Destroy
      ensures var declared := DeclaredBy(app.headers);
                error == if Broken(old(wsgiBody).kind, old(wsgiBody.rest), app.filelike, maxChunkSize, declared)
                         then 11 else 0
      ensures bodyIterator == source || (bodyIterator == null && wsgiBody == null)
      ensures source == null <==> old(wsgiBody).kind.BytesBody? || old(wsgiBody).kind.NotIterable?
      ensures source != null ==> Stock(source) == old(taken) + Objects(old(wsgiBody.rest))
    {
      hide Head.Fields, Head.Text, Good, Breaks, Balanced, Tail, EndOf, DecideFor, PiecesOf, InUse, FramingFor, Objects;
      hide Follows, Broken, TailOf, EndFor, Coming, Ending, BodyStart;
      ghost var kind, items := wsgiBody.kind, wsgiBody.rest;
      ghost var d := DecisionFor(Req(), app, kind, items);
      state, hr := RespBuild, Ok;
      err := ProcessResponse(app.headers, app.filelike);
      if err == 0 {
        err, hr := SendApp(app, date, uvOk, d, PiecesOf(kind, items), !kind.BytesBody? && Breaks(items));
      }
    }

    /** read_cb behind the call of the app: the app's response, or an error response when it cannot be
        sent. `start500` is the status line of the latter. */
    method Respond(app: App, date: seq<byte>, start500: seq<byte>, uvOk: bool) returns (hr: Action)
      requires Fresh() && state != RespSend && !inFlight && (parserHead ==> isHead)
      modifies this, body, bufs, wsgiBody
      ensures Sound() && Balanced() && InUse(old(wsgiBody)) && lastChunkTime == old(lastChunkTime)
      ensures bodyIterator == null || bodyIterator == old(wsgiBody) || fresh(bodyIterator)
      ensures uvOk ==>
                && Running() && inFlight && state == RespSend
                && Ending() == EndingOf(Req(), app, old(wsgiBody).kind, old(wsgiBody.rest))
      ensures uvOk && Servable(Req(), app, old(wsgiBody).kind, old(wsgiBody.rest)) ==>
                var all := Writes(Req(), app, date, old(wsgiBody).kind, old(wsgiBody.rest));
                writes == old(writes) + [all[0]] && Coming() == all[1..] && hr == Ok
      ensures uvOk && !Servable(Req(), app, old(wsgiBody).kind, old(wsgiBody.rest)) ==>
                && writes == old(writes) + [ErrorText(start500, date)]
                && Coming() == [] && hr == if keepAlive && cfg.allowKeepalive then Ok else Shutdown
      ensures !uvOk ==>
                && writes == old(writes) && !inFlight && state == Destroy
                && var served := Servable(Req(), app, old(wsgiBody).kind, old(wsgiBody.rest));
                   hr == if !served && keepAlive && cfg.allowKeepalive then Ok else Shutdown
      ensures !uvOk && hr == Ok ==> Reset() && wsgiBody == null
      ensures var declared := DeclaredBy(app.headers);
                error == if Broken(old(wsgiBody).kind, old(wsgiBody.rest), app.filelike, maxChunkSize, declared)
                         then 11 else 0
      ensures bodyIterator == source || (bodyIterator == null && wsgiBody == null)
      ensures source == null <==> old(wsgiBody).kind.BytesBody? || old(wsgiBody).kind.NotIterable?
      ensures source != null ==> Stock(source) == old(taken) + Objects(old(wsgiBody.rest))
    {
      hide Head.Fields, Head.Text, Balanced, Sound, InUse, Broken, Coming, Ending, Servable, Writes, EndingOf;
      hide DeclaredBy, Objects;
      BrokenRefused(Req(), app, wsgiBody.kind, wsgiBody.rest);
      var err;
      err, hr := SendResponse(app, date, uvOk);
      if err != 0 {
        hr := SendError(start500, err, date, uvOk);
      }
    }

    /** The writes of a response up to its end. `b` is the app's body. */
    method Drain(events: seq<Completion>, ghost b: PyBody) returns (done: Done)
      requires Running() && inFlight && state == RespSend && InUse(b) && forall e :: e in events ==> e.status <= 0
      modifies `head, `headersSize, `bodyChunkNum, `bodyPreloadedSize, `live, `bodyTotalSize, `bodyTotalWritten
      modifies `wsgiBody, `bodyIterator, `chunked, `error, `taken, `state, `writes, `inFlight, `lastChunkTime
      modifies body, bufs, wsgiBody, bodyIterator
      ensures Sound() && Balanced() && !inFlight
      ensures writes == old(writes) + old(Coming())[..Made(events, |old(Coming())|)]
      ensures var n := |old(Coming())|;
                && done == (if && Through(events, n) && old(Ending()) in {Complete, Short}
                               && keepAlive && cfg.allowKeepalive
                            then KeptAlive else Closing)
                && lastChunkTime == if Through(events, n) && old(Ending()) == Complete then events[n].now
                                    else old(lastChunkTime)
      ensures done == Closing ==> InUse(b) && wsgiBody == old(wsgiBody)
      ensures done == KeptAlive ==>
                && state == RespEnd && Reset() && b.closes == Closes(b.kind)
                && error == if old(Ending()) == Short || old(Coming()) != [] then 0 else old(error)
      ensures Stock(old(bodyIterator)) == old(Stock(bodyIterator))
      decreases |events|
    {
      hide Good, Breaks, Balanced, Coming, Ending, Objects;
      var event := if events == [] then Completion(-1, 0, false) else events[0];
      done := WriteCb(event.status, event.now, event.accepts);
      if done == Sending {
        done := Drain(events[1..], b);
      }
    }

    /** A response that was begun, up to its end. */
    method Conclude(events: seq<Completion>, ghost b: PyBody) returns (done: Done)
      requires Running() && inFlight && state == RespSend && InUse(b) && forall e :: e in events ==> e.status <= 0
      requires bodyIterator == source || (bodyIterator == null && wsgiBody == null)
      modifies `head, `headersSize, `bodyChunkNum, `bodyPreloadedSize, `live, `bodyTotalSize, `bodyTotalWritten
      modifies `wsgiBody, `bodyIterator, `chunked, `error, `taken, `state, `writes, `inFlight, `lastChunkTime
      modifies body, bufs, wsgiBody, bodyIterator
      ensures Reset() && !inFlight && b.closes == Closes(b.kind)
      ensures writes == old(writes) + old(Coming())[..Made(events, |old(Coming())|)]
      ensures var n := |old(Coming())|;
                && done == (if && Through(events, n) && old(Ending()) in {Complete, Short}
                               && keepAlive && cfg.allowKeepalive
                            then KeptAlive else Closing)
                && lastChunkTime == if Through(events, n) && old(Ending()) == Complete then events[n].now
                                    else old(lastChunkTime)
      ensures done == KeptAlive ==>
                && state == RespEnd
                && error == if old(Ending()) == Short || old(Coming()) != [] then 0 else old(error)
      ensures Stock(source) == old(Stock(source))
    {
      hide Good, Breaks, Balanced, Coming, Ending, Objects, Made, Through;
      done := Drain(events, b);
      if done == Closing {
        CloseCb();
      }
    }

    /** One response from the app's return to its end, in an order of events that libuv decides; `accepts`
        says whether it takes the first write. When it does not take the server's own response to a request
        that would keep the connection, nothing ever happens on that connection again. */
    method Exchange(app: App, date: seq<byte>, start500: seq<byte>, accepts: bool, events: seq<Completion>)
      returns (done: Done)
      requires Fresh() && state != RespSend && !inFlight && (parserHead ==> isHead)
      requires forall e :: e in events ==> e.status <= 0
      modifies this, body, bufs, wsgiBody
      ensures Reset() && !inFlight
      ensures old(wsgiBody).closes == if old(wsgiBody).kind.Generator? || old(wsgiBody).kind.Iterator? then 1 else 0
      ensures !accepts ==>
                && writes == old(writes) && lastChunkTime == old(lastChunkTime)
                && var served := Servable(Req(), app, old(wsgiBody).kind, old(wsgiBody.rest));
                   done == if !served && keepAlive && cfg.allowKeepalive then Stuck else Closing
      ensures accepts && Servable(Req(), app, old(wsgiBody).kind, old(wsgiBody.rest)) ==>
                var all := Writes(Req(), app, date, old(wsgiBody).kind, old(wsgiBody.rest));
                writes == old(writes) + all[..1 + Made(events, |all| - 1)]
      ensures accepts && !Servable(Req(), app, old(wsgiBody).kind, old(wsgiBody.rest)) ==>
                writes == old(writes) + [ErrorText(start500, date)]
      ensures accepts ==>
                var n := WritesBehind(Req(), app, date, old(wsgiBody).kind, old(wsgiBody.rest));
                var ending := EndingOf(Req(), app, old(wsgiBody).kind, old(wsgiBody.rest));
                && done == (if Through(events, n) && ending in {Complete, Short} && keepAlive && cfg.allowKeepalive
                            then KeptAlive else Closing)
                && lastChunkTime ==
                     if Through(events, n) && ending == Complete then events[n].now else old(lastChunkTime)
      ensures done == KeptAlive ==>
                && state == RespEnd
                && var declared := DeclaredBy(app.headers);
                   error == if Broken(old(wsgiBody).kind, old(wsgiBody.rest), app.filelike, maxChunkSize, declared)
                         then 11 else 0
      ensures source == null <==> old(wsgiBody).kind.BytesBody? || old(wsgiBody).kind.NotIterable?
      ensures source != null ==> Stock(source) == old(taken) + Objects(old(wsgiBody.rest))
    {
      hide Head.Fields, Head.Text, Good, Breaks, Balanced, Broken, Coming, Ending, Servable, Writes, EndingOf, Made;
      hide Sound, Running, Objects;
      hide DeclaredBy, Reset;
      ghost var b, items := wsgiBody, wsgiBody.rest;
      BrokenRefused(Req(), app, b.kind, items);
      if Servable(Req(), app, b.kind, items) {
        ghost var all := Writes(Req(), app, date, b.kind, items);
        FirstAndNext(writes, all, Made(events, |all| - 1));
      }
      var hr := Respond(app, date, start500, accepts);
      if inFlight {
        done := Conclude(events, b);
      } else if hr == Ok {
        done := Stuck;
      } else {
        done := Closing;
        CloseCb();
      }
    }
  }
}
