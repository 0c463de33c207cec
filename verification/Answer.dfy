/**
 What an app's response is to a client, told by what the app gave: the items of its body, the length it
 declares, and its headers.
 */
module Answer {
  import opened Bytes
  import opened Chunked
  import opened ClientView
  import opened Exchange
  import opened WsgiWire
  import Head
  import Wsgi

  // ---------------------------------------------------------------- the items of a body

  /** An iterator yields its non-empty byte strings, and one more item is one more of them. */
  lemma {:induction false} GoodSnoc(items: seq<Wsgi.Item>, x: seq<byte>)
    requires forall i :: 0 <= i < |items| ==> items[i].Data?
    ensures Wsgi.Good(items + [Wsgi.Data(x)]) == Wsgi.Good(items) + if x == [] then [] else [x]
  {
    if items == [] {
      assert [Wsgi.Data(x)][1..] == [];
    } else {
      assert (items + [Wsgi.Data(x)])[1..] == items[1..] + [Wsgi.Data(x)];
      GoodSnoc(items[1..], x);
    }
  }

  /** It breaks at the first item that is something else, and what is behind that one is not looked at. */
  lemma {:induction false} GoodUpTo(items: seq<Wsgi.Item>, k: nat)
    requires k <= |items| && (forall i :: 0 <= i < k ==> items[i].Data?) && (k == |items| || !items[k].Data?)
    ensures Wsgi.Breaks(items) <==> k < |items|
    ensures Wsgi.Good(items) == Wsgi.Good(items[..k])
  {
    if k > 0 {
      GoodUpTo(items[1..], k - 1);
      assert items[1..][..k - 1] == items[..k][1..];
    }
  }

  // ---------------------------------------------------------------- how a body is framed

  /** Behind the k-th item the server stops to look ahead: it holds more than 48 items, or the items look like
      reads from a file and another one as long as the one before the last could be more than a chunk. */
  predicate Stops(pieces: seq<seq<byte>>, k: nat, filelike: bool, maxChunkSize: nat)
    requires 1 <= k <= |pieces|
  {
    k > 48 || (filelike && |Concat(pieces[..k])| + (if k >= 2 then |pieces[k - 2]| else 0) >= maxChunkSize)
  }

  /** The server sees the end of the body before it sends anything. */
  predicate SeenWhole(pieces: seq<seq<byte>>, filelike: bool, maxChunkSize: nat) {
    forall k :: 1 <= k <= |pieces| ==> !Stops(pieces, k, filelike, maxChunkSize)
  }

  /** So many items go out with the head: all, or those up to the first stop. */
  predicate FirstFew(n: nat, pieces: seq<seq<byte>>, filelike: bool, maxChunkSize: nat) {
    && n <= |pieces| && (forall k :: 1 <= k < n ==> !Stops(pieces, k, filelike, maxChunkSize))
    && (n < |pieces| ==> n >= 1 && Stops(pieces, n, filelike, maxChunkSize))
  }

  lemma StopsIs(pieces: seq<seq<byte>>, k: nat, filelike: bool, maxChunkSize: nat)
    requires 1 <= k <= |pieces| && k <= 49
    ensures Wsgi.StopAfter(pieces, k, filelike, maxChunkSize) == Stops(pieces, k, filelike, maxChunkSize)
  {
    hide Concat;
  }

  lemma {:induction false} PreloadStops(pieces: seq<seq<byte>>, k: nat, filelike: bool, maxChunkSize: nat)
    requires k <= |pieces| && k <= 49 && forall j :: 1 <= j < k ==> !Stops(pieces, j, filelike, maxChunkSize)
    ensures FirstFew(Wsgi.Preloaded(pieces, k, filelike, maxChunkSize), pieces, filelike, maxChunkSize)
    decreases 49 - k
  {
    hide Stops, Wsgi.StopAfter;
    if k >= 1 { StopsIs(pieces, k, filelike, maxChunkSize); }
    Wsgi.PreloadedStep(pieces, k, filelike, maxChunkSize);
    if k < |pieces| && !(k >= 1 && Stops(pieces, k, filelike, maxChunkSize)) {
      FewItems(pieces, k, filelike, maxChunkSize);
      PreloadStops(pieces, k + 1, filelike, maxChunkSize);
    }
  }

  lemma FewItems(pieces: seq<seq<byte>>, k: nat, filelike: bool, maxChunkSize: nat)
    requires k <= |pieces|
    ensures k >= 1 && !Stops(pieces, k, filelike, maxChunkSize) ==> k <= 48
  {
  }

  lemma WholeIs(pieces: seq<seq<byte>>, filelike: bool, maxChunkSize: nat)
    ensures Wsgi.FullyLoaded(pieces, filelike, maxChunkSize) <==> SeenWhole(pieces, filelike, maxChunkSize)
    ensures SeenWhole(pieces, filelike, maxChunkSize) ==>
              Wsgi.Preloaded(pieces, 0, filelike, maxChunkSize) == |pieces|
  {
    hide Stops, Wsgi.StopAfter, Wsgi.Preloaded;
    var n := Wsgi.Preloaded(pieces, 0, filelike, maxChunkSize);
    PreloadStops(pieces, 0, filelike, maxChunkSize);
    if n >= 1 { StopsIs(pieces, n, filelike, maxChunkSize); }
  }

  /** How the end of a body is told, when it is sent: a bytes object, and a body that is seen whole, by its
      size, whatever was declared; otherwise by the length declared, or else by chunks. A declared length of 0
      is always told. */
  function ExtentFor(kind: Wsgi.BodyKind, pieces: seq<seq<byte>>, filelike: bool, maxChunkSize: nat,
                     declared: Wsgi.Declared): (e: Extent)
    ensures e.Chunks? || e.Sized?
    ensures e.Chunks? ==> !declared.Length?
  {
    if kind.BytesBody? || (declared != Wsgi.Length(0) && SeenWhole(pieces, filelike, maxChunkSize)) then
      Sized(|Concat(pieces)|)
    else if declared.Length? then Sized(declared.n)
    else Chunks
  }

  function AppExtent(req: Wsgi.Request, app: Wsgi.App, kind: Wsgi.BodyKind, items: seq<Wsgi.Item>): (e: Extent)
    ensures e.Chunks? || e.Sized?
  {
    ExtentFor(kind, Wsgi.PiecesOf(kind, items), app.filelike, req.maxChunkSize, Wsgi.DeclaredBy(app.headers))
  }

  /** When the server answers with a text of its own instead: the app returned nothing that can be iterated, or
      a generator that breaks at once, or declared a malformed length; the body is seen whole, and broke or is
      longer than declared. */
  predicate Unusable(kind: Wsgi.BodyKind, pieces: seq<seq<byte>>, breaks: bool, filelike: bool, maxChunkSize: nat,
                     declared: Wsgi.Declared) {
    || kind.NotIterable? || declared.Malformed? || (kind.Generator? && pieces == [] && breaks)
    || (!kind.BytesBody? && declared != Wsgi.Length(0) && SeenWhole(pieces, filelike, maxChunkSize)
        && (breaks || (declared.Length? && |Concat(pieces)| > declared.n)))
  }

  /** The decision of the preload is the one described. */
  lemma DecisionIs(kind: Wsgi.BodyKind, items: seq<Wsgi.Item>, filelike: bool, maxChunkSize: nat,
                   declared: Wsgi.Declared)
    requires !kind.BytesBody?
    ensures var d := Wsgi.DecideFor(kind, items, filelike, maxChunkSize, declared);
            var pieces := Wsgi.Good(items);
              && (d.Refuse? <==> Unusable(kind, pieces, Wsgi.Breaks(items), filelike, maxChunkSize, declared))
              && (!d.Refuse? ==>
                    && ExtentFor(kind, pieces, filelike, maxChunkSize, declared) ==
                         (if d.Streamed? then Chunks else Sized(d.total))
                    && if declared == Wsgi.Length(0) then d.first == 0
                       else FirstFew(d.first, pieces, filelike, maxChunkSize))
  {
    hide Stops, FirstFew, SeenWhole, Wsgi.FullyLoaded, Concat;
    var pieces := Wsgi.Good(items);
    WholeIs(pieces, filelike, maxChunkSize);
    PreloadStops(pieces, 0, filelike, maxChunkSize);
    assert pieces[..|pieces|] == pieces;
  }

  /** The status or the method leaves no room for a body. */
  predicate WithoutBody(req: Wsgi.Request, app: Wsgi.App) {
    req.isHead || app.status == 204 || app.status == 304
  }

  /** How many items go out with the head. */
  predicate WithHead(n: nat, req: Wsgi.Request, app: Wsgi.App, kind: Wsgi.BodyKind, items: seq<Wsgi.Item>) {
    var pieces := Wsgi.PiecesOf(kind, items);
    if kind.BytesBody? then n == |pieces|
    else if Wsgi.DeclaredBy(app.headers) == Wsgi.Length(0) then n == 0
    else FirstFew(n, pieces, app.filelike, req.maxChunkSize)
  }

  lemma OneFirstFew(m: nat, n: nat, pieces: seq<seq<byte>>, filelike: bool, maxChunkSize: nat)
    requires FirstFew(m, pieces, filelike, maxChunkSize) && FirstFew(n, pieces, filelike, maxChunkSize)
    ensures m == n
  {
    hide Stops;
  }

  /** The app's own response is sent exactly when its status has a name, the body can be used, and what goes out
      with the head of a chunked body is less than 2 GiB. */
  lemma ServableIff(req: Wsgi.Request, app: Wsgi.App, kind: Wsgi.BodyKind, items: seq<Wsgi.Item>)
    ensures var pieces, declared := Wsgi.PiecesOf(kind, items), Wsgi.DeclaredBy(app.headers);
              Wsgi.Servable(req, app, kind, items) <==>
                && app.start.Some?
                && !Unusable(kind, pieces, Wsgi.Breaks(items), app.filelike, req.maxChunkSize, declared)
                && (AppExtent(req, app, kind, items).Chunks? && !WithoutBody(req, app) ==>
                      forall n: nat :: FirstFew(n, pieces, app.filelike, req.maxChunkSize) ==>
                                    |Concat(pieces[..n])| < 0x7FFF_FFFF)
  {
    hide Stops, FirstFew, SeenWhole, Concat, Wsgi.Good, Wsgi.Breaks, Wsgi.DeclaredBy;
    var pieces, declared := Wsgi.PiecesOf(kind, items), Wsgi.DeclaredBy(app.headers);
    if !kind.BytesBody? {
      hide Wsgi.DecideFor, ExtentFor, Unusable;
      DecisionIs(kind, items, app.filelike, req.maxChunkSize, declared);
      var d := Wsgi.DecisionFor(req, app, kind, items);
      if d.Streamed? {
        forall n: nat | FirstFew(n, pieces, app.filelike, req.maxChunkSize) ensures n == d.first {
          OneFirstFew(n, d.first, pieces, app.filelike, req.maxChunkSize);
        }
      }
    }
  }

  /** The framing header: as the body is told, or for a response without a body a length of 0, unless more bytes
      were received behind a HEAD request: then the length declared. */
  function AppFraming(req: Wsgi.Request, app: Wsgi.App, kind: Wsgi.BodyKind, items: seq<Wsgi.Item>): Head.Framing {
    var declared, e := Wsgi.DeclaredBy(app.headers), AppExtent(req, app, kind, items);
    if WithoutBody(req, app) then
      if !req.parserHead then Head.ContentLength(0)
      else if declared.Length? then Head.ContentLength(declared.n) else Head.NoFraming
    else if e.Sized? then Head.ContentLength(e.n) else Head.ChunkedCoding
  }

  /** What was decided for a response that is sent. */
  lemma DecidedIs(req: Wsgi.Request, app: Wsgi.App, kind: Wsgi.BodyKind, items: seq<Wsgi.Item>)
    requires Wsgi.Servable(req, app, kind, items)
    ensures var d := Wsgi.DecisionFor(req, app, kind, items);
              && AppExtent(req, app, kind, items) == (if d.Streamed? then Chunks else Sized(d.total))
              && WithHead(d.first, req, app, kind, items)
              && Wsgi.FramingFor(req, app, d) == AppFraming(req, app, kind, items)
  {
    hide Stops, FirstFew, SeenWhole, Concat, Wsgi.Good, Wsgi.Breaks, Wsgi.DeclaredBy;
    if !kind.BytesBody? {
      hide Wsgi.DecideFor, ExtentFor, Unusable;
      DecisionIs(kind, items, app.filelike, req.maxChunkSize, Wsgi.DeclaredBy(app.headers));
    }
  }

  // ---------------------------------------------------------------- what is written, and how it ends

  /** Items are sent as long as the length told is not reached. */
  predicate SentUpTo(m: nat, first: nat, pieces: seq<seq<byte>>, total: nat) {
    && first <= m <= |pieces| && (m == |pieces| || |Concat(pieces[..m])| >= total)
    && (m > first ==> |Concat(pieces[..m - 1])| < total)
  }

  lemma {:induction false} PulledRestIs(rest: seq<seq<byte>>, total: nat, written: nat)
    ensures var m := PulledRest(rest, total, written);
              && (m == |rest| || written + |Concat(rest[..m])| >= total)
              && (m > 0 ==> written + |Concat(rest[..m - 1])| < total)
  {
    ConcatEmpty<byte>();
    if written < total && rest != [] {
      hide Concat;
      var m := PulledRest(rest, total, written);
      PulledRestIs(rest[1..], total, written + |rest[0]|);
      assert rest[..m] == [rest[0]] + rest[1..][..m - 1];
      ConcatCons(rest[0], rest[1..][..m - 1]);
      if m > 1 {
        assert rest[..m - 1] == [rest[0]] + rest[1..][..m - 2];
        ConcatCons(rest[0], rest[1..][..m - 2]);
      }
    }
  }

  lemma PulledIs(pieces: seq<seq<byte>>, total: nat, first: nat)
    requires first <= |pieces|
    ensures SentUpTo(Pulled(pieces, total, first), first, pieces, total)
  {
    hide Concat, PulledRest;
    var rest := pieces[first..];
    var k := PulledRest(rest, total, |Concat(pieces[..first])|);
    PulledRestIs(rest, total, |Concat(pieces[..first])|);
    assert pieces[..first + k] == pieces[..first] + rest[..k];
    ConcatAppend(pieces[..first], rest[..k]);
    if k > 0 {
      assert pieces[..first + k - 1] == pieces[..first] + rest[..k - 1];
      ConcatAppend(pieces[..first], rest[..k - 1]);
    }
  }

  /** How a response ends when every write succeeds: without a body, and with one that was seen whole, it is
      complete; chunked it breaks when the iterator does; and with a length declared the items sent decide. */
  lemma EndingTold(req: Wsgi.Request, app: Wsgi.App, kind: Wsgi.BodyKind, items: seq<Wsgi.Item>, first: nat, m: nat)
    requires Wsgi.Servable(req, app, kind, items) && WithHead(first, req, app, kind, items)
    requires AppExtent(req, app, kind, items).Sized? ==>
               SentUpTo(m, first, Wsgi.PiecesOf(kind, items), AppExtent(req, app, kind, items).n)
    ensures var pieces, breaks := Wsgi.PiecesOf(kind, items), !kind.BytesBody? && Wsgi.Breaks(items);
            Wsgi.EndingOf(req, app, kind, items) ==
            if WithoutBody(req, app) then Wsgi.Complete
            else match AppExtent(req, app, kind, items)
                 case Sized(n) =>
                   var size := |Concat(pieces[..m])|;
                   if size > n then Wsgi.Overrun else if size == n then Wsgi.Complete
                   else if breaks then Wsgi.Broke else Wsgi.Short
                 case _ => if breaks then Wsgi.Broke else Wsgi.Complete
  {
    hide Stops, FirstFew, SeenWhole, Concat, Wsgi.Good, Wsgi.Breaks, Wsgi.DeclaredBy, Wsgi.DecideFor, ExtentFor;
    hide Wsgi.EndFor, Pulled, SentUpTo, Wsgi.PiecesOf;
    if !WithoutBody(req, app) {
      var d, pieces := Wsgi.DecisionFor(req, app, kind, items), Wsgi.PiecesOf(kind, items);
      var breaks := !kind.BytesBody? && Wsgi.Breaks(items);
      DecidedIs(req, app, kind, items);
      OneWithHead(first, d.first, req, app, kind, items);
      EndingIs(req, app, kind, items);
      if d.Streamed? {
        ChunkedEnding(pieces, breaks, d.first);
      } else {
        LengthRun(pieces, breaks, d.total, d.first);
        PulledIs(pieces, d.total, d.first);
        OneSentUpTo(m, Pulled(pieces, d.total, d.first), first, pieces, d.total);
      }
    }
  }

  lemma OneWithHead(m: nat, n: nat, req: Wsgi.Request, app: Wsgi.App, kind: Wsgi.BodyKind, items: seq<Wsgi.Item>)
    requires WithHead(m, req, app, kind, items) && WithHead(n, req, app, kind, items)
    ensures m == n
  {
    hide Stops, FirstFew, Wsgi.DeclaredBy, Wsgi.PiecesOf;
    var pieces := Wsgi.PiecesOf(kind, items);
    if !kind.BytesBody? && Wsgi.DeclaredBy(app.headers) != Wsgi.Length(0) {
      OneFirstFew(m, n, pieces, app.filelike, req.maxChunkSize);
    }
  }

  lemma {:induction false} PrefixGrows(pieces: seq<seq<byte>>, m: nat, n: nat)
    requires m <= n <= |pieces|
    ensures |Concat(pieces[..m])| <= |Concat(pieces[..n])|
  {
    assert pieces[..n] == pieces[..m] + pieces[m..n];
    ConcatAppend(pieces[..m], pieces[m..n]);
  }

  lemma OneSentUpTo(m: nat, n: nat, first: nat, pieces: seq<seq<byte>>, total: nat)
    requires SentUpTo(m, first, pieces, total) && SentUpTo(n, first, pieces, total)
    ensures m == n
  {
    hide Concat;
    if m < n { PrefixGrows(pieces, m, n - 1); }
    if n < m { PrefixGrows(pieces, n, m - 1); }
  }

  // ---------------------------------------------------------------- what the client reads

  /** What a client parses of the app's response, with whatever follows it: the status line, fields that tell
      what the app gave and what the server adds, and how the body ends. */
  lemma AnswerTold(req: Wsgi.Request, app: Wsgi.App, date: seq<byte>, kind: Wsgi.BodyKind, items: seq<Wsgi.Item>,
                   more: seq<byte>)
    requires Wsgi.Servable(req, app, kind, items) && WellFormed(req, app, date)
    ensures var parsed := Head.Parse(Concat(Wsgi.Writes(req, app, date, kind, items)) + more);
              && parsed.Some? && parsed.value.start == app.start.value
              && parsed.value.rest == BodyWire(req, app, kind, items) + more
              && Head.Tells(req.cfg, app.headers, date, req.keepAlive, AppFraming(req, app, kind, items),
                            parsed.value.fields)
              && (!WithoutBody(req, app) && Head.CountNamed(app.headers, Head.TRANSFER_ENCODING) == 0 ==>
                    ExtentOf(false, parsed.value.fields) == AppExtent(req, app, kind, items))
  {
    hide Wsgi.DecideFor, ExtentFor, Head.Fields, Head.Parse, Head.Tells, Head.AllTrimmed, ExtentOf, BodyWire, Concat;
    hide Wsgi.Writes, Wsgi.DeclaredBy, Wsgi.PiecesOf, WellFormed, WithHead;
    ParseThenMore(req, app, date, kind, items, more);
    DecidedIs(req, app, kind, items);
    var framing := AppFraming(req, app, kind, items);
    Head.FieldsTell(req.cfg, app.headers, date, req.keepAlive, framing);
    if !WithoutBody(req, app) && Head.CountNamed(app.headers, Head.TRANSFER_ENCODING) == 0 {
      ExtentFound(req.cfg, app.headers, date, req.keepAlive, framing);
    }
  }

  /** The bytes behind the head of a response with a length. */
  lemma SizedBody(req: Wsgi.Request, app: Wsgi.App, kind: Wsgi.BodyKind, items: seq<Wsgi.Item>, first: nat, m: nat)
    requires Wsgi.Servable(req, app, kind, items) && WithHead(first, req, app, kind, items)
    requires AppExtent(req, app, kind, items).Sized? && !WithoutBody(req, app)
    requires SentUpTo(m, first, Wsgi.PiecesOf(kind, items), AppExtent(req, app, kind, items).n)
    ensures BodyWire(req, app, kind, items) == Concat(Wsgi.AllSent(Wsgi.PiecesOf(kind, items)[..m]))
  {
    hide Stops, FirstFew, SeenWhole, Concat, Wsgi.Good, Wsgi.Breaks, Wsgi.DeclaredBy, Wsgi.DecideFor, ExtentFor;
    hide Wsgi.EndFor, Pulled, SentUpTo, Wsgi.PiecesOf, BodyWire, Wsgi.BodyStart, Wsgi.TailOf, Wsgi.AllSent, WithHead;
    var d, pieces := Wsgi.DecisionFor(req, app, kind, items), Wsgi.PiecesOf(kind, items);
    var breaks := !kind.BytesBody? && Wsgi.Breaks(items);
    DecidedIs(req, app, kind, items);
    OneWithHead(first, d.first, req, app, kind, items);
    BodyWireIs(req, app, kind, items);
    LengthRun(pieces, breaks, d.total, d.first);
    PulledIs(pieces, d.total, d.first);
    OneSentUpTo(m, Pulled(pieces, d.total, d.first), first, pieces, d.total);
  }

  /** A body of at most 48 items that does not look like a file, does not break and is no longer than declared
      is always sent whole, with its own size as the length, whatever length was declared. */
  lemma WholeBodySent(req: Wsgi.Request, app: Wsgi.App, date: seq<byte>, kind: Wsgi.BodyKind, items: seq<Wsgi.Item>,
                      more: seq<byte>)
    requires WellFormed(req, app, date) && Head.CountNamed(app.headers, Head.TRANSFER_ENCODING) == 0
    requires !req.isHead && !NoContent(app.status)
    requires !app.filelike && !kind.BytesBody? && !kind.NotIterable? && !Wsgi.Breaks(items)
    requires |Wsgi.Good(items)| <= 48 && forall x :: x in Wsgi.Good(items) ==> |x| < 0x1_0000_0000
    requires var declared := Wsgi.DeclaredBy(app.headers);
               declared.Unspecified? || (declared.Length? && declared.n > 0 && declared.n >= |Concat(Wsgi.Good(items))|)
    ensures Wsgi.Servable(req, app, kind, items) && Wsgi.EndingOf(req, app, kind, items) == Wsgi.Complete
    ensures var read := Read(false, Concat(Wsgi.Writes(req, app, date, kind, items)) + more);
              && read.Some? && read.value.0.body == Concat(Wsgi.Good(items)) && read.value.1 == more
              && ExtentOf(false, read.value.0.fields) == Sized(|Concat(Wsgi.Good(items))|)
  {
    hide Concat, Wsgi.Good, Wsgi.Breaks, Wsgi.DeclaredBy, ExtentOf, Wsgi.Writes, Wsgi.Servable, Wsgi.EndingOf;
    hide Head.CountNamed, FirstFew, WellFormed, BodyWire, Head.Parse, Head.Tells, Wsgi.AllSent, Head.StatusIn;
    var pieces := Wsgi.Good(items);
    assert SeenWhole(pieces, false, req.maxChunkSize);
    AllFew(pieces, req.maxChunkSize);
    StatusRead(req, app, date);
    ServableIff(req, app, kind, items);
    assert pieces[..|pieces|] == pieces;
    EndingTold(req, app, kind, items, |pieces|, |pieces|);
    AnswerTold(req, app, date, kind, items, more);
    SizedBody(req, app, kind, items, |pieces|, |pieces|);
    ShortSent(pieces);
    assert (Concat(pieces) + more)[..|Concat(pieces)|] == Concat(pieces);
    assert (Concat(pieces) + more)[|Concat(pieces)|..] == more;
  }

  lemma StatusRead(req: Wsgi.Request, app: Wsgi.App, date: seq<byte>)
    requires WellFormed(req, app, date) && !NoContent(app.status)
    ensures app.start.Some? && !Bare(false, app.start.value)
  {
  }

  lemma AllFew(pieces: seq<seq<byte>>, maxChunkSize: nat)
    requires |pieces| <= 48
    ensures FirstFew(|pieces|, pieces, false, maxChunkSize)
  {
  }

  // ---------------------------------------------------------------- write by write

  lemma {:induction false} TailItems(rest: seq<seq<byte>>, breaks: bool, chunked: bool, total: int, written: nat)
    requires !chunked ==> total >= 0
    ensures var tail, n := Wsgi.Tail(rest, breaks, chunked, total, written),
                           if chunked then |rest| else PulledRest(rest, total, written);
              && |tail| == n + (if chunked && !breaks then 1 else 0)
              && (forall i :: 0 <= i < n ==> tail[i] == Wsgi.ItemWrite(rest[i], chunked))
              && (chunked && !breaks ==> tail[n] == LAST)
  {
    hide Wsgi.ItemWrite;
    if (chunked || written < total) && rest != [] {
      TailItems(rest[1..], breaks, chunked, total, written + |rest[0]|);
      assert forall i :: 1 <= i < |rest| ==> rest[i] == rest[1..][i - 1];
    }
  }

  /** The first write carries the head and the first few items; each other item has a write of its own, and so
      has the last chunk of a chunked body that did not break. */
  lemma WriteByWrite(req: Wsgi.Request, app: Wsgi.App, date: seq<byte>, kind: Wsgi.BodyKind, items: seq<Wsgi.Item>,
                     first: nat, m: nat)
    requires Wsgi.Servable(req, app, kind, items) && !WithoutBody(req, app) && WithHead(first, req, app, kind, items)
    requires first <= |Wsgi.PiecesOf(kind, items)|
    requires match AppExtent(req, app, kind, items)
             case Sized(n) => SentUpTo(m, first, Wsgi.PiecesOf(kind, items), n)
             case _ => m == |Wsgi.PiecesOf(kind, items)|
    ensures var writes, pieces := Wsgi.Writes(req, app, date, kind, items), Wsgi.PiecesOf(kind, items);
            var data, chunked := Concat(Wsgi.AllSent(pieces[..first])), AppExtent(req, app, kind, items).Chunks?;
            var last := if chunked && !Wsgi.Breaks(items) then [LAST] else [];
              && |writes| == 1 + (m - first) + |last|
              && writes[0] == (Head.Text(app.start.value, Head.Fields(req.cfg, app.headers, date, req.keepAlive,
                                                                      AppFraming(req, app, kind, items)))
                               + (if chunked then SizeLine(|Concat(pieces[..first])|) + data + CRLF else data))
              && (forall i :: first <= i < m ==>
                    writes[1 + i - first] == if chunked then Frame(Wsgi.Sent(pieces[i])) else Wsgi.Sent(pieces[i]))
              && writes[1 + m - first..] == last
  {
    hide Wsgi.DecideFor, ExtentFor, Head.Fields, Head.Text, Concat, Wsgi.AllSent, Wsgi.Sent, Frame, Wsgi.Tail;
    hide Wsgi.DeclaredBy, Wsgi.PiecesOf, WithHead, Wsgi.Breaks, PulledRest, SentUpTo;
    DecidedIs(req, app, kind, items);
    var d, pieces := Wsgi.DecisionFor(req, app, kind, items), Wsgi.PiecesOf(kind, items);
    var breaks := !kind.BytesBody? && Wsgi.Breaks(items);
    OneWithHead(first, d.first, req, app, kind, items);
    var rest, size := pieces[first..], |Concat(pieces[..first])|;
    TailItems(rest, breaks, d.Streamed?, if d.Streamed? then 0 else d.total, size);
    if d.Announce? {
      PulledIs(pieces, d.total, first);
      OneSentUpTo(m, Pulled(pieces, d.total, first), first, pieces, d.total);
    } else {
      NotBytes(req, app, kind, items);
    }
    assert forall i :: first <= i < |pieces| ==> pieces[i] == rest[i - first];
  }

  lemma NotBytes(req: Wsgi.Request, app: Wsgi.App, kind: Wsgi.BodyKind, items: seq<Wsgi.Item>)
    ensures Wsgi.DecisionFor(req, app, kind, items).Streamed? ==> !kind.BytesBody?
  {
  }

  // ---------------------------------------------------------------- whether the connection is kept

  /** The one Connection header says so. */
  predicate SaysOnly(fields: seq<Head.Header>, value: seq<byte>) {
    && Head.CountNamed(fields, Ascii("Connection")) == 1
    && exists i :: 0 <= i < |fields| && Head.Is(fields[i], "connection") && fields[i].value == value
  }

  lemma FieldsSay(cfg: Head.Config, headers: seq<Head.Header>, date: seq<byte>, keepAlive: bool, framing: Head.Framing)
    ensures var fields := Head.AllTrimmed(Head.Fields(cfg, headers, date, keepAlive, framing));
              SaysOnly(fields, if keepAlive && cfg.allowKeepalive then Ascii("keep-alive") else Ascii("close"))
  {
    hide Head.Fields, Head.CountNamed, Head.AllTrimmed, Ascii, Head.Is, Head.Conveys, Head.AddedFields, Head.Added;
    hide Head.PassedOn;
    var fields := Head.AllTrimmed(Head.Fields(cfg, headers, date, keepAlive, framing));
    Head.OneConnection(cfg, headers, date, keepAlive, framing);
    TrimmedNames(Head.Fields(cfg, headers, date, keepAlive, framing), Head.CONNECTION);
    Head.SpellConnection();
    Head.FieldsTell(cfg, headers, date, keepAlive, framing);
    var value := if keepAlive && cfg.allowKeepalive then Ascii("keep-alive") else Ascii("close");
    var j := AddedSay(cfg, headers, date, keepAlive, framing);
    assert fields[|Head.PassedOn(headers)| + j] == fields[|Head.PassedOn(headers)|..][j];
    NamedConnection(cfg, value);
  }

  lemma AddedSay(cfg: Head.Config, headers: seq<Head.Header>, date: seq<byte>, keepAlive: bool, framing: Head.Framing)
    returns (j: nat)
    ensures var added := Head.AddedFields(cfg, headers, date, keepAlive, framing);
            var value := if keepAlive && cfg.allowKeepalive then Ascii("keep-alive") else Ascii("close");
              j < |added| && added[j] == Head.Added(cfg, "Connection", value) && added[j].value == value
  {
    hide Ascii, Head.AnyIs, Lower;
    j := (if cfg.addDate && !Head.AnyIs(headers, "date") then 1 else 0)
         + if cfg.server != [] && !Head.AnyIs(headers, "server") then 1 else 0;
  }

  lemma NamedConnection(cfg: Head.Config, value: seq<byte>)
    ensures Head.Is(Head.Added(cfg, "Connection", value), "connection")
  {
    Head.SpellConnection();
    Head.LowerTwice(Head.CONNECTION);
  }

  /** The reply to a message says "keep-alive" exactly when the client asked for it and the server allows it,
      and "close" otherwise: a connection that is kept was announced so, and one announced to be closed is. */
  lemma KeepTold(su: Setup, causes: seq<Cause>)
    requires causes != [] && AppAnswers(su, causes) && Legible(su, causes)
    ensures var kept := causes[|causes| - 1].event.req.keepAlive && su.cfg.allowKeepalive;
              && SaysOnly(ReplyTo(su, causes).fields, if kept then Ascii("keep-alive") else Ascii("close"))
              && (PlanFor(su, causes).keep ==> kept)
  {
    hide Wsgi.Writes, Wsgi.EndingOf, Wsgi.DecideFor, Wsgi.FramingFor, SaysOnly, Head.Fields, Messages, Ascii;
    hide Head.AllTrimmed, Wsgi.PiecesOf, Bare, Given, WellFormed, Wsgi.Broken, Wsgi.DeclaredBy, Concat;
    var last := causes[|causes| - 1];
    var (app, kind, items) := su.app(Messages(causes));
    var req := RequestOf(su, last.event.req, last.reset);
    FieldsSay(su.cfg, app.headers, su.date(|causes|), req.keepAlive,
              Wsgi.FramingFor(req, app, Wsgi.DecisionFor(req, app, kind, items)));
  }

  // ---------------------------------------------------------------- the length an app declares

  lemma NamedLength(h: Head.Header)
    ensures Head.Named(h.name, Head.CONTENT_LENGTH) <==> Head.Is(h, "content-length")
  {
    hide Lower, Ascii;
    Head.SpellLength();
  }

  lemma {:induction false} NoneDeclared(headers: seq<Head.Header>)
    requires forall i :: 0 <= i < |headers| ==> !Head.Is(headers[i], "content-length")
    ensures Wsgi.DeclaredBy(headers) == Wsgi.Unspecified
  {
    hide Head.Named, Head.Is;
    if headers != [] {
      NamedLength(headers[|headers| - 1]);
      NoneDeclared(headers[..|headers| - 1]);
    }
  }

  /** Any malformed length makes the response unusable. */
  lemma {:induction false} MalformedCounts(headers: seq<Head.Header>, i: nat)
    requires i < |headers| && Head.Is(headers[i], "content-length") && Wsgi.LengthValue(headers[i].value).Malformed?
    ensures Wsgi.DeclaredBy(headers).Malformed?
  {
    hide Head.Named, Head.Is, Wsgi.LengthValue;
    NamedLength(headers[i]);
    assert headers[..i + 1][..i] == headers[..i];
    assert Wsgi.DeclaredBy(headers[..i + 1]).Malformed?;
    Wsgi.MalformedStays(headers, i + 1);
  }

  /** And otherwise the last one counts. */
  lemma {:induction false} LastCounts(headers: seq<Head.Header>, i: nat)
    requires i < |headers| && Head.Is(headers[i], "content-length")
    requires forall j :: i < j < |headers| ==> !Head.Is(headers[j], "content-length")
    requires !Wsgi.DeclaredBy(headers).Malformed?
    ensures Wsgi.DeclaredBy(headers) == Wsgi.LengthValue(headers[i].value)
    decreases |headers|
  {
    hide Head.Named, Head.Is, Wsgi.LengthValue;
    var n := |headers| - 1;
    NamedLength(headers[n]);
    if i < n { LastCounts(headers[..n], i); }
  }

  /** A value that does not begin with a number is malformed. */
  lemma NotANumber(v: seq<byte>)
    requires v == [] || !(v[0] in {32, 43, 45} || 9 <= v[0] <= 13 || 48 <= v[0] <= 57)
    ensures Wsgi.LengthValue(v).Malformed?
  {
  }

  /** Which bodies break before they are sent, and leave an error behind: a generator at once, and otherwise a
      body that is seen whole. */
  lemma BrokenIs(kind: Wsgi.BodyKind, items: seq<Wsgi.Item>, filelike: bool, maxChunkSize: nat, declared: Wsgi.Declared)
    ensures Wsgi.Broken(kind, items, filelike, maxChunkSize, declared) <==>
              && Wsgi.Breaks(items) && !kind.NotIterable? && !kind.BytesBody?
              && ((kind.Generator? && Wsgi.Good(items) == [])
                  || (!declared.Malformed? && declared != Wsgi.Length(0)
                      && SeenWhole(Wsgi.Good(items), filelike, maxChunkSize)))
  {
    hide SeenWhole, Wsgi.FullyLoaded, Wsgi.Good, Wsgi.Breaks;
    WholeIs(Wsgi.Good(items), filelike, maxChunkSize);
  }

  /** What follows the app's own response, when every write succeeds: the connection is kept when the client and
      the server want that, unless the body broke or is longer than announced; and the wait for the next request
      is timed, unless the body is too short. */
  lemma PlanTold(su: Setup, causes: seq<Cause>, first: nat, m: nat)
    requires causes != [] && AppAnswers(su, causes)
    requires var last := causes[|causes| - 1];
             var (app, kind, items) := su.app(Messages(causes));
             var req := RequestOf(su, last.event.req, last.reset);
             var e := AppExtent(req, app, kind, items);
               && WithHead(first, req, app, kind, items)
               && (e.Sized? ==> SentUpTo(m, first, Wsgi.PiecesOf(kind, items), e.n))
    ensures var last := causes[|causes| - 1];
            var (app, kind, items) := su.app(Messages(causes));
            var req := RequestOf(su, last.event.req, last.reset);
            var e, breaks := AppExtent(req, app, kind, items), !kind.BytesBody? && Wsgi.Breaks(items);
            var plan := PlanFor(su, causes);
            var bare := AskedHead(causes) || app.status == 204 || app.status == 304;
            var size := if e.Sized? && !bare then |Concat(Wsgi.PiecesOf(kind, items)[..m])| else 0;
            var whole := bare || (if e.Sized? then size == e.n else !breaks);
              && plan.writes == Wsgi.Writes(req, app, su.date(|causes|), kind, items)
              && plan.error == 0 && !plan.shut && plan.timed == whole
              && plan.keep == (last.event.req.keepAlive && su.cfg.allowKeepalive
                               && (whole || (e.Sized? && size < e.n && !breaks)))
  {
    hide Wsgi.Servable, Wsgi.Writes, Wsgi.EndingOf, Wsgi.DecisionFor, Wsgi.FramingFor, Messages, Ascii, Concat;
    hide Wsgi.PiecesOf, Wsgi.Broken, Wsgi.DeclaredBy, Wsgi.Breaks, SentUpTo, WithHead, ExtentFor, AskedHead;
    var last := causes[|causes| - 1];
    var (app, kind, items) := su.app(Messages(causes));
    HeadAsked(su, causes);
    EndingTold(RequestOf(su, last.event.req, last.reset), app, kind, items, first, m);
  }

  /** A response that cannot be sent is replaced by the server's text for 500, which says whether the connection
      is kept. */
  lemma RefusedPlan(su: Setup, causes: seq<Cause>)
    requires causes != [] && causes[|causes| - 1].Of? && causes[|causes| - 1].event.Dispatch?
    requires !AppAnswers(su, causes)
    ensures var plan, last := PlanFor(su, causes), causes[|causes| - 1];
            var (app, kind, items) := su.app(Messages(causes));
              && plan.writes == [su.errorText(causes, 500)] && plan.timed && plan.shut == !plan.keep
              && plan.keep == (last.event.req.keepAlive && su.cfg.allowKeepalive)
              && (plan.error != 0 <==> Wsgi.Broken(kind, items, app.filelike, su.maxChunkSize,
                                                   Wsgi.DeclaredBy(app.headers)))
  {
    hide Wsgi.Servable, Wsgi.Writes, Wsgi.EndingOf, Wsgi.Broken, Messages;
  }

  /** The server's own text for an app that failed is one response by itself, also behind a HEAD request. */
  lemma ErrorTextAlone(client: Wsgi.Client, start: seq<byte>, date: seq<byte>)
    requires Head.OneLine(start) && Head.Sound(client.cfg, date)
    ensures Alone(client.isHead, client.ErrorText(start, date))
  {
    hide Alone, Head.Text, Head.Fields;
    OwnTextAlone(client.cfg, start, date, client.keepAlive, client.ErrorFraming(), client.isHead);
  }
}
