/**
 What a client reads from a connection: a reader of HTTP/1.1 responses, one after the other, and when the
 k-th response it reads is the one that was made for the k-th cause.
 */
module ClientView {
  import opened Bytes
  import opened Chunked
  import opened Connection
  import opened Exchange
  import opened Request
  import opened WsgiWire
  import Wsgi
  import Head

  // ---------------------------------------------------------------- a reader of responses

  datatype Reply = Reply(start: seq<byte>, fields: seq<Head.Header>, body: seq<byte>)

  /** How the end of a body is found. */
  datatype Extent = NoBody | Chunks | Sized(n: nat) | ToTheEnd

  function LengthIn(fields: seq<Head.Header>): Option<nat> {
    if fields == [] then None
    else
      var h := fields[|fields| - 1];
      if Head.Named(h.name, Head.CONTENT_LENGTH) then Head.ParseDecimal(h.value) else LengthIn(fields[..|fields| - 1])
  }

  /** The response has no body, whatever its fields say: it answers a HEAD request, as the client knows, or its
      status is one without. */
  predicate Bare(asked: bool, start: seq<byte>) {
    asked || (Head.StatusIn(start).Some? && NoContent(Head.StatusIn(start).value))
  }

  predicate NoContent(status: int) {
    100 <= status < 200 || status == 204 || status == 304
  }

  /** Section 6.3 of RFC 9112. */
  function ExtentOf(bare: bool, fields: seq<Head.Header>): Extent {
    if bare then NoBody
    else if Head.CountNamed(fields, Head.TRANSFER_ENCODING) > 0 then Chunks
    else match LengthIn(fields)
      case Some(n) => Sized(n)
      case None => ToTheEnd
  }

  /** The first response in `s`, and what follows it; `asked` when the request was HEAD. */
  function Read(asked: bool, s: seq<byte>): Option<(Reply, seq<byte>)> {
    match Head.Parse(s)
    case None => None
    case Some(p) => ReadBody(ExtentOf(Bare(asked, p.start), p.fields), p)
  }

  function ReadBody(extent: Extent, p: Head.Parsed): Option<(Reply, seq<byte>)> {
    match extent
    case NoBody => Some((Reply(p.start, p.fields, []), p.rest))
    case Sized(n) => if n <= |p.rest| then Some((Reply(p.start, p.fields, p.rest[..n]), p.rest[n..])) else None
    case ToTheEnd => Some((Reply(p.start, p.fields, p.rest), []))
    case Chunks =>
      match Decode(p.rest)
      case None => None
      case Some((body, tail)) => Some((Reply(p.start, p.fields, body), tail))
  }

  // ---------------------------------------------------------------- the extent of a printed head

  lemma {:induction false} TrimmedNames(fields: seq<Head.Header>, known: seq<byte>)
    ensures Head.CountNamed(Head.AllTrimmed(fields), known) == Head.CountNamed(fields, known)
  {
    if fields != [] {
      var n := |fields| - 1;
      TrimmedNames(fields[..n], known);
      assert Head.AllTrimmed(fields)[..n] == Head.AllTrimmed(fields[..n]);
    }
  }

  /** Without a Transfer-Encoding of the app's, the reader finds the framing that the server chose. */
  lemma ExtentFound(cfg: Head.Config, headers: seq<Head.Header>, date: seq<byte>, keepAlive: bool,
                    framing: Head.Framing)
    requires Head.CountNamed(headers, Head.TRANSFER_ENCODING) == 0 && !framing.NoFraming?
    ensures ExtentOf(false, Head.AllTrimmed(Head.Fields(cfg, headers, date, keepAlive, framing))) ==
            if framing.ChunkedCoding? then Chunks else Sized(framing.n)
  {
    hide Head.Fields, Head.Named, Head.ParseDecimal, Head.Trimmed;
    var fields := Head.Fields(cfg, headers, date, keepAlive, framing);
    TrimmedNames(fields, Head.TRANSFER_ENCODING);
    Head.FramingCounts(cfg, headers, date, keepAlive, framing);
    if framing.ContentLength? {
      Head.ContentLengthRoundTrip(cfg, headers, date, keepAlive, framing.n);
    }
  }

  // ---------------------------------------------------------------- one response, and more behind it

  /** The items of a body that are sent: with a Content-Length none is pulled once it is reached. */
  function Given(pieces: seq<seq<byte>>, d: Wsgi.Decision): seq<seq<byte>>
    requires !d.Refuse? && d.first <= |pieces|
  {
    if d.Streamed? then pieces else pieces[..Pulled(pieces, d.total, d.first)]
  }

  /** The reply to a request that the app answers. */
  function ReplyOf(req: Wsgi.Request, app: Wsgi.App, date: seq<byte>, kind: Wsgi.BodyKind, items: seq<Wsgi.Item>): Reply
    requires Wsgi.Servable(req, app, kind, items)
  {
    var d := Wsgi.DecisionFor(req, app, kind, items);
    var fields := Head.Fields(req.cfg, app.headers, date, req.keepAlive, Wsgi.FramingFor(req, app, d));
    Reply(app.start.value, Head.AllTrimmed(fields),
          if Bare(req.isHead, app.start.value) then [] else Concat(Given(Wsgi.PiecesOf(kind, items), d)))
  }

  /** Its end can be found where it is: there is no body when there should be none, and otherwise one as long as
      its head says. */
  predicate Delimited(req: Wsgi.Request, app: Wsgi.App, kind: Wsgi.BodyKind, items: seq<Wsgi.Item>)
    requires Wsgi.Servable(req, app, kind, items)
  {
    if Bare(req.isHead, app.start.value) then BodyWire(req, app, kind, items) == []
    else
      && Wsgi.EndingOf(req, app, kind, items) == Wsgi.Complete
      && AllShort(Given(Wsgi.PiecesOf(kind, items), Wsgi.DecisionFor(req, app, kind, items)))
  }

  /** What is behind the head. */
  function BodyWire(req: Wsgi.Request, app: Wsgi.App, kind: Wsgi.BodyKind, items: seq<Wsgi.Item>): seq<byte>
    requires Wsgi.Servable(req, app, kind, items)
  {
    var d, pieces := Wsgi.DecisionFor(req, app, kind, items), Wsgi.PiecesOf(kind, items);
    if Wsgi.Bodyless(app.status, req.isHead) then []
    else Wsgi.BodyStart(pieces, d) + Concat(Wsgi.TailOf(pieces, !kind.BytesBody? && Wsgi.Breaks(items), d))
  }

  lemma ParseThenMore(req: Wsgi.Request, app: Wsgi.App, date: seq<byte>, kind: Wsgi.BodyKind, items: seq<Wsgi.Item>,
                      more: seq<byte>)
    requires Wsgi.Servable(req, app, kind, items) && WellFormed(req, app, date)
    ensures var r := ReplyOf(req, app, date, kind, items);
              Head.Parse(Concat(Wsgi.Writes(req, app, date, kind, items)) + more)
              == Some(Head.Parsed(r.start, r.fields, BodyWire(req, app, kind, items) + more))
  {
    hide Wsgi.DecideFor, Wsgi.PiecesOf, Wsgi.TailOf, Wsgi.BodyStart, Head.Fields, Head.Text, Head.Parse;
    hide Wsgi.Breaks, Concat;
    hide Head.AllTrimmed, Wsgi.FramingFor;
    var d, pieces := Wsgi.DecisionFor(req, app, kind, items), Wsgi.PiecesOf(kind, items);
    var framing := Wsgi.FramingFor(req, app, d);
    var text := Head.Text(app.start.value, Head.Fields(req.cfg, app.headers, date, req.keepAlive, framing));
    var wire := BodyWire(req, app, kind, items);
    assert Concat(Wsgi.Writes(req, app, date, kind, items)) == text + wire by {
      if Wsgi.Bodyless(app.status, req.isHead) {
        ConcatEmpty<byte>();
        ConcatCons(text, []);
        assert [text] + [] == [text];
      } else {
        var tail := Wsgi.TailOf(pieces, !kind.BytesBody? && Wsgi.Breaks(items), d);
        ConcatCons(text + Wsgi.BodyStart(pieces, d), tail);
        assert text + Wsgi.BodyStart(pieces, d) + Concat(tail) == text + (Wsgi.BodyStart(pieces, d) + Concat(tail));
      }
    }
    assert text + wire + more == text + (wire + more);
    Head.HeadRoundTrip(req.cfg, app.start.value, app.headers, date, req.keepAlive, framing, wire + more);
  }

  /** The first `total` bytes of a body that the server began with `given`. */
  lemma LengthThenMore(given: seq<seq<byte>>, total: nat, breaks: bool, more: seq<byte>)
    ensures var wire := Concat(Wsgi.AllSent(given)) + more;
              (total <= |wire| && wire[..total] == Concat(given) && wire[total..] == more)
              <==> EndBy(|Concat(given)|, total, breaks) == Wsgi.Complete && AllShort(given)
  {
    hide Concat, Wsgi.AllSent;
    var sent := Concat(Wsgi.AllSent(given));
    SentShorter(given);
    if AllShort(given) { ShortSent(given); }
    assert total == |sent| ==> (sent + more)[..total] == sent && (sent + more)[total..] == more;
    if total <= |sent + more| && (sent + more)[total..] == more {
      assert total == |sent|;
    }
  }

  /** The server sends no body when the client expects none, and in no other case but that of a status below
      200, which it does not treat as one without a body. */
  lemma BareIs(req: Wsgi.Request, app: Wsgi.App, date: seq<byte>)
    requires WellFormed(req, app, date)
    ensures Wsgi.Bodyless(app.status, req.isHead) <==>
              Bare(req.isHead, app.start.value) && (req.isHead || !(100 <= app.status < 200))
  {
  }

  /** A client that reads a response with more bytes behind it gets the reply, and leaves just those bytes, if
      and only if nothing is sent behind a head that ends the response, and otherwise the response ends
      complete and has no item of 4 GiB or more. */
  lemma ResponseRead(req: Wsgi.Request, app: Wsgi.App, date: seq<byte>, kind: Wsgi.BodyKind, items: seq<Wsgi.Item>,
                     more: seq<byte>)
    requires Wsgi.Servable(req, app, kind, items) && WellFormed(req, app, date)
    requires Head.CountNamed(app.headers, Head.TRANSFER_ENCODING) == 0
    ensures Read(req.isHead, Concat(Wsgi.Writes(req, app, date, kind, items)) + more)
            == Some((ReplyOf(req, app, date, kind, items), more))
            <==> Delimited(req, app, kind, items)
  {
    hide Wsgi.DecideFor, Wsgi.PiecesOf, Wsgi.TailOf, Wsgi.BodyStart, Head.Fields, Head.Parse, Wsgi.Breaks, Concat;
    hide Head.AllTrimmed, Wsgi.Writes, ExtentOf, AllShort, Pulled, Decode, WellFormed, Wsgi.AllSent, EndBy, Wsgi.EndFor;
    hide Bare, BodyWire, Wsgi.Bodyless;
    ParseThenMore(req, app, date, kind, items, more);
    BareIs(req, app, date);
    if Bare(req.isHead, app.start.value) {
      var wire := BodyWire(req, app, kind, items);
      BareExtent(ReplyOf(req, app, date, kind, items).fields);
      assert [] + more == more;
      assert |wire + more| == |wire| + |more|;
    } else {
      var framing := Wsgi.FramingFor(req, app, Wsgi.DecisionFor(req, app, kind, items));
      ExtentFound(req.cfg, app.headers, date, req.keepAlive, framing);
      BodyRead(req, app, kind, items, more);
    }
  }

  /** The same for the body alone. */
  lemma BodyRead(req: Wsgi.Request, app: Wsgi.App, kind: Wsgi.BodyKind, items: seq<Wsgi.Item>, more: seq<byte>)
    requires Wsgi.Servable(req, app, kind, items) && !Wsgi.Bodyless(app.status, req.isHead)
    ensures var d := Wsgi.DecisionFor(req, app, kind, items);
            var body, wire := Concat(Given(Wsgi.PiecesOf(kind, items), d)), BodyWire(req, app, kind, items) + more;
              (if d.Streamed? then Decode(wire) == Some((body, more))
               else d.total <= |wire| && wire[..d.total] == body && wire[d.total..] == more)
              <==>
              && Wsgi.EndingOf(req, app, kind, items) == Wsgi.Complete
              && AllShort(Given(Wsgi.PiecesOf(kind, items), d))
  {
    hide Wsgi.DecideFor, Wsgi.PiecesOf, Wsgi.TailOf, Wsgi.BodyStart, Wsgi.Breaks, Concat, Wsgi.DeclaredBy;
    hide AllShort, Pulled, Decode, Wsgi.AllSent, EndBy, Wsgi.EndFor, BodyWire, Wsgi.Bodyless;
    var d, pieces := Wsgi.DecisionFor(req, app, kind, items), Wsgi.PiecesOf(kind, items);
    var breaks := !kind.BytesBody? && Wsgi.Breaks(items);
    EndingIs(req, app, kind, items);
    BodyWireIs(req, app, kind, items);
    match d
    case Streamed(n) =>
      StreamedFirst(kind, items, app.filelike, req.maxChunkSize, Wsgi.DeclaredBy(app.headers));
      ChunkedThenMore(pieces, breaks, n, more);
      ChunkedEnding(pieces, breaks, n);
    case Announce(total, n) =>
      LengthRun(pieces, breaks, total, n);
      LengthThenMore(Given(pieces, d), total, breaks, more);
  }

  lemma BodyWireIs(req: Wsgi.Request, app: Wsgi.App, kind: Wsgi.BodyKind, items: seq<Wsgi.Item>)
    requires Wsgi.Servable(req, app, kind, items)
    ensures var d, pieces := Wsgi.DecisionFor(req, app, kind, items), Wsgi.PiecesOf(kind, items);
              BodyWire(req, app, kind, items)
              == if Wsgi.Bodyless(app.status, req.isHead) then []
                 else Wsgi.BodyStart(pieces, d) + Concat(Wsgi.TailOf(pieces, !kind.BytesBody? && Wsgi.Breaks(items), d))
  {
  }

  lemma BareExtent(fields: seq<Head.Header>)
    ensures ExtentOf(true, fields) == NoBody
  {
  }

  lemma StreamedFirst(kind: Wsgi.BodyKind, items: seq<Wsgi.Item>, filelike: bool, maxChunkSize: nat,
                      declared: Wsgi.Declared)
    requires Wsgi.DecideFor(kind, items, filelike, maxChunkSize, declared).Streamed?
    ensures 1 <= Wsgi.DecideFor(kind, items, filelike, maxChunkSize, declared).first
  {
  }

  lemma ChunkedEnding(pieces: seq<seq<byte>>, breaks: bool, n: nat)
    requires n <= |pieces|
    ensures Wsgi.EndFor(pieces, breaks, Wsgi.Streamed(n)) == if breaks then Wsgi.Broke else Wsgi.Complete
  {
    ChunkedNeverWrong(pieces[n..], breaks, |Concat(pieces[..n])|);
  }

  /** Behind a body that is shorter than announced the client takes what is missing from the next response. */
  lemma ShortSwallows(req: Wsgi.Request, app: Wsgi.App, date: seq<byte>, kind: Wsgi.BodyKind, items: seq<Wsgi.Item>,
                      more: seq<byte>)
    requires Wsgi.Servable(req, app, kind, items) && WellFormed(req, app, date)
    requires Head.CountNamed(app.headers, Head.TRANSFER_ENCODING) == 0
    requires Wsgi.EndingOf(req, app, kind, items) == Wsgi.Short && !Bare(req.isHead, app.start.value)
    ensures Wsgi.DecisionFor(req, app, kind, items).Announce?
    ensures var d := Wsgi.DecisionFor(req, app, kind, items);
            var body := Concat(Wsgi.AllSent(Given(Wsgi.PiecesOf(kind, items), d)));
            var missing := d.total - |body|;
              && missing > 0
              && Read(false, Concat(Wsgi.Writes(req, app, date, kind, items)) + more) ==
                   if missing > |more| then None
                   else Some((ReplyOf(req, app, date, kind, items).(body := body + more[..missing]), more[missing..]))
  {
    hide Wsgi.DecideFor, Wsgi.PiecesOf, Wsgi.TailOf, Wsgi.BodyStart, Head.Fields, Head.Parse, Wsgi.Breaks, Concat;
    hide Head.AllTrimmed, Wsgi.Writes, ExtentOf, AllShort, Pulled, Decode, WellFormed, Wsgi.AllSent, Wsgi.EndFor;
    hide Bare;
    ParseThenMore(req, app, date, kind, items, more);
    BareIs(req, app, date);
    var d, pieces := Wsgi.DecisionFor(req, app, kind, items), Wsgi.PiecesOf(kind, items);
    var breaks := !kind.BytesBody? && Wsgi.Breaks(items);
    ExtentFound(req.cfg, app.headers, date, req.keepAlive, Wsgi.FramingFor(req, app, d));
    EndingIs(req, app, kind, items);
    match d
    case Streamed(n) => ChunkedEnding(pieces, breaks, n);
    case Announce(total, n) =>
      LengthRun(pieces, breaks, total, n);
      SentShorter(Given(pieces, d));
      var body := Concat(Wsgi.AllSent(Given(pieces, d)));
      if total - |body| <= |more| {
        assert (body + more)[..total] == body + more[..total - |body|];
        assert (body + more)[total..] == more[total - |body|..];
      }
  }

  // ---------------------------------------------------------------- one response after the other

  /** The app's own response is sent for the last cause. */
  predicate AppAnswers(su: Setup, causes: seq<Cause>)
    requires causes != []
  {
    var last := causes[|causes| - 1];
    && last.Of? && last.event.Dispatch?
    && var (app, kind, items) := su.app(Messages(causes));
       Wsgi.Servable(RequestOf(su, last.event.req, last.reset), app, kind, items)
  }

  /** The client asked with HEAD. */
  predicate AskedHead(causes: seq<Cause>)
    requires causes != []
  {
    var last := causes[|causes| - 1];
    && last.Of? && last.event.Dispatch? && RequestMethod in last.event.req.env
    && last.event.req.env[RequestMethod] == Ascii("HEAD")
  }

  lemma HeadAsked(su: Setup, causes: seq<Cause>)
    requires causes != [] && causes[|causes| - 1].Of? && causes[|causes| - 1].event.Dispatch?
    ensures var last := causes[|causes| - 1];
              RequestOf(su, last.event.req, last.reset).isHead == AskedHead(causes)
  {
    assert HEAD == Ascii("HEAD");
  }

  /** A text that reads as one response, whatever follows. */
  ghost predicate Alone(asked: bool, text: seq<byte>) {
    && Read(asked, text).Some?
    && forall more: seq<byte> :: Read(asked, text + more) == Some((Read(asked, text).value.0, more))
  }

  /** The parts of the response to the last cause are kept apart: the app's has lines that are lines and no
      Transfer-Encoding of its own, and the server's own is one response by itself. */
  ghost predicate Legible(su: Setup, causes: seq<Cause>)
    requires causes != []
  {
    if AppAnswers(su, causes) then
      var last := causes[|causes| - 1];
      var (app, kind, items) := su.app(Messages(causes));
      && WellFormed(RequestOf(su, last.event.req, last.reset), app, su.date(|causes|))
      && Head.CountNamed(app.headers, Head.TRANSFER_ENCODING) == 0
    else
      Alone(AskedHead(causes), PlanFor(su, causes).writes[0])
  }

  /** The reply to the last cause. */
  ghost function ReplyTo(su: Setup, causes: seq<Cause>): Reply
    requires causes != [] && Legible(su, causes)
  {
    if AppAnswers(su, causes) then
      var last := causes[|causes| - 1];
      var (app, kind, items) := su.app(Messages(causes));
      ReplyOf(RequestOf(su, last.event.req, last.reset), app, su.date(|causes|), kind, items)
    else
      Read(AskedHead(causes), PlanFor(su, causes).writes[0]).value.0
  }

  /** The end of the response to the last cause can be found. */
  predicate Clear(su: Setup, causes: seq<Cause>)
    requires causes != []
  {
    AppAnswers(su, causes) ==>
      var last := causes[|causes| - 1];
      var (app, kind, items) := su.app(Messages(causes));
      Delimited(RequestOf(su, last.event.req, last.reset), app, kind, items)
  }

  /** When the connection is kept, only a body shorter than announced, an item of 4 GiB or more, or bytes behind
      the head of a response with a status below 200 can be in the way. */
  lemma ClearWhenKept(su: Setup, causes: seq<Cause>)
    requires causes != [] && PlanFor(su, causes).keep && AppAnswers(su, causes) && Legible(su, causes)
    ensures var last := causes[|causes| - 1];
            var (app, kind, items) := su.app(Messages(causes));
            var r := RequestOf(su, last.event.req, last.reset);
              Clear(su, causes) <==>
                if AskedHead(causes) || app.status == 204 || app.status == 304 then true
                else if 100 <= app.status < 200 then BodyWire(r, app, kind, items) == []
                else
                  && Wsgi.EndingOf(r, app, kind, items) != Wsgi.Short
                  && AllShort(Given(Wsgi.PiecesOf(kind, items), Wsgi.DecisionFor(r, app, kind, items)))
  {
    hide Wsgi.EndingOf, Wsgi.Servable, Wsgi.Writes, Wsgi.PiecesOf, Wsgi.DecisionFor, AllShort, Given, Messages;
    hide Wsgi.Broken, Wsgi.DeclaredBy, AskedHead, BodyWire, Delimited, WellFormed, PlanFor, RequestOf, Clear, Legible;
    var last := causes[|causes| - 1];
    var (app, kind, items) := su.app(Messages(causes));
    HeadAsked(su, causes);
    KeptEnding(su, causes);
    ClearIs(su, causes);
    DelimitedIs(RequestOf(su, last.event.req, last.reset), app, su.date(|causes|), kind, items);
  }

  lemma ClearIs(su: Setup, causes: seq<Cause>)
    requires causes != [] && AppAnswers(su, causes) && Legible(su, causes)
    ensures var last := causes[|causes| - 1];
            var (app, kind, items) := su.app(Messages(causes));
            var r := RequestOf(su, last.event.req, last.reset);
              WellFormed(r, app, su.date(|causes|)) && Clear(su, causes) == Delimited(r, app, kind, items)
  {
    hide Wsgi.Servable, Messages, WellFormed, Delimited, RequestOf;
  }

  lemma KeptEnding(su: Setup, causes: seq<Cause>)
    requires causes != [] && PlanFor(su, causes).keep && AppAnswers(su, causes)
    ensures var last := causes[|causes| - 1];
            var (app, kind, items) := su.app(Messages(causes));
              Wsgi.EndingOf(RequestOf(su, last.event.req, last.reset), app, kind, items) in {Wsgi.Complete, Wsgi.Short}
  {
    hide Wsgi.EndingOf, Wsgi.Servable, Wsgi.Writes, Messages, Wsgi.Broken, Wsgi.DeclaredBy, RequestOf;
  }

  lemma DelimitedIs(req: Wsgi.Request, app: Wsgi.App, date: seq<byte>, kind: Wsgi.BodyKind, items: seq<Wsgi.Item>)
    requires Wsgi.Servable(req, app, kind, items) && WellFormed(req, app, date)
    ensures Delimited(req, app, kind, items) <==>
              if req.isHead || app.status == 204 || app.status == 304 then true
              else if 100 <= app.status < 200 then BodyWire(req, app, kind, items) == []
              else
                && Wsgi.EndingOf(req, app, kind, items) == Wsgi.Complete
                && AllShort(Given(Wsgi.PiecesOf(kind, items), Wsgi.DecisionFor(req, app, kind, items)))
  {
    hide Wsgi.EndingOf, Wsgi.PiecesOf, Wsgi.DecisionFor, AllShort, Given, Wsgi.BodyStart, Wsgi.TailOf, Concat;
  }

  /** A client that reads the response to the last cause gets the reply, and leaves just what follows, if and
      only if its end can be found. */
  lemma PlanRead(su: Setup, causes: seq<Cause>, more: seq<byte>)
    requires causes != [] && Legible(su, causes)
    ensures Read(AskedHead(causes), Concat(PlanFor(su, causes).writes) + more) == Some((ReplyTo(su, causes), more))
            <==> Clear(su, causes)
  {
    hide Read, Messages, Wsgi.Servable, Wsgi.Writes, WellFormed, Delimited, ReplyOf, Wsgi.EndingOf, Concat, Alone;
    var last := causes[|causes| - 1];
    if AppAnswers(su, causes) {
      var (app, kind, items) := su.app(Messages(causes));
      HeadAsked(su, causes);
      ResponseRead(RequestOf(su, last.event.req, last.reset), app, su.date(|causes|), kind, items, more);
    } else {
      OwnText(su, causes);
      AloneMeans(AskedHead(causes), PlanFor(su, causes).writes[0], more);
    }
  }

  /** The server's own responses are such texts: their Content-Length is 0, unless they answer a HEAD. */
  lemma OwnTextAlone(cfg: Head.Config, start: seq<byte>, date: seq<byte>, keepAlive: bool, framing: Head.Framing,
                     asked: bool)
    requires Head.OneLine(start) && Head.Sound(cfg, date) && (Bare(asked, start) || framing == Head.ContentLength(0))
    ensures Alone(asked, Head.Text(start, Head.Fields(cfg, [], date, keepAlive, framing)))
  {
    hide Head.Text, Head.Fields, Head.Parse, Head.AllTrimmed, ExtentOf, Bare;
    var fields := Head.Fields(cfg, [], date, keepAlive, framing);
    var text := Head.Text(start, fields);
    forall more: seq<byte> ensures Read(asked, text + more) == Some((Reply(start, Head.AllTrimmed(fields), []), more)) {
      Head.HeadRoundTrip(cfg, start, [], date, keepAlive, framing, more);
      BareExtent(Head.AllTrimmed(fields));
      if !Bare(asked, start) { ExtentFound(cfg, [], date, keepAlive, framing); }
      assert more[..0] == [];
    }
    assert text + [] == text;
  }

  lemma AloneMeans(asked: bool, text: seq<byte>, more: seq<byte>)
    requires Alone(asked, text)
    ensures Read(asked, text).Some? && Read(asked, text + more) == Some((Read(asked, text).value.0, more))
  {
  }

  lemma OwnText(su: Setup, causes: seq<Cause>)
    requires causes != [] && !AppAnswers(su, causes)
    ensures Concat(PlanFor(su, causes).writes) == PlanFor(su, causes).writes[0]
  {
    hide Messages, Wsgi.Servable, Wsgi.Writes, Wsgi.EndingOf;
    var text := PlanFor(su, causes).writes[0];
    assert PlanFor(su, causes).writes == [text];
    ConcatCons(text, []);
    assert [text] + [] == [text] && text + [] == text;
  }

  /** All bytes on the wire. */
  function WireBytes(wire: seq<seq<seq<byte>>>): seq<byte> {
    if wire == [] then [] else Concat(wire[0]) + WireBytes(wire[1..])
  }

  /** The first responses in `s`, as many as there are flags. */
  function ReadAll(asked: seq<bool>, s: seq<byte>): Option<(seq<Reply>, seq<byte>)> {
    if asked == [] then Some(([], s))
    else
      var n := |asked| - 1;
      match ReadAll(asked[..n], s)
      case None => None
      case Some((replies, rest)) =>
        match Read(asked[n], rest)
        case None => None
        case Some((reply, tail)) => Some((replies + [reply], tail))
  }

  function Asked(causes: seq<Cause>, k: nat): (r: seq<bool>)
    requires k <= |causes|
    ensures |r| == k
  {
    seq(k, i requires 0 <= i < k => AskedHead(causes[..i + 1]))
  }

  ghost predicate LegibleAt(su: Setup, causes: seq<Cause>, i: nat)
    requires i < |causes|
  {
    Legible(su, causes[..i + 1])
  }

  predicate ClearAt(su: Setup, causes: seq<Cause>, i: nat)
    requires i < |causes|
  {
    Clear(su, causes[..i + 1])
  }

  ghost function Replies(su: Setup, causes: seq<Cause>, k: nat): (r: seq<Reply>)
    requires k <= |causes| && forall i :: 0 <= i < k ==> LegibleAt(su, causes, i)
    ensures |r| == k
  {
    if k == 0 then []
    else
      assert LegibleAt(su, causes, k - 1);
      Replies(su, causes, k - 1) + [ReplyTo(su, causes[..k])]
  }

  /** A client that has read k responses has the replies to the first k causes, and what it has not read
      yet is what was written for the others. */
  ghost predicate InStep(su: Setup, causes: seq<Cause>, wire: seq<seq<seq<byte>>>, k: nat)
    requires k <= |causes| == |wire| && forall i :: 0 <= i < k ==> LegibleAt(su, causes, i)
  {
    ReadAll(Asked(causes, k), WireBytes(wire)) == Some((Replies(su, causes, k), WireBytes(wire[k..])))
  }

  lemma OneMore(su: Setup, causes: seq<Cause>, wire: seq<seq<seq<byte>>>, k: nat)
    requires 1 <= k <= |causes| == |wire| && forall i :: 0 <= i < k ==> LegibleAt(su, causes, i)
    requires InStep(su, causes, wire, k - 1) && wire[k - 1] == PlanAt(su, causes, k - 1).writes
    ensures InStep(su, causes, wire, k) <==> ClearAt(su, causes, k - 1)
  {
    hide Read, AskedHead, ReplyTo, Legible, PlanFor, Clear, Concat;
    var upTo, more := causes[..k], WireBytes(wire[k..]);
    assert LegibleAt(su, causes, k - 1) && ClearAt(su, causes, k - 1) == Clear(su, upTo);
    assert wire[k - 1..][1..] == wire[k..];
    assert WireBytes(wire[k - 1..]) == Concat(PlanFor(su, upTo).writes) + more;
    assert Asked(causes, k)[..k - 1] == Asked(causes, k - 1);
    assert Asked(causes, k)[k - 1] == AskedHead(upTo);
    PlanRead(su, upTo, more);
    var before, next := Replies(su, causes, k - 1), Read(AskedHead(upTo), WireBytes(wire[k - 1..]));
    if InStep(su, causes, wire, k) {
      assert (before + [next.value.0])[k - 1] == (before + [ReplyTo(su, upTo)])[k - 1];
    }
  }

  /** The client's view of a connection: it stays in step with the server over the first k responses if and
      only if the end of each of them can be found. */
  lemma {:induction false} ClientInStep(su: Setup, causes: seq<Cause>, wire: seq<seq<seq<byte>>>,
                                        left: seq<seq<byte>>, k: nat)
    requires Carried(su, causes, wire, left) && k <= |causes| && (k < |causes| || left == [])
    requires forall i :: 0 <= i < k ==> LegibleAt(su, causes, i)
    ensures (forall i :: 0 <= i <= k ==> InStep(su, causes, wire, i))
              <==> (forall i :: 0 <= i < k ==> ClearAt(su, causes, i))
  {
    hide Read, AskedHead, ReplyTo, Legible, PlanFor, PlanAt, ClearAt, LegibleAt;
    if k == 0 {
      assert wire[0..] == wire;
      assert InStep(su, causes, wire, 0);
    } else {
      ClientInStep(su, causes, wire, left, k - 1);
      if forall i :: 0 <= i < k - 1 ==> ClearAt(su, causes, i) {
        WrittenInFull(su, causes, wire, left, k - 1);
        OneMore(su, causes, wire, k);
      }
    }
  }

  lemma WrittenInFull(su: Setup, causes: seq<Cause>, wire: seq<seq<seq<byte>>>, left: seq<seq<byte>>, i: nat)
    requires Carried(su, causes, wire, left) && i < |causes| && (i + 1 < |causes| || left == [])
    ensures wire[i] == PlanAt(su, causes, i).writes
  {
    hide PlanFor;
    PlanAtPrefix(su, causes, |causes|, i);
    assert wire[i] + [] == wire[i];
  }

  /** So for every connection, in every state: a client reads the replies to the first k causes, each where
      it was written, if and only if the end of each of these responses can be found. */
  lemma WhatTheClientReads<S(!new)>(c: Connection<S>, k: nat)
    requires c.Ready() && k <= |c.causes| && (k < |c.causes| || !c.inFlight)
    requires forall i :: 0 <= i < k ==> LegibleAt(c.su, c.causes, i)
    ensures |c.wire| == |c.causes|
    ensures (forall i :: 0 <= i <= k ==> InStep(c.su, c.causes, c.wire, i)) <==>
            (forall i :: 0 <= i < k ==> ClearAt(c.su, c.causes, i))
  {
    hide InStep, ClearAt, LegibleAt, Connection.Logged, Connection.Open, Explained, Kept, PlanFor;
    ClientInStep(c.su, c.causes, c.wire, c.left, k);
  }
}
