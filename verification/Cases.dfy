/**
 Concrete runs on which requests and responses do not match: a response that nothing asked for, on a
 connection from its first byte on, and a body that is shorter than announced.
 */
module Cases {
  import opened Bytes
  import opened ClientView
  import opened Connection
  import opened Environ
  import opened Exchange
  import opened Llhttp
  import opened Request
  import Head
  import Unicode
  import UriDecode
  import Wsgi
  import WsgiWire

  // ---------------------------------------------------------------- the reports of a request are in order

  /** The bytes of an element do not lead on. */
  lemma {:induction false} BytesInOrder(p: Phase, q: Phase, k: Kind, s: seq<byte>)
    requires s != [] && NextData(p, k) == Some(q) && NextData(q, k) == Some(q)
    ensures Follow(p, DataTokens(k, s)) == Some(q)
    decreases |s|
  {
    assert DataTokens(k, s)[1..] == DataTokens(k, s[1..]);
    if |s| > 1 {
      BytesInOrder(q, q, k, s[1..]);
    }
  }

  lemma OneInOrder(p: Phase, t: Token)
    ensures Follow(p, [t]) == Next(p, t)
  {
    assert [t][1..] == [];
  }

  lemma LineInOrder(r: Sent)
    requires r.path != [] && r.proto != []
    ensures Follow(Idle, LineTokens(r)) == Some(Fields(false))
  {
    hide Follow;
    var url, proto := DataTokens(Url, Target(r)), DataTokens(Protocol, r.proto);
    BytesInOrder(InLine, InLine, Url, Target(r));
    BytesInOrder(InProto, InProto, Protocol, r.proto);
    var end := [ProtocolEnd] + [Version(r.major, r.minor)];
    assert LineTokens(r) == [Begin] + ([Method(r.verb)] + (url + ([UrlEnd] + (proto + end))));
    FollowAppend(Idle, [Begin], [Method(r.verb)] + (url + ([UrlEnd] + (proto + end))));
    FollowAppend(InLine, [Method(r.verb)], url + ([UrlEnd] + (proto + end)));
    FollowAppend(InLine, url, [UrlEnd] + (proto + end));
    FollowAppend(InLine, [UrlEnd], proto + end);
    FollowAppend(InProto, proto, end);
    FollowAppend(InProto, [ProtocolEnd], [Version(r.major, r.minor)]);
    OneInOrder(Idle, Begin);
    OneInOrder(InLine, Method(r.verb));
    OneInOrder(InLine, UrlEnd);
    OneInOrder(InProto, ProtocolEnd);
    OneInOrder(InVersion, Version(r.major, r.minor));
  }

  lemma FieldInOrder(open: bool, f: Head.Header)
    requires f.name != []
    ensures Follow(Fields(open), FieldTokens(f)) == Some(Fields(open))
  {
    hide Follow;
    var a, b := DataTokens(Field, f.name), DataTokens(Value, f.value);
    BytesInOrder(Fields(open), InName(open), Field, f.name);
    if f.value == [] {
      FollowNone(InValue(open));
      assert b == [];
    } else {
      BytesInOrder(InValue(open), InValue(open), Value, f.value);
    }
    assert FieldTokens(f) == a + ([FieldEnd] + (b + [ValueEnd]));
    FollowAppend(Fields(open), a, [FieldEnd] + (b + [ValueEnd]));
    FollowAppend(InName(open), [FieldEnd], b + [ValueEnd]);
    FollowAppend(InValue(open), b, [ValueEnd]);
    OneInOrder(InName(open), FieldEnd);
    OneInOrder(InValue(open), ValueEnd);
  }

  lemma {:induction false} FieldsInOrder(open: bool, fields: seq<Head.Header>)
    requires forall i :: 0 <= i < |fields| ==> fields[i].name != []
    ensures Follow(Fields(open), FieldsTokens(fields)) == Some(Fields(open))
  {
    if fields != [] {
      var n := |fields| - 1;
      FieldsInOrder(open, fields[..n]);
      FollowAppend(Fields(open), FieldsTokens(fields[..n]), FieldTokens(fields[n]));
      FieldInOrder(open, fields[n]);
    }
  }

  // ---------------------------------------------------------------- a response that nothing asked for

  const GET: seq<byte> := [71, 69, 84]

  /** GET / HTTP/1.1 with a Host, an expectation, and a body of two bytes to come. */
  const ASKING: Sent :=
    Sent(GET, [47], None, HTTP, 1, 1, [Head.Header(HOST, [97]), Head.Header(EXPECT, CONTINUE)], 2, [], [], true)

  /** The server accepts bodies of one byte. */
  const LIMITS: Limits := Limits(10, 1, map[], [], [])

  function HeadTokens(): seq<Token> {
    LineTokens(ASKING) + (FieldsTokens(ASKING.fields) + [HeadersEnd(2, true)])
  }

  /** A parser that finds the whole head of this request in any byte but a line end. */
  function Machine(): Llhttp.Machine<bool> {
    Llhttp.Machine(false,
                   (s: bool, b: byte) =>
                     if s then (true, []) else if b == CR || b == LF then (false, []) else (true, HeadTokens()),
                   (s: bool) => if s then Fields(true) else Idle)
  }

  lemma MachineOrdered()
    ensures Ordered(Machine())
  {
    hide HeadTokens, Follow;
    HeadInOrder();
    FollowNone(Fields(true));
    FollowNone(Idle);
    NoEnd();
    var m := Machine();
    forall s: bool, b: byte
      ensures Follow(m.phase(s), m.step(s, b).1) == Some(m.phase(m.step(s, b).0))
      ensures forall i :: 0 <= i < |m.step(s, b).1| ==> !m.step(s, b).1[i].MessageEnd?
    {
      if s || b == CR || b == LF {
        assert m.step(s, b).1 == [];
      } else {
        assert m.step(s, b) == (true, HeadTokens());
      }
    }
  }

  lemma HeadInOrder()
    ensures Follow(Idle, HeadTokens()) == Some(Fields(true))
  {
    hide LineTokens, FieldsTokens, Follow;
    LineInOrder(ASKING);
    FieldsInOrder(false, ASKING.fields);
    FollowAppend(Idle, LineTokens(ASKING), FieldsTokens(ASKING.fields) + [HeadersEnd(2, true)]);
    FollowAppend(Fields(false), FieldsTokens(ASKING.fields), [HeadersEnd(2, true)]);
    OneInOrder(Fields(false), HeadersEnd(2, true));
  }

  lemma NoEnd()
    ensures forall i :: 0 <= i < |HeadTokens()| ==> !HeadTokens()[i].MessageEnd?
  {
    var f0, f1 := ASKING.fields[0], ASKING.fields[1];
    assert FieldsTokens(ASKING.fields) == FieldTokens(f0) + FieldTokens(f1) by {
      assert ASKING.fields[..1] == [f0] && [f0][..0] == [];
      assert FieldsTokens([f0]) == [] + FieldTokens(f0);
    }
  }

  /** The expectation is to be refused. */
  lemma AskingRefused()
    ensures WellFormed(ASKING) && LineFate(LIMITS, ASKING) == None && EndFate(LIMITS, ASKING) == Refused
    ensures FieldsFate(LIMITS, 1, 0, false, ASKING.fields) == None
  {
    hide Is;
    var f0, f1 := ASKING.fields[0], ASKING.fields[1];
    NamesKept(f0, f1);
    Words();
    assert ASKING.fields[..0] == [] && ASKING.fields[..1] == [f0] && [f0][..0] == [];
    assert FieldsFate(LIMITS, 1, 0, false, [f0]) == None;
    var path: seq<byte> := [47];
    UriDecode.NoEscapes(path);
    assert Target(ASKING) == path;
    assert Unicode.Utf8(path) by { assert path[1..] == []; }
  }

  lemma NamesKept(f: Head.Header, g: Head.Header)
    requires f.name == HOST && g.name == EXPECT
    ensures Is(f, "host") && !Is(f, "transfer-encoding") && !Is(f, "expect")
    ensures Is(g, "expect") && !Is(g, "transfer-encoding") && !Is(g, "host")
  {
    hide ToLower;
    Names(f);
    Names(g);
    SameNames();
  }

  lemma SameNames()
    ensures EnvName(HOST) == HOST && EnvName(EXPECT) == EXPECT && |TRANSFER_ENCODING| == 17
  {
  }

  /** What comes of the head, byte by byte: the expectation is refused. */
  lemma HeadReported(c: Core)
    requires c == CoreOf(Start(LIMITS, Machine()))
    ensures var d := Reports(LIMITS, c, HeadTokens()); d.events == [Reject(true)] && !d.failed && !d.long && d.cut
  {
    hide Reports, LineTokens, FieldsTokens, After, HasField, Seen, LineRead, FieldsFate, LineFate, BodyFate, Machine;
    var line, fields := LineTokens(ASKING), FieldsTokens(ASKING.fields);
    AskingRefused();
    ReportsAppend(LIMITS, c, line, fields + [HeadersEnd(2, true)]);
    LineSeen(LIMITS, c, ASKING);
    LineFresh(LIMITS, ASKING);
    var c1 := c.(m := LineRead(LIMITS, ASKING));
    ReportsAppend(LIMITS, c1, fields, [HeadersEnd(2, true)]);
    AllFields(LIMITS, c1, ASKING.fields);
    HeadRead(LIMITS, ASKING);
    ReportsOne(LIMITS, c1.(m := After(c1.m, ASKING.fields)), HeadersEnd(2, true));
    assert [] + [Reject(true)] == [Reject(true)];
  }

  lemma ByteRefused()
    ensures var r := All(LIMITS, Machine(), Start(LIMITS, Machine()), [71]);
              r.s == false && r.events == [Reject(true)] && !r.failed && !r.long
  {
    hide Reports, HeadTokens;
    var start, input := Start(LIMITS, Machine()), [71 as byte];
    assert input[..0] == [];
    HeadReported(CoreOf(start));
    assert Machine().step(false, 71) == (true, HeadTokens());
    assert All(LIMITS, Machine(), start, input) == OneByte(LIMITS, Machine(), start, 71);
  }

  lemma LineEndsQuiet()
    ensures Quiet(Machine(), false, [13, 10])
  {
    var s: seq<byte> := [13, 10];
    assert s[1..] == [10] && s[1..][1..] == [];
  }

  /** What the connection makes of the head, once the byte is received. */
  lemma OnlyRefused(c: Connection<bool>, begun: seq<Cause>, error: int, keepAlive: bool)
    requires c.Ready() && c.input == [71] && c.causes == begun && |begun| <= 1 && c.su.cfg.allowKeepalive
    requires c.parser.lim == LIMITS && c.parser.mach == Machine()
    requires c.Asked(begun, false, error, keepAlive) && (begun != [] ==> c.closing == c.plan.shut)
    requires !c.closing ==> c.size - c.parsedSize < 1
    ensures begun == [Of(Reject(true), true)] && !c.closing && c.status != Freezed && c.parser.s == false
  {
    hide All, Carried, Explained, Exchange.Kept, HeadTokens, PlanFor;
    ByteRefused();
    NothingYet();
    OneMessage(begun);
    RefusalKept(c.su, begun);
    assert c.processed == 1 ==> c.input[..c.processed] == c.input;
  }

  lemma RefusalKept(su: Setup, causes: seq<Cause>)
    requires su.cfg.allowKeepalive
    ensures causes != [] && causes[|causes| - 1].Of? && causes[|causes| - 1].event == Reject(true) ==>
              !PlanFor(su, causes).shut
  {
  }

  lemma NothingYet()
    ensures All(LIMITS, Machine(), Start(LIMITS, Machine()), []) == Start(LIMITS, Machine())
  {
  }

  lemma OneMessage(causes: seq<Cause>)
    requires |causes| <= 1
    ensures Messages(causes) == if causes != [] && causes[0].Of? then [causes[0].event] else []
  {
    if causes != [] { assert causes[..0] == []; }
  }

  /** A connection that has just refused an expectation. */
  method Refusal(su: Setup, now: nat) returns (c: Connection<bool>)
    requires su.cfg.allowKeepalive
    ensures fresh(c) && fresh(c.data) && fresh(c.parser) && fresh(c.parser.cb) && c.su == su
    ensures c.Ready() && !c.closing && c.inFlight && c.input == [71] && c.causes == [Of(Reject(true), true)]
    ensures c.data.Length == 16 && c.status != Freezed && c.parser.mach == Machine() && c.parser.s == false
  {
    hide All, Machine, Ordered, Connection.Ready, Connection.Asked, Quiet, Parser.Synced, PlanFor;
    MachineOrdered();
    var cb := new Parsing(LIMITS, now);
    var parser := new Parser(LIMITS, Machine(), cb);
    c := new Connection(su, parser, 16);
    label L:
    ghost var begun := c.Receive([71], now);
    OnlyRefused(c, begun, 0, old@L(cb.keepAlive));
  }

  /** From the first byte of a connection on: a refused expectation and a line end get two responses. */
  method RefusalThenLineEnd(su: Setup, now: nat) returns (c: Connection<bool>)
    requires su.cfg.allowKeepalive
    ensures c.Ready() && c.input == [71, 13, 10] && c.History() == [Reject(true)]
    ensures c.causes == [Of(Reject(true), true), Stale(417, true)]
  {
    hide Connection.Ready, Machine, Quiet;
    c := Refusal(su, now);
    LineEndsQuiet();
    c.LineEndAfterRefusal(now);
  }

  // ---------------------------------------------------------------- a body that is too short

  /** 200 OK with a Content-Length of 5, and a body that looks like a file. */
  const PROMISING: Wsgi.App :=
    Wsgi.App(Some([72, 84, 84, 80, 47, 49, 46, 49, 32, 50, 48, 48, 32, 79, 75]), 200,
             [Head.Header(Head.CONTENT_LENGTH, [53])], true)

  /** Its one byte. */
  const ONE_BYTE: seq<Wsgi.Item> := [Wsgi.Data([65])]

  lemma LengthPromised()
    ensures Wsgi.DeclaredBy(PROMISING.headers) == Wsgi.Length(5)
    ensures Head.CountNamed(PROMISING.headers, Head.TRANSFER_ENCODING) == 0
  {
    hide Wsgi.LengthValue;
    Head.KnownNames();
    assert Head.Decimal(5) == [53];
    Wsgi.DeclaredDecimal(5);
    var h := PROMISING.headers[0];
    assert PROMISING.headers[..0] == [];
    assert Wsgi.DeclaredBy([]) == Wsgi.Unspecified;
  }

  lemma StatusPromised()
    ensures Head.StatusIn(PROMISING.start.value) == Some(200)
  {
    var one, two, three: seq<byte> := [50], [50, 48], [50, 48, 48];
    assert one[..0] == [] && two[..1] == one && three[..2] == two;
    assert Head.ParseDecimal(one) == Some(2);
    assert Head.ParseDecimal(two) == Some(20);
    assert PROMISING.start.value[9..12] == three;
  }

  /** A body of one byte where five were announced, and chunks of at most one byte: the client takes the
      missing four bytes from the next response. */
  lemma ShortBody(req: Wsgi.Request, date: seq<byte>, more: seq<byte>)
    requires !req.isHead && req.maxChunkSize <= 1 && Head.Sound(req.cfg, date) && |more| >= 4
    ensures Wsgi.Servable(req, PROMISING, Wsgi.Iterator, ONE_BYTE)
    ensures Wsgi.EndingOf(req, PROMISING, Wsgi.Iterator, ONE_BYTE) == Wsgi.Short
    ensures var r := Read(false, Concat(Wsgi.Writes(req, PROMISING, date, Wsgi.Iterator, ONE_BYTE)) + more);
              r.Some? && r.value.0.body == [65] + more[..4] && r.value.1 == more[4..]
  {
    hide Read, Wsgi.Writes, Wsgi.DeclaredBy, Concat, Wsgi.PiecesOf, Wsgi.DecideFor, Wsgi.EndingOf, ReplyOf;
    hide Head.CountNamed;
    LengthPromised();
    StatusPromised();
    ShortDecision(req);
    ShortSwallows(req, PROMISING, date, Wsgi.Iterator, ONE_BYTE, more);
  }

  lemma ShortDecision(req: Wsgi.Request)
    requires !req.isHead && req.maxChunkSize <= 1
    ensures Wsgi.DecisionFor(req, PROMISING, Wsgi.Iterator, ONE_BYTE) == Wsgi.Announce(5, 1)
    ensures Wsgi.EndingOf(req, PROMISING, Wsgi.Iterator, ONE_BYTE) == Wsgi.Short
    ensures Wsgi.PiecesOf(Wsgi.Iterator, ONE_BYTE) == [[65]]
    ensures Concat(Wsgi.AllSent(Given([[65]], Wsgi.Announce(5, 1)))) == [65]
  {
    hide Wsgi.DeclaredBy;
    LengthPromised();
    var pieces: seq<seq<byte>> := [[65]];
    assert Wsgi.Good(ONE_BYTE) == pieces && !Wsgi.Breaks(ONE_BYTE);
    assert pieces[..1] == pieces && Concat(pieces) == [65];
    Wsgi.PreloadedStep(pieces, 0, true, req.maxChunkSize);
    Wsgi.PreloadedStep(pieces, 1, true, req.maxChunkSize);
    assert Wsgi.AllSent(pieces) == pieces;
  }
}
