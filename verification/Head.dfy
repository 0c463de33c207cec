/**
 The head of a response: what build_response (fastwsgi/request.c) prints, and an independent
 parser of header sections (section 5 of RFC 9112) that reads it back.
 */
module Head {
  import opened Bytes

  datatype Header = Header(name: seq<byte>, value: seq<byte>)

  /** Server settings that shape the head. An empty `server` stands for add_header_server = 0. */
  datatype Config = Config(lower: bool, addDate: bool, server: seq<byte>, allowKeepalive: bool)

  /** How the end of the body is told. */
  datatype Framing = NoFraming | ContentLength(n: nat) | ChunkedCoding

  const COLON: byte := 58
  const SP: byte := 32
  const HTAB: byte := 9
  const CONTENT_LENGTH: seq<byte> := [67, 111, 110, 116, 101, 110, 116, 45, 76, 101, 110, 103, 116, 104]
  const CONNECTION: seq<byte> := [67, 111, 110, 110, 101, 99, 116, 105, 111, 110]
  const DATE: seq<byte> := [68, 97, 116, 101]
  const SERVER: seq<byte> := [83, 101, 114, 118, 101, 114]
  const TRANSFER_ENCODING: seq<byte> :=
    [84, 114, 97, 110, 115, 102, 101, 114, 45, 69, 110, 99, 111, 100, 105, 110, 103]
  const KEEP_ALIVE: seq<byte> := [107, 101, 101, 112, 45, 97, 108, 105, 118, 101]
  const CLOSE: seq<byte> := [99, 108, 111, 115, 101]
  const CHUNKED: seq<byte> := [99, 104, 117, 110, 107, 101, 100]

  /** strcasecmp(name, known) == 0 */
  predicate Named(name: seq<byte>, known: seq<byte>) {
    Lower(name) == Lower(known)
  }

  // ---------------------------------------------------------------- what is printed

  /** sprintf("%lld") of a non-negative number. */
  function Decimal(n: nat): (r: seq<byte>)
    ensures |r| >= 1 && forall i :: 0 <= i < |r| ==> 48 <= r[i] <= 57
  {
    if n < 10 then [(48 + n) as byte] else Decimal(n / 10) + [(48 + n % 10) as byte]
  }

  function Cased(cfg: Config, name: seq<byte>): seq<byte> {
    if cfg.lower then Lower(name) else name
  }

  /** The app's own framing and connection headers are not passed on. */
  predicate Dropped(h: Header) {
    Named(h.name, CONTENT_LENGTH) || Named(h.name, CONNECTION)
  }

  function Printed(cfg: Config, h: Header): Header {
    Header(Cased(cfg, h.name),
           if Named(h.name, SERVER) && cfg.server != [] then cfg.server + [SP] + h.value else h.value)
  }

  /** The app's headers as they are printed, in order. */
  function AppFields(cfg: Config, headers: seq<Header>): seq<Header> {
    if headers == [] then []
    else
      var n := |headers| - 1;
      AppFields(cfg, headers[..n]) + (if Dropped(headers[n]) then [] else [Printed(cfg, headers[n])])
  }

  predicate Has(headers: seq<Header>, known: seq<byte>) {
    exists i :: 0 <= i < |headers| && Named(headers[i].name, known)
  }

  /** The headers the server adds after the app's. */
  function OwnFields(cfg: Config, headers: seq<Header>, date: seq<byte>, keepAlive: bool,
                     framing: Framing): seq<Header> {
    (if !Has(headers, DATE) && cfg.addDate then [Header(Cased(cfg, DATE), date)] else [])
    + (if !Has(headers, SERVER) && cfg.server != [] then [Header(Cased(cfg, SERVER), cfg.server)] else [])
    + [Header(Cased(cfg, CONNECTION), if keepAlive && cfg.allowKeepalive then KEEP_ALIVE else CLOSE)]
    + FramingFields(cfg, framing)
  }

  function FramingFields(cfg: Config, framing: Framing): seq<Header> {
    match framing
    case NoFraming => []
    case ContentLength(n) => [Header(Cased(cfg, CONTENT_LENGTH), Decimal(n))]
    case ChunkedCoding => [Header(Cased(cfg, TRANSFER_ENCODING), CHUNKED)]
  }

  function Fields(cfg: Config, headers: seq<Header>, date: seq<byte>, keepAlive: bool, framing: Framing): seq<Header> {
    AppFields(cfg, headers) + OwnFields(cfg, headers, date, keepAlive, framing)
  }

  function Line(h: Header): seq<byte> {
    h.name + [COLON, SP] + h.value + CRLF
  }

  function Lines(fields: seq<Header>): seq<byte> {
    if fields == [] then [] else Line(fields[0]) + Lines(fields[1..])
  }

  /** A whole head, from the status line to the empty line. */
  function Text(start: seq<byte>, fields: seq<Header>): seq<byte> {
    start + CRLF + Lines(fields) + CRLF
  }

  lemma LinesCons(h: Header, rest: seq<Header>)
    ensures Lines([h] + rest) == Line(h) + Lines(rest)
  {
    assert ([h] + rest)[1..] == rest;
  }

  lemma {:induction false} LinesAppend(a: seq<Header>, b: seq<Header>)
    ensures Lines(a + b) == Lines(a) + Lines(b)
  {
    if a == [] {
      assert a + b == b;
    } else {
      hide *;
      calc {
        Lines(a + b);
        { assert a + b == [a[0]] + (a[1..] + b); }
        Lines([a[0]] + (a[1..] + b));
        { LinesCons(a[0], a[1..] + b); LinesAppend(a[1..], b); }
        Line(a[0]) + (Lines(a[1..]) + Lines(b));
        Line(a[0]) + Lines(a[1..]) + Lines(b);
        { LinesCons(a[0], a[1..]); assert a == [a[0]] + a[1..]; }
        Lines(a) + Lines(b);
      }
    }
  }

  lemma LinesOne(h: Header)
    ensures Lines([h]) == Line(h)
  {
    assert Lines([h]) == Line(h) + Lines([]);
  }

  /** xbuf_add_HDR: header names are lowered on the way into the buffer when configured. */
  method AddName(cfg: Config, head: seq<byte>, name: seq<byte>) returns (r: seq<byte>)
    ensures r == head + Cased(cfg, name)
  {
    r := head + name;
    if cfg.lower {
      var pos := |head|;
      while pos < |r|
        invariant |head| <= pos <= |r| == |head| + |name|
        invariant r == head + Lower(name)[..pos - |head|] + name[pos - |head|..]
      {
        r := r[pos := ToLower(r[pos])];
        pos := pos + 1;
      }
    }
  }

  /** The part of build_response that prints one header of the app's; `i` is its index. */
  method AddHeader(cfg: Config, head: seq<byte>, h: Header) returns (r: seq<byte>)
    ensures r == head + if Dropped(h) then [] else Line(Printed(cfg, h))
  {
    if Named(h.name, CONTENT_LENGTH) { return head; }
    if Named(h.name, CONNECTION) { return head; }
    r := AddName(cfg, head, h.name);
    r := r + [COLON, SP];
    if Named(h.name, SERVER) && |cfg.server| > 0 {
      r := r + cfg.server;
      r := r + [SP];
    }
    r := r + h.value;
    r := r + CRLF;
    assert r == head + Line(Printed(cfg, h));
  }

  /** A line whose name goes through xbuf_add_HDR and whose value is already in lower case. */
  method AddLine(cfg: Config, head: seq<byte>, name: seq<byte>, value: seq<byte>) returns (r: seq<byte>)
    ensures r == head + Line(Header(Cased(cfg, name), value))
  {
    r := AddName(cfg, head, name);
    r := r + [COLON, SP] + value + CRLF;
    assert r == head + Line(Header(Cased(cfg, name), value));
  }

  lemma NoFields(cfg: Config, start: seq<byte>)
    ensures start + Lines(AppFields(cfg, [])) == start && !Has([], DATE) && !Has([], SERVER)
  {
  }

  /** The loop of build_response over the app's headers. */
  method AddHeaders(cfg: Config, start: seq<byte>, headers: seq<Header>)
    returns (head: seq<byte>, dateSeen: bool, serverSeen: bool)
    ensures head == start + Lines(AppFields(cfg, headers))
    ensures dateSeen == Has(headers, DATE) && serverSeen == Has(headers, SERVER)
  {
    hide AppFields, Lines, Line, Has, Printed, Dropped;
    head := start;
    dateSeen, serverSeen := false, false;
    assert headers[..0] == [];
    NoFields(cfg, start);
    for i := 0 to |headers|
      invariant head == start + Lines(AppFields(cfg, headers[..i]))
      invariant dateSeen == Has(headers[..i], DATE) && serverSeen == Has(headers[..i], SERVER)
    {
      var h := headers[i];
      head := AddHeader(cfg, head, h);
      dateSeen := dateSeen || Named(h.name, DATE);
      serverSeen := serverSeen || Named(h.name, SERVER);
      NextField(cfg, headers, i);
    }
    assert headers[..|headers|] == headers;
  }

  /** build_response up to and including the Connection header. */
  method BuildFields(cfg: Config, start: seq<byte>, headers: seq<Header>, date: seq<byte>, keepAlive: bool)
    returns (head: seq<byte>)
    ensures head == start + CRLF + Lines(Fields(cfg, headers, date, keepAlive, NoFraming))
  {
    OwnLines(cfg, headers, date, keepAlive);
    LinesAppend(AppFields(cfg, headers), OwnFields(cfg, headers, date, keepAlive, NoFraming));
    hide AppFields, OwnFields, Lines, Line, Has, Cased;
    var dateSeen, serverSeen;
    head, dateSeen, serverSeen := AddHeaders(cfg, start + CRLF, headers);
    if !dateSeen && cfg.addDate {
      head := AddLine(cfg, head, DATE, date);
    }
    if !serverSeen && |cfg.server| > 0 {
      head := AddLine(cfg, head, SERVER, cfg.server);
    }
    head := AddLine(cfg, head, CONNECTION, if keepAlive && cfg.allowKeepalive then KEEP_ALIVE else CLOSE);
  }

  lemma NextField(cfg: Config, headers: seq<Header>, i: nat)
    requires i < |headers|
    ensures Lines(AppFields(cfg, headers[..i + 1])) == Lines(AppFields(cfg, headers[..i])) +
              if Dropped(headers[i]) then [] else Line(Printed(cfg, headers[i]))
    ensures forall known :: Has(headers[..i + 1], known) <==> Has(headers[..i], known) || Named(headers[i].name, known)
  {
    hide Has, Lines, Dropped, Printed, Line;
    var hs, before := headers[..i + 1], AppFields(cfg, headers[..i]);
    assert hs[..i] == headers[..i] && hs[i] == headers[i];
    if Dropped(headers[i]) {
      assert AppFields(cfg, hs) == before + [] == before;
    } else {
      LinesOne(Printed(cfg, headers[i]));
      LinesAppend(before, [Printed(cfg, headers[i])]);
    }
    forall known ensures Has(hs, known) <==> Has(headers[..i], known) || Named(headers[i].name, known) {
      HasNext(headers, i, known);
    }
  }

  lemma HasNext(headers: seq<Header>, i: nat, known: seq<byte>)
    requires i < |headers|
    ensures Has(headers[..i + 1], known) <==> Has(headers[..i], known) || Named(headers[i].name, known)
  {
    hide Named;
    var before, upTo := headers[..i], headers[..i + 1];
    if Has(before, known) {
      var j :| 0 <= j < i && Named(before[j].name, known);
      assert upTo[j] == before[j];
    }
    if Has(upTo, known) && !Named(headers[i].name, known) {
      var j :| 0 <= j < i + 1 && Named(upTo[j].name, known);
      assert upTo[j] == before[j];
    }
    if Named(headers[i].name, known) {
      assert Named(upTo[i].name, known);
    }
  }

  lemma OwnLines(cfg: Config, headers: seq<Header>, date: seq<byte>, keepAlive: bool)
    ensures Lines(OwnFields(cfg, headers, date, keepAlive, NoFraming)) ==
              (if !Has(headers, DATE) && cfg.addDate then Line(Header(Cased(cfg, DATE), date)) else [])
              + (if !Has(headers, SERVER) && cfg.server != [] then Line(Header(Cased(cfg, SERVER), cfg.server)) else [])
              + Line(Header(Cased(cfg, CONNECTION), if keepAlive && cfg.allowKeepalive then KEEP_ALIVE else CLOSE))
  {
    var d := if !Has(headers, DATE) && cfg.addDate then [Header(Cased(cfg, DATE), date)] else [];
    var s := if !Has(headers, SERVER) && cfg.server != [] then [Header(Cased(cfg, SERVER), cfg.server)] else [];
    var c := Header(Cased(cfg, CONNECTION), if keepAlive && cfg.allowKeepalive then KEEP_ALIVE else CLOSE);
    assert OwnFields(cfg, headers, date, keepAlive, NoFraming) == d + s + [c];
    LinesAppend(d + s, [c]);
    LinesAppend(d, s);
    LinesOne(c);
    if d != [] { LinesOne(d[0]); }
    if s != [] { LinesOne(s[0]); }
  }

  /** The end of build_response's head: the framing header and the empty line. */
  method AddFraming(cfg: Config, head: seq<byte>, framing: Framing) returns (r: seq<byte>)
    ensures r == head + Lines(FramingFields(cfg, framing)) + CRLF
  {
    r := head;
    match framing {
      case NoFraming =>
      case ContentLength(n) =>
        r := AddLine(cfg, r, CONTENT_LENGTH, Decimal(n));
        LinesOne(Header(Cased(cfg, CONTENT_LENGTH), Decimal(n)));
      case ChunkedCoding =>
        r := AddLine(cfg, r, TRANSFER_ENCODING, CHUNKED);
        LinesOne(Header(Cased(cfg, TRANSFER_ENCODING), CHUNKED));
    }
    r := r + CRLF;
  }

  lemma FramedText(cfg: Config, start: seq<byte>, headers: seq<Header>, date: seq<byte>, keepAlive: bool,
                   framing: Framing)
    ensures start + CRLF + Lines(Fields(cfg, headers, date, keepAlive, NoFraming))
              + Lines(FramingFields(cfg, framing)) + CRLF
            == Text(start, Fields(cfg, headers, date, keepAlive, framing))
  {
    hide Lines, Line, Decimal, AppFields;
    var f, g := Fields(cfg, headers, date, keepAlive, NoFraming), FramingFields(cfg, framing);
    assert f + g == Fields(cfg, headers, date, keepAlive, framing);
    LinesAppend(f, g);
    assert start + CRLF + Lines(f) + Lines(g) + CRLF == start + CRLF + (Lines(f) + Lines(g)) + CRLF;
  }

  // ---------------------------------------------------------------- reading it back

  predicate Blank(b: byte) {
    b == SP || b == HTAB
  }

  /** Optional whitespace around a field value is not part of it. */
  function TrimLeft(v: seq<byte>): seq<byte> {
    if v != [] && Blank(v[0]) then TrimLeft(v[1..]) else v
  }

  function TrimRight(v: seq<byte>): seq<byte> {
    if v != [] && Blank(v[|v| - 1]) then TrimRight(v[..|v| - 1]) else v
  }

  function Trim(v: seq<byte>): seq<byte> {
    TrimRight(TrimLeft(v))
  }

  /** The bytes before the first CRLF and those after it. */
  function ReadLine(s: seq<byte>): (r: Option<(seq<byte>, seq<byte>)>)
    ensures r.Some? ==> |r.value.0| + 2 + |r.value.1| == |s|
  {
    if |s| < 2 then None
    else if s[0] == CR && s[1] == LF then Some(([], s[2..]))
    else
      match ReadLine(s[1..])
      case None => None
      case Some((line, rest)) => Some(([s[0]] + line, rest))
  }

  /** field-name ":" OWS field-value OWS */
  function ReadField(line: seq<byte>): Option<Header> {
    if line == [] then None
    else if line[0] == COLON then Some(Header([], Trim(line[1..])))
    else
      match ReadField(line[1..])
      case None => None
      case Some(h) => Some(Header([line[0]] + h.name, h.value))
  }

  /** Field lines up to and including the empty line. */
  function ReadFields(s: seq<byte>): Option<(seq<Header>, seq<byte>)>
    decreases |s|
  {
    match ReadLine(s)
    case None => None
    case Some((line, rest)) =>
      if line == [] then Some(([], rest))
      else
        match ReadField(line)
        case None => None
        case Some(h) =>
          match ReadFields(rest)
          case None => None
          case Some((more, tail)) => Some(([h] + more, tail))
  }

  datatype Parsed = Parsed(start: seq<byte>, fields: seq<Header>, rest: seq<byte>)

  /** The start line, the fields, and what follows the head. */
  function Parse(s: seq<byte>): Option<Parsed> {
    match ReadLine(s)
    case None => None
    case Some((start, afterStart)) =>
      match ReadFields(afterStart)
      case None => None
      case Some((fields, rest)) => Some(Parsed(start, fields, rest))
  }

  predicate OneLine(s: seq<byte>) {
    CR !in s && LF !in s
  }

  /** A header that keeps to one line, with a non-empty name free of ':'. */
  predicate Printable(h: Header) {
    OneLine(h.name) && OneLine(h.value) && COLON !in h.name && h.name != []
  }

  function Trimmed(h: Header): Header {
    Header(h.name, Trim(h.value))
  }

  function AllTrimmed(fields: seq<Header>): (r: seq<Header>)
    ensures |r| == |fields|
  {
    seq(|fields|, i requires 0 <= i < |fields| => Trimmed(fields[i]))
  }

  lemma {:induction false} ReadLineBack(line: seq<byte>, rest: seq<byte>)
    requires OneLine(line)
    ensures ReadLine(line + CRLF + rest) == Some((line, rest))
  {
    var s := line + CRLF + rest;
    if line == [] {
      assert s == CRLF + rest;
      assert s[2..] == rest;
    } else {
      ReadLineBack(line[1..], rest);
      assert s[1..] == line[1..] + CRLF + rest;
      assert s[0] == line[0] && [line[0]] + line[1..] == line;
    }
  }

  lemma {:induction false} ReadFieldBack(name: seq<byte>, value: seq<byte>)
    requires COLON !in name
    ensures ReadField(name + [COLON, SP] + value) == Some(Header(name, Trim(value)))
  {
    var line := name + [COLON, SP] + value;
    if name == [] {
      assert line[1..] == [SP] + value;
      assert ([SP] + value)[1..] == value;
    } else {
      ReadFieldBack(name[1..], value);
      assert line[1..] == name[1..] + [COLON, SP] + value;
      assert [name[0]] + name[1..] == name;
    }
  }

  lemma {:induction false} ReadFieldsBack(fields: seq<Header>, rest: seq<byte>)
    requires forall i :: 0 <= i < |fields| ==> Printable(fields[i])
    ensures ReadFields(Lines(fields) + CRLF + rest) == Some((AllTrimmed(fields), rest))
  {
    var s := Lines(fields) + CRLF + rest;
    if fields == [] {
      assert s == [] + CRLF + rest;
      ReadLineBack([], rest);
    } else {
      var h, more := fields[0], fields[1..];
      ReadFieldsBack(more, rest);
      var line := h.name + [COLON, SP] + h.value;
      assert s == line + CRLF + (Lines(more) + CRLF + rest);
      ReadLineBack(line, Lines(more) + CRLF + rest);
      ReadFieldBack(h.name, h.value);
      assert AllTrimmed(fields) == [Trimmed(h)] + AllTrimmed(more);
    }
  }

  /** What the server is configured with keeps to one line. */
  predicate Sound(cfg: Config, date: seq<byte>) {
    OneLine(cfg.server) && OneLine(date)
  }

  lemma CasedPrintable(cfg: Config, name: seq<byte>)
    requires OneLine(name) && COLON !in name
    ensures OneLine(Cased(cfg, name)) && COLON !in Cased(cfg, name) && |Cased(cfg, name)| == |name|
  {
    forall b | b in Lower(name) ensures b != CR && b != LF && b != COLON {
      var i :| 0 <= i < |name| && b == ToLower(name[i]);
      assert name[i] in name;
    }
  }

  lemma {:induction false} AppFieldsPrintable(cfg: Config, headers: seq<Header>)
    requires OneLine(cfg.server) && forall i :: 0 <= i < |headers| ==> Printable(headers[i])
    ensures forall h :: h in AppFields(cfg, headers) ==> Printable(h)
  {
    if headers != [] {
      var n := |headers| - 1;
      AppFieldsPrintable(cfg, headers[..n]);
      CasedPrintable(cfg, headers[n].name);
      assert Printable(Printed(cfg, headers[n]));
    }
  }

  lemma FramingPrintable(cfg: Config, framing: Framing)
    ensures forall h :: h in FramingFields(cfg, framing) ==> Printable(h)
  {
    hide Cased;
    CasedPrintable(cfg, CONTENT_LENGTH);
    CasedPrintable(cfg, TRANSFER_ENCODING);
  }

  lemma OwnFieldsPrintable(cfg: Config, headers: seq<Header>, date: seq<byte>, keepAlive: bool, framing: Framing)
    requires Sound(cfg, date)
    ensures forall h :: h in OwnFields(cfg, headers, date, keepAlive, framing) ==> Printable(h)
  {
    hide Cased, Has, FramingFields;
    CasedPrintable(cfg, DATE);
    CasedPrintable(cfg, SERVER);
    CasedPrintable(cfg, CONNECTION);
    FramingPrintable(cfg, framing);
  }

  lemma FieldsPrintable(cfg: Config, headers: seq<Header>, date: seq<byte>, keepAlive: bool, framing: Framing)
    requires Sound(cfg, date)
    requires forall i :: 0 <= i < |headers| ==> Printable(headers[i])
    ensures forall h :: h in Fields(cfg, headers, date, keepAlive, framing) ==> Printable(h)
  {
    hide AppFields, OwnFields, Printable;
    AppFieldsPrintable(cfg, headers);
    OwnFieldsPrintable(cfg, headers, date, keepAlive, framing);
  }

  /** The head that build_response prints, with whatever follows it, parses back to the app's
      headers in their order and the server's own. */
  lemma HeadRoundTrip(cfg: Config, start: seq<byte>, headers: seq<Header>, date: seq<byte>, keepAlive: bool,
                      framing: Framing, rest: seq<byte>)
    requires OneLine(start) && Sound(cfg, date)
    requires forall i :: 0 <= i < |headers| ==> Printable(headers[i])
    ensures var fields := Fields(cfg, headers, date, keepAlive, framing);
              Parse(Text(start, fields) + rest) == Some(Parsed(start, AllTrimmed(fields), rest))
  {
    var fields := Fields(cfg, headers, date, keepAlive, framing);
    FieldsPrintable(cfg, headers, date, keepAlive, framing);
    hide Fields, Lines, AllTrimmed, ReadFields, ReadLine, Printable;
    assert forall i :: 0 <= i < |fields| ==> fields[i] in fields;
    ReadFieldsBack(fields, rest);
    assert Text(start, fields) + rest == start + CRLF + (Lines(fields) + CRLF + rest);
    ReadLineBack(start, Lines(fields) + CRLF + rest);
  }

  // ---------------------------------------------------------------- how often a header occurs

  function CountNamed(fields: seq<Header>, known: seq<byte>): nat {
    if fields == [] then 0
    else CountNamed(fields[..|fields| - 1], known) + if Named(fields[|fields| - 1].name, known) then 1 else 0
  }

  lemma {:induction false} CountAppend(a: seq<Header>, b: seq<Header>, known: seq<byte>)
    ensures CountNamed(a + b, known) == CountNamed(a, known) + CountNamed(b, known)
  {
    if b == [] {
      assert a + b == a;
    } else {
      var n := |b| - 1;
      CountAppend(a, b[..n], known);
      assert (a + b)[..|a + b| - 1] == a + b[..n];
    }
  }

  lemma CountOne(h: Header, known: seq<byte>)
    ensures CountNamed([h], known) == if Named(h.name, known) then 1 else 0
  {
    assert CountNamed([h], known) == CountNamed([h][..0], known) + if Named(h.name, known) then 1 else 0;
  }

  lemma LowerTwice(s: seq<byte>)
    ensures Lower(Lower(s)) == Lower(s)
  {
    assert forall i :: 0 <= i < |s| ==> Lower(Lower(s))[i] == Lower(s)[i];
  }

  /** Of the app's headers, those of any other name are all printed, and those two not at all. */
  lemma {:induction false} CountAppFields(cfg: Config, headers: seq<Header>, known: seq<byte>)
    ensures CountNamed(AppFields(cfg, headers), known) ==
              if Lower(known) == Lower(CONTENT_LENGTH) || Lower(known) == Lower(CONNECTION) then 0
              else CountNamed(headers, known)
  {
    if headers != [] {
      var n := |headers| - 1;
      CountAppFields(cfg, headers[..n], known);
      LowerTwice(headers[n].name);
      CountOne(Printed(cfg, headers[n]), known);
      CountAppend(AppFields(cfg, headers[..n]), if Dropped(headers[n]) then [] else [Printed(cfg, headers[n])], known);
    }
  }

  /** The lengths of the known names tell most of them apart. */
  lemma KnownNames()
    ensures |Lower(CONTENT_LENGTH)| == 14 && |Lower(CONNECTION)| == 10 && |Lower(DATE)| == 4
    ensures |Lower(SERVER)| == 6 && |Lower(TRANSFER_ENCODING)| == 17
  {
  }

  /** A field of the server's own, or none. */
  lemma CountOptional(cfg: Config, present: bool, name: seq<byte>, value: seq<byte>, known: seq<byte>)
    ensures CountNamed(if present then [Header(Cased(cfg, name), value)] else [], known) ==
              if present && Lower(name) == Lower(known) then 1 else 0
  {
    LowerTwice(name);
    CountOne(Header(Cased(cfg, name), value), known);
  }

  lemma CountFour(a: seq<Header>, b: seq<Header>, c: seq<Header>, d: seq<Header>, known: seq<byte>)
    ensures CountNamed(a + b + c + d, known)
            == CountNamed(a, known) + CountNamed(b, known) + CountNamed(c, known) + CountNamed(d, known)
  {
    CountAppend(a + b + c, d, known);
    CountAppend(a + b, c, known);
    CountAppend(a, b, known);
  }

  lemma CountFraming(cfg: Config, framing: Framing, known: seq<byte>)
    ensures CountNamed(FramingFields(cfg, framing), known) ==
              (if framing.ContentLength? && Lower(CONTENT_LENGTH) == Lower(known) then 1 else 0) +
              (if framing.ChunkedCoding? && Lower(TRANSFER_ENCODING) == Lower(known) then 1 else 0)
  {
    match framing
    case NoFraming =>
    case ContentLength(n) => CountOptional(cfg, true, CONTENT_LENGTH, Decimal(n), known);
    case ChunkedCoding => CountOptional(cfg, true, TRANSFER_ENCODING, CHUNKED, known);
  }

  lemma OwnParts(cfg: Config, headers: seq<Header>, date: seq<byte>, keepAlive: bool, framing: Framing)
    ensures OwnFields(cfg, headers, date, keepAlive, framing) ==
              (if !Has(headers, DATE) && cfg.addDate then [Header(Cased(cfg, DATE), date)] else []) +
              (if !Has(headers, SERVER) && cfg.server != [] then [Header(Cased(cfg, SERVER), cfg.server)] else []) +
              [Header(Cased(cfg, CONNECTION), if keepAlive && cfg.allowKeepalive then KEEP_ALIVE else CLOSE)] +
              FramingFields(cfg, framing)
  {
  }

  lemma CountOwn(cfg: Config, headers: seq<Header>, date: seq<byte>, keepAlive: bool, framing: Framing,
                 known: seq<byte>)
    requires Lower(known) != Lower(DATE) && Lower(known) != Lower(SERVER)
    ensures CountNamed(OwnFields(cfg, headers, date, keepAlive, framing), known) ==
              (if Lower(CONNECTION) == Lower(known) then 1 else 0) +
              (if framing.ContentLength? && Lower(CONTENT_LENGTH) == Lower(known) then 1 else 0) +
              (if framing.ChunkedCoding? && Lower(TRANSFER_ENCODING) == Lower(known) then 1 else 0)
  {
    hide CountNamed, OwnFields, FramingFields, Cased, Lower, Has;
    OwnParts(cfg, headers, date, keepAlive, framing);
    var hasDate := !Has(headers, DATE) && cfg.addDate;
    var hasServer := !Has(headers, SERVER) && cfg.server != [];
    var value := if keepAlive && cfg.allowKeepalive then KEEP_ALIVE else CLOSE;
    var d := if hasDate then [Header(Cased(cfg, DATE), date)] else [];
    var s := if hasServer then [Header(Cased(cfg, SERVER), cfg.server)] else [];
    var c := [Header(Cased(cfg, CONNECTION), value)];
    CountOptional(cfg, hasDate, DATE, date, known);
    CountOptional(cfg, hasServer, SERVER, cfg.server, known);
    CountOptional(cfg, true, CONNECTION, value, known);
    CountFraming(cfg, framing, known);
    CountFour(d, s, c, FramingFields(cfg, framing), known);
  }

  /** There is always exactly one Connection header. */
  lemma OneConnection(cfg: Config, headers: seq<Header>, date: seq<byte>, keepAlive: bool, framing: Framing)
    ensures CountNamed(Fields(cfg, headers, date, keepAlive, framing), CONNECTION) == 1
  {
    KnownNames();
    CountAppFields(cfg, headers, CONNECTION);
    CountOwn(cfg, headers, date, keepAlive, framing, CONNECTION);
    CountAppend(AppFields(cfg, headers), OwnFields(cfg, headers, date, keepAlive, framing), CONNECTION);
  }

  /** The server's own framing header comes on top of what the app gave: its Content-Length is filtered, its
      Transfer-Encoding is not. */
  lemma FramingCounts(cfg: Config, headers: seq<Header>, date: seq<byte>, keepAlive: bool, framing: Framing)
    ensures var fields := Fields(cfg, headers, date, keepAlive, framing);
              && CountNamed(fields, CONTENT_LENGTH) == (if framing.ContentLength? then 1 else 0)
              && CountNamed(fields, TRANSFER_ENCODING) ==
                   CountNamed(headers, TRANSFER_ENCODING) + if framing.ChunkedCoding? then 1 else 0
  {
    KnownNames();
    CountAppFields(cfg, headers, CONTENT_LENGTH);
    CountAppFields(cfg, headers, TRANSFER_ENCODING);
    CountOwn(cfg, headers, date, keepAlive, framing, CONTENT_LENGTH);
    CountOwn(cfg, headers, date, keepAlive, framing, TRANSFER_ENCODING);
    var own := OwnFields(cfg, headers, date, keepAlive, framing);
    CountAppend(AppFields(cfg, headers), own, CONTENT_LENGTH);
    CountAppend(AppFields(cfg, headers), own, TRANSFER_ENCODING);
  }

  /** Content-Length and Transfer-Encoding together occur exactly once (section 6.3 of RFC 9112)
      exactly when the app gave no Transfer-Encoding of its own: that one is not filtered. */
  lemma OneFraming(cfg: Config, headers: seq<Header>, date: seq<byte>, keepAlive: bool, framing: Framing)
    requires !framing.NoFraming?
    ensures var fields := Fields(cfg, headers, date, keepAlive, framing);
              (CountNamed(fields, CONTENT_LENGTH) + CountNamed(fields, TRANSFER_ENCODING) == 1
               <==> CountNamed(headers, TRANSFER_ENCODING) == 0)
  {
    hide Fields, CountNamed;
    FramingCounts(cfg, headers, date, keepAlive, framing);
  }

  // ---------------------------------------------------------------- the value of Content-Length

  function ParseDecimal(s: seq<byte>): Option<nat> {
    if s == [] then Some(0)
    else
      var n := |s| - 1;
      if !(48 <= s[n] <= 57) then None
      else
        match ParseDecimal(s[..n])
        case None => None
        case Some(hi) => Some(10 * hi + (s[n] as nat - 48))
  }

  /** A printed length reads back as the same number. */
  lemma {:induction false} DecimalRoundTrip(n: nat)
    ensures ParseDecimal(Decimal(n)) == Some(n)
  {
    if n < 10 {
      assert Decimal(n)[..0] == [];
    } else {
      DecimalRoundTrip(n / 10);
      assert Decimal(n)[..|Decimal(n)| - 1] == Decimal(n / 10);
    }
  }

  /** The value the parser finds in the Content-Length field is the length announced. */
  lemma ContentLengthRoundTrip(cfg: Config, headers: seq<Header>, date: seq<byte>, keepAlive: bool, n: nat)
    ensures var fields := AllTrimmed(Fields(cfg, headers, date, keepAlive, ContentLength(n)));
              |fields| >= 1 && Named(fields[|fields| - 1].name, CONTENT_LENGTH)
              && ParseDecimal(fields[|fields| - 1].value) == Some(n)
  {
    var fields := Fields(cfg, headers, date, keepAlive, ContentLength(n));
    assert fields[|fields| - 1] == Header(Cased(cfg, CONTENT_LENGTH), Decimal(n));
    LowerTwice(CONTENT_LENGTH);
    DecimalRoundTrip(n);
    assert !Blank(Decimal(n)[0]) && !Blank(Decimal(n)[|Decimal(n)| - 1]);
  }

  lemma FramingLines(cfg: Config, f: Framing)
    ensures match f
            case NoFraming => Lines(FramingFields(cfg, f)) == []
            case ContentLength(n) =>
              var line := Lines(FramingFields(cfg, f));
              |line| > 18 && line[0] in {67, 99} && line[16..|line| - 2] == Decimal(n)
            case ChunkedCoding => Lines(FramingFields(cfg, f)) != [] && Lines(FramingFields(cfg, f))[0] in {84, 116}
  {
    match f
    case NoFraming =>
    case ContentLength(n) => LinesOne(Header(Cased(cfg, CONTENT_LENGTH), Decimal(n)));
    case ChunkedCoding => LinesOne(Header(Cased(cfg, TRANSFER_ENCODING), CHUNKED));
  }

  lemma FramingLinesDiffer(cfg: Config, f: Framing, g: Framing)
    ensures Lines(FramingFields(cfg, f)) == Lines(FramingFields(cfg, g)) <==> f == g
  {
    hide Lines, FramingFields, Decimal;
    FramingLines(cfg, f);
    FramingLines(cfg, g);
    if f.ContentLength? { DecimalRoundTrip(f.n); }
    if g.ContentLength? { DecimalRoundTrip(g.n); }
  }

  /** Responses that end their bodies in different ways have different heads. */
  lemma FramingTold(cfg: Config, start: seq<byte>, headers: seq<Header>, date: seq<byte>, keepAlive: bool,
                    f: Framing, g: Framing)
    ensures Text(start, Fields(cfg, headers, date, keepAlive, f))
              == Text(start, Fields(cfg, headers, date, keepAlive, g))
            <==> f == g
  {
    hide AppFields, Has, Lines, FramingFields;
    var common := Fields(cfg, headers, date, keepAlive, NoFraming);
    NoFramingFields(cfg);
    assert forall h :: Fields(cfg, headers, date, keepAlive, h) == common + FramingFields(cfg, h) by {
      forall h ensures Fields(cfg, headers, date, keepAlive, h) == common + FramingFields(cfg, h) {
        assert common + FramingFields(cfg, h) == Fields(cfg, headers, date, keepAlive, h);
      }
    }
    LinesAppend(common, FramingFields(cfg, f));
    LinesAppend(common, FramingFields(cfg, g));
    var p, a, b := start + CRLF + Lines(common), Lines(FramingFields(cfg, f)), Lines(FramingFields(cfg, g));
    assert Text(start, common + FramingFields(cfg, f)) == p + a + CRLF;
    assert Text(start, common + FramingFields(cfg, g)) == p + b + CRLF;
    if p + a + CRLF == p + b + CRLF {
      assert a == (p + a + CRLF)[|p|..|p + a + CRLF| - 2] == b;
    }
    FramingLinesDiffer(cfg, f, g);
  }

  lemma NoFramingFields(cfg: Config)
    ensures FramingFields(cfg, NoFraming) == []
  {
  }

  // ---------------------------------------------------------------- what the client is told

  lemma TrimLeftOnce(v: seq<byte>)
    ensures v != [] && Blank(v[0]) ==> TrimLeft(v) == TrimLeft(v[1..])
    ensures v == [] || !Blank(v[0]) ==> TrimLeft(v) == v
  {
  }

  lemma TrimRightOnce(v: seq<byte>)
    ensures v != [] && Blank(v[|v| - 1]) ==> TrimRight(v) == TrimRight(v[..|v| - 1])
    ensures v == [] || !Blank(v[|v| - 1]) ==> TrimRight(v) == v
  {
  }

  /** A value is read without the blanks and tabs around it, and as it is between them. */
  lemma {:induction false} TrimCore(a: seq<byte>, v: seq<byte>, b: seq<byte>)
    requires forall i :: 0 <= i < |a| ==> a[i] == 32 || a[i] == 9
    requires forall i :: 0 <= i < |b| ==> b[i] == 32 || b[i] == 9
    requires v != [] ==> v[0] !in {32, 9} && v[|v| - 1] !in {32, 9}
    ensures Trim(a + v + b) == v
    decreases |a| + |b|
  {
    hide TrimLeft, TrimRight;
    var all := a + v + b;
    if a != [] {
      assert all[1..] == a[1..] + v + b;
      TrimLeftOnce(all);
      TrimCore(a[1..], v, b);
    } else if v == [] && b != [] {
      assert all == b && b[1..] == [] + v + b[1..];
      TrimLeftOnce(all);
      TrimCore([], v, b[1..]);
    } else if b != [] {
      var n := |b| - 1;
      assert all == v + b && all[..|all| - 1] == a + v + b[..n];
      TrimLeftOnce(all);
      TrimLeftOnce(a + v + b[..n]);
      TrimRightOnce(all);
      TrimCore(a, v, b[..n]);
    } else {
      assert all == v;
      TrimLeftOnce(v);
      TrimRightOnce(v);
    }
  }

  /** The name, whatever its case; `name` is in lower case. */
  predicate Is(h: Header, name: string)
    requires forall i :: 0 <= i < |name| ==> name[i] < 128 as char
  {
    Lower(h.name) == Ascii(name)
  }

  /** The headers of the app's that are passed on, in order. */
  function PassedOn(headers: seq<Header>): seq<Header> {
    if headers == [] then []
    else (if Is(headers[0], "content-length") || Is(headers[0], "connection") then [] else [headers[0]])
         + PassedOn(headers[1..])
  }

  /** A header of the app's as a client reads it: the value is the app's, behind the server's own in a Server
      header. */
  predicate Conveys(cfg: Config, h: Header, read: Header) {
    && read.name == (if cfg.lower then Lower(h.name) else h.name)
    && read.value == Trim(if Is(h, "server") && cfg.server != [] then cfg.server + [32] + h.value else h.value)
  }

  function Added(cfg: Config, name: string, value: seq<byte>): Header
    requires forall i :: 0 <= i < |name| ==> name[i] < 128 as char
  {
    Header(if cfg.lower then Lower(Ascii(name)) else Ascii(name), value)
  }

  predicate AnyIs(headers: seq<Header>, name: string)
    requires forall i :: 0 <= i < |name| ==> name[i] < 128 as char
  {
    exists i :: 0 <= i < |headers| && Is(headers[i], name)
  }

  /** What a client reads behind the app's headers. */
  function AddedFields(cfg: Config, headers: seq<Header>, date: seq<byte>, keepAlive: bool,
                       framing: Framing): seq<Header> {
    (if cfg.addDate && !AnyIs(headers, "date") then [Added(cfg, "Date", Trim(date))] else [])
    + (if cfg.server != [] && !AnyIs(headers, "server") then [Added(cfg, "Server", Trim(cfg.server))] else [])
    + [Added(cfg, "Connection", if keepAlive && cfg.allowKeepalive then Ascii("keep-alive") else Ascii("close"))]
    + match framing
      case NoFraming => []
      case ContentLength(n) => [Added(cfg, "Content-Length", Decimal(n))]
      case ChunkedCoding => [Added(cfg, "Transfer-Encoding", Ascii("chunked"))]
  }

  /** The fields tell the client what the app gave and what the server adds. */
  predicate Tells(cfg: Config, headers: seq<Header>, date: seq<byte>, keepAlive: bool, framing: Framing,
                  fields: seq<Header>) {
    var passed := PassedOn(headers);
    && |passed| <= |fields| && (forall i :: 0 <= i < |passed| ==> Conveys(cfg, passed[i], fields[i]))
    && fields[|passed|..] == AddedFields(cfg, headers, date, keepAlive, framing)
  }

  lemma SpellLength()
    ensures CONTENT_LENGTH == Ascii("Content-Length") && Lower(CONTENT_LENGTH) == Ascii("content-length")
  {
  }

  lemma SpellConnection()
    ensures CONNECTION == Ascii("Connection") && Lower(CONNECTION) == Ascii("connection")
    ensures KEEP_ALIVE == Ascii("keep-alive") && CLOSE == Ascii("close")
  {
  }

  lemma SpellDate()
    ensures DATE == Ascii("Date") && Lower(DATE) == Ascii("date")
  {
  }

  lemma SpellServer()
    ensures SERVER == Ascii("Server") && Lower(SERVER) == Ascii("server")
  {
  }

  lemma SpellCoding()
    ensures TRANSFER_ENCODING == Ascii("Transfer-Encoding") && CHUNKED == Ascii("chunked")
  {
  }

  lemma {:induction false} PassedSnoc(headers: seq<Header>, h: Header)
    ensures PassedOn(headers + [h]) ==
            PassedOn(headers) + if Is(h, "content-length") || Is(h, "connection") then [] else [h]
  {
    if headers == [] {
      assert [h][1..] == [] && [] + [h] == [h];
    } else {
      assert (headers + [h])[1..] == headers[1..] + [h];
      PassedSnoc(headers[1..], h);
    }
  }

  lemma {:induction false} AppFieldsTold(cfg: Config, headers: seq<Header>)
    ensures |AppFields(cfg, headers)| == |PassedOn(headers)|
    ensures forall i :: 0 <= i < |PassedOn(headers)| ==>
              Conveys(cfg, PassedOn(headers)[i], Trimmed(AppFields(cfg, headers)[i]))
  {
    if headers != [] {
      var n := |headers| - 1;
      var before, h := headers[..n], headers[n];
      AppFieldsTold(cfg, before);
      PassedSnoc(before, h);
      assert before + [h] == headers;
      PrintedTold(cfg, h);
      hide PassedOn, Conveys, Is, Dropped, Printed, Trimmed;
      assert forall i :: 0 <= i < |AppFields(cfg, before)| ==> AppFields(cfg, headers)[i] == AppFields(cfg, before)[i];
    }
  }

  lemma PrintedTold(cfg: Config, h: Header)
    ensures Dropped(h) <==> Is(h, "content-length") || Is(h, "connection")
    ensures Conveys(cfg, h, Trimmed(Printed(cfg, h)))
  {
    hide Trim, Ascii;
    SpellLength();
    SpellConnection();
    SpellServer();
  }

  lemma HasIs(headers: seq<Header>)
    ensures Has(headers, DATE) <==> AnyIs(headers, "date")
    ensures Has(headers, SERVER) <==> AnyIs(headers, "server")
  {
    hide Lower, Ascii;
    SpellDate();
    SpellServer();
  }

  /** Values of the server's own have no blanks around them. */
  lemma Tight(v: seq<byte>)
    requires v != [] && !Blank(v[0]) && !Blank(v[|v| - 1])
    ensures Trim(v) == v
  {
  }

  lemma TrimmedAppend(a: seq<Header>, b: seq<Header>)
    ensures AllTrimmed(a + b) == AllTrimmed(a) + AllTrimmed(b)
  {
  }

  lemma FramingFieldsTold(cfg: Config, framing: Framing)
    ensures AllTrimmed(FramingFields(cfg, framing)) ==
            match framing
            case NoFraming => []
            case ContentLength(n) => [Added(cfg, "Content-Length", Decimal(n))]
            case ChunkedCoding => [Added(cfg, "Transfer-Encoding", Ascii("chunked"))]
  {
    hide Trim, Lower, Ascii, Decimal;
    SpellLength();
    SpellCoding();
    Tight(CHUNKED);
    if framing.ContentLength? { Tight(Decimal(framing.n)); }
  }

  lemma ConnectionTold(cfg: Config, keep: bool)
    ensures AllTrimmed([Header(Cased(cfg, CONNECTION), if keep then KEEP_ALIVE else CLOSE)])
            == [Added(cfg, "Connection", if keep then Ascii("keep-alive") else Ascii("close"))]
  {
    hide Trim, Lower, Ascii;
    SpellConnection();
    Tight(KEEP_ALIVE);
    Tight(CLOSE);
  }

  lemma DateTold(cfg: Config, date: seq<byte>)
    ensures AllTrimmed([Header(Cased(cfg, DATE), date)]) == [Added(cfg, "Date", Trim(date))]
    ensures AllTrimmed([Header(Cased(cfg, SERVER), cfg.server)]) == [Added(cfg, "Server", Trim(cfg.server))]
    ensures AllTrimmed([]) == []
  {
    hide Trim, Lower, Ascii;
    SpellDate();
    SpellServer();
  }

  lemma OwnFieldsTold(cfg: Config, headers: seq<Header>, date: seq<byte>, keepAlive: bool, framing: Framing)
    ensures AllTrimmed(OwnFields(cfg, headers, date, keepAlive, framing))
            == AddedFields(cfg, headers, date, keepAlive, framing)
  {
    hide AllTrimmed, Has, AnyIs, Added, Cased, Trim, FramingFields, Ascii, OwnFields;
    OwnParts(cfg, headers, date, keepAlive, framing);
    HasIs(headers);
    var d := if !Has(headers, DATE) && cfg.addDate then [Header(Cased(cfg, DATE), date)] else [];
    var s := if !Has(headers, SERVER) && cfg.server != [] then [Header(Cased(cfg, SERVER), cfg.server)] else [];
    var c := [Header(Cased(cfg, CONNECTION), if keepAlive && cfg.allowKeepalive then KEEP_ALIVE else CLOSE)];
    TrimmedAppend(d + s + c, FramingFields(cfg, framing));
    TrimmedAppend(d + s, c);
    TrimmedAppend(d, s);
    DateTold(cfg, date);
    ConnectionTold(cfg, keepAlive && cfg.allowKeepalive);
    FramingFieldsTold(cfg, framing);
  }

  /** The head that build_response prints is read as what the app gave and what the server adds, whatever
      follows it. */
  lemma HeadTells(cfg: Config, start: seq<byte>, headers: seq<Header>, date: seq<byte>, keepAlive: bool,
                  framing: Framing, rest: seq<byte>)
    requires OneLine(start) && Sound(cfg, date)
    requires forall i :: 0 <= i < |headers| ==> Printable(headers[i])
    ensures var parsed := Parse(Text(start, Fields(cfg, headers, date, keepAlive, framing)) + rest);
              && parsed.Some? && parsed.value.start == start && parsed.value.rest == rest
              && Tells(cfg, headers, date, keepAlive, framing, parsed.value.fields)
  {
    hide Parse, Text, Fields, Tells, Printable;
    HeadRoundTrip(cfg, start, headers, date, keepAlive, framing, rest);
    FieldsTell(cfg, headers, date, keepAlive, framing);
  }

  lemma FieldsTell(cfg: Config, headers: seq<Header>, date: seq<byte>, keepAlive: bool, framing: Framing)
    ensures Tells(cfg, headers, date, keepAlive, framing, AllTrimmed(Fields(cfg, headers, date, keepAlive, framing)))
  {
    hide AppFields, OwnFields, AddedFields, PassedOn, Conveys, Trimmed;
    var app, own := AppFields(cfg, headers), OwnFields(cfg, headers, date, keepAlive, framing);
    AppFieldsTold(cfg, headers);
    OwnFieldsTold(cfg, headers, date, keepAlive, framing);
    var all := AllTrimmed(app + own);
    assert all[|app|..] == AllTrimmed(own);
    assert forall i :: 0 <= i < |app| ==> all[i] == Trimmed(app[i]);
  }

  /** The status that a start line states (section 4 of RFC 9112). */
  function StatusIn(start: seq<byte>): Option<nat> {
    if |start| >= 12 && start[8] == 32 then ParseDecimal(start[9..12]) else None
  }

  /** A status of three digits is read from the line that states it. */
  lemma StatusStated(status: nat, name: seq<byte>)
    requires 100 <= status < 1000
    ensures StatusIn(Ascii("HTTP/1.1 ") + Decimal(status) + [32] + name) == Some(status)
  {
    hide ParseDecimal;
    ThreeDigits(status);
    var start := Ascii("HTTP/1.1 ") + Decimal(status) + [32] + name;
    assert start[9..12] == Decimal(status);
    DecimalRoundTrip(status);
  }

  lemma ThreeDigits(n: nat)
    requires 100 <= n < 1000
    ensures |Decimal(n)| == 3
  {
    assert |Decimal(n / 100)| == 1 && |Decimal(n / 10)| == 2;
  }
}
