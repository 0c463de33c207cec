/**
 How a request is put together from what the HTTP parser reports: the meaning of the reports, and the
 callbacks of fastwsgi/request.c that get them in fragments (WSGI side).
 */
module Request {
  import opened Bytes
  import opened Unicode
  import UriDecode
  import Head

  const URL_LIMIT: nat := 16 * 1024
  const FIELDS_LIMIT: nat := 32 * 1024
  const UNDERSCORE: byte := 95
  const DASH: byte := 45
  const HTTP: seq<byte> := [72, 84, 84, 80]
  const HTTP_: seq<byte> := [72, 84, 84, 80, 95]
  const CONNECT: seq<byte> := [67, 79, 78, 78, 69, 67, 84]
  const OPTIONS: seq<byte> := [79, 80, 84, 73, 79, 78, 83]
  const CONTENT_LENGTH: seq<byte> := [67, 79, 78, 84, 69, 78, 84, 95, 76, 69, 78, 71, 84, 72]
  const CONTENT_TYPE: seq<byte> := [67, 79, 78, 84, 69, 78, 84, 95, 84, 89, 80, 69]
  const TRANSFER_ENCODING: seq<byte> := [84, 82, 65, 78, 83, 70, 69, 82, 95, 69, 78, 67, 79, 68, 73, 78, 71]
  const EXPECT: seq<byte> := [69, 88, 80, 69, 67, 84]
  const HOST: seq<byte> := [72, 79, 83, 84]
  const CHUNKED: seq<byte> := [99, 104, 117, 110, 107, 101, 100]
  const CONTINUE: seq<byte> := [49, 48, 48, 45, 99, 111, 110, 116, 105, 110, 117, 101]

  // ---------------------------------------------------------------- what the parser reports

  datatype Kind = Url | Protocol | Field | Value | BodyData

  /** One report: a byte of some element, or the end of one. HeadersEnd carries the value of
      Content-Length (or 0), and both ends whether the connection can be kept. Invalid input can be a version
      of HTTP that there is not. */
  datatype Token =
    | Begin | Method(name: seq<byte>) | Data(kind: Kind, b: byte) | UrlEnd | ProtocolEnd
    | Version(major: nat, minor: nat) | FieldEnd | ValueEnd
    | HeadersEnd(length: nat, keepAlive: bool) | MessageEnd(keepAlive: bool)
    | Invalid(version: bool)

  datatype Phase = Idle | InLine | InProto | InVersion | Fields(open: bool) | InName(open: bool) | InValue(open: bool)

  /** The order in which reports come; `open` is set once the headers ended. */
  function Next(p: Phase, t: Token): Option<Phase> {
    match t
    case Begin => if p == Idle then Some(InLine) else None
    case Method(_) => if p == InLine then Some(InLine) else None
    case UrlEnd => if p == InLine then Some(InProto) else None
    case ProtocolEnd => if p == InProto then Some(InVersion) else None
    case Version(_, _) => if p == InVersion then Some(Fields(false)) else None
    case FieldEnd => if p.InName? then Some(InValue(p.open)) else None
    case ValueEnd => if p.InValue? then Some(Fields(p.open)) else None
    case HeadersEnd(_, _) => if p == Fields(false) then Some(Fields(true)) else None
    case MessageEnd(_) => if p == Fields(true) then Some(Idle) else None
    case Invalid(version) => if version && p != InVersion then None else Some(p)
    case Data(k, _) => NextData(p, k)
  }

  function NextData(p: Phase, k: Kind): Option<Phase> {
    match k
    case Url => if p == InLine then Some(p) else None
    case Protocol => if p == InProto then Some(p) else None
    case Field => if p.Fields? || p.InName? then Some(InName(p.open)) else None
    case Value => if p.InValue? then Some(p) else None
    case BodyData => if p == Fields(true) then Some(p) else None
  }

  // ---------------------------------------------------------------- what the reports mean

  /** Keys of the environ; a header's key has its prefix, if it has one. */
  datatype Key = PathInfo | QueryString | RequestMethod | RemoteAddr | Header(name: seq<byte>)

  type Env = map<Key, seq<byte>>

  /** What the server is set up with; `root` is its root_path, or empty. */
  datatype Limits = Limits(maxHeaders: nat, maxContentLength: nat, base: Env, remoteAddr: seq<byte>, root: seq<byte>)

  /** A request in the making: `token` is what is known of the current element and `name` the name of the
      header whose value is being read, unless that header is left out. `length` is -1 without a
      Content-Length header. */
  datatype Msg = Msg(verb: seq<byte>, minor: nat, token: seq<byte>, name: Option<seq<byte>>, count: nat, env: Env,
                     host: Option<seq<byte>>, length: int, chunked: bool, waits: bool, body: seq<byte>)

  /** What a report leads to; a request that cannot be served stops with its HTTP status. */
  datatype Res = Go(m: Msg) | Stop(status: int)

  datatype Served = Served(env: Env, body: seq<byte>, keepAlive: bool)
  /** What comes of a message: a call of the app, or the refusal of an expectation (417). */
  datatype Event = Dispatch(req: Served) | Reject(keepAlive: bool)

  /** The status that an error of the connection stands for. */
  function StatusOf(error: int): int {
    if 400 <= error < 600 then error else 400
  }

  function New(lim: Limits): Msg {
    Msg([], 0, [], None, 0, lim.base, None, -1, false, false, [])
  }

  /** More bytes of an element, `s` of them at once. */
  function Feed(lim: Limits, m: Msg, k: Kind, s: seq<byte>): Res {
    if s == [] then Go(m) else
    match k
    case Url => if |m.token| + |s| >= URL_LIMIT then Stop(414) else Go(m.(token := m.token + s))
    case Protocol => if |m.token| + |s| > 4 then Stop(400) else Go(m.(token := m.token + s))
    case Field => if 5 + |m.token| + |s| >= FIELDS_LIMIT then Stop(431) else Go(m.(token := m.token + s))
    case Value =>
      if m.name.None? then Go(m)
      else if |m.name.value| + 6 + |m.token| + |s| >= FIELDS_LIMIT then Stop(431)
      else Go(m.(token := m.token + s))
    case BodyData => if |m.body| + |s| > lim.maxContentLength then Stop(400) else Go(m.(body := m.body + s))
  }

  /** Whether an element's bytes come in one piece or in two makes no difference. */
  lemma FeedSplit(lim: Limits, m: Msg, k: Kind, a: seq<byte>, b: seq<byte>)
    ensures Feed(lim, m, k, a + b) ==
            match Feed(lim, m, k, a)
            case Stop(status) => Stop(status)
            case Go(next) => Feed(lim, next, k, b)
  {
    assert a == [] ==> a + b == b;
    assert b == [] ==> a + b == a;
    assert m.token + (a + b) == m.token + a + b;
    assert m.body + (a + b) == m.body + a + b;
  }

  lemma FeedNone(lim: Limits, m: Msg, k: Kind)
    ensures Feed(lim, m, k, []) == Go(m)
  {
  }

  /** A fragment of a header name as the server takes it: the prefix "HTTP_" is not counted before the
      first one. */
  function FeedName(m: Msg, s: seq<byte>): Res {
    if s == [] then Go(m)
    else if (if m.token == [] then 0 else 5 + |m.token|) + |s| >= FIELDS_LIMIT then Stop(431)
    else Go(m.(token := m.token + s))
  }

  /** So the limit depends on how a name is cut exactly for names within five bytes of it. */
  lemma NameLimit(lim: Limits, m: Msg, s: seq<byte>)
    ensures FeedName(m, s) == Feed(lim, m, Field, s)
            <==> m.token != [] || s == [] || !(FIELDS_LIMIT - 5 <= |s| < FIELDS_LIMIT)
  {
  }

  lemma HeaderNamed(m: Msg)
    ensures m.name.None? ==> HeaderDone(m) == Go(m.(token := []))
  {
  }

  /** What a header's end leaves alone. */
  lemma HeaderDoneKeeps(m: Msg)
    requires HeaderDone(m).Go?
    ensures var n := HeaderDone(m).m;
              n == m.(token := [], name := None, env := n.env, host := n.host, length := n.length,
                      chunked := n.chunked, waits := n.waits)
  {
  }

  /** The path is what precedes the first '?'. */
  function PathLength(url: seq<byte>): (n: nat)
    ensures n <= |url|
    ensures (63 as byte) !in url[..n] && (n < |url| ==> url[n] == 63)
  {
    if url == [] || url[0] == 63 then 0 else
      var n := 1 + PathLength(url[1..]);
      assert url[..n] == [url[0]] + url[1..][..n - 1];
      n
  }

  datatype PathRes = Path(bytes: seq<byte>) | NoPath(status: int)

  /** The path as the app gets it. With a root path that path itself is served, and nothing below it. */
  function TakePath(lim: Limits, path: seq<byte>): PathRes {
    if (92 as byte) in path then NoPath(400)
    else match UriDecode.DecodePath(path)
      case Failed(_) => NoPath(400)
      case Decoded(bytes) =>
        if lim.root != [] then (if bytes == lim.root then Path([47]) else NoPath(404))
        else if Utf8(bytes) then Path(bytes) else NoPath(400)
  }

  function UrlDone(lim: Limits, m: Msg): Res {
    var n := PathLength(m.token);
    var path := m.token[..n];
    if (35 as byte) in m.token || n == 0 || (m.verb != OPTIONS && (42 as byte) in path) then Stop(400)
    else match TakePath(lim, path)
      case NoPath(status) => Stop(status)
      case Path(bytes) =>
        var env := m.env[PathInfo := bytes];
        Go(m.(token := [], env := if n + 1 < |m.token| then env[QueryString := m.token[n + 1..]] else env))
  }

  lemma UrlStops(lim: Limits, m: Msg)
    ensures UrlDone(lim, m).Stop? ==> UrlDone(lim, m).status in {400, 404}
  {
    hide PathLength, UriDecode.DecodePath, Utf8;
  }

  function NameByte(b: byte): byte {
    if b >= 127 then b else if b == DASH then UNDERSCORE else ToUpper(b)
  }

  /** A header's name as the app sees it, without the prefix. */
  function EnvName(name: seq<byte>): (r: seq<byte>)
    ensures |r| == |name|
  {
    seq(|name|, i requires 0 <= i < |name| => NameByte(name[i]))
  }

  lemma MangledEnds(name: seq<byte>)
    ensures EnvName(name)[..0] == [] && EnvName(name)[..|name|] == EnvName(name)
    ensures name[0..] == name && name[|name|..] == []
  {
  }

  /** One byte of a name more. */
  lemma ManglesNext(prefix: seq<byte>, name: seq<byte>, k: nat)
    requires k < |name|
    ensures var before := prefix + EnvName(name)[..k] + name[k..];
            var after := prefix + EnvName(name)[..k + 1] + name[k + 1..];
              before[|prefix| + k] == name[k] && after == before[|prefix| + k := NameByte(name[k])]
  {
  }

  /** Names with an underscore could pass for others and are left out. */
  function FieldDone(lim: Limits, m: Msg): Res {
    if m.count + 1 > lim.maxHeaders then Stop(431)
    else
      var name := if UNDERSCORE in m.token then None else Some(EnvName(m.token));
      Go(m.(count := m.count + 1, token := [], name := name))
  }

  predicate GoodHost(v: seq<byte>) {
    v != [] && (44 as byte) !in v && (64 as byte) !in v && (47 as byte) !in v
  }

  function HeaderDone(m: Msg): Res {
    var next := m.(token := [], name := None);
    match m.name
    case None => Go(next)
    case Some(name) =>
      if name == TRANSFER_ENCODING then
        if m.token == CHUNKED then Go(next.(chunked := true)) else Stop(400)
      else if name == EXPECT then
        if m.token == CONTINUE && m.minor != 0 then Go(next.(waits := true)) else Stop(417)
      else if name == CONTENT_LENGTH then Go(next.(env := m.env[Header(name) := m.token], length := 0))
      else if name == CONTENT_TYPE then Go(next.(env := m.env[Header(name) := m.token]))
      else if name == HOST && (m.host.Some? || !GoodHost(m.token)) then Stop(400)
      else Go(next.(env := m.env[Header(HTTP_ + name) := m.token],
                    host := if name == HOST then Some(m.token) else m.host))
  }

  /** The body is too long and the client waits to hear that. */
  predicate Refuses(lim: Limits, m: Msg, length: nat) {
    m.host.Some? && length > lim.maxContentLength && m.waits
  }

  function HeadersDone(lim: Limits, m: Msg, length: nat): Res {
    if m.host.None? || (length > lim.maxContentLength && !m.waits) then Stop(400)
    else if length > lim.maxContentLength then Go(m)
    else Go(m.(length := if m.length >= 0 then length else m.length, waits := false))
  }

  lemma HeadersDoneIs(lim: Limits, m: Msg, length: nat)
    ensures var res := HeadersDone(lim, m, length);
              if m.host.None? || (length > lim.maxContentLength && !m.waits) then res == Stop(400)
              else res.Go? && res.m == m.(length := res.m.length, waits := res.m.waits)
  {
  }

  function MessageDone(m: Msg): Res {
    if m.length >= 0 && |m.body| != m.length then Stop(400) else Go(m)
  }

  function Finished(lim: Limits, m: Msg, keepAlive: bool): Served {
    var env := m.env[RequestMethod := m.verb];
    var env' := if lim.remoteAddr == [] then env else env[RemoteAddr := lim.remoteAddr];
    Served(if m.chunked && m.length < 0 then env'[Header(CONTENT_LENGTH) := Head.Decimal(|m.body|)] else env',
           m.body, keepAlive)
  }

  /** A report other than a byte. */
  function Mark(lim: Limits, m: Msg, t: Token): Res
    requires !t.Data?
  {
    match t
    case Begin => Go(New(lim))
    case Method(name) => if name == CONNECT then Stop(501) else Go(m.(verb := name))
    case UrlEnd => UrlDone(lim, m)
    case ProtocolEnd => if m.token == HTTP then Go(m.(token := [])) else Stop(400)
    case Version(major, minor) => if major != 1 then Stop(505) else Go(m.(minor := minor))
    case FieldEnd => FieldDone(lim, m)
    case ValueEnd => HeaderDone(m)
    case HeadersEnd(length, _) => HeadersDone(lim, m, length)
    case MessageEnd(_) => MessageDone(m)
    case Invalid(version) => Stop(if version then 505 else 400)
  }

  lemma MarkEnds(lim: Limits, m: Msg)
    ensures Mark(lim, m, Begin) == Go(New(lim))
    ensures Mark(lim, m, Invalid(false)) == Stop(400) && Mark(lim, m, Invalid(true)) == Stop(505)
  {
  }

  // ---------------------------------------------------------------- the callbacks

  const HPE_PAUSED: int := 21

  class Parsing {
    const lim: Limits
    var error: int
    var head: seq<byte>      // the buffer `head`, an Xbuf
    var keyLen: nat
    var valLen: nat
    var headersNum: nat
    var verb: seq<byte>     // request.method
    var minor: nat           // parser->http_minor
    var headers: Env
    var host: Option<seq<byte>>
    var httpContentLength: int
    var chunked: bool
    var expectContinue: bool
    var input: seq<byte>     // wsgi_input, up to wsgi_input_size
    var keepAlive: bool
    var loadState: nat
    var startTime: nat
    var updateTime: nat
    var lastChunkTime: nat

    ghost var phase: Phase
    ghost var msg: Msg

    /** What the buffer holds in each phase. */
    ghost predicate Buffered()
      reads `head, `keyLen, `valLen, `phase, `msg
    {
      match phase
      case InName(_) => msg.token != [] && head == HTTP_ + msg.token && keyLen == |head| && valLen == 0
      case InValue(_) =>
        if msg.name.None? then head == [] && keyLen == valLen == 0 && msg.token == []
        else
          && msg.name.value != [] && head == HTTP_ + msg.name.value + [0] + msg.token
          && keyLen == 5 + |msg.name.value| && valLen == |msg.token|
      case _ => head == msg.token && keyLen == valLen == 0 && (phase.Fields? || phase == InVersion ==> head == [])
    }

    /** The fields are those of `m`, leaving aside the element being read. */
    ghost predicate Holds(m: Msg)
      reads `headersNum, `verb, `headers, `host, `httpContentLength, `chunked, `expectContinue, `input
    {
      && headersNum == m.count && verb == m.verb && headers == m.env && host == m.host
      && httpContentLength == m.length && chunked == m.chunked && expectContinue == m.waits && input == m.body
    }

    lemma HoldsMeans(m: Msg)
      requires Holds(m)
      ensures host == m.host && expectContinue == m.waits
    {
    }

    lemma TokenAside(m: Msg, token: seq<byte>)
      ensures Holds(m.(token := token)) == Holds(m)
      ensures forall name :: Holds(m.(token := token, name := name)) == Holds(m)
    {
    }

    /** The fields are those of the request in the making. */
    ghost predicate Same()
      reads this
    {
      Holds(msg) && (phase.Fields? || phase.InName? || phase.InValue? ==> minor == msg.minor)
    }

    ghost predicate Valid()
      reads this
    {
      phase != Idle ==> error == 0 && Buffered() && Same()
    }

    constructor (lim: Limits, now: nat)
      ensures this.lim == lim && Valid() && phase == Idle && loadState == 0 && error == 0
      ensures startTime == updateTime == now && lastChunkTime == 0
    {
      this.lim := lim;
      error, head, keyLen, valLen, headersNum, verb, minor := 0, [], 0, 0, 0, [], 0;
      headers, host, httpContentLength, chunked, expectContinue := lim.base, None, -1, false, false;
      input, keepAlive, loadState, startTime, updateTime, lastChunkTime := [], false, 0, now, now, 0;
      phase, msg := Idle, New(lim);
    }

    /** What a callback did: the request went on to `m`, or it stopped with a status. */
    ghost predicate Did(rc: int, res: Res)
      reads this
    {
      match res
      case Go(m) => rc >= 0 && Valid() && msg == m && error == 0
      case Stop(status) => rc < 0 && status == StatusOf(error)
    }

    method ResetHead()
      modifies `head, `keyLen, `valLen
      ensures head == [] && keyLen == valLen == 0
    {
      head, keyLen, valLen := [], 0, 0;
    }

    /** The part of on_message_begin that forgets the request before. */
    method ForgetRequest()
      modifies `headers, `httpContentLength, `chunked, `expectContinue, `headersNum, `verb, `host, `input
      ensures Holds(New(lim))
    {
      headers, httpContentLength, chunked, expectContinue := lim.base, -1, false, false;
      headersNum, verb, host, input := 0, [], None, [];
    }

    method StartRequest()
      modifies `headers, `httpContentLength, `chunked, `expectContinue, `headersNum, `verb, `host, `input
      modifies `head, `keyLen, `valLen, `msg, `phase
      ensures msg == New(lim) && phase == InLine && Buffered() && Same()
    {
      hide Holds;
      ForgetRequest();
      ResetHead();
      msg, phase := New(lim), InLine;
    }

    method StartTimers(now: nat)
      modifies `startTime, `updateTime, `lastChunkTime
      ensures startTime == updateTime == now && lastChunkTime == 0
    {
      startTime, updateTime, lastChunkTime := now, now, 0;
    }

    /** `sending` says whether the connection is in state CS_RESP_SEND; read_cb has left that state. */
    method OnMessageBegin(now: nat, sending: bool) returns (rc: int)
      requires phase == Idle
      modifies this
      ensures Did(rc, if sending then Stop(400) else Go(New(lim))) && (rc >= 0 ==> rc == 0 && phase == InLine)
      ensures startTime == updateTime == now && lastChunkTime == 0 && loadState == 1 && keepAlive == old(keepAlive)
    {
      hide UrlDone, FieldDone, HeaderDone, HeadersDone, MessageDone, Buffered, Same, New;
      StartTimers(now);
      loadState := 1;
      error := 0;
      if sending {
        error := 1;
        return -1;
      }
      StartRequest();
      return 0;
    }

    method OnMethodComplete(name: seq<byte>) returns (rc: int)
      requires Valid() && phase == InLine
      modifies `verb, `error, `msg
      ensures Did(rc, Mark(lim, old(msg), Method(name)))
    {
      hide UrlDone, FieldDone, HeaderDone, HeadersDone, MessageDone;
      verb := name;
      if name == CONNECT {
        error := 501;
        return -1;
      }
      msg := msg.(verb := name);
      return 0;
    }

    method OnUrl(data: seq<byte>) returns (rc: int)
      requires Valid() && phase == InLine
      modifies `head, `error, `msg
      ensures Did(rc, Feed(lim, old(msg), Url, data))
    {
      if |data| > 0 {
        if |head| + |data| >= 16 * 1024 {
          error := 414;
          return -1;
        }
        head := head + data;
        msg := msg.(token := head);
      }
      assert old(msg).token + data == msg.token;
      return 0;
    }

    /** memcmp(value, root_path.str, |value|) == 0: the array holds the root path and then zeros. */
    predicate SameAsRoot(value: seq<byte>) {
      && (forall i :: 0 <= i < |value| && i < |lim.root| ==> value[i] == lim.root[i])
      && (forall i :: |lim.root| <= i < |value| ==> value[i] == 0)
    }

    /** set_header for PATH_INFO: the path is decoded where it stands. The root path is compared over the whole
        length of the path. */
    method SetPath(path: seq<byte>) returns (hr: int)
      modifies `headers
      ensures match TakePath(lim, path)
              case Path(bytes) => hr == 0 && headers == old(headers)[PathInfo := bytes]
              case NoPath(status) => hr != 0 && headers == old(headers) && status == if hr < 0 then 400 else hr
    {
      if (92 as byte) in path { return -41; }
      var value := path;
      if UriDecode.PERCENT in path {
        var buf := new byte[|path|](i requires 0 <= i < |path| => path[i]);
        assert buf[..|path|] == path;
        var newLen := UriDecode.DecodeInPlace(buf, |path|, true, 100);
        if newLen < 0 { return -45; }
        value := buf[..newLen];
      } else {
        UriDecode.NoEscapes(path);
      }
      if |lim.root| > 0 {
        if |value| < |lim.root| { return 404; }
        if !SameAsRoot(value) { return 404; }
        if |value| == |lim.root| {
          headers := headers[PathInfo := [47]];
          return 0;
        }
        if value[|lim.root|] != 47 { return 404; }
        assert false;  // what follows the root path would be left, but the comparison took in its '/'
      }
      if !Utf8(value) { return -68; }
      headers := headers[PathInfo := value];
      return 0;
    }

    /** What on_url_complete does with the target of the request. */
    method TakeUrl(url: seq<byte>) returns (rc: int)
      requires url == msg.token && Holds(msg)
      modifies `headers
      ensures match UrlDone(lim, msg)
              case Go(m) => rc == 0 && Holds(m) && m.token == []
              case Stop(status) => rc != 0 && status == if rc < 0 then 400 else rc
    {
      hide PathLength, UriDecode.DecodePath, Utf8, TakePath;
      if (35 as byte) in url { return -1; }
      var n := PathLength(url);
      var path := url[..n];
      if n == 0 || (verb != OPTIONS && (42 as byte) in path) { return -1; }
      rc := SetPath(path);
      if rc == 0 && n + 1 < |url| {
        headers := headers[QueryString := url[n + 1..]];
      }
    }

    method OnUrlComplete() returns (rc: int)
      requires Valid() && phase == InLine
      modifies `loadState, `error, `head, `keyLen, `valLen, `headers, `msg, `phase
      ensures Did(rc, UrlDone(lim, old(msg))) && (rc >= 0 ==> phase == InProto)
      ensures loadState == 2
    {
      hide UrlDone, FieldDone, HeaderDone, HeadersDone, MessageDone, Holds;
      loadState := 2;
      rc := TakeUrl(head);
      UrlStops(lim, msg);
      if rc != 0 {
        error := if rc < 0 then 400 else rc;
        rc := -1;
      } else {
        msg, phase := UrlDone(lim, msg).m, InProto;
      }
      ResetHead();
    }

    method OnProtocol(data: seq<byte>) returns (rc: int)
      requires Valid() && phase == InProto
      modifies `head, `error, `msg
      ensures Did(rc, Feed(lim, old(msg), Protocol, data))
    {
      if |data| > 0 {
        if |head| + |data| > 4 {
          error := 400;
          return -1;
        }
        head := head + data;
        msg := msg.(token := head);
      }
      return 0;
    }

    method OnProtocolComplete() returns (rc: int)
      requires Valid() && phase == InProto
      modifies `error, `head, `keyLen, `valLen, `msg, `phase
      ensures Did(rc, Mark(lim, old(msg), ProtocolEnd)) && (rc >= 0 ==> phase == InVersion)
    {
      hide UrlDone, FieldDone, HeaderDone, HeadersDone, MessageDone;
      if |head| <= 0 || |head| > 4 || head[0] != 72 || head != HTTP {
        error := 400;
        return -1;
      }
      ResetHead();
      msg, phase := msg.(token := []), InVersion;
      return 0;
    }

    /** `minor` is kept by the parser itself. */
    method OnVersionComplete(major: nat, minorSeen: nat) returns (rc: int)
      requires Valid() && phase == InVersion
      modifies `error, `minor, `msg, `phase
      ensures Did(rc, Mark(lim, old(msg), Version(major, minorSeen))) && (rc >= 0 ==> phase == Fields(false))
    {
      hide UrlDone, FieldDone, HeaderDone, HeadersDone, MessageDone;
      minor := minorSeen;
      if major != 1 {
        error := 505;
        return -1;
      }
      msg, phase := msg.(minor := minorSeen), Fields(false);
      return 0;
    }

    /** The prefix goes in front of a name's first fragment. */
    method StartName()
      requires Buffered() && (phase.Fields? || phase.InName?)
      modifies `head, `keyLen
      ensures head == HTTP_ + msg.token && keyLen == |head|
    {
      if keyLen == 0 {
        assert msg.token == [] && [] + HTTP_ == HTTP_ == HTTP_ + [];
        head := head + HTTP_;
        keyLen := 5;
      }
    }

    method OnHeaderField(data: seq<byte>) returns (rc: int)
      requires Valid() && (phase.Fields? || phase.InName?)
      modifies `error, `head, `keyLen, `valLen, `msg, `phase
      ensures Did(rc, FeedName(old(msg), data))
      ensures rc >= 0 ==> phase == if data == [] then old(phase) else InName(old(phase).open)
    {
      hide UrlDone;
      hide Holds;
      if |data| == 0 { return 0; }
      if |head| + |data| >= 32 * 1024 {
        error := 431;
        return -1;
      }
      StartName();
      assert HTTP_ + msg.token + data == HTTP_ + (msg.token + data);
      head := head + data;
      keyLen := keyLen + |data|;
      valLen := 0;
      TokenAside(msg, msg.token + data);
      msg, phase := msg.(token := msg.token + data), InName(phase.open);
      assert Buffered();
      return 0;
    }

    /** The loop of on_header_field_complete: the name becomes a key of the environ, or it is left out. */
    method MangleHead() returns (skipped: bool)
      requires |head| >= 5
      modifies `head
      ensures skipped <==> UNDERSCORE in old(head)[5..]
      ensures !skipped ==> head == old(head)[..5] + EnvName(old(head)[5..])
    {
      hide EnvName;
      MangledEnds(head[5..]);
      var i := 5;
      ghost var name := head[5..];
      assert EnvName(name)[..0] == [] && head == head[..5] + name[0..];
      while i < |head|
        invariant 5 <= i <= |head| == |old(head)|
        invariant head == old(head)[..5] + EnvName(name)[..i - 5] + name[i - 5..]
        invariant UNDERSCORE !in name[..i - 5]
      {
        var symbol := head[i];
        assert symbol == name[i - 5];
        if symbol == UNDERSCORE { return true; }
        assert name[..i + 1 - 5] == name[..i - 5] + [symbol];
        ManglesNext(old(head)[..5], name, i - 5);
        if symbol < 127 {
          head := head[i := if symbol == DASH then UNDERSCORE else ToUpper(symbol)];
        }
        i := i + 1;
      }
      assert name[..i - 5] == name;
      return false;
    }

    /** The name becomes a key with an empty value behind it, or the header is left out. */
    method NameDone()
      requires Buffered() && phase.InName?
      modifies `head, `keyLen, `valLen
      ensures if UNDERSCORE in msg.token then head == [] && keyLen == valLen == 0
              else head == HTTP_ + EnvName(msg.token) + [0] && keyLen == 5 + |msg.token| && valLen == 0
    {
      hide EnvName;
      assert head[5..] == msg.token && head[..5] == HTTP_;
      var skipped := MangleHead();
      if skipped {
        ResetHead();
      } else {
        head := head + [0];
        valLen := 0;
      }
    }

    method CountHeader()
      requires Holds(msg)
      modifies `headersNum
      ensures headersNum == msg.count + 1 && Holds(msg.(count := headersNum))
    {
      headersNum := headersNum + 1;
    }

    method OnHeaderFieldComplete() returns (rc: int)
      requires Valid() && phase.InName?
      modifies `error, `headersNum, `head, `keyLen, `valLen, `msg, `phase
      ensures Did(rc, FieldDone(lim, old(msg))) && (rc >= 0 ==> phase == InValue(old(phase).open))
    {
      hide UrlDone, HeaderDone, HeadersDone, MessageDone, EnvName, Holds;
      CountHeader();
      if headersNum > lim.maxHeaders {
        error := 431;
        return -1;
      }
      NameDone();
      assert head == head + [];
      TokenAside(msg.(count := headersNum), []);
      msg, phase := FieldDone(lim, msg).m, InValue(phase.open);
      assert Buffered();
      return 0;
    }

    method OnHeaderValue(data: seq<byte>) returns (rc: int)
      requires Valid() && phase.InValue?
      modifies `error, `head, `valLen, `msg
      ensures Did(rc, Feed(lim, old(msg), Value, data))
    {
      if |data| == 0 { return 0; }
      if valLen == 0 {
        if keyLen == 0 { return 0; }
        assert keyLen + 1 == |head|;  // otherwise an internal error
      }
      if |head| + |data| >= 32 * 1024 {
        error := 431;
        return -1;
      }
      assert HTTP_ + msg.name.value + [0] + msg.token + data == HTTP_ + msg.name.value + [0] + (msg.token + data);
      head := head + data;
      valLen := valLen + |data|;
      msg := msg.(token := msg.token + data);
      return 0;
    }

    /** What on_header_value_complete does with a header; `key` has the prefix. */
    method TakeHeader(key: seq<byte>, val: seq<byte>, ghost name: seq<byte>) returns (rc: int)
      requires key == HTTP_ + name && msg.name == Some(name) && val == msg.token && Holds(msg) && error == 0
      requires minor == msg.minor
      modifies `error, `headers, `host, `httpContentLength, `chunked, `expectContinue
      ensures match HeaderDone(msg)
              case Go(m) =>
                rc == 0 && error == 0 && Holds(m)
              case Stop(status) => rc < 0 && status == StatusOf(error)
    {
      assert key[5..] == name;
      if key[5..] == TRANSFER_ENCODING {
        if val != CHUNKED {
          error := 1;
          return -1;
        }
        chunked := true;
        return 0;
      }
      if key[5..] == EXPECT {
        if val != CONTINUE || minor == 0 {
          error := 417;
          return -1;
        }
        expectContinue := true;
        return 0;
      }
      var shown := key;
      if key[5..] == CONTENT_LENGTH {
        httpContentLength := 0;
        shown := key[5..];
      } else if key[5..] == CONTENT_TYPE {
        shown := key[5..];
      }
      headers := headers[Header(shown) := val];
      if key[5..] == HOST {
        if host.Some? || |val| == 0 || (44 as byte) in val || (64 as byte) in val || (47 as byte) in val {
          error := 400;
          return -1;
        }
        host := Some(val);
      }
      return 0;
    }

    method OnHeaderValueComplete() returns (rc: int)
      requires Valid() && phase.InValue?
      modifies `error, `headers, `host, `httpContentLength, `chunked, `expectContinue
      modifies `head, `keyLen, `valLen, `msg, `phase
      ensures Did(rc, HeaderDone(old(msg))) && (rc >= 0 ==> phase == Fields(old(phase).open))
    {
      hide UrlDone, FieldDone, HeadersDone, MessageDone, HeaderDone, Holds;
      HeaderNamed(msg);
      TokenAside(msg, []);
      if HeaderDone(msg).Go? { HeaderDoneKeeps(msg); }
      if keyLen <= 5 {
        msg, phase := HeaderDone(msg).m, Fields(phase.open);
        return 0;
      }
      var key, val := head[..keyLen], head[keyLen + 1..];
      assert key == HTTP_ + msg.name.value && val == msg.token;
      rc := TakeHeader(key, val, msg.name.value);
      if rc != 0 { return; }
      ResetHead();
      msg, phase := HeaderDone(msg).m, Fields(phase.open);
    }

    /** The end of on_headers_complete: the length is checked, and an expectation is answered. */
    method TakeLength(length: nat, interimOk: bool) returns (rc: int)
      requires Holds(msg) && msg.host.Some?
      modifies `error, `httpContentLength, `expectContinue
      ensures rc == if length > lim.maxContentLength then (if msg.waits then 1 else -1)
                    else if msg.waits && !interimOk then -1 else 0
      ensures rc == 0 ==> error == old(error) && Holds(HeadersDone(lim, msg, length).m)
      ensures rc == 1 ==> error == 417 && expectContinue
      ensures rc == -1 ==> error == 1
    {
      if length > lim.maxContentLength {
        if expectContinue {
          error := 417;
          return 1;
        }
        error := 1;
        return -1;
      }
      if httpContentLength >= 0 {
        httpContentLength := length;
      }
      if expectContinue {
        if !interimOk {
          error := 1;
          return -1;
        }
        expectContinue := false;
      }
      return 0;
    }

    /** `length` is the parser's content_length. The result 1 makes the parser expect no body. A kept
        expectation gets an interim response; `interimOk` says whether it could be sent. */
    method OnHeadersComplete(length: nat, interimOk: bool) returns (rc: int)
      requires Valid() && phase == Fields(false)
      modifies `error, `head, `keyLen, `valLen, `httpContentLength, `expectContinue, `loadState, `msg, `phase
      ensures loadState == 3
      ensures rc == 1 <==> Refuses(lim, old(msg), length)
      ensures rc == 1 ==> error == 417 && expectContinue
      ensures rc != 1 ==>
                && Did(rc, if old(msg).waits && !interimOk then Stop(400) else HeadersDone(lim, old(msg), length))
                && (rc >= 0 ==> phase == Fields(true))
    {
      hide UrlDone, FieldDone, HeaderDone, HeadersDone, MessageDone, Holds;
      loadState := 3;
      HoldsMeans(msg);
      HeadersDoneIs(lim, msg, length);
      if host.None? {
        error := 400;
        return -1;
      }
      ResetHead();
      rc := TakeLength(length, interimOk);
      if rc == 0 {
        ghost var next := HeadersDone(lim, msg, length).m;
        assert next.token == [] && next.minor == minor;
        msg, phase := next, Fields(true);
        assert Buffered();
        assert Same();
      }
    }

    method OnBody(data: seq<byte>) returns (rc: int)
      requires Valid() && phase == Fields(true)
      modifies `error, `input, `loadState, `msg
      ensures Did(rc, Feed(lim, old(msg), BodyData, data)) && loadState == 4
    {
      loadState := 4;
      if |data| == 0 { return 0; }
      if |input| + |data| > lim.maxContentLength {
        error := 1;
        return -1;
      }
      input := input + data;
      msg := msg.(body := input);
      return 0;
    }

    /** The end of a message whose expectation is refused, or whose request is whole. */
    method OnMessageComplete(keep: bool) returns (rc: int)
      requires (Valid() && phase == Fields(true)) || (error == 417 && expectContinue)
      modifies `error, `headers, `loadState, `startTime, `updateTime, `keepAlive, `msg, `phase
      ensures startTime == updateTime == 0 && keepAlive == keep
      ensures old(error) == 417 && old(expectContinue) ==> rc == HPE_PAUSED && loadState == 5 && error == 417
      ensures old(error) == 0 ==>
                match MessageDone(old(msg))
                case Go(m) =>
                  && rc == HPE_PAUSED && loadState == 6 && error == 0
                  && Served(headers, input, keepAlive) == Finished(lim, m, keep)
                case Stop(status) => rc < 0 && error == 1 && loadState == 5
      ensures rc >= 0 ==> phase == Idle
    {
      loadState := 5;
      startTime, updateTime := 0, 0;
      keepAlive := keep;
      if error != 0 {
        phase := Idle;
        return HPE_PAUSED;
      }
      if httpContentLength >= 0 {
        if |input| != httpContentLength {
          error := 1;
          return -1;
        }
      }
      headers := headers[RequestMethod := verb];
      if lim.remoteAddr != [] {
        headers := headers[RemoteAddr := lim.remoteAddr];
      }
      if chunked && httpContentLength < 0 {
        headers := headers[Header(CONTENT_LENGTH) := Head.Decimal(|input|)];
      }
      loadState := 6;
      phase := Idle;
      return HPE_PAUSED;
    }
  }
}
