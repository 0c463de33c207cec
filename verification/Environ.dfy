/**
 What a client sends is what the app sees: what becomes of a whole request, stated without the rules of
 `Request`, and the proof that the reports of the parser, put together by those rules, come to the same.
 */
module Environ {
  import opened Bytes
  import opened Request
  import opened Llhttp
  import opened Exchange
  import opened Connection
  import opened Unicode
  import Head
  import UriDecode

  // ---------------------------------------------------------------- header names

  /** Two headers share a key of the environ exactly when their names differ in case at most. Names with an
      underscore would break this, and are left out. */
  lemma NoSpoofing(a: seq<byte>, b: seq<byte>)
    requires UNDERSCORE !in a && UNDERSCORE !in b
    ensures EnvName(a) == EnvName(b) <==> Lower(a) == Lower(b)
  {
    if |a| == |b| {
      forall i | 0 <= i < |a| ensures NameByte(a[i]) == NameByte(b[i]) <==> ToLower(a[i]) == ToLower(b[i]) {
        assert a[i] in a && b[i] in b;
      }
      if EnvName(a) == EnvName(b) {
        forall i | 0 <= i < |a| ensures Lower(a)[i] == Lower(b)[i] {
          assert EnvName(a)[i] == EnvName(b)[i];
        }
      }
      if Lower(a) == Lower(b) {
        forall i | 0 <= i < |a| ensures EnvName(a)[i] == EnvName(b)[i] {
          assert Lower(a)[i] == Lower(b)[i];
        }
      }
    }
  }

  /** The header's name is `name`, written in any case. Names with an underscore are nobody's. */
  predicate Is(f: Head.Header, name: string)
    requires forall i :: 0 <= i < |name| ==> name[i] < 128 as char
  {
    Kept(f) && Lower(f.name) == Ascii(name)
  }

  /** The header reaches the rules for headers. */
  predicate Kept(f: Head.Header) {
    (95 as byte) !in f.name
  }

  /** The names that the rules for headers know. */
  lemma Names(f: Head.Header)
    requires Kept(f)
    ensures EnvName(f.name) == TRANSFER_ENCODING <==> Is(f, "transfer-encoding")
    ensures EnvName(f.name) == EXPECT <==> Is(f, "expect")
    ensures EnvName(f.name) == CONTENT_LENGTH <==> Is(f, "content-length")
    ensures EnvName(f.name) == CONTENT_TYPE <==> Is(f, "content-type")
    ensures EnvName(f.name) == HOST <==> Is(f, "host")
  {
    hide NameByte, Lower, EnvName;
    KnownName(f, "transfer-encoding", TRANSFER_ENCODING);
    KnownName(f, "expect", EXPECT);
    KnownName(f, "content-length", CONTENT_LENGTH);
    KnownName(f, "content-type", CONTENT_TYPE);
    KnownName(f, "host", HOST);
  }

  lemma KnownName(f: Head.Header, name: string, key: seq<byte>)
    requires Kept(f) && |key| == |name| && forall i :: 0 <= i < |name| ==> 'a' <= name[i] <= 'z' || name[i] == '-'
    requires forall i :: 0 <= i < |name| ==>
               key[i] as int == if name[i] == '-' then '_' as int else name[i] as int - 32
    ensures EnvName(f.name) == key <==> Is(f, name)
  {
    var text := Ascii(name);
    assert UNDERSCORE !in text;
    assert EnvName(text) == key;
    assert Lower(text) == text;
    NoSpoofing(f.name, text);
  }

  lemma Words()
    ensures CONNECT == Ascii("CONNECT") && OPTIONS == Ascii("OPTIONS") && HTTP == Ascii("HTTP")
    ensures CHUNKED == Ascii("chunked") && CONTINUE == Ascii("100-continue") && HTTP_ == Ascii("HTTP_")
  {
  }

  /** The key of the environ: letters in upper case, '_' for '-', other bytes as they are, and in front of
      them "HTTP_", but for the two headers that describe the body. */
  lemma KeyRead(f: Head.Header)
    requires Kept(f)
    ensures var key := KeyOf(f).name; var n := |key| - |f.name|;
              && n >= 0 && key[..n] == (if Is(f, "content-length") || Is(f, "content-type") then [] else Ascii("HTTP_"))
              && forall i :: 0 <= i < |f.name| ==>
                   key[n + i] as int ==
                     if 97 <= f.name[i] <= 122 then f.name[i] as int - 32
                     else if f.name[i] == 45 then 95 else f.name[i] as int
  {
    Words();
    assert |HTTP_| == 5;
  }

  // ---------------------------------------------------------------- a request and its reports

  /** A request as a client writes it; `length` is its Content-Length, or 0 without one, and the trailers
      are the fields behind a chunked body. */
  datatype Sent = Sent(verb: seq<byte>, path: seq<byte>, query: Option<seq<byte>>, proto: seq<byte>, major: nat,
                       minor: nat, fields: seq<Head.Header>, length: nat, body: seq<byte>,
                       trailers: seq<Head.Header>, keepAlive: bool)

  function Target(r: Sent): seq<byte> {
    r.path + if r.query.Some? then [63] + r.query.value else []
  }

  function DataTokens(k: Kind, s: seq<byte>): (r: seq<Token>)
    ensures |r| == |s|
  {
    seq(|s|, i requires 0 <= i < |s| => Data(k, s[i]))
  }

  function FieldTokens(f: Head.Header): seq<Token> {
    DataTokens(Field, f.name) + [FieldEnd] + DataTokens(Value, f.value) + [ValueEnd]
  }

  function FieldsTokens(fields: seq<Head.Header>): seq<Token> {
    if fields == [] then []
    else FieldsTokens(fields[..|fields| - 1]) + FieldTokens(fields[|fields| - 1])
  }

  function LineTokens(r: Sent): seq<Token> {
    [Begin, Method(r.verb)] + DataTokens(Url, Target(r)) + [UrlEnd]
    + DataTokens(Protocol, r.proto) + [ProtocolEnd, Version(r.major, r.minor)]
  }

  /** What the parser reports of the end of the headers and of what follows. */
  function EndTokens(r: Sent): seq<Token> {
    [HeadersEnd(r.length, r.keepAlive)] + DataTokens(BodyData, r.body) + FieldsTokens(r.trailers)
    + [MessageEnd(r.keepAlive)]
  }

  /** Everything the parser reports of a request. */
  function Tokens(r: Sent): seq<Token> {
    LineTokens(r) + FieldsTokens(r.fields) + EndTokens(r)
  }

  /** Of some requests in turn. */
  function AllTokens(rs: seq<Sent>): seq<Token> {
    if rs == [] then [] else AllTokens(rs[..|rs| - 1]) + Tokens(rs[|rs| - 1])
  }

  // ---------------------------------------------------------------- what becomes of a request

  /** The app is called, the expectation is refused, or the request stops with a status. */
  datatype Fate = Called | Refused | Stopped(status: int)

  /** A request in a form that the parser can report: the path ends in front of the first '?', and no name is
      empty. */
  predicate WellFormed(r: Sent) {
    && (63 as byte) !in r.path
    && (forall i :: 0 <= i < |r.fields| ==> r.fields[i].name != [])
    && (forall i :: 0 <= i < |r.trailers| ==> r.trailers[i].name != [])
  }

  predicate HasField(fields: seq<Head.Header>, name: string)
    requires forall i :: 0 <= i < |name| ==> name[i] < 128 as char
  {
    exists i :: 0 <= i < |fields| && Is(fields[i], name)
  }

  /** Why a path is not served: a backslash, an escape that cannot be decoded, a path other than the root path
      when there is one, and otherwise one that is not UTF-8. */
  function PathFate(lim: Limits, path: seq<byte>): (r: Option<int>)
    ensures r == None ==> UriDecode.DecodePath(path).Decoded?
  {
    if (92 as byte) in path then Some(400)
    else match UriDecode.DecodePath(path)
      case Failed(_) => Some(400)
      case Decoded(bytes) =>
        if lim.root != [] then (if bytes == lim.root then None else Some(404))
        else if Utf8(bytes) then None else Some(400)
  }

  /** Why a target is not served. */
  function TargetFate(lim: Limits, r: Sent): (fate: Option<int>)
    ensures fate == None ==> UriDecode.DecodePath(r.path).Decoded?
  {
    if (35 as byte) in Target(r) || r.path == [] then Some(400)
    else if (42 as byte) in r.path && r.verb != Ascii("OPTIONS") then Some(400)
    else PathFate(lim, r.path)
  }

  function LineFate(lim: Limits, r: Sent): Option<int> {
    if r.verb == Ascii("CONNECT") then Some(501)
    else if |Target(r)| >= 16 * 1024 then Some(414)
    else if TargetFate(lim, r).Some? then TargetFate(lim, r)
    else if r.proto != Ascii("HTTP") then Some(400)
    else if r.major != 1 then Some(505)
    else None
  }

  /** A host names one place, and nothing but the place. */
  predicate BadHost(host: seq<byte>) {
    host == [] || (44 as byte) in host || (64 as byte) in host || (47 as byte) in host
  }

  /** What a header says is wrong; `hosted` when there was a Host before it. */
  function HeaderFate(minor: nat, hosted: bool, f: Head.Header): Option<int> {
    if !Kept(f) then None
    else if Is(f, "transfer-encoding") then (if f.value == Ascii("chunked") then None else Some(400))
    else if Is(f, "expect") then (if f.value == Ascii("100-continue") && minor != 0 then None else Some(417))
    else if Is(f, "host") && (hosted || BadHost(f.value)) then Some(400)
    else None
  }

  /** Why a header is not accepted behind `count` others. */
  function FieldFate(lim: Limits, minor: nat, count: nat, hosted: bool, f: Head.Header): Option<int> {
    if TooLong(f) || count >= lim.maxHeaders then Some(431)
    else if Kept(f) && f.value != [] && |f.name| + 6 + |f.value| >= 32 * 1024 then Some(431)
    else HeaderFate(minor, hosted, f)
  }

  /** The name is so long that the limit depends on how it is cut. */
  predicate TooLong(f: Head.Header) {
    |f.name| + 5 >= 32 * 1024
  }

  /** The first of the headers that is not accepted decides. */
  function FieldsFate(lim: Limits, minor: nat, count: nat, hosted: bool, fields: seq<Head.Header>): Option<int> {
    if fields == [] then None
    else
      var n := |fields| - 1;
      var before := FieldsFate(lim, minor, count, hosted, fields[..n]);
      if before.Some? then before
      else FieldFate(lim, minor, count + n, hosted || HasField(fields[..n], "host"), fields[n])
  }

  /** The length the body must have: a Content-Length among the trailers counts as 0. */
  function LengthOf(r: Sent): int {
    if HasField(r.trailers, "content-length") then 0
    else if HasField(r.fields, "content-length") then r.length
    else -1
  }

  /** What becomes of a request with a length that is accepted. */
  function BodyFate(lim: Limits, r: Sent): Fate {
    var trailers := FieldsFate(lim, r.minor, |r.fields|, true, r.trailers);
    if |r.body| > lim.maxContentLength then Stopped(400)
    else if trailers.Some? then Stopped(trailers.value)
    else if LengthOf(r) >= 0 && |r.body| != LengthOf(r) then Stopped(400)
    else Called
  }

  /** What becomes of a request with headers that are accepted. */
  function EndFate(lim: Limits, r: Sent): Fate {
    if !HasField(r.fields, "host") then Stopped(400)
    else if r.length > lim.maxContentLength then (if HasField(r.fields, "expect") then Refused else Stopped(400))
    else BodyFate(lim, r)
  }

  /** What becomes of a request. */
  function FateOf(lim: Limits, r: Sent): Fate {
    var line, fields := LineFate(lim, r), FieldsFate(lim, r.minor, 0, false, r.fields);
    if line.Some? then Stopped(line.value)
    else if fields.Some? then Stopped(fields.value)
    else EndFate(lim, r)
  }

  function KeyOf(f: Head.Header): (k: Key)
    ensures k.Header?
  {
    var name := EnvName(f.name);
    if Is(f, "content-length") || Is(f, "content-type") then Header(name) else Header(HTTP_ + name)
  }

  /** What the server keeps to itself. */
  predicate Hidden(f: Head.Header) {
    !Kept(f) || Is(f, "transfer-encoding") || Is(f, "expect")
  }

  /** The environ with the headers: later ones of a name replace earlier ones. */
  function Seen(env: Env, fields: seq<Head.Header>): Env {
    if fields == [] then env
    else
      var f := fields[|fields| - 1];
      var before := Seen(env, fields[..|fields| - 1]);
      if Hidden(f) then before else before[KeyOf(f) := f.value]
  }

  /** With a root path the app is told that it serves '/'. */
  function PathInfoOf(lim: Limits, path: seq<byte>): seq<byte>
    requires UriDecode.DecodePath(path).Decoded?
  {
    if lim.root != [] then [47] else UriDecode.DecodePath(path).bytes
  }

  function LineEnv(lim: Limits, r: Sent): Env
    requires UriDecode.DecodePath(r.path).Decoded?
  {
    var env := lim.base[PathInfo := PathInfoOf(lim, r.path)];
    if r.query.Some? && r.query.value != [] then env[QueryString := r.query.value] else env
  }

  /** The environ of a request: path, query and headers, then what the server adds. */
  function EnvironOf(lim: Limits, r: Sent): Env
    requires UriDecode.DecodePath(r.path).Decoded?
  {
    var env := Seen(Seen(LineEnv(lim, r), r.fields), r.trailers)[RequestMethod := r.verb];
    var env' := if lim.remoteAddr == [] then env else env[RemoteAddr := lim.remoteAddr];
    if (HasField(r.fields, "transfer-encoding") || HasField(r.trailers, "transfer-encoding")) && LengthOf(r) < 0
    then env'[Header(CONTENT_LENGTH) := Head.Decimal(|r.body|)] else env'
  }

  lemma CalledDecodes(lim: Limits, r: Sent)
    ensures FateOf(lim, r) == Called ==> LineFate(lim, r) == None && UriDecode.DecodePath(r.path).Decoded?
  {
  }

  /** The call of the app that a request leads to. */
  function DispatchOf(lim: Limits, r: Sent): Event
    requires FateOf(lim, r) == Called
  {
    CalledDecodes(lim, r);
    Dispatch(Served(EnvironOf(lim, r), r.body, r.keepAlive))
  }

  function Dispatches(lim: Limits, rs: seq<Sent>): (r: seq<Event>)
    requires forall i :: 0 <= i < |rs| ==> FateOf(lim, rs[i]) == Called
    ensures |r| == |rs|
  {
    seq(|rs|, i requires 0 <= i < |rs| => DispatchOf(lim, rs[i]))
  }

  // ---------------------------------------------------------------- the two agree

  lemma {:induction false} ReportsAppend(lim: Limits, c: Core, a: seq<Token>, b: seq<Token>)
    ensures Reports(lim, c, a + b) == Reports(lim, Reports(lim, c, a), b)
    decreases |a|
  {
    if a == [] {
      assert a + b == b;
    } else if !c.failed && !c.cut {
      ReportsAppend(lim, Report(lim, c, a[0]), a[1..], b);
      assert (a + b)[1..] == a[1..] + b;
    }
  }

  lemma ReportsOne(lim: Limits, c: Core, t: Token)
    requires !c.failed && !c.cut
    ensures Reports(lim, c, [t]) == Report(lim, c, t)
  {
    assert [t][1..] == [];
  }

  lemma ReportsNone(lim: Limits, c: Core)
    ensures Reports(lim, c, []) == c
  {
  }

  /** From `c` the reports have led to a failure, which nothing undoes. */
  predicate Stops(c: Core, d: Core, status: int) {
    d == c.(m := d.m, failed := true, status := status, long := d.long) && (c.long ==> d.long)
  }

  lemma StopsStays(lim: Limits, c: Core, d: Core, status: int, ts: seq<Token>)
    requires Stops(c, d, status)
    ensures Reports(lim, d, ts) == d
  {
  }

  /** The bytes of an element, one by one, do what its fragment does. */
  lemma {:induction false} ReportsBytes(lim: Limits, c: Core, k: Kind, s: seq<byte>)
    requires !c.failed && !c.cut
    ensures var d := Reports(lim, c, DataTokens(k, s));
            match Feed(lim, c.m, k, s)
            case Go(m) => d == c.(m := m)
            case Stop(status) => Stops(c, d, status) && d.long == (c.long || k == Field)
    decreases |s|
  {
    if s == [] {
      FeedNone(lim, c.m, k);
      assert c.(m := c.m) == c;
    } else {
      var n := |s| - 1;
      assert s == s[..n] + [s[n]];
      FeedSplit(lim, c.m, k, s[..n], [s[n]]);
      ReportsBytes(lim, c, k, s[..n]);
      assert DataTokens(k, s) == DataTokens(k, s[..n]) + [Data(k, s[n])];
      ReportsAppend(lim, c, DataTokens(k, s[..n]), [Data(k, s[n])]);
      if Feed(lim, c.m, k, s[..n]).Go? {
        ReportsOne(lim, c.(m := Feed(lim, c.m, k, s[..n]).m), Data(k, s[n]));
      }
    }
  }

  /** One header more. */
  function Plus(m: Msg, f: Head.Header): Msg {
    m.(count := m.count + 1,
       env := if Hidden(f) then m.env else m.env[KeyOf(f) := f.value],
       host := if Is(f, "host") then Some(f.value) else m.host,
       length := if Is(f, "content-length") then 0 else m.length,
       chunked := m.chunked || Is(f, "transfer-encoding"), waits := m.waits || Is(f, "expect"))
  }

  /** A core between two elements. */
  predicate Clean(c: Core) {
    !c.failed && !c.cut && c.m.token == [] && c.m.name == None
  }

  /** What the end of a name leads to. */
  lemma NamedIs(lim: Limits, m: Msg, f: Head.Header)
    requires m.token == [] && m.name == None
    ensures FieldDone(lim, m.(token := f.name))
            == if m.count >= lim.maxHeaders then Stop(431)
               else Go(m.(count := m.count + 1, name := if Kept(f) then Some(EnvName(f.name)) else None))
  {
    hide EnvName;
  }

  /** The rules for a header, given its name and value in full. */
  lemma HeaderPlus(m: Msg, f: Head.Header)
    requires m.token == [] && m.name == None && Kept(f)
    ensures var named := m.(count := m.count + 1, name := Some(EnvName(f.name)), token := f.value);
            match HeaderFate(m.minor, m.host.Some?, f)
            case None => HeaderDone(named) == Go(Plus(m, f))
            case Some(status) => HeaderDone(named) == Stop(status)
  {
    hide EnvName, Is, GoodHost, BadHost;
    Names(f);
    Words();
    HostsAgree(f.value);
    NamesDiffer();
  }

  lemma HostsAgree(v: seq<byte>)
    ensures GoodHost(v) <==> !BadHost(v)
  {
  }

  lemma NamesDiffer()
    ensures |CONTENT_LENGTH| == 14 && |CONTENT_TYPE| == 12 && |TRANSFER_ENCODING| == 17 && |EXPECT| == 6 && |HOST| == 4
  {
  }

  /** One header, byte by byte. */
  lemma OneField(lim: Limits, c: Core, f: Head.Header)
    requires Clean(c) && f.name != []
    ensures var d := Reports(lim, c, FieldTokens(f));
            match FieldFate(lim, c.m.minor, c.m.count, c.m.host.Some?, f)
            case None => d == c.(m := Plus(c.m, f)) && Clean(d)
            case Some(status) => Stops(c, d, status) && d.long == (c.long || TooLong(f))
  {
    hide Reports, HeaderDone, FieldDone, HeaderFate, EnvName, Is, Kept, Hidden, KeyOf;
    var a, b := DataTokens(Field, f.name), DataTokens(Value, f.value);
    assert FieldTokens(f) == a + ([FieldEnd] + (b + [ValueEnd]));
    assert [] + f.name == f.name && [] + f.value == f.value;
    ReportsAppend(lim, c, a, [FieldEnd] + (b + [ValueEnd]));
    ReportsBytes(lim, c, Field, f.name);
    if TooLong(f) {
      StopsStays(lim, c, Reports(lim, c, a), 431, [FieldEnd] + (b + [ValueEnd]));
      return;
    }
    var c0 := c.(m := c.m.(token := f.name));
    ReportsAppend(lim, c0, [FieldEnd], b + [ValueEnd]);
    ReportsOne(lim, c0, FieldEnd);
    NamedIs(lim, c.m, f);
    if c.m.count < lim.maxHeaders {
      NamedField(lim, c, f);
    } else {
      StopsStays(lim, c, Report(lim, c0, FieldEnd), 431, b + [ValueEnd]);
    }
  }

  /** The value of a header whose name was read. */
  lemma NamedField(lim: Limits, c: Core, f: Head.Header)
    requires Clean(c) && f.name != [] && !TooLong(f) && c.m.count < lim.maxHeaders
    ensures var named := c.m.(count := c.m.count + 1, name := if Kept(f) then Some(EnvName(f.name)) else None);
            var d := Reports(lim, c.(m := named), DataTokens(Value, f.value) + [ValueEnd]);
            match FieldFate(lim, c.m.minor, c.m.count, c.m.host.Some?, f)
            case None => d == c.(m := Plus(c.m, f)) && Clean(d)
            case Some(status) => Stops(c, d, status) && d.long == c.long
  {
    hide Reports, HeaderDone, FieldDone, HeaderFate, EnvName, Is, KeyOf;
    var b := DataTokens(Value, f.value);
    var c1 := c.(m := c.m.(count := c.m.count + 1, name := if Kept(f) then Some(EnvName(f.name)) else None));
    assert [] + f.value == f.value;
    ReportsAppend(lim, c1, b, [ValueEnd]);
    ReportsBytes(lim, c1, Value, f.value);
    FeedNone(lim, c1.m, Value);
    var fed := Feed(lim, c1.m, Value, f.value);
    if fed.Go? {
      ReportsOne(lim, c1.(m := fed.m), ValueEnd);
      HeaderNamed(fed.m);
      if Kept(f) {
        HeaderPlus(c.m, f);
      } else {
        NotKept(c.m, f);
      }
    } else {
      StopsStays(lim, c, Reports(lim, c1, b), 431, [ValueEnd]);
    }
  }

  lemma NotKept(m: Msg, f: Head.Header)
    requires !Kept(f)
    ensures Plus(m, f) == m.(count := m.count + 1) && HeaderFate(m.minor, m.host.Some?, f) == None
  {
  }

  /** All headers. */
  function After(m: Msg, fields: seq<Head.Header>): Msg {
    if fields == [] then m else Plus(After(m, fields[..|fields| - 1]), fields[|fields| - 1])
  }

  /** What they amount to. */
  lemma {:induction false} AfterIs(m: Msg, fields: seq<Head.Header>)
    ensures var n := After(m, fields);
              && n == m.(count := m.count + |fields|, env := Seen(m.env, fields), host := n.host,
                         length := if HasField(fields, "content-length") then 0 else m.length,
                         chunked := m.chunked || HasField(fields, "transfer-encoding"),
                         waits := m.waits || HasField(fields, "expect"))
              && (n.host.Some? <==> m.host.Some? || HasField(fields, "host"))
  {
    hide HasField, Is, Hidden, KeyOf;
    if fields == [] {
      NoField("content-length");
      NoField("transfer-encoding");
      NoField("expect");
      NoField("host");
    } else {
      AfterIs(m, fields[..|fields| - 1]);
      HasFieldSnoc(fields, "content-length");
      HasFieldSnoc(fields, "transfer-encoding");
      HasFieldSnoc(fields, "expect");
      HasFieldSnoc(fields, "host");
    }
  }

  lemma NoField(name: string)
    requires forall i :: 0 <= i < |name| ==> name[i] < 128 as char
    ensures !HasField([], name)
  {
  }

  lemma HasFieldSnoc(fields: seq<Head.Header>, name: string)
    requires fields != [] && forall i :: 0 <= i < |name| ==> name[i] < 128 as char
    ensures HasField(fields, name) <==> HasField(fields[..|fields| - 1], name) || Is(fields[|fields| - 1], name)
  {
    hide Is;
    var n := |fields| - 1;
    if i :| 0 <= i < |fields| && Is(fields[i], name) {
      if i < n { assert Is(fields[..n][i], name); }
    }
    if i :| 0 <= i < n && Is(fields[..n][i], name) {
      assert Is(fields[i], name);
    }
  }

  /** The name of some header is so long that its limit depends on how it is cut. */
  predicate SomeTooLong(fields: seq<Head.Header>) {
    exists i :: 0 <= i < |fields| && TooLong(fields[i])
  }

  /** Headers, in turn. */
  lemma {:induction false} AllFields(lim: Limits, c: Core, fields: seq<Head.Header>)
    requires Clean(c) && forall i :: 0 <= i < |fields| ==> fields[i].name != []
    ensures var d := Reports(lim, c, FieldsTokens(fields));
            match FieldsFate(lim, c.m.minor, c.m.count, c.m.host.Some?, fields)
            case None => d == c.(m := After(c.m, fields)) && Clean(d)
            case Some(status) => Stops(c, d, status) && (!SomeTooLong(fields) ==> d.long == c.long)
  {
    hide Reports, Plus, FieldFate, FieldTokens, HasField, Seen, TooLong;
    if fields != [] {
      var n := |fields| - 1;
      var f, before := fields[n], fields[..n];
      assert forall i :: 0 <= i < n ==> before[i] == fields[i];
      AllFields(lim, c, before);
      ReportsAppend(lim, c, FieldsTokens(before), FieldTokens(f));
      var early := FieldsFate(lim, c.m.minor, c.m.count, c.m.host.Some?, before);
      if early.Some? {
        StopsStays(lim, c, Reports(lim, c, FieldsTokens(before)), early.value, FieldTokens(f));
      } else {
        AfterIs(c.m, before);
        OneField(lim, c.(m := After(c.m, before)), f);
      }
    } else {
      ReportsNone(lim, c);
      assert c.(m := c.m) == c;
    }
  }

  lemma {:induction false} PathLengthOf(path: seq<byte>, rest: seq<byte>)
    requires (63 as byte) !in path && (rest == [] || rest[0] == 63)
    ensures PathLength(path + rest) == |path|
  {
    if path == [] {
      assert path + rest == rest;
    } else {
      assert (path + rest)[1..] == path[1..] + rest;
      PathLengthOf(path[1..], rest);
    }
  }

  lemma PathIs(lim: Limits, path: seq<byte>)
    ensures TakePath(lim, path)
            == match PathFate(lim, path)
               case None => Path(PathInfoOf(lim, path))
               case Some(status) => NoPath(status)
  {
    hide UriDecode.DecodePath, Utf8;
  }

  /** A request whose line was read. */
  function LineRead(lim: Limits, r: Sent): Msg
    requires UriDecode.DecodePath(r.path).Decoded?
  {
    New(lim).(verb := r.verb, minor := r.minor, env := LineEnv(lim, r))
  }

  lemma TargetDone(lim: Limits, r: Sent)
    requires WellFormed(r)
    ensures UrlDone(lim, New(lim).(verb := r.verb, token := Target(r)))
            == match TargetFate(lim, r)
               case None => Go(LineRead(lim, r).(minor := 0))
               case Some(status) => Stop(status)
  {
    hide TakePath, PathLength, PathFate, PathInfoOf, UriDecode.DecodePath;
    var rest := if r.query.Some? then [63] + r.query.value else [];
    PathLengthOf(r.path, rest);
    PathIs(lim, r.path);
    Words();
    var t := Target(r);
    assert t == r.path + rest && t[..|r.path|] == r.path;
    if r.query.Some? {
      assert t[|r.path| + 1..] == r.query.value;
    }
  }

  /** The line of a request, whatever came before it on the connection. */
  lemma LineSeen(lim: Limits, c: Core, r: Sent)
    requires !c.failed && !c.cut && WellFormed(r)
    ensures var d := Reports(lim, c, LineTokens(r));
            match LineFate(lim, r)
            case None => UriDecode.DecodePath(r.path).Decoded? && d == c.(m := LineRead(lim, r)) && Clean(d)
            case Some(status) => Stops(c, d, status) && d.long == c.long
  {
    hide Reports, UrlDone, Target, LineEnv, TargetFate;
    Words();
    var behind := DataTokens(Protocol, r.proto) + [ProtocolEnd, Version(r.major, r.minor)];
    var url := DataTokens(Url, Target(r)) + ([UrlEnd] + behind);
    var c0, c1 := c.(m := New(lim)), c.(m := New(lim).(verb := r.verb));
    assert LineTokens(r) == [Begin] + ([Method(r.verb)] + url);
    ReportsAppend(lim, c, [Begin], [Method(r.verb)] + url);
    ReportsOne(lim, c, Begin);
    ReportsAppend(lim, c0, [Method(r.verb)], url);
    ReportsOne(lim, c0, Method(r.verb));
    if r.verb == CONNECT {
      StopsStays(lim, c, Report(lim, c0, Method(r.verb)), 501, url);
    } else {
      TargetSeen(lim, c1, r, behind);
      if |Target(r)| < 16 * 1024 && TargetFate(lim, r) == None {
        ProtoSeen(lim, c.(m := LineRead(lim, r).(minor := 0)), r);
      }
    }
  }

  /** The target. */
  lemma TargetSeen(lim: Limits, c: Core, r: Sent, behind: seq<Token>)
    requires !c.failed && !c.cut && WellFormed(r) && c.m == New(lim).(verb := r.verb)
    ensures var d := Reports(lim, c, DataTokens(Url, Target(r)) + ([UrlEnd] + behind));
            if |Target(r)| >= 16 * 1024 then Stops(c, d, 414) && d.long == c.long
            else match TargetFate(lim, r)
                 case None => d == Reports(lim, c.(m := LineRead(lim, r).(minor := 0)), behind)
                 case Some(status) => Stops(c, d, status) && d.long == c.long
  {
    hide Reports, UrlDone, Target, LineRead, TargetFate;
    var url := DataTokens(Url, Target(r));
    assert [] + Target(r) == Target(r);
    ReportsAppend(lim, c, url, [UrlEnd] + behind);
    ReportsBytes(lim, c, Url, Target(r));
    if |Target(r)| >= 16 * 1024 {
      StopsStays(lim, c, Reports(lim, c, url), 414, [UrlEnd] + behind);
      return;
    }
    var c1 := c.(m := c.m.(token := Target(r)));
    ReportsAppend(lim, c1, [UrlEnd], behind);
    ReportsOne(lim, c1, UrlEnd);
    TargetDone(lim, r);
    if TargetFate(lim, r).Some? {
      StopsStays(lim, c, Report(lim, c1, UrlEnd), TargetFate(lim, r).value, behind);
    }
  }

  /** The protocol and its version. */
  lemma ProtoSeen(lim: Limits, c: Core, r: Sent)
    requires Clean(c)
    ensures var d := Reports(lim, c, DataTokens(Protocol, r.proto) + [ProtocolEnd, Version(r.major, r.minor)]);
            if r.proto != Ascii("HTTP") then Stops(c, d, 400) && d.long == c.long
            else if r.major != 1 then Stops(c, d, 505) && d.long == c.long
            else d == c.(m := c.m.(minor := r.minor))
  {
    hide Reports, UrlDone;
    Words();
    var proto, c1 := DataTokens(Protocol, r.proto), c.(m := c.m.(token := r.proto));
    assert [] + r.proto == r.proto;
    var end, version := [ProtocolEnd, Version(r.major, r.minor)], [Version(r.major, r.minor)];
    assert end == [ProtocolEnd] + version;
    ReportsAppend(lim, c, proto, end);
    ReportsBytes(lim, c, Protocol, r.proto);
    if |r.proto| > 4 {
      StopsStays(lim, c, Reports(lim, c, proto), 400, end);
      return;
    }
    ReportsAppend(lim, c1, [ProtocolEnd], version);
    ReportsOne(lim, c1, ProtocolEnd);
    if r.proto != HTTP {
      StopsStays(lim, c, Report(lim, c1, ProtocolEnd), 400, version);
    } else {
      ReportsOne(lim, c, Version(r.major, r.minor));
    }
  }

  /** A request whose headers were read, as far as they decide what follows. */
  lemma HeadRead(lim: Limits, r: Sent)
    requires UriDecode.DecodePath(r.path).Decoded?
    ensures var m := After(LineRead(lim, r), r.fields);
              && m.token == [] && m.name == None && m.minor == r.minor && m.body == [] && m.verb == r.verb
              && m.count == |r.fields| && m.env == Seen(LineEnv(lim, r), r.fields)
              && m.length == (if HasField(r.fields, "content-length") then 0 else -1)
              && m.chunked == HasField(r.fields, "transfer-encoding") && m.waits == HasField(r.fields, "expect")
              && (m.host.Some? <==> HasField(r.fields, "host"))
  {
    hide HasField, Seen, LineEnv;
    AfterIs(LineRead(lim, r), r.fields);
  }

  lemma LineDecodes(lim: Limits, r: Sent)
    requires LineFate(lim, r) == None
    ensures UriDecode.DecodePath(r.path).Decoded?
  {
  }

  /** The whole request. */
  lemma WholeRead(lim: Limits, r: Sent, m1: Msg)
    requires LineFate(lim, r) == None
    requires var m := After(LineRead(lim, r), r.fields);
               m1 == m.(length := if m.length >= 0 then r.length else m.length, waits := false)
    ensures var m2 := After(m1.(body := r.body), r.trailers);
              && m2.length == LengthOf(r) && m2.body == r.body
              && Finished(lim, m2, r.keepAlive) == Served(EnvironOf(lim, r), r.body, r.keepAlive)
  {
    hide LineFate, HasField, Seen, LineRead, LineEnv, After;
    LineDecodes(lim, r);
    HeadRead(lim, r);
    AfterIs(m1.(body := r.body), r.trailers);
  }

  /** The body, the trailers and the end of the message. */
  lemma BodySeen(lim: Limits, c: Core, r: Sent)
    requires WellFormed(r) && LineFate(lim, r) == None && HasField(r.fields, "host")
    requires var m := After(LineRead(lim, r), r.fields);
               !c.failed && !c.cut && c.m == m.(length := if m.length >= 0 then r.length else m.length, waits := false)
    ensures var end := FieldsTokens(r.trailers) + [MessageEnd(r.keepAlive)];
            var d := Reports(lim, c, DataTokens(BodyData, r.body) + end);
            match BodyFate(lim, r)
            case Called =>
              && !d.failed && !d.cut && d.long == c.long
              && d.events == c.events + [Dispatch(Served(EnvironOf(lim, r), r.body, r.keepAlive))]
            case Stopped(status) => Stops(c, d, status) && (!SomeTooLong(r.trailers) ==> d.long == c.long)
            case Refused => false
  {
    hide Reports, After, LineRead, LineFate, EnvironOf, Finished, HasField, LengthOf, FieldsTokens, FieldsFate;
    hide SomeTooLong, LineEnv, Seen;
    LineDecodes(lim, r);
    HeadRead(lim, r);
    WholeRead(lim, r, c.m);
    var body, end := DataTokens(BodyData, r.body), FieldsTokens(r.trailers) + [MessageEnd(r.keepAlive)];
    assert [] + r.body == r.body;
    ReportsAppend(lim, c, body, end);
    ReportsBytes(lim, c, BodyData, r.body);
    var c1 := c.(m := c.m.(body := r.body));
    if |r.body| > lim.maxContentLength {
      StopsStays(lim, c, Reports(lim, c, body), 400, end);
      return;
    }
    ReportsAppend(lim, c1, FieldsTokens(r.trailers), [MessageEnd(r.keepAlive)]);
    AllFields(lim, c1, r.trailers);
    var trailers := FieldsFate(lim, r.minor, |r.fields|, true, r.trailers);
    if trailers.Some? {
      StopsStays(lim, c, Reports(lim, c1, FieldsTokens(r.trailers)), trailers.value, [MessageEnd(r.keepAlive)]);
    } else {
      ReportsOne(lim, c1.(m := After(c1.m, r.trailers)), MessageEnd(r.keepAlive));
    }
  }

  /** The end of the headers, the body, the trailers and the end of the message. */
  lemma EndSeen(lim: Limits, c: Core, r: Sent)
    requires Clean(c) && WellFormed(r) && LineFate(lim, r) == None && c.m == After(LineRead(lim, r), r.fields)
    ensures var d := Reports(lim, c, EndTokens(r));
            match EndFate(lim, r)
            case Called =>
              && !d.failed && !d.cut && d.long == c.long
              && d.events == c.events + [Dispatch(Served(EnvironOf(lim, r), r.body, r.keepAlive))]
            case Refused => !d.failed && d.cut && d.long == c.long && d.events == c.events + [Reject(r.keepAlive)]
            case Stopped(status) => Stops(c, d, status) && (!SomeTooLong(r.trailers) ==> d.long == c.long)
  {
    hide Reports, After, LineRead, LineFate, LineEnv, Seen, EnvironOf, HasField, FieldsTokens, FieldsFate, BodyFate;
    var end := HeadersEnd(r.length, r.keepAlive);
    var behind := DataTokens(BodyData, r.body) + (FieldsTokens(r.trailers) + [MessageEnd(r.keepAlive)]);
    assert EndTokens(r) == [end] + behind;
    ReportsAppend(lim, c, [end], behind);
    ReportsOne(lim, c, end);
    LineDecodes(lim, r);
    HeadRead(lim, r);
    HeadersDoneIs(lim, c.m, r.length);
    if !HasField(r.fields, "host") || (r.length > lim.maxContentLength && !HasField(r.fields, "expect")) {
      StopsStays(lim, c, Report(lim, c, end), 400, behind);
    } else if r.length > lim.maxContentLength {
      CutStays(lim, Report(lim, c, end), behind);
    } else {
      BodySeen(lim, c.(m := HeadersDone(lim, c.m, r.length).m), r);
    }
  }

  lemma CutStays(lim: Limits, c: Core, ts: seq<Token>)
    requires c.cut
    ensures Reports(lim, c, ts) == c
  {
  }

  /** Every request the parser can report, whatever came before it on the connection: it meets its fate. The
      app is called with exactly the environ described and the body that was sent, the expectation is refused,
      or the request stops with its status and nothing is called. */
  lemma WhatIsSentIsSeen(lim: Limits, c: Core, r: Sent)
    requires !c.failed && !c.cut && WellFormed(r)
    ensures var d := Reports(lim, c, Tokens(r));
            match FateOf(lim, r)
            case Called => !d.failed && !d.cut && d.long == c.long && d.events == c.events + [DispatchOf(lim, r)]
            case Refused => !d.failed && d.cut && d.long == c.long && d.events == c.events + [Reject(r.keepAlive)]
            case Stopped(status) =>
              Stops(c, d, status) && (!SomeTooLong(r.fields) && !SomeTooLong(r.trailers) ==> d.long == c.long)
  {
    hide Reports, LineTokens, FieldsTokens, EndTokens, LineRead, EnvironOf, After, LineFate, FieldsFate, EndFate;
    hide SomeTooLong;
    var line, fields, end := LineTokens(r), FieldsTokens(r.fields), EndTokens(r);
    assert Tokens(r) == line + (fields + end);
    ReportsAppend(lim, c, line, fields + end);
    LineSeen(lim, c, r);
    if LineFate(lim, r).Some? {
      StopsStays(lim, c, Reports(lim, c, line), LineFate(lim, r).value, fields + end);
      return;
    }
    LineFresh(lim, r);
    var c1 := c.(m := LineRead(lim, r));
    ReportsAppend(lim, c1, fields, end);
    AllFields(lim, c1, r.fields);
    var early := FieldsFate(lim, r.minor, 0, false, r.fields);
    if early.Some? {
      StopsStays(lim, c, Reports(lim, c1, fields), early.value, end);
    } else {
      EndSeen(lim, c1.(m := After(c1.m, r.fields)), r);
    }
  }

  lemma LineFresh(lim: Limits, r: Sent)
    requires LineFate(lim, r) == None
    ensures var m := LineRead(lim, r); m.minor == r.minor && m.host == None && m.count == 0
  {
  }

  /** A path that is written with any escapes but those of control bytes and 0xFF is served when there is no
      root path and what it stands for is a text in UTF-8. The app gets the bytes it stands for, an escaped
      '/' as it was written. */
  lemma EncodedPath(lim: Limits, r: Sent, ys: seq<UriDecode.Symbol>, text: seq<Scalar>)
    requires UriDecode.IsEncoding(ys) && UriDecode.AllTame(ys) && r.path == UriDecode.WriteAll(ys)
    requires lim.root == [] && (92 as byte) !in r.path && UriDecode.Shown(ys) == EncodeAll(text)
    ensures PathFate(lim, r.path) == None
    ensures FateOf(lim, r) == Called ==>
              var env := DispatchOf(lim, r).req.env; PathInfo in env && env[PathInfo] == UriDecode.Shown(ys)
    ensures (forall i :: 0 <= i < |ys| ==> UriDecode.Recoverable(ys[i])) ==>
              UriDecode.Shown(ys) == UriDecode.Plain(ys)
  {
    hide Seen, FateOf, LengthOf, HasField, KeyOf, Hidden, UriDecode.WriteAll, UriDecode.Shown, EncodeAll, Utf8;
    UriDecode.DecodeShows(ys);
    UriDecode.DecodeUndoesEncoding(ys);
    Utf8Iff(UriDecode.Shown(ys));
    HeadersAside(LineEnv(lim, r), r.fields, PathInfo);
    HeadersAside(Seen(LineEnv(lim, r), r.fields), r.trailers, PathInfo);
  }

  /** No header gives the key of the path. */
  lemma {:induction false} HeadersAside(env: Env, fields: seq<Head.Header>, k: Key)
    requires !k.Header? && k in env
    ensures k in Seen(env, fields) && Seen(env, fields)[k] == env[k]
  {
    if fields != [] {
      HeadersAside(env, fields[..|fields| - 1], k);
    }
  }

  /** Which paths are not served, and with which status they are answered. */
  lemma PathRefused(lim: Limits, path: seq<byte>)
    ensures PathFate(lim, path) == Some(400) <==>
              || (92 as byte) in path
              || !(exists ys :: UriDecode.IsEncoding(ys) && UriDecode.AllTame(ys) && UriDecode.WriteAll(ys) == path)
              || (lim.root == [] && !exists text :: UriDecode.DecodePath(path) == UriDecode.Decoded(EncodeAll(text)))
    ensures PathFate(lim, path) == Some(404) <==>
              && (92 as byte) !in path && lim.root != []
              && UriDecode.DecodePath(path).Decoded? && UriDecode.DecodePath(path).bytes != lim.root
    ensures PathFate(lim, path) in {None, Some(400), Some(404)}
  {
    hide UriDecode.DecodePath, UriDecode.IsEncoding, UriDecode.AllTame, Utf8;
    UriDecode.DecodesIff(path);
    if UriDecode.DecodePath(path).Decoded? {
      Utf8Iff(UriDecode.DecodePath(path).bytes);
    }
  }

  // ---------------------------------------------------------------- from a byte stream

  /** Where the machine is behind `input`. */
  function Goes<S(!new)>(mach: Machine<S>, s: S, input: seq<byte>): S {
    if input == [] then s else mach.step(Goes(mach, s, input[..|input| - 1]), input[|input| - 1]).0
  }

  /** All that it reports of `input`. */
  function Said<S(!new)>(mach: Machine<S>, s: S, input: seq<byte>): seq<Token> {
    if input == [] then []
    else
      var n := |input| - 1;
      Said(mach, s, input[..n]) + mach.step(Goes(mach, s, input[..n]), input[n]).1
  }

  lemma {:induction false} SaidCons<S(!new)>(mach: Machine<S>, s: S, b: byte, rest: seq<byte>)
    ensures Goes(mach, s, [b] + rest) == Goes(mach, mach.step(s, b).0, rest)
    ensures Said(mach, s, [b] + rest) == mach.step(s, b).1 + Said(mach, mach.step(s, b).0, rest)
  {
    var n := |rest| - 1;
    if rest == [] {
      assert [b] + rest == [b] && [b][..0] == [];
      assert Said(mach, s, [b]) == [] + mach.step(s, b).1;
    } else {
      assert ([b] + rest)[..n + 1] == [b] + rest[..n];
      SaidCons(mach, s, b, rest[..n]);
    }
  }

  /** Bytes that begin no message are those of which nothing is reported. */
  lemma {:induction false} QuietIs<S(!new)>(mach: Machine<S>, s: S, bytes: seq<byte>)
    ensures Quiet(mach, s, bytes) <==> Said(mach, s, bytes) == []
  {
    if bytes != [] {
      SaidCons(mach, s, bytes[0], bytes[1..]);
      assert bytes == [bytes[0]] + bytes[1..];
      QuietIs(mach, mach.step(s, bytes[0]).0, bytes[1..]);
    }
  }

  /** While no expectation is refused, reading byte by byte is putting together what the machine reports. */
  lemma {:induction false} AllIsReports<S(!new)>(lim: Limits, mach: Machine<S>, r: Run<S>, input: seq<byte>)
    requires !Reports(lim, CoreOf(r), Said(mach, r.s, input)).cut
    ensures var said := Said(mach, r.s, input);
            var all := All(lim, mach, r, input);
              && CoreOf(all) == Reports(lim, CoreOf(r), said) && all.s == Goes(mach, r.s, input)
              && (all.garbled <==> r.garbled || Invalid(false) in said)
  {
    hide Report;
    if input != [] {
      var n := |input| - 1;
      var before, last := Said(mach, r.s, input[..n]), mach.step(Goes(mach, r.s, input[..n]), input[n]).1;
      ReportsAppend(lim, CoreOf(r), before, last);
      assert !Reports(lim, CoreOf(r), before).cut;
      AllIsReports(lim, mach, r, input[..n]);
    }
  }

  /** The requests of a stream, in turn. */
  lemma {:induction false} AllSeen(lim: Limits, c: Core, rs: seq<Sent>)
    requires !c.failed && !c.cut && forall i :: 0 <= i < |rs| ==> WellFormed(rs[i]) && FateOf(lim, rs[i]) == Called
    ensures var d := Reports(lim, c, AllTokens(rs));
              !d.failed && !d.cut && d.long == c.long && d.events == c.events + Dispatches(lim, rs)
  {
    hide WellFormed, FateOf, Tokens, DispatchOf, Report;
    if rs != [] {
      var n := |rs| - 1;
      AllSeen(lim, c, rs[..n]);
      ReportsAppend(lim, c, AllTokens(rs[..n]), Tokens(rs[n]));
      WhatIsSentIsSeen(lim, Reports(lim, c, AllTokens(rs[..n])), rs[n]);
      assert Dispatches(lim, rs) == Dispatches(lim, rs[..n]) + [DispatchOf(lim, rs[n])];
    }
  }

  /** When the machine reports requests of a stream that the server serves, then on every connection that gets
      it, in whatever pieces, the app is called with these requests, in turn, up to the first after which the
      connection is not kept. */
  lemma EveryRequestServed<S(!new)>(c: Connection<S>, stream: seq<byte>, rs: seq<Sent>)
    requires c.Ready() && c.input <= stream
    requires Said(c.parser.mach, c.parser.mach.init, stream) == AllTokens(rs)
    requires forall i :: 0 <= i < |rs| ==> WellFormed(rs[i]) && FateOf(c.parser.lim, rs[i]) == Called
    ensures var all := Dispatches(c.parser.lim, rs);
              && c.History() <= all[..UpTo(c.su, all, 0)]
              && (c.Done(stream) ==> c.History() == all[..UpTo(c.su, all, 0)])
  {
    hide Reports, All, FateOf, WellFormed, Connection.Ready, Connection.Done, UpTo, Messages, Dispatches;
    var start := CoreOf(c.Start());
    AllSeen(c.parser.lim, start, rs);
    assert [] + Dispatches(c.parser.lim, rs) == Dispatches(c.parser.lim, rs);
    AllIsReports(c.parser.lim, c.parser.mach, c.Start(), stream);
    WhatTheAppGets(c, stream);
  }

  // ---------------------------------------------------------------- requests that are not served

  lemma {:induction false} NothingInvalid(rs: seq<Sent>)
    ensures Invalid(false) !in AllTokens(rs)
  {
    if rs != [] {
      NothingInvalid(rs[..|rs| - 1]);
      TokensValid(rs[|rs| - 1]);
    }
  }

  lemma TokensValid(r: Sent)
    ensures Invalid(false) !in Tokens(r)
  {
    FieldsValid(r.fields);
    FieldsValid(r.trailers);
  }

  lemma {:induction false} FieldsValid(fields: seq<Head.Header>)
    ensures Invalid(false) !in FieldsTokens(fields)
  {
    if fields != [] {
      FieldsValid(fields[..|fields| - 1]);
    }
  }

  /** A request that stops, behind others that are served and after which the connection is kept: on every
      connection that gets such a stream, in whatever pieces, the app is called for the others and no more,
      and then the server's own text with the status of the fate is sent. */
  lemma BadRequestAnswered<S(!new)>(c: Connection<S>, stream: seq<byte>, rs: seq<Sent>, bad: Sent, rest: seq<Token>)
    requires c.Ready() && c.input <= stream && c.Done(stream)
    requires Said(c.parser.mach, c.parser.mach.init, stream) == AllTokens(rs) + Tokens(bad) + rest
    requires Invalid(false) !in rest
    requires forall i :: 0 <= i < |rs| ==> WellFormed(rs[i]) && FateOf(c.parser.lim, rs[i]) == Called
    requires WellFormed(bad) && FateOf(c.parser.lim, bad).Stopped?
    requires !SomeTooLong(bad.fields) && !SomeTooLong(bad.trailers)
    requires forall i :: 0 < i <= |rs| ==> Keeps(c.su, Dispatches(c.parser.lim, rs)[..i])
    ensures c.History() == Dispatches(c.parser.lim, rs)
    ensures var status := FateOf(c.parser.lim, bad).status;
            var n := |c.causes| - 1;
              && |c.wire| == |c.causes| && n >= 0 && c.causes[n] == Fatal(status)
              && c.wire[n] == [c.su.errorText(c.causes, status)]
  {
    hide Reports, All, FateOf, WellFormed, Connection.Ready, Connection.Done, Keeps, Messages, Dispatches, Tokens;
    hide SomeTooLong, AllTokens;
    var lim, start := c.parser.lim, CoreOf(c.Start());
    AllSeen(lim, start, rs);
    assert [] + Dispatches(lim, rs) == Dispatches(lim, rs);
    var served := Reports(lim, start, AllTokens(rs));
    ReportsAppend(lim, start, AllTokens(rs) + Tokens(bad), rest);
    ReportsAppend(lim, start, AllTokens(rs), Tokens(bad));
    WhatIsSentIsSeen(lim, served, bad);
    StopsStays(lim, served, Reports(lim, served, Tokens(bad)), FateOf(lim, bad).status, rest);
    NothingInvalid(rs);
    TokensValid(bad);
    AllIsReports(lim, c.parser.mach, c.Start(), stream);
    Prefix(c, stream);
    Grows(lim, c.parser.mach, c.Start(), stream, c.processed, |stream|);
    HistoryKept(c.su, c.History(), Dispatches(lim, rs));
    FailureAnswered(c, stream);
  }

  lemma HistoryKept(su: Setup, told: seq<Event>, all: seq<Event>)
    requires told <= all && forall i :: 0 < i <= |all| ==> Keeps(su, all[..i])
    ensures forall i :: 0 < i <= |told| ==> Keeps(su, told[..i])
  {
    hide Keeps;
    assert forall i :: 0 < i <= |told| ==> told[..i] == all[..i];
  }

  /** Input that the parser finds invalid within a message is answered with 400, and a version of HTTP that there
      is not with 505, whatever was read before. */
  lemma InvalidAnswered<S(!new)>(c: Connection<S>, stream: seq<byte>, before: seq<Token>, version: bool,
                                 rest: seq<Token>)
    requires c.Ready() && c.input <= stream && c.Done(stream)
    requires Said(c.parser.mach, c.parser.mach.init, stream) == before + [Invalid(version)] + rest
    requires if version then Invalid(false) !in before + rest else c.parser.at != Idle
    requires var d := Reports(c.parser.lim, CoreOf(c.Start()), before); !d.failed && !d.cut && !d.long
    requires forall i :: 0 < i <= |c.History()| ==> Keeps(c.su, c.History()[..i])
    ensures c.History() == Reports(c.parser.lim, CoreOf(c.Start()), before).events
    ensures var n, status := |c.causes| - 1, if version then 505 else 400;
              && |c.wire| == |c.causes| && n >= 0 && c.causes[n] == Fatal(status)
              && c.wire[n] == [c.su.errorText(c.causes, status)]
  {
    hide Reports, All, Connection.Ready, Connection.Done, Keeps, Messages;
    var lim, start, bad := c.parser.lim, CoreOf(c.Start()), Invalid(version);
    var d := Reports(lim, start, before);
    ReportsAppend(lim, start, before + [bad], rest);
    ReportsAppend(lim, start, before, [bad]);
    ReportsOne(lim, d, bad);
    StopsStays(lim, d, Report(lim, d, bad), if version then 505 else 400, rest);
    AllIsReports(lim, c.parser.mach, c.Start(), stream);
    FailureAnswered(c, stream);
  }

  // ---------------------------------------------------------------- which header counts

  /** The header gives the environ the key `k`. */
  predicate Shown(f: Head.Header, k: Key) {
    !Hidden(f) && KeyOf(f) == k
  }

  /** A key that no header gives is as it was. */
  lemma {:induction false} Untouched(env: Env, fields: seq<Head.Header>, k: Key)
    requires forall i :: 0 <= i < |fields| ==> !Shown(fields[i], k)
    ensures k in Seen(env, fields) <==> k in env
    ensures k in env ==> Seen(env, fields)[k] == env[k]
  {
    hide Hidden, KeyOf;
    if fields != [] {
      assert !Shown(fields[|fields| - 1], k);
      Untouched(env, fields[..|fields| - 1], k);
    }
  }

  /** A key has the value of the last header that gives it. */
  lemma {:induction false} LastWins(env: Env, fields: seq<Head.Header>, i: nat, k: Key)
    requires i < |fields| && Shown(fields[i], k) && forall j :: i < j < |fields| ==> !Shown(fields[j], k)
    ensures k in Seen(env, fields) && Seen(env, fields)[k] == fields[i].value
    decreases |fields|
  {
    hide Hidden, KeyOf;
    var n := |fields| - 1;
    if i < n {
      assert !Shown(fields[n], k);
      LastWins(env, fields[..n], i, k);
    }
  }
}
