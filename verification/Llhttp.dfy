/**
 The HTTP parser as the server sees it: a machine that reads one byte at a time and reports what it
 finds, and llhttp_execute, which collects the bytes of an element up to the end of the buffer before
 it calls back, and pauses behind a message.
 */
module Llhttp {
  import opened Bytes
  import opened Request

  /** `phase` tells where in a message each state is. */
  datatype Machine<!S(!new)> = Machine(init: S, step: (S, byte) -> (S, seq<Token>), phase: S -> Phase)

  /** Where the reports `ts` lead from `p`, unless they come in a wrong order. */
  function Follow(p: Phase, ts: seq<Token>): Option<Phase>
    decreases |ts|
  {
    if ts == [] then Some(p)
    else match Next(p, ts[0])
      case None => None
      case Some(q) => Follow(q, ts[1..])
  }

  lemma FollowCons(p: Phase, ts: seq<Token>)
    requires ts != [] && Follow(p, ts).Some?
    ensures Next(p, ts[0]).Some? && Follow(p, ts) == Follow(Next(p, ts[0]).value, ts[1..])
  {
  }

  lemma FollowNone(p: Phase)
    ensures Follow(p, []) == Some(p)
  {
  }

  lemma {:induction false} FollowAppend(p: Phase, a: seq<Token>, b: seq<Token>)
    ensures Follow(p, a + b) ==
            match Follow(p, a)
            case None => None
            case Some(q) => Follow(q, b)
    decreases |a|
  {
    if a == [] {
      assert a + b == b;
    } else {
      assert (a + b)[1..] == a[1..] + b;
      match Next(p, a[0])
      case None =>
      case Some(q) => FollowAppend(q, a[1..], b);
    }
  }

  /** Reports come in order, and a message's end is the last report of its byte: the machine then starts
      afresh. */
  ghost predicate Ordered<S(!new)>(mach: Machine<S>) {
    && mach.phase(mach.init) == Idle
    && forall s: S, b: byte ::
         && Follow(mach.phase(s), mach.step(s, b).1) == Some(mach.phase(mach.step(s, b).0))
         && (forall i :: 0 <= i < |mach.step(s, b).1| && mach.step(s, b).1[i].MessageEnd? ==>
               i == |mach.step(s, b).1| - 1 && mach.step(s, b).0 == mach.init)
  }

  // ---------------------------------------------------------------- byte by byte

  /** What became of the reports so far; `status` is the one a failure is answered with. `long` is set by a
      header name of 32 KiB less 5 bytes or more; `cut` by a refused expectation, which ends the message with
      its headers. */
  datatype Core = Core(m: Msg, events: seq<Event>, failed: bool, status: int, long: bool, cut: bool)

  function Report(lim: Limits, c: Core, t: Token): Core {
    match t
    case Data(k, b) =>
      (match Feed(lim, c.m, k, [b])
       case Go(m) => c.(m := m)
       case Stop(status) => c.(failed := true, status := status, long := c.long || k == Field))
    case HeadersEnd(length, keepAlive) =>
      if Refuses(lim, c.m, length) then c.(events := c.events + [Reject(keepAlive)], cut := true)
      else (match HeadersDone(lim, c.m, length)
            case Go(m) => c.(m := m)
            case Stop(status) => c.(failed := true, status := status))
    case MessageEnd(keepAlive) =>
      (match MessageDone(c.m)
       case Go(m) => c.(events := c.events + [Dispatch(Finished(lim, m, keepAlive))])
       case Stop(status) => c.(failed := true, status := status))
    case _ =>
      match Mark(lim, c.m, t)
      case Go(m) => c.(m := m)
      case Stop(status) => c.(failed := true, status := status)
  }

  function Reports(lim: Limits, c: Core, ts: seq<Token>): Core
    decreases |ts|
  {
    if ts == [] || c.failed || c.cut then c else Reports(lim, Report(lim, c, ts[0]), ts[1..])
  }

  /** `garbled` is set once the machine reports invalid input other than a version, also behind a failure. */
  datatype Run<S> =
    Run(s: S, m: Msg, events: seq<Event>, failed: bool, status: int, long: bool, garbled: bool)

  /** Nothing was read yet. */
  function Start<S(!new)>(lim: Limits, mach: Machine<S>): Run<S> {
    Run(mach.init, New(lim), [], false, 0, false, false)
  }

  /** Between two bytes. */
  function CoreOf<S>(r: Run<S>): Core {
    Core(r.m, r.events, r.failed, r.status, r.long, false)
  }

  function OneByte<S(!new)>(lim: Limits, mach: Machine<S>, r: Run<S>, b: byte): Run<S> {
    var next := mach.step(r.s, b);
    var c := Reports(lim, CoreOf(r), next.1);
    Run(if c.cut then mach.init else next.0, c.m, c.events, c.failed, c.status, c.long, 
        r.garbled || Invalid(false) in next.1)
  }

  /** Everything that comes of `input`. */
  function All<S(!new)>(lim: Limits, mach: Machine<S>, r: Run<S>, input: seq<byte>): Run<S> {
    if input == [] then r
    else OneByte(lim, mach, All(lim, mach, r, input[..|input| - 1]), input[|input| - 1])
  }

  lemma {:induction false} AllAppend<S(!new)>(lim: Limits, mach: Machine<S>, r: Run<S>, a: seq<byte>, b: seq<byte>)
    ensures All(lim, mach, r, a + b) == All(lim, mach, All(lim, mach, r, a), b)
  {
    if b == [] {
      assert a + b == a;
    } else {
      var n := |b| - 1;
      AllAppend(lim, mach, r, a, b[..n]);
      assert (a + b)[..|a + b| - 1] == a + b[..n];
    }
  }

  /** Nothing that happened is undone. */
  lemma {:induction false} ReportsMonotone(lim: Limits, c: Core, ts: seq<Token>)
    ensures c.long ==> Reports(lim, c, ts).long
    ensures c.failed ==> Reports(lim, c, ts) == c
    ensures c.events <= Reports(lim, c, ts).events
    ensures !Reports(lim, c, ts).failed ==> Reports(lim, c, ts).status == c.status
    decreases |ts|
  {
    if ts != [] && !c.failed && !c.cut {
      ReportsMonotone(lim, Report(lim, c, ts[0]), ts[1..]);
    }
  }

  lemma ReportsCons(lim: Limits, c: Core, ts: seq<Token>)
    requires ts != []
    ensures Reports(lim, c, ts) == Reports(lim, Reports(lim, c, [ts[0]]), ts[1..])
  {
    assert [ts[0]][1..] == [];
  }

  lemma ReportsData(lim: Limits, c: Core, k: Kind, b: byte)
    ensures Reports(lim, c, [Data(k, b)]) ==
            if c.failed || c.cut then c
            else match Feed(lim, c.m, k, [b])
                 case Go(m) => c.(m := m)
                 case Stop(status) => c.(failed := true, status := status, long := c.long || k == Field)
  {
    assert [Data(k, b)][1..] == [];
  }

  lemma ReportsMark(lim: Limits, c: Core, t: Token)
    requires !t.Data? && !t.HeadersEnd? && !t.MessageEnd?
    ensures Reports(lim, c, [t]) ==
            if c.failed || c.cut then c
            else match Mark(lim, c.m, t)
                 case Go(m) => c.(m := m)
                 case Stop(status) => c.(failed := true, status := status)
  {
    hide Mark;
    assert [t][1..] == [];
  }

  lemma LongStays<S(!new)>(lim: Limits, mach: Machine<S>, r: Run<S>, b: byte)
    ensures r.long ==> OneByte(lim, mach, r, b).long
  {
    ReportsMonotone(lim, CoreOf(r), mach.step(r.s, b).1);
  }

  lemma {:induction false} LongStay<S(!new)>(lim: Limits, mach: Machine<S>, r: Run<S>, input: seq<byte>)
    ensures r.long ==> All(lim, mach, r, input).long
  {
    if input != [] {
      var n := |input| - 1;
      LongStay(lim, mach, r, input[..n]);
      LongStays(lim, mach, All(lim, mach, r, input[..n]), input[n]);
    }
  }

  /** What failed stays as it is. */
  lemma {:induction false} FailedStay<S(!new)>(lim: Limits, mach: Machine<S>, r: Run<S>, input: seq<byte>)
    ensures r.failed ==> CoreOf(All(lim, mach, r, input)) == CoreOf(r)
  {
    if input != [] {
      FailedStay(lim, mach, r, input[..|input| - 1]);
    }
  }

  lemma {:induction false} GarbledStays<S(!new)>(lim: Limits, mach: Machine<S>, r: Run<S>, input: seq<byte>)
    ensures r.garbled ==> All(lim, mach, r, input).garbled
  {
    if input != [] {
      GarbledStays(lim, mach, r, input[..|input| - 1]);
    }
  }

  /** The events of a longer input extend those of a shorter one. */
  lemma {:induction false} EventsGrow<S(!new)>(lim: Limits, mach: Machine<S>, r: Run<S>, input: seq<byte>)
    ensures r.events <= All(lim, mach, r, input).events
  {
    if input != [] {
      var n := |input| - 1;
      EventsGrow(lim, mach, r, input[..n]);
      var mid := All(lim, mach, r, input[..n]);
      ReportsMonotone(lim, CoreOf(mid), mach.step(mid.s, input[n]).1);
    }
  }

  // ---------------------------------------------------------------- in fragments

  /** The machine, between two messages, finds nothing to report in `bytes`, such as the line ends that may
      precede a request. */
  predicate Quiet<S(!new)>(mach: Machine<S>, s: S, bytes: seq<byte>) {
    bytes == [] || (mach.step(s, bytes[0]).1 == [] && Quiet(mach, mach.step(s, bytes[0]).0, bytes[1..]))
  }

  datatype Verdict = Continue | Paused | Failed

  class Parser<S(!new)> {
    const lim: Limits
    const mach: Machine<S>
    const cb: Parsing
    var s: S
    /** The fragment being collected. */
    var kind: Kind
    var span: seq<byte>
    /** The parser's reason for giving up is the version. */
    var badVersion: bool

    ghost var run: Run<S>
    /** The reports of the byte being read, and where they have led. */
    ghost var core: Core
    ghost var at: Phase

    /** The callbacks are behind the reports by the fragment being collected, and by nothing else. */
    ghost predicate Linked()
      reads `kind, `span, `badVersion, `core, `at, cb
    {
      && cb.lim == lim && cb.Valid() && !badVersion
      && (if span == [] then cb.phase == at else NextData(cb.phase, kind) == Some(at))
      && (cb.phase != Idle ==> cb.lastChunkTime == 0)
      && (!core.long ==>
            if span == [] then !core.failed && (at != Idle ==> cb.msg == core.m)
            else match Feed(lim, cb.msg, kind, span)
                 case Go(m) => !core.failed && core.m == m
                 case Stop(status) => core.failed && core.status == status && kind != Field)
    }

    /** Between two bytes. */
    ghost predicate Synced()
      reads this, cb
    {
      && Linked() && Ordered(mach) && at == mach.phase(s) && !core.cut && run.long == core.long
      && (!run.long ==>
            && run.failed == core.failed && run.status == core.status && run.s == s
            && (!run.failed ==> run == Run(s, core.m, core.events, false, 0, false, run.garbled)))
    }

    constructor (lim: Limits, mach: Machine<S>, cb: Parsing)
      requires Ordered(mach) && cb.lim == lim && cb.Valid() && cb.phase == Idle
      ensures this.lim == lim && this.mach == mach && this.cb == cb
      ensures Synced() && span == [] && at == Idle && s == mach.init
      ensures run == Start(lim, mach)
    {
      this.lim, this.mach, this.cb, s, kind, span := lim, mach, cb, mach.init, Url, [];
      run := Start(lim, mach);
      core := CoreOf(Start(lim, mach));
      at := Idle;
      badVersion := false;
    }

    /** The status that a failure is answered with. */
    function Code(): int
      reads `badVersion, cb
    {
      if badVersion then 505 else StatusOf(cb.error)
    }

    /** The failure is answered with its status. Invalid input is not: the parser does not call back for the
        fragment in front of it, and the error in the fields stays what it was, none in a message. */
    ghost predicate Told(before: int, garbled: bool)
      reads `core, `at, `badVersion, cb
    {
      core.status == Code() || (garbled && !badVersion && cb.error == (if at == Idle then before else 0))
    }

    lemma NoError()
      requires Linked() && at != Idle
      ensures cb.error == 0
    {
    }

    /** The callback for the fragment. */
    method Flush() returns (ok: bool)
      requires Linked()
      modifies `span, cb
      ensures !core.long ==> ok == !core.failed && (!ok ==> core.status == Code())
      ensures ok ==> Linked() && span == []
      ensures old(span) == [] ==> ok && unchanged(cb)
    {
      hide UrlDone, FieldDone, HeaderDone, HeadersDone, MessageDone;
      if span == [] { return true; }
      var rc;
      match kind {
        case Url => rc := cb.OnUrl(span);
        case Protocol => rc := cb.OnProtocol(span);
        case Field =>
          NameLimit(lim, cb.msg, span);
          rc := cb.OnHeaderField(span);
        case Value => rc := cb.OnHeaderValue(span);
        case BodyData => rc := cb.OnBody(span);
      }
      span := [];
      ok := rc >= 0;
    }

    /** A byte of an element. */
    method TakeData(k: Kind, b: byte) returns (r: Verdict)
      requires Linked() && Next(at, Data(k, b)).Some? && !core.cut
      modifies `kind, `span, `core, `at, cb
      ensures core == Reports(lim, old(core), [Data(k, b)]) && r != Paused
      ensures !core.long && r == Failed ==>
                core.failed && core.events == old(core.events) && Told(old(cb.error), false)
      ensures r == Failed ==> at == old(at)
      ensures r == Continue ==>
                Linked() && Some(at) == Next(old(at), Data(k, b)) && !core.cut && core.events == old(core.events)
    {
      hide Feed, Mark, HeadersDone, MessageDone, Parsing.Valid, Report, Reports;
      ReportsData(lim, core, k, b);
      if span != [] && kind != k {
        var ok := Flush();
        if !ok {
          core := Reports(lim, core, [Data(k, b)]);
          return Failed;
        }
      }
      FeedNone(lim, cb.msg, k);
      FeedSplit(lim, cb.msg, k, span, [b]);
      kind := k;
      span := span + [b];
      core := Reports(lim, core, [Data(k, b)]);
      at := Next(at, Data(k, b)).value;
      return Continue;
    }

    /** The callback for a report that neither ends the headers nor the message. */
    method CallMark(t: Token, now: nat) returns (rc: int)
      requires cb.Valid() && Next(cb.phase, t).Some?
      requires !t.Data? && !t.Invalid? && !t.HeadersEnd? && !t.MessageEnd?
      requires cb.phase != Idle ==> cb.lastChunkTime == 0
      modifies cb
      ensures cb.phase != Idle ==> cb.lastChunkTime == 0
      ensures match Mark(cb.lim, old(cb.msg), t)
              case Go(m) => rc >= 0 && cb.Valid() && cb.msg == m && Some(cb.phase) == Next(old(cb.phase), t)
              case Stop(status) => rc < 0 && status == StatusOf(cb.error)
    {
      hide UrlDone, FieldDone, HeaderDone, HeadersDone, MessageDone, Parsing.Valid;
      match t {
        case Begin => rc := cb.OnMessageBegin(now, false);
        case Method(name) => rc := cb.OnMethodComplete(name);
        case UrlEnd => rc := cb.OnUrlComplete();
        case ProtocolEnd => rc := cb.OnProtocolComplete();
        case Version(major, minor) => rc := cb.OnVersionComplete(major, minor);
        case FieldEnd => rc := cb.OnHeaderFieldComplete();
        case ValueEnd => rc := cb.OnHeaderValueComplete();
      }
    }

    /** The request that a finished message leaves in the fields, or the refusal of its expectation. */
    ghost function Outcome(): Event
      reads cb
    {
      if cb.loadState == 6 then Dispatch(Served(cb.headers, cb.input, cb.keepAlive)) else Reject(cb.keepAlive)
    }

    /** A message is complete: the timers are off and its outcome is known. */
    ghost predicate Complete()
      reads cb
    {
      && cb.phase == Idle && cb.startTime == cb.updateTime == cb.lastChunkTime == 0
      && ((cb.loadState == 6 && cb.error == 0) || (cb.loadState == 5 && cb.error == 417))
    }

    /** The end of the headers, and of the message when it is refused. */
    method TakeHeadersEnd(length: nat, keepAlive: bool) returns (r: Verdict)
      requires Linked() && span == [] && at == Fields(false) && !core.cut && (!core.long ==> !core.failed)
      modifies `core, `at, cb
      ensures core == Reports(lim, old(core), [HeadersEnd(length, keepAlive)])
      ensures !core.long && r == Failed ==>
                core.failed && core.events == old(core.events) && Told(old(cb.error), false)
      ensures r == Failed ==> at == old(at)
      ensures r == Continue ==>
                && Linked() && span == [] && at == Fields(true)
                && (!core.long ==> core.events == old(core.events) && !core.cut)
      ensures r == Paused ==>
                Linked() && span == [] && at == Idle && Complete()
                && (!core.long ==> core.events == old(core.events) + [Outcome()] && core.cut)
    {
      hide UrlDone, FieldDone, HeaderDone, MessageDone;
      assert [HeadersEnd(length, keepAlive)][1..] == [];
      core := Reports(lim, core, [HeadersEnd(length, keepAlive)]);
      var rc := cb.OnHeadersComplete(length, true);
      if rc < 0 { return Failed; }
      if rc == 1 {
        var _ := cb.OnMessageComplete(keepAlive);
        at := Idle;
        return Paused;
      }
      at := Fields(true);
      return Continue;
    }

    method TakeMessageEnd(keepAlive: bool) returns (r: Verdict)
      requires Linked() && span == [] && at == Fields(true) && !core.cut && (!core.long ==> !core.failed)
      modifies `core, `at, cb
      ensures core == Reports(lim, old(core), [MessageEnd(keepAlive)]) && !core.cut
      ensures !core.long && r == Failed ==>
                core.failed && core.events == old(core.events) && Told(old(cb.error), false)
      ensures r == Failed ==> at == old(at)
      ensures r != Continue
      ensures r == Paused ==>
                Linked() && span == [] && at == Idle && Complete()
                && (!core.long ==> core.events == old(core.events) + [Outcome()])
    {
      hide UrlDone, FieldDone, HeaderDone, HeadersDone, Finished;
      assert [MessageEnd(keepAlive)][1..] == [];
      core := Reports(lim, core, [MessageEnd(keepAlive)]);
      var rc := cb.OnMessageComplete(keepAlive);
      if rc < 0 { return Failed; }
      at := Idle;
      return Paused;
    }

    /** One report. */
    method Take(t: Token, now: nat) returns (r: Verdict)
      requires Linked() && Next(at, t).Some? && !core.cut
      modifies `kind, `span, `badVersion, `core, `at, cb
      ensures core == Reports(lim, old(core), [t])
      ensures !core.long && r == Failed ==>
                core.failed && core.events == old(core.events) && Told(old(cb.error), t == Invalid(false))
      ensures r == Failed && at == Idle ==> old(at) == Idle
      ensures r == Continue ==>
                Linked() && Some(at) == Next(old(at), t) && at != Idle
                && (!core.long ==> !core.cut && core.events == old(core.events))
      ensures r == Paused ==>
                Linked() && span == [] && at == Idle && Complete() && (t.MessageEnd? || t.HeadersEnd?)
                && (!core.long ==> core.events == old(core.events) + [Outcome()] && (t.MessageEnd? <==> !core.cut))
    {
      hide Feed, Mark, HeadersDone, MessageDone, Parsing.Valid, Outcome, Report, Reports;
      if t.Data? {
        r := TakeData(t.kind, t.b);
        return;
      }
      ReportsMonotone(lim, core, [t]);
      MarkEnds(lim, core.m);
      if !t.HeadersEnd? && !t.MessageEnd? { ReportsMark(lim, core, t); }
      if t.Invalid? {
        if at != Idle { NoError(); }
        badVersion := t.version;
        core := Reports(lim, core, [t]);
        return Failed;
      }
      var ok := Flush();
      if !ok {
        core := Reports(lim, core, [t]);
        return Failed;
      }
      if t.HeadersEnd? {
        r := TakeHeadersEnd(t.length, t.keepAlive);
      } else if t.MessageEnd? {
        r := TakeMessageEnd(t.keepAlive);
      } else {
        MarkEnds(lim, cb.msg);
        core := Reports(lim, core, [t]);
        at := Next(at, t).value;
        var rc := CallMark(t, now);
        r := if rc < 0 then Failed else Continue;
      }
    }

    /** The reports of one byte, in turn. */
    method TakeAll(ts: seq<Token>, ghost end: Phase, now: nat) returns (r: Verdict, ghost rest: seq<Token>)
      requires Linked() && Follow(at, ts) == Some(end) && !core.cut
      requires forall i :: 0 <= i < |ts| && ts[i].MessageEnd? ==> i == |ts| - 1
      modifies `kind, `span, `badVersion, `core, `at, cb
      ensures old(core).long ==> core.long
      ensures core.long ==> old(core).long || Reports(lim, old(core), ts).long
      ensures !core.long ==> Reports(lim, core, rest) == Reports(lim, old(core), ts)
      ensures !core.long && r == Failed ==>
                core.failed && core.events == old(core.events) && Told(old(cb.error), Invalid(false) in ts)
      ensures r == Failed && at == Idle ==> old(at) == Idle
      ensures r == Continue ==>
                Linked() && at == end && rest == [] && (!core.long ==> !core.cut && core.events == old(core.events))
                && (at == Idle ==> unchanged(cb) && span == old(span))
      ensures r == Continue && at == Idle <==> old(at) == Idle && ts == []
      ensures r == Paused ==>
                Linked() && span == [] && at == Idle && Complete()
                && (!core.long ==> core.events == old(core.events) + [Outcome()])
                && (!core.long ==> core.cut || (rest == [] && ts != [] && ts[|ts| - 1].MessageEnd?))
    {
      hide Feed, Mark, HeadersDone, MessageDone, Parsing.Valid, Outcome, Complete, Report, Reports, Linked, Next;
      hide Follow;
      var i := 0;
      rest := ts;
      assert ts[0..] == ts;
      while i < |ts|
        invariant 0 <= i <= |ts| && rest == ts[i..] && Linked() && !core.cut
        invariant Follow(at, rest) == Some(end)
        invariant at == Idle ==> unchanged(cb) && span == old(span) && old(at) == Idle && i == 0
        invariant i == 0 ==> at == old(at)
        invariant old(core).long ==> core.long
        invariant core.long ==> old(core).long || Reports(lim, old(core), ts).long
        invariant !core.long ==> core.events == old(core.events)
        invariant !core.long ==> Reports(lim, core, rest) == Reports(lim, old(core), ts)
      {
        assert rest[0] == ts[i] && rest[1..] == ts[i + 1..];
        ReportsCons(lim, core, rest);
        ReportsMonotone(lim, core, [ts[i]]);
        FollowCons(at, rest);
        r := Take(ts[i], now);
        rest := rest[1..];
        ReportsMonotone(lim, core, rest);
        if r != Continue { return; }
        Uncut(core.long);
        i := i + 1;
      }
      FollowNone(at);
      r := Continue;
    }

    /** Beyond a name that is too long the two readings may differ about refused expectations. */
    ghost method Uncut(long: bool)
      requires Linked() && (core.long ==> long)
      modifies `core
      ensures Linked() && core == old(core).(cut := false, long := long)
    {
      core := core.(cut := false, long := long);
    }

    /** One byte: the machine's step, and a callback for each report. */
    method Byte(b: byte, now: nat) returns (r: Verdict)
      requires Synced()
      modifies `s, `kind, `span, `badVersion, `core, `at, `run, cb
      ensures run == OneByte(lim, mach, old(run), b)
      ensures !run.long && r == Failed ==>
                && run.failed && run.events == old(run.events) && run.status == core.status
                && Told(old(cb.error), run.garbled)
      ensures r == Failed && at == Idle ==> old(at) == Idle
      ensures r == Continue ==> Synced() && (!run.long ==> run.events == old(run.events))
      ensures r == Continue && at == Idle ==> unchanged(cb) && span == old(span)
      ensures r == Continue && at == Idle <==> old(at) == Idle && mach.step(old(s), b).1 == []
      ensures r == Continue ==> s == mach.step(old(s), b).0
      ensures r == Paused ==>
                Synced() && span == [] && at == Idle && Complete() && (!run.long ==> !run.failed)
                && (!run.long ==> run.events == old(run.events) + [Outcome()])
    {
      hide Feed, Mark, HeadersDone, MessageDone, Parsing.Valid, Outcome, Complete, Report, Linked, Follow;
      var next := mach.step(s, b);
      ReportsMonotone(lim, CoreOf(run), mach.step(run.s, b).1);
      ghost var rest;
      ReportsMonotone(lim, core, next.1);
      run := OneByte(lim, mach, run, b);
      s := next.0;
      r, rest := TakeAll(next.1, mach.phase(next.0), now);
      ReportsMonotone(lim, core, rest);
      if r == Paused {
        s := mach.init;
      }
      if r != Failed {
        Uncut(run.long);
      }
    }

    /** llhttp_execute, up to the end of the buffer or the first end of a message. */
    method Execute(buf: seq<byte>, now: nat) returns (r: Verdict, n: nat)
      requires Synced() && span == []
      modifies `s, `kind, `span, `badVersion, `core, `at, `run, cb
      ensures n <= |buf| && run == All(lim, mach, old(run), buf[..n])
      ensures !run.long && r == Failed ==>
                && run.failed && run.events == old(run.events) && run.status == core.status
                && Told(old(cb.error), run.garbled)
      ensures r == Failed && at == Idle ==> old(at) == Idle
      ensures r == Continue ==>
                n == |buf| && Synced() && span == [] && (!run.long ==> !run.failed && run.events == old(run.events))
      ensures r == Continue && at == Idle ==> unchanged(cb)
      ensures r == Continue && at == Idle <==> old(at) == Idle && Quiet(mach, old(s), buf)
      ensures r == Paused ==>
                n >= 1 && Synced() && span == [] && at == Idle && Complete()
                && (!run.long ==> !run.failed && run.events == old(run.events) + [Outcome()])
    {
      hide Feed, Mark, HeadersDone, MessageDone, Parsing.Valid, Outcome, Complete, Report, Reports, Code, Follow;
      n := 0;
      assert buf[0..] == buf;
      while n < |buf|
        invariant n <= |buf| && Synced() && run == All(lim, mach, old(run), buf[..n])
        invariant !run.long ==> run.events == old(run.events)
        invariant at == Idle ==> unchanged(cb) && span == [] && old(at) == Idle
        invariant old(at) == Idle && Quiet(mach, old(s), buf) <==> at == Idle && Quiet(mach, s, buf[n..])
      {
        assert buf[n..][0] == buf[n] && buf[n..][1..] == buf[n + 1..];
        assert buf[..n + 1][..n] == buf[..n];
        LongStays(lim, mach, run, buf[n]);
        r := Byte(buf[n], now);
        n := n + 1;
        if r != Continue { return; }
      }
      var ok := Flush();
      r := if ok then Continue else Failed;
    }

    // -------------------------------------------------------------- between the messages

    /** A portion of the request in progress, if there is one, came in. */
    method Touch(now: nat)
      requires Synced()
      modifies cb`updateTime
      ensures Synced() && cb.updateTime == if cb.startTime != 0 then now else old(cb.updateTime)
    {
      if cb.startTime != 0 {
        cb.updateTime := now;
      }
    }

    /** What the response to the message before leaves in the fields it shares with the requests. */
    method Leave(error: int, lastChunkTime: nat)
      requires Synced() && span == [] && at == Idle
      modifies cb`error, cb`lastChunkTime, cb`loadState
      ensures Synced() && cb.error == error && cb.lastChunkTime == lastChunkTime && cb.loadState == 0
    {
      cb.error := error;
      cb.lastChunkTime := lastChunkTime;
      cb.loadState := 0;
    }

    /** An error outlives its callback only between messages. */
    lemma ErrorMeansIdle()
      requires Synced() && span == [] && cb.error != 0
      ensures at == Idle
    {
    }
  }
}
