/**
 One plain-TCP connection of a WSGI server: the receive buffer with its parse cursor, the freezing of
 reads while requests wait in it, and the exchange of requests and responses (fastwsgi/server.c).
 */
module Connection {
  import opened Bytes
  import opened Request
  import opened Llhttp
  import opened Exchange

  datatype RxStatus = Resting | Reading | Freezed | Fail
  datatype State = Accept | ReqRead | ReqParse | RespBuild | RespSend | RespSended | RespEnd | Destroy

  class Connection<S(!new)> {
    const su: Setup
    const parser: Parser<S>
    const data: array<byte>          // rx.buf, read_buffer_size bytes
    var size: nat
    var parsedSize: nat
    var status: RxStatus
    var reading: bool                // uv_read_start is in effect
    var state: State
    var inFlight: bool               // write_req is in use
    var causes: seq<Cause>           // why each response was made
    var plan: Plan                   // the last response, and what it has still to write
    var left: seq<seq<byte>>
    var closing: bool                // shut down or closed: nothing more is modelled

    ghost var input: seq<byte>       // all that was received
    ghost var processed: nat         // how much of it went through the parser
    ghost var wire: seq<seq<seq<byte>>>  // the writes of each response

    /** What the app was told. */
    ghost function History(): seq<Event>
      reads `causes
    {
      Messages(causes)
    }

    /** The buffer holds the end of the input; what is not parsed yet is frozen, and only that is. */
    ghost predicate Buffer()
      reads `size, `parsedSize, `status, `input, `processed, data
    {
      && data.Length >= 1 && parsedSize <= size <= data.Length && size <= |input|
      && data[..size] == input[|input| - size..] && processed == |input| - (size - parsedSize)
      && status != Fail && (status == Freezed <==> parsedSize < size)
    }

    /** Every response on the wire is the answer to its cause, and complete, but the last while a write is
        in flight. */
    ghost predicate Serial()
      reads `inFlight, `plan, `left, `causes, `wire
    {
      && Carried(su, causes, wire, left) && Explained(su, causes) && Kept(su, causes)
      && (inFlight ==> causes != []) && (!inFlight ==> left == []) && (causes != [] ==> plan == PlanFor(su, causes))
    }

    ghost function Start(): Run<S>
    {
      Llhttp.Start(parser.lim, parser.mach)
    }

    /** The status that input which cannot be parsed is answered with: that of the failure, unless the parser
        found the input invalid before the failure showed. Then it is 400 in a message, and between two
        messages that of the `error` left over. */
    ghost predicate Judged(status: int, error: int)
      reads parser
    {
      || status == parser.run.status
      || (parser.run.garbled && status == StatusOf(if parser.at == Idle then error else 0))
    }

    /** Only input that cannot be parsed is answered so. */
    ghost predicate Ended()
      reads `causes, parser
    {
      !parser.run.long && causes != [] && causes[|causes| - 1].Fatal? ==>
        parser.run.failed && Judged(causes[|causes| - 1].status, Leftover(su, causes[..|causes| - 1]))
    }

    /** The parser has gone through the processed input, and the messages are what comes of it. */
    ghost predicate Logged()
      reads `input, `processed, `causes, parser
    {
      && processed <= |input| && parser.run == All(parser.lim, parser.mach, Start(), input[..processed])
      && (!parser.run.long ==> History() == parser.run.events) && Ended()
    }

    /** Between two messages the fields that requests and responses share are as the responses so far left
        them. */
    ghost predicate Between()
      reads `causes, parser, parser.cb
    {
      parser.at == Idle ==>
        && parser.cb.error == Leftover(su, causes)
        && (causes != [] ==> parser.cb.startTime == parser.cb.updateTime == 0)
        && (History() != [] ==> parser.cb.keepAlive == KeepAliveOf(History()[|History()| - 1]))
    }

    /** What holds while the connection is open: nothing is read while requests wait in the buffer or a
        response is on its way, and then no message is begun and its timers are off. */
    ghost predicate Open()
      reads this, data, parser, parser.cb
    {
      && Buffer() && parser.Synced() && parser.span == [] && Between()
      && (reading ==> status != Freezed && !inFlight)
      && (inFlight <==> state == RespSend)
      && (inFlight ==> parser.at == Idle && state != Destroy)
      && (inFlight && causes != [] && causes[|causes| - 1].Of? ==> parser.cb.lastChunkTime == 0)
      && (causes != [] ==> !causes[|causes| - 1].Fatal? && (!inFlight ==> plan.keep))
    }

    /** In read_cb: there is something to parse, and nothing is on its way. */
    ghost predicate Loaded()
      reads this, data, parser, parser.cb
    {
      && data.Length >= 1 && parsedSize < size <= data.Length && size <= |input|
      && data[..size] == input[|input| - size..] && processed == |input| - (size - parsedSize)
      && (status == Freezed || (status == Reading && reading))
      && parser.Synced() && parser.span == [] && Between() && !inFlight && state != RespSend && left == []
      && (causes != [] ==> !causes[|causes| - 1].Fatal? && plan.keep)
    }

    ghost predicate Valid()
      reads this, data, parser, parser.cb
    {
      Serial() && Logged() && (!closing ==> Open())
    }

    /** Between two callbacks of libuv an open connection is always waiting for one. */
    ghost predicate Ready()
      reads this, data, parser, parser.cb
    {
      Valid() && (!closing && !inFlight ==> reading)
    }

    /** An error is left over between two messages, and `bytes` begin none. */
    ghost predicate Owing(bytes: seq<byte>)
      reads parser, parser.cb
    {
      parser.cb.error != 0 && parser.at == Idle && Quiet(parser.mach, parser.s, bytes)
    }

    /** What became of bytes that were parsed: without a message, a response is begun exactly when one was
        `owed`, and behind a message it is known whether more bytes wait. */
    ghost predicate Asked(begun: seq<Cause>, owed: bool, error: int, keepAlive: bool)
      reads `input, `processed, `closing, parser
    {
      if begun == [] then !owed && !closing && processed == |input|
      else match begun[0]
           case Of(_, reset) => !owed && reset == (processed == |input|)
           case Stale(status, kept) => owed && status == StatusOf(error) && kept == keepAlive
           case Fatal(status) => !owed && closing && (!parser.run.long ==> parser.run.failed && Judged(status, error))
    }

    constructor (su: Setup, parser: Parser<S>, bufSize: nat)
      requires bufSize >= 1 && parser.Synced() && parser.span == [] && parser.at == Idle && parser.cb.error == 0
      requires parser.run == Llhttp.Start(parser.lim, parser.mach)
      ensures this.su == su && this.parser == parser && data.Length == bufSize && fresh(data)
      ensures Ready() && !closing && !inFlight && reading && input == [] && causes == [] && wire == []
    {
      this.su, this.parser := su, parser;
      data := new byte[bufSize](_ => 0);
      size, parsedSize, status, reading, state := 0, 0, Resting, true, ReqRead;
      inFlight, left, causes, closing := false, [], [], false;
      plan := Plan([], false, false, 0, false);
      input, processed, wire := [], 0, [];
    }

    /** stream_read_start: refused while requests wait in the buffer or a response is on its way. */
    method StreamReadStart()
      modifies `state, `reading
      ensures if status == Freezed || old(state) == RespSend then reading == old(reading) && state == old(state)
              else reading && state == ReqRead
    {
      if status == Freezed { return; }
      if state == RespSend { return; }
      state := ReqRead;
      reading := true;
    }

    /** The first write of a response: stream_write stops the reading. */
    method Respond(cause: Cause)
      requires Serial() && !inFlight && (causes != [] ==> plan.keep)
      requires cause.Stale? ==> Blamed(su, causes, cause)
      modifies `state, `reading, `inFlight, `plan, `left, `closing, `causes, `wire
      ensures Serial() && inFlight && state == RespSend && !reading
      ensures causes == old(causes) + [cause] && closing == (old(closing) || plan.shut)
      ensures History() == old(History()) + if cause.Of? then [cause.event] else []
    {
      hide Blamed, Messages, PlanFor, Carried, Explained, Kept;
      plan := PlanFor(su, causes + [cause]);
      reading := false;
      state := RespSend;
      inFlight := true;
      left := plan.writes[1..];
      MessagesSnoc(causes, cause);
      CarriedSnoc(su, causes, wire, cause);
      ExplainedSnoc(su, causes, cause);
      KeptSnoc(su, causes, cause);
      causes, wire := causes + [cause], wire + [[plan.writes[0]]];
      if plan.shut {
        closing := true;
      }
    }

    /** llhttp_execute on what is not parsed yet. */
    method Parse(now: nat) returns (r: Verdict, n: nat)
      requires Loaded() && Logged()
      modifies `processed, parser, parser.cb
      ensures n <= size - parsedSize && processed == old(processed) + n <= |input|
      ensures parser.run == All(parser.lim, parser.mach, Start(), input[..processed])
      ensures r == Failed && !parser.run.long ==>
                && parser.run.failed && parser.run.events == History()
                && Judged(parser.Code(), old(parser.cb.error))
      ensures r == Failed && parser.at == Idle ==> old(parser.cb.error) == Leftover(su, causes)
      ensures r == Continue ==> n == size - parsedSize && Logged() && parser.Synced() && parser.span == [] && Between()
      ensures r == Continue && parser.cb.error != 0 <==> old(Owing(data[parsedSize..size]))
      ensures r == Continue && parser.cb.error != 0 ==>
                parser.cb.error == old(parser.cb.error) && parser.cb.keepAlive == old(parser.cb.keepAlive)
      ensures r == Paused ==>
                && n >= 1 && parser.Synced() && parser.span == [] && parser.at == Idle && parser.Complete()
                && (!parser.run.long ==> parser.run.events == History() + [parser.Outcome()])
    {
      hide All, Parser.Synced, Parser.Complete, Parser.Outcome, Leftover, Messages, PlanFor, Quiet;
      ghost var before := parser.run;
      parser.Touch(now);
      var chunk := data[parsedSize..size];
      r, n := parser.Execute(chunk, now);
      AllAppend(parser.lim, parser.mach, Start(), input[..processed], chunk[..n]);
      LongStay(parser.lim, parser.mach, before, chunk[..n]);
      assert chunk == data[..size][parsedSize..];
      assert input[..processed] + chunk[..n] == input[..processed + n];
      processed := processed + n;
      if r == Continue && parser.cb.error != 0 { parser.ErrorMeansIdle(); }
    }

    /** read_cb behind a message's end: the rest of the buffer is frozen, if there is any. */
    method Advance(n: nat) returns (reset: bool)
      requires data.Length >= 1 && parsedSize + n <= size <= data.Length && size <= |input| && status != Fail
      requires data[..size] == input[|input| - size..] && processed == |input| - (size - parsedSize - n)
      requires state != RespSend
      modifies `parsedSize, `status, `state, `reading
      ensures Buffer() && state != RespSend && parsedSize == old(parsedSize) + n
      ensures reset == (status != Freezed)
    {
      parsedSize := parsedSize + n;
      reset := parsedSize == size;
      if reset {
        status := Reading;
        StreamReadStart();
      } else {
        status := Freezed;
        reading := false;
      }
    }

    /** The message that just ended is answered. */
    method Answer(reset: bool) returns (ghost cause: Cause)
      requires Serial() && !inFlight && !closing && state != RespSend && Buffer() && (causes != [] ==> plan.keep)
      requires parser.Synced() && parser.span == [] && parser.at == Idle && parser.Complete()
      requires processed <= |input| && parser.run == All(parser.lim, parser.mach, Start(), input[..processed])
      requires !parser.run.long ==> parser.run.events == History() + [parser.Outcome()]
      modifies `state, `reading, `inFlight, `plan, `left, `closing, `causes, `wire
      modifies parser.cb`error, parser.cb`lastChunkTime, parser.cb`loadState
      ensures Ready() && inFlight && closing == plan.shut
      ensures causes == old(causes) + [cause] && cause == Of(old(parser.Outcome()), reset)
    {
      hide All, Carried, Explained, Kept, Messages, PlanFor, Parser.Linked, Buffer;
      var cb := parser.cb;
      var event := if cb.loadState == 6 then Dispatch(Served(cb.headers, cb.input, cb.keepAlive))
                   else Reject(cb.keepAlive);
      cause := Of(event, reset);
      Respond(Of(event, reset));
      parser.Leave(plan.error, cb.lastChunkTime);
    }

    /** read_cb when all bytes are parsed and no message came to its end: more is to be read. */
    method Drained()
      requires data.Length >= 1 && size <= data.Length && size <= |input| && data[..size] == input[|input| - size..]
      requires processed == |input| && state != RespSend && (status == Freezed || (status == Reading && reading))
      modifies `parsedSize, `status, `state, `reading
      ensures Buffer() && state != RespSend && reading && status == Reading && parsedSize == size
    {
      parsedSize := size;
      if status == Freezed {
        status := Reading;
        StreamReadStart();
      }
    }

    /** An error is left over from the response before: a response is made although nothing was asked. */
    method Proceed() returns (ghost begun: seq<Cause>)
      requires Serial() && Logged() && Buffer() && !closing && !inFlight && state != RespSend
      requires parser.Synced() && parser.span == [] && Between() && status != Freezed && reading
      requires causes != [] ==> !causes[|causes| - 1].Fatal? && plan.keep
      modifies `state, `reading, `inFlight, `plan, `left, `closing, `causes, `wire
      ensures Ready() && !closing && causes == old(causes) + begun && (begun != [] ==> inFlight && !plan.shut)
      ensures begun == if parser.cb.error == 0 then [] else [Stale(StatusOf(parser.cb.error), parser.cb.keepAlive)]
    {
      hide All, Carried, Explained, Kept, Messages, PlanFor, Parser.Synced, Buffer;
      begun := [];
      if parser.cb.error != 0 {
        parser.ErrorMeansIdle();
        LeftoverKept(su, causes);
        var code := StatusOf(parser.cb.error);
        begun := [Stale(code, parser.cb.keepAlive)];
        StaleKept(su, causes, Stale(code, parser.cb.keepAlive));
        Respond(Stale(code, parser.cb.keepAlive));
      }
    }

    /** read_cb when the input cannot be parsed: send_fatal, then the connection is shut down. */
    method GiveUp(ghost error: int) returns (ghost cause: Cause)
      requires Serial() && !closing && !inFlight && (causes != [] ==> plan.keep)
      requires processed <= |input| && parser.run == All(parser.lim, parser.mach, Start(), input[..processed])
      requires !parser.run.long ==>
                 parser.run.failed && parser.run.events == History() && Judged(parser.Code(), error)
      requires parser.at == Idle ==> error == Leftover(su, causes)
      modifies `state, `reading, `inFlight, `plan, `left, `closing, `causes, `wire
      ensures Ready() && closing && inFlight && plan.shut && cause.Fatal? && causes == old(causes) + [cause]
      ensures !parser.run.long ==> Judged(cause.status, error)
    {
      hide All, Carried, Explained, Kept, Messages, PlanFor, Leftover;
      var code := parser.Code();
      cause := Fatal(code);
      FatalEnds(su, causes + [cause]);
      assert (causes + [cause])[..|causes|] == causes;
      Respond(Fatal(code));
    }

    /** read_cb when a message came to its end after n more bytes. */
    method Finish(n: nat) returns (ghost cause: Cause)
      requires Serial() && !inFlight && !closing && state != RespSend && (causes != [] ==> plan.keep)
      requires data.Length >= 1 && parsedSize + n <= size <= data.Length && size <= |input| && status != Fail
      requires data[..size] == input[|input| - size..] && processed == |input| - (size - parsedSize - n)
      requires parser.Synced() && parser.span == [] && parser.at == Idle && parser.Complete()
      requires parser.run == All(parser.lim, parser.mach, Start(), input[..processed])
      requires !parser.run.long ==> parser.run.events == History() + [parser.Outcome()]
      modifies `parsedSize, `status, `state, `reading, `inFlight, `plan, `left, `closing, `causes, `wire
      modifies parser.cb`error, parser.cb`lastChunkTime, parser.cb`loadState
      ensures Ready() && inFlight && closing == plan.shut && parsedSize == old(parsedSize) + n
      ensures causes == old(causes) + [cause] && cause == Of(old(parser.Outcome()), processed == |input|)
    {
      hide All, Messages, Parser.Synced, Parser.Complete, Parser.Outcome, Serial, Logged, Ready;
      var reset := Advance(n);
      cause := Answer(reset);
    }

    /** read_cb with bytes to parse, whether they were just received or were frozen. At most one response is
        begun: to the message that ends in them, to input that cannot be parsed, or, exactly when they begin
        no message, for an error that an earlier response left behind. */
    method ReadCb(now: nat) returns (ghost begun: seq<Cause>)
      requires Serial() && Logged() && Loaded() && !closing
      modifies this, parser, parser.cb
      ensures causes == old(causes) + begun && |begun| <= 1 && input == old(input)
      ensures Asked(begun, old(Owing(data[parsedSize..size])), old(parser.cb.error), old(parser.cb.keepAlive))
      ensures begun != [] ==> inFlight && closing == plan.shut
      ensures !closing ==> size - parsedSize < old(size - parsedSize)
      ensures Ready()
    {
      hide All, Quiet, Parser.Synced, Parser.Complete, Parser.Outcome, Buffer, Serial, Logged, Ready, Valid, Open;
      hide Between, Owing, Messages, History, Start, KeepAliveOf, StatusOf, Judged, Leftover;
      state := ReqParse;
      ghost var error := parser.cb.error;
      var r, n := Parse(now);
      if r == Failed {
        ghost var cause := GiveUp(error);
        begun := [cause];
      } else if r == Paused {
        ghost var cause := Finish(n);
        begun := [cause];
      } else {
        Drained();
        begun := Proceed();
      }
    }

    // -------------------------------------------------------------- what libuv calls

    /** alloc_cb: the buffer is reset only when all of it was parsed; there is always room. */
    method AllocCb() returns (len: nat)
      requires Ready() && !closing && reading
      modifies `size, `parsedSize, `status
      ensures len == data.Length && size == parsedSize == 0 && status == Reading && processed == |input|
    {
      len := 0;
      if status == Resting {
        status := Reading;
      }
      if status != Reading { return; }
      size := 0;
      parsedSize := 0;
      return data.Length;
    }

    /** Bytes arrive: libuv calls alloc_cb and then read_cb with what fits the buffer. */
    method Receive(bytes: seq<byte>, now: nat) returns (ghost begun: seq<Cause>)
      requires Ready() && !closing && reading && 1 <= |bytes| <= data.Length
      modifies this, data, parser, parser.cb
      ensures Ready() && input == old(input) + bytes
      ensures causes == old(causes) + begun && |begun| <= 1
      ensures begun != [] ==> inFlight && closing == plan.shut
      ensures !closing ==> size - parsedSize < |bytes|
      ensures Asked(begun, old(Owing(bytes)), old(parser.cb.error), old(parser.cb.keepAlive))
    {
      hide All, Owing, Asked, Parser.Synced, Carried, Explained, Kept, PlanFor, Leftover, History, Start;
      var len := AllocCb();
      forall i | 0 <= i < |bytes| { data[i] := bytes[i]; }
      assert data[..|bytes|] == bytes;
      assert (input + bytes)[..processed] == input[..processed];
      input := input + bytes;
      size := size + |bytes|;
      begun := ReadCb(now);
    }

    /** write_cb when something is still to be written. */
    method WriteNext()
      requires Ready() && !closing && inFlight && left != []
      modifies `left, `wire, parser.cb`error, parser.cb`lastChunkTime, parser.cb`loadState
      ensures Ready() && parser.cb.error == 0
    {
      hide All, Carried, Explained, Kept, Messages, PlanFor, Leftover, Parser.Linked, Buffer;
      parser.Leave(0, parser.cb.lastChunkTime);
      CarriedNext(su, causes, wire, left);
      ghost var n := |wire| - 1;
      wire := wire[n := wire[n] + [left[0]]];
      left := left[1..];
    }

    /** write_cb when the response is complete: the connection is closed or kept. */
    method Complete(now: nat)
      requires Ready() && !closing && inFlight && left == []
      modifies `state, `inFlight, `closing, parser.cb`error, parser.cb`lastChunkTime, parser.cb`loadState
      ensures Valid() && !inFlight && closing == !plan.keep && (!closing ==> state == RespEnd)
      ensures parser.cb.error == old(parser.cb.error)
      ensures plan.timed ==> parser.cb.lastChunkTime == now
      ensures !plan.timed ==> parser.cb.lastChunkTime == old(parser.cb.lastChunkTime)
    {
      hide All, Carried, Explained, Kept, PlanFor, Leftover, History, Start, Parser.Linked, Buffer;
      state := RespSended;
      inFlight := false;
      parser.Leave(parser.cb.error, if plan.timed then now else parser.cb.lastChunkTime);
      if !plan.keep {
        closing := true;
        state := Destroy;
        return;
      }
      state := RespEnd;
    }

    /** write_cb for the last write: a connection that is kept goes on with the requests that wait in the
        buffer, if there are any. */
    method WriteLast(now: nat) returns (ghost begun: seq<Cause>)
      requires Ready() && !closing && inFlight && left == []
      modifies this, parser, parser.cb
      ensures Ready() && input == old(input) && causes == old(causes) + begun && |begun| <= 1
      ensures !closing ==> old(plan).keep
      ensures !closing && old(status) == Freezed ==> size - parsedSize < old(size - parsedSize)
      ensures begun != [] ==> old(status) == Freezed && old(plan).keep
      ensures old(plan).keep && old(status) != Freezed ==>
                !closing && !inFlight && parser.at == Idle && parser.s == old(parser.s)
    {
      hide All, Carried, Explained, Kept, Messages, PlanFor, Leftover, Parser.Synced;
      begun := [];
      Complete(now);
      if closing { return; }
      if status == Freezed {
        begun := ReadCb(now);
      } else {
        StreamReadStart();
      }
    }

    /** write_cb: libuv reports the write in flight as done (0) or failed (negative). */
    method WriteCb(code: int, now: nat) returns (ghost begun: seq<Cause>)
      requires Ready() && !closing && inFlight && code <= 0
      modifies this, parser, parser.cb
      ensures Ready() && input == old(input) && causes == old(causes) + begun && |begun| <= 1
      ensures begun != [] ==> code == 0 && old(left) == [] && old(plan).keep && old(status) == Freezed
      ensures code == 0 && old(left) == [] && old(plan).keep && old(status) != Freezed ==>
                !closing && !inFlight && parser.at == Idle && parser.s == old(parser.s)
      ensures code < 0 ==> closing
    {
      hide All, Carried, Explained, Kept, Messages, PlanFor, Leftover, Parser.Synced;
      begun := [];
      if code < 0 {
        closing := true;
        state := Destroy;
      } else if left != [] {
        WriteNext();
      } else {
        begun := WriteLast(now);
      }
    }

    /** x_write_cb: the interim response to an expectation was written. Whenever that happens, reading goes
        on only if it may. */
    method InterimCb(code: int)
      requires Ready() && !closing
      modifies `state, `reading, `closing
      ensures Ready() && (closing <==> code != 0)
      ensures reading == (if closing then old(reading) else old(reading) || (status != Freezed && !inFlight))
    {
      hide All, Carried, Explained, Kept, Messages, PlanFor, Leftover, Parser.Synced;
      if code != 0 {
        closing := true;
        state := Destroy;
        return;
      }
      StreamReadStart();
    }

    /** read_cb with an error or the end of the stream; also a shutdown by the service timer. */
    method Disconnect()
      requires Ready() && !closing
      modifies `state, `reading, `closing
      ensures Ready() && closing
    {
      hide All, Carried, Explained, Kept, Messages, PlanFor, Leftover, Parser.Synced;
      reading := false;
      state := Destroy;
      closing := true;
    }

    /** client_aux_check, with a timeout of 0 for none: a connection is never shut down while a request is
        with the app or its response on its way. Only a response that no message asked for can be cut off:
        the wait for the next request is still timed then. */
    method AuxCheck(now: nat, readTimeout: nat, requestTimeout: nat, nextTimeout: nat) returns (fired: bool)
      requires Ready() && !closing
      modifies `state, `reading, `closing
      ensures Ready() && closing == fired
      ensures fired <==>
              || (readTimeout != 0 && parser.cb.updateTime != 0 && now > parser.cb.updateTime + readTimeout)
              || (requestTimeout != 0 && parser.cb.startTime != 0 && now > parser.cb.startTime + requestTimeout)
              || (nextTimeout != 0 && parser.cb.lastChunkTime != 0 && now > parser.cb.lastChunkTime + nextTimeout)
      ensures inFlight && fired ==>
                && causes[|causes| - 1].Stale? && nextTimeout != 0 && parser.cb.lastChunkTime != 0
                && now > parser.cb.lastChunkTime + nextTimeout
    {
      hide All, Carried, Explained, Kept, Messages, PlanFor, Leftover, Parser.Synced;
      fired := false;
      if readTimeout != 0 && parser.cb.updateTime != 0 {
        if now > parser.cb.updateTime + readTimeout { fired := true; }
      }
      if requestTimeout != 0 && parser.cb.startTime != 0 {
        if now > parser.cb.startTime + requestTimeout { fired := true; }
      }
      if nextTimeout != 0 && parser.cb.lastChunkTime != 0 {
        if now > parser.cb.lastChunkTime + nextTimeout { fired := true; }
      }
      if fired {
        Disconnect();
      }
    }

    /** The order of requests and responses fails: the response to a refused expectation is complete, a line
        end follows, and a second response with the same status is made although nothing was asked. */
    method LineEndAfterRefusal(now: nat)
      requires Ready() && !closing && inFlight && causes == [Of(Reject(true), true)] && su.cfg.allowKeepalive
      requires data.Length >= 2 && status != Freezed && Quiet(parser.mach, parser.s, [13, 10])
      modifies this, data, parser, parser.cb
      ensures Ready() && History() == [Reject(true)] && causes == [Of(Reject(true), true), Stale(417, true)]
      ensures input == old(input) + [13, 10]
      ensures wire == [[su.errorText([Of(Reject(true), true)], 417)], [su.errorText(causes, 417)]]
    {
      hide All, Quiet, Explained, Kept, Parser.Synced, Buffer;
      assert |wire[0] + left| == 1;
      assert causes[..0] == [];
      var _ := WriteCb(0, now);
      ghost var begun := Receive([13, 10], now);
      OwnTextWritten(0);
      OwnTextWritten(1);
      assert causes[..1] == [Of(Reject(true), true)] && causes[..2] == causes;
    }

    // -------------------------------------------------------------- what every run keeps

    /** In every state the k-th response is the answer to the k-th cause, and nothing else; it is complete
        when a later one was begun or no write is in flight, and the last one unless the connection is kept.
        It answers the k-th message exactly while no response up to it was made without one. Nothing is read
        or parsed while a write is in flight. */
    lemma SerialExchange(k: nat)
      requires Ready() && k < |causes|
      ensures |wire| == |causes| && wire[k] != [] && wire[k] <= PlanAt(su, causes, k).writes
      ensures k + 1 < |causes| || !inFlight ==> wire[k] == PlanAt(su, causes, k).writes
      ensures k + 1 < |causes| ==> PlanAt(su, causes, k).keep
      ensures (forall i :: 0 <= i <= k ==> causes[i].Of?) ==> k < |History()| && causes[k].event == History()[k]
      ensures causes[k].Of? && !(forall i :: 0 <= i < k ==> causes[i].Of?) ==> |Messages(causes[..k])| < k
      ensures inFlight && !closing ==> !reading && parser.at == Idle
    {
      hide All, Explained, Messages, Parser.Synced, PlanFor;
      var n := |causes| - 1;
      PlanAtPrefix(su, causes, |causes|, k);
      assert wire[n] <= wire[n] + left;
      if !inFlight { assert wire[n] + [] == wire[n]; }
      if causes[k].Of? { PositionOf(causes, k); }
    }

    /** What is written when the app is not called: the server's text for the status of the cause. */
    lemma OwnTextWritten(k: nat)
      requires Ready() && k < |causes| && OwnStatus(causes[k]).Some?
      ensures |wire| == |causes| && wire[k] == [su.errorText(causes[..k + 1], OwnStatus(causes[k]).value)]
    {
      hide Carried, All, Explained, Messages, Parser.Synced, PlanFor;
      OwnText(su, causes, wire, left, k);
    }

    /** However the input was cut into reads and whenever the writes completed: what the app was told is
        what comes of the processed input, read byte by byte. */
    lemma Faithful()
      requires Ready() && !parser.run.long
      ensures History() == All(parser.lim, parser.mach, Start(), input[..processed]).events
      ensures !closing && parsedSize == size ==> History() == All(parser.lim, parser.mach, Start(), input).events
    {
      hide Carried, Explained, Kept, Messages, Parser.Synced, All;
      assert processed == |input| ==> input[..processed] == input;
    }

    /** Nothing more comes of what was sent so far: the connection ends with the last response, or it waits
        with all of `stream` received and parsed and every response complete. */
    ghost predicate Done(stream: seq<byte>)
      reads this
    {
      (causes != [] && !plan.keep) || (!closing && !inFlight && input == stream)
    }
  }

  lemma Prefix<S(!new)>(c: Connection<S>, stream: seq<byte>)
    requires c.Ready() && c.input <= stream
    requires !All(c.parser.lim, c.parser.mach, c.Start(), stream).long
    ensures c.processed <= |stream| && !c.parser.run.long
    ensures c.History() == All(c.parser.lim, c.parser.mach, c.Start(), stream[..c.processed]).events
    ensures c.parser.run == All(c.parser.lim, c.parser.mach, c.Start(), stream[..c.processed])
  {
    hide All, Connection.Serial, Connection.Open, Messages;
    assert stream[..c.processed] == c.input[..c.processed];
    Grows(c.parser.lim, c.parser.mach, c.Start(), stream, c.processed, |stream|);
  }

  lemma Grows<S(!new)>(lim: Limits, mach: Machine<S>, start: Run<S>, stream: seq<byte>, n: nat, m: nat)
    requires n <= m <= |stream|
    ensures All(lim, mach, start, stream[..n]).events <= All(lim, mach, start, stream[..m]).events
    ensures m == |stream| ==> stream[..m] == stream
    ensures All(lim, mach, start, stream[..n]).long ==> All(lim, mach, start, stream[..m]).long
    ensures All(lim, mach, start, stream[..n]).failed ==>
              All(lim, mach, start, stream[..m]).events == All(lim, mach, start, stream[..n]).events
  {
    hide All;
    var a, b := stream[..n], stream[n..m];
    assert a + b == stream[..m];
    AllAppend(lim, mach, start, a, b);
    LongStay(lim, mach, All(lim, mach, start, a), b);
    EventsGrow(lim, mach, All(lim, mach, start, a), b);
    FailedStay(lim, mach, All(lim, mach, start, a), b);
  }

  /** The connection was kept after every message but the last, and after that one unless it has nothing
      more to do for another reason than that all messages were given to the app. */
  lemma KeptSoFar<S(!new)>(c: Connection<S>, stream: seq<byte>)
    requires c.Ready() && c.input <= stream
    requires !All(c.parser.lim, c.parser.mach, c.Start(), stream).long
    ensures forall i :: 0 < i < |c.History()| ==> Keeps(c.su, c.History()[..i])
    ensures c.Done(stream) ==>
              || c.History() == All(c.parser.lim, c.parser.mach, c.Start(), stream).events
              || (c.History() != [] && !Keeps(c.su, c.History()))
  {
    hide All, Keeps, Messages, PlanFor, Carried, Explained, Kept, Connection.Open;
    forall i | 0 < i < |c.History()| ensures Keeps(c.su, c.History()[..i]) {
      KeptMessages(c.su, c.causes, i);
    }
    Prefix(c, stream);
    Grows(c.parser.lim, c.parser.mach, c.Start(), stream, c.processed, |stream|);
    if c.Done(stream) && c.causes != [] && !c.plan.keep {
      match c.causes[|c.causes| - 1]
      case Of(_, _) => KeepsIs(c.su, c.causes);
      case Stale(_, _) => LastStale(c.su, c.causes);
      case Fatal(_) =>
    } else if c.Done(stream) {
      AllParsed(c);
    }
  }

  lemma AllParsed<S(!new)>(c: Connection<S>)
    requires c.Ready() && !c.closing && !c.inFlight
    ensures c.processed == |c.input|
  {
    hide All, Connection.Serial, Connection.Logged, Parser.Synced;
  }

  /** Of all the messages in the stream, an app gets those up to the first after which the connection is not
      kept; a connection with nothing more to do has given it all of these. */
  lemma WhatTheAppGets<S(!new)>(c: Connection<S>, stream: seq<byte>)
    requires c.Ready() && c.input <= stream
    requires !All(c.parser.lim, c.parser.mach, c.Start(), stream).long
    ensures var all := All(c.parser.lim, c.parser.mach, c.Start(), stream).events;
              && c.History() <= all[..UpTo(c.su, all, 0)]
              && (c.Done(stream) ==> c.History() == all[..UpTo(c.su, all, 0)])
  {
    hide All, Connection.Ready, Connection.Serial, Keeps, UpTo, Messages, PlanFor;
    Prefix(c, stream);
    Grows(c.parser.lim, c.parser.mach, c.Start(), stream, c.processed, |stream|);
    var all := All(c.parser.lim, c.parser.mach, c.Start(), stream).events;
    KeptSoFar(c, stream);
    assert all[..|c.History()|] == c.History();
    assert forall i :: 0 < i < |c.History()| ==> all[..i] == c.History()[..i];
    UpToIs(c.su, all, 0, |c.History()|);
  }

  /** Two connections that get the same stream, cut in any two ways, tell their apps the same: what one has
      told is the beginning of what the other has, and when both have nothing more to do it is the same. */
  lemma SegmentationIndependent<S(!new)>(c: Connection<S>, d: Connection<S>, stream: seq<byte>)
    requires c.Ready() && d.Ready() && c.parser.lim == d.parser.lim && c.parser.mach == d.parser.mach && c.su == d.su
    requires c.input <= stream && d.input <= stream
    requires !All(c.parser.lim, c.parser.mach, c.Start(), stream).long
    ensures c.History() <= d.History() || d.History() <= c.History()
    ensures c.Done(stream) ==> d.History() <= c.History()
    ensures c.Done(stream) && d.Done(stream) ==> c.History() == d.History()
  {
    hide All, Connection.Ready, UpTo, Messages, Connection.Done;
    WhatTheAppGets(c, stream);
    WhatTheAppGets(d, stream);
  }

  // ---------------------------------------------------------------- input that cannot be parsed

  /** What failed on a part of the stream has failed in the same way on all of it. */
  lemma FailedPart<S(!new)>(c: Connection<S>, stream: seq<byte>)
    requires c.Ready() && c.input <= stream
    requires !All(c.parser.lim, c.parser.mach, c.Start(), stream).long
    ensures var all := All(c.parser.lim, c.parser.mach, c.Start(), stream);
              && (c.parser.run.failed ==> CoreOf(all) == CoreOf(c.parser.run))
              && (c.parser.run.garbled ==> all.garbled)
  {
    hide All, Connection.Serial, Connection.Open, Messages;
    Prefix(c, stream);
    var a, b := stream[..c.processed], stream[c.processed..];
    assert a + b == stream;
    AllAppend(c.parser.lim, c.parser.mach, c.Start(), a, b);
    FailedStay(c.parser.lim, c.parser.mach, c.parser.run, b);
    GarbledStays(c.parser.lim, c.parser.mach, c.parser.run, b);
  }

  /** Nothing is held back of a stream that was parsed to its end. */
  lemma NothingFailed<S(!new)>(c: Connection<S>)
    requires c.Ready() && !c.closing && !c.inFlight && !c.parser.run.long
    ensures !c.parser.run.failed && c.parser.run == All(c.parser.lim, c.parser.mach, c.Start(), c.input)
  {
    hide All, Connection.Serial, Connection.Ended, Parser.Told, Messages;
    AllParsed(c);
    assert c.input[..c.processed] == c.input;
  }

  /** When the connection is kept after every message of the stream, and has nothing more to do, its last
      response is the one to input that cannot be parsed exactly when the stream fails. Its text is then that
      of the status of the failure, unless the parser found invalid input. */
  lemma FailureAnswered<S(!new)>(c: Connection<S>, stream: seq<byte>)
    requires c.Ready() && c.input <= stream && c.Done(stream)
    requires !All(c.parser.lim, c.parser.mach, c.Start(), stream).long
    requires forall i :: 0 < i <= |c.History()| ==> Keeps(c.su, c.History()[..i])
    ensures var all := All(c.parser.lim, c.parser.mach, c.Start(), stream);
              && c.History() == all.events
              && (all.failed <==> c.causes != [] && c.causes[|c.causes| - 1].Fatal?)
              && (all.failed ==>
                    && var status := c.causes[|c.causes| - 1].status;
                       && |c.wire| == |c.causes| && c.wire[|c.causes| - 1] == [c.su.errorText(c.causes, status)]
                       && (!all.garbled ==> status == all.status)
                       && (all.garbled && all.status == 400 && c.parser.at != Idle ==> status == 400))
  {
    hide All, Keeps, Messages, PlanFor, Carried, Explained, Exchange.Kept, Connection.Open;
    Prefix(c, stream);
    FailedPart(c, stream);
    assert c.History()[..|c.History()|] == c.History();
    if c.causes != [] && c.causes[|c.causes| - 1].Fatal? {
      OwnText(c.su, c.causes, c.wire, c.left, |c.causes| - 1);
      assert c.causes[..|c.causes|] == c.causes;
    } else {
      if c.causes != [] && !c.plan.keep {
        match c.causes[|c.causes| - 1]
        case Of(_, _) => KeepsIs(c.su, c.causes);
        case Stale(_, _) => LastStale(c.su, c.causes);
      } else {
        NothingFailed(c);
      }
    }
  }
}
