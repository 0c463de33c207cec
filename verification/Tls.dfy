/**
 Encrypting a response: the SSL_write loop and the draining of the outgoing BIO (fastwsgi/tls.c). The
 SSL layer is what section 5 of RFC 8446 lets it be: it takes some of the bytes offered and emits
 records of its own choosing for them.
 */
module Tls {
  import opened Bytes
  import opened Xbuf

  /** Section 5.1 of RFC 8446: the most that one record carries. */
  const MAX_RECORD: nat := 0x4000

  /** One record: what it carries, and how it looks on the wire. */
  datatype Record = Record(plain: seq<byte>, cipher: seq<byte>)

  /** What a client decrypts from the records. */
  function Plain(records: seq<Record>): seq<byte> {
    if records == [] then [] else records[0].plain + Plain(records[1..])
  }

  function Cipher(records: seq<Record>): seq<byte> {
    if records == [] then [] else records[0].cipher + Cipher(records[1..])
  }

  lemma {:induction false} RecordsAppend(a: seq<Record>, b: seq<Record>)
    ensures Plain(a + b) == Plain(a) + Plain(b) && Cipher(a + b) == Cipher(a) + Cipher(b)
  {
    if a == [] {
      assert a + b == b;
    } else {
      calc {
        Plain(a + b);
        { assert (a + b)[1..] == a[1..] + b; }
        a[0].plain + Plain(a[1..] + b);
        { RecordsAppend(a[1..], b); }
        a[0].plain + (Plain(a[1..]) + Plain(b));
        Plain(a) + Plain(b);
      }
      calc {
        Cipher(a + b);
        { assert (a + b)[1..] == a[1..] + b; }
        a[0].cipher + Cipher(a[1..] + b);
        { RecordsAppend(a[1..], b); }
        a[0].cipher + (Cipher(a[1..]) + Cipher(b));
        Cipher(a) + Cipher(b);
      }
    }
  }

  lemma NoRecords()
    ensures Plain([]) == [] && Cipher([]) == [] && Concat<byte>([]) == []
  {
  }

  /** What SSL_write may do with `data`: fail, or take `rc` bytes and emit records for exactly those. */
  predicate Written(data: seq<byte>, rc: int, records: seq<Record>) {
    if rc <= 0 then records == []
    else rc <= |data| && Plain(records) == data[..rc] && forall r :: r in records ==> |r.plain| <= MAX_RECORD
  }

  class Session {
    const hasSsl: bool
    const hasBio: bool
    /** Which of the calls to the layers below fail: SSL_write, SSL_read, BIO_read, and allocations. */
    const fails: nat -> bool
    var calls: nat
    var handshakeDone: bool
    const encOut: Xbuf
    var bioOut: seq<byte>
    /** All records emitted so far. */
    ghost var log: seq<Record>
    /** rx.buf, and how much of it is filled. */
    const rx: array<byte>
    var rxSize: nat
    /** What the SSL layer has decrypted and not handed out. */
    var plainIn: seq<byte>
    var closeNotify: bool

    constructor (hasSsl: bool, hasBio: bool, handshakeDone: bool, encOut: Xbuf, rx: array<byte>, fails: nat -> bool)
      ensures this.rx == rx && rxSize == 0 && plainIn == [] && !closeNotify && this.fails == fails && calls == 0
      ensures this.hasSsl == hasSsl && this.hasBio == hasBio && this.handshakeDone == handshakeDone
      ensures this.encOut == encOut && bioOut == [] && log == []
    {
      this.hasSsl, this.hasBio, this.handshakeDone, this.encOut := hasSsl, hasBio, handshakeDone, encOut;
      bioOut, log := [], [];
      this.rx, rxSize, plainIn, closeNotify, this.fails, calls := rx, 0, [], false, fails, 0;
    }

    /** No call failed since the first n of them. */
    ghost predicate NoneFailed(n: nat)
      reads `calls
    {
      forall k :: n <= k < calls ==> !fails(k)
    }

    // -------------------------------------------------------------- the layers below

    /** SSL_write: never offered more than a record holds. */
    method SslWrite(data: seq<byte>) returns (rc: int, ghost records: seq<Record>)
      requires 0 < |data| <= MAX_RECORD
      modifies this`bioOut, this`log, this`calls
      ensures Written(data, rc, records) && calls == old(calls) + 1 && (rc <= 0 <==> fails(old(calls)))
      ensures log == old(log) + records && bioOut == old(bioOut) + Cipher(records)
    {
      rc := *;
      var emitted: seq<Record> := *;
      if fails(calls) {
        rc, emitted := if rc > 0 then 0 else rc, [];
      } else if rc <= 0 || !Written(data, rc, emitted) {
        rc, emitted := |data|, [Record(data, [])];
        assert Plain(emitted) == data + Plain([]) == data[..|data|];
      }
      calls := calls + 1;
      records := emitted;
      log := log + records;
      bioOut := bioOut + Cipher(emitted);
    }

    /** BIO_read: some of the pending bytes; `retry` tells an empty BIO from a failure. */
    method BioRead(max: nat) returns (rc: int, got: seq<byte>, retry: bool)
      requires max >= 1
      modifies this`bioOut, this`calls
      ensures calls == old(calls) + 1 && (rc < 0 && !retry <==> fails(old(calls)))
      ensures rc == |got| || (rc < 0 && got == [])
      ensures |got| <= max && old(bioOut) == got + bioOut
      ensures rc == 0 || (rc < 0 && retry) ==> bioOut == []
    {
      rc, retry := *, true;
      got := [];
      calls := calls + 1;
      if fails(calls - 1) {
        rc, retry := -1, false;
      } else if bioOut == [] {
        rc := if rc < 0 then rc else 0;
      } else {
        rc := if rc < 1 then 1 else if rc > max then max else rc;
        rc := if rc > |bioOut| then |bioOut| else rc;
        got := bioOut[..rc];
        bioOut := bioOut[rc..];
      }
    }

    /** SSL_read: some of the decrypted bytes, or one of the reasons why there are none. */
    method SslRead(max: nat) returns (rc: int, got: seq<byte>, wantRead: bool, zeroReturn: bool)
      requires max >= 1
      modifies this`plainIn, this`calls
      ensures calls == old(calls) + 1 && (rc <= 0 && !wantRead && !zeroReturn <==> fails(old(calls)))
      ensures rc > 0 ==> rc == |got| <= max && old(plainIn) == got + plainIn
      ensures rc <= 0 ==> got == [] && plainIn == old(plainIn) && (wantRead || zeroReturn ==> plainIn == [])
    {
      var n: nat := *;
      rc, got, wantRead, zeroReturn := -1, [], false, false;
      calls := calls + 1;
      if fails(calls - 1) { return; }
      if plainIn == [] {
        zeroReturn := *;
        wantRead := !zeroReturn;
      } else {
        n := if 1 <= n <= max && n <= |plainIn| then n else 1;
        rc, got := n, plainIn[..n];
        plainIn := plainIn[n..];
      }
    }

    // -------------------------------------------------------------- tls.c

    /** The bytes BIO_read stores behind the contents of enc_out. */
    method Take(got: seq<byte>)
      requires encOut.Owned() && encOut.data != null && encOut.size + |got| < encOut.capacity
      modifies encOut`size, encOut.data
      ensures encOut.Owned() && encOut.Contents() == old(encOut.Contents()) + got
    {
      forall i | 0 <= i < |got| { encOut.data[encOut.size + i] := got[i]; }
      encOut.size := encOut.size + |got|;
    }

    /** xbuf_expand of enc_out; only a block that is asked for can be refused. */
    method Grow(n: nat) returns (ok: bool)
      requires encOut.Owned() && encOut.size + n + 8 <= MAX_NEED
      modifies this`calls, encOut, encOut.heap
      ensures encOut.Owned() && (encOut.data == old(encOut.data) || fresh(encOut.data))
      ensures calls >= old(calls) && (ok <==> NoneFailed(old(calls)))
      ensures encOut.Contents() == old(encOut.Contents())
      ensures ok ==> encOut.data != null && encOut.size + n + 8 <= encOut.capacity
    {
      var before := encOut.data;
      ok := encOut.Expand(n, fails(calls));
      if !ok || encOut.data != before {
        calls := calls + 1;
      }
    }

    /** bio_drain_to_xbuf: all that is pending, in order, however BIO_read cuts it. */
    method DrainBio() returns (hr: int)
      requires encOut.Owned()
      modifies this`bioOut, this`calls, encOut, encOut.heap, encOut.data
      ensures encOut.Owned() && (encOut.data == old(encOut.data) || fresh(encOut.data)) && calls >= old(calls)
      ensures hr >= 0 <==> |old(encOut.Contents())| + |old(bioOut)| < 0x3FFF_FFFF && NoneFailed(old(calls))
      ensures hr >= 0 ==>
                bioOut == [] && encOut.Contents() == old(encOut.Contents()) + old(bioOut) && hr == |old(bioOut)|
    {
      var total := 0;
      while true
        invariant encOut.Owned() && (encOut.data == old(encOut.data) || fresh(encOut.data))
        invariant calls >= old(calls) && NoneFailed(old(calls))
        invariant total == 0 || |old(encOut.Contents())| + |old(bioOut)| < 0x3FFF_FFFF
        invariant encOut.Contents() + bioOut == old(encOut.Contents()) + old(bioOut)
        invariant total + |bioOut| == |old(bioOut)|
        decreases |bioOut|
      {
        var size := |bioOut|;
        if size >= INT_MAX / 2 { return -3; }
        if encOut.size + size >= INT_MAX / 2 { return -3; }
        var ok := Grow(size + 1);
        if !ok { return -4; }
        ghost var before, pending := encOut.Contents(), bioOut;
        var rc, got, retry := BioRead(if size == 0 then 1 else size);
        if rc < 0 {
          return if retry then total else -9;
        }
        if rc == 0 { return total; }
        Take(got);
        total := total + rc;
        assert before + got + bioOut == before + pending;
      }
    }

    /** tls_drain_to_enc_out */
    method DrainToEncOut(chunkIdx: nat) returns (hr: int)
      requires encOut.Owned()
      modifies this`bioOut, this`calls, encOut, encOut.heap, encOut.data
      ensures encOut.Owned() && (encOut.data == old(encOut.data) || fresh(encOut.data)) && calls >= old(calls)
      ensures hr >= 0 <==>
                && hasBio && NoneFailed(old(calls))
                && (if chunkIdx == 0 then 0 else |old(encOut.Contents())|) + |old(bioOut)| < 0x3FFF_FFFF
      ensures hr >= 0 ==>
                bioOut == [] &&
                encOut.Contents() == (if chunkIdx == 0 then [] else old(encOut.Contents())) + old(bioOut)
    {
      if !hasBio { return -1; }
      if chunkIdx == 0 {
        encOut.Reset();
      }
      hr := DrainBio();
    }

    /** tls_encrypt: the data goes to the SSL layer in pieces that fit a record, whatever it takes of each. */
    method Encrypt(data: seq<byte>, chunkIdx: nat) returns (hr: int, ghost sent: seq<Record>)
      requires encOut.Owned()
      modifies this`bioOut, this`log, this`calls, encOut, encOut.heap, encOut.data
      ensures encOut.Owned() && (encOut.data == old(encOut.data) || fresh(encOut.data)) && calls >= old(calls)
      ensures log == old(log) + sent && forall r :: r in sent ==> |r.plain| <= MAX_RECORD
      ensures hr >= 0 <==>
                || !hasSsl || data == []
                || (handshakeDone && hasBio && NoneFailed(old(calls))
                    && (if chunkIdx == 0 then 0 else |old(encOut.Contents())|) + |old(bioOut) + Cipher(sent)|
                       < 0x3FFF_FFFF)
      ensures !hasSsl || data == [] ==> calls == old(calls)
      ensures hr >= 0 && hasSsl && data != [] ==>
                && handshakeDone && Plain(sent) == data && bioOut == []
                && encOut.Contents() == (if chunkIdx == 0 then [] else old(encOut.Contents())) + old(bioOut)
                  + Cipher(sent)
      ensures !hasSsl ==> hr == 0
    {
      hide Plain, Cipher;
      NoRecords();
      sent := [];
      if !hasSsl || |data| == 0 { return 0, []; }
      if !handshakeDone { return -1, []; }
      var written := 0;
      while written < |data|
        invariant 0 <= written <= |data| && encOut.Owned() && encOut.data == old(encOut.data)
        invariant encOut.Contents() == old(encOut.Contents()) && calls >= old(calls) && NoneFailed(old(calls))
        invariant log == old(log) + sent && forall r :: r in sent ==> |r.plain| <= MAX_RECORD
        invariant Plain(sent) == data[..written] && bioOut == old(bioOut) + Cipher(sent)
      {
        var n := if |data| - written > 16384 then 16384 else |data| - written;
        ghost var before := sent;
        var rc, records := SslWrite(data[written..written + n]);
        RecordsAppend(before, records);
        sent := before + records;
        assert log == old(log) + sent;
        if rc < 0 { return -4, sent; }
        if rc == 0 { return -6, sent; }
        assert data[..written + rc] == data[..written] + data[written..written + n][..rc];
        written := written + rc;
      }
      assert data[..written] == data;
      hr := DrainToEncOut(chunkIdx);
    }

    /** One turn of the loop of tls_data_encode; `pending` was in the BIO before all of it. */
    method EncodeOne(buf: seq<byte>, chunkIdx: int, ghost done: seq<byte>, ghost before: seq<Record>,
                     ghost pending: seq<byte>)
      returns (next: int, ok: bool, ghost sent: seq<Record>)
      requires encOut.Owned() && chunkIdx >= -1 && (chunkIdx == -1 ==> buf != [] && done == [] && before == [])
      requires hasSsl && chunkIdx >= 0 ==>
                 handshakeDone && bioOut == [] && Plain(before) == done && encOut.Contents() == pending + Cipher(before)
      requires chunkIdx == -1 ==> bioOut == pending
      modifies this`bioOut, this`log, this`calls, encOut, encOut.heap, encOut.data
      ensures encOut.Owned() && (encOut.data == old(encOut.data) || fresh(encOut.data)) && calls >= old(calls)
      ensures ok <==>
                || buf == [] || !hasSsl
                || (handshakeDone && hasBio && NoneFailed(old(calls)) && |pending + Cipher(sent)| < 0x3FFF_FFFF)
      ensures buf == [] || !hasSsl ==> calls == old(calls)
      ensures buf == [] ==> sent == before
      ensures exists records ::
                && log == old(log) + records && sent == before + records
                && forall r :: r in records ==> |r.plain| <= MAX_RECORD
      ensures next >= 0
      ensures ok && hasSsl ==>
                && handshakeDone && bioOut == [] && Plain(sent) == done + buf
                && encOut.Contents() == pending + Cipher(sent)
    {
      hide Plain, Cipher;
      next, ok, sent := chunkIdx, true, before;
      assert log == log + [] && before == before + [] && done + [] == done;
      if |buf| > 0 {
        next := chunkIdx + 1;
        var rc, records := Encrypt(buf, next);
        RecordsAppend(before, records);
        NoRecords();
        sent := before + records;
        ok := rc >= 0;
        assert pending + Cipher(before) + [] + Cipher(records) == pending + (Cipher(before) + Cipher(records));
        assert [] + pending + Cipher(records) == pending + ([] + Cipher(records));
      }
    }

    /** tls_data_encode succeeds exactly when there is something to send, the handshake is done, nothing below it
        failed and all of it is less than 1 GiB. Then enc_out is what was pending before, followed by records
        that decrypt to the buffers in order, none of them larger than a record may be. */
    method DataEncode(bufs: seq<seq<byte>>, totalLen: int) returns (hr: int, ghost sent: seq<Record>)
      requires encOut.Owned() && totalLen + 512 <= MAX_NEED
      modifies this`bioOut, this`log, this`calls, encOut, encOut.heap, encOut.data
      ensures encOut.Owned() && log == old(log) + sent && forall r :: r in sent ==> |r.plain| <= MAX_RECORD
      ensures hr >= 0 <==>
                && bufs != [] && bufs[0] != [] && totalLen >= 0 && NoneFailed(old(calls))
                && (hasSsl ==> handshakeDone && hasBio && |old(bioOut) + Cipher(sent)| < 0x3FFF_FFFF)
      ensures hr >= 0 && hasSsl ==>
                && hr == encOut.size && bioOut == []
                && Plain(sent) == Concat(bufs) && encOut.Contents() == old(bioOut) + Cipher(sent)
    {
      hide Plain, Cipher, Concat;
      sent := [];
      if |bufs| <= 0 || totalLen < 0 { return -2, sent; }
      if |bufs[0]| == 0 { return -4, sent; }
      encOut.Reset();
      var dataSize := totalLen + 512;
      if dataSize > encOut.capacity {
        var ok := encOut.Resize(dataSize, false, fails(calls));
        calls := calls + 1;
        if !ok { return -5, sent; }
      }
      var chunkIdx := -1;
      NoRecords();
      for idx := 0 to |bufs|
        invariant encOut.Owned() && (encOut.data == old(encOut.data) || fresh(encOut.data))
        invariant log == old(log) + sent && forall r :: r in sent ==> |r.plain| <= MAX_RECORD
        invariant calls >= old(calls) && NoneFailed(old(calls))
        invariant idx >= 1 && hasSsl ==> hasBio && |old(bioOut) + Cipher(sent)| < 0x3FFF_FFFF
        invariant chunkIdx >= -1 && (chunkIdx == -1 <==> idx == 0)
        invariant idx >= 1 && hasSsl ==>
          handshakeDone && bioOut == [] && Plain(sent) == Concat(bufs[..idx])
          && encOut.Contents() == old(bioOut) + Cipher(sent)
        invariant idx == 0 ==> sent == [] && bioOut == old(bioOut) && Concat(bufs[..idx]) == []
      {
        assert bufs[..idx + 1] == bufs[..idx] + [bufs[idx]];
        ConcatSnoc(bufs[..idx], bufs[idx]);
        var ok;
        chunkIdx, ok, sent := EncodeOne(bufs[idx], chunkIdx, Concat(bufs[..idx]), sent, old(bioOut));
        if !ok { return -10, sent; }
      }
      assert bufs[..|bufs|] == bufs;
      hr := encOut.size;
    }

    /** tls_read_decrypted: what was decrypted is appended in order until none is left or the buffer is full. */
    method ReadDecrypted() returns (hr: int)
      requires rxSize <= rx.Length
      modifies this`rxSize, this`plainIn, this`closeNotify, this`calls, rx
      ensures old(rxSize) <= rxSize <= rx.Length && calls >= old(calls)
      ensures hr >= 0 <==> hasSsl && (handshakeDone ==> old(rxSize) < rx.Length && NoneFailed(old(calls)))
      ensures rx[..rxSize] + plainIn == old(rx[..rxSize] + plainIn)
      ensures hr >= 0 ==> hr == rxSize - old(rxSize)
      ensures hr >= 0 && hasSsl && handshakeDone ==> plainIn == [] || rxSize == rx.Length
      ensures !hasSsl ==> hr == -1
    {
      if !hasSsl { return -1; }
      if !handshakeDone { return 0; }
      var total := 0;
      while true
        invariant old(rxSize) <= rxSize <= rx.Length && total == rxSize - old(rxSize)
        invariant calls >= old(calls) && NoneFailed(old(calls)) && (total > 0 ==> old(rxSize) < rx.Length)
        invariant total > 0 ==> rxSize < rx.Length
        invariant rx[..rxSize] + plainIn == old(rx[..rxSize] + plainIn)
        decreases rx.Length - rxSize
      {
        var chunkLen := rx.Length - rxSize;
        if chunkLen <= 0 { return -4; }
        var rc, got, wantRead, zeroReturn := SslRead(chunkLen);
        if rc <= 0 {
          if wantRead { return total; }
          if zeroReturn {
            closeNotify := true;
            return total;
          }
          return -5;
        }
        ghost var before, pending := rx[..rxSize], plainIn;
        forall i | 0 <= i < rc { rx[rxSize + i] := got[i]; }
        rxSize := rxSize + rc;
        total := total + rc;
        assert rx[..rxSize] == before + got;
        assert before + (got + pending) == before + got + pending;
        if rxSize == rx.Length { return total; }
      }
    }
  }
}
