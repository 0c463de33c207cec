/**
 The request body as it reaches the app: one io.BytesIO object, kept across the keep-alive
 requests of a connection (fastwsgi/request.c, reset_wsgi_input, on_body, on_message_complete).
 */
module RequestBody {
  import opened Bytes
  import opened BytesIO

  const HUGE: nat := 1024 * 1024

  class Body {
    const maxContentLength: nat
    const emptyBytes: PyBytes  // the empty bytes object every new io.BytesIO starts on
    var input: Stream?
    var inputSize: nat
    var error: int

    ghost predicate Valid()
      reads this, emptyBytes, input, if input == null then null else input.buf
    {
      && emptyBytes.val.Length == 0 && emptyBytes.refs >= 1
      && (input != null ==> input.Valid())
      && (input != null && input.buf == emptyBytes ==> emptyBytes.refs >= 2)
    }

    /** The objects a fragment may be written through. */
    ghost function Repr(): set<object>
      reads this, input, if input == null then null else input.buf
    {
      {this, emptyBytes, emptyBytes.val}
      + (if input == null then {} else {input})
      + (if input == null || input.buf == null then {} else {input.buf, input.buf.val})
    }

    /** The cached stream can take a body: the app neither closed it nor holds an export of it. */
    ghost predicate Usable()
      reads this, input
    {
      input != null ==> input.buf != null && input.exports == 0
    }

    constructor (maxContentLength: nat, emptyBytes: PyBytes)
      requires emptyBytes.val.Length == 0 && emptyBytes.refs >= 1
      ensures Valid() && Usable() && input == null && inputSize == 0
      ensures this.maxContentLength == maxContentLength && this.emptyBytes == emptyBytes
    {
      this.maxContentLength := maxContentLength;
      this.emptyBytes := emptyBytes;
      input, inputSize, error := null, 0, 0;
    }

    /** The contents of the stream up to the bytes received for this request. */
    ghost predicate Received(body: seq<byte>)
      reads this, emptyBytes, input, if input == null then null else input.buf,
            if input == null || input.buf == null then null else input.buf.val
      requires Valid()
    {
      && inputSize == |body|
      && (body != [] ==>
            && input != null && input.buf != null && input.exports == 0
            && input.pos == |body| <= input.stringSize && input.Content()[..|body|] == body)
    }

    /** reset_wsgi_input, from on_message_begin: a huge stream is dropped, any other is kept as it is. */
    method BeginMessage()
      requires Valid()
      modifies this
      ensures Valid() && Received([]) && error == 0
      ensures input == if old(inputSize) > HUGE then null else old(input)
    {
      error := 0;
      if inputSize > HUGE {
        input := null;
      }
      inputSize := 0;
    }

    /** The start of on_body: make the stream, or rewind the cached one for a first fragment. */
    method Prepare(ghost body: seq<byte>)
      requires Valid() && Received(body)
      modifies this`input, this`inputSize, emptyBytes`refs, input
      ensures Valid() && Received(body) && input != null
      ensures Usable() == old(Usable()) && inputSize == old(inputSize) && emptyBytes.refs >= old(emptyBytes.refs)
      ensures old(input) != null ==> input == old(input) && input.buf == old(input.buf)
      ensures old(input) == null ==> fresh(input) && input.buf == emptyBytes
      ensures input.buf != null && inputSize == 0 ==> input.pos == 0
    {
      if input == null {
        input := new Stream(emptyBytes);
        inputSize := 0;
      } else if inputSize == 0 {
        input.Rewind();
      }
    }

    /** on_body, on one fragment. `body` is what the fragments before it held. */
    method OnBody(fragment: seq<byte>, ghost body: seq<byte>) returns (rc: int)
      requires Valid() && Received(body) && error == 0
      modifies Repr()
      ensures Valid() && fresh(Repr() - old(Repr()))
      ensures rc == 0 <==> error == 0
      ensures rc == 0 <==> fragment == [] || (old(Usable()) && |body| + |fragment| <= maxContentLength)
      ensures rc == 0 ==> Received(body + fragment) && Usable() == old(Usable())
    {
      if |fragment| == 0 {
        assert body + fragment == body;
        return 0;
      }
      Prepare(body);
      if inputSize + |fragment| > maxContentLength {
        error := 1;
        return -1;
      }
      ghost var content := if input.buf == null then [] else input.Content();
      var rv := input.Write(fragment);
      if rv < 0 || rv != |fragment| {
        error := 1;
      } else {
        assert input.Content()[..|body + fragment|] == body + fragment;
      }
      inputSize := inputSize + |fragment|;
      return if error != 0 then -1 else 0;
    }

    /** on_message_complete: what is handed to the app as wsgi.input, when there is a body. */
    method CompleteMessage(ghost body: seq<byte>) returns (s: Stream?)
      requires Valid() && Received(body)
      modifies input
      ensures Valid() && inputSize == |body| && (s == null <==> body == [])
      ensures s != null ==> s == input && s.buf != null && s.exports == 0
      ensures s != null ==> s.Content() == body && s.pos == 0
    {
      if inputSize > 0 {
        input.Truncate();
        input.Rewind();
        return input;
      }
      return null;
    }

    /** One whole request on a connection that may have carried any number before it: whatever the
        cached stream still holds, and wherever its position is, the app finds exactly the
        concatenation of this request's fragments, at position 0. It does so exactly when the body
        is within the limit and the stream, if it is needed and kept, is neither closed nor exported. */
    method Receive(fragments: seq<seq<byte>>) returns (ok: bool, s: Stream?)
      requires Valid()
      modifies Repr()
      ensures Valid()
      ensures ok <==> Concat(fragments) == [] ||
                      (|Concat(fragments)| <= maxContentLength && (old(inputSize) > 1024 * 1024 || old(Usable())))
      ensures ok ==> inputSize == |Concat(fragments)|
      ensures ok && Concat(fragments) == [] ==> s == null
      ensures ok && Concat(fragments) != [] ==>
                s != null && s == input && Usable() && s.Content() == Concat(fragments) && s.pos == 0
    {
      hide Valid, Received, Concat;
      ConcatEmpty<byte>();
      BeginMessage();
      ghost var repr, usable := Repr(), Usable();
      s := null;
      for i := 0 to |fragments|
        invariant Valid() && fresh(Repr() - repr) && error == 0
        invariant Received(Concat(fragments[..i]))
        invariant Usable() == usable
        invariant Concat(fragments[..i]) != [] ==> usable && |Concat(fragments[..i])| <= maxContentLength
      {
        assert fragments[..i + 1] == fragments[..i] + [fragments[i]];
        ConcatSnoc(fragments[..i], fragments[i]);
        assert fragments == fragments[..i + 1] + fragments[i + 1..];
        ConcatAppend(fragments[..i + 1], fragments[i + 1..]);
        var rc := OnBody(fragments[i], Concat(fragments[..i]));
        if rc != 0 { return false, null; }
      }
      assert fragments[..|fragments|] == fragments;
      s := CompleteMessage(Concat(fragments));
      ok := true;
    }
  }
}
