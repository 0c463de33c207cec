/**
 The hand-written writer into an io.BytesIO object (fastwsgi/pyhacks.c): the buffer is a bytes
 object that others may hold a reference to, so it is copied before it is written.
 */
module BytesIO {
  import opened Bytes

  /** A Python bytes object: its storage and its reference count. */
  class PyBytes {
    const val: array<byte>
    var refs: nat

    constructor (n: nat)
      ensures fresh(val) && val.Length == n && refs == 1
    {
      val := new byte[n];
      refs := 1;
    }
  }

  // ---------------------------------------------------------------- the simple operation

  function Zeros(n: nat): (r: seq<byte>)
    ensures |r| == n && forall i :: 0 <= i < n ==> r[i] == 0
  {
    seq(n, _ => 0)
  }

  /** `content` overwritten by `bytes` at `pos`; a gap before `pos` is filled with zeros. */
  function Overwrite(content: seq<byte>, pos: nat, bytes: seq<byte>): seq<byte> {
    var head := if pos <= |content| then content[..pos] else content + Zeros(pos - |content|);
    var tail := if pos + |bytes| <= |content| then content[pos + |bytes|..] else [];
    head + bytes + tail
  }

  // ---------------------------------------------------------------- growth

  /** The allocation resize_buffer asks for when `size` bytes are needed and `alloc` are there. */
  function Allocation(alloc: nat, size: nat): nat {
    if size < alloc / 2 then size + 1
    else if size < alloc then alloc
    else if 8 * size <= 9 * alloc then size + size / 8 + (if size < 9 then 3 else 6)
    else size + 1
  }

  /** Growing leaves room beyond the end position, and grows by more than a factor 9/8. */
  lemma GrowthFactor(alloc: nat, size: nat)
    requires size > alloc
    ensures Allocation(alloc, size) > size && 8 * Allocation(alloc, size) > 9 * alloc
  {
  }

  class Stream {
    var buf: PyBytes?
    var pos: int
    var stringSize: nat
    var exports: nat
    /** Bytes copied by reallocations that grew the buffer. */
    ghost var copied: nat

    ghost predicate Valid()
      reads this, buf
    {
      buf != null ==> buf.refs >= 1 && stringSize <= buf.val.Length
    }

    ghost function Content(): seq<byte>
      reads this, buf, if buf == null then null else buf.val
      requires Valid() && buf != null
    {
      buf.val[..stringSize]
    }

    predicate Shared()
      reads this, buf
      requires buf != null
    {
      buf.refs > 1
    }

    /** An empty stream; CPython starts it on the shared empty bytes object. */
    constructor (empty: PyBytes)
      requires empty.val.Length == 0 && empty.refs >= 1
      modifies empty`refs
      ensures Valid() && buf == empty && empty.refs == old(empty.refs) + 1
      ensures Content() == [] && pos == 0 && exports == 0 && copied == 0
    {
      buf := empty;
      pos, stringSize, exports, copied := 0, 0, 0, 0;
      new;
      empty.refs := empty.refs + 1;
    }

    /** unshare_buffer: move to a private copy with room for `size` bytes. */
    method Unshare(size: nat) returns (ok: bool)
      requires Valid() && buf != null
      modifies this`buf, buf`refs
      ensures Valid() && buf != null
      ensures ok == (old(Shared()) && exports == 0 && size >= stringSize)
      ensures !ok ==> buf == old(buf) && buf.refs == old(buf.refs)
      ensures ok ==> fresh(buf) && fresh(buf.val) && buf.refs == 1 && buf.val.Length == size
      ensures ok ==> old(buf).refs == old(buf.refs) - 1
      ensures Content() == old(Content())
    {
      if !Shared() { return false; }
      if exports != 0 { return false; }
      if size < stringSize { return false; }
      var newBuf := new PyBytes(size);
      forall i | 0 <= i < stringSize { newBuf.val[i] := buf.val[i]; }
      assert newBuf.val[..stringSize] == buf.val[..stringSize];
      buf.refs := buf.refs - 1;
      buf := newBuf;
      return true;
    }

    /** _PyBytes_Resize on a buffer nobody else refers to: the bytes that fit are kept. */
    method Realloc(size: nat)
      requires Valid() && buf != null && !Shared() && size >= stringSize
      modifies this`buf
      ensures Valid() && buf != null && fresh(buf) && fresh(buf.val)
      ensures buf.refs == 1 && buf.val.Length == size && Content() == old(Content())
    {
      var newBuf := new PyBytes(size);
      forall i | 0 <= i < stringSize { newBuf.val[i] := buf.val[i]; }
      assert newBuf.val[..stringSize] == buf.val[..stringSize];
      buf := newBuf;
    }

    /** resize_buffer, as write_bytes calls it: `size` bytes are needed and do not fit. */
    method Resize(size: nat) returns (ok: bool)
      requires Valid() && buf != null && exports == 0 && size > buf.val.Length
      modifies this`buf, this`copied, buf`refs
      ensures ok && Valid() && buf != null && fresh(buf) && fresh(buf.val) && buf.refs == 1
      ensures buf.val.Length == Allocation(old(buf.val.Length), size)
      ensures buf.val.Length > size && 8 * buf.val.Length > 9 * old(buf.val.Length)
      ensures old(Shared()) ==> old(buf).refs == old(buf.refs) - 1
      ensures Content() == old(Content()) && copied == old(copied) + old(buf.val.Length)
    {
      var alloc := buf.val.Length;
      if size < alloc / 2 {
        alloc := size + 1;
      } else if size < alloc {
        return true;
      } else if 8 * size <= 9 * alloc {
        alloc := size + size / 8 + (if size < 9 then 3 else 6);
      } else {
        alloc := size + 1;
      }
      copied := copied + buf.val.Length;
      if Shared() {
        ok := Unshare(alloc);
      } else {
        Realloc(alloc);
        ok := true;
      }
    }

    /** write_bytes. The buffer written is never one that anybody else refers to. */
    method Write(bytes: seq<byte>) returns (rv: int)
      requires Valid()
      modifies this, buf, if buf == null then null else buf.val
      ensures Valid()
      ensures rv == if old(buf == null || pos < 0 || exports > 0) then -1 else |bytes|
      ensures rv < 0 ==> unchanged(this)
      ensures rv < 0 && buf != null ==> unchanged(buf) && unchanged(buf.val)
      ensures rv >= 0 ==> buf != null && buf.refs == 1 && pos == old(pos) + |bytes|
      ensures rv >= 0 ==> Content() == Overwrite(old(Content()), old(pos), bytes)
      ensures rv >= 0 && old(Shared()) ==>
                buf != old(buf) && old(buf).val[..] == old(buf.val[..]) && old(buf).refs == old(buf.refs) - 1
      ensures rv >= 0 && buf != old(buf) ==> fresh(buf) && fresh(buf.val)
      ensures exports == old(exports)
      ensures rv >= 0 ==> copied == old(copied) + if pos > old(buf.val.Length) then old(buf.val.Length) else 0
      ensures rv >= 0 && pos > old(buf.val.Length) ==>
                buf.val.Length > pos && 8 * buf.val.Length > 9 * old(buf.val.Length)
      ensures rv >= 0 && pos <= old(buf.val.Length) && !old(Shared()) ==> buf == old(buf)
      ensures rv >= 0 && old(copied <= 8 * buf.val.Length && (copied == 0 || !Shared())) ==>
                copied <= 8 * buf.val.Length
    {
      if buf == null || pos < 0 { return -1; }
      if exports > 0 { return -1; }
      ghost var content := Content();
      var endpos := pos + |bytes|;
      var ok := true;
      if endpos > buf.val.Length {
        ok := Resize(endpos);
      } else if Shared() {
        ok := Unshare(if endpos > stringSize then endpos else stringSize);
      }
      assert ok && Content() == content && buf.refs == 1 && endpos <= buf.val.Length;
      Store(bytes, endpos);
      return |bytes|;
    }

    /** The end of write_bytes: the buffer is private and large enough. */
    method Store(bytes: seq<byte>, endpos: nat)
      requires Valid() && buf != null && buf.refs == 1
      requires pos >= 0 && endpos == pos + |bytes| <= buf.val.Length
      modifies this`pos, this`stringSize, buf.val
      ensures Valid() && pos == endpos
      ensures Content() == Overwrite(old(Content()), old(pos), bytes)
    {
      ghost var content := Content();
      if pos > stringSize {
        forall i | stringSize <= i < pos { buf.val[i] := 0; }
      }
      forall i | 0 <= i < |bytes| { buf.val[pos + i] := bytes[i]; }
      pos := endpos;
      if stringSize < endpos {
        stringSize := endpos;
      }
      assert Content() == Overwrite(content, endpos - |bytes|, bytes);
    }

    /** seek(0): refused on a closed stream. */
    method Rewind()
      modifies this`pos
      ensures pos == if buf == null then old(pos) else 0
    {
      if buf != null {
        pos := 0;
      }
    }

    /** truncate(): cut the contents at the current position; refused when closed or exported. */
    method Truncate()
      requires Valid() && pos >= 0
      modifies this`stringSize
      ensures Valid()
      ensures buf != null && exports == 0 && pos <= old(stringSize) ==> stringSize == pos
      ensures buf == null || exports > 0 || pos > old(stringSize) ==> stringSize == old(stringSize)
    {
      if buf != null && exports == 0 && pos < stringSize {
        stringSize := pos;
      }
    }
  }

  /** Any run of writes, each at the position the one before it left. */
  method WriteAll(s: Stream, pieces: seq<seq<byte>>) returns (ok: bool)
    requires s.Valid() && s.buf != null && s.pos >= 0 && s.exports == 0
    requires s.copied == 0
    modifies s, s.buf, s.buf.val
    ensures ok && s.Valid() && s.buf != null
    ensures s.pos == old(s.pos) + |Concat(pieces)|
    ensures pieces != [] ==> s.Content() == Overwrite(old(s.Content()), old(s.pos), Concat(pieces))
    ensures s.copied <= 8 * s.buf.val.Length
  {
    ghost var content, pos := s.Content(), s.pos;
    ghost var buf0, val0 := s.buf, s.buf.val;
    ok := true;
    for i := 0 to |pieces|
      invariant s.Valid() && s.buf != null && s.exports == 0
      invariant s.pos == pos + |Concat(pieces[..i])|
      invariant i == 0 ==> s.buf == buf0 && s.Content() == content && s.copied == 0
      invariant i > 0 ==> s.buf.refs == 1 && s.Content() == Overwrite(content, pos, Concat(pieces[..i]))
      invariant s.buf == buf0 || (fresh(s.buf) && fresh(s.buf.val))
      invariant s.copied <= 8 * s.buf.val.Length
    {
      var rv := s.Write(pieces[i]);
      assert pieces[..i + 1] == pieces[..i] + [pieces[i]];
      ConcatSnoc(pieces[..i], pieces[i]);
      if i > 0 {
        OverwriteTwice(content, pos, Concat(pieces[..i]), pieces[i]);
      } else {
        assert Concat(pieces[..1]) == pieces[0];
      }
    }
    assert pieces[..|pieces|] == pieces;
  }

  /** Two overwrites in a row, the second where the first ended, are one. */
  lemma OverwriteTwice(content: seq<byte>, pos: nat, a: seq<byte>, b: seq<byte>)
    ensures Overwrite(Overwrite(content, pos, a), pos + |a|, b) == Overwrite(content, pos, a + b)
  {
    var c := Overwrite(content, pos, a);
    var d := Overwrite(c, pos + |a|, b);
    var e := Overwrite(content, pos, a + b);
    assert |d| == |e|;
    assert forall i :: 0 <= i < |d| ==> d[i] == e[i];
  }

  /** Byte for byte: what was written, else what was there, else zeros. */
  lemma OverwriteAt(content: seq<byte>, pos: nat, bytes: seq<byte>, i: nat)
    requires i < |Overwrite(content, pos, bytes)|
    ensures |Overwrite(content, pos, bytes)| == if pos + |bytes| > |content| then pos + |bytes| else |content|
    ensures Overwrite(content, pos, bytes)[i] ==
            if pos <= i < pos + |bytes| then bytes[i - pos] else if i < |content| then content[i] else 0
  {
  }
}
