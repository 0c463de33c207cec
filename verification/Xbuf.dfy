/**
 The growable buffer of fastwsgi/xbuf.h. Whether the storage came from malloc or was handed in
 by the owner is encoded in the parity of the capacity.
 */
module Xbuf {
  import opened Bytes

  const MIB: int := 0x10_0000
  /** Largest need for which the capacity computed by xbuf_resize still fits a C int. */
  const MAX_NEED: int := 0x7FF7_FFFF

  /** The C allocator: what it has handed out and not yet taken back. */
  class Heap {
    ghost var live: set<array<byte>>

    constructor ()
      ensures live == {}
    {
      live := {};
    }

    method Malloc(n: nat) returns (p: array<byte>)
      modifies this
      ensures fresh(p) && p.Length == n && live == old(live) + {p}
    {
      p := new byte[n];
      live := live + {p};
    }

    /** Only a live block may be freed; it never becomes live again. */
    method Free(p: array<byte>)
      requires p in live
      modifies this
      ensures live == old(live) - {p}
    {
      live := live - {p};
    }
  }

  /** The capacity xbuf_resize settles on: odd, and with room for `need` bytes. */
  function NewCapacity(need: nat, addon: bool): (c: nat)
    ensures c % 2 == 1 && need <= c
    ensures need <= MAX_NEED ==> c <= INT_MAX
    ensures addon && need < MIB ==> c == 2 * need + 1
  {
    var c := if !addon then need else if need < MIB then need * 2 else need + 512 * 1024;
    if c % 2 == 0 then c + 1 else c
  }

  class Xbuf {
    const heap: Heap
    var data: array?<byte>
    var size: int
    var capacity: int

    /** What was added since the last reset, piece by piece. */
    ghost var pieces: seq<seq<byte>>
    /** Bytes copied by growth so far, and the largest need seen so far. */
    ghost var copied: nat
    ghost var peak: nat

    /** The capacity is odd exactly when the storage belongs to the heap. */
    ghost predicate Owned()
      reads this, heap
    {
      && (data == null ==> size == capacity == 0)
      && (data != null ==> 0 <= size < capacity <= data.Length - 2)
      && (data != null ==> (capacity % 2 == 1 <==> data in heap.live))
      && (capacity % 2 == 0 ==> copied == 0)
    }

    /** Storage sound, and the contents are everything added since the last reset, NUL-terminated. */
    ghost predicate Valid()
      reads this, heap, data
    {
      && Owned()
      && Contents() == Concat(pieces)
      && (data != null ==> data[size] == 0)
    }

    ghost function Contents(): seq<byte>
      reads this, heap, data
      requires Owned()
    {
      if data == null then [] else data[..size]
    }

    /** While every need stays below 1 MiB, growth has copied less than twice the largest of them. */
    ghost predicate Cheap()
      reads this
    {
      peak < MIB ==> copied <= capacity && (copied == 0 || copied < 2 * peak)
    }

    /** The blocks that are live besides this buffer's own. */
    ghost function Others(): set<array<byte>>
      reads this, heap
    {
      if data == null then heap.live else heap.live - {data}
    }

    constructor (heap: Heap)
      ensures Valid() && Cheap() && this.heap == heap && data == null && Contents() == []
    {
      this.heap := heap;
      data, size, capacity := null, 0, 0;
      pieces, copied, peak := [], 0, 0;
    }

    /** xbuf_init2: use storage of the owner's, which is never given to the allocator. */
    method Init2(storage: array<byte>, room: int)
      requires Owned() && data == null && pieces == [] && copied == 0
      requires storage !in heap.live && 4 <= room <= storage.Length
      modifies this, storage
      ensures Valid() && Contents() == [] && data == storage && capacity % 2 == 0
      ensures old(Cheap()) ==> Cheap()
      ensures copied == old(copied) && peak == old(peak)
    {
      data := storage;
      size := 0;
      capacity := if room % 2 == 1 then room - 3 else room - 2;
      data[0] := 0;
      pieces := [];
    }

    /** xbuf_resize. `oom` is the allocator's refusal. */
    method Resize(need: nat, addon: bool, oom: bool) returns (ok: bool)
      requires Owned() && size < need <= MAX_NEED
      modifies this, heap
      ensures Owned() && ok == !oom
      ensures !ok ==> unchanged(this) && heap.live == old(heap.live)
      ensures ok ==> fresh(data) && capacity == NewCapacity(need, addon) && size == old(size)
      ensures ok ==> Others() == old(if capacity % 2 == 1 then Others() else heap.live)
      ensures ok ==> Contents() == old(Contents()) && data[size] == 0
      ensures pieces == old(pieces)
      ensures ok ==> copied == old(copied) + old(size) && peak == if need > old(peak) then need else old(peak)
    {
      if oom { return false; }
      var newCap := NewCapacity(need, addon);
      var p := heap.Malloc(newCap + 2);
      p[0] := 0;
      if data != null {
        if size != 0 {
          forall i | 0 <= i < size { p[i] := data[i]; }
          p[size] := 0;
        }
        if capacity % 2 == 1 {
          heap.Free(data);
        }
      }
      copied := copied + size;
      peak := if need > peak then need else peak;
      data := p;
      capacity := newCap;
      return true;
    }

    /** xbuf_expand: afterwards `n` more bytes fit, with 8 to spare. */
    method Expand(n: nat, oom: bool) returns (ok: bool)
      requires Owned() && size + n + 8 <= MAX_NEED
      modifies this, heap
      ensures Owned() && (ok <==> !oom || old(size + n + 8 < capacity)) && (ok && oom ==> data == old(data))
      ensures ok ==> data != null && size + n + 8 <= capacity
      ensures size == old(size) && pieces == old(pieces) && Contents() == old(Contents())
      ensures data == old(data) || (ok && fresh(data) && data[size] == 0)
      ensures data == old(data) ==> heap.live == old(heap.live)
      ensures data != old(data) ==> Others() == old(if capacity % 2 == 1 then Others() else heap.live)
      ensures old(Cheap()) ==> Cheap()
    {
      var need := size + n + 8;
      if need >= capacity {
        ok := Resize(need, true, oom);
      } else {
        ok := true;
        peak := if need > peak then need else peak;
      }
    }

    /** xbuf_add */
    method Add(bytes: seq<byte>, oom: bool) returns (end: int)
      requires Valid() && size + |bytes| + 8 <= MAX_NEED
      modifies this, heap, data
      ensures end == -1 || end == size
      ensures end == -1 ==> oom && Valid() && Contents() == old(Contents())
      ensures end >= 0 ==> Valid() && Contents() == old(Contents()) + bytes && data != null
      ensures data == old(data) || fresh(data)
      ensures data == old(data) ==> heap.live == old(heap.live)
      ensures data != old(data) ==> Others() == old(if capacity % 2 == 1 then Others() else heap.live)
      ensures old(Cheap()) ==> Cheap()
    {
      hide Concat;
      var ok := Expand(|bytes|, oom);
      if !ok { return -1; }
      ghost var before := Contents();
      if |bytes| > 0 {
        forall i | 0 <= i < |bytes| { data[size + i] := bytes[i]; }
        data[size + |bytes|] := 0;
        size := size + |bytes|;
      }
      ConcatSnoc(pieces, bytes);
      pieces := pieces + [bytes];
      assert Contents() == before + bytes;
      return size;
    }

    /** xbuf_reset */
    method Reset()
      requires Owned()
      modifies this, data
      ensures Valid() && Contents() == [] && data == old(data) && capacity == old(capacity)
      ensures old(Cheap()) ==> Cheap()
    {
      size := 0;
      if data != null {
        data[0] := 0;
      }
      pieces := [];
    }

    /** xbuf_free: gives back a heap block, and nothing else. */
    method Clear()
      requires Owned()
      modifies this, heap
      ensures Valid() && data == null && Contents() == []
      ensures heap.live == old(if capacity % 2 == 1 then Others() else heap.live)
    {
      if data != null && capacity % 2 == 1 {
        heap.Free(data);
      }
      data, size, capacity := null, 0, 0;
      pieces, copied, peak := [], 0, 0;
    }
  }
}
