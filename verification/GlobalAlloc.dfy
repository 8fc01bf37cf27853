/** The `Global` allocator (library/alloc/src/alloc.rs) over the system's heap: requests of size zero never reach
  * the system, resizing reallocates in place, moves, or copies, and any request may fail. */
module GlobalAlloc {
  import opened Basics
  import opened Uninit

  type Ptr = nat

  datatype Layout = Layout(size: nat, align: nat)

  datatype Block = Block(layout: Layout, data: seq<Cell<int>>)

  /** An allocation someone holds: what `Global` gave, or a dangling pointer for one of size zero. */
  datatype Lent = Lent(ptr: Ptr, layout: Layout)

  /** `Result<NonNull<[u8]>, AllocError>`. */
  datatype Result = Ok(ptr: Ptr, len: nat) | Err

  function Zeros(n: nat): (r: seq<Cell<int>>)
    ensures |r| == n && forall i :: 0 <= i < n ==> r[i] == Set(0)
  {
    seq(n, i => Set(0))
  }

  function Unsets(n: nat): (r: seq<Cell<int>>)
    ensures |r| == n && forall i :: 0 <= i < n ==> r[i] == Unset
  {
    seq(n, i => Unset)
  }

  /** The heap's blocks are the allocations of non-zero size that are held, one for one. */
  ghost predicate OneForOne(blocks: map<Ptr, Block>, lent: multiset<Lent>) {
    && (forall p :: p in blocks ==> lent[Lent(p, blocks[p].layout)] == 1)
    && (forall p :: p in blocks ==> blocks[p].layout.size > 0 && |blocks[p].data| == blocks[p].layout.size)
    && (forall l :: l in lent && l.layout.size > 0 ==> l.ptr in blocks && blocks[l.ptr].layout == l.layout)
    && (forall l :: l in lent && l.layout.size == 0 ==> l.ptr == l.layout.align)
  }

  /** The bytes of a held allocation. */
  function Bytes(blocks: map<Ptr, Block>, p: Ptr, size: nat): seq<Cell<int>> {
    if size == 0 || p !in blocks then [] else blocks[p].data
  }

  /** What growing or shrinking gives: an error, with everything as it was; or the new allocation in place of
    * the old, with their common bytes, zeros after them if asked for, and every other block as it was. */
  ghost predicate Replaced(blocks: map<Ptr, Block>, lent: multiset<Lent>, blocks2: map<Ptr, Block>,
    lent2: multiset<Lent>, p: Ptr, was: Layout, now: Layout, zeroed: bool, r: Result) {
    if r.Err? then blocks2 == blocks && lent2 == lent
    else
      && r.len == now.size
      && lent2 == lent - multiset{Lent(p, was)} + multiset{Lent(r.ptr, now)}
      && |Bytes(blocks2, r.ptr, now.size)| == now.size && |Bytes(blocks, p, was.size)| == was.size
      && Kept(Bytes(blocks, p, was.size), Bytes(blocks2, r.ptr, now.size))
      && (zeroed ==> ZeroAfter(Bytes(blocks2, r.ptr, now.size), was.size))
      && forall q :: q in blocks && (q != p || was.size == 0) ==> q in blocks2 && blocks2[q] == blocks[q]
  }

  class Heap {
    var blocks: map<Ptr, Block>
    ghost var lent: multiset<Lent>

    ghost predicate Valid()
      reads this
    {
      OneForOne(blocks, lent)
    }

    constructor ()
      ensures Valid() && blocks == map[] && lent == multiset{}
    {
      blocks, lent := map[], multiset{};
    }

    // ---------------------------------------------------------------- the system

    /** `alloc` and `alloc_zeroed`: `got` is what the system answers, null or a place that is free. */
    method SysAlloc(layout: Layout, zeroed: bool, got: Option<Ptr>)
      requires got.Some? ==> got.value !in blocks
      modifies this`blocks
      ensures blocks == if got.None? then old(blocks)
        else old(blocks)[got.value := Block(layout, if zeroed then Zeros(layout.size) else Unsets(layout.size))]
    {
      if got.Some? {
        blocks := blocks[got.value := Block(layout, if zeroed then Zeros(layout.size) else Unsets(layout.size))];
      }
    }

    /** `dealloc`: the layout must be that of the block. */
    method SysDealloc(p: Ptr, layout: Layout)
      requires p in blocks && blocks[p].layout == layout
      modifies this`blocks
      ensures blocks == old(blocks) - {p}
    {
      blocks := blocks - {p};
    }

    /** `realloc`: null leaves the block alone; otherwise the bytes common to both sizes are kept, and the
      * block may have moved. */
    method SysRealloc(p: Ptr, layout: Layout, newSize: nat, got: Option<Ptr>)
      requires p in blocks && blocks[p].layout == layout && |blocks[p].data| == layout.size && newSize > 0
      requires got.Some? ==> got.value == p || got.value !in blocks
      modifies this`blocks
      ensures blocks == if got.None? then old(blocks)
        else (old(blocks) - {p})[got.value := Resized(old(blocks[p]), newSize)]
    {
      if got.Some? {
        var b := Resized(blocks[p], newSize);
        blocks := (blocks - {p})[got.value := b];
      }
    }

    /** `copy_nonoverlapping` between two blocks. */
    method CopyBetween(from: Ptr, to: Ptr, count: nat)
      requires from in blocks && to in blocks && from != to
      requires count <= |blocks[from].data| && count <= |blocks[to].data|
      modifies this`blocks
      ensures var data := old(blocks[from].data)[..count] + old(blocks[to].data)[count..];
        blocks == old(blocks)[to := old(blocks[to]).(data := data)]
    {
      var b := blocks[to];
      blocks := blocks[to := b.(data := blocks[from].data[..count] + b.data[count..])];
    }

    /** `write_bytes(0, ..)` at the end of a block. */
    method ZeroFrom(p: Ptr, from: nat)
      requires p in blocks && from <= |blocks[p].data|
      modifies this`blocks
      ensures blocks == old(blocks)[p := old(blocks[p]).(
        data := old(blocks[p].data)[..from] + Zeros(|old(blocks[p].data)| - from))]
    {
      var b := blocks[p];
      blocks := blocks[p := b.(data := b.data[..from] + Zeros(|b.data| - from))];
    }

    // ---------------------------------------------------------------- Global

    /** `alloc_impl`. */
    method AllocImpl(layout: Layout, zeroed: bool, got: Option<Ptr>) returns (r: Result)
      requires Valid() && (got.Some? ==> got.value !in blocks)
      modifies this
      ensures Valid()
      ensures r.Err? <==> layout.size > 0 && got.None?
      ensures r.Err? ==> blocks == old(blocks) && lent == old(lent)
      ensures r.Ok? ==> r.len == layout.size && lent == old(lent) + multiset{Lent(r.ptr, layout)}
      ensures r.Ok? ==> r.ptr == if layout.size == 0 then layout.align else got.value
      ensures r.Ok? ==> blocks == if layout.size == 0 then old(blocks)
        else old(blocks)[r.ptr := Block(layout, if zeroed then Zeros(layout.size) else Unsets(layout.size))]
    {
      if layout.size == 0 {
        r := Ok(layout.align, 0);
      } else {
        SysAlloc(layout, zeroed, got);
        if got.None? {
          return Err;
        }
        r := Ok(got.value, layout.size);
      }
      lent := lent + multiset{Lent(r.ptr, layout)};
    }

    /** `deallocate`. */
    method Deallocate(p: Ptr, layout: Layout)
      requires Valid() && Lent(p, layout) in lent
      modifies this
      ensures Valid() && lent == old(lent) - multiset{Lent(p, layout)}
      ensures blocks == if layout.size == 0 then old(blocks) else old(blocks) - {p}
    {
      if layout.size != 0 {
        SysDealloc(p, layout);
      }
      lent := lent - multiset{Lent(p, layout)};
    }

    /** The branches that reallocate, of `grow_impl` and of `shrink`. */
    method Reallocate(p: Ptr, was: Layout, now: Layout, zeroed: bool, got: Option<Ptr>) returns (r: Result)
      requires Valid() && Lent(p, was) in lent && was.size > 0 && now.size > 0 && was.align == now.align
      requires zeroed ==> was.size <= now.size
      requires got.Some? ==> got.value == p || got.value !in blocks
      modifies this
      ensures Valid() && Replaced(old(blocks), old(lent), blocks, lent, p, was, now, zeroed, r)
      ensures r == if got.None? then Err else Ok(got.value, now.size)
    {
      SysRealloc(p, was, now.size, got);
      if got.None? {
        return Err;
      }
      if zeroed {
        ZeroFrom(got.value, was.size);
      }
      ghost var b := blocks[got.value];
      assert blocks == (old(blocks) - {p})[got.value := b];
      Moved(old(blocks), old(lent), p, was, got.value, b, zeroed);
      r := Ok(got.value, now.size);
      lent := lent - multiset{Lent(p, was)} + multiset{Lent(got.value, now)};
    }

    /** Copies the bytes over to a block just allocated, and gives the old one back. */
    method CopyAndFree(p: Ptr, was: Layout, q: Ptr, count: nat, ghost data: seq<Cell<int>>)
      requires Valid() && Lent(p, was) in lent && was.size > 0
      requires q in blocks && q != p && count <= was.size && count <= |blocks[q].data|
      requires p in blocks ==> count <= |blocks[p].data| && data == blocks[p].data[..count] + blocks[q].data[count..]
      modifies this
      ensures blocks == old(blocks)[q := old(blocks[q]).(data := data)] - {p}
      ensures lent == old(lent) - multiset{Lent(p, was)}
    {
      InLedger(blocks, lent, p, was);
      DataChanged(blocks, lent, q, blocks[q].(data := data));
      CopyBetween(p, q, count);
      Deallocate(p, was);
    }

    /** The branches that copy to a new block, because the alignment changes. */
    method CopyOver(p: Ptr, was: Layout, now: Layout, zeroed: bool, count: nat, place: Option<Ptr>) returns (r: Result)
      requires Valid() && Lent(p, was) in lent && was.size > 0 && now.size > 0
      requires count == if was.size <= now.size then was.size else now.size
      requires place.Some? ==> place.value !in blocks
      modifies this
      ensures Valid() && Replaced(old(blocks), old(lent), blocks, lent, p, was, now, zeroed, r)
      ensures r == if place.None? then Err else Ok(place.value, now.size)
    {
      ghost var blocks0, lent0 := blocks, lent;
      InLedger(blocks0, lent0, p, was);
      r := AllocImpl(now, zeroed, place);
      if r.Ok? {
        ghost var from, to := blocks0[p].data, if zeroed then Zeros(now.size) else Unsets(now.size);
        ghost var data := from[..count] + to[count..];
        CopyAndFree(p, was, r.ptr, count, data);
        CopiedBytes(from, to, count, zeroed);
        MovedOver(blocks0, lent0, blocks, lent, p, was, r.ptr, Block(now, data), zeroed);
      }
    }

    /** The branch for a dangling pointer, which has nothing to copy or give back. */
    method AllocInstead(p: Ptr, was: Layout, now: Layout, zeroed: bool, place: Option<Ptr>) returns (r: Result)
      requires Valid() && Lent(p, was) in lent && was.size == 0
      requires place.Some? ==> place.value !in blocks
      modifies this
      ensures Valid() && Replaced(old(blocks), old(lent), blocks, lent, p, was, now, zeroed, r)
      ensures r == if now.size == 0 then Ok(now.align, 0) else if place.None? then Err else Ok(place.value, now.size)
    {
      r := AllocImpl(now, zeroed, place);
      if r.Ok? {
        lent := lent - multiset{Lent(p, was)};
      }
    }

    /** `grow_impl`; `place` is the system's answer to a request for a new block, `got` to one for resizing. It
      * fails exactly when the request it makes of the system does, and gives the pointer the system gave. */
    method GrowImpl(p: Ptr, was: Layout, now: Layout, zeroed: bool, got: Option<Ptr>, place: Option<Ptr>)
      returns (r: Result)
      requires Valid() && Lent(p, was) in lent && now.size >= was.size
      requires got.Some? ==> got.value == p || got.value !in blocks
      requires place.Some? ==> place.value !in blocks
      modifies this
      ensures Valid() && Replaced(old(blocks), old(lent), blocks, lent, p, was, now, zeroed, r)
      ensures r.Err? <==>
        if was.size == 0 then now.size > 0 && place.None? else if was.align == now.align then got.None? else place.None?
      ensures r.Ok? && now.size > 0 ==>
        r.ptr == (if was.size > 0 && was.align == now.align then got.value else place.value)
      ensures r.Ok? ==> r.len == now.size && (now.size == 0 ==> r.ptr == now.align)
    {
      if was.size == 0 {
        r := AllocInstead(p, was, now, zeroed, place);
      } else if was.align == now.align {
        r := Reallocate(p, was, now, zeroed, got);
      } else {
        r := CopyOver(p, was, now, zeroed, was.size, place);
      }
    }

    /** `shrink`; to size zero it cannot fail. */
    method Shrink(p: Ptr, was: Layout, now: Layout, got: Option<Ptr>, place: Option<Ptr>) returns (r: Result)
      requires Valid() && Lent(p, was) in lent && now.size <= was.size
      requires got.Some? ==> got.value == p || got.value !in blocks
      requires place.Some? ==> place.value !in blocks
      modifies this
      ensures Valid() && Replaced(old(blocks), old(lent), blocks, lent, p, was, now, false, r)
      ensures r.Err? <==> now.size > 0 && if was.align == now.align then got.None? else place.None?
      ensures r.Ok? && now.size > 0 ==> r.ptr == (if was.align == now.align then got.value else place.value)
      ensures r.Ok? ==> r.len == now.size && (now.size == 0 ==> r.ptr == now.align)
    {
      if now.size == 0 {
        Deallocate(p, was);
        r := Ok(now.align, 0);
        lent := lent + multiset{Lent(now.align, now)};
      } else if was.align == now.align {
        r := Reallocate(p, was, now, false, got);
      } else {
        r := CopyOver(p, was, now, false, now.size, place);
      }
    }
  }

  lemma InLedger(blocks: map<Ptr, Block>, lent: multiset<Lent>, p: Ptr, was: Layout)
    requires OneForOne(blocks, lent) && Lent(p, was) in lent && was.size > 0
    ensures p in blocks && blocks[p].layout == was && |blocks[p].data| == was.size
  {
  }

  lemma DataChanged(blocks: map<Ptr, Block>, lent: multiset<Lent>, q: Ptr, b: Block)
    requires OneForOne(blocks, lent) && q in blocks && b.layout == blocks[q].layout && |b.data| == |blocks[q].data|
    ensures OneForOne(blocks[q := b], lent)
  {
  }

  lemma CopiedBytes(from: seq<Cell<int>>, to: seq<Cell<int>>, count: nat, zeroed: bool)
    requires count <= |from| && count <= |to| && (count == |from| || count == |to|)
    requires zeroed ==> ZeroAfter(to, 0)
    ensures Kept(from, from[..count] + to[count..]) && (zeroed ==> ZeroAfter(from[..count] + to[count..], |from|))
  {
  }

  /** Adding the new block before the old is removed comes to the same. */
  lemma Arrived(blocks: map<Ptr, Block>, lent: multiset<Lent>, blocks2: map<Ptr, Block>, lent2: multiset<Lent>,
    p: Ptr, was: Layout, q: Ptr, b: Block)
    requires q != p && blocks2 == blocks[q := b] - {p} && Lent(p, was) in lent
    requires lent2 == lent + multiset{Lent(q, b.layout)} - multiset{Lent(p, was)}
    ensures blocks2 == (blocks - {p})[q := b]
    ensures lent2 == lent - multiset{Lent(p, was)} + multiset{Lent(q, b.layout)}
  {
  }

  lemma MovedOver(blocks: map<Ptr, Block>, lent: multiset<Lent>, blocks2: map<Ptr, Block>, lent2: multiset<Lent>,
    p: Ptr, was: Layout, q: Ptr, b: Block, zeroed: bool)
    requires OneForOne(blocks, lent) && Lent(p, was) in lent && was.size > 0 && p in blocks
    requires q !in blocks && blocks2 == blocks[q := b] - {p}
    requires lent2 == lent + multiset{Lent(q, b.layout)} - multiset{Lent(p, was)}
    requires b.layout.size > 0 && |b.data| == b.layout.size
    requires Kept(blocks[p].data, b.data) && (zeroed ==> ZeroAfter(b.data, was.size))
    ensures OneForOne(blocks2, lent2)
    ensures Replaced(blocks, lent, blocks2, lent2, p, was, b.layout, zeroed, Ok(q, b.layout.size))
  {
    Arrived(blocks, lent, blocks2, lent2, p, was, q, b);
    Moved(blocks, lent, p, was, q, b, zeroed);
  }

  /** One block in place of another. */
  lemma {:induction false} Moved(blocks: map<Ptr, Block>, lent: multiset<Lent>, p: Ptr, was: Layout, q: Ptr,
                                 b: Block, zeroed: bool)
    requires OneForOne(blocks, lent) && Lent(p, was) in lent && was.size > 0
    requires q == p || q !in blocks
    requires b.layout.size > 0 && |b.data| == b.layout.size
    requires Kept(blocks[p].data, b.data) && (zeroed ==> ZeroAfter(b.data, was.size))
    ensures var blocks2, lent2 := (blocks - {p})[q := b], lent - multiset{Lent(p, was)} + multiset{Lent(q, b.layout)};
      && OneForOne(blocks2, lent2)
      && Replaced(blocks, lent, blocks2, lent2, p, was, b.layout, zeroed, Ok(q, b.layout.size))
  {
    assert lent[Lent(p, was)] == 1;
    forall l | l in lent && l.layout.size > 0 && l != Lent(p, was) ensures l.ptr != p && l.ptr != q {
      assert blocks[l.ptr].layout == l.layout;
    }
    if lent[Lent(q, b.layout)] > 0 {
      assert q in blocks;
    }
  }

  function Resized(b: Block, newSize: nat): Block
    requires |b.data| == b.layout.size
  {
    var data := if newSize <= b.layout.size then b.data[..newSize] else b.data + Unsets(newSize - b.layout.size);
    Block(Layout(newSize, b.layout.align), data)
  }

  predicate Kept(was: seq<Cell<int>>, now: seq<Cell<int>>) {
    forall i :: 0 <= i < |was| && i < |now| ==> now[i] == was[i]
  }

  predicate ZeroAfter(now: seq<Cell<int>>, from: nat) {
    forall i :: from <= i < |now| ==> now[i] == Set(0)
  }

  /** If no allocation of non-zero size is held, the heap is empty, and the other way round. */
  lemma {:induction false} NothingLeaks(blocks: map<Ptr, Block>, lent: multiset<Lent>)
    requires OneForOne(blocks, lent)
    ensures blocks == map[] <==> forall l :: l in lent ==> l.layout.size == 0
  {
    if blocks != map[] {
      var p :| p in blocks;
      assert Lent(p, blocks[p].layout) in lent;
    }
  }
}
