/** The byte layer of `src/allocator.rs`: pointers and layouts over the free-chunks manager. */
module ShmemAllocator {
  import opened Wrappers
  import opened FreeSpaces
  import opened Bitmap
  import opened Runs
  import opened ChunksManager

  const ALIGNMENT: nat := CHUNK_SIZE

  datatype Layout = Layout(size: nat, align: nat)

  /** A pointer and the usable size behind it. */
  datatype Excess = Excess(ptr: nat, usable: nat)

  datatype AllocationError = AllocationError(layout: Layout)

  datatype InitializationError =
    | ZeroCapacity
    | UnalignedCapacity(capacity: nat)
    | InternalVector(chunks: nat)
    | InternalBuffer
    | MemoryBuffer

  /** `check_alignment`: empty layouts pass, others need an alignment that divides 8. */
  predicate AlignmentOk(layout: Layout) {
    layout.align == 0 || layout.size == 0 || ALIGNMENT % layout.align == 0
  }

  /** The divisors of 8; zero, which no Rust layout has, passes the check as well. */
  const SUPPORTED: set<nat> := {0, 1, 2, 4, 8}

  lemma AlignmentOkIff(layout: Layout)
    ensures AlignmentOk(layout) <==> layout.size == 0 || layout.align in SUPPORTED
  {
    if layout.align > 0 && ALIGNMENT % layout.align == 0 {
      DivisorsAreSmall(layout.align);
    }
    assert 8 % 1 == 0 && 8 % 2 == 0 && 8 % 4 == 0 && 8 % 8 == 0;
  }

  ghost predicate Aligned(ptr: nat, align: nat) {
    align > 0 ==> ptr % align == 0
  }

  ghost predicate ApartFromAll(ptr: nat, usable: nat, live: map<nat, Layout>) {
    forall q :: q in live ==> ptr + usable <= q || q + UsableBytes(live[q]) <= ptr
  }

  /** What `alloc_excess` reports as usable for a layout. */
  function UsableBytes(layout: Layout): nat {
    ChunksFor(layout.size) * CHUNK_SIZE
  }

  /** It is the least multiple of 8 that holds the layout. */
  lemma UsableBytesIsLeast(layout: Layout, other: nat)
    ensures UsableBytes(layout) % ALIGNMENT == 0 && UsableBytes(layout) >= layout.size
    ensures other % ALIGNMENT == 0 && other >= layout.size ==> other >= UsableBytes(layout)
  {
  }

  /** `usable_size`, with its rounding expression as written. */
  function UsableSize(layout: Layout): nat {
    if AlignmentOk(layout) then
      if layout.size % CHUNK_SIZE == 0 then layout.size
      else (layout.size / CHUNK_SIZE) * (CHUNK_SIZE + 1)
    else 0
  }

  /** `usable_size` agrees with the allocator exactly on multiples of 8 and on the sizes 65 to 71. */
  lemma UsableSizeIsRightIff(layout: Layout)
    requires AlignmentOk(layout)
    ensures UsableSize(layout) == UsableBytes(layout)
            <==> layout.size % CHUNK_SIZE == 0 || layout.size / CHUNK_SIZE == 8
  {
  }

  /** Off multiples of 8 it loses the remainder and gains one for each full chunk; unusable alignments give 0. */
  lemma UsableSizeIsOffBy(layout: Layout)
    ensures !AlignmentOk(layout) ==> UsableSize(layout) == 0
    ensures AlignmentOk(layout) && layout.size % CHUNK_SIZE == 0 ==> UsableSize(layout) == layout.size
    ensures AlignmentOk(layout) && layout.size % CHUNK_SIZE != 0 ==>
              UsableSize(layout) + layout.size % CHUNK_SIZE == layout.size + layout.size / CHUNK_SIZE
  {
  }

  lemma UsableSizeCanBeTooSmallOrTooLarge()
    ensures UsableSize(Layout(1, 1)) == 0 < UsableBytes(Layout(1, 1))
    ensures UsableSize(Layout(81, 1)) == 90 > UsableBytes(Layout(81, 1))
  {
    assert ChunksFor(1) == 1 && ChunksFor(81) == 11;
  }

  /** The chunks behind the allocation at `ptr`. */
  ghost function Block(base: nat, ptr: nat, layout: Layout): FreeSpace
    requires base <= ptr
  {
    FreeSpace((ptr - base) / CHUNK_SIZE, ChunksFor(layout.size))
  }

  /** One live allocation: inside the buffer, on a chunk boundary, and none of its chunks free. */
  ghost predicate Placed(base: nat, max: nat, free: set<nat>, ptr: nat, layout: Layout) {
    && layout.size > 0 && AlignmentOk(layout)
    && base <= ptr && (ptr - base) % CHUNK_SIZE == 0
    && Block(base, ptr, layout).End() <= max
    && Block(base, ptr, layout).Cells() !! free
  }

  ghost predicate Owned(base: nat, live: map<nat, Layout>, cell: nat) {
    exists p :: p in live && base <= p && Block(base, p, live[p]).Has(cell)
  }

  /** Live allocations and free chunks share the buffer out among themselves. */
  ghost predicate SharedOut(base: nat, max: nat, free: set<nat>, live: map<nat, Layout>) {
    && (forall p :: p in live ==> Placed(base, max, free, p, live[p]))
    && (forall p, q :: p in live && q in live && p != q ==>
          Block(base, p, live[p]).Cells() !! Block(base, q, live[q]).Cells())
    && (forall c: nat :: c < max ==> c in free || Owned(base, live, c))
  }

  class ShmemAlloc {
    const freeChunks: Chunks
    const memoryBuffer: nat
    /** Live allocations: what `alloc_excess` gave out and `dealloc` has not had back. */
    ghost var live: map<nat, Layout>

    ghost function Repr(): set<object>
      reads this
    {
      {this, freeChunks, freeChunks.freeChunks}
    }

    /** The capacity in chunks. */
    ghost function Max(): nat {
      freeChunks.freeChunks.capacity
    }

    ghost predicate Valid()
      reads this, freeChunks, freeChunks.freeChunks
    {
      && freeChunks.Valid()
      && memoryBuffer > ALIGNMENT && memoryBuffer % ALIGNMENT == 0
      && SharedOut(memoryBuffer, Max(), freeChunks.Free(), live)
    }

    constructor (maxChunks: nat, buffer: nat)
      requires maxChunks > 0
      requires buffer > ALIGNMENT && buffer % ALIGNMENT == 0
      ensures Valid() && fresh(Repr())
      ensures Max() == maxChunks && memoryBuffer == buffer
      ensures live == map[] && freeChunks.Free() == AllCells(maxChunks)
    {
      freeChunks := new Chunks(maxChunks);
      memoryBuffer := buffer;
      live := map[];
      new;
      assert forall c: nat :: c < maxChunks ==> FreeSpace(0, maxChunks).Has(c);
    }

    /** `ShmemAlloc::new`; the flags and the address say how the three mappings turned out. */
    static method New(capacity: nat, vectorMapped: bool, boxMapped: bool, buffer: Option<nat>)
        returns (r: Result<ShmemAlloc, InitializationError>)
      requires buffer.Some? ==> buffer.value > ALIGNMENT && buffer.value % ALIGNMENT == 0
      ensures r.Success? <==> capacity > 0 && capacity % ALIGNMENT == 0 && vectorMapped && boxMapped && buffer.Some?
      ensures r.Success? ==>
                && r.value.Valid() && fresh(r.value.Repr())
                && r.value.Max() * CHUNK_SIZE == capacity
                && r.value.memoryBuffer == buffer.value
                && r.value.live == map[]
      ensures capacity == 0 <==> r == Failure(ZeroCapacity)
      ensures capacity % ALIGNMENT != 0 <==> r == Failure(UnalignedCapacity(capacity))
      ensures capacity > 0 && capacity % ALIGNMENT == 0 ==>
                && (!vectorMapped <==> r == Failure(InternalVector(capacity / ALIGNMENT)))
                && (vectorMapped && !boxMapped <==> r == Failure(InternalBuffer))
                && (vectorMapped && boxMapped && buffer.None? <==> r == Failure(MemoryBuffer))
    {
      if capacity == 0 {
        return Failure(ZeroCapacity);
      }
      if capacity % ALIGNMENT != 0 {
        return Failure(UnalignedCapacity(capacity));
      }
      var maxChunks := capacity / ALIGNMENT;
      if !vectorMapped {
        return Failure(InternalVector(maxChunks));
      }
      if !boxMapped {
        return Failure(InternalBuffer);
      }
      if buffer.None? {
        return Failure(MemoryBuffer);
      }
      var alloc := new ShmemAlloc(maxChunks, buffer.value);
      r := Success(alloc);
    }

    /**
     A non-empty request with a usable alignment succeeds exactly when enough consecutive chunks
     are free; the block is aligned, inside the buffer, and shares no byte with a live one.
     */
    method AllocExcess(layout: Layout) returns (r: Result<Excess, AllocationError>)
      requires Valid()
      modifies freeChunks.freeChunks, this`live
      ensures Valid()
      ensures r.Failure? ==> r.error == AllocationError(layout)
      ensures r.Failure? || layout.size == 0 ==> live == old(live) && freeChunks.Free() == old(freeChunks.Free())
      ensures layout.size == 0 ==> r == Success(Excess(layout.align, 0))
      ensures layout.size > 0 ==>
                (r.Success? <==>
                 layout.align in SUPPORTED && HasConsecutive(old(freeChunks.Free()), ChunksFor(layout.size)))
      ensures r.Success? && layout.size > 0 ==>
                var Excess(ptr, usable) := r.value;
                && usable == UsableBytes(layout)
                && memoryBuffer <= ptr && ptr + usable <= memoryBuffer + Max() * CHUNK_SIZE
                && Aligned(ptr, layout.align)
                && ptr !in old(live) && live == old(live)[ptr := layout]
                && freeChunks.Free() == old(freeChunks.Free()) - Block(memoryBuffer, ptr, layout).Cells()
                && ApartFromAll(ptr, usable, old(live))
    {
      AlignmentOkIff(layout);
      if !AlignmentOk(layout) {
        return Failure(AllocationError(layout));
      }
      if layout.size == 0 {
        return Success(Excess(layout.align, 0));
      }
      CellsInside(freeChunks.freeChunks.items, Max());
      FitsIffConsecutive(freeChunks.freeChunks.items, Max(), ChunksFor(layout.size));
      ghost var free := freeChunks.Free();
      var chunk := freeChunks.Get(layout.size);
      if chunk.None? {
        return Failure(AllocationError(layout));
      }
      var ptr := memoryBuffer + chunk.value.begin * CHUNK_SIZE;
      r := Success(Excess(ptr, chunk.value.count * CHUNK_SIZE));

      AnswerIsFree(free, ChunksFor(layout.size), chunk.value, freeChunks.Free());
      BlockIsPlaced(memoryBuffer, Max(), freeChunks.Free(), layout, chunk.value, ptr);
      BlockIsNew(memoryBuffer, Max(), free, freeChunks.Free(), live, layout, chunk.value, ptr);
      live := live[ptr := layout];
    }

    /** The pointer of `AllocExcess` without the size, under the same terms. */
    method Alloc(layout: Layout) returns (r: Result<nat, AllocationError>)
      requires Valid()
      modifies freeChunks.freeChunks, this`live
      ensures Valid()
      ensures r.Failure? ==> r.error == AllocationError(layout)
      ensures r.Failure? || layout.size == 0 ==> live == old(live) && freeChunks.Free() == old(freeChunks.Free())
      ensures layout.size == 0 ==> r == Success(layout.align)
      ensures layout.size > 0 ==>
                (r.Success? <==>
                 layout.align in SUPPORTED && HasConsecutive(old(freeChunks.Free()), ChunksFor(layout.size)))
      ensures r.Success? && layout.size > 0 ==>
                var ptr := r.value;
                && memoryBuffer <= ptr && ptr + UsableBytes(layout) <= memoryBuffer + Max() * CHUNK_SIZE
                && Aligned(ptr, layout.align)
                && ptr !in old(live) && live == old(live)[ptr := layout]
                && freeChunks.Free() == old(freeChunks.Free()) - Block(memoryBuffer, ptr, layout).Cells()
                && ApartFromAll(ptr, UsableBytes(layout), old(live))
    {
      AlignmentOkIff(layout);
      if !AlignmentOk(layout) {
        return Failure(AllocationError(layout));
      }
      var excess := AllocExcess(layout);
      match excess
      case Success(Excess(ptr, _)) => r := Success(ptr);
      case Failure(e) => r := Failure(e);
    }

    /**
     Takes back exactly the chunks of the allocation at `ptr`. The dangling pointer of an empty
     layout, an unusable alignment and an address below the buffer leave everything as it is.
     */
    method Dealloc(ptr: nat, layout: Layout)
      requires Valid()
      requires layout.align == ptr || !AlignmentOk(layout) || ptr < memoryBuffer || (ptr in live && live[ptr] == layout)
      modifies freeChunks.freeChunks, this`live
      ensures Valid()
      ensures ptr in old(live) && old(live)[ptr] == layout ==>
                && live == old(live) - {ptr}
                && freeChunks.Free() == old(freeChunks.Free()) + Block(memoryBuffer, ptr, layout).Cells()
      ensures !(ptr in old(live) && old(live)[ptr] == layout) ==>
                live == old(live) && freeChunks.Free() == old(freeChunks.Free())
    {
      assert ptr in live ==> Placed(memoryBuffer, Max(), freeChunks.Free(), ptr, live[ptr]);
      if layout.align == ptr {
        if layout.align > 0 && ALIGNMENT % layout.align == 0 {
          DivisorsAreSmall(layout.align);
        }
        return;
      }
      if !AlignmentOk(layout) {
        return;
      }
      if ptr < memoryBuffer {
        return;
      }
      var shift := ptr - memoryBuffer;
      ghost var free := freeChunks.Free();
      freeChunks.ReturnBack(shift, layout.size);
      BlockIsBack(memoryBuffer, Max(), free, freeChunks.Free(), live, ptr);
      live := live - {ptr};
    }
  }

  lemma DivisorsAreSmall(align: nat)
    requires align > 0 && ALIGNMENT % align == 0
    ensures align == 1 || align == 2 || align == 4 || align == 8
  {
    assert 8 % 3 == 2 && 8 % 5 == 3 && 8 % 6 == 2 && 8 % 7 == 1;
  }

  lemma MultipleOfEightIsAligned(k: nat, align: nat)
    requires align == 1 || align == 2 || align == 4 || align == 8
    ensures Aligned(8 * k, align)
  {
    match align
    case 1 =>
    case 2 => assert 8 * k == 2 * (4 * k);
    case 4 => assert 8 * k == 4 * (2 * k);
    case _ =>
  }

  lemma ChunkBoundaryIsAligned(base: nat, begin: nat, align: nat)
    requires base % ALIGNMENT == 0
    requires align == 1 || align == 2 || align == 4 || align == 8
    ensures Aligned(base + begin * CHUNK_SIZE, align)
  {
    var k := base / ALIGNMENT + begin;
    assert base + begin * CHUNK_SIZE == 8 * k;
    MultipleOfEightIsAligned(k, align);
  }

  /** Chunk-disjoint allocations are byte-disjoint. */
  lemma BytesApart(base: nat, p: nat, a: Layout, q: nat, b: Layout)
    requires a.size > 0 && b.size > 0
    requires base <= p && (p - base) % CHUNK_SIZE == 0
    requires base <= q && (q - base) % CHUNK_SIZE == 0
    requires Block(base, p, a).Cells() !! Block(base, q, b).Cells()
    ensures p + UsableBytes(a) <= q || q + UsableBytes(b) <= p
  {
    var x, y := Block(base, p, a), Block(base, q, b);
    assert x.Has(y.begin) ==> y.Has(y.begin) && y.begin in x.Cells() && y.begin in y.Cells();
    assert y.Has(x.begin) ==> x.Has(x.begin) && x.begin in x.Cells() && x.begin in y.Cells();
    assert x.End() <= y.begin || y.End() <= x.begin;
  }

  /** A block cut from the free chunks lies apart from every live allocation. */
  lemma BlockIsUnused(base: nat, max: nat, free: set<nat>, live: map<nat, Layout>, layout: Layout, block: FreeSpace)
    requires SharedOut(base, max, free, live)
    requires layout.size > 0 && block.count == ChunksFor(layout.size) && block.Cells() <= free
    ensures Block(base, base + block.begin * CHUNK_SIZE, layout) == block
    ensures forall q :: q in live ==> Block(base, q, live[q]).Cells() !! block.Cells()
    ensures base + block.begin * CHUNK_SIZE !in live
  {
    assert forall q :: q in live ==> Placed(base, max, free, q, live[q]);
    var ptr := base + block.begin * CHUNK_SIZE;
    assert block.Has(block.begin) && block.begin in block.Cells();
    assert ptr in live ==> Block(base, ptr, live[ptr]).Has(block.begin);
  }

  lemma BlockJoins(base: nat, max: nat, free: set<nat>, free': set<nat>, live: map<nat, Layout>,
                   layout: Layout, ptr: nat)
    requires SharedOut(base, max, free, live) && ptr !in live && base <= ptr
    requires free' <= free && free <= free' + Block(base, ptr, layout).Cells()
    requires Placed(base, max, free', ptr, layout)
    requires forall q :: q in live ==> Block(base, q, live[q]).Cells() !! Block(base, ptr, layout).Cells()
    ensures SharedOut(base, max, free', live[ptr := layout])
  {
    var live' := live[ptr := layout];
    forall p | p in live' ensures Placed(base, max, free', p, live'[p]) {
      assert p != ptr ==> Placed(base, max, free, p, live[p]);
    }
    forall c: nat | c < max ensures c in free' || Owned(base, live', c) {
      if c in free && c !in free' {
        assert live'[ptr] == layout && Block(base, ptr, layout).Has(c);
      } else if c !in free {
        var p :| p in live && base <= p && Block(base, p, live[p]).Has(c);
        assert p in live' && live'[p] == live[p];
      }
    }
  }

  lemma BlockIsPlaced(base: nat, max: nat, free: set<nat>, layout: Layout, block: FreeSpace, ptr: nat)
    requires base % ALIGNMENT == 0 && ptr == base + block.begin * CHUNK_SIZE
    requires forall c :: c in block.Cells() ==> c < max
    requires layout.size > 0 && AlignmentOk(layout)
    requires block.count == ChunksFor(layout.size) && block.Cells() !! free
    ensures Block(base, ptr, layout) == block
    ensures Placed(base, max, free, ptr, layout)
    ensures ptr + UsableBytes(layout) <= base + max * CHUNK_SIZE
    ensures Aligned(ptr, layout.align)
  {
    assert block.Has(block.End() - 1) && block.End() - 1 in block.Cells();
    if layout.align > 0 {
      DivisorsAreSmall(layout.align);
      ChunkBoundaryIsAligned(base, block.begin, layout.align);
    }
  }

  /** The block answered to a request becomes one more live allocation. */
  lemma BlockIsNew(base: nat, max: nat, free: set<nat>, free': set<nat>, live: map<nat, Layout>,
                   layout: Layout, block: FreeSpace, ptr: nat)
    requires SharedOut(base, max, free, live)
    requires ptr == base + block.begin * CHUNK_SIZE
    requires layout.size > 0 && block.count == ChunksFor(layout.size)
    requires block.Cells() <= free && free' == free - block.Cells()
    requires Placed(base, max, free', ptr, layout)
    ensures ptr !in live
    ensures SharedOut(base, max, free', live[ptr := layout])
    ensures ApartFromAll(ptr, UsableBytes(layout), live)
  {
    BlockIsUnused(base, max, free, live, layout, block);
    BlockJoins(base, max, free, free', live, layout, ptr);
    NewBytesApart(base, max, free', live, ptr, layout);
  }

  lemma NewBytesApart(base: nat, max: nat, free: set<nat>, live: map<nat, Layout>, ptr: nat, layout: Layout)
    requires SharedOut(base, max, free, live[ptr := layout]) && ptr !in live
    ensures ApartFromAll(ptr, UsableBytes(layout), live)
  {
    var live' := live[ptr := layout];
    assert Placed(base, max, free, ptr, live'[ptr]);
    forall q | q in live ensures ptr + UsableBytes(layout) <= q || q + UsableBytes(live[q]) <= ptr {
      assert Placed(base, max, free, q, live'[q]);
      BytesApart(base, ptr, live'[ptr], q, live'[q]);
    }
  }

  /** A block given back leaves the others as they were. */
  lemma BlockIsBack(base: nat, max: nat, free: set<nat>, free': set<nat>, live: map<nat, Layout>, ptr: nat)
    requires SharedOut(base, max, free, live) && ptr in live
    requires base <= ptr && free' == free + Block(base, ptr, live[ptr]).Cells()
    ensures SharedOut(base, max, free', live - {ptr})
  {
    var live' := live - {ptr};
    forall c: nat | c < max ensures c in free' || Owned(base, live', c) {
      if c !in free' {
        var p :| p in live && base <= p && Block(base, p, live[p]).Has(c);
        assert p != ptr;
        assert p in live' && live'[p] == live[p];
      }
    }
  }
}
