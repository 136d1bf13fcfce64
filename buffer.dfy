/** The circular streaming buffer: N blocks of X bytes filled by the DMA
    engine, backed by a closed ring of N descriptors (one in the global base
    table, N-1 private to the buffer), a producer the transfer-complete
    handler drives, and a consumer that reads the filled bytes as one
    non-wrapping slice at a time.

    The three cursors are byte offsets into the data array: `writeBlock` is
    the start of the block being filled, `write` is the end of the filled
    bytes and `read` is where the consumer stands. What the hardware writes
    into the data array is outside this model; the producer operations are
    the hardware's completion reports. */
module CircularBuffer {
  import opened Common
  import opened Descriptors
  import opened Channels
  import Dmac

  // ---------------------------------------------------------------------------
  // The cursor arithmetic

  /** The bytes between `read` and `write` going forward around a ring of
      `size` bytes. A `write` equal to `read` counts as nothing unread. */
  function Unread(write: nat, read: nat, size: nat): nat
    requires read < size && write <= size
  {
    if write >= read then write - read else size - read + write
  }

  /** The length of the slice `Consumer::read` grants: the unread bytes up to
      the end of the data array, never wrapping. */
  function Readable(write: nat, read: nat, size: nat): (len: nat)
    requires read < size && write <= size
    ensures len == 0 <==> write == read
    ensures read + len <= size
    ensures len <= Unread(write, read, size)
    ensures write >= read ==> len == Unread(write, read, size)
    ensures write < read ==> read + len == size
  {
    if write == read then 0
    else if write > read then write - read
    else size - read
  }

  /** A block start stays block-aligned and inside a ring of `n` blocks. */
  predicate BlockStart(wb: nat, x: nat, n: nat)
    requires x > 0
  {
    wb % x == 0 && wb < n * x
  }

  /** Where the block after the one starting at `wb` starts: the next block,
      or block 0 after the last one. */
  function NextBlock(wb: nat, x: nat, n: nat): (r: nat)
    requires x > 0 && BlockStart(wb, x, n)
    ensures BlockStart(r, x, n)
    ensures r == (wb / x + 1) % n * x
  {
    BlockEndFits(wb, x, n);
    NextIndex(wb / x, n);
    DistR(wb / x, x);
    if wb + x >= n * x then 0 else wb + x
  }

  lemma NextIndex(b: nat, n: nat)
    requires b < n
    ensures b + 1 < n ==> (b + 1) % n == b + 1
    ensures b + 1 == n ==> (b + 1) % n == 0
  {
    if b + 1 < n {
      DivModUnique(b + 1, n, 0, b + 1);
    } else {
      DivModUnique(b + 1, n, 1, 0);
    }
  }

  lemma BlockEndFits(wb: nat, x: nat, n: nat)
    requires x > 0 && BlockStart(wb, x, n)
    ensures wb + x <= n * x
    ensures wb == wb / x * x && wb / x < n
    ensures wb + x >= n * x <==> wb / x + 1 == n
    ensures wb + x < n * x ==> (wb + x) % x == 0 && (wb + x) / x == wb / x + 1
  {
    var q := wb / x;
    assert wb == q * x;
    if q >= n {
      MulLe(n, q, x);
    }
    DistR(q, x);
    if q + 1 < n {
      MulLt(q + 1, n, x);
      MulDiv(q + 1, x);
    }
  }

  /** The block start after `k` whole blocks complete, starting at `wb`. */
  function BlocksAfter(wb: nat, x: nat, n: nat, k: nat): (r: nat)
    requires x > 0 && BlockStart(wb, x, n)
    ensures BlockStart(r, x, n)
  {
    if k == 0 then wb else NextBlock(BlocksAfter(wb, x, n, k - 1), x, n)
  }

  /** After `k` completions the block index has advanced by `k`, modulo `n`. */
  lemma {:induction false} BlocksAfterIndex(wb: nat, x: nat, n: nat, k: nat)
    requires x > 0 && BlockStart(wb, x, n)
    ensures BlocksAfter(wb, x, n, k) == (wb / x + k) % n * x
  {
    if k == 0 {
      StartIndex(wb, x, n);
    } else {
      BlocksAfterIndex(wb, x, n, k - 1);
      AdvanceIndex(BlocksAfter(wb, x, n, k - 1), wb / x + k - 1, x, n);
    }
  }

  /** A block start is its own block index times `x`. */
  lemma StartIndex(wb: nat, x: nat, n: nat)
    requires x > 0 && BlockStart(wb, x, n)
    ensures wb == wb / x % n * x
  {
    BlockEndFits(wb, x, n);
    DivModUnique(wb / x, n, 0, wb / x);
  }

  /** Completing the block of index `a % n` starts the block of index
      `(a + 1) % n`. */
  lemma AdvanceIndex(prev: nat, a: nat, x: nat, n: nat)
    requires x > 0 && n > 0 && prev == a % n * x
    ensures BlockStart(prev, x, n) && NextBlock(prev, x, n) == (a + 1) % n * x
  {
    var b := a % n;
    MulDiv(b, x);
    MulLt(b, n, x);
    ModSucc(a, n);
  }

  // Facts of non-linear arithmetic the solver does not find unaided.

  lemma MulLe(a: nat, b: nat, x: nat)
    requires a <= b
    ensures a * x <= b * x
  {
  }

  lemma MulLt(a: nat, b: nat, x: nat)
    requires a < b && x > 0
    ensures a * x < b * x
  {
  }

  lemma DistR(a: nat, x: nat)
    ensures (a + 1) * x == a * x + x
  {
  }

  /** Quotient and remainder are unique. */
  lemma {:induction false} DivModUnique(a: nat, n: nat, q: nat, r: nat)
    requires n > 0 && r < n && a == q * n + r
    ensures a / n == q && a % n == r
  {
    var q0 := a / n;
    var r0 := a % n;
    assert a == q0 * n + r0;
    if q0 < q {
      MulLe(q0 + 1, q, n);
      DistR(q0, n);
    } else if q0 > q {
      MulLe(q + 1, q0, n);
      DistR(q, n);
    }
  }

  lemma MulDiv(b: nat, x: nat)
    requires x > 0
    ensures b * x / x == b && b * x % x == 0
  {
    DivModUnique(b * x, x, b, 0);
  }

  lemma ModSucc(a: nat, n: nat)
    requires n > 0
    ensures (a % n + 1) % n == (a + 1) % n
  {
    var q := a / n;
    var r := a % n;
    assert a == q * n + r;
    if r + 1 < n {
      DivModUnique(a + 1, n, q, r + 1);
      DivModUnique(r + 1, n, 0, r + 1);
    } else {
      DistR(q, n);
      DivModUnique(a + 1, n, q + 1, 0);
      DivModUnique(r + 1, n, 1, 0);
    }
  }

  /** A full lap of `n` completions brings the block start back where it was,
      and no shorter run of completions does. */
  lemma LapReturns(wb: nat, x: nat, n: nat, k: nat)
    requires x > 0 && BlockStart(wb, x, n)
    ensures BlocksAfter(wb, x, n, n) == wb
    ensures 0 < k < n ==> BlocksAfter(wb, x, n, k) != wb
  {
    BlockEndFits(wb, x, n);
    BlocksAfterIndex(wb, x, n, n);
    assert (wb / x + n) % n == wb / x by { ModAddSelf(wb / x, n); }
    if 0 < k < n {
      BlocksAfterIndex(wb, x, n, k);
      var b := (wb / x + k) % n;
      assert b != wb / x by { ModShift(wb / x, k, n); }
      if b * x == wb {
        MulDiv(b, x);
      }
    }
  }

  lemma ModAddSelf(b: nat, n: nat)
    requires b < n
    ensures (b + n) % n == b
  {
    DivModUnique(b + n, n, 1, b);
  }

  lemma ModShift(b: nat, k: nat, n: nat)
    requires b < n && 0 < k < n
    ensures (b + k) % n != b
  {
    if b + k < n {
      DivModUnique(b + k, n, 0, b + k);
    } else {
      DivModUnique(b + k, n, 1, b + k - n);
    }
  }

  /** `notify_descriptor_partial`: the new `write` when the block at
      `writeBlock` has `remaining` of its `x` bytes still to come. The u16
      subtractions abort the program when `remaining` exceeds the block or
      reports fewer bytes than were already written. */
  function PartialWrite(write: nat, writeBlock: nat, x: nat, remaining: nat): (r: Outcome<nat>)
    requires writeBlock <= write
    ensures r.Returns? <==> remaining <= x && write - writeBlock <= x - remaining
    ensures r.Returns? ==> r.value >= write && r.value - writeBlock == x - remaining
  {
    if remaining > x then Panics
    else if write - writeBlock > x - remaining then Panics
    else Returns(write + ((x - remaining) - (write - writeBlock)))
  }

  /** Reporting the same `remaining` twice moves `write` only once. */
  lemma PartialIdempotent(write: nat, writeBlock: nat, x: nat, remaining: nat)
    requires writeBlock <= write
    requires PartialWrite(write, writeBlock, x, remaining).Returns?
    ensures PartialWrite(PartialWrite(write, writeBlock, x, remaining).value, writeBlock, x, remaining)
            == PartialWrite(write, writeBlock, x, remaining)
  {
  }

  /** `GrantR::release`: the new `read` after releasing `used` bytes of a
      grant of `len` bytes; at the end of the array it starts over at 0. */
  function AfterRelease(read: nat, used: nat, len: nat, size: nat): (r: nat)
    requires size > 0
    ensures r < size
    ensures r == 0 || r == read + Min(used, len)
    ensures read + Min(used, len) < size ==> r == read + Min(used, len)
  {
    var next := read + Min(used, len);
    if next >= size then 0 else next
  }

  function Min(a: nat, b: nat): (m: nat)
    ensures m <= a && m <= b && (m == a || m == b)
  {
    if a <= b then a else b
  }

  /** Releasing part of the current grant leaves the rest of it as the next
      grant, while `write` stays where it is. While `write` is inside the
      array, a release also lowers the unread count by exactly the released
      bytes; at `write == size` it does not (see `RedeliveryExample`). */
  lemma {:induction false} ReleaseConsumes(write: nat, read: nat, used: nat, size: nat)
    requires read < size && write <= size
    ensures var len := Readable(write, read, size);
            var r := AfterRelease(read, used, len, size);
            used < len ==> r == read + used && Readable(write, r, size) == len - used
    ensures write < size ==>
            var len := Readable(write, read, size);
            var r := AfterRelease(read, used, len, size);
            Unread(write, r, size) == Unread(write, read, size) - Min(used, len)
  {
    var len := Readable(write, read, size);
    if write < read && used >= len {
      assert AfterRelease(read, used, len, size) == 0;
    }
  }

  /** Once `write` has wrapped behind `read`, a grant shows only the tail
      `[read, size)`; releasing all of it returns `read` to 0, and the next
      grant is the head `[0, write)`. */
  lemma TailThenHead(write: nat, read: nat, size: nat)
    requires write < read < size
    ensures var len := Readable(write, read, size);
            && len == size - read
            && AfterRelease(read, len, len, size) == 0
            && Readable(write, 0, size) == write
  {
  }

  /** When `write` stands at the very end of the array (after a partial
      report of 0 remaining bytes on the last block), releasing the whole
      grant returns `read` to 0 and the next grant shows the whole array
      again, although no new byte arrived. */
  lemma StaleRedelivery(read: nat, size: nat)
    requires read < size
    ensures var len := Readable(size, read, size);
            && len == size - read
            && AfterRelease(read, len, len, size) == 0
            && Readable(size, AfterRelease(read, len, len, size), size) == size
  {
  }

  /** Two blocks of two bytes: a partial report of 0 remaining bytes on the
      last block puts `write` at 4. The consumer, standing at 1, is granted
      the 3 bytes `[1, 4)`; releasing them moves `read` to 0, and the next
      grant is all 4 bytes. The 3 bytes released raised the unread count
      from 3 to 4 instead of lowering it to 0. */
  lemma RedeliveryExample()
    ensures PartialWrite(2, 2, 2, 0) == Returns(4)
    ensures Readable(4, 1, 4) == 3 && AfterRelease(1, 3, 3, 4) == 0
    ensures Readable(4, 0, 4) == 4
    ensures Unread(4, 1, 4) == 3 && Unread(4, 0, 4) == 4
    ensures ReadableCorrected(4, 1, 4) == 3 && ReadableCorrected(4, 0, 4) == 0
  {
  }

  /** Where `write` stands on the ring of `size` bytes: the end of the array
      is the same position as its start, where `notify_descriptor` moves it. */
  function WritePosition(write: nat, size: nat): (w: nat)
    requires 0 < size && write <= size
    ensures w < size && w == write % size
  {
    if write < size then
      DivModUnique(write, size, 0, write);
      write
    else
      DivModUnique(write, size, 1, 0);
      0
  }

  /** The grant the consumer evidently means to take: `Readable` measured
      from the ring position of `write`, so every cursor it compares lies in
      `[0, size)`. It agrees with `Readable` whenever `write < size`. */
  function ReadableCorrected(write: nat, read: nat, size: nat): (len: nat)
    requires read < size && write <= size
    ensures write < size ==> len == Readable(write, read, size)
    ensures len == 0 <==> write % size == read
    ensures read + len <= size
    ensures len <= Unread(WritePosition(write, size), read, size)
  {
    Readable(WritePosition(write, size), read, size)
  }

  /** With the corrected grant, every release consumes exactly the released
      bytes, for every `write` the producer can reach (including the end of
      the array), and a partial release leaves the rest as the next grant. */
  lemma CorrectedReleaseConsumes(write: nat, read: nat, used: nat, size: nat)
    requires read < size && write <= size
    ensures var w := WritePosition(write, size);
            var len := ReadableCorrected(write, read, size);
            var r := AfterRelease(read, used, len, size);
            && Unread(w, r, size) == Unread(w, read, size) - Min(used, len)
            && (used < len ==> r == read + used && ReadableCorrected(write, r, size) == len - used)
  {
    ReleaseConsumes(WritePosition(write, size), read, used, size);
  }

  /** With the corrected grant there is no re-delivery: when `write` stands
      at the end of the array, releasing the whole grant leaves nothing to
      grant until the producer moves on. */
  lemma CorrectedNoRedelivery(read: nat, size: nat)
    requires read < size
    ensures var len := ReadableCorrected(size, read, size);
            && len == (if read == 0 then 0 else size - read)
            && ReadableCorrected(size, AfterRelease(read, len, len, size), size) == 0
  {
  }

  /** Every producer and consumer step keeps all three cursors, as ring
      positions, inside `[0, n·x)`. */
  lemma CursorsStayOnRing(wb: nat, write: nat, read: nat, x: nat, n: nat, remaining: nat, used: nat)
    requires x > 0 && BlockStart(wb, x, n) && wb <= write <= wb + x && read < n * x
    ensures write <= n * x
    ensures var p := PartialWrite(write, wb, x, remaining);
            p.Returns? ==> wb <= p.value <= wb + x <= n * x
    ensures NextBlock(wb, x, n) < n * x
    ensures AfterRelease(read, used, ReadableCorrected(write, read, n * x), n * x) < n * x
    ensures WritePosition(write, n * x) < n * x
  {
    BlockEndFits(wb, x, n);
  }

  /** Whatever was written, if the producer is a whole lap ahead of the
      consumer the grant is empty: a lap of `n` completions from
      `write == read == writeBlock` reads as nothing written. */
  lemma FullLapReadsEmpty(wb: nat, x: nat, n: nat)
    requires x > 0 && BlockStart(wb, x, n)
    ensures var w := BlocksAfter(wb, x, n, n);
            Readable(w, wb, n * x) == 0
  {
    LapReturns(wb, x, n, 0);
  }

  // ---------------------------------------------------------------------------
  // The descriptor ring

  /** The arguments of one call of the descriptor-making closure: the
      destination, the beat count and the next descriptor. */
  datatype Call = Call(dst: Ptr, count: u16, next: Ptr)

  /** Slot `k` of the ring of `n` descriptors of channel `c`: the channel's
      base-table slot first, then the buffer's private descriptors. */
  function RingSlot(c: Channel, k: nat): (p: Ptr)
    ensures k == 0 ==> p == Dmac.BaseSlot(c)
    ensures k > 0 ==> p.region == BufferDescriptors && p.offset == DESCRIPTOR_SIZE * (k - 1)
  {
    if k == 0 then Dmac.BaseSlot(c) else Ptr(BufferDescriptors, DESCRIPTOR_SIZE * (k - 1))
  }

  /** Which ring slot a pointer addresses, if any. */
  function SlotIndex(c: Channel, n: nat, p: Ptr): (r: Option<nat>)
    ensures r.Some? ==> r.value < n && RingSlot(c, r.value) == p
  {
    if p == Dmac.BaseSlot(c) && n > 0 then Some(0)
    else if p.region == BufferDescriptors && p.offset % DESCRIPTOR_SIZE == 0
            && p.offset / DESCRIPTOR_SIZE + 1 < n
    then Some(p.offset / DESCRIPTOR_SIZE + 1)
    else None
  }

  /** The next pointer `configure` gives the descriptor in slot `k`. */
  function NextOf(c: Channel, n: nat, k: nat): (p: Ptr)
    requires k < n
    ensures p == RingSlot(c, (k + 1) % n)
  {
    NextIndex(k, n);
    if k + 1 < n then RingSlot(c, k + 1) else RingSlot(c, 0)
  }

  /** The next pointer `configure` computes for descriptor `k`: the following
      descriptor of the array, or the base slot for the last one. */
  lemma NextComputed(c: Channel, n: nat, k: nat)
    requires k < n
    ensures NextOf(c, n, k) == if k + 1 < n then Ptr(BufferDescriptors, DESCRIPTOR_SIZE * k)
                               else Dmac.BaseSlot(c)
  {
  }

  /** The destination `configure` gives the descriptor in slot `k`. */
  function DataOf(x: nat, k: nat): (p: Ptr)
    ensures p.region == BufferData && p.offset == x * k
  {
    Ptr(BufferData, x * k)
  }

  /** Follow next pointers `j` times from the channel's base slot. */
  function Walk(c: Channel, n: nat, j: nat): Ptr {
    if j == 0 then Dmac.BaseSlot(c)
    else match SlotIndex(c, n, Walk(c, n, j - 1))
      case Some(k) => NextOf(c, n, k)
      case None => NULL
  }

  /** The next pointers close a ring: following them from the base slot
      visits every slot in order, comes back after exactly `n` steps, and
      visits no slot twice before that. */
  lemma {:induction false} RingCloses(c: Channel, n: nat, j: nat)
    requires n > 0
    ensures Walk(c, n, j) == RingSlot(c, j % n)
    ensures Walk(c, n, n) == Dmac.BaseSlot(c)
    ensures forall i :: 0 <= i < j < n ==> Walk(c, n, i) != Walk(c, n, j)
  {
    WalkSlot(c, n, j);
    WalkSlot(c, n, n);
    DivModUnique(n, n, 1, 0);
    forall i | 0 <= i < j < n
      ensures Walk(c, n, i) != Walk(c, n, j)
    {
      WalkSlot(c, n, i);
      DivModUnique(i, n, 0, i);
      DivModUnique(j, n, 0, j);
      SlotOfRing(c, n, i);
      SlotOfRing(c, n, j);
    }
  }

  lemma {:induction false} WalkSlot(c: Channel, n: nat, j: nat)
    requires n > 0
    ensures Walk(c, n, j) == RingSlot(c, j % n)
  {
    if j > 0 {
      WalkSlot(c, n, j - 1);
      WalkStepMod(c, n, j);
    }
  }

  /** The step of `WalkSlot`: from slot `(j - 1) mod n` the walk reaches `j mod n`. */
  lemma WalkStepMod(c: Channel, n: nat, j: nat)
    requires n > 0 && j > 0 && Walk(c, n, j - 1) == RingSlot(c, (j - 1) % n)
    ensures Walk(c, n, j) == RingSlot(c, j % n)
  {
    WalkStep(c, n, j, (j - 1) % n);
    ModSucc(j - 1, n);
  }

  /** One step of the walk from slot `m` reaches the slot after it. */
  lemma WalkStep(c: Channel, n: nat, j: nat, m: nat)
    requires j > 0 && m < n && Walk(c, n, j - 1) == RingSlot(c, m)
    ensures Walk(c, n, j) == RingSlot(c, (m + 1) % n)
  {
    SlotOfRing(c, n, m);
  }

  /** Every ring slot is found again by `SlotIndex`, so `SlotIndex` inverts
      `RingSlot` on the ring. */
  lemma SlotOfRing(c: Channel, n: nat, k: nat)
    requires k < n
    ensures SlotIndex(c, n, RingSlot(c, k)) == Some(k)
  {
    if k > 0 {
      MulDiv(k - 1, DESCRIPTOR_SIZE);
    }
  }

  /** A closure that chains its descriptors through the `next` address it is given. */
  ghost predicate Links(f: (Ptr, u16, Ptr) -> Descriptor) {
    forall dst, count, next :: f(dst, count, next).descaddr == next
  }

  // ---------------------------------------------------------------------------
  // The buffer and its handles

  class Buffer {
    /** N, the number of blocks (and of descriptors). */
    const blocks: nat
    /** X, the bytes per block (and the beat count of every descriptor). */
    const blockSize: nat
    /** The backing store of N*X bytes. */
    const data: array<u8>
    /** N*X, the length of the data array. */
    const size: nat
    /** The N-1 descriptors after the one in the base table. */
    const descriptors: array<Descriptor>
    /** `configured`: present until `configure` takes it. */
    var unconfigured: bool
    var writeBlock: nat
    var write: nat
    var read: nat

    ghost predicate Valid()
      reads this
    {
      && blocks >= 1 && 1 <= blockSize <= U16_MAX
      && size == blocks * blockSize
      && data.Length == size && descriptors.Length == blocks - 1
      && BlockStart(writeBlock, blockSize, blocks)
      && writeBlock <= write <= writeBlock + blockSize
      && write <= size && read < size
    }

    /** `Buffer::new`: no cursor has moved and the buffer awaits `configure`. */
    constructor (n: nat, x: nat)
      requires n >= 1 && 1 <= x <= U16_MAX
      ensures Valid()
      ensures blocks == n && blockSize == x && fresh(data) && fresh(descriptors)
      ensures unconfigured && writeBlock == 0 && write == 0 && read == 0
    {
      blocks := n;
      blockSize := x;
      size := n * x;
      data := new u8[n * x](_ => 0);
      descriptors := new Descriptor[n - 1](_ => Default());
      unconfigured := true;
      writeBlock := 0;
      write := 0;
      read := 0;
    }

    /** The descriptor stored in ring slot `k`. */
    ghost function StoredAt(tables: Dmac.DescriptorTables, c: Channel, k: nat): Descriptor
      requires Valid() && tables.Valid() && k < blocks
      reads this, descriptors, tables, tables.base
    {
      if k == 0 then tables.base[Index(c)] else descriptors[k - 1]
    }

    /** `Buffer::configure`: take the configured marker (a second call
        aborts with "only configured once"), then call `f` once per ring slot,
        in slot order, with the slot's destination, X and the next slot, and
        store each result in its slot. `calls` records the arguments of the
        calls made. */
    method Configure(tables: Dmac.DescriptorTables, c: Channel, f: (Ptr, u16, Ptr) -> Descriptor)
      returns (r: Outcome<(Producer, Consumer)>, ghost calls: seq<Call>)
      requires Valid() && tables.Valid() && tables.base != descriptors
      modifies this`unconfigured, descriptors, tables.base
      ensures Valid() && !unconfigured
      ensures r.Returns? <==> old(unconfigured)
      ensures r.Panics? ==> calls == [] && descriptors[..] == old(descriptors[..])
                            && tables.base[..] == old(tables.base[..])
      ensures r.Returns? ==> r.value.0.buf == this && r.value.1.buf == this
      ensures r.Returns? ==> |calls| == blocks
      ensures r.Returns? ==> forall k :: 0 <= k < blocks ==>
                calls[k] == Call(DataOf(blockSize, k), blockSize, NextOf(c, blocks, k))
                && StoredAt(tables, c, k) == f(calls[k].dst, calls[k].count, calls[k].next)
      ensures r.Returns? && Links(f) ==> forall k :: 0 <= k < blocks ==>
                StoredAt(tables, c, k).descaddr == NextOf(c, blocks, k)
      ensures forall i :: 0 <= i < CHANNEL_COUNT && i != Index(c) ==> tables.base[i] == old(tables.base[i])
    {
      if !unconfigured {
        return Panics, [];
      }
      unconfigured := false;
      var descriptorsLen := blocks - 1;
      var x: u16 := blockSize;
      var first := Call(DataOf(blockSize, 0),
                        x,
                        if descriptorsLen == 0 then Dmac.BaseSlot(c) else Ptr(BufferDescriptors, 0));
      NextComputed(c, blocks, 0);
      tables.base[Index(c)] := f(first.dst, first.count, first.next);
      var rest := LinkDescriptors(c, f);
      calls := [first] + rest;
      forall k | 0 <= k < blocks
        ensures calls[k] == Call(DataOf(blockSize, k), blockSize, NextOf(c, blocks, k))
        ensures StoredAt(tables, c, k) == f(calls[k].dst, calls[k].count, calls[k].next)
      {
        if k > 0 {
          assert calls[k] == rest[k - 1];
        }
      }
      r := Returns((Producer(this), Consumer(this)));
    }

    /** The loop of `configure`: descriptor `k` of the array gets `f`'s result
        for ring slot `k + 1`; `calls` records the arguments, in order. */
    method LinkDescriptors(c: Channel, f: (Ptr, u16, Ptr) -> Descriptor) returns (ghost calls: seq<Call>)
      requires Valid()
      modifies descriptors
      ensures |calls| == blocks - 1
      ensures forall k :: 0 <= k < blocks - 1 ==>
                calls[k] == Call(DataOf(blockSize, k + 1), blockSize, NextOf(c, blocks, k + 1))
                && descriptors[k] == f(calls[k].dst, calls[k].count, calls[k].next)
    {
      var descriptorsLen := blocks - 1;
      calls := [];
      for descIdx := 0 to descriptorsLen
        invariant |calls| == descIdx
        invariant forall k :: 0 <= k < descIdx ==>
                    calls[k] == Call(DataOf(blockSize, k + 1), blockSize, NextOf(c, blocks, k + 1))
                    && descriptors[k] == f(calls[k].dst, calls[k].count, calls[k].next)
      {
        var dst := DataOf(blockSize, descIdx + 1);
        var count: u16 := blockSize;
        var next := if descIdx < descriptorsLen - 1 then Ptr(BufferDescriptors, DESCRIPTOR_SIZE * (descIdx + 1))
                    else Dmac.BaseSlot(c);
        NextComputed(c, blocks, descIdx + 1);
        descriptors[descIdx] := f(dst, count, next);
        calls := calls + [Call(dst, count, next)];
      }
    }
  }

  /** The producer handle, driven from the channel's interrupt handler. */
  datatype Producer = Producer(buf: Buffer) {

    /** `notify_descriptor_partial`: the hardware reports that the block in
        progress has `remaining` bytes still to come. */
    method NotifyDescriptorPartial(remaining: u16) returns (r: Outcome<()>)
      requires buf.Valid()
      modifies buf`write
      ensures buf.Valid()
      ensures var p := PartialWrite(old(buf.write), buf.writeBlock, buf.blockSize, remaining);
              && r.Returns? == p.Returns?
              && buf.write == (if p.Returns? then p.value else old(buf.write))
    {
      var written := buf.write;
      var alreadyWritten := written - buf.writeBlock;
      BlockEndFits(buf.writeBlock, buf.blockSize, buf.blocks);
      var x: u16 := buf.blockSize;
      if x < remaining {
        return Panics;
      }
      if x - remaining < alreadyWritten {
        return Panics;
      }
      var newlyWritten := (x - remaining) - alreadyWritten;
      buf.write := written + newlyWritten;
      r := Returns(());
    }

    /** `notify_descriptor`: the block in progress is complete; writing moves
        on to the start of the next block. */
    method NotifyDescriptor()
      requires buf.Valid()
      modifies buf`writeBlock, buf`write
      ensures buf.Valid()
      ensures buf.writeBlock == NextBlock(old(buf.writeBlock), buf.blockSize, buf.blocks)
      ensures buf.write == buf.writeBlock
    {
      var writeBlockStart := buf.writeBlock;
      var writeBlockEnd := writeBlockStart + buf.blockSize;
      var bufLen := buf.size;
      var nextBlock := if writeBlockEnd >= bufLen then 0 else writeBlockEnd;
      assert nextBlock == NextBlock(writeBlockStart, buf.blockSize, buf.blocks);
      buf.writeBlock := nextBlock;
      buf.write := nextBlock;
    }
  }

  /** The consumer handle. */
  datatype Consumer = Consumer(buf: Buffer) {

    /** `Consumer::read`: grant the filled bytes from `read` up to `write`,
        or up to the end of the array when `write` has wrapped. */
    method Read() returns (g: GrantR)
      requires buf.Valid()
      ensures g.buf == buf && g.start == buf.read
      ensures g.len == Readable(buf.write, buf.read, buf.size)
    {
      var dataLen := buf.size;
      var write := buf.write;
      var read := buf.read;
      if write == read {
        g := GrantR(buf, read, 0);
      } else if write > read {
        g := GrantR(buf, read, write - read);
      } else {
        g := GrantR(buf, read, dataLen - read);
      }
    }
  }

  /** A read grant: `len` bytes of the data array from `start`. */
  datatype GrantR = GrantR(buf: Buffer, start: nat, len: nat) {

    /** `GrantR::as_slice`: the granted bytes. */
    function AsSlice(): (s: seq<u8>)
      requires buf.Valid() && start + len <= buf.data.Length
      reads buf, buf.data
      ensures |s| == len
      ensures forall i :: 0 <= i < len ==> s[i] == buf.data[start + i]
    {
      buf.data[start..start + len]
    }

    /** `GrantR::release`: give back the first `used` bytes of the grant
        (at most all of it). */
    method Release(used: nat)
      requires buf.Valid()
      modifies buf`read
      ensures buf.Valid()
      ensures buf.read == AfterRelease(old(buf.read), used, len, buf.size)
    {
      var most := Min(used, len);
      var dataLen := buf.size;
      var read := buf.read + most;
      if read >= dataLen {
        read := 0;
      }
      buf.read := read;
    }
  }
}
