/** DMAC transfer descriptors: the record the hardware reads, the all-zero
    default, and the five builders for the canonical transfer patterns.

    A raw pointer is a `Ptr`: the memory object it points into and a byte
    offset within it. Real addresses, their 32-bit width and the 16-byte
    alignment of descriptors are not modelled. */
module Descriptors {
  import opened Common
  import opened Btctrl

  /** The memory objects a pointer can point into. */
  datatype Region =
    | Null            // null
    | External        // caller-supplied memory or a peripheral register
    | BufferData      // the byte storage of a circular buffer
    | BufferDescriptors  // the private descriptor array of a circular buffer
    | BaseTable       // the global base descriptor table
    | WritebackTable  // the global writeback descriptor table

  datatype Ptr = Ptr(region: Region, offset: nat)

  const NULL := Ptr(Null, 0)

  /** Size in bytes of one descriptor (`#[repr(C, align(16))]`). */
  const DESCRIPTOR_SIZE: nat := 16

  /** `p.offset(n)` on a pointer to elements of `elemBytes` bytes: it stays in
      the object `p` points into, and an offset of nothing is `p` itself. */
  function Offset(p: Ptr, elems: nat, elemBytes: nat): (r: Ptr)
    ensures r.region == p.region && r.offset >= p.offset
    ensures elems == 0 || elemBytes == 0 ==> r == p
  {
    Ptr(p.region, p.offset + elems * elemBytes)
  }

  /** Two offsets in turn are one offset by their sum, and an offset by `n`
      elements is one by their `n * elemBytes` bytes. */
  lemma OffsetCompose(p: Ptr, i: nat, j: nat, elemBytes: nat)
    ensures Offset(Offset(p, i, elemBytes), j, elemBytes) == Offset(p, i + j, elemBytes)
    ensures Offset(p, i, elemBytes) == Offset(p, i * elemBytes, 1)
  {
    assert (i + j) * elemBytes == i * elemBytes + j * elemBytes;
  }

  /** The 16-byte descriptor record: control word, beat count, source and
      destination addresses and the address of the next descriptor. */
  datatype Descriptor = Descriptor(
    btctrl: bv16,
    btcnt: u16,
    srcaddr: Ptr,
    dstaddr: Ptr,
    descaddr: Ptr)

  /** `descriptor::default()`. */
  function Default(): (d: Descriptor)
    ensures d.btctrl == 0 && d.btcnt == 0
    ensures d.srcaddr == NULL && d.dstaddr == NULL && d.descaddr == NULL
    ensures !ValidOf(d.btctrl)
  {
    Descriptor(0, 0, NULL, NULL, NULL)
  }

  /** The control settings every builder shares: step size 1x, no block
      action, no event output, and the valid bit set. */
  function BuilderControl(stepsel: Stepsel, dstinc: bool, srcinc: bool, beat: Beatsize): Control {
    Control(X1, stepsel, dstinc, srcinc, beat, BlockAction.None, EventOutputAction.None, true)
  }

  /** The hardware addressing convention: an incrementing side holds the
      address just past its last beat, a fixed side holds its start address. */
  predicate EndAddressed(d: Descriptor, src: Ptr, dst: Ptr, len: nat) {
    match Decode(d.btctrl)
    case Panics => false
    case Returns(c) =>
      var span := len * BeatBytes(c.beatsize);
      && d.srcaddr == (if c.srcinc then Offset(src, span, 1) else src)
      && d.dstaddr == (if c.dstinc then Offset(dst, span, 1) else dst)
  }

  /** The properties every builder output has: the shared control settings,
      the step selector on an incrementing side, `btcnt == len` and the
      end-of-transfer addressing, with no next descriptor. */
  predicate Canonical(d: Descriptor, src: Ptr, dst: Ptr, len: u16) {
    && Decode(d.btctrl).Returns?
    && var c := Decode(d.btctrl).value;
    && c.stepsize == X1 && c.blockact == BlockAction.None
    && c.evosel == EventOutputAction.None && c.valid
    && (if c.stepsel == StepDst then c.dstinc else c.srcinc)
    && d.btcnt == len
    && d.descaddr == NULL
    && d.btctrl & RESERVED_MASK == 0
    && EndAddressed(d, src, dst, len)
  }

  /** Fill `len` words at `dst` with the word at `src`. */
  function MemsetU32Pattern1(src: Ptr, dst: Ptr, len: u16): (d: Descriptor)
    ensures Canonical(d, src, dst, len)
    ensures Decode(d.btctrl) == Returns(BuilderControl(StepDst, true, false, Word))
    ensures d.srcaddr == src && d.dstaddr == Offset(dst, len, 4)
  {
    var btctrl := Encode(BuilderControl(StepDst, true, false, Word));
    DecodeEncode(BuilderControl(StepDst, true, false, Word));
    Default().(btctrl := btctrl, btcnt := len, srcaddr := Offset(src, 0, 4),
               dstaddr := Offset(dst, len, 4))
  }

  /** Fill `len` half-words at `dst` with the half-word at `src`. */
  function MemsetU16Pattern1(src: Ptr, dst: Ptr, len: u16): (d: Descriptor)
    ensures Canonical(d, src, dst, len)
    ensures Decode(d.btctrl) == Returns(BuilderControl(StepDst, true, false, HalfWord))
    ensures d.srcaddr == src && d.dstaddr == Offset(dst, len, 2)
  {
    var btctrl := Encode(BuilderControl(StepDst, true, false, HalfWord));
    DecodeEncode(BuilderControl(StepDst, true, false, HalfWord));
    Default().(btctrl := btctrl, btcnt := len, srcaddr := Offset(src, 0, 2),
               dstaddr := Offset(dst, len, 2))
  }

  /** Fill `len` bytes at `dst` with the byte at `src`. */
  function MemsetU8Pattern1(src: Ptr, dst: Ptr, len: u16): (d: Descriptor)
    ensures Canonical(d, src, dst, len)
    ensures Decode(d.btctrl) == Returns(BuilderControl(StepDst, true, false, Byte))
    ensures d.srcaddr == src && d.dstaddr == Offset(dst, len, 1)
  {
    var btctrl := Encode(BuilderControl(StepDst, true, false, Byte));
    DecodeEncode(BuilderControl(StepDst, true, false, Byte));
    Default().(btctrl := btctrl, btcnt := len, srcaddr := Offset(src, 0, 1),
               dstaddr := Offset(dst, len, 1))
  }

  /** Copy `len` bytes from `src` into the single byte register `dst`. */
  function MemcpyU8Peripheral(src: Ptr, dst: Ptr, len: u16): (d: Descriptor)
    ensures Canonical(d, src, dst, len)
    ensures Decode(d.btctrl) == Returns(BuilderControl(StepSrc, false, true, Byte))
    ensures d.srcaddr == Offset(src, len, 1) && d.dstaddr == dst
  {
    var btctrl := Encode(BuilderControl(StepSrc, false, true, Byte));
    DecodeEncode(BuilderControl(StepSrc, false, true, Byte));
    Default().(btctrl := btctrl, btcnt := len, srcaddr := Offset(src, len, 1),
               dstaddr := Offset(dst, 0, 1))
  }

  /** Copy `len` bytes from `src` to `dst`. */
  function MemcpyU8(src: Ptr, dst: Ptr, len: u16): (d: Descriptor)
    ensures Canonical(d, src, dst, len)
    ensures Decode(d.btctrl) == Returns(BuilderControl(StepSrc, true, true, Byte))
    ensures d.srcaddr == Offset(src, len, 1) && d.dstaddr == Offset(dst, len, 1)
  {
    var btctrl := Encode(BuilderControl(StepSrc, true, true, Byte));
    DecodeEncode(BuilderControl(StepSrc, true, true, Byte));
    Default().(btctrl := btctrl, btcnt := len, srcaddr := Offset(src, len, 1),
               dstaddr := Offset(dst, len, 1))
  }
}
