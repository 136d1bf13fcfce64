/** The 16-bit BTCTRL (block transfer control) word of a DMAC transfer
    descriptor: field placement, the enumerations stored in its fields, and
    their `From<u8>` / `Into<u8>` conversions. A `u8` of the source is a `bv8`
    here, the word itself a `bv16`. */
module Btctrl {
  import opened Common

  // ---------------------------------------------------------------------------
  // Field enumerations and their conversions

  /** Address increment step size: the multiplier is 2 to the power of the code. */
  datatype Stepsize = X1 | X2 | X4 | X8 | X16 | X32 | X64 | X128

  function StepsizeInto(s: Stepsize): (r: bv8)
    ensures r <= 7
  {
    match s
    case X1 => 0
    case X2 => 1
    case X4 => 2
    case X8 => 3
    case X16 => 4
    case X32 => 5
    case X64 => 6
    case X128 => 7
  }

  /** `Stepsize::from`: codes above 7 hit `unimplemented!()`. */
  function StepsizeFrom(v: bv8): (r: Outcome<Stepsize>)
    ensures r.Returns? <==> v <= 7
    ensures r.Returns? ==> StepsizeInto(r.value) == v
  {
    match v
    case 0 => Returns(X1)
    case 1 => Returns(X2)
    case 2 => Returns(X4)
    case 3 => Returns(X8)
    case 4 => Returns(X16)
    case 5 => Returns(X32)
    case 6 => Returns(X64)
    case 7 => Returns(X128)
    case _ => Panics
  }

  lemma StepsizeRoundTrip(s: Stepsize)
    ensures StepsizeFrom(StepsizeInto(s)) == Returns(s)
  {
  }

  /** Which side of the transfer the step size applies to. */
  datatype Stepsel = StepDst | StepSrc

  /** The discriminant, as `stepsel as u8` reads it. */
  function StepselCode(s: Stepsel): (r: bv8)
    ensures r <= 1
  {
    match s
    case StepDst => 0
    case StepSrc => 1
  }

  /** `Stepsel::from` is total: 0 is StepDst, anything else StepSrc. */
  function StepselFrom(v: bv8): (r: Stepsel)
    ensures r == StepDst <==> v == 0
  {
    if v == 0 then StepDst else StepSrc
  }

  lemma StepselRoundTrip(s: Stepsel)
    ensures StepselFrom(StepselCode(s)) == s
  {
  }

  /** Width of one beat (one element moved by the hardware). */
  datatype Beatsize = Byte | HalfWord | Word

  function BeatsizeInto(b: Beatsize): (r: bv8)
    ensures r <= 2
  {
    match b
    case Byte => 0
    case HalfWord => 1
    case Word => 2
  }

  /** `Beatsize::from`: code 3 (and above) hits `unimplemented!()`. */
  function BeatsizeFrom(v: bv8): (r: Outcome<Beatsize>)
    ensures r.Returns? <==> v <= 2
    ensures r.Returns? ==> BeatsizeInto(r.value) == v
  {
    match v
    case 0 => Returns(Byte)
    case 1 => Returns(HalfWord)
    case 2 => Returns(Word)
    case _ => Panics
  }

  lemma BeatsizeRoundTrip(b: Beatsize)
    ensures BeatsizeFrom(BeatsizeInto(b)) == Returns(b)
  {
  }

  /** Number of bytes in one beat. */
  function BeatBytes(b: Beatsize): (r: nat)
    ensures r == 1 || r == 2 || r == 4
  {
    match b
    case Byte => 1
    case HalfWord => 2
    case Word => 4
  }

  /** What the channel does once a block completes. */
  datatype BlockAction = None | Interrupt | ChannelSuspend | ChannelSuspendInterrupt

  function BlockActionInto(a: BlockAction): (r: bv8)
    ensures r <= 3
  {
    match a
    case None => 0
    case Interrupt => 1
    case ChannelSuspend => 2
    case ChannelSuspendInterrupt => 3
  }

  /** `BlockAction::from`: codes above 3 hit `unimplemented!()`. */
  function BlockActionFrom(v: bv8): (r: Outcome<BlockAction>)
    ensures r.Returns? <==> v <= 3
    ensures r.Returns? ==> BlockActionInto(r.value) == v
  {
    match v
    case 0 => Returns(BlockAction.None)
    case 1 => Returns(Interrupt)
    case 2 => Returns(ChannelSuspend)
    case 3 => Returns(ChannelSuspendInterrupt)
    case _ => Panics
  }

  lemma BlockActionRoundTrip(a: BlockAction)
    ensures BlockActionFrom(BlockActionInto(a)) == Returns(a)
  {
  }

  /** Event output selection; code 2 is reserved by the hardware. */
  datatype EventOutputAction = None | Block | Beat

  function EventOutputActionInto(e: EventOutputAction): (r: bv8)
    ensures r == 0 || r == 1 || r == 3
  {
    match e
    case None => 0
    case Block => 1
    case Beat => 3
  }

  /** `EventOutputAction::from`: only 0, 1 and 3 decode. */
  function EventOutputActionFrom(v: bv8): (r: Outcome<EventOutputAction>)
    ensures r.Returns? <==> (v == 0 || v == 1 || v == 3)
    ensures r.Returns? ==> EventOutputActionInto(r.value) == v
  {
    match v
    case 0 => Returns(EventOutputAction.None)
    case 1 => Returns(Block)
    case 3 => Returns(Beat)
    case _ => Panics
  }

  lemma EventOutputActionRoundTrip(e: EventOutputAction)
    ensures EventOutputActionFrom(EventOutputActionInto(e)) == Returns(e)
  {
  }

  // ---------------------------------------------------------------------------
  // Bit ranges of the word

  /** A field of the word: its lowest bit `lo` and the mask of its value
      before shifting (`bit_range(hi, lo)` has `mask == 2^(hi - lo + 1) - 1`). */
  datatype Field = Field(lo: bv16, mask: bv16)

  const STEPSIZE := Field(13, 0x7)  // bits 15..13
  const STEPSEL := Field(12, 0x1)   // bit 12
  const DSTINC := Field(11, 0x1)    // bit 11
  const SRCINC := Field(10, 0x1)    // bit 10
  const BEATSIZE := Field(8, 0x3)   // bits 9..8
  const BLOCKACT := Field(3, 0x3)   // bits 4..3
  const EVOSEL := Field(1, 0x3)     // bits 2..1
  const VALID := Field(0, 0x1)      // bit 0

  /** Bits 5 to 7 belong to no field. */
  const RESERVED_MASK: bv16 := 0x00E0

  predicate IsField(f: Field) {
    f.lo < 16 && f.mask < 0x100
  }

  /** The bits of the word that a field occupies. */
  function FieldMask(f: Field): bv16
    requires IsField(f)
  {
    f.mask << f.lo
  }

  /** `bit_range(hi, lo)`: the field's bits, shifted down. */
  function BitRange(w: bv16, f: Field): bv8
    requires IsField(f)
  {
    ((w >> f.lo) & f.mask) as bv8
  }

  /** `set_bit_range(hi, lo, v)`: replaces the field's bits by the low bits of `v`. */
  function SetBitRange(w: bv16, f: Field, v: bv8): bv16
    requires IsField(f)
  {
    (w & !FieldMask(f)) | (((v as bv16) & f.mask) << f.lo)
  }

  function BoolBit(b: bool): bv8 {
    if b then 1 else 0
  }

  // ---------------------------------------------------------------------------
  // Field accessors on the word (`stepsize()`, `set_stepsize(..)`, ...).
  // Each setter is read back by its getter and leaves every other bit as it was.

  /** `stepsize()`: bits 15..13; every 3-bit code is a step size. */
  function StepsizeOf(w: bv16): (r: Outcome<Stepsize>)
    ensures r.Returns?
  {
    StepsizeFrom(BitRange(w, STEPSIZE))
  }

  /** `set_stepsize(..)`. */
  function WithStepsize(w: bv16, s: Stepsize): (r: bv16)
    ensures StepsizeOf(r) == Returns(s)
    ensures r & !0xE000 == w & !0xE000
  {
    SetBitRange(w, STEPSIZE, StepsizeInto(s))
  }

  /** The hand-written `stepsel()`: bit 12, StepSrc exactly when it is set. */
  function StepselOf(w: bv16): (s: Stepsel)
    ensures s == StepSrc <==> w & 0x1000 != 0
  {
    StepselFrom(BitRange(w, STEPSEL))
  }

  /** The hand-written `set_stepsel(..)`. */
  function WithStepsel(w: bv16, s: Stepsel): (r: bv16)
    ensures StepselOf(r) == s
    ensures r & !0x1000 == w & !0x1000
  {
    SetBitRange(w, STEPSEL, StepselCode(s))
  }

  /** `dstinc()`: bit 11. */
  function DstincOf(w: bv16): (b: bool)
    ensures b <==> w & 0x0800 != 0
  {
    BitRange(w, DSTINC) == 1
  }

  /** `set_dstinc(..)`. */
  function WithDstinc(w: bv16, b: bool): (r: bv16)
    ensures DstincOf(r) == b
    ensures r & !0x0800 == w & !0x0800
  {
    SetBitRange(w, DSTINC, BoolBit(b))
  }

  /** `srcinc()`: bit 10. */
  function SrcincOf(w: bv16): (b: bool)
    ensures b <==> w & 0x0400 != 0
  {
    BitRange(w, SRCINC) == 1
  }

  /** `set_srcinc(..)`. */
  function WithSrcinc(w: bv16, b: bool): (r: bv16)
    ensures SrcincOf(r) == b
    ensures r & !0x0400 == w & !0x0400
  {
    SetBitRange(w, SRCINC, BoolBit(b))
  }

  /** `beatsize()`: bits 9..8; panics on the reserved pattern 0b11. */
  function BeatsizeOf(w: bv16): (r: Outcome<Beatsize>)
    ensures r.Panics? <==> w & FieldMask(BEATSIZE) == 0x0300
  {
    BeatsizeFrom(BitRange(w, BEATSIZE))
  }

  /** `set_beatsize(..)`. */
  function WithBeatsize(w: bv16, b: Beatsize): (r: bv16)
    ensures BeatsizeOf(r) == Returns(b)
    ensures r & !0x0300 == w & !0x0300
  {
    SetBitRange(w, BEATSIZE, BeatsizeInto(b))
  }

  /** `blockact()`: bits 4..3; every 2-bit code is a block action. */
  function BlockactOf(w: bv16): (r: Outcome<BlockAction>)
    ensures r.Returns?
  {
    BlockActionFrom(BitRange(w, BLOCKACT))
  }

  /** `set_blockact(..)`. */
  function WithBlockact(w: bv16, a: BlockAction): (r: bv16)
    ensures BlockactOf(r) == Returns(a)
    ensures r & !0x0018 == w & !0x0018
  {
    SetBitRange(w, BLOCKACT, BlockActionInto(a))
  }

  /** `evosel()`: bits 2..1; panics on the reserved pattern 0b10. */
  function EvoselOf(w: bv16): (r: Outcome<EventOutputAction>)
    ensures r.Panics? <==> w & FieldMask(EVOSEL) == 0x0004
  {
    EventOutputActionFrom(BitRange(w, EVOSEL))
  }

  /** `set_evosel(..)`. */
  function WithEvosel(w: bv16, e: EventOutputAction): (r: bv16)
    ensures EvoselOf(r) == Returns(e)
    ensures r & !0x0006 == w & !0x0006
  {
    SetBitRange(w, EVOSEL, EventOutputActionInto(e))
  }

  /** `valid()`: bit 0. */
  function ValidOf(w: bv16): (b: bool)
    ensures b <==> w & 0x0001 != 0
  {
    BitRange(w, VALID) == 1
  }

  /** `set_valid(..)`. */
  function WithValid(w: bv16, b: bool): (r: bv16)
    ensures ValidOf(r) == b
    ensures r & !0x0001 == w & !0x0001
  {
    SetBitRange(w, VALID, BoolBit(b))
  }

  /** The eight fields and the reserved bits partition the word. */
  lemma FieldsPartitionWord()
    ensures FieldMask(STEPSIZE) | FieldMask(STEPSEL) | FieldMask(DSTINC) | FieldMask(SRCINC)
          | FieldMask(BEATSIZE) | FieldMask(BLOCKACT) | FieldMask(EVOSEL) | FieldMask(VALID)
          | RESERVED_MASK == 0xFFFF
    ensures FieldMask(STEPSIZE) & FieldMask(STEPSEL) == 0 && FieldMask(STEPSEL) & FieldMask(DSTINC) == 0
    ensures FieldMask(DSTINC) & FieldMask(SRCINC) == 0 && FieldMask(SRCINC) & FieldMask(BEATSIZE) == 0
    ensures FieldMask(BEATSIZE) & RESERVED_MASK == 0 && RESERVED_MASK & FieldMask(BLOCKACT) == 0
    ensures FieldMask(BLOCKACT) & FieldMask(EVOSEL) == 0 && FieldMask(EVOSEL) & FieldMask(VALID) == 0
  {
  }

  // ---------------------------------------------------------------------------
  // The whole word

  /** Every field of the word, decoded. */
  datatype Control = Control(
    stepsize: Stepsize,
    stepsel: Stepsel,
    dstinc: bool,
    srcinc: bool,
    beatsize: Beatsize,
    blockact: BlockAction,
    evosel: EventOutputAction,
    valid: bool)

  /** The encoding as the field codes shifted into place. */
  function Packed(c: Control): bv16 {
    ((StepsizeInto(c.stepsize) as bv16) << 13) | ((StepselCode(c.stepsel) as bv16) << 12)
    | ((BoolBit(c.dstinc) as bv16) << 11) | ((BoolBit(c.srcinc) as bv16) << 10)
    | ((BeatsizeInto(c.beatsize) as bv16) << 8) | ((BlockActionInto(c.blockact) as bv16) << 3)
    | ((EventOutputActionInto(c.evosel) as bv16) << 1) | (BoolBit(c.valid) as bv16)
  }

  /** The word a descriptor builder produces: `Btctrl(0)` followed by the
      setters in the order every builder calls them. Each field's code ends
      up at its own bit position. */
  function Encode(c: Control): (w: bv16)
    ensures w == Packed(c)
  {
    WithValid(WithEvosel(WithBlockact(WithBeatsize(WithSrcinc(WithDstinc(WithStepsel(
      WithStepsize(0, c.stepsize), c.stepsel), c.dstinc), c.srcinc), c.beatsize),
      c.blockact), c.evosel), c.valid)
  }

  /** Reads every field with its getter; panics exactly when the beat size or
      the event output selection holds its reserved pattern. */
  function Decode(w: bv16): (r: Outcome<Control>)
    ensures r.Returns? <==> w & 0x0300 != 0x0300 && w & 0x0006 != 0x0004
  {
    match (BeatsizeOf(w), EvoselOf(w))
    case (Returns(b), Returns(e)) =>
      Returns(Control(StepsizeOf(w).value, StepselOf(w), DstincOf(w), SrcincOf(w), b,
                      BlockactOf(w).value, e, ValidOf(w)))
    case _ => Panics
  }

  /** Decoding an encoded word gives back every field. */
  lemma DecodeEncode(c: Control)
    ensures Decode(Encode(c)) == Returns(c)
    ensures Encode(c) & RESERVED_MASK == 0
  {
  }

  /** A decodable word with clear reserved bits is the encoding of its fields. */
  lemma EncodeDecode(w: bv16)
    requires Decode(w).Returns?
    requires w & RESERVED_MASK == 0
    ensures Encode(Decode(w).value) == w
  {
    DecodedCodes(w);
    Reassemble(w);
  }

  /** Each decoded field converts back to the bits it was read from. */
  lemma DecodedCodes(w: bv16)
    requires Decode(w).Returns?
    ensures var c := Decode(w).value;
      && StepsizeInto(c.stepsize) == BitRange(w, STEPSIZE)
      && StepselCode(c.stepsel) == BitRange(w, STEPSEL)
      && BoolBit(c.dstinc) == BitRange(w, DSTINC)
      && BoolBit(c.srcinc) == BitRange(w, SRCINC)
      && BeatsizeInto(c.beatsize) == BitRange(w, BEATSIZE)
      && BlockActionInto(c.blockact) == BitRange(w, BLOCKACT)
      && EventOutputActionInto(c.evosel) == BitRange(w, EVOSEL)
      && BoolBit(c.valid) == BitRange(w, VALID)
  {
  }

  /** Writing each field's own bits into a zero word rebuilds the word outside
      the reserved bits. */
  lemma Reassemble(w: bv16)
    ensures SetBitRange(SetBitRange(SetBitRange(SetBitRange(SetBitRange(SetBitRange(
              SetBitRange(SetBitRange(0, STEPSIZE, BitRange(w, STEPSIZE)),
              STEPSEL, BitRange(w, STEPSEL)), DSTINC, BitRange(w, DSTINC)),
              SRCINC, BitRange(w, SRCINC)), BEATSIZE, BitRange(w, BEATSIZE)),
              BLOCKACT, BitRange(w, BLOCKACT)), EVOSEL, BitRange(w, EVOSEL)),
              VALID, BitRange(w, VALID))
            == w & !RESERVED_MASK
  {
  }

  // ---------------------------------------------------------------------------
  // The word as a mutable value (`&mut self` setters)

  class Word {
    var bits: bv16

    constructor (bits: bv16)
      ensures this.bits == bits
    {
      this.bits := bits;
    }

    method SetStepsize(s: Stepsize)
      modifies this
      ensures bits == WithStepsize(old(bits), s)
    {
      bits := SetBitRange(bits, STEPSIZE, StepsizeInto(s));
    }

    /** The hand-written `set_stepsel`: `set_bit_range(12, 12, stepsel as u8)`. */
    method SetStepsel(s: Stepsel)
      modifies this
      ensures bits == WithStepsel(old(bits), s)
    {
      bits := SetBitRange(bits, STEPSEL, StepselCode(s));
    }

    method SetDstinc(b: bool)
      modifies this
      ensures bits == WithDstinc(old(bits), b)
    {
      bits := SetBitRange(bits, DSTINC, BoolBit(b));
    }

    method SetSrcinc(b: bool)
      modifies this
      ensures bits == WithSrcinc(old(bits), b)
    {
      bits := SetBitRange(bits, SRCINC, BoolBit(b));
    }

    method SetBeatsize(b: Beatsize)
      modifies this
      ensures bits == WithBeatsize(old(bits), b)
    {
      bits := SetBitRange(bits, BEATSIZE, BeatsizeInto(b));
    }

    method SetBlockact(a: BlockAction)
      modifies this
      ensures bits == WithBlockact(old(bits), a)
    {
      bits := SetBitRange(bits, BLOCKACT, BlockActionInto(a));
    }

    method SetEvosel(e: EventOutputAction)
      modifies this
      ensures bits == WithEvosel(old(bits), e)
    {
      bits := SetBitRange(bits, EVOSEL, EventOutputActionInto(e));
    }

    method SetValid(b: bool)
      modifies this
      ensures bits == WithValid(old(bits), b)
    {
      bits := SetBitRange(bits, VALID, BoolBit(b));
    }
  }

  /** The `let mut btctrl = Btctrl(0); btctrl.set_..(..); ...; btctrl` block of
      every descriptor builder, run on a mutable word: the result holds exactly
      the requested fields and nothing in the reserved bits. */
  method BuildControl(c: Control) returns (w: bv16)
    ensures Decode(w) == Returns(c)
    ensures w & RESERVED_MASK == 0
  {
    var b := new Word(0);
    b.SetStepsize(c.stepsize);
    b.SetStepsel(c.stepsel);
    b.SetDstinc(c.dstinc);
    b.SetSrcinc(c.srcinc);
    b.SetBeatsize(c.beatsize);
    b.SetBlockact(c.blockact);
    b.SetEvosel(c.evosel);
    b.SetValid(c.valid);
    w := b.bits;
    DecodeEncode(c);
  }
}
