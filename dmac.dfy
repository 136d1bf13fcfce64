/** The DMA controller: the two global descriptor tables, per-channel
    configuration, the software trigger and the shared interrupt dispatch.

    The controller's registers are fields of `Dmac`. The per-channel registers
    (CHCTRLA, CHCTRLB, CHINTENSET, CHINTFLAG) are reached in hardware through
    the channel selected in CHID; here each is an array indexed by channel. */
module Dmac {
  import opened Common
  import opened Descriptors
  import opened Channels

  // ---------------------------------------------------------------------------
  // The global descriptor tables

  /** `BASE_DESCRIPTORS` and `WRITEBACK_DESCRIPTORS`: one slot per channel. */
  class DescriptorTables {
    const base: array<Descriptor>
    const writeback: array<Descriptor>

    ghost predicate Valid()
      reads this
    {
      base.Length == CHANNEL_COUNT && writeback.Length == CHANNEL_COUNT && base != writeback
    }

    /** Both `static mut` tables start as twelve `default()` descriptors. */
    constructor ()
      ensures Valid() && fresh(base) && fresh(writeback)
      ensures forall i :: 0 <= i < CHANNEL_COUNT ==> base[i] == Default()
      ensures forall i :: 0 <= i < CHANNEL_COUNT ==> writeback[i] == Default()
    {
      base := new Descriptor[CHANNEL_COUNT](_ => Default());
      writeback := new Descriptor[CHANNEL_COUNT](_ => Default());
    }
  }

  /** The address of a channel's slot in the base table: a slot boundary
      inside the table, the one numbered by the channel. */
  function BaseSlot(c: Channel): (p: Ptr)
    ensures p.region == BaseTable
    ensures p.offset % DESCRIPTOR_SIZE == 0 && p.offset / DESCRIPTOR_SIZE == Index(c)
    ensures p.offset + DESCRIPTOR_SIZE <= DESCRIPTOR_SIZE * CHANNEL_COUNT
  {
    Ptr(BaseTable, DESCRIPTOR_SIZE * Index(c))
  }

  /** Different channels have different base slots. */
  lemma BaseSlotsDistinct(c: Channel, d: Channel)
    ensures BaseSlot(c) == BaseSlot(d) <==> c == d
  {
    IndexBijective(c, Index(c));
    IndexBijective(d, Index(d));
  }

  // ---------------------------------------------------------------------------
  // Registers

  /** The three per-channel interrupt sources, as the SUSP, TCMPL and TERR
      bits of CHINTENSET and CHINTFLAG. */
  datatype ChannelFlags = ChannelFlags(susp: bool, tcmpl: bool, terr: bool)

  const NO_FLAGS := ChannelFlags(false, false, false)

  /** Write-one-to-clear: every flag written as 1 is cleared. */
  function Acknowledge(current: ChannelFlags, written: ChannelFlags): ChannelFlags {
    ChannelFlags(current.susp && !written.susp, current.tcmpl && !written.tcmpl,
                 current.terr && !written.terr)
  }

  /** Write-one-to-set: every flag written as 1 becomes enabled. */
  function EnableSet(current: ChannelFlags, written: ChannelFlags): ChannelFlags {
    ChannelFlags(current.susp || written.susp, current.tcmpl || written.tcmpl,
                 current.terr || written.terr)
  }

  /** The interrupt sources a request asks for. */
  function Requested(i: Interrupts): ChannelFlags {
    ChannelFlags(i.suspend, i.transferComplete, i.transferError)
  }

  /** CHCTRLB: priority level, trigger source, trigger action and event
      wiring. The trigger action and event action are register codes. */
  datatype ChCtrlB = ChCtrlB(lvl: nat, trigsrc: nat, trigact: nat, evoe: bool, evie: bool, evact: nat)

  const CHCTRLB_RESET := ChCtrlB(0, 0, 0, false, false, 0)

  /** The single-bit masks `1 << i` of a 16-bit register. */
  const BITS: seq<bv16> := [0x0001, 0x0002, 0x0004, 0x0008, 0x0010, 0x0020, 0x0040, 0x0080,
                            0x0100, 0x0200, 0x0400, 0x0800, 0x1000, 0x2000, 0x4000, 0x8000]

  lemma ShiftIsBit(i: nat)
    requires i < 16
    ensures (1 as bv16) << i == BITS[i]
  {
    if i < 8 {
      if i == 0 {} else if i == 1 {} else if i == 2 {} else if i == 3 {}
      else if i == 4 {} else if i == 5 {} else if i == 6 {} else {}
    } else {
      if i == 8 {} else if i == 9 {} else if i == 10 {} else if i == 11 {}
      else if i == 12 {} else if i == 13 {} else if i == 14 {} else {}
    }
  }

  /** Whether bit `i` of a 16-bit register value is set. */
  predicate BitSet(w: bv16, i: nat)
    requires i < 16
  {
    w & BITS[i] != 0
  }

  /** The loop's test `channels & (1 << i) != 0` is `BitSet`. */
  lemma MaskTest(w: bv16, i: nat)
    requires i < 16
    ensures w & ((1 as bv16) << i) != 0 <==> BitSet(w, i)
  {
    ShiftIsBit(i);
  }

  /** The highest channel below `k` whose bit is set in `mask`. */
  function HighestPending(mask: bv16, k: nat): (r: Option<nat>)
    requires k <= CHANNEL_COUNT
    ensures r.Some? ==> r.value < k && BitSet(mask, r.value)
    ensures r.Some? ==> forall i :: r.value < i < k ==> !BitSet(mask, i)
    ensures r.None? ==> forall i :: 0 <= i < k ==> !BitSet(mask, i)
  {
    if k == 0 then None
    else if BitSet(mask, k - 1) then Some(k - 1)
    else HighestPending(mask, k - 1)
  }

  /** `chid` is what CHID holds after dispatching channels below `k` of
      `mask`, starting from `chid0`: the last channel selected, or `chid0`
      when none was. */
  predicate Selects(mask: bv16, k: nat, chid0: nat, chid: nat)
    requires k <= CHANNEL_COUNT
  {
    if exists i :: 0 <= i < k && BitSet(mask, i) then
      chid < k && BitSet(mask, chid) && forall i :: chid < i < k ==> !BitSet(mask, i)
    else chid == chid0
  }

  lemma SelectsHighest(mask: bv16, k: nat, chid0: nat, chid: nat)
    requires k <= CHANNEL_COUNT && Selects(mask, k, chid0, chid)
    ensures chid == match HighestPending(mask, k) case Some(i) => i case None => chid0
  {
  }

  /** A channel whose bit is clear leaves the selection as it was. */
  lemma SelectsSkip(mask: bv16, k: nat, chid0: nat, chid: nat)
    requires k < CHANNEL_COUNT && !BitSet(mask, k) && Selects(mask, k, chid0, chid)
    ensures Selects(mask, k + 1, chid0, chid)
  {
    if exists i :: 0 <= i < k + 1 && BitSet(mask, i) {
      var i :| 0 <= i < k + 1 && BitSet(mask, i);
      assert i < k;
    }
  }

  /** A channel whose bit is set becomes the selection. */
  lemma SelectsTake(mask: bv16, k: nat, chid0: nat)
    requires k < CHANNEL_COUNT && BitSet(mask, k)
    ensures Selects(mask, k + 1, chid0, k)
  {
  }

  /** The channel CHID selects after a dispatch over `mask`. */
  function SelectedAfter(mask: bv16, chid: nat): nat {
    match HighestPending(mask, CHANNEL_COUNT)
    case Some(i) => i
    case None => chid
  }

  class Dmac {
    /** CHID: the channel the per-channel registers refer to. */
    var chid: nat
    /** CHCTRLA.ENABLE of each channel. */
    const chctrla: array<bool>
    const chctrlb: array<ChCtrlB>
    /** The interrupt sources enabled on each channel (CHINTENSET/CHINTENCLR). */
    const chinten: array<ChannelFlags>
    /** The pending interrupt flags of each channel (CHINTFLAG). */
    const chintflag: array<ChannelFlags>
    /** SWTRIGCTRL as last written. */
    var swtrigctrl: bv16
    /** INTSTATUS: one bit per channel with a pending interrupt, set by hardware. */
    var intstatus: bv16

    ghost predicate Valid()
      reads this
    {
      && chctrla.Length == CHANNEL_COUNT && chctrlb.Length == CHANNEL_COUNT
      && chinten.Length == CHANNEL_COUNT && chintflag.Length == CHANNEL_COUNT
      && chinten != chintflag
    }

    /** The registers after reset. */
    constructor ()
      ensures Valid()
      ensures fresh(chctrla) && fresh(chctrlb) && fresh(chinten) && fresh(chintflag)
      ensures chid == 0 && swtrigctrl == 0 && intstatus == 0
      ensures forall i :: 0 <= i < CHANNEL_COUNT ==>
                !chctrla[i] && chctrlb[i] == CHCTRLB_RESET && chinten[i] == NO_FLAGS && chintflag[i] == NO_FLAGS
    {
      chid := 0;
      chctrla := new bool[CHANNEL_COUNT](_ => false);
      chctrlb := new ChCtrlB[CHANNEL_COUNT](_ => CHCTRLB_RESET);
      chinten := new ChannelFlags[CHANNEL_COUNT](_ => NO_FLAGS);
      chintflag := new ChannelFlags[CHANNEL_COUNT](_ => NO_FLAGS);
      swtrigctrl := 0;
      intstatus := 0;
    }

    /** `DMAC::channel`: select the channel, program CHCTRLB, enable the
        channel and enable the requested interrupt sources. Requesting events
        on a channel that has none fails an `assert!` inside the CHCTRLB write,
        after CHID was written and before anything else is. */
    method ConfigureChannel(c: Channel, source: TriggerSource, action: nat,
                            events: Events, interrupts: Interrupts)
      returns (panicked: bool)
      requires Valid()
      modifies this`chid, chctrla, chctrlb, chinten
      ensures Valid()
      ensures chid == Index(c)
      ensures panicked <==> (events.output || events.input.Some?) && !EventCapable(c)
      ensures panicked ==>
                chctrla[..] == old(chctrla[..]) && chctrlb[..] == old(chctrlb[..])
                && chinten[..] == old(chinten[..])
      ensures !panicked ==> forall i :: 0 <= i < CHANNEL_COUNT ==>
                && chctrlb[i] == (if i == Index(c) then
                     ChCtrlB(0, TriggerCode(source), action, events.output, events.input.Some?,
                             if events.input.Some? then events.input.value else 0)
                   else old(chctrlb[i]))
                && chctrla[i] == (i == Index(c) || old(chctrla[i]))
                && chinten[i] == (if i == Index(c) then EnableSet(old(chinten[i]), Requested(interrupts))
                                  else old(chinten[i]))
    {
      chid := Index(c);
      var w := CHCTRLB_RESET.(lvl := 0, trigsrc := TriggerCode(source), trigact := action);
      if events.output {
        if !(Index(c) < 4) {
          return true;
        }
        w := w.(evoe := true);
      }
      if events.input.Some? {
        if !(Index(c) < 4) {
          return true;
        }
        w := w.(evie := true, evact := events.input.value);
      }
      chctrlb[chid] := w;
      chctrla[chid] := true;
      EnableInterrupts(chid, interrupts);
      panicked := false;
    }

    /** The CHINTENSET write of `configure_channel`: set the bit of every
        requested interrupt source on `channel`; a written 0 changes nothing. */
    method EnableInterrupts(channel: nat, interrupts: Interrupts)
      requires Valid() && channel < CHANNEL_COUNT
      modifies chinten
      ensures chinten[channel] == EnableSet(old(chinten[channel]), Requested(interrupts))
      ensures forall i :: 0 <= i < CHANNEL_COUNT && i != channel ==> chinten[i] == old(chinten[i])
    {
      var enable := NO_FLAGS;
      if interrupts.suspend {
        enable := enable.(susp := true);
      }
      if interrupts.transferComplete {
        enable := enable.(tcmpl := true);
      }
      if interrupts.transferError {
        enable := enable.(terr := true);
      }
      chinten[channel] := EnableSet(chinten[channel], enable);
    }

    /** `DMAC::trigger`: writes SWTRIGCTRL with exactly the channel's bit. */
    method Trigger(c: Channel)
      modifies this`swtrigctrl
      ensures forall i :: 0 <= i < 16 ==> (BitSet(swtrigctrl, i) <==> i == Index(c))
    {
      swtrigctrl := (1 as bv16) << Index(c);
      ShiftIsBit(Index(c));
    }

    /** `DMAC::interrupt`: for every channel 0..11 whose INTSTATUS bit is set,
        select it and acknowledge exactly the flags that were set on it (see
        `AcknowledgeChannel`); channels whose bit is clear are not touched. */
    method Interrupt()
      requires Valid()
      modifies this`chid, chintflag
      ensures Valid()
      ensures forall i :: 0 <= i < CHANNEL_COUNT ==>
                chintflag[i] == (if BitSet(intstatus, i) then NO_FLAGS else old(chintflag[i]))
      ensures chid == SelectedAfter(intstatus, old(chid))
      ensures intstatus & 0x0FFF == 0 ==> chid == old(chid) && chintflag[..] == old(chintflag[..])
    {
      var channels := intstatus;
      if channels == 0 {
        NoneBelowTwelve(channels);
        return;
      }
      ghost var flags0 := chintflag[..];
      for channel := 0 to CHANNEL_COUNT
        invariant Valid()
        invariant DispatchedBelow(channels, channel, flags0, old(chid))
      {
        DispatchChannel(channels, channel, flags0, old(chid));
      }
      SelectsHighest(channels, CHANNEL_COUNT, old(chid), chid);
      if channels & 0x0FFF == 0 {
        NoneBelowTwelve(channels);
        assert chintflag[..] == old(chintflag[..]);
      }
    }

    /** The dispatch has handled every channel below `k` of `channels`:
        the pending ones are acknowledged and CHID is as `Selects` says;
        the flags of the others are as in `flags0`. */
    ghost predicate DispatchedBelow(channels: bv16, k: nat, flags0: seq<ChannelFlags>, chid0: nat)
      requires Valid() && k <= CHANNEL_COUNT && |flags0| == CHANNEL_COUNT
      reads this, chintflag
    {
      && (forall i :: 0 <= i < CHANNEL_COUNT ==>
            chintflag[i] == (if i < k && BitSet(channels, i) then NO_FLAGS else flags0[i]))
      && Selects(channels, k, chid0, chid)
    }

    /** One iteration of the dispatch loop. */
    method DispatchChannel(channels: bv16, channel: nat, ghost flags0: seq<ChannelFlags>, ghost chid0: nat)
      requires Valid() && channel < CHANNEL_COUNT && |flags0| == CHANNEL_COUNT
      requires DispatchedBelow(channels, channel, flags0, chid0)
      modifies this`chid, chintflag
      ensures Valid() && DispatchedBelow(channels, channel + 1, flags0, chid0)
    {
      var mask: bv16 := (1 as bv16) << channel;
      MaskTest(channels, channel);
      if channels & mask == 0 {
        SkipPreserves(channels, channel, flags0, chid0);
        return;
      }
      TakeChannel(channels, channel, flags0, chid0);
    }

    /** A channel whose bit is clear is dispatched by doing nothing. */
    lemma SkipPreserves(channels: bv16, channel: nat, flags0: seq<ChannelFlags>, chid0: nat)
      requires Valid() && channel < CHANNEL_COUNT && |flags0| == CHANNEL_COUNT
      requires DispatchedBelow(channels, channel, flags0, chid0) && !BitSet(channels, channel)
      ensures DispatchedBelow(channels, channel + 1, flags0, chid0)
    {
      SelectsSkip(channels, channel, chid0, chid);
    }

    /** A channel whose bit is set is selected and acknowledged. */
    method TakeChannel(channels: bv16, channel: nat, ghost flags0: seq<ChannelFlags>, ghost chid0: nat)
      requires Valid() && channel < CHANNEL_COUNT && |flags0| == CHANNEL_COUNT
      requires DispatchedBelow(channels, channel, flags0, chid0) && BitSet(channels, channel)
      modifies this`chid, chintflag
      ensures Valid() && DispatchedBelow(channels, channel + 1, flags0, chid0)
    {
      SelectsTake(channels, channel, chid0);
      ghost var before := chintflag[..];
      var _ := AcknowledgeChannel(channel);
      forall i | 0 <= i < CHANNEL_COUNT
        ensures chintflag[i] == (if i < channel + 1 && BitSet(channels, i) then NO_FLAGS else flags0[i])
      {
        if i != channel {
          assert chintflag[i] == before[i];
        }
      }
    }

    /** One step of the dispatch: select `channel`, read its CHINTFLAG and
        write the value read back (`w`), which clears every flag that was
        set and no other. */
    method AcknowledgeChannel(channel: nat) returns (w: ChannelFlags)
      requires Valid() && channel < CHANNEL_COUNT
      modifies this`chid, chintflag
      ensures Valid() && chid == channel
      ensures w == old(chintflag[channel])
      ensures chintflag[channel] == NO_FLAGS
      ensures forall i :: 0 <= i < CHANNEL_COUNT && i != channel ==> chintflag[i] == old(chintflag[i])
    {
      chid := channel;
      var r := chintflag[channel];
      w := r;
      if r.susp {
        w := w.(susp := true);
      }
      if r.tcmpl {
        w := w.(tcmpl := true);
      }
      if r.terr {
        w := w.(terr := true);
      }
      chintflag[channel] := Acknowledge(r, w);
    }
  }

  /** Bits 12-15 of the pending mask are never examined: the channels the
      dispatch acknowledges and the one it leaves selected are those of the
      mask with those bits cleared. */
  lemma {:induction false} HighBitsIgnored(w: bv16, k: nat)
    requires k <= CHANNEL_COUNT
    ensures forall i :: 0 <= i < k ==> (BitSet(w, i) <==> BitSet(w & 0x0FFF, i))
    ensures HighestPending(w, k) == HighestPending(w & 0x0FFF, k)
  {
    if k > 0 {
      HighBitsIgnored(w, k - 1);
      LowBitIgnoresHigh(w, k - 1);
    }
  }

  lemma LowBitIgnoresHigh(w: bv16, i: nat)
    requires i < CHANNEL_COUNT
    ensures BitSet(w, i) <==> BitSet(w & 0x0FFF, i)
  {
    var b := BITS[i];
    assert b & 0x0FFF == b;
    assert (w & 0x0FFF) & b == w & (b & 0x0FFF);
  }

  /** A register value with bits 0-11 clear selects no channel. */
  lemma NoneBelowTwelve(w: bv16)
    requires w & 0x0FFF == 0
    ensures forall i :: 0 <= i < CHANNEL_COUNT ==> !BitSet(w, i)
    ensures HighestPending(w, CHANNEL_COUNT) == None
  {
    forall i | 0 <= i < CHANNEL_COUNT
      ensures !BitSet(w, i)
    {
      assert BITS[i] & 0x0FFF == BITS[i];
      assert w & BITS[i] == (w & 0x0FFF) & BITS[i];
    }
  }
}
