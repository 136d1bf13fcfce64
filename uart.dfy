/** The SERCOM UART: the fractional baud-rate split computed when the port is
    set up, the table of receive/transmit pad mappings and the flag-gated
    data-register accesses of the non-blocking serial traits. */
module Uart {
  import opened Common

  // ---------------------------------------------------------------------------
  // Baud rate

  /** The BAUD register in fractional mode: `fp` eighths and the integer part. */
  datatype BaudFrac = BaudFrac(fp: u8, baud: u16)

  /** The oversampling factor, 16x. */
  const SAMPLE_RATE: nat := 16

  /** The fractional baud value for a reference clock `fref` and a baud rate
      `freq`, both u32: `baud8x = (fref * 8) / (16 * freq)`, split into
      `baud8x % 8` and `baud8x / 8`, the latter cut to 16 bits. A u32
      product that overflows or a zero `freq` aborts the program. */
  function BaudFracMode(fref: u32, freq: u32): (r: Outcome<BaudFrac>)
    ensures r.Returns? <==> fref * 8 < 0x1_0000_0000 && 0 < SAMPLE_RATE * freq < 0x1_0000_0000
    ensures r.Returns? ==> r.value.fp < 8
    ensures r.Returns? ==>
              var baud8x := (fref * 8) / (SAMPLE_RATE * freq);
              && r.value.fp == baud8x % 8
              && r.value.baud == baud8x / 8 % 0x1_0000
              && (baud8x < 8 * 0x1_0000 ==> r.value.baud * 8 + r.value.fp == baud8x)
  {
    if fref * 8 >= 0x1_0000_0000 || SAMPLE_RATE * freq >= 0x1_0000_0000 then Panics
    else if freq == 0 then Panics
    else Returns(Split((fref * 8) / (SAMPLE_RATE * freq)))
  }

  /** `baud8x` as eighths and an integer part cut to 16 bits. */
  function Split(baud8x: nat): (f: BaudFrac)
    ensures f.fp == baud8x % 8 && f.baud == baud8x / 8 % 0x1_0000
    ensures baud8x < 8 * 0x1_0000 ==> f.baud * 8 + f.fp == baud8x
  {
    var fp := baud8x % 8;
    var baud := baud8x / 8;
    BaudFrac(fp, baud % 0x1_0000)
  }

  // ---------------------------------------------------------------------------
  // Pad mappings

  /** The four pads of a SERCOM. */
  datatype Pad = Pad0 | Pad1 | Pad2 | Pad3

  function PadIndex(p: Pad): (i: nat)
    ensures i < 4
  {
    match p
    case Pad0 => 0
    case Pad1 => 1
    case Pad2 => 2
    case Pad3 => 3
  }

  /** The RXPO/TXPO codes of a two-pad (RX, TX) mapping; `None` for a pair
      that has no `From` conversion and so cannot be constructed. */
  function RxpoTxpo2(rx: Pad, tx: Pad): (r: Option<(u8, u8)>)
    ensures r.Some? ==> r.value.0 == PadIndex(rx) && r.value.1 < 2 && rx != tx
  {
    match (rx, tx)
    case (Pad0, Pad2) => Some((0, 1))
    case (Pad1, Pad0) => Some((1, 0))
    case (Pad1, Pad2) => Some((1, 1))
    case (Pad2, Pad0) => Some((2, 0))
    case (Pad3, Pad0) => Some((3, 0))
    case (Pad3, Pad2) => Some((3, 1))
    case _ => None
  }

  /** The RXPO/TXPO codes of a four-pad (RX, TX, RTS, CTS) mapping. */
  function RxpoTxpo4(rx: Pad, tx: Pad, rts: Pad, cts: Pad): (r: Option<(u8, u8)>)
    ensures r.Some? ==> r.value == (PadIndex(rx), 2) && rts == Pad2 && cts == Pad3 && rx != tx
  {
    if (rx, tx, rts, cts) == (Pad1, Pad0, Pad2, Pad3) then Some((1, 2)) else None
  }

  /** The pads TXPO selects for TX (and, for code 2, RTS and CTS). */
  function TxPad(txpo: u8): Option<Pad> {
    if txpo == 0 then Some(Pad0) else if txpo == 1 then Some(Pad2)
    else if txpo == 2 then Some(Pad0) else None
  }

  /** Every constructible mapping receives on pad RXPO, transmits on the pad
      TXPO names, and never shares a pad between RX and TX; a four-pad
      mapping uses TXPO 2, the code with flow control on pads 2 and 3. */
  lemma PadoutCodesAgree(rx: Pad, tx: Pad, rts: Pad, cts: Pad)
    ensures RxpoTxpo2(rx, tx).Some? ==>
              var (rxpo, txpo) := RxpoTxpo2(rx, tx).value;
              rxpo == PadIndex(rx) && TxPad(txpo) == Some(tx) && txpo < 2 && rx != tx
    ensures RxpoTxpo4(rx, tx, rts, cts).Some? ==>
              var (rxpo, txpo) := RxpoTxpo4(rx, tx, rts, cts).value;
              rxpo == PadIndex(rx) && TxPad(txpo) == Some(tx) && txpo == 2
              && rts == Pad2 && cts == Pad3
  {
  }

  /** Two mappings with the same codes use the same RX and TX pads. */
  lemma PadoutCodesDistinct(rx: Pad, tx: Pad, rx': Pad, tx': Pad)
    requires RxpoTxpo2(rx, tx).Some? && RxpoTxpo2(rx, tx) == RxpoTxpo2(rx', tx')
    ensures rx == rx' && tx == tx'
  {
    PadoutCodesAgree(rx, tx, Pad0, Pad0);
    PadoutCodesAgree(rx', tx', Pad0, Pad0);
  }

  // ---------------------------------------------------------------------------
  // Data register access

  /** One UART: the DRE and RXC interrupt flags, the value the DATA register
      reads as, and the values written to DATA so far. */
  class Uart {
    /** INTFLAG.DRE: the data register can take a byte. */
    var dre: bool
    /** INTFLAG.RXC: a received byte is waiting. */
    var rxc: bool
    /** DATA as the receiver presents it. */
    var rxData: u16
    /** Every value written to DATA, oldest first. */
    var sent: seq<u16>

    constructor (dre: bool, rxc: bool, rxData: u16)
      ensures this.dre == dre && this.rxc == rxc && this.rxData == rxData && sent == []
    {
      this.dre := dre;
      this.rxc := rxc;
      this.rxData := rxData;
      sent := [];
    }

    /** `serial::Write::write`: when the data register is empty, write the
        byte to DATA; otherwise try again later. */
    method Write(word: u8) returns (r: NbResult<()>)
      modifies this`sent
      ensures r == (if dre then Ok(()) else WouldBlock)
      ensures sent == (if dre then old(sent) + [word] else old(sent))
    {
      if !dre {
        return WouldBlock;
      }
      sent := sent + [word];
      r := Ok(());
    }

    /** `serial::Write::flush`: done exactly when the data register is empty. */
    method Flush() returns (r: NbResult<()>)
      ensures r == (if dre then Ok(()) else WouldBlock)
    {
      if !dre {
        return WouldBlock;
      }
      r := Ok(());
    }

    /** `serial::Read::read`: the low byte of DATA once a byte has arrived. */
    method Read() returns (r: NbResult<u8>)
      ensures r == (if rxc then Ok(rxData % 0x100) else WouldBlock)
      ensures r.Ok? ==> r.value < 0x100 && r.value == rxData % 0x100
    {
      if !rxc {
        return WouldBlock;
      }
      var data := rxData;
      r := Ok(data % 0x100);
    }

    /** The hardware moves the pending byte out of DATA: DRE is set again. */
    method AwaitDataRegisterEmpty()
      modifies this`dre
      ensures dre
    {
      dre := true;
    }

    /** `blocking::serial::Write::bwrite_all` (the default implementation):
        write every byte in turn, waiting for DRE before each. */
    method BWriteAll(buffer: seq<u8>) returns (r: Outcome<()>)
      modifies this`dre, this`sent
      ensures r == Returns(())
      ensures sent == old(sent) + buffer
    {
      for i := 0 to |buffer|
        invariant sent == old(sent) + buffer[..i]
      {
        AwaitDataRegisterEmpty();
        var _ := Write(buffer[i]);
        assert buffer[..i + 1] == buffer[..i] + [buffer[i]];
      }
      assert buffer[..|buffer|] == buffer;
      r := Returns(());
    }

    /** `blocking::serial::Write::bflush` (the default implementation): wait
        until the data register is empty. */
    method BFlush() returns (r: Outcome<()>)
      modifies this`dre
      ensures r == Returns(()) && dre
    {
      AwaitDataRegisterEmpty();
      var _ := Flush();
      r := Returns(());
    }
  }
}
