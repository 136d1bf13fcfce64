/** The registry of DMAC channels, their event-system identities, the
    trigger-source codes and the per-channel configuration the controller
    takes. */
module Channels {
  import opened Common

  /** The twelve DMAC channels. */
  datatype Channel =
    | Channel0 | Channel1 | Channel2 | Channel3 | Channel4 | Channel5
    | Channel6 | Channel7 | Channel8 | Channel9 | Channel10 | Channel11

  const CHANNEL_COUNT: nat := 12

  /** The discriminant `channel as u8`. */
  function Index(c: Channel): (r: nat)
    ensures r < CHANNEL_COUNT
  {
    match c
    case Channel0 => 0
    case Channel1 => 1
    case Channel2 => 2
    case Channel3 => 3
    case Channel4 => 4
    case Channel5 => 5
    case Channel6 => 6
    case Channel7 => 7
    case Channel8 => 8
    case Channel9 => 9
    case Channel10 => 10
    case Channel11 => 11
  }

  /** The channel with a given discriminant. */
  function ChannelAt(i: nat): (c: Channel)
    requires i < CHANNEL_COUNT
    ensures Index(c) == i
  {
    [Channel0, Channel1, Channel2, Channel3, Channel4, Channel5,
     Channel6, Channel7, Channel8, Channel9, Channel10, Channel11][i]
  }

  /** The discriminants are exactly 0..11, one per channel. */
  lemma IndexBijective(c: Channel, i: nat)
    requires i < CHANNEL_COUNT
    ensures ChannelAt(Index(c)) == c
    ensures Index(c) == i <==> c == ChannelAt(i)
  {
  }

  /** Only channels 0 to 3 are wired into the event system. */
  predicate EventCapable(c: Channel) {
    Index(c) < 4
  }

  /** The DMAC event generators of the event system (`DMAC_CH0`..`DMAC_CH3`);
      the event system's other generators are not part of this model. */
  datatype Generator = DmacCh0 | DmacCh1 | DmacCh2 | DmacCh3

  /** The DMAC event users of the event system. */
  datatype User = DmacCh0 | DmacCh1 | DmacCh2 | DmacCh3

  function GeneratorIndex(g: Generator): (r: nat)
    ensures r < 4
  {
    match g
    case DmacCh0 => 0
    case DmacCh1 => 1
    case DmacCh2 => 2
    case DmacCh3 => 3
  }

  function UserIndex(u: User): (r: nat)
    ensures r < 4
  {
    match u
    case DmacCh0 => 0
    case DmacCh1 => 1
    case DmacCh2 => 2
    case DmacCh3 => 3
  }

  /** `event_generator`: channels 4 to 11 panic. */
  function EventGenerator(c: Channel): (r: Outcome<Generator>)
    ensures r.Returns? <==> EventCapable(c)
    ensures r.Returns? ==> GeneratorIndex(r.value) == Index(c)
  {
    match c
    case Channel0 => Returns(Generator.DmacCh0)
    case Channel1 => Returns(Generator.DmacCh1)
    case Channel2 => Returns(Generator.DmacCh2)
    case Channel3 => Returns(Generator.DmacCh3)
    case _ => Panics
  }

  /** `event_user`: channels 4 to 11 panic. */
  function EventUser(c: Channel): (r: Outcome<User>)
    ensures r.Returns? <==> EventCapable(c)
    ensures r.Returns? ==> UserIndex(r.value) == Index(c)
  {
    match c
    case Channel0 => Returns(User.DmacCh0)
    case Channel1 => Returns(User.DmacCh1)
    case Channel2 => Returns(User.DmacCh2)
    case Channel3 => Returns(User.DmacCh3)
    case _ => Panics
  }

  /** Both identities exist for the same channels and carry the same index. */
  lemma EventIdentitiesAgree(c: Channel)
    ensures EventGenerator(c).Returns? == EventUser(c).Returns?
    ensures EventGenerator(c).Returns? ==>
              GeneratorIndex(EventGenerator(c).value) == UserIndex(EventUser(c).value)
  {
  }

  /** The hardware line that starts a channel's next transfer. */
  datatype TriggerSource =
    | Software
    | Sercom0Rx | Sercom0Tx | Sercom1Rx | Sercom1Tx | Sercom2Rx | Sercom2Tx
    | Sercom3Rx | Sercom3Tx | Sercom4Rx | Sercom4Tx | Sercom5Rx | Sercom5Tx
    | Tc3Ovf | Tc4Ovf | AdcResultReady

  /** The TRIGSRC code, `source as u8`. */
  function TriggerCode(t: TriggerSource): (r: nat)
    ensures r < 0x40
  {
    match t
    case Software => 0x00
    case Sercom0Rx => 0x01
    case Sercom0Tx => 0x02
    case Sercom1Rx => 0x03
    case Sercom1Tx => 0x04
    case Sercom2Rx => 0x05
    case Sercom2Tx => 0x06
    case Sercom3Rx => 0x07
    case Sercom3Tx => 0x08
    case Sercom4Rx => 0x09
    case Sercom4Tx => 0x0A
    case Sercom5Rx => 0x0B
    case Sercom5Tx => 0x0C
    case Tc3Ovf => 0x18
    case Tc4Ovf => 0x1B
    case AdcResultReady => 0x27
  }

  /** The receive trigger of serial port `n`. */
  function SercomRx(n: nat): TriggerSource
    requires n < 6
  {
    [Sercom0Rx, Sercom1Rx, Sercom2Rx, Sercom3Rx, Sercom4Rx, Sercom5Rx][n]
  }

  /** The transmit trigger of serial port `n`. */
  function SercomTx(n: nat): TriggerSource
    requires n < 6
  {
    [Sercom0Tx, Sercom1Tx, Sercom2Tx, Sercom3Tx, Sercom4Tx, Sercom5Tx][n]
  }

  /** Serial port `n` receives on code 2n+1 and transmits on code 2n+2. */
  lemma SercomTriggerCodes(n: nat)
    requires n < 6
    ensures TriggerCode(SercomRx(n)) == 2 * n + 1
    ensures TriggerCode(SercomTx(n)) == 2 * n + 2
  {
  }

  /** The trigger source a TRIGSRC code selects, among those modelled. */
  function TriggerFromCode(code: nat): Option<TriggerSource> {
    if code == 0 then Some(Software)
    else if 1 <= code <= 12 then
      Some(if code % 2 == 1 then SercomRx((code - 1) / 2) else SercomTx((code - 2) / 2))
    else if code == 0x18 then Some(Tc3Ovf)
    else if code == 0x1B then Some(Tc4Ovf)
    else if code == 0x27 then Some(AdcResultReady)
    else None
  }

  /** Every trigger source has its own code: the codes determine the source. */
  lemma TriggerCodesDistinct(a: TriggerSource, b: TriggerSource)
    ensures TriggerFromCode(TriggerCode(a)) == Some(a)
    ensures TriggerCode(a) == TriggerCode(b) ==> a == b
  {
    match a
    case Software =>
    case Tc3Ovf =>
    case Tc4Ovf =>
    case AdcResultReady =>
    case Sercom0Rx => SercomTriggerCodes(0);
    case Sercom0Tx => SercomTriggerCodes(0);
    case Sercom1Rx => SercomTriggerCodes(1);
    case Sercom1Tx => SercomTriggerCodes(1);
    case Sercom2Rx => SercomTriggerCodes(2);
    case Sercom2Tx => SercomTriggerCodes(2);
    case Sercom3Rx => SercomTriggerCodes(3);
    case Sercom3Tx => SercomTriggerCodes(3);
    case Sercom4Rx => SercomTriggerCodes(4);
    case Sercom4Tx => SercomTriggerCodes(4);
    case Sercom5Rx => SercomTriggerCodes(5);
    case Sercom5Tx => SercomTriggerCodes(5);
  }

  /** Event wiring requested for a channel. The event input action is the
      code of the register's EVACT field; its enumeration is generated
      register glue that is not part of this model. */
  datatype Events = Events(output: bool, input: Option<nat>)

  /** Interrupt sources requested for a channel. */
  datatype Interrupts = Interrupts(suspend: bool, transferComplete: bool, transferError: bool)
}
