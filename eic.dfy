/** External interrupt lines: where a line's sense and filter settings live
    in the two CONFIG registers, and which GPIO pins each line accepts. */
module Eic {
  import opened Common

  // ---------------------------------------------------------------------------
  // CONFIG addressing

  /** Which CONFIG register holds line `num`: `(num >> 3) & 1`, which for an
      unsigned `num` is `num / 8 % 2`. */
  function ConfigBlock(num: nat): (b: nat)
    ensures b < 2
    ensures num < 16 ==> (b == 0 <==> num < 8)
  {
    num / 8 % 2
  }

  /** Which of the eight settings of that register: `num & 0b111`. */
  function ConfigSlot(num: nat): (s: nat)
    ensures s < 8
  {
    num % 8
  }

  /** Block and slot together name the line. */
  lemma BlockSlotSplit(num: nat)
    requires num < 16
    ensures ConfigBlock(num) * 8 + ConfigSlot(num) == num
  {
  }

  /** One line's settings in a CONFIG register: SENSEn and FILTENn. */
  datatype LineConfig = LineConfig(sense: u8, filten: bool)

  /** The two CONFIG registers, eight line settings each. */
  predicate WellFormed(cfg: seq<seq<LineConfig>>) {
    |cfg| == 2 && |cfg[0]| == 8 && |cfg[1]| == 8
  }

  function SetSense(cfg: seq<seq<LineConfig>>, b: nat, s: nat, sense: u8): seq<seq<LineConfig>>
    requires WellFormed(cfg) && b < 2 && s < 8
  {
    cfg[b := cfg[b][s := cfg[b][s].(sense := sense)]]
  }

  function SetFilten(cfg: seq<seq<LineConfig>>, b: nat, s: nat, filter: bool): seq<seq<LineConfig>>
    requires WellFormed(cfg) && b < 2 && s < 8
  {
    cfg[b := cfg[b][s := cfg[b][s].(filten := filter)]]
  }

  /** Whether `after` differs from `before` only in SENSE of entry (b, s), which
      is `sense`. */
  predicate OnlySense(before: seq<seq<LineConfig>>, after: seq<seq<LineConfig>>, b: nat, s: nat, sense: u8)
    requires WellFormed(before) && WellFormed(after)
  {
    && (forall i, j :: 0 <= i < 2 && 0 <= j < 8 && (i, j) != (b, s) ==> after[i][j] == before[i][j])
    && b < 2 && s < 8 && after[b][s] == before[b][s].(sense := sense)
  }

  /** Whether `after` differs from `before` only in FILTEN of entry (b, s), which
      is `filter`. */
  predicate OnlyFilten(before: seq<seq<LineConfig>>, after: seq<seq<LineConfig>>, b: nat, s: nat, filter: bool)
    requires WellFormed(before) && WellFormed(after)
  {
    && (forall i, j :: 0 <= i < 2 && 0 <= j < 8 && (i, j) != (b, s) ==> after[i][j] == before[i][j])
    && b < 2 && s < 8 && after[b][s] == before[b][s].(filten := filter)
  }

  /** `ExtInt[num]::sense`: write SENSE of line `num`, selected by the slot
      through a match whose default arm is `unimplemented!()`. */
  function Sense(cfg: seq<seq<LineConfig>>, num: nat, sense: u8): (r: Outcome<seq<seq<LineConfig>>>)
    requires WellFormed(cfg)
    ensures r.Returns?
    ensures WellFormed(r.value) && OnlySense(cfg, r.value, ConfigBlock(num), ConfigSlot(num), sense)
  {
    var offset := ConfigBlock(num);
    match ConfigSlot(num)
    case 0 => Returns(SetSense(cfg, offset, 0, sense))
    case 1 => Returns(SetSense(cfg, offset, 1, sense))
    case 2 => Returns(SetSense(cfg, offset, 2, sense))
    case 3 => Returns(SetSense(cfg, offset, 3, sense))
    case 4 => Returns(SetSense(cfg, offset, 4, sense))
    case 5 => Returns(SetSense(cfg, offset, 5, sense))
    case 6 => Returns(SetSense(cfg, offset, 6, sense))
    case 7 => Returns(SetSense(cfg, offset, 7, sense))
    case _ => Panics
  }

  /** `ExtInt[num]::filter`: write FILTEN of line `num`, by the same
      addressing as `sense`. */
  function Filter(cfg: seq<seq<LineConfig>>, num: nat, filter: bool): (r: Outcome<seq<seq<LineConfig>>>)
    requires WellFormed(cfg)
    ensures r.Returns?
    ensures WellFormed(r.value) && OnlyFilten(cfg, r.value, ConfigBlock(num), ConfigSlot(num), filter)
  {
    var offset := ConfigBlock(num);
    match ConfigSlot(num)
    case 0 => Returns(SetFilten(cfg, offset, 0, filter))
    case 1 => Returns(SetFilten(cfg, offset, 1, filter))
    case 2 => Returns(SetFilten(cfg, offset, 2, filter))
    case 3 => Returns(SetFilten(cfg, offset, 3, filter))
    case 4 => Returns(SetFilten(cfg, offset, 4, filter))
    case 5 => Returns(SetFilten(cfg, offset, 5, filter))
    case 6 => Returns(SetFilten(cfg, offset, 6, filter))
    case 7 => Returns(SetFilten(cfg, offset, 7, filter))
    case _ => Panics
  }

  /** Sense and filter settings of a line touch the same entry, and settings
      of two different lines 0..15 never do. */
  lemma SenseFilterSameEntry(num: nat, other: nat)
    requires num < 16 && other < 16 && num != other
    ensures (ConfigBlock(num), ConfigSlot(num)) != (ConfigBlock(other), ConfigSlot(other))
  {
    BlockSlotSplit(num);
    BlockSlotSplit(other);
  }

  // ---------------------------------------------------------------------------
  // Pins

  datatype Port = PA | PB

  /** A GPIO pin: `Pa7` is `Pin(PA, 7)`. */
  datatype Pin = Pin(port: Port, n: nat)

  /** The port A pins of line `line`. */
  function PortAPins(line: nat): (pins: set<nat>)
    ensures forall n :: n in pins ==> n < 32 && n != 8 && n != 26 && n != 29
    ensures line >= 16 ==> pins == {}
  {
    match line
    case 0 => {0, 16}
    case 1 => {1, 17}
    case 2 => {2, 18}
    case 3 => {3, 19}
    case 4 => {4, 20}
    case 5 => {5, 21}
    case 6 => {6, 22}
    case 7 => {7, 23}
    case 8 => {28}
    case 9 => {9}
    case 10 => {10, 30}
    case 11 => {11, 31}
    case 12 => {12, 24}
    case 13 => {13, 25}
    case 14 => {14}
    case 15 => {15, 27}
    case _ => {}
  }

  /** The port B pins of line `line`, present on the packages that have
      port B (samd21g18a and samd21j18a). */
  function PortBPins(line: nat): (pins: set<nat>)
    ensures forall n :: n in pins ==> n < 32 && (n < 16 || n in {16, 17, 22, 23, 30, 31})
    ensures line >= 16 ==> pins == {}
  {
    match line
    case 0 => {16, 0}
    case 1 => {17, 1}
    case 2 => {2}
    case 3 => {3}
    case 4 => {4}
    case 5 => {5}
    case 6 => {6, 22}
    case 7 => {7, 23}
    case 8 => {8}
    case 9 => {9}
    case 10 => {10}
    case 11 => {11}
    case 12 => {12}
    case 13 => {13}
    case 14 => {14, 30}
    case 15 => {15, 31}
    case _ => {}
  }

  /** Whether `ExtInt[line]` has an `EicPin` conversion from `pin`. */
  function Accepts(line: nat, pin: Pin, portB: bool): (b: bool)
    ensures b ==> line < 16 && pin.n < 32
    ensures b && pin.port == PB ==> portB
  {
    match pin.port
    case PA => pin.n in PortAPins(line)
    case PB => portB && pin.n in PortBPins(line)
  }

  /** The line a pin's external interrupt function is wired to, by pin. */
  function LineOf(pin: Pin, portB: bool): Option<nat> {
    match pin.port
    case PA =>
      if pin.n < 8 || 9 <= pin.n < 16 then Some(pin.n)
      else if 16 <= pin.n < 24 then Some(pin.n - 16)
      else if pin.n == 24 || pin.n == 25 then Some(pin.n - 12)
      else if pin.n == 27 then Some(15)
      else if pin.n == 28 then Some(8)
      else if pin.n == 30 || pin.n == 31 then Some(pin.n - 20)
      else None
    case PB =>
      if !portB then None
      else if pin.n < 16 then Some(pin.n)
      else if pin.n in {16, 17, 22, 23, 30, 31} then Some(pin.n - 16)
      else None
  }

  /** The per-line table and the per-pin wiring agree: a line accepts a pin
      exactly when the pin is wired to it, so no pin serves two lines. */
  lemma AcceptsExactlyWired(line: nat, pin: Pin, portB: bool)
    ensures Accepts(line, pin, portB) <==> LineOf(pin, portB) == Some(line)
  {
    if line < 8 {
      if line == 0 {} else if line == 1 {} else if line == 2 {} else if line == 3 {}
      else if line == 4 {} else if line == 5 {} else if line == 6 {} else {}
    } else if line < 16 {
      if line == 8 {} else if line == 9 {} else if line == 10 {} else if line == 11 {}
      else if line == 12 {} else if line == 13 {} else if line == 14 {} else {}
    }
  }

  /** A pin is accepted by at most one line. */
  lemma OneLinePerPin(line: nat, other: nat, pin: Pin, portB: bool)
    requires Accepts(line, pin, portB) && Accepts(other, pin, portB)
    ensures line == other
  {
    AcceptsExactlyWired(line, pin, portB);
    AcceptsExactlyWired(other, pin, portB);
  }

  /** Without port B only port A pins are accepted, and port B adds pins
      without taking any away. */
  lemma PortBOnlyAdds(line: nat, pin: Pin)
    ensures Accepts(line, pin, false) ==> pin.port == PA && Accepts(line, pin, true)
  {
  }
}
