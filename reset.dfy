/** The reset cause reported by the power manager's RCAUSE register. */
module Reset {
  import opened Common

  datatype ResetCause = Unknown | POR | BOD12 | BOD33 | External | Watchdog | System

  /** The RCAUSE bit each recognised cause sets. */
  function CauseBit(c: ResetCause): (v: u8)
    requires c != Unknown
  {
    match c
    case POR => 1
    case BOD12 => 2
    case BOD33 => 4
    case External => 16
    case Watchdog => 32
    case System => 64
  }

  /** `ResetCause::from(u8)`: one of the six single-bit codes names its
      cause; every other value, including 0 and values with several bits
      set, is `Unknown`. */
  function FromRcause(v: u8): (c: ResetCause)
    ensures c != Unknown <==> v in {1, 2, 4, 16, 32, 64}
    ensures c != Unknown ==> CauseBit(c) == v
  {
    match v
    case 1 => POR
    case 2 => BOD12
    case 4 => BOD33
    case 16 => External
    case 32 => Watchdog
    case 64 => System
    case _ => Unknown
  }

  /** Every recognised cause is the decoding of its own bit, so the six
      codes decode to six different causes. */
  lemma CausesDistinct(c: ResetCause, d: ResetCause)
    requires c != Unknown && d != Unknown
    ensures FromRcause(CauseBit(c)) == c
    ensures CauseBit(c) == CauseBit(d) ==> c == d
  {
  }
}
