/**
 The values that flow from the gRPC client to the outstation
 (src/bridge/DataModel.hpp), and the flag byte that carries their quality.
 */
module Measurements {

  newtype uint16 = x: int | 0 <= x < 0x1_0000

  /** An IEEE 754 binary64: finite values are exact reals, the rest is symbolic. */
  datatype Double = Finite(value: real) | NaN | PosInf | NegInf

  datatype Quality = Good | Uncertain | Bad | Restart

  datatype PointUpdate =
    | AnalogUpdate(index: uint16, analog: Double, quality: Quality)
    | BinaryUpdate(index: uint16, binary: bool, quality: Quality)

  /** The two event modes the bridge hands to the outstation. */
  datatype EventMode = Force | Suppress

  /** One `IOutstation::Apply` call. */
  datatype Applied =
    | AppliedAnalog(index: uint16, analog: Double, flags: bv8, mode: EventMode)
    | AppliedBinary(index: uint16, binary: bool, flags: bv8, mode: EventMode)

  datatype PointId = AnalogPoint(index: uint16) | BinaryPoint(index: uint16)

  function PointOf(u: PointUpdate): PointId {
    match u
    case AnalogUpdate(i, _, _) => AnalogPoint(i)
    case BinaryUpdate(i, _, _) => BinaryPoint(i)
  }

  function PointOfApplied(a: Applied): PointId {
    match a
    case AppliedAnalog(i, _, _, _) => AnalogPoint(i)
    case AppliedBinary(i, _, _, _) => BinaryPoint(i)
  }

  // DNP3 object flags (IEEE Std 1815-2012, groups 30 and 32).
  const ONLINE: bv8 := 1
  const RESTART: bv8 := 2

  function ToFlagBits(q: Quality): bv8 {
    match q
    case Good => ONLINE
    case Uncertain => ONLINE
    case Bad => 0
    case Restart => ONLINE | RESTART
  }

  /** The flag byte u has to carry, bit 0 being ONLINE and bit 1 RESTART. */
  predicate CarriesFlags(u: PointUpdate, flags: bv8) {
    match u.quality
    case Good => flags == 1
    case Uncertain => flags == 1
    case Bad => flags == 0
    case Restart => flags == 3
  }

  /** a hands the outstation just what u says: its kind, index and value, with the flag byte of its quality. */
  predicate Delivers(u: PointUpdate, a: Applied) {
    && CarriesFlags(u, a.flags)
    && a.index == u.index
    && (u.AnalogUpdate? ==> a.AppliedAnalog? && a.analog == u.analog)
    && (u.BinaryUpdate? ==> a.AppliedBinary? && a.binary == u.binary)
  }

  /**
   What the SCADA can read back from the flag byte: all eight bits of it, that
   ONLINE is cleared exactly for Bad and RESTART set exactly for Restart, and
   that Good and Uncertain are the only two qualities that cannot be told apart.
   */
  lemma FlagBitsMeaning(q: Quality, r: Quality)
    ensures ToFlagBits(Good) == 1 && ToFlagBits(Uncertain) == 1 && ToFlagBits(Bad) == 0 && ToFlagBits(Restart) == 3
    ensures ToFlagBits(q) & ONLINE == ONLINE <==> q != Bad
    ensures ToFlagBits(q) & RESTART == RESTART <==> q == Restart
    ensures ToFlagBits(q) == ToFlagBits(r) <==> q == r || {q, r} == {Good, Uncertain}
  {
  }
}
