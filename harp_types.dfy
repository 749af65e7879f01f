/**
 * The Harp register data types the adapter layer uses, with their value
 * domains. The binary encoding of the types belongs to the Harp library and
 * is not modelled; a payload is the sequence of element values it carries.
 */
module HarpTypes {

  /** Register data types used by the Pico registers. */
  datatype HarpType = U8 | U16

  /** One more than the largest value of an unsigned type. */
  function Bound(t: HarpType): nat
  {
    match t
    case U8 => 0x100
    case U16 => 0x1_0000
  }

  /** An unsigned 16-bit value, as returned by the ADC driver. */
  type u16 = x: int | 0 <= x < 0x1_0000

  /** `v` is a value of type `t`. */
  predicate Fits(t: HarpType, v: int)
  {
    0 <= v < Bound(t)
  }

  /**
   * The payload the model assumes for a one-element register of type `t`:
   * exactly one element, inside the type's range.
   */
  predicate Conforms(t: HarpType, payload: seq<int>)
  {
    |payload| == 1 && Fits(t, payload[0])
  }
}
