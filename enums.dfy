/** The selectors the generator dispatches on. */
module Enums {

  /** The role of a synthesised signal: the reference (`GENERAL`, `bits_count`
      bits) or the longer research signal (`rsch_bits_count` bits). */
  datatype SignalType = GENERAL | RESEARCH

  /** Amplitude, frequency or phase keying. */
  datatype ModulationType = AM | FM | PM

  /** Which part of a complex signal to take: real (in-phase) or imaginary
      (quadrature). */
  datatype ComplexPart = REAL | IMAGE

  /** The modulation argument as the generator receives it: one of the three
      kinds, or any other value, which none of its comparisons match. */
  datatype ModulationArg = Kind(kind: ModulationType) | Unrecognised
}
