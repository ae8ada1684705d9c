/** Constants and knobs that the assembly memory scripts share (scripts/assembly-proof.py:38-56, 513-519). */
module AssemblyPolicy {
  import opened Wrappers

  const GIB := 0x4000_0000
  const LINK_BYTES := 2254857831       // 2.1 GiB rounded up
  const GUARD_HEADROOM_BYTES := 2 * GIB

  function Max(a: int, b: int): int { if a >= b then a else b }
  function Min(a: int, b: int): int { if a <= b then a else b }

  /** A knob that is set holds a positive integer; `positive_knob` refuses anything else. */
  type Positive = n: int | n > 0 witness 1
  type Knob = Option<Positive>

  function KnobOr(knob: Knob, default: Positive): Positive {
    if knob.Some? then knob.value else default
  }
}
