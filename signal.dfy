/**
 * The three-valued signal carried by every pin, and the truth tables that
 * the gate components apply to it.
 *
 * `Invalid` is a value, not an error: it stands for "no driver" or for an
 * indeterminate operand. In every gate the `Invalid` arm is tried first, so
 * an `Invalid` operand makes the result `Invalid` even where the other
 * operand alone would decide a Boolean gate (there is no short-circuit).
 */
module Signal {

  datatype State = Low | High | Invalid

  /** The defined signal that stands for a Boolean value. */
  function FromBool(b: bool): (s: State)
  {
    if b then High else Low
  }

  /** OR: an `Invalid` operand wins, then any `High` operand, else `Low`. */
  function Or(a: State, b: State): (r: State)
    ensures a == Invalid || b == Invalid ==> r == Invalid
    ensures a != Invalid && b != Invalid ==> r == FromBool(a == High || b == High)
  {
    if a == Invalid || b == Invalid then Invalid
    else if a == High || b == High then High
    else Low
  }

  /** AND: an `Invalid` operand wins, then two `High` operands give `High`, else `Low`. */
  function And(a: State, b: State): (r: State)
    ensures a == Invalid || b == Invalid ==> r == Invalid
    ensures a != Invalid && b != Invalid ==> r == FromBool(a == High && b == High)
  {
    if a == Invalid || b == Invalid then Invalid
    else if a == High && b == High then High
    else Low
  }

  /** XOR: an `Invalid` operand wins; two `High`s give `Low`; one `High` gives `High`; else `Low`. */
  function Xor(a: State, b: State): (r: State)
    ensures a == Invalid || b == Invalid ==> r == Invalid
    ensures a != Invalid && b != Invalid ==> r == FromBool((a == High) != (b == High))
  {
    if a == Invalid || b == Invalid then Invalid
    else if a == High && b == High then Low
    else if a == High || b == High then High
    else Low
  }

  /** NOT: `Invalid` stays `Invalid`, the defined values swap. */
  function Not(a: State): (r: State)
    ensures a == Invalid ==> r == Invalid
    ensures a != Invalid ==> r == FromBool(a == Low)
  {
    match a
    case Invalid => Invalid
    case High => Low
    case Low => High
  }
}
