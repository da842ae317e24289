/**
 The two supported controller families and their register tables.
 The driver's type field is a plain integer: 1 and 2 name the families,
 every other value (the zero value included) is "not set or unrecognised".
 */
module Registers {

  import opened Bus

  const FT62XX: int := 1
  const FT5X06: int := 2

  predicate Recognised(tt: int) {
    tt == FT62XX || tt == FT5X06
  }

  /** The registers the driver uses. */
  datatype Reg = ChipVendId | CtpmVendId | TouchCount | TouchVal | Threshold | GestureId

  function FT62XXAddress(r: Reg): bv8 {
    match r
    case CtpmVendId => 0xA8
    case ChipVendId => 0xA3
    case TouchCount => 0x02
    case TouchVal => 0x03
    case Threshold => 0x80
    case GestureId => 0x01
  }

  function FT5X06Address(r: Reg): bv8 {
    match r
    case CtpmVendId => 0xA8
    case ChipVendId => 0xA3
    case TouchCount => 0x02
    case TouchVal => 0x03
    case Threshold => 0x80
    case GestureId => 0x01
  }

  /** The address of register `r` for type `tt`, or None when the type is not recognised. */
  function Address(tt: int, r: Reg): (a: Option<bv8>)
    ensures a.Some? <==> Recognised(tt)
  {
    if tt == FT62XX then Some(FT62XXAddress(r))
    else if tt == FT5X06 then Some(FT5X06Address(r))
    else None
  }

  /** Both families share one register layout, so the family only decides
      whether a register can be addressed at all. */
  lemma {:induction false} FamiliesShareLayout(tt: int, r: Reg)
    requires Recognised(tt)
    ensures Address(tt, r) == Address(FT62XX, r) == Address(FT5X06, r)
    ensures Address(tt, r).value ==
      match r
      case CtpmVendId => 0xA8
      case ChipVendId => 0xA3
      case TouchCount => 0x02
      case TouchVal => 0x03
      case Threshold => 0x80
      case GestureId => 0x01
  {
    match r
    case CtpmVendId =>
    case ChipVendId =>
    case TouchCount =>
    case TouchVal =>
    case Threshold =>
    case GestureId =>
  }
}
