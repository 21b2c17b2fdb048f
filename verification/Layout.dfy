/** Where things are on the device. */
module Layout {

  datatype ChipAddr = ChipAddr(channel: nat, chip: nat)

  datatype PlaneAddr = PlaneAddr(channel: nat, chip: nat, die: nat, plane: nat)

  datatype DieAddr = DieAddr(channel: nat, chip: nat, die: nat)

  /** A physical page. */
  datatype Loc = Loc(at: PlaneAddr, block: nat, page: nat)
}
