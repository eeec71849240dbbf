/** What every module shares. */
module Prelude {

  datatype Option<T> = None | Some(value: T)

  /** A switch: its level, the root being level 0, and its number from the left. */
  type Id = (nat, nat)

  /** A partial sum travelling through a network, stamped with the VN it belongs to. */
  datatype Package<D> = Package(vn: nat, data: D)

  function Sum(counts: seq<nat>): nat {
    if counts == [] then 0 else Sum(counts[..|counts| - 1]) + counts[|counts| - 1]
  }
}
