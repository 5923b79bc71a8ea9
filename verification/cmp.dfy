/** Rust's `std::cmp::Ordering` and the order that `#[derive(PartialOrd, Ord)]`
    gives a field-less enum: variants compare by their declaration position. */
module Cmp {

  datatype Ordering = Less | Equal | Greater {
    function Reverse(): Ordering {
      match this
      case Less => Greater
      case Equal => Equal
      case Greater => Less
    }
  }

  /** Comparison of two declaration positions. */
  function CompareIndex(i: nat, j: nat): (r: Ordering)
    ensures r == Less <==> i < j
    ensures r == Equal <==> i == j
    ensures r == Greater <==> j < i
  {
    if i < j then Less else if i == j then Equal else Greater
  }

  /** `a` is declared strictly before `b` in `order`. */
  ghost predicate Precedes<T>(order: seq<T>, a: T, b: T) {
    exists i, j :: 0 <= i < j < |order| && order[i] == a && order[j] == b
  }
}
