/** Shared vocabulary of the trend identification model. */
module Common {

  datatype Option<+T> = None | Some(value: T)

  datatype Result<+T, +E> = Ok(value: T) | Err(error: E)

  /** A trend as the source records it: the index keys (day numbers) of
      its first and its last row, both inclusive. */
  datatype Segment = Segment(from: int, to: int)

  /** The row index of a table: ascending, no duplicates. */
  ghost predicate StrictlyIncreasing(keys: seq<int>)
  {
    forall i, j :: 0 <= i < j < |keys| ==> keys[i] < keys[j]
  }

  function Min(a: int, b: int): int
  {
    if a <= b then a else b
  }
}
