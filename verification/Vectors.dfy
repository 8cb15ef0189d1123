/** Borrowed views of one int4 column (include/pg_batch/vector.h). */
module Vectors {
  datatype Option<+T> = None | Some(value: T)

  /** Datum values with a NULL flag per row, or packed values from an offset with
      an optional validity map whose absence means that every row is valid. */
  datatype Vector<T> =
    | Datums(values: seq<T>, isnull: seq<bool>)
    | Packed(values: seq<T>, validity: Option<seq<bool>>, offset: nat)
  {
    predicate Covers(nrows: nat) {
      match this
      case Datums(_, _) => nrows <= |values| && nrows <= |isnull|
      case Packed(_, _, _) =>
        offset + nrows <= |values| && (validity.Some? ==> offset + nrows <= |validity.value|)
    }

    predicate IsNull(row: nat)
      requires Covers(row + 1)
    {
      match this
      case Datums(_, _) => isnull[row]
      case Packed(_, _, _) => validity.Some? && !validity.value[offset + row]
    }

    function ValueAt(row: nat): T
      requires Covers(row + 1)
    {
      match this
      case Datums(_, _) => values[row]
      case Packed(_, _, _) => values[offset + row]
    }

    /** The value of a row, with NULL as None. */
    function At(row: nat): Option<T>
      requires Covers(row + 1)
    {
      if IsNull(row) then None else Some(ValueAt(row))
    }
  }
}
