/** Bytes, and what several components do with sequences. */
module Sequences {

  type Byte = bv8

  type Bytes = seq<Byte>

  /** The parts one after another. */
  function Joined(parts: seq<Bytes>): Bytes {
    if parts == [] then [] else Joined(parts[..|parts| - 1]) + parts[|parts| - 1]
  }

  function Without<T>(ws: seq<T>, i: nat): seq<T>
    requires i < |ws|
  {
    ws[..i] + ws[i + 1..]
  }
}
