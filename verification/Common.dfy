/** Bytes, optional values, and byte strings joined. */
module Common {
  type u8 = x: int | 0 <= x < 256

  datatype Option<T> = None | Some(value: T)

  function Concat(parts: seq<seq<u8>>): seq<u8> {
    if parts == [] then [] else parts[0] + Concat(parts[1..])
  }
}
