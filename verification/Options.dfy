/** Option, bytes and the minimum: what several modules of the project share. */
module Options {

  datatype Option<+T> = None | Some(value: T)

  /** The zero- or one-element sequence of an Option. */
  function ToSeq<T>(o: Option<T>): seq<T> {
    match o
    case None => []
    case Some(x) => [x]
  }

  type Byte = b: int | 0 <= b < 256

  function Min(a: nat, b: nat): nat { if a < b then a else b }
}
