/** Value types shared by every component of the model. */
module Prelude {
  /** The source's `Optional`: reading an unset one with `get()` gives an arbitrary value,
      which callers of `GetOr` pass in. */
  datatype Option<+T> = None | Some(value: T) {
    function GetOr(arbitrary: T): T {
      match this
      case Some(v) => v
      case None => arbitrary
    }
  }

  type Byte = b: int | 0 <= b < 0x100

  /** One for true, to count with. */
  function One(b: bool): nat { if b then 1 else 0 }

  function RemoveAt<T>(s: seq<T>, i: nat): seq<T>
    requires i < |s|
  {
    s[..i] + s[i + 1..]
  }
}
