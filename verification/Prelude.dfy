/** Values shared by the definition side and the runtime side of the kernel. */
module Prelude {

  /** A UUID. Only equality matters; UUIDs that the program generates arrive as parameters. */
  type Uuid = int

  const I32_MAX: int := 0x7fff_ffff
  const I32_MIN: int := -0x8000_0000

  datatype Option<+T> = None | Some(value: T)

  datatype Result<+T, +E> = Ok(value: T) | Err(error: E)

  /** A JSON value. A JSON string that parses as a UUID is `IdText`; every other string is `Text`. */
  datatype Json =
    | Null
    | Bool(b: bool)
    | Number(n: int)
    | Text(s: string)
    | IdText(id: Uuid)
    | Array(items: seq<Json>)
    | Object(fields: map<string, Json>)

  /** The unchecked `i32` increment `x + 1`, which wraps. */
  function Inc32(x: int): int {
    if x == I32_MAX then I32_MIN else x + 1
  }

  lemma NonemptyHasElement(s: set<Uuid>)
    ensures s == {} || exists x :: x in s
  {
    if forall x :: x !in s {
      assert s == {};
    }
  }
}
