/** Small value types shared by the frontend and backend models. */
module Shared {

  /** A value that may be absent: TypeScript's `T | undefined`, Python's `None`. */
  datatype Option<+T> = None | Some(value: T)

  /** The outcome of one remote call: the reply body, or the error it was rejected with. */
  datatype Reply<+T> = Ok(data: T) | Err(error: string)

  /** The collection name both the frontend and the backend treat as the liked list. */
  const LikedListName := "Liked Companies List"

  /** Collection identifiers are UUID strings on the wire. */
  type CollectionId = string

  /** Company identifiers are integers. */
  type CompanyId = int

  function Min(a: int, b: int): int
  {
    if a <= b then a else b
  }

  function Max(a: int, b: int): int
  {
    if a <= b then b else a
  }
}
