/** Optional values: TypeScript's `T | undefined` / `T | null` fields and cells. */
module Wrappers {

  datatype Option<+T> = None | Some(value: T)

  /** The value outcome of a foreign call that may throw: the `try`/`catch` of the source. */
  datatype Call<+T> = Threw | Returned(value: T)
}
