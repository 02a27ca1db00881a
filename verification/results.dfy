/** Optional values and the two-case result the GitHub client hands to its
    completion handlers (`Result<T>` with `.success` / `.failure`). */
module Results {

  /** Swift's `T?`. */
  datatype Option<+T> = None | Some(value: T)

  /** `Result<T>`: either the success payload or an error. Swift's
      existential `Error` is the type parameter `E`. */
  datatype Result<+T, +E> = Success(value: T) | Failure(error: E)
}
