/** Small failure-carrying datatypes shared by every view of the model. */
module Wrappers {

  /** An optional value: a TypeScript `T | undefined` or `T | null`. */
  datatype Option<+T> = None | Some(value: T)

  /** What a request to the backend resolved to, as seen by a component's
      `subscribe({ next, error })` callbacks. The backend itself is not modelled:
      every outcome is an input. */
  datatype Response<+T> = Success(value: T) | Failure
}
