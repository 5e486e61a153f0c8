/** Optional values and success-or-error results, used wherever the shell
    returns `std::optional` or `std::expected`. */
module Wrappers {

  datatype Option<+T> = None | Some(value: T)

  datatype Result<+R, +E> = Success(value: R) | Failure(error: E)
}
