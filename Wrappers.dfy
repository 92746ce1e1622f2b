/** Optional values and results, as Swift's `T?` and Alamofire's `Result<Value, Error>`. */
module Wrappers {

  datatype Option<+T> = None | Some(value: T)

  datatype Result<+T, +E> = Ok(value: T) | Err(error: E)
}
