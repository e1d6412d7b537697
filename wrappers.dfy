/** Results of operations that can raise, and the Python exceptions the adapter raises. */
module Wrappers {

  datatype Option<+T> = None | Some(value: T)

  /** The exceptions the modelled code raises; no payload is kept. */
  datatype Error =
    | KeyError        // a dictionary lookup of a missing key
    | IndexError      // a list or array index out of range
    | ValueError      // raised explicitly by `image_path`
    | AttributeError  // a field that an unloaded dataset never set

  datatype Result<+T> = Success(value: T) | Failure(error: Error)

  datatype Outcome = Pass | Fail(error: Error)
}
