/** Optional values: the model's stand-in for Go's nil slices, for the
    results of the registry scans, for a missing cookie and for a request
    body that fails to decode. */
module Wrappers {

  datatype Option<+T> = None | Some(value: T)
}
