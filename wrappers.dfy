/** Option and Result values, and the Python exceptions that can escape the pipeline. */
module Wrappers {

  datatype Option<+T> = None | Some(value: T)

  datatype Result<+T, +E> = Success(value: T) | Failure(error: E)

  /** The exceptions the modelled code can raise; none of them is caught by the handler. */
  datatype Exception =
    | KeyError(key: string)          // a dataset entry without "bucket" or "prefix"
    | IndexError                     // a fetched row shorter than the column list
    | NoSuchBucket(bucket: string)   // listing a bucket the store does not have
    | ClientError(message: string)   // a download that failed in the object-store client
    | EngineError(message: string)   // the engine rejected a statement
    | TypeError(typeName: string)    // json.dumps met a value of a type it cannot encode
}
