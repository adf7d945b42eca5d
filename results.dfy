/** Optional values, results, and the exceptions the ingestion code raises. */
module Results {

  datatype Option<+T> = None | Some(value: T)

  datatype Result<+T, +E> = Ok(value: T) | Err(error: E)

  /** The exceptions the core can raise, by kind. */
  datatype Failure =
    | InvalidDate(text: string)                  // `strptime` rejected a bound (ValueError)
    | DateOutOfRange                             // date arithmetic left years 1..9999 (OverflowError)
    | ListingFailed(message: string)             // listing the bucket raised
    | FetchFailed(date: string, message: string) // the source query or request raised
    | UploadFailed(path: string, message: string) // the Parquet upload raised
}
