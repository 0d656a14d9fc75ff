/** How a run of the script can end without writing its output. */
module Outcomes {

  datatype Error =
    | ClientError(message: string)  // the object store refused a request; the script prints the message and exits
    | UnreadableCsv                 // `pd.read_csv` raised on a fetched object; nothing catches it
    | NoObjectsToConcatenate        // no table was kept, so `pd.concat` raises

  datatype Result<T> = Ok(value: T) | Err(error: Error)

  datatype Option<T> = None | Some(value: T)
}
