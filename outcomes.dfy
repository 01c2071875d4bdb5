/** Option and Result values, and the errors the JCAMP-DX parser raises. */
module Outcomes {

  datatype Option<T> = None | Some(value: T)

  datatype Result<T> = Ok(value: T) | Err(error: Error)

  /** The exceptions of the parser, each with the data its message carries. */
  datatype Error =
    | EntryIndexError(count: int, requested: int)  // an entry index outside the index of count entries
    | DecodeError                                  // the block decoder could not read the entry
    | BroadcastError(rows: nat, values: nat)       // y cannot fill a column of |x| rows
    | KeyError(key: string)                        // a mandatory metadata key is missing
    | SampleIndexError(index: nat, size: nat)      // x[index] with index >= |x|
    | RecordIndexError(index: nat, size: nat)      // scandata[index] with index >= |scandata|
    | ChannelError(number: int)                    // an MCA number other than 1
}
