/** Option and Result, the two failure-carrying wrappers the model uses in
    place of Python's `None` results and raised exceptions. */
module Wrappers {

  datatype Option<+T> = None | Some(value: T)

  /** The Python exception a step of the pipeline raises; a raised exception
      ends the whole run. */
  datatype Error =
    | AttributeError   // a method called on the wrong kind of value, or on a failed regex match
    | TypeError        // subscripting None
    | ValueError       // int() of non-digit text
    | KeyError         // an unknown HTTPMethod member name
    | StopIteration    // an exhausted iterator in to_endpoint_path
    | RuntimeError     // the same, raised inside a generator (PEP 479)
    | DecodeError      // json.loads of malformed text
    | FileNotFound     // write_text into a directory that does not exist
    | FileExists       // mkdir where a file already stands
    | NotADirectory    // a path through a file
    | IsADirectory     // write_text or read_text on a directory

  datatype Result<+T> = Ok(value: T) | Err(error: Error)
}
