/** Option and Result, the failure-compatible wrappers the rest of the model uses. */
module Wrappers {

  datatype Option<+T> = None | Some(value: T)

  /** Either a value or the error the source would raise instead of returning. */
  datatype Result<+T, +E> = Ok(value: T) | Err(error: E) {
    predicate IsFailure() {
      Err?
    }

    function PropagateFailure<U>(): Result<U, E>
      requires Err?
    {
      Err(error)
    }

    function Extract(): T
      requires Ok?
    {
      value
    }
  }
}

/** The error kinds of the WAL naming codec (the source raises them as exceptions). */
module XlogErrors {

  datatype XlogError =
    | BadXlogSegmentName(name: string)      // a name that matches none of the four WAL file shapes
    | BadHistoryFileContents(path: string)  // a history file with no data line or a line without 3 fields
    | ValueError                            // text that is not an LSN or not a decimal integer
    | TypeError                             // arithmetic on the missing log/segment of a history name
    | TimelineMismatch                      // begin and end of a segment range on different timelines
}
