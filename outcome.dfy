/** Failure-compatible wrappers shared by the whole model. Python's
    exceptions (KeyError, IndexError, the explicit `raise Exception(...)`)
    become `Err` values whose tag names the cause. */
module Outcome {

  datatype Option<+T> = None | Some(value: T)

  /** Why an operation of the source raises. */
  datatype Error =
    | MissingRel(rel: string)          // _get_rel_from_links found no usable href
    | NotFound(path: string)           // a GET through the connector failed
    | UnpairedInput(self: string)      // a submission whose unpaired-input list is not empty
    | NoPredictions(analysis: string)  // the SISTR prediction file parsed to null
    | NoSample                         // the sample resource of a paired file was null
    | KeyError(key: string)            // a dictionary lookup of a missing key
    | IndexError                       // `xs[0]` on an empty list
    | ValueError                       // `list.index` of an absent element

  datatype Result<+T> = Ok(value: T) | Err(error: Error) {

    predicate IsFailure() {
      Err?
    }

    function PropagateFailure<U>(): Result<U>
      requires Err?
    {
      Err(error)
    }

    function Extract(): T
      requires Ok?
    {
      value
    }
  }
}
