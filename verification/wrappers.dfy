/** Failure-carrying datatypes shared by every module of the model. */
module Wrappers {

  /** A value that may be absent (`undefined`/`null` on the JavaScript side). */
  datatype Option<+T> = None | Some(value: T) {

    /** The value held, or `default` when there is none. */
    function GetOr(default: T): T {
      match this
      case Some(v) => v
      case None => default
    }
  }

  /** What a document-store lookup produced: the document, no document
      (`null`), or a thrown driver error (for example a malformed id). */
  datatype Fetch<+T> = Found(doc: T) | NotFound | Failed
}
