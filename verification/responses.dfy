/**
  What a handler writes back. The model keeps the status and the entity
  (or error text) and leaves the JSON/XML encoding to the framework.
 */
module Responses {
  import opened Bills

  const StatusOK := 200                  // section 15.3.1 of RFC 9110
  const StatusCreated := 201             // section 15.3.2 of RFC 9110
  const StatusNotFound := 404            // section 15.5.5 of RFC 9110
  const StatusInternalServerError := 500 // section 15.6.1 of RFC 9110

  /** The fixed text of the 404 answer of the single-bill lookup. */
  const BillNotFound := "Bill could not be found."

  datatype Response =
    | Ok(bill: Bill)                 // one bill written as the entity
    | OkAll(bills: Store)            // the whole store written as the entity
    | Created(bill: Bill)            // one bill written with status 201
    | NotFound(message: string)      // plain-text error with status 404
    | ServerError(message: string)   // the decoder's error with status 500
    | OkEmpty                        // nothing written: implicit 200, empty body

  /** The HTTP status code a response carries. */
  function Status(r: Response): (code: int)
  {
    match r
    case Ok(_) => StatusOK
    case OkAll(_) => StatusOK
    case Created(_) => StatusCreated
    case NotFound(_) => StatusNotFound
    case ServerError(_) => StatusInternalServerError
    case OkEmpty => StatusOK
  }
}
