/** HTTP responses as the handlers produce them: a status code and a body. */
module Http {
  import opened Documents
  import opened ProductModels

  datatype Body =
    | Message(text: string)
      /** The `detail` of an HTTPException. */
    | Detail(text: string)
    | Record(doc: Document)
    | Records(docs: seq<Document>)
    | ProductBody(product: ProductResponse)
    | ProductList(products: seq<ProductResponse>)
    | NoContent
      /** FastAPI's 422 body for a request that fails its schema: pydantic's error list. */
    | ValidationErrors(violations: seq<Violation>)

  datatype Response = Response(status: int, body: Body)

  /** What a handler raises instead of returning. */
  datatype Failure =
    | HttpError(status: int, detail: string)
      /** Any other exception; the framework answers 500. */
    | Unhandled(cause: string)

  const InternalServerError: string := "Internal Server Error"

  function FailureResponse(f: Failure): (r: Response)
    ensures f.HttpError? ==> r == Response(f.status, Detail(f.detail))
    ensures f.Unhandled? ==> r == Response(500, Detail(InternalServerError))
  {
    match f
    case HttpError(status, detail) => Response(status, Detail(detail))
    case Unhandled(_) => Response(500, Detail(InternalServerError))
  }
}
