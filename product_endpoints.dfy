/**
 * The product routes of app/api/endpoints/products.py. Get, update and delete
 * turn NotFoundException into 404 with the exception's message as detail;
 * create answers 201 and delete 204; nothing else is caught, so any other
 * exception becomes the framework's 500.
 */
module ProductEndpoints {
  import opened Wrappers
  import opened ObjectIds
  import opened Documents
  import opened ProductModels
  import opened BaseRepositories
  import opened ProductServices
  import opened Http

  /** A service exception the handler does not catch. */
  function Uncaught(e: ServiceError): Response {
    FailureResponse(Unhandled(if e.TypeError? then e.detail else "exception"))
  }

  /** `except NotFoundException as e: raise HTTPException(404, detail=str(e))`; others pass through. */
  function NotFoundTo404(e: ServiceError): (r: Response)
    ensures e.Repository? && e.error.NotFound? ==> r == Response(404, Detail(e.error.detail))
    ensures !(e.Repository? && e.error.NotFound?) ==> r.status == 500
  {
    if e.Repository? && e.error.NotFound? then FailureResponse(HttpError(404, e.error.detail))
    else Uncaught(e)
  }

  function ListProducts(r: Result<seq<ProductResponse>, ServiceError>): Response {
    match r
    case Ok(ps) => Response(200, ProductList(ps))
    case Err(e) => Uncaught(e)
  }

  function GetProduct(r: Result<ProductResponse, ServiceError>): Response {
    match r
    case Ok(p) => Response(200, ProductBody(p))
    case Err(e) => NotFoundTo404(e)
  }

  function CreateProduct(r: Result<ProductResponse, ServiceError>): Response {
    match r
    case Ok(p) => Response(201, ProductBody(p))
    case Err(e) => Uncaught(e)
  }

  function UpdateProduct(r: Result<ProductResponse, ServiceError>): Response {
    match r
    case Ok(p) => Response(200, ProductBody(p))
    case Err(e) => NotFoundTo404(e)
  }

  function DeleteProduct(r: Result<bool, ServiceError>): Response {
    match r
    case Ok(_) => Response(204, NoContent)
    case Err(e) => NotFoundTo404(e)
  }

  /** FastAPI refuses a request body that fails its model with 422 before the handler runs. */
  function Rejected(violations: seq<Violation>): Response {
    Response(422, ValidationErrors(violations))
  }

  /** `create_product` as served: the `ProductCreate` body is validated, then the handler's answer. */
  function CreateRoute(p: Product, created: Result<ProductResponse, ServiceError>, urlOk: string -> bool): Response {
    if ProductViolations(p, urlOk) != [] then Rejected(ProductViolations(p, urlOk)) else CreateProduct(created)
  }

  /** `update_product` as served: the `ProductUpdate` body is validated, then the handler's answer. */
  function UpdateRoute(docs: map<Oid, Document>, id: string, u: ProductUpdate, fault: Option<string>,
                       rereadFault: Option<string>, urlOk: string -> bool): Response {
    if UpdateViolations(u, urlOk) != [] then Rejected(UpdateViolations(u, urlOk))
    else UpdateProduct(UpdateProductOutcome(docs, id, u, fault, rereadFault, urlOk))
  }

  function UpdateRouteDocs(docs: map<Oid, Document>, id: string, u: ProductUpdate, fault: Option<string>,
                           urlOk: string -> bool): map<Oid, Document> {
    if UpdateViolations(u, urlOk) != [] then docs else UpdateProductDocs(docs, id, u, fault)
  }

  /**
   * A body that breaks a field rule is answered 422 and never reaches the
   * store; no other outcome of these routes is a 422.
   */
  lemma RequestBodyValidation(docs: map<Oid, Document>, id: string, p: Product, u: ProductUpdate,
                              created: Result<ProductResponse, ServiceError>, fault: Option<string>,
                              rereadFault: Option<string>, urlOk: string -> bool)
    ensures CreateRoute(p, created, urlOk).status == 422 <==> !ValidProduct(p, urlOk)
    ensures CreateRoute(p, created, urlOk).status in {201, 422, 500}
    ensures UpdateRoute(docs, id, u, fault, rereadFault, urlOk).status == 422 <==> !ValidUpdate(u, urlOk)
    ensures UpdateRoute(docs, id, u, fault, rereadFault, urlOk).status in {200, 404, 422, 500}
    ensures !ValidUpdate(u, urlOk) ==> UpdateRouteDocs(docs, id, u, fault, urlOk) == docs
    ensures ValidUpdate(u, urlOk) ==>
              UpdateRoute(docs, id, u, fault, rereadFault, urlOk)
              == UpdateProduct(UpdateProductOutcome(docs, id, u, fault, rereadFault, urlOk))
  {
    StatusCodes(Ok([]), created, Ok(true));
    StatusCodes(Ok([]), UpdateProductOutcome(docs, id, u, fault, rereadFault, urlOk), Ok(true));
  }

  /** The status codes each handler can answer with once the request body has validated. */
  lemma StatusCodes(list: Result<seq<ProductResponse>, ServiceError>, one: Result<ProductResponse, ServiceError>,
                    deleted: Result<bool, ServiceError>)
    ensures ListProducts(list).status in {200, 500}
    ensures CreateProduct(one).status in {201, 500}
    ensures GetProduct(one).status in {200, 404, 500} && UpdateProduct(one).status in {200, 404, 500}
    ensures DeleteProduct(deleted).status in {204, 404, 500}
    ensures ListProducts(list).status == 500 <==> list.Err?
    ensures CreateProduct(one).status == 500 <==> one.Err?
  {
  }

  /** A DatabaseException is never mapped by these handlers: it surfaces as 500. */
  lemma DatabaseErrorIs500(detail: string)
    ensures ListProducts(Err(Repository(DatabaseError(detail)))).status == 500
    ensures GetProduct(Err(Repository(DatabaseError(detail)))).status == 500
    ensures CreateProduct(Err(Repository(DatabaseError(detail)))).status == 500
    ensures UpdateProduct(Err(Repository(DatabaseError(detail)))).status == 500
    ensures DeleteProduct(Err(Repository(DatabaseError(detail)))).status == 500
  {
  }

  /**
   * On this path a malformed id is answered 404 "ID inválido" by get, update
   * and delete, whatever the store holds or would raise; update only once the
   * request dict has been built, which fails first for a null category.
   */
  lemma MalformedIdIs404(docs: map<Oid, Document>, id: string, u: ProductUpdate, fault: Option<string>,
                         rereadFault: Option<string>, urlOk: string -> bool)
    requires !IsValidObjectId(id)
    ensures GetProduct(GetProductOutcome(docs, id, fault, urlOk)) == Response(404, Detail(InvalidIdDetail))
    ensures DeleteProduct(DeleteProductOutcome(docs, id, fault)) == Response(404, Detail(InvalidIdDetail))
    ensures !u.category.SetNull? ==>
      UpdateProduct(UpdateProductOutcome(docs, id, u, fault, rereadFault, urlOk)) == Response(404, Detail(InvalidIdDetail))
  {
    MalformedIdIsNotFound(docs, id, map[], fault, rereadFault);
    UpdateRequestMeaning(u);
    if UpdateRequest(u).Ok? {
      MalformedIdIsNotFound(docs, id, UpdateRequest(u).value, fault, rereadFault);
    }
  }

  /** A successful delete answers 204 and removes exactly the named document. */
  lemma DeleteAnswers204(docs: map<Oid, Document>, id: string)
    ensures DeleteProduct(DeleteProductOutcome(docs, id, None)).status == 204
            <==> IsValidObjectId(id) && Parse(id).value in docs
    ensures DeleteProduct(DeleteProductOutcome(docs, id, None)).status != 204
            ==> DeleteProduct(DeleteProductOutcome(docs, id, None)).status == 404
  {
    DeleteMeaning(docs, id);
  }

  /** The route handlers, driving the shared service. */
  method HandleGet(service: ProductService, id: string, fault: Option<string>, urlOk: string -> bool)
    returns (resp: Response)
    requires service.Valid()
    modifies service.repository.base
    ensures service.Valid()
    ensures resp == GetProduct(GetProductOutcome(service.repository.products.docs, id, fault, urlOk))
  {
    var r := service.GetProductById(id, fault, urlOk);
    resp := GetProduct(r);
  }

  method HandleUpdate(service: ProductService, id: string, u: ProductUpdate, fault: Option<string>,
                      rereadFault: Option<string>, urlOk: string -> bool)
    returns (resp: Response)
    requires service.Valid()
    modifies service.repository.base, service.repository.products
    ensures service.Valid()
    ensures service.repository.products.docs
            == UpdateRouteDocs(old(service.repository.products.docs), id, u, fault, urlOk)
    ensures service.repository.products.order == old(service.repository.products.order)
    ensures resp == UpdateRoute(old(service.repository.products.docs), id, u, fault, rereadFault, urlOk)
  {
    var violations := UpdateViolations(u, urlOk);
    if violations != [] {
      return Rejected(violations);
    }
    var r := service.UpdateProduct(id, u, fault, rereadFault, urlOk);
    resp := UpdateProduct(r);
  }

  method HandleDelete(service: ProductService, id: string, fault: Option<string>) returns (resp: Response)
    requires service.Valid()
    modifies service.repository.base, service.repository.products
    ensures service.Valid()
    ensures service.repository.products.docs == DeletedDocs(old(service.repository.products.docs), id, fault)
    ensures service.repository.products.order == DeletedOrder(old(service.repository.products.order), id, fault)
    ensures resp == DeleteProduct(DeleteProductOutcome(old(service.repository.products.docs), id, fault))
  {
    var r := service.DeleteProduct(id, fault);
    resp := DeleteProduct(r);
  }
}
