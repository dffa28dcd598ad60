/**
 * `ProductService` (app/services/product_service.py): builds the dict handed
 * to the repository and turns the repository's document into a
 * `ProductResponse`.
 *
 * The repository's `get_all` and `create` call `find_all` and `create`, which
 * the shown `BaseRepository` does not define; the service functions for
 * listing and creating therefore take what the repository returned as input.
 */
module ProductServices {
  import opened Wrappers
  import opened ObjectIds
  import opened Documents
  import opened Store
  import opened ProductModels
  import opened BaseRepositories
  import opened ProductRepositories

  datatype ServiceError =
    | Repository(error: RepoError)
      /** pydantic's ValidationError from `ProductResponse(**doc)`. */
    | InvalidRecord
      /** Python's TypeError. */
    | TypeError(detail: string)

  const NoneNotIterable: string := "argument of type 'NoneType' is not iterable"

  /** The shapes a dumped product dict has at its `category` and `image` keys. */
  predicate DumpShaped(d: Document) {
    && ("category" in d ==>
          (d["category"].Null? ||
           (d["category"].Obj? && ("image" in d["category"].fields ==> d["category"].fields["image"].Str?))))
    && ("image" in d ==> d["image"].Str? || d["image"].Null?)
  }

  /** `str(v)` of a dumped image value: a string stays as it is, None becomes "None". */
  function PyStr(v: Value): (r: Value)
    requires v.Str? || v.Null?
    ensures r.Str?
  {
    if v.Str? then v else Str("None")
  }

  /**
   * The explicit `str()` conversions of the top-level `image` and of
   * `category.image`, each applied only when its key is there. With the
   * category set to null, `'image' in None` raises TypeError.
   */
  function ConvertImages(d: Document): (r: Result<Document, ServiceError>)
    requires DumpShaped(d)
  {
    if "category" in d && d["category"].Null? then Err(TypeError(NoneNotIterable))
    else
      var withCategory :=
        if "category" in d && "image" in d["category"].fields
        then d["category" := Obj(d["category"].fields["image" := PyStr(d["category"].fields["image"])])]
        else d;
      Ok(if "image" in withCategory then withCategory["image" := PyStr(withCategory["image"])] else withCategory)
  }

  /** The conversions add no key, change no string, and turn only a null image into "None". */
  lemma ConvertImagesMeaning(d: Document)
    requires DumpShaped(d)
    ensures ConvertImages(d).Err? <==> "category" in d && d["category"].Null?
    ensures ConvertImages(d).Ok? ==>
      var r := ConvertImages(d).value;
      && r.Keys == d.Keys
      && (forall k :: k in d && k != "image" ==> r[k] == d[k])
      && ("image" in d ==> r["image"] == (if d["image"].Null? then Str("None") else d["image"]))
  {
    if ConvertImages(d).Ok? && "category" in d && "image" in d["category"].fields {
      var f := d["category"].fields;
      assert f["image" := PyStr(f["image"])] == f;
    }
  }

  /** `product.model_dump(mode='json')` after the conversions: the dict `create_product` passes on. */
  function CreateRequest(p: Product): (d: Document)
    ensures d == ProductDump(p)
    ensures d.Keys == ProductFields
  {
    var dumped := ProductDump(p);
    ConvertImagesMeaning(dumped);
    ConvertImages(dumped).value
  }

  /** If the store hands back what `create_product` passed, with an `_id`, the response is that product. */
  lemma CreateRoundTrip(p: Product, id: string, urlOk: string -> bool)
    requires ValidProduct(p, urlOk)
    ensures DecodeResponse(CreateRequest(p)[IdKey := Str(id)], urlOk)
            == Some(ProductResponse(Some(id), p.(category := Settled(p.category))))
  {
    ResponseOfDump(p, id, urlOk);
  }

  lemma UpdateDumpShaped(u: ProductUpdate)
    ensures DumpShaped(UpdateDump(u))
    ensures IdKey !in UpdateDump(u)
  {
    UpdateDumpKeys(u);
  }

  /** `product.model_dump(exclude_unset=True, mode='json')` after the conversions. */
  function UpdateRequest(u: ProductUpdate): (r: Result<Document, ServiceError>)
    ensures r.Ok? ==> IdKey !in r.value
  {
    UpdateDumpShaped(u);
    ConvertImagesMeaning(UpdateDump(u));
    ConvertImages(UpdateDump(u))
  }

  /**
   * `update_product` hands the repository exactly the fields the caller set,
   * each with the value given; a category set to null raises TypeError first.
   */
  lemma UpdateRequestMeaning(u: ProductUpdate)
    ensures UpdateRequest(u).Err? <==> u.category.SetNull?
    ensures UpdateRequest(u).Ok? ==>
      var d := UpdateRequest(u).value;
      && ("name" in d <==> !u.name.Unset?) && ("description" in d <==> !u.description.Unset?)
      && ("category" in d <==> !u.category.Unset?) && ("tags" in d <==> !u.tags.Unset?)
      && ("price" in d <==> !u.price.Unset?) && ("image" in d <==> !u.image.Unset?)
      && d.Keys <= ProductFields
      && (u.name.Given? ==> d["name"] == Str(u.name.value))
      && (u.description.Given? ==> d["description"] == Str(u.description.value))
      && (u.category.Given? ==> d["category"] == Obj(CategoryDump(u.category.value, true)))
      && (u.tags.Given? ==> d["tags"] == List(StrList(u.tags.value)))
      && (u.price.Given? ==> d["price"] == Num(u.price.value))
      && (u.image.Given? ==> d["image"] == Str(u.image.value))
      && (u.image.SetNull? ==> d["image"] == Str("None"))
      && (u.name.SetNull? ==> d["name"] == Null)
      && (u.description.SetNull? ==> d["description"] == Null)
      && (u.tags.SetNull? ==> d["tags"] == Null)
      && (u.price.SetNull? ==> d["price"] == Null)
  {
    UpdateDumpKeys(u);
    UpdateDumpShaped(u);
    ConvertImagesMeaning(UpdateDump(u));
  }

  /** A list of documents read back one by one, in order; any invalid one fails the whole list. */
  function ResponsesOf(docs: seq<Document>, urlOk: string -> bool): (r: Result<seq<ProductResponse>, ServiceError>)
    ensures r.Err? ==> r.error == InvalidRecord && exists i :: 0 <= i < |docs| && DecodeResponse(docs[i], urlOk).None?
    ensures r.Ok? ==> |r.value| == |docs|
    ensures r.Ok? ==> forall i :: 0 <= i < |docs| ==> DecodeResponse(docs[i], urlOk) == Some(r.value[i])
  {
    if docs == [] then Ok([])
    else
      match DecodeResponse(docs[0], urlOk)
      case None => Err(InvalidRecord)
      case Some(first) =>
        match ResponsesOf(docs[1..], urlOk)
        case Err(e) =>
          assert forall i :: 0 <= i < |docs[1..]| ==> docs[1..][i] == docs[i + 1];
          Err(e)
        case Ok(rest) => Ok([first] + rest)
  }

  /** `get_all_products`, given what `repository.get_all()` returned (None or a list). */
  function GetAllProducts(fetched: Option<seq<Document>>, urlOk: string -> bool): (r: Result<seq<ProductResponse>, ServiceError>)
    ensures fetched.None? || fetched.value == [] ==> r == Ok([])
    ensures fetched.Some? && fetched.value != [] ==> r == ResponsesOf(fetched.value, urlOk)
    ensures fetched.Some? ==>
              (r.Ok? <==> forall i :: 0 <= i < |fetched.value| ==> DecodeResponse(fetched.value[i], urlOk).Some?)
    ensures fetched.Some? && r.Ok? ==>
              |r.value| == |fetched.value| && forall i :: 0 <= i < |fetched.value| ==> DecodeResponse(fetched.value[i], urlOk) == Some(r.value[i])
    ensures r.Err? ==> r.error == InvalidRecord
  {
    if fetched.None? || fetched.value == [] then Ok([]) else ResponsesOf(fetched.value, urlOk)
  }

  /** `ProductResponse(**product)` on what the repository returned; its exceptions pass through. */
  function ResponseOf(found: Result<Document, RepoError>, urlOk: string -> bool): (r: Result<ProductResponse, ServiceError>) {
    match found
    case Err(e) => Err(Repository(e))
    case Ok(doc) =>
      match DecodeResponse(doc, urlOk)
      case None => Err(InvalidRecord)
      case Some(resp) => Ok(resp)
  }

  function GetProductOutcome(docs: map<Oid, Document>, id: string, fault: Option<string>,
                             urlOk: string -> bool): Result<ProductResponse, ServiceError> {
    ResponseOf(FindByIdOutcome(docs, id, fault), urlOk)
  }

  function UpdateProductOutcome(docs: map<Oid, Document>, id: string, u: ProductUpdate,
                                fault: Option<string>, rereadFault: Option<string>,
                                urlOk: string -> bool): Result<ProductResponse, ServiceError> {
    match UpdateRequest(u)
    case Err(e) => Err(e)
    case Ok(fields) => ResponseOf(UpdateOutcome(docs, id, fields, fault, rereadFault), urlOk)
  }

  function UpdateProductDocs(docs: map<Oid, Document>, id: string, u: ProductUpdate,
                             fault: Option<string>): map<Oid, Document> {
    match UpdateRequest(u)
    case Err(_) => docs
    case Ok(fields) => UpdatedDocs(docs, id, fields, fault)
  }

  function DeleteProductOutcome(docs: map<Oid, Document>, id: string, fault: Option<string>): Result<bool, ServiceError> {
    match DeleteOutcome(docs, id, fault)
    case Err(e) => Err(Repository(e))
    case Ok(b) => Ok(b)
  }

  /** The product a valid update without nulls describes: given fields replaced, the others kept. */
  function Merge(p: Product, u: ProductUpdate): Product {
    Product(
      if u.name.Given? then u.name.value else p.name,
      if u.description.Given? then u.description.value else p.description,
      if u.category.Given? then u.category.value else p.category,
      if u.tags.Given? then u.tags.value else p.tags,
      if u.price.Given? then u.price.value else p.price,
      if u.image.Given? then u.image.value else p.image)
  }

  predicate NoNulls(u: ProductUpdate) {
    !u.name.SetNull? && !u.description.SetNull? && !u.category.SetNull?
    && !u.tags.SetNull? && !u.price.SetNull? && !u.image.SetNull?
  }

  lemma {:induction false} DecodeCategoryOfUpdateDump(c: Category)
    ensures DecodeCategory(Obj(CategoryDump(c, true))) == Some(c)
  {
  }

  lemma MergeValid(p: Product, u: ProductUpdate, urlOk: string -> bool)
    requires ValidProduct(p, urlOk) && ValidUpdate(u, urlOk)
    ensures ValidProduct(Merge(p, u), urlOk)
  {
    ProductRules(p, urlOk);
    UpdateRules(u, urlOk);
    ProductRules(Merge(p, u), urlOk);
  }

  /** `$set` of an update without nulls on a document that reads as `p` gives one that reads as `Merge(p, u)`. */
  lemma SetFieldsReadsAsMerge(stored: Document, p: Product, u: ProductUpdate)
    requires ReadsAs(stored, p) && NoNulls(u)
    ensures UpdateRequest(u).Ok?
    ensures ReadsAs(SetFields(stored, UpdateRequest(u).value), Merge(p, u))
  {
    UpdateRequestMeaning(u);
    if u.category.Given? {
      DecodeCategoryOfUpdateDump(u.category.value);
    }
    if u.tags.Given? {
      StrItemsOfStrList(u.tags.value);
    }
  }

  /**
   * The store-level update agrees with the typed one: a valid update without
   * nulls of a stored product that reads back turns it into `Merge(p, u)`,
   * still under the same id.
   */
  lemma UpdateIsTypedMerge(docs: map<Oid, Document>, id: string, u: ProductUpdate, urlOk: string -> bool)
    requires IsValidObjectId(id) && Parse(id).value in docs
    requires GetProductOutcome(docs, id, None, urlOk).Ok?
    requires ValidUpdate(u, urlOk) && NoNulls(u)
    ensures var before := GetProductOutcome(docs, id, None, urlOk).value;
      UpdateProductOutcome(docs, id, u, None, None, urlOk)
      == Ok(ProductResponse(before.id, Merge(before.product, u)))
  {
    var oid := Parse(id).value;
    var before := GetProductOutcome(docs, id, None, urlOk).value;
    var s := OidString(oid);
    var stored := docs[oid][IdKey := Str(s)];
    StoredDecodes(docs, id, urlOk);
    DecodeIdOfString(docs[oid], s);
    var p := before.product;
    assert before.id == Some(s);
    DecodeProductMeaning(stored, p);
    ReadsAsIgnoresId(docs[oid], Str(s), p);
    SetFieldsReadsAsMerge(docs[oid], p, u);
    var after := SetFields(docs[oid], UpdateRequest(u).value);
    ReadsAsIgnoresId(after, Str(s), Merge(p, u));
    DecodeProductMeaning(after[IdKey := Str(s)], Merge(p, u));
    DecodeIdOfString(after, s);
    MergeValid(p, u, urlOk);
    UpdateReadsBack(docs, id, u, urlOk);
  }

  lemma StoredDecodes(docs: map<Oid, Document>, id: string, urlOk: string -> bool)
    requires IsValidObjectId(id) && Parse(id).value in docs
    requires GetProductOutcome(docs, id, None, urlOk).Ok?
    ensures DecodeResponse(WithStringId(docs[Parse(id).value], Parse(id).value), urlOk)
            == Some(GetProductOutcome(docs, id, None, urlOk).value)
  {
  }

  lemma UpdateReadsBack(docs: map<Oid, Document>, id: string, u: ProductUpdate, urlOk: string -> bool)
    requires IsValidObjectId(id) && Parse(id).value in docs
    requires UpdateRequest(u).Ok?
    ensures UpdateProductOutcome(docs, id, u, None, None, urlOk)
            == ResponseOf(Ok(WithStringId(SetFields(docs[Parse(id).value], UpdateRequest(u).value), Parse(id).value)), urlOk)
  {
    UpdateMerges(docs, id, UpdateRequest(u).value, None);
  }

  /**
   * A null given for a required field is accepted by `ProductUpdate`, written
   * by `$set`, and then the re-read document no longer validates as a
   * `ProductResponse`: the update fails after the store has changed.
   */
  lemma NullNameIsWrittenThenUnreadable(docs: map<Oid, Document>, id: string, urlOk: string -> bool)
    requires IsValidObjectId(id) && Parse(id).value in docs
    ensures var u := ProductUpdate(SetNull, Unset, Unset, Unset, Unset, Unset);
      && ValidUpdate(u, urlOk)
      && UpdateProductDocs(docs, id, u, None)[Parse(id).value] == docs[Parse(id).value]["name" := Null]
      && UpdateProductOutcome(docs, id, u, None, None, urlOk) == Err(InvalidRecord)
  {
    var u := ProductUpdate(SetNull, Unset, Unset, Unset, Unset, Unset);
    UpdateRequestMeaning(u);
    UpdateDumpKeys(u);
    assert UpdateRequest(u) == Ok(map["name" := Null]);
  }

  /** A category set to null raises TypeError before the repository is called: nothing changes. */
  lemma NullCategoryRaisesTypeError(docs: map<Oid, Document>, id: string, u: ProductUpdate,
                                    fault: Option<string>, rereadFault: Option<string>, urlOk: string -> bool)
    requires u.category.SetNull?
    ensures UpdateProductOutcome(docs, id, u, fault, rereadFault, urlOk) == Err(TypeError(NoneNotIterable))
    ensures UpdateProductDocs(docs, id, u, fault) == docs
  {
    UpdateRequestMeaning(u);
    UpdateDumpKeys(u);
  }

  class ProductService {
    /** The class attribute `repository`, shared by every call. */
    const repository: ProductRepository

    constructor (repository: ProductRepository)
      ensures this.repository == repository
    {
      this.repository := repository;
    }

    ghost predicate Valid()
      reads this, repository, repository.base, repository.products
    {
      repository.Valid()
    }

    method GetProductById(id: string, fault: Option<string>, urlOk: string -> bool)
      returns (r: Result<ProductResponse, ServiceError>)
      requires Valid()
      modifies repository.base
      ensures Valid()
      ensures r == GetProductOutcome(repository.products.docs, id, fault, urlOk)
    {
      var found := repository.GetById(id, fault);
      r := ResponseOf(found, urlOk);
    }

    method UpdateProduct(id: string, u: ProductUpdate, fault: Option<string>, rereadFault: Option<string>,
                         urlOk: string -> bool)
      returns (r: Result<ProductResponse, ServiceError>)
      requires Valid()
      /** A `ProductUpdate` instance has passed its field rules. */
      requires ValidUpdate(u, urlOk)
      modifies repository.base, repository.products
      ensures Valid()
      ensures repository.products.docs == UpdateProductDocs(old(repository.products.docs), id, u, fault)
      ensures repository.products.order == old(repository.products.order)
      ensures r == UpdateProductOutcome(old(repository.products.docs), id, u, fault, rereadFault, urlOk)
    {
      var request := UpdateRequest(u);
      if request.Err? {
        return Err(request.error);
      }
      var updated := repository.Update(id, request.value, fault, rereadFault);
      r := ResponseOf(updated, urlOk);
    }

    method DeleteProduct(id: string, fault: Option<string>) returns (r: Result<bool, ServiceError>)
      requires Valid()
      modifies repository.base, repository.products
      ensures Valid()
      ensures repository.products.docs == DeletedDocs(old(repository.products.docs), id, fault)
      ensures repository.products.order == DeletedOrder(old(repository.products.order), id, fault)
      ensures r == DeleteProductOutcome(old(repository.products.docs), id, fault)
    {
      var deleted := repository.Delete(id, fault);
      match deleted
      case Err(e) =>
        r := Err(Repository(e));
      case Ok(b) =>
        r := Ok(b);
    }
  }
}
