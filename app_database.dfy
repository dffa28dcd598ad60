/**
 * The data layer of the second revision (app/database.py): module-level
 * products and categories collections, reads with `_id` projected away, and
 * writes whose store counts are turned into a message or an HTTPException.
 *
 * `ObjectId(id)` on a malformed id raises InvalidId, which nothing here
 * catches: it surfaces as `Unhandled`, like any store fault.
 */
module AppDatabase {
  import opened Wrappers
  import opened ObjectIds
  import opened Documents
  import opened Store
  import opened LegacyModels
  import opened Http

  const InvalidIdError: string := "is not a valid ObjectId, it must be a 12-byte input or a 24-character hex string"
  const UpdateFailed: string := "Update operation failed"
  const DeletionFailed: string := "Deletion operation failed"

  function InvalidIdDetail(k: Kind): string {
    if k == ProductKind then "Invalid product ID" else "Invalid category ID"
  }

  function NotFoundDetail(k: Kind): string {
    if k == ProductKind then "Product not found" else "Category not found"
  }

  function UpdatedMessage(k: Kind): string {
    if k == ProductKind then "Product updated" else "Category updated"
  }

  function DeletedMessage(k: Kind): string {
    if k == ProductKind then "Product deleted" else "Category deleted"
  }

  /** The `{"message": ...}` dict a write returns. */
  function MessageDict(text: string): Document {
    map["message" := Str(text)]
  }

  /** `update_*` after `update_one`: modified, else not matched (404), else matched but unchanged (422). */
  function UpdateReply(k: Kind, r: UpdateResult): (reply: Result<Document, Failure>)
    ensures reply.Ok? <==> r.modifiedCount > 0
    ensures reply.Ok? ==> reply.value == MessageDict(UpdatedMessage(k))
    ensures r.modifiedCount == 0 && r.matchedCount == 0 ==> reply == Err(HttpError(404, NotFoundDetail(k)))
    ensures r.modifiedCount == 0 && r.matchedCount > 0 ==> reply == Err(HttpError(422, UpdateFailed))
  {
    if r.modifiedCount > 0 then Ok(MessageDict(UpdatedMessage(k)))
    else if r.matchedCount == 0 then Err(HttpError(404, NotFoundDetail(k)))
    else Err(HttpError(422, UpdateFailed))
  }

  /** `delete_*` after `delete_one`, with its three branches as written. */
  function DeleteReply(k: Kind, deletedCount: int): Result<Document, Failure> {
    if deletedCount > 0 then Ok(MessageDict(DeletedMessage(k)))
    else if deletedCount == 0 then Err(HttpError(404, NotFoundDetail(k)))
    else Err(HttpError(422, DeletionFailed))
  }

  /** A deleted count is never negative, so the 422 branch of `delete_*` is unreachable. */
  lemma DeleteNever422(k: Kind, r: DeleteResult)
    ensures DeleteReply(k, r.deletedCount) != Err(HttpError(422, DeletionFailed))
    ensures DeleteReply(k, r.deletedCount).Ok? <==> r.deletedCount > 0
  {
  }

  /** `get_*_by_id`: the projected document, or None when nothing matches or the projection is empty. */
  function GetByIdOutcome(docs: map<Oid, Document>, id: string, fault: Option<string>): Result<Option<Document>, Failure> {
    match Parse(id)
    case None => Err(Unhandled(InvalidIdError))
    case Some(oid) =>
      if fault.Some? then Err(Unhandled(fault.value))
      else if oid in docs && Truthy(docs[oid]) then Ok(Some(docs[oid]))
      else Ok(None)
  }

  lemma GetByIdMeaning(docs: map<Oid, Document>, id: string)
    requires IsValidObjectId(id)
    ensures GetByIdOutcome(docs, id, None).Ok?
    ensures GetByIdOutcome(docs, id, None).value.Some? <==> Parse(id).value in docs && docs[Parse(id).value] != map[]
    ensures GetByIdOutcome(docs, id, None).value.Some? ==>
              GetByIdOutcome(docs, id, None).value.value == docs[Parse(id).value]
  {
  }

  /** `update_*`: `$set` of the record's fields on the named document, then the counts' reply. */
  function UpdateOutcome(docs: map<Oid, Document>, id: string, r: Record, fault: Option<string>): Result<Document, Failure> {
    match Parse(id)
    case None => Err(Unhandled(InvalidIdError))
    case Some(oid) =>
      if fault.Some? then Err(Unhandled(fault.value))
      else UpdateReply(KindOf(r), UpdateCounts(docs, oid, RecordDict(r)))
  }

  function UpdatedDocs(docs: map<Oid, Document>, id: string, r: Record, fault: Option<string>): map<Oid, Document> {
    match Parse(id)
    case None => docs
    case Some(oid) => if fault.Some? then docs else AfterUpdate(docs, oid, RecordDict(r))
  }

  /**
   * The update's three outcomes: a change answers the "updated" message, no
   * match 404, a match that changes nothing 422.
   */
  lemma UpdateMeaning(docs: map<Oid, Document>, id: string, r: Record)
    requires IsValidObjectId(id)
    ensures var oid := Parse(id).value;
      && (UpdateOutcome(docs, id, r, None).Ok? <==> oid in docs && !HoldsRecord(docs[oid], r))
      && (oid !in docs ==> UpdateOutcome(docs, id, r, None) == Err(HttpError(404, NotFoundDetail(KindOf(r)))))
      && (oid in docs && HoldsRecord(docs[oid], r) ==>
            UpdateOutcome(docs, id, r, None) == Err(HttpError(422, UpdateFailed)))
      && (oid in docs ==> HoldsRecord(UpdatedDocs(docs, id, r, None)[oid], r))
  {
    var oid := Parse(id).value;
    UpdateCountsMeaning(docs, oid, RecordDict(r));
  }

  /** `delete_*`: 400 for a malformed id before any store call, then the count's reply. */
  function DeleteOutcome(k: Kind, docs: map<Oid, Document>, id: string, fault: Option<string>): Result<Document, Failure> {
    if !IsValidObjectId(id) then Err(HttpError(400, InvalidIdDetail(k)))
    else
      var oid := Parse(id).value;
      if fault.Some? then Err(Unhandled(fault.value))
      else DeleteReply(k, if oid in docs then 1 else 0)
  }

  function DeletedDocs(docs: map<Oid, Document>, id: string, fault: Option<string>): map<Oid, Document> {
    if !IsValidObjectId(id) || fault.Some? then docs else docs - {Parse(id).value}
  }

  lemma DeleteMeaning(k: Kind, docs: map<Oid, Document>, id: string, fault: Option<string>)
    ensures !IsValidObjectId(id) ==>
              DeleteOutcome(k, docs, id, fault) == Err(HttpError(400, InvalidIdDetail(k)))
              && DeletedDocs(docs, id, fault) == docs
    ensures IsValidObjectId(id) && fault.None? ==>
              && (DeleteOutcome(k, docs, id, fault).Ok? <==> Parse(id).value in docs)
              && (DeleteOutcome(k, docs, id, fault).Ok? ==> DeleteOutcome(k, docs, id, fault).value == MessageDict(DeletedMessage(k)))
              && (DeleteOutcome(k, docs, id, fault).Err? ==> DeleteOutcome(k, docs, id, fault) == Err(HttpError(404, NotFoundDetail(k))))
              && DeletedDocs(docs, id, fault) == docs - {Parse(id).value}
    ensures DeleteOutcome(k, docs, id, fault) != Err(HttpError(422, DeletionFailed))
  {
  }

  /** The collection order after `delete_*`. */
  function DeletedOrder(order: seq<Oid>, id: string, fault: Option<string>): seq<Oid> {
    if !IsValidObjectId(id) || fault.Some? then order else Without(order, Parse(id).value)
  }

  class Database {
    const products: Collection
    const categories: Collection

    constructor (products: Collection, categories: Collection)
      ensures this.products == products && this.categories == categories
    {
      this.products := products;
      this.categories := categories;
    }

    ghost predicate Valid()
      reads this, products, categories
    {
      products != categories && products.Valid() && categories.Valid()
    }

    function CollectionOf(k: Kind): Collection
      reads this
    {
      if k == ProductKind then products else categories
    }

    /** `get_categories`, `get_products`, `get_category_products`: `find(filter, {"_id": 0})` as a list. */
    method List(k: Kind, category: Option<string>, fault: Option<string>) returns (r: Result<seq<Document>, Failure>)
      requires Valid()
      ensures fault.Some? ==> r == Err(Unhandled(fault.value))
      ensures fault.None? ==> r == Ok(Select(CollectionOf(k).docs, CollectionOf(k).order, category))
    {
      var found := CollectionOf(k).Find(category, fault);
      match found
      case Err(e) =>
        r := Err(Unhandled(e));
      case Ok(docs) =>
        r := Ok(docs);
    }

    /** `get_product_by_id`, `get_category_by_id`. */
    method GetById(k: Kind, id: string, fault: Option<string>) returns (r: Result<Option<Document>, Failure>)
      requires Valid()
      ensures r == GetByIdOutcome(CollectionOf(k).docs, id, fault)
    {
      var oid := Parse(id);
      if oid.None? {
        return Err(Unhandled(InvalidIdError));
      }
      var found := CollectionOf(k).FindOne(oid.value, fault);
      match found
      case Err(e) =>
        r := Err(Unhandled(e));
      case Ok(doc) =>
        if doc.Some? && Truthy(doc.value) {
          r := Ok(Some(doc.value));
        } else {
          r := Ok(None);
        }
    }

    /** `create_category`, `create_product`: insert the record's dict as a new document. */
    method Create(rec: Record, newId: Oid, fault: Option<string>) returns (r: Result<(), Failure>)
      requires Valid()
      modifies CollectionOf(KindOf(rec))
      ensures Valid()
      ensures var c := CollectionOf(KindOf(rec));
        if fault.Some? || newId in old(c.docs) then r.Err? && r.error.Unhandled? && c.docs == old(c.docs) && c.order == old(c.order)
        else r == Ok(()) && c.docs == old(c.docs)[newId := RecordDict(rec)] && c.order == old(c.order) + [newId]
    {
      var inserted := CollectionOf(KindOf(rec)).InsertOne(RecordDict(rec), newId, fault);
      match inserted
      case Err(e) =>
        r := Err(Unhandled(e));
      case Ok(_) =>
        r := Ok(());
    }

    /** `update_product`, `update_category`. */
    method Update(id: string, rec: Record, fault: Option<string>) returns (r: Result<Document, Failure>)
      requires Valid()
      modifies CollectionOf(KindOf(rec))
      ensures Valid()
      ensures CollectionOf(KindOf(rec)).docs == UpdatedDocs(old(CollectionOf(KindOf(rec)).docs), id, rec, fault)
      ensures CollectionOf(KindOf(rec)).order == old(CollectionOf(KindOf(rec)).order)
      ensures r == UpdateOutcome(old(CollectionOf(KindOf(rec)).docs), id, rec, fault)
    {
      var oid := Parse(id);
      if oid.None? {
        return Err(Unhandled(InvalidIdError));
      }
      var result := CollectionOf(KindOf(rec)).UpdateOne(oid.value, RecordDict(rec), fault);
      match result
      case Err(e) =>
        r := Err(Unhandled(e));
      case Ok(counts) =>
        r := UpdateReply(KindOf(rec), counts);
    }

    /** `delete_category`, `delete_product`. */
    method Delete(k: Kind, id: string, fault: Option<string>) returns (r: Result<Document, Failure>)
      requires Valid()
      modifies CollectionOf(k)
      ensures Valid()
      ensures CollectionOf(k).docs == DeletedDocs(old(CollectionOf(k).docs), id, fault)
      ensures CollectionOf(k).order == DeletedOrder(old(CollectionOf(k).order), id, fault)
      ensures r == DeleteOutcome(k, old(CollectionOf(k).docs), id, fault)
    {
      if !IsValidObjectId(id) {
        return Err(HttpError(400, InvalidIdDetail(k)));
      }
      var result := CollectionOf(k).DeleteOne(Parse(id).value, fault);
      match result
      case Err(e) =>
        r := Err(Unhandled(e));
      case Ok(counts) =>
        r := DeleteReply(k, counts.deletedCount);
    }
  }
}
