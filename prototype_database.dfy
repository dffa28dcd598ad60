/**
 * The first revision's data layer (database.py at the repository root): the
 * same module-level collections as app/database.py, with no id checks and no
 * interpretation of the store's counts.
 */
module PrototypeDatabase {
  import opened Wrappers
  import opened ObjectIds
  import opened Documents
  import opened Store
  import opened LegacyModels
  import opened Http
  import AppDatabase

  /** `ObjectId(product_id)` raising on a malformed id. */
  const InvalidIdError: string := AppDatabase.InvalidIdError

  /** `get_product_by_id`: whatever `find_one` returns, the empty projection included. */
  function GetProductOutcome(docs: map<Oid, Document>, id: string, fault: Option<string>): Result<Option<Document>, Failure> {
    match Parse(id)
    case None => Err(Unhandled(InvalidIdError))
    case Some(oid) =>
      if fault.Some? then Err(Unhandled(fault.value))
      else if oid in docs then Ok(Some(docs[oid]))
      else Ok(None)
  }

  lemma GetProductMeaning(docs: map<Oid, Document>, id: string, fault: Option<string>)
    ensures GetProductOutcome(docs, id, fault).Ok? <==> IsValidObjectId(id) && fault.None?
    ensures GetProductOutcome(docs, id, fault).Ok? ==>
              (GetProductOutcome(docs, id, fault).value.Some? <==> Parse(id).value in docs)
              && (Parse(id).value in docs ==> GetProductOutcome(docs, id, fault).value.value == docs[Parse(id).value])
  {
  }

  /** `update_product`: `$set` of every field of the record; nothing is reported. */
  function UpdateProductOutcome(id: string, fault: Option<string>): Result<(), Failure> {
    match Parse(id)
    case None => Err(Unhandled(InvalidIdError))
    case Some(_) => if fault.Some? then Err(Unhandled(fault.value)) else Ok(())
  }

  function UpdateProductDocs(docs: map<Oid, Document>, id: string, p: Product, fault: Option<string>): map<Oid, Document> {
    match Parse(id)
    case None => docs
    case Some(oid) => if fault.Some? then docs else AfterUpdate(docs, oid, ProductDict(p))
  }

  /**
   * The update overwrites all five schema fields with the record's values and
   * keeps every other field; it is silent, and changes nothing, when no
   * document has the id.
   */
  lemma UpdateOverwritesSchema(docs: map<Oid, Document>, id: string, p: Product)
    requires IsValidObjectId(id)
    ensures UpdateProductOutcome(id, None) == Ok(())
    ensures var oid := Parse(id).value;
            var after := UpdateProductDocs(docs, id, p, None);
      && after.Keys == docs.Keys
      && (forall other :: other in docs && other != oid ==> after[other] == docs[other])
      && (oid !in docs ==> after == docs)
      && (oid in docs ==>
            && after[oid].Keys == docs[oid].Keys + ProductFields
            && HoldsRecord(after[oid], ProductRecord(p))
            && (forall k :: k in docs[oid] && k !in ProductFields ==> after[oid][k] == docs[oid][k]))
  {
    AfterUpdateFrame(docs, Parse(id).value, ProductDict(p));
  }

  /** `delete_product`: `delete_one`, its result dropped. */
  function DeleteProductOutcome(id: string, fault: Option<string>): Result<(), Failure> {
    match Parse(id)
    case None => Err(Unhandled(InvalidIdError))
    case Some(_) => if fault.Some? then Err(Unhandled(fault.value)) else Ok(())
  }

  function DeleteProductDocs(docs: map<Oid, Document>, id: string, fault: Option<string>): map<Oid, Document> {
    match Parse(id)
    case None => docs
    case Some(oid) => if fault.Some? then docs else docs - {oid}
  }

  /** A delete succeeds alike whether or not a document had the id. */
  lemma DeleteIsSilent(docs: map<Oid, Document>, id: string)
    requires IsValidObjectId(id)
    ensures DeleteProductOutcome(id, None) == Ok(())
    ensures DeleteProductDocs(docs, id, None) == docs - {Parse(id).value}
    ensures Parse(id).value !in docs ==> DeleteProductDocs(docs, id, None) == docs
  {
  }

  class Database {
    const products: Collection
    const categories: Collection

    constructor (products: Collection, categories: Collection)
      ensures this.products == products && this.categories == categories
    {
      this.products := products;
      this.categories := categories;
    }

    ghost predicate Valid()
      reads this, products, categories
    {
      products != categories && products.Valid() && categories.Valid()
    }

    /** `get_categories` (no filter on categories), `get_products` and `get_category_products` (on products). */
    method List(onProducts: bool, category: Option<string>, fault: Option<string>) returns (r: Result<seq<Document>, Failure>)
      requires Valid()
      ensures fault.Some? ==> r == Err(Unhandled(fault.value))
      ensures fault.None? && onProducts ==> r == Ok(Select(products.docs, products.order, category))
      ensures fault.None? && !onProducts ==> r == Ok(Select(categories.docs, categories.order, category))
    {
      var found := (if onProducts then products else categories).Find(category, fault);
      match found
      case Err(e) =>
        r := Err(Unhandled(e));
      case Ok(docs) =>
        r := Ok(docs);
    }

    method GetProductById(id: string, fault: Option<string>) returns (r: Result<Option<Document>, Failure>)
      requires Valid()
      ensures r == GetProductOutcome(products.docs, id, fault)
    {
      var oid := Parse(id);
      if oid.None? {
        return Err(Unhandled(InvalidIdError));
      }
      var found := products.FindOne(oid.value, fault);
      match found
      case Err(e) =>
        r := Err(Unhandled(e));
      case Ok(doc) =>
        r := Ok(doc);
    }

    /** `create_category`, `create_product`. */
    method Create(rec: Record, newId: Oid, fault: Option<string>) returns (r: Result<(), Failure>)
      requires Valid()
      modifies if rec.ProductRecord? then products else categories
      ensures Valid()
      ensures var c := if rec.ProductRecord? then products else categories;
        if fault.Some? || newId in old(c.docs) then r.Err? && r.error.Unhandled? && c.docs == old(c.docs) && c.order == old(c.order)
        else r == Ok(()) && c.docs == old(c.docs)[newId := RecordDict(rec)] && c.order == old(c.order) + [newId]
    {
      var inserted := (if rec.ProductRecord? then products else categories).InsertOne(RecordDict(rec), newId, fault);
      match inserted
      case Err(e) =>
        r := Err(Unhandled(e));
      case Ok(_) =>
        r := Ok(());
    }

    method DeleteProduct(id: string, fault: Option<string>) returns (r: Result<(), Failure>)
      requires Valid()
      modifies products
      ensures Valid()
      ensures r == DeleteProductOutcome(id, fault)
      ensures products.docs == DeleteProductDocs(old(products.docs), id, fault)
      ensures products.order == (if Parse(id).None? || fault.Some? then old(products.order)
                                 else Without(old(products.order), Parse(id).value))
    {
      var oid := Parse(id);
      if oid.None? {
        return Err(Unhandled(InvalidIdError));
      }
      var result := products.DeleteOne(oid.value, fault);
      match result
      case Err(e) =>
        r := Err(Unhandled(e));
      case Ok(_) =>
        r := Ok(());
    }

    method UpdateProduct(id: string, p: Product, fault: Option<string>) returns (r: Result<(), Failure>)
      requires Valid()
      modifies products
      ensures Valid()
      ensures r == UpdateProductOutcome(id, fault)
      ensures products.docs == UpdateProductDocs(old(products.docs), id, p, fault)
      ensures products.order == old(products.order)
    {
      var oid := Parse(id);
      if oid.None? {
        return Err(Unhandled(InvalidIdError));
      }
      var result := products.UpdateOne(oid.value, RecordDict(ProductRecord(p)), fault);
      match result
      case Err(e) =>
        r := Err(Unhandled(e));
      case Ok(_) =>
        r := Ok(());
    }
  }
}
