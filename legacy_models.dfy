/**
 * The record shapes of app/models.py, used by app/database.py, app/api.py and
 * the prototype database.py. They carry no field constraints, and every field
 * is required, so `.dict(exclude_unset=True)` is the whole `.dict()`.
 */
module LegacyModels {
  import opened Wrappers
  import opened Documents

  datatype Product = Product(name: string, description: string, category: string, tags: seq<string>, price: real)

  datatype Category = Category(name: string)

  /** A record handed to create or update, tagged with its collection. */
  datatype Record = ProductRecord(product: Product) | CategoryRecord(category: Category)

  datatype Kind = ProductKind | CategoryKind

  function KindOf(r: Record): Kind {
    if r.ProductRecord? then ProductKind else CategoryKind
  }

  const ProductFields: set<string> := {"name", "description", "category", "tags", "price"}

  /** `product.dict()`: every field, by name. */
  function ProductDict(p: Product): (d: Document)
    ensures d.Keys == ProductFields
  {
    map[
      "name" := Str(p.name),
      "description" := Str(p.description),
      "category" := Str(p.category),
      "tags" := List(StrList(p.tags)),
      "price" := Num(p.price)]
  }

  /** `category.dict()`. */
  function CategoryDict(c: Category): (d: Document)
    ensures d.Keys == {"name"}
  {
    map["name" := Str(c.name)]
  }

  function RecordDict(r: Record): (d: Document)
    ensures IdKey !in d
  {
    match r
    case ProductRecord(p) => ProductDict(p)
    case CategoryRecord(c) => CategoryDict(c)
  }

  /** A stored document holds the record's values under every schema field. */
  predicate HoldsRecord(doc: Document, r: Record) {
    forall k :: k in RecordDict(r) ==> k in doc && doc[k] == RecordDict(r)[k]
  }

  /**
   * `Product(**doc)` in pydantic's lax mode: each of the five fields must be
   * present with its type (a number for the price); other keys are ignored.
   */
  function DecodeProduct(doc: Document): Option<Product> {
    if && "name" in doc && doc["name"].Str?
       && "description" in doc && doc["description"].Str?
       && "category" in doc && doc["category"].Str?
       && "tags" in doc && doc["tags"].List? && StrItems(doc["tags"].items).Some?
       && "price" in doc && doc["price"].Num?
    then Some(Product(doc["name"].s, doc["description"].s, doc["category"].s, StrItems(doc["tags"].items).value, doc["price"].n))
    else None
  }

  /** `Category(**doc)`: a string `name`; other keys are ignored. */
  function DecodeCategory(doc: Document): Option<Category> {
    if "name" in doc && doc["name"].Str? then Some(Category(doc["name"].s)) else None
  }

  /** A stored document read as the record model of its collection; a decoded record is one the document holds. */
  function DecodeRecord(k: Kind, doc: Document): (r: Option<Record>)
    ensures r.Some? ==> KindOf(r.value) == k && HoldsRecord(doc, r.value)
  {
    match k
    case ProductKind =>
      (match DecodeProduct(doc)
       case None => None
       case Some(p) =>
         StrListOfStrItems(doc["tags"].items);
         Some(ProductRecord(p)))
    case CategoryKind =>
      (match DecodeCategory(doc)
       case None => None
       case Some(c) => Some(CategoryRecord(c)))
  }

  /** A document reads as a record of its collection's model exactly when it holds that record's fields. */
  lemma DecodeRecordMeaning(doc: Document, rec: Record)
    ensures DecodeRecord(KindOf(rec), doc) == Some(rec) <==> HoldsRecord(doc, rec)
  {
    if HoldsRecord(doc, rec) {
      match rec
      case ProductRecord(p) =>
        assert doc["tags"] == List(StrList(p.tags));
        StrItemsOfStrList(p.tags);
      case CategoryRecord(c) =>
        assert doc["name"] == Str(c.name);
    }
  }

  /** Two records of a collection with the same dict are the same record. */
  lemma RecordDictInjective(a: Record, b: Record)
    requires KindOf(a) == KindOf(b)
    ensures RecordDict(a) == RecordDict(b) <==> a == b
  {
    if RecordDict(a) == RecordDict(b) {
      assert HoldsRecord(RecordDict(a), b);
      assert HoldsRecord(RecordDict(a), a);
      DecodeRecordMeaning(RecordDict(a), a);
      DecodeRecordMeaning(RecordDict(a), b);
    }
  }
}
