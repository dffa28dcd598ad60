/**
 * The product schemas of app/models/products.py: the records, their field
 * constraints as validators, the dict `model_dump(mode='json')` produces, and
 * `ProductResponse(**doc)` reading a stored document back.
 *
 * URL syntax (pydantic's HttpUrl) is not modelled: every validator takes the
 * URL check `urlOk` as a parameter.
 */
module ProductModels {
  import opened Wrappers
  import opened Documents

  /** An optional field: left out of the input, given as null, or given a value. */
  datatype Optional<+T> = Unset | SetNull | Given(value: T)

  /** `Category`; `id` is read from `_id` (or `id`) and is optional. */
  datatype Category = Category(id: Optional<string>, name: string, image: string)

  /** `ProductBase`, which `ProductCreate` is without additions. */
  datatype Product = Product(
    name: string,
    description: string,
    category: Category,
    tags: seq<string>,
    price: real,
    image: string)

  /** `ProductResponse`: a `ProductBase` plus an optional `id` read from `_id`. */
  datatype ProductResponse = ProductResponse(id: Option<string>, product: Product)

  /** `ProductUpdate`: every field optional. */
  datatype ProductUpdate = ProductUpdate(
    name: Optional<string>,
    description: Optional<string>,
    category: Optional<Category>,
    tags: Optional<seq<string>>,
    price: Optional<real>,
    image: Optional<string>)

  const CategoryNameMax: nat := 50
  const ProductNameMax: nat := 100
  const DescriptionMax: nat := 300
  const TagsMax: nat := 10

  datatype Rule = TooShort(min: nat) | TooLong(max: nat) | NotGreaterThanZero | NotAUrl

  /** One entry of pydantic's ValidationError: the failing field and the rule it breaks. */
  datatype Violation = Violation(field: string, rule: Rule)

  /** An inclusive length bound `[min, max]`. */
  function LengthViolations(field: string, length: nat, min: nat, max: nat): (r: seq<Violation>)
    ensures r == [] <==> min <= length <= max
  {
    if length < min then [Violation(field, TooShort(min))]
    else if length > max then [Violation(field, TooLong(max))]
    else []
  }

  function UrlViolations(field: string, url: string, urlOk: string -> bool): (r: seq<Violation>)
    ensures r == [] <==> urlOk(url)
  {
    if urlOk(url) then [] else [Violation(field, NotAUrl)]
  }

  function PriceViolations(field: string, price: real): (r: seq<Violation>)
    ensures r == [] <==> price > 0.0
  {
    if price > 0.0 then [] else [Violation(field, NotGreaterThanZero)]
  }

  /** The failures of a `Category`, in field order, each field name preceded by `prefix`. */
  function CategoryViolations(prefix: string, c: Category, urlOk: string -> bool): seq<Violation> {
    LengthViolations(prefix + "name", |c.name|, 1, CategoryNameMax)
    + UrlViolations(prefix + "image", c.image, urlOk)
  }

  /** The failures of a `ProductBase` (or `ProductCreate`), in field order. */
  function ProductViolations(p: Product, urlOk: string -> bool): seq<Violation> {
    LengthViolations("name", |p.name|, 1, ProductNameMax)
    + LengthViolations("description", |p.description|, 1, DescriptionMax)
    + CategoryViolations("category.", p.category, urlOk)
    + LengthViolations("tags", |p.tags|, 1, TagsMax)
    + PriceViolations("price", p.price)
    + UrlViolations("image", p.image, urlOk)
  }

  /** The failures of a field that may be left out or null: only a given value is checked. */
  function WhenGiven<T>(f: Optional<T>, check: T -> seq<Violation>): seq<Violation> {
    if f.Given? then check(f.value) else []
  }

  /** The failures of a `ProductUpdate`: each given field against the `ProductBase` rule. */
  function UpdateViolations(u: ProductUpdate, urlOk: string -> bool): seq<Violation> {
    WhenGiven(u.name, (s: string) => LengthViolations("name", |s|, 1, ProductNameMax))
    + WhenGiven(u.description, (s: string) => LengthViolations("description", |s|, 1, DescriptionMax))
    + WhenGiven(u.category, (c: Category) => CategoryViolations("category.", c, urlOk))
    + WhenGiven(u.tags, (t: seq<string>) => LengthViolations("tags", |t|, 1, TagsMax))
    + WhenGiven(u.price, (x: real) => PriceViolations("price", x))
    + WhenGiven(u.image, (s: string) => UrlViolations("image", s, urlOk))
  }

  predicate ValidCategory(c: Category, urlOk: string -> bool) {
    CategoryViolations("", c, urlOk) == []
  }

  predicate ValidProduct(p: Product, urlOk: string -> bool) {
    ProductViolations(p, urlOk) == []
  }

  predicate ValidUpdate(u: ProductUpdate, urlOk: string -> bool) {
    UpdateViolations(u, urlOk) == []
  }

  /** `ProductResponse` adds no rule of its own. */
  predicate ValidResponse(r: ProductResponse, urlOk: string -> bool) {
    ValidProduct(r.product, urlOk)
  }

  lemma CategoryRules(c: Category, urlOk: string -> bool, prefix: string)
    ensures CategoryViolations(prefix, c, urlOk) == [] <==> ValidCategory(c, urlOk)
    ensures ValidCategory(c, urlOk) <==> 1 <= |c.name| <= CategoryNameMax && urlOk(c.image)
  {
  }

  /** Every rule of `ProductBase`, bounds inclusive, and the category checked as a `Category`. */
  lemma ProductRules(p: Product, urlOk: string -> bool)
    ensures ValidProduct(p, urlOk) <==>
      && 1 <= |p.name| <= ProductNameMax
      && 1 <= |p.description| <= DescriptionMax
      && ValidCategory(p.category, urlOk)
      && 1 <= |p.tags| <= TagsMax
      && p.price > 0.0
      && urlOk(p.image)
  {
    CategoryRules(p.category, urlOk, "category.");
  }

  /** An update with all fields given has exactly the failures of the same record as a `ProductBase`. */
  function FullUpdate(p: Product): ProductUpdate {
    ProductUpdate(Given(p.name), Given(p.description), Given(p.category),
                  Given(p.tags), Given(p.price), Given(p.image))
  }

  lemma UpdateUsesBaseRules(p: Product, urlOk: string -> bool)
    ensures UpdateViolations(FullUpdate(p), urlOk) == ProductViolations(p, urlOk)
  {
  }

  /** Each given field of an update is held to its `ProductBase` rule; left-out and null fields pass. */
  lemma UpdateRules(u: ProductUpdate, urlOk: string -> bool)
    ensures ValidUpdate(u, urlOk) <==>
      && (u.name.Given? ==> 1 <= |u.name.value| <= ProductNameMax)
      && (u.description.Given? ==> 1 <= |u.description.value| <= DescriptionMax)
      && (u.category.Given? ==> ValidCategory(u.category.value, urlOk))
      && (u.tags.Given? ==> 1 <= |u.tags.value| <= TagsMax)
      && (u.price.Given? ==> u.price.value > 0.0)
      && (u.image.Given? ==> urlOk(u.image.value))
  {
    if u.category.Given? {
      CategoryRules(u.category.value, urlOk, "category.");
    }
  }

  /** The empty update is accepted. */
  lemma EmptyUpdateAccepted(urlOk: string -> bool)
    ensures ValidUpdate(ProductUpdate(Unset, Unset, Unset, Unset, Unset, Unset), urlOk)
  {
  }

  // ---- model_dump(mode='json') ----

  function IdValue(id: Optional<string>): Value {
    if id.Given? then Str(id.value) else Null
  }

  /** The dict of a `Category`, keyed by field name; `exclude_unset` drops a left-out `id`. */
  function CategoryDump(c: Category, excludeUnset: bool): (d: Document)
    ensures d.Keys == (if excludeUnset && c.id.Unset? then {"name", "image"} else {"id", "name", "image"})
  {
    var fields := map["name" := Str(c.name), "image" := Str(c.image)];
    if excludeUnset && c.id.Unset? then fields else fields["id" := IdValue(c.id)]
  }

  const ProductFields: set<string> := {"name", "description", "category", "tags", "price", "image"}

  /** `product.model_dump(mode='json')`: every field of the record. */
  function ProductDump(p: Product): (d: Document)
    ensures d.Keys == ProductFields
  {
    map[
      "name" := Str(p.name),
      "description" := Str(p.description),
      "category" := Obj(CategoryDump(p.category, false)),
      "tags" := List(StrList(p.tags)),
      "price" := Num(p.price),
      "image" := Str(p.image)]
  }

  /** Adds `key` to the dict unless the field was left out; a null field is kept as null. */
  function PutSet<T>(d: Document, key: string, f: Optional<T>, encode: T -> Value): (r: Document)
    ensures f.Unset? ==> r == d
    ensures f.SetNull? ==> r == d[key := Null]
    ensures f.Given? ==> r == d[key := encode(f.value)]
  {
    if f.Unset? then d else d[key := if f.SetNull? then Null else encode(f.value)]
  }

  /** `update.model_dump(exclude_unset=True, mode='json')`: exactly the fields the caller gave. */
  function UpdateDump(u: ProductUpdate): (d: Document)
  {
    var d1 := PutSet(map[], "name", u.name, (s: string) => Str(s));
    var d2 := PutSet(d1, "description", u.description, (s: string) => Str(s));
    var d3 := PutSet(d2, "category", u.category, (c: Category) => Obj(CategoryDump(c, true)));
    var d4 := PutSet(d3, "tags", u.tags, (t: seq<string>) => List(StrList(t)));
    var d5 := PutSet(d4, "price", u.price, (x: real) => Num(x));
    PutSet(d5, "image", u.image, (s: string) => Str(s))
  }

  /** The dumped keys are the fields the caller set, and a null stays null. */
  lemma UpdateDumpKeys(u: ProductUpdate)
    ensures "name" in UpdateDump(u) <==> !u.name.Unset?
    ensures "description" in UpdateDump(u) <==> !u.description.Unset?
    ensures "category" in UpdateDump(u) <==> !u.category.Unset?
    ensures "tags" in UpdateDump(u) <==> !u.tags.Unset?
    ensures "price" in UpdateDump(u) <==> !u.price.Unset?
    ensures "image" in UpdateDump(u) <==> !u.image.Unset?
    ensures UpdateDump(u).Keys <= ProductFields
    ensures u.name.Given? ==> UpdateDump(u)["name"] == Str(u.name.value)
    ensures u.name.SetNull? ==> UpdateDump(u)["name"] == Null
    ensures u.description.Given? ==> UpdateDump(u)["description"] == Str(u.description.value)
    ensures u.description.SetNull? ==> UpdateDump(u)["description"] == Null
    ensures u.tags.Given? ==> UpdateDump(u)["tags"] == List(StrList(u.tags.value))
    ensures u.tags.SetNull? ==> UpdateDump(u)["tags"] == Null
    ensures u.price.Given? ==> UpdateDump(u)["price"] == Num(u.price.value)
    ensures u.price.SetNull? ==> UpdateDump(u)["price"] == Null
    ensures u.category.Given? ==> UpdateDump(u)["category"] == Obj(CategoryDump(u.category.value, true))
    ensures u.category.SetNull? ==> UpdateDump(u)["category"] == Null
    ensures u.image.Given? ==> UpdateDump(u)["image"] == Str(u.image.value)
    ensures u.image.SetNull? ==> UpdateDump(u)["image"] == Null
  {
    var d1 := PutSet(map[], "name", u.name, (s: string) => Str(s));
    var d2 := PutSet(d1, "description", u.description, (s: string) => Str(s));
    var d3 := PutSet(d2, "category", u.category, (c: Category) => Obj(CategoryDump(c, true)));
    var d4 := PutSet(d3, "tags", u.tags, (t: seq<string>) => List(StrList(t)));
    var d5 := PutSet(d4, "price", u.price, (x: real) => Num(x));
    assert UpdateDump(u) == PutSet(d5, "image", u.image, (s: string) => Str(s));
  }

  // ---- ProductResponse(**doc) ----

  /** An `Optional[str]` id read from `_id`, else from `id`; a non-string, non-null value is refused. */
  function DecodeId(fields: map<string, Value>): Option<Optional<string>> {
    var key := if IdKey in fields then Some(IdKey) else if "id" in fields then Some("id") else None;
    if key.None? then Some(Unset)
    else
      match fields[key.value]
      case Null => Some(SetNull)
      case Str(s) => Some(Given(s))
      case _ => None
  }

  /** `Category(**fields)` without its rules; extra keys are ignored. */
  function DecodeCategory(v: Value): Option<Category> {
    if !v.Obj? then None
    else
      var f := v.fields;
      var id := DecodeId(f);
      if id.None? || "name" !in f || "image" !in f || !f["name"].Str? || !f["image"].Str? then None
      else Some(Category(id.value, f["name"].s, f["image"].s))
  }

  /** The record fields of a document, before the rules are applied. */
  function DecodeProduct(doc: Document): Option<Product> {
    if "name" !in doc || "description" !in doc || "category" !in doc || "tags" !in doc
       || "price" !in doc || "image" !in doc
    then None
    else if !doc["name"].Str? || !doc["description"].Str? || !doc["tags"].List?
            || !doc["price"].Num? || !doc["image"].Str?
    then None
    else
      var category := DecodeCategory(doc["category"]);
      var tags := StrItems(doc["tags"].items);
      if category.None? || tags.None? then None
      else Some(Product(doc["name"].s, doc["description"].s, category.value,
                        tags.value, doc["price"].n, doc["image"].s))
  }

  /** The record a document reads as, field by field; extra keys play no part. */
  predicate ReadsAs(doc: Document, p: Product) {
    && "name" in doc && doc["name"] == Str(p.name)
    && "description" in doc && doc["description"] == Str(p.description)
    && "category" in doc && DecodeCategory(doc["category"]) == Some(p.category)
    && "tags" in doc && doc["tags"].List? && StrItems(doc["tags"].items) == Some(p.tags)
    && "price" in doc && doc["price"] == Num(p.price)
    && "image" in doc && doc["image"] == Str(p.image)
  }

  lemma ReadsAsIgnoresId(doc: Document, v: Value, p: Product)
    ensures ReadsAs(doc[IdKey := v], p) <==> ReadsAs(doc, p)
  {
  }

  lemma DecodeProductMeaning(doc: Document, p: Product)
    ensures DecodeProduct(doc) == Some(p) <==> ReadsAs(doc, p)
  {
  }

  /** A document decodes to exactly the products it reads as. */
  lemma DecodesAsReadsAs(doc: Document)
    ensures forall p :: DecodeProduct(doc) == Some(p) <==> ReadsAs(doc, p)
  {
    forall p
      ensures DecodeProduct(doc) == Some(p) <==> ReadsAs(doc, p)
    {
      DecodeProductMeaning(doc, p);
    }
  }

  /** The response's `id`: the string given, or None. */
  function IdText(id: Optional<string>): Option<string> {
    if id.Given? then Some(id.value) else None
  }

  /** `ProductResponse(**doc)`: None when pydantic raises ValidationError. */
  function DecodeResponse(doc: Document, urlOk: string -> bool): (r: Option<ProductResponse>)
    ensures r.Some? ==>
      && DecodeId(doc).Some? && r.value.id == IdText(DecodeId(doc).value)
      && ReadsAs(doc, r.value.product) && ValidResponse(r.value, urlOk)
    ensures forall p :: DecodeId(doc).Some? && ReadsAs(doc, p) && ValidProduct(p, urlOk) ==>
      r == Some(ProductResponse(IdText(DecodeId(doc).value), p))
  {
    DecodesAsReadsAs(doc);
    var id := DecodeId(doc);
    var p := DecodeProduct(doc);
    if id.None? || p.None? || !ValidProduct(p.value, urlOk) then None
    else Some(ProductResponse(IdText(id.value), p.value))
  }

  lemma DecodeIdOfString(doc: Document, s: string)
    ensures DecodeId(doc[IdKey := Str(s)]) == Some(Given(s))
  {
  }

  /** The category as it reads back after being dumped: a left-out id comes back as set to null. */
  function Settled(c: Category): Category {
    if c.id.Unset? then c.(id := SetNull) else c
  }

  /**
   * Round trip: a valid product dumped, stored and read back with its `_id`
   * rendered as a string is that product, carrying that id.
   */
  lemma ResponseOfDump(p: Product, id: string, urlOk: string -> bool)
    requires ValidProduct(p, urlOk)
    ensures DecodeResponse(ProductDump(p)[IdKey := Str(id)], urlOk)
            == Some(ProductResponse(Some(id), p.(category := Settled(p.category))))
  {
    var doc := ProductDump(p)[IdKey := Str(id)];
    StrItemsOfStrList(p.tags);
    assert doc["tags"] == List(StrList(p.tags));
    assert DecodeCategory(doc["category"]) == Some(Settled(p.category));
    assert DecodeProduct(doc) == Some(p.(category := Settled(p.category)));
    CategoryRules(p.category, urlOk, "category.");
    CategoryRules(Settled(p.category), urlOk, "category.");
  }
}
