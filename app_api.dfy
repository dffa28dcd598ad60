/**
 * The routes of the second revision (app/api.py) over app/database.py. Reads
 * and deletes check the id's form first and answer 400; updates do not, so a
 * malformed id reaches `ObjectId(...)` and becomes a 500.
 */
module AppApi {
  import opened Wrappers
  import opened ObjectIds
  import opened Documents
  import opened Store
  import opened LegacyModels
  import opened Http
  import opened AppDatabase

  function CreatedMessage(k: Kind): string {
    if k == ProductKind then "Product created" else "Category created"
  }

  /** What FastAPI raises when a returned document does not fit the route's `response_model`. */
  const ResponseValidationError: string := "ResponseValidationError"

  /** The documents of a list read as records of their collection's model, all or nothing. */
  function DecodeAll(k: Kind, docs: seq<Document>): (r: Option<seq<Record>>)
    ensures r.Some? <==> forall i :: 0 <= i < |docs| ==> DecodeRecord(k, docs[i]).Some?
    ensures r.Some? ==> |r.value| == |docs| && forall i :: 0 <= i < |docs| ==> DecodeRecord(k, docs[i]) == Some(r.value[i])
  {
    if docs == [] then Some([])
    else
      match DecodeRecord(k, docs[0])
      case None => None
      case Some(rec) =>
        match DecodeAll(k, docs[1..])
        case None => None
        case Some(rest) => Some([rec] + rest)
  }

  /** The dicts sent for a list of records. */
  function Dicts(recs: seq<Record>): (ds: seq<Document>)
    ensures |ds| == |recs| && forall i :: 0 <= i < |recs| ==> ds[i] == RecordDict(recs[i])
  {
    seq(|recs|, i requires 0 <= i < |recs| => RecordDict(recs[i]))
  }

  /**
   * `read_categories`, `read_category_products`, `read_products`: the list is
   * checked against `List[Product]` or `List[Category]`, and what is sent is
   * each document's record, extra keys dropped.
   */
  function ListResponse(k: Kind, r: Result<seq<Document>, Failure>): Response {
    match r
    case Err(f) => FailureResponse(f)
    case Ok(docs) =>
      match DecodeAll(k, docs)
      case None => FailureResponse(Unhandled(ResponseValidationError))
      case Some(recs) => Response(200, Records(Dicts(recs)))
  }

  /**
   * A fetched list answers 200 with the records its documents hold, in order,
   * when every document holds a record of the collection's model, and 500
   * when some document holds none.
   */
  lemma ListMeaning(k: Kind, docs: seq<Document>)
    ensures ListResponse(k, Ok(docs)).status in {200, 500}
    ensures forall recs: seq<Record> ::
              |recs| == |docs| && (forall i :: 0 <= i < |docs| ==> KindOf(recs[i]) == k && HoldsRecord(docs[i], recs[i])) ==>
              ListResponse(k, Ok(docs)) == Response(200, Records(Dicts(recs)))
    ensures ListResponse(k, Ok(docs)).status == 500 <==>
              exists i :: 0 <= i < |docs| && forall rec :: KindOf(rec) == k ==> !HoldsRecord(docs[i], rec)
  {
    forall recs: seq<Record> |
      |recs| == |docs| && (forall i :: 0 <= i < |docs| ==> KindOf(recs[i]) == k && HoldsRecord(docs[i], recs[i]))
      ensures ListResponse(k, Ok(docs)) == Response(200, Records(Dicts(recs)))
    {
      forall i | 0 <= i < |docs| ensures DecodeRecord(k, docs[i]) == Some(recs[i]) {
        DecodeRecordMeaning(docs[i], recs[i]);
      }
      var decoded := DecodeAll(k, docs).value;
      assert decoded == recs;
    }
    if ListResponse(k, Ok(docs)).status == 500 {
      var i :| 0 <= i < |docs| && DecodeRecord(k, docs[i]).None?;
      forall rec | KindOf(rec) == k ensures !HoldsRecord(docs[i], rec) {
        DecodeRecordMeaning(docs[i], rec);
      }
    }
  }

  /**
   * `read_product`, `read_category`: 400, then the lookup, then 404 when it
   * found nothing; a found document is checked against `Product` or
   * `Category`, and what is sent is its record.
   */
  function ReadResponse(k: Kind, docs: map<Oid, Document>, id: string, fault: Option<string>): Response {
    if !IsValidObjectId(id) then Response(400, Detail(InvalidIdDetail(k)))
    else
      match GetByIdOutcome(docs, id, fault)
      case Err(f) => FailureResponse(f)
      case Ok(None) => Response(404, Detail(NotFoundDetail(k)))
      case Ok(Some(doc)) =>
        match DecodeRecord(k, doc)
        case None => FailureResponse(Unhandled(ResponseValidationError))
        case Some(rec) => Response(200, Record(RecordDict(rec)))
  }

  /**
   * A read answers 400 exactly for a malformed id, whatever the store holds.
   * It answers 500 on a store fault, and when the stored document is not
   * empty but holds no record of the collection's model; the id check keeps
   * InvalidId out. It answers 404 when nothing non-empty is stored, and 200
   * with a record exactly when the stored document holds that record.
   */
  lemma ReadMeaning(k: Kind, docs: map<Oid, Document>, id: string, fault: Option<string>)
    ensures ReadResponse(k, docs, id, fault).status == 400 <==> !IsValidObjectId(id)
    ensures ReadResponse(k, docs, id, fault).status == 500 <==>
              && IsValidObjectId(id)
              && (|| fault.Some?
                  || (&& Parse(id).value in docs && docs[Parse(id).value] != map[]
                      && forall rec :: KindOf(rec) == k ==> !HoldsRecord(docs[Parse(id).value], rec)))
    ensures IsValidObjectId(id) && fault.None? ==>
              var oid := Parse(id).value;
              && (oid !in docs || docs[oid] == map[] ==> ReadResponse(k, docs, id, fault) == Response(404, Detail(NotFoundDetail(k))))
              && forall rec :: KindOf(rec) == k ==>
                   (ReadResponse(k, docs, id, fault) == Response(200, Record(RecordDict(rec))) <==> oid in docs && HoldsRecord(docs[oid], rec))
  {
    if IsValidObjectId(id) && fault.None? {
      GetByIdMeaning(docs, id);
      var oid := Parse(id).value;
      if oid in docs && docs[oid] != map[] {
        if DecodeRecord(k, docs[oid]).None? {
          forall rec | KindOf(rec) == k ensures !HoldsRecord(docs[oid], rec) {
            DecodeRecordMeaning(docs[oid], rec);
          }
        }
      }
      forall rec | KindOf(rec) == k
        ensures ReadResponse(k, docs, id, fault) == Response(200, Record(RecordDict(rec))) <==> oid in docs && HoldsRecord(docs[oid], rec)
      {
        if oid in docs {
          DecodeRecordMeaning(docs[oid], rec);
          assert "name" in RecordDict(rec);
          var r := DecodeRecord(k, docs[oid]);
          if r.Some? {
            RecordDictInjective(r.value, rec);
          }
        }
      }
    }
  }

  /** A record the flat app has just inserted reads back as that record. */
  lemma CreatedRecordReadsBack(docs: map<Oid, Document>, newId: Oid, rec: Record)
    ensures ReadResponse(KindOf(rec), docs[newId := RecordDict(rec)], OidString(newId), None) == Response(200, Record(RecordDict(rec)))
  {
    StringFormAccepted(newId);
    ReadMeaning(KindOf(rec), docs[newId := RecordDict(rec)], OidString(newId), None);
    assert HoldsRecord(RecordDict(rec), rec);
  }

  /** `create_category`, `create_product`: the fixed message once the insert returns. */
  function CreateResponse(k: Kind, r: Result<(), Failure>): (resp: Response)
    ensures r.Ok? ==> resp == Response(200, Message(CreatedMessage(k)))
    ensures r.Err? ==> resp == FailureResponse(r.error)
  {
    match r
    case Ok(_) => Response(200, Message(CreatedMessage(k)))
    case Err(f) => FailureResponse(f)
  }

  /** `delete_product`, `delete_category`: returns the data layer's dict when its message says deleted. */
  function DeleteResponse(k: Kind, docs: map<Oid, Document>, id: string, fault: Option<string>): Response {
    if !IsValidObjectId(id) then Response(400, Detail(InvalidIdDetail(k)))
    else
      match DeleteOutcome(k, docs, id, fault)
      case Err(f) => FailureResponse(f)
      case Ok(d) =>
        if "message" in d && d["message"] == Str(DeletedMessage(k)) then Response(200, Record(d))
        else Response(404, Detail(NotFoundDetail(k)))
  }

  /**
   * The route's own 404 after a successful delete cannot be reached: the data
   * layer returns only the "deleted" message, and misses raise its 404 first.
   */
  lemma DeleteMeaning(k: Kind, docs: map<Oid, Document>, id: string, fault: Option<string>)
    ensures !IsValidObjectId(id) ==> DeleteResponse(k, docs, id, fault) == Response(400, Detail(InvalidIdDetail(k)))
    ensures IsValidObjectId(id) && fault.Some? ==> DeleteResponse(k, docs, id, fault).status == 500
    ensures IsValidObjectId(id) && fault.None? ==>
              if Parse(id).value in docs
              then DeleteResponse(k, docs, id, fault) == Response(200, Record(MessageDict(DeletedMessage(k))))
              else DeleteResponse(k, docs, id, fault) == Response(404, Detail(NotFoundDetail(k)))
  {
    AppDatabase.DeleteMeaning(k, docs, id, fault);
  }

  /** `update_category`, `update_product`: any returned dict is truthy, so the route's 404 is never its own. */
  function UpdateResponse(docs: map<Oid, Document>, id: string, rec: Record, fault: Option<string>): Response {
    match UpdateOutcome(docs, id, rec, fault)
    case Err(f) => FailureResponse(f)
    case Ok(d) =>
      if Truthy(d) then Response(200, Message(UpdatedMessage(KindOf(rec))))
      else Response(404, Detail(NotFoundDetail(KindOf(rec))))
  }

  /**
   * An update answers 200 exactly when it changes the stored document, 404
   * when no document has the id, 422 when the document already holds the
   * record, and 500 for a malformed id, which no check stops here.
   */
  lemma UpdateMeaning(docs: map<Oid, Document>, id: string, rec: Record, fault: Option<string>)
    ensures !IsValidObjectId(id) ==> UpdateResponse(docs, id, rec, fault).status == 500
    ensures IsValidObjectId(id) && fault.None? ==>
              var oid := Parse(id).value;
              && (UpdateResponse(docs, id, rec, fault).status == 200 <==> oid in docs && !HoldsRecord(docs[oid], rec))
              && (oid !in docs ==> UpdateResponse(docs, id, rec, fault) == Response(404, Detail(NotFoundDetail(KindOf(rec)))))
              && (oid in docs && HoldsRecord(docs[oid], rec) ==>
                    UpdateResponse(docs, id, rec, fault) == Response(422, Detail(UpdateFailed)))
  {
    if IsValidObjectId(id) && fault.None? {
      AppDatabase.UpdateMeaning(docs, id, rec);
      assert "message" in MessageDict(UpdatedMessage(KindOf(rec)));
    }
  }

  class Api {
    const db: Database

    constructor (db: Database)
      ensures this.db == db
    {
      this.db := db;
    }

    ghost predicate Valid()
      reads this, db, db.products, db.categories
    {
      db.Valid()
    }

    /** The three list routes: every document of a kind, or the products of one category. */
    method List(k: Kind, category: Option<string>, fault: Option<string>) returns (resp: Response)
      requires Valid()
      ensures resp == ListResponse(k, if fault.Some? then Err(Unhandled(fault.value))
                                      else Ok(Select(db.CollectionOf(k).docs, db.CollectionOf(k).order, category)))
    {
      var r := db.List(k, category, fault);
      resp := ListResponse(k, r);
    }

    method Read(k: Kind, id: string, fault: Option<string>) returns (resp: Response)
      requires Valid()
      ensures resp == ReadResponse(k, db.CollectionOf(k).docs, id, fault)
    {
      if !IsValidObjectId(id) {
        return Response(400, Detail(InvalidIdDetail(k)));
      }
      var found := db.GetById(k, id, fault);
      match found
      case Err(f) =>
        resp := FailureResponse(f);
      case Ok(None) =>
        resp := Response(404, Detail(NotFoundDetail(k)));
      case Ok(Some(doc)) =>
        var rec := DecodeRecord(k, doc);
        if rec.Some? {
          resp := Response(200, Record(RecordDict(rec.value)));
        } else {
          resp := FailureResponse(Unhandled(ResponseValidationError));
        }
    }

    method Create(rec: Record, newId: Oid, fault: Option<string>) returns (resp: Response)
      requires Valid()
      modifies db.CollectionOf(KindOf(rec))
      ensures Valid()
      ensures var c := db.CollectionOf(KindOf(rec));
        if fault.Some? || newId in old(c.docs) then resp.status == 500 && c.docs == old(c.docs) && c.order == old(c.order)
        else
          && resp == Response(200, Message(CreatedMessage(KindOf(rec))))
          && c.docs == old(c.docs)[newId := RecordDict(rec)] && c.order == old(c.order) + [newId]
    {
      var r := db.Create(rec, newId, fault);
      resp := CreateResponse(KindOf(rec), r);
    }

    method Delete(k: Kind, id: string, fault: Option<string>) returns (resp: Response)
      requires Valid()
      modifies db.CollectionOf(k)
      ensures Valid()
      ensures db.CollectionOf(k).docs == DeletedDocs(old(db.CollectionOf(k).docs), id, fault)
      ensures db.CollectionOf(k).order == DeletedOrder(old(db.CollectionOf(k).order), id, fault)
      ensures resp == DeleteResponse(k, old(db.CollectionOf(k).docs), id, fault)
    {
      if !IsValidObjectId(id) {
        return Response(400, Detail(InvalidIdDetail(k)));
      }
      var deleted := db.Delete(k, id, fault);
      match deleted
      case Err(f) =>
        resp := FailureResponse(f);
      case Ok(d) =>
        if "message" in d && d["message"] == Str(DeletedMessage(k)) {
          resp := Response(200, Record(d));
        } else {
          resp := Response(404, Detail(NotFoundDetail(k)));
        }
    }

    method Update(id: string, rec: Record, fault: Option<string>) returns (resp: Response)
      requires Valid()
      modifies db.CollectionOf(KindOf(rec))
      ensures Valid()
      ensures db.CollectionOf(KindOf(rec)).docs == UpdatedDocs(old(db.CollectionOf(KindOf(rec)).docs), id, rec, fault)
      ensures db.CollectionOf(KindOf(rec)).order == old(db.CollectionOf(KindOf(rec)).order)
      ensures resp == UpdateResponse(old(db.CollectionOf(KindOf(rec)).docs), id, rec, fault)
    {
      var updated := db.Update(id, rec, fault);
      match updated
      case Err(f) =>
        resp := FailureResponse(f);
      case Ok(d) =>
        if Truthy(d) {
          resp := Response(200, Message(UpdatedMessage(KindOf(rec))));
        } else {
          resp := Response(404, Detail(NotFoundDetail(KindOf(rec))));
        }
    }
  }
}
