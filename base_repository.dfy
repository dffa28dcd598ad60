/**
 * `BaseRepository` (app/repositories/base_repository.py): find, update and
 * delete one document of a collection by its id string.
 *
 * A malformed id raises NotFoundException("ID inválido") before the store is
 * called; a NotFoundException propagates unchanged; any other failure is
 * re-raised as DatabaseException with a prefix naming the operation. The two
 * exceptions are the two variants of `RepoError`.
 */
module BaseRepositories {
  import opened Wrappers
  import opened ObjectIds
  import opened Documents
  import opened Store

  datatype RepoError = NotFound(detail: string) | DatabaseError(detail: string)

  const InvalidIdDetail: string := "ID inválido"
  const FindMissDetail: string := "Documento no encontrado"
  const UpdateMissDetail: string := "Documento a actualizar no encontrado"
  const DeleteMissDetail: string := "Documento a eliminar no encontrado"
  const FindFaultPrefix: string := "Error de base de datos: "
  const UpdateFaultPrefix: string := "Error al actualizar: "
  const DeleteFaultPrefix: string := "Error al eliminar: "

  /** The text Python raises when a driver call is made on a collection that is None. */
  function NoCollection(call: string): string {
    "'NoneType' object has no attribute '" + call + "'"
  }

  /** `_validate_id`: the ObjectId, or NotFound("ID inválido"). */
  function ValidateId(id: string): (r: Result<Oid, RepoError>)
    ensures r.Ok? <==> IsValidObjectId(id)
    ensures r.Err? ==> r.error == NotFound(InvalidIdDetail)
    ensures r.Ok? ==> Parse(id) == Some(r.value) && OidString(r.value) == LowerHex(id)
  {
    match Parse(id)
    case None => Err(NotFound(InvalidIdDetail))
    case Some(oid) =>
      AcceptedIsStringForm(id);
      Ok(oid)
  }

  /** The document `find_by_id` returns: the stored one with `document["_id"] = str(...)`. */
  function WithStringId(doc: Document, id: Oid): Document {
    doc[IdKey := Str(OidString(id))]
  }

  /** What `find_by_id(id)` returns or raises, when `find_one` raises `fault` if given. */
  function FindByIdOutcome(docs: map<Oid, Document>, id: string, fault: Option<string>): Result<Document, RepoError> {
    match ValidateId(id)
    case Err(e) => Err(e)
    case Ok(oid) =>
      if fault.Some? then Err(DatabaseError(FindFaultPrefix + fault.value))
      else if oid !in docs then Err(NotFound(FindMissDetail))
      else Ok(WithStringId(docs[oid], oid))
  }

  /**
   * What `update(id, update_data)` returns or raises; `fault` is raised by
   * `update_one`, `rereadFault` by the `find_one` of the re-read.
   */
  function UpdateOutcome(docs: map<Oid, Document>, id: string, fields: Document,
                         fault: Option<string>, rereadFault: Option<string>): Result<Document, RepoError> {
    match ValidateId(id)
    case Err(e) => Err(e)
    case Ok(oid) =>
      if fault.Some? then Err(DatabaseError(UpdateFaultPrefix + fault.value))
      else if oid !in docs then Err(NotFound(UpdateMissDetail))
      else
        match FindByIdOutcome(AfterUpdate(docs, oid, fields), id, rereadFault)
        case Ok(d) => Ok(d)
        case Err(NotFound(m)) => Err(NotFound(m))
        case Err(DatabaseError(m)) => Err(DatabaseError(UpdateFaultPrefix + m))
  }

  /** The collection after `update(id, update_data)`. */
  function UpdatedDocs(docs: map<Oid, Document>, id: string, fields: Document, fault: Option<string>): map<Oid, Document> {
    match ValidateId(id)
    case Err(_) => docs
    case Ok(oid) => if fault.Some? then docs else AfterUpdate(docs, oid, fields)
  }

  /** What `delete(id)` returns or raises. */
  function DeleteOutcome(docs: map<Oid, Document>, id: string, fault: Option<string>): Result<bool, RepoError> {
    match ValidateId(id)
    case Err(e) => Err(e)
    case Ok(oid) =>
      if fault.Some? then Err(DatabaseError(DeleteFaultPrefix + fault.value))
      else if oid !in docs then Err(NotFound(DeleteMissDetail))
      else Ok(true)
  }

  /** The collection after `delete(id)`. */
  function DeletedDocs(docs: map<Oid, Document>, id: string, fault: Option<string>): map<Oid, Document> {
    match ValidateId(id)
    case Err(_) => docs
    case Ok(oid) => if fault.Some? then docs else docs - {oid}
  }

  /** A malformed id is reported as not found, whatever the store would do, and changes nothing. */
  lemma MalformedIdIsNotFound(docs: map<Oid, Document>, id: string, fields: Document,
                              fault: Option<string>, rereadFault: Option<string>)
    requires !IsValidObjectId(id)
    ensures FindByIdOutcome(docs, id, fault) == Err(NotFound(InvalidIdDetail))
    ensures UpdateOutcome(docs, id, fields, fault, rereadFault) == Err(NotFound(InvalidIdDetail))
    ensures DeleteOutcome(docs, id, fault) == Err(NotFound(InvalidIdDetail))
    ensures UpdatedDocs(docs, id, fields, fault) == docs && DeletedDocs(docs, id, fault) == docs
  {
  }

  /**
   * `find_by_id` raises NotFound exactly when the id is malformed or names no
   * document; a found document is the stored one whose `_id` is the id's
   * canonical string, and looking that string up again finds it again.
   */
  lemma FindByIdMeaning(docs: map<Oid, Document>, id: string)
    ensures FindByIdOutcome(docs, id, None).Err? <==> !IsValidObjectId(id) || Parse(id).value !in docs
    ensures FindByIdOutcome(docs, id, None).Err? ==> FindByIdOutcome(docs, id, None).error.NotFound?
    ensures FindByIdOutcome(docs, id, None).Ok? ==>
      var d := FindByIdOutcome(docs, id, None).value;
      && d == docs[Parse(id).value][IdKey := Str(LowerHex(id))]
      && FindByIdOutcome(docs, LowerHex(id), None) == Ok(d)
  {
    if IsValidObjectId(id) && Parse(id).value in docs {
      var oid := Parse(id).value;
      AcceptedIsStringForm(id);
      StringFormAccepted(oid);
    }
  }

  /**
   * `update` merges with `$set`: the given keys take their new values, every
   * other key of that document is kept, other documents are untouched, and
   * the result is the re-read document.
   */
  lemma UpdateMerges(docs: map<Oid, Document>, id: string, fields: Document, rereadFault: Option<string>)
    requires IsValidObjectId(id) && Parse(id).value in docs
    ensures var after := UpdatedDocs(docs, id, fields, None);
      var oid := Parse(id).value;
      && after.Keys == docs.Keys
      && (forall k :: k in fields ==> after[oid][k] == fields[k])
      && (forall k :: k in docs[oid] && k !in fields ==> after[oid][k] == docs[oid][k])
      && (forall other :: other in docs && other != oid ==> after[other] == docs[other])
      && (rereadFault.None? ==> UpdateOutcome(docs, id, fields, None, rereadFault) == Ok(WithStringId(after[oid], oid)))
      && (rereadFault.Some? ==> UpdateOutcome(docs, id, fields, None, rereadFault)
                                 == Err(DatabaseError(UpdateFaultPrefix + (FindFaultPrefix + rereadFault.value))))
  {
    AfterUpdateFrame(docs, Parse(id).value, fields);
  }

  /** With no matching document, `update` raises NotFound and leaves the collection as it was. */
  lemma UpdateMissLeavesCollection(docs: map<Oid, Document>, id: string, fields: Document, rereadFault: Option<string>)
    requires IsValidObjectId(id) && Parse(id).value !in docs
    ensures UpdateOutcome(docs, id, fields, None, rereadFault) == Err(NotFound(UpdateMissDetail))
    ensures UpdatedDocs(docs, id, fields, None) == docs
  {
  }

  /** A matched update that changes nothing (modified_count 0) still succeeds and returns the document. */
  lemma NoOpUpdateSucceeds(docs: map<Oid, Document>, id: string, fields: Document)
    requires IsValidObjectId(id) && Parse(id).value in docs
    requires UpdateCounts(docs, Parse(id).value, fields).modifiedCount == 0
    ensures UpdatedDocs(docs, id, fields, None) == docs
    ensures UpdateOutcome(docs, id, fields, None, None) == Ok(WithStringId(docs[Parse(id).value], Parse(id).value))
  {
    UpdateCountsMeaning(docs, Parse(id).value, fields);
  }

  /** `delete` removes exactly the named document and returns True, or raises NotFound and removes nothing. */
  lemma DeleteMeaning(docs: map<Oid, Document>, id: string)
    ensures DeleteOutcome(docs, id, None) == Ok(true) <==> IsValidObjectId(id) && Parse(id).value in docs
    ensures DeleteOutcome(docs, id, None).Ok? ==> DeletedDocs(docs, id, None) == docs - {Parse(id).value}
    ensures DeleteOutcome(docs, id, None).Err? ==>
              DeleteOutcome(docs, id, None).error.NotFound? && DeletedDocs(docs, id, None) == docs
  {
  }

  /** DatabaseException comes only from a store fault; every fault becomes DatabaseException. */
  lemma FaultsBecomeDatabaseErrors(docs: map<Oid, Document>, id: string, fields: Document,
                                   fault: Option<string>, rereadFault: Option<string>)
    requires IsValidObjectId(id)
    ensures FindByIdOutcome(docs, id, fault).Err? && FindByIdOutcome(docs, id, fault).error.DatabaseError?
            <==> fault.Some?
    ensures DeleteOutcome(docs, id, fault).Err? && DeleteOutcome(docs, id, fault).error.DatabaseError?
            <==> fault.Some?
    ensures UpdateOutcome(docs, id, fields, fault, rereadFault).Err?
            && UpdateOutcome(docs, id, fields, fault, rereadFault).error.DatabaseError?
            <==> fault.Some? || (Parse(id).value in docs && rereadFault.Some?)
  {
    if fault.None? && Parse(id).value in docs {
      AfterUpdateFrame(docs, Parse(id).value, fields);
    }
  }

  /** The collection order after `delete(id)`. */
  function DeletedOrder(order: seq<Oid>, id: string, fault: Option<string>): seq<Oid> {
    match ValidateId(id)
    case Err(_) => order
    case Ok(oid) => if fault.Some? then order else Without(order, oid)
  }

  class BaseRepository {
    var collection: Collection?

    constructor (collection: Collection?)
      ensures this.collection == collection
    {
      this.collection := collection;
    }

    ghost predicate Valid()
      reads this, collection
    {
      collection != null ==> collection.Valid()
    }

    /** The documents of the collection; none when it is None. */
    ghost function Docs(): map<Oid, Document>
      reads this, collection
    {
      if collection == null then map[] else collection.docs
    }

    /** The exception a driver call raises: AttributeError on None, else the store's fault. */
    function CallFault(call: string, fault: Option<string>): Option<string>
      reads this
    {
      if collection == null then Some(NoCollection(call)) else fault
    }

    method FindById(id: string, fault: Option<string>) returns (r: Result<Document, RepoError>)
      requires Valid()
      ensures r == FindByIdOutcome(Docs(), id, CallFault("find_one", fault))
    {
      var checked := ValidateId(id);
      if checked.Err? {
        return Err(checked.error);
      }
      var oid := checked.value;
      if collection == null {
        return Err(DatabaseError(FindFaultPrefix + NoCollection("find_one")));
      }
      var found := collection.FindOne(oid, fault);
      match found
      case Err(e) =>
        r := Err(DatabaseError(FindFaultPrefix + e));
      case Ok(None) =>
        r := Err(NotFound(FindMissDetail));
      case Ok(Some(doc)) =>
        r := Ok(WithStringId(doc, oid));
    }

    method Update(id: string, fields: Document, fault: Option<string>, rereadFault: Option<string>)
      returns (r: Result<Document, RepoError>)
      requires Valid() && IdKey !in fields
      modifies collection
      ensures Valid() && collection == old(collection)
      ensures collection != null ==> collection.order == old(collection.order)
      ensures Docs() == UpdatedDocs(old(Docs()), id, fields, CallFault("update_one", fault))
      ensures r == UpdateOutcome(old(Docs()), id, fields, CallFault("update_one", fault),
                                 CallFault("find_one", rereadFault))
    {
      var checked := ValidateId(id);
      if checked.Err? {
        return Err(checked.error);
      }
      if collection == null {
        return Err(DatabaseError(UpdateFaultPrefix + NoCollection("update_one")));
      }
      var result := collection.UpdateOne(checked.value, fields, fault);
      if result.Err? {
        return Err(DatabaseError(UpdateFaultPrefix + result.error));
      }
      if result.value.matchedCount == 0 {
        return Err(NotFound(UpdateMissDetail));
      }
      var reread := FindById(id, rereadFault);
      match reread
      case Ok(d) =>
        r := Ok(d);
      case Err(NotFound(m)) =>
        r := Err(NotFound(m));
      case Err(DatabaseError(m)) =>
        r := Err(DatabaseError(UpdateFaultPrefix + m));
    }

    method Delete(id: string, fault: Option<string>) returns (r: Result<bool, RepoError>)
      requires Valid()
      modifies collection
      ensures Valid() && collection == old(collection)
      ensures Docs() == DeletedDocs(old(Docs()), id, CallFault("delete_one", fault))
      ensures collection != null ==> collection.order == DeletedOrder(old(collection.order), id, fault)
      ensures r == DeleteOutcome(old(Docs()), id, CallFault("delete_one", fault))
    {
      var checked := ValidateId(id);
      if checked.Err? {
        return Err(checked.error);
      }
      if collection == null {
        return Err(DatabaseError(DeleteFaultPrefix + NoCollection("delete_one")));
      }
      var result := collection.DeleteOne(checked.value, fault);
      if result.Err? {
        return Err(DatabaseError(DeleteFaultPrefix + result.error));
      }
      if result.value.deletedCount == 0 {
        return Err(NotFound(DeleteMissDetail));
      }
      r := Ok(true);
    }
  }
}
