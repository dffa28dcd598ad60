/**
 * The repository carries three revisions of the same catalogue: the prototype
 * (database.py), the flat app (app/database.py with app/api.py) and the
 * layered app (repository, service, endpoints). These lemmas state, on the
 * same stored collection, where their answers part.
 */
module Revisions {
  import opened Wrappers
  import opened ObjectIds
  import opened Documents
  import opened Store
  import opened Http
  import L = LegacyModels
  import PM = ProductModels
  import BR = BaseRepositories
  import PS = ProductServices
  import PE = ProductEndpoints
  import AD = AppDatabase
  import AA = AppApi
  import PD = PrototypeDatabase

  /**
   * A malformed product id: the flat app's read answers 400, the layered
   * app's 404 "ID inválido", the prototype's lookup raises (500), and the
   * flat app's update, which checks nothing, raises too.
   */
  lemma MalformedIdAcrossRevisions(docs: map<Oid, Document>, id: string, fault: Option<string>,
                                   rec: L.Record, urlOk: string -> bool)
    requires !IsValidObjectId(id)
    ensures AA.ReadResponse(L.ProductKind, docs, id, fault) == Response(400, Detail("Invalid product ID"))
    ensures PE.GetProduct(PS.GetProductOutcome(docs, id, fault, urlOk)) == Response(404, Detail(BR.InvalidIdDetail))
    ensures PD.GetProductOutcome(docs, id, fault).Err? && PD.GetProductOutcome(docs, id, fault).error.Unhandled?
    ensures AA.UpdateResponse(docs, id, rec, fault).status == 500
  {
    var untouched := PM.ProductUpdate(PM.Unset, PM.Unset, PM.Unset, PM.Unset, PM.Unset, PM.Unset);
    PE.MalformedIdIs404(docs, id, untouched, fault, None, urlOk);
    AA.UpdateMeaning(docs, id, rec, fault);
  }

  /**
   * Writing back what a document already holds: the flat app answers 422
   * "Update operation failed", the layered repository returns the document.
   */
  lemma NoOpUpdateAcrossRevisions(docs: map<Oid, Document>, id: string, rec: L.Record)
    requires IsValidObjectId(id) && Parse(id).value in docs
    requires L.HoldsRecord(docs[Parse(id).value], rec)
    ensures AD.UpdateOutcome(docs, id, rec, None) == Err(HttpError(422, AD.UpdateFailed))
    ensures AA.UpdateResponse(docs, id, rec, None) == Response(422, Detail(AD.UpdateFailed))
    ensures BR.UpdateOutcome(docs, id, L.RecordDict(rec), None, None)
            == Ok(BR.WithStringId(docs[Parse(id).value], Parse(id).value))
  {
    var oid := Parse(id).value;
    AD.UpdateMeaning(docs, id, rec);
    AA.UpdateMeaning(docs, id, rec, None);
    UpdateCountsMeaning(docs, oid, L.RecordDict(rec));
    BR.NoOpUpdateSucceeds(docs, id, L.RecordDict(rec));
  }

  /**
   * The prototype's update replaces every schema field; the layered update
   * writes only the fields the caller set, so a description left unset
   * survives there and is overwritten in the prototype.
   */
  lemma OverwriteVersusMerge(docs: map<Oid, Document>, id: string, p: L.Product, u: PM.ProductUpdate)
    requires IsValidObjectId(id) && Parse(id).value in docs
    requires !u.category.SetNull?
    ensures var oid := Parse(id).value;
            var full := PD.UpdateProductDocs(docs, id, p, None)[oid];
            var partial := PS.UpdateProductDocs(docs, id, u, None)[oid];
      && (forall k :: k in L.ProductFields ==> full[k] == L.ProductDict(p)[k])
      && full["description"] == Str(p.description)
      && (u.description.Unset? && "description" in docs[oid] ==> partial["description"] == docs[oid]["description"])
  {
    var oid := Parse(id).value;
    PD.UpdateOverwritesSchema(docs, id, p);
    PS.UpdateRequestMeaning(u);
    BR.UpdateMerges(docs, id, PS.UpdateRequest(u).value, None);
  }

  /**
   * A stored document that projects to `{}`: the flat app reports it missing
   * (404), the prototype returns the empty document.
   */
  lemma EmptyDocumentAcrossRevisions(docs: map<Oid, Document>, id: string)
    requires IsValidObjectId(id) && Parse(id).value in docs && docs[Parse(id).value] == map[]
    ensures AD.GetByIdOutcome(docs, id, None) == Ok(None)
    ensures AA.ReadResponse(L.ProductKind, docs, id, None) == Response(404, Detail("Product not found"))
    ensures PD.GetProductOutcome(docs, id, None) == Ok(Some(map[]))
  {
    AD.GetByIdMeaning(docs, id);
  }
}
