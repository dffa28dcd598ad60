/**
 * An in-memory stand-in for one MongoDB collection, with the driver calls the
 * handlers use: find, find_one, insert_one, update_one with `$set`, and
 * delete_one, each by `_id`. A store fault (a raised driver exception) is an
 * explicit input: `fault == Some(text)` makes the call raise with that text
 * and change nothing.
 */
module Store {
  import opened Wrappers
  import opened ObjectIds
  import opened Documents

  datatype UpdateResult = UpdateResult(matchedCount: nat, modifiedCount: nat)

  datatype DeleteResult = DeleteResult(deletedCount: nat)

  /** Text of the exception raised when an inserted `_id` is already taken. */
  const DuplicateKey: string := "E11000 duplicate key error"

  /** The `$set` operator: the given keys take the new values, all other keys are kept. */
  function SetFields(doc: Document, fields: Document): (r: Document)
    ensures r.Keys == doc.Keys + fields.Keys
    ensures forall k :: k in fields ==> r[k] == fields[k]
    ensures forall k :: k in doc && k !in fields ==> r[k] == doc[k]
  {
    doc + fields
  }

  /** Every key of `fields` already holds that value in `doc`. */
  predicate Agrees(doc: Document, fields: Document) {
    forall k :: k in fields ==> k in doc && doc[k] == fields[k]
  }

  /** `$set` changes nothing exactly when the document already agrees with it. */
  lemma SetFieldsNoOp(doc: Document, fields: Document)
    ensures SetFields(doc, fields) == doc <==> Agrees(doc, fields)
  {
    if Agrees(doc, fields) {
      assert SetFields(doc, fields).Keys == doc.Keys;
    }
  }

  /** The counts `update_one({"_id": id}, {"$set": fields})` reports. */
  function UpdateCounts(docs: map<Oid, Document>, id: Oid, fields: Document): (r: UpdateResult)
  {
    if id !in docs then UpdateResult(0, 0)
    else UpdateResult(1, if SetFields(docs[id], fields) == docs[id] then 0 else 1)
  }

  /** The collection after `update_one({"_id": id}, {"$set": fields})`. */
  function AfterUpdate(docs: map<Oid, Document>, id: Oid, fields: Document): (r: map<Oid, Document>)
  {
    if id in docs then docs[id := SetFields(docs[id], fields)] else docs
  }

  lemma UpdateCountsMeaning(docs: map<Oid, Document>, id: Oid, fields: Document)
    ensures UpdateCounts(docs, id, fields).matchedCount == (if id in docs then 1 else 0)
    ensures UpdateCounts(docs, id, fields).modifiedCount <= UpdateCounts(docs, id, fields).matchedCount
    ensures UpdateCounts(docs, id, fields).modifiedCount == 0 <==> id !in docs || Agrees(docs[id], fields)
    ensures UpdateCounts(docs, id, fields).modifiedCount == 0 <==> AfterUpdate(docs, id, fields) == docs
  {
    if id in docs {
      SetFieldsNoOp(docs[id], fields);
      if AfterUpdate(docs, id, fields) == docs {
        assert AfterUpdate(docs, id, fields)[id] == SetFields(docs[id], fields);
      }
    }
  }

  /** `$set` on one document: its set keys change, its other keys and every other document stay. */
  lemma AfterUpdateFrame(docs: map<Oid, Document>, id: Oid, fields: Document)
    ensures AfterUpdate(docs, id, fields).Keys == docs.Keys
    ensures forall other :: other in docs && other != id ==> AfterUpdate(docs, id, fields)[other] == docs[other]
    ensures id in docs ==> AfterUpdate(docs, id, fields)[id] == SetFields(docs[id], fields)
  {
  }

  /** The filter `{"category": name}`; no filter matches every document. */
  predicate Matches(doc: Document, category: Option<string>) {
    category.None? || ("category" in doc && doc["category"] == Str(category.value))
  }

  /** What `find(filter, {"_id": 0})` lists: the matching documents in collection order. */
  function Select(docs: map<Oid, Document>, order: seq<Oid>, category: Option<string>): (r: seq<Document>)
    requires forall i :: 0 <= i < |order| ==> order[i] in docs
    ensures forall d :: d in r ==> Matches(d, category)
    ensures forall d :: d in r ==> exists i :: 0 <= i < |order| && docs[order[i]] == d
    ensures forall i :: 0 <= i < |order| && Matches(docs[order[i]], category) ==> docs[order[i]] in r
    decreases |order|
  {
    if order == [] then []
    else
      var rest := Select(docs, order[..|order| - 1], category);
      var d := docs[order[|order| - 1]];
      if Matches(d, category) then rest + [d] else rest
  }

  /** The positions of `order` whose document matches the filter, in increasing order. */
  function MatchingPositions(docs: map<Oid, Document>, order: seq<Oid>, category: Option<string>): (ps: seq<nat>)
    requires forall i :: 0 <= i < |order| ==> order[i] in docs
    ensures forall k :: 0 <= k < |ps| ==> ps[k] < |order|
    decreases |order|
  {
    if order == [] then []
    else
      MatchingPositions(docs, order[..|order| - 1], category)
      + (if Matches(docs[order[|order| - 1]], category) then [|order| - 1] else [])
  }

  /** The matching positions are increasing and are exactly the positions whose document matches. */
  lemma {:induction false} MatchingPositionsMeaning(docs: map<Oid, Document>, order: seq<Oid>, category: Option<string>)
    requires forall i :: 0 <= i < |order| ==> order[i] in docs
    ensures var ps := MatchingPositions(docs, order, category);
      && (forall k, l :: 0 <= k < l < |ps| ==> ps[k] < ps[l])
      && (forall i :: 0 <= i < |order| ==> (i in ps <==> Matches(docs[order[i]], category)))
    decreases |order|
  {
    if order != [] {
      var n := |order| - 1;
      var prefix := order[..n];
      MatchingPositionsMeaning(docs, prefix, category);
      var ps0 := MatchingPositions(docs, prefix, category);
      var ps := MatchingPositions(docs, order, category);
      assert ps == ps0 + (if Matches(docs[order[n]], category) then [n] else []);
      forall i | 0 <= i < n
        ensures i in ps <==> Matches(docs[order[i]], category)
      {
        assert prefix[i] == order[i];
      }
    }
  }

  /**
   * A find lists one entry per matching position of the collection order, in
   * that order: the k-th listed document is the one stored at the k-th
   * matching position.
   */
  lemma {:induction false} SelectInOrder(docs: map<Oid, Document>, order: seq<Oid>, category: Option<string>)
    requires forall i :: 0 <= i < |order| ==> order[i] in docs
    ensures var ps := MatchingPositions(docs, order, category);
            var r := Select(docs, order, category);
      && |r| == |ps|
      && (forall k :: 0 <= k < |ps| ==> r[k] == docs[order[ps[k]]])
    decreases |order|
  {
    if order != [] {
      var n := |order| - 1;
      var prefix := order[..n];
      SelectInOrder(docs, prefix, category);
      var ps0, r0 := MatchingPositions(docs, prefix, category), Select(docs, prefix, category);
      var ps, r := MatchingPositions(docs, order, category), Select(docs, order, category);
      assert ps == ps0 + (if Matches(docs[order[n]], category) then [n] else []);
      assert r == r0 + (if Matches(docs[order[n]], category) then [docs[order[n]]] else []);
      forall k | 0 <= k < |ps0|
        ensures r[k] == docs[order[ps[k]]]
      {
        assert r[k] == r0[k] && ps[k] == ps0[k];
        assert prefix[ps0[k]] == order[ps0[k]];
      }
    }
  }

  /** Without a filter, every document is listed, once per position, in collection order. */
  lemma {:induction false} SelectAll(docs: map<Oid, Document>, order: seq<Oid>)
    requires forall i :: 0 <= i < |order| ==> order[i] in docs
    ensures |Select(docs, order, None)| == |order|
    ensures forall i :: 0 <= i < |order| ==> Select(docs, order, None)[i] == docs[order[i]]
    decreases |order|
  {
    if order != [] {
      SelectAll(docs, order[..|order| - 1]);
    }
  }

  /** `order` with every occurrence of `id` taken out. */
  function Without(order: seq<Oid>, id: Oid): (r: seq<Oid>)
    ensures forall x :: x in r <==> x in order && x != id
    ensures Distinct(order) ==> Distinct(r)
  {
    if order == [] then []
    else if order[0] == id then Without(order[1..], id)
    else
      var rest := Without(order[1..], id);
      assert Distinct(order) ==> order[0] !in order[1..] && Distinct(order[1..]);
      [order[0]] + rest
  }

  predicate Distinct(order: seq<Oid>) {
    forall i, j :: 0 <= i < j < |order| ==> order[i] != order[j]
  }

  class Collection {
    var docs: map<Oid, Document>
    /** The natural order of the collection: the order in which documents were inserted. */
    var order: seq<Oid>

    ghost predicate Valid()
      reads this
    {
      && (forall id :: id in docs <==> id in order)
      && Distinct(order)
      && (forall id :: id in docs ==> IdKey !in docs[id])
    }

    constructor ()
      ensures Valid()
      ensures docs == map[] && order == []
    {
      docs := map[];
      order := [];
    }

    /** `find_one({"_id": id})`, the stored document without its `_id`. */
    method FindOne(id: Oid, fault: Option<string>) returns (r: Result<Option<Document>, string>)
      requires Valid()
      ensures fault.Some? ==> r == Err(fault.value)
      ensures fault.None? && id in docs ==> r == Ok(Some(docs[id]))
      ensures fault.None? && id !in docs ==> r == Ok(None)
    {
      if fault.Some? {
        return Err(fault.value);
      }
      if id in docs {
        r := Ok(Some(docs[id]));
      } else {
        r := Ok(None);
      }
    }

    /** `find(filter, {"_id": 0})`: the matching documents in collection order, without `_id`. */
    method Find(category: Option<string>, fault: Option<string>) returns (r: Result<seq<Document>, string>)
      requires Valid()
      ensures fault.Some? ==> r == Err(fault.value)
      ensures fault.None? ==> r == Ok(Select(docs, order, category))
    {
      if fault.Some? {
        return Err(fault.value);
      }
      var found: seq<Document> := [];
      var i := 0;
      while i < |order|
        invariant 0 <= i <= |order|
        invariant found == Select(docs, order[..i], category)
      {
        assert order[..i + 1][..i] == order[..i];
        var d := docs[order[i]];
        if Matches(d, category) {
          found := found + [d];
        }
        i := i + 1;
      }
      assert order[..|order|] == order;
      r := Ok(found);
    }

    /** `insert_one(doc)` with the driver-assigned id `newId`. */
    method InsertOne(doc: Document, newId: Oid, fault: Option<string>) returns (r: Result<Oid, string>)
      requires Valid() && IdKey !in doc
      modifies this
      ensures Valid()
      ensures fault.Some? ==> r == Err(fault.value) && docs == old(docs) && order == old(order)
      ensures fault.None? && newId in old(docs) ==>
                r == Err(DuplicateKey) && docs == old(docs) && order == old(order)
      ensures fault.None? && newId !in old(docs) ==>
                r == Ok(newId) && docs == old(docs)[newId := doc] && order == old(order) + [newId]
    {
      if fault.Some? {
        return Err(fault.value);
      }
      if newId in docs {
        return Err(DuplicateKey);
      }
      docs := docs[newId := doc];
      order := order + [newId];
      r := Ok(newId);
    }

    /** `update_one({"_id": id}, {"$set": fields})`. */
    method UpdateOne(id: Oid, fields: Document, fault: Option<string>) returns (r: Result<UpdateResult, string>)
      requires Valid() && IdKey !in fields
      modifies this
      ensures Valid() && order == old(order)
      ensures fault.Some? ==> r == Err(fault.value) && docs == old(docs)
      ensures fault.None? ==>
                r == Ok(UpdateCounts(old(docs), id, fields)) && docs == AfterUpdate(old(docs), id, fields)
    {
      if fault.Some? {
        return Err(fault.value);
      }
      r := Ok(UpdateCounts(docs, id, fields));
      if id in docs {
        docs := docs[id := SetFields(docs[id], fields)];
      }
    }

    /** `delete_one({"_id": id})`. */
    method DeleteOne(id: Oid, fault: Option<string>) returns (r: Result<DeleteResult, string>)
      requires Valid()
      modifies this
      ensures Valid()
      ensures fault.Some? ==> r == Err(fault.value) && docs == old(docs) && order == old(order)
      ensures fault.None? ==>
                r == Ok(DeleteResult(if id in old(docs) then 1 else 0))
                && docs == old(docs) - {id} && order == Without(old(order), id)
    {
      if fault.Some? {
        return Err(fault.value);
      }
      r := Ok(DeleteResult(if id in docs then 1 else 0));
      docs := docs - {id};
      order := Without(order, id);
    }
  }
}
