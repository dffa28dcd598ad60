/**
 * The documents the store holds and the dicts the handlers build: JSON-like
 * values, with a document being a map from key to value.
 */
module Documents {
  import opened Wrappers

  datatype Value =
    | Null
    | Str(s: string)
    | Num(n: real)
    | List(items: seq<Value>)
    | Obj(fields: map<string, Value>)

  type Document = map<string, Value>

  /** The key under which the store keeps a document's id. */
  const IdKey: string := "_id"

  /** Python truthiness of a dict: only the empty dict is false. */
  predicate Truthy(d: Document) {
    d != map[]
  }

  function StrList(tags: seq<string>): (v: seq<Value>)
    ensures |v| == |tags|
    ensures forall i :: 0 <= i < |tags| ==> v[i] == Str(tags[i])
  {
    seq(|tags|, i requires 0 <= i < |tags| => Str(tags[i]))
  }

  /** A `List[str]` field reads back exactly when every item is a string, giving those strings in order. */
  function StrItems(items: seq<Value>): (r: Option<seq<string>>)
    ensures r.Some? <==> forall i :: 0 <= i < |items| ==> items[i].Str?
    ensures r.Some? ==> |r.value| == |items| && forall i :: 0 <= i < |items| ==> r.value[i] == items[i].s
  {
    if items == [] then Some([])
    else if !items[0].Str? then None
    else
      match StrItems(items[1..])
      case None => None
      case Some(rest) => Some([items[0].s] + rest)
  }

  /** Strings written as a list read back as themselves. */
  lemma {:induction false} StrItemsOfStrList(tags: seq<string>)
    ensures StrItems(StrList(tags)) == Some(tags)
  {
    if tags != [] {
      assert StrList(tags)[1..] == StrList(tags[1..]);
      StrItemsOfStrList(tags[1..]);
      assert [tags[0]] + tags[1..] == tags;
    }
  }

  /** Items that read as strings are those strings written as a list. */
  lemma StrListOfStrItems(items: seq<Value>)
    requires StrItems(items).Some?
    ensures StrList(StrItems(items).value) == items
  {
    var t := StrItems(items).value;
    assert forall i :: 0 <= i < |items| ==> StrList(t)[i] == items[i];
  }
}
