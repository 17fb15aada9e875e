/** Documents as the handlers see them: dictionaries from field names to
    BSON-like values, and the transforms the handlers apply to them. */
module Documents {
  import opened Wrappers
  import opened ObjectIds

  /** A field value. `VTime` is an already-parsed datetime (seconds). */
  datatype Value =
    | VNull
    | VBool(b: bool)
    | VInt(i: int)
    | VReal(r: real)
    | VStr(s: string)
    | VList(items: seq<Value>)
    | VOid(oid: Oid)
    | VTime(t: int)

  type Doc = map<string, Value>

  const ID_FIELD := "_id"
  const PUBLIC_ID_FIELD := "id"

  /** Python truthiness of a value. */
  predicate Truthy(v: Value)
    ensures !Truthy(v) <==> v in {VNull, VBool(false), VInt(0), VReal(0.0), VStr(""), VList([])}
  {
    match v
    case VNull => false
    case VBool(b) => b
    case VInt(i) => i != 0
    case VReal(r) => r != 0.0
    case VStr(s) => s != ""
    case VList(items) => items != []
    case VOid(_) => true
    case VTime(_) => true
  }

  /** `doc.get(key, default)`. */
  function Get(d: Doc, key: string, default: Value): (v: Value)
    ensures key in d ==> v == d[key]
    ensures key !in d ==> v == default
  {
    if key in d then d[key] else default
  }

  /** A document as the store keeps it: it carries an ObjectId under `_id`. */
  predicate Stored(d: Doc) {
    ID_FIELD in d && d[ID_FIELD].VOid?
  }

  function IdOf(d: Doc): Oid
    requires Stored(d)
  {
    d[ID_FIELD].oid
  }

  /** Every document is stored and no two share an `_id`. */
  predicate WellFormed(docs: seq<Doc>) {
    && (forall i :: 0 <= i < |docs| ==> Stored(docs[i]))
    && (forall i, j :: 0 <= i < j < |docs| ==> IdOf(docs[i]) != IdOf(docs[j]))
  }

  /** Exact-match filtering: every field of the filter is present in the
      document with an equal value. */
  predicate Matches(d: Doc, filter: Doc)

  {
    forall k :: k in filter ==> k in d && d[k] == filter[k]
  }

  /** Matching a filter means the filter adds nothing the document does not
      already hold: overriding the document with it leaves it unchanged. */
  lemma MatchesAsOverride(d: Doc, filter: Doc)
    ensures Matches(d, filter) <==> d + filter == d
  {
    if d + filter == d {
      forall k | k in filter ensures k in d && d[k] == filter[k] {
        assert (d + filter)[k] == filter[k];
      }
    }
  }

  /** The documents of a collection that match a filter, in collection order. */
  function FilterDocs(docs: seq<Doc>, filter: Doc): (r: seq<Doc>)
    ensures |r| <= |docs|
  {
    if docs == [] then []
    else
      var last := docs[|docs| - 1];
      FilterDocs(docs[..|docs| - 1], filter) + (if Matches(last, filter) then [last] else [])
  }

  /** Listing with a filter yields exactly the matching documents. */
  lemma {:induction false} FilterDocsMembers(docs: seq<Doc>, filter: Doc, d: Doc)
    ensures d in FilterDocs(docs, filter) <==> d in docs && Matches(d, filter)
  {
    if docs != [] {
      var init := docs[..|docs| - 1];
      FilterDocsMembers(init, filter, d);
      assert docs == init + [docs[|docs| - 1]];
    }
  }

  /** Listing with the empty filter yields the whole collection. */
  lemma {:induction false} FilterDocsEmpty(docs: seq<Doc>)
    ensures FilterDocs(docs, map[]) == docs
  {
    if docs != [] {
      var init := docs[..|docs| - 1];
      FilterDocsEmpty(init);
      assert docs == init + [docs[|docs| - 1]];
    }
  }

  /** The filter built by the `event_id`-filtered list handlers: `{event_id: x}`
      when the query parameter is given and non-empty, `{}` otherwise. */
  function EventFilter(eventId: Option<string>): (f: Doc)
    ensures "event_id" in f <==> eventId.Some? && eventId.value != ""
    ensures "event_id" in f ==> f["event_id"] == VStr(eventId.value)
    ensures forall k :: k in f ==> k == "event_id"
  {
    if eventId.Some? && eventId.value != "" then map["event_id" := VStr(eventId.value)] else map[]
  }

  /** Filtering with `EventFilter(x)` keeps exactly the documents whose
      `event_id` is `x`, or every document when `x` is absent or empty. */
  lemma EventFilterSelects(docs: seq<Doc>, eventId: Option<string>, d: Doc)
    ensures d in FilterDocs(docs, EventFilter(eventId)) <==>
      d in docs && (eventId.Some? && eventId.value != "" ==> "event_id" in d && d["event_id"] == VStr(eventId.value))
  {
    FilterDocsMembers(docs, EventFilter(eventId), d);
  }

  /** `serialize_doc` on the dictionary's contents: an ObjectId `_id` is
      replaced by its string form under `id`; anything else is left alone. */
  function Serialized(d: Doc): (r: Doc)
    ensures d == map[] ==> r == map[]
    ensures Stored(d) ==>
      && r.Keys == d.Keys - {ID_FIELD} + {PUBLIC_ID_FIELD}
      && r[PUBLIC_ID_FIELD] == VStr(OidString(IdOf(d)))
      && forall k :: k in d && k != ID_FIELD && k != PUBLIC_ID_FIELD ==> r[k] == d[k]
    ensures !Stored(d) ==> r == d
  {
    if d == map[] then d
    else if Stored(d) then (d - {ID_FIELD})[PUBLIC_ID_FIELD := VStr(OidString(IdOf(d)))]
    else d
  }

  /** A serialized document has no ObjectId under `_id`, so serializing twice
      is serializing once. */
  lemma SerializedIdempotent(d: Doc)
    ensures !Stored(Serialized(d))
    ensures Serialized(Serialized(d)) == Serialized(d)
  {
  }

  /** The `id` of a serialized stored document parses back into its `_id`, so
      it can be used for a later lookup. */
  lemma SerializedIdRoundTrip(d: Doc)
    requires Stored(d)
    ensures ParseOid(Serialized(d)[PUBLIC_ID_FIELD].s) == Some(IdOf(d))
  {
    ParseOidString(IdOf(d));
  }

  /** A Python `dict` object: it has identity, and can be changed in place. */
  class Document {
    var fields: Doc

    constructor (fields: Doc)
      ensures this.fields == fields
    {
      this.fields := fields;
    }

    /** `d[key] = v` */
    method Set(key: string, v: Value)
      modifies this
      ensures fields == old(fields)[key := v]
    {
      fields := fields[key := v];
    }

    /** `d.pop(key, None)` and `del d[key]` (on a present key) */
    method Pop(key: string)
      modifies this
      ensures fields == old(fields) - {key}
    {
      fields := fields - {key};
    }
  }

  /** `serialize_doc`: an empty dictionary is returned as it is (the same
      object); otherwise the result is a new dictionary, and the argument is
      never modified. */
  method SerializeDoc(doc: Document) returns (r: Document)
    ensures unchanged(doc)
    ensures doc.fields == map[] ==> r == doc
    ensures doc.fields != map[] ==> fresh(r)
    ensures r.fields == Serialized(doc.fields)
  {
    if doc.fields == map[] {
      return doc;
    }
    r := new Document(doc.fields);
    var id := Get(r.fields, ID_FIELD, VNull);
    if id.VOid? {
      r.Set(PUBLIC_ID_FIELD, VStr(OidString(id.oid)));
      r.Pop(ID_FIELD);
    }
  }
}
