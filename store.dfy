/** The document store: named collections of documents, each document
    carrying a store-assigned ObjectId that is unique in its collection. */
module Store {
  import opened Wrappers
  import opened Errors
  import opened ObjectIds
  import opened Documents

  /** The document with a given `_id` in a well-formed collection. */
  function LookupById(docs: seq<Doc>, o: Oid): (r: Option<Doc>)
    requires WellFormed(docs)
    ensures r.Some? ==> r.value in docs && IdOf(r.value) == o
    ensures r.None? ==> forall d :: d in docs ==> IdOf(d) != o
  {
    if docs == [] then None
    else if IdOf(docs[0]) == o then Some(docs[0])
    else LookupById(docs[1..], o)
  }

  /** `{"_id": o}`: it matches exactly the documents whose `_id` is `o`. */
  function IdFilter(o: Oid): (f: Doc)
    ensures forall d :: Matches(d, f) <==> ID_FIELD in d && d[ID_FIELD] == VOid(o)
  {
    map[ID_FIELD := VOid(o)]
  }

  /** Ids are unique, so a document matching an `_id` filter is the one
      `LookupById` finds, and none matches exactly when it finds none. */
  lemma {:induction false} LookupByIdMatches(docs: seq<Doc>, o: Oid, d: Doc)
    requires WellFormed(docs)
    ensures d in docs && Matches(d, IdFilter(o)) <==> LookupById(docs, o) == Some(d)
  {
    if docs != [] {
      assert WellFormed(docs[1..]) by {
        forall i, j | 0 <= i < j < |docs| - 1 ensures IdOf(docs[1..][i]) != IdOf(docs[1..][j]) {
          assert docs[1..][i] == docs[i + 1] && docs[1..][j] == docs[j + 1];
        }
      }
      if IdOf(docs[0]) != o {
        LookupByIdMatches(docs[1..], o, d);
      } else if d in docs && Matches(d, IdFilter(o)) {
        var k :| 0 <= k < |docs| && docs[k] == d;
        assert k == 0;
      }
    }
  }

  /** Whether some document of the collection already uses an ObjectId. */
  predicate IdInUse(docs: seq<Doc>, o: Oid)
    requires WellFormed(docs)
  {
    exists i :: 0 <= i < |docs| && IdOf(docs[i]) == o
  }

  /** Appending a document with an unused id keeps a collection well formed. */
  lemma AppendWellFormed(docs: seq<Doc>, d: Doc)
    requires WellFormed(docs) && Stored(d) && !IdInUse(docs, IdOf(d))
    ensures WellFormed(docs + [d])
  {
    var s := docs + [d];
    forall i, j | 0 <= i < j < |s| ensures IdOf(s[i]) != IdOf(s[j]) {
      if j == |docs| {
        assert s[i] == docs[i];
      }
    }
  }

  /** The document `insert_one` stores: the payload with the new `_id`. */
  function WithId(doc: Doc, o: Oid): (r: Doc)
    ensures Stored(r) && IdOf(r) == o
    ensures forall k :: k in doc && k != ID_FIELD ==> k in r && r[k] == doc[k]
    ensures r.Keys == doc.Keys + {ID_FIELD}
  {
    doc[ID_FIELD := VOid(o)]
  }

  class DocumentStore {
    var collections: map<string, seq<Doc>>

    ghost predicate Valid()
      reads this
    {
      forall name :: name in collections ==> WellFormed(collections[name])
    }

    /** The documents of a collection; a collection never written to is empty. */
    function Collection(name: string): (docs: seq<Doc>)
      reads this
      ensures Valid() ==> WellFormed(docs)
      ensures name !in collections ==> docs == []
    {
      if name in collections then collections[name] else []
    }

    constructor ()
      ensures Valid()
      ensures collections == map[]
    {
      collections := map[];
    }

    /** `find_one(filter)`: some matching document, or `None` when no document
        matches. Which of several matches is found is not specified. */
    method FindOne(name: string, filter: Doc) returns (r: Option<Doc>)
      ensures r.Some? ==> r.value in Collection(name) && Matches(r.value, filter)
      ensures r.None? ==> forall d :: d in Collection(name) ==> !Matches(d, filter)
    {
      var docs := Collection(name);
      var i := 0;
      while i < |docs|
        invariant 0 <= i <= |docs|
        invariant forall j :: 0 <= j < i ==> !Matches(docs[j], filter)
      {
        if Matches(docs[i], filter) {
          return Some(docs[i]);
        }
        i := i + 1;
      }
      return None;
    }

    /** `find(filter)`: the matching documents, in an order that is not
        specified. */
    method GetDocuments(name: string, filter: Doc) returns (r: seq<Doc>)
      ensures multiset(r) == multiset(FilterDocs(Collection(name), filter))
    {
      var docs := Collection(name);
      r := [];
      var i := 0;
      while i < |docs|
        invariant 0 <= i <= |docs|
        invariant r == FilterDocs(docs[..i], filter)
      {
        assert docs[..i + 1][..i] == docs[..i];
        if Matches(docs[i], filter) {
          r := r + [docs[i]];
        }
        i := i + 1;
      }
      assert docs[..i] == docs;
    }

    /** `insert_one(doc)` with `generated` as the ObjectId the driver made up
        for it. The unique index on `_id` refuses an id already in use. */
    method InsertOne(name: string, doc: Doc, generated: Oid) returns (r: Result<Oid, Failure>)
      requires Valid()
      requires ID_FIELD !in doc
      modifies this
      ensures Valid()
      ensures IdInUse(old(Collection(name)), generated) ==>
        r == Failure(Crash("DuplicateKeyError")) && collections == old(collections)
      ensures !IdInUse(old(Collection(name)), generated) ==>
        r == Success(generated) &&
        collections == old(collections)[name := old(Collection(name)) + [WithId(doc, generated)]]
    {
      var docs := Collection(name);
      var i := 0;
      while i < |docs|
        invariant 0 <= i <= |docs|
        invariant forall j :: 0 <= j < i ==> IdOf(docs[j]) != generated
      {
        if IdOf(docs[i]) == generated {
          return Failure(Crash("DuplicateKeyError"));
        }
        i := i + 1;
      }
      AppendWellFormed(docs, WithId(doc, generated));
      collections := collections[name := docs + [WithId(doc, generated)]];
      r := Success(generated);
    }
  }
}
