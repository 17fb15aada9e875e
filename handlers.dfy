/** The `/users` handlers and the create/list handlers of the other six
    collections. */
module Handlers {
  import opened Wrappers
  import opened Errors
  import opened ObjectIds
  import opened Documents
  import opened Schemas
  import opened Store
  import opened Crypto
  import opened Auth

  /** What `get_documents` and `create_document` raise without a database. */
  const NO_DATABASE := Crash("Database not available")

  /** The user document `create_user` inserts: the record as given, with a
      non-empty password replaced by its digest and an empty one by `None`. */
  function CreatedUserDoc(s: PasswordScheme, u: User, salt: Salt): (d: Doc)
    ensures ID_FIELD !in d
    ensures d.Keys == DumpUser(u).Keys
    ensures d["password"] == if u.password != "" then VStr(s.hash(u.password, salt)) else VNull
    ensures forall k :: k in d && k != "password" ==> d[k] == DumpUser(u)[k]
  {
    DumpUser(u)["password" := if u.password != "" then VStr(s.hash(u.password, salt)) else VNull]
  }

  /** `create_user`: inserts the record without checking for a duplicate
      email, keeping the `is_active` it was given. */
  method CreateUser(db: DocumentStore?, s: PasswordScheme, user: User, salt: Salt, generated: Oid)
    returns (r: Result<string, Failure>)
    requires db != null ==> db.Valid()
    modifies db
    ensures db == null ==> r == Failure(Crash("TypeError"))
    ensures db != null ==> db.Valid()
    ensures db != null && IdInUse(old(db.Collection(USERS)), generated) ==>
      r == Failure(Crash("DuplicateKeyError")) && db.collections == old(db.collections)
    ensures db != null && !IdInUse(old(db.Collection(USERS)), generated) ==>
      && r == Success(OidString(generated))
      && db.collections == old(db.collections)[USERS := old(db.Collection(USERS)) + [WithId(CreatedUserDoc(s, user, salt), generated)]]
  {
    if db == null {
      return Failure(Crash("TypeError"));
    }
    var userDict := CreatedUserDoc(s, user, salt);
    var inserted := db.InsertOne(USERS, userDict, generated);
    if inserted.Failure? {
      return Failure(inserted.error);
    }
    r := Success(OidString(inserted.value));
  }

  /** A user created with an empty password has `None` stored and can never
      log in, whatever password is offered. */
  lemma EmptyPasswordNeverLogsIn(
    s: PasswordScheme, c: TokenCodec, u: User, salt: Salt, o: Oid, password: string, now: int)
    requires u.password == ""
    ensures LoginOutcome(s, c, Some(WithId(CreatedUserDoc(s, u, salt), o)), password, now) == Failure(INVALID_CREDENTIALS)
  {
    assert PasswordOf(WithId(CreatedUserDoc(s, u, salt), o)) == VNull;
  }

  /** A user created with a password logs in with it when active, and is
      refused with 403, after its password verified, when not. */
  lemma CreatedUserLogin(s: PasswordScheme, c: TokenCodec, u: User, salt: Salt, o: Oid, now: int)
    requires SoundScheme(s)
    requires u.password != ""
    ensures var d := WithId(CreatedUserDoc(s, u, salt), o);
      if u.isActive then LoginOutcome(s, c, Some(d), u.password, now).Success?
      else LoginOutcome(s, c, Some(d), u.password, now) == Failure(INACTIVE)
  {
    var d := WithId(CreatedUserDoc(s, u, salt), o);
    assert PasswordOf(d) == VStr(s.hash(u.password, salt));
    assert Get(d, "is_active", VBool(true)) == VBool(u.isActive);
    VerifyOwnHash(s, u.password, salt);
  }

  /** What `list_users` makes of one user document. */
  function SanitizedUser(d: Doc): (r: Doc)
    ensures "password" !in r
    ensures Stored(d) ==> ID_FIELD !in r && PUBLIC_ID_FIELD in r && r[PUBLIC_ID_FIELD] == VStr(OidString(IdOf(d)))
    ensures forall k :: k in d && k != "password" && k != ID_FIELD && k != PUBLIC_ID_FIELD ==> k in r && r[k] == d[k]
  {
    Serialized(d - {"password"})
  }

  lemma MultisetMember(a: seq<Doc>, b: seq<Doc>, x: Doc)
    requires multiset(a) == multiset(b) && x in a
    ensures x in b
  {
    assert x in multiset(a);
  }

  /** `list_users`: every user, without `password` and with `id` for `_id`.
      `fetched` is what the store returned, in the order it returned it. */
  method ListUsers(db: DocumentStore?) returns (r: Result<seq<Doc>, Failure>, ghost fetched: seq<Doc>)
    requires db != null ==> db.Valid()
    ensures db == null ==> r == Failure(NO_DATABASE)
    ensures db != null ==> r.Success? && multiset(fetched) == multiset(db.Collection(USERS))
    ensures r.Success? ==> |r.value| == |fetched|
    ensures r.Success? ==> forall i :: 0 <= i < |fetched| ==> r.value[i] == SanitizedUser(fetched[i])
    ensures r.Success? ==> forall i :: 0 <= i < |r.value| ==> "password" !in r.value[i] && ID_FIELD !in r.value[i]
  {
    if db == null {
      return Failure(NO_DATABASE), [];
    }
    var docs := db.GetDocuments(USERS, map[]);
    FilterDocsEmpty(db.Collection(USERS));
    var sanitized: seq<Doc> := [];
    for i := 0 to |docs|
      invariant |sanitized| == i
      invariant forall j :: 0 <= j < i ==> sanitized[j] == SanitizedUser(docs[j])
      invariant forall j :: 0 <= j < i ==> "password" !in sanitized[j] && ID_FIELD !in sanitized[j]
    {
      MultisetMember(docs, db.Collection(USERS), docs[i]);
      var d := docs[i] - {"password"};
      sanitized := sanitized + [Serialized(d)];
    }
    return Success(sanitized), docs;
  }

  /** The create handlers of the six collections other than `user` (`create_event`,
      `create_volunteer`, `map_event_volunteer`, `create_donation`, `create_task`,
      `mark_attendance`): the validated record goes into its collection. */
  method CreateRecord(db: DocumentStore?, rec: Record, generated: Oid) returns (r: Result<string, Failure>)
    requires !rec.UserRecord?
    requires db != null ==> db.Valid()
    modifies db
    ensures db == null ==> r == Failure(NO_DATABASE)
    ensures db != null ==> db.Valid()
    ensures db != null && IdInUse(old(db.Collection(CollectionName(rec.KindOf()))), generated) ==>
      r == Failure(Crash("DuplicateKeyError")) && db.collections == old(db.collections)
    ensures db != null && !IdInUse(old(db.Collection(CollectionName(rec.KindOf()))), generated) ==>
      && r == Success(OidString(generated))
      && var name := CollectionName(rec.KindOf());
         db.collections == old(db.collections)[name := old(db.Collection(name)) + [WithId(Dump(rec), generated)]]
  {
    if db == null {
      return Failure(NO_DATABASE);
    }
    var name := CollectionName(rec.KindOf());
    var doc := Dump(rec);
    var inserted := db.InsertOne(name, doc, generated);
    if inserted.Failure? {
      return Failure(inserted.error);
    }
    r := Success(OidString(inserted.value));
  }

  /** The list handlers: the matching documents of a collection, each as
      `serialize_doc` renders it. */
  method ListRecords(db: DocumentStore?, name: string, filter: Doc) returns (r: Result<seq<Doc>, Failure>, ghost fetched: seq<Doc>)
    requires db != null ==> db.Valid()
    ensures db == null ==> r == Failure(NO_DATABASE)
    ensures db != null ==> r.Success? && multiset(fetched) == multiset(FilterDocs(db.Collection(name), filter))
    ensures r.Success? ==> |r.value| == |fetched| && forall i :: 0 <= i < |fetched| ==> r.value[i] == Serialized(fetched[i])
  {
    if db == null {
      return Failure(NO_DATABASE), [];
    }
    var docs := db.GetDocuments(name, filter);
    return Success(seq(|docs|, i requires 0 <= i < |docs| => Serialized(docs[i]))), docs;
  }

  /** `list_event_volunteers`, `list_donations`, `list_tasks` and
      `list_attendance`: a list filtered on the optional `event_id` query
      parameter; every document listed has that `event_id` when one is given,
      and every document of the collection that has it is listed. */
  method ListByEvent(db: DocumentStore?, kind: Kind, eventId: Option<string>)
    returns (r: Result<seq<Doc>, Failure>, ghost fetched: seq<Doc>)
    requires db != null ==> db.Valid()
    ensures db == null ==> r == Failure(NO_DATABASE)
    ensures db != null ==> r.Success? && multiset(fetched) == multiset(FilterDocs(db.Collection(CollectionName(kind)), EventFilter(eventId)))
    ensures r.Success? ==> |r.value| == |fetched| && forall i :: 0 <= i < |fetched| ==> r.value[i] == Serialized(fetched[i])
    ensures db != null ==> forall d :: d in fetched <==>
      d in db.Collection(CollectionName(kind)) &&
      (eventId.Some? && eventId.value != "" ==> "event_id" in d && d["event_id"] == VStr(eventId.value))
  {
    var filt := EventFilter(eventId);
    r, fetched := ListRecords(db, CollectionName(kind), filt);
    if db != null {
      forall d ensures d in fetched <==>
        d in db.Collection(CollectionName(kind)) &&
        (eventId.Some? && eventId.value != "" ==> "event_id" in d && d["event_id"] == VStr(eventId.value))
      {
        EventFilterSelects(db.Collection(CollectionName(kind)), eventId, d);
        if d in fetched {
          assert d in multiset(fetched);
        } else {
          assert d !in multiset(fetched);
        }
      }
    }
  }
}
