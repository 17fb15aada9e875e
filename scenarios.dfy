/** Clients of the handlers that follow two end-to-end scenarios, using only
    the handlers' contracts. */
module Scenarios {
  import opened Wrappers
  import opened ObjectIds
  import opened Documents
  import opened Schemas
  import opened Store
  import opened Crypto
  import opened Auth
  import opened Handlers

  /** Register Alice, log in with her password, and ask who is logged in:
      the answer is Alice's record, with her id and without a password. */
  method RegisterLoginMe(s: PasswordScheme, c: TokenCodec, salt: Salt, o: Oid, now: int)
    returns (profile: Doc)
    requires SoundScheme(s) && SoundCodec(c)
    ensures profile == map["name" := VStr("Alice"), "email" := VStr("a@x.com"), "phone" := VNull,
                           "role" := VStr(DEFAULT_ROLE), "is_active" := VBool(true),
                           PUBLIC_ID_FIELD := VStr(OidString(o))]
  {
    var db := new DocumentStore();
    var p := RegisterPayload("Alice", "a@x.com", None, DEFAULT_ROLE, "pw1");
    assert db.Collection(USERS) == [];
    assert !EmailRegistered([], p.email);
    assert !IdInUse([], o);
    var id := Register(db, s, p, salt, o);
    assert id == Success(OidString(o));
    var alice := WithId(NewUserDoc(s, p, salt), o);
    assert db.Collection(USERS) == [alice];
    assert EmailRegistered([alice], "a@x.com") by {
      assert alice in [alice] && Matches(alice, EmailFilter("a@x.com"));
    }
    var token := Login(db, s, c, "a@x.com", "pw1", now);
    RegisteredUserLogsIn(s, c, p, salt, o, now);
    assert token.Success?;
    assert token == LoginOutcome(s, c, Some(alice), "pw1", now);
    assert RoleOf(alice) == VStr(DEFAULT_ROLE);
    IssuedTokenResolves(s, c, [alice], alice, "pw1", now, now);
    var me := AuthMe(db, c, token.value.accessToken, now);
    assert me.Success?;
    RegisteredUserAsServed(s, p, salt, o);
    assert me.value.fields == Serialized(alice) - {"password"};
    profile := me.value.fields;
  }

  /** Create an event, then a task that refers to it by the id the event
      handler returned. */
  method EventWithTask(eventOid: Oid, taskOid: Oid) returns (db: DocumentStore, t: Task)
    ensures fresh(db) && db.Valid()
    ensures t.eventId == OidString(eventOid) && t.eventId != "" && t.taskName == "Setup"
    ensures db.Collection("task") == [WithId(DumpTask(t), taskOid)]
  {
    db := new DocumentStore();
    var eventId := AddEvent(db, eventOid);
    t := Task(eventId, "Setup", None, "Pending");
    assert |t.eventId| == OID_HEX_DIGITS;
    AddOnlyTask(db, t, taskOid);
  }

  /** Creating an event in an empty store answers the new event's id, and
      leaves the task collection empty. */
  method AddEvent(db: DocumentStore, o: Oid) returns (eventId: string)
    requires db.Valid() && db.collections == map[]
    modifies db
    ensures db.Valid() && eventId == OidString(o)
    ensures db.Collection("task") == []
  {
    var e := Event("Beach Cleanup", "2025-05-20", "Bay", None, Some(0.0), "upcoming", None);
    CollectionNameOf(EventKind);
    CollectionNameOf(TaskKind);
    assert !IdInUse(db.Collection("event"), o);
    var r := CreateRecord(db, EventRecord(e), o);
    eventId := r.value;
  }

  /** Creating a task when there is none gives a task collection holding
      just that task, under the generated id. */
  method AddOnlyTask(db: DocumentStore, t: Task, o: Oid)
    requires db.Valid() && db.Collection("task") == []
    modifies db
    ensures db.Valid() && db.Collection("task") == [WithId(DumpTask(t), o)]
  {
    CollectionNameOf(TaskKind);
    assert !IdInUse(db.Collection("task"), o);
    assert TaskRecord(t).KindOf() == TaskKind && Dump(TaskRecord(t)) == DumpTask(t);
    var r := CreateRecord(db, TaskRecord(t), o);
  }

  /** Create an event and a task for it; listing the tasks of that event
      gives exactly that task, with its id and its name. */
  method EventTaskListing(eventOid: Oid, taskOid: Oid) returns (listed: seq<Doc>)
    ensures |listed| == 1
    ensures PUBLIC_ID_FIELD in listed[0] && listed[0][PUBLIC_ID_FIELD] == VStr(OidString(taskOid))
    ensures "task_name" in listed[0] && listed[0]["task_name"] == VStr("Setup")
    ensures ID_FIELD !in listed[0]
  {
    var db, t := EventWithTask(eventOid, taskOid);
    listed := ListTasksOf(db, t, taskOid);
  }

  /** The tasks of a task's event, in a store whose task collection holds
      only that task: the task itself, as served. */
  method ListTasksOf(db: DocumentStore, t: Task, o: Oid) returns (listed: seq<Doc>)
    requires db.Valid() && t.eventId != ""
    requires db.Collection("task") == [WithId(DumpTask(t), o)]
    ensures |listed| == 1
    ensures PUBLIC_ID_FIELD in listed[0] && listed[0][PUBLIC_ID_FIELD] == VStr(OidString(o))
    ensures "task_name" in listed[0] && listed[0]["task_name"] == VStr(t.taskName)
    ensures ID_FIELD !in listed[0]
  {
    CollectionNameOf(TaskKind);
    var r, fetched := ListByEvent(db, TaskKind, Some(t.eventId));
    ListedTaskAsServed(t, o, db.Collection(CollectionName(TaskKind)), r.value, fetched);
    listed := r.value;
  }

  /** Listing, filtered on a task's own `event_id`, a collection that holds
      only that task gives the task as `serialize_doc` renders it: its id
      string under `id` and its own fields. */
  lemma ListedTaskAsServed(t: Task, o: Oid, tasks: seq<Doc>, listed: seq<Doc>, fetched: seq<Doc>)
    requires t.eventId != ""
    requires tasks == [WithId(DumpTask(t), o)]
    requires multiset(fetched) == multiset(FilterDocs(tasks, EventFilter(Some(t.eventId))))
    requires |listed| == |fetched| && forall i :: 0 <= i < |fetched| ==> listed[i] == Serialized(fetched[i])
    ensures |listed| == 1
    ensures PUBLIC_ID_FIELD in listed[0] && listed[0][PUBLIC_ID_FIELD] == VStr(OidString(o))
    ensures "task_name" in listed[0] && listed[0]["task_name"] == VStr(t.taskName)
    ensures ID_FIELD !in listed[0]
  {
    OnlyMatchListed(tasks[0], t.eventId, fetched);
    assert listed[0] == Serialized(fetched[0]);
    SerializedWithFreshId(DumpTask(t), o);
  }

  /** A collection holding one document with a given `event_id` lists as that
      document when filtered on it. */
  lemma OnlyMatchListed(d: Doc, eventId: string, fetched: seq<Doc>)
    requires "event_id" in d && d["event_id"] == VStr(eventId) && eventId != ""
    requires multiset(fetched) == multiset(FilterDocs([d], EventFilter(Some(eventId))))
    ensures fetched == [d]
  {
    assert [d][..0] == [];
    assert FilterDocs([d], EventFilter(Some(eventId))) == [d];
    assert |fetched| == 1;
    assert fetched[0] in multiset(fetched);
  }
}
