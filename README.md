# ImpactFlow API — a verified model of its handlers

ImpactFlow is a small volunteer-management web service. It keeps users,
events, volunteers, event–volunteer mappings, donations, tasks and attendance
marks in a MongoDB database, and serves them over HTTP. This project models
the service's core in Dafny:

- the seven record types and what the request validator makes of a field map
  (required fields, defaults, the `ge=0` bounds on `budget` and `amount`);
- the documents the store holds, their ObjectIds and the string form of those
  ids;
- `serialize_doc`, which renames the ObjectId `_id` of a stored document to a
  string `id`;
- registration, login, the bearer-token check of `get_current_user` and
  `/auth/me`;
- `create_user`, `list_users`, and the create and list handlers of the other
  six collections, including the optional `event_id` filter.

Modules follow the program's structure:

| file | module | models |
|---|---|---|
| `wrappers.dfy` | `Wrappers`, `Errors` | `Option`/`Result`, and the two ways a request fails: an `HTTPException` (`HttpError`), or an uncaught exception that the framework turns into a 500 (`Crash`) |
| `objectid.dfy` | `ObjectIds` | ObjectIds as 96-bit numbers; `str(ObjectId)` and `ObjectId(str)` |
| `documents.dfy` | `Documents` | document values, filters, `serialize_doc`, and a `Document` class for a dictionary object that is changed in place |
| `schemas.dfy` | `Schemas` | the record types, their validation and dump, and collection naming |
| `store.dfy` | `Store` | the database as a `DocumentStore` class: `find_one`, `find`, `insert_one` |
| `crypto.dfy` | `Crypto` | password hashing and JWT signing, as parameters |
| `auth.dfy` | `Auth` | `register`, `login`, `get_current_user`, `read_users_me` |
| `handlers.dfy` | `Handlers` | `create_user`, `list_users`, and the handlers of the other collections |
| `scenarios.dfy` | `Scenarios` | two end-to-end clients that use only the handlers' contracts |
| `codec_witness.dfy` | `CodecWitness` | a token codec that meets `SoundCodec`, showing the assumption can be met |

Choices made in the model:

- A missing database (`db is None`) is a null `DocumentStore?`.
- Things the handlers depend on but that are not deterministic are
  parameters:
  - the ObjectId the driver generates on insert;
  - the bcrypt salt;
  - the current time, as an integer number of seconds.
- An insert whose generated id is already in use fails with
  `DuplicateKeyError`, as MongoDB's unique `_id` index makes it. So
  `DocumentStore.Valid()` (every document has an ObjectId `_id`, and ids are
  unique within each collection) is an invariant of every operation.
- Hashing is a `PasswordScheme` and signing is a `TokenCodec`. Both are
  datatypes of functions. The properties the handlers rely on are the
  predicates `SoundScheme` (a digest verifies the password it was made from)
  and `SoundCodec`. `SoundCodec` says that a signed token decodes to its claims
  whenever every claim value survives a JSON round trip: `null`, a boolean, an
  integer or a string (`Signable`). Lemmas that need these predicates take
  them as preconditions. `SoundSchemeSatisfiable` shows that a sound scheme
  exists, and `CodecWitness.SoundCodecSatisfiable` that a sound codec does.
- Signing raises `TypeError` when the stored role is not a JSON value (an
  ObjectId or a datetime), as `json.dumps` does inside `jwt.encode`.
- `jwt.decode` is modelled by `JwtDecode`, with the two claim checks the
  library makes: `exp` must be an integer that is not in the past, and `sub`
  must be a string. The library converts `exp` with `int(...)`, so it would
  also take a float or a numeric string. The `exp` that `login` issues is
  always an integer, so this makes no difference for the tokens it issues.

`create_user` does not check for a duplicate email, unlike `register`. So the
store may hold two users with the same email. The model keeps this:
`Auth.Login` promises only that it answers for *some* user with that email.

## Model

| member | source | states |
|---|---|---|
| ObjectIds.HexValue | main.py:148 | a character has a hex value exactly when it is a digit or a letter a–f of either case; the value is below 16 |
| ObjectIds.ToHex | main.py:74 | the result has exactly `width` characters, all lower-case hex digits |
| ObjectIds.FromHex | main.py:148 | a string has a value exactly when all its characters are hex digits; the value is below 16^length |
| ObjectIds.OidString | main.py:74 | `str(ObjectId)` is 24 lower-case hex digits |
| ObjectIds.ParseOid | main.py:148 | `ObjectId(s)` accepts exactly the strings of 24 hex digits (either case); anything else is `InvalidId` |
| ObjectIds.HexValueOfDigit | main.py:74 | each digit `str` writes reads back as its value |
| ObjectIds.FromHexToHex | main.py:74 | reading the hex digits written for a number below 16^width gives the number back |
| ObjectIds.ToHexFromHex | main.py:148 | writing the value of a lower-case hex string (to the same width) gives the string back |
| ObjectIds.ParseOidString | main.py:136-148 | the `sub` written as `str(user["_id"])` parses back to the same ObjectId |
| ObjectIds.OidStringOfParse | main.py:148 | the only lower-case string that parses to an ObjectId is that id's `str` |
| ObjectIds.OidStringInjective | main.py:122 | different ObjectIds have different string forms, so the returned `id` names one document |
| Documents.Truthy | main.py:116-134 | the false values are exactly `None`, `False`, `0`, `0.0`, `""` and `[]`, as in `if existing`, `if not user` and `if not user.get("is_active", True)` |
| Documents.MatchesAsOverride | main.py:115-148 | a document matches an exact-match filter exactly when overriding it with the filter changes nothing |
| Documents.Get | main.py:72 | `doc.get(key, default)` is the stored value when the key is present, and the default otherwise |
| Documents.FilterDocs | main.py:207-208 | filtering never yields more documents than the collection holds |
| Documents.FilterDocsMembers | main.py:207-208 | a document is in the filtered list exactly when it is in the collection and matches every field of the filter |
| Documents.FilterDocsEmpty | main.py:170 | the empty filter lists the whole collection, in order |
| Documents.EventFilter | main.py:207 | the filter has an `event_id` key exactly when `event_id` is given and non-empty; it then holds that string; it has no other key |
| Documents.EventFilterSelects | main.py:206-209 | the list is the collection's documents whose `event_id` is the given id, or all of them when none (or an empty one) is given |
| Documents.Serialized | main.py:68-76 | an empty document is unchanged; one with an ObjectId `_id` loses `_id` and gains `id` as its 24-digit string, and keeps every other field; any other document is unchanged |
| Documents.SerializedIdempotent | main.py:68-76 | a serialized document has no ObjectId `_id`, so serializing again changes nothing |
| Documents.SerializedIdRoundTrip | main.py:74 | the `id` of a serialized stored document parses back to its `_id` |
| Documents.Document.constructor | main.py:71 | `dict(doc)` holds the given fields |
| Documents.Document.Set | main.py:74 | `d[key] = v` sets that key and changes nothing else |
| Documents.Document.Pop | main.py:156 | `pop(key, None)` and `del` remove that key and change nothing else |
| Documents.SerializeDoc | main.py:68-76 | the argument is never modified; an empty dictionary comes back as the same object; otherwise the result is a new dictionary whose fields are `Serialized` of the argument's |
| Schemas.ReqStr | schemas.py:19-20 | a required `str` field reads exactly when present and a string, and then gives that string |
| Schemas.StrOr | schemas.py:22 | an absent field gives the default; a present one reads exactly when it is a string, and gives that string |
| Schemas.OptStr | schemas.py:21 | an absent field or `None` gives `None`; a string gives itself; any other value is refused |
| Schemas.BoolOr | schemas.py:24 | an absent field gives the default; a present one reads exactly when it is a bool |
| Schemas.OptNonNegNumber | schemas.py:32 | an absent field gives the default; `None` gives `None`; a non-negative integer is accepted as the same number as a float, and a non-negative float as itself; a negative integer or float is refused with `OutOfRange`; any other value is refused with `WrongType` |
| Schemas.StrItems | schemas.py:39 | a list reads as strings exactly when every item is a string; item by item the result is those strings |
| Schemas.StrListOr | schemas.py:39 | an absent field gives the default; a present one reads exactly when it is a list of strings, and gives those strings |
| Schemas.OptTime | schemas.py:70 | an absent or `None` timestamp gives `None`; a datetime gives itself; any other value is refused |
| Schemas.StrListValue | schemas.py:39 | a dumped list of strings reads back as the same list |
| Schemas.ParseUser | schemas.py:18-24 | a valid `User` has `name`, `email` and `password`; absent `role`, `phone` and `is_active` default to `"volunteer"`, `None` and `True` |
| Schemas.ParseEvent | schemas.py:27-34 | a valid `Event` has `event_title`, `date` and `location` and a budget that is absent or at least 0; absent `budget` defaults to 0 and `status` to `"upcoming"` |
| Schemas.ParseVolunteer | schemas.py:37-41 | a valid `Volunteer` has `name`; absent `skills` defaults to `[]` |
| Schemas.ParseEventVolunteer | schemas.py:44-47 | valid exactly when `event_id` and `volunteer_id` are strings and `role` is absent, `None` or a string |
| Schemas.ParseDonation | schemas.py:50-56 | a valid `Donation` has `donor_name` and `date` and an amount that is absent or at least 0; absent `amount` is `None` and `kind` is `"cash"` |
| Schemas.ParseTask | schemas.py:59-63 | a valid `Task` has `event_id` and `task_name`; absent `status` defaults to `"Pending"` |
| Schemas.ParseAttendance | schemas.py:66-70 | a valid `Attendance` has `event_id` and `volunteer_id`; absent `method` defaults to `"manual"` |
| Schemas.UserRoundTrip | schemas.py:18-24 | validating the dump of a `User` gives the same `User` |
| Schemas.EventRoundTrip | schemas.py:27-34 | validating the dump of an `Event` whose budget is in range gives the same `Event` |
| Schemas.VolunteerRoundTrip | schemas.py:37-41 | validating the dump of a `Volunteer` gives the same `Volunteer` |
| Schemas.EventVolunteerRoundTrip | schemas.py:44-47 | validating the dump of an `EventVolunteer` gives the same record |
| Schemas.DonationRoundTrip | schemas.py:50-56 | validating the dump of a `Donation` whose amount is in range gives the same `Donation` |
| Schemas.TaskRoundTrip | schemas.py:59-63 | validating the dump of a `Task` gives the same `Task` |
| Schemas.AttendanceRoundTrip | schemas.py:66-70 | validating the dump of an `Attendance` gives the same record |
| Schemas.UserDefaults | schemas.py:18-24 | a user given only name, email and password is a `"volunteer"`, active, with no phone |
| Schemas.EventBudgetRange | schemas.py:32 | setting a budget keeps an event valid exactly when the budget is not negative; an explicit `None` budget is accepted |
| Schemas.EventBudgetInteger | schemas.py:32 | an integer budget is read as the same number as a float, and a negative one is refused |
| Schemas.DonationAmountRange | schemas.py:53 | setting an amount keeps a donation valid exactly when the amount is not negative |
| Schemas.Lower | schemas.py:4-5 | lower-casing keeps the length and lower-cases each character |
| Schemas.CollectionNameOf | schemas.py:4-10 | each record kind's lower-cased class name is the collection name the handlers use |
| Schemas.DumpedFields | schemas.py:18-70 | `model_dump` writes every field the record's class declares, under its declared name, and no other field |
| Schemas.Dump | main.py:178-239 | the document a record is inserted as carries no `_id` of its own |
| Store.IdFilter | main.py:148 | `{"_id": o}` matches exactly the documents whose `_id` is the ObjectId `o` |
| Store.LookupById | main.py:148 | the lookup finds a document of the collection with that id, or there is none |
| Store.LookupByIdMatches | main.py:148-150 | because ids are unique, a document matches `{"_id": o}` exactly when it is the one the lookup finds |
| Store.AppendWellFormed | main.py:121 | adding a document with an unused id keeps ids unique |
| Store.WithId | main.py:121 | the inserted document is the payload with `_id` set to the new ObjectId, and nothing else changed |
| Store.DocumentStore.Collection | main.py:115 | a collection of a valid store is well formed; a collection never written to is empty |
| Store.DocumentStore.constructor | main.py:12 | a new database is valid and empty |
| Store.DocumentStore.FindOne | main.py:115 | the result is a matching document of the collection, and `None` only when no document matches |
| Store.DocumentStore.GetDocuments | main.py:170 | the result holds exactly the matching documents, with multiplicity, in some order |
| Store.DocumentStore.InsertOne | main.py:121 | an id in use is refused with `DuplicateKeyError` and nothing changes; otherwise the document with its new `_id` is appended to that collection only, and the store stays valid |
| Crypto.VerifyPassword | main.py:58-59 | a stored `None` never verifies; a known digest is checked; an unknown digest or a non-string raises |
| Crypto.SoundSchemeSatisfiable | main.py:55-59 | some password context meets `SoundScheme`, so the lemmas that assume it are not vacuous |
| Crypto.JsonEncodable | main.py:65 | `jwt.encode` can write a claim value unless it is an ObjectId or a datetime, or a list holding one; every other value, and a list of such values, can be written |
| CodecWitness.SoundCodecSatisfiable | main.py:65 | some codec meets `SoundCodec`: claims made of JSON-safe values are written as a string that decodes back to them, so the lemmas that assume it are not vacuous |
| CodecWitness.EncodeInjective | main.py:65 | the claims' encoding is one-to-one on JSON-safe claims, the fact the decoder relies on |
| Crypto.VerifyOwnHash | main.py:55-59 | a digest made from a password verifies that password |
| Crypto.JwtDecode | main.py:142 | an accepted token is one the codec decodes, whose `exp` is an integer not in the past and whose `sub` is a string; a decoded token is refused only for one of those two reasons |
| Auth.ParseRegisterPayload | main.py:42-47 | a valid payload has `name`, `email` and `password`; absent `role` is `"volunteer"` and `phone` is `None` |
| Auth.RegisterPayloadRoundTrip | main.py:42-47 | validating a dumped payload gives it back |
| Auth.UsersCollection | schemas.py:4-10 | the collection the user handlers use is `"user"`, the lower-cased name of `User` |
| Auth.DumpRegisterPayload | main.py:118 | the payload dumps to exactly its five declared fields |
| Auth.EmailFilterMatches | main.py:115 | `{"email": e}` matches exactly the documents whose `email` is `e` |
| Auth.PasswordOf | main.py:132 | `user.get("password", "")`: the stored password, or `""` when there is none |
| Auth.IsActive | main.py:134 | a user without `is_active` is active; otherwise it is active exactly when its `is_active` is truthy |
| Auth.RoleOf | main.py:136 | `user.get("role", "volunteer")`: the stored role, or `"volunteer"` when there is none |
| Auth.NewUserDoc | main.py:118-120 | the stored user has the payload's fields plus `is_active`; the password is the digest; `is_active` is true; there is no `_id` yet |
| Auth.AccessClaims | main.py:61-65 | the claims are the data with `exp` set to now + `ACCESS_TOKEN_EXPIRE_MINUTES` × 60 seconds |
| Auth.LoginClaims | main.py:136 | a login token carries exactly `sub` (the user's id string), `role` (the user's role or `"volunteer"`) and `exp` |
| Auth.LoginOutcome | main.py:130-137 | no user gives 400; a password that does not verify gives 400; 403 exactly when the password verifies and the user is inactive; a token exactly when it verifies and the user is active; a hashing error passes through; a verified, active user whose role cannot be written as JSON makes signing raise `TypeError` |
| Auth.ResolveOutcome | main.py:139-151 | an undecodable or expired token, a token without `sub`, and a well-formed `sub` that names no stored user each give 401; a `sub` that is not an ObjectId string makes `ObjectId(...)` raise `InvalidId`; without a database the lookup raises `TypeError`; a `sub` naming a stored user gives that user, serialized, and every success is of that form |
| Auth.Register | main.py:111-122 | no database gives 500; a registered email gives 400 and changes nothing; otherwise exactly one user document is appended and its id string returned |
| Auth.Login | main.py:124-137 | changes nothing; no database gives 500; an unknown email gives 400; otherwise the answer is `LoginOutcome` for some user with that email |
| Auth.GetCurrentUser | main.py:139-151 | changes nothing; answers as `ResolveOutcome` on the user collection, with the user as a new dictionary |
| Auth.ReadUsersMe | main.py:153-157 | removes `password` from the given dictionary in place and returns that same dictionary |
| Auth.AuthMe | main.py:153-157 | the answer never holds a password; it is the resolved user without `password`, or the resolution's error |
| Auth.MissingIsActiveCountsAsActive | main.py:134-136 | a user without `is_active` whose password verifies is never refused with the 403, and gets a token whenever its role can be signed |
| Auth.RegisteredUserLogsIn | main.py:118-137 | a registered user logs in with the registered password; the token names the user's id and role |
| Auth.RegisteredUserAsServed | main.py:153-157 | `/auth/me` shows a registered user as name, email, phone, role, `is_active` and the string `id` — no password and no `_id` |
| Auth.SerializedWithFreshId | main.py:68-76 | serializing a just-inserted document gives the payload plus its `id` string |
| Auth.NewUserDocWithoutPassword | main.py:118-120 | without its password, a registered user document is the payload plus `is_active: True` |
| Auth.RegisteredEmailFindsNewUser | main.py:115-117 | after `register` admits an email, the lookup by that email finds only the new user |
| Auth.IssuedTokenResolves | main.py:136-151 | a token `login` issued for a user with a signable role resolves, until it expires, to the user it was issued for |
| Auth.IssuedTokenExpires | main.py:63 | after `ACCESS_TOKEN_EXPIRE_MINUTES` the same token, issued for a user with a signable role, gives the 401 of any bad token |
| Auth.LoginFailuresIndistinguishable | main.py:130-133 | an unknown email and a wrong password give the same answer |
| Handlers.CreatedUserDoc | main.py:163-164 | the stored fields are the record's, with a non-empty password replaced by its digest and an empty one by `None` |
| Handlers.CreateUser | main.py:160-166 | no database raises; an id in use raises and changes nothing; otherwise exactly one user is appended, without any email check |
| Handlers.EmptyPasswordNeverLogsIn | main.py:164 | a user created with an empty password never logs in, whatever password is offered |
| Handlers.CreatedUserLogin | main.py:160-166 | a user created with a password logs in with it when active, and gets 403 when inactive |
| Handlers.SanitizedUser | main.py:172-174 | a listed user has no password; a stored one shows its `id` string instead of `_id`; every other field is kept |
| Handlers.ListUsers | main.py:168-175 | every user of the collection is listed once, sanitized; no listed user has a password or an `_id` |
| Handlers.CreateRecord | main.py:178-239 | the record goes, with a new `_id`, into the collection named after its kind, and its id string is returned; an id in use changes nothing |
| Handlers.ListRecords | main.py:183-186 | the matching documents of the collection, each serialized |
| Handlers.ListByEvent | main.py:205-209 | a document is listed exactly when it is in the collection and, when a non-empty `event_id` is given, has that `event_id` |
| Scenarios.RegisterLoginMe | main.py:111-157 | registering Alice, logging in with her password and calling `/auth/me` with the token gives exactly her name, email, `None` phone, role `"volunteer"`, `is_active: True` and her `id` string — no password and no `_id` |
| Scenarios.EventTaskListing | main.py:224-233 | after creating an event and a task for it, listing the tasks of that event gives exactly one task, with its `id` string, its name and no `_id` |
| Scenarios.ListTasksOf | main.py:229-233 | listing the tasks of a task's event, when the collection holds only that task, gives exactly it, as served |
| Scenarios.AddEvent | main.py:178-180 | creating an event in an empty database answers the new event's id string and leaves the task collection empty |
| Scenarios.AddOnlyTask | main.py:224-227 | creating a task when there is none leaves exactly that task, under the generated `_id`, in `task` |
| Scenarios.EventWithTask | main.py:224-227 | creating an event, then a task naming the returned id, leaves exactly that task in `task` |
| Scenarios.OnlyMatchListed | main.py:231-232 | a collection with one matching task lists exactly that task |
| Scenarios.ListedTaskAsServed | main.py:229-233 | the listed task shows its id string under `id`, its name, and no `_id` |

## Left out

- The HTTP plumbing is not modelled: routing, CORS, JSON encoding, response models, the OAuth2 form and the `Authorization` header. Each handler is a method that takes its validated body, query parameter or token.
- `read_root` and `test_database` are not modelled: they only report status.
- `database.py` is not part of this model. `get_documents` and `create_document` are modelled as `find` and `insert_one` on the named collection. Without a database they are assumed to raise.
- Store.DocumentStore.InsertOne: requires a document without `_id`. Every handler inserts such a document; MongoDB's handling of a caller-supplied `_id` is not modelled.
- Store.DocumentStore.FindOne: does not say which of several matching documents is found. MongoDB does not promise an order.
- Store.DocumentStore.GetDocuments: states the result up to order, for the same reason.
- Auth.Login: promises only some user with the email, because `create_user` can store two users with the same email.
- Auth.AccessClaims: leaves out `create_access_token`'s optional `expires_delta`. No caller passes it, so the window is always `ACCESS_TOKEN_EXPIRE_MINUTES`.
- Auth.IssuedTokenResolves: requires the user's role to be `null`, a boolean, an integer or a string. Those are the values a JSON round trip is assumed to give back. Every user that `register` or `create_user` stores has a string role.
- Auth.IssuedTokenExpires: requires a signable role, for the same reason.
- Crypto.JwtDecode: accepts only an integer `exp`, whereas the library also converts a float or a numeric string. The tokens `login` issues always carry an integer `exp`.
- The bcrypt and HS256 algorithms, the secret key and salt generation are not modelled. They are the parameters `PasswordScheme`, `TokenCodec` and `salt`.
- `jose` claim checks other than `exp` and `sub` are not modelled; the tokens issued here carry no other registered claim.
- Time is an integer number of UTC seconds. Sub-second precision and clock skew are not modelled.
- Floats are Dafny `real`s: rounding, NaN and infinities are not modelled.
- Request validation reports only the first failing field, in declaration order. The validator reports all of them.
- Lax coercions the validator makes are not modelled: numeric and boolean strings, and datetime strings for `timestamp`. Only the native JSON type of each field is accepted.
- Schemas.ParseEvent: the unvalidated default `budget` is the integer `0` in the source; the model stores it as the real `0.0`.
- `bytes.fromhex` skips whitespace between digit pairs, so `ObjectId` accepts a few more 24-character strings. This is not modelled. The server only parses strings it wrote, so it cannot arise.
- Concurrency between requests is not modelled. Each handler runs as one atomic step on the store, so the window between `register`'s email check and its insert is not modelled.
