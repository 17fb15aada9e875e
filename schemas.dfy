/** The entity records: one record type per collection, with the defaults and
    range constraints the request validator applies when it builds a record
    from a field map, and the field map a record dumps to. */
module Schemas {
  import opened Wrappers
  import opened Documents

  /** Why a field map is not a valid record; the first failing field, in
      declaration order. */
  datatype ValidationError =
    | Missing(field: string)
    | WrongType(field: string)
    | OutOfRange(field: string)

  type Parsed<T> = Result<T, ValidationError>

  // ----- Field readers -----

  /** A required `str` field. */
  function ReqStr(d: Doc, f: string): (r: Parsed<string>)
    ensures r.Success? <==> f in d && d[f].VStr?
    ensures r.Success? ==> r.value == d[f].s
  {
    if f !in d then Failure(Missing(f))
    else if d[f].VStr? then Success(d[f].s)
    else Failure(WrongType(f))
  }

  /** A `str` field with a default; `None` is not a `str`. */
  function StrOr(d: Doc, f: string, default: string): (r: Parsed<string>)
    ensures f !in d ==> r == Success(default)
    ensures f in d ==> (r.Success? <==> d[f].VStr?)
    ensures f in d && r.Success? ==> r.value == d[f].s
  {
    if f !in d then Success(default)
    else if d[f].VStr? then Success(d[f].s)
    else Failure(WrongType(f))
  }

  /** An `Optional[str]` field whose default is `None`. */
  function OptStr(d: Doc, f: string): (r: Parsed<Option<string>>)
    ensures f !in d || d[f] == VNull ==> r == Success(None)
    ensures f in d && d[f].VStr? ==> r == Success(Some(d[f].s))
    ensures r.Failure? <==> f in d && d[f] != VNull && !d[f].VStr?
  {
    if f !in d then Success(None)
    else
      match d[f]
      case VNull => Success(None)
      case VStr(s) => Success(Some(s))
      case _ => Failure(WrongType(f))
  }

  /** A `bool` field with a default. */
  function BoolOr(d: Doc, f: string, default: bool): (r: Parsed<bool>)
    ensures f !in d ==> r == Success(default)
    ensures f in d ==> (r.Success? <==> d[f].VBool?)
    ensures f in d && r.Success? ==> r.value == d[f].b
  {
    if f !in d then Success(default)
    else if d[f].VBool? then Success(d[f].b)
    else Failure(WrongType(f))
  }

  /** An `Optional[float]` field constrained by `ge=0`; an integer is
      accepted as a float; the default itself is not validated. */
  function OptNonNegNumber(d: Doc, f: string, default: Option<real>): (r: Parsed<Option<real>>)
    ensures f !in d ==> r == Success(default)
    ensures f in d && r.Success? && r.value.Some? ==> r.value.value >= 0.0
    ensures f in d && (d[f].VReal? || d[f].VInt?) ==>
      (r.Success? <==> (if d[f].VReal? then d[f].r else d[f].i as real) >= 0.0)
    ensures f in d && d[f] == VNull ==> r == Success(None)
    ensures f in d && d[f].VInt? && d[f].i >= 0 ==> r == Success(Some(d[f].i as real))
    ensures f in d && d[f].VReal? && d[f].r >= 0.0 ==> r == Success(Some(d[f].r))
    ensures f in d && ((d[f].VInt? && d[f].i < 0) || (d[f].VReal? && d[f].r < 0.0)) ==> r == Failure(OutOfRange(f))
    ensures f in d && !(d[f].VNull? || d[f].VInt? || d[f].VReal?) ==> r == Failure(WrongType(f))
  {
    if f !in d then Success(default)
    else
      match d[f]
      case VNull => Success(None)
      case VInt(i) => if i >= 0 then Success(Some(i as real)) else Failure(OutOfRange(f))
      case VReal(x) => if x >= 0.0 then Success(Some(x)) else Failure(OutOfRange(f))
      case _ => Failure(WrongType(f))
  }

  function StrItems(items: seq<Value>): (r: Option<seq<string>>)
    ensures r.Some? <==> forall i :: 0 <= i < |items| ==> items[i].VStr?
    ensures r.Some? ==> |r.value| == |items| && forall i :: 0 <= i < |items| ==> r.value[i] == items[i].s
  {
    if items == [] then Some([])
    else
      match StrItems(items[1..])
      case None => None
      case Some(rest) => if items[0].VStr? then Some([items[0].s] + rest) else None
  }

  /** A `List[str]` field with a default. */
  function StrListOr(d: Doc, f: string, default: seq<string>): (r: Parsed<seq<string>>)
    ensures f !in d ==> r == Success(default)
    ensures f in d ==> (r.Success? <==> d[f].VList? && StrItems(d[f].items).Some?)
    ensures f in d && r.Success? ==> r.value == StrItems(d[f].items).value
  {
    if f !in d then Success(default)
    else if d[f].VList? then
      match StrItems(d[f].items)
      case Some(items) => Success(items)
      case None => Failure(WrongType(f))
    else Failure(WrongType(f))
  }

  /** An `Optional[datetime]` field whose default is `None`. */
  function OptTime(d: Doc, f: string): (r: Parsed<Option<int>>)
    ensures f !in d || d[f] == VNull ==> r == Success(None)
    ensures f in d && d[f].VTime? ==> r == Success(Some(d[f].t))
    ensures r.Failure? <==> f in d && d[f] != VNull && !d[f].VTime?
  {
    if f !in d then Success(None)
    else
      match d[f]
      case VNull => Success(None)
      case VTime(t) => Success(Some(t))
      case _ => Failure(WrongType(f))
  }

  // ----- Field writers (`model_dump`) -----

  function OptStrValue(o: Option<string>): Value {
    if o.Some? then VStr(o.value) else VNull
  }

  function OptRealValue(o: Option<real>): Value {
    if o.Some? then VReal(o.value) else VNull
  }

  function OptTimeValue(o: Option<int>): Value {
    if o.Some? then VTime(o.value) else VNull
  }

  function StrListValue(items: seq<string>): (v: Value)
    ensures v.VList? && StrItems(v.items) == Some(items)
  {
    var v := VList(seq(|items|, i requires 0 <= i < |items| => VStr(items[i])));
    assert StrItems(v.items).value == items;
    v
  }

  // ----- The records -----

  datatype User = User(
    name: string, email: string, phone: Option<string>,
    role: string, password: string, isActive: bool)

  datatype Event = Event(
    eventTitle: string, date: string, location: string, description: Option<string>,
    budget: Option<real>, status: string, bannerUrl: Option<string>)
  {
    /** `budget` is absent or not negative. */
    predicate InRange() {
      budget.None? || budget.value >= 0.0
    }
  }

  datatype Volunteer = Volunteer(
    name: string, skills: seq<string>, availability: Option<string>, phone: Option<string>)

  datatype EventVolunteer = EventVolunteer(eventId: string, volunteerId: string, role: Option<string>)

  datatype Donation = Donation(
    donorName: string, eventId: Option<string>, amount: Option<real>,
    kind: string, materialDesc: Option<string>, date: string)
  {
    /** `amount` is absent or not negative. */
    predicate InRange() {
      amount.None? || amount.value >= 0.0
    }
  }

  datatype Task = Task(eventId: string, taskName: string, assignedTo: Option<string>, status: string)

  /** `checkInMethod` is the `method` field; `timestamp` is a datetime, in seconds. */
  datatype Attendance = Attendance(eventId: string, volunteerId: string, checkInMethod: string, timestamp: Option<int>)

  // ----- Validation from a field map -----

  function ParseUser(d: Doc): (r: Parsed<User>)
    ensures r.Success? ==> "name" in d && "email" in d && "password" in d
    ensures r.Success? && "role" !in d ==> r.value.role == "volunteer"
    ensures r.Success? && "phone" !in d ==> r.value.phone.None?
    ensures r.Success? && "is_active" !in d ==> r.value.isActive
  {
    var name :- ReqStr(d, "name");
    var email :- ReqStr(d, "email");
    var phone :- OptStr(d, "phone");
    var role :- StrOr(d, "role", "volunteer");
    var password :- ReqStr(d, "password");
    var isActive :- BoolOr(d, "is_active", true);
    Success(User(name, email, phone, role, password, isActive))
  }

  function ParseEvent(d: Doc): (r: Parsed<Event>)
    ensures r.Success? ==> r.value.InRange()
    ensures r.Success? ==> "event_title" in d && "date" in d && "location" in d
    ensures r.Success? && "budget" !in d ==> r.value.budget == Some(0.0)
    ensures r.Success? && "status" !in d ==> r.value.status == "upcoming"
  {
    var eventTitle :- ReqStr(d, "event_title");
    var date :- ReqStr(d, "date");
    var location :- ReqStr(d, "location");
    var description :- OptStr(d, "description");
    var budget :- OptNonNegNumber(d, "budget", Some(0.0));
    var status :- StrOr(d, "status", "upcoming");
    var bannerUrl :- OptStr(d, "banner_url");
    Success(Event(eventTitle, date, location, description, budget, status, bannerUrl))
  }

  function ParseVolunteer(d: Doc): (r: Parsed<Volunteer>)
    ensures r.Success? ==> "name" in d
    ensures r.Success? && "skills" !in d ==> r.value.skills == []
  {
    var name :- ReqStr(d, "name");
    var skills :- StrListOr(d, "skills", []);
    var availability :- OptStr(d, "availability");
    var phone :- OptStr(d, "phone");
    Success(Volunteer(name, skills, availability, phone))
  }

  function ParseEventVolunteer(d: Doc): (r: Parsed<EventVolunteer>)
    ensures r.Success? <==>
      && ("event_id" in d && d["event_id"].VStr?)
      && ("volunteer_id" in d && d["volunteer_id"].VStr?)
      && ("role" !in d || d["role"] == VNull || d["role"].VStr?)
  {
    var eventId :- ReqStr(d, "event_id");
    var volunteerId :- ReqStr(d, "volunteer_id");
    var role :- OptStr(d, "role");
    Success(EventVolunteer(eventId, volunteerId, role))
  }

  function ParseDonation(d: Doc): (r: Parsed<Donation>)
    ensures r.Success? ==> r.value.InRange()
    ensures r.Success? ==> "donor_name" in d && "date" in d
    ensures r.Success? && "amount" !in d ==> r.value.amount.None?
    ensures r.Success? && "kind" !in d ==> r.value.kind == "cash"
  {
    var donorName :- ReqStr(d, "donor_name");
    var eventId :- OptStr(d, "event_id");
    var amount :- OptNonNegNumber(d, "amount", None);
    var kind :- StrOr(d, "kind", "cash");
    var materialDesc :- OptStr(d, "material_desc");
    var date :- ReqStr(d, "date");
    Success(Donation(donorName, eventId, amount, kind, materialDesc, date))
  }

  function ParseTask(d: Doc): (r: Parsed<Task>)
    ensures r.Success? ==> "event_id" in d && "task_name" in d
    ensures r.Success? && "status" !in d ==> r.value.status == "Pending"
  {
    var eventId :- ReqStr(d, "event_id");
    var taskName :- ReqStr(d, "task_name");
    var assignedTo :- OptStr(d, "assigned_to");
    var status :- StrOr(d, "status", "Pending");
    Success(Task(eventId, taskName, assignedTo, status))
  }

  function ParseAttendance(d: Doc): (r: Parsed<Attendance>)
    ensures r.Success? ==> "event_id" in d && "volunteer_id" in d
    ensures r.Success? && "method" !in d ==> r.value.checkInMethod == "manual"
  {
    var eventId :- ReqStr(d, "event_id");
    var volunteerId :- ReqStr(d, "volunteer_id");
    var checkInMethod :- StrOr(d, "method", "manual");
    var timestamp :- OptTime(d, "timestamp");
    Success(Attendance(eventId, volunteerId, checkInMethod, timestamp))
  }

  // ----- `model_dump`: every declared field, under its declared name -----

  function DumpUser(u: User): Doc {
    map["name" := VStr(u.name), "email" := VStr(u.email), "phone" := OptStrValue(u.phone),
        "role" := VStr(u.role), "password" := VStr(u.password), "is_active" := VBool(u.isActive)]
  }

  function DumpEvent(e: Event): Doc {
    map["event_title" := VStr(e.eventTitle), "date" := VStr(e.date), "location" := VStr(e.location),
        "description" := OptStrValue(e.description), "budget" := OptRealValue(e.budget),
        "status" := VStr(e.status), "banner_url" := OptStrValue(e.bannerUrl)]
  }

  function DumpVolunteer(v: Volunteer): Doc {
    map["name" := VStr(v.name), "skills" := StrListValue(v.skills),
        "availability" := OptStrValue(v.availability), "phone" := OptStrValue(v.phone)]
  }

  function DumpEventVolunteer(ev: EventVolunteer): Doc {
    map["event_id" := VStr(ev.eventId), "volunteer_id" := VStr(ev.volunteerId), "role" := OptStrValue(ev.role)]
  }

  function DumpDonation(dn: Donation): Doc {
    map["donor_name" := VStr(dn.donorName), "event_id" := OptStrValue(dn.eventId),
        "amount" := OptRealValue(dn.amount), "kind" := VStr(dn.kind),
        "material_desc" := OptStrValue(dn.materialDesc), "date" := VStr(dn.date)]
  }

  function DumpTask(t: Task): Doc {
    map["event_id" := VStr(t.eventId), "task_name" := VStr(t.taskName),
        "assigned_to" := OptStrValue(t.assignedTo), "status" := VStr(t.status)]
  }

  function DumpAttendance(a: Attendance): Doc {
    map["event_id" := VStr(a.eventId), "volunteer_id" := VStr(a.volunteerId),
        "method" := VStr(a.checkInMethod), "timestamp" := OptTimeValue(a.timestamp)]
  }

  // ----- Round trips: validating a dumped record gives the record back -----

  lemma UserRoundTrip(u: User)
    ensures ParseUser(DumpUser(u)) == Success(u)
  {
  }

  lemma EventRoundTrip(e: Event)
    requires e.InRange()
    ensures ParseEvent(DumpEvent(e)) == Success(e)
  {
  }

  lemma VolunteerRoundTrip(v: Volunteer)
    ensures ParseVolunteer(DumpVolunteer(v)) == Success(v)
  {
  }

  lemma EventVolunteerRoundTrip(ev: EventVolunteer)
    ensures ParseEventVolunteer(DumpEventVolunteer(ev)) == Success(ev)
  {
  }

  lemma DonationRoundTrip(dn: Donation)
    requires dn.InRange()
    ensures ParseDonation(DumpDonation(dn)) == Success(dn)
  {
  }

  lemma TaskRoundTrip(t: Task)
    ensures ParseTask(DumpTask(t)) == Success(t)
  {
  }

  lemma AttendanceRoundTrip(a: Attendance)
    ensures ParseAttendance(DumpAttendance(a)) == Success(a)
  {
  }

  // ----- Defaults -----

  /** A user given only its required fields. */
  lemma UserDefaults(name: string, email: string, password: string)
    ensures ParseUser(map["name" := VStr(name), "email" := VStr(email), "password" := VStr(password)])
         == Success(User(name, email, None, "volunteer", password, true))
  {
  }

  /** A negative budget is refused; an explicit `None` is accepted. */
  lemma EventBudgetRange(d: Doc, x: real)
    requires ParseEvent(d).Success?
    ensures ParseEvent(d["budget" := VReal(x)]).Success? <==> x >= 0.0
    ensures ParseEvent(d["budget" := VNull]) == Success(ParseEvent(d).value.(budget := None))
  {
  }

  /** An integer budget is read as the same number, as a float; a negative
      one is refused. */
  lemma EventBudgetInteger(d: Doc, n: int)
    requires ParseEvent(d).Success?
    ensures n >= 0 ==> ParseEvent(d["budget" := VInt(n)]) == Success(ParseEvent(d).value.(budget := Some(n as real)))
    ensures n < 0 ==> ParseEvent(d["budget" := VInt(n)]) == Failure(OutOfRange("budget"))
  {
  }

  /** A negative amount is refused. */
  lemma DonationAmountRange(d: Doc, x: real)
    requires ParseDonation(d).Success?
    ensures ParseDonation(d["amount" := VReal(x)]).Success? <==> x >= 0.0
  {
  }

  // ----- Collections -----

  datatype Kind = UserKind | EventKind | VolunteerKind | EventVolunteerKind | DonationKind | TaskKind | AttendanceKind

  function ClassName(k: Kind): string {
    match k
    case UserKind => "User"
    case EventKind => "Event"
    case VolunteerKind => "Volunteer"
    case EventVolunteerKind => "EventVolunteer"
    case DonationKind => "Donation"
    case TaskKind => "Task"
    case AttendanceKind => "Attendance"
  }

  function LowerChar(c: char): char {
    if 'A' <= c <= 'Z' then (c as int - 'A' as int + 'a' as int) as char else c
  }

  /** ASCII lower-casing. */
  function Lower(s: string): (r: string)
    ensures |r| == |s|
    ensures forall i :: 0 <= i < |s| ==> r[i] == LowerChar(s[i])
  {
    if s == [] then [] else [LowerChar(s[0])] + Lower(s[1..])
  }

  /** The name of the collection a record kind is stored in. */
  function CollectionName(k: Kind): string {
    Lower(ClassName(k))
  }

  /** The collection names the handlers use. */
  function HandlerCollection(k: Kind): string {
    match k
    case UserKind => "user"
    case EventKind => "event"
    case VolunteerKind => "volunteer"
    case EventVolunteerKind => "eventvolunteer"
    case DonationKind => "donation"
    case TaskKind => "task"
    case AttendanceKind => "attendance"
  }

  /** Each record lives in the collection named by its lower-cased class name. */
  lemma CollectionNameOf(k: Kind)
    ensures CollectionName(k) == HandlerCollection(k)
  {
    match k
    case UserKind => LowerIs("User", "user");
    case EventKind => LowerIs("Event", "event");
    case VolunteerKind => LowerIs("Volunteer", "volunteer");
    case EventVolunteerKind => LowerIs("EventVolunteer", "eventvolunteer");
    case DonationKind => LowerIs("Donation", "donation");
    case TaskKind => LowerIs("Task", "task");
    case AttendanceKind => LowerIs("Attendance", "attendance");
  }

  lemma LowerIs(s: string, t: string)
    requires |s| == |t| && forall i :: 0 <= i < |s| ==> LowerChar(s[i]) == t[i]
    ensures Lower(s) == t
  {
  }

  /** A validated record of any of the seven kinds. */
  datatype Record =
    | UserRecord(user: User)
    | EventRecord(event: Event)
    | VolunteerRecord(volunteer: Volunteer)
    | EventVolunteerRecord(eventVolunteer: EventVolunteer)
    | DonationRecord(donation: Donation)
    | TaskRecord(task: Task)
    | AttendanceRecord(attendance: Attendance)
  {
    function KindOf(): Kind {
      match this
      case UserRecord(_) => UserKind
      case EventRecord(_) => EventKind
      case VolunteerRecord(_) => VolunteerKind
      case EventVolunteerRecord(_) => EventVolunteerKind
      case DonationRecord(_) => DonationKind
      case TaskRecord(_) => TaskKind
      case AttendanceRecord(_) => AttendanceKind
    }
  }

  /** The fields each class declares, under their declared names. */
  function DeclaredFields(k: Kind): set<string> {
    match k
    case UserKind => {"name", "email", "phone", "role", "password", "is_active"}
    case EventKind => {"event_title", "date", "location", "description", "budget", "status", "banner_url"}
    case VolunteerKind => {"name", "skills", "availability", "phone"}
    case EventVolunteerKind => {"event_id", "volunteer_id", "role"}
    case DonationKind => {"donor_name", "event_id", "amount", "kind", "material_desc", "date"}
    case TaskKind => {"event_id", "task_name", "assigned_to", "status"}
    case AttendanceKind => {"event_id", "volunteer_id", "method", "timestamp"}
  }

  /** `model_dump` writes every declared field of a record and nothing else. */
  lemma DumpedFields(rec: Record)
    ensures Dump(rec).Keys == DeclaredFields(rec.KindOf())
  {
  }

  /** The document a record is inserted as; it never carries its own `_id`. */
  function Dump(rec: Record): (r: Doc)
    ensures ID_FIELD !in r
  {
    match rec
    case UserRecord(u) => DumpUser(u)
    case EventRecord(e) => DumpEvent(e)
    case VolunteerRecord(v) => DumpVolunteer(v)
    case EventVolunteerRecord(ev) => DumpEventVolunteer(ev)
    case DonationRecord(dn) => DumpDonation(dn)
    case TaskRecord(t) => DumpTask(t)
    case AttendanceRecord(a) => DumpAttendance(a)
  }
}
