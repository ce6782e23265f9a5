/**
 * The request payloads of the appointment endpoints and the field
 * constraints they are validated against before a handler runs.
 */
module Schemas {
  import opened Wrappers
  import opened Models

  const TitleMinLength: int := 3
  const TitleMaxLength: int := 100
  const DescriptionMaxLength: int := 500
  const DurationMin: int := 15
  const DurationMax: int := 480

  /** The fields of a payload that validation can refuse or an update can set. */
  datatype Field = TitleField | DescriptionField | DateTimeField | DurationField | StatusField

  predicate ValidTitle(t: string) { TitleMinLength <= |t| <= TitleMaxLength }

  predicate ValidDescription(d: Option<string>) { d.None? || |d.value| <= DescriptionMaxLength }

  predicate ValidDuration(m: int) { DurationMin <= m <= DurationMax }

  /** The default duration is itself within the accepted range. */
  lemma DefaultDurationIsValid()
    ensures ValidDuration(DefaultDuration)
  {
  }

  /** A create request body as sent: the duration may be omitted. */
  datatype CreateRequest = CreateRequest(
    title: string,
    description: Option<string>,
    dateTime: int,
    durationMinutes: Option<int>,
    providerId: int)

  /** A validated create payload: the base fields plus the provider. */
  datatype AppointmentCreate = AppointmentCreate(
    title: string,
    description: Option<string>,
    dateTime: int,
    durationMinutes: int,
    providerId: int)

  predicate ValidCreate(c: AppointmentCreate)
  {
    ValidTitle(c.title) && ValidDescription(c.description) && ValidDuration(c.durationMinutes)
  }

  /**
   * Validates a create request, filling in the default duration.  A refusal
   * names every field that is out of bounds.
   */
  function ValidateCreate(q: CreateRequest): (r: Result<AppointmentCreate, set<Field>>)
    ensures r.Success? ==> ValidCreate(r.value)
    ensures r.Success? ==> r.value.title == q.title && r.value.description == q.description
                           && r.value.dateTime == q.dateTime && r.value.providerId == q.providerId
    ensures r.Success? && q.durationMinutes.Some? ==> r.value.durationMinutes == q.durationMinutes.value
    ensures r.Success? && q.durationMinutes.None? ==> r.value.durationMinutes == DefaultDuration
    ensures r.Failure? ==> r.error != {}
    ensures r.Failure? ==> (TitleField in r.error <==> !ValidTitle(q.title))
    ensures r.Failure? ==> (DescriptionField in r.error <==> !ValidDescription(q.description))
    ensures r.Failure? ==> (DurationField in r.error <==> q.durationMinutes.Some? && !ValidDuration(q.durationMinutes.value))
    ensures r.Failure? ==> r.error <= {TitleField, DescriptionField, DurationField}
  {
    var duration := if q.durationMinutes.Some? then q.durationMinutes.value else DefaultDuration;
    var bad := (if ValidTitle(q.title) then {} else {TitleField})
               + (if ValidDescription(q.description) then {} else {DescriptionField})
               + (if ValidDuration(duration) then {} else {DurationField});
    if bad == {} then Success(AppointmentCreate(q.title, q.description, q.dateTime, duration, q.providerId))
    else Failure(bad)
  }

  /**
   * An update request body as sent: every field may be left unset.  An
   * explicit null description is `Some(None)`; the status is a string.
   */
  datatype UpdateRequest = UpdateRequest(
    title: Option<string>,
    description: Option<Option<string>>,
    dateTime: Option<int>,
    durationMinutes: Option<int>,
    status: Option<string>)

  /** A validated update payload; `None` means the field was not set. */
  datatype AppointmentUpdate = AppointmentUpdate(
    title: Option<string>,
    description: Option<Option<string>>,
    dateTime: Option<int>,
    durationMinutes: Option<int>,
    status: Option<Status>)

  /** A set title and a set duration are bounded; a set description is not. */
  predicate ValidUpdate(u: AppointmentUpdate)
  {
    (u.title.Some? ==> ValidTitle(u.title.value))
    && (u.durationMinutes.Some? ==> ValidDuration(u.durationMinutes.value))
  }

  /**
   * Validates an update request.  A refusal names every set field whose
   * value is out of bounds or, for the status, not one of the four values.
   */
  function ValidateUpdate(q: UpdateRequest): (r: Result<AppointmentUpdate, set<Field>>)
    ensures r.Success? ==> ValidUpdate(r.value)
    ensures r.Success? ==> r.value.title == q.title && r.value.description == q.description
                           && r.value.dateTime == q.dateTime && r.value.durationMinutes == q.durationMinutes
    ensures r.Success? ==> (r.value.status.Some? <==> q.status.Some?)
    ensures r.Success? && q.status.Some? ==> StatusValue(r.value.status.value) == q.status.value
    ensures r.Failure? ==> r.error != {}
    ensures r.Failure? ==> (TitleField in r.error <==> q.title.Some? && !ValidTitle(q.title.value))
    ensures r.Failure? ==> (DurationField in r.error <==> q.durationMinutes.Some? && !ValidDuration(q.durationMinutes.value))
    ensures r.Failure? ==> (StatusField in r.error <==> q.status.Some? && ParseStatus(q.status.value).None?)
    ensures r.Failure? ==> r.error <= {TitleField, DurationField, StatusField}
  {
    var status := if q.status.Some? then ParseStatus(q.status.value) else None;
    var bad := (if q.title.None? || ValidTitle(q.title.value) then {} else {TitleField})
               + (if q.durationMinutes.None? || ValidDuration(q.durationMinutes.value) then {} else {DurationField})
               + (if q.status.None? || status.Some? then {} else {StatusField});
    if bad == {} then Success(AppointmentUpdate(q.title, q.description, q.dateTime, q.durationMinutes, status))
    else Failure(bad)
  }

  /** Setting one field of a record to a new value. */
  datatype FieldValue =
    | SetTitle(title: string)
    | SetDescription(description: Option<string>)
    | SetDateTime(dateTime: int)
    | SetDuration(minutes: int)
    | SetStatus(status: Status)

  function FieldOf(v: FieldValue): Field
  {
    match v
    case SetTitle(_) => TitleField
    case SetDescription(_) => DescriptionField
    case SetDateTime(_) => DateTimeField
    case SetDuration(_) => DurationField
    case SetStatus(_) => StatusField
  }

  /** Whether the payload sets field `f`. */
  predicate IsSet(u: AppointmentUpdate, f: Field)
  {
    match f
    case TitleField => u.title.Some?
    case DescriptionField => u.description.Some?
    case DateTimeField => u.dateTime.Some?
    case DurationField => u.durationMinutes.Some?
    case StatusField => u.status.Some?
  }

  function Item<T>(o: Option<T>, make: T -> FieldValue): seq<FieldValue>
  {
    if o.Some? then [make(o.value)] else []
  }

  /**
   * The set fields of a payload with their values, in declaration order,
   * as a dump that excludes unset fields lists them.  No field occurs twice.
   */
  function Dump(u: AppointmentUpdate): (d: seq<FieldValue>)
    ensures forall i :: 0 <= i < |d| ==> IsSet(u, FieldOf(d[i]))
    ensures forall i, j :: 0 <= i < j < |d| ==> FieldOf(d[i]) != FieldOf(d[j])
  {
    Item(u.title, t => SetTitle(t))
    + Item(u.description, d => SetDescription(d))
    + Item(u.dateTime, t => SetDateTime(t))
    + Item(u.durationMinutes, m => SetDuration(m))
    + Item(u.status, s => SetStatus(s))
  }

  /** The keys of the dump. */
  function Keys(u: AppointmentUpdate): (k: set<Field>)
    ensures forall f :: f in k <==> IsSet(u, f)
  {
    var d := Dump(u);
    DumpCovers(u);
    set i | 0 <= i < |d| :: FieldOf(d[i])
  }

  /** Every set field occurs in the dump. */
  lemma DumpCovers(u: AppointmentUpdate)
    ensures forall f :: IsSet(u, f) ==> exists i :: 0 <= i < |Dump(u)| && FieldOf(Dump(u)[i]) == f
  {
    var t := Item(u.title, t => SetTitle(t));
    var ds := Item(u.description, d => SetDescription(d));
    var dt := Item(u.dateTime, t => SetDateTime(t));
    var du := Item(u.durationMinutes, m => SetDuration(m));
    var st := Item(u.status, s => SetStatus(s));
    var d := Dump(u);
    assert d == t + ds + dt + du + st;
    forall f | IsSet(u, f)
      ensures exists i :: 0 <= i < |d| && FieldOf(d[i]) == f
    {
      var i := match f
        case TitleField => 0
        case DescriptionField => |t|
        case DateTimeField => |t| + |ds|
        case DurationField => |t| + |ds| + |dt|
        case StatusField => |t| + |ds| + |dt| + |du|;
      assert FieldOf(d[i]) == f;
    }
  }

  /** The key set is exactly `{status}` when the status and nothing else is set. */
  lemma KeysOnlyStatus(u: AppointmentUpdate)
    ensures Keys(u) == {StatusField} <==>
            u.status.Some? && u.title.None? && u.description.None? && u.dateTime.None? && u.durationMinutes.None?
  {
    var k := Keys(u);
    if k == {StatusField} {
      assert TitleField !in k && DescriptionField !in k && DateTimeField !in k && DurationField !in k;
      assert StatusField in k;
    }
    if u.status.Some? && u.title.None? && u.description.None? && u.dateTime.None? && u.durationMinutes.None? {
      assert forall f :: f in k <==> f == StatusField;
    }
  }
}
