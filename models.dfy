/**
 * The persisted records of the booking system: users with a role, and
 * appointments with a status.  Timestamps are integer minutes.
 */
module Models {
  import opened Wrappers

  /** The role of a user; every user has exactly one. */
  datatype Role = Client | Provider

  /** An authenticated principal, or a row of the user table. */
  datatype User = User(id: int, role: Role)

  /** The lifecycle state of an appointment. */
  datatype Status = Pending | Confirmed | Cancelled | Completed

  /** The string value each status is stored and transmitted as. */
  function StatusValue(s: Status): string
  {
    match s
    case Pending => "pending"
    case Confirmed => "confirmed"
    case Cancelled => "cancelled"
    case Completed => "completed"
  }

  /** Reads a status from its string value; any other string is refused. */
  function ParseStatus(v: string): (r: Option<Status>)
    ensures r.Some? ==> StatusValue(r.value) == v
    ensures r.None? ==> forall s :: StatusValue(s) != v
  {
    if v == "pending" then Some(Pending)
    else if v == "confirmed" then Some(Confirmed)
    else if v == "cancelled" then Some(Cancelled)
    else if v == "completed" then Some(Completed)
    else None
  }

  /** Exactly four strings name a status, and each names a different one. */
  lemma StatusValues(s: Status, v: string)
    ensures ParseStatus(StatusValue(s)) == Some(s)
    ensures ParseStatus(v).Some? <==> v in {"pending", "confirmed", "cancelled", "completed"}
  {
  }

  /** The column default of `duration_minutes`. */
  const DefaultDuration: int := 60

  /** The appointment record.  Only the description is nullable. */
  datatype Appointment = Appointment(
    id: int,
    title: string,
    description: Option<string>,
    dateTime: int,
    durationMinutes: int,
    status: Status,
    clientId: int,
    providerId: int)

  /**
   * Builds a record the way the mapped class does: the duration and the
   * status may be omitted and then take their column defaults.
   */
  function NewAppointment(id: int, title: string, description: Option<string>, dateTime: int,
                          durationMinutes: Option<int>, status: Option<Status>,
                          clientId: int, providerId: int): (a: Appointment)
    ensures a.id == id && a.title == title && a.description == description && a.dateTime == dateTime
    ensures a.clientId == clientId && a.providerId == providerId
    ensures durationMinutes.None? ==> a.durationMinutes == DefaultDuration
    ensures durationMinutes.Some? ==> a.durationMinutes == durationMinutes.value
    ensures status.None? ==> a.status == Pending
    ensures status.Some? ==> a.status == status.value
  {
    Appointment(id, title, description, dateTime,
                if durationMinutes.Some? then durationMinutes.value else DefaultDuration,
                if status.Some? then status.value else Pending,
                clientId, providerId)
  }
}
