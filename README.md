# Appointment booking engine, modelled in Dafny

This project models the booking engine of a small appointment system. Clients book time slots with providers. Providers confirm, cancel or complete appointments. Who may do what is decided by the caller's role and by the caller's relation to the appointment.

The model has four modules:

- `Wrappers` (`wrappers.dfy`): `Option`, `Result` and `Outcome` datatypes.
- `Models` (`models.dfy`): the user roles, the appointment status with its string values, the appointment record, and `NewAppointment`, which builds a record with the column defaults (status pending, duration 60 minutes).
- `Schemas` (`schemas.dfy`): the request payloads and their validation. A create request needs a title of 3 to 100 characters, a description of at most 500 characters if one is given, and a duration of 15 to 480 minutes that defaults to 60. Every field of an update request is optional; a given title or duration carries the same bounds, and a given status must be one of the four values. `Dump` and `Keys` are the set fields of an update payload, as the endpoint reads them.
- `Booking` (`booking.dfy`): the endpoints' logic.
  - The conflict rule `Overlaps`/`HasConflict` gives every existing appointment of the provider a fixed 30-minute occupied window, whatever its stored duration and whatever its status.
  - `Find` and `ReadOne` look up one appointment.
  - `Mine`, `Page` and `ListMine` list the caller's appointments with offset/limit pagination.
  - `Patch` is the partial update. `ApplyUpdate` performs it as the endpoint does, setting the dumped fields one at a time in a loop.
  - The class `Store` holds the user table (id to role), the appointment table in insertion order, and the next id to assign. Its methods `Create`, `Update` and `Delete` change the table. Each one states its error cases in the order the endpoint checks them, and states the whole new state.

Date-times are integer minutes, so the endpoint's 30-minute `timedelta` is `+ 30`. The authenticated caller is a parameter (`User`: id and role). Payloads reach `Store.Create` and `Store.Update` already validated, as the web framework validates a body before the handler runs; `ValidateCreate` and `ValidateUpdate` model that step.

`Store.Valid` is the invariant that every method keeps:

- ids strictly increase along the table;
- every id is below the next id;
- every record keeps the title and duration bounds.

The description bound is deliberately not part of it. An update payload puts no bound on the description, so a client can store a longer one; `UpdateMayExceedDescriptionBound` exhibits this. The endpoints' response schema does carry the 500-character bound, so in the running service that update's own response, and every later read or listing that includes the record, would fail response validation with an internal error. Response validation belongs to the framework plumbing this model leaves out, so `ReadOne` and `ListMine` return such a record normally.

Three behaviours of the code that a reader may not expect, which the model keeps:

- The conflict rule does not rule out every overlap. A new booking whose span strictly contains an existing 30-minute window is admitted (`ContainedWindowNotFlagged`). So a provider's created appointments are not pairwise non-overlapping in general. `OverlapsCharacterised` states exactly which windows the rule flags.
- A client editing their own pending appointment may set the status too. Only the provider is restricted to the status.
- Listing by provider is the branch for every role other than client.

## Model

| member | source | states |
|---|---|---|
| `Models.ParseStatus` | app/models/appointment.py:8-12 | a status is read from its string value; a string that is not one of the four values is refused |
| `Models.StatusValues` | app/models/appointment.py:8-12 | exactly the four strings "pending", "confirmed", "cancelled", "completed" name a status, and each string round-trips |
| `Models.NewAppointment` | app/models/appointment.py:15-37 | a record takes the given fields; an omitted duration becomes 60 and an omitted status becomes pending |
| `Schemas.DefaultDurationIsValid` | app/schemas/appointment.py:11 | the default duration of 60 lies within the accepted range [15, 480] |
| `Schemas.ValidateCreate` | app/schemas/appointment.py:7-15 | an accepted create payload meets the title, description and duration bounds, carries the request's fields and the provider id, and has duration 60 when none was sent; a refusal names exactly the fields that are out of bounds |
| `Schemas.ValidateUpdate` | app/schemas/appointment.py:18-23 | an accepted update payload keeps exactly the fields that were set; a set title or duration is within bounds; a set status is parsed to one of the four values; the description is unbounded; a refusal names exactly the offending fields |
| `Schemas.Dump` | app/api/v1/endpoints/appointments.py:197 | the dump of an update lists only fields the payload sets, none of them twice |
| `Schemas.Keys` | app/api/v1/endpoints/appointments.py:190 | a field is among the dump's keys exactly when the payload sets it |
| `Schemas.KeysOnlyStatus` | app/api/v1/endpoints/appointments.py:190 | the key set is `{status}` exactly when the status is set and no other field is |
| `Booking.HasConflict` | app/api/v1/endpoints/appointments.py:49-72 | a conflict is flagged exactly when some stored appointment of the same provider, of any status, has its fixed 30-minute window containing the candidate's start (`e <= start < e+30`) or its end (`e < end <= e+30`) |
| `Booking.OverlapsCharacterised` | app/api/v1/endpoints/appointments.py:54-72 | for a candidate of positive length, the rule flags exactly the windows that intersect the candidate, except windows lying strictly inside it |
| `Booking.ContainedWindowNotFlagged` | app/api/v1/endpoints/appointments.py:58-69 | a 10:00-12:00 candidate is not flagged by an existing appointment at 10:30 |
| `Booking.StoredDurationIgnored` | app/api/v1/endpoints/appointments.py:61-67 | an existing two-hour appointment at 10:00 does not block a booking at 11:00 |
| `Booking.ConflictIgnoresDuration` | app/api/v1/endpoints/appointments.py:61-67 | changing the stored duration of an existing appointment never changes whether a slot is flagged |
| `Booking.ConflictIgnoresStatus` | app/api/v1/endpoints/appointments.py:54-72 | changing the status of a stored appointment never changes whether a slot is flagged |
| `Booking.ScenarioStartInsideWindow` | app/api/v1/endpoints/appointments.py:59-63 | a booking at 10:15 for 30 minutes conflicts with an existing one at 10:00 |
| `Booking.ScenarioEndInsideWindow` | app/api/v1/endpoints/appointments.py:64-68 | a booking at 11:00 for 15 minutes conflicts with an existing one at 11:10 |
| `Booking.Find` | app/api/v1/endpoints/appointments.py:151-153 | the position found holds the first appointment with that id; no position is found exactly when no appointment has it |
| `Booking.FindUnique` | app/models/appointment.py:18 | with distinct, increasing ids, looking up a stored appointment's id finds that appointment |
| `Booking.ReadOne` | app/api/v1/endpoints/appointments.py:151-161 | NotFound exactly when no appointment has the id; a success returns the stored appointment with that id, and the caller is its client or provider; otherwise Forbidden, and then the appointment exists and the caller is neither party |
| `Booking.ReadOneDecided` | app/api/v1/endpoints/appointments.py:154-161 | for an existing id, the read succeeds with that appointment exactly when the caller is a party to it, and is Forbidden otherwise |
| `Booking.Mine` | app/api/v1/endpoints/appointments.py:122-137 | a client's list holds exactly the appointments whose client is the caller; any other caller's list holds exactly those whose provider is the caller |
| `Booking.MineAppend` | app/api/v1/endpoints/appointments.py:122-137 | appending an appointment to the table appends it to the caller's list exactly when it is the caller's, keeping the order |
| `Booking.Page` | app/api/v1/endpoints/appointments.py:126-127 | a page drops `skip` items and keeps at most `limit`: its i-th item is item `skip + i`, and its length is `min(limit, n - skip)`, or 0 when `skip >= n` |
| `Booking.PagesConcatenate` | app/api/v1/endpoints/appointments.py:126-127 | two consecutive pages together are the page of their combined size |
| `Booking.PageAll` | app/api/v1/endpoints/appointments.py:126-127 | offset 0 with a limit as large as the list returns the whole list |
| `Booking.ListMine` | app/api/v1/endpoints/appointments.py:112-138 | with offset `skip` (default 0) and limit `limit` (default 100), the listing returns exactly `min(limit, n - skip)` of the caller's `n` appointments, or none when `skip >= n`; the i-th is the caller's `skip + i`-th in table order; with neither parameter it is the caller's first at most 100 |
| `Booking.ListedIsReadable` | app/api/v1/endpoints/appointments.py:122-161 | every appointment a caller lists they may also read by its id |
| `Booking.Patch` | app/api/v1/endpoints/appointments.py:197-198 | after a partial update each set field has the payload's value and every other field, including id, client and provider, is unchanged |
| `Booking.PatchIdempotent` | app/api/v1/endpoints/appointments.py:197-198 | applying the same update twice is the same as applying it once |
| `Booking.PatchStatusOnly` | app/api/v1/endpoints/appointments.py:188-198 | an update whose keys are exactly `{status}` changes the status and nothing else |
| `Booking.SetAttrsDumpIsPatch` | app/api/v1/endpoints/appointments.py:197-198 | setting the dumped fields one after another yields the partial update |
| `Booking.ApplyUpdate` | app/api/v1/endpoints/appointments.py:197-198 | the loop over the set fields produces exactly the partial update of the record |
| `Booking.PatchWellFormed` | app/schemas/appointment.py:19-22 | a valid update keeps a record's title and duration within bounds |
| `Booking.UpdateMayExceedDescriptionBound` | app/schemas/appointment.py:8-20 | an update that passes validation can give a record a description longer than 500 characters |
| `Booking.RemoveAt` | app/api/v1/endpoints/appointments.py:230 | removing one record keeps the ids in order, leaves no record with the removed id, and keeps every record with another id |
| `Booking.Store.constructor` | app/models/appointment.py:15-18 | a fresh store has the given users, no appointments, and assigns id 1 next |
| `Booking.Store.Create` | app/api/v1/endpoints/appointments.py:31-97 | a non-client caller gets NotClient; then a missing provider gets ProviderNotFound; then a flagged slot gets SlotUnavailable; on any failure the store is unchanged; otherwise exactly one appointment is appended, with the next id, status pending, the caller as client and the title, description, date-time, duration and provider from the input; the invariant is kept |
| `Booking.Store.Update` | app/api/v1/endpoints/appointments.py:175-203 | a missing id gives NotFound; the client, even when also the provider, gets InvalidTransition unless the appointment is pending; otherwise the provider gets ProvidersStatusOnly unless the keys are exactly `{status}`; anyone else gets Forbidden; on success only that record changes, to its partial update; failures change nothing; the invariant is kept |
| `Booking.Store.Delete` | app/api/v1/endpoints/appointments.py:216-231 | a missing id gives NotFound; a caller who is not the client gets Forbidden, before the status is looked at; a status other than pending gives InvalidState; success removes exactly that record and keeps the rest in order; failures change nothing |
| `Booking.CreatedIsReadable` | app/api/v1/endpoints/appointments.py:81-97 | an appointment just appended with a fresh, larger id is readable by its client and appears at the end of that client's list |

## Left out

- HTTP routing, dependency injection, status codes and the exception plumbing: outcomes are `Result`/`Outcome` values with an `Error` variant per refusal.
- Validation of the endpoints' responses against the output schema: a stored description over 500 characters would make that validation fail, and the model returns the record instead.
- The database session (`add`, `commit`, `refresh`, `rollback`), the catch-all internal-error path and logging: storage never fails in the model.
- Authentication: the caller is a parameter, so the unauthenticated case does not arise.
- The server-generated `created_at` and `updated_at` timestamps, the ORM relationships and the delete cascades: they do not bear on the booking rules.
- The race between the conflict check and the insert under concurrent requests: the model is sequential.
- Registering users and changing roles: the user table is fixed when the store is made. `app/schemas/user.py`, `app/core/config.py`, `app/main.py` and the root `main.py` are not part of this model.
- Calendar arithmetic and time zones: date-times are integer minutes.
- Booking.ListMine: takes `skip` and `limit`, when given, as natural numbers; when omitted they default to 0 and 100. The endpoint accepts any integer, and what a negative offset or limit does is decided by the database engine, which is not part of this model.
- Booking.Mine: the listing query has no ORDER BY. The model returns rows in insertion order, which is also id order.
- Booking.Store.Create: ids come from a counter that never reuses an id. The database's own id assignment is not modelled.
- Schemas.ValidateUpdate: an explicit null for the title, date-time, duration or status cannot be written in the model. The endpoint would copy such a null onto a non-nullable column, and the commit would fail on the internal-error path. An explicit null description is modelled, as `Some(None)`: it clears the description.
- Schemas.ValidateCreate: a refusal is the set of offending fields. The validator's messages, and its handling of missing or mistyped required fields, are not modelled.
