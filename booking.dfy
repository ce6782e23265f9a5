/**
 * The booking engine behind the appointment endpoints: the slot-conflict
 * rule, the lookups, the listing with pagination, the partial update, and
 * the store that create, update and delete change.
 */
module Booking {
  import opened Wrappers
  import opened Models
  import opened Schemas

  /** The ways an endpoint refuses a request. */
  datatype Error =
    | NotClient            // only clients create appointments
    | ProviderNotFound     // no user with that id and the provider role
    | SlotUnavailable      // the conflict rule flags the slot
    | NotFound             // no appointment with that id
    | Forbidden            // the caller is not a party allowed to act
    | InvalidTransition    // the client edits an appointment that is not pending
    | ProvidersStatusOnly  // the provider sets something besides the status
    | InvalidState         // the client deletes an appointment that is not pending

  // ---------------------------------------------------------------------
  // Slot conflicts

  /**
   * The occupied window of an existing appointment, in minutes.  It is
   * fixed: the stored duration of that appointment plays no part.
   */
  const OccupiedWindow: int := 30

  /**
   * The conflict rule as the availability query states it: the fixed window
   * starting at `existingStart` contains the candidate's start, or its end.
   */
  predicate Overlaps(existingStart: int, start: int, end: int)
  {
    (existingStart <= start && existingStart + OccupiedWindow > start)
    || (existingStart < end && existingStart + OccupiedWindow >= end)
  }

  /** Appointment `a`, whatever its status, blocks the candidate slot of `providerId`. */
  predicate Blocks(a: Appointment, providerId: int, start: int, end: int)
  {
    a.providerId == providerId && Overlaps(a.dateTime, start, end)
  }

  /** Whether some stored appointment blocks the candidate slot `[start, end)`. */
  function HasConflict(appts: seq<Appointment>, providerId: int, start: int, end: int): (b: bool)
    ensures b <==> exists a :: a in appts && Blocks(a, providerId, start, end)
    decreases |appts|
  {
    if appts == [] then false
    else
      assert forall a :: a in appts <==> a == appts[0] || a in appts[1..];
      Blocks(appts[0], providerId, start, end) || HasConflict(appts[1..], providerId, start, end)
  }

  /**
   * For a candidate of positive length the rule flags exactly the windows
   * that intersect the candidate, except those lying strictly inside it.
   */
  lemma OverlapsCharacterised(existingStart: int, start: int, end: int)
    requires start < end
    ensures Overlaps(existingStart, start, end) <==>
            (existingStart < end && start < existingStart + OccupiedWindow)
            && !(start < existingStart && existingStart + OccupiedWindow < end)
  {
  }

  /** A booking for 10:00-12:00 is not refused by an existing one at 10:30. */
  lemma ContainedWindowNotFlagged()
    ensures !Overlaps(630, 600, 720)
  {
  }

  /** An existing two-hour appointment at 10:00 does not block 11:00. */
  lemma StoredDurationIgnored(a: Appointment)
    requires a.dateTime == 600 && a.durationMinutes == 120
    ensures !HasConflict([a], a.providerId, 660, 690)
  {
  }

  /** The stored duration of an existing appointment never affects the flag. */
  lemma ConflictIgnoresDuration(appts: seq<Appointment>, k: nat, d: int, providerId: int, start: int, end: int)
    requires k < |appts|
    ensures HasConflict(appts[k := appts[k].(durationMinutes := d)], providerId, start, end)
            == HasConflict(appts, providerId, start, end)
  {
    var appts' := appts[k := appts[k].(durationMinutes := d)];
    if HasConflict(appts, providerId, start, end) {
      var a :| a in appts && Blocks(a, providerId, start, end);
      var i :| 0 <= i < |appts| && appts[i] == a;
      assert Blocks(appts'[i], providerId, start, end);
    }
    if HasConflict(appts', providerId, start, end) {
      var a :| a in appts' && Blocks(a, providerId, start, end);
      var i :| 0 <= i < |appts'| && appts'[i] == a;
      assert appts[i].providerId == a.providerId && appts[i].dateTime == a.dateTime;
      assert Blocks(appts[i], providerId, start, end);
      assert appts[i] in appts;
    }
  }

  /** A cancelled or completed appointment blocks its slot like a pending one. */
  lemma ConflictIgnoresStatus(appts: seq<Appointment>, k: nat, s: Status, providerId: int, start: int, end: int)
    requires k < |appts|
    ensures HasConflict(appts[k := appts[k].(status := s)], providerId, start, end)
            == HasConflict(appts, providerId, start, end)
  {
    var appts' := appts[k := appts[k].(status := s)];
    if HasConflict(appts, providerId, start, end) {
      var a :| a in appts && Blocks(a, providerId, start, end);
      var i :| 0 <= i < |appts| && appts[i] == a;
      assert Blocks(appts'[i], providerId, start, end);
    }
    if HasConflict(appts', providerId, start, end) {
      var a :| a in appts' && Blocks(a, providerId, start, end);
      var i :| 0 <= i < |appts'| && appts'[i] == a;
      assert appts[i].providerId == a.providerId && appts[i].dateTime == a.dateTime;
      assert Blocks(appts[i], providerId, start, end);
      assert appts[i] in appts;
    }
  }

  /** Booking 10:15 for 30 minutes next to an existing 10:00 booking is refused. */
  lemma ScenarioStartInsideWindow(a: Appointment)
    requires a.dateTime == 600
    ensures HasConflict([a], a.providerId, 615, 645)
  {
  }

  /** Booking 11:00 for 15 minutes next to an existing 11:10 booking is refused. */
  lemma ScenarioEndInsideWindow(a: Appointment)
    requires a.dateTime == 670
    ensures HasConflict([a], a.providerId, 660, 675)
  {
  }

  // ---------------------------------------------------------------------
  // Lookups and listing

  /** Ids strictly increase along the store, which keeps rows in insertion order. */
  ghost predicate IdsIncreasing(appts: seq<Appointment>)
  {
    forall i, j :: 0 <= i < j < |appts| ==> appts[i].id < appts[j].id
  }

  /** The position of the first appointment with id `id`. */
  function Find(appts: seq<Appointment>, id: int): (r: Option<nat>)
    ensures r.Some? ==> r.value < |appts| && appts[r.value].id == id
    ensures r.Some? ==> forall i :: 0 <= i < r.value ==> appts[i].id != id
    ensures r.None? <==> forall a :: a in appts ==> a.id != id
    decreases |appts|
  {
    if appts == [] then None
    else if appts[0].id == id then Some(0)
    else match Find(appts[1..], id)
      case None => None
      case Some(k) => Some(k + 1)
  }

  /** With distinct ids, the appointment found is the only one with that id. */
  lemma FindUnique(appts: seq<Appointment>, k: nat)
    requires IdsIncreasing(appts) && k < |appts|
    ensures Find(appts, appts[k].id) == Some(k)
  {
  }

  /** The caller is the appointment's client or its provider. */
  predicate IsParty(a: Appointment, userId: int)
  {
    a.clientId == userId || a.providerId == userId
  }

  /** Reads one appointment: it must exist and the caller must be a party to it. */
  function ReadOne(appts: seq<Appointment>, caller: User, id: int): (r: Result<Appointment, Error>)
    ensures r == Failure(NotFound) <==> forall a :: a in appts ==> a.id != id
    ensures r.Success? ==> r.value in appts && r.value.id == id && IsParty(r.value, caller.id)
    ensures r.Failure? ==> r.error == NotFound || r.error == Forbidden
    ensures r == Failure(Forbidden) ==>
            exists a :: a in appts && a.id == id && !IsParty(a, caller.id)
  {
    match Find(appts, id)
    case None => Failure(NotFound)
    case Some(k) =>
      var a := appts[k];
      if a.clientId != caller.id && a.providerId != caller.id then Failure(Forbidden)
      else Success(a)
  }

  /** With distinct ids, a read succeeds exactly when the caller is a party. */
  lemma ReadOneDecided(appts: seq<Appointment>, caller: User, k: nat)
    requires IdsIncreasing(appts) && k < |appts|
    ensures ReadOne(appts, caller, appts[k].id) ==
            if IsParty(appts[k], caller.id) then Success(appts[k]) else Failure(Forbidden)
  {
  }

  /** Whose appointments a caller lists: a client's own bookings, anyone else's assignments. */
  predicate ListedFor(caller: User, a: Appointment)
  {
    if caller.role == Client then a.clientId == caller.id else a.providerId == caller.id
  }

  /** The caller's appointments, in store order. */
  function Mine(appts: seq<Appointment>, caller: User): (r: seq<Appointment>)
    ensures forall a :: a in r <==> a in appts && ListedFor(caller, a)
    ensures |r| <= |appts|
    decreases |appts|
  {
    if appts == [] then []
    else if ListedFor(caller, appts[0]) then [appts[0]] + Mine(appts[1..], caller)
    else Mine(appts[1..], caller)
  }

  function Min(x: int, y: int): int { if x <= y then x else y }

  /** Drops `skip` items, then keeps at most `limit`. */
  function Page<T>(s: seq<T>, skip: nat, limit: nat): (r: seq<T>)
    ensures |r| == if skip >= |s| then 0 else Min(limit, |s| - skip)
    ensures forall i :: 0 <= i < |r| ==> skip + i < |s| && r[i] == s[skip + i]
  {
    if skip >= |s| then [] else s[skip..Min(skip + limit, |s|)]
  }

  /** Consecutive pages join up into one larger page. */
  lemma PagesConcatenate<T>(s: seq<T>, skip: nat, n: nat, m: nat)
    ensures Page(s, skip, n) + Page(s, skip + n, m) == Page(s, skip, n + m)
  {
  }

  /** One page as large as the list returns all of it. */
  lemma PageAll<T>(s: seq<T>)
    ensures Page(s, 0, |s|) == s
  {
  }

  /** The listing's query defaults: no offset, at most 100 rows. */
  const DefaultSkip: nat := 0
  const DefaultLimit: nat := 100

  /**
   * Lists the caller's own appointments, one page of them; an omitted
   * offset or limit takes its default.
   */
  function ListMine(appts: seq<Appointment>, caller: User, skip: Option<nat>, limit: Option<nat>): (r: seq<Appointment>)
    ensures var s := if skip.Some? then skip.value else DefaultSkip;
            var l := if limit.Some? then limit.value else DefaultLimit;
            var mine := Mine(appts, caller);
            && |r| == (if s >= |mine| then 0 else Min(l, |mine| - s))
            && forall i :: 0 <= i < |r| ==> s + i < |mine| && r[i] == mine[s + i]
    ensures forall a :: a in r ==> a in appts && ListedFor(caller, a)
    ensures skip.None? && limit.None? ==> |r| <= DefaultLimit && r == Mine(appts, caller)[..|r|]
  {
    var s := if skip.Some? then skip.value else DefaultSkip;
    var l := if limit.Some? then limit.value else DefaultLimit;
    Page(Mine(appts, caller), s, l)
  }

  /** Every appointment a caller lists, the caller may also read by its id. */
  lemma ListedIsReadable(appts: seq<Appointment>, caller: User, skip: Option<nat>, limit: Option<nat>, a: Appointment)
    requires IdsIncreasing(appts)
    requires a in ListMine(appts, caller, skip, limit)
    ensures ReadOne(appts, caller, a.id) == Success(a)
  {
    var k :| 0 <= k < |appts| && appts[k] == a;
    ReadOneDecided(appts, caller, k);
  }

  /** A listing grows by a new appointment exactly when it is the caller's. */
  lemma {:induction false} MineAppend(appts: seq<Appointment>, caller: User, a: Appointment)
    ensures Mine(appts + [a], caller) == Mine(appts, caller) + (if ListedFor(caller, a) then [a] else [])
    decreases |appts|
  {
    if appts == [] {
      assert appts + [a] == [a];
      assert Mine([a][1..], caller) == [];
    } else {
      assert (appts + [a])[0] == appts[0];
      assert (appts + [a])[1..] == appts[1..] + [a];
      MineAppend(appts[1..], caller, a);
    }
  }

  // ---------------------------------------------------------------------
  // Partial update

  /**
   * The partial update: each field the payload sets takes the payload's
   * value, every other field keeps its value.
   */
  function Patch(a: Appointment, u: AppointmentUpdate): (b: Appointment)
    ensures b.id == a.id && b.clientId == a.clientId && b.providerId == a.providerId
    ensures b.title == (if u.title.Some? then u.title.value else a.title)
    ensures b.description == (if u.description.Some? then u.description.value else a.description)
    ensures b.dateTime == (if u.dateTime.Some? then u.dateTime.value else a.dateTime)
    ensures b.durationMinutes == (if u.durationMinutes.Some? then u.durationMinutes.value else a.durationMinutes)
    ensures b.status == (if u.status.Some? then u.status.value else a.status)
  {
    Appointment(a.id,
                if u.title.Some? then u.title.value else a.title,
                if u.description.Some? then u.description.value else a.description,
                if u.dateTime.Some? then u.dateTime.value else a.dateTime,
                if u.durationMinutes.Some? then u.durationMinutes.value else a.durationMinutes,
                if u.status.Some? then u.status.value else a.status,
                a.clientId, a.providerId)
  }

  /** Applying the same update twice is applying it once. */
  lemma PatchIdempotent(a: Appointment, u: AppointmentUpdate)
    ensures Patch(Patch(a, u), u) == Patch(a, u)
  {
  }

  /** An update that sets only the status changes only the status. */
  lemma PatchStatusOnly(a: Appointment, u: AppointmentUpdate)
    requires Keys(u) == {StatusField}
    ensures u.status.Some? && Patch(a, u) == a.(status := u.status.value)
  {
    KeysOnlyStatus(u);
  }

  /** Setting one attribute of the record. */
  function SetAttr(a: Appointment, v: FieldValue): Appointment
  {
    match v
    case SetTitle(t) => a.(title := t)
    case SetDescription(d) => a.(description := d)
    case SetDateTime(t) => a.(dateTime := t)
    case SetDuration(m) => a.(durationMinutes := m)
    case SetStatus(s) => a.(status := s)
  }

  /** Setting attributes one after another, in order. */
  function SetAttrs(a: Appointment, vs: seq<FieldValue>): Appointment
    decreases |vs|
  {
    if vs == [] then a else SetAttr(SetAttrs(a, vs[..|vs| - 1]), vs[|vs| - 1])
  }

  lemma {:induction false} SetAttrsAppend(a: Appointment, xs: seq<FieldValue>, ys: seq<FieldValue>)
    ensures SetAttrs(a, xs + ys) == SetAttrs(SetAttrs(a, xs), ys)
    decreases |ys|
  {
    if ys == [] {
      assert xs + ys == xs;
    } else {
      assert (xs + ys)[..|xs + ys| - 1] == xs + ys[..|ys| - 1];
      SetAttrsAppend(a, xs, ys[..|ys| - 1]);
    }
  }

  lemma SetAttrsItem<T>(a: Appointment, o: Option<T>, make: T -> FieldValue)
    ensures SetAttrs(a, Item(o, make)) == if o.Some? then SetAttr(a, make(o.value)) else a
  {
  }

  /** Setting the dumped fields one by one is the partial update. */
  lemma SetAttrsDumpIsPatch(a: Appointment, u: AppointmentUpdate)
    ensures SetAttrs(a, Dump(u)) == Patch(a, u)
  {
    var t := Item(u.title, t => SetTitle(t));
    var ds := Item(u.description, d => SetDescription(d));
    var dt := Item(u.dateTime, t => SetDateTime(t));
    var du := Item(u.durationMinutes, m => SetDuration(m));
    var st := Item(u.status, s => SetStatus(s));
    assert Dump(u) == t + ds + dt + du + st;
    SetAttrsAppend(a, t + ds + dt + du, st);
    SetAttrsAppend(a, t + ds + dt, du);
    SetAttrsAppend(a, t + ds, dt);
    SetAttrsAppend(a, t, ds);
    var a1 := SetAttrs(a, t);
    var a2 := SetAttrs(a1, ds);
    var a3 := SetAttrs(a2, dt);
    var a4 := SetAttrs(a3, du);
    SetAttrsItem(a, u.title, t => SetTitle(t));
    SetAttrsItem(a1, u.description, d => SetDescription(d));
    SetAttrsItem(a2, u.dateTime, t => SetDateTime(t));
    SetAttrsItem(a3, u.durationMinutes, m => SetDuration(m));
    SetAttrsItem(a4, u.status, s => SetStatus(s));
  }

  /** Copies every set field of the payload onto the record, one at a time. */
  method ApplyUpdate(a: Appointment, u: AppointmentUpdate) returns (b: Appointment)
    ensures b == Patch(a, u)
  {
    var fields := Dump(u);
    b := a;
    var i := 0;
    while i < |fields|
      invariant 0 <= i <= |fields|
      invariant b == SetAttrs(a, fields[..i])
    {
      assert fields[..i + 1][..i] == fields[..i];
      b := SetAttr(b, fields[i]);
      i := i + 1;
    }
    assert fields[..|fields|] == fields;
    SetAttrsDumpIsPatch(a, u);
  }

  /** A stored record keeps the title and duration bounds of the payloads. */
  predicate WellFormed(a: Appointment)
  {
    ValidTitle(a.title) && ValidDuration(a.durationMinutes)
  }

  /** A valid update keeps a record well formed. */
  lemma PatchWellFormed(a: Appointment, u: AppointmentUpdate)
    requires WellFormed(a) && ValidUpdate(u)
    ensures WellFormed(Patch(a, u))
  {
  }

  /**
   * The description bound of the create payload is not kept: a pending
   * record's client may set a description of any length.
   */
  lemma UpdateMayExceedDescriptionBound(a: Appointment)
    ensures var u := AppointmentUpdate(None, Some(Some(seq(DescriptionMaxLength + 1, _ => 'x'))), None, None, None);
            ValidUpdate(u) && !ValidDescription(Patch(a, u).description)
  {
  }

  // ---------------------------------------------------------------------
  // Removal

  /** Removing the record at position `k` keeps order and drops only that id. */
  lemma RemoveAt(appts: seq<Appointment>, k: nat)
    requires IdsIncreasing(appts) && k < |appts|
    ensures var rest := appts[..k] + appts[k + 1..];
            IdsIncreasing(rest)
            && Find(rest, appts[k].id).None?
            && forall b :: b in rest <==> b in appts && b.id != appts[k].id
  {
  }

  // ---------------------------------------------------------------------
  // The store

  predicate IsProvider(users: map<int, Role>, id: int)
  {
    id in users && users[id] == Provider
  }

  /**
   * The appointment table in insertion order, the user table giving each
   * user id a role, and the next id the table will assign.
   */
  class Store {
    var users: map<int, Role>
    var appointments: seq<Appointment>
    var nextId: int

    ghost predicate Valid()
      reads this
    {
      && IdsIncreasing(appointments)
      && forall i :: 0 <= i < |appointments| ==> appointments[i].id < nextId && WellFormed(appointments[i])
    }

    constructor (users: map<int, Role>)
      ensures Valid()
      ensures this.users == users && appointments == [] && nextId == 1
    {
      this.users := users;
      appointments := [];
      nextId := 1;
    }

    /**
     * Books an appointment: the caller must be a client, the provider must
     * exist, and the conflict rule must not flag the slot.
     */
    method Create(caller: User, input: AppointmentCreate) returns (r: Result<Appointment, Error>)
      requires Valid() && ValidCreate(input)
      modifies this
      ensures Valid() && users == old(users)
      ensures caller.role != Client ==> r == Failure(NotClient)
      ensures caller.role == Client && !IsProvider(users, input.providerId) ==> r == Failure(ProviderNotFound)
      ensures caller.role == Client && IsProvider(users, input.providerId)
              && HasConflict(old(appointments), input.providerId, input.dateTime, input.dateTime + input.durationMinutes)
              ==> r == Failure(SlotUnavailable)
      ensures r.Success? <==>
              caller.role == Client && IsProvider(users, input.providerId)
              && !HasConflict(old(appointments), input.providerId, input.dateTime, input.dateTime + input.durationMinutes)
      ensures r.Failure? ==> appointments == old(appointments) && nextId == old(nextId)
      ensures r.Success? ==>
              && appointments == old(appointments) + [r.value]
              && nextId == old(nextId) + 1
              && r.value.id == old(nextId)
              && r.value.status == Pending
              && r.value.clientId == caller.id
              && r.value.providerId == input.providerId
              && r.value.title == input.title
              && r.value.description == input.description
              && r.value.dateTime == input.dateTime
              && r.value.durationMinutes == input.durationMinutes
    {
      if caller.role != Client {
        return Failure(NotClient);
      }
      if !IsProvider(users, input.providerId) {
        return Failure(ProviderNotFound);
      }
      var start := input.dateTime;
      var end := start + input.durationMinutes;
      if HasConflict(appointments, input.providerId, start, end) {
        return Failure(SlotUnavailable);
      }
      var a := NewAppointment(nextId, input.title, input.description, input.dateTime,
                              Some(input.durationMinutes), Some(Pending), caller.id, input.providerId);
      appointments := appointments + [a];
      nextId := nextId + 1;
      r := Success(a);
    }

    /**
     * Edits an appointment.  Its client may edit it while it is pending; its
     * provider may set the status and nothing else; no one else may edit it.
     */
    method Update(caller: User, id: int, u: AppointmentUpdate) returns (r: Result<Appointment, Error>)
      requires Valid() && ValidUpdate(u)
      modifies this
      ensures Valid() && users == old(users) && nextId == old(nextId)
      ensures Find(old(appointments), id).None? ==> r == Failure(NotFound)
      ensures Find(old(appointments), id).Some? ==>
              var a := old(appointments)[Find(old(appointments), id).value];
              r == if caller.id == a.clientId then
                     (if a.status != Pending then Failure(InvalidTransition) else Success(Patch(a, u)))
                   else if caller.id == a.providerId then
                     (if Keys(u) != {StatusField} then Failure(ProvidersStatusOnly) else Success(Patch(a, u)))
                   else Failure(Forbidden)
      ensures r.Failure? ==> appointments == old(appointments)
      ensures r.Success? ==> appointments == old(appointments)[Find(old(appointments), id).value := r.value]
    {
      var k := Find(appointments, id);
      if k.None? {
        return Failure(NotFound);
      }
      var a := appointments[k.value];
      if caller.id == a.clientId {
        if a.status != Pending {
          return Failure(InvalidTransition);
        }
      } else if caller.id == a.providerId {
        if Keys(u) != {StatusField} {
          return Failure(ProvidersStatusOnly);
        }
      } else {
        return Failure(Forbidden);
      }
      var b := ApplyUpdate(a, u);
      PatchWellFormed(a, u);
      appointments := appointments[k.value := b];
      r := Success(b);
    }

    /** Deletes an appointment: only its client may, and only while it is pending. */
    method Delete(caller: User, id: int) returns (r: Outcome<Error>)
      requires Valid()
      modifies this
      ensures Valid() && users == old(users) && nextId == old(nextId)
      ensures Find(old(appointments), id).None? ==> r == Fail(NotFound)
      ensures Find(old(appointments), id).Some? ==>
              var a := old(appointments)[Find(old(appointments), id).value];
              r == if caller.id != a.clientId then Fail(Forbidden)
                   else if a.status != Pending then Fail(InvalidState)
                   else Pass
      ensures r.Fail? ==> appointments == old(appointments)
      ensures r.Pass? ==>
              var k := Find(old(appointments), id).value;
              appointments == old(appointments)[..k] + old(appointments)[k + 1..]
    {
      var k := Find(appointments, id);
      if k.None? {
        return Fail(NotFound);
      }
      var a := appointments[k.value];
      if caller.id != a.clientId {
        return Fail(Forbidden);
      }
      if a.status != Pending {
        return Fail(InvalidState);
      }
      RemoveAt(appointments, k.value);
      appointments := appointments[..k.value] + appointments[k.value + 1..];
      r := Pass;
    }
  }

  /** A booking just created is readable by the client who made it, and listed for them. */
  lemma CreatedIsReadable(appts: seq<Appointment>, a: Appointment, caller: User)
    requires IdsIncreasing(appts) && (forall b :: b in appts ==> b.id < a.id)
    requires caller.role == Client && a.clientId == caller.id
    ensures ReadOne(appts + [a], caller, a.id) == Success(a)
    ensures Mine(appts + [a], caller) == Mine(appts, caller) + [a]
  {
    var s := appts + [a];
    forall i, j | 0 <= i < j < |s|
      ensures s[i].id < s[j].id
    {
      if j == |appts| {
        assert s[i] in appts;
      }
    }
    ReadOneDecided(s, caller, |appts|);
    MineAppend(appts, caller, a);
  }
}
