/**
 * `AppointmentViewSet` of apps/appointments/views.py: creating, updating
 * and deleting appointments with their notifications, the three status
 * actions, and the read-only queries.
 */
module AppointmentViews {
  import opened Wrappers
  import opened CoreModels
  import opened PyValues
  import opened Appointments

  /** A call of `send_notification(appointment, event)`, with the appointment as it was passed. */
  datatype Notification = Notification(appointment: Appointment, event: string)

  /** A status action's refusal carries the `error` text of its 400 response. */
  datatype ViewError = NotFound | Invalid(error: BookingError) | AlreadyInStatus(message: string)

  const AlreadyCancelled: string := "Appointment is already cancelled."
  const AlreadyCompleted: string := "Appointment is already completed."
  const AlreadyNoShow: string := "Appointment is already marked as no-show."

  /** The table after one appointment's status is set; nothing else changes. */
  function WithStatus(rows: map<nat, Appointment>, id: nat, s: Status): (r: map<nat, Appointment>)
    requires id in rows
    ensures r.Keys == rows.Keys
    ensures r[id].status == s && r[id].(status := rows[id].status) == rows[id]
    ensures forall j | j in rows && j != id :: r[j] == rows[j]
  {
    rows[id := rows[id].(status := s)]
  }

  // ------------------------------------------------------------ queries

  /** `upcoming`: the scheduled appointments that start after `now`. */
  function Upcoming(rows: map<nat, Appointment>, now: int): (ids: set<nat>)
    ensures ids <= rows.Keys
    ensures forall id | id in rows :: id in ids <==> rows[id].status == Scheduled && rows[id].start > now
  {
    set id | id in rows && rows[id].status == Scheduled && rows[id].start > now
  }

  /** `by_provider`: the appointments of one provider. */
  function ByProvider(rows: map<nat, Appointment>, providerId: nat): (ids: set<nat>)
    ensures ids <= rows.Keys
    ensures forall id | id in rows :: id in ids <==> rows[id].provider.id == providerId
  {
    set id | id in rows && rows[id].provider.id == providerId
  }

  /** `by_patient`: the appointments of one patient. */
  function ByPatient(rows: map<nat, Appointment>, patientId: nat): (ids: set<nat>)
    ensures ids <= rows.Keys
    ensures forall id | id in rows :: id in ids <==> rows[id].patient.id == patientId
  {
    set id | id in rows && rows[id].patient.id == patientId
  }

  /**
   * The body of `check_conflicts`, given what `Appointment.check_conflicts`
   * returned: `has_conflicts` says whether it returned anything, and
   * `conflicts` is that value when truthy, `{}` otherwise.
   */
  function CheckConflictsBody(conflicts: Option<PyValue>): (body: PyValue)
    ensures body.PyDict? && Keys(body.entries) == ["has_conflicts", "conflicts"]
    ensures Get(body.entries, "has_conflicts") == Some(PyBool(conflicts.Some?))
    ensures conflicts.Some? && Truthy(conflicts.value) ==> Get(body.entries, "conflicts") == conflicts
    ensures !(conflicts.Some? && Truthy(conflicts.value)) ==> Get(body.entries, "conflicts") == Some(PyDict([]))
  {
    PyDict([
      ("has_conflicts", PyBool(conflicts.Some?)),
      ("conflicts", if conflicts.Some? && Truthy(conflicts.value) then conflicts.value else PyDict([]))])
  }

  /** An empty result still reports a conflict; only `None` means there is none. */
  lemma EmptyConflictsStillReported()
    ensures Get(CheckConflictsBody(Some(PyDict([]))).entries, "has_conflicts") == Some(PyBool(true))
    ensures Get(CheckConflictsBody(None).entries, "has_conflicts") == Some(PyBool(false))
  {
  }

  // ------------------------------------------------------------ what status changes do to the rules

  /** Cancelling or completing frees the slot: the calendar stays free of double bookings. */
  lemma DeactivatingKeepsNoDoubleBooking(rows: map<nat, Appointment>, id: nat, s: Status)
    requires NoDoubleBooking(rows) && id in rows && !IsActive(s)
    ensures NoDoubleBooking(WithStatus(rows, id, s))
  {
    var r := WithStatus(rows, id, s);
    forall i, j | i in r && j in r && i != j ensures !(Overlap(r[i], r[j]) && Share(r[i], r[j])) {
      if i != id && j != id {
        assert r[i] == rows[i] && r[j] == rows[j];
      }
    }
  }

  /**
   * `mark_no_show` only refuses an appointment already marked as no-show,
   * so it re-activates a cancelled or completed appointment without any
   * conflict check: a slot given away after a cancellation becomes doubly
   * booked.
   */
  lemma NoShowCanDoubleBook()
    ensures exists rows: map<nat, Appointment>, id: nat ::
      && id in rows
      && NoDoubleBooking(rows)
      && rows[id].status == Cancelled
      && !NoDoubleBooking(WithStatus(rows, id, NoShow))
  {
    var doctor := User(7, true, false, true, Doctor, Role.Provider);
    var cancelled := Appointment(1, Patient.Patient(10, true), doctor, 3, Cancelled, 0, MinimumLength, None);
    var rebooked := Appointment(2, Patient.Patient(11, true), doctor, 3, Scheduled, 0, MinimumLength, None);
    var rows := map[1 := cancelled, 2 := rebooked];
    forall i, j | i in rows && j in rows && i != j ensures !(Overlap(rows[i], rows[j]) && Share(rows[i], rows[j])) {
      assert rows[i].status == Cancelled || rows[j].status == Cancelled;
    }
    var after := WithStatus(rows, 1, NoShow);
    assert Overlap(after[1], after[2]) && Share(after[1], after[2]);
  }

  /** A status action never moves an appointment to another provider or patient. */
  lemma StatusChangeKeepsOwners(rows: map<nat, Appointment>, id: nat, s: Status, providerId: nat, patientId: nat)
    requires id in rows
    ensures ByProvider(WithStatus(rows, id, s), providerId) == ByProvider(rows, providerId)
    ensures ByPatient(WithStatus(rows, id, s), patientId) == ByPatient(rows, patientId)
  {
  }

  /** Only a scheduled appointment is upcoming, so one that is no longer scheduled drops out. */
  lemma UnscheduledNotUpcoming(rows: map<nat, Appointment>, id: nat, s: Status, now: int)
    requires id in rows && s != Scheduled
    ensures id !in Upcoming(WithStatus(rows, id, s), now)
    ensures Upcoming(WithStatus(rows, id, s), now) == Upcoming(rows, now) - {id}
  {
  }

  // ------------------------------------------------------------ the viewset

  /** The appointment table, the notifications sent so far and the next primary key. */
  class AppointmentViewSet {
    var rows: map<nat, Appointment>
    var outbox: seq<Notification>
    var nextId: nat

    ghost predicate Valid()
      reads this
    {
      && WellKeyed(rows)
      && forall id | id in rows :: id < nextId
    }

    constructor ()
      ensures Valid() && rows == map[] && outbox == []
    {
      rows, outbox, nextId := map[], [], 1;
    }

    /** `create` then `perform_create`: insert the validated appointment and notify "created". */
    method Create(attrs: Attrs, requestUser: Option<nat>) returns (r: Result<nat, ViewError>)
      requires Valid()
      modifies this
      ensures Valid()
      ensures RunValidation(attrs, None, false, old(rows)).Err? ==>
        && r == Err(Invalid(RunValidation(attrs, None, false, old(rows)).error))
        && rows == old(rows) && outbox == old(outbox)
      ensures RunValidation(attrs, None, false, old(rows)).Ok? ==>
        && r == Ok(old(nextId)) && old(nextId) !in old(rows)
        && rows == old(rows)[old(nextId) := NewAppointment(old(nextId), WithCreatedByDefault(attrs, requestUser))]
        && outbox == old(outbox) + [Notification(rows[old(nextId)], "created")]
      ensures NoDoubleBooking(old(rows)) ==> NoDoubleBooking(rows)
    {
      var checked := RunValidation(attrs, None, false, rows);
      if checked.Err? {
        return Err(Invalid(checked.error));
      }
      var data := WithCreatedByDefault(attrs, requestUser);
      var id := nextId;
      if NoDoubleBooking(rows) {
        assert RunValidation(data, None, false, rows).Ok?;
        AcceptedCreateKeepsNoDoubleBooking(data, rows, id);
      }
      var appointment := NewAppointment(id, data);
      rows := rows[id := appointment];
      nextId := nextId + 1;
      outbox := outbox + [Notification(appointment, "created")];
      r := Ok(id);
    }

    /** `update`/`partial_update` then `perform_update`: replace the appointment and notify "updated". */
    method Update(id: nat, attrs: Attrs, partial: bool) returns (r: Result<Appointment, ViewError>)
      requires Valid()
      modifies this
      ensures Valid() && nextId == old(nextId)
      ensures id !in old(rows) ==> r == Err(NotFound) && rows == old(rows) && outbox == old(outbox)
      ensures id in old(rows) && RunValidation(attrs, Some(old(rows)[id]), partial, old(rows)).Err? ==>
        && r == Err(Invalid(RunValidation(attrs, Some(old(rows)[id]), partial, old(rows)).error))
        && rows == old(rows) && outbox == old(outbox)
      ensures id in old(rows) && RunValidation(attrs, Some(old(rows)[id]), partial, old(rows)).Ok? ==>
        && r == Ok(Updated(old(rows)[id], attrs))
        && rows == old(rows)[id := Updated(old(rows)[id], attrs)]
        && outbox == old(outbox) + [Notification(Updated(old(rows)[id], attrs), "updated")]
      ensures NoDoubleBooking(old(rows)) ==> NoDoubleBooking(rows)
    {
      if id !in rows {
        return Err(NotFound);
      }
      var checked := RunValidation(attrs, Some(rows[id]), partial, rows);
      if checked.Err? {
        return Err(Invalid(checked.error));
      }
      var appointment := Updated(rows[id], attrs);
      if NoDoubleBooking(rows) {
        AcceptedUpdateKeepsNoDoubleBooking(attrs, rows, id, partial);
      }
      rows := rows[id := appointment];
      outbox := outbox + [Notification(appointment, "updated")];
      r := Ok(appointment);
    }

    /** `perform_destroy`: notify "cancelled" with the appointment as it is, then delete it. */
    method Destroy(id: nat) returns (r: Outcome<ViewError>)
      requires Valid()
      modifies this
      ensures Valid() && nextId == old(nextId)
      ensures id !in old(rows) ==> r == Fail(NotFound) && rows == old(rows) && outbox == old(outbox)
      ensures id in old(rows) ==>
        && r == Pass
        && outbox == old(outbox) + [Notification(old(rows)[id], "cancelled")]
        && rows == old(rows) - {id}
    {
      if id !in rows {
        return Fail(NotFound);
      }
      outbox := outbox + [Notification(rows[id], "cancelled")];
      rows := rows - {id};
      r := Pass;
    }

    /**
     * The shape of `cancel`, `complete` and `mark_no_show`: refuse only an
     * appointment already in the target status; otherwise set the status,
     * save, and notify with the saved appointment.
     */
    method SetStatus(id: nat, target: Status, event: string, refusal: string) returns (r: Result<Appointment, ViewError>)
      requires Valid()
      modifies this
      ensures Valid() && nextId == old(nextId)
      ensures id !in old(rows) ==> r == Err(NotFound) && rows == old(rows) && outbox == old(outbox)
      ensures id in old(rows) && old(rows)[id].status == target ==>
        r == Err(AlreadyInStatus(refusal)) && rows == old(rows) && outbox == old(outbox)
      ensures id in old(rows) && old(rows)[id].status != target ==>
        && rows == WithStatus(old(rows), id, target)
        && r == Ok(rows[id])
        && outbox == old(outbox) + [Notification(rows[id], event)]
    {
      if id !in rows {
        return Err(NotFound);
      }
      var appointment := rows[id];
      if appointment.status == target {
        return Err(AlreadyInStatus(refusal));
      }
      appointment := appointment.(status := target);
      rows := rows[id := appointment];
      outbox := outbox + [Notification(appointment, event)];
      r := Ok(appointment);
    }

    /** `cancel`: any appointment not already cancelled becomes cancelled; notifies "cancelled". */
    method Cancel(id: nat) returns (r: Result<Appointment, ViewError>)
      requires Valid()
      modifies this
      ensures Valid() && nextId == old(nextId)
      ensures id !in old(rows) ==> r == Err(NotFound) && rows == old(rows) && outbox == old(outbox)
      ensures id in old(rows) && old(rows)[id].status == Cancelled ==>
        r == Err(AlreadyInStatus(AlreadyCancelled)) && rows == old(rows) && outbox == old(outbox)
      ensures id in old(rows) && old(rows)[id].status != Cancelled ==>
        && rows == WithStatus(old(rows), id, Cancelled)
        && r == Ok(rows[id])
        && outbox == old(outbox) + [Notification(rows[id], "cancelled")]
      ensures NoDoubleBooking(old(rows)) ==> NoDoubleBooking(rows)
    {
      if id in rows && NoDoubleBooking(rows) {
        DeactivatingKeepsNoDoubleBooking(rows, id, Cancelled);
      }
      r := SetStatus(id, Cancelled, "cancelled", AlreadyCancelled);
    }

    /** `complete`: any appointment not already completed, a cancelled one included, becomes completed. */
    method Complete(id: nat) returns (r: Result<Appointment, ViewError>)
      requires Valid()
      modifies this
      ensures Valid() && nextId == old(nextId)
      ensures id !in old(rows) ==> r == Err(NotFound) && rows == old(rows) && outbox == old(outbox)
      ensures id in old(rows) && old(rows)[id].status == Completed ==>
        r == Err(AlreadyInStatus(AlreadyCompleted)) && rows == old(rows) && outbox == old(outbox)
      ensures id in old(rows) && old(rows)[id].status != Completed ==>
        && rows == WithStatus(old(rows), id, Completed)
        && r == Ok(rows[id])
        && outbox == old(outbox) + [Notification(rows[id], "updated")]
      ensures NoDoubleBooking(old(rows)) ==> NoDoubleBooking(rows)
    {
      if id in rows && NoDoubleBooking(rows) {
        DeactivatingKeepsNoDoubleBooking(rows, id, Completed);
      }
      r := SetStatus(id, Completed, "updated", AlreadyCompleted);
    }

    /** `mark_no_show`: any appointment not already a no-show becomes one; notifies "updated". */
    method MarkNoShow(id: nat) returns (r: Result<Appointment, ViewError>)
      requires Valid()
      modifies this
      ensures Valid() && nextId == old(nextId)
      ensures id !in old(rows) ==> r == Err(NotFound) && rows == old(rows) && outbox == old(outbox)
      ensures id in old(rows) && old(rows)[id].status == NoShow ==>
        r == Err(AlreadyInStatus(AlreadyNoShow)) && rows == old(rows) && outbox == old(outbox)
      ensures id in old(rows) && old(rows)[id].status != NoShow ==>
        && rows == WithStatus(old(rows), id, NoShow)
        && r == Ok(rows[id])
        && outbox == old(outbox) + [Notification(rows[id], "updated")]
    {
      r := SetStatus(id, NoShow, "updated", AlreadyNoShow);
    }
  }
}
